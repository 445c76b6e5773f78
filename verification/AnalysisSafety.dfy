/** Safety of the analysis queue: the budget windows at every instant, fenced workers, bounded attempts. */
module AnalysisSafety {
  import opened Basics
  import opened BudgetWindow
  import opened AnalysisQueue

  // ------------------------------------------------------------ window sums

  /** Everything ever charged to `who` after `from` and up to `to`, pruned or not. */
  function WindowSum(ledger: Ledger, who: Option<User>, from: Time, to: Time): nat {
    if ledger == [] then 0
    else
      var n := |ledger| - 1;
      WindowSum(ledger[..n], who, from, to)
      + if Concerns(ledger[n], who) && from < ledger[n].at <= to then CallsOf(ledger[n]) else 0
  }

  predicate WindowAt(ledger: Ledger, who: Option<User>, t: Time, window: Time, limit: nat) {
    WindowSum(ledger, who, t - window, t) <= limit
  }

  /** At no instant has the window of the given length held more than `limit`. */
  ghost predicate WindowHolds(ledger: Ledger, who: Option<User>, window: Time, limit: nat) {
    forall t :: WindowAt(ledger, who, t, window, limit)
  }

  /** The same charges or lower ones. */
  ghost predicate Lowers(before: Ledger, after: Ledger) {
    && |after| == |before|
    && forall i :: 0 <= i < |before| ==>
         && after[i].at == before[i].at && UserOf(after[i]) == UserOf(before[i])
         && CallsOf(after[i]) <= CallsOf(before[i])
  }

  lemma {:induction false} LowerSum(before: Ledger, after: Ledger, who: Option<User>, from: Time, to: Time)
    requires Lowers(before, after)
    ensures WindowSum(after, who, from, to) <= WindowSum(before, who, from, to)
  {
    if before != [] { LowerSum(before[..|before| - 1], after[..|after| - 1], who, from, to); }
  }

  lemma LoweredWindowHolds(before: Ledger, after: Ledger, who: Option<User>, window: Time, limit: nat)
    requires WindowHolds(before, who, window, limit) && Lowers(before, after)
    ensures WindowHolds(after, who, window, limit)
  {
    forall t ensures WindowAt(after, who, t, window, limit) {
      assert WindowAt(before, who, t, window, limit);
      LowerSum(before, after, who, t - window, t);
    }
  }

  ghost predicate NotAfter(ledger: Ledger, now: Time) {
    forall i :: 0 <= i < |ledger| ==> ledger[i].at <= now
  }

  /** Nothing charged so far lies after `now`, so a later window holds no more than the one ending now. */
  lemma {:induction false} LaterWindow(ledger: Ledger, who: Option<User>, now: Time, t: Time, window: Time)
    requires NotAfter(ledger, now) && now <= t
    ensures WindowSum(ledger, who, t - window, t) <= WindowSum(ledger, who, now - window, now)
  {
    if ledger != [] { LaterWindow(ledger[..|ledger| - 1], who, now, t, window); }
  }

  /** Rows the database has dropped lie before `since`. */
  ghost predicate PrunedBefore(ledger: Ledger, table: set<nat>, since: Time) {
    forall i :: 0 <= i < |ledger| && i !in table ==> ledger[i].at <= since
  }

  /** What the pruned table shows of the window is all there is. */
  lemma {:induction false} TableIsEnough(ledger: Ledger, table: set<nat>, who: Option<User>, since: Time, now: Time)
    requires PrunedBefore(ledger, table, since) && NotAfter(ledger, now)
    ensures Used(Charges(ledger, table, who), since) == WindowSum(ledger, who, since, now)
  {
    if ledger != [] {
      var n := |ledger| - 1;
      TableIsEnough(ledger[..n], table, who, since, now);
      var last := if n in table && Concerns(ledger[n], who) then [Charge(CallsOf(ledger[n]), ledger[n].at)] else [];
      UsedSplit(Charges(ledger[..n], table, who), last, since);
      if last != [] { assert last[1..] == []; }
    }
  }

  lemma {:induction false} ChargesSorted(ledger: Ledger, table: set<nat>, who: Option<User>)
    requires forall i, j :: 0 <= i < j < |ledger| ==> ledger[i].at <= ledger[j].at
    ensures IsSorted(Charges(ledger, table, who))
    ensures forall i :: 0 <= i < |Charges(ledger, table, who)| && ledger != [] ==>
      Charges(ledger, table, who)[i].at <= ledger[|ledger| - 1].at
  {
    if ledger != [] {
      var n := |ledger| - 1;
      ChargesSorted(ledger[..n], table, who);
    }
  }

  /** Admission keeps every window: a request that fits now fits all later windows, and no earlier
      one contains it. */
  lemma AdmittedWindowHolds(ledger: Ledger, table: set<nat>, who: Option<User>, now: Time, row: Row, window: Time, limit: nat)
    requires WindowHolds(ledger, who, window, limit) && NotAfter(ledger, now) && PrunedBefore(ledger, table, now - window)
    requires row.at == now && Concerns(row, who)
             ==> FitsWindow(Charges(ledger, table, who), now, CallsOf(row), limit, window)
    requires row.at == now
    ensures WindowHolds(ledger + [row], who, window, limit)
  {
    TableIsEnough(ledger, table, who, now - window, now);
    forall t ensures WindowAt(ledger + [row], who, t, window, limit) {
      assert WindowAt(ledger, who, t, window, limit);
      assert (ledger + [row])[..|ledger|] == ledger;
      if t >= now { LaterWindow(ledger, who, now, t, window); }
    }
  }

  // ------------------------------------------------------------- the invariant

  ghost predicate LedgerOk(s: State) {
    && NotAfter(s.ledger, s.clock)
    && (forall i, j :: 0 <= i < j < |s.ledger| ==> s.ledger[i].at <= s.ledger[j].at)
    && (forall i :: i in s.table ==> i < |s.ledger|)
    && (forall i :: 0 <= i < |s.ledger| && i !in s.table ==>
          s.ledger[i].at < s.clock - KEEP_USAGE && (s.ledger[i].Reservation? ==> s.ledger[i].settled))
  }

  /** A reservation not yet settled is of the job's latest attempt; earlier ones are settled. */
  ghost predicate FencedOk(jobs: Jobs, ledger: Ledger) {
    forall i :: 0 <= i < |ledger| && ledger[i].Reservation? ==>
      && ledger[i].actual <= RESERVED_CALLS
      && ledger[i].key in jobs && ledger[i].attempt <= jobs[ledger[i].key].attempts
      && (!ledger[i].settled ==> ledger[i].attempt == jobs[ledger[i].key].attempts)
  }

  /** The calls recorded for one job, over all its attempts. */
  function CallsFor(ledger: Ledger, k: Key): nat {
    if ledger == [] then 0
    else
      var n := |ledger| - 1;
      CallsFor(ledger[..n], k) + if ledger[n].Reservation? && ledger[n].key == k then ledger[n].actual else 0
  }

  function ReservationsFor(ledger: Ledger, k: Key): nat {
    if ledger == [] then 0
    else
      var n := |ledger| - 1;
      ReservationsFor(ledger[..n], k) + if ledger[n].Reservation? && ledger[n].key == k then 1 else 0
  }

  ghost predicate CountOk(jobs: Jobs, ledger: Ledger) {
    forall k :: ReservationsFor(ledger, k) <= if k in jobs then jobs[k].attempts else 0
  }

  /** The windows of each scope that is bounded at all. */
  ghost predicate BudgetOk(s: State, bounds: Limits) {
    && (HasGlobal(bounds) ==> GlobalHolds(s.ledger, bounds))
    && (HasTenant(bounds) ==> forall user :: TenantHolds(s.ledger, user, bounds))
  }

  ghost predicate GlobalHolds(ledger: Ledger, bounds: Limits) {
    && WindowHolds(ledger, None, HOUR, Effective(bounds.globalHourly))
    && WindowHolds(ledger, None, DAY, Effective(bounds.globalDaily))
  }

  ghost predicate TenantHolds(ledger: Ledger, user: User, bounds: Limits) {
    && WindowHolds(ledger, Some(user), HOUR, Effective(bounds.hourly))
    && WindowHolds(ledger, Some(user), DAY, Effective(bounds.daily))
  }

  ghost predicate AttemptsOk(jobs: Jobs, max: nat) {
    forall k :: k in jobs ==> jobs[k].attempts <= max
  }

  ghost predicate Inv(s: State, limits: Limits, max: nat) {
    LedgerOk(s) && FencedOk(s.jobs, s.ledger) && CountOk(s.jobs, s.ledger) && BudgetOk(s, limits) && AttemptsOk(s.jobs, max)
  }

  // ------------------------------------------------------- changes to the jobs

  /** Attempts are kept, and a job that is done stays done. */
  ghost predicate KeepsJobs(before: Jobs, after: Jobs) {
    forall k :: k in before ==>
      && k in after && after[k].attempts == before[k].attempts
      && (IsTerminal(before[k]) ==> after[k] == before[k])
  }

  lemma JobStatementsKeepJobs(jobs: Jobs, user: User, event: Option<string>, now: Time, max: Option<nat>, ages: Ages,
                              until: Time, reason: Reason)
    ensures KeepsJobs(jobs, ReclaimOwn(jobs, user, now, max)) && ReclaimOwn(jobs, user, now, max).Keys == jobs.Keys
    ensures KeepsJobs(jobs, ReclaimAll(jobs, now)) && ReclaimAll(jobs, now).Keys == jobs.Keys
    ensures KeepsJobs(jobs, RetireStale(jobs, Some(user), now, ages)) && RetireStale(jobs, Some(user), now, ages).Keys == jobs.Keys
    ensures KeepsJobs(jobs, Defer(jobs, user, event, now, until, reason)) && Defer(jobs, user, event, now, until, reason).Keys == jobs.Keys
  {
    hide ReclaimOwn, ReclaimAll, RetireStale, Defer, KeepsJobs;
    ReclaimingKeepsJobs(jobs, user, now, max);
    RetiringKeepsJobs(jobs, Some(user), now, ages);
    DeferringKeepsJobs(jobs, user, event, now, until, reason);
  }

  lemma ReclaimingKeepsJobs(jobs: Jobs, user: User, now: Time, max: Option<nat>)
    ensures KeepsJobs(jobs, ReclaimOwn(jobs, user, now, max)) && ReclaimOwn(jobs, user, now, max).Keys == jobs.Keys
    ensures KeepsJobs(jobs, ReclaimAll(jobs, now)) && ReclaimAll(jobs, now).Keys == jobs.Keys
  {
  }

  lemma RetiringKeepsJobs(jobs: Jobs, who: Option<User>, now: Time, ages: Ages)
    ensures KeepsJobs(jobs, RetireStale(jobs, who, now, ages)) && RetireStale(jobs, who, now, ages).Keys == jobs.Keys
  {
  }

  lemma DeferringKeepsJobs(jobs: Jobs, user: User, event: Option<string>, now: Time, until: Time, reason: Reason)
    ensures KeepsJobs(jobs, Defer(jobs, user, event, now, until, reason)) && Defer(jobs, user, event, now, until, reason).Keys == jobs.Keys
  {
  }

  /** With the attempts unchanged, fences, counts and bounds carry over. */
  lemma JobsKeepInv(s: State, jobs: Jobs, limits: Limits, max: nat)
    requires Inv(s, limits, max) && KeepsJobs(s.jobs, jobs) && jobs.Keys == s.jobs.Keys
    ensures Inv(s.(jobs := jobs), limits, max)
  {
    hide LedgerOk, BudgetOk;
    assert FencedOk(jobs, s.ledger);
    assert AttemptsOk(jobs, max);
    assert BudgetOk(s.(jobs := jobs), limits) by { SameLedgerBudget(s, s.(jobs := jobs), limits); }
    assert LedgerOk(s.(jobs := jobs)) by { SameLedger(s, s.(jobs := jobs)); }
  }

  lemma SameLedgerBudget(s: State, s': State, limits: Limits)
    requires BudgetOk(s, limits) && s'.ledger == s.ledger
    ensures BudgetOk(s', limits)
  {
    hide WindowHolds;
  }

  lemma SameLedger(s: State, s': State)
    requires LedgerOk(s) && s'.ledger == s.ledger && s'.table == s.table && s'.clock >= s.clock
    ensures LedgerOk(s')
  {
  }

  lemma ClockKeepsInv(s: State, now: Time, limits: Limits, max: nat)
    requires Inv(s, limits, max) && now >= s.clock
    ensures Inv(s.(clock := now), limits, max)
  {
    SameLedger(s, s.(clock := now));
    SameLedgerBudget(s, s.(clock := now), limits);
    hide LedgerOk, BudgetOk, FencedOk, CountOk, AttemptsOk;
  }

  // --------------------------------------------------- changes to the charges

  /** Row by row the same reservation or call, perhaps settled or with another call recorded. */
  ghost predicate Progresses(before: Ledger, after: Ledger) {
    && |after| == |before|
    && forall i :: 0 <= i < |before| ==>
         || after[i] == before[i]
         || (&& before[i].Reservation? && after[i].Reservation? && !before[i].settled
             && after[i].key == before[i].key && after[i].attempt == before[i].attempt && after[i].at == before[i].at
             && before[i].actual <= after[i].actual <= RESERVED_CALLS)
  }

  lemma ProgressLowers(before: Ledger, after: Ledger)
    requires Progresses(before, after)
    ensures Lowers(before, after)
  {
  }

  lemma ProgressKeepsBudget(s: State, s': State, bounds: Limits)
    requires BudgetOk(s, bounds) && Progresses(s.ledger, s'.ledger)
    ensures BudgetOk(s', bounds)
  {
    ProgressLowers(s.ledger, s'.ledger);
    hide WindowHolds, Lowers, Progresses;
    if HasGlobal(bounds) {
      LoweredWindowHolds(s.ledger, s'.ledger, None, HOUR, Effective(bounds.globalHourly));
      LoweredWindowHolds(s.ledger, s'.ledger, None, DAY, Effective(bounds.globalDaily));
    }
    if HasTenant(bounds) {
      forall user ensures TenantHolds(s'.ledger, user, bounds) {
        assert TenantHolds(s.ledger, user, bounds);
        LoweredWindowHolds(s.ledger, s'.ledger, Some(user), HOUR, Effective(bounds.hourly));
        LoweredWindowHolds(s.ledger, s'.ledger, Some(user), DAY, Effective(bounds.daily));
      }
    }
  }

  lemma {:induction false} ProgressKeepsCount(before: Ledger, after: Ledger, k: Key)
    requires Progresses(before, after)
    ensures ReservationsFor(after, k) == ReservationsFor(before, k)
  {
    if before != [] { ProgressKeepsCount(before[..|before| - 1], after[..|after| - 1], k); }
  }

  lemma ProgressKeepsFences(jobs: Jobs, before: Ledger, after: Ledger)
    requires FencedOk(jobs, before) && Progresses(before, after)
    ensures FencedOk(jobs, after)
  {
  }

  lemma ProgressKeepsLedger(s: State, after: Ledger)
    requires LedgerOk(s) && Progresses(s.ledger, after)
    ensures LedgerOk(s.(ledger := after))
  {
    ProgressLowers(s.ledger, after);
    assert forall i :: 0 <= i < |after| && i !in s.table ==> after[i] == s.ledger[i];
    hide Progresses;
  }

  lemma ProgressKeepsInv(s: State, after: Ledger, limits: Limits, max: nat)
    requires Inv(s, limits, max) && Progresses(s.ledger, after)
    ensures Inv(s.(ledger := after), limits, max)
  {
    forall k ensures ReservationsFor(after, k) == ReservationsFor(s.ledger, k) { ProgressKeepsCount(s.ledger, after, k); }
    hide LedgerOk, BudgetOk, FencedOk, Progresses;
    ProgressKeepsLedger(s, after);
    ProgressKeepsBudget(s, s.(ledger := after), limits);
    ProgressKeepsFences(s.jobs, s.ledger, after);
  }

  lemma SettlingProgresses(ledger: Ledger, jobs: Jobs, who: Option<User>)
    requires FencedOk(jobs, ledger)
    ensures Progresses(ledger, SettleInactive(ledger, jobs, who))
  {
  }

  /** After it, every reservation left unsettled belongs to the worker holding the job. */
  lemma SettlingIsThorough(ledger: Ledger, jobs: Jobs, who: Option<User>, i: nat)
    requires i < |ledger|
    ensures var row := SettleInactive(ledger, jobs, who)[i];
            row.Reservation? && !row.settled && Concerns(row, who) ==> IsActive(jobs, row)
  {
  }

  /** Deleting old rows: what is deleted is settled and out of every window. */
  lemma PruneKeepsInv(s: State, direct: bool, limits: Limits, max: nat)
    requires Inv(s, limits, max)
    ensures Inv(s.(table := Prune(s.ledger, s.table, s.clock, direct)), limits, max)
  {
    var s' := s.(table := Prune(s.ledger, s.table, s.clock, direct));
    SameLedgerBudget(s, s', limits);
    hide BudgetOk, FencedOk, CountOk, AttemptsOk;
  }

  lemma GlobalSweepKeepsInv(s: State, limits: Limits, max: nat)
    requires Inv(s, limits, max)
    ensures Inv(GlobalSweep(s), limits, max)
  {
    var jobs := ReclaimAll(s.jobs, s.clock);
    JobsKeepInv(s, jobs, limits, max);
    SettlingProgresses(s.ledger, jobs, None);
    hide Inv, ReclaimAll, SettleInactive, Prune;
    var s1 := s.(jobs := jobs);
    var s2 := s1.(ledger := SettleInactive(s1.ledger, jobs, None));
    ProgressKeepsInv(s1, s2.ledger, limits, max);
    PruneKeepsInv(s2, true, limits, max);
  }

  lemma TenantSweepKeepsInv(s: State, user: User, limits: Limits, max: nat)
    requires Inv(s, limits, max)
    ensures Inv(TenantSweep(s, user), limits, max)
  {
    SettlingProgresses(s.ledger, s.jobs, Some(user));
    hide Inv, SettleInactive, Prune;
    var s1 := s.(ledger := SettleInactive(s.ledger, s.jobs, Some(user)));
    ProgressKeepsInv(s, s1.ledger, limits, max);
    PruneKeepsInv(s1, false, limits, max);
  }

  lemma ClaimSweepKeepsInv(s: State, user: User, now: Time, limits: Limits, max: nat, bound: Option<nat>, ages: Ages)
    requires Inv(s, limits, max) && now >= s.clock
    ensures Inv(ClaimSweep(s, user, now, bound, ages), limits, max)
  {
    var jobs := ReclaimOwn(s.jobs, user, now, bound);
    JobStatementsKeepJobs(s.jobs, user, None, now, bound, ages, now, Unset);
    JobStatementsKeepJobs(jobs, user, None, now, bound, ages, now, Unset);
    ClockKeepsInv(s, now, limits, max);
    var s1 := s.(clock := now);
    JobsKeepInv(s1, jobs, limits, max);
    var s2 := s1.(jobs := jobs);
    SettlingProgresses(s2.ledger, jobs, Some(user));
    hide Inv, SettleInactive, RetireStale, ReclaimOwn;
    var s3 := s2.(ledger := SettleInactive(s2.ledger, jobs, Some(user)));
    ProgressKeepsInv(s2, s3.ledger, limits, max);
    JobsKeepInv(s3, RetireStale(jobs, Some(user), now, ages), limits, max);
  }

  lemma AfterKeepsInv(s: State, user: User, limits: Limits, bounds: Limits, max: nat)
    requires Inv(s, bounds, max)
    ensures Inv(AfterGlobal(s, limits), bounds, max) && Inv(AfterTenant(s, user, limits), bounds, max)
  {
    hide Inv;
    GlobalSweepKeepsInv(s, bounds, max);
    TenantSweepKeepsInv(s, user, bounds, max);
  }

  // ---------------------------------------------------------------- admission

  /** Every bounded scope has room for the row, in both of its windows. */
  ghost predicate HasRoomFor(s: State, row: Row, bounds: Limits) {
    && row.at == s.clock
    && (HasGlobal(bounds) ==>
          Fits(Charges(s.ledger, s.table, None), s.clock, CallsOf(row), Effective(bounds.globalHourly), Effective(bounds.globalDaily)))
    && (HasTenant(bounds) ==>
          Fits(Charges(s.ledger, s.table, Some(UserOf(row))), s.clock, CallsOf(row), Effective(bounds.hourly), Effective(bounds.daily)))
  }

  lemma AppendKeepsBudget(s: State, row: Row, bounds: Limits)
    requires LedgerOk(s) && BudgetOk(s, bounds) && HasRoomFor(s, row, bounds)
    ensures BudgetOk(Append(s, row), bounds)
  {
    assert PrunedBefore(s.ledger, s.table, s.clock - HOUR) && PrunedBefore(s.ledger, s.table, s.clock - DAY);
    hide LedgerOk, WindowHolds, PrunedBefore, NotAfter;
    assert NotAfter(s.ledger, s.clock) by { AllCharged(s); }
    if HasGlobal(bounds) {
      AdmittedWindowHolds(s.ledger, s.table, None, s.clock, row, HOUR, Effective(bounds.globalHourly));
      AdmittedWindowHolds(s.ledger, s.table, None, s.clock, row, DAY, Effective(bounds.globalDaily));
    }
    if HasTenant(bounds) {
      forall user ensures TenantHolds(s.ledger + [row], user, bounds) {
        assert TenantHolds(s.ledger, user, bounds);
        AdmittedWindowHolds(s.ledger, s.table, Some(user), s.clock, row, HOUR, Effective(bounds.hourly));
        AdmittedWindowHolds(s.ledger, s.table, Some(user), s.clock, row, DAY, Effective(bounds.daily));
      }
    }
  }

  lemma AllCharged(s: State)
    requires LedgerOk(s)
    ensures NotAfter(s.ledger, s.clock)
  {
  }

  lemma AppendKeepsLedger(s: State, row: Row)
    requires LedgerOk(s) && row.at == s.clock
    ensures LedgerOk(Append(s, row))
  {
  }

  lemma DirectKeepsInv(s: State, row: Row, bounds: Limits, max: nat)
    requires Inv(s, bounds, max) && row.Direct? && HasRoomFor(s, row, bounds)
    ensures Inv(Append(s, row), bounds, max)
  {
    AppendKeepsBudget(s, row, bounds);
    AppendKeepsLedger(s, row);
    forall k ensures ReservationsFor(s.ledger + [row], k) == ReservationsFor(s.ledger, k) { OneMoreRow(s.ledger, row, k); }
    hide LedgerOk, BudgetOk, HasRoomFor;
  }

  lemma OneMoreRow(ledger: Ledger, row: Row, k: Key)
    ensures ReservationsFor(ledger + [row], k)
         == ReservationsFor(ledger, k) + if row.Reservation? && row.key == k then 1 else 0
  {
    assert (ledger + [row])[..|ledger|] == ledger;
  }

  ghost predicate AllSettled(ledger: Ledger, k: Key) {
    forall i :: 0 <= i < |ledger| && ledger[i].Reservation? && ledger[i].key == k ==> ledger[i].settled
  }

  /** Taking the next attempt of a job whose reservations are all settled fences the earlier ones off. */
  lemma NextAttemptKeepsFences(jobs: Jobs, ledger: Ledger, k: Key, j: Job)
    requires FencedOk(jobs, ledger) && AllSettled(ledger, k) && k in jobs && j.attempts == jobs[k].attempts + 1
    ensures FencedOk(jobs[k := j], ledger)
  {
  }

  lemma ReservationKeepsFences(jobs: Jobs, ledger: Ledger, k: Key, at: Time)
    requires FencedOk(jobs, ledger) && k in jobs
    ensures FencedOk(jobs, ledger + [Reservation(k, jobs[k].attempts, 0, false, at)])
  {
  }

  /** The attempts go up by one, and the reservations by no more. */
  lemma NextAttemptKeepsCount(jobs: Jobs, ledger: Ledger, k: Key, j: Job, row: Row)
    requires CountOk(jobs, ledger) && k in jobs && j.attempts == jobs[k].attempts + 1 && row.Reservation? && row.key == k
    ensures CountOk(jobs[k := j], ledger) && CountOk(jobs[k := j], ledger + [row])
  {
    hide ReservationsFor;
    forall x ensures ReservationsFor(ledger + [row], x) == ReservationsFor(ledger, x) + if x == k then 1 else 0 {
      OneMoreRow(ledger, row, x);
    }
  }

  /** A claim takes the next attempt of an open job all of whose reservations are settled. */
  lemma LeaseKeepsInv(s: State, k: Key, limits: Limits, bounds: Limits, max: nat)
    requires Inv(s, bounds, max) && k in s.jobs && s.jobs[k].attempts < max && AllSettled(s.ledger, k)
    requires HasLimit(limits) ==> HasRoomFor(s, Reservation(k, s.jobs[k].attempts + 1, 0, false, s.clock), bounds)
    ensures Inv(Lease(s, k, limits), bounds, max)
  {
    var s' := Lease(s, k, limits);
    var row, j := Reservation(k, s.jobs[k].attempts + 1, 0, false, s.clock), s'.jobs[k];
    NextAttemptKeepsFences(s.jobs, s.ledger, k, j);
    ReservationKeepsFences(s.jobs[k := j], s.ledger, k, s.clock);
    NextAttemptKeepsCount(s.jobs, s.ledger, k, j, row);
    hide FencedOk, CountOk, LedgerOk, BudgetOk, HasRoomFor, AllSettled;
    if HasLimit(limits) {
      AppendKeepsBudget(s, row, bounds);
      AppendKeepsLedger(s, row);
      SameLedger(Append(s, row), s');
      SameLedgerBudget(Append(s, row), s', bounds);
    } else {
      SameLedger(s, s');
      SameLedgerBudget(s, s', bounds);
    }
  }
}
