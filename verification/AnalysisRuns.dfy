/** Whole runs of the analysis queue under fixed limits and a clock that does not run backwards. */
module AnalysisRuns {
  import opened Basics
  import opened BudgetWindow
  import opened AnalysisQueue
  import opened AnalysisSafety

  /** The setting of a run: the limits claims and direct calls are made with, the bound on attempts,
      the retirement ages. */
  datatype Setting = Setting(limits: Limits, direct: Limits, max: nat, ages: Ages)

  function Larger(a: Option<nat>, b: Option<nat>): nat {
    Max(Effective(a), Effective(b))
  }

  /** A scope is bounded when both kinds of admission check it, and then by the larger limit. */
  function Bounds(g: Setting): Limits {
    var tenant, global := HasTenant(g.limits) && HasTenant(g.direct), HasGlobal(g.limits) && HasGlobal(g.direct);
    Limits(if tenant then Some(Larger(g.limits.hourly, g.direct.hourly)) else None,
           if tenant then Some(Larger(g.limits.daily, g.direct.daily)) else None,
           if global then Some(Larger(g.limits.globalHourly, g.direct.globalHourly)) else None,
           if global then Some(Larger(g.limits.globalDaily, g.direct.globalDaily)) else None)
  }

  /** What fitted before charges were settled or old rows deleted still fits afterwards. */
  lemma FitsAfterProgress(s: State, s': State, who: Option<User>, calls: nat, hourly: nat, daily: nat)
    requires LedgerOk(s) && LedgerOk(s') && s'.clock == s.clock && Progresses(s.ledger, s'.ledger)
    requires Fits(Charges(s.ledger, s.table, who), s.clock, calls, hourly, daily)
    ensures Fits(Charges(s'.ledger, s'.table, who), s'.clock, calls, hourly, daily)
  {
    ProgressLowers(s.ledger, s'.ledger);
    WindowsShown(s, who);
    WindowsShown(s', who);
    LowerSum(s.ledger, s'.ledger, who, s.clock - HOUR, s.clock);
    LowerSum(s.ledger, s'.ledger, who, s.clock - DAY, s.clock);
    hide LedgerOk, Progresses, Lowers;
  }

  lemma WindowsShown(s: State, who: Option<User>)
    requires LedgerOk(s)
    ensures Used(Charges(s.ledger, s.table, who), s.clock - HOUR) == WindowSum(s.ledger, who, s.clock - HOUR, s.clock)
    ensures Used(Charges(s.ledger, s.table, who), s.clock - DAY) == WindowSum(s.ledger, who, s.clock - DAY, s.clock)
  {
    TableIsEnough(s.ledger, s.table, who, s.clock - HOUR, s.clock);
    TableIsEnough(s.ledger, s.table, who, s.clock - DAY, s.clock);
  }

  lemma SweepsProgress(s: State, user: User, limits: Limits)
    requires FencedOk(s.jobs, s.ledger)
    ensures Progresses(s.ledger, AfterTenant(s, user, limits).ledger) && AfterTenant(s, user, limits).clock == s.clock
    ensures Progresses(s.ledger, AfterGlobal(s, limits).ledger) && AfterGlobal(s, limits).clock == s.clock
  {
    SettlingProgresses(s.ledger, s.jobs, Some(user));
    JobStatementsKeepJobs(s.jobs, user, None, s.clock, None, Ages(0, 0), s.clock, Unset);
    assert Progresses(s.ledger, s.ledger);
    hide Progresses;
    SettlingProgresses(s.ledger, ReclaimAll(s.jobs, s.clock), None);
  }

  /** A request that fits what its own caller allows fits the larger bound. */
  lemma FitsBounds(charges: seq<Charge>, now: Time, calls: nat, hourly: Option<nat>, daily: Option<nat>, h: nat, d: nat)
    requires IsBudgetAnswer(charges, now, calls, Effective(hourly), Effective(daily), None)
    requires h >= Effective(hourly) && d >= Effective(daily)
    ensures Fits(charges, now, calls, h, d)
  {
  }

  // -------------------------------------------------------------------- claim

  /** A due job is open, has an attempt left, and all its reservations are settled. */
  lemma PickIsFree(s: State, user: User, event: Option<string>, now: Time, g: Setting, k: Key)
    requires IsDue(ClaimSweep(s, user, now, Some(g.max), g.ages).jobs, k, user, event, now)
    ensures var s1 := ClaimSweep(s, user, now, Some(g.max), g.ages);
            s1.jobs[k].attempts < g.max && AllSettled(s1.ledger, k)
  {
    var jobs := ReclaimOwn(s.jobs, user, now, Some(g.max));
    forall i | 0 <= i < |s.ledger| && s.ledger[i].Reservation? && s.ledger[i].key == k
      ensures SettleInactive(s.ledger, jobs, Some(user))[i].settled
    {
      SettlingIsThorough(s.ledger, jobs, Some(user), i);
    }
  }

  /** The budget checks leave an open job open and a settled reservation settled. */
  lemma ChecksKeepPick(s: State, user: User, limits: Limits, k: Key)
    requires k in s.jobs && IsOpen(s.jobs[k]) && AllSettled(s.ledger, k)
    ensures AfterGlobal(s, limits).jobs.Keys == s.jobs.Keys && AfterGlobal(s, limits).jobs[k] == s.jobs[k]
    ensures AllSettled(AfterGlobal(s, limits).ledger, k)
    ensures AfterTenant(s, user, limits).jobs == s.jobs && AllSettled(AfterTenant(s, user, limits).ledger, k)
  {
  }

  lemma InvHolds(s: State, bounds: Limits, max: nat)
    requires Inv(s, bounds, max)
    ensures LedgerOk(s) && FencedOk(s.jobs, s.ledger)
  {
    hide LedgerOk, FencedOk, CountOk, BudgetOk, AttemptsOk;
  }

  lemma GrantKeepsInv(s2: State, user: User, k: Key, g: Setting)
    requires Inv(s2, Bounds(g), g.max) && k.0 == user
    requires k in s2.jobs && IsOpen(s2.jobs[k]) && s2.jobs[k].attempts < g.max && AllSettled(s2.ledger, k)
    requires Answers(s2, None, RESERVED_CALLS, g.limits.globalHourly, g.limits.globalDaily, None)
    requires Answers(AfterTenant(s2, user, g.limits), Some(user), RESERVED_CALLS, g.limits.hourly, g.limits.daily, None)
    ensures Inv(Lease(AfterTenant(s2, user, g.limits), k, g.limits), Bounds(g), g.max)
  {
    hide Inv, LedgerOk, FencedOk, AfterTenant, AllSettled, Fits, IsBudgetAnswer, Charges, Lease, Progresses;
    var s3 := AfterTenant(s2, user, g.limits);
    AfterKeepsInv(s2, user, g.limits, Bounds(g), g.max);
    InvHolds(s2, Bounds(g), g.max);
    InvHolds(s3, Bounds(g), g.max);
    SweepsProgress(s2, user, g.limits);
    ChecksKeepPick(s2, user, g.limits, k);
    var b := Bounds(g);
    if HasGlobal(b) {
      FitsBounds(Charges(s2.ledger, s2.table, None), s2.clock, RESERVED_CALLS, g.limits.globalHourly, g.limits.globalDaily,
                 Effective(b.globalHourly), Effective(b.globalDaily));
      FitsAfterProgress(s2, s3, None, RESERVED_CALLS, Effective(b.globalHourly), Effective(b.globalDaily));
    }
    if HasTenant(b) {
      FitsBounds(Charges(s3.ledger, s3.table, Some(user)), s3.clock, RESERVED_CALLS, g.limits.hourly, g.limits.daily,
                 Effective(b.hourly), Effective(b.daily));
    }
    LeaseKeepsInv(s3, k, g.limits, b, g.max);
  }

  lemma ClaimKeepsInv(s: State, user: User, event: Option<string>, now: Time, g: Setting, c: Choice)
    requires Inv(s, Bounds(g), g.max) && now >= s.clock
    requires IsChoice(s, user, event, now, g.limits, Some(g.max), g.ages, c)
    ensures Inv(Claim(s, user, event, now, g.limits, Some(g.max), g.ages, c), Bounds(g), g.max)
  {
    hide Inv, Bounds, AllSettled;
    ClaimSweepKeepsInv(s, user, now, Bounds(g), g.max, Some(g.max), g.ages);
    var s1 := ClaimSweep(s, user, now, Some(g.max), g.ages);
    if c.pick.Some? {
      PickIsFree(s, user, event, now, g, c.pick.value);
      hide ClaimSweep;
      ChecksKeepPick(s1, user, g.limits, c.pick.value);
      AfterKeepsInv(s1, user, g.limits, Bounds(g), g.max);
      var s2 := AfterGlobal(s1, g.limits);
      hide AfterGlobal;
      if c.global.Some? {
        DeferKeepsInv(s2, user, event, now, c.global.value, GlobalDeferred, g);
      } else {
        AfterKeepsInv(s2, user, g.limits, Bounds(g), g.max);
        ChecksKeepPick(s2, user, g.limits, c.pick.value);
        var s3 := AfterTenant(s2, user, g.limits);
        hide AfterTenant, Answers, Lease, Defer;
        if c.tenant.Some? {
          DeferKeepsInv(s3, user, event, now, c.tenant.value, TenantDeferred, g);
        } else {
          GrantKeepsInv(s2, user, c.pick.value, g);
        }
      }
    }
  }

  lemma DeferKeepsInv(s: State, user: User, event: Option<string>, now: Time, until: Time, reason: Reason, g: Setting)
    requires Inv(s, Bounds(g), g.max)
    ensures Inv(s.(jobs := Defer(s.jobs, user, event, now, until, reason)), Bounds(g), g.max)
  {
    JobStatementsKeepJobs(s.jobs, user, event, now, None, g.ages, until, reason);
    hide Inv, Defer, ReclaimOwn, ReclaimAll, RetireStale;
    JobsKeepInv(s, Defer(s.jobs, user, event, now, until, reason), Bounds(g), g.max);
  }

  lemma DirectCallKeepsInv(s: State, user: User, now: Time, g: Setting, tenant: Option<Time>, global: Option<Time>)
    requires Inv(s, Bounds(g), g.max) && now >= s.clock
    requires IsDirectChoice(s, user, now, g.direct, tenant, global)
    ensures Inv(DirectCall(s, user, now, g.direct, tenant, global).0, Bounds(g), g.max)
  {
    hide Inv, Bounds, AfterTenant, AfterGlobal, Answers;
    ClockKeepsInv(s, now, Bounds(g), g.max);
    AfterKeepsInv(s.(clock := now), user, g.direct, Bounds(g), g.max);
    var s1 := AfterTenant(s.(clock := now), user, g.direct);
    SweepsKeepClock(s.(clock := now), user, g.direct);
    if tenant.None? {
      AfterKeepsInv(s1, user, g.direct, Bounds(g), g.max);
      if global.None? { DirectGrantKeepsInv(s1, user, g); }
    }
  }

  lemma SweepsKeepClock(s: State, user: User, limits: Limits)
    ensures AfterTenant(s, user, limits).clock == AfterGlobal(s, limits).clock == s.clock
  {
  }

  lemma DirectGrantKeepsInv(s1: State, user: User, g: Setting)
    requires Inv(s1, Bounds(g), g.max)
    requires Answers(s1, Some(user), 1, g.direct.hourly, g.direct.daily, None)
    requires Answers(AfterGlobal(s1, g.direct), None, 1, g.direct.globalHourly, g.direct.globalDaily, None)
    ensures Inv(Append(AfterGlobal(s1, g.direct), Direct(user, s1.clock)), Bounds(g), g.max)
  {
    hide Inv, LedgerOk, FencedOk, AfterGlobal, Fits, IsBudgetAnswer, Charges, Progresses;
    var s2 := AfterGlobal(s1, g.direct);
    AfterKeepsInv(s1, user, g.direct, Bounds(g), g.max);
    InvHolds(s1, Bounds(g), g.max);
    InvHolds(s2, Bounds(g), g.max);
    SweepsProgress(s1, user, g.direct);
    var b := Bounds(g);
    if HasTenant(b) {
      FitsBounds(Charges(s1.ledger, s1.table, Some(user)), s1.clock, 1, g.direct.hourly, g.direct.daily,
                 Effective(b.hourly), Effective(b.daily));
      FitsAfterProgress(s1, s2, Some(user), 1, Effective(b.hourly), Effective(b.daily));
    }
    if HasGlobal(b) {
      FitsBounds(Charges(s2.ledger, s2.table, None), s2.clock, 1, g.direct.globalHourly, g.direct.globalDaily,
                 Effective(b.globalHourly), Effective(b.globalDaily));
    }
    DirectKeepsInv(s2, Direct(user, s1.clock), b, g.max);
  }

  // ------------------------------------------------------- the other operations

  lemma RecordKeepsInv(s: State, id: nat, g: Setting)
    requires Inv(s, Bounds(g), g.max)
    ensures Inv(Record(s, id).0, Bounds(g), g.max)
  {
    assert Progresses(s.ledger, Record(s, id).0.ledger);
    hide Inv, Progresses;
    ProgressKeepsInv(s, Record(s, id).0.ledger, Bounds(g), g.max);
  }

  lemma SettleKeepsInv(s: State, id: nat, k: Key, attempt: nat, now: Time, one: Option<Key>, g: Setting)
    requires Inv(s, Bounds(g), g.max) && now >= s.clock && MayWake(s.jobs, now, one)
    ensures Inv(Settle(s, id, k, attempt, now, one).0, Bounds(g), g.max)
  {
    ClockKeepsInv(s, now, Bounds(g), g.max);
    var s1, s' := s.(clock := now), Settle(s, id, k, attempt, now, one).0;
    assert Progresses(s.ledger, s'.ledger) by {
      if 0 <= id < |s.ledger| && s.ledger[id].Reservation? { assert s.ledger[id].actual <= RESERVED_CALLS; }
    }
    assert KeepsJobs(s.jobs, s'.jobs) && s'.jobs.Keys == s.jobs.Keys;
    hide Inv, Progresses, KeepsJobs, Wake;
    ProgressKeepsInv(s1, s'.ledger, Bounds(g), g.max);
    JobsKeepInv(s1.(ledger := s'.ledger), s'.jobs, Bounds(g), g.max);
  }

  /** A worker may only move the job it holds, and only without touching its attempts. */
  lemma WorkerKeepsInv(s: State, now: Time, k: Key, j: Job, g: Setting)
    requires Inv(s, Bounds(g), g.max) && now >= s.clock && k in s.jobs
    requires !IsTerminal(s.jobs[k]) && j.attempts == s.jobs[k].attempts
    ensures Inv(s.(clock := now, jobs := s.jobs[k := j]), Bounds(g), g.max)
  {
    assert KeepsJobs(s.jobs, s.jobs[k := j]);
    hide Inv;
    ClockKeepsInv(s, now, Bounds(g), g.max);
    JobsKeepInv(s.(clock := now), s.jobs[k := j], Bounds(g), g.max);
  }

  lemma FinishKeepsInv(s: State, k: Key, attempt: nat, published: bool, reason: Reason, now: Time, g: Setting)
    requires Inv(s, Bounds(g), g.max) && now >= s.clock
    ensures Inv(Complete(s, k, attempt, published, reason, now).0, Bounds(g), g.max)
  {
    hide Inv;
    ClockKeepsInv(s, now, Bounds(g), g.max);
    if HoldsLease(s.jobs, k, attempt) {
      WorkerKeepsInv(s, now, k, Complete(s, k, attempt, published, reason, now).0.jobs[k], g);
    }
  }

  lemma RetryKeepsInv(s: State, k: Key, attempt: nat, delay: Time, reason: Reason, now: Time, g: Setting)
    requires Inv(s, Bounds(g), g.max) && now >= s.clock
    ensures Inv(RetryJob(s, k, attempt, delay, reason, now).0, Bounds(g), g.max)
  {
    hide Inv;
    ClockKeepsInv(s, now, Bounds(g), g.max);
    if HoldsLease(s.jobs, k, attempt) {
      WorkerKeepsInv(s, now, k, RetryJob(s, k, attempt, delay, reason, now).0.jobs[k], g);
    }
  }

  lemma EnqueueKeepsInv(s: State, k: Key, kind: Kind, approved: bool, priority: nat, occurredAt: Time, now: Time, g: Setting)
    requires Inv(s, Bounds(g), g.max) && now >= s.clock
    ensures Inv(Enqueue(s, k, kind, approved, priority, occurredAt, now), Bounds(g), g.max)
  {
    var s' := Enqueue(s, k, kind, approved, priority, occurredAt, now);
    if k in s.jobs {
      hide Inv;
      ClockKeepsInv(s, now, Bounds(g), g.max);
      if IsOpen(s.jobs[k]) { WorkerKeepsInv(s, now, k, s'.jobs[k], g); }
    } else {
      SameLedger(s, s');
      SameLedgerBudget(s, s', Bounds(g));
      hide LedgerOk, BudgetOk;
    }
  }

  lemma OpenJobsKeepInv(s: State, now: Time, ages: Ages, who: Option<User>, g: Setting)
    requires Inv(s, Bounds(g), g.max) && now >= s.clock
    ensures Inv(Recheck(s, now), Bounds(g), g.max)
    ensures Inv(s.(clock := now, jobs := RetireStale(s.jobs, who, now, ages)), Bounds(g), g.max)
  {
    ClockKeepsInv(s, now, Bounds(g), g.max);
    hide Inv;
    JobsKeepInv(s.(clock := now), Recheck(s, now).jobs, Bounds(g), g.max);
    JobsKeepInv(s.(clock := now), RetireStale(s.jobs, who, now, ages), Bounds(g), g.max);
  }

  // --------------------------------------------------------------- whole runs

  datatype Op =
    | OpClaim(user: User, event: Option<string>, choice: Choice, now: Time)
    | OpDirect(user: User, tenant: Option<Time>, global: Option<Time>, now: Time)
    | OpRecord(id: nat)
    | OpSettle(id: nat, k: Key, attempt: nat, one: Option<Key>, now: Time)
    | OpComplete(k: Key, attempt: nat, published: bool, reason: Reason, now: Time)
    | OpRetry(k: Key, attempt: nat, base: nat, reason: Reason, now: Time)
    | OpEnqueue(k: Key, kind: Kind, approved: bool, priority: nat, occurredAt: Time, now: Time)
    | OpRetire(who: Option<User>, now: Time)
    | OpRecheck(now: Time)

  ghost predicate Enabled(s: State, g: Setting, op: Op) {
    match op
    case OpClaim(user, event, choice, now) =>
      now >= s.clock && IsChoice(s, user, event, now, g.limits, Some(g.max), g.ages, choice)
    case OpDirect(user, tenant, global, now) => now >= s.clock && IsDirectChoice(s, user, now, g.direct, tenant, global)
    case OpRecord(_) => true
    case OpSettle(_, _, _, one, now) => now >= s.clock && MayWake(s.jobs, now, one)
    case _ => op.now >= s.clock
  }

  ghost function Step(s: State, g: Setting, op: Op): State {
    match op
    case OpClaim(user, event, choice, now) => Claim(s, user, event, now, g.limits, Some(g.max), g.ages, choice)
    case OpDirect(user, tenant, global, now) => DirectCall(s, user, now, g.direct, tenant, global).0
    case OpRecord(id) => Record(s, id).0
    case OpSettle(id, k, attempt, one, now) => Settle(s, id, k, attempt, now, one).0
    case OpComplete(k, attempt, published, reason, now) => Complete(s, k, attempt, published, reason, now).0
    case OpRetry(k, attempt, base, reason, now) => RetryOrFail(s, k, attempt, g.max, base, reason, now).0
    case OpEnqueue(k, kind, approved, priority, occurredAt, now) => Enqueue(s, k, kind, approved, priority, occurredAt, now)
    case OpRetire(who, now) => s.(clock := now, jobs := RetireStale(s.jobs, who, now, g.ages))
    case OpRecheck(now) => Recheck(s, now)
  }

  lemma StepKeepsInv(s: State, g: Setting, op: Op)
    requires Inv(s, Bounds(g), g.max) && Enabled(s, g, op)
    ensures Inv(Step(s, g, op), Bounds(g), g.max)
  {
    hide Inv, Bounds;
    match op
    case OpClaim(user, event, choice, now) => ClaimKeepsInv(s, user, event, now, g, choice);
    case OpDirect(user, tenant, global, now) => DirectCallKeepsInv(s, user, now, g, tenant, global);
    case OpRecord(id) => RecordKeepsInv(s, id, g);
    case OpSettle(id, k, attempt, one, now) => SettleKeepsInv(s, id, k, attempt, now, one, g);
    case OpComplete(k, attempt, published, reason, now) => FinishKeepsInv(s, k, attempt, published, reason, now, g);
    case OpRetry(k, attempt, base, reason, now) =>
      FinishKeepsInv(s, k, attempt, false, Exhausted, now, g);
      RetryKeepsInv(s, k, attempt, Backoff(base, attempt), reason, now, g);
    case OpEnqueue(k, kind, approved, priority, occurredAt, now) =>
      EnqueueKeepsInv(s, k, kind, approved, priority, occurredAt, now, g);
    case OpRetire(who, now) => OpenJobsKeepInv(s, now, g.ages, who, g);
    case OpRecheck(now) => OpenJobsKeepInv(s, now, g.ages, None, g);
  }

  ghost predicate IsRun(g: Setting, run: seq<State>, ops: seq<Op>) {
    && |run| == |ops| + 1 && run[0].jobs == map[] && run[0].ledger == [] && run[0].table == {}
    && forall i :: 0 <= i < |ops| ==> Enabled(run[i], g, ops[i]) && run[i + 1] == Step(run[i], g, ops[i])
  }

  lemma {:induction false} EveryRunKeepsInv(g: Setting, run: seq<State>, ops: seq<Op>, n: nat)
    requires IsRun(g, run, ops) && n < |run|
    ensures Inv(run[n], Bounds(g), g.max)
  {
    hide Inv, Step, Enabled;
    if n == 0 {
      EmptyIsFine(run[0], g);
    } else {
      EveryRunKeepsInv(g, run, ops, n - 1);
      assert Enabled(run[n - 1], g, ops[n - 1]) && run[n - 1 + 1] == Step(run[n - 1], g, ops[n - 1]);
      StepKeepsInv(run[n - 1], g, ops[n - 1]);
    }
  }

  lemma EmptyIsFine(s: State, g: Setting)
    requires s.jobs == map[] && s.ledger == [] && s.table == {}
    ensures Inv(s, Bounds(g), g.max)
  {
  }

  // ---------------------------------------------------------- what it implies

  /** At every instant of every run, and looking back from any of its states on the complete
      history, the trailing hour and day of the whole service and of each tenant are within their
      limits: of each of the two scopes that claims and direct calls check, whatever the other is. */
  lemma BudgetHoldsAtEveryInstant(g: Setting, run: seq<State>, ops: seq<Op>, n: nat, user: User, t: Time)
    requires IsRun(g, run, ops) && n < |run|
    ensures var past := run[n].ledger;
            && (HasGlobal(g.limits) && HasGlobal(g.direct) ==>
                  && WindowSum(past, None, t - HOUR, t) <= Larger(g.limits.globalHourly, g.direct.globalHourly)
                  && WindowSum(past, None, t - DAY, t) <= Larger(g.limits.globalDaily, g.direct.globalDaily))
            && (HasTenant(g.limits) && HasTenant(g.direct) ==>
                  && WindowSum(past, Some(user), t - HOUR, t) <= Larger(g.limits.hourly, g.direct.hourly)
                  && WindowSum(past, Some(user), t - DAY, t) <= Larger(g.limits.daily, g.direct.daily))
  {
    EveryRunKeepsInv(g, run, ops, n);
    var past, b := run[n].ledger, Bounds(g);
    assert BudgetOk(run[n], b);
    hide Inv, IsRun;
    if HasGlobal(b) {
      assert WindowAt(past, None, t, HOUR, Effective(b.globalHourly)) && WindowAt(past, None, t, DAY, Effective(b.globalDaily));
    }
    if HasTenant(b) {
      assert TenantHolds(past, user, b);
      assert WindowAt(past, Some(user), t, HOUR, Effective(b.hourly)) && WindowAt(past, Some(user), t, DAY, Effective(b.daily));
    }
  }

  /** A charge keeps its owner and instant, never rises, and is final once settled. */
  ghost predicate ChargesOnlyFall(before: Ledger, after: Ledger) {
    && |before| <= |after|
    && forall i :: 0 <= i < |before| ==>
         && after[i].at == before[i].at && UserOf(after[i]) == UserOf(before[i])
         && CallsOf(after[i]) <= CallsOf(before[i])
         && (before[i].Direct? || before[i].settled ==> after[i] == before[i])
  }

  lemma ProgressOnlyFalls(before: Ledger, after: Ledger)
    requires Progresses(before, after)
    ensures ChargesOnlyFall(before, after)
  {
  }

  lemma FallTwice(a: Ledger, b: Ledger, c: Ledger)
    requires ChargesOnlyFall(a, b) && ChargesOnlyFall(b, c)
    ensures ChargesOnlyFall(a, c)
  {
  }

  lemma ChargesNeverRise(s: State, g: Setting, op: Op)
    requires Inv(s, Bounds(g), g.max) && Enabled(s, g, op)
    ensures ChargesOnlyFall(s.ledger, Step(s, g, op).ledger)
  {
    assert FencedOk(s.jobs, s.ledger);
    match op
    case OpClaim(user, event, choice, now) => ClaimOnlyLowers(s, user, event, now, g, choice);
    case OpDirect(user, tenant, global, now) => DirectOnlyLowers(s, user, now, g, tenant, global);
    case OpSettle(id, k, attempt, one, now) =>
      assert Progresses(s.ledger, Step(s, g, op).ledger) by {
        if 0 <= id < |s.ledger| && s.ledger[id].Reservation? { assert s.ledger[id].actual <= RESERVED_CALLS; }
      }
      ProgressOnlyFalls(s.ledger, Step(s, g, op).ledger);
    case OpRecord(id) =>
      assert Progresses(s.ledger, Step(s, g, op).ledger);
      ProgressOnlyFalls(s.ledger, Step(s, g, op).ledger);
    case _ =>
  }

  lemma ClaimOnlyLowers(s: State, user: User, event: Option<string>, now: Time, g: Setting, c: Choice)
    requires Inv(s, Bounds(g), g.max) && now >= s.clock
    ensures ChargesOnlyFall(s.ledger, Claim(s, user, event, now, g.limits, Some(g.max), g.ages, c).ledger)
  {
    hide Inv, Bounds, ChargesOnlyFall, ClaimSweep, AfterGlobal, AfterTenant, Defer;
    var s1 := ClaimSweep(s, user, now, Some(g.max), g.ages);
    var s2 := AfterGlobal(s1, g.limits);
    var s3 := AfterTenant(s2, user, g.limits);
    ClaimSweepKeepsInv(s, user, now, Bounds(g), g.max, Some(g.max), g.ages);
    AfterKeepsInv(s1, user, g.limits, Bounds(g), g.max);
    ClaimSweepFalls(s, user, now, g);
    ChecksOnlyLower(s1, user, g);
    ChecksOnlyLower(s2, user, g);
    FallTwice(s.ledger, s1.ledger, s2.ledger);
    FallTwice(s.ledger, s2.ledger, s3.ledger);
    if c.pick.Some? && c.global.None? && c.tenant.None? && c.pick.value in s3.jobs && HasLimit(g.limits) {
      AppendFalls(s3.ledger, Reservation(c.pick.value, s3.jobs[c.pick.value].attempts + 1, 0, false, s3.clock));
      FallTwice(s.ledger, s3.ledger, Lease(s3, c.pick.value, g.limits).ledger);
    }
  }

  lemma ClaimSweepFalls(s: State, user: User, now: Time, g: Setting)
    requires Inv(s, Bounds(g), g.max)
    ensures ChargesOnlyFall(s.ledger, ClaimSweep(s, user, now, Some(g.max), g.ages).ledger)
  {
    hide ChargesOnlyFall, SettleInactive;
    SettlingFalls(s.ledger, ReclaimOwn(s.jobs, user, now, Some(g.max)), Some(user));
  }

  lemma ChecksOnlyLower(s: State, user: User, g: Setting)
    requires Inv(s, Bounds(g), g.max)
    ensures ChargesOnlyFall(s.ledger, AfterGlobal(s, g.limits).ledger)
    ensures ChargesOnlyFall(s.ledger, AfterTenant(s, user, g.limits).ledger)
    ensures ChargesOnlyFall(s.ledger, AfterGlobal(s, g.direct).ledger)
    ensures ChargesOnlyFall(s.ledger, AfterTenant(s, user, g.direct).ledger)
  {
    hide ChargesOnlyFall, Progresses, LedgerOk, BudgetOk, CountOk, AttemptsOk, AfterGlobal, AfterTenant;
    SweepsProgress(s, user, g.limits);
    SweepsProgress(s, user, g.direct);
    ProgressOnlyFalls(s.ledger, AfterGlobal(s, g.limits).ledger);
    ProgressOnlyFalls(s.ledger, AfterTenant(s, user, g.limits).ledger);
    ProgressOnlyFalls(s.ledger, AfterGlobal(s, g.direct).ledger);
    ProgressOnlyFalls(s.ledger, AfterTenant(s, user, g.direct).ledger);
  }

  lemma DirectOnlyLowers(s: State, user: User, now: Time, g: Setting, tenant: Option<Time>, global: Option<Time>)
    requires Inv(s, Bounds(g), g.max) && now >= s.clock
    ensures ChargesOnlyFall(s.ledger, DirectCall(s, user, now, g.direct, tenant, global).0.ledger)
  {
    hide Inv, ChargesOnlyFall, AfterGlobal, AfterTenant;
    ClockKeepsInv(s, now, Bounds(g), g.max);
    var s1 := AfterTenant(s.(clock := now), user, g.direct);
    var s2 := AfterGlobal(s1, g.direct);
    AfterKeepsInv(s.(clock := now), user, g.direct, Bounds(g), g.max);
    ChecksOnlyLower(s.(clock := now), user, g);
    ChecksOnlyLower(s1, user, g);
    AppendFalls(s2.ledger, Direct(user, now));
    FallTwice(s.ledger, s1.ledger, s2.ledger);
    FallTwice(s.ledger, s2.ledger, s2.ledger + [Direct(user, now)]);
  }

  lemma SettlingFalls(ledger: Ledger, jobs: Jobs, who: Option<User>)
    requires forall i :: 0 <= i < |ledger| && ledger[i].Reservation? ==> ledger[i].actual <= RESERVED_CALLS
    ensures ChargesOnlyFall(ledger, SettleInactive(ledger, jobs, who))
  {
    ProgressOnlyFalls(ledger, SettleInactive(ledger, jobs, who));
  }

  lemma AppendFalls(ledger: Ledger, row: Row)
    ensures ChargesOnlyFall(ledger, ledger + [row])
  {
  }

  /** A worker whose attempt is not the job's latest can record no call and move no job. */
  lemma StaleWorkerIsFenced(s: State, g: Setting, id: nat, k: Key, attempt: nat, max: nat, base: nat, reason: Reason,
                            published: bool, now: Time)
    requires Inv(s, Bounds(g), g.max) && k in s.jobs && s.jobs[k].attempts != attempt
    ensures IsReservation(s, id, k, attempt) ==> !Record(s, id).1 && Record(s, id).0 == s
    ensures !Complete(s, k, attempt, published, reason, now).1 && Complete(s, k, attempt, published, reason, now).0.jobs == s.jobs
    ensures !RetryOrFail(s, k, attempt, max, base, reason, now).1
            && RetryOrFail(s, k, attempt, max, base, reason, now).0.jobs == s.jobs
  {
    assert FencedOk(s.jobs, s.ledger);
  }

  /** As soon as a check of the global budget has run after its lease was taken back, the worker can record no
      further call, even if nobody has claimed the job again. */
  lemma ReclaimedWorkerCannotSpend(s: State, id: nat)
    requires id < |s.ledger| && s.ledger[id].Reservation?
    requires !IsActive(ReclaimAll(s.jobs, s.clock), s.ledger[id])
    ensures !Record(GlobalSweep(s), id).1
  {
    SettlingIsThorough(s.ledger, ReclaimAll(s.jobs, s.clock), None, id);
  }

  lemma {:induction false} CallsAreReserved(ledger: Ledger, k: Key)
    requires forall i :: 0 <= i < |ledger| && ledger[i].Reservation? ==> ledger[i].actual <= RESERVED_CALLS
    ensures CallsFor(ledger, k) <= RESERVED_CALLS * ReservationsFor(ledger, k)
  {
    if ledger != [] { CallsAreReserved(ledger[..|ledger| - 1], k); }
  }

  /** The provider calls recorded for one event, over all its attempts and retries. */
  lemma CallsPerEventAreBounded(g: Setting, run: seq<State>, ops: seq<Op>, n: nat, k: Key)
    requires IsRun(g, run, ops) && n < |run|
    ensures CallsFor(run[n].ledger, k) <= RESERVED_CALLS * g.max
  {
    EveryRunKeepsInv(g, run, ops, n);
    CallsAreReserved(run[n].ledger, k);
    assert ReservationsFor(run[n].ledger, k) <= g.max;
  }

  /** `op` grants a lease on `k` in state `s`. */
  ghost predicate Grants(s: State, g: Setting, op: Op, k: Key) {
    op.OpClaim? && op.choice.pick == Some(k) && op.choice.global.None? && op.choice.tenant.None?
  }

  ghost function Grantings(g: Setting, run: seq<State>, ops: seq<Op>, k: Key): nat
    requires |run| == |ops| + 1
  {
    if ops == [] then 0
    else
      var n := |ops| - 1;
      Grantings(g, run[..n + 1], ops[..n], k) + if Grants(run[n], g, ops[n], k) then 1 else 0
  }

  /** A step keeps a job's attempts, but for a granted lease, which uses exactly one; a job that is
      published or closed stays as it is. */
  lemma OneStepOnJob(s: State, g: Setting, op: Op, k: Key)
    requires Enabled(s, g, op) && k in s.jobs
    ensures k in Step(s, g, op).jobs
    ensures Step(s, g, op).jobs[k].attempts == s.jobs[k].attempts + if Grants(s, g, op, k) then 1 else 0
    ensures s.jobs[k].status.NoIntervention? || s.jobs[k].status.Published? ==> Step(s, g, op).jobs[k] == s.jobs[k]
  {
    hide Claim, IsChoice, IsDirectChoice, SettleInactive, Prune, ReclaimAll, RetireStale;
    match op
    case OpClaim(user, event, choice, now) => ClaimOnJob(s, g, user, event, now, choice, k);
    case OpDirect(user, tenant, global, now) => ReclaimingKeepsJobs(s.jobs, user, now, None);
    case OpRetire(who, now) => RetiringKeepsJobs(s.jobs, who, now, g.ages);
    case _ =>
  }

  lemma ClaimOnJob(s: State, g: Setting, user: User, event: Option<string>, now: Time, c: Choice, k: Key)
    requires k in s.jobs && IsChoice(s, user, event, now, g.limits, Some(g.max), g.ages, c)
    ensures var after := Claim(s, user, event, now, g.limits, Some(g.max), g.ages, c).jobs;
            && k in after
            && after[k].attempts == s.jobs[k].attempts
                 + (if c.pick == Some(k) && c.global.None? && c.tenant.None? then 1 else 0)
            && (IsTerminal(s.jobs[k]) ==> after[k] == s.jobs[k])
  {
    hide Answers, SettleInactive, Prune, ReclaimOwn, ReclaimAll, RetireStale, Defer, IsPick;
    var s1 := ClaimSweep(s, user, now, Some(g.max), g.ages);
    var s2 := AfterGlobal(s1, g.limits);
    ReclaimingKeepsJobs(s.jobs, user, now, Some(g.max));
    RetiringKeepsJobs(ReclaimOwn(s.jobs, user, now, Some(g.max)), Some(user), now, g.ages);
    ReclaimingKeepsJobs(s1.jobs, user, now, None);
    assert AfterTenant(s2, user, g.limits).jobs == s2.jobs;
    if c.global.Some? { DeferringKeepsJobs(s2.jobs, user, event, now, c.global.value, GlobalDeferred); }
    if c.tenant.Some? { DeferringKeepsJobs(s2.jobs, user, event, now, c.tenant.value, TenantDeferred); }
    if c.pick.Some? { PickIsOpen(s1.jobs, user, event, now, c.pick.value); }
  }

  lemma PickIsOpen(jobs: Jobs, user: User, event: Option<string>, now: Time, k: Key)
    requires IsPick(jobs, user, event, now, Some(k))
    ensures k in jobs && IsOpen(jobs[k])
  {
  }

  /** Every claim uses up one of the job's attempts, so there are at most `max` of them. */
  lemma {:induction false} ClaimsAreCounted(g: Setting, run: seq<State>, ops: seq<Op>, k: Key)
    requires IsRun(g, run, ops)
    ensures Grantings(g, run, ops, k) == (if k in run[|ops|].jobs then run[|ops|].jobs[k].attempts else 0) <= g.max
    decreases |ops|
  {
    EveryRunKeepsInv(g, run, ops, |ops|);
    if ops != [] {
      var n := |ops| - 1;
      ClaimsAreCounted(g, run[..n + 1], ops[..n], k);
      assert run[n + 1] == Step(run[n], g, ops[n]) && Enabled(run[n], g, ops[n]);
      hide Inv;
      if k in run[n].jobs { OneStepOnJob(run[n], g, ops[n], k); } else { NewJobHasNoAttempts(run[n], g, ops[n], k); }
    }
  }

  lemma NewJobHasNoAttempts(s: State, g: Setting, op: Op, k: Key)
    requires Enabled(s, g, op) && k !in s.jobs
    ensures !Grants(s, g, op, k)
    ensures k in Step(s, g, op).jobs ==> Step(s, g, op).jobs[k].attempts == 0
  {
    hide Answers, SettleInactive, Prune;
    if op.OpClaim? && op.choice.pick.Some? {
      var s1 := ClaimSweep(s, op.user, op.now, Some(g.max), g.ages);
      assert IsDue(s1.jobs, op.choice.pick.value, op.user, op.event, op.now);
    }
  }
}
