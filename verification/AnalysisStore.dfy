/** The job queue and the two usage tables as they stand in the database. Every method is proved to
    take exactly the step of `AnalysisQueue` it is named after. */
module AnalysisStore {
  import opened Basics
  import opened BudgetWindow
  import opened AnalysisQueue
  import opened AnalysisSafety
  import opened AnalysisRuns
  import opened AnalysisAnswers

  /** Charges are entered in the order of their instants. */
  ghost predicate InOrder(ledger: Ledger, now: Time) {
    && NotAfter(ledger, now)
    && forall i, j :: 0 <= i < j < |ledger| ==> ledger[i].at <= ledger[j].at
  }

  class Queue {
    var clock: Time
    var jobs: Jobs
    var rows: map<nat, Row>
    var nextRow: nat
    ghost var ledger: Ledger

    ghost predicate Valid()
      reads this
    {
      && |ledger| == nextRow && InOrder(ledger, clock)
      && forall i :: i in rows ==> i < nextRow && rows[i] == ledger[i]
    }

    ghost function View(): State
      reads this
    {
      State(clock, jobs, ledger, rows.Keys)
    }

    constructor (now: Time)
      ensures Valid() && View() == State(now, map[], [], {})
    {
      clock, jobs, rows, nextRow, ledger := now, map[], map[], 0, [];
    }

    // ------------------------------------------------------------- the budgets

    /** The rows the budget queries read. */
    method Usage(who: Option<User>) returns (charges: seq<Charge>)
      requires Valid()
      ensures charges == Charges(ledger, rows.Keys, who) && IsSorted(charges)
    {
      charges := [];
      for i := 0 to nextRow
        invariant charges == Charges(ledger[..i], rows.Keys, who)
      {
        assert ledger[..i + 1][..i] == ledger[..i];
        if i in rows && Concerns(rows[i], who) {
          charges := charges + [Charge(CallsOf(rows[i]), rows[i].at)];
        }
      }
      assert ledger[..nextRow] == ledger;
      ChargesSorted(ledger, rows.Keys, who);
    }

    method Budget(who: Option<User>, calls: nat, hourly: Option<nat>, daily: Option<nat>) returns (until: Option<Time>)
      requires Valid()
      ensures Answers(View(), who, calls, hourly, daily, until)
    {
      if hourly.None? && daily.None? { return None; }
      var charges := Usage(who);
      until := BudgetDeferUntil(charges, clock, calls, Effective(hourly), Effective(daily));
    }

    method SettleInactive(who: Option<User>)
      requires Valid()
      modifies `rows, `ledger
      ensures Valid() && View() == old(View()).(ledger := AnalysisQueue.SettleInactive(old(ledger), jobs, who))
    {
      rows := map i | i in rows :: if Abandoned(jobs, rows[i], who) then rows[i].(settled := true) else rows[i];
      ledger := AnalysisQueue.SettleInactive(ledger, jobs, who);
    }

    method Prune(direct: bool)
      requires Valid()
      modifies `rows
      ensures Valid() && View() == old(View()).(table := AnalysisQueue.Prune(ledger, old(rows.Keys), clock, direct))
    {
      rows := map i | i in rows && !IsOld(rows[i], clock, direct) :: rows[i];
    }

    /** `_reserve_user_model_budget_locked` */
    method ReserveTenant(user: User, calls: nat, limits: Limits) returns (until: Option<Time>)
      requires Valid()
      modifies `rows, `ledger
      ensures Valid() && View() == AfterTenant(old(View()), user, limits)
      ensures Answers(View(), Some(user), calls, limits.hourly, limits.daily, until)
    {
      if limits.hourly.Some? || limits.daily.Some? {
        SettleInactive(Some(user));
        Prune(false);
      }
      until := Budget(Some(user), calls, limits.hourly, limits.daily);
    }

    /** `_reserve_global_model_budget_locked` */
    method ReserveGlobal(calls: nat, limits: Limits) returns (until: Option<Time>)
      requires Valid()
      modifies `jobs, `rows, `ledger
      ensures Valid() && View() == AfterGlobal(old(View()), limits)
      ensures Answers(View(), None, calls, limits.globalHourly, limits.globalDaily, until)
    {
      if limits.globalHourly.Some? || limits.globalDaily.Some? {
        jobs := ReclaimAll(jobs, clock);
        SettleInactive(None);
        Prune(true);
      }
      until := Budget(None, calls, limits.globalHourly, limits.globalDaily);
    }

    method Insert(row: Row) returns (id: nat)
      requires Valid() && row.at == clock
      modifies `rows, `nextRow, `ledger
      ensures Valid() && View() == Append(old(View()), row) && id == |old(ledger)|
    {
      id := nextRow;
      rows, nextRow, ledger := rows[nextRow := row], nextRow + 1, ledger + [row];
    }

    // ------------------------------------------------------------------- claim

    /** The due job that comes first. */
    method Pick(user: User, event: Option<string>) returns (pick: Option<Key>)
      ensures IsPick(jobs, user, event, clock, pick)
    {
      pick := None;
      var left := jobs.Keys;
      while left != {}
        invariant left <= jobs.Keys
        invariant pick.Some? ==> IsDue(jobs, pick.value, user, event, clock)
        invariant forall k :: IsDue(jobs, k, user, event, clock) && k !in left ==>
          pick.Some? && NotBefore(jobs[k], jobs[pick.value])
      {
        var k :| k in left;
        left := left - {k};
        if IsDue(jobs, k, user, event, clock) && (pick.None? || !NotBefore(jobs[k], jobs[pick.value])) {
          pick := Some(k);
        }
      }
    }

    /** What a claim does before it chooses a job. */
    method Sweep(user: User, now: Time, max: Option<nat>, ages: Ages)
      requires Valid() && now >= clock
      modifies this
      ensures Valid() && View() == ClaimSweep(old(View()), user, now, max, ages) && clock == now
    {
      clock := now;
      jobs := ReclaimOwn(jobs, user, now, max);
      hide ReclaimOwn, RetireStale;
      SettleInactive(Some(user));
      jobs := RetireStale(jobs, Some(user), now, ages);
    }

    /** `claim_analysis_job`: the job leased and the number of its reservation, if it has one. */
    method Claim(user: User, event: Option<string>, now: Time, limits: Limits, max: Option<nat>, ages: Ages)
      returns (leased: Option<Key>, reservation: Option<nat>, ghost c: Choice)
      requires Valid() && now >= clock
      modifies this
      ensures Valid()
      ensures IsChoice(old(View()), user, event, now, limits, max, ages, c)
      ensures View() == AnalysisQueue.Claim(old(View()), user, event, now, limits, max, ages, c)
      ensures leased == if c.global.None? && c.tenant.None? then c.pick else None
      ensures reservation.Some? <==> leased.Some? && HasLimit(limits)
      ensures leased.Some? ==> HoldsLease(jobs, leased.value, jobs[leased.value].attempts)
      ensures reservation.Some? ==> IsReservation(View(), reservation.value, leased.value, jobs[leased.value].attempts)
    {
      hide ClaimSweep, Answers, IsPick, AfterGlobal, AfterTenant, Defer, HasLimit, IsReservation;
      Sweep(user, now, max, ages);
      leased, reservation := None, None;
      var pick := Pick(user, event);
      c := Choice(pick, None, None);
      if pick.None? { return; }
      DueIsThere(View(), user, event, pick.value, limits);
      var global := ReserveGlobal(RESERVED_CALLS, limits);
      c := Choice(pick, global, None);
      if global.Some? {
        jobs := Defer(jobs, user, event, now, global.value, GlobalDeferred);
        return;
      }
      var tenant := ReserveTenant(user, RESERVED_CALLS, limits);
      c := Choice(pick, None, tenant);
      if tenant.Some? {
        jobs := Defer(jobs, user, event, now, tenant.value, TenantDeferred);
        return;
      }
      leased := pick;
      reservation := Grant(pick.value, limits);
    }

    method Grant(k: Key, limits: Limits) returns (reservation: Option<nat>)
      requires Valid() && k in jobs
      modifies this
      ensures Valid() && View() == Lease(old(View()), k, limits)
      ensures k in jobs && HoldsLease(jobs, k, jobs[k].attempts) && (reservation.Some? <==> HasLimit(limits))
      ensures reservation.Some? ==> IsReservation(View(), reservation.value, k, jobs[k].attempts)
    {
      jobs := jobs[k := jobs[k].(status := Running, attempts := jobs[k].attempts + 1, updatedAt := clock, reason := Unset)];
      reservation := None;
      if HasLimit(limits) {
        var id := Insert(Reservation(k, jobs[k].attempts, 0, false, clock));
        reservation := Some(id);
      }
    }

    /** `reserve_global_direct_model_call` */
    method DirectCall(user: User, now: Time, limits: Limits)
      returns (granted: bool, ghost tenant: Option<Time>, ghost global: Option<Time>)
      requires Valid() && now >= clock
      modifies this
      ensures Valid() && IsDirectChoice(old(View()), user, now, limits, tenant, global)
      ensures (View(), granted) == AnalysisQueue.DirectCall(old(View()), user, now, limits, tenant, global)
    {
      hide Answers, AfterGlobal, AfterTenant;
      clock := now;
      var own := ReserveTenant(user, 1, limits);
      tenant, global := own, None;
      if own.Some? { return false, tenant, global; }
      SweepKeepsClock(View(), limits);
      var shared := ReserveGlobal(1, limits);
      global := shared;
      if shared.Some? { return false, tenant, global; }
      var id := Insert(Direct(user, now));
      return true, tenant, global;
    }

    // ------------------------------------------------------------- the worker

    method Write(id: nat, row: Row)
      requires Valid() && id in rows && row.at == rows[id].at
      modifies `rows, `ledger
      ensures Valid() && View() == old(View()).(ledger := old(ledger)[id := row])
    {
      rows, ledger := rows[id := row], ledger[id := row];
      assert rows.Keys == old(rows.Keys);
    }

    /** `record_analysis_model_call` */
    method Record(id: nat) returns (recorded: bool)
      requires Valid()
      modifies `rows, `ledger
      ensures Valid() && (View(), recorded) == AnalysisQueue.Record(old(View()), id)
    {
      recorded := id in rows && rows[id].Reservation? && !rows[id].settled && rows[id].actual < RESERVED_CALLS;
      if recorded {
        Write(id, rows[id].(actual := rows[id].actual + 1));
      }
    }

    /** The one job woken when global room is released. */
    method NextWaiting() returns (one: Option<Key>)
      ensures MayWake(jobs, clock, one)
      ensures one.None? ==> forall k :: k in jobs ==> !MayWake(jobs, clock, Some(k))
      ensures one.Some? ==> forall k :: k in jobs && MayWake(jobs, clock, Some(k)) ==>
        var best, j := jobs[one.value], jobs[k];
        && best.priority >= j.priority
        && (best.priority == j.priority ==> best.nextAttempt <= j.nextAttempt)
        && (best.priority == j.priority && best.nextAttempt == j.nextAttempt ==> best.createdAt <= j.createdAt)
    {
      one := None;
      var left := jobs.Keys;
      while left != {}
        invariant left <= jobs.Keys && MayWake(jobs, clock, one)
        invariant forall k :: k in jobs && MayWake(jobs, clock, Some(k)) && k !in left ==>
          one.Some? && !WokenBefore(jobs[k], jobs[one.value])
      {
        var k :| k in left;
        left := left - {k};
        if MayWake(jobs, clock, Some(k)) && (one.None? || WokenBefore(jobs[k], jobs[one.value])) {
          one := Some(k);
        }
      }
    }

    /** `settle_analysis_model_reservation` */
    method Settle(id: nat, k: Key, attempt: nat, now: Time) returns (found: bool, ghost one: Option<Key>)
      requires Valid() && now >= clock
      modifies this
      ensures Valid() && MayWake(old(jobs), now, one)
      ensures (View(), found) == AnalysisQueue.Settle(old(View()), id, k, attempt, now, one)
    {
      clock := now;
      one := None;
      found := id in rows && rows[id].Reservation? && rows[id].key == k && rows[id].attempt == attempt;
      if !found { return; }
      var released := !rows[id].settled && rows[id].actual < RESERVED_CALLS;
      Write(id, rows[id].(settled := true));
      if released {
        var next := NextWaiting();
        one := next;
        jobs := Wake(jobs, k.0, now, next);
      }
    }

    /** `complete_analysis_job` */
    method Complete(k: Key, attempt: nat, published: bool, reason: Reason, now: Time) returns (done: bool)
      requires Valid() && now >= clock
      modifies `clock, `jobs
      ensures Valid() && (View(), done) == AnalysisQueue.Complete(old(View()), k, attempt, published, reason, now)
      ensures done ==>
                && k in jobs && jobs[k].reason == reason
                && if published then jobs[k].status.Published? else jobs[k].status.NoIntervention?
    {
      clock := now;
      done := HoldsLease(jobs, k, attempt);
      if done {
        jobs := jobs[k := jobs[k].(status := if published then Published else NoIntervention, reason := reason, updatedAt := now)];
      }
    }

    /** `_retry` of the processor, with `retry_analysis_job` */
    method RetryOrFail(k: Key, attempt: nat, max: nat, base: nat, reason: Reason, now: Time) returns (done: bool)
      requires Valid() && now >= clock
      modifies `clock, `jobs
      ensures Valid() && (View(), done) == AnalysisQueue.RetryOrFail(old(View()), k, attempt, max, base, reason, now)
    {
      if attempt >= max {
        done := Complete(k, attempt, false, Exhausted, now);
        return;
      }
      var delay, exponent := base, 0;
      while exponent < Min(8, Max(0, attempt - 1))
        invariant 0 <= exponent <= Min(8, Max(0, attempt - 1)) && delay == base * Pow2(exponent)
      {
        delay, exponent := 2 * delay, exponent + 1;
      }
      clock := now;
      done := HoldsLease(jobs, k, attempt);
      if done {
        jobs := jobs[k := jobs[k].(status := Retry, nextAttempt := now + Max(0, Min(HOUR, Min(HOUR, delay))),
                                   reason := reason, updatedAt := now)];
      }
    }

    /** The gateway of a worker: each of the `wanted` provider attempts is recorded before it is made. */
    method Attempt(id: nat, wanted: nat) returns (made: nat)
      requires Valid() && id in rows && rows[id].Reservation? && rows[id].actual <= RESERVED_CALLS
      modifies `rows, `ledger
      ensures Valid() && made == if old(ledger[id]).settled then 0 else Min(wanted, RESERVED_CALLS - old(ledger[id]).actual)
      ensures View() == old(View()).(ledger := old(ledger)[id := old(ledger[id]).(actual := old(ledger[id]).actual + made)])
    {
      ghost var row := ledger[id];
      made := 0;
      var recorded := true;
      while made < wanted && recorded
        invariant Valid() && View() == old(View()).(ledger := old(ledger)[id := row.(actual := row.actual + made)])
        invariant row.actual + made <= RESERVED_CALLS && made <= wanted
        invariant !recorded ==> row.settled || row.actual + made == RESERVED_CALLS
        invariant made > 0 ==> !row.settled
        decreases wanted - made, recorded
      {
        recorded := Record(id);
        if recorded { made := made + 1; }
      }
    }

    /** The attempts, none if a preference is against them, and the end of the job. */
    method Work(k: Key, attempt: nat, id: nat, wanted: nat, verdict: Verdict, max: nat, base: nat, now: Time)
      returns (made: nat)
      requires Valid() && now >= clock && IsReservation(View(), id, k, attempt) && ledger[id].actual <= RESERVED_CALLS
      modifies this
      ensures Valid() && clock == now
      ensures made == if verdict.Blocked? || old(ledger[id]).settled then 0 else Min(wanted, RESERVED_CALLS - old(ledger[id]).actual)
      ensures var worked := old(View()).(ledger := old(ledger)[id := old(ledger[id]).(actual := old(ledger[id]).actual + made)]);
              View() == AnalysisQueue.Finish(worked, k, attempt, verdict.Blocked? || made == wanted, verdict, max, base, now).0
      ensures ledger == old(ledger)[id := old(ledger[id]).(actual := old(ledger[id]).actual + made)] && rows.Keys == old(rows.Keys)
      ensures IsHolder(old(View()), k, attempt) ==>
                IsEndedBy(jobs, k, attempt, verdict.Blocked? || made == wanted, verdict, max)
    {
      hide AnalysisQueue.Finish, InOrder, OnlyJob;
      made := 0;
      assert old(ledger)[id := old(ledger[id])] == old(ledger);
      if !verdict.Blocked? { made := Attempt(id, wanted); }
      FinishKeepsLedger(View(), k, attempt, verdict.Blocked? || made == wanted, verdict, max, base, now);
      if IsHolder(View(), k, attempt) {
        FinishedAs(View(), k, attempt, verdict.Blocked? || made == wanted, verdict, max, base, now);
      }
      var closed := Finish(k, attempt, verdict.Blocked? || made == wanted, verdict, max, base, now);
    }

    /** `_process_claim` left undisturbed: a preference may stop the job before any provider attempt;
        otherwise the attempts are recorded, the job ends as the verdict says, and the reservation is
        settled in any case. */
    method Process(k: Key, attempt: nat, id: nat, wanted: nat, verdict: Verdict, max: nat, base: nat, now: Time)
      returns (made: nat, ghost one: Option<Key>)
      requires Valid() && now >= clock && IsReservation(View(), id, k, attempt) && ledger[id].actual <= RESERVED_CALLS
      modifies this
      ensures Valid()
      ensures made == if verdict.Blocked? || old(ledger[id]).settled then 0 else Min(wanted, RESERVED_CALLS - old(ledger[id]).actual)
      ensures var worked := old(View()).(ledger := old(ledger)[id := old(ledger[id]).(actual := old(ledger[id]).actual + made)]);
              var ended := AnalysisQueue.Finish(worked, k, attempt, verdict.Blocked? || made == wanted, verdict, max, base, now).0;
              MayWake(ended.jobs, now, one) && View() == AnalysisQueue.Settle(ended, id, k, attempt, now, one).0
      ensures IsHolder(old(View()), k, attempt) ==>
                IsEndedBy(jobs, k, attempt, verdict.Blocked? || made == wanted, verdict, max)
      ensures ledger == old(ledger)[id := old(ledger[id]).(actual := old(ledger[id]).actual + made, settled := true)]
      ensures CallsFor(ledger, k) == CallsFor(old(ledger), k) + made
    {
      hide AnalysisQueue.Finish, AnalysisQueue.Settle, CallsFor, MayWake, Wake, InOrder, IsHolder;
      made := Work(k, attempt, id, wanted, verdict, max, base, now);
      ghost var ended := View();
      var found;
      found, one := Settle(id, k, attempt, now);
      SettledLedger(ended, id, k, attempt, now, one);
      SettlingKeepsStatus(ended, id, k, attempt, now, one);
      CallsAfterUpdate(old(ledger), id, ledger[id], k);
    }

    method Finish(k: Key, attempt: nat, recorded: bool, verdict: Verdict, max: nat, base: nat, now: Time) returns (done: bool)
      requires Valid() && now >= clock
      modifies `clock, `jobs
      ensures Valid() && (View(), done) == AnalysisQueue.Finish(old(View()), k, attempt, recorded, verdict, max, base, now)
    {
      if !recorded {
        done := RetryOrFail(k, attempt, max, base, Other("analysis_processing_unavailable"), now);
        return;
      }
      match verdict
      case Blocked(reason) => done := Complete(k, attempt, false, reason, now);
      case Answered(published, reason) => done := Complete(k, attempt, published, reason, now);
      case Unavailable(retryable, reason) =>
        if retryable {
          done := RetryOrFail(k, attempt, max, base, reason, now);
        } else {
          done := Complete(k, attempt, false, reason, now);
        }
    }

    /** `enqueue_analysis_job` */
    method Enqueue(k: Key, kind: Kind, approved: bool, priority: nat, occurredAt: Time, now: Time) returns (created: bool)
      requires Valid() && now >= clock
      modifies `clock, `jobs
      ensures Valid() && View() == AnalysisQueue.Enqueue(old(View()), k, kind, approved, priority, occurredAt, now)
      ensures created <==> k !in old(jobs)
    {
      clock, created := now, k !in jobs;
      if created {
        jobs := jobs[k := Job(kind, approved, priority, occurredAt, now, Pending, 0, now, Unset, now)];
      } else if IsOpen(jobs[k]) {
        jobs := jobs[k := jobs[k].(approved := jobs[k].approved || approved, priority := Max(jobs[k].priority, priority),
                                   kind := if kind.Refine? then kind else jobs[k].kind)];
      }
    }
  }

  lemma FinishKeepsLedger(s: State, k: Key, attempt: nat, recorded: bool, verdict: Verdict, max: nat, base: nat, now: Time)
    ensures var after := AnalysisQueue.Finish(s, k, attempt, recorded, verdict, max, base, now).0;
            after.ledger == s.ledger && after.table == s.table && after.clock == now
  {
  }

  lemma SettlingKeepsStatus(s: State, id: nat, k: Key, attempt: nat, now: Time, one: Option<Key>)
    ensures var after := AnalysisQueue.Settle(s, id, k, attempt, now, one).0;
            && after.jobs.Keys == s.jobs.Keys
            && forall x :: x in s.jobs ==> after.jobs[x].status == s.jobs[x].status && after.jobs[x].attempts == s.jobs[x].attempts
  {
  }

  lemma SettledLedger(s: State, id: nat, k: Key, attempt: nat, now: Time, one: Option<Key>)
    requires IsReservation(s, id, k, attempt)
    ensures AnalysisQueue.Settle(s, id, k, attempt, now, one).0.ledger == s.ledger[id := s.ledger[id].(settled := true)]
  {
    hide Wake;
  }

  lemma {:induction false} CallsAfterUpdate(ledger: Ledger, id: nat, row: Row, k: Key)
    requires id < |ledger| && ledger[id].Reservation? && row.Reservation? && row.key == ledger[id].key == k
    ensures CallsFor(ledger[id := row], k) == CallsFor(ledger, k) + row.actual - ledger[id].actual
  {
    var n := |ledger| - 1;
    if id == n {
      assert ledger[id := row][..n] == ledger[..n];
    } else {
      assert ledger[id := row][..n] == ledger[..n][id := row];
      CallsAfterUpdate(ledger[..n], id, row, k);
    }
  }

  lemma SweepKeepsClock(s: State, limits: Limits)
    ensures AfterGlobal(s, limits).clock == s.clock
  {
  }

  /** A chosen job is still there when both budgets have been checked. */
  lemma DueIsThere(s: State, user: User, event: Option<string>, k: Key, limits: Limits)
    requires IsPick(s.jobs, user, event, s.clock, Some(k))
    ensures AfterGlobal(s, limits).clock == s.clock && AfterTenant(AfterGlobal(s, limits), user, limits).clock == s.clock
    ensures k in AfterTenant(AfterGlobal(s, limits), user, limits).jobs
  {
  }
}
