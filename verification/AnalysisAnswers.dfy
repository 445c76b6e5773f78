/** What each transaction on the job queue does to the jobs and to the charges, case by case. */
module AnalysisAnswers {
  import opened Basics
  import opened BudgetWindow
  import opened AnalysisQueue
  import opened AnalysisSafety
  import opened AnalysisRuns

  /** Everything but one job is as before, and the instant is recorded. */
  ghost predicate OnlyJob(s: State, after: State, k: Key, now: Time) {
    && after.clock == now && after.ledger == s.ledger && after.table == s.table
    && forall x :: x != k ==> (x in after.jobs <==> x in s.jobs) && (x in s.jobs ==> after.jobs[x] == s.jobs[x])
  }

  /** The worker of this attempt has the job. */
  predicate IsHolder(s: State, k: Key, attempt: nat) {
    k in s.jobs && s.jobs[k].status.Running? && s.jobs[k].attempts == attempt
  }

  // --------------------------------------------------------------- ending a job

  /** Only the holder ends a job: as published exactly when it says so, for the reason it gives. */
  lemma CompletedExactlyWhen(s: State, k: Key, attempt: nat, published: bool, reason: Reason, now: Time)
    ensures var (after, done) := Complete(s, k, attempt, published, reason, now);
            && (done <==> IsHolder(s, k, attempt)) && OnlyJob(s, after, k, now)
            && (!done ==> after.jobs == s.jobs)
            && (done ==>
                  && k in after.jobs && after.jobs[k].reason == reason && after.jobs[k].updatedAt == now
                  && (published ==> after.jobs[k].status.Published?) && (!published ==> after.jobs[k].status.NoIntervention?)
                  && after.jobs[k].attempts == attempt)
  {
  }

  /** Only the holder gives a job back: to be tried again while an attempt is left, closed otherwise. */
  lemma RetriedExactlyWhen(s: State, k: Key, attempt: nat, max: nat, base: nat, reason: Reason, now: Time)
    ensures var (after, done) := RetryOrFail(s, k, attempt, max, base, reason, now);
            && (done <==> IsHolder(s, k, attempt)) && OnlyJob(s, after, k, now)
            && (!done ==> after.jobs == s.jobs)
            && (done && attempt < max ==>
                  && k in after.jobs && after.jobs[k].attempts == attempt
                  && after.jobs[k] == s.jobs[k].(status := Retry, reason := reason, updatedAt := now,
                                                 nextAttempt := now + Backoff(base, attempt)))
            && (done && attempt >= max ==>
                  && k in after.jobs && after.jobs[k].attempts == attempt
                  && after.jobs[k] == s.jobs[k].(status := NoIntervention, reason := Exhausted, updatedAt := now))
  {
    BackoffIsBounded(base, attempt);
  }

  lemma BackoffIsBounded(base: nat, attempts: nat)
    ensures 0 <= Backoff(base, attempts) <= HOUR
  {
    PowIsPositive(Min(8, Max(0, attempts - 1)));
    assert base * Pow2(Min(8, Max(0, attempts - 1))) >= 0;
  }

  lemma {:induction false} PowIsPositive(n: nat)
    ensures Pow2(n) >= 1
  {
    if n > 0 { PowIsPositive(n - 1); }
  }

  /** The wait after the first attempt is the base; each further attempt up to the ninth doubles it,
      within an hour, and from then on it stays. */
  lemma BackoffDoubles(base: nat, attempts: nat)
    requires attempts >= 1
    ensures Backoff(base, 1) == Min(3600 * SECOND, base)
    ensures attempts < 9 ==> Backoff(base, attempts + 1) == Min(3600 * SECOND, 2 * Backoff(base, attempts))
    ensures attempts >= 9 ==> Backoff(base, attempts + 1) == Backoff(base, attempts)
  {
    if attempts < 9 {
      assert Pow2(attempts) == 2 * Pow2(attempts - 1);
      assert base * Pow2(attempts) == 2 * (base * Pow2(attempts - 1));
    }
    assert Pow2(0) == 1;
  }

  /** What the holder's work comes to: published only for an answer that says so and whose attempts were all
      recorded; to be tried again for a lost record or a passing failure with an attempt left; closed in
      every other case. */
  predicate IsEndedBy(jobs: Jobs, k: Key, attempt: nat, recorded: bool, verdict: Verdict, max: nat) {
    var published := recorded && verdict.Answered? && verdict.published;
    var again := attempt < max && (!recorded || (verdict.Unavailable? && verdict.retryable));
    && k in jobs && jobs[k].attempts == attempt
    && (jobs[k].status.Published? <==> published) && (jobs[k].status.Retry? <==> again)
    && (jobs[k].status.NoIntervention? <==> !published && !again)
  }

  lemma FinishedAs(s: State, k: Key, attempt: nat, recorded: bool, verdict: Verdict, max: nat, base: nat, now: Time)
    requires IsHolder(s, k, attempt)
    ensures var (after, done) := Finish(s, k, attempt, recorded, verdict, max, base, now);
            && done && OnlyJob(s, after, k, now) && IsEndedBy(after.jobs, k, attempt, recorded, verdict, max)
            && (recorded && !(verdict.Unavailable? && verdict.retryable) ==> after.jobs[k].reason == verdict.reason)
  {
    hide Complete, RetryOrFail;
    RetriedExactlyWhen(s, k, attempt, max, base, if recorded then verdict.reason else Other("analysis_processing_unavailable"), now);
    CompletedExactlyWhen(s, k, attempt, verdict.Answered? && verdict.published, verdict.reason, now);
  }

  // ------------------------------------------------------------ leasing a job

  /** A job somebody may take now. */
  predicate IsWaiting(s: State, k: Key, user: User, event: Option<string>, now: Time) {
    && k in s.jobs && k.0 == user && (event.Some? ==> k.1 == event.value)
    && (s.jobs[k].status.Pending? || s.jobs[k].status.Retry?) && s.jobs[k].approved && s.jobs[k].nextAttempt <= now
  }

  /** A claim finds a waiting job whenever there is one, and never passes over one of higher priority; among
      equals, of a newer event; among those, a newer job. */
  lemma PicksWhatWaits(s: State, user: User, event: Option<string>, now: Time, limits: Limits, max: Option<nat>, ages: Ages,
                       c: Choice, k: Key)
    requires IsChoice(s, user, event, now, limits, max, ages, c)
    requires IsWaiting(ClaimSweep(s, user, now, max, ages), k, user, event, now)
    ensures var jobs := ClaimSweep(s, user, now, max, ages).jobs;
            && c.pick.Some? && IsWaiting(ClaimSweep(s, user, now, max, ages), c.pick.value, user, event, now)
            && jobs[c.pick.value].priority >= jobs[k].priority
            && (jobs[c.pick.value].priority == jobs[k].priority ==> jobs[c.pick.value].occurredAt >= jobs[k].occurredAt)
            && (jobs[c.pick.value].priority == jobs[k].priority && jobs[c.pick.value].occurredAt == jobs[k].occurredAt ==>
                  jobs[c.pick.value].createdAt >= jobs[k].createdAt)
  {
    hide ClaimSweep, Answers, AfterGlobal, AfterTenant;
    assert IsDue(ClaimSweep(s, user, now, max, ages).jobs, k, user, event, now);
  }

  /** The job chosen is leased exactly when neither budget puts it off: it runs its next attempt from now on,
      and with any limit its two calls are charged in advance, once. */
  lemma LeasedExactlyWhen(s: State, user: User, event: Option<string>, now: Time, limits: Limits, max: Option<nat>, ages: Ages,
                          c: Choice)
    requires IsChoice(s, user, event, now, limits, max, ages, c) && c.pick.Some?
    ensures var s3 := AfterTenant(AfterGlobal(ClaimSweep(s, user, now, max, ages), limits), user, limits);
            var after, k := Claim(s, user, event, now, limits, max, ages, c), c.pick.value;
            c.global.None? && c.tenant.None? ==>
              && k in s3.jobs && k in after.jobs && OnlyJob(s3, after.(ledger := s3.ledger, table := s3.table), k, now)
              && after.jobs[k].status.Running? && after.jobs[k].attempts == s3.jobs[k].attempts + 1
              && after.jobs[k].updatedAt == now && after.jobs[k].reason.Unset?
              && (if limits == Limits(None, None, None, None) then after.ledger == s3.ledger && after.table == s3.table
                  else
                    && after.ledger == s3.ledger + [Reservation(k, after.jobs[k].attempts, 0, false, now)]
                    && after.table == s3.table + {|s3.ledger|})
  {
    hide Answers, SettleInactive, Prune, ReclaimOwn, RetireStale;
    ClockOfChecks(s, user, now, limits, max, ages);
    PickIsOpen(ClaimSweep(s, user, now, max, ages).jobs, user, event, now, c.pick.value);
  }

  lemma ClockOfChecks(s: State, user: User, now: Time, limits: Limits, max: Option<nat>, ages: Ages)
    ensures ClaimSweep(s, user, now, max, ages).clock == now
    ensures AfterTenant(AfterGlobal(ClaimSweep(s, user, now, max, ages), limits), user, limits).clock == now
  {
    hide SettleInactive, Prune, ReclaimOwn, ReclaimAll, RetireStale;
  }

  /** A budget that has no room puts off exactly the account's jobs that were due, until the instant it names. */
  lemma DeferredRows(jobs: Jobs, user: User, event: Option<string>, now: Time, until: Time, reason: Reason, k: Key)
    requires k in jobs
    ensures var after := Defer(jobs, user, event, now, until, reason);
            && after.Keys == jobs.Keys
            && (if k.0 == user && (event.Some? ==> k.1 == event.value) && jobs[k].nextAttempt <= now
                   && (jobs[k].status.Pending? || jobs[k].status.Retry?)
                then after[k] == jobs[k].(nextAttempt := until, reason := reason, updatedAt := now) else after[k] == jobs[k])
  {
  }

  /** Which budget put the job off, and that nothing is charged for it. */
  lemma PutOffExactlyWhen(s: State, user: User, event: Option<string>, now: Time, limits: Limits, max: Option<nat>, ages: Ages,
                          c: Choice)
    requires IsChoice(s, user, event, now, limits, max, ages, c) && c.pick.Some?
    ensures var s2 := AfterGlobal(ClaimSweep(s, user, now, max, ages), limits);
            var s3 := AfterTenant(s2, user, limits);
            var after := Claim(s, user, event, now, limits, max, ages, c);
            && (c.global.Some? ==> after == s2.(jobs := Defer(s2.jobs, user, event, now, c.global.value, GlobalDeferred)))
            && (c.global.None? && c.tenant.Some? ==>
                  after == s3.(jobs := Defer(s3.jobs, user, event, now, c.tenant.value, TenantDeferred)))
            && (c.global.Some? ==>
                  && HasGlobal(limits)
                  && !Fits(Charges(s2.ledger, s2.table, None), now, 2, Effective(limits.globalHourly), Effective(limits.globalDaily)))
            && (c.global.None? && HasGlobal(limits) ==>
                  Fits(Charges(s2.ledger, s2.table, None), now, 2, Effective(limits.globalHourly), Effective(limits.globalDaily)))
            && (c.global.None? && c.tenant.Some? ==>
                  && HasTenant(limits)
                  && !Fits(Charges(s3.ledger, s3.table, Some(user)), now, 2, Effective(limits.hourly), Effective(limits.daily)))
            && (c.global.None? && c.tenant.None? && HasTenant(limits) ==>
                  Fits(Charges(s3.ledger, s3.table, Some(user)), now, 2, Effective(limits.hourly), Effective(limits.daily)))
  {
    hide SettleInactive, Prune, ReclaimOwn, ReclaimAll, RetireStale, Defer, Fits, IsPick, IsDeferral;
    ClockOfChecks(s, user, now, limits, max, ages);
    ClockOfGlobal(s, user, now, limits, max, ages);
  }

  lemma ClockOfGlobal(s: State, user: User, now: Time, limits: Limits, max: Option<nat>, ages: Ages)
    ensures AfterGlobal(ClaimSweep(s, user, now, max, ages), limits).clock == now
  {
    hide SettleInactive, Prune, ReclaimOwn, ReclaimAll, RetireStale;
  }

  // ----------------------------------------------------------------- housekeeping

  /** A lease is over ten minutes after it was taken. */
  predicate IsRunOut(j: Job, now: Time) {
    j.status.Running? && now >= j.updatedAt + 10 * MINUTE
  }

  /** A claim first takes back the account's run-out leases, closing what has used its attempts up. */
  lemma ReclaimedRows(jobs: Jobs, user: User, now: Time, max: Option<nat>, k: Key)
    requires k in jobs
    ensures var after, j := ReclaimOwn(jobs, user, now, max), jobs[k];
            var used := max.Some? && j.attempts >= max.value;
            && after.Keys == jobs.Keys
            && (if k.0 == user && used && (IsRunOut(j, now) || j.status.Pending? || j.status.Retry?) then
                  after[k] == j.(status := NoIntervention, reason := Exhausted, updatedAt := now)
                else if k.0 == user && IsRunOut(j, now) then
                  after[k] == j.(status := Retry, nextAttempt := now, reason := LeaseExpired, updatedAt := now)
                else after[k] == j)
    ensures var after, j := ReclaimAll(jobs, now), jobs[k];
            && after.Keys == jobs.Keys
            && (if IsRunOut(j, now) then
                  after[k] == j.(status := Retry, nextAttempt := now, reason := LeaseExpired, updatedAt := now)
                else after[k] == j)
  {
  }

  /** After the global check no account has a run-out lease, and after a claim's own statements its account has
      none, nor a waiting job that has used its attempts up or is too old. */
  lemma ChecksTakeBack(s: State, user: User, now: Time, max: Option<nat>, ages: Ages, k: Key)
    requires k in s.jobs
    ensures k in GlobalSweep(s).jobs && !IsRunOut(GlobalSweep(s).jobs[k], s.clock)
    ensures IsRunOut(s.jobs[k], s.clock) ==> GlobalSweep(s).jobs[k].status.Retry?
    ensures var after := ClaimSweep(s, user, now, max, ages);
            && k in after.jobs && (k.0 != user ==> after.jobs[k] == s.jobs[k])
            && (k.0 == user && (after.jobs[k].status.Pending? || after.jobs[k].status.Retry?) ==>
                  && (max.Some? ==> after.jobs[k].attempts < max.value)
                  && !(after.jobs[k].kind.Discover? && now >= after.jobs[k].occurredAt + Max(ages.regular, ages.highPriority)
                       && after.jobs[k].reason != TenantDeferred && after.jobs[k].reason != GlobalDeferred))
            && (k.0 == user ==> !IsRunOut(after.jobs[k], now))
  {
    hide SettleInactive, Prune;
  }

  /** Searches for advice that have waited too long are closed, urgent ones after a time of their own; work
      on a given problem, jobs that waited for a budget, and jobs at work are not. */
  lemma RetiredRows(jobs: Jobs, who: Option<User>, now: Time, ages: Ages, k: Key)
    requires k in jobs
    ensures var after, j := RetireStale(jobs, who, now, ages), jobs[k];
            var age := if j.priority >= 80 then ages.highPriority else ages.regular;
            && after.Keys == jobs.Keys
            && (if (who.Some? ==> k.0 == who.value) && j.kind.Discover? && (j.status.Pending? || j.status.Retry?)
                   && j.reason != TenantDeferred && j.reason != GlobalDeferred && now >= j.occurredAt + age
                then after[k] == j.(status := NoIntervention, reason := Stale, updatedAt := now)
                else after[k] == j)
  {
  }

  /** A job is created waiting, without an attempt used; an open one may gain approval, priority and a given
      problem, and a job at work or done is left alone. */
  lemma EnqueuedJob(s: State, k: Key, kind: Kind, approved: bool, priority: nat, occurredAt: Time, now: Time)
    ensures var after := Enqueue(s, k, kind, approved, priority, occurredAt, now);
            && OnlyJob(s, after, k, now) && k in after.jobs
            && (k !in s.jobs ==>
                  && after.jobs[k].status.Pending? && after.jobs[k].attempts == 0 && after.jobs[k].nextAttempt == now
                  && after.jobs[k].kind == kind && after.jobs[k].approved == approved && after.jobs[k].priority == priority
                  && after.jobs[k].occurredAt == occurredAt && after.jobs[k].createdAt == now && after.jobs[k].reason.Unset?)
            && (k in s.jobs ==>
                  var j, j' := s.jobs[k], after.jobs[k];
                  if j.status.Pending? || j.status.Retry? then
                    && (j'.approved <==> j.approved || approved) && j'.priority == Max(j.priority, priority)
                    && (j'.kind.Refine? <==> j.kind.Refine? || kind.Refine?)
                    && j' == j.(approved := j'.approved, priority := j'.priority, kind := j'.kind)
                  else j' == j)
  {
  }

  /** Looking again: jobs that wait for a budget become due, no others. */
  lemma RecheckedRows(s: State, now: Time, k: Key)
    requires k in s.jobs
    ensures var after, j := Recheck(s, now), s.jobs[k];
            && after.ledger == s.ledger && after.table == s.table && after.clock == now && after.jobs.Keys == s.jobs.Keys
            && (if (j.status.Pending? || j.status.Retry?) && (j.reason == TenantDeferred || j.reason == GlobalDeferred) && j.nextAttempt > now
                then after.jobs[k] == j.(nextAttempt := now, updatedAt := now) else after.jobs[k] == j)
  {
  }

  // -------------------------------------------------------------------- charges

  /** A reservation costs two calls until it is settled, then the calls recorded on it; a direct call one. */
  lemma WhatItCosts(row: Row)
    ensures row.Direct? ==> CallsOf(row) == 1
    ensures row.Reservation? && !row.settled ==> CallsOf(row) == 2
    ensures row.Reservation? && row.settled ==> CallsOf(row) == row.actual
  {
  }

  /** A call is recorded exactly on an unsettled reservation with one of its two calls left. */
  lemma RecordedExactlyWhen(s: State, id: nat)
    ensures var (after, done) := Record(s, id);
            && (done <==>
                  && id in s.table && id < |s.ledger| && s.ledger[id].Reservation? && !s.ledger[id].settled
                  && s.ledger[id].actual < 2)
            && (!done ==> after == s)
            && (done ==> after == s.(ledger := s.ledger[id := s.ledger[id].(actual := s.ledger[id].actual + 1)]))
  {
  }

  /** Settling closes the worker's own reservation, once. When that gives capacity back, the account's jobs
      that wait for its budget become due, and the one chosen that waits for the global one. */
  lemma SettledRows(s: State, id: nat, k: Key, attempt: nat, now: Time, one: Option<Key>, x: Key)
    requires MayWake(s.jobs, now, one) && x in s.jobs
    ensures var (after, found) := Settle(s, id, k, attempt, now, one);
            var j := s.jobs[x];
            && (found <==>
                  && id in s.table && id < |s.ledger| && s.ledger[id].Reservation?
                  && s.ledger[id].key == k && s.ledger[id].attempt == attempt)
            && (!found ==> after == s.(clock := now))
            && (found ==>
                  && after.ledger == s.ledger[id := s.ledger[id].(settled := true)] && after.table == s.table
                  && after.clock == now && after.jobs.Keys == s.jobs.Keys)
            && (found && !s.ledger[id].settled && s.ledger[id].actual < 2 ==>
                  if one == Some(x)
                     || (x.0 == k.0 && (j.status.Pending? || j.status.Retry?) && j.reason == TenantDeferred && j.nextAttempt > now)
                  then after.jobs[x] == j.(nextAttempt := now, updatedAt := now) else after.jobs[x] == j)
            && (found && (s.ledger[id].settled || s.ledger[id].actual >= 2) ==> after.jobs == s.jobs)
    ensures one.Some? ==> one.value in s.jobs && s.jobs[one.value].reason == GlobalDeferred && s.jobs[one.value].nextAttempt > now
  {
  }

  /** Before a budget is counted, exactly the reservations whose worker is gone are settled. */
  lemma AbandonedAreSettled(ledger: Ledger, jobs: Jobs, who: Option<User>, i: nat)
    requires i < |ledger|
    ensures var after, row := SettleInactive(ledger, jobs, who), ledger[i];
            && |after| == |ledger|
            && (if row.Reservation? && (who.Some? ==> row.key.0 == who.value)
                   && !(row.key in jobs && jobs[row.key].status.Running? && jobs[row.key].attempts == row.attempt)
                then after[i] == row.(settled := true) else after[i] == row)
  {
  }

  /** And exactly the settled charges older than eight days are forgotten, direct ones by the global check only. */
  lemma OldAreForgotten(ledger: Ledger, table: set<nat>, now: Time, direct: bool, i: nat)
    requires i < |ledger|
    ensures i in Prune(ledger, table, now, direct) <==>
            && i in table
            && !(ledger[i].at < now - 8 * 24 * HOUR
                 && ((ledger[i].Direct? && direct) || (ledger[i].Reservation? && ledger[i].settled)))
  {
  }

  /** A direct call is granted exactly when it fits every limit there is, and is then charged at once. */
  lemma GrantedExactlyWhen(s: State, user: User, now: Time, limits: Limits, tenant: Option<Time>, global: Option<Time>)
    requires IsDirectChoice(s, user, now, limits, tenant, global)
    ensures var s1 := AfterTenant(s.(clock := now), user, limits);
            var s2 := AfterGlobal(s1, limits);
            var (after, granted) := DirectCall(s, user, now, limits, tenant, global);
            && (granted <==>
                  && (HasTenant(limits) ==>
                        Fits(Charges(s1.ledger, s1.table, Some(user)), now, 1, Effective(limits.hourly), Effective(limits.daily)))
                  && (HasGlobal(limits) ==>
                        Fits(Charges(s2.ledger, s2.table, None), now, 1, Effective(limits.globalHourly), Effective(limits.globalDaily))))
            && (granted ==> after.ledger == s2.ledger + [Direct(user, now)] && after.table == s2.table + {|s2.ledger|})
            && (!granted ==> |after.ledger| == |s.ledger|) && after.clock == now
  {
    hide Prune, ReclaimAll, Fits, IsDeferral;
    SweepsKeepClock(s.(clock := now), user, limits);
    SweepsKeepClock(AfterTenant(s.(clock := now), user, limits), user, limits);
  }

  /** A request that could never fit waits an hour or a day, and a second. */
  lemma HopelessWait(rows: seq<Charge>, now: Time, calls: nat, hourly: nat, daily: nat, until: Option<Time>)
    requires IsBudgetAnswer(rows, now, calls, hourly, daily, until)
    ensures calls > daily ==> until == Some(now + 86401 * SECOND)
    ensures calls <= daily && calls > hourly ==> until == Some(now + 3601 * SECOND)
  {
  }

  /** No limit and a limit of zero both mean ten million. */
  lemma DefaultLimit(limit: Option<nat>)
    ensures Effective(limit) == match limit
                                case None => 10_000_000
                                case Some(n) => if n == 0 then 10_000_000 else n
  {
  }
}
