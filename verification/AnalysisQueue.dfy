/** The analysis job queue and the model-call ledger, one function for each transaction.
    The ledger keeps every charge ever made; `table` names the rows the database still holds. */
module AnalysisQueue {
  import opened Basics
  import opened BudgetWindow

  type User = string
  type Key = (User, string)

  const LEASE: Time := 10 * MINUTE
  const RESERVED_CALLS := 2
  const KEEP_USAGE: Time := 8 * DAY
  const USER_REQUEST_PRIORITY := 80
  const UNLIMITED := 10_000_000

  datatype Kind = Discover | Refine
  datatype Status = Pending | Running | Retry | NoIntervention | Published
  datatype Reason = Unset | TenantDeferred | GlobalDeferred | LeaseExpired | Exhausted | Stale | Other(text: string)

  datatype Job = Job(kind: Kind, approved: bool, priority: nat, occurredAt: Time, createdAt: Time, status: Status,
                     attempts: nat, nextAttempt: Time, reason: Reason, updatedAt: Time)

  /** A reservation counts in full until it is settled, and then for the calls recorded on it. */
  datatype Row =
    | Reservation(key: Key, attempt: nat, actual: nat, settled: bool, at: Time)
    | Direct(user: User, at: Time)

  /** The limits an operation is called with; `None` and 0 both mean the default of ten million. */
  datatype Limits = Limits(hourly: Option<nat>, daily: Option<nat>, globalHourly: Option<nat>, globalDaily: Option<nat>)

  datatype Ages = Ages(regular: Time, highPriority: Time)

  type Jobs = map<Key, Job>
  type Ledger = seq<Row>

  datatype State = State(clock: Time, jobs: Jobs, ledger: Ledger, table: set<nat>)

  function Effective(limit: Option<nat>): nat {
    if limit.None? || limit.value == 0 then UNLIMITED else limit.value
  }

  function CallsOf(row: Row): nat {
    match row
    case Direct(_, _) => 1
    case Reservation(_, _, actual, settled, _) => if settled then actual else RESERVED_CALLS
  }

  function UserOf(row: Row): User {
    match row
    case Direct(user, _) => user
    case Reservation(key, _, _, _, _) => key.0
  }

  /** `who` is a tenant, or everybody. */
  predicate Concerns(row: Row, who: Option<User>) {
    who.None? || UserOf(row) == who.value
  }

  /** The charges the budget queries read, oldest first. */
  function Charges(ledger: Ledger, table: set<nat>, who: Option<User>): seq<Charge> {
    if ledger == [] then []
    else
      var n := |ledger| - 1;
      Charges(ledger[..n], table, who)
      + if n in table && Concerns(ledger[n], who) then [Charge(CallsOf(ledger[n]), ledger[n].at)] else []
  }

  predicate IsOpen(j: Job) {
    j.status.Pending? || j.status.Retry?
  }

  predicate IsTerminal(j: Job) {
    j.status.NoIntervention? || j.status.Published?
  }

  // -------------------------------------------------------- statements on jobs

  predicate LeaseOver(j: Job, now: Time) {
    j.status.Running? && j.updatedAt <= now - LEASE
  }

  /** The first statements of a claim: a tenant's expired leases go back to the queue, and with a
      bound on attempts what has used them up is closed. */
  function ReclaimOwn(jobs: Jobs, user: User, now: Time, max: Option<nat>): Jobs {
    map k | k in jobs ::
      if k.0 != user then jobs[k]
      else if LeaseOver(jobs[k], now) then
        if max.Some? && jobs[k].attempts >= max.value
        then jobs[k].(status := NoIntervention, reason := Exhausted, updatedAt := now)
        else jobs[k].(status := Retry, nextAttempt := now, reason := LeaseExpired, updatedAt := now)
      else if max.Some? && IsOpen(jobs[k]) && jobs[k].attempts >= max.value
        then jobs[k].(status := NoIntervention, reason := Exhausted, updatedAt := now)
      else jobs[k]
  }

  /** `_reclaim_expired_analysis_leases_locked`: every tenant's, without a bound on attempts. */
  function ReclaimAll(jobs: Jobs, now: Time): Jobs {
    map k | k in jobs ::
      if LeaseOver(jobs[k], now)
      then jobs[k].(status := Retry, nextAttempt := now, reason := LeaseExpired, updatedAt := now) else jobs[k]
  }

  predicate IsStale(j: Job, now: Time, ages: Ages) {
    && j.kind.Discover? && IsOpen(j) && !j.reason.TenantDeferred? && !j.reason.GlobalDeferred?
    && j.occurredAt <= now - (if j.priority < USER_REQUEST_PRIORITY then ages.regular else ages.highPriority)
  }

  function RetireStale(jobs: Jobs, who: Option<User>, now: Time, ages: Ages): Jobs {
    map k | k in jobs ::
      if (who.None? || k.0 == who.value) && IsStale(jobs[k], now, ages)
      then jobs[k].(status := NoIntervention, reason := Stale, updatedAt := now) else jobs[k]
  }

  predicate IsDue(jobs: Jobs, k: Key, user: User, event: Option<string>, now: Time) {
    && k in jobs && k.0 == user && (event.None? || k.1 == event.value)
    && IsOpen(jobs[k]) && jobs[k].approved && jobs[k].nextAttempt <= now
  }

  /** Higher priority first, then the newer event, then the newer job. */
  predicate NotBefore(a: Job, b: Job) {
    || a.priority < b.priority
    || (a.priority == b.priority
        && (a.occurredAt < b.occurredAt || (a.occurredAt == b.occurredAt && a.createdAt <= b.createdAt)))
  }

  ghost predicate IsPick(jobs: Jobs, user: User, event: Option<string>, now: Time, pick: Option<Key>) {
    match pick
    case None => forall k :: !IsDue(jobs, k, user, event, now)
    case Some(best) =>
      IsDue(jobs, best, user, event, now) && forall k :: IsDue(jobs, k, user, event, now) ==> NotBefore(jobs[k], jobs[best])
  }

  function Defer(jobs: Jobs, user: User, event: Option<string>, now: Time, until: Time, reason: Reason): Jobs {
    map k | k in jobs ::
      if k.0 == user && (event.None? || k.1 == event.value) && IsOpen(jobs[k]) && jobs[k].nextAttempt <= now
      then jobs[k].(nextAttempt := until, reason := reason, updatedAt := now) else jobs[k]
  }

  // ------------------------------------------------------ statements on charges

  /** The worker this reservation belongs to holds the job's lease. */
  predicate IsActive(jobs: Jobs, row: Row)
    requires row.Reservation?
  {
    row.key in jobs && jobs[row.key].status.Running? && jobs[row.key].attempts == row.attempt
  }

  predicate Abandoned(jobs: Jobs, row: Row, who: Option<User>) {
    row.Reservation? && !row.settled && Concerns(row, who) && !IsActive(jobs, row)
  }

  /** `_settle_inactive_analysis_reservations_locked` */
  function SettleInactive(ledger: Ledger, jobs: Jobs, who: Option<User>): Ledger {
    seq(|ledger|, i requires 0 <= i < |ledger| =>
      if Abandoned(jobs, ledger[i], who) then ledger[i].(settled := true) else ledger[i])
  }

  predicate IsOld(row: Row, now: Time, direct: bool) {
    row.at < now - KEEP_USAGE && match row
      case Direct(_, _) => direct
      case Reservation(_, _, _, settled, _) => settled
  }

  /** Usage older than eight days is deleted; direct usage only by the global check. */
  function Prune(ledger: Ledger, table: set<nat>, now: Time, direct: bool): set<nat> {
    set i | i in table && (i >= |ledger| || !IsOld(ledger[i], now, direct))
  }

  // ------------------------------------------------------------ budget checks

  /** What the global check does before it counts. */
  function GlobalSweep(s: State): State {
    var jobs := ReclaimAll(s.jobs, s.clock);
    var ledger := SettleInactive(s.ledger, jobs, None);
    s.(jobs := jobs, ledger := ledger, table := Prune(ledger, s.table, s.clock, true))
  }

  /** What the tenant check does before it counts. */
  function TenantSweep(s: State, user: User): State {
    var ledger := SettleInactive(s.ledger, s.jobs, Some(user));
    s.(ledger := ledger, table := Prune(ledger, s.table, s.clock, false))
  }

  ghost predicate Answers(s: State, who: Option<User>, calls: nat, hourly: Option<nat>, daily: Option<nat>, until: Option<Time>) {
    if hourly.None? && daily.None? then until.None?
    else IsBudgetAnswer(Charges(s.ledger, s.table, who), s.clock, calls, Effective(hourly), Effective(daily), until)
  }

  // --------------------------------------------------------------------- claim

  /** Up to the choice of a job. */
  function ClaimSweep(s: State, user: User, now: Time, max: Option<nat>, ages: Ages): State {
    var jobs := ReclaimOwn(s.jobs, user, now, max);
    s.(clock := now, jobs := RetireStale(jobs, Some(user), now, ages),
       ledger := SettleInactive(s.ledger, jobs, Some(user)))
  }

  predicate HasGlobal(limits: Limits) {
    limits.globalHourly.Some? || limits.globalDaily.Some?
  }

  predicate HasTenant(limits: Limits) {
    limits.hourly.Some? || limits.daily.Some?
  }

  function AfterGlobal(s: State, limits: Limits): State {
    if HasGlobal(limits) then GlobalSweep(s) else s
  }

  function AfterTenant(s: State, user: User, limits: Limits): State {
    if HasTenant(limits) then TenantSweep(s, user) else s
  }

  /** The outcome of the three decisions inside a claim. */
  datatype Choice = Choice(pick: Option<Key>, global: Option<Time>, tenant: Option<Time>)

  ghost predicate IsChoice(s: State, user: User, event: Option<string>, now: Time, limits: Limits, max: Option<nat>,
                           ages: Ages, c: Choice)
  {
    var s1 := ClaimSweep(s, user, now, max, ages);
    var s2 := AfterGlobal(s1, limits);
    var s3 := AfterTenant(s2, user, limits);
    && IsPick(s1.jobs, user, event, now, c.pick)
    && (c.pick.Some? ==> Answers(s2, None, RESERVED_CALLS, limits.globalHourly, limits.globalDaily, c.global))
    && (c.pick.Some? && c.global.None? ==> Answers(s3, Some(user), RESERVED_CALLS, limits.hourly, limits.daily, c.tenant))
  }

  predicate HasLimit(limits: Limits) {
    HasTenant(limits) || HasGlobal(limits)
  }

  /** The lease and the reservation of its worst case. */
  function Lease(s: State, k: Key, limits: Limits): State
    requires k in s.jobs
  {
    var j := s.jobs[k].(status := Running, attempts := s.jobs[k].attempts + 1, updatedAt := s.clock, reason := Unset);
    var s := s.(jobs := s.jobs[k := j]);
    if !HasLimit(limits) then s else Append(s, Reservation(k, j.attempts, 0, false, s.clock))
  }

  function Append(s: State, row: Row): State {
    s.(ledger := s.ledger + [row], table := s.table + {|s.ledger|})
  }

  function Claim(s: State, user: User, event: Option<string>, now: Time, limits: Limits, max: Option<nat>,
                 ages: Ages, c: Choice): State
  {
    var s1 := ClaimSweep(s, user, now, max, ages);
    if c.pick.None? then s1
    else
      var s2 := AfterGlobal(s1, limits);
      if c.global.Some? then s2.(jobs := Defer(s2.jobs, user, event, now, c.global.value, GlobalDeferred))
      else
        var s3 := AfterTenant(s2, user, limits);
        if c.tenant.Some? then s3.(jobs := Defer(s3.jobs, user, event, now, c.tenant.value, TenantDeferred))
        else if c.pick.value !in s3.jobs then s3
        else Lease(s3, c.pick.value, limits)
  }

  // ----------------------------------------------------------- the worker's side

  /** `record_analysis_model_call`; without it the provider is not called. */
  function Record(s: State, id: nat): (State, bool) {
    if id in s.table && id < |s.ledger| && s.ledger[id].Reservation? && !s.ledger[id].settled
       && s.ledger[id].actual < RESERVED_CALLS
    then (s.(ledger := s.ledger[id := s.ledger[id].(actual := s.ledger[id].actual + 1)]), true)
    else (s, false)
  }

  predicate IsReservation(s: State, id: nat, k: Key, attempt: nat) {
    id in s.table && id < |s.ledger| && s.ledger[id].Reservation? && s.ledger[id].key == k && s.ledger[id].attempt == attempt
  }

  /** Jobs waiting for room are looked at again: the tenant's own, and one that waits for global room. */
  function Wake(jobs: Jobs, user: User, now: Time, one: Option<Key>): Jobs {
    map k | k in jobs ::
      if (k.0 == user && IsOpen(jobs[k]) && jobs[k].reason.TenantDeferred? && jobs[k].nextAttempt > now) || one == Some(k)
      then jobs[k].(nextAttempt := now, updatedAt := now) else jobs[k]
  }

  /** Higher priority first, then the one due sooner, then the older job. */
  predicate WokenBefore(a: Job, b: Job) {
    || a.priority > b.priority
    || (a.priority == b.priority
        && (a.nextAttempt < b.nextAttempt || (a.nextAttempt == b.nextAttempt && a.createdAt < b.createdAt)))
  }

  predicate MayWake(jobs: Jobs, now: Time, one: Option<Key>) {
    one.Some? ==> one.value in jobs && IsOpen(jobs[one.value]) && jobs[one.value].reason.GlobalDeferred?
                  && jobs[one.value].nextAttempt > now
  }

  /** `settle_analysis_model_reservation`; `one` is the job woken for global room, if any. */
  function Settle(s: State, id: nat, k: Key, attempt: nat, now: Time, one: Option<Key>): (State, bool) {
    var s := s.(clock := now);
    if !IsReservation(s, id, k, attempt) then (s, false)
    else
      var row := s.ledger[id];
      var settled := s.(ledger := s.ledger[id := row.(settled := true)]);
      if !row.settled && row.actual < RESERVED_CALLS
      then (settled.(jobs := Wake(s.jobs, k.0, now, one)), true) else (settled, true)
  }

  predicate HoldsLease(jobs: Jobs, k: Key, attempt: nat) {
    k in jobs && jobs[k].status.Running? && jobs[k].attempts == attempt
  }

  function Complete(s: State, k: Key, attempt: nat, published: bool, reason: Reason, now: Time): (State, bool) {
    var s := s.(clock := now);
    if !HoldsLease(s.jobs, k, attempt) then (s, false)
    else
      (s.(jobs := s.jobs[k := s.jobs[k].(status := if published then Published else NoIntervention,
                                         reason := reason, updatedAt := now)]), true)
  }

  function RetryJob(s: State, k: Key, attempt: nat, delay: Time, reason: Reason, now: Time): (State, bool) {
    var s := s.(clock := now);
    if !HoldsLease(s.jobs, k, attempt) then (s, false)
    else
      (s.(jobs := s.jobs[k := s.jobs[k].(status := Retry, nextAttempt := now + Max(0, Min(HOUR, delay)),
                                         reason := reason, updatedAt := now)]), true)
  }

  function Pow2(n: nat): nat {
    if n == 0 then 1 else 2 * Pow2(n - 1)
  }

  /** The backoff before attempt `attempts + 1`: doubled each time, at most an hour. */
  function Backoff(base: nat, attempts: nat): Time {
    Min(HOUR, base * Pow2(Min(8, Max(0, attempts - 1))))
  }

  /** The processor's `_retry`: a worker that has used its last attempt closes the job instead. */
  function RetryOrFail(s: State, k: Key, attempt: nat, max: nat, base: nat, reason: Reason, now: Time): (State, bool) {
    if attempt >= max then Complete(s, k, attempt, false, Exhausted, now)
    else RetryJob(s, k, attempt, Backoff(base, attempt), reason, now)
  }

  /** How the work on a claim ends: stopped by a preference, with an answer, or with a failure. */
  datatype Verdict = Blocked(reason: Reason) | Answered(published: bool, reason: Reason) | Unavailable(retryable: bool, reason: Reason)

  /** What becomes of the job; an attempt that could not be recorded is a failure to be tried again. */
  function Finish(s: State, k: Key, attempt: nat, recorded: bool, verdict: Verdict, max: nat, base: nat, now: Time): (State, bool) {
    if !recorded then RetryOrFail(s, k, attempt, max, base, Other("analysis_processing_unavailable"), now)
    else
      match verdict
      case Blocked(reason) => Complete(s, k, attempt, false, reason, now)
      case Answered(published, reason) => Complete(s, k, attempt, published, reason, now)
      case Unavailable(true, reason) => RetryOrFail(s, k, attempt, max, base, reason, now)
      case Unavailable(false, reason) => Complete(s, k, attempt, false, reason, now)
  }

  // ----------------------------------------------------------- everything else

  /** `enqueue_analysis_job`: a job is created once; an open one may only be raised. */
  function Enqueue(s: State, k: Key, kind: Kind, approved: bool, priority: nat, occurredAt: Time, now: Time): State {
    var s := s.(clock := now);
    if k !in s.jobs then
      s.(jobs := s.jobs[k := Job(kind, approved, priority, occurredAt, now, Pending, 0, now, Unset, now)])
    else if !IsOpen(s.jobs[k]) then s
    else
      var j := s.jobs[k];
      s.(jobs := s.jobs[k := j.(approved := j.approved || approved, priority := Max(j.priority, priority),
                                kind := if kind.Refine? then kind else j.kind)])
  }

  /** `reserve_global_direct_model_call`: the tenant's budget first, then the global one. */
  function DirectCall(s: State, user: User, now: Time, limits: Limits, tenant: Option<Time>, global: Option<Time>): (State, bool) {
    var s1 := AfterTenant(s.(clock := now), user, limits);
    if tenant.Some? then (s1, false)
    else
      var s2 := AfterGlobal(s1, limits);
      if global.Some? then (s2, false) else (Append(s2, Direct(user, now)), true)
  }

  ghost predicate IsDirectChoice(s: State, user: User, now: Time, limits: Limits, tenant: Option<Time>, global: Option<Time>) {
    var s1 := AfterTenant(s.(clock := now), user, limits);
    var s2 := AfterGlobal(s1, limits);
    && Answers(s1, Some(user), 1, limits.hourly, limits.daily, tenant)
    && (tenant.None? ==> Answers(s2, None, 1, limits.globalHourly, limits.globalDaily, global))
  }

  function Recheck(s: State, now: Time): State {
    s.(clock := now, jobs := map k | k in s.jobs ::
      if IsOpen(s.jobs[k]) && (s.jobs[k].reason.TenantDeferred? || s.jobs[k].reason.GlobalDeferred?)
         && s.jobs[k].nextAttempt > now
      then s.jobs[k].(nextAttempt := now, updatedAt := now) else s.jobs[k])
  }
}
