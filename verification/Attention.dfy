/** Reminders of published advice: who may show one, how often, and what silence may teach. One
    function for each transaction on the attention tables of one tenant. */
module Attention {
  import opened Basics

  type Id = string
  type Device = string
  type Token = string

  const REMINDER: Time := HOUR
  const CLAIM_LEASE: Time := 15 * MINUTE
  const SNOOZE: Time := 4 * HOUR
  const AUTO_WEIGHT: real := 0.25

  datatype Status = Provisional | Active | Adopted | Dismissed | Withdrawn | Verified

  datatype Advice = Advice(status: Status, immediate: bool, level: nat, created: Time, deadline: Time)

  datatype Phase = Pending | Claimed | Waiting | Resolved

  datatype Lease = Lease(token: Token, device: Device, expires: Time)

  /** `count` permits have been used; `later` says the user asked to be reminded later. */
  datatype Row = Row(phase: Phase, count: nat, next: Option<Time>, autoClose: Option<Time>, lease: Option<Lease>, later: bool)

  datatype Outcome = Open | Delivered | Failed | Superseded | Cancelled

  datatype Attempt = Attempt(id: Id, device: Device, number: nat, expires: Time, outcome: Outcome)

  /** A note is taken as normalized, so that two kinds are equal exactly when their semantic keys are. */
  datatype Kind =
    | Adopt | Useful | Irrelevant | FactError | PredictionError | TimingError | Dismiss | StopTopic
    | Guidance(note: string) | Later | Acknowledged

  datatype Entry = FromUser(id: Id, kind: Kind, key: Option<string>) | FromSystem(id: Id)

  datatype Origin = User | System

  /** `since` remembers how much feedback there was when the reminder row was created. */
  datatype State = State(clock: Time, advice: map<Id, Advice>, rows: map<Id, Row>, attempts: map<Token, Attempt>,
                         feedback: seq<Entry>, signals: map<(Id, Origin), real>, since: map<Id, nat>)

  predicate IsActive(s: State, id: Id) {
    id in s.advice && s.advice[id].status.Active?
  }

  // ------------------------------------------------------------- publication

  function NewRow(immediate: bool): Row {
    Row(if immediate then Pending else Resolved, 0, None, None, None, false)
  }

  /** Active advice gets its row, unless there is one. */
  function Publish(s: State, id: Id, advice: Advice): State {
    var s := s.(advice := s.advice[id := advice]);
    if id in s.rows then s
    else s.(rows := s.rows[id := NewRow(advice.immediate)], since := s.since[id := |s.feedback|])
  }

  function Draft(s: State, id: Id, advice: Advice): State {
    s.(advice := s.advice[id := advice])
  }

  function Promote(s: State, id: Id, advice: Advice): State {
    if id in s.advice && s.advice[id].status.Provisional? then Publish(s, id, advice.(status := Active)) else s
  }

  function Discard(s: State, id: Id): State {
    if id in s.advice && s.advice[id].status.Provisional? then s.(advice := s.advice - {id}) else s
  }

  /** `update_advice` */
  function Revise(s: State, id: Id, level: nat, deadline: Time): State {
    if id in s.advice then s.(advice := s.advice[id := s.advice[id].(level := level, deadline := deadline)]) else s
  }

  /** `record_outcome` */
  function Verify(s: State, id: Id): State {
    if id in s.advice then s.(advice := s.advice[id := s.advice[id].(status := Verified)]) else s
  }

  /** Active advice from before the attention table gets a row that is never shown. */
  function EnsureRows(s: State): State {
    var missing := set id | id in s.advice && s.advice[id].status.Active? && id !in s.rows;
    s.(rows := s.rows + map id | id in missing :: NewRow(false), since := s.since + map id | id in missing :: |s.feedback|)
  }

  function Expired(s: State, now: Time): set<Id> {
    set id | id in s.advice && s.advice[id].status.Active? && s.advice[id].deadline <= now
  }

  function WithStatus(advice: map<Id, Advice>, ids: set<Id>, status: Status): map<Id, Advice> {
    map id | id in advice :: if id in ids then advice[id].(status := status) else advice[id]
  }

  /** `_withdraw_expired_active`: the advice alone; its row stays for the next sweep. */
  function WithdrawExpired(s: State, now: Time): State {
    s.(clock := now, advice := WithStatus(s.advice, Expired(s, now), Withdrawn))
  }

  // --------------------------------------------------------------- resolving

  function ResolvedRow(row: Row): Row {
    if row.phase.Resolved? then row else row.(phase := Resolved, next := None, autoClose := None, lease := None)
  }

  function TokensOf(rows: map<Id, Row>, ids: set<Id>): set<Token> {
    set id | id in ids && id in rows && rows[id].lease.Some? :: rows[id].lease.value.token
  }

  function Mark(attempts: map<Token, Attempt>, tokens: set<Token>, outcome: Outcome): map<Token, Attempt> {
    map t | t in attempts ::
      if t in tokens && attempts[t].outcome.Open? then attempts[t].(outcome := outcome) else attempts[t]
  }

  function ResolveRows(rows: map<Id, Row>, ids: set<Id>): map<Id, Row> {
    map id | id in rows :: if id in ids then ResolvedRow(rows[id]) else rows[id]
  }

  /** `_resolve_attention_locked`, for each of the given advices. */
  function Resolve(s: State, ids: set<Id>): State {
    s.(rows := ResolveRows(s.rows, ids), attempts := Mark(s.attempts, TokensOf(s.rows, ids), Cancelled))
  }

  // ----------------------------------------------------------------- sweeping

  function Earlier(a: Option<Time>, limit: Time): Option<Time> {
    if a.Some? && a.value > limit then Some(limit) else a
  }

  function Bounded(row: Row, deadline: Time): Row {
    row.(next := Earlier(row.next, deadline), autoClose := Earlier(row.autoClose, deadline))
  }

  /** Reminders end with the prediction they are about. */
  function BoundRows(s: State, now: Time): map<Id, Row> {
    map id | id in s.rows ::
      if IsActive(s, id) && s.advice[id].deadline > now then Bounded(s.rows[id], s.advice[id].deadline) else s.rows[id]
  }

  /** `_expire_prediction_deadlines_locked` */
  function ExpireDeadlines(s: State, now: Time): State {
    var gone := Expired(s, now);
    Resolve(s.(advice := WithStatus(s.advice, gone, Withdrawn), rows := BoundRows(s, now)), gone)
  }

  function Lapsed(rows: map<Id, Row>, now: Time): set<Id> {
    set id | id in rows && rows[id].phase.Claimed? && rows[id].lease.Some? && rows[id].lease.value.expires <= now
  }

  function Released(row: Row): Row {
    row.(phase := Waiting, lease := None)
  }

  function ReleaseRows(rows: map<Id, Row>, ids: set<Id>): map<Id, Row> {
    map id | id in rows :: if id in ids then Released(rows[id]) else rows[id]
  }

  /** The user has answered "later" and there is no permit left for it. */
  predicate IsSpentLater(row: Row) {
    row.count >= 2 && row.later
  }

  function SpentLater(rows: map<Id, Row>, ids: set<Id>): set<Id> {
    set id | id in ids && id in rows && IsSpentLater(rows[id])
  }

  /** A lease that ran out is given up; its permit stays used. */
  function LapseLeases(s: State, now: Time): State {
    var lapsed := Lapsed(s.rows, now);
    Resolve(s.(attempts := Mark(s.attempts, TokensOf(s.rows, lapsed), Superseded), rows := ReleaseRows(s.rows, lapsed)),
            SpentLater(s.rows, lapsed))
  }

  predicate IsDue(s: State, id: Id, now: Time) {
    && id in s.rows && IsActive(s, id) && s.rows[id].phase.Waiting? && s.rows[id].count == 2
    && s.rows[id].autoClose.Some? && s.rows[id].autoClose.value <= now
  }

  function Due(s: State, now: Time): set<Id> {
    set id | id in s.rows && IsDue(s, id, now)
  }

  function DeliveredTo(attempts: map<Token, Attempt>, id: Id): set<Token> {
    set t | t in attempts && attempts[t].id == id && attempts[t].outcome.Delivered?
  }

  /** Both permits led to a confirmed display. */
  function Shown(s: State, now: Time): set<Id> {
    set id | id in s.rows && IsDue(s, id, now) && |DeliveredTo(s.attempts, id)| == 2
  }

  predicate IsOrder(order: seq<Id>, ids: set<Id>) {
    && (forall i :: 0 <= i < |order| ==> order[i] in ids)
    && (forall id :: id in ids ==> id in order)
    && forall i, j :: 0 <= i < j < |order| ==> order[i] != order[j]
  }

  function AutoEntries(order: seq<Id>): seq<Entry> {
    seq(|order|, i requires 0 <= i < |order| => FromSystem(order[i]))
  }

  function AutoSignals(ids: set<Id>): map<(Id, Origin), real> {
    map id | id in ids :: (id, System) := AUTO_WEIGHT
  }

  /** Reminders whose time is over: without two displays silently, otherwise as a weak sign that the
      advice does not matter. */
  function CloseDue(s: State, now: Time, order: seq<Id>): State {
    var shown := Shown(s, now);
    Resolve(s.(advice := WithStatus(s.advice, shown, Dismissed), feedback := s.feedback + AutoEntries(order),
               signals := AutoSignals(shown) + s.signals), Due(s, now))
  }

  /** The state in which a sweep looks for reminders whose time is over. */
  function BeforeClosing(s: State, now: Time): State {
    LapseLeases(ExpireDeadlines(EnsureRows(s.(clock := now)), now), now)
  }

  /** `sweep_advice_attention`; `order` lists the advices dismissed, as they were found. */
  function Sweep(s: State, now: Time, order: seq<Id>): State {
    CloseDue(BeforeClosing(s, now), now, order)
  }

  // ----------------------------------------------------------------- claiming

  predicate IsCandidate(s: State, id: Id, now: Time, muted: set<Id>) {
    && id in s.rows && IsActive(s, id) && s.advice[id].immediate && id !in muted
    && (s.rows[id].phase.Pending? || s.rows[id].phase.Waiting?) && s.rows[id].count < 2
    && (s.rows[id].next.None? || s.rows[id].next.value <= now)
  }

  /** The higher level first, then the older advice. */
  predicate NotAfter(a: Advice, b: Advice) {
    a.level > b.level || (a.level == b.level && a.created <= b.created)
  }

  /** `muted` are the advices of paused goals. */
  ghost predicate IsPick(s: State, now: Time, muted: set<Id>, pick: Option<Id>) {
    match pick
    case None => forall id :: !IsCandidate(s, id, now, muted)
    case Some(best) =>
      && IsCandidate(s, best, now, muted)
      && forall id :: IsCandidate(s, id, now, muted) ==> NotAfter(s.advice[best], s.advice[id])
  }

  function GrantedRow(row: Row, deadline: Time, device: Device, token: Token, now: Time): Row {
    var number := row.count + 1;
    Row(Claimed, number,
        if number == 1 then Some(Min(now + REMINDER, deadline)) else None,
        if number == 2 && !row.later then Some(Min(now + REMINDER, deadline)) else None,
        Some(Lease(token, device, now + CLAIM_LEASE)), row.later)
  }

  function Grant(s: State, id: Id, device: Device, token: Token, now: Time): State
    requires id in s.rows && id in s.advice
  {
    s.(rows := s.rows[id := GrantedRow(s.rows[id], s.advice[id].deadline, device, token, now)],
       attempts := s.attempts[token := Attempt(id, device, s.rows[id].count + 1, now + CLAIM_LEASE, Open)])
  }

  /** `claim_advice_attention`: a sweep, and a permit unless everything is paused. */
  function Claim(s: State, device: Device, token: Token, now: Time, order: seq<Id>, paused: bool, pick: Option<Id>): State {
    var s := Sweep(s, now, order);
    if paused || pick.None? || pick.value !in s.rows || pick.value !in s.advice then s
    else if s.advice[pick.value].deadline <= now then ExpireDeadlines(s, now)
    else Grant(s, pick.value, device, token, now)
  }

  // ------------------------------------------------------------- the device's side

  datatype Answer = Displayed(number: nat, next: Option<Time>) | GivenUp(count: nat) | Conflict

  /** The token is the device's own and still holds the row's lease. */
  predicate Holds(s: State, id: Id, device: Device, token: Token) {
    && token in s.attempts && s.attempts[token].id == id && s.attempts[token].device == device
    && s.attempts[token].outcome.Open?
    && id in s.rows && s.rows[id].phase.Claimed? && s.rows[id].lease.Some?
    && s.rows[id].lease.value.token == token && s.rows[id].lease.value.device == device
  }

  /** The permit is not shown: the lease ends, and with it a reminder that was only waiting for it. */
  function GiveUp(s: State, id: Id, token: Token, outcome: Outcome): State
    requires id in s.rows && token in s.attempts
  {
    var released := Released(s.rows[id]);
    s.(attempts := s.attempts[token := s.attempts[token].(outcome := outcome)],
       rows := s.rows[id := if IsSpentLater(s.rows[id]) then ResolvedRow(released) else released])
  }

  /** `complete_advice_attention` */
  function Complete(s: State, id: Id, device: Device, token: Token, now: Time): (State, Answer) {
    var s := s.(clock := now);
    if token !in s.attempts || s.attempts[token].id != id || s.attempts[token].device != device then (s, Conflict)
    else if s.attempts[token].outcome.Delivered? then
      (s, Displayed(s.attempts[token].number, if id in s.rows then s.rows[id].next else None))
    else if !Holds(s, id, device, token) || s.attempts[token].number != s.rows[id].count then (s, Conflict)
    else if s.attempts[token].expires <= now then (GiveUp(s, id, token, Superseded), Conflict)
    else
      var row := s.rows[id].(phase := Waiting, lease := None);
      var row := if row.count == 2 && row.later then row.(phase := Resolved, next := None, autoClose := None) else row;
      (s.(attempts := s.attempts[token := s.attempts[token].(outcome := Delivered)], rows := s.rows[id := row]),
       Displayed(row.count, row.next))
  }

  /** `fail_advice_attention` */
  function Fail(s: State, id: Id, device: Device, token: Token, now: Time): (State, Answer) {
    var s := s.(clock := now);
    if token !in s.attempts || s.attempts[token].id != id || s.attempts[token].device != device then (s, Conflict)
    else if s.attempts[token].outcome.Failed? then (s, GivenUp(if id in s.rows then s.rows[id].count else 0))
    else if !Holds(s, id, device, token) then (s, Conflict)
    else (GiveUp(s, id, token, Failed), GivenUp(s.rows[id].count))
  }

  // ---------------------------------------------------------------- feedback

  datatype Reply = Recorded | Known | Refused

  function SnoozedUntil(deadline: Time, now: Time): Option<Time> {
    if deadline > now then Some(Min(now + SNOOZE, deadline)) else None
  }

  /** `_defer_attention_locked` */
  function Defer(s: State, id: Id, until: Option<Time>): State {
    if id !in s.rows || s.rows[id].phase.Resolved? then s
    else if s.rows[id].count >= 2 || until.None? then Resolve(s, {id})
    else
      s.(rows := s.rows[id := s.rows[id].(phase := if s.rows[id].phase.Claimed? then Claimed else Waiting,
                                          next := until, autoClose := None, later := true)])
  }

  function StatusAfter(kind: Kind, status: Status): Status {
    match kind
    case Adopt => Adopted
    case Irrelevant | FactError | PredictionError | TimingError | Dismiss | StopTopic => Dismissed
    case _ => status
  }

  predicate IsGiven(feedback: seq<Entry>, id: Id, kind: Kind) {
    exists i :: 0 <= i < |feedback| && feedback[i].FromUser? && feedback[i].id == id && feedback[i].kind == kind
  }

  predicate IsKeyUsed(feedback: seq<Entry>, key: Option<string>) {
    key.Some? && exists i :: 0 <= i < |feedback| && feedback[i].FromUser? && feedback[i].key == key
  }

  /** The entry a feedback id was used for is this one. */
  predicate IsRepeat(feedback: seq<Entry>, id: Id, kind: Kind, key: Option<string>) {
    FromUser(id, kind, key) in feedback
  }

  function Guidances(feedback: seq<Entry>, id: Id): nat {
    if feedback == [] then 0
    else
      var last := feedback[|feedback| - 1];
      Guidances(feedback[..|feedback| - 1], id) + if last.FromUser? && last.id == id && last.kind.Guidance? then 1 else 0
  }

  /** What `record_feedback` decides before it writes. */
  function Verdict(s: State, id: Id, kind: Kind, key: Option<string>, quota: Option<nat>, guidanceQuota: Option<nat>): Reply {
    if id !in s.advice then Refused
    else if IsKeyUsed(s.feedback, key) then if IsRepeat(s.feedback, id, kind, key) then Known else Refused
    else if IsGiven(s.feedback, id, kind) then Known
    else if !kind.Guidance? && !s.advice[id].status.Active? then Refused
    else if quota.Some? && |s.feedback| >= quota.value then Refused
    else if kind.Guidance? && guidanceQuota.Some? && Guidances(s.feedback, id) >= guidanceQuota.value then Refused
    else Recorded
  }

  /** `record_feedback` */
  function Feedback(s: State, id: Id, kind: Kind, key: Option<string>, now: Time, quota: Option<nat>, guidanceQuota: Option<nat>)
    : (State, Reply)
  {
    var s := s.(clock := now);
    var verdict := Verdict(s, id, kind, key, quota, guidanceQuota);
    if !verdict.Recorded? then (s, verdict) else (Answered(s, id, kind, key), Recorded)
  }

  /** An accepted answer: "later" postpones the reminder, every other one ends it. */
  function Answered(s: State, id: Id, kind: Kind, key: Option<string>): State
    requires id in s.advice
  {
    var written := Written(s, id, kind, key);
    if kind.Later? then Defer(written, id, SnoozedUntil(s.advice[id].deadline, s.clock)) else Resolve(written, {id})
  }

  function Written(s: State, id: Id, kind: Kind, key: Option<string>): State
    requires id in s.advice
  {
    s.(feedback := s.feedback + [FromUser(id, kind, key)],
       signals := if kind.Irrelevant? then map[(id, User) := 1.0] + s.signals else s.signals,
       advice := s.advice[id := s.advice[id].(status := StatusAfter(kind, s.advice[id].status))])
  }
}
