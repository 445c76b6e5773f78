/** The cache of translated advice: rows are leased to workers, and a translation is published only
    while the source it was made from is still the current one. One locale is modelled. */
module Localization {
  import opened Basics

  type User = string
  type Id = (User, string)
  type Token = string

  const LEASE: Time := 10 * MINUTE

  /** The two judgements on texts that live outside this model: is a source already in the language
      asked for, and what a proposed translation of a source is stored as, if it is accepted. */
  datatype Rules = Rules(isNative: Bytes -> bool, accepts: (Bytes, Bytes) -> Option<Bytes>)

  datatype Advice = Advice(provisional: bool, source: Bytes, created: Time)

  datatype Status = Pending | Running | Ready | Unavailable

  datatype Row = Row(hash: Digest, status: Status, attempts: nat, next: Time, text: Option<Bytes>, lease: Option<Token>,
                     expires: Time)

  /** What a worker is given: the source as it was when the lease was granted. */
  datatype Claim = Claim(id: Id, hash: Digest, attempt: nat, token: Token, source: Bytes)

  /** `users` are the active accounts reading in this locale. The last three fields are history: every
      claim ever given out with the version of the row it was for, the latest version of each row,
      and what a finished translation was made of. */
  datatype State = State(users: set<User>, advice: map<Id, Advice>, rows: map<Id, Row>,
                         claims: map<Token, (Claim, nat)>, version: map<Id, nat>, made: map<Id, (Token, Bytes)>)

  function VersionOf(s: State, id: Id): nat {
    if id in s.version then s.version[id] else 0
  }

  function FreshRow(hash: Digest, now: Time): Row {
    Row(hash, Pending, 0, now, None, None, now)
  }

  /** A row for another source starts over. */
  function Reset(s: State, id: Id, hash: Digest, now: Time): State {
    s.(rows := s.rows[id := FreshRow(hash, now)], version := s.version[id := VersionOf(s, id) + 1])
  }

  /** `_upsert_advice_localization_locked` */
  function Upsert(s: State, rules: Rules, id: Id, now: Time): State {
    if id !in s.advice then s
    else
      var hash := Sha256(s.advice[id].source);
      if rules.isNative(s.advice[id].source) then s.(rows := s.rows - {id})
      else if id in s.rows && s.rows[id].hash == hash then s
      else Reset(s, id, hash, now)
  }

  /** `update_advice` */
  function Revise(s: State, rules: Rules, id: Id, source: Bytes, now: Time): State {
    if id !in s.advice then s
    else
      var s := s.(advice := s.advice[id := s.advice[id].(source := source)]);
      if id.0 in s.users then Upsert(s, rules, id, now) else s
  }

  /** One advice of `enqueue_advice_localizations`. */
  function Enqueue(s: State, rules: Rules, id: Id, now: Time): State {
    if id in s.advice && !s.advice[id].provisional && id.0 in s.users then Upsert(s, rules, id, now) else s
  }

  // --------------------------------------------------------------------- claim

  function LapsedRow(row: Row, now: Time, max: nat): Row {
    row.(status := if row.attempts >= max then Unavailable else Pending, next := now, lease := None)
  }

  predicate HasLapsed(row: Row, now: Time) {
    row.status.Running? && row.lease.Some? && row.expires <= now
  }

  /** The first statement of a claim: leases that ran out. */
  function Lapse(s: State, now: Time, max: nat): State {
    s.(rows := map id | id in s.rows :: if HasLapsed(s.rows[id], now) then LapsedRow(s.rows[id], now, max) else s.rows[id])
  }

  /** The second: rows without an attempt left. */
  function Exhaust(s: State, max: nat): State {
    s.(rows := map id | id in s.rows ::
      if s.rows[id].status.Pending? && s.rows[id].attempts >= max
      then s.rows[id].(status := Unavailable, lease := None) else s.rows[id])
  }

  predicate IsDue(s: State, id: Id, now: Time, max: nat) {
    && id in s.rows && s.rows[id].status.Pending? && s.rows[id].next <= now && s.rows[id].attempts < max
    && id in s.advice && !s.advice[id].provisional && id.0 in s.users
  }

  /** The one due longest first, then the one tried least, then the newest advice. */
  predicate NotAfter(s: State, a: Id, b: Id)
    requires a in s.rows && b in s.rows && a in s.advice && b in s.advice
  {
    var x, y := s.rows[a], s.rows[b];
    x.next < y.next || (x.next == y.next && (x.attempts < y.attempts
      || (x.attempts == y.attempts && s.advice[a].created >= s.advice[b].created)))
  }

  ghost predicate IsPick(s: State, now: Time, max: nat, pick: Option<Id>) {
    match pick
    case None => forall id :: !IsDue(s, id, now, max)
    case Some(best) =>
      IsDue(s, best, now, max) && forall id :: IsDue(s, id, now, max) ==> NotAfter(s, best, id)
  }

  function Postpone(s: State, user: User, until: Time): State {
    s.(rows := map id | id in s.rows ::
      if id.0 == user && s.rows[id].status.Pending? && s.rows[id].next < until
      then s.rows[id].(next := until) else s.rows[id])
  }

  function Grant(s: State, id: Id, token: Token, now: Time): (State, Claim)
    requires id in s.rows && id in s.advice
  {
    var row := s.rows[id].(status := Running, attempts := s.rows[id].attempts + 1, lease := Some(token), expires := now + LEASE);
    var claim := Claim(id, row.hash, row.attempts, token, s.advice[id].source);
    (s.(rows := s.rows[id := row], claims := s.claims[token := (claim, VersionOf(s, id))]), claim)
  }

  /** One round of the loop of a claim. `until` is set when the user's daily budget is used up. */
  function Consider(s: State, rules: Rules, id: Id, until: Option<Time>, token: Token, now: Time): (State, Option<Claim>)
    requires id in s.rows && id in s.advice
  {
    var source := s.advice[id].source;
    if until.Some? then (Postpone(s, id.0, until.value), None)
    else if rules.isNative(source) then (s.(rows := s.rows - {id}), None)
    else if Sha256(source) != s.rows[id].hash then (Reset(s, id, Sha256(source), now), None)
    else
      var (granted, claim) := Grant(s, id, token, now);
      (granted, Some(claim))
  }

  // ------------------------------------------------------------- the worker's side

  /** The worker still holds the row it was given. */
  predicate Holds(s: State, c: Claim) {
    c.id in s.rows && s.rows[c.id].status.Running? && s.rows[c.id].lease == Some(c.token)
  }

  /** `complete_advice_localization`; a translation that is not accepted changes nothing. */
  function Complete(s: State, rules: Rules, c: Claim, proposed: Bytes, now: Time): (State, bool) {
    if c.id !in s.advice || s.advice[c.id].provisional then (s, false)
    else
      var source := s.advice[c.id].source;
      if Sha256(source) != c.hash then (if Holds(s, c) then Reset(s, c.id, Sha256(source), now) else s, false)
      else
        var text := rules.accepts(source, proposed);
        if text.None? || !Holds(s, c) || s.rows[c.id].hash != c.hash then (s, false)
        else
          (s.(rows := s.rows[c.id := s.rows[c.id].(status := Ready, text := text, lease := None, next := now)],
              made := s.made[c.id := (c.token, proposed)]), true)
  }

  /** `fail_advice_localization` */
  function Fail(s: State, c: Claim, retryable: bool, delay: Time, max: nat, now: Time): (State, bool) {
    if !Holds(s, c) || s.rows[c.id].hash != c.hash then (s, false)
    else
      var status := if retryable && c.attempt < max then Pending else Unavailable;
      (s.(rows := s.rows[c.id := s.rows[c.id].(status := status, next := now + Max(0, Min(DAY, delay)),
                                               text := None, lease := None)]), true)
  }

  // ------------------------------------------------------------------- display

  datatype Display = Original(source: Bytes) | Translated(text: Bytes) | NotYet | NotAvailable

  /** `_advice_display_envelope_from_row` */
  function Envelope(s: State, rules: Rules, id: Id): Display
    requires id in s.advice
  {
    var source := s.advice[id].source;
    if rules.isNative(source) then Original(source)
    else if id !in s.rows || s.rows[id].hash != Sha256(source) then NotYet
    else if s.rows[id].status.Ready? && s.rows[id].text.Some? then
      var text := rules.accepts(source, s.rows[id].text.value);
      if text.Some? then Translated(text.value) else NotAvailable
    else if s.rows[id].status.Unavailable? then NotAvailable else NotYet
  }

  // ---------------------------------------------------------- the other tables

  function Write(s: State, id: Id, advice: Advice): State {
    if id in s.advice then s else s.(advice := s.advice[id := advice])
  }

  /** `promote_advice`: the draft becomes visible as reviewed; its cached row is not looked at. */
  function Promote(s: State, id: Id, reviewed: Bytes): State {
    if id in s.advice && s.advice[id].provisional
    then s.(advice := s.advice[id := s.advice[id].(provisional := false, source := reviewed)]) else s
  }

  /** A draft is deleted with its row. */
  function Discard(s: State, id: Id): State {
    if id in s.advice && s.advice[id].provisional then s.(advice := s.advice - {id}, rows := s.rows - {id}) else s
  }
}
