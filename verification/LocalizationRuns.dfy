/** Whole runs of the translation cache: what is displayed, who may write, how often is tried. */
module LocalizationRuns {
  import opened Basics
  import opened Localization

  // ------------------------------------------------------------- the invariant

  /** The claim a running row is leased under is for the row's source and attempt. */
  ghost predicate LeaseOk(s: State, id: Id)
    requires id in s.rows
  {
    var row := s.rows[id];
    if row.status.Running? then
      && row.lease.Some? && row.lease.value in s.claims
      && var c := s.claims[row.lease.value].0; c.id == id && c.hash == row.hash && c.attempt == row.attempts
    else row.lease.None?
  }

  /** A finished translation was accepted for the source its row stands for. */
  ghost predicate TextOk(s: State, rules: Rules, id: Id)
    requires id in s.rows
  {
    var row := s.rows[id];
    if row.status.Ready? then
      && row.text.Some? && id in s.made && s.made[id].0 in s.claims
      && var c := s.claims[s.made[id].0].0; c.id == id && c.hash == row.hash && row.text == rules.accepts(c.source, s.made[id].1)
    else row.text.None?
  }

  ghost predicate RowsOk(s: State, rules: Rules) {
    forall id :: id in s.rows ==> id in s.advice && id in s.version && LeaseOk(s, id) && TextOk(s, rules, id)
  }

  ghost predicate ClaimsOk(s: State) {
    forall t :: t in s.claims ==> s.claims[t].0.token == t && s.claims[t].0.hash == Sha256(s.claims[t].0.source)
  }

  /** The claims given out for one version of a row. */
  function ClaimsFor(claims: map<Token, (Claim, nat)>, id: Id, version: nat): set<Token> {
    set t | t in claims && claims[t].0.id == id && claims[t].1 == version
  }

  predicate WithinMax(claims: map<Token, (Claim, nat)>, id: Id, version: nat, max: nat) {
    |ClaimsFor(claims, id, version)| <= max
  }

  ghost predicate TriesOk(s: State, max: nat) {
    && (forall id, v :: WithinMax(s.claims, id, v, max))
    && (forall t :: t in s.claims ==> s.claims[t].1 <= VersionOf(s, s.claims[t].0.id))
    && forall id :: id in s.rows ==> s.rows[id].attempts == |ClaimsFor(s.claims, id, VersionOf(s, id))|
  }

  ghost predicate Inv(s: State, rules: Rules, max: nat) {
    RowsOk(s, rules) && ClaimsOk(s) && TriesOk(s, max)
  }

  // ------------------------------------------------------------------ one step

  lemma ResetKeepsInv(s: State, rules: Rules, max: nat, id: Id, hash: Digest, now: Time)
    requires Inv(s, rules, max) && id in s.advice
    ensures Inv(Reset(s, id, hash, now), rules, max)
  {
    hide WithinMax;
    assert ClaimsFor(s.claims, id, VersionOf(s, id) + 1) == {};
    var s' := Reset(s, id, hash, now);
    assert RowsOk(s', rules);
  }

  lemma UpsertKeepsInv(s: State, rules: Rules, max: nat, id: Id, now: Time)
    requires Inv(s, rules, max)
    ensures Inv(Upsert(s, rules, id, now), rules, max)
  {
    hide Inv, Reset;
    if id in s.advice { ResetKeepsInv(s, rules, max, id, Sha256(s.advice[id].source), now); }
    RemoveKeepsInv(s, rules, max, id);
  }

  lemma RemoveKeepsInv(s: State, rules: Rules, max: nat, id: Id)
    requires Inv(s, rules, max)
    ensures Inv(s.(rows := s.rows - {id}), rules, max)
  {
    hide WithinMax, ClaimsFor;
  }

  /** Rows that keep their source, attempts and text, and lose a lease only with the running state. */
  ghost predicate RowStays(a: Row, b: Row) {
    && b.hash == a.hash && b.attempts == a.attempts
    && (b == a.(next := b.next)
        || (!b.status.Running? && !b.status.Ready? && !a.status.Ready? && b.lease.None? && b.text.None?))
  }

  lemma RowsStayKeepInv(s: State, rules: Rules, max: nat, rows: map<Id, Row>)
    requires Inv(s, rules, max) && rows.Keys == s.rows.Keys && forall id :: id in rows ==> RowStays(s.rows[id], rows[id])
    ensures Inv(s.(rows := rows), rules, max)
  {
    hide WithinMax, ClaimsFor;
    var s' := s.(rows := rows);
    forall id | id in rows ensures LeaseOk(s', id) && TextOk(s', rules, id) && rows[id].attempts == s.rows[id].attempts {
      assert RowStays(s.rows[id], rows[id]) && LeaseOk(s, id) && TextOk(s, rules, id);
    }
  }

  lemma SweepsKeepInv(s: State, rules: Rules, max: nat, now: Time, user: User, until: Time)
    requires Inv(s, rules, max)
    ensures Inv(Lapse(s, now, max), rules, max) && Inv(Exhaust(s, max), rules, max) && Inv(Postpone(s, user, until), rules, max)
  {
    hide Inv, RowStays, Lapse, Exhaust, Postpone;
    SweepsStay(s, rules, max, now, user, until);
    RowsStayKeepInv(s, rules, max, Lapse(s, now, max).rows);
    RowsStayKeepInv(s, rules, max, Exhaust(s, max).rows);
    RowsStayKeepInv(s, rules, max, Postpone(s, user, until).rows);
    SweepsAreOnRows(s, now, max, user, until);
  }

  lemma SweepsAreOnRows(s: State, now: Time, max: nat, user: User, until: Time)
    ensures Lapse(s, now, max) == s.(rows := Lapse(s, now, max).rows) && Exhaust(s, max) == s.(rows := Exhaust(s, max).rows)
    ensures Postpone(s, user, until) == s.(rows := Postpone(s, user, until).rows)
    ensures Lapse(s, now, max).rows.Keys == Exhaust(s, max).rows.Keys == Postpone(s, user, until).rows.Keys == s.rows.Keys
  {
  }

  lemma SweepsStay(s: State, rules: Rules, max: nat, now: Time, user: User, until: Time)
    requires Inv(s, rules, max)
    ensures Lapse(s, now, max).rows.Keys == Exhaust(s, max).rows.Keys == Postpone(s, user, until).rows.Keys == s.rows.Keys
    ensures forall id :: id in s.rows ==>
      && RowStays(s.rows[id], Lapse(s, now, max).rows[id]) && RowStays(s.rows[id], Exhaust(s, max).rows[id])
      && RowStays(s.rows[id], Postpone(s, user, until).rows[id])
  {
    hide WithinMax, ClaimsFor;
    forall id | id in s.rows ensures s.rows[id].status.Running? || s.rows[id].status.Pending? ==> s.rows[id].text.None? {
      assert TextOk(s, rules, id) && LeaseOk(s, id);
    }
  }

  lemma OneMoreClaim(claims: map<Token, (Claim, nat)>, token: Token, c: Claim, version: nat, id: Id, v: nat)
    requires token !in claims && c.id == id
    ensures var more := claims[token := (c, version)];
            && ClaimsFor(more, id, v) == ClaimsFor(claims, id, v) + (if v == version then {token} else {})
            && token !in ClaimsFor(claims, id, v)
            && forall k, w :: k != id ==> ClaimsFor(more, k, w) == ClaimsFor(claims, k, w)
  {
  }

  lemma GrantKeepsTries(s: State, max: nat, id: Id, token: Token, now: Time)
    requires TriesOk(s, max) && id in s.rows && id in s.advice && token !in s.claims && s.rows[id].attempts < max
    ensures TriesOk(Grant(s, id, token, now).0, max)
  {
    hide ClaimsFor;
    var (s', c) := Grant(s, id, token, now);
    var version := VersionOf(s, id);
    forall k, v ensures WithinMax(s'.claims, k, v, max) {
      assert WithinMax(s.claims, k, v, max);
      OneMoreClaim(s.claims, token, c, version, id, v);
    }
    OneMoreClaim(s.claims, token, c, version, id, version);
  }

  lemma GrantKeepsRows(s: State, rules: Rules, id: Id, token: Token, now: Time)
    requires RowsOk(s, rules) && id in s.rows && id in s.advice && token !in s.claims && s.rows[id].status.Pending?
    ensures RowsOk(Grant(s, id, token, now).0, rules)
  {
    var s' := Grant(s, id, token, now).0;
    forall k | k in s'.rows ensures LeaseOk(s', k) && TextOk(s', rules, k) {
      assert LeaseOk(s, k) && TextOk(s, rules, k);
    }
  }

  lemma ConsiderKeepsInv(s: State, rules: Rules, max: nat, id: Id, until: Option<Time>, token: Token, now: Time)
    requires Inv(s, rules, max) && IsDue(s, id, now, max) && token !in s.claims
    ensures Inv(Consider(s, rules, id, until, token, now).0, rules, max)
  {
    hide RowsOk, TriesOk, Reset, Postpone;
    if until.Some? { SweepsKeepInv(s, rules, max, now, id.0, until.value); }
    RemoveKeepsInv(s, rules, max, id);
    ResetKeepsInv(s, rules, max, id, Sha256(s.advice[id].source), now);
    if Sha256(s.advice[id].source) == s.rows[id].hash {
      GrantKeepsTries(s, max, id, token, now);
      GrantKeepsRows(s, rules, id, token, now);
    }
  }

  lemma CompleteKeepsInv(s: State, rules: Rules, max: nat, c: Claim, proposed: Bytes, now: Time)
    requires Inv(s, rules, max) && c.token in s.claims && s.claims[c.token].0 == c
    ensures Inv(Complete(s, rules, c, proposed, now).0, rules, max)
  {
    hide Reset, WithinMax, ClaimsFor;
    var s' := Complete(s, rules, c, proposed, now).0;
    if c.id in s.advice {
      ResetKeepsInv(s, rules, max, c.id, Sha256(s.advice[c.id].source), now);
      if Complete(s, rules, c, proposed, now).1 {
        forall k | k in s'.rows ensures LeaseOk(s', k) && TextOk(s', rules, k) {
          assert LeaseOk(s, k) && TextOk(s, rules, k);
        }
      }
    }
  }

  lemma FailKeepsInv(s: State, rules: Rules, max: nat, c: Claim, retryable: bool, delay: Time, now: Time)
    requires Inv(s, rules, max)
    ensures Inv(Fail(s, c, retryable, delay, max, now).0, rules, max)
  {
    if Holds(s, c) { assert TextOk(s, rules, c.id); }
    hide Inv;
    RowsStayKeepInv(s, rules, max, Fail(s, c, retryable, delay, max, now).0.rows);
  }

  lemma AdviceKeepsInv(s: State, rules: Rules, max: nat, id: Id, advice: Advice)
    requires Inv(s, rules, max)
    ensures Inv(s.(advice := s.advice[id := advice]), rules, max)
    ensures Inv(s.(advice := s.advice - {id}, rows := s.rows - {id}), rules, max)
  {
    hide Inv;
    WrittenKeepsInv(s, rules, max, id, advice);
    RemoveKeepsInv(s, rules, max, id);
    DeletedKeepsInv(s.(rows := s.rows - {id}), rules, max, id);
  }

  lemma WrittenKeepsInv(s: State, rules: Rules, max: nat, id: Id, advice: Advice)
    requires Inv(s, rules, max)
    ensures Inv(s.(advice := s.advice[id := advice]), rules, max)
  {
    hide WithinMax, ClaimsFor;
  }

  lemma DeletedKeepsInv(s: State, rules: Rules, max: nat, id: Id)
    requires Inv(s, rules, max) && id !in s.rows
    ensures Inv(s.(advice := s.advice - {id}), rules, max)
  {
    hide WithinMax, ClaimsFor;
  }

  // --------------------------------------------------------------- whole runs

  /** A claim is made of its opening statements and any number of rounds. */
  datatype Op =
    | OpUsers(users: set<User>)
    | OpWrite(id: Id, advice: Advice)
    | OpPromote(id: Id, reviewed: Bytes)
    | OpDiscard(id: Id)
    | OpRevise(id: Id, source: Bytes, now: Time)
    | OpEnqueue(id: Id, now: Time)
    | OpOpen(now: Time, busy: bool)
    | OpConsider(id: Id, until: Option<Time>, token: Token, now: Time)
    | OpComplete(claim: Claim, proposed: Bytes, now: Time)
    | OpFail(claim: Claim, retryable: bool, delay: Time, now: Time)

  /** Workers present the claims they were given. */
  ghost predicate Enabled(s: State, max: nat, op: Op) {
    match op
    case OpConsider(id, _, token, now) => IsDue(s, id, now, max) && token !in s.claims
    case OpComplete(claim, _, _) => claim.token in s.claims && s.claims[claim.token].0 == claim
    case OpFail(claim, _, _, _) => claim.token in s.claims && s.claims[claim.token].0 == claim
    case _ => true
  }

  function Opened(s: State, now: Time, max: nat, busy: bool): State {
    if busy then Lapse(s, now, max) else Exhaust(Lapse(s, now, max), max)
  }

  ghost function Step(s: State, rules: Rules, max: nat, op: Op): State
    requires Enabled(s, max, op)
  {
    match op
    case OpUsers(users) => s.(users := users)
    case OpWrite(id, advice) => Write(s, id, advice)
    case OpPromote(id, reviewed) => Promote(s, id, reviewed)
    case OpDiscard(id) => Discard(s, id)
    case OpRevise(id, source, now) => Revise(s, rules, id, source, now)
    case OpEnqueue(id, now) => Enqueue(s, rules, id, now)
    case OpOpen(now, busy) => Opened(s, now, max, busy)
    case OpConsider(id, until, token, now) => Consider(s, rules, id, until, token, now).0
    case OpComplete(claim, proposed, now) => Complete(s, rules, claim, proposed, now).0
    case OpFail(claim, retryable, delay, now) => Fail(s, claim, retryable, delay, max, now).0
  }

  lemma UsersKeepInv(s: State, rules: Rules, max: nat, users: set<User>)
    requires Inv(s, rules, max)
    ensures Inv(s.(users := users), rules, max)
  {
    hide WithinMax, ClaimsFor;
  }

  lemma StepKeepsInv(s: State, rules: Rules, max: nat, op: Op)
    requires Inv(s, rules, max) && Enabled(s, max, op)
    ensures Inv(Step(s, rules, max, op), rules, max)
  {
    hide Inv, Upsert, Consider, Complete, Fail, Lapse, Exhaust;
    match op
    case OpUsers(users) => UsersKeepInv(s, rules, max, users);
    case OpWrite(id, advice) => AdviceKeepsInv(s, rules, max, id, advice);
    case OpPromote(id, reviewed) =>
      if id in s.advice { AdviceKeepsInv(s, rules, max, id, s.advice[id].(provisional := false, source := reviewed)); }
    case OpDiscard(id) => if id in s.advice { AdviceKeepsInv(s, rules, max, id, s.advice[id]); }
    case OpRevise(id, source, now) =>
      if id in s.advice {
        AdviceKeepsInv(s, rules, max, id, s.advice[id].(source := source));
        UpsertKeepsInv(s.(advice := s.advice[id := s.advice[id].(source := source)]), rules, max, id, now);
      }
    case OpEnqueue(id, now) => UpsertKeepsInv(s, rules, max, id, now);
    case OpOpen(now, busy) =>
      SweepsKeepInv(s, rules, max, now, "", now);
      SweepsKeepInv(Lapse(s, now, max), rules, max, now, "", now);
    case OpConsider(id, until, token, now) => ConsiderKeepsInv(s, rules, max, id, until, token, now);
    case OpComplete(claim, proposed, now) => CompleteKeepsInv(s, rules, max, claim, proposed, now);
    case OpFail(claim, retryable, delay, now) => FailKeepsInv(s, rules, max, claim, retryable, delay, now);
  }

  ghost predicate IsRun(rules: Rules, max: nat, run: seq<State>, ops: seq<Op>) {
    && |run| == |ops| + 1 && run[0] == State(run[0].users, map[], map[], map[], map[], map[])
    && forall i :: 0 <= i < |ops| ==> Enabled(run[i], max, ops[i]) && run[i + 1] == Step(run[i], rules, max, ops[i])
  }

  lemma EmptyIsFine(s: State, rules: Rules, max: nat)
    requires s == State(s.users, map[], map[], map[], map[], map[])
    ensures Inv(s, rules, max)
  {
    assert forall id, v :: ClaimsFor(s.claims, id, v) == {};
  }

  lemma {:induction false} EveryRunKeepsInv(rules: Rules, max: nat, run: seq<State>, ops: seq<Op>, n: nat)
    requires IsRun(rules, max, run, ops) && n < |run|
    ensures Inv(run[n], rules, max)
  {
    hide Inv, Step, Enabled;
    if n == 0 {
      EmptyIsFine(run[0], rules, max);
    } else {
      EveryRunKeepsInv(rules, max, run, ops, n - 1);
      assert Enabled(run[n - 1], max, ops[n - 1]) && run[n - 1 + 1] == Step(run[n - 1], rules, max, ops[n - 1]);
      StepKeepsInv(run[n - 1], rules, max, ops[n - 1]);
    }
  }

  // ---------------------------------------------------------- what it implies

  /** Whatever revisions, claims, expired leases, completions and failures came before: a translation
      that is displayed was made from exactly the source the advice has now, under a claim for it. */
  lemma DisplayedIsCurrent(rules: Rules, max: nat, run: seq<State>, ops: seq<Op>, n: nat, id: Id)
    requires IsRun(rules, max, run, ops) && n < |run| && id in run[n].advice && Envelope(run[n], rules, id).Translated?
    ensures var s := run[n];
            && id in s.made && s.made[id].0 in s.claims
            && s.claims[s.made[id].0].0.id == id && s.claims[s.made[id].0].0.source == s.advice[id].source
            && var stored := rules.accepts(s.advice[id].source, s.made[id].1);
               stored.Some? && Some(Envelope(s, rules, id).text) == rules.accepts(s.advice[id].source, stored.value)
  {
    hide IsRun;
    EveryRunKeepsInv(rules, max, run, ops, n);
    assert TextOk(run[n], rules, id);
  }

  /** No version of a source is given to workers more than `max` times, even when leases run out. */
  lemma TriesAreBounded(rules: Rules, max: nat, run: seq<State>, ops: seq<Op>, n: nat, id: Id, version: nat)
    requires IsRun(rules, max, run, ops) && n < |run|
    ensures |ClaimsFor(run[n].claims, id, version)| <= max
    ensures id in run[n].rows && version == VersionOf(run[n], id) ==>
      run[n].rows[id].attempts == |ClaimsFor(run[n].claims, id, version)|
  {
    hide IsRun;
    EveryRunKeepsInv(rules, max, run, ops, n);
    assert WithinMax(run[n].claims, id, version, max);
  }

  /** A running row is only changed by the worker holding it, by its lease running out, or by its
      source being revised or discarded. */
  lemma RunningRowIsFenced(s: State, rules: Rules, max: nat, op: Op, id: Id)
    requires Inv(s, rules, max) && Enabled(s, max, op) && id in s.rows && s.rows[id].status.Running?
    requires var s' := Step(s, rules, max, op); id !in s'.rows || s'.rows[id] != s.rows[id]
    ensures match op
            case OpComplete(claim, _, _) => claim.id == id && s.rows[id].lease == Some(claim.token)
            case OpFail(claim, _, _, _) => claim.id == id && s.rows[id].lease == Some(claim.token)
            case OpOpen(now, _) => s.rows[id].expires <= now
            case OpRevise(other, source, _) => other == id && (Sha256(source) != s.rows[id].hash || rules.isNative(source))
            case OpEnqueue(other, _) => other == id && id in s.advice
                && (Sha256(s.advice[id].source) != s.rows[id].hash || rules.isNative(s.advice[id].source))
            case OpDiscard(other) => other == id
            case _ => false
  {
    hide Inv, Lapse, Exhaust, Upsert, Postpone, Grant;
    match op
    case OpConsider(other, until, token, now) => ConsiderSparesOthers(s, rules, other, until, token, now, id);
    case OpOpen(now, busy) => if s.rows[id].expires > now { OpenSparesHeld(s, now, max, id); }
    case OpRevise(other, source, now) =>
      if other in s.advice {
        if other != id || (Sha256(source) == s.rows[id].hash && !rules.isNative(source)) {
          UpsertSparesOthers(s.(advice := s.advice[other := s.advice[other].(source := source)]), rules, other, id, now);
        }
      }
    case OpEnqueue(other, now) =>
      if other != id || id !in s.advice || (Sha256(s.advice[id].source) == s.rows[id].hash && !rules.isNative(s.advice[id].source)) {
        UpsertSparesOthers(s, rules, other, id, now);
      }
    case _ =>
  }

  lemma ConsiderSparesOthers(s: State, rules: Rules, other: Id, until: Option<Time>, token: Token, now: Time, id: Id)
    requires other in s.rows && other in s.advice && id in s.rows && id != other && !s.rows[id].status.Pending?
    ensures var s' := Consider(s, rules, other, until, token, now).0; id in s'.rows && s'.rows[id] == s.rows[id]
  {
  }

  lemma OpenSparesHeld(s: State, now: Time, max: nat, id: Id)
    requires id in s.rows && s.rows[id].status.Running? && s.rows[id].expires > now
    ensures id in Lapse(s, now, max).rows && Lapse(s, now, max).rows[id] == s.rows[id]
    ensures id in Exhaust(Lapse(s, now, max), max).rows && Exhaust(Lapse(s, now, max), max).rows[id] == s.rows[id]
  {
  }

  lemma UpsertSparesOthers(s: State, rules: Rules, other: Id, id: Id, now: Time)
    requires id in s.rows
    requires other == id && id in s.advice ==> Sha256(s.advice[id].source) == s.rows[id].hash && !rules.isNative(s.advice[id].source)
    ensures id in Upsert(s, rules, other, now).rows && Upsert(s, rules, other, now).rows[id] == s.rows[id]
  {
  }

  /** A worker that lost its lease, or whose source was revised, publishes nothing. */
  lemma StaleWorkerPublishesNothing(s: State, rules: Rules, c: Claim, proposed: Bytes, now: Time)
    requires c.id in s.advice && (Sha256(s.advice[c.id].source) != c.hash || !Holds(s, c))
    ensures !Complete(s, rules, c, proposed, now).1 && Complete(s, rules, c, proposed, now).0.made == s.made
    ensures var rows := Complete(s, rules, c, proposed, now).0.rows;
            forall id :: id in rows && rows[id].status.Ready? ==> id in s.rows && s.rows[id] == rows[id]
  {
  }
}
