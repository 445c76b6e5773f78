/** The attention tables as the database holds them. Every method is proved to take exactly the step
    of `Attention` it is named after; the sweeps go through the rows one by one. */
module AttentionBoard {
  import opened Basics
  import opened Attention
  import opened AttentionAnswers
  import opened AttentionSafety

  // ------------------------------------------- sweeps that are only partly done

  function BoundSome(s: State, now: Time, ids: set<Id>): map<Id, Row> {
    map id | id in s.rows :: if id in ids then BoundRows(s, now)[id] else s.rows[id]
  }

  function ExpireSome(s: State, now: Time, ids: set<Id>): State {
    var gone := Expired(s, now) * ids;
    Resolve(s.(advice := WithStatus(s.advice, gone, Withdrawn), rows := BoundSome(s, now, ids)), gone)
  }

  function ExpireOne(s: State, now: Time, id: Id): State
    requires IsActive(s, id)
  {
    if s.advice[id].deadline > now then
      if id in s.rows then s.(rows := s.rows[id := Bounded(s.rows[id], s.advice[id].deadline)]) else s
    else Resolve(s.(advice := s.advice[id := s.advice[id].(status := Withdrawn)]), {id})
  }

  function LapseSome(s: State, ids: set<Id>): State {
    Resolve(s.(attempts := Mark(s.attempts, TokensOf(s.rows, ids), Superseded), rows := ReleaseRows(s.rows, ids)),
            SpentLater(s.rows, ids))
  }

  function LapseOne(s: State, id: Id): State
    requires id in s.rows
  {
    var released := s.(attempts := Mark(s.attempts, TokensOf(s.rows, {id}), Superseded), rows := s.rows[id := Released(s.rows[id])]);
    if IsSpentLater(s.rows[id]) then Resolve(released, {id}) else released
  }

  /** The rows of `seen` that have been displayed twice, in the order they were met. */
  function ShownOf(attempts: map<Token, Attempt>, seen: seq<Id>): seq<Id> {
    if seen == [] then []
    else
      var last := seen[|seen| - 1];
      ShownOf(attempts, seen[..|seen| - 1]) + if |DeliveredTo(attempts, last)| == 2 then [last] else []
  }

  function SetOf(ids: seq<Id>): set<Id> {
    set id | id in ids
  }

  /** The given advices dismissed, before their rows are resolved. */
  function Closing(s: State, order: seq<Id>): State {
    s.(advice := WithStatus(s.advice, SetOf(order), Dismissed), feedback := s.feedback + AutoEntries(order),
       signals := AutoSignals(SetOf(order)) + s.signals)
  }

  function CloseSome(s: State, seen: seq<Id>): State {
    Resolve(Closing(s, ShownOf(s.attempts, seen)), SetOf(seen))
  }

  function CloseOne(s: State, id: Id): State
    requires id in s.advice
  {
    if |DeliveredTo(s.attempts, id)| != 2 then Resolve(s, {id})
    else
      Resolve(s.(advice := s.advice[id := s.advice[id].(status := Dismissed)], feedback := s.feedback + [FromSystem(id)],
                 signals := map[(id, System) := AUTO_WEIGHT] + s.signals), {id})
  }

  lemma ResolveNone(s: State)
    ensures Resolve(s, {}) == s
  {
  }

  lemma MarkTwice(attempts: map<Token, Attempt>, a: set<Token>, b: set<Token>, outcome: Outcome)
    requires !outcome.Open?
    ensures Mark(Mark(attempts, a, outcome), b, outcome) == Mark(attempts, a + b, outcome)
  {
  }

  /** Resolving some rows and then others is resolving them together. */
  lemma ResolveTwice(s: State, a: set<Id>, b: set<Id>)
    ensures Resolve(Resolve(s, a), b) == Resolve(s, a + b)
  {
    var s1 := Resolve(s, a);
    MarkTwice(s.attempts, TokensOf(s.rows, a), TokensOf(s1.rows, b), Cancelled);
    TokensJoin(s.rows, a, b);
    hide Mark, TokensOf;
    assert ResolveRows(ResolveRows(s.rows, a), b) == ResolveRows(s.rows, a + b);
  }

  lemma TokensJoin(rows: map<Id, Row>, a: set<Id>, b: set<Id>)
    ensures TokensOf(rows, a) + TokensOf(ResolveRows(rows, a), b) == TokensOf(rows, a + b)
  {
    var both, split := TokensOf(rows, a + b), TokensOf(rows, a) + TokensOf(ResolveRows(rows, a), b);
    forall t | t in both ensures t in split {
      var id :| id in a + b && id in rows && rows[id].lease.Some? && rows[id].lease.value.token == t;
      if id !in a { assert ResolveRows(rows, a)[id] == rows[id]; }
    }
    forall t | t in TokensOf(ResolveRows(rows, a), b) ensures t in both {
      var id :| id in b && id in rows && ResolveRows(rows, a)[id].lease.Some? && ResolveRows(rows, a)[id].lease.value.token == t;
      assert rows[id].lease == ResolveRows(rows, a)[id].lease;
    }
  }

  /** A row that is not resolved may be written before or after. */
  lemma ResolveOthers(s: State, ids: set<Id>, id: Id, row: Row)
    requires id !in ids && id in s.rows
    ensures Resolve(s.(rows := s.rows[id := row]), ids)
         == Resolve(s, ids).(rows := Resolve(s, ids).rows[id := row])
  {
    assert TokensOf(s.rows[id := row], ids) == TokensOf(s.rows, ids) by { SameTokensOf(s.rows[id := row], s.rows, ids); }
    hide Mark, TokensOf;
    assert ResolveRows(s.rows[id := row], ids) == ResolveRows(s.rows, ids)[id := row];
  }

  lemma SameTokensOf(a: map<Id, Row>, b: map<Id, Row>, ids: set<Id>)
    requires a.Keys == b.Keys && forall id :: id in ids && id in a ==> a[id].lease == b[id].lease
    ensures TokensOf(a, ids) == TokensOf(b, ids)
  {
  }

  lemma ExpireStep(s: State, now: Time, ids: set<Id>, id: Id)
    requires IsActive(s, id) && id !in ids
    ensures IsActive(ExpireSome(s, now, ids), id) && ExpireSome(s, now, ids).advice[id] == s.advice[id]
    ensures ExpireOne(ExpireSome(s, now, ids), now, id) == ExpireSome(s, now, ids + {id})
  {
    hide Mark, TokensOf, ResolveRows;
    if s.advice[id].deadline > now { BoundStep(s, now, ids, id); } else { WithdrawStep(s, now, ids, id); }
  }

  lemma BoundMore(s: State, now: Time, ids: set<Id>, id: Id)
    requires IsActive(s, id) && id !in ids
    ensures BoundSome(s, now, ids + {id}) ==
      if id in s.rows && s.advice[id].deadline > now
      then BoundSome(s, now, ids)[id := Bounded(s.rows[id], s.advice[id].deadline)] else BoundSome(s, now, ids)
    ensures id in s.rows ==> BoundSome(s, now, ids)[id] == s.rows[id]
  {
  }

  lemma BoundStep(s: State, now: Time, ids: set<Id>, id: Id)
    requires IsActive(s, id) && id !in ids && s.advice[id].deadline > now
    ensures ExpireOne(ExpireSome(s, now, ids), now, id) == ExpireSome(s, now, ids + {id})
  {
    hide Mark, TokensOf, BoundSome, BoundRows, ResolveRows, Bounded;
    var gone := Expired(s, now) * ids;
    assert Expired(s, now) * (ids + {id}) == gone && id !in gone;
    var part := s.(advice := WithStatus(s.advice, gone, Withdrawn), rows := BoundSome(s, now, ids));
    BoundMore(s, now, ids, id);
    assert part.advice[id] == s.advice[id];
    BoundKeys(s, now, ids);
    ResolveKeys(part, gone);
    if id in s.rows {
      ResolveKeepsOthers(part, gone, id);
      ResolveOthers(part, gone, id, Bounded(s.rows[id], s.advice[id].deadline));
    }
  }

  lemma BoundKeys(s: State, now: Time, ids: set<Id>)
    ensures BoundSome(s, now, ids).Keys == s.rows.Keys
  {
  }

  lemma ResolveKeepsOthers(s: State, ids: set<Id>, id: Id)
    requires id in s.rows && id !in ids
    ensures id in Resolve(s, ids).rows && Resolve(s, ids).rows[id] == s.rows[id]
  {
  }

  lemma ResolveKeys(s: State, ids: set<Id>)
    ensures Resolve(s, ids).rows.Keys == s.rows.Keys
  {
  }

  lemma WithdrawStep(s: State, now: Time, ids: set<Id>, id: Id)
    requires IsActive(s, id) && id !in ids && s.advice[id].deadline <= now
    ensures ExpireOne(ExpireSome(s, now, ids), now, id) == ExpireSome(s, now, ids + {id})
  {
    hide Mark, TokensOf, ResolveRows, BoundSome, BoundRows;
    var gone := Expired(s, now) * ids;
    assert Expired(s, now) * (ids + {id}) == gone + {id};
    BoundMore(s, now, ids, id);
    var advice := WithStatus(s.advice, gone, Withdrawn);
    assert advice[id := advice[id].(status := Withdrawn)] == WithStatus(s.advice, gone + {id}, Withdrawn);
    ResolveTwice(s.(advice := WithStatus(s.advice, gone + {id}, Withdrawn), rows := BoundSome(s, now, ids)), gone, {id});
  }

  lemma ExpireAll(s: State, now: Time)
    ensures ExpireSome(s, now, set id | id in s.advice && IsActive(s, id)) == ExpireDeadlines(s, now)
  {
    hide Mark, TokensOf, ResolveRows;
    var ids := set id | id in s.advice && IsActive(s, id);
    assert Expired(s, now) * ids == Expired(s, now);
    assert BoundSome(s, now, ids) == BoundRows(s, now);
  }

  lemma NoTokensLeft(rows: map<Id, Row>, ids: set<Id>, some: set<Id>)
    requires some <= ids
    ensures TokensOf(ReleaseRows(rows, ids), some) == {}
  {
  }

  lemma LapseStep(s: State, ids: set<Id>, id: Id)
    requires id in s.rows && id !in ids
    ensures id in LapseSome(s, ids).rows && LapseSome(s, ids).rows[id] == s.rows[id]
    ensures LapseOne(LapseSome(s, ids), id) == LapseSome(s, ids + {id})
  {
    LapseAttempts(s, ids, id);
    hide Mark, TokensOf;
    var one, all := LapseOne(LapseSome(s, ids), id), LapseSome(s, ids + {id});
    assert one.rows == all.rows;
  }

  lemma LapseAttempts(s: State, ids: set<Id>, id: Id)
    requires id in s.rows && id !in ids
    ensures LapseOne(LapseSome(s, ids), id).attempts == LapseSome(s, ids + {id}).attempts
  {
    NoTokensLeft(s.rows, ids, SpentLater(s.rows, ids));
    NoTokensLeft(s.rows, ids + {id}, SpentLater(s.rows, ids + {id}));
    MarkTwice(s.attempts, TokensOf(s.rows, ids), TokensOf(s.rows, {id}), Superseded);
    assert TokensOf(s.rows, ids + {id}) == TokensOf(s.rows, ids) + TokensOf(s.rows, {id});
    var some := LapseSome(s, ids);
    SameTokensOf(some.rows, s.rows, {id});
    MarkNone(Mark(s.attempts, TokensOf(s.rows, ids), Superseded));
    MarkNone(Mark(s.attempts, TokensOf(s.rows, ids + {id}), Superseded));
    assert TokensOf(some.rows[id := Released(some.rows[id])], {id}) == {};
  }

  lemma MarkNone(attempts: map<Token, Attempt>)
    ensures Mark(attempts, {}, Cancelled) == attempts
  {
  }

  lemma SameDisplays(attempts: map<Token, Attempt>, tokens: set<Token>, id: Id)
    ensures DeliveredTo(Mark(attempts, tokens, Cancelled), id) == DeliveredTo(attempts, id)
  {
  }

  lemma ClosingMore(s: State, order: seq<Id>, id: Id)
    requires id !in order && id in s.advice
    ensures var some := Closing(s, order);
            && id in some.advice
            && Closing(s, order + [id]) == some.(advice := some.advice[id := some.advice[id].(status := Dismissed)],
                                                 feedback := some.feedback + [FromSystem(id)],
                                                 signals := map[(id, System) := AUTO_WEIGHT] + some.signals)
  {
    hide AutoSignals;
    assert AutoEntries(order + [id]) == AutoEntries(order) + [FromSystem(id)];
    assert SetOf(order + [id]) == SetOf(order) + {id};
    MoreSignals(SetOf(order), id);
    assert map[(id, System) := AUTO_WEIGHT] + (AutoSignals(SetOf(order)) + s.signals) == AutoSignals(SetOf(order) + {id}) + s.signals;
    assert WithStatus(s.advice, SetOf(order + [id]), Dismissed)
        == WithStatus(s.advice, SetOf(order), Dismissed)[id := s.advice[id].(status := Dismissed)];
  }

  lemma CloseStep(s: State, seen: seq<Id>, id: Id)
    requires id !in seen && id in s.advice
    ensures id in CloseSome(s, seen).advice && CloseOne(CloseSome(s, seen), id) == CloseSome(s, seen + [id])
  {
    hide Mark, TokensOf, ResolveRows, DeliveredTo, AutoSignals, WithStatus, AutoEntries, SetOf;
    var order := ShownOf(s.attempts, seen);
    SameDisplays(s.attempts, TokensOf(s.rows, SetOf(seen)), id);
    ShownAmong(s.attempts, seen);
    ClosingMore(s, order, id);
    assert (seen + [id])[..|seen|] == seen;
    MoreInSet(seen, id);
    assert CloseSome(s, seen).attempts == Mark(s.attempts, TokensOf(s.rows, SetOf(seen)), Cancelled);
    if |DeliveredTo(s.attempts, id)| == 2 {
      assert ShownOf(s.attempts, seen + [id]) == order + [id];
      ResolveTwice(Closing(s, order + [id]), SetOf(seen), {id});
    } else {
      assert ShownOf(s.attempts, seen + [id]) == order;
      ResolveTwice(Closing(s, order), SetOf(seen), {id});
    }
  }

  lemma MoreInSet(seen: seq<Id>, id: Id)
    ensures SetOf(seen + [id]) == SetOf(seen) + {id}
  {
  }

  lemma MoreSignals(ids: set<Id>, id: Id)
    ensures AutoSignals(ids + {id}) == map[(id, System) := AUTO_WEIGHT] + AutoSignals(ids)
  {
  }

  lemma ShownAmong(attempts: map<Token, Attempt>, seen: seq<Id>)
    ensures forall id :: id in ShownOf(attempts, seen) <==> id in seen && |DeliveredTo(attempts, id)| == 2
  {
  }

  lemma NothingExpired(s: State, now: Time)
    ensures ExpireSome(s, now, {}) == s
  {
    ResolveNone(s);
    assert WithStatus(s.advice, {}, Withdrawn) == s.advice && BoundSome(s, now, {}) == s.rows;
    assert Expired(s, now) * {} == {};
  }

  lemma NothingLapsed(s: State)
    ensures LapseSome(s, {}) == s
  {
    ResolveNone(s);
    assert Mark(s.attempts, {}, Superseded) == s.attempts && ReleaseRows(s.rows, {}) == s.rows && SpentLater(s.rows, {}) == {};
    assert TokensOf(s.rows, {}) == {};
  }

  lemma NothingClosed(s: State)
    ensures CloseSome(s, []) == s
  {
    ResolveNone(s);
    assert SetOf([]) == {} && AutoSignals({}) + s.signals == s.signals;
    assert WithStatus(s.advice, {}, Dismissed) == s.advice && s.feedback + AutoEntries([]) == s.feedback;
  }

  /** Once every due row has been met, the closing is complete. */
  lemma AllClosed(s: State, now: Time, seen: seq<Id>)
    requires SetOf(seen) == Due(s, now) && forall i, j :: 0 <= i < j < |seen| ==> seen[i] != seen[j]
    ensures var order := ShownOf(s.attempts, seen);
            IsOrder(order, Shown(s, now)) && CloseSome(s, seen) == CloseDue(s, now, order)
  {
    hide Mark, TokensOf, ResolveRows, DeliveredTo, AutoSignals, WithStatus, AutoEntries, IsDue;
    var order := ShownOf(s.attempts, seen);
    ShownAmong(s.attempts, seen);
    ShownOnce(s.attempts, seen);
    assert SetOf(order) == Shown(s, now) by {
      assert forall id :: id in Shown(s, now) <==> id in Due(s, now) && |DeliveredTo(s.attempts, id)| == 2;
    }
  }

  lemma ShownOnce(attempts: map<Token, Attempt>, seen: seq<Id>)
    requires forall i, j :: 0 <= i < j < |seen| ==> seen[i] != seen[j]
    ensures var order := ShownOf(attempts, seen); forall i, j :: 0 <= i < j < |order| ==> order[i] != order[j]
  {
    hide DeliveredTo;
    if seen != [] {
      var n := |seen| - 1;
      ShownOnce(attempts, seen[..n]);
      ShownAmong(attempts, seen[..n]);
      var before := ShownOf(attempts, seen[..n]);
      assert seen[n] !in seen[..n];
      assert forall i :: 0 <= i < |before| ==> before[i] in before;
    }
  }

  class Board {
    var clock: Time
    var advice: map<Id, Advice>
    var rows: map<Id, Row>
    var attempts: map<Token, Attempt>
    var feedback: seq<Entry>
    var signals: map<(Id, Origin), real>
    var since: map<Id, nat>

    ghost function View(): State
      reads this
    {
      State(clock, advice, rows, attempts, feedback, signals, since)
    }

    constructor (now: Time)
      ensures View() == State(now, map[], map[], map[], [], map[], map[])
    {
      clock, advice, rows, attempts, feedback, signals, since := now, map[], map[], map[], [], map[], map[];
    }

    /** `_resolve_attention_locked` */
    method Resolve(id: Id)
      modifies `rows, `attempts
      ensures View() == Attention.Resolve(old(View()), {id})
    {
      if id in rows {
        if rows[id].lease.Some? {
          var token := rows[id].lease.value.token;
          if token in attempts && attempts[token].outcome.Open? {
            attempts := attempts[token := attempts[token].(outcome := Cancelled)];
          }
        }
        rows := rows[id := ResolvedRow(rows[id])];
      }
      assert rows == ResolveRows(old(rows), {id});
      assert attempts == Mark(old(attempts), TokensOf(old(rows), {id}), Cancelled);
    }

    /** `_expire_prediction_deadlines_locked`, advice by advice. */
    method ExpireDeadlines(now: Time)
      modifies `advice, `rows, `attempts
      ensures View() == Attention.ExpireDeadlines(old(View()), now)
    {
      hide Attention.ExpireDeadlines, ExpireSome, Attention.Resolve;
      ghost var s, done: set<Id> := View(), {};
      var left := set id | id in advice && advice[id].status.Active?;
      ghost var all := left;
      NothingExpired(s, now);
      while left != {}
        invariant left !! done && left + done == all && View() == ExpireSome(s, now, done)
      {
        var id :| id in left;
        ExpireStep(s, now, done, id);
        if advice[id].deadline > now {
          if id in rows { rows := rows[id := Bounded(rows[id], advice[id].deadline)]; }
        } else {
          advice := advice[id := advice[id].(status := Withdrawn)];
          Resolve(id);
        }
        left, done := left - {id}, done + {id};
      }
      ExpireAll(s, now);
      assert done == set id | id in s.advice && IsActive(s, id);
    }

    /** The leases that have run out, row by row. */
    method LapseLeases(now: Time)
      modifies `rows, `attempts
      ensures View() == Attention.LapseLeases(old(View()), now)
    {
      hide LapseSome, Attention.Resolve, Mark;
      ghost var s, done: set<Id> := View(), {};
      var left := Lapsed(rows, now);
      NothingLapsed(s);
      while left != {}
        invariant left !! done && left + done == Lapsed(s.rows, now) && View() == LapseSome(s, done)
      {
        var id :| id in left;
        LapseStep(s, done, id);
        Lapse(id);
        left, done := left - {id}, done + {id};
      }
      LapsedAll(s, now);
    }

    method Lapse(id: Id)
      requires id in rows && rows[id].lease.Some?
      modifies `rows, `attempts
      ensures View() == LapseOne(old(View()), id)
    {
      var token, row := rows[id].lease.value.token, rows[id];
      if token in attempts && attempts[token].outcome.Open? {
        attempts := attempts[token := attempts[token].(outcome := Superseded)];
      }
      rows := rows[id := Released(row)];
      assert attempts == Mark(old(attempts), TokensOf(old(rows), {id}), Superseded);
      hide Mark, TokensOf, Attention.Resolve;
      if IsSpentLater(row) { Resolve(id); }
    }

    /** The reminders whose time is over, row by row. */
    method CloseDue(now: Time) returns (ghost order: seq<Id>)
      modifies `advice, `rows, `attempts, `feedback, `signals
      ensures IsOrder(order, Shown(old(View()), now)) && View() == Attention.CloseDue(old(View()), now, order)
    {
      hide CloseSome, Attention.CloseDue, Attention.Resolve, DeliveredTo, IsOrder, Shown;
      ghost var s, seen: seq<Id> := View(), [];
      var left := set id | id in rows && id in advice && advice[id].status.Active? && rows[id].phase.Waiting?
                           && rows[id].count == 2 && rows[id].autoClose.Some? && rows[id].autoClose.value <= now;
      assert left == Due(s, now);
      NothingClosed(s);
      while left != {}
        invariant (forall id :: id in left ==> id !in seen) && left + SetOf(seen) == Due(s, now)
        invariant forall i, j :: 0 <= i < j < |seen| ==> seen[i] != seen[j]
        invariant View() == CloseSome(s, seen)
      {
        var id :| id in left;
        assert id in Due(s, now);
        CloseStep(s, seen, id);
        Close(id);
        MoreInSet(seen, id);
        left, seen := left - {id}, seen + [id];
      }
      AllClosed(s, now, seen);
      order := ShownOf(s.attempts, seen);
    }

    method Close(id: Id)
      requires id in advice
      modifies `advice, `rows, `attempts, `feedback, `signals
      ensures View() == CloseOne(old(View()), id)
    {
      hide Attention.Resolve;
      if |DeliveredTo(attempts, id)| == 2 {
        advice := advice[id := advice[id].(status := Dismissed)];
        feedback := feedback + [FromSystem(id)];
        signals := map[(id, System) := AUTO_WEIGHT] + signals;
      }
      Resolve(id);
    }

    /** `_ensure_attention_rows_locked` and `_sweep_attention_locked` */
    method Sweep(now: Time) returns (ghost order: seq<Id>)
      modifies this
      ensures IsOrder(order, Shown(BeforeClosing(old(View()), now), now))
      ensures View() == Attention.Sweep(old(View()), now, order)
    {
      hide Attention.CloseDue, Attention.LapseLeases, Attention.ExpireDeadlines, IsOrder, Shown;
      clock := now;
      var missing := set id | id in advice && advice[id].status.Active? && id !in rows;
      rows := rows + map id | id in missing :: NewRow(false);
      since := since + map id | id in missing :: |feedback|;
      assert View() == EnsureRows(old(View()).(clock := now));
      hide EnsureRows;
      ExpireDeadlines(now);
      LapseLeases(now);
      order := CloseDue(now);
    }

    /** The row a claim will take: among the candidates the one that comes first. */
    method Choose(now: Time, muted: set<Id>) returns (pick: Option<Id>)
      ensures IsPick(View(), now, muted, pick)
    {
      pick := None;
      var left := set id | id in rows && id in advice && advice[id].status.Active? && advice[id].immediate && id !in muted
                           && (rows[id].phase.Pending? || rows[id].phase.Waiting?) && rows[id].count < 2
                           && (rows[id].next.None? || rows[id].next.value <= now);
      while left != {}
        invariant forall id :: id in left ==> IsCandidate(View(), id, now, muted)
        invariant pick.Some? ==> IsCandidate(View(), pick.value, now, muted)
        invariant forall id :: IsCandidate(View(), id, now, muted) && id !in left ==>
          pick.Some? && NotAfter(advice[pick.value], advice[id])
      {
        var id :| id in left;
        if pick.None? || !NotAfter(advice[pick.value], advice[id]) { pick := Some(id); }
        left := left - {id};
      }
    }

    /** `claim_advice_attention`: the advice to show, if any, with the number of the permit. */
    method Claim(device: Device, token: Token, now: Time, paused: bool, muted: set<Id>)
      returns (shown: Option<(Id, nat)>, ghost order: seq<Id>, ghost pick: Option<Id>)
      requires token !in attempts
      modifies this
      ensures IsOrder(order, Shown(BeforeClosing(old(View()), now), now))
      ensures IsPick(Attention.Sweep(old(View()), now, order), now, muted, pick)
      ensures View() == Attention.Claim(old(View()), device, token, now, order, paused, pick)
      ensures shown.Some? ==> pick == Some(shown.value.0) && shown.value.0 in rows && rows[shown.value.0].count == shown.value.1
    {
      hide Attention.Sweep, BeforeClosing, Shown, IsOrder, Attention.ExpireDeadlines, IsPick;
      order := Sweep(now);
      var chosen := Choose(now, muted);
      pick, shown := chosen, None;
      if paused || chosen.None? || chosen.value !in rows || chosen.value !in advice { return; }
      var id := chosen.value;
      if advice[id].deadline <= now {
        ExpireDeadlines(now);
        return;
      }
      attempts := attempts[token := Attempt(id, device, rows[id].count + 1, now + CLAIM_LEASE, Open)];
      rows := rows[id := GrantedRow(rows[id], advice[id].deadline, device, token, now)];
      shown := Some((id, rows[id].count));
    }

    /** `complete_advice_attention` */
    method Complete(id: Id, device: Device, token: Token, now: Time) returns (answer: Answer)
      modifies `clock, `rows, `attempts
      ensures (View(), answer) == Attention.Complete(old(View()), id, device, token, now)
    {
      clock := now;
      if token !in attempts || attempts[token].id != id || attempts[token].device != device { return Conflict; }
      if attempts[token].outcome.Delivered? {
        return Displayed(attempts[token].number, if id in rows then rows[id].next else None);
      }
      if !attempts[token].outcome.Open? { return Conflict; }
      var held := HasLease(id, device, token);
      if !held || attempts[token].number != rows[id].count { return Conflict; }
      if attempts[token].expires <= now {
        GiveUp(id, token, Superseded);
        return Conflict;
      }
      attempts := attempts[token := attempts[token].(outcome := Delivered)];
      if rows[id].count == 2 && rows[id].later {
        rows := rows[id := rows[id].(phase := Resolved, next := None, autoClose := None, lease := None)];
      } else {
        rows := rows[id := rows[id].(phase := Waiting, lease := None)];
      }
      return Displayed(rows[id].count, rows[id].next);
    }

    method HasLease(id: Id, device: Device, token: Token) returns (held: bool)
      ensures held <==> id in rows && rows[id].phase.Claimed? && rows[id].lease.Some?
                        && rows[id].lease.value.token == token && rows[id].lease.value.device == device
    {
      held := id in rows && rows[id].phase.Claimed? && rows[id].lease.Some?
              && rows[id].lease.value.token == token && rows[id].lease.value.device == device;
    }

    method GiveUp(id: Id, token: Token, outcome: Outcome)
      requires id in rows && token in attempts
      modifies `rows, `attempts
      ensures View() == Attention.GiveUp(old(View()), id, token, outcome)
    {
      attempts := attempts[token := attempts[token].(outcome := outcome)];
      var spent := IsSpentLater(rows[id]);
      rows := rows[id := Released(rows[id])];
      if spent { rows := rows[id := ResolvedRow(rows[id])]; }
    }

    /** `fail_advice_attention` */
    method Fail(id: Id, device: Device, token: Token, now: Time) returns (answer: Answer)
      modifies `clock, `rows, `attempts
      ensures (View(), answer) == Attention.Fail(old(View()), id, device, token, now)
    {
      clock := now;
      if token !in attempts || attempts[token].id != id || attempts[token].device != device { return Conflict; }
      if attempts[token].outcome.Failed? { return GivenUp(if id in rows then rows[id].count else 0); }
      var held := HasLease(id, device, token);
      if !attempts[token].outcome.Open? || !held { return Conflict; }
      answer := GivenUp(rows[id].count);
      GiveUp(id, token, Failed);
    }

    /** `_defer_attention_locked` */
    method Defer(id: Id, until: Option<Time>)
      modifies `rows, `attempts
      ensures View() == Attention.Defer(old(View()), id, until)
    {
      hide Attention.Resolve;
      if id !in rows || rows[id].phase.Resolved? { return; }
      if rows[id].count >= 2 || until.None? {
        Resolve(id);
        return;
      }
      var phase := if rows[id].phase.Claimed? then Claimed else Waiting;
      rows := rows[id := rows[id].(phase := phase, next := until, autoClose := None, later := true)];
    }

    /** The searches of `record_feedback` through what was said before. */
    method Search(id: Id, kind: Kind, key: Option<string>) returns (used: bool, repeated: bool, given: bool, guidances: nat)
      ensures used == IsKeyUsed(feedback, key) && repeated == IsRepeat(feedback, id, kind, key)
      ensures given == IsGiven(feedback, id, kind) && guidances == Guidances(feedback, id)
    {
      used, repeated, given, guidances := false, false, false, 0;
      for i := 0 to |feedback|
        invariant used == IsKeyUsed(feedback[..i], key) && repeated == IsRepeat(feedback[..i], id, kind, key)
        invariant given == IsGiven(feedback[..i], id, kind) && guidances == Guidances(feedback[..i], id)
      {
        ghost var before := feedback[..i];
        assert feedback[..i + 1] == before + [feedback[i]];
        SearchStep(before, feedback[i], id, kind, key);
        match feedback[i] {
          case FromUser(other, said, mark) =>
            used := used || (key.Some? && mark == key);
            repeated := repeated || (other == id && said == kind && mark == key);
            given := given || (other == id && said == kind);
            if other == id && said.Guidance? { guidances := guidances + 1; }
          case FromSystem(_) =>
        }
      }
      assert feedback[..|feedback|] == feedback;
    }

    /** The checks of `record_feedback`. */
    method Judge(id: Id, kind: Kind, key: Option<string>, quota: Option<nat>, guidanceQuota: Option<nat>) returns (verdict: Reply)
      ensures verdict == Verdict(View(), id, kind, key, quota, guidanceQuota)
    {
      hide IsKeyUsed, IsGiven, IsRepeat, Guidances;
      if id !in advice { return Refused; }
      var used, repeated, given, guidances := Search(id, kind, key);
      if used { return if repeated then Known else Refused; }
      if given { return Known; }
      if !kind.Guidance? && !advice[id].status.Active? { return Refused; }
      if quota.Some? && |feedback| >= quota.value { return Refused; }
      if kind.Guidance? && guidanceQuota.Some? && guidances >= guidanceQuota.value { return Refused; }
      return Recorded;
    }

    /** The writes of `record_feedback`. */
    method Answer(id: Id, kind: Kind, key: Option<string>)
      requires id in advice
      modifies `advice, `rows, `attempts, `feedback, `signals
      ensures View() == Answered(old(View()), id, kind, key)
    {
      hide Attention.Resolve, Attention.Defer;
      feedback := feedback + [FromUser(id, kind, key)];
      if kind.Irrelevant? { signals := map[(id, User) := 1.0] + signals; }
      var deadline := advice[id].deadline;
      advice := advice[id := advice[id].(status := StatusAfter(kind, advice[id].status))];
      if kind.Later? { Defer(id, SnoozedUntil(deadline, clock)); } else { Resolve(id); }
    }

    /** `record_feedback` */
    method Feedback(id: Id, kind: Kind, key: Option<string>, now: Time, quota: Option<nat>, guidanceQuota: Option<nat>)
      returns (reply: Reply)
      modifies `clock, `advice, `rows, `attempts, `feedback, `signals
      ensures (View(), reply) == Attention.Feedback(old(View()), id, kind, key, now, quota, guidanceQuota)
      ensures reply.Recorded? ==>
        && id in old(advice) && id in advice
        && (kind.Adopt? ==> advice[id].status.Adopted?) && (IsRejection(kind) ==> advice[id].status.Dismissed?)
        && (!kind.Adopt? && !IsRejection(kind) ==> advice[id].status == old(advice)[id].status)
    {
      hide Answered, IsKeyUsed, IsGiven, IsRepeat, Guidances, IsRejection;
      ghost var before := View();
      if Attention.Feedback(before, id, kind, key, now, quota, guidanceQuota).1.Recorded? {
        RecordedAs(before, id, kind, key, now, quota, guidanceQuota);
      }
      clock := now;
      reply := Judge(id, kind, key, quota, guidanceQuota);
      if reply.Recorded? { Answer(id, kind, key); }
    }
  }

  lemma SearchStep(before: seq<Entry>, last: Entry, id: Id, kind: Kind, key: Option<string>)
    ensures IsKeyUsed(before + [last], key) <==> IsKeyUsed(before, key) || (key.Some? && last.FromUser? && last.key == key)
    ensures IsRepeat(before + [last], id, kind, key) <==> IsRepeat(before, id, kind, key) || last == FromUser(id, kind, key)
    ensures IsGiven(before + [last], id, kind) <==> IsGiven(before, id, kind) || (last.FromUser? && last.id == id && last.kind == kind)
    ensures Guidances(before + [last], id) == Guidances(before, id) + if last.FromUser? && last.id == id && last.kind.Guidance? then 1 else 0
  {
    var all := before + [last];
    assert all[..|before|] == before;
    assert forall i :: 0 <= i < |before| ==> all[i] == before[i];
    assert all[|before|] == last;
  }

  lemma LapsedAll(s: State, now: Time)
    ensures LapseSome(s, Lapsed(s.rows, now)) == Attention.LapseLeases(s, now)
  {
  }
}
