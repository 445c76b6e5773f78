/** What every transaction on the attention tables keeps. */
module AttentionSafety {
  import opened Basics
  import opened Attention

  // ------------------------------------------------------------- the invariant

  ghost predicate RowOk(row: Row) {
    && row.count <= 2
    && (row.phase.Claimed? <==> row.lease.Some?)
    && (row.autoClose.Some? ==> row.count == 2 && !row.later)
    && (row.phase.Resolved? ==> row.next.None? && row.autoClose.None?)
  }

  ghost predicate RowsOk(rows: map<Id, Row>) {
    forall id :: id in rows ==> RowOk(rows[id])
  }

  predicate IsPermit(attempts: map<Token, Attempt>, t: Token, id: Id, number: nat) {
    t in attempts && attempts[t].id == id && attempts[t].number == number
  }

  ghost predicate HasNumber(attempts: map<Token, Attempt>, id: Id, number: nat) {
    exists t :: IsPermit(attempts, t, id, number)
  }

  ghost predicate IsShown(attempts: map<Token, Attempt>, id: Id, number: nat) {
    exists t :: IsPermit(attempts, t, id, number) && attempts[t].outcome.Delivered?
  }

  /** An open attempt is the one holding its row's lease, with the latest permit. */
  ghost predicate OpenOk(rows: map<Id, Row>, attempts: map<Token, Attempt>) {
    && (forall t :: t in attempts ==> attempts[t].id in rows && 1 <= attempts[t].number <= rows[attempts[t].id].count)
    && (forall t :: t in attempts && attempts[t].outcome.Open? ==>
          && rows[attempts[t].id].lease == Some(Lease(t, attempts[t].device, attempts[t].expires))
          && attempts[t].number == rows[attempts[t].id].count)
    && (forall id :: id in rows && rows[id].lease.Some? ==>
          rows[id].lease.value.token in attempts && attempts[rows[id].lease.value.token].id == id
          && attempts[rows[id].lease.value.token].outcome.Open?)
  }

  predicate IsSamePermit(a: Attempt, b: Attempt) {
    a.id == b.id && a.number == b.number
  }

  /** The permits used are numbered 1 to `count`, each once. */
  ghost predicate NumbersOk(rows: map<Id, Row>, attempts: map<Token, Attempt>) {
    && (forall t, u :: t in attempts && u in attempts && IsSamePermit(attempts[t], attempts[u]) ==> t == u)
    && forall id, n :: id in rows && 1 <= n <= rows[id].count ==> HasNumber(attempts, id, n)
  }

  ghost predicate CoverOk(advice: map<Id, Advice>, rows: map<Id, Row>, feedback: seq<Entry>, since: map<Id, nat>) {
    && rows.Keys <= advice.Keys && since.Keys == rows.Keys
    && (forall id :: id in advice && advice[id].status.Provisional? ==> id !in rows)
    && (forall id :: id in advice && advice[id].status.Active? ==> id in rows)
    && forall id :: id in since ==> since[id] <= |feedback|
  }

  /** Feedback given on advice that was not yet published can only be guidance. */
  ghost predicate EarlyOk(feedback: seq<Entry>, since: map<Id, nat>) {
    forall i :: 0 <= i < |feedback| && (feedback[i].id !in since || i < since[feedback[i].id]) ==>
      feedback[i].FromUser? && feedback[i].kind.Guidance?
  }

  predicate IsSince(id: Id, i: nat, since: map<Id, nat>) {
    id in since && since[id] <= i
  }

  predicate IsUnresolved(rows: map<Id, Row>, id: Id) {
    id in rows && !rows[id].phase.Resolved?
  }

  /** While a reminder is open, the only answer its advice has had is "later", and it is noted. */
  ghost predicate LaterOk(rows: map<Id, Row>, feedback: seq<Entry>, since: map<Id, nat>) {
    forall i :: 0 <= i < |feedback| && IsSince(feedback[i].id, i, since) && IsUnresolved(rows, feedback[i].id) ==>
      feedback[i].FromUser? && feedback[i].kind.Later? && rows[feedback[i].id].later
  }

  ghost predicate NoAnswerBetween(feedback: seq<Entry>, id: Id, from: nat, to: nat) {
    forall j :: from <= j < to && j < |feedback| ==> feedback[j].id != id
  }

  /** Entry `i` stands for two displays and no answer since the advice was published. */
  ghost predicate IsEarned(rows: map<Id, Row>, attempts: map<Token, Attempt>, feedback: seq<Entry>, since: map<Id, nat>, i: nat)
    requires i < |feedback|
  {
    var id := feedback[i].id;
    && id in rows && rows[id].phase.Resolved? && IsSince(id, i, since) && NoAnswerBetween(feedback, id, since[id], i)
    && IsShown(attempts, id, 1) && IsShown(attempts, id, 2)
  }

  /** What the system has answered in the user's place. */
  ghost predicate AutoOk(rows: map<Id, Row>, attempts: map<Token, Attempt>, feedback: seq<Entry>, since: map<Id, nat>) {
    forall i :: 0 <= i < |feedback| && feedback[i].FromSystem? ==> IsEarned(rows, attempts, feedback, since, i)
  }

  ghost predicate SignalsOk(feedback: seq<Entry>, signals: map<(Id, Origin), real>) {
    forall id :: ((id, System) in signals <==> FromSystem(id) in feedback)
              && ((id, System) in signals ==> signals[(id, System)] == AUTO_WEIGHT)
  }

  ghost predicate Inv(s: State) {
    && RowsOk(s.rows) && OpenOk(s.rows, s.attempts) && NumbersOk(s.rows, s.attempts)
    && CoverOk(s.advice, s.rows, s.feedback, s.since) && EarlyOk(s.feedback, s.since)
    && LaterOk(s.rows, s.feedback, s.since) && AutoOk(s.rows, s.attempts, s.feedback, s.since)
    && SignalsOk(s.feedback, s.signals)
  }

  // ------------------------------------------------------ moves without a grant

  /** No permit is used; what is resolved stays; a lease may only end. */
  ghost predicate RowMoves(a: Row, b: Row) {
    && b.count == a.count && (a.phase.Resolved? ==> b == a) && (a.later ==> b.later)
    && (b.lease.Some? ==> b.lease == a.lease) && RowOk(b)
  }

  /** Attempts end with the leases they hold, and an outcome is final. */
  ghost predicate AttemptMoves(a: Attempt, b: Attempt, kept: bool) {
    && b == a.(outcome := b.outcome) && (!a.outcome.Open? ==> b == a) && (b.outcome.Open? <==> a.outcome.Open? && kept)
  }

  ghost predicate Moves(rows: map<Id, Row>, attempts: map<Token, Attempt>, rows': map<Id, Row>, attempts': map<Token, Attempt>)
  {
    && rows'.Keys == rows.Keys && attempts'.Keys == attempts.Keys
    && (forall id :: id in rows ==> RowMoves(rows[id], rows'[id]))
    && forall t :: t in attempts ==>
         attempts[t].id in rows && AttemptMoves(attempts[t], attempts'[t], rows'[attempts[t].id].lease == rows[attempts[t].id].lease)
  }

  lemma MovesTwice(r0: map<Id, Row>, a0: map<Token, Attempt>, r1: map<Id, Row>, a1: map<Token, Attempt>,
                   r2: map<Id, Row>, a2: map<Token, Attempt>)
    requires OpenOk(r0, a0) && Moves(r0, a0, r1, a1) && Moves(r1, a1, r2, a2)
    ensures Moves(r0, a0, r2, a2)
  {
  }

  lemma MovesKeepRows(rows: map<Id, Row>, attempts: map<Token, Attempt>, rows': map<Id, Row>, attempts': map<Token, Attempt>)
    requires Moves(rows, attempts, rows', attempts')
    ensures RowsOk(rows')
  {
    hide RowOk;
  }

  lemma MovesKeepOpen(rows: map<Id, Row>, attempts: map<Token, Attempt>, rows': map<Id, Row>, attempts': map<Token, Attempt>)
    requires OpenOk(rows, attempts) && Moves(rows, attempts, rows', attempts')
    ensures OpenOk(rows', attempts')
  {
    hide RowOk;
  }

  lemma MovesKeepNumbers(rows: map<Id, Row>, attempts: map<Token, Attempt>, rows': map<Id, Row>, attempts': map<Token, Attempt>)
    requires NumbersOk(rows, attempts) && Moves(rows, attempts, rows', attempts')
    ensures NumbersOk(rows', attempts')
  {
    hide RowOk;
    forall id, n | id in rows' && 1 <= n <= rows'[id].count ensures HasNumber(attempts', id, n) {
      assert RowMoves(rows[id], rows'[id]) && HasNumber(attempts, id, n);
      var t :| IsPermit(attempts, t, id, n);
      assert IsPermit(attempts', t, id, n);
    }
  }

  lemma ShownStaysShown(rows: map<Id, Row>, attempts: map<Token, Attempt>, rows': map<Id, Row>, attempts': map<Token, Attempt>,
                        id: Id, n: nat)
    requires Moves(rows, attempts, rows', attempts') && IsShown(attempts, id, n)
    ensures IsShown(attempts', id, n)
  {
    var t :| IsPermit(attempts, t, id, n) && attempts[t].outcome.Delivered?;
    assert IsPermit(attempts', t, id, n);
  }

  /** Later entries and moves do not take away what was earned. */
  lemma EarnedStays(s: State, rows: map<Id, Row>, attempts: map<Token, Attempt>, feedback: seq<Entry>, i: nat)
    requires i < |s.feedback| <= |feedback| && feedback[..|s.feedback|] == s.feedback
    requires Moves(s.rows, s.attempts, rows, attempts) && IsEarned(s.rows, s.attempts, s.feedback, s.since, i)
    ensures IsEarned(rows, attempts, feedback, s.since, i)
  {
    var id := s.feedback[i].id;
    assert RowMoves(s.rows[id], rows[id]);
    assert forall j :: 0 <= j <= i ==> feedback[j] == feedback[..|s.feedback|][j];
    ShownStaysShown(s.rows, s.attempts, rows, attempts, id, 1);
    ShownStaysShown(s.rows, s.attempts, rows, attempts, id, 2);
  }

  lemma MovesKeepAuto(s: State, s': State)
    requires AutoOk(s.rows, s.attempts, s.feedback, s.since) && Moves(s.rows, s.attempts, s'.rows, s'.attempts)
    requires s'.feedback == s.feedback && s'.since == s.since
    ensures AutoOk(s'.rows, s'.attempts, s'.feedback, s'.since)
  {
    hide Moves, IsEarned;
    forall i | 0 <= i < |s.feedback| && s.feedback[i].FromSystem?
      ensures IsEarned(s'.rows, s'.attempts, s.feedback, s.since, i)
    {
      EarnedStays(s, s'.rows, s'.attempts, s.feedback, i);
    }
  }

  lemma MovesKeepLater(s: State, s': State)
    requires LaterOk(s.rows, s.feedback, s.since) && Moves(s.rows, s.attempts, s'.rows, s'.attempts)
    requires s'.feedback == s.feedback && s'.since == s.since
    ensures LaterOk(s'.rows, s'.feedback, s'.since)
  {
    assert forall id :: id in s.rows ==> RowMoves(s.rows[id], s'.rows[id]);
  }

  /** The advices are the same ones and none becomes active or provisional. */
  ghost predicate Fades(advice: map<Id, Advice>, advice': map<Id, Advice>) {
    && advice'.Keys == advice.Keys
    && forall id :: id in advice ==>
         && (advice'[id].status.Active? ==> advice[id].status.Active?)
         && (advice'[id].status.Provisional? ==> advice[id].status.Provisional?)
  }

  lemma MovesKeepCover(s: State, s': State)
    requires CoverOk(s.advice, s.rows, s.feedback, s.since) && Moves(s.rows, s.attempts, s'.rows, s'.attempts)
    requires Fades(s.advice, s'.advice) && s'.feedback == s.feedback && s'.since == s.since
    ensures CoverOk(s'.advice, s'.rows, s'.feedback, s'.since)
  {
    hide RowMoves, AttemptMoves;
  }

  lemma MovesKeepInv(s: State, s': State)
    requires Inv(s) && Moves(s.rows, s.attempts, s'.rows, s'.attempts) && Fades(s.advice, s'.advice)
    requires s'.feedback == s.feedback && s'.since == s.since && s'.signals == s.signals
    ensures Inv(s')
  {
    hide RowsOk, OpenOk, NumbersOk, CoverOk, EarlyOk, LaterOk, AutoOk, SignalsOk, Moves, Fades;
    MovesKeepAuto(s, s');
    MovesKeepLater(s, s');
    MovesKeepCover(s, s');
    MovesKeepRows(s.rows, s.attempts, s'.rows, s'.attempts);
    MovesKeepOpen(s.rows, s.attempts, s'.rows, s'.attempts);
    MovesKeepNumbers(s.rows, s.attempts, s'.rows, s'.attempts);
  }

  /** The parts of the invariant that steps on the two tables rest on. */
  lemma InvTables(s: State)
    requires Inv(s)
    ensures RowsOk(s.rows) && OpenOk(s.rows, s.attempts) && NumbersOk(s.rows, s.attempts)
  {
    hide RowsOk, OpenOk, NumbersOk, CoverOk, EarlyOk, LaterOk, AutoOk, SignalsOk;
  }

  lemma InvAnswers(s: State)
    requires Inv(s)
    ensures CoverOk(s.advice, s.rows, s.feedback, s.since) && EarlyOk(s.feedback, s.since)
    ensures LaterOk(s.rows, s.feedback, s.since) && AutoOk(s.rows, s.attempts, s.feedback, s.since)
    ensures SignalsOk(s.feedback, s.signals)
  {
    hide RowsOk, OpenOk, NumbersOk, CoverOk, EarlyOk, LaterOk, AutoOk, SignalsOk;
  }

  // -------------------------------------------------------- the parts of a sweep

  lemma StillMoves(rows: map<Id, Row>, attempts: map<Token, Attempt>)
    requires RowsOk(rows) && OpenOk(rows, attempts)
    ensures Moves(rows, attempts, rows, attempts)
  {
  }

  lemma ResolveMoves(s: State, ids: set<Id>)
    requires RowsOk(s.rows) && OpenOk(s.rows, s.attempts)
    ensures var s' := Resolve(s, ids);
            Moves(s.rows, s.attempts, s'.rows, s'.attempts)
  {
    hide OpenOk, RowsOk, TokensOf, Mark, RowMoves, AttemptMoves;
    MarkIsExact(s.rows, s.attempts, ids);
    ResolvedRowsMove(s.rows, ids);
    CancelledMove(s.rows, s.attempts, ids);
  }

  lemma ResolvedRowsMove(rows: map<Id, Row>, ids: set<Id>)
    requires RowsOk(rows)
    ensures forall id :: id in rows ==> RowMoves(rows[id], ResolveRows(rows, ids)[id])
  {
    forall id | id in rows ensures RowMoves(rows[id], ResolveRows(rows, ids)[id]) {
      assert RowOk(rows[id]);
    }
  }

  lemma CancelledMove(rows: map<Id, Row>, attempts: map<Token, Attempt>, ids: set<Id>)
    requires OpenOk(rows, attempts) && RowsOk(rows)
    ensures var marked := Mark(attempts, TokensOf(rows, ids), Cancelled);
            && marked.Keys == attempts.Keys
            && forall t :: t in attempts ==>
                 && attempts[t].id in rows
                 && AttemptMoves(attempts[t], marked[t], ResolveRows(rows, ids)[attempts[t].id].lease == rows[attempts[t].id].lease)
  {
    hide TokensOf;
    MarkIsExact(rows, attempts, ids);
    forall t | t in attempts ensures attempts[t].outcome.Open? ==> !rows[attempts[t].id].phase.Resolved? {
      assert RowOk(rows[attempts[t].id]);
    }
  }

  /** Marking the leases of some rows ends exactly the open attempts of those rows. */
  lemma MarkIsExact(rows: map<Id, Row>, attempts: map<Token, Attempt>, ids: set<Id>)
    requires OpenOk(rows, attempts)
    ensures forall t :: t in attempts && attempts[t].outcome.Open? ==> (t in TokensOf(rows, ids) <==> attempts[t].id in ids)
  {
    forall t | t in attempts && attempts[t].outcome.Open? ensures t in TokensOf(rows, ids) <==> attempts[t].id in ids {
      assert rows[attempts[t].id].lease.Some?;
    }
  }

  lemma BoundMoves(s: State, now: Time)
    requires RowsOk(s.rows) && OpenOk(s.rows, s.attempts)
    ensures Moves(s.rows, s.attempts, BoundRows(s, now), s.attempts)
  {
  }

  lemma ReleaseMoves(rows: map<Id, Row>, attempts: map<Token, Attempt>, now: Time)
    requires RowsOk(rows) && OpenOk(rows, attempts)
    ensures var lapsed := Lapsed(rows, now);
            Moves(rows, attempts, ReleaseRows(rows, lapsed), Mark(attempts, TokensOf(rows, lapsed), Superseded))
  {
    MarkIsExact(rows, attempts, Lapsed(rows, now));
  }

  lemma ExpireKeepsInv(s: State, now: Time)
    requires Inv(s)
    ensures Inv(ExpireDeadlines(s, now))
    ensures var s' := ExpireDeadlines(s, now); Moves(s.rows, s.attempts, s'.rows, s'.attempts)
  {
    hide Inv, RowsOk, OpenOk, Moves, BoundRows, Resolve;
    InvTables(s);
    var gone := Expired(s, now);
    var s1 := s.(advice := WithStatus(s.advice, gone, Withdrawn), rows := BoundRows(s, now));
    BoundMoves(s, now);
    MovesKeepInv(s, s1);
    ResolveKeepsInv(s1, gone);
    MovesTwice(s.rows, s.attempts, s1.rows, s1.attempts, Resolve(s1, gone).rows, Resolve(s1, gone).attempts);
  }

  lemma ResolveKeepsInv(s: State, ids: set<Id>)
    requires Inv(s)
    ensures Inv(Resolve(s, ids))
    ensures var s' := Resolve(s, ids); Moves(s.rows, s.attempts, s'.rows, s'.attempts)
  {
    hide Inv, RowsOk, OpenOk, Moves, ResolveRows, Mark;
    InvTables(s);
    ResolveMoves(s, ids);
    MovesKeepInv(s, Resolve(s, ids));
  }

  lemma LapseKeepsInv(s: State, now: Time)
    requires Inv(s)
    ensures Inv(LapseLeases(s, now))
    ensures var s' := LapseLeases(s, now); Moves(s.rows, s.attempts, s'.rows, s'.attempts)
  {
    hide Inv, RowsOk, OpenOk, Moves, Mark, ReleaseRows, TokensOf, Lapsed, Resolve;
    InvTables(s);
    var lapsed := Lapsed(s.rows, now);
    var s1 := s.(attempts := Mark(s.attempts, TokensOf(s.rows, lapsed), Superseded), rows := ReleaseRows(s.rows, lapsed));
    ReleaseMoves(s.rows, s.attempts, now);
    MovesKeepInv(s, s1);
    var spent := SpentLater(s.rows, lapsed);
    ResolveKeepsInv(s1, spent);
    MovesTwice(s.rows, s.attempts, s1.rows, s1.attempts, Resolve(s1, spent).rows, Resolve(s1, spent).attempts);
  }

  lemma EnsureKeepsInv(s: State)
    requires Inv(s)
    ensures EnsureRows(s) == s
  {
    assert (set id | id in s.advice && s.advice[id].status.Active? && id !in s.rows) == {};
    assert s.rows + map[] == s.rows && s.since + map[] == s.since;
  }

  /** Two displays counted are the displays of both permits. */
  lemma TwoDisplays(rows: map<Id, Row>, attempts: map<Token, Attempt>, id: Id)
    requires OpenOk(rows, attempts) && RowsOk(rows) && NumbersOk(rows, attempts) && |DeliveredTo(attempts, id)| == 2
    ensures IsShown(attempts, id, 1) && IsShown(attempts, id, 2)
  {
    var shown := DeliveredTo(attempts, id);
    var t :| t in shown;
    assert |shown - {t}| == 1;
    var u :| u in shown - {t};
    assert attempts[t].number != attempts[u].number && RowOk(rows[id]);
    assert IsPermit(attempts, t, id, attempts[t].number) && IsPermit(attempts, u, id, attempts[u].number);
  }

  lemma ClosingMoves(s: State, now: Time, order: seq<Id>)
    requires Inv(s)
    ensures var s' := CloseDue(s, now, order); Moves(s.rows, s.attempts, s'.rows, s'.attempts)
  {
    hide Inv, Moves, Shown, Due, ResolveRows, Mark;
    InvTables(s);
    ResolveMoves(s, Due(s, now));
  }

  lemma ClosingKeepsAuto(s: State, now: Time, order: seq<Id>)
    requires Inv(s) && IsOrder(order, Shown(s, now))
    ensures var s' := CloseDue(s, now, order); AutoOk(s'.rows, s'.attempts, s'.feedback, s'.since)
  {
    hide Inv, Moves, IsEarned, Shown, AutoSignals, IsOrder, Due, Mark, TokensOf, ResolveRows, WithStatus;
    var s' := CloseDue(s, now, order);
    var n := |s.feedback|;
    InvAnswers(s);
    ClosingMoves(s, now, order);
    assert s'.feedback[..n] == s.feedback;
    forall i | 0 <= i < |s'.feedback| && s'.feedback[i].FromSystem?
      ensures IsEarned(s'.rows, s'.attempts, s'.feedback, s'.since, i)
    {
      if i < n { EarnedStays(s, s'.rows, s'.attempts, s'.feedback, i); } else { ClosedNow(s, now, order, i - n); }
    }
  }

  lemma Unanswered(s: State, now: Time, id: Id)
    requires RowsOk(s.rows) && LaterOk(s.rows, s.feedback, s.since) && CoverOk(s.advice, s.rows, s.feedback, s.since)
    requires id in s.rows && IsDue(s, id, now)
    ensures id in s.since && s.since[id] <= |s.feedback| && NoAnswerBetween(s.feedback, id, s.since[id], |s.feedback|)
  {
    assert RowOk(s.rows[id]);
  }

  lemma NoAnswerFurther(s: State, order: seq<Id>, id: Id, n: nat)
    requires id in s.since && NoAnswerBetween(s.feedback, id, s.since[id], |s.feedback|)
    requires n < |order| && order[n] == id && forall i :: 0 <= i < n ==> order[i] != id
    ensures NoAnswerBetween(s.feedback + AutoEntries(order), id, s.since[id], |s.feedback| + n)
  {
    var feedback := s.feedback + AutoEntries(order);
    forall j | s.since[id] <= j < |s.feedback| + n ensures feedback[j].id != id {
      if j < |s.feedback| { assert feedback[j] == s.feedback[j]; }
    }
  }

  /** A reminder closed with a signal has had both displays, and no answer since it was published. */
  lemma ClosedNow(s: State, now: Time, order: seq<Id>, n: nat)
    requires Inv(s) && IsOrder(order, Shown(s, now)) && n < |order|
    ensures var s' := CloseDue(s, now, order); IsEarned(s'.rows, s'.attempts, s'.feedback, s'.since, |s.feedback| + n)
  {
    hide RowsOk, OpenOk, NumbersOk, CoverOk, EarlyOk, LaterOk, AutoOk, SignalsOk, Moves, IsDue, Mark, TokensOf, AutoSignals;
    hide NoAnswerBetween, IsShown, WithStatus;
    var s', id := CloseDue(s, now, order), order[n];
    assert id in Shown(s, now);
    Unanswered(s, now, id);
    ClosingMoves(s, now, order);
    TwoDisplays(s.rows, s.attempts, id);
    ShownStaysShown(s.rows, s.attempts, s'.rows, s'.attempts, id, 1);
    ShownStaysShown(s.rows, s.attempts, s'.rows, s'.attempts, id, 2);
    NoAnswerFurther(s, order, id, n);
  }

  lemma ClosingKeepsEarly(s: State, now: Time, order: seq<Id>)
    requires EarlyOk(s.feedback, s.since) && CoverOk(s.advice, s.rows, s.feedback, s.since) && IsOrder(order, Shown(s, now))
    ensures EarlyOk(s.feedback + AutoEntries(order), s.since)
  {
    hide IsDue;
    var feedback := s.feedback + AutoEntries(order);
    assert forall i :: 0 <= i < |order| ==> order[i] in s.rows;
    forall i | 0 <= i < |feedback| && (feedback[i].id !in s.since || i < s.since[feedback[i].id])
      ensures feedback[i].FromUser? && feedback[i].kind.Guidance?
    {
      if i < |s.feedback| {
        assert feedback[i] == s.feedback[i];
      } else {
        assert false;
      }
    }
  }

  lemma ClosingKeepsLater(s: State, now: Time, order: seq<Id>)
    requires LaterOk(s.rows, s.feedback, s.since) && IsOrder(order, Shown(s, now))
    ensures LaterOk(ResolveRows(s.rows, Due(s, now)), s.feedback + AutoEntries(order), s.since)
  {
    var feedback := s.feedback + AutoEntries(order);
    forall i | 0 <= i < |feedback| && IsUnresolved(ResolveRows(s.rows, Due(s, now)), feedback[i].id)
      ensures i < |s.feedback| && feedback[i] == s.feedback[i] && IsUnresolved(s.rows, feedback[i].id)
    {
      if i >= |s.feedback| {
        assert false;
      }
    }
  }

  lemma ClosingKeepsSignals(s: State, now: Time, order: seq<Id>)
    requires SignalsOk(s.feedback, s.signals) && IsOrder(order, Shown(s, now))
    ensures SignalsOk(s.feedback + AutoEntries(order), AutoSignals(Shown(s, now)) + s.signals)
  {
    var shown := Shown(s, now);
    hide Shown;
    forall id ensures FromSystem(id) in s.feedback + AutoEntries(order) <==> FromSystem(id) in s.feedback || id in shown {
      if id in shown {
        var i :| 0 <= i < |order| && order[i] == id;
        assert AutoEntries(order)[i] == FromSystem(id);
      }
      if FromSystem(id) in AutoEntries(order) {
        var i :| 0 <= i < |order| && AutoEntries(order)[i] == FromSystem(id);
      }
    }
    forall id ensures (id, System) in AutoSignals(shown) <==> id in shown {
      if id in shown { assert (id, System) in AutoSignals(shown); }
    }
  }

  lemma ClosingKeepsCover(s: State, now: Time, order: seq<Id>)
    requires CoverOk(s.advice, s.rows, s.feedback, s.since)
    ensures var s' := CloseDue(s, now, order); CoverOk(s'.advice, s'.rows, s'.feedback, s'.since)
  {
    hide Shown, Due, Mark, TokensOf, AutoSignals;
  }

  lemma CloseKeepsInv(s: State, now: Time, order: seq<Id>)
    requires Inv(s) && IsOrder(order, Shown(s, now))
    ensures Inv(CloseDue(s, now, order))
  {
    hide RowsOk, OpenOk, NumbersOk, CoverOk, EarlyOk, LaterOk, AutoOk, SignalsOk, Moves, Shown, Due, ResolveRows, Mark, IsOrder;
    hide AutoSignals, AutoEntries;
    var s' := CloseDue(s, now, order);
    ClosingKeepsAuto(s, now, order);
    ClosingKeepsEarly(s, now, order);
    ClosingKeepsLater(s, now, order);
    ClosingKeepsSignals(s, now, order);
    ClosingKeepsCover(s, now, order);
    ClosingMoves(s, now, order);
    MovesKeepRows(s.rows, s.attempts, s'.rows, s'.attempts);
    MovesKeepOpen(s.rows, s.attempts, s'.rows, s'.attempts);
    MovesKeepNumbers(s.rows, s.attempts, s'.rows, s'.attempts);
  }

  lemma ClockKeepsInv(s: State, now: Time)
    requires Inv(s)
    ensures Inv(s.(clock := now))
  {
    hide RowsOk, OpenOk, NumbersOk, CoverOk, EarlyOk, LaterOk, AutoOk, SignalsOk;
  }

  lemma BeforeClosingKeepsInv(s: State, now: Time)
    requires Inv(s)
    ensures Inv(BeforeClosing(s, now))
    ensures var s' := BeforeClosing(s, now); Moves(s.rows, s.attempts, s'.rows, s'.attempts)
  {
    hide Inv, Moves, EnsureRows, OpenOk;
    ClockKeepsInv(s, now);
    EnsureKeepsInv(s.(clock := now));
    InvTables(s);
    var s1 := s.(clock := now);
    ExpireKeepsInv(s1, now);
    var s2 := ExpireDeadlines(s1, now);
    LapseKeepsInv(s2, now);
    var s3 := LapseLeases(s2, now);
    MovesTwice(s.rows, s.attempts, s2.rows, s2.attempts, s3.rows, s3.attempts);
  }

  lemma SweepKeepsInv(s: State, now: Time, order: seq<Id>)
    requires Inv(s) && IsOrder(order, Shown(BeforeClosing(s, now), now))
    ensures Inv(Sweep(s, now, order))
    ensures var s' := Sweep(s, now, order); Moves(s.rows, s.attempts, s'.rows, s'.attempts)
  {
    hide Inv, Moves, BeforeClosing, OpenOk, Shown, CloseDue, IsOrder;
    InvTables(s);
    BeforeClosingKeepsInv(s, now);
    var s1 := BeforeClosing(s, now);
    CloseKeepsInv(s1, now, order);
    ClosingMoves(s1, now, order);
    var s2 := CloseDue(s1, now, order);
    MovesTwice(s.rows, s.attempts, s1.rows, s1.attempts, s2.rows, s2.attempts);
  }
}
