/** What whole runs of the reminders promise: two permits, one holder, and what silence may teach. */
module AttentionPromises {
  import opened Basics
  import opened Attention
  import opened AttentionSafety
  import opened AttentionRuns

  // ------------------------------------------------------------------- sweeps

  ghost predicate IsWithin(a: Option<Time>, limit: Time) {
    a.Some? ==> a.value <= limit
  }

  /** Nothing is left for a sweep at this instant. */
  ghost predicate IsSwept(s: State, now: Time) {
    && s.clock == now && Expired(s, now) == {} && Lapsed(s.rows, now) == {} && Due(s, now) == {}
    && forall id :: id in s.rows && IsActive(s, id) ==>
         IsWithin(s.rows[id].next, s.advice[id].deadline) && IsWithin(s.rows[id].autoClose, s.advice[id].deadline)
  }

  ghost predicate IsBounded(s: State) {
    forall id :: id in s.rows && IsActive(s, id) ==>
      IsWithin(s.rows[id].next, s.advice[id].deadline) && IsWithin(s.rows[id].autoClose, s.advice[id].deadline)
  }

  lemma ExpireIsThorough(s: State, now: Time)
    ensures var s' := ExpireDeadlines(s, now); Expired(s', now) == {} && IsBounded(s') && s'.clock == s.clock
  {
    hide Mark, TokensOf;
  }

  lemma LapseIsThorough(s: State, now: Time)
    requires RowsOk(s.rows) && Expired(s, now) == {} && IsBounded(s)
    ensures var s' := LapseLeases(s, now);
            Expired(s', now) == {} && IsBounded(s') && Lapsed(s'.rows, now) == {} && s'.clock == s.clock
  {
    hide Mark, TokensOf;
    var s' := LapseLeases(s, now);
    assert Expired(s', now) == Expired(s, now);
    assert forall id :: id in s.rows ==> RowOk(s.rows[id]);
  }

  lemma CloseIsThorough(s: State, now: Time, order: seq<Id>)
    requires Expired(s, now) == {} && IsBounded(s) && Lapsed(s.rows, now) == {} && s.clock == now
    ensures IsSwept(CloseDue(s, now, order), now)
  {
    hide Mark, TokensOf, AutoSignals, AutoEntries, Shown;
    var s' := CloseDue(s, now, order);
    assert forall id :: id in s'.advice && s'.advice[id].status.Active? ==> s'.advice[id] == s.advice[id];
    assert Expired(s', now) <= Expired(s, now);
    assert Lapsed(s'.rows, now) <= Lapsed(s.rows, now);
    assert Due(s', now) <= Due(s, now);
  }

  /** One sweep leaves no expired advice, no lease that has run out and no reminder that is due. */
  lemma SweepIsThorough(s: State, now: Time, order: seq<Id>)
    requires Inv(s)
    ensures IsSwept(Sweep(s, now, order), now)
  {
    hide Inv, RowsOk, IsBounded, IsSwept, Expired, Lapsed, CloseDue, LapseLeases, ExpireDeadlines, EnsureRows;
    ClockKeepsInv(s, now);
    EnsureKeepsInv(s.(clock := now));
    var s1 := s.(clock := now);
    ExpireKeepsInv(s1, now);
    ExpireIsThorough(s1, now);
    var s2 := ExpireDeadlines(s1, now);
    InvTables(s2);
    LapseIsThorough(s2, now);
    CloseIsThorough(LapseLeases(s2, now), now, order);
  }

  lemma NothingToResolve(s: State)
    ensures Resolve(s, {}) == s
  {
  }

  lemma NothingToExpire(s: State, now: Time)
    requires IsSwept(s, now)
    ensures ExpireDeadlines(s, now) == s
  {
    hide Mark, TokensOf, ResolveRows, Due, Lapsed;
    NothingToResolve(s);
    assert WithStatus(s.advice, {}, Withdrawn) == s.advice;
    assert BoundRows(s, now) == s.rows;
  }

  lemma NothingToLapse(s: State, now: Time)
    requires IsSwept(s, now)
    ensures LapseLeases(s, now) == s
  {
    hide ResolveRows, Due, Expired, IsActive;
    NothingToResolve(s);
    assert Mark(s.attempts, {}, Superseded) == s.attempts && ReleaseRows(s.rows, {}) == s.rows && TokensOf(s.rows, {}) == {};
    assert SpentLater(s.rows, {}) == {};
  }

  lemma NothingToClose(s: State, now: Time)
    requires IsSwept(s, now)
    ensures Shown(s, now) == {} && CloseDue(s, now, []) == s
  {
    hide Mark, TokensOf, ResolveRows, Expired, Lapsed;
    NothingToResolve(s);
    assert Shown(s, now) <= Due(s, now);
    assert WithStatus(s.advice, {}, Dismissed) == s.advice && AutoSignals({}) + s.signals == s.signals;
    assert s.feedback + AutoEntries([]) == s.feedback;
  }

  /** A second sweep at the same instant finds nothing and changes nothing. */
  lemma SweepIsIdempotent(s: State, now: Time, order: seq<Id>, again: seq<Id>)
    requires Inv(s) && IsOrder(order, Shown(BeforeClosing(s, now), now))
    requires IsOrder(again, Shown(BeforeClosing(Sweep(s, now, order), now), now))
    ensures again == [] && Sweep(Sweep(s, now, order), now, again) == Sweep(s, now, order)
  {
    hide Inv, IsSwept, Sweep, BeforeClosing, Shown, Moves;
    SweepIsThorough(s, now, order);
    SweepKeepsInv(s, now, order);
    SweptIsStill(Sweep(s, now, order), now);
    NoneInOrder(again);
  }

  lemma NoneInOrder(order: seq<Id>)
    requires IsOrder(order, {})
    ensures order == []
  {
    if order != [] { HeadOfOrder(order, {}); }
  }

  lemma HeadOfOrder(order: seq<Id>, ids: set<Id>)
    requires IsOrder(order, ids) && order != []
    ensures order[0] in ids
  {
  }

  lemma SweptIsStill(s: State, now: Time)
    requires Inv(s) && IsSwept(s, now)
    ensures BeforeClosing(s, now) == s && Shown(s, now) == {} && Sweep(s, now, []) == s
  {
    hide Inv, CloseDue, LapseLeases, ExpireDeadlines, EnsureRows, Shown, Expired, Lapsed, Due;
    assert s.(clock := now) == s;
    EnsureKeepsInv(s);
    NothingToExpire(s, now);
    NothingToLapse(s, now);
    NothingToClose(s, now);
  }

  // ------------------------------------------------------------------ permits

  ghost function PermitsOf(attempts: map<Token, Attempt>, id: Id): set<Token> {
    set t | t in attempts && attempts[t].id == id
  }

  /** A permit of this advice is given out. */
  ghost predicate Gives(op: Op, id: Id) {
    op.OpClaim? && !op.paused && op.pick == Some(id)
  }

  /** The attempts go on existing, and one that has ended stays as it ended. */
  ghost predicate AttemptsStay(before: map<Token, Attempt>, after: map<Token, Attempt>) {
    forall t :: t in before ==>
      t in after && after[t] == before[t].(outcome := after[t].outcome) && (!before[t].outcome.Open? ==> after[t] == before[t])
  }

  /** One step, seen from one reminder: a resolved one stays exactly as it is, and a permit is used by
      a claim that gives it out and by nothing else. */
  ghost predicate RowSteps(a: Row, b: Row, given: bool) {
    (a.phase.Resolved? ==> b == a && !given) && b.count == a.count + if given then 1 else 0
  }

  lemma MovesAreSteps(s: State, s': State, id: Id)
    requires Moves(s.rows, s.attempts, s'.rows, s'.attempts) && id in s.rows
    ensures id in s'.rows && RowSteps(s.rows[id], s'.rows[id], false) && AttemptsStay(s.attempts, s'.attempts)
  {
    assert RowMoves(s.rows[id], s'.rows[id]);
  }

  lemma ClaimStep(s: State, op: Op, id: Id)
    requires Inv(s) && Enabled(s, op) && op.OpClaim? && id in s.rows
    ensures var s' := Step(s, op);
            id in s'.rows && RowSteps(s.rows[id], s'.rows[id], Gives(op, id)) && AttemptsStay(s.attempts, s'.attempts)
  {
    hide Inv, Moves, BeforeClosing, Shown, Sweep, ExpireDeadlines;
    SweepKeepsInv(s, op.now, op.order);
    SweepIsThorough(s, op.now, op.order);
    var s1 := Sweep(s, op.now, op.order);
    MovesAreSteps(s, s1, id);
    SameTokens(s.rows, s.attempts, s1.rows, s1.attempts);
    if op.pick.Some? { assert op.pick.value !in Expired(s1, op.now); }
  }

  lemma OneStepOnRow(s: State, op: Op, id: Id)
    requires Inv(s) && Enabled(s, op) && id in s.rows
    ensures var s' := Step(s, op);
            id in s'.rows && RowSteps(s.rows[id], s'.rows[id], Gives(op, id)) && AttemptsStay(s.attempts, s'.attempts)
  {
    hide Inv, Moves, OpenOk, RowsOk, Sweep, Claim, Complete, Fail, Feedback, IsOrder, IsPick, Shown, BeforeClosing, IsActive;
    InvTables(s);
    match op
    case OpClaim(_, _, _, _, _, _, _) => ClaimStep(s, op, id);
    case OpSweep(now, order) =>
      SweepKeepsInv(s, now, order);
      MovesAreSteps(s, Step(s, op), id);
    case OpComplete(_, _, _, _) => DeviceStepMoves(s, op); MovesAreSteps(s, Step(s, op), id);
    case OpFail(_, _, _, _) => DeviceStepMoves(s, op); MovesAreSteps(s, Step(s, op), id);
    case OpFeedback(_, _, _, _, _, _) => FeedbackMoves(s, op); MovesAreSteps(s, Step(s, op), id);
    case _ =>
  }

  lemma DeviceStepMoves(s: State, op: Op)
    requires Inv(s) && (op.OpComplete? || op.OpFail?)
    ensures var s' := Step(s, op); Moves(s.rows, s.attempts, s'.rows, s'.attempts)
  {
    hide Inv, OpenOk, RowsOk, NumbersOk, Moves, Complete, Fail;
    InvTables(s);
    if op.OpComplete? {
      CompleteMoves(s, op.id, op.device, op.token, op.now);
    } else {
      FailMoves(s, op.id, op.device, op.token, op.now);
    }
  }

  lemma CompleteMoves(s: State, id: Id, device: Device, token: Token, now: Time)
    requires RowsOk(s.rows) && OpenOk(s.rows, s.attempts)
    ensures var s' := Complete(s, id, device, token, now).0; Moves(s.rows, s.attempts, s'.rows, s'.attempts)
  {
    hide OpenOk, Moves;
    StillMoves(s.rows, s.attempts);
    var s' := Complete(s, id, device, token, now).0;
    if Holds(s.(clock := now), id, device, token) && s' != s.(clock := now) {
      assert RowOk(s.rows[id]);
      EndLeaseMoves(s.rows, s.attempts, id, token, s'.rows[id], s'.attempts[token].outcome);
    }
  }

  lemma FailMoves(s: State, id: Id, device: Device, token: Token, now: Time)
    requires RowsOk(s.rows) && OpenOk(s.rows, s.attempts)
    ensures var s' := Fail(s, id, device, token, now).0; Moves(s.rows, s.attempts, s'.rows, s'.attempts)
  {
    hide OpenOk, Moves;
    StillMoves(s.rows, s.attempts);
    var s' := Fail(s, id, device, token, now).0;
    if Holds(s.(clock := now), id, device, token) && s' != s.(clock := now) {
      assert RowOk(s.rows[id]);
      EndLeaseMoves(s.rows, s.attempts, id, token, s'.rows[id], s'.attempts[token].outcome);
    }
  }

  lemma FeedbackMoves(s: State, op: Op)
    requires Inv(s) && op.OpFeedback?
    ensures var s' := Step(s, op); Moves(s.rows, s.attempts, s'.rows, s'.attempts)
  {
    hide Inv, OpenOk, RowsOk, Moves, Answered, IsGiven, IsKeyUsed, IsRepeat, Guidances;
    InvTables(s);
    StillMoves(s.rows, s.attempts);
    if op.id in s.advice { AnswerIsNoted(s.(clock := op.now), op.id, op.kind, op.key); }
  }

  /** A reminder once resolved is never delivered, postponed or closed again. */
  lemma {:induction false} ResolvedIsAbsorbing(run: seq<State>, ops: seq<Op>, m: nat, n: nat, id: Id)
    requires IsRun(run, ops) && m <= n < |run| && id in run[m].rows && run[m].rows[id].phase.Resolved?
    ensures id in run[n].rows && run[n].rows[id] == run[m].rows[id]
    decreases n
  {
    hide Inv, Step, Enabled;
    if m < n {
      ResolvedIsAbsorbing(run, ops, m, n - 1, id);
      EveryRunKeepsInv(run, ops, n - 1);
      assert Enabled(run[n - 1], ops[n - 1]) && run[n - 1 + 1] == Step(run[n - 1], ops[n - 1]);
      OneStepOnRow(run[n - 1], ops[n - 1], id);
    }
  }

  ghost function Given(ops: seq<Op>, id: Id): nat {
    if ops == [] then 0 else Given(ops[..|ops| - 1], id) + if Gives(ops[|ops| - 1], id) then 1 else 0
  }

  /** Over any run and any set of devices an advice is given out at most twice: a permit that was used
      is never returned, whether or not it led to a display. */
  lemma {:induction false} AtMostTwoPermits(run: seq<State>, ops: seq<Op>, id: Id)
    requires IsRun(run, ops)
    ensures Given(ops, id) == (if id in run[|ops|].rows then run[|ops|].rows[id].count else 0) <= 2
    decreases |ops|
  {
    hide Inv, Step, Enabled;
    EveryRunKeepsInv(run, ops, |ops|);
    if id in run[|ops|].rows { CountOfRow(run[|ops|], id); }
    if ops != [] {
      var n := |ops| - 1;
      AtMostTwoPermits(run[..n + 1], ops[..n], id);
      EveryRunKeepsInv(run, ops, n);
      assert Enabled(run[n], ops[n]) && run[n + 1] == Step(run[n], ops[n]);
      if id in run[n].rows { OneStepOnRow(run[n], ops[n], id); } else { NewRowHasNoPermits(run[n], ops[n], id); }
    }
  }

  lemma CountOfRow(s: State, id: Id)
    requires Inv(s) && id in s.rows
    ensures RowOk(s.rows[id])
  {
    hide OpenOk, NumbersOk, CoverOk, EarlyOk, LaterOk, AutoOk, SignalsOk;
  }

  lemma NewRowHasNoPermits(s: State, op: Op, id: Id)
    requires Inv(s) && Enabled(s, op) && id !in s.rows
    ensures !Gives(op, id) && (id in Step(s, op).rows ==> Step(s, op).rows[id].count == 0)
  {
    hide Inv, Moves, OpenOk, RowsOk, Sweep, Complete, Fail, Feedback, IsOrder, Shown, BeforeClosing, ExpireDeadlines;
    match op
    case OpClaim(_, _, _, _, _, _, _) =>
      SweepKeepsInv(s, op.now, op.order);
      var s1 := Sweep(s, op.now, op.order);
      SameTokens(s.rows, s.attempts, s1.rows, s1.attempts);
      ExpireKeepsInv(s1, op.now);
      SameTokens(s1.rows, s1.attempts, ExpireDeadlines(s1, op.now).rows, ExpireDeadlines(s1, op.now).attempts);
    case OpSweep(now, order) =>
      SweepKeepsInv(s, now, order);
      SameTokens(s.rows, s.attempts, Step(s, op).rows, Step(s, op).attempts);
    case OpComplete(_, _, _, _) => DeviceStepMoves(s, op); SameTokens(s.rows, s.attempts, Step(s, op).rows, Step(s, op).attempts);
    case OpFail(_, _, _, _) => DeviceStepMoves(s, op); SameTokens(s.rows, s.attempts, Step(s, op).rows, Step(s, op).attempts);
    case OpFeedback(_, _, _, _, _, _) => FeedbackMoves(s, op); SameTokens(s.rows, s.attempts, Step(s, op).rows, Step(s, op).attempts);
    case _ =>
  }

  /** The attempts of an advice are its permits, numbered from 1, each number once. */
  lemma PermitsAreAttempts(run: seq<State>, ops: seq<Op>, n: nat, id: Id)
    requires IsRun(run, ops) && n < |run| && id in run[n].rows
    ensures |PermitsOf(run[n].attempts, id)| == run[n].rows[id].count
    ensures forall k: nat :: HasNumber(run[n].attempts, id, k) <==> 1 <= k <= run[n].rows[id].count
  {
    hide Inv, IsRun;
    EveryRunKeepsInv(run, ops, n);
    InvTables(run[n]);
    var attempts, count := run[n].attempts, run[n].rows[id].count;
    assert RowOk(run[n].rows[id]);
    if count >= 1 {
      assert HasNumber(attempts, id, 1);
      var t :| IsPermit(attempts, t, id, 1);
      if count == 1 {
        assert PermitsOf(attempts, id) == {t};
      } else {
        assert HasNumber(attempts, id, 2);
        var u :| IsPermit(attempts, u, id, 2);
        assert PermitsOf(attempts, id) == {t, u};
      }
    } else {
      assert PermitsOf(attempts, id) == {};
    }
  }

  /** A reminder is claimed exactly while one attempt of it is open, and that one names the token,
      the device and the number of the permit. */
  lemma ClaimedWhileOneIsOpen(run: seq<State>, ops: seq<Op>, n: nat, id: Id)
    requires IsRun(run, ops) && n < |run| && id in run[n].rows
    ensures var s := run[n];
            && (s.rows[id].phase.Claimed? <==> exists t :: t in PermitsOf(s.attempts, id) && s.attempts[t].outcome.Open?)
            && forall t :: t in PermitsOf(s.attempts, id) && s.attempts[t].outcome.Open? ==>
                 s.rows[id].lease == Some(Lease(t, s.attempts[t].device, s.attempts[t].expires))
                 && s.attempts[t].number == s.rows[id].count
  {
    hide Inv, IsRun, NumbersOk;
    EveryRunKeepsInv(run, ops, n);
    InvTables(run[n]);
    assert RowOk(run[n].rows[id]);
    if run[n].rows[id].lease.Some? { assert run[n].rows[id].lease.value.token in PermitsOf(run[n].attempts, id); }
  }

  /** No two devices have confirmed the same permit. */
  lemma OneDevicePerPermit(run: seq<State>, ops: seq<Op>, n: nat, t: Token, u: Token)
    requires IsRun(run, ops) && n < |run| && t in run[n].attempts && u in run[n].attempts
    requires run[n].attempts[t].outcome.Delivered? && run[n].attempts[u].outcome.Delivered?
    requires run[n].attempts[t].id == run[n].attempts[u].id && run[n].attempts[t].number == run[n].attempts[u].number
    ensures t == u
  {
    hide Inv, IsRun;
    EveryRunKeepsInv(run, ops, n);
    InvTables(run[n]);
  }

  /** A device whose permit is not the latest can neither confirm it nor give it back. */
  lemma StaleDeviceIsFenced(s: State, id: Id, device: Device, token: Token, now: Time)
    requires Inv(s) && token in s.attempts && id in s.rows && s.attempts[token].number < s.rows[id].count
    ensures Complete(s, id, device, token, now).0 == s.(clock := now) && Fail(s, id, device, token, now).0 == s.(clock := now)
  {
    hide Inv, RowsOk, NumbersOk;
    InvTables(s);
  }

  // ------------------------------------------------------------------- silence

  /** The system speaks for the user at most once about an advice, after both permits were displayed,
      and when the user has said nothing since its publication, not even "later". */
  lemma SilenceIsEarned(run: seq<State>, ops: seq<Op>, n: nat, i: nat)
    requires IsRun(run, ops) && n < |run| && i < |run[n].feedback| && run[n].feedback[i].FromSystem?
    ensures var s, id := run[n], run[n].feedback[i].id;
            && id in s.since && id in s.rows && IsShown(s.attempts, id, 1) && IsShown(s.attempts, id, 2)
            && (forall j :: s.since[id] <= j < i ==> s.feedback[j].id != id)
            && (forall j :: 0 <= j < |s.feedback| && s.feedback[j] == FromSystem(id) ==> j == i)
            && s.rows[id].phase.Resolved? && (id, System) in s.signals && s.signals[(id, System)] == AUTO_WEIGHT
  {
    hide Inv, IsRun, CoverOk, EarlyOk, LaterOk, IsShown;
    EveryRunKeepsInv(run, ops, n);
    InvAnswers(run[n]);
    var s := run[n];
    assert IsEarned(s.rows, s.attempts, s.feedback, s.since, i);
    forall j | 0 <= j < |s.feedback| && s.feedback[j] == FromSystem(s.feedback[i].id) ensures j == i {
      assert IsEarned(s.rows, s.attempts, s.feedback, s.since, j);
    }
  }

  /** Whether the user had never said anything at all is decided when the advice is published: the
      only answer that can come before is guidance on the draft. */
  lemma SilenceIsTotalExactlyWhen(run: seq<State>, ops: seq<Op>, n: nat, i: nat)
    requires IsRun(run, ops) && n < |run| && i < |run[n].feedback| && run[n].feedback[i].FromSystem?
    ensures var s, id := run[n], run[n].feedback[i].id;
            && id in s.since
            && ((forall j :: 0 <= j < i ==> s.feedback[j].id != id)
                <==> (forall j :: 0 <= j < s.since[id] && j < |s.feedback| ==> s.feedback[j].id != id))
            && forall j :: 0 <= j < i && s.feedback[j].id == id ==> s.feedback[j].FromUser? && s.feedback[j].kind.Guidance?
  {
    hide Inv, IsRun, IsShown, LaterOk;
    SilenceIsEarned(run, ops, n, i);
    EveryRunKeepsInv(run, ops, n);
    InvAnswers(run[n]);
    assert IsEarned(run[n].rows, run[n].attempts, run[n].feedback, run[n].since, i);
  }

  // ------------------------------------------------------- feedback on published advice

  /** The callers of `record_feedback` look the advice up first, and a draft is not found. */
  ghost predicate IsGuarded(run: seq<State>, ops: seq<Op>) {
    && IsRun(run, ops)
    && forall i :: 0 <= i < |ops| && ops[i].OpFeedback? && ops[i].id in run[i].advice ==>
         !run[i].advice[ops[i].id].status.Provisional?
  }

  ghost predicate AllLate(s: State) {
    forall i :: 0 <= i < |s.feedback| ==>
      var id := s.feedback[i].id;
      id in s.advice && !s.advice[id].status.Provisional? && (id in s.since ==> s.since[id] <= i)
  }

  lemma SweepFrame(s: State, now: Time, order: seq<Id>)
    requires Inv(s) && IsOrder(order, Shown(BeforeClosing(s, now), now))
    ensures var s' := Sweep(s, now, order);
            && s'.since == s.since && Fades(s.advice, s'.advice) && s'.feedback == s.feedback + AutoEntries(order)
            && forall id :: id in order ==> id in s.rows
  {
    hide Inv, Moves, Mark, TokensOf, ResolveRows, EnsureRows, AutoSignals;
    ClockKeepsInv(s, now);
    EnsureKeepsInv(s.(clock := now));
    BeforeClosingKeepsInv(s, now);
    var s1 := BeforeClosing(s, now);
    SameTokens(s.rows, s.attempts, s1.rows, s1.attempts);
    assert forall id :: id in order ==> id in Shown(s1, now);
  }

  lemma FadesKeepLate(s: State, s': State)
    requires AllLate(s) && Fades(s.advice, s'.advice) && s'.since == s.since && |s.feedback| <= |s'.feedback|
    requires s'.feedback[..|s.feedback|] == s.feedback
    requires forall i :: |s.feedback| <= i < |s'.feedback| ==>
      var id := s'.feedback[i].id;
      id in s.advice && !s.advice[id].status.Provisional? && (id in s.since ==> s.since[id] <= i)
    ensures AllLate(s')
  {
    forall i | 0 <= i < |s'.feedback|
      ensures var id := s'.feedback[i].id; id in s'.advice && !s'.advice[id].status.Provisional? && (id in s'.since ==> s'.since[id] <= i)
    {
      if i < |s.feedback| { assert s'.feedback[i] == s'.feedback[..|s.feedback|][i]; }
    }
  }

  lemma SweepKeepsLate(s: State, now: Time, order: seq<Id>)
    requires Inv(s) && AllLate(s) && IsOrder(order, Shown(BeforeClosing(s, now), now))
    ensures AllLate(Sweep(s, now, order))
  {
    hide Inv, AllLate, Sweep, BeforeClosing, Shown, IsOrder, Fades, CoverOk, EarlyOk, LaterOk, AutoOk, SignalsOk;
    SweepFrame(s, now, order);
    InvAnswers(s);
    var s' := Sweep(s, now, order);
    assert s'.feedback[..|s.feedback|] == s.feedback;
    forall i | |s.feedback| <= i < |s'.feedback|
      ensures var id := s'.feedback[i].id;
              id in s.advice && !s.advice[id].status.Provisional? && (id in s.since ==> s.since[id] <= i)
    {
      assert s'.feedback[i].id in order;
      RowIsPublished(s, s'.feedback[i].id);
    }
    FadesKeepLate(s, s');
  }

  lemma RowIsPublished(s: State, id: Id)
    requires CoverOk(s.advice, s.rows, s.feedback, s.since) && id in s.rows
    ensures id in s.advice && !s.advice[id].status.Provisional? && id in s.since && s.since[id] <= |s.feedback|
  {
  }

  lemma ExpireFrame(s: State, now: Time)
    ensures var s' := ExpireDeadlines(s, now);
            s'.since == s.since && s'.feedback == s.feedback && Fades(s.advice, s'.advice)
  {
    hide Mark, TokensOf, ResolveRows, BoundRows;
  }

  lemma StepKeepsLate(s: State, op: Op)
    requires Inv(s) && AllLate(s) && Enabled(s, op)
    requires op.OpFeedback? && op.id in s.advice ==> !s.advice[op.id].status.Provisional?
    ensures AllLate(Step(s, op))
  {
    hide Inv, CoverOk, EarlyOk, LaterOk, AutoOk, SignalsOk, Sweep, BeforeClosing, Shown, IsOrder, IsPick, ExpireDeadlines, Moves, Answered;
    InvAnswers(s);
    match op
    case OpSweep(now, order) => SweepKeepsLate(s, now, order);
    case OpClaim(_, _, now, order, _, _, _) =>
      SweepKeepsLate(s, now, order);
      ExpireFrame(Sweep(s, now, order), now);
      FadesKeepLate(Sweep(s, now, order), ExpireDeadlines(Sweep(s, now, order), now));
    case OpFeedback(id, kind, key, now, _, _) =>
      if id in s.advice {
        AnswerFrame(s.(clock := now), id, kind, key);
        AnswerIsLate(s, now, id, kind, key);
      }
    case OpPublish(_, _) =>
    case OpPromote(_, _) =>
    case _ => hide CoverOk;
  }

  lemma AnswerFrame(s: State, id: Id, kind: Kind, key: Option<string>)
    requires id in s.advice
    ensures var s' := Answered(s, id, kind, key);
            s'.since == s.since && s'.feedback == s.feedback + [FromUser(id, kind, key)] && Fades(s.advice, s'.advice)
  {
    hide Mark, TokensOf, ResolveRows;
  }

  lemma AnswerIsLate(s: State, now: Time, id: Id, kind: Kind, key: Option<string>)
    requires CoverOk(s.advice, s.rows, s.feedback, s.since) && AllLate(s) && id in s.advice && !s.advice[id].status.Provisional?
    ensures AllLate(Answered(s.(clock := now), id, kind, key))
  {
    hide Answered, AllLate;
    AnswerFrame(s.(clock := now), id, kind, key);
    var s' := Answered(s.(clock := now), id, kind, key);
    assert s'.feedback[..|s.feedback|] == s.feedback;
    FadesKeepLate(s, s');
  }

  lemma {:induction false} GuardedFeedbackIsLate(run: seq<State>, ops: seq<Op>, n: nat)
    requires IsGuarded(run, ops) && n < |run|
    ensures AllLate(run[n])
  {
    hide Inv, AllLate, Step, Enabled;
    if n == 0 {
      EmptyIsLate(run[0]);
    } else {
      GuardedFeedbackIsLate(run, ops, n - 1);
      EveryRunKeepsInv(run, ops, n - 1);
      assert Enabled(run[n - 1], ops[n - 1]) && run[n - 1 + 1] == Step(run[n - 1], ops[n - 1]);
      StepKeepsLate(run[n - 1], ops[n - 1]);
    }
  }

  lemma EmptyIsLate(s: State)
    requires s.feedback == []
    ensures AllLate(s)
  {
  }

  /** As the callers guard it: when the system speaks for the user, the user has never said anything. */
  lemma GuardedSilenceIsTotal(run: seq<State>, ops: seq<Op>, n: nat, i: nat, j: nat)
    requires IsGuarded(run, ops) && n < |run| && j < i < |run[n].feedback| && run[n].feedback[i].FromSystem?
    ensures run[n].feedback[j].id != run[n].feedback[i].id
  {
    hide IsRun, Inv, IsShown;
    GuardedFeedbackIsLate(run, ops, n);
    SilenceIsEarned(run, ops, n, i);
  }

  // A run in which guidance on a draft does not keep the system from speaking for the user.

  const NOTE := FromUser("a", Guidance("not now"), None)

  function Scene(clock: Time, status: Status, row: Row, attempts: map<Token, Attempt>): State {
    State(clock, map["a" := Advice(status, true, 3, 0, DAY)], map["a" := row], attempts, [NOTE], map[], map["a" := 1])
  }

  const FIRST := Attempt("a", "phone", 1, CLAIM_LEASE, Delivered)
  const SECOND := Attempt("a", "phone", 2, HOUR + CLAIM_LEASE, Delivered)

  /** A claim in a state that is already swept goes straight to the grant. */
  lemma QuietClaim(s: State, token: Token, now: Time)
    requires Inv(s) && IsSwept(s.(clock := now), now) && IsCandidate(s, "a", now, {})
    requires s.rows.Keys == {"a"} && token !in s.attempts && s.advice["a"].deadline > now
    ensures var op := OpClaim("phone", token, now, [], false, {}, Some("a"));
            Enabled(s, op) && Step(s, op) == Grant(s.(clock := now), "a", "phone", token, now)
  {
    hide Inv, IsSwept, BeforeClosing, Shown, CloseDue;
    ClockKeepsInv(s, now);
    SweptIsStill(s.(clock := now), now);
    SweepSetsClock(s, now);
    assert Sweep(s, now, []) == s.(clock := now);
    OnlyCandidate(s.(clock := now), now);
  }

  lemma OnlyCandidate(s: State, now: Time)
    requires s.rows.Keys == {"a"} && IsCandidate(s, "a", now, {})
    ensures IsPick(s, now, {}, Some("a"))
  {
    assert forall id :: IsCandidate(s, id, now, {}) ==> id == "a";
  }

  lemma SweepSetsClock(s: State, now: Time)
    ensures BeforeClosing(s, now) == BeforeClosing(s.(clock := now), now)
  {
    assert s.(clock := now).(clock := now) == s.(clock := now);
  }

  lemma OpeningScenes() returns (run: seq<State>, ops: seq<Op>)
    ensures IsRun(run, ops) && |ops| == 3 && run[3] == Scene(0, Active, NewRow(true), map[])
  {
    var draft := Advice(Provisional, true, 3, 0, DAY);
    var s0 := State(0, map[], map[], map[], [], map[], map[]);
    var s1 := s0.(advice := map["a" := draft]);
    var s2 := s1.(feedback := [NOTE]);
    var s3 := Scene(0, Active, NewRow(true), map[]);
    ops := [OpDraft("a", draft), OpFeedback("a", Guidance("not now"), None, 0, None, None), OpPromote("a", draft)];
    run := [s0, s1, s2, s3];
    assert Step(s0, ops[0]) == s1;
    assert Resolve(s2, {"a"}) == s2 by { assert TokensOf(s2.rows, {"a"}) == {}; }
    assert s1.advice["a" := draft] == s1.advice;
    assert Step(s1, ops[1]) == s2;
    assert Step(s2, ops[2]) == s3;
  }

  lemma Extend(run: seq<State>, ops: seq<Op>, op: Op, s: State)
    requires IsRun(run, ops) && Enabled(run[|ops|], op) && s == Step(run[|ops|], op)
    ensures IsRun(run + [s], ops + [op])
  {
    hide Enabled, Step;
  }

  /** One reminder given out and displayed. */
  lemma DisplayScene(run: seq<State>, ops: seq<Op>, s: State, token: Token, now: Time, after: State)
    returns (run': seq<State>, ops': seq<Op>)
    requires IsRun(run, ops) && run[|ops|] == s && s.rows.Keys == {"a"} && s.advice.Keys == {"a"}
    requires IsSwept(s.(clock := now), now) && IsCandidate(s, "a", now, {}) && token !in s.attempts
    requires s.advice["a"].deadline > now && !s.rows["a"].later
    requires var granted := Grant(s.(clock := now), "a", "phone", token, now);
             after == granted.(rows := map["a" := granted.rows["a"].(phase := Waiting, lease := None)],
                               attempts := granted.attempts[token := granted.attempts[token].(outcome := Delivered)])
    ensures IsRun(run', ops') && run'[|ops'|] == after
  {
    hide Inv, IsSwept, IsRun, Enabled, Claim, Sweep;
    Length(run, ops);
    EveryRunKeepsInv(run, ops, |ops|);
    QuietClaim(s, token, now);
    var claim := OpClaim("phone", token, now, [], false, {}, Some("a"));
    var granted := Grant(s.(clock := now), "a", "phone", token, now);
    Extend(run, ops, claim, granted);
    var complete := OpComplete("a", "phone", token, now);
    CompleteScene(granted, token, now, after);
    Length(run + [granted], ops + [claim]);
    Extend(run + [granted], ops + [claim], complete, after);
    run', ops' := run + [granted] + [after], ops + [claim] + [complete];
    Length(run', ops');
  }

  lemma Length(run: seq<State>, ops: seq<Op>)
    requires IsRun(run, ops)
    ensures |run| == |ops| + 1
  {
  }

  lemma CompleteScene(s: State, token: Token, now: Time, after: State)
    requires s.rows.Keys == {"a"} && Holds(s, "a", "phone", token) && s.clock == now < s.attempts[token].expires
    requires s.attempts[token].number == s.rows["a"].count && !s.rows["a"].later
    requires after == s.(rows := map["a" := s.rows["a"].(phase := Waiting, lease := None)],
                         attempts := s.attempts[token := s.attempts[token].(outcome := Delivered)])
    ensures var op := OpComplete("a", "phone", token, now); Enabled(s, op) && Step(s, op) == after
  {
    assert s.rows["a" := after.rows["a"]] == after.rows;
  }

  /** Guidance on a draft, then silence: the system still answers "irrelevant" for the user. */
  lemma GuidanceOnADraftIsForgotten() returns (run: seq<State>, ops: seq<Op>)
    ensures IsRun(run, ops) && run[|ops|].feedback == [NOTE, FromSystem("a")]
  {
    var shown1 := Scene(0, Active, Row(Waiting, 1, Some(HOUR), None, None, false), map["1" := FIRST]);
    var shown2 := Scene(HOUR, Active, Row(Waiting, 2, None, Some(2 * HOUR), None, false), map["1" := FIRST, "2" := SECOND]);
    run, ops := OpeningScenes();
    run, ops := DisplayScene(run, ops, run[3], "1", 0, shown1);
    run, ops := DisplayScene(run, ops, shown1, "2", HOUR, shown2);
    var sweep := OpSweep(2 * HOUR, ["a"]);
    EveryRunKeepsInv(run, ops, |ops|);
    LastScene(shown2);
    hide IsRun, Enabled, Step, Sweep;
    Length(run, ops);
    Extend(run, ops, sweep, Step(shown2, sweep));
    run, ops := run + [Step(shown2, sweep)], ops + [sweep];
    Length(run, ops);
    assert run[|ops|] == Step(shown2, sweep);
  }

  lemma LastScene(s: State)
    requires Inv(s)
    requires s == Scene(HOUR, Active, Row(Waiting, 2, None, Some(2 * HOUR), None, false), map["1" := FIRST, "2" := SECOND])
    ensures var sweep := OpSweep(2 * HOUR, ["a"]); Enabled(s, sweep) && Step(s, sweep).feedback == [NOTE, FromSystem("a")]
  {
    hide Inv, CloseDue, Shown, IsDue, BeforeClosing, Expired, Lapsed, BoundRows;
    var now := 2 * HOUR;
    LastSceneIsQuiet(s, now);
    NothingBeforeClosing(s, now);
    LastShown(s.(clock := now), now);
  }

  lemma LastSceneIsQuiet(s: State, now: Time)
    requires now == 2 * HOUR
    requires s == Scene(HOUR, Active, Row(Waiting, 2, None, Some(2 * HOUR), None, false), map["1" := FIRST, "2" := SECOND])
    ensures Expired(s.(clock := now), now) == {} && Lapsed(s.rows, now) == {} && BoundRows(s.(clock := now), now) == s.rows
  {
  }

  lemma NothingBeforeClosing(s: State, now: Time)
    requires Inv(s) && Expired(s.(clock := now), now) == {} && Lapsed(s.rows, now) == {} && BoundRows(s.(clock := now), now) == s.rows
    ensures BeforeClosing(s, now) == s.(clock := now)
  {
    hide Inv, BoundRows, EnsureRows, Resolve;
    var s1 := s.(clock := now);
    ClockKeepsInv(s, now);
    EnsureKeepsInv(s1);
    NothingToResolve(s1);
    assert WithStatus(s1.advice, {}, Withdrawn) == s1.advice && ExpireDeadlines(s1, now) == s1;
    assert Mark(s1.attempts, {}, Superseded) == s1.attempts && ReleaseRows(s1.rows, {}) == s1.rows && TokensOf(s1.rows, {}) == {};
    assert SpentLater(s1.rows, {}) == {};
  }

  lemma LastShown(s: State, now: Time)
    requires now == 2 * HOUR
    requires s == Scene(now, Active, Row(Waiting, 2, None, Some(2 * HOUR), None, false), map["1" := FIRST, "2" := SECOND])
    ensures Shown(s, now) == {"a"} && CloseDue(s, now, ["a"]).feedback == [NOTE, FromSystem("a")]
  {
    hide Mark, ResolveRows, TokensOf, WithStatus;
    assert DeliveredTo(s.attempts, "a") == {"1", "2"};
    assert IsDue(s, "a", now);
    assert Shown(s, now) == {"a"};
    assert AutoEntries(["a"]) == [FromSystem("a")];
  }
}
