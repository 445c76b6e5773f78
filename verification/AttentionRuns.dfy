/** Whole runs of the attention tables: any number of devices, any order of their requests. */
module AttentionRuns {
  import opened Basics
  import opened Attention
  import opened AttentionSafety

  // ------------------------------------------------------------------- grants

  lemma GrantKeepsOpen(s: State, id: Id, device: Device, token: Token, now: Time)
    requires RowsOk(s.rows) && OpenOk(s.rows, s.attempts) && token !in s.attempts
    requires id in s.rows && id in s.advice && s.rows[id].phase in {Pending, Waiting} && s.rows[id].count < 2
    ensures var s' := Grant(s, id, device, token, now); RowsOk(s'.rows) && OpenOk(s'.rows, s'.attempts)
  {
    assert RowOk(s.rows[id]);
  }

  lemma GrantKeepsNumbers(s: State, id: Id, device: Device, token: Token, now: Time)
    requires OpenOk(s.rows, s.attempts) && NumbersOk(s.rows, s.attempts) && token !in s.attempts && id in s.rows && id in s.advice
    ensures var s' := Grant(s, id, device, token, now); NumbersOk(s'.rows, s'.attempts)
  {
    var s' := Grant(s, id, device, token, now);
    assert IsPermit(s'.attempts, token, id, s.rows[id].count + 1);
    forall k, n | k in s'.rows && 1 <= n <= s'.rows[k].count ensures HasNumber(s'.attempts, k, n) {
      if k != id || n <= s.rows[id].count {
        assert HasNumber(s.attempts, k, n);
        var t :| IsPermit(s.attempts, t, k, n);
        assert IsPermit(s'.attempts, t, k, n);
      }
    }
  }

  lemma GrantKeepsAuto(s: State, id: Id, device: Device, token: Token, now: Time)
    requires AutoOk(s.rows, s.attempts, s.feedback, s.since) && token !in s.attempts
    requires id in s.rows && id in s.advice && !s.rows[id].phase.Resolved?
    ensures var s' := Grant(s, id, device, token, now); AutoOk(s'.rows, s'.attempts, s'.feedback, s'.since)
  {
    var s' := Grant(s, id, device, token, now);
    forall i | 0 <= i < |s.feedback| && s.feedback[i].FromSystem?
      ensures IsEarned(s'.rows, s'.attempts, s.feedback, s.since, i)
    {
      assert IsEarned(s.rows, s.attempts, s.feedback, s.since, i);
      DisplaysStay(s.attempts, token, s'.attempts[token], s.feedback[i].id, 1);
      DisplaysStay(s.attempts, token, s'.attempts[token], s.feedback[i].id, 2);
    }
  }

  lemma DisplaysStay(attempts: map<Token, Attempt>, token: Token, a: Attempt, id: Id, n: nat)
    requires token !in attempts && IsShown(attempts, id, n)
    ensures IsShown(attempts[token := a], id, n)
  {
    var t :| IsPermit(attempts, t, id, n) && attempts[t].outcome.Delivered?;
    assert IsPermit(attempts[token := a], t, id, n);
  }

  lemma GrantKeepsLater(s: State, id: Id, device: Device, token: Token, now: Time)
    requires LaterOk(s.rows, s.feedback, s.since) && id in s.rows && id in s.advice && !s.rows[id].phase.Resolved?
    ensures var s' := Grant(s, id, device, token, now); LaterOk(s'.rows, s'.feedback, s'.since)
  {
    assert forall k :: IsUnresolved(Grant(s, id, device, token, now).rows, k) ==> IsUnresolved(s.rows, k);
  }

  lemma GrantKeepsInv(s: State, id: Id, device: Device, token: Token, now: Time)
    requires Inv(s) && token !in s.attempts
    requires id in s.rows && id in s.advice && s.rows[id].phase in {Pending, Waiting} && s.rows[id].count < 2
    ensures Inv(Grant(s, id, device, token, now))
  {
    hide RowsOk, OpenOk, NumbersOk, EarlyOk, LaterOk, AutoOk, SignalsOk;
    GrantKeepsOpen(s, id, device, token, now);
    GrantKeepsNumbers(s, id, device, token, now);
    GrantKeepsAuto(s, id, device, token, now);
    GrantKeepsLater(s, id, device, token, now);
  }

  lemma ClaimKeepsInv(s: State, device: Device, token: Token, now: Time, order: seq<Id>, paused: bool, muted: set<Id>, pick: Option<Id>)
    requires Inv(s) && IsOrder(order, Shown(BeforeClosing(s, now), now)) && token !in s.attempts
    requires IsPick(Sweep(s, now, order), now, muted, pick)
    ensures Inv(Claim(s, device, token, now, order, paused, pick))
  {
    hide Inv, Sweep, BeforeClosing, Shown, IsOrder, Moves, ExpireDeadlines, Grant;
    SweepKeepsInv(s, now, order);
    var s1 := Sweep(s, now, order);
    ExpireKeepsInv(s1, now);
    SameTokens(s.rows, s.attempts, s1.rows, s1.attempts);
    if pick.Some? && pick.value in s1.rows && pick.value in s1.advice {
      GrantKeepsInv(s1, pick.value, device, token, now);
    }
  }

  lemma SameTokens(rows: map<Id, Row>, attempts: map<Token, Attempt>, rows': map<Id, Row>, attempts': map<Token, Attempt>)
    requires Moves(rows, attempts, rows', attempts')
    ensures attempts'.Keys == attempts.Keys && rows'.Keys == rows.Keys
  {
    hide RowMoves, AttemptMoves;
  }

  // -------------------------------------------------------------- publication

  lemma PublishKeepsAnswers(s: State, id: Id, advice: Advice)
    requires CoverOk(s.advice, s.rows, s.feedback, s.since) && EarlyOk(s.feedback, s.since) && LaterOk(s.rows, s.feedback, s.since)
    requires id !in s.rows && advice.status.Active?
    ensures var s' := Publish(s, id, advice);
            CoverOk(s'.advice, s'.rows, s'.feedback, s'.since) && EarlyOk(s'.feedback, s'.since)
            && LaterOk(s'.rows, s'.feedback, s'.since)
  {
  }

  lemma PublishKeepsAuto(s: State, id: Id, advice: Advice)
    requires AutoOk(s.rows, s.attempts, s.feedback, s.since) && id !in s.rows
    ensures var s' := Publish(s, id, advice); AutoOk(s'.rows, s'.attempts, s'.feedback, s'.since)
  {
    hide IsShown, NoAnswerBetween;
    var s' := Publish(s, id, advice);
    forall i | 0 <= i < |s.feedback| && s.feedback[i].FromSystem?
      ensures IsEarned(s'.rows, s'.attempts, s.feedback, s'.since, i)
    {
      assert IsEarned(s.rows, s.attempts, s.feedback, s.since, i);
    }
  }

  lemma PublishKeepsTables(s: State, id: Id, advice: Advice)
    requires RowsOk(s.rows) && OpenOk(s.rows, s.attempts) && NumbersOk(s.rows, s.attempts) && id !in s.rows
    ensures var s' := Publish(s, id, advice); RowsOk(s'.rows) && OpenOk(s'.rows, s'.attempts) && NumbersOk(s'.rows, s'.attempts)
  {
  }

  lemma PublishKeepsInv(s: State, id: Id, advice: Advice)
    requires Inv(s) && id !in s.rows && advice.status.Active?
    ensures Inv(Publish(s, id, advice))
  {
    hide RowsOk, OpenOk, NumbersOk, CoverOk, EarlyOk, LaterOk, AutoOk, SignalsOk;
    PublishKeepsAnswers(s, id, advice);
    PublishKeepsAuto(s, id, advice);
    PublishKeepsTables(s, id, advice);
  }

  /** Steps on the advice alone. */
  lemma AdviceKeepsInv(s: State, advice: map<Id, Advice>)
    requires Inv(s) && s.rows.Keys <= advice.Keys
    requires forall id :: id in advice ==>
      && (advice[id].status.Active? ==> id in s.advice && s.advice[id].status.Active?)
      && (advice[id].status.Provisional? ==> id !in s.advice || s.advice[id].status.Provisional?)
    ensures Inv(s.(advice := advice))
  {
    hide RowsOk, OpenOk, NumbersOk, EarlyOk, LaterOk, AutoOk, SignalsOk;
  }

  lemma AdviceStepsKeepInv(s: State, id: Id, level: nat, deadline: Time)
    requires Inv(s)
    ensures Inv(Discard(s, id)) && Inv(Revise(s, id, level, deadline)) && Inv(Verify(s, id))
  {
    hide Inv;
    RowsAreOfAdvices(s);
    if id in s.advice {
      if s.advice[id].status.Provisional? { AdviceKeepsInv(s, s.advice - {id}); }
      AdviceKeepsInv(s, s.advice[id := s.advice[id].(level := level, deadline := deadline)]);
      AdviceKeepsInv(s, s.advice[id := s.advice[id].(status := Verified)]);
    }
  }

  lemma WithdrawKeepsInv(s: State, now: Time)
    requires Inv(s)
    ensures Inv(WithdrawExpired(s, now))
  {
    hide Inv, Expired;
    RowsAreOfAdvices(s);
    AdviceKeepsInv(s, WithdrawExpired(s, now).advice);
    ClockKeepsInv(s.(advice := WithdrawExpired(s, now).advice), now);
  }

  // ------------------------------------------------------------ the device's side

  lemma EndLeaseMoves(rows: map<Id, Row>, attempts: map<Token, Attempt>, id: Id, token: Token, row: Row, outcome: Outcome)
    requires RowsOk(rows) && OpenOk(rows, attempts) && id in rows && rows[id].lease.Some? && rows[id].lease.value.token == token
    requires token in attempts && RowMoves(rows[id], row) && row.lease.None? && !outcome.Open?
    ensures Moves(rows, attempts, rows[id := row], attempts[token := attempts[token].(outcome := outcome)])
  {
  }

  lemma EndLeaseKeepsInv(s: State, id: Id, token: Token, row: Row, outcome: Outcome)
    requires Inv(s) && id in s.rows && s.rows[id].lease.Some? && s.rows[id].lease.value.token == token
    requires token in s.attempts && RowMoves(s.rows[id], row) && row.lease.None? && !outcome.Open?
    ensures Inv(s.(rows := s.rows[id := row], attempts := s.attempts[token := s.attempts[token].(outcome := outcome)]))
  {
    hide Inv, Moves, OpenOk, RowsOk;
    InvTables(s);
    EndLeaseMoves(s.rows, s.attempts, id, token, row, outcome);
    MovesKeepInv(s, s.(rows := s.rows[id := row], attempts := s.attempts[token := s.attempts[token].(outcome := outcome)]));
  }

  lemma DeviceStepsKeepInv(s: State, id: Id, device: Device, token: Token, now: Time)
    requires Inv(s)
    ensures Inv(Complete(s, id, device, token, now).0) && Inv(Fail(s, id, device, token, now).0)
  {
    hide Inv, OpenOk, NumbersOk;
    ClockKeepsInv(s, now);
    var s1 := s.(clock := now);
    if Holds(s1, id, device, token) {
      InvTables(s1);
      assert RowOk(s1.rows[id]);
      hide RowsOk;
      var c, f := Complete(s, id, device, token, now).0, Fail(s, id, device, token, now).0;
      if c != s1 { EndLeaseKeepsInv(s1, id, token, c.rows[id], c.attempts[token].outcome); }
      if f != s1 { EndLeaseKeepsInv(s1, id, token, f.rows[id], f.attempts[token].outcome); }
    }
  }

  // ----------------------------------------------------------------- feedback

  lemma DeferMoves(s: State, id: Id, until: Option<Time>)
    requires RowsOk(s.rows) && OpenOk(s.rows, s.attempts)
    ensures var s' := Defer(s, id, until); Moves(s.rows, s.attempts, s'.rows, s'.attempts)
  {
    if id in s.rows { assert RowOk(s.rows[id]); }
    hide Mark, TokensOf, ResolveRows;
    ResolveMoves(s, {id});
    StillMoves(s.rows, s.attempts);
  }

  /** After an answer its reminder is resolved or marked "later". */
  lemma AnswerIsNoted(s: State, id: Id, kind: Kind, key: Option<string>)
    requires RowsOk(s.rows) && OpenOk(s.rows, s.attempts) && id in s.advice
    ensures var s' := Answered(s, id, kind, key);
            && Moves(s.rows, s.attempts, s'.rows, s'.attempts)
            && (IsUnresolved(s'.rows, id) ==> kind.Later? && s'.rows[id].later)
            && s'.feedback == s.feedback + [FromUser(id, kind, key)] && s'.since == s.since
  {
    hide Moves, RowsOk, OpenOk, Mark, TokensOf;
    DeferMoves(s, id, SnoozedUntil(s.advice[id].deadline, s.clock));
    ResolveMoves(s, {id});
  }

  lemma AnswerKeepsEarly(s: State, id: Id, kind: Kind, key: Option<string>)
    requires CoverOk(s.advice, s.rows, s.feedback, s.since) && EarlyOk(s.feedback, s.since) && id in s.advice
    requires kind.Guidance? || s.advice[id].status.Active?
    ensures EarlyOk(s.feedback + [FromUser(id, kind, key)], s.since)
  {
  }

  lemma AnswerKeepsLater(s: State, id: Id, kind: Kind, key: Option<string>)
    requires RowsOk(s.rows) && OpenOk(s.rows, s.attempts) && LaterOk(s.rows, s.feedback, s.since) && id in s.advice
    ensures var s' := Answered(s, id, kind, key); LaterOk(s'.rows, s'.feedback, s'.since)
  {
    hide OpenOk, RowsOk, Answered;
    AnswerIsNoted(s, id, kind, key);
    assert forall k :: k in s.rows ==> RowMoves(s.rows[k], Answered(s, id, kind, key).rows[k]);
  }

  lemma AnswerKeepsAuto(s: State, id: Id, kind: Kind, key: Option<string>)
    requires RowsOk(s.rows) && OpenOk(s.rows, s.attempts) && AutoOk(s.rows, s.attempts, s.feedback, s.since) && id in s.advice
    ensures var s' := Answered(s, id, kind, key); AutoOk(s'.rows, s'.attempts, s'.feedback, s'.since)
  {
    hide OpenOk, RowsOk, Answered, IsEarned, Moves;
    AnswerIsNoted(s, id, kind, key);
    var s' := Answered(s, id, kind, key);
    assert s'.feedback[..|s.feedback|] == s.feedback;
    forall i | 0 <= i < |s'.feedback| && s'.feedback[i].FromSystem?
      ensures IsEarned(s'.rows, s'.attempts, s'.feedback, s'.since, i)
    {
      EarnedStays(s, s'.rows, s'.attempts, s'.feedback, i);
    }
  }

  lemma AnswerKeepsCover(s: State, id: Id, kind: Kind, key: Option<string>)
    requires CoverOk(s.advice, s.rows, s.feedback, s.since) && id in s.advice
    ensures var s' := Answered(s, id, kind, key); CoverOk(s'.advice, s'.rows, s'.feedback, s'.since)
  {
    hide Mark, TokensOf, CoverOk;
    WrittenKeepsCover(s, id, kind, key);
    CoverIsKept(Written(s, id, kind, key), id, SnoozedUntil(s.advice[id].deadline, s.clock));
  }

  lemma WrittenKeepsCover(s: State, id: Id, kind: Kind, key: Option<string>)
    requires CoverOk(s.advice, s.rows, s.feedback, s.since) && id in s.advice
    ensures var s' := Written(s, id, kind, key); CoverOk(s'.advice, s'.rows, s'.feedback, s'.since)
  {
  }

  lemma CoverIsKept(s: State, id: Id, until: Option<Time>)
    requires CoverOk(s.advice, s.rows, s.feedback, s.since)
    ensures var s' := Resolve(s, {id}); CoverOk(s'.advice, s'.rows, s'.feedback, s'.since)
    ensures var s' := Defer(s, id, until); CoverOk(s'.advice, s'.rows, s'.feedback, s'.since)
  {
    hide Mark, TokensOf;
  }

  lemma AnswerKeepsRest(s: State, id: Id, kind: Kind, key: Option<string>)
    requires Inv(s) && id in s.advice
    ensures var s' := Answered(s, id, kind, key);
            CoverOk(s'.advice, s'.rows, s'.feedback, s'.since) && SignalsOk(s'.feedback, s'.signals)
  {
    hide Inv, Mark, TokensOf, CoverOk;
    InvAnswers(s);
    var s' := Answered(s, id, kind, key);
    assert forall k :: FromSystem(k) in s'.feedback <==> FromSystem(k) in s.feedback;
    AnswerKeepsCover(s, id, kind, key);
  }

  lemma AnswerKeepsInv(s: State, id: Id, kind: Kind, key: Option<string>)
    requires Inv(s) && id in s.advice && (kind.Guidance? || s.advice[id].status.Active?)
    ensures Inv(Answered(s, id, kind, key))
  {
    hide RowsOk, OpenOk, NumbersOk, CoverOk, EarlyOk, LaterOk, AutoOk, SignalsOk, Answered, Moves;
    var s' := Answered(s, id, kind, key);
    AnswerIsNoted(s, id, kind, key);
    AnswerKeepsEarly(s, id, kind, key);
    AnswerKeepsLater(s, id, kind, key);
    AnswerKeepsAuto(s, id, kind, key);
    AnswerKeepsRest(s, id, kind, key);
    MovesKeepRows(s.rows, s.attempts, s'.rows, s'.attempts);
    MovesKeepOpen(s.rows, s.attempts, s'.rows, s'.attempts);
    MovesKeepNumbers(s.rows, s.attempts, s'.rows, s'.attempts);
  }

  lemma FeedbackKeepsInv(s: State, id: Id, kind: Kind, key: Option<string>, now: Time, quota: Option<nat>, guidanceQuota: Option<nat>)
    requires Inv(s)
    ensures Inv(Feedback(s, id, kind, key, now, quota, guidanceQuota).0)
  {
    hide Inv, Answered;
    ClockKeepsInv(s, now);
    if Verdict(s.(clock := now), id, kind, key, quota, guidanceQuota).Recorded? {
      AnswerKeepsInv(s.(clock := now), id, kind, key);
    }
  }

  // --------------------------------------------------------------- whole runs

  datatype Op =
    | OpPublish(id: Id, advice: Advice)
    | OpDraft(id: Id, advice: Advice)
    | OpPromote(id: Id, advice: Advice)
    | OpDiscard(id: Id)
    | OpRevise(id: Id, level: nat, deadline: Time)
    | OpVerify(id: Id)
    | OpWithdraw(now: Time)
    | OpSweep(now: Time, order: seq<Id>)
    | OpClaim(device: Device, token: Token, now: Time, order: seq<Id>, paused: bool, muted: set<Id>, pick: Option<Id>)
    | OpComplete(id: Id, device: Device, token: Token, now: Time)
    | OpFail(id: Id, device: Device, token: Token, now: Time)
    | OpFeedback(id: Id, kind: Kind, key: Option<string>, now: Time, quota: Option<nat>, guidanceQuota: Option<nat>)

  /** New advices and tokens are new; a claim takes the candidate that comes first. */
  ghost predicate Enabled(s: State, op: Op) {
    match op
    case OpPublish(id, advice) => id !in s.advice && advice.status.Active?
    case OpDraft(id, advice) => id !in s.advice && advice.status.Provisional?
    case OpSweep(now, order) => IsOrder(order, Shown(BeforeClosing(s, now), now))
    case OpClaim(device, token, now, order, paused, muted, pick) =>
      && IsOrder(order, Shown(BeforeClosing(s, now), now)) && token !in s.attempts
      && IsPick(Sweep(s, now, order), now, muted, pick)
    case _ => true
  }

  ghost function Step(s: State, op: Op): State {
    match op
    case OpPublish(id, advice) => Publish(s, id, advice)
    case OpDraft(id, advice) => Draft(s, id, advice)
    case OpPromote(id, advice) => Promote(s, id, advice)
    case OpDiscard(id) => Discard(s, id)
    case OpRevise(id, level, deadline) => Revise(s, id, level, deadline)
    case OpVerify(id) => Verify(s, id)
    case OpWithdraw(now) => WithdrawExpired(s, now)
    case OpSweep(now, order) => Sweep(s, now, order)
    case OpClaim(device, token, now, order, paused, muted, pick) => Claim(s, device, token, now, order, paused, pick)
    case OpComplete(id, device, token, now) => Complete(s, id, device, token, now).0
    case OpFail(id, device, token, now) => Fail(s, id, device, token, now).0
    case OpFeedback(id, kind, key, now, quota, guidanceQuota) => Feedback(s, id, kind, key, now, quota, guidanceQuota).0
  }

  lemma StepKeepsInv(s: State, op: Op)
    requires Inv(s) && Enabled(s, op)
    ensures Inv(Step(s, op))
  {
    hide Inv, CoverOk, EarlyOk, LaterOk, AutoOk, SignalsOk, IsOrder, IsPick, Shown, BeforeClosing, Sweep, Claim, Complete, Fail, Feedback, Publish;
    RowsAreOfAdvices(s);
    match op
    case OpPublish(id, advice) => PublishKeepsInv(s, id, advice);
    case OpDraft(id, advice) => AdviceKeepsInv(s, s.advice[id := advice]);
    case OpPromote(id, advice) =>
      if id in s.advice && s.advice[id].status.Provisional? { PublishKeepsInv(s, id, advice.(status := Active)); }
    case OpDiscard(id) => AdviceStepsKeepInv(s, id, 0, 0);
    case OpRevise(id, level, deadline) => AdviceStepsKeepInv(s, id, level, deadline);
    case OpVerify(id) => AdviceStepsKeepInv(s, id, 0, 0);
    case OpWithdraw(now) => WithdrawKeepsInv(s, now);
    case OpSweep(now, order) => SweepKeepsInv(s, now, order);
    case OpClaim(device, token, now, order, paused, muted, pick) => ClaimKeepsInv(s, device, token, now, order, paused, muted, pick);
    case OpComplete(id, device, token, now) => DeviceStepsKeepInv(s, id, device, token, now);
    case OpFail(id, device, token, now) => DeviceStepsKeepInv(s, id, device, token, now);
    case OpFeedback(id, kind, key, now, quota, guidanceQuota) => FeedbackKeepsInv(s, id, kind, key, now, quota, guidanceQuota);
  }

  lemma RowsAreOfAdvices(s: State)
    requires Inv(s)
    ensures s.rows.Keys <= s.advice.Keys
    ensures forall id :: id in s.advice && s.advice[id].status.Provisional? ==> id !in s.rows
  {
    hide RowsOk, OpenOk, NumbersOk, EarlyOk, LaterOk, AutoOk, SignalsOk;
  }

  ghost predicate IsRun(run: seq<State>, ops: seq<Op>) {
    && |run| == |ops| + 1 && run[0] == State(run[0].clock, map[], map[], map[], [], map[], map[])
    && forall i :: 0 <= i < |ops| ==> Enabled(run[i], ops[i]) && run[i + 1] == Step(run[i], ops[i])
  }

  lemma {:induction false} EveryRunKeepsInv(run: seq<State>, ops: seq<Op>, n: nat)
    requires IsRun(run, ops) && n < |run|
    ensures Inv(run[n])
  {
    hide Inv, Step, Enabled;
    if n == 0 {
      EmptyIsFine(run[0]);
    } else {
      EveryRunKeepsInv(run, ops, n - 1);
      assert Enabled(run[n - 1], ops[n - 1]) && run[n - 1 + 1] == Step(run[n - 1], ops[n - 1]);
      StepKeepsInv(run[n - 1], ops[n - 1]);
    }
  }

  lemma EmptyIsFine(s: State)
    requires s == State(s.clock, map[], map[], map[], [], map[], map[])
    ensures Inv(s)
  {
  }
}
