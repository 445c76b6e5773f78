/** The publish-frequency gate of one tenant: quotas and spacing, checked in the transaction that
    publishes, whether an advice is inserted active or promoted from a draft. */
module PublishGate {
  import opened Basics

  type Id = string
  type Goal = string

  datatype Mode = Lively | Balanced | Quiet | ImportantOnly | Paused

  datatype Policy = Policy(most: Option<nat>, window: Time, cooldown: Time)

  /** The table of named policies. */
  function PolicyOf(mode: Mode): Policy {
    match mode
    case Lively => Policy(Some(8), DAY, HOUR)
    case Balanced => Policy(Some(3), DAY, 4 * HOUR)
    case Quiet => Policy(Some(1), DAY, 12 * HOUR)
    case ImportantOnly => Policy(None, DAY, 0)
    case Paused => Policy(Some(0), DAY, 0)
  }

  datatype Preference = Preference(general: Mode, overrides: map<Goal, Mode>)

  /** `manual` and emergency advice is exempt from numbers, not from a pause or a level floor. */
  datatype Record = Record(goal: Option<Goal>, level: nat, exempt: bool)

  /** `gated` says that the numbers were checked for it. */
  datatype Publish = Publish(id: Id, goal: Option<Goal>, at: Time, gated: bool)

  datatype Reason = IsPaused | NotImportant | GlobalLimit | GoalCooldown | GoalLimit | NotFound | Duplicate

  const L3 := 3

  function Override(pref: Preference, goal: Option<Goal>): Option<Mode> {
    if goal.Some? && goal.value in pref.overrides then Some(pref.overrides[goal.value]) else None
  }

  /** The mode a goal works under. */
  function ModeFor(pref: Preference, goal: Option<Goal>): Mode {
    if Override(pref, goal).Some? then Override(pref, goal).value else pref.general
  }

  predicate IsAbout(p: Publish, goal: Option<Goal>) {
    goal.None? || p.goal == goal
  }

  /** Publishes since an instant, all or of one goal; there is no upper bound on the instant. */
  function CountSince(published: seq<Publish>, since: Time, goal: Option<Goal>): nat {
    if published == [] then 0
    else
      var n := |published| - 1;
      CountSince(published[..n], since, goal) + if published[n].at >= since && IsAbout(published[n], goal) then 1 else 0
  }

  predicate IsFull(published: seq<Publish>, policy: Policy, now: Time, goal: Option<Goal>) {
    policy.most.Some? && CountSince(published, now - policy.window, goal) >= policy.most.value
  }

  /** Some earlier publish of the goal is nearer than the cooldown. */
  predicate IsCooling(published: seq<Publish>, cooldown: Time, now: Time, goal: Option<Goal>) {
    cooldown != 0 && exists i :: 0 <= i < |published| && published[i].goal == goal && now - published[i].at < cooldown
  }

  /** `_advice_publish_block_locked` */
  function Block(pref: Preference, published: seq<Publish>, r: Record, now: Time): Option<Reason> {
    var mode, override := ModeFor(pref, r.goal), Override(pref, r.goal);
    if pref.general.Paused? || mode.Paused? then Some(IsPaused)
    else if (pref.general.ImportantOnly? || mode.ImportantOnly?) && r.level < L3 then Some(NotImportant)
    else if r.exempt then None
    else if IsFull(published, PolicyOf(pref.general), now, None) then Some(GlobalLimit)
    else if r.goal.None? then None
    else if IsCooling(published, PolicyOf(mode).cooldown, now, r.goal) then Some(GoalCooldown)
    else if override.Some? && IsFull(published, PolicyOf(override.value), now, r.goal) then Some(GoalLimit)
    else None
  }

  /** The advice table, in two parts: what is published, in the order it was, and the drafts. */
  datatype State = State(published: seq<Publish>, drafts: map<Id, Record>)

  predicate IsEnforced(r: Record, enforce: bool) {
    enforce && !r.exempt
  }

  /** `insert_advice`; `duplicate` stands for the unique indexes on evidence and topic. */
  function Insert(s: State, pref: Preference, id: Id, r: Record, active: bool, enforce: bool, duplicate: bool, now: Time)
    : (State, Option<Reason>)
  {
    var block := if active && enforce then Block(pref, s.published, r, now) else None;
    if block.Some? then (s, block)
    else if duplicate then (s, Some(Duplicate))
    else if active then (s.(published := s.published + [Publish(id, r.goal, now, IsEnforced(r, enforce))]), None)
    else (s.(drafts := s.drafts[id := r]), None)
  }

  /** `promote_advice`; the reviewed record may differ from the draft, not in its goal. */
  function Promote(s: State, pref: Preference, id: Id, r: Record, enforce: bool, now: Time): (State, Option<Reason>) {
    var block := if enforce then Block(pref, s.published, r, now) else None;
    if block.Some? then (s, block)
    else if id !in s.drafts then (s, Some(NotFound))
    else
      (State(s.published + [Publish(id, r.goal, now, IsEnforced(r, enforce))], s.drafts - {id}), None)
  }

  // ------------------------------------------------------------------ whole runs

  datatype Op =
    | OpInsert(id: Id, r: Record, active: bool, enforce: bool, duplicate: bool, now: Time)
    | OpPromote(id: Id, r: Record, enforce: bool, now: Time)
    | OpDiscard(id: Id)

  function Step(s: State, pref: Preference, op: Op): State {
    match op
    case OpInsert(id, r, active, enforce, duplicate, now) => Insert(s, pref, id, r, active, enforce, duplicate, now).0
    case OpPromote(id, r, enforce, now) => Promote(s, pref, id, r, enforce, now).0
    case OpDiscard(id) => s.(drafts := s.drafts - {id})
  }

  ghost predicate IsRun(pref: Preference, run: seq<State>, ops: seq<Op>) {
    && |run| == |ops| + 1 && run[0].published == []
    && forall i :: 0 <= i < |ops| ==> run[i + 1] == Step(run[i], pref, ops[i])
  }

  /** Nothing the gate would have stopped. */
  predicate Passes(pref: Preference, before: seq<Publish>, p: Publish) {
    && !IsFull(before, PolicyOf(pref.general), p.at, None)
    && (p.goal.Some? ==> !IsCooling(before, PolicyOf(ModeFor(pref, p.goal)).cooldown, p.at, p.goal))
    && (Override(pref, p.goal).Some? ==> !IsFull(before, PolicyOf(Override(pref, p.goal).value), p.at, p.goal))
  }

  /** Every gated publish passed, against what was published before it. */
  ghost predicate GateOk(pref: Preference, published: seq<Publish>) {
    forall i :: 0 <= i < |published| && published[i].gated ==> Passes(pref, published[..i], published[i])
  }

  lemma StepKeepsGate(s: State, pref: Preference, op: Op)
    requires GateOk(pref, s.published)
    ensures GateOk(pref, Step(s, pref, op).published)
  {
    hide IsFull, IsCooling;
    var after := Step(s, pref, op).published;
    forall i | 0 <= i < |after| && after[i].gated ensures Passes(pref, after[..i], after[i]) {
      if i < |s.published| {
        assert after[..i] == s.published[..i] && after[i] == s.published[i];
      } else {
        assert after[..i] == s.published;
      }
    }
  }

  lemma {:induction false} EveryRunKeepsGate(pref: Preference, run: seq<State>, ops: seq<Op>, n: nat)
    requires IsRun(pref, run, ops) && n < |run|
    ensures GateOk(pref, run[n].published)
  {
    if n > 0 {
      EveryRunKeepsGate(pref, run, ops, n - 1);
      assert run[n - 1 + 1] == Step(run[n - 1], pref, ops[n - 1]);
      StepKeepsGate(run[n - 1], pref, ops[n - 1]);
    }
  }

  /** The gated publishes between two instants. */
  function GatedIn(published: seq<Publish>, from: Time, to: Time, goal: Option<Goal>): nat {
    if published == [] then 0
    else
      var n := |published| - 1;
      GatedIn(published[..n], from, to, goal)
      + if published[n].gated && from <= published[n].at <= to && IsAbout(published[n], goal) then 1 else 0
  }

  lemma {:induction false} GatedAreCounted(published: seq<Publish>, from: Time, to: Time, since: Time, goal: Option<Goal>)
    requires since <= from
    ensures GatedIn(published, from, to, goal) <= CountSince(published, since, goal)
  {
    if published != [] { GatedAreCounted(published[..|published| - 1], from, to, since, goal); }
  }

  /** A policy met by every gated publish bounds every window, in whatever order the clock ran. */
  lemma {:induction false} WindowIsBounded(published: seq<Publish>, policy: Policy, goal: Option<Goal>, t: Time)
    requires policy.most.Some?
    requires forall i :: 0 <= i < |published| && published[i].gated && IsAbout(published[i], goal) ==>
      !IsFull(published[..i], policy, published[i].at, goal)
    ensures GatedIn(published, t - policy.window, t, goal) <= policy.most.value
  {
    if published != [] {
      var n := |published| - 1;
      var before, last := published[..n], published[n];
      assert forall i :: 0 <= i < n ==> before[i] == published[i] && before[..i] == published[..i];
      WindowIsBounded(before, policy, goal, t);
      if last.gated && t - policy.window <= last.at <= t && IsAbout(last, goal) {
        GatedAreCounted(before, t - policy.window, t, last.at - policy.window, goal);
      }
    }
  }

  /** With an unchanging preference no window of the general policy holds more publishes than its quota,
      but for exempt ones; a goal with its own policy is bounded by that one as well. */
  lemma QuotaHoldsInEveryWindow(pref: Preference, run: seq<State>, ops: seq<Op>, n: nat, goal: Goal, t: Time)
    requires IsRun(pref, run, ops) && n < |run|
    ensures var policy := PolicyOf(pref.general);
            policy.most.Some? ==> GatedIn(run[n].published, t - policy.window, t, None) <= policy.most.value
    ensures goal in pref.overrides ==>
            var policy := PolicyOf(pref.overrides[goal]);
            policy.most.Some? ==> GatedIn(run[n].published, t - policy.window, t, Some(goal)) <= policy.most.value
  {
    hide IsFull, IsCooling;
    EveryRunKeepsGate(pref, run, ops, n);
    hide IsRun;
    var published := run[n].published;
    forall i | 0 <= i < |published| && published[i].gated ensures Passes(pref, published[..i], published[i]) {}
    if PolicyOf(pref.general).most.Some? { WindowIsBounded(published, PolicyOf(pref.general), None, t); }
    if goal in pref.overrides && PolicyOf(pref.overrides[goal]).most.Some? {
      assert Override(pref, Some(goal)) == Some(pref.overrides[goal]);
      WindowIsBounded(published, PolicyOf(pref.overrides[goal]), Some(goal), t);
    }
  }

  /** A gated publish of a goal comes at least the cooldown after every earlier one of that goal,
      exempt ones included. */
  lemma PublishesAreSpaced(pref: Preference, run: seq<State>, ops: seq<Op>, n: nat, i: nat, j: nat)
    requires IsRun(pref, run, ops) && n < |run| && i < j < |run[n].published|
    requires run[n].published[j].gated && run[n].published[j].goal.Some?
    requires run[n].published[i].goal == run[n].published[j].goal
    ensures run[n].published[j].at - run[n].published[i].at
         >= PolicyOf(ModeFor(pref, run[n].published[j].goal)).cooldown
         || PolicyOf(ModeFor(pref, run[n].published[j].goal)).cooldown == 0
  {
    hide IsFull;
    EveryRunKeepsGate(pref, run, ops, n);
    var published := run[n].published;
    assert Passes(pref, published[..j], published[j]);
    assert published[..j][i] == published[i];
  }

  /** While everything is paused nothing is published under the gate, not even what is exempt. */
  lemma PauseStopsEverything(s: State, pref: Preference, op: Op)
    requires pref.general.Paused? && !op.OpDiscard? && op.enforce
    ensures Step(s, pref, op).published == s.published
  {
  }
}
