/** What the gate lets through, what it stops, and the reason it gives. */
module PublishAnswers {
  import opened Basics
  import opened PublishGate

  /** The account as a whole, or the goal in particular, is set to `mode`. */
  predicate IsSetTo(pref: Preference, goal: Option<Goal>, mode: Mode) {
    pref.general == mode || (goal.Some? && goal.value in pref.overrides && pref.overrides[goal.value] == mode)
  }

  /** The publishes since an instant, of all goals or of one. */
  function Since(published: seq<Publish>, since: Time, goal: Option<Goal>): set<nat> {
    set i: nat | i < |published| && published[i].at >= since && (goal.Some? ==> published[i].goal == goal)
  }

  lemma {:induction false} SinceIsCounted(published: seq<Publish>, since: Time, goal: Option<Goal>)
    ensures CountSince(published, since, goal) == |Since(published, since, goal)|
  {
    if published != [] {
      var n := |published| - 1;
      SinceIsCounted(published[..n], since, goal);
      assert Since(published, since, goal)
          == Since(published[..n], since, goal) + (if published[n].at >= since && IsAbout(published[n], goal) then {n} else {});
    }
  }

  /** One more fits what a mode allows. */
  predicate HasRoom(published: seq<Publish>, mode: Mode, goal: Option<Goal>, now: Time) {
    PolicyOf(mode).most.Some? ==> |Since(published, now - PolicyOf(mode).window, goal)| < PolicyOf(mode).most.value
  }

  lemma RoomIsRoom(published: seq<Publish>, mode: Mode, goal: Option<Goal>, now: Time)
    ensures HasRoom(published, mode, goal, now) <==> !IsFull(published, PolicyOf(mode), now, goal)
  {
    hide CountSince, Since;
    SinceIsCounted(published, now - PolicyOf(mode).window, goal);
  }

  /** The last publish of the goal is long enough ago for the mode. */
  ghost predicate IsRested(published: seq<Publish>, mode: Mode, goal: Goal, now: Time) {
    PolicyOf(mode).cooldown > 0 ==>
      forall i :: 0 <= i < |published| && published[i].goal == Some(goal) ==> published[i].at + PolicyOf(mode).cooldown <= now
  }

  /** What the preference asks of the numbers. */
  ghost predicate NumbersAllow(pref: Preference, published: seq<Publish>, goal: Option<Goal>, now: Time) {
    && HasRoom(published, pref.general, None, now)
    && (goal.Some? && goal.value !in pref.overrides ==> IsRested(published, pref.general, goal.value, now))
    && (goal.Some? && goal.value in pref.overrides ==>
          && IsRested(published, pref.overrides[goal.value], goal.value, now)
          && HasRoom(published, pref.overrides[goal.value], goal, now))
  }

  /** What the preference allows to be published now. */
  ghost predicate Allows(pref: Preference, published: seq<Publish>, r: Record, now: Time) {
    && !IsSetTo(pref, r.goal, Paused)
    && (IsSetTo(pref, r.goal, ImportantOnly) ==> r.level >= 3)
    && (r.exempt || NumbersAllow(pref, published, r.goal, now))
  }

  /** The gate stops exactly what the preference does not allow, and the reason it gives is true. */
  lemma GateStopsExactlyWhen(pref: Preference, published: seq<Publish>, r: Record, now: Time)
    ensures Block(pref, published, r, now).None? <==> Allows(pref, published, r, now)
    ensures match Block(pref, published, r, now)
            case Some(IsPaused) => IsSetTo(pref, r.goal, Paused)
            case Some(NotImportant) => IsSetTo(pref, r.goal, ImportantOnly) && r.level < 3
            case Some(GlobalLimit) => !r.exempt && !HasRoom(published, pref.general, None, now)
            case Some(GoalCooldown) =>
              && !r.exempt && r.goal.Some?
              && !IsRested(published, if r.goal.value in pref.overrides then pref.overrides[r.goal.value] else pref.general,
                           r.goal.value, now)
            case Some(GoalLimit) =>
              && !r.exempt && r.goal.Some? && r.goal.value in pref.overrides
              && !HasRoom(published, pref.overrides[r.goal.value], r.goal, now)
            case Some(_) => false
            case None => true
  {
    hide IsFull, HasRoom;
    RoomIsRoom(published, pref.general, None, now);
    if r.goal.Some? && r.goal.value in pref.overrides { RoomIsRoom(published, pref.overrides[r.goal.value], r.goal, now); }
  }

  /** A publish is added at the end, at this instant and under its goal; anything else is left as it was. */
  ghost predicate IsAdded(before: seq<Publish>, after: seq<Publish>, id: Id, r: Record, enforce: bool, now: Time) {
    && |after| == |before| + 1 && after[..|before|] == before
    && after[|before|].id == id && after[|before|].goal == r.goal && after[|before|].at == now
    && (after[|before|].gated <==> enforce && !r.exempt)
  }

  /** An insertion succeeds exactly when no unique index is against it and, if it publishes under the gate,
      the preference allows it; a draft is never counted. */
  lemma InsertedExactlyWhen(s: State, pref: Preference, id: Id, r: Record, active: bool, enforce: bool, duplicate: bool, now: Time)
    ensures var (after, refusal) := Insert(s, pref, id, r, active, enforce, duplicate, now);
            && (refusal.None? <==> !duplicate && (active && enforce ==> Allows(pref, s.published, r, now)))
            && (refusal.Some? ==> after == s)
            && (refusal.None? && active ==>
                  IsAdded(s.published, after.published, id, r, enforce, now) && after.drafts == s.drafts)
            && (refusal.None? && !active ==> after.published == s.published && after.drafts == s.drafts[id := r])
            && (refusal == Some(Duplicate) ==> duplicate) && refusal != Some(NotFound)
  {
    hide Block, Allows;
    GateStopsExactlyWhen(pref, s.published, r, now);
  }

  /** A promotion succeeds exactly when there is such a draft and, under the gate, the preference allows
      it; it takes the draft away. */
  lemma PromotedExactlyWhen(s: State, pref: Preference, id: Id, r: Record, enforce: bool, now: Time)
    ensures var (after, refusal) := Promote(s, pref, id, r, enforce, now);
            && (refusal.None? <==> id in s.drafts && (enforce ==> Allows(pref, s.published, r, now)))
            && (refusal.Some? ==> after == s)
            && (refusal.None? ==>
                  IsAdded(s.published, after.published, id, r, enforce, now) && after.drafts == s.drafts - {id})
            && (refusal == Some(NotFound) ==> id !in s.drafts) && refusal != Some(Duplicate)
  {
    hide Block, Allows;
    GateStopsExactlyWhen(pref, s.published, r, now);
  }

  /** Set to important only, nothing below the third level is published under the gate, exempt or not;
      nothing else is refused for its level, and no number bounds the account as a whole. */
  lemma ImportantOnlyIsAFloor(s: State, pref: Preference, id: Id, r: Record, duplicate: bool, now: Time)
    requires pref.general.ImportantOnly?
    ensures var inserted, promoted := Insert(s, pref, id, r, true, true, duplicate, now), Promote(s, pref, id, r, true, now);
            && (r.level < 3 ==> inserted.0 == s && promoted.0 == s)
            && (r.level >= 3 ==> inserted.1 != Some(NotImportant) && promoted.1 != Some(NotImportant))
            && inserted.1 != Some(GlobalLimit) && promoted.1 != Some(GlobalLimit)
            && (r.goal.Some? && r.goal.value !in pref.overrides ==>
                  inserted.1 != Some(GoalCooldown) && promoted.1 != Some(GoalCooldown))
  {
    hide Block, Since;
    GateStopsExactlyWhen(pref, s.published, r, now);
  }

  /** A discarded draft cannot be promoted any more; nothing published is touched. */
  lemma DiscardedIsGone(s: State, pref: Preference, id: Id, r: Record, enforce: bool, now: Time)
    ensures var after := Step(s, pref, OpDiscard(id));
            after.published == s.published && after.drafts.Keys == s.drafts.Keys - {id}
            && Promote(after, pref, id, r, enforce, now).0 == after
  {
    hide Block;
  }

  /** In numbers: lively, balanced and quiet accounts get at most eight, three and one advice in any day. */
  lemma DailyNumbers(pref: Preference, run: seq<State>, ops: seq<Op>, n: nat, t: Time)
    requires IsRun(pref, run, ops) && n < |run|
    ensures pref.general.Lively? ==> GatedIn(run[n].published, t - DAY, t, None) <= 8
    ensures pref.general.Balanced? ==> GatedIn(run[n].published, t - DAY, t, None) <= 3
    ensures pref.general.Quiet? ==> GatedIn(run[n].published, t - DAY, t, None) <= 1
  {
    hide IsRun, GatedIn;
    QuotaHoldsInEveryWindow(pref, run, ops, n, "", t);
  }

  /** And two of one goal are at least one, four and twelve hours apart. */
  lemma HoursApart(pref: Preference, run: seq<State>, ops: seq<Op>, n: nat, i: nat, j: nat, goal: Goal)
    requires IsRun(pref, run, ops) && n < |run| && i < j < |run[n].published| && run[n].published[j].gated
    requires run[n].published[i].goal == run[n].published[j].goal == Some(goal) && goal !in pref.overrides
    ensures var apart := run[n].published[j].at - run[n].published[i].at;
            && (pref.general.Lively? ==> apart >= HOUR)
            && (pref.general.Balanced? ==> apart >= 4 * HOUR)
            && (pref.general.Quiet? ==> apart >= 12 * HOUR)
  {
    hide IsRun;
    PublishesAreSpaced(pref, run, ops, n, i, j);
  }
}
