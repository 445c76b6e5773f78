/** The advice table as the gate uses it. Every method is proved to take exactly the step of
    `PublishGate` it is named after. */
module PublishBoard {
  import opened Basics
  import opened PublishGate

  class Board {
    var published: seq<Publish>
    var drafts: map<Id, Record>

    ghost function View(): State
      reads this
    {
      State(published, drafts)
    }

    constructor ()
      ensures View() == State([], map[])
    {
      published, drafts := [], map[];
    }

    method PublishedCount(since: Time, goal: Option<Goal>) returns (count: nat)
      ensures count == CountSince(published, since, goal)
    {
      count := 0;
      for i := 0 to |published|
        invariant count == CountSince(published[..i], since, goal)
      {
        assert published[..i + 1][..i] == published[..i];
        if published[i].at >= since && IsAbout(published[i], goal) { count := count + 1; }
      }
      assert published[..|published|] == published;
    }

    /** The latest publish of a goal. */
    method LastPublished(goal: Option<Goal>) returns (last: Option<Time>)
      ensures last.Some? ==> exists i :: 0 <= i < |published| && published[i].goal == goal && published[i].at == last.value
      ensures forall i :: 0 <= i < |published| && published[i].goal == goal ==> last.Some? && published[i].at <= last.value
    {
      last := None;
      for i := 0 to |published|
        invariant last.Some? ==> exists j :: 0 <= j < i && published[j].goal == goal && published[j].at == last.value
        invariant forall j :: 0 <= j < i && published[j].goal == goal ==> last.Some? && published[j].at <= last.value
      {
        if published[i].goal == goal && (last.None? || last.value < published[i].at) { last := Some(published[i].at); }
      }
    }

    method Full(policy: Policy, now: Time, goal: Option<Goal>) returns (full: bool)
      ensures full == IsFull(published, policy, now, goal)
    {
      if policy.most.None? { return false; }
      var count := PublishedCount(now - policy.window, goal);
      return count >= policy.most.value;
    }

    /** `_advice_publish_block_locked` */
    method CheckGate(pref: Preference, r: Record, now: Time) returns (block: Option<Reason>)
      ensures block == Block(pref, published, r, now)
    {
      hide IsFull;
      var mode := ModeFor(pref, r.goal);
      if pref.general.Paused? || mode.Paused? { return Some(IsPaused); }
      if (pref.general.ImportantOnly? || mode.ImportantOnly?) && r.level < L3 { return Some(NotImportant); }
      if r.exempt { return None; }
      var full := Full(PolicyOf(pref.general), now, None);
      if full { return Some(GlobalLimit); }
      if r.goal.None? { return None; }
      if PolicyOf(mode).cooldown != 0 {
        var last := LastPublished(r.goal);
        if last.Some? && now - last.value < PolicyOf(mode).cooldown { return Some(GoalCooldown); }
      }
      if Override(pref, r.goal).Some? {
        full := Full(PolicyOf(Override(pref, r.goal).value), now, r.goal);
        if full { return Some(GoalLimit); }
      }
      return None;
    }

    method Insert(pref: Preference, id: Id, r: Record, active: bool, enforce: bool, duplicate: bool, now: Time)
      returns (refusal: Option<Reason>)
      modifies this
      ensures (View(), refusal) == PublishGate.Insert(old(View()), pref, id, r, active, enforce, duplicate, now)
    {
      hide Block;
      refusal := None;
      if active && enforce { refusal := CheckGate(pref, r, now); }
      if refusal.Some? { return; }
      if duplicate { return Some(Duplicate); }
      if active {
        published := published + [Publish(id, r.goal, now, IsEnforced(r, enforce))];
      } else {
        drafts := drafts[id := r];
      }
    }

    method Promote(pref: Preference, id: Id, r: Record, enforce: bool, now: Time) returns (refusal: Option<Reason>)
      modifies this
      ensures (View(), refusal) == PublishGate.Promote(old(View()), pref, id, r, enforce, now)
    {
      hide Block;
      refusal := None;
      if enforce { refusal := CheckGate(pref, r, now); }
      if refusal.Some? { return; }
      if id !in drafts { return Some(NotFound); }
      published, drafts := published + [Publish(id, r.goal, now, IsEnforced(r, enforce))], drafts - {id};
    }
  }
}
