/** What devices and users are answered, and what becomes of each advice, reminder and attempt. */
module AttentionAnswers {
  import opened Basics
  import opened Attention

  // ------------------------------------------------------------------ feedback

  predicate IsRejection(kind: Kind) {
    kind in {Irrelevant, FactError, PredictionError, TimingError, Dismiss, StopTopic}
  }

  /** The user has said this of the advice before. */
  ghost predicate WasSaid(s: State, id: Id, kind: Kind) {
    exists key :: FromUser(id, kind, key) in s.feedback
  }

  /** The feedback id was used before, for whatever it was. */
  ghost predicate WasUsed(s: State, key: Option<string>) {
    key.Some? && exists id, kind :: FromUser(id, kind, key) in s.feedback
  }

  /** The user's notes on the advice, by their places. */
  function GuidanceOn(s: State, id: Id): set<nat> {
    set i: nat | i < |s.feedback| && s.feedback[i].FromUser? && s.feedback[i].id == id && s.feedback[i].kind.Guidance?
  }

  lemma {:induction false} GuidanceIsCounted(s: State, id: Id)
    ensures Guidances(s.feedback, id) == |GuidanceOn(s, id)|
    decreases |s.feedback|
  {
    if s.feedback != [] {
      var n := |s.feedback| - 1;
      var before, last := s.(feedback := s.feedback[..n]), s.feedback[n];
      GuidanceIsCounted(before, id);
      assert GuidanceOn(s, id) == GuidanceOn(before, id)
        + (if last.FromUser? && last.id == id && last.kind.Guidance? then {n} else {});
    }
  }

  lemma SaidIsGiven(s: State, id: Id, kind: Kind)
    ensures IsGiven(s.feedback, id, kind) <==> WasSaid(s, id, kind)
  {
    if IsGiven(s.feedback, id, kind) {
      var i :| 0 <= i < |s.feedback| && s.feedback[i].FromUser? && s.feedback[i].id == id && s.feedback[i].kind == kind;
      assert FromUser(id, kind, s.feedback[i].key) == s.feedback[i];
    }
    if WasSaid(s, id, kind) {
      var key :| FromUser(id, kind, key) in s.feedback;
      var i :| 0 <= i < |s.feedback| && s.feedback[i] == FromUser(id, kind, key);
    }
  }

  lemma UsedIsUsed(s: State, key: Option<string>)
    ensures IsKeyUsed(s.feedback, key) <==> WasUsed(s, key)
  {
    if IsKeyUsed(s.feedback, key) {
      var i :| 0 <= i < |s.feedback| && s.feedback[i].FromUser? && s.feedback[i].key == key;
      assert FromUser(s.feedback[i].id, s.feedback[i].kind, key) == s.feedback[i];
    }
    if WasUsed(s, key) {
      var id, kind :| FromUser(id, kind, key) in s.feedback;
      var i :| 0 <= i < |s.feedback| && s.feedback[i] == FromUser(id, kind, key);
    }
  }

  /** New feedback on an advice is recorded exactly when the advice is active (guidance needs no more than
      that it exists), nothing like it was said before under this or another id, and the quotas have room;
      what was recorded before is answered as known; everything else is refused. */
  lemma RecordedExactlyWhen(s: State, id: Id, kind: Kind, key: Option<string>, now: Time, quota: Option<nat>, guidanceQuota: Option<nat>)
    ensures var (after, reply) := Feedback(s, id, kind, key, now, quota, guidanceQuota);
            && (reply.Recorded? <==>
                  && id in s.advice && (s.advice[id].status.Active? || kind.Guidance?)
                  && !WasUsed(s, key) && !WasSaid(s, id, kind)
                  && (quota.Some? ==> |s.feedback| < quota.value)
                  && (kind.Guidance? && guidanceQuota.Some? ==> |GuidanceOn(s, id)| < guidanceQuota.value))
            && (reply.Known? <==>
                  && id in s.advice
                  && (WasUsed(s, key) ==> FromUser(id, kind, key) in s.feedback)
                  && (!WasUsed(s, key) ==> WasSaid(s, id, kind)))
            && (!reply.Recorded? ==> after == s.(clock := now))
  {
    hide IsGiven, IsKeyUsed, WasUsed, WasSaid, Guidances, GuidanceOn;
    GuidanceIsCounted(s, id);
    SaidIsGiven(s, id, kind);
    UsedIsUsed(s, key);
  }

  /** Of the feedback recorded, adoption makes the advice adopted, each kind of rejection dismisses it, and
      the rest leave it as it was; no other advice is touched. */
  lemma RecordedAs(s: State, id: Id, kind: Kind, key: Option<string>, now: Time, quota: Option<nat>, guidanceQuota: Option<nat>)
    requires Feedback(s, id, kind, key, now, quota, guidanceQuota).1.Recorded?
    ensures var after := Feedback(s, id, kind, key, now, quota, guidanceQuota).0;
            && id in s.advice && after.advice.Keys == s.advice.Keys
            && (kind.Adopt? ==> after.advice[id].status.Adopted?)
            && (IsRejection(kind) ==> after.advice[id].status.Dismissed?)
            && (!kind.Adopt? && !IsRejection(kind) ==> after.advice[id].status == s.advice[id].status)
            && after.advice[id].(status := s.advice[id].status) == s.advice[id]
            && (forall x :: x in s.advice && x != id ==> after.advice[x] == s.advice[x])
            && after.feedback == s.feedback + [FromUser(id, kind, key)]
  {
    hide Verdict, Defer, Resolve, Guidances;
    RecordedExactlyWhen(s, id, kind, key, now, quota, guidanceQuota);
    RemindersOnly(Written(s.(clock := now), id, kind, key), id, SnoozedUntil(s.advice[id].deadline, now));
  }

  /** Nothing but one advice's reminder and its attempts has changed. */
  predicate IsReminderOnly(s: State, after: State, id: Id) {
    && after.advice == s.advice && after.feedback == s.feedback && after.signals == s.signals && after.clock == s.clock
    && after.rows.Keys == s.rows.Keys && after.attempts.Keys == s.attempts.Keys
    && forall x :: x in s.rows && x != id ==> after.rows[x] == s.rows[x]
  }

  lemma RemindersOnly(s: State, id: Id, until: Option<Time>)
    ensures IsReminderOnly(s, Resolve(s, {id}), id) && IsReminderOnly(s, Defer(s, id, until), id)
  {
  }

  /** Only "irrelevant" is taken for a sign of interest, at full weight and only once; no other reminder is
      touched, and no attempt forgotten. */
  lemma SignsAfter(s: State, id: Id, kind: Kind, key: Option<string>, now: Time, quota: Option<nat>, guidanceQuota: Option<nat>)
    requires Feedback(s, id, kind, key, now, quota, guidanceQuota).1.Recorded?
    ensures var after := Feedback(s, id, kind, key, now, quota, guidanceQuota).0;
            && after.signals.Keys == s.signals.Keys + (if kind.Irrelevant? then {(id, User)} else {})
            && (kind.Irrelevant? && (id, User) !in s.signals ==> after.signals[(id, User)] == 1.0)
            && (forall x :: x in s.signals ==> after.signals[x] == s.signals[x])
            && after.rows.Keys == s.rows.Keys && after.attempts.Keys == s.attempts.Keys && after.clock == now
            && (forall x :: x in s.rows && x != id ==> after.rows[x] == s.rows[x])
  {
    hide Verdict, Guidances, Defer, Resolve;
    RecordedExactlyWhen(s, id, kind, key, now, quota, guidanceQuota);
    RemindersOnly(Written(s.(clock := now), id, kind, key), id, SnoozedUntil(s.advice[id].deadline, now));
  }

  /** "Later", with a permit and time left, moves the reminder four hours on or to the end of the prediction,
      and ends the count towards closing it; every other answer, and "later" without, ends it. */
  lemma ReminderAfter(s: State, id: Id, kind: Kind, key: Option<string>, now: Time, quota: Option<nat>, guidanceQuota: Option<nat>)
    requires Feedback(s, id, kind, key, now, quota, guidanceQuota).1.Recorded? && id in s.rows && !s.rows[id].phase.Resolved?
    ensures var after, row := Feedback(s, id, kind, key, now, quota, guidanceQuota).0.rows[id], s.rows[id];
            if kind.Later? && row.count < 2 && now < s.advice[id].deadline then
              && after.next == Some(Min(now + 4 * HOUR, s.advice[id].deadline)) && after.later && after.autoClose.None?
              && after.count == row.count && after.lease == row.lease
              && (row.phase.Claimed? ==> after.phase.Claimed?) && (!row.phase.Claimed? ==> after.phase.Waiting?)
            else
              && after.phase.Resolved? && after.next.None? && after.autoClose.None? && after.lease.None?
              && after.count == row.count
  {
    hide Verdict, TokensOf, Mark, Guidances;
  }

  /** Ending a reminder ends the attempt it was claimed under, and no attempt that is over. */
  lemma ResolvedTogether(s: State, ids: set<Id>, id: Id, t: Token)
    requires id in s.rows && t in s.attempts
    ensures var after := Resolve(s, ids);
            && after.rows.Keys == s.rows.Keys && after.attempts.Keys == s.attempts.Keys
            && after == s.(rows := after.rows, attempts := after.attempts)
            && (id in ids ==> after.rows[id].phase.Resolved? && after.rows[id].count == s.rows[id].count)
            && (id in ids && !s.rows[id].phase.Resolved? ==>
                  after.rows[id].next.None? && after.rows[id].autoClose.None? && after.rows[id].lease.None?)
            && (id !in ids ==> after.rows[id] == s.rows[id])
            && (id in ids && s.rows[id].lease.Some? && s.rows[id].lease.value.token == t && s.attempts[t].outcome.Open? ==>
                  after.attempts[t] == s.attempts[t].(outcome := Cancelled))
            && (!s.attempts[t].outcome.Open? || after.attempts[t].outcome.Open? ==> after.attempts[t] == s.attempts[t])
  {
    if id in ids && s.rows[id].lease.Some? && s.rows[id].lease.value.token == t { assert t in TokensOf(s.rows, ids); }
  }

  // -------------------------------------------------------------------- permits

  /** A reminder that may be shown now. */
  predicate IsReady(s: State, id: Id, now: Time, muted: set<Id>) {
    && id in s.rows && id in s.advice && s.advice[id].status.Active? && s.advice[id].immediate && id !in muted
    && (s.rows[id].phase.Pending? || s.rows[id].phase.Waiting?) && s.rows[id].count < 2
    && (s.rows[id].next.Some? ==> s.rows[id].next.value <= now)
  }

  /** A device gets a permit whenever a reminder may be shown; never one for a lower level than another, and
      among equals never for a newer advice. */
  lemma PicksWhatIsReady(s: State, now: Time, muted: set<Id>, pick: Option<Id>, id: Id)
    requires IsPick(s, now, muted, pick) && IsReady(s, id, now, muted)
    ensures pick.Some? && IsReady(s, pick.value, now, muted) && s.advice[pick.value].level >= s.advice[id].level
    ensures s.advice[pick.value].level == s.advice[id].level ==> s.advice[pick.value].created <= s.advice[id].created
  {
    assert IsCandidate(s, id, now, muted);
  }

  /** The permit is the advice's next, the device's own, for fifteen minutes. After the first the reminder
      comes again within the hour; after the second, unless the user asked for it, it closes within the
      hour; neither goes past the end of the prediction. */
  lemma PermitGiven(s: State, device: Device, token: Token, now: Time, order: seq<Id>, id: Id)
    requires var swept := Sweep(s, now, order);
             id in swept.rows && id in swept.advice && now < swept.advice[id].deadline
    ensures var swept, after := Sweep(s, now, order), Claim(s, device, token, now, order, false, Some(id));
            var row, row', soon := swept.rows[id], after.rows[id], Some(Min(now + HOUR, swept.advice[id].deadline));
            && after == swept.(rows := after.rows, attempts := after.attempts)
            && after.rows == swept.rows[id := row']
            && after.attempts == swept.attempts[token := Attempt(id, device, row.count + 1, now + 15 * MINUTE, Open)]
            && row'.phase.Claimed? && row'.count == row.count + 1 && row'.later == row.later
            && row'.lease == Some(Lease(token, device, now + 15 * MINUTE))
            && (row.count == 0 ==> row'.next == soon && row'.autoClose.None?)
            && (row.count == 1 ==> row'.next.None? && row'.autoClose == if row.later then None else soon)
  {
    hide Sweep;
  }

  /** While everything is paused, or nothing may be shown, a claim is only a sweep. */
  lemma NoPermitGiven(s: State, device: Device, token: Token, now: Time, order: seq<Id>, paused: bool, pick: Option<Id>)
    requires paused || pick.None?
    ensures Claim(s, device, token, now, order, paused, pick) == Sweep(s, now, order)
  {
  }

  /** The device holds the row's open permit. */
  predicate IsHolder(s: State, id: Id, device: Device, token: Token) {
    && token in s.attempts && s.attempts[token].id == id && s.attempts[token].device == device
    && s.attempts[token].outcome.Open?
    && id in s.rows && s.rows[id].phase.Claimed? && s.rows[id].lease.Some?
    && s.rows[id].lease.value.token == token && s.rows[id].lease.value.device == device
  }

  /** Everything but one reminder and one attempt is as before. */
  ghost predicate OnlyPermit(s: State, after: State, id: Id, token: Token) {
    && after == s.(clock := after.clock, rows := after.rows, attempts := after.attempts)
    && after.rows.Keys == s.rows.Keys && after.attempts.Keys == s.attempts.Keys
    && (forall x :: x in s.rows && x != id ==> after.rows[x] == s.rows[x])
    && (forall t :: t in s.attempts && t != token ==> after.attempts[t] == s.attempts[t])
  }

  /** The holder of an unexpired permit confirms a display, which ends the lease and, if it was the second
      one of a reminder put off, the reminder. Confirming it again gives the same answer and changes
      nothing; so does a permit run out, but for giving it up. */
  lemma DisplayedExactlyWhen(s: State, id: Id, device: Device, token: Token, now: Time)
    ensures var (after, answer) := Complete(s, id, device, token, now);
            var mine := token in s.attempts && s.attempts[token].id == id && s.attempts[token].device == device;
            var current := IsHolder(s, id, device, token) && s.attempts[token].number == s.rows[id].count;
            var first := current && now < s.attempts[token].expires;
            && (answer.Displayed? <==> first || (mine && s.attempts[token].outcome.Delivered?)) && !answer.GivenUp?
            && (answer.Displayed? && !first ==>
                  && after == s.(clock := now) && answer.number == s.attempts[token].number
                  && answer.next == if id in s.rows then s.rows[id].next else None)
            && (answer.Conflict? && !current ==> after == s.(clock := now))
            && (first ==>
                  && OnlyPermit(s, after, id, token) && after.attempts[token] == s.attempts[token].(outcome := Delivered)
                  && answer == Displayed(s.rows[id].count, after.rows[id].next)
                  && after.rows[id].lease.None? && after.rows[id].count == s.rows[id].count
                  && if s.rows[id].count == 2 && s.rows[id].later
                     then after.rows[id].phase.Resolved? && after.rows[id].next.None? && after.rows[id].autoClose.None?
                     else after.rows[id] == s.rows[id].(phase := Waiting, lease := None))
            && (current && !first && !s.attempts[token].outcome.Delivered? ==>
                  && answer.Conflict? && OnlyPermit(s, after, id, token)
                  && after.attempts[token] == s.attempts[token].(outcome := Superseded) && IsGivenUp(s.rows[id], after.rows[id]))
  {
  }

  /** A reminder whose permit was not shown waits again with the permit used, unless it was only waiting for
      that last one. */
  predicate IsGivenUp(row: Row, after: Row) {
    && after.lease.None? && after.count == row.count && after.later == row.later
    && if row.count >= 2 && row.later then after.phase.Resolved? && after.next.None? && after.autoClose.None?
       else after.phase.Waiting? && after.next == row.next && after.autoClose == row.autoClose
  }

  /** The holder may give its permit up, run out or not; doing so twice is answered the same. */
  lemma GivenUpExactlyWhen(s: State, id: Id, device: Device, token: Token, now: Time)
    ensures var (after, answer) := Fail(s, id, device, token, now);
            var mine := token in s.attempts && s.attempts[token].id == id && s.attempts[token].device == device;
            var first := IsHolder(s, id, device, token);
            && (answer.GivenUp? <==> first || (mine && s.attempts[token].outcome.Failed?)) && !answer.Displayed?
            && (!first ==> after == s.(clock := now))
            && (answer.GivenUp? ==> answer.count == if id in s.rows then s.rows[id].count else 0)
            && (first ==>
                  && OnlyPermit(s, after, id, token) && after.attempts[token] == s.attempts[token].(outcome := Failed)
                  && IsGivenUp(s.rows[id], after.rows[id]))
  {
  }

  // ------------------------------------------------------------------- sweeping

  /** Past its prediction's end an active advice is withdrawn with its reminder; the others keep theirs,
      never beyond that end. */
  lemma ExpiredAdvice(s: State, now: Time, id: Id)
    requires id in s.advice
    ensures var after := ExpireDeadlines(s, now);
            var over := s.advice[id].status.Active? && s.advice[id].deadline <= now;
            && after.advice.Keys == s.advice.Keys && after.rows.Keys == s.rows.Keys && after.feedback == s.feedback
            && after.advice[id] == (if over then s.advice[id].(status := Withdrawn) else s.advice[id])
            && (id in s.rows && over ==> after.rows[id].phase.Resolved?)
            && (id in s.rows && !s.advice[id].status.Active? ==> after.rows[id] == s.rows[id])
            && (id in s.rows && s.advice[id].status.Active? && !over ==>
                  after.rows[id] == s.rows[id].(next := Within(s.rows[id].next, s.advice[id].deadline),
                                                autoClose := Within(s.rows[id].autoClose, s.advice[id].deadline)))
  {
    hide Mark, TokensOf;
  }

  function Within(t: Option<Time>, limit: Time): Option<Time> {
    if t.Some? then Some(Min(t.value, limit)) else None
  }

  /** A permit not confirmed within its time is lost: its attempt is superseded and the reminder waits, or
      ends if the user had put it off and it was the last one. */
  lemma LapsedRow(s: State, now: Time, id: Id)
    requires id in s.rows
    ensures var after, row := LapseLeases(s, now), s.rows[id];
            var lost := row.phase.Claimed? && row.lease.Some? && row.lease.value.expires <= now;
            && after.rows.Keys == s.rows.Keys && after.attempts.Keys == s.attempts.Keys && after.advice == s.advice
            && (!lost ==> after.rows[id] == row)
            && (lost ==> IsGivenUp(row, after.rows[id]))
            && (lost && row.lease.value.token in s.attempts && s.attempts[row.lease.value.token].outcome.Open? ==>
                  after.attempts[row.lease.value.token] == s.attempts[row.lease.value.token].(outcome := Superseded))
  {
    var lapsed := Lapsed(s.rows, now);
    if id in lapsed { assert s.rows[id].lease.value.token in TokensOf(s.rows, lapsed); }
  }

  /** A reminder shown for the last time is over when its hour has passed; exactly if both displays were
      confirmed the advice is dismissed, and a weak sign is kept that it does not matter. */
  lemma ClosedRow(s: State, now: Time, order: seq<Id>, id: Id)
    requires id in s.rows && IsOrder(order, Shown(s, now))
    ensures var after, row := CloseDue(s, now, order), s.rows[id];
            var due := id in s.advice && s.advice[id].status.Active? && row.phase.Waiting? && row.count == 2
                       && row.autoClose.Some? && row.autoClose.value <= now;
            var seen := due && |set t | t in s.attempts && s.attempts[t].id == id && s.attempts[t].outcome.Delivered?| == 2;
            && (due ==> after.rows[id].phase.Resolved?) && (!due ==> after.rows[id] == row)
            && after.advice.Keys == s.advice.Keys
            && (id in s.advice ==> after.advice[id] == if seen then s.advice[id].(status := Dismissed) else s.advice[id])
            && (id in order <==> seen)
            && (seen && (id, System) !in s.signals ==> (id, System) in after.signals && after.signals[(id, System)] == 0.25)
            && (!seen ==> ((id, System) in after.signals <==> (id, System) in s.signals))
            && after.feedback == s.feedback + AutoEntries(order)
  {
    hide Mark, TokensOf;
    assert DeliveredTo(s.attempts, id) == set t | t in s.attempts && s.attempts[t].id == id && s.attempts[t].outcome.Delivered?;
  }

  // ----------------------------------------------------------------- publication

  /** Published advice gets a reminder that waits to be shown, or none if it is not urgent; a reminder that is
      there is kept. */
  lemma PublishedRow(s: State, id: Id, advice: Advice)
    ensures var after := Publish(s, id, advice);
            && after.advice == s.advice[id := advice] && id in after.rows && after.attempts == s.attempts
            && (id in s.rows ==> after.rows == s.rows)
            && (id !in s.rows ==>
                  && after.rows.Keys == s.rows.Keys + {id} && (forall x :: x in s.rows ==> after.rows[x] == s.rows[x])
                  && (advice.immediate ==> after.rows[id].phase.Pending?) && (!advice.immediate ==> after.rows[id].phase.Resolved?)
                  && after.rows[id].count == 0 && after.rows[id].next.None? && after.rows[id].autoClose.None?
                  && after.rows[id].lease.None? && !after.rows[id].later)
  {
  }

  /** Only drafts are promoted or discarded; a promoted one is active. */
  lemma DraftsComeAndGo(s: State, id: Id, advice: Advice)
    ensures Draft(s, id, advice) == s.(advice := s.advice[id := advice])
    ensures var draft := id in s.advice && s.advice[id].status.Provisional?;
            && (draft ==>
                  && id in Promote(s, id, advice).advice && Promote(s, id, advice).advice[id] == advice.(status := Active)
                  && id in Promote(s, id, advice).rows
                  && Discard(s, id).advice.Keys == s.advice.Keys - {id} && Discard(s, id).rows == s.rows)
            && (!draft ==> Promote(s, id, advice) == s && Discard(s, id) == s)
  {
  }

  /** A revision changes level and deadline, an outcome the status, and no reminder. */
  lemma RevisedAdvice(s: State, id: Id, level: nat, deadline: Time)
    ensures id in s.advice ==>
              && Revise(s, id, level, deadline).advice[id] == Advice(s.advice[id].status, s.advice[id].immediate, level, s.advice[id].created, deadline)
              && Verify(s, id).advice[id] == s.advice[id].(status := Verified)
    ensures Revise(s, id, level, deadline).rows == Verify(s, id).rows == s.rows
    ensures id !in s.advice ==> Revise(s, id, level, deadline) == Verify(s, id) == s
  {
  }

  /** Active advice without a reminder gets one that is never shown. */
  lemma EnsuredRows(s: State, id: Id)
    requires id in s.advice
    ensures var after := EnsureRows(s);
            && after.advice == s.advice && (id in s.rows ==> after.rows[id] == s.rows[id])
            && (s.advice[id].status.Active? ==> id in after.rows)
            && (id !in s.rows && s.advice[id].status.Active? ==> after.rows[id].phase.Resolved? && after.rows[id].count == 0)
            && (id !in s.rows && !s.advice[id].status.Active? ==> id !in after.rows)
  {
  }

  /** Without a sweep, expiry withdraws the advice alone. */
  lemma WithdrawnAdvice(s: State, now: Time, id: Id)
    requires id in s.advice
    ensures var after := WithdrawExpired(s, now);
            && after.rows == s.rows && after.attempts == s.attempts && after.clock == now
            && after.advice[id] == (if s.advice[id].status.Active? && s.advice[id].deadline <= now
                                    then s.advice[id].(status := Withdrawn) else s.advice[id])
  {
  }
}
