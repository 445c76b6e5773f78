/** What the operations on the translation cache answer and leave behind. */
module LocalizationAnswers {
  import opened Basics
  import opened Localization
  import opened LocalizationRuns

  /** Everything but one row is as before. */
  ghost predicate OnlyRow(s: State, after: State, id: Id) {
    && after.users == s.users && after.advice == s.advice
    && forall k :: k != id ==> (k in after.rows <==> k in s.rows) && (k in s.rows ==> after.rows[k] == s.rows[k])
  }

  /** A row that waits for its first translation of `source`. */
  predicate IsFresh(row: Row, source: Bytes, now: Time) {
    && row.hash == Sha256(source) && row.status.Pending? && row.attempts == 0 && row.next == now
    && row.text.None? && row.lease.None?
  }

  /** The claim is the one its row is being worked on under. */
  predicate IsCurrent(s: State, c: Claim) {
    && c.id in s.rows && s.rows[c.id].status.Running? && s.rows[c.id].lease.Some?
    && s.rows[c.id].lease.value == c.token
  }

  // ------------------------------------------------------------------- workers

  /** A round gives a claim out exactly when the day's budget is not used up, the source is in a foreign
      language, and the row is for that source; the claim is for one more attempt, under the new token,
      for ten minutes. */
  lemma ClaimedExactlyWhen(s: State, rules: Rules, id: Id, until: Option<Time>, token: Token, now: Time)
    requires id in s.rows && id in s.advice
    ensures var (after, claim) := Consider(s, rules, id, until, token, now);
            var source := s.advice[id].source;
            && (claim.Some? <==> until.None? && !rules.isNative(source) && s.rows[id].hash == Sha256(source))
            && (claim.Some? ==>
                  && OnlyRow(s, after, id) && id in after.rows
                  && after.rows[id].status.Running? && after.rows[id].lease == Some(token)
                  && after.rows[id].expires == now + 10 * MINUTE && after.rows[id].attempts == s.rows[id].attempts + 1
                  && after.rows[id].hash == s.rows[id].hash
                  && claim.value.id == id && claim.value.token == token && claim.value.source == source
                  && claim.value.hash == Sha256(source) && claim.value.attempt == after.rows[id].attempts)
            && (until.None? && rules.isNative(source) ==> OnlyRow(s, after, id) && id !in after.rows)
            && (until.None? && !rules.isNative(source) && s.rows[id].hash != Sha256(source) ==>
                  OnlyRow(s, after, id) && id in after.rows && IsFresh(after.rows[id], source, now))
  {
  }

  /** A used-up budget puts off exactly the account's waiting rows that are due before it. */
  lemma PostponedRows(s: State, rules: Rules, id: Id, until: Time, token: Token, now: Time)
    requires id in s.rows && id in s.advice
    ensures var after := Consider(s, rules, id, Some(until), token, now).0;
            && after.advice == s.advice && after.rows.Keys == s.rows.Keys
            && forall k :: k in s.rows ==>
                 && (k.0 == id.0 && s.rows[k].status.Pending? ==>
                       after.rows[k] == s.rows[k].(next := Max(s.rows[k].next, until)))
                 && (k.0 != id.0 || !s.rows[k].status.Pending? ==> after.rows[k] == s.rows[k])
  {
  }

  /** A translation is published exactly when its advice is published, its source still the claimed one,
      its worker still the holder, and the text acceptable; it is then stored as accepted. */
  lemma PublishedExactlyWhen(s: State, rules: Rules, c: Claim, proposed: Bytes, now: Time)
    ensures var (after, done) := Complete(s, rules, c, proposed, now);
            && (done <==>
                  && c.id in s.advice && !s.advice[c.id].provisional && Sha256(s.advice[c.id].source) == c.hash
                  && IsCurrent(s, c) && s.rows[c.id].hash == c.hash
                  && rules.accepts(s.advice[c.id].source, proposed).Some?)
            && (done ==>
                  && OnlyRow(s, after, c.id) && c.id in after.rows && after.rows[c.id].status.Ready?
                  && after.rows[c.id].text == rules.accepts(s.advice[c.id].source, proposed)
                  && after.rows[c.id].hash == c.hash && after.rows[c.id].lease.None?
                  && after.rows[c.id].attempts == s.rows[c.id].attempts && after.rows[c.id].next == now)
  {
  }

  /** What is not published changes nothing, but for a holder whose source was revised: its row starts
      over with the new source. */
  lemma UnpublishedChangesNothing(s: State, rules: Rules, c: Claim, proposed: Bytes, now: Time)
    requires !Complete(s, rules, c, proposed, now).1
    ensures var after := Complete(s, rules, c, proposed, now).0;
            if c.id in s.advice && !s.advice[c.id].provisional && Sha256(s.advice[c.id].source) != c.hash && IsCurrent(s, c)
            then OnlyRow(s, after, c.id) && c.id in after.rows && IsFresh(after.rows[c.id], s.advice[c.id].source, now)
            else after == s
  {
  }

  /** Only the holder's failure counts. With an attempt left, a failure worth trying again puts the row
      back, at most a day later; any other makes the translation unavailable. */
  lemma FailedExactlyWhen(s: State, c: Claim, retryable: bool, delay: Time, max: nat, now: Time)
    ensures var (after, done) := Fail(s, c, retryable, delay, max, now);
            && (done <==> IsCurrent(s, c) && s.rows[c.id].hash == c.hash)
            && (!done ==> after == s)
            && (done ==>
                  && OnlyRow(s, after, c.id) && c.id in after.rows
                  && (retryable && c.attempt < max ==> after.rows[c.id].status.Pending?)
                  && (!retryable || c.attempt >= max ==> after.rows[c.id].status.Unavailable?)
                  && (0 <= delay <= 24 * HOUR ==> after.rows[c.id].next == now + delay)
                  && now <= after.rows[c.id].next <= now + 24 * HOUR
                  && after.rows[c.id].lease.None? && after.rows[c.id].text.None?
                  && after.rows[c.id].attempts == s.rows[c.id].attempts && after.rows[c.id].hash == s.rows[c.id].hash)
  {
  }

  // ------------------------------------------------------------------ schedule

  /** The two opening statements of a claim end run-out leases and close rows without an attempt left;
      no other row is touched. */
  lemma OpeningRows(s: State, now: Time, max: nat, id: Id)
    requires id in s.rows
    ensures var row, lapsed := s.rows[id], Lapse(s, now, max);
            && lapsed.advice == s.advice && lapsed.users == s.users && lapsed.rows.Keys == s.rows.Keys
            && (if row.status.Running? && row.lease.Some? && row.expires <= now then
                  && lapsed.rows[id].lease.None? && lapsed.rows[id].next == now
                  && (row.attempts < max ==> lapsed.rows[id].status.Pending?)
                  && (row.attempts >= max ==> lapsed.rows[id].status.Unavailable?)
                  && lapsed.rows[id].attempts == row.attempts && lapsed.rows[id].hash == row.hash
                else lapsed.rows[id] == row)
    ensures var row, closed := s.rows[id], Exhaust(s, max);
            && closed.advice == s.advice && closed.users == s.users && closed.rows.Keys == s.rows.Keys
            && (if row.status.Pending? && row.attempts >= max then
                  closed.rows[id].status.Unavailable? && closed.rows[id].attempts == row.attempts
                else closed.rows[id] == row)
  {
  }

  /** While an analysis job is due only the run-out leases are looked at; otherwise no waiting row that
      has used its attempts is left. */
  lemma OpeningIsShortWhenBusy(s: State, now: Time, max: nat, id: Id)
    requires id in s.rows
    ensures s.rows[id].status.Pending? ==> Opened(s, now, max, true).rows[id] == s.rows[id]
    ensures Opened(s, now, max, false).rows[id].status.Pending? ==> Opened(s, now, max, false).rows[id].attempts < max
    ensures s.rows[id].status.Running? && s.rows[id].lease.Some? && s.rows[id].expires <= now ==>
      Opened(s, now, max, true).rows[id].lease.None? && Opened(s, now, max, false).rows[id].lease.None?
  {
  }

  /** A row somebody may work on now. */
  predicate IsWaiting(s: State, id: Id, now: Time, max: nat) {
    && id in s.rows && s.rows[id].status.Pending? && s.rows[id].next <= now && s.rows[id].attempts < max
    && id in s.advice && !s.advice[id].provisional && id.0 in s.users
  }

  /** The search finds a waiting row whenever there is one, and never passes over one that is due longer;
      among those, tried less often; among those, of newer advice. */
  lemma PicksWhatWaits(s: State, now: Time, max: nat, pick: Option<Id>, id: Id)
    requires IsPick(s, now, max, pick) && IsWaiting(s, id, now, max)
    ensures pick.Some? && IsWaiting(s, pick.value, now, max)
    ensures var best, row := s.rows[pick.value], s.rows[id];
            && best.next <= row.next
            && (best.next == row.next ==> best.attempts <= row.attempts)
            && (best.next == row.next && best.attempts == row.attempts ==> s.advice[pick.value].created >= s.advice[id].created)
  {
    assert IsDue(s, id, now, max);
  }

  // ------------------------------------------------------------------- sources

  /** Queueing a published advice of a reader in this language leaves a row for exactly its present source
      if that is in a foreign language, and none otherwise; work on the same source is not lost. */
  lemma QueuedRow(s: State, rules: Rules, id: Id, now: Time)
    requires id in s.advice && !s.advice[id].provisional && id.0 in s.users
    ensures var after, source := Enqueue(s, rules, id, now), s.advice[id].source;
            && OnlyRow(s, after, id)
            && (id in after.rows <==> !rules.isNative(source))
            && (id in after.rows && id in s.rows && s.rows[id].hash == Sha256(source) ==> after.rows[id] == s.rows[id])
            && (id in after.rows && !(id in s.rows && s.rows[id].hash == Sha256(source)) ==> IsFresh(after.rows[id], source, now))
  {
  }

  /** Drafts, unknown advice and readers of other languages are not queued. */
  lemma NotQueued(s: State, rules: Rules, id: Id, now: Time)
    requires id !in s.advice || s.advice[id].provisional || id.0 !in s.users
    ensures Enqueue(s, rules, id, now) == s
  {
  }

  /** A revision is stored, and for a reader in this language queued at once. */
  lemma RevisedAdvice(s: State, rules: Rules, id: Id, source: Bytes, now: Time)
    requires id in s.advice
    ensures var after := Revise(s, rules, id, source, now);
            && after.users == s.users && after.advice == s.advice[id := s.advice[id].(source := source)]
            && (id.0 !in s.users ==> after.rows == s.rows)
            && (id.0 in s.users ==>
                  && (id in after.rows <==> !rules.isNative(source))
                  && (id in after.rows ==> after.rows[id].hash == Sha256(source))
                  && (id in after.rows && !(id in s.rows && s.rows[id].hash == Sha256(source)) ==> IsFresh(after.rows[id], source, now)))
  {
  }

  /** New advice is written once; a draft becomes visible with its reviewed source, or goes with its row. */
  lemma DraftsComeAndGo(s: State, id: Id, advice: Advice, reviewed: Bytes)
    ensures Write(s, id, advice) == if id in s.advice then s else s.(advice := s.advice[id := advice])
    ensures id in s.advice && s.advice[id].provisional ==>
              && Promote(s, id, reviewed).rows == s.rows
              && Promote(s, id, reviewed).advice == s.advice[id := Advice(false, reviewed, s.advice[id].created)]
              && id !in Discard(s, id).advice && id !in Discard(s, id).rows
              && Discard(s, id).advice.Keys == s.advice.Keys - {id} && Discard(s, id).rows.Keys == s.rows.Keys - {id}
    ensures id !in s.advice || !s.advice[id].provisional ==> Promote(s, id, reviewed) == s && Discard(s, id) == s
  {
  }

  // -------------------------------------------------------------------- display

  /** A reader sees the source in his own language; otherwise the stored translation of the present source,
      if it is still acceptable; otherwise whether one is still to come. */
  lemma DisplayedExactlyWhen(s: State, rules: Rules, id: Id)
    requires id in s.advice
    ensures var source, shown := s.advice[id].source, Envelope(s, rules, id);
            var known := id in s.rows && s.rows[id].hash == Sha256(source);
            && (shown.Original? <==> rules.isNative(source)) && (shown.Original? ==> shown.source == source)
            && (shown.Translated? <==>
                  && !rules.isNative(source) && known && s.rows[id].status.Ready? && s.rows[id].text.Some?
                  && rules.accepts(source, s.rows[id].text.value).Some?)
            && (shown.Translated? ==> Some(shown.text) == rules.accepts(source, s.rows[id].text.value))
            && (shown.NotAvailable? ==> known && (s.rows[id].status.Unavailable? || s.rows[id].status.Ready?))
            && (!rules.isNative(source) && known && s.rows[id].status.Unavailable? ==> shown.NotAvailable?)
            && (!rules.isNative(source) && (!known || s.rows[id].status.Pending? || s.rows[id].status.Running?) ==> shown.NotYet?)
            && (!rules.isNative(source) && known && s.rows[id].status.Ready? && s.rows[id].text.Some? ==>
                  shown.NotAvailable? || shown.Translated?)
  {
  }

  /** From end to end: advice in a foreign language is queued, claimed and completed with an acceptable
      translation, and the reader sees it. */
  lemma TranslationGoesThrough(s: State, rules: Rules, id: Id, token: Token, proposed: Bytes, text: Bytes, now: Time, max: nat)
    requires id in s.advice && !s.advice[id].provisional && id.0 in s.users && id !in s.rows && max >= 1
    requires var source := s.advice[id].source;
             !rules.isNative(source) && rules.accepts(source, proposed) == Some(text) && rules.accepts(source, text) == Some(text)
    ensures var queued := Enqueue(s, rules, id, now);
            && IsDue(queued, id, now, max)
            && var (claimed, claim) := Consider(queued, rules, id, None, token, now);
               claim.Some?
               && var (published, done) := Complete(claimed, rules, claim.value, proposed, now);
                  done && Envelope(published, rules, id) == Translated(text)
  {
  }
}
