/** What the bridge, its archive and the backend make of what they are given, and that a paired device's
    request goes all the way. */
module RelayAnswers {
  import opened Basics
  import opened RelayStore
  import opened RelayBackend
  import opened RelayBridge
  import opened RelayClient
  import opened RelaySystem
  import Safety = RelayStoreSafety
  import Runs = RelayStoreRuns
  import opened RelayStoreAnswers

  // ------------------------------------------------------------------ taking in

  /** The file claims to be a request for this application. */
  predicate IsForUs(m: Manifest) {
    m.project == "ai-twin-sync-v1" && m.category == "sync-request"
  }

  /** A file that a paired device sent and that reads as a request of its own. */
  predicate IsRequestOf(setup: Setup, m: Manifest, content: Bytes, request: Request) {
    && IsForUs(m) && m.source in setup.peers && |content| <= 512 * 1024
    && setup.decode(content) == Some(request) && request.sender == m.source
  }

  /** A new file is only put on record if it is none of ours, or put aside if it cannot be a request of a
      paired device; only such a request reaches the inbox. */
  lemma OnlyRequestsAreTakenIn(setup: Setup, t: Tables, m: Manifest, content: Bytes)
    requires m.id !in t.received
    ensures var after := Saved(setup, t, m, content);
            && (!IsForUs(m) ==> after == t.(received := t.received[m.id := Archived]))
            && (IsForUs(m) && (forall request :: !IsRequestOf(setup, m, content, request)) ==>
                  after == t.(received := t.received[m.id := Quarantined]))
            && (IsForUs(m) && m.source !in setup.peers ==> after == t.(received := t.received[m.id := Quarantined]))
  {
    if IsForUs(m) && m.source in setup.peers && |content| <= MAX_BYTES && setup.decode(content).Some? {
      assert setup.decode(content).value.sender == m.source ==> IsRequestOf(setup, m, content, setup.decode(content).value);
    }
  }

  /** A request of a paired device is queued once; the same again keeps its entry and, if its reply had
      arrived, sends that again; another one under its id is a conflict and changes nothing else. */
  lemma RequestTakenInAs(setup: Setup, t: Tables, m: Manifest, content: Bytes, request: Request)
    requires m.id !in t.received && IsRequestOf(setup, m, content, request)
    ensures var after := Saved(setup, t, m, content);
            var key := (m.source, request.messageId);
            var other := key in t.inbox && t.inbox[key].digest != DigestOf(request);
            && (other ==> after == t.(received := t.received[m.id := Conflicting]))
            && (!other ==>
                  && after.received == t.received[m.id := Queued] && key in after.inbox
                  && (key in t.inbox ==> after.inbox == t.inbox)
                  && (key !in t.inbox ==> after.inbox == t.inbox[key := Entry(DigestOf(request), request, None)])
                  && after.replies == (if key in t.replies && t.replies[key].progress.Delivered?
                                       then t.replies[key := ReplyRow(t.replies[key].attempt + 1, None, Waiting)] else t.replies))
  {
  }

  /** A file already on record changes nothing. */
  lemma KnownFileIsIgnored(setup: Setup, t: Tables, m: Manifest, content: Bytes)
    requires m.id in t.received
    ensures Saved(setup, t, m, content) == t
  {
  }

  /** In every state of every run, what is in the inbox came from a paired device. */
  lemma {:induction false} InboxIsFromPeers<B>(setup: Setup, run: seq<Sys<B>>, events: seq<Event<B>>, n: nat, key: Key)
    requires |run| == |events| + 1 && run[0].tables.inbox == map[]
    requires forall i :: 0 <= i < |events| ==> Enabled(setup, run[i], events[i]) && run[i + 1] == After(setup, run[i], events[i])
    requires n < |run| && key in run[n].tables.inbox
    ensures key.0 in setup.peers && run[n].tables.inbox[key].request.sender == key.0
  {
    hide After, Enabled;
    if n > 0 {
      var s, e := run[n - 1], events[n - 1];
      assert Enabled(setup, s, e) && run[n - 1 + 1] == After(setup, s, e);
      NewEntriesAreFromPeers(setup, s, e, key);
      if key in s.tables.inbox { InboxIsFromPeers(setup, run, events, n - 1, key); }
    }
  }

  lemma NewEntriesAreFromPeers<B>(setup: Setup, s: Sys<B>, e: Event<B>, key: Key)
    requires Enabled(setup, s, e) && key in After(setup, s, e).tables.inbox
    ensures key in s.tables.inbox ==> After(setup, s, e).tables.inbox[key].request == s.tables.inbox[key].request
    ensures key !in s.tables.inbox ==>
      key.0 in setup.peers && After(setup, s, e).tables.inbox[key].request.sender == key.0
  {
    hide Claim, Reserve, Acknowledge, Runs.Step, Runs.Enabled, Apply;
  }

  // ------------------------------------------------------------------- answering

  /** An answer is recorded exactly when it comes from this device, to this message, about its operation; a
      reply to it is then due. Anything else is as if it had not come. */
  lemma AnswerRecordedExactlyWhen(setup: Setup, t: Tables, key: Key, response: Response)
    requires key in t.inbox && t.inbox[key].response.None?
    ensures var after, request := Applied(setup, t, key, response), t.inbox[key].request;
            if response.sender == setup.device && response.inReplyTo == request.messageId && response.operation == request.operation then
              && after.received == t.received
              && after.inbox == t.inbox[key := t.inbox[key].(response := Some(response))]
              && after.replies == (if key in t.replies then t.replies else t.replies[key := ReplyRow(0, None, Waiting)])
            else after == t
  {
  }

  /** What the bridge takes for an answer: a body, or a refusal of its own for one of four status codes;
      for any other the message waits. */
  lemma TakenForAnswer(setup: Setup, request: Request, answer: Request -> Option<Result>)
    ensures match answer(request)
            case None => Answered(setup, request, answer) == None
            case Some(Body(response)) => Answered(setup, request, answer) == Some(response)
            case Some(Status(code)) =>
              Answered(setup, request, answer) == if code in {400, 409, 413, 422} then Some(setup.refusal(request, code)) else None
  {
  }

  /** The answer fits the message. */
  predicate Fits(setup: Setup, request: Request, answer: Request -> Option<Result>) {
    var response := Answered(setup, request, answer);
    response.Some? && response.value.sender == setup.device && response.value.inReplyTo == request.messageId
    && response.value.operation == request.operation
  }

  /** A round over pending messages records an answer exactly for those it was given a fitting one for, and
      leaves every other message pending. */
  lemma {:induction false} ProcessedAs(setup: Setup, t: Tables, keys: seq<Key>, answer: Request -> Option<Result>, key: Key)
    requires forall i, j :: 0 <= i < j < |keys| ==> keys[i] != keys[j]
    requires forall i :: 0 <= i < |keys| ==> IsPending(t, keys[i])
    requires key in t.inbox
    ensures var after := Processed(setup, t, keys, answer);
            && after.received == t.received && after.inbox.Keys == t.inbox.Keys
            && (key in keys && Fits(setup, t.inbox[key].request, answer) ==>
                  after.inbox[key] == t.inbox[key].(response := Answered(setup, t.inbox[key].request, answer)) && key in after.replies)
            && (key !in keys || !Fits(setup, t.inbox[key].request, answer) ==> after.inbox[key] == t.inbox[key])
  {
    hide Answered;
    if keys != [] {
      var n := |keys| - 1;
      ProcessedAs(setup, t, keys[..n], answer, key);
      ProcessedAs(setup, t, keys[..n], answer, keys[n]);
      assert key in keys <==> key in keys[..n] || key == keys[n];
      assert keys[n] !in keys[..n];
    }
  }

  lemma FitsAsMatched(setup: Setup, request: Request, answer: Request -> Option<Result>)
    ensures var response := Answered(setup, request, answer);
            Fits(setup, request, answer) <==> response.Some? && Matches(setup, request, response.value)
  {
  }

  /** And counts them. */
  lemma {:induction false} UsableAreCounted(setup: Setup, inbox: map<Key, Entry>, keys: seq<Key>, answer: Request -> Option<Result>)
    ensures Usable(setup, inbox, keys, answer)
         == |set i | 0 <= i < |keys| && keys[i] in inbox && Fits(setup, inbox[keys[i]].request, answer)|
  {
    hide Answered, Matches, Fits;
    var all := set i | 0 <= i < |keys| && keys[i] in inbox && Fits(setup, inbox[keys[i]].request, answer);
    if keys == [] {
      assert all == {};
    } else {
      var n := |keys| - 1;
      UsableAreCounted(setup, inbox, keys[..n], answer);
      if keys[n] in inbox { FitsAsMatched(setup, inbox[keys[n]].request, answer); }
      var before := set i | 0 <= i < |keys[..n]| && keys[..n][i] in inbox && Fits(setup, inbox[keys[..n][i]].request, answer);
      assert all == before + (if keys[n] in inbox && Fits(setup, inbox[keys[n]].request, answer) then {n} else {});
    }
  }

  /** The backend runs a message it has not seen to its end exactly when the account may be written and the
      callback comes to a response of at most half a megabyte; that response is its answer and is kept with
      the message's hash. A refused callback leaves no trace but that. */
  lemma NewMessageRunExactlyWhen<B>(l: Ledger<B>, user: User, writable: bool, message: MessageId, hash: Digest, script: Script<B>)
    requires (user, message) !in l.receipts
    ensures var (after, outcome) := Apply(l, user, writable, message, hash, script);
            && (outcome.Replied? <==> writable && !script.verdict.Raised? && |script.verdict.response.text| <= 512 * 1024)
            && (!outcome.Replied? ==> outcome == Failed && after == l)
            && (outcome.Replied? ==>
                  && outcome.response == script.verdict.response
                  && after.receipts == l.receipts[(user, message) := Receipt(hash, script.verdict.response)]
                  && (script.verdict.Accepted? ==> after.business == Replay(script.actions, WritesLeft(script.actions), l.business))
                  && (script.verdict.Refused? ==> after.business == l.business))
  {
    hide Effect, Replay, Surviving;
    EffectIsSurvivingWrites(script.actions, l.business);
  }

  function WritesLeft<B>(actions: seq<Action<B>>): (positions: seq<nat>)
    ensures AreWrites(actions, positions)
  {
    SurvivingAreWrites(actions);
    Surviving(actions)
  }

  /** A message sent again to an account that may not be written is not answered. */
  lemma ClosedAccount<B>(l: Ledger<B>, user: User, message: MessageId, hash: Digest, script: Script<B>)
    ensures Apply(l, user, false, message, hash, script) == (l, Failed)
  {
  }

  function SizeOf(sizes: seq<nat>, positions: seq<nat>): nat
    requires forall i :: 0 <= i < |positions| ==> positions[i] < |sizes|
  {
    if positions == [] then 0 else SizeOf(sizes, positions[..|positions| - 1]) + sizes[positions[|positions| - 1]]
  }

  /** What a list of records takes is their sizes and a comma for each. */
  lemma {:induction false} SpentIsSizesAndCommas(sizes: seq<nat>, positions: seq<nat>)
    requires forall i :: 0 <= i < |positions| ==> positions[i] < |sizes|
    ensures Spent(sizes, positions) == SizeOf(sizes, positions) + |positions|
  {
    if positions != [] { SpentIsSizesAndCommas(sizes, positions[..|positions| - 1]); }
  }

  // --------------------------------------------------------------------- replying

  /** What the bridge learns of an earlier attempt: delivered, it is done; expired, cancelled or past its
      lifetime, another attempt is due; otherwise it waits. */
  lemma PolledAs(t: Tables, key: Key, stage: Stage, alive: bool)
    requires key in t.replies && t.replies[key].transfer.Some? && !t.replies[key].progress.Delivered?
    ensures var after, row := Polled(t, key, stage, alive), t.replies[key];
            && after == t.(replies := t.replies[key := after.replies[key]])
            && (stage.Delivered? ==> after.replies[key] == row.(progress := Progress.Delivered))
            && (stage.Expired? || stage.Cancelled? || (!stage.Delivered? && !alive) ==>
                  after.replies[key] == ReplyRow(row.attempt + 1, None, Waiting))
            && (!stage.Delivered? && !stage.Expired? && !stage.Cancelled? && alive ==> after.replies[key] == row)
  {
    assert t.replies[key := t.replies[key]] == t.replies;
  }

  /** What becomes of a push: a transfer that is over already asks for another attempt, any other is the
      one to wait for. */
  lemma PushedAs(t: Tables, key: Key, id: Id, stage: Stage)
    requires key in t.replies && !t.replies[key].progress.Delivered?
    ensures var after, row := Pushed(t, key, id, stage), t.replies[key];
            && after == t.(replies := t.replies[key := after.replies[key]])
            && (stage.Expired? || stage.Cancelled? ==>
                  after.replies[key] == row.(transfer := None, attempt := row.attempt + 1))
            && (!stage.Expired? && !stage.Cancelled? ==>
                  && after.replies[key].transfer == Some(id) && after.replies[key].attempt == row.attempt
                  && (after.replies[key].progress == if stage.Delivered? then Progress.Delivered else Uploaded))
  {
  }

  /** A round of sending: a reply known to be delivered is done, one whose transfer still waits is left alone,
      any other is pushed, under a new attempt if there was one before. */
  lemma SentAs(t: Tables, key: Key, stage: Stage, alive: bool, pushedId: Id, pushedStage: Stage)
    requires key in t.replies && !t.replies[key].progress.Delivered?
    ensures var after, row := SendRow(t, key, stage, alive, pushedId, pushedStage), t.replies[key];
            var waits := row.transfer.Some? && !stage.Expired? && !stage.Cancelled? && !stage.Delivered? && alive;
            var attempt := if row.transfer.Some? then row.attempt + 1 else row.attempt;
            && after == t.(replies := t.replies[key := after.replies[key]])
            && (row.transfer.Some? && stage.Delivered? ==> after.replies[key] == row.(progress := Progress.Delivered))
            && (waits ==> after == t)
            && (!waits && !(row.transfer.Some? && stage.Delivered?) ==>
                  if pushedStage.Expired? || pushedStage.Cancelled?
                  then after.replies[key].transfer.None? && after.replies[key].attempt == attempt + 1
                  else after.replies[key].transfer == Some(pushedId) && after.replies[key].attempt == attempt
                       && after.replies[key].progress == if pushedStage.Delivered? then Progress.Delivered else Uploaded)
  {
    assert t.replies[key := t.replies[key]] == t.replies;
  }

  /** A reply is reserved for the sender of the message alone, with exactly the recorded bytes, under a key
      made from reply, attempt and sender. */
  lemma ReplyReservedAs(setup: Setup, entry: Entry, attempt: nat, ttl: Time)
    requires entry.response.Some?
    ensures var spec, text := ReplySpec(setup, entry, attempt, ttl), entry.response.value.text;
            && spec.targets == {entry.request.sender} && spec.size == |text| && spec.sha == Sha256(text)
            && spec.project == "ai-twin-sync-v1" && spec.category == "sync-response" && spec.ttl == ttl
            && spec.key == setup.transportKey(entry.response.value, attempt, entry.request.sender)
  {
  }

  // ------------------------------------------------------------------ all the way

  /** What `pull` makes of a body: it is kept exactly when it has the claimed digest and, unless the file is
      there already, the claimed size. */
  lemma FetchedExactlyWhen<B>(s: Sys<B>, body: Bytes)
    requires s.pull.Claimed?
    ensures var after, id := FetchStep(s, body), s.pull.m.id;
            var known := id in s.archive && Sha256(s.archive[id]) == s.pull.sha;
            && (after.pull.Downloaded? <==> Sha256(body) == s.pull.sha && (known || |body| == s.pull.size))
            && (after.pull.Downloaded? ==> after.pull.m == s.pull.m && id in after.archive && after.archive[id] == body)
            && (!after.pull.Downloaded? ==> after == s.(pull := Idle))
            && after.tables == s.tables && after.store == s.store
  {
  }

  /** A request that a paired device left ready in the store is claimed, fetched and queued. */
  lemma RequestIsQueued<B>(setup: Setup, s: Sys<B>, id: Id, token: Token, body: Bytes, request: Request, now: Time)
    requires Safety.Inv(s.store) && s.store.up && now >= s.store.clock && token !in s.store.grants && s.pull.Idle?
    requires id in s.store.transfers && s.store.transfers[id].stage.Ready? && now < s.store.transfers[id].expiresAt
    requires (id, setup.device) in s.store.deliveries && IsFree(s.store.deliveries[(id, setup.device)], now)
    requires s.store.transfers[id].spec.sha == Sha256(body) && s.store.transfers[id].spec.size == |body|
    requires var row := s.store.transfers[id];
             IsRequestOf(setup, Manifest(id, row.source, row.spec.project, row.spec.category), body, request)
    requires id !in s.tables.received && (request.sender, request.messageId) !in s.tables.inbox
    ensures var claimed := StartPullStep(setup, s, id, token, now);
            var fetched := FetchStep(claimed, body);
            var saved := SaveStep(setup, fetched);
            && id in saved.archive && saved.archive[id] == body && id in saved.tables.received && saved.tables.received[id].Queued?
            && IsPending(saved.tables, (request.sender, request.messageId))
            && saved.tables.inbox[(request.sender, request.messageId)].request == request && saved.pull.InTables?
  {
    hide Safety.Inv, Claim, Saved, IsFree, OnlyDelivery;
    GrantedExactlyWhen(s.store, setup.device, id, token, now);
    KeepsRows(s.store, setup.device, id, token, now);
    var claimed := StartPullStep(setup, s, id, token, now);
    FetchedExactlyWhen(claimed, body);
    RequestTakenInAs(setup, s.tables, claimed.pull.m, body, request);
  }

  lemma KeepsRows(s: Store, who: Device, id: Id, token: Token, now: Time)
    ensures Claim(s, who, id, token, now).0.transfers == s.transfers
  {
  }

  /** Once it is in the tables, the receipt is sent, and if the store has streamed the file to its end and the
      lease still lasts when the receipt arrives, the delivery is confirmed. */
  lemma RequestIsConfirmed<B>(setup: Setup, s: Sys<B>, id: Id, lease: Lease, size: nat, t1: Time, t2: Time, t3: Time)
    requires IsHolding(s.store, (id, setup.device), lease) && s.store.clock <= t1 <= t2 <= t3 < lease.until
    requires s.pull.InTables? && s.pull.m.id == id && s.pull.token == lease.token && s.pull.sha == s.store.transfers[id].spec.sha
    ensures var (open, answer) := OpenDownload(s.store, setup.device, id, lease.token, t1);
            && answer.Opened?
            && var read := FinishDownload(open, answer.stream, t2);
               && ReceiptStep(s.(store := read)) == s.(store := read, sent := s.sent + {Ack(id, lease.token, s.pull.sha)})
               && var (done, reply) := Acknowledge(read, setup.device, id, lease.token, s.pull.sha, t3);
                  reply.Confirmed? && (id, setup.device) in done.deliveries && done.deliveries[(id, setup.device)].receipt.Acked?
  {
    hide Safety.Inv, OpenDownload, FinishDownload, Acknowledge, OnlyDelivery;
    HolderReads(s.store, setup.device, id, lease, t1, t2);
    var (open, answer) := OpenDownload(s.store, setup.device, id, lease.token, t1);
    var read := FinishDownload(open, answer.stream, t2);
    OnlyThatDelivery(s.store, read, id, setup.device);
    ConfirmedExactlyWhen(read, setup.device, id, lease.token, s.pull.sha, t3);
    ConfirmedAs(read, setup.device, id, lease.token, s.pull.sha, t3);
  }

  lemma OnlyThatDelivery(s: Store, after: Store, id: Id, who: Device)
    requires OnlyDelivery(s, after, (id, who))
    ensures after.transfers == s.transfers && after.up == s.up
  {
  }

  /** A message sent again in the same canonical form is answered from its receipt, however it is written;
      one in another form is answered by the bridge itself with a refusal. Neither runs anything. */
  lemma RepeatIsAnswered<B>(setup: Setup, s: Sys<B>, key: Key, script: Script<B>)
    requires IsPending(s.tables, key) && (setup.account, s.tables.inbox[key].request.messageId) in s.ledger.receipts
    ensures var request := s.tables.inbox[key].request;
            var receipt := s.ledger.receipts[(setup.account, request.messageId)];
            AskStep(setup, s, key, true, script) ==
              s.(answer := Some((key, if receipt.hash == Sha256(request.canonical) then receipt.response else setup.refusal(request, 409))))
  {
  }

  /** A crash of the bridge forgets what it was doing, and nothing it has on disk or has sent. */
  lemma CrashForgets<B>(setup: Setup, s: Sys<B>)
    ensures After(setup, s, BridgeCrash) == Sys(s.store, s.tables, s.archive, s.ledger, Idle, s.sent, None, None)
  {
  }

  /** A queued message that the backend accepts takes effect, and its answer is recorded with a reply due. */
  lemma RequestIsAnswered<B>(setup: Setup, s: Sys<B>, key: Key, script: Script<B>)
    requires IsPending(s.tables, key) && s.answer.None? && script.verdict.Accepted?
    requires var request, response := s.tables.inbox[key].request, script.verdict.response;
             && (setup.account, request.messageId) !in s.ledger.receipts && |response.text| <= 512 * 1024
             && response.sender == setup.device && response.inReplyTo == request.messageId && response.operation == request.operation
    ensures var asked := AskStep(setup, s, key, true, script);
            && asked.answer == Some((key, script.verdict.response))
            && asked.ledger.business == Replay(script.actions, WritesLeft(script.actions), s.ledger.business)
            && var recorded := After(setup, asked, RecordAnswer);
               && recorded.answer.None? && key in recorded.tables.inbox
               && recorded.tables.inbox[key].response == Some(script.verdict.response)
               && key in recorded.tables.replies && recorded.ledger == asked.ledger
  {
    hide Apply, Applied, Replay, WritesLeft;
    var request := s.tables.inbox[key].request;
    NewMessageRunExactlyWhen(s.ledger, setup.account, true, request.messageId, HashOf(request), script);
    AnswerRecordedExactlyWhen(setup, s.tables, key, script.verdict.response);
  }

  /** A reply that is due is reserved in the store when there is room; what the store then reports of its
      transfer decides whether it counts as delivered. */
  lemma ReplyIsSent<B>(setup: Setup, s: Sys<B>, key: Key, newId: Id, free: int, ttl: Time, now: Time)
    requires s.pushed.None? && key in s.tables.inbox && s.tables.inbox[key].response.Some?
    requires key in s.tables.replies && s.tables.replies[key].transfer.None? && !s.tables.replies[key].progress.Delivered?
    requires var spec := ReplySpec(setup, s.tables.inbox[key], s.tables.replies[key].attempt, ttl);
             && Reserve(s.store, setup.device, spec, newId, free, now).1 == Public(newId, Uploading)
    ensures var pushed := PushStep(setup, s, key, newId, free, ttl, now);
            && pushed.pushed == Some((key, newId, Uploading))
            && var recorded := After(setup, pushed, RecordPush);
               && recorded.pushed.None? && key in recorded.tables.replies
               && recorded.tables.replies[key].transfer == Some(newId) && recorded.tables.replies[key].progress.Uploaded?
               && recorded.store == pushed.store
  {
    hide Reserve, Pushed;
    PushedAs(s.tables, key, newId, Uploading);
  }

  /** A poll takes the store's word: a reply is delivered exactly when its transfer is, and asks for another
      attempt exactly when its transfer is gone, expired, cancelled or past its lifetime. */
  lemma ReplyIsFollowed<B>(s: Sys<B>, key: Key)
    requires key in s.tables.replies && s.tables.replies[key].transfer.Some? && !s.tables.replies[key].progress.Delivered?
    ensures var after, id := PollStep(s, key), s.tables.replies[key].transfer.value;
            && key in after.tables.replies
            && (after.tables.replies[key].progress.Delivered? <==> id in s.store.transfers && s.store.transfers[id].stage.Delivered?)
            && (id !in s.store.transfers ==> after.tables.replies[key] == ReplyRow(s.tables.replies[key].attempt + 1, None, Waiting))
            && (id in s.store.transfers && !s.store.transfers[id].stage.Delivered? ==>
                  var row := s.store.transfers[id];
                  after.tables.replies[key] ==
                  if row.stage.Expired? || row.stage.Cancelled? || row.expiresAt <= s.store.clock
                  then ReplyRow(s.tables.replies[key].attempt + 1, None, Waiting) else s.tables.replies[key])
            && after.store == s.store && after.ledger == s.ledger && after.tables.inbox == s.tables.inbox
  {
  }
}
