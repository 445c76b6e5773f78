/** What holds in every state the whole relay can reach: no acknowledged message is lost, each
    message changes the account at most once, and a reply counted as delivered reached its device. */
module RelayDelivery {
  import opened Basics
  import opened RelayStore
  import opened RelayBackend
  import opened RelayBridge
  import opened RelaySystem
  import opened RelayClient
  import Safety = RelayStoreSafety
  import Leases = RelayLeases
  import Runs = RelayStoreRuns
  import opened RelayStoreHistory

  type Specs = map<Id, (Device, Spec)>
  type Confirmed = map<(Id, Device), Token>

  // ------------------------------------------------------------- the invariant

  /** The item being pulled is a reservation of the store; once downloaded it is in the archive,
      once past `saved` it is in the tables. */
  ghost predicate PullOk(pull: Pull, specs: Specs, archive: map<Id, Bytes>, received: map<Id, Arrival>) {
    pull.Idle? ||
    (&& pull.m.id in specs
     && pull.m == ManifestOf(pull.m.id, specs[pull.m.id].0, specs[pull.m.id].1)
     && pull.sha == specs[pull.m.id].1.sha && pull.size == specs[pull.m.id].1.size
     && (!pull.Claimed? ==> pull.m.id in archive && Sha256(archive[pull.m.id]) == pull.sha)
     && (pull.InTables? ==> pull.m.id in received))
  }

  /** A receipt is sent, and so can be confirmed, only for an arrival already in the tables. */
  ghost predicate ReceiptsOk(device: Device, sent: set<Ack>, confirmed: Confirmed, received: map<Id, Arrival>) {
    && (forall ack :: ack in sent ==> ack.id in received)
    && (forall id :: (id, device) in confirmed ==> id in received)
  }

  /** Every arrival is archived byte for byte; a queued one is in the inbox. */
  ghost predicate ArrivalsOk(setup: Setup, specs: Specs, archive: map<Id, Bytes>, received: map<Id, Arrival>,
                             inbox: map<Key, Entry>)
  {
    forall id :: id in received ==>
      && id in specs && id in archive && Sha256(archive[id]) == specs[id].1.sha
      && (received[id].Queued? ==> IsQueued(setup, ManifestOf(id, specs[id].0, specs[id].1), archive[id], inbox))
  }

  ghost predicate IsQueued(setup: Setup, m: Manifest, content: Bytes, inbox: map<Key, Entry>) {
    && Accepts(setup, m, content).Some?
    && KeyOf(Accepts(setup, m, content).value) in inbox
    && inbox[KeyOf(Accepts(setup, m, content).value)].digest == DigestOf(Accepts(setup, m, content).value)
  }

  /** `response` is the backend's stored receipt for the request, or the bridge's own refusal. */
  ghost predicate IsAnswer(setup: Setup, receipts: map<(User, MessageId), Receipt>, request: Request, response: Response) {
    || ((setup.account, request.messageId) in receipts
        && receipts[(setup.account, request.messageId)] == Receipt(HashOf(request), response))
    || (exists code :: IsRefusalCode(code) && response == setup.refusal(request, code))
  }

  ghost predicate InboxOk(setup: Setup, receipts: map<(User, MessageId), Receipt>, inbox: map<Key, Entry>,
                          answer: Option<(Key, Response)>)
  {
    && (forall key :: key in inbox ==>
          && inbox[key].digest == DigestOf(inbox[key].request) && KeyOf(inbox[key].request) == key
          && (inbox[key].response.Some? ==> IsAnswer(setup, receipts, inbox[key].request, inbox[key].response.value)))
    && (answer.Some? ==>
          answer.value.0 in inbox && IsAnswer(setup, receipts, inbox[answer.value.0].request, answer.value.1))
  }

  /** The transfer `id` was reserved by this bridge to carry exactly `entry`'s response to its sender. */
  predicate Carries(device: Device, specs: Specs, id: Id, entry: Entry) {
    && id in specs && specs[id].0 == device && entry.response.Some?
    && specs[id].1.targets == {entry.request.sender}
    && specs[id].1.size == |entry.response.value.text| && specs[id].1.sha == Sha256(entry.response.value.text)
  }

  /** The sender has confirmed a transfer that carries the response. */
  ghost predicate Reached(device: Device, specs: Specs, confirmed: Confirmed, entry: Entry) {
    exists id :: Carries(device, specs, id, entry) && (id, entry.request.sender) in confirmed
  }

  ghost predicate RepliesOk(device: Device, specs: Specs, confirmed: Confirmed, inbox: map<Key, Entry>,
                            replies: map<Key, ReplyRow>, pushed: Option<(Key, Id, Stage)>)
  {
    && (forall key :: key in replies ==>
          && key in inbox && inbox[key].response.Some?
          && (replies[key].transfer.Some? ==> Carries(device, specs, replies[key].transfer.value, inbox[key]))
          && (replies[key].progress.Delivered? ==> Reached(device, specs, confirmed, inbox[key])))
    && (pushed.Some? ==>
          && pushed.value.0 in inbox && Carries(device, specs, pushed.value.1, inbox[pushed.value.0])
          && (pushed.value.2.Delivered? ==> (pushed.value.1, inbox[pushed.value.0].request.sender) in confirmed))
  }

  ghost predicate Inv<B>(setup: Setup, s: Sys<B>) {
    && Safety.Inv(s.store)
    && PullOk(s.pull, s.store.specs, s.archive, s.tables.received)
    && ReceiptsOk(setup.device, s.sent, s.store.confirmed, s.tables.received)
    && ArrivalsOk(setup, s.store.specs, s.archive, s.tables.received, s.tables.inbox)
    && InboxOk(setup, s.ledger.receipts, s.tables.inbox, s.answer)
    && RepliesOk(setup.device, s.store.specs, s.store.confirmed, s.tables.inbox, s.tables.replies, s.pushed)
  }

  // ------------------------------------------------------- the store's history

  /** A delivered transfer was confirmed by each of its targets. */
  lemma DeliveredIsConfirmed(s: Store, id: Id, d: Device)
    requires Safety.Inv(s) && id in s.transfers && s.transfers[id].stage.Delivered? && d in s.transfers[id].spec.targets
    ensures (id, d) in s.confirmed
  {
    assert s.deliveries[(id, d)].receipt.Acked?;
    Runs.AckedWasServed(s, (id, d));
  }

  lemma RowMatchesSpecs(s: Store, id: Id)
    requires Safety.Inv(s) && id in s.transfers
    ensures id in s.specs && s.specs[id] == (s.transfers[id].source, s.transfers[id].spec)
  {
  }

  // -------------------------------------------------------------- the events

  lemma GrowthKeeps<B>(setup: Setup, s: Sys<B>, store: Store)
    requires Inv(setup, s) && Safety.Inv(store) && Grows(s.store, store)
    requires forall id :: (id, setup.device) in store.confirmed && (id, setup.device) !in s.store.confirmed ==>
      id in s.tables.received
    ensures Inv(setup, s.(store := store))
  {
    hide Safety.Inv, Grows, PullOk, ArrivalsOk, InboxOk, RepliesOk;
    GrowthKeepsReplies(setup.device, s.store, store, s.tables, s.pushed);
    SpecsGrow(s.store, store);
    GrowthKeepsArrivals(setup, s.store.specs, store.specs, s.pull, s.archive, s.tables);
  }

  lemma SpecsGrow(before: Store, after: Store)
    requires Grows(before, after)
    ensures before.specs.Keys <= after.specs.Keys && forall id :: id in before.specs ==> after.specs[id] == before.specs[id]
  {
  }

  lemma GrowthKeepsArrivals(setup: Setup, before: Specs, after: Specs, pull: Pull, archive: map<Id, Bytes>, tables: Tables)
    requires before.Keys <= after.Keys && forall id :: id in before ==> after[id] == before[id]
    requires PullOk(pull, before, archive, tables.received) && ArrivalsOk(setup, before, archive, tables.received, tables.inbox)
    ensures PullOk(pull, after, archive, tables.received) && ArrivalsOk(setup, after, archive, tables.received, tables.inbox)
  {
    hide IsQueued;
  }

  lemma GrowthKeepsReplies(device: Device, before: Store, after: Store, tables: Tables, pushed: Option<(Key, Id, Stage)>)
    requires Grows(before, after)
    requires RepliesOk(device, before.specs, before.confirmed, tables.inbox, tables.replies, pushed)
    ensures RepliesOk(device, after.specs, after.confirmed, tables.inbox, tables.replies, pushed)
  {
    forall entry | Reached(device, before.specs, before.confirmed, entry)
      ensures Reached(device, after.specs, after.confirmed, entry)
    {
      var id :| Carries(device, before.specs, id, entry) && (id, entry.request.sender) in before.confirmed;
      assert Carries(device, after.specs, id, entry);
    }
    hide Reached;
  }

  lemma AtStoreKeepsInv<B>(setup: Setup, s: Sys<B>, op: Runs.Op)
    requires Inv(setup, s) && Enabled(setup, s, AtStore(op))
    ensures Inv(setup, s.(store := Runs.Step(s.store, op)))
  {
    hide Safety.Inv;
    Runs.StepKeepsInv(s.store, op);
    StoreGrows(s.store, op);
    hide Runs.Step, Runs.Enabled, Inv;
    GrowthKeeps(setup, s, Runs.Step(s.store, op));
  }

  lemma ReceiptKeepsInv<B>(setup: Setup, s: Sys<B>, ack: Ack, now: Time)
    requires Inv(setup, s) && s.store.up && now >= s.store.clock && ack in s.sent
    ensures Inv(setup, s.(store := Acknowledge(s.store, setup.device, ack.id, ack.token, ack.sha, now).0))
  {
    hide Safety.Inv;
    var op := Runs.OpAcknowledge(setup.device, ack.id, ack.token, ack.sha, now);
    Runs.StepKeepsInv(s.store, op);
    StoreGrows(s.store, op);
    hide Acknowledge;
    GrowthKeeps(setup, s, Runs.Step(s.store, op));
  }

  lemma StartPullKeepsInv<B>(setup: Setup, s: Sys<B>, id: Id, token: Token, now: Time)
    requires Inv(setup, s) && s.pull.Idle? && s.store.up && now >= s.store.clock && token !in s.store.grants
    ensures Inv(setup, StartPullStep(setup, s, id, token, now))
  {
    hide Safety.Inv;
    var op := Runs.OpClaim(setup.device, id, token, now);
    Runs.StepKeepsInv(s.store, op);
    StoreGrows(s.store, op);
    var store := Runs.Step(s.store, op);
    GrowthKeeps(setup, s, store);
    if id in store.transfers { RowMatchesSpecs(store, id); }
    hide Claim;
  }

  lemma FetchKeepsInv<B>(setup: Setup, s: Sys<B>, body: Bytes)
    requires Inv(setup, s)
    ensures Inv(setup, FetchStep(s, body))
  {
    hide Safety.Inv, InboxOk, RepliesOk, IsQueued;
  }

  lemma SaveKeepsInv<B>(setup: Setup, s: Sys<B>)
    requires Inv(setup, s)
    ensures Inv(setup, SaveStep(setup, s))
  {
    if s.pull.Downloaded? {
      SavedArrivals(setup, s);
      SavedInbox(setup, s);
      SavedReplies(setup, s);
      SavedReceipts(setup, s);
      hide Safety.Inv, InboxOk, RepliesOk, ArrivalsOk, ReceiptsOk, Saved;
      assert Inv(setup, SaveStep(setup, s));
    }
  }

  lemma SavedArrivals<B>(setup: Setup, s: Sys<B>)
    requires ArrivalsOk(setup, s.store.specs, s.archive, s.tables.received, s.tables.inbox)
    requires PullOk(s.pull, s.store.specs, s.archive, s.tables.received) && s.pull.Downloaded?
    ensures var t := Saved(setup, s.tables, s.pull.m, s.archive[s.pull.m.id]);
            && ArrivalsOk(setup, s.store.specs, s.archive, t.received, t.inbox)
            && s.pull.m.id in t.received
  {
    var t := Saved(setup, s.tables, s.pull.m, s.archive[s.pull.m.id]);
    SavedKeeps(setup, s.tables, s.pull.m, s.archive[s.pull.m.id]);
    if s.pull.m.id !in s.tables.received { QueuedIsInTheInbox(setup, s.tables, s.pull.m, s.archive[s.pull.m.id]); }
    hide Saved, Accepts;
  }

  lemma SavedInbox<B>(setup: Setup, s: Sys<B>)
    requires InboxOk(setup, s.ledger.receipts, s.tables.inbox, s.answer)
    requires s.pull.Downloaded? && s.pull.m.id in s.archive
    ensures var t := Saved(setup, s.tables, s.pull.m, s.archive[s.pull.m.id]);
            InboxOk(setup, s.ledger.receipts, t.inbox, s.answer)
  {
    hide IsAnswer;
  }

  lemma SavedReplies<B>(setup: Setup, s: Sys<B>)
    requires RepliesOk(setup.device, s.store.specs, s.store.confirmed, s.tables.inbox, s.tables.replies, s.pushed)
    requires s.pull.Downloaded? && s.pull.m.id in s.archive
    ensures var t := Saved(setup, s.tables, s.pull.m, s.archive[s.pull.m.id]);
            RepliesOk(setup.device, s.store.specs, s.store.confirmed, t.inbox, t.replies, s.pushed)
  {
    hide Carries, Reached, Accepts;
  }

  lemma SavedReceipts<B>(setup: Setup, s: Sys<B>)
    requires ReceiptsOk(setup.device, s.sent, s.store.confirmed, s.tables.received)
    requires s.pull.Downloaded? && s.pull.m.id in s.archive
    ensures var t := Saved(setup, s.tables, s.pull.m, s.archive[s.pull.m.id]);
            ReceiptsOk(setup.device, s.sent, s.store.confirmed, t.received)
  {
  }

  lemma AnswersStay(setup: Setup, before: map<(User, MessageId), Receipt>, after: map<(User, MessageId), Receipt>,
                    inbox: map<Key, Entry>, answer: Option<(Key, Response)>)
    requires InboxOk(setup, before, inbox, answer)
    requires forall k :: k in before ==> k in after && after[k] == before[k]
    ensures InboxOk(setup, after, inbox, answer)
  {
    forall request, response | IsAnswer(setup, before, request, response) ensures IsAnswer(setup, after, request, response) {
    }
    hide IsAnswer;
  }

  lemma AskKeepsInv<B>(setup: Setup, s: Sys<B>, key: Key, writable: bool, script: Script<B>)
    requires Inv(setup, s) && IsPending(s.tables, key) && s.answer.None?
    ensures Inv(setup, AskStep(setup, s, key, writable, script))
  {
    var s' := AskStep(setup, s, key, writable, script);
    var request := s.tables.inbox[key].request;
    AnswersStay(setup, s.ledger.receipts, s'.ledger.receipts, s.tables.inbox, None);
    if s'.answer.Some? {
      assert IsAnswer(setup, s'.ledger.receipts, request, s'.answer.value.1) by {
        assert IsRefusalCode(409);
      }
    }
    hide Safety.Inv, PullOk, ReceiptsOk, ArrivalsOk, RepliesOk, IsAnswer;
  }

  lemma RefusalKeepsInv<B>(setup: Setup, s: Sys<B>, key: Key, code: nat)
    requires Inv(setup, s) && IsPending(s.tables, key) && s.answer.None? && IsRefusalCode(code)
    ensures Inv(setup, s.(answer := Some((key, setup.refusal(s.tables.inbox[key].request, code)))))
  {
    var request := s.tables.inbox[key].request;
    assert IsAnswer(setup, s.ledger.receipts, request, setup.refusal(request, code));
    hide Safety.Inv, PullOk, ReceiptsOk, ArrivalsOk, RepliesOk, IsAnswer;
  }

  lemma RecordAnswerKeepsInv<B>(setup: Setup, s: Sys<B>)
    requires Inv(setup, s) && s.answer.Some?
    ensures Inv(setup, s.(tables := Applied(setup, s.tables, s.answer.value.0, s.answer.value.1), answer := None))
  {
    hide Safety.Inv, PullOk, ReceiptsOk, ArrivalsOk, InboxOk, RepliesOk;
    RecordedInbox(setup, s);
    RecordedArrivals(setup, s);
    RecordedReplies(setup, s);
  }

  lemma RecordedInbox<B>(setup: Setup, s: Sys<B>)
    requires InboxOk(setup, s.ledger.receipts, s.tables.inbox, s.answer) && s.answer.Some?
    ensures var t := Applied(setup, s.tables, s.answer.value.0, s.answer.value.1);
            InboxOk(setup, s.ledger.receipts, t.inbox, None)
  {
    hide IsAnswer;
  }

  lemma RecordedArrivals<B>(setup: Setup, s: Sys<B>)
    requires ArrivalsOk(setup, s.store.specs, s.archive, s.tables.received, s.tables.inbox) && s.answer.Some?
    ensures var t := Applied(setup, s.tables, s.answer.value.0, s.answer.value.1);
            ArrivalsOk(setup, s.store.specs, s.archive, t.received, t.inbox)
  {
    hide Accepts;
  }

  lemma RecordedReplies<B>(setup: Setup, s: Sys<B>)
    requires RepliesOk(setup.device, s.store.specs, s.store.confirmed, s.tables.inbox, s.tables.replies, s.pushed)
    requires s.answer.Some?
    ensures var t := Applied(setup, s.tables, s.answer.value.0, s.answer.value.1);
            RepliesOk(setup.device, s.store.specs, s.store.confirmed, t.inbox, t.replies, s.pushed)
  {
  }

  lemma PushKeepsInv<B>(setup: Setup, s: Sys<B>, key: Key, newId: Id, free: int, ttl: Time, now: Time)
    requires Inv(setup, s) && s.store.up && now >= s.store.clock && newId !in s.store.specs
    requires key in s.tables.replies && key in s.tables.inbox && s.tables.inbox[key].response.Some?
    ensures Inv(setup, PushStep(setup, s, key, newId, free, ttl, now))
  {
    hide Inv, Safety.Inv, Reserve;
    var spec := ReplySpec(setup, s.tables.inbox[key], s.tables.replies[key].attempt, ttl);
    StoreIsSafe(setup, s);
    PushedTransfer(setup.device, s.store, spec, newId, free, now);
    ReservationKeepsInv(setup, s, spec, newId, free, now);
    var (store, reply) := Reserve(s.store, setup.device, spec, newId, free, now);
    var s1 := s.(store := store);
    SetPushed(setup, s1, None);
    if reply.Public? { SetPushed(setup, s1, Some((key, reply.id, reply.stage))); }
  }

  lemma StoreIsSafe<B>(setup: Setup, s: Sys<B>)
    requires Inv(setup, s)
    ensures Safety.Inv(s.store)
  {
    hide Safety.Inv, PullOk, ReceiptsOk, ArrivalsOk, InboxOk, RepliesOk;
  }

  /** The store's part of a push. */
  lemma ReservationKeepsInv<B>(setup: Setup, s: Sys<B>, spec: Spec, newId: Id, free: int, now: Time)
    requires Inv(setup, s) && s.store.up && now >= s.store.clock && newId !in s.store.specs && spec.targets != {}
    ensures Inv(setup, s.(store := Reserve(s.store, setup.device, spec, newId, free, now).0))
  {
    hide Inv, Safety.Inv, Reserve;
    var op := Runs.OpReserve(setup.device, spec, newId, free, now);
    StoreIsSafe(setup, s);
    Runs.StepKeepsInv(s.store, op);
    StoreGrows(s.store, op);
    assert Runs.Step(s.store, op) == Reserve(s.store, setup.device, spec, newId, free, now).0;
    hide Runs.Step;
    GrowthKeeps(setup, s, Runs.Step(s.store, op));
  }

  lemma SetPushed<B>(setup: Setup, s: Sys<B>, pushed: Option<(Key, Id, Stage)>)
    requires Inv(setup, s)
    requires pushed.Some? ==>
      && pushed.value.0 in s.tables.inbox
      && Carries(setup.device, s.store.specs, pushed.value.1, s.tables.inbox[pushed.value.0])
      && (pushed.value.2.Delivered? ==> (pushed.value.1, s.tables.inbox[pushed.value.0].request.sender) in s.store.confirmed)
    ensures Inv(setup, s.(pushed := pushed))
  {
    hide Safety.Inv, PullOk, ReceiptsOk, ArrivalsOk, InboxOk, Reached, Carries;
  }

  /** Whatever `reserve` answers, the transfer it names has exactly the asked-for specification. */
  lemma PushedTransfer(device: Device, s: Store, spec: Spec, newId: Id, free: int, now: Time)
    requires Safety.Inv(s) && s.up && now >= s.clock && newId !in s.specs && spec.targets != {}
    ensures var (store, reply) := Reserve(s, device, spec, newId, free, now);
            reply.Public? ==>
              && reply.id in store.specs && store.specs[reply.id] == (device, spec)
              && (reply.stage.Delivered? ==> forall d :: d in spec.targets ==> (reply.id, d) in store.confirmed)
  {
    hide Safety.Inv, HasRoom, NewDeliveries;
    var s0 := s.(clock := now);
    if KeyTaken(s0, device, spec.key) {
      var id :| SameKey(s0, device, spec.key, id);
      assert SameKey(s, device, spec.key, id);
      Runs.PushIsIdempotent(s, device, spec, newId, free, now, id);
      RowMatchesSpecs(s, id);
      if s.transfers[id].stage.Delivered? {
        forall d | d in s.transfers[id].spec.targets ensures (id, d) in s.confirmed { DeliveredIsConfirmed(s, id, d); }
      }
    }
  }

  lemma SetReplies<B>(setup: Setup, s: Sys<B>, replies: map<Key, ReplyRow>, pushed: Option<(Key, Id, Stage)>)
    requires Inv(setup, s)
    requires RepliesOk(setup.device, s.store.specs, s.store.confirmed, s.tables.inbox, replies, pushed)
    ensures Inv(setup, s.(tables := s.tables.(replies := replies), pushed := pushed))
  {
    hide Safety.Inv, PullOk, ReceiptsOk, ArrivalsOk, InboxOk, RepliesOk;
  }

  /** Replies stay in order when one row changes to one that is in order. */
  lemma OneReply(device: Device, store: Store, t: Tables, pushed: Option<(Key, Id, Stage)>, key: Key, row: ReplyRow)
    requires RepliesOk(device, store.specs, store.confirmed, t.inbox, t.replies, pushed) && key in t.replies
    requires row.transfer.Some? ==> Carries(device, store.specs, row.transfer.value, t.inbox[key])
    requires row.progress.Delivered? ==> Reached(device, store.specs, store.confirmed, t.inbox[key])
    ensures RepliesOk(device, store.specs, store.confirmed, t.inbox, t.replies[key := row], pushed)
  {
    hide Carries, Reached;
  }

  lemma RecordPushKeepsInv<B>(setup: Setup, s: Sys<B>)
    requires Inv(setup, s) && s.pushed.Some?
    ensures var (key, id, stage) := s.pushed.value; Inv(setup, s.(tables := Pushed(s.tables, key, id, stage), pushed := None))
  {
    hide Safety.Inv, PullOk, ReceiptsOk, ArrivalsOk, InboxOk, Carries, Reached;
    var (key, id, stage) := s.pushed.value;
    if key in s.tables.replies {
      PushedRow(setup.device, s.store, s.tables, s.pushed);
      OneReply(setup.device, s.store, s.tables, None, key, Pushed(s.tables, key, id, stage).replies[key]);
    }
    hide Inv, RepliesOk;
    SetReplies(setup, s, Pushed(s.tables, key, id, stage).replies, None);
  }

  lemma PushedRow(device: Device, store: Store, t: Tables, pushed: Option<(Key, Id, Stage)>)
    requires RepliesOk(device, store.specs, store.confirmed, t.inbox, t.replies, pushed)
    requires pushed.Some? && pushed.value.0 in t.replies
    ensures var (key, id, stage) := pushed.value; var row := Pushed(t, key, id, stage).replies[key];
            && (row.transfer.Some? ==> Carries(device, store.specs, row.transfer.value, t.inbox[key]))
            && (row.progress.Delivered? ==> Reached(device, store.specs, store.confirmed, t.inbox[key]))
  {
    var (key, id, stage) := pushed.value;
    assert Carries(device, store.specs, id, t.inbox[key]);
  }

  lemma PollKeepsInv<B>(setup: Setup, s: Sys<B>, key: Key)
    requires Inv(setup, s)
    ensures Inv(setup, PollStep(s, key))
  {
    hide Safety.Inv, PullOk, ReceiptsOk, ArrivalsOk, InboxOk, Carries, Reached;
    if key in s.tables.replies && s.tables.replies[key].transfer.Some? {
      var id, entry := s.tables.replies[key].transfer.value, s.tables.inbox[key];
      if id in s.store.transfers && s.store.transfers[id].stage.Delivered? {
        DeliveredReached(setup.device, s.store, id, entry);
      }
      OneReply(setup.device, s.store, s.tables, s.pushed, key, PollStep(s, key).tables.replies[key]);
    }
    hide Inv, RepliesOk;
    SetReplies(setup, s, PollStep(s, key).tables.replies, s.pushed);
  }

  lemma DeliveredReached(device: Device, s: Store, id: Id, entry: Entry)
    requires Safety.Inv(s) && Carries(device, s.specs, id, entry)
    requires id in s.transfers && s.transfers[id].stage.Delivered?
    ensures Reached(device, s.specs, s.confirmed, entry)
  {
    RowMatchesSpecs(s, id);
    DeliveredIsConfirmed(s, id, entry.request.sender);
  }

  lemma StepKeepsInv<B>(setup: Setup, s: Sys<B>, e: Event<B>)
    requires Inv(setup, s) && Enabled(setup, s, e)
    ensures Inv(setup, After(setup, s, e))
  {
    match e
    case AtStore(op) => AtStoreKeepsInv(setup, s, op);
    case StartPull(id, token, now) => StartPullKeepsInv(setup, s, id, token, now);
    case Fetch(body) => FetchKeepsInv(setup, s, body);
    case SaveItem => SaveKeepsInv(setup, s);
    case ReceiptArrives(ack, now) => ReceiptKeepsInv(setup, s, ack, now);
    case AskBackend(key, writable, script) => AskKeepsInv(setup, s, key, writable, script);
    case BackendRefuses(key, code) => RefusalKeepsInv(setup, s, key, code);
    case RecordAnswer => if s.answer.Some? { RecordAnswerKeepsInv(setup, s); }
    case PushReply(key, newId, free, ttl, now) => PushKeepsInv(setup, s, key, newId, free, ttl, now);
    case RecordPush => if s.pushed.Some? { RecordPushKeepsInv(setup, s); }
    case PollReply(key) => PollKeepsInv(setup, s, key);
    case LocalChange(change) => LocalKeepsInv(setup, s, change(s.ledger.business));
    case _ => BridgeKeepsInv(setup, s);
  }

  /** A local change leaves the receipts alone. */
  lemma LocalKeepsInv<B>(setup: Setup, s: Sys<B>, business: B)
    requires Inv(setup, s)
    ensures Inv(setup, s.(ledger := s.ledger.(business := business)))
  {
    hide Safety.Inv, PullOk, ReceiptsOk, ArrivalsOk, InboxOk, RepliesOk;
  }

  /** The bridge sends a receipt, gives up on an item, or loses its memory. */
  lemma BridgeKeepsInv<B>(setup: Setup, s: Sys<B>)
    requires Inv(setup, s)
    ensures Inv(setup, ReceiptStep(s)) && Inv(setup, s.(pull := Idle))
    ensures Inv(setup, s.(pull := Idle, answer := None, pushed := None))
  {
    hide Safety.Inv, ArrivalsOk, Carries, Reached;
  }

  // --------------------------------------------------------------- whole runs

  ghost predicate IsRun<B>(setup: Setup, cfg: Config, initial: B, run: seq<Sys<B>>, events: seq<Event<B>>) {
    && |run| == |events| + 1 && run[0] == Start(cfg, initial)
    && forall i :: 0 <= i < |events| ==> Enabled(setup, run[i], events[i]) && run[i + 1] == After(setup, run[i], events[i])
  }

  lemma {:induction false} EveryRunKeepsInv<B>(setup: Setup, cfg: Config, initial: B, run: seq<Sys<B>>,
                                               events: seq<Event<B>>, n: nat)
    requires IsRun(setup, cfg, initial, run, events) && n < |run|
    ensures Inv(setup, run[n])
  {
    if n == 0 {
      Runs.EveryRunKeepsInv(cfg, [Initial(cfg)], [], 0);
    } else {
      EveryRunKeepsInv(setup, cfg, initial, run, events, n - 1);
      assert run[n - 1 + 1] == After(setup, run[n - 1], events[n - 1]);
      hide Inv, After, Enabled;
      StepKeepsInv(setup, run[n - 1], events[n - 1]);
    }
  }

  /** In every reachable state a transfer whose receipt the store has accepted from the bridge's
      device is in the bridge's tables, its exact reserved content is in the archive, and if the
      bridge took it for a message, that message is in the inbox under its own digest. */
  lemma NoAcknowledgedMessageIsLost<B>(setup: Setup, cfg: Config, initial: B, run: seq<Sys<B>>,
                                       events: seq<Event<B>>, n: nat, id: Id)
    requires IsRun(setup, cfg, initial, run, events) && n < |run|
    requires (id, setup.device) in run[n].store.deliveries
             && run[n].store.deliveries[(id, setup.device)].receipt.Acked?
    ensures var s := run[n];
            && id in s.store.transfers && id in s.tables.received && id in s.archive
            && Sha256(s.archive[id]) == s.store.transfers[id].spec.sha
            && (s.tables.received[id].Queued? ==>
                  IsQueued(setup, ManifestOf(id, s.store.transfers[id].source, s.store.transfers[id].spec),
                           s.archive[id], s.tables.inbox))
  {
    EveryRunKeepsInv(setup, cfg, initial, run, events, n);
    AckedIsInTables(setup, run[n], id);
  }

  lemma AckedIsInTables<B>(setup: Setup, s: Sys<B>, id: Id)
    requires Inv(setup, s) && (id, setup.device) in s.store.deliveries
    requires s.store.deliveries[(id, setup.device)].receipt.Acked?
    ensures id in s.store.transfers && id in s.tables.received && id in s.archive
    ensures Sha256(s.archive[id]) == s.store.transfers[id].spec.sha
    ensures s.tables.received[id].Queued? ==>
      IsQueued(setup, ManifestOf(id, s.store.transfers[id].source, s.store.transfers[id].spec), s.archive[id], s.tables.inbox)
  {
    var k := (id, setup.device);
    Runs.AckedWasServed(s.store, k);
    assert k in s.store.confirmed by {
      assert Safety.DeliveriesOk(s.store.transfers, s.store.deliveries, s.store.grants, s.store.served,
                                 s.store.confirmed, s.store.clock);
    }
    RowMatchesSpecs(s.store, id);
    hide Safety.Inv, IsQueued, InboxOk, RepliesOk;
  }

  /** A reply the bridge counts as delivered was downloaded to the end and confirmed by the sender
      of the request, and what was confirmed is byte for byte the recorded response: the backend's
      receipt for that request, or the bridge's refusal of it. */
  lemma DeliveredRepliesReachedTheirDevice<B>(setup: Setup, cfg: Config, initial: B, run: seq<Sys<B>>,
                                              events: seq<Event<B>>, n: nat, key: Key)
    requires IsRun(setup, cfg, initial, run, events) && n < |run|
    requires key in run[n].tables.replies && run[n].tables.replies[key].progress.Delivered?
    ensures var s := run[n];
            && key in s.tables.inbox && s.tables.inbox[key].response.Some?
            && IsAnswer(setup, s.ledger.receipts, s.tables.inbox[key].request, s.tables.inbox[key].response.value)
            && exists id, token ::
                 && Carries(setup.device, s.store.specs, id, s.tables.inbox[key])
                 && (id, key.0, token) in s.store.served
  {
    EveryRunKeepsInv(setup, cfg, initial, run, events, n);
    var s := run[n];
    var entry := s.tables.inbox[key];
    var id :| Carries(setup.device, s.store.specs, id, entry) && (id, entry.request.sender) in s.store.confirmed;
    assert (id, key.0, s.store.confirmed[(id, key.0)]) in s.store.served;
  }

  /** The transactions of the account's database that an event makes. */
  ghost function LedgerOps<B>(setup: Setup, s: Sys<B>, e: Event<B>): seq<Op<B>> {
    match e
    case AskBackend(key, writable, script) =>
      if key in s.tables.inbox
      then [Relay(setup.account, writable, s.tables.inbox[key].request.messageId, HashOf(s.tables.inbox[key].request), script)]
      else []
    case LocalChange(change) => [Local(change)]
    case _ => []
  }

  ghost function LedgerRun<B>(setup: Setup, run: seq<Sys<B>>, events: seq<Event<B>>): seq<Op<B>>
    requires |run| == |events| + 1
  {
    if events == [] then []
    else
      var n := |events| - 1;
      LedgerRun(setup, run[..n + 1], events[..n]) + LedgerOps(setup, run[n], events[n])
  }

  /** The backend sees nothing of a run but these transactions, in this order. */
  lemma {:induction false} BackendSeesTransactions<B>(setup: Setup, cfg: Config, initial: B, run: seq<Sys<B>>, events: seq<Event<B>>)
    requires IsRun(setup, cfg, initial, run, events)
    ensures run[|events|].ledger == RunOf(Ledger(initial, map[]), LedgerRun(setup, run, events))
    decreases |events|
  {
    hide Enabled, LedgerOps, RelayBackend.Step;
    if events != [] {
      var n := |events| - 1;
      BackendSeesTransactions(setup, cfg, initial, run[..n + 1], events[..n]);
      assert Enabled(setup, run[n], events[n]) && run[n + 1] == After(setup, run[n], events[n]);
      hide After;
      OneEventAtTheLedger(setup, run[n], events[n]);
      var before, ops := LedgerRun(setup, run[..n + 1], events[..n]), LedgerOps(setup, run[n], events[n]);
      if ops == [] {
        assert before + ops == before;
      } else {
        assert (before + ops)[..|before|] == before && (before + ops)[|before|] == ops[0];
      }
    }
  }

  lemma OneEventAtTheLedger<B>(setup: Setup, s: Sys<B>, e: Event<B>)
    requires Enabled(setup, s, e)
    ensures var ops := LedgerOps(setup, s, e);
            After(setup, s, e).ledger == if ops == [] then s.ledger else RelayBackend.Step(s.ledger, ops[0])
    ensures |LedgerOps(setup, s, e)| <= 1
  {
  }

  /** Exactly once: over a whole run, with every repetition and crash in it, the account is the
      fold of its committed transactions, and a message whose recorded answer is not a refusal of
      the bridge's own is one of them, once. */
  lemma RecordedAnswersTookEffectOnce<B>(setup: Setup, cfg: Config, initial: B, run: seq<Sys<B>>,
                                         events: seq<Event<B>>, key: Key)
    requires IsRun(setup, cfg, initial, run, events)
    ensures var log := Committed(Ledger(initial, map[]), LedgerRun(setup, run, events));
            var s, name := run[|events|], (setup.account, key.1);
            && s.ledger.business == Fold(initial, log)
            && (forall i, j :: 0 <= i < j < |log| && Names(log[i], name) ==> !Names(log[j], name))
            && (key in s.tables.inbox && s.tables.inbox[key].response.Some?
                  && !(exists code :: IsRefusalCode(code)
                         && s.tables.inbox[key].response.value == setup.refusal(s.tables.inbox[key].request, code)) ==>
                  exists i :: 0 <= i < |log| && Names(log[i], name)
                    && IsReceiptOf(log[i], Receipt(HashOf(s.tables.inbox[key].request), s.tables.inbox[key].response.value)))
  {
    BackendSeesTransactions(setup, cfg, initial, run, events);
    EachMessageTakesEffectOnce(Ledger(initial, map[]), LedgerRun(setup, run, events));
    EveryRunKeepsInv(setup, cfg, initial, run, events, |events|);
    hide IsRun, Safety.Inv, RepliesOk, ArrivalsOk, PullOk, ReceiptsOk;
  }

  /** No step of the whole relay forgets an arrival, replaces a request or changes a recorded answer. */
  lemma InboxIsDurable<B>(setup: Setup, s: Sys<B>, e: Event<B>)
    requires Enabled(setup, s, e)
    ensures KeepsInbox(s.tables, After(setup, s, e).tables)
  {
    hide Saved, Applied, Pushed, Polled;
    match e
    case SaveItem =>
      if s.pull.Downloaded? && s.pull.m.id in s.archive { SavedKeeps(setup, s.tables, s.pull.m, s.archive[s.pull.m.id]); }
    case RecordAnswer => if s.answer.Some? { AppliedKeeps(setup, s.tables, s.answer.value.0, s.answer.value.1); }
    case RecordPush => if s.pushed.Some? { PushedKeeps(s.tables, s.pushed.value.0, s.pushed.value.1, s.pushed.value.2); }
    case PollReply(key) =>
      if key in s.tables.replies && s.tables.replies[key].transfer.Some? {
        var id := s.tables.replies[key].transfer.value;
        if id in s.store.transfers {
          PolledKeeps(s.tables, key, s.store.transfers[id].stage, s.store.transfers[id].expiresAt > s.store.clock);
        }
        PolledKeeps(s.tables, key, Expired, false);
      }
    case _ =>
  }
}
