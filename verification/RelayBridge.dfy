/** The desktop bridge: a durable inbox between the relay and the local backend. */
module RelayBridge {
  import opened Basics
  import opened RelayBackend
  import RelayStore

  type Id = RelayStore.Id
  type Device = RelayStore.Device
  type Key = (Device, MessageId)

  const MAX_BYTES := 512 * 1024
  const PROJECT := "ai-twin-sync-v1"

  /** The account, the device, its paired peers, and the parts of the message format that are not modelled:
      reading a request out of a file, making an error response, naming a transport key. */
  datatype Setup = Setup(account: User, device: Device, peers: set<Device>, decode: Bytes -> Option<Request>,
                         refusal: (Request, nat) -> Response, transportKey: (Response, nat, Device) -> string)

  /** An injective digest of a request. */
  datatype RequestDigest = DigestOf(request: Request)

  datatype Entry = Entry(digest: RequestDigest, request: Request, response: Option<Response>)

  datatype Progress = Waiting | Uploaded | Delivered
  datatype ReplyRow = ReplyRow(attempt: nat, transfer: Option<Id>, progress: Progress)

  datatype Arrival = Archived | Quarantined | Conflicting | Queued

  /** The three tables of `bridge.sqlite3`; an inbox entry is `applied` once it has a response. */
  datatype Tables = Tables(received: map<Id, Arrival>, inbox: map<Key, Entry>, replies: map<Key, ReplyRow>)

  /** What the manifest says of a file already saved to the archive. */
  datatype Manifest = Manifest(id: Id, source: Device, project: string, category: string)

  // ------------------------------------------------------------------- saved

  /** The request a file carries, if it is one this bridge accepts. */
  function Accepts(setup: Setup, m: Manifest, content: Bytes): Option<Request> {
    if m.project != PROJECT || m.category != "sync-request" then None
    else if m.source !in setup.peers || |content| > MAX_BYTES then None
    else
      match setup.decode(content)
      case Some(request) => if request.sender == m.source then Some(request) else None
      case None => None
  }

  function KeyOf(request: Request): Key {
    (request.sender, request.messageId)
  }

  function ArrivalOf(setup: Setup, t: Tables, m: Manifest, content: Bytes): Arrival {
    match Accepts(setup, m, content)
    case None => if m.project == PROJECT && m.category == "sync-request" then Quarantined else Archived
    case Some(request) =>
      if KeyOf(request) in t.inbox && t.inbox[KeyOf(request)].digest != DigestOf(request) then Conflicting else Queued
  }

  /** A confirmed reply is sent again, under a new attempt, when its request is received again. */
  function Reopen(replies: map<Key, ReplyRow>, key: Key): map<Key, ReplyRow> {
    if key in replies && replies[key].progress.Delivered?
    then replies[key := ReplyRow(replies[key].attempt + 1, None, Waiting)] else replies
  }

  function Saved(setup: Setup, t: Tables, m: Manifest, content: Bytes): Tables {
    if m.id in t.received then t
    else
      var arrival := ArrivalOf(setup, t, m, content);
      var t' := t.(received := t.received[m.id := arrival]);
      if !arrival.Queued? then t'
      else
        var request := Accepts(setup, m, content).value;
        var key := KeyOf(request);
        t'.(inbox := if key in t.inbox then t.inbox else t.inbox[key := Entry(DigestOf(request), request, None)],
            replies := Reopen(t.replies, key))
  }

  // ----------------------------------------------------------------- process

  predicate IsPending(t: Tables, key: Key) {
    key in t.inbox && t.inbox[key].response.None?
  }

  /** `validate` and the comparison with the request. */
  predicate Matches(setup: Setup, request: Request, response: Response) {
    response.sender == setup.device && response.inReplyTo == request.messageId && response.operation == request.operation
  }

  function Applied(setup: Setup, t: Tables, key: Key, response: Response): Tables {
    if !IsPending(t, key) || !Matches(setup, t.inbox[key].request, response) then t
    else t.(inbox := t.inbox[key := t.inbox[key].(response := Some(response))],
            replies := if key in t.replies then t.replies else t.replies[key := ReplyRow(0, None, Waiting)])
  }

  predicate IsRefusalCode(code: nat) {
    code == 400 || code == 409 || code == 413 || code == 422
  }

  // -------------------------------------------------------------------- send

  /** The reservation `push` makes for a reply. */
  function ReplySpec(setup: Setup, entry: Entry, attempt: nat, ttl: Time): RelayStore.Spec
    requires entry.response.Some?
  {
    var response := entry.response.value;
    RelayStore.Spec(setup.transportKey(response, attempt, entry.request.sender), PROJECT, "sync-response",
                    response.id + ".json", |response.text|, Sha256(response.text), {entry.request.sender}, ttl)
  }

  /** What `send` learns about the transfer of an earlier attempt; an unknown one counts as expired. */
  function Polled(t: Tables, key: Key, stage: RelayStore.Stage, alive: bool): Tables {
    if key !in t.replies || t.replies[key].transfer.None? || t.replies[key].progress.Delivered? then t
    else if stage.Delivered? then t.(replies := t.replies[key := t.replies[key].(progress := Delivered)])
    else if !stage.Expired? && !stage.Cancelled? && alive then t
    else t.(replies := t.replies[key := ReplyRow(t.replies[key].attempt + 1, None, Waiting)])
  }

  function Pushed(t: Tables, key: Key, id: Id, stage: RelayStore.Stage): Tables {
    if key !in t.replies || t.replies[key].progress.Delivered? then t
    else if stage.Expired? || stage.Cancelled?
    then t.(replies := t.replies[key := t.replies[key].(attempt := t.replies[key].attempt + 1, transfer := None)])
    else t.(replies := t.replies[key := t.replies[key].(transfer := Some(id),
                                                        progress := if stage.Delivered? then Delivered else Uploaded)])
  }

  // ---------------------------------------------------------- what they keep

  /** No step forgets an arrival, replaces a request, or changes a response once recorded. */
  ghost predicate KeepsInbox(before: Tables, after: Tables) {
    && (forall id :: id in before.received ==> id in after.received && after.received[id] == before.received[id])
    && (forall key :: key in before.inbox ==>
          && key in after.inbox
          && after.inbox[key].digest == before.inbox[key].digest
          && after.inbox[key].request == before.inbox[key].request
          && (before.inbox[key].response.Some? ==> after.inbox[key].response == before.inbox[key].response))
  }

  /** A reply's attempt number never goes down; it goes up whenever its transfer is given up. */
  ghost predicate KeepsAttempts(before: Tables, after: Tables) {
    forall key :: key in before.replies ==>
      && key in after.replies
      && before.replies[key].attempt <= after.replies[key].attempt
      && (before.replies[key].transfer.Some? && after.replies[key].transfer != before.replies[key].transfer
            && !before.replies[key].progress.Delivered? && after.replies[key].transfer.None? ==>
            before.replies[key].attempt < after.replies[key].attempt)
  }

  lemma SavedKeeps(setup: Setup, t: Tables, m: Manifest, content: Bytes)
    ensures KeepsInbox(t, Saved(setup, t, m, content)) && KeepsAttempts(t, Saved(setup, t, m, content))
  {
  }

  lemma AppliedKeeps(setup: Setup, t: Tables, key: Key, response: Response)
    ensures KeepsInbox(t, Applied(setup, t, key, response)) && KeepsAttempts(t, Applied(setup, t, key, response))
  {
  }

  lemma PolledKeeps(t: Tables, key: Key, stage: RelayStore.Stage, alive: bool)
    ensures KeepsInbox(t, Polled(t, key, stage, alive)) && KeepsAttempts(t, Polled(t, key, stage, alive))
  {
  }

  lemma PushedKeeps(t: Tables, key: Key, id: Id, stage: RelayStore.Stage)
    ensures KeepsInbox(t, Pushed(t, key, id, stage)) && KeepsAttempts(t, Pushed(t, key, id, stage))
  {
  }

  /** A message whose arrival was queued is in the inbox under its own digest, and a second
      content under the same id is told apart. */
  lemma QueuedIsInTheInbox(setup: Setup, t: Tables, m: Manifest, content: Bytes)
    requires m.id !in t.received
    ensures var t' := Saved(setup, t, m, content);
            && m.id in t'.received
            && (t'.received[m.id].Queued? <==>
                  Accepts(setup, m, content).Some? && var request := Accepts(setup, m, content).value;
                  KeyOf(request) in t'.inbox && t'.inbox[KeyOf(request)].digest == DigestOf(request))
  {
  }

  // ---------------------------------------------------------- the bridge object

  class Bridge {
    const setup: Setup
    var received: map<Id, Arrival>
    var inbox: map<Key, Entry>
    var replies: map<Key, ReplyRow>

    function View(): Tables
      reads this
    {
      Tables(received, inbox, replies)
    }

    constructor (setup: Setup)
      ensures this.setup == setup && View() == Tables(map[], map[], map[])
    {
      this.setup := setup;
      received, inbox, replies := map[], map[], map[];
    }

    /** The callback of `pull`, called after the file is on disk and before the receipt is sent. */
    method Save(m: Manifest, content: Bytes)
      modifies this
      ensures View() == Saved(setup, old(View()), m, content)
      ensures m.id !in old(received) && m.project == PROJECT && m.category == "sync-request" && m.source !in setup.peers ==>
        received == old(received)[m.id := Quarantined] && inbox == old(inbox) && replies == old(replies)
      ensures m.id !in old(received) && m.project == PROJECT && m.category == "sync-request" && m.source in setup.peers
              && |content| <= MAX_BYTES && setup.decode(content).Some? && setup.decode(content).value.sender == m.source ==>
        var request := setup.decode(content).value;
        var key := (m.source, request.messageId);
        && key in inbox && (key !in old(inbox) ==> inbox[key] == Entry(DigestOf(request), request, None))
        && (received[m.id].Queued? <==> inbox[key].digest == DigestOf(request))
    {
      if m.id in received { return; }
      var arrival, request := Archived, None;
      if m.project == PROJECT && m.category == "sync-request" {
        arrival := Quarantined;
        if m.source in setup.peers && |content| <= MAX_BYTES {
          request := setup.decode(content);
          if request.Some? && request.value.sender != m.source { request := None; }
        }
      }
      if request.Some? {
        var key := KeyOf(request.value);
        if key in inbox && inbox[key].digest != DigestOf(request.value) {
          arrival := Conflicting;
        } else {
          if key !in inbox {
            inbox := inbox[key := Entry(DigestOf(request.value), request.value, None)];
          }
          if key in replies && replies[key].progress.Delivered? {
            replies := replies[key := ReplyRow(replies[key].attempt + 1, None, Waiting)];
          }
          arrival := Queued;
        }
      }
      received := received[m.id := arrival];
    }

    /** One row of `process` after the backend has answered. */
    method Record(key: Key, response: Response) returns (recorded: bool)
      requires IsPending(View(), key)
      modifies this
      ensures View() == Applied(setup, old(View()), key, response)
      ensures recorded <==> Matches(setup, old(inbox)[key].request, response)
      ensures recorded <==> !IsPending(View(), key)
    {
      var request := inbox[key].request;
      if response.sender != setup.device || response.inReplyTo != request.messageId
         || response.operation != request.operation {
        return false;
      }
      inbox := inbox[key := inbox[key].(response := Some(response))];
      if key !in replies {
        replies := replies[key := ReplyRow(0, None, Waiting)];
      }
      return true;
    }

    /** One row of `send`: `stage` and `alive` describe the transfer of the last attempt, the rest
        is what a push would return. */
    method Send(key: Key, stage: RelayStore.Stage, alive: bool, pushedId: Id, pushedStage: RelayStore.Stage)
      requires key in replies && !replies[key].progress.Delivered?
      modifies this
      ensures View() == SendRow(old(View()), key, stage, alive, pushedId, pushedStage)
    {
      var row := replies[key];
      if row.transfer.Some? {
        if stage.Delivered? {
          replies := replies[key := row.(progress := Delivered)];
          return;
        }
        if !stage.Expired? && !stage.Cancelled? && alive { return; }
        row := ReplyRow(row.attempt + 1, None, Waiting);
        replies := replies[key := row];
      }
      if pushedStage.Expired? || pushedStage.Cancelled? {
        replies := replies[key := row.(attempt := row.attempt + 1, transfer := None)];
      } else {
        replies := replies[key := row.(transfer := Some(pushedId),
                                       progress := if pushedStage.Delivered? then Delivered else Uploaded)];
      }
    }

    /** `process`: every pending message is offered to the backend once; the answers come from it.
        A message it refuses outright gets an error response of the bridge's own making. */
    method Process(keys: seq<Key>, answer: Request -> Option<Result>) returns (count: nat)
      requires forall i, j :: 0 <= i < j < |keys| ==> keys[i] != keys[j]
      requires forall i :: 0 <= i < |keys| ==> IsPending(View(), keys[i])
      modifies this
      ensures View() == Processed(setup, old(View()), keys, answer)
      ensures count == Usable(setup, old(inbox), keys, answer)
    {
      count := 0;
      var i := 0;
      while i < |keys|
        invariant 0 <= i <= |keys|
        invariant View() == Processed(setup, old(View()), keys[..i], answer)
        invariant forall j :: i <= j < |keys| ==> IsPending(View(), keys[j]) && inbox[keys[j]] == old(inbox)[keys[j]]
        invariant count == Usable(setup, old(inbox), keys[..i], answer)
      {
        var key := keys[i];
        assert keys[..i + 1][..i] == keys[..i];
        var response := Answered(setup, inbox[key].request, answer);
        if response.Some? {
          var recorded := Record(key, response.value);
          if recorded { count := count + 1; }
        }
        i := i + 1;
      }
      assert keys[..i] == keys;
    }
  }

  /** How many of the messages get an answer that fits. */
  function Usable(setup: Setup, inbox: map<Key, Entry>, keys: seq<Key>, answer: Request -> Option<Result>): nat {
    if keys == [] then 0
    else
      var key := keys[|keys| - 1];
      Usable(setup, inbox, keys[..|keys| - 1], answer)
      + if key in inbox && Answered(setup, inbox[key].request, answer).Some?
           && Matches(setup, inbox[key].request, Answered(setup, inbox[key].request, answer).value) then 1 else 0
  }

  /** What one round of `send` does for a reply: look at the earlier transfer, and push again only
      when there is none left to wait for. */
  function SendRow(t: Tables, key: Key, stage: RelayStore.Stage, alive: bool, pushedId: Id, pushedStage: RelayStore.Stage): Tables {
    var polled := Polled(t, key, stage, alive);
    if key in polled.replies && !polled.replies[key].progress.Delivered? && polled.replies[key].transfer.None?
    then Pushed(polled, key, pushedId, pushedStage) else polled
  }

  /** What came back over HTTP: a body, or a status code. */
  datatype Result = Body(response: Response) | Status(code: nat)

  function Answered(setup: Setup, request: Request, answer: Request -> Option<Result>): Option<Response> {
    match answer(request)
    case None => None
    case Some(Body(response)) => Some(response)
    case Some(Status(code)) => if IsRefusalCode(code) then Some(setup.refusal(request, code)) else None
  }

  function Processed(setup: Setup, t: Tables, keys: seq<Key>, answer: Request -> Option<Result>): Tables {
    if keys == [] then t
    else
      var before, key := Processed(setup, t, keys[..|keys| - 1], answer), keys[|keys| - 1];
      if key !in before.inbox then before
      else
        var response := Answered(setup, before.inbox[key].request, answer);
        if response.None? then before else Applied(setup, before, key, response.value)
  }
}
