/** The relay end to end: the temporary store, the bridge that pulls from it, the backend that
    applies what the bridge hands over, and the replies going back, under any interleaving of
    requests, repetitions, lost answers, crashes and restarts. */
module RelaySystem {
  import opened Basics
  import opened RelayStore
  import opened RelayBackend
  import opened RelayBridge
  import opened RelayClient
  import Safety = RelayStoreSafety
  import Runs = RelayStoreRuns

  /** How far the bridge's `pull` has come with one item; lost in a crash. */
  datatype Pull =
    | Idle
    | Claimed(m: Manifest, token: Token, size: nat, sha: Digest)
    | Downloaded(m: Manifest, token: Token, size: nat, sha: Digest)
    | InTables(m: Manifest, token: Token, size: nat, sha: Digest)

  /** A receipt on its way to the store; it may arrive late, twice or never. */
  datatype Ack = Ack(id: Id, token: Token, sha: Digest)

  /** `answer` is a backend response not yet recorded, `pushed` the outcome of a push not yet
      recorded; both are lost in a crash. */
  datatype Sys<B> = Sys(store: Store, tables: Tables, archive: map<Id, Bytes>, ledger: Ledger<B>,
                        pull: Pull, sent: set<Ack>, answer: Option<(Key, Response)>, pushed: Option<(Key, Id, Stage)>)

  datatype Event<!B> =
    | AtStore(op: Runs.Op)
    | StartPull(id: Id, token: Token, now: Time)
    | Fetch(body: Bytes)
    | SaveItem
    | SendReceipt
    | EndPull
    | ReceiptArrives(ack: Ack, now: Time)
    | BridgeCrash
    | AskBackend(key: Key, writable: bool, script: Script<B>)
    | BackendRefuses(key: Key, code: nat)
    | RecordAnswer
    | LocalChange(change: B -> B)
    | PushReply(key: Key, newId: Id, free: int, ttl: Time, now: Time)
    | RecordPush
    | PollReply(key: Key)

  function ManifestOf(id: Id, source: Device, spec: Spec): Manifest {
    Manifest(id, source, spec.project, spec.category)
  }

  /** The hash under which the backend files a request. */
  function HashOf(request: Request): Digest {
    Sha256(request.canonical)
  }

  /** Receipts and replies of the bridge's device come from the bridge alone. */
  ghost predicate Enabled<B>(setup: Setup, s: Sys<B>, e: Event<B>) {
    match e
    case AtStore(op) =>
      Runs.Enabled(s.store, op)
      && !(op.OpAcknowledge? && op.who == setup.device) && !(op.OpReserve? && op.who == setup.device)
    case StartPull(id, token, now) =>
      s.pull.Idle? && s.store.up && now >= s.store.clock && token !in s.store.grants
    case ReceiptArrives(ack, now) => s.store.up && now >= s.store.clock && ack in s.sent
    case AskBackend(key, _, _) => IsPending(s.tables, key) && s.answer.None?
    case BackendRefuses(key, code) => IsPending(s.tables, key) && s.answer.None? && IsRefusalCode(code)
    case PushReply(key, newId, _, _, now) =>
      && s.store.up && now >= s.store.clock && newId !in s.store.specs && s.pushed.None?
      && key in s.tables.replies && s.tables.replies[key].transfer.None? && !s.tables.replies[key].progress.Delivered?
      && key in s.tables.inbox && s.tables.inbox[key].response.Some?
    case PollReply(key) => s.store.up && s.pushed.None?
    case _ => true
  }

  ghost function StartPullStep<B>(setup: Setup, s: Sys<B>, id: Id, token: Token, now: Time): Sys<B> {
    var (store, reply) := Claim(s.store, setup.device, id, token, now);
    if !reply.Granted? || id !in store.transfers then s.(store := store)
    else
      var row := store.transfers[id];
      s.(store := store, pull := Claimed(ManifestOf(id, row.source, row.spec), token, row.spec.size, row.spec.sha))
  }

  function FetchStep<B>(s: Sys<B>, body: Bytes): Sys<B> {
    if !s.pull.Claimed? then s
    else if !IsGenuine(s.archive, s.pull.m.id, body, s.pull.size, s.pull.sha) then s.(pull := Idle)
    else s.(archive := WithFile(s.archive, s.pull.m.id, body, s.pull.sha),
            pull := Downloaded(s.pull.m, s.pull.token, s.pull.size, s.pull.sha))
  }

  function SaveStep<B>(setup: Setup, s: Sys<B>): Sys<B> {
    if !s.pull.Downloaded? || s.pull.m.id !in s.archive then s
    else s.(tables := Saved(setup, s.tables, s.pull.m, s.archive[s.pull.m.id]),
            pull := InTables(s.pull.m, s.pull.token, s.pull.size, s.pull.sha))
  }

  function ReceiptStep<B>(s: Sys<B>): Sys<B> {
    if !s.pull.InTables? then s else s.(sent := s.sent + {Ack(s.pull.m.id, s.pull.token, s.pull.sha)})
  }

  function AskStep<B>(setup: Setup, s: Sys<B>, key: Key, writable: bool, script: Script<B>): Sys<B>
    requires key in s.tables.inbox
  {
    var request := s.tables.inbox[key].request;
    var (ledger, outcome) := Apply(s.ledger, setup.account, writable, request.messageId, HashOf(request), script);
    var answer := match outcome
      case Replied(response) => Some((key, response))
      case Conflict => Some((key, setup.refusal(request, 409)))
      case Failed => None;
    s.(ledger := ledger, answer := answer)
  }

  ghost function PushStep<B>(setup: Setup, s: Sys<B>, key: Key, newId: Id, free: int, ttl: Time, now: Time): Sys<B>
    requires key in s.tables.replies && key in s.tables.inbox && s.tables.inbox[key].response.Some?
  {
    var spec := ReplySpec(setup, s.tables.inbox[key], s.tables.replies[key].attempt, ttl);
    var (store, reply) := Reserve(s.store, setup.device, spec, newId, free, now);
    s.(store := store, pushed := if reply.Public? then Some((key, reply.id, reply.stage)) else None)
  }

  /** An id the store no longer knows reads as expired. */
  function PollStep<B>(s: Sys<B>, key: Key): Sys<B> {
    if key !in s.tables.replies || s.tables.replies[key].transfer.None? then s
    else
      var id := s.tables.replies[key].transfer.value;
      var tables := if id in s.store.transfers
        then Polled(s.tables, key, s.store.transfers[id].stage, s.store.transfers[id].expiresAt > s.store.clock)
        else Polled(s.tables, key, Expired, false);
      s.(tables := tables)
  }

  ghost function After<B>(setup: Setup, s: Sys<B>, e: Event<B>): Sys<B>
    requires Enabled(setup, s, e)
  {
    match e
    case AtStore(op) => s.(store := Runs.Step(s.store, op))
    case StartPull(id, token, now) => StartPullStep(setup, s, id, token, now)
    case Fetch(body) => FetchStep(s, body)
    case SaveItem => SaveStep(setup, s)
    case SendReceipt => ReceiptStep(s)
    case ReceiptArrives(ack, now) => s.(store := Acknowledge(s.store, setup.device, ack.id, ack.token, ack.sha, now).0)
    case EndPull => s.(pull := Idle)
    case BridgeCrash => s.(pull := Idle, answer := None, pushed := None)
    case AskBackend(key, writable, script) => AskStep(setup, s, key, writable, script)
    case BackendRefuses(key, code) => s.(answer := Some((key, setup.refusal(s.tables.inbox[key].request, code))))
    case RecordAnswer =>
      if s.answer.None? then s
      else s.(tables := Applied(setup, s.tables, s.answer.value.0, s.answer.value.1), answer := None)
    case LocalChange(change) => s.(ledger := s.ledger.(business := change(s.ledger.business)))
    case PushReply(key, newId, free, ttl, now) => PushStep(setup, s, key, newId, free, ttl, now)
    case RecordPush =>
      if s.pushed.None? then s
      else s.(tables := Pushed(s.tables, s.pushed.value.0, s.pushed.value.1, s.pushed.value.2), pushed := None)
    case PollReply(key) => PollStep(s, key)
  }

  function Start<B>(cfg: Config, initial: B): Sys<B> {
    Sys(Initial(cfg), Tables(map[], map[], map[]), map[], Ledger(initial, map[]), Idle, {}, None, None)
  }
}
