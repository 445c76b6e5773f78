/** The temporary store as a state machine: one function for each of its atomic steps.
    A handler that spans several transactions (an upload, a download, the janitor) is
    split into the steps between which other requests, a crash or a restart may come. */
module RelayStore {
  import opened Basics

  type Id = string
  type Device = string
  type Token = string

  const LEASE: Time := 900 * SECOND
  const UPLOAD_WINDOW: Time := 900 * SECOND
  const ORPHAN_AGE: Time := 1200 * SECOND
  const MAX_LIVE := 5000
  const MAX_ROWS := 20000

  datatype Config = Config(quota: nat, minimumFree: nat, recordAge: Time, recordLimit: nat)

  /** A validated reservation request; two requests have one fingerprint only when they are equal. */
  datatype Spec = Spec(key: string, project: string, category: string, filename: string,
                       size: nat, sha: Digest, targets: set<Device>, ttl: Time)

  datatype Stage = Uploading | Writing | Ready | Delivered | Expired | Cancelled

  datatype Transfer = Transfer(source: Device, spec: Spec, createdAt: Time, expiresAt: Time,
                               uploadDeadline: Time, stage: Stage, completedAt: Option<Time>)

  datatype Lease = Lease(token: Token, until: Time)
  datatype DeliveryState = Pending | Leased | Acked
  datatype Delivery = Delivery(receipt: DeliveryState, lease: Option<Lease>, downloaded: bool, ackedAt: Option<Time>)

  datatype File = File(content: Bytes, modified: Time)

  /** A response body being streamed from an open file handle. */
  datatype Stream = Stream(id: Id, device: Device, token: Token, content: Bytes)

  /** The janitor's list of known rows, read before it looks for orphaned files. */
  datatype Sweep = Sweep(active: set<Id>, at: Time)

  /** A lease handed out, valid from `from` until `to`; release and receipt shorten it. */
  datatype Grant = Grant(id: Id, device: Device, from: Time, to: Time)

  /** `transfers`, `deliveries`, `files` and `parts` are durable; `uploads`, `streams` and
      `sweeps` are lost in a crash. The last four fields only record history: every
      reservation, every lease, every download streamed to its end, every receipt. */
  datatype Store = Store(
    cfg: Config, up: bool, clock: Time,
    transfers: map<Id, Transfer>, deliveries: map<(Id, Device), Delivery>,
    files: map<Id, File>, parts: map<Id, File>,
    uploads: map<Id, Bytes>, streams: set<Stream>, sweeps: set<Sweep>,
    specs: map<Id, (Device, Spec)>, grants: map<Token, Grant>, served: set<(Id, Device, Token)>,
    confirmed: map<(Id, Device), Token>)

  datatype Reply =
    | Rejected(code: nat)
    | Public(id: Id, stage: Stage)
    | Granted(lease: Lease)
    | Opened(stream: Stream)
    | Confirmed(stage: Stage)
    | Done

  predicate IsLive(stage: Stage) {
    stage.Uploading? || stage.Writing? || stage.Ready?
  }

  /** `live`: past its lifetime, whatever the row still says. */
  predicate Dead(t: Transfer, now: Time) {
    t.stage.Expired? || t.stage.Cancelled? || t.expiresAt <= now
  }

  predicate Due(t: Transfer, now: Time) {
    && IsLive(t.stage)
    && (t.expiresAt <= now || (!t.stage.Ready? && t.uploadDeadline <= now))
  }

  ghost function LiveSizes(transfers: map<Id, Transfer>): map<Id, nat> {
    map id | id in transfers && IsLive(transfers[id].stage) :: transfers[id].spec.size
  }

  function Initial(cfg: Config): Store {
    Store(cfg, false, 0, map[], map[], map[], map[], map[], {}, {}, map[], map[], {}, map[])
  }

  // ------------------------------------------------------------------ janitor

  function Expire(transfers: map<Id, Transfer>, now: Time): map<Id, Transfer> {
    map id | id in transfers ::
      if Due(transfers[id], now) then transfers[id].(stage := Expired, completedAt := Some(now))
      else transfers[id]
  }

  function TerminalIds(transfers: map<Id, Transfer>): set<Id> {
    set id | id in transfers && !IsLive(transfers[id].stage)
  }

  function StaleRecords(transfers: map<Id, Transfer>, cutoff: Time): set<Id> {
    set id | id in transfers && transfers[id].completedAt.Some? && transfers[id].completedAt.value < cutoff
  }

  function Completed(transfers: map<Id, Transfer>): set<Id> {
    set id | id in transfers && transfers[id].completedAt.Some?
  }

  /** `drop` is everything beyond the `limit` most recently completed records. */
  ghost predicate IsOverflow(transfers: map<Id, Transfer>, limit: nat, drop: set<Id>) {
    && drop <= Completed(transfers)
    && |Completed(transfers) - drop| == Min(|Completed(transfers)|, limit)
    && forall kept, gone :: kept in Completed(transfers) - drop && gone in drop ==>
         transfers[kept].completedAt.value >= transfers[gone].completedAt.value
  }

  /** The rows left for the record limit to act on. */
  function Retained(s: Store, now: Time): map<Id, Transfer> {
    var rows := Expire(s.transfers, now);
    rows - StaleRecords(rows, now - s.cfg.recordAge)
  }

  /** Deleting a transfer deletes its deliveries with it. */
  function DropRows(deliveries: map<(Id, Device), Delivery>, kept: set<Id>): map<(Id, Device), Delivery> {
    map k | k in deliveries && k.0 in kept :: deliveries[k]
  }

  /** The janitor's transaction, with the files it unlinks before committing. */
  function Cleanup(s: Store, now: Time, overflow: set<Id>): Store {
    var gone := TerminalIds(Expire(s.transfers, now));
    var rows := Retained(s, now) - overflow;
    s.(clock := now, transfers := rows, deliveries := DropRows(s.deliveries, rows.Keys),
       files := s.files - gone, parts := s.parts - gone,
       sweeps := s.sweeps + {Sweep(rows.Keys, now)})
  }

  /** The same transaction failing after some unlinks: the rows roll back, the files stay gone. */
  function CleanupInterrupted(s: Store, now: Time, unlinked: set<Id>): Store {
    var gone := TerminalIds(Expire(s.transfers, now)) * unlinked;
    s.(clock := now, files := s.files - gone, parts := s.parts - gone)
  }

  function OldOrphans(files: map<Id, File>, sweep: Sweep): set<Id> {
    set id | id in files && id !in sweep.active && files[id].modified < sweep.at - ORPHAN_AGE
  }

  /** The janitor's pass over the directory, after its transaction. */
  function SweepOrphans(s: Store, sweep: Sweep): Store {
    if sweep !in s.sweeps then s
    else s.(files := s.files - OldOrphans(s.files, sweep), parts := s.parts - OldOrphans(s.parts, sweep),
            sweeps := s.sweeps - {sweep})
  }

  // --------------------------------------------------------- crash and restart

  function Crash(s: Store): Store {
    s.(up := false, uploads := map[], streams := {}, sweeps := {})
  }

  function Restarted(transfers: map<Id, Transfer>): map<Id, Transfer> {
    map id | id in transfers ::
      if transfers[id].stage.Writing? then transfers[id].(stage := Uploading) else transfers[id]
  }

  function Unfinished(transfers: map<Id, Transfer>): set<Id> {
    set id | id in transfers && transfers[id].stage.Uploading?
  }

  /** `initialize` up to its call of `cleanup`. */
  function Recover(s: Store): Store {
    var rows := Restarted(s.transfers);
    s.(up := true, transfers := rows, files := s.files - Unfinished(rows), parts := map[])
  }

  // ------------------------------------------------------------------- sending

  ghost predicate SameKey(s: Store, who: Device, key: string, id: Id) {
    id in s.transfers && s.transfers[id].source == who && s.transfers[id].spec.key == key
  }

  ghost predicate KeyTaken(s: Store, who: Device, key: string) {
    exists id :: SameKey(s, who, key, id)
  }

  ghost predicate HasRoom(s: Store, size: nat) {
    && Total(LiveSizes(s.transfers)) + size <= s.cfg.quota
    && |LiveSizes(s.transfers)| < MAX_LIVE && |s.transfers| < MAX_ROWS
  }

  ghost function Reserve(s: Store, who: Device, spec: Spec, newId: Id, free: int, now: Time): (Store, Reply) {
    var s := s.(clock := now);
    if KeyTaken(s, who, spec.key) then
      var id :| SameKey(s, who, spec.key, id);
      (s, KnownReply(id, s.transfers[id], spec))
    else
      if !HasRoom(s, spec.size) then (s, Rejected(507))
      else if free < s.cfg.minimumFree + Total(LiveSizes(s.transfers)) + spec.size then (s, Rejected(507))
      else (AddReservation(s, newId, NewTransfer(who, spec, now)), Public(newId, Uploading))
  }

  /** A key seen before returns its transfer, or is refused for a different request. */
  function KnownReply(id: Id, row: Transfer, spec: Spec): Reply {
    if row.spec == spec then Public(id, row.stage) else Rejected(409)
  }

  function NewTransfer(who: Device, spec: Spec, now: Time): Transfer {
    Transfer(who, spec, now, now + spec.ttl, now + UPLOAD_WINDOW, Uploading, None)
  }

  function AddReservation(s: Store, id: Id, row: Transfer): Store {
    s.(transfers := s.transfers[id := row],
       deliveries := s.deliveries + NewDeliveries(id, row.spec.targets),
       specs := s.specs[id := (row.source, row.spec)])
  }

  function NewDeliveries(id: Id, targets: set<Device>): map<(Id, Device), Delivery> {
    var keys := set d | d in targets :: (id, d);
    map k | k in keys :: Delivery(Pending, None, false, None)
  }

  function BeginRefusal(s: Store, who: Device, id: Id): Option<nat> {
    if id !in s.transfers || who != s.transfers[id].source then Some(404)
    else if Dead(s.transfers[id], s.clock) then Some(410)
    else if !s.transfers[id].stage.Uploading? then Some(409)
    else if s.transfers[id].uploadDeadline <= s.clock then Some(410)
    else None
  }

  function BeginUpload(s: Store, who: Device, id: Id, now: Time): (Store, Reply) {
    var s := s.(clock := now);
    if BeginRefusal(s, who, id).Some? then (s, Rejected(BeginRefusal(s, who, id).value)) else (OpenPart(s, id), Done)
  }

  function OpenPart(s: Store, id: Id): Store
    requires id in s.transfers
  {
    s.(transfers := s.transfers[id := s.transfers[id].(stage := Writing)],
       uploads := s.uploads[id := []], parts := s.parts[id := File([], s.clock)])
  }

  /** The handler's `except` branch. */
  function AbortUpload(s: Store, id: Id): Store {
    s.(parts := s.parts - {id}, uploads := s.uploads - {id},
       transfers := if id in s.transfers && s.transfers[id].stage.Writing?
                    then s.transfers[id := s.transfers[id].(stage := Uploading)] else s.transfers)
  }

  /** One chunk of the body; writing to a file already unlinked leaves no trace. */
  function ReceiveChunk(s: Store, id: Id, chunk: Bytes, now: Time): (Store, Reply) {
    var s := s.(clock := now);
    if id !in s.uploads || id !in s.specs then (s, Rejected(404))
    else
      var body := s.uploads[id] + chunk;
      if |body| > s.specs[id].1.size then (AbortUpload(s, id), Rejected(413))
      else
        (AppendPart(s, id, body), Done)
  }

  function AppendPart(s: Store, id: Id, body: Bytes): Store {
    s.(uploads := s.uploads[id := body],
       parts := if id in s.parts then s.parts[id := File(body, s.clock)] else s.parts)
  }

  /** What stops the final transaction of an upload; `None` lets it rename the part file. */
  function FinishRefusal(s: Store, id: Id): Option<nat>
    requires id in s.uploads && id in s.specs
  {
    if |s.uploads[id]| != s.specs[id].1.size || Sha256(s.uploads[id]) != s.specs[id].1.sha then Some(422)
    else if id !in s.transfers then Some(404)
    else if Dead(s.transfers[id], s.clock) then Some(410)
    else if !s.transfers[id].stage.Writing? then Some(409)
    else if id !in s.parts then Some(500)
    else None
  }

  function RenamePart(s: Store, id: Id): Store
    requires id in s.parts
  {
    s.(files := s.files[id := s.parts[id]], parts := s.parts - {id})
  }

  function FinishUpload(s: Store, id: Id, now: Time): (Store, Reply) {
    var s := s.(clock := now);
    if id !in s.uploads || id !in s.specs then (s, Rejected(404))
    else if FinishRefusal(s, id).Some? then (AbortUpload(s, id), Rejected(FinishRefusal(s, id).value))
    else (CommitUpload(s, id), Public(id, Ready))
  }

  function CommitUpload(s: Store, id: Id): Store
    requires id in s.parts && id in s.transfers
  {
    var r := RenamePart(s, id);
    r.(transfers := r.transfers[id := r.transfers[id].(stage := Ready)], uploads := r.uploads - {id})
  }

  /** The chunks of one body, one after the other; a chunk too many ends the request. */
  function ReceiveChunks(s: Store, id: Id, chunks: seq<Bytes>, now: Time): (Store, Reply)
    decreases |chunks|
  {
    if chunks == [] then (s, Done)
    else
      var (s', reply) := ReceiveChunk(s, id, chunks[0], now);
      if reply != Done then (s', reply) else ReceiveChunks(s', id, chunks[1..], now)
  }

  /** An upload that nothing interrupts. */
  function Upload(s: Store, who: Device, id: Id, chunks: seq<Bytes>, now: Time): (Store, Reply) {
    var (begun, reply) := BeginUpload(s, who, id, now);
    if reply != Done then (begun, reply)
    else
      var (read, reply) := ReceiveChunks(begun, id, chunks, now);
      if reply != Done then (read, reply) else FinishUpload(read, id, now)
  }

  /** The rename reaches the disk but the commit does not: the service dies, or the handler aborts. */
  function FinishInterrupted(s: Store, id: Id, now: Time, dies: bool): Store {
    var s := s.(clock := now);
    if id !in s.uploads || id !in s.specs || FinishRefusal(s, id).Some? then s
    else if dies then Crash(RenamePart(s, id)) else AbortUpload(RenamePart(s, id), id)
  }

  // ----------------------------------------------------------------- receiving

  /** What a device is shown of its inbox: ready, in its lifetime, and not in somebody's hands. */
  function Inbox(s: Store, who: Device, now: Time): set<Id> {
    set id | id in s.transfers && (id, who) in s.deliveries && s.transfers[id].stage.Ready? && s.transfers[id].expiresAt > now
      && (s.deliveries[(id, who)].receipt.Pending?
          || (s.deliveries[(id, who)].receipt.Leased? && (s.deliveries[(id, who)].lease.Some? ==> s.deliveries[(id, who)].lease.value.until <= now)))
  }

  predicate IsHeld(d: Delivery, now: Time) {
    d.receipt.Leased? && d.lease.Some? && d.lease.value.until > now
  }

  function ClaimRefusal(s: Store, k: (Id, Device)): Option<nat> {
    if k.0 !in s.transfers || k !in s.deliveries then Some(404)
    else if Dead(s.transfers[k.0], s.clock) then Some(410)
    else if !s.transfers[k.0].stage.Ready? || s.deliveries[k].receipt.Acked? then Some(409)
    else if IsHeld(s.deliveries[k], s.clock) then Some(409)
    else None
  }

  function Claim(s: Store, who: Device, id: Id, token: Token, now: Time): (Store, Reply) {
    var s, k := s.(clock := now), (id, who);
    if ClaimRefusal(s, k).Some? then (s, Rejected(ClaimRefusal(s, k).value))
    else
      var lease := Lease(token, Min(now + LEASE, s.transfers[id].expiresAt));
      (GrantLease(s, k, lease), Granted(lease))
  }

  function GrantLease(s: Store, k: (Id, Device), lease: Lease): Store
    requires k in s.deliveries
  {
    s.(deliveries := s.deliveries[k := Delivery(Leased, Some(lease), false, s.deliveries[k].ackedAt)],
       grants := s.grants[lease.token := Grant(k.0, k.1, s.clock, lease.until)])
  }

  /** `verify_lease`: the code to fail with, or `None`. */
  function LeaseRefusal(s: Store, k: (Id, Device), token: Token): Option<nat> {
    if k !in s.deliveries then Some(404)
    else if s.deliveries[k].lease.None? || s.deliveries[k].lease.value.token != token then Some(409)
    else None
  }

  function OpenRefusal(s: Store, k: (Id, Device), token: Token): Option<nat> {
    if k.0 !in s.transfers then Some(404)
    else if LeaseRefusal(s, k, token).Some? then LeaseRefusal(s, k, token)
    else if Dead(s.transfers[k.0], s.clock) then Some(410)
    else if !s.transfers[k.0].stage.Ready? || !IsHeld(s.deliveries[k], s.clock) then Some(409)
    else if k.0 !in s.files then Some(500)
    else None
  }

  function OpenDownload(s: Store, who: Device, id: Id, token: Token, now: Time): (Store, Reply) {
    var s, k := s.(clock := now), (id, who);
    if OpenRefusal(s, k, token).Some? then (s, Rejected(OpenRefusal(s, k, token).value))
    else
      var stream := Stream(id, who, token, s.files[id].content);
      (s.(streams := s.streams + {stream}), Opened(stream))
  }

  /** The last chunk of a stream has been handed over. */
  function FinishDownload(s: Store, stream: Stream, now: Time): Store {
    var s := s.(clock := now);
    if stream !in s.streams then s else MarkServed(s, stream)
  }

  /** The flag is set only if the row still carries the lease this stream was opened under. */
  function MarkServed(s: Store, stream: Stream): Store {
    var k, s := (stream.id, stream.device), s.(served := s.served + {(stream.id, stream.device, stream.token)});
    if CarriesLease(s.deliveries, k, stream.token) then SetDownloaded(s, k) else s
  }

  predicate CarriesLease(deliveries: map<(Id, Device), Delivery>, k: (Id, Device), token: Token) {
    k in deliveries && deliveries[k].receipt.Leased? && deliveries[k].lease.Some? && deliveries[k].lease.value.token == token
  }

  function SetDownloaded(s: Store, k: (Id, Device)): Store
    requires k in s.deliveries
  {
    s.(deliveries := s.deliveries[k := s.deliveries[k].(downloaded := true)])
  }

  predicate AllAcked(deliveries: map<(Id, Device), Delivery>, id: Id, targets: set<Device>) {
    forall d :: d in targets ==> (id, d) in deliveries && deliveries[(id, d)].receipt.Acked?
  }

  function ReceiptRefusal(s: Store, k: (Id, Device), token: Token, sha: Digest): Option<nat> {
    if k.0 !in s.transfers then Some(404)
    else if LeaseRefusal(s, k, token).Some? then LeaseRefusal(s, k, token)
    else if s.transfers[k.0].spec.sha != sha then Some(422)
    else if s.deliveries[k].receipt.Acked? then None
    else if Dead(s.transfers[k.0], s.clock) then Some(410)
    else if !s.transfers[k.0].stage.Ready? || s.deliveries[k].lease.value.until <= s.clock
            || !s.deliveries[k].downloaded then Some(409)
    else None
  }

  function Acknowledge(s: Store, who: Device, id: Id, token: Token, sha: Digest, now: Time): (Store, Reply) {
    var s, k := s.(clock := now), (id, who);
    if ReceiptRefusal(s, k, token, sha).Some? then (s, Rejected(ReceiptRefusal(s, k, token, sha).value))
    else if s.deliveries[k].receipt.Acked? then (s, Confirmed(s.transfers[id].stage))
    else
      (Receipted(s, k),
       Confirmed(if AllAcked(MarkAcked(s, k).deliveries, id, s.transfers[id].spec.targets) then Delivered else Ready))
  }

  /** The last receipt completes the transfer and frees its blob. */
  function Receipted(s: Store, k: (Id, Device)): Store
    requires k in s.deliveries && s.deliveries[k].lease.Some? && k.0 in s.transfers
  {
    var acked := MarkAcked(s, k);
    if AllAcked(acked.deliveries, k.0, s.transfers[k.0].spec.targets) then MarkDelivered(acked, k.0) else acked
  }

  function MarkAcked(s: Store, k: (Id, Device)): Store
    requires k in s.deliveries && s.deliveries[k].lease.Some?
  {
    var token := s.deliveries[k].lease.value.token;
    s.(deliveries := s.deliveries[k := s.deliveries[k].(receipt := Acked, ackedAt := Some(s.clock))],
       grants := EndGrant(s.grants, token, s.clock), confirmed := s.confirmed[k := token])
  }

  function EndGrant(grants: map<Token, Grant>, token: Token, now: Time): map<Token, Grant> {
    if token in grants then grants[token := grants[token].(to := Min(now, grants[token].to))] else grants
  }

  function MarkDelivered(s: Store, id: Id): Store
    requires id in s.transfers
  {
    s.(files := s.files - {id},
       transfers := s.transfers[id := s.transfers[id].(stage := Delivered, completedAt := Some(s.clock))])
  }

  function Release(s: Store, who: Device, id: Id, token: Token, now: Time): (Store, Reply) {
    var s, k := s.(clock := now), (id, who);
    if LeaseRefusal(s, k, token).Some? then (s, Rejected(LeaseRefusal(s, k, token).value))
    else if s.deliveries[k].receipt.Leased? then (EndLease(s, k), Done)
    else (s, Done)
  }

  function EndLease(s: Store, k: (Id, Device)): Store
    requires k in s.deliveries && s.deliveries[k].lease.Some?
  {
    s.(deliveries := s.deliveries[k := Delivery(Pending, None, false, s.deliveries[k].ackedAt)],
       grants := EndGrant(s.grants, s.deliveries[k].lease.value.token, s.clock))
  }
}
