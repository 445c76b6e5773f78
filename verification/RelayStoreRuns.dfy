/** Whole runs of the temporary store: any interleaving of requests, janitor passes, failures,
    crashes and restarts, and what holds in every state such a run can reach. */
module RelayStoreRuns {
  import opened Basics
  import opened RelayStore
  import opened RelayStoreSafety
  import opened RelayLeases

  datatype Op =
    | OpCleanup(now: Time, overflow: set<Id>)
    | OpCleanupInterrupted(now: Time, unlinked: set<Id>)
    | OpSweep(sweep: Sweep)
    | OpCrash
    | OpRecover
    | OpReserve(who: Device, spec: Spec, newId: Id, free: int, now: Time)
    | OpBeginUpload(who: Device, id: Id, now: Time)
    | OpChunk(id: Id, chunk: Bytes, now: Time)
    | OpFinishUpload(id: Id, now: Time)
    | OpFinishInterrupted(id: Id, now: Time, dies: bool)
    | OpAbortUpload(id: Id)
    | OpClaim(who: Device, id: Id, token: Token, now: Time)
    | OpOpenDownload(who: Device, id: Id, token: Token, now: Time)
    | OpFinishDownload(stream: Stream, now: Time)
    | OpAcknowledge(who: Device, id: Id, token: Token, sha: Digest, now: Time)
    | OpRelease(who: Device, id: Id, token: Token, now: Time)

  /** The service answers only while it is up; the clock does not run backwards; ids and tokens are new. */
  ghost predicate Enabled(s: Store, op: Op) {
    match op
    case OpCrash => true
    case OpRecover => !s.up
    case OpSweep(_) => s.up
    case OpAbortUpload(id) => s.up && id in s.uploads
    case OpCleanup(now, overflow) => s.up && now >= s.clock && IsOverflow(Retained(s, now), s.cfg.recordLimit, overflow)
    case OpReserve(_, spec, newId, _, now) => s.up && now >= s.clock && newId !in s.specs && spec.targets != {}
    case OpClaim(_, _, token, now) => s.up && now >= s.clock && token !in s.grants
    case _ => s.up && op.now >= s.clock
  }

  ghost function Step(s: Store, op: Op): Store {
    match op
    case OpCleanup(now, overflow) => Cleanup(s, now, overflow)
    case OpCleanupInterrupted(now, unlinked) => CleanupInterrupted(s, now, unlinked)
    case OpSweep(sweep) => SweepOrphans(s, sweep)
    case OpCrash => Crash(s)
    case OpRecover => Recover(s)
    case OpReserve(who, spec, newId, free, now) => Reserve(s, who, spec, newId, free, now).0
    case OpBeginUpload(who, id, now) => BeginUpload(s, who, id, now).0
    case OpChunk(id, chunk, now) => ReceiveChunk(s, id, chunk, now).0
    case OpFinishUpload(id, now) => FinishUpload(s, id, now).0
    case OpFinishInterrupted(id, now, dies) => FinishInterrupted(s, id, now, dies)
    case OpAbortUpload(id) => AbortUpload(s, id)
    case OpClaim(who, id, token, now) => Claim(s, who, id, token, now).0
    case OpOpenDownload(who, id, token, now) => OpenDownload(s, who, id, token, now).0
    case OpFinishDownload(stream, now) => FinishDownload(s, stream, now)
    case OpAcknowledge(who, id, token, sha, now) => Acknowledge(s, who, id, token, sha, now).0
    case OpRelease(who, id, token, now) => Release(s, who, id, token, now).0
  }

  lemma StepKeepsInv(s: Store, op: Op)
    requires Inv(s) && Enabled(s, op)
    ensures Inv(Step(s, op))
  {
    hide Inv;
    match op
    case OpCleanup(now, overflow) => CleanupKeepsInv(s, now, overflow);
    case OpCleanupInterrupted(now, unlinked) => InterruptedCleanupKeepsInv(s, now, unlinked);
    case OpSweep(sweep) => SweepKeepsInv(s, sweep);
    case OpCrash => CrashKeepsInv(s);
    case OpRecover => RecoverKeepsInv(s);
    case OpReserve(who, spec, newId, free, now) => ReserveKeepsInv(s, who, spec, newId, free, now);
    case OpBeginUpload(who, id, now) => BeginUploadKeepsInv(s, who, id, now);
    case OpChunk(id, chunk, now) => ChunkKeepsInv(s, id, chunk, now);
    case OpFinishUpload(id, now) => FinishUploadKeepsInv(s, id, now);
    case OpFinishInterrupted(id, now, dies) => FinishInterruptedKeepsInv(s, id, now, dies);
    case OpAbortUpload(id) => AbortUploadKeepsInv(s, id);
    case OpClaim(who, id, token, now) => ClaimKeepsInv(s, who, id, token, now);
    case OpOpenDownload(who, id, token, now) => OpenDownloadKeepsInv(s, who, id, token, now);
    case OpFinishDownload(stream, now) => FinishDownloadKeepsInv(s, stream, now);
    case OpAcknowledge(who, id, token, sha, now) => AcknowledgeKeepsInv(s, who, id, token, sha, now);
    case OpRelease(who, id, token, now) => ReleaseKeepsInv(s, who, id, token, now);
  }

  /** `run` starts with an empty store and takes one enabled step after another. */
  ghost predicate IsRun(cfg: Config, run: seq<Store>, ops: seq<Op>) {
    && |run| == |ops| + 1 && run[0] == Initial(cfg)
    && forall i :: 0 <= i < |ops| ==> Enabled(run[i], ops[i]) && run[i + 1] == Step(run[i], ops[i])
  }

  lemma {:induction false} EveryRunKeepsInv(cfg: Config, run: seq<Store>, ops: seq<Op>, n: nat)
    requires IsRun(cfg, run, ops) && n < |run|
    ensures Inv(run[n])
  {
    if n == 0 {
      assert LiveSizes(run[0].transfers) == map[];
    } else {
      EveryRunKeepsInv(cfg, run, ops, n - 1);
      assert run[n - 1 + 1] == Step(run[n - 1], ops[n - 1]);
      StepKeepsInv(run[n - 1], ops[n - 1]);
    }
  }

  // ---------------------------------------------------------- what it implies

  lemma StepKeepsConfig(s: Store, op: Op)
    ensures Step(s, op).cfg == s.cfg
  {
    hide Step;
    if IsJanitorOp(op) {
      JanitorKeepsConfig(s, op);
    } else if IsUploadOp(op) {
      UploadKeepsConfig(s, op);
    } else {
      OthersKeepConfig(s, op);
    }
  }

  lemma JanitorKeepsConfig(s: Store, op: Op)
    requires IsJanitorOp(op)
    ensures Step(s, op).cfg == s.cfg
  {
    hide Expire, TerminalIds, StaleRecords, DropRows, OldOrphans, Restarted, Unfinished;
  }

  lemma UploadKeepsConfig(s: Store, op: Op)
    requires IsUploadOp(op)
    ensures Step(s, op).cfg == s.cfg
  {
    hide AbortUpload, BeginRefusal, CommitUpload, RenamePart, Dead;
    match op
    case OpBeginUpload(_, _, _) =>
    case OpChunk(id, chunk, now) => AbortKeepsConfig(s.(clock := now), id);
    case OpFinishUpload(id, now) => EndKeepsConfig(s.(clock := now), id);
    case OpFinishInterrupted(id, now, dies) => EndKeepsConfig(s.(clock := now), id);
    case OpAbortUpload(id) => AbortKeepsConfig(s, id);
  }

  lemma AbortKeepsConfig(s: Store, id: Id)
    ensures AbortUpload(s, id).cfg == s.cfg
  {
  }

  lemma EndKeepsConfig(s: Store, id: Id)
    ensures AbortUpload(s, id).cfg == s.cfg
    ensures id in s.parts ==> RenamePart(s, id).cfg == AbortUpload(RenamePart(s, id), id).cfg == s.cfg
    ensures id in s.parts && id in s.transfers ==> CommitUpload(s, id).cfg == s.cfg
  {
  }

  lemma OthersKeepConfig(s: Store, op: Op)
    requires !IsJanitorOp(op) && !IsUploadOp(op)
    ensures Step(s, op).cfg == s.cfg
  {
    hide ClaimRefusal, OpenRefusal, LeaseRefusal, ReceiptRefusal, CarriesLease, AllAcked, EndGrant, HasRoom, KeyTaken, NewDeliveries;
  }

  lemma {:induction false} ConfigStays(cfg: Config, run: seq<Store>, ops: seq<Op>, n: nat)
    requires IsRun(cfg, run, ops) && n < |run|
    ensures run[n].cfg == cfg
  {
    hide Step, Enabled;
    if n > 0 {
      ConfigStays(cfg, run, ops, n - 1);
      assert run[n - 1 + 1] == Step(run[n - 1], ops[n - 1]);
      StepKeepsConfig(run[n - 1], ops[n - 1]);
    }
  }

  /** In every state of every run, crashes and failed janitor passes included: the live transfers fit
      into the quota, a transfer is delivered exactly when all its deliveries are acked, and one that is
      ready and has not outlived its lifetime has a blob of exactly the declared size and digest. */
  lemma EveryRunIsSafe(cfg: Config, run: seq<Store>, ops: seq<Op>, n: nat, id: Id)
    requires IsRun(cfg, run, ops) && n < |run|
    ensures Total(LiveSizes(run[n].transfers)) <= cfg.quota
    ensures var s := run[n];
            id in s.transfers ==>
              && (s.transfers[id].stage.Delivered? <==> AllAcked(s.deliveries, id, s.transfers[id].spec.targets))
              && (s.transfers[id].stage.Ready? && s.transfers[id].expiresAt > s.clock ==>
                    Holds(s.files, id, s.transfers[id].spec))
  {
    hide IsRun, Holds, AllAcked, FilesOk, UploadsOk, DeliveriesOk, GrantsOk, HistoryOk, SweepsOk, RowsOk, KeysOk;
    EveryRunKeepsInv(cfg, run, ops, n);
    ConfigStays(cfg, run, ops, n);
  }

  /** Two different leases of one delivery are never valid at the same instant. */
  lemma OneLeaseAtATime(s: Store, a: Token, b: Token, t: Time)
    requires Inv(s) && a in s.grants && b in s.grants && a != b
    requires s.grants[a].id == s.grants[b].id && s.grants[a].device == s.grants[b].device
    requires s.grants[a].from <= t < s.grants[a].to
    ensures !(s.grants[b].from <= t < s.grants[b].to)
  {
    assert Disjoint(s.grants[a], s.grants[b]);
  }

  /** An acknowledged delivery was downloaded to the end under the lease that was confirmed, and
      its transfer is delivered exactly when the other targets have acknowledged too. */
  lemma AckedWasServed(s: Store, k: (Id, Device))
    requires Inv(s) && k in s.deliveries && s.deliveries[k].receipt.Acked?
    ensures s.deliveries[k].lease.Some? && (k.0, k.1, s.deliveries[k].lease.value.token) in s.served
    ensures s.transfers[k.0].stage.Delivered? <==>
            forall d :: d in s.transfers[k.0].spec.targets ==> s.deliveries[(k.0, d)].receipt.Acked?
  {
    assert DeliveryOk(k, s.deliveries[k], s.transfers[k.0], s.grants, s.served, s.confirmed, s.clock);
  }

  predicate IsLeaseOp(op: Op) {
    op.OpClaim? || op.OpOpenDownload? || op.OpFinishDownload? || op.OpRelease?
  }

  predicate IsUploadOp(op: Op) {
    op.OpBeginUpload? || op.OpChunk? || op.OpFinishUpload? || op.OpFinishInterrupted? || op.OpAbortUpload?
  }

  predicate IsJanitorOp(op: Op) {
    op.OpCleanup? || op.OpCleanupInterrupted? || op.OpSweep? || op.OpCrash? || op.OpRecover?
  }

  /** A delivery that was not acked stays so, and one that was is left alone. */
  ghost predicate KeepsReceipt(before: Deliveries, after: Deliveries, k: (Id, Device)) {
    k in after ==> if k in before && before[k].receipt.Acked? then after[k] == before[k] else !after[k].receipt.Acked?
  }

  /** The deliveries and the history are untouched, and so is the row `id` if it is finished. */
  ghost predicate IsQuiet(s: Store, after: Store, id: Id) {
    && after.deliveries == s.deliveries && after.specs == s.specs && after.confirmed == s.confirmed
    && (id in s.transfers && !IsLive(s.transfers[id].stage) ==>
          id in after.transfers && after.transfers[id] == s.transfers[id])
  }

  lemma BeginIsQuiet(s: Store, who: Device, id: Id, now: Time, other: Id)
    ensures IsQuiet(s, BeginUpload(s, who, id, now).0, other)
  {
  }

  lemma AbortIsQuiet(s: Store, id: Id, other: Id)
    ensures IsQuiet(s, AbortUpload(s, id), other)
  {
  }

  lemma ChunkIsQuiet(s: Store, id: Id, chunk: Bytes, now: Time, other: Id)
    ensures IsQuiet(s, ReceiveChunk(s, id, chunk, now).0, other)
  {
    hide AbortUpload, AppendPart, IsQuiet;
    AbortIsQuiet(s.(clock := now), id, other);
    QuietSince(s, now, ReceiveChunk(s, id, chunk, now).0, other);
    if id in s.uploads { AppendIsQuiet(s, now, id, s.uploads[id] + chunk, other); }
  }

  lemma QuietSince(s: Store, now: Time, after: Store, other: Id)
    ensures IsQuiet(s.(clock := now), after, other) <==> IsQuiet(s, after, other)
    ensures IsQuiet(s, s.(clock := now), other)
  {
  }

  lemma AppendIsQuiet(s: Store, now: Time, id: Id, body: Bytes, other: Id)
    requires id in s.uploads
    ensures IsQuiet(s, AppendPart(s.(clock := now), id, body), other)
  {
  }

  lemma FinishIsQuiet(s: Store, id: Id, now: Time, other: Id)
    ensures IsQuiet(s, FinishUpload(s, id, now).0, other)
  {
  }

  lemma FinishInterruptedIsQuiet(s: Store, id: Id, now: Time, dies: bool, other: Id)
    ensures IsQuiet(s, FinishInterrupted(s, id, now, dies), other)
  {
  }

  lemma UploadsAreQuiet(s: Store, op: Op, other: Id)
    requires IsUploadOp(op)
    ensures IsQuiet(s, Step(s, op), other)
  {
    hide IsQuiet;
    match op
    case OpBeginUpload(who, id, now) => BeginIsQuiet(s, who, id, now, other);
    case OpChunk(id, chunk, now) => ChunkIsQuiet(s, id, chunk, now, other);
    case OpFinishUpload(id, now) => FinishIsQuiet(s, id, now, other);
    case OpFinishInterrupted(id, now, dies) => FinishInterruptedIsQuiet(s, id, now, dies, other);
    case OpAbortUpload(id) => AbortIsQuiet(s, id, other);
  }

  lemma JanitorKeepsReceipt(s: Store, op: Op, k: (Id, Device))
    requires IsJanitorOp(op)
    ensures KeepsReceipt(s.deliveries, Step(s, op).deliveries, k)
  {
  }

  lemma ReserveKeepsReceipt(s: Store, op: Op, k: (Id, Device))
    requires op.OpReserve? && op.newId !in s.specs && (k in s.deliveries ==> k.0 in s.specs)
    ensures KeepsReceipt(s.deliveries, Step(s, op).deliveries, k)
  {
    hide HasRoom, KeyTaken, NewDeliveries, KeepsReceipt;
    NewDeliveriesKeepReceipt(s.deliveries, op.newId, op.spec.targets, k);
    SameDeliveriesKeepReceipt(s.deliveries, k);
  }

  lemma NewDeliveriesKeepReceipt(before: Deliveries, id: Id, targets: set<Device>, k: (Id, Device))
    requires k in before ==> k.0 != id
    ensures KeepsReceipt(before, before + NewDeliveries(id, targets), k)
  {
  }

  lemma SameDeliveriesKeepReceipt(before: Deliveries, k: (Id, Device))
    ensures KeepsReceipt(before, before, k)
  {
  }

  lemma LeasesKeepReceipt(s: Store, op: Op, k: (Id, Device))
    requires IsLeaseOp(op)
    ensures KeepsReceipt(s.deliveries, Step(s, op).deliveries, k)
  {
    match op
    case OpClaim(who, id, token, now) => ClaimKeepsReceipt(s, who, id, token, now, k);
    case OpOpenDownload(_, _, _, _) =>
    case OpFinishDownload(stream, now) => DownloadKeepsReceipt(s, stream, now, k);
    case OpRelease(who, id, token, now) => ReleaseKeepsReceipt(s, who, id, token, now, k);
  }

  lemma ClaimKeepsReceipt(s: Store, who: Device, id: Id, token: Token, now: Time, k: (Id, Device))
    ensures KeepsReceipt(s.deliveries, Claim(s, who, id, token, now).0.deliveries, k)
  {
  }

  lemma DownloadKeepsReceipt(s: Store, stream: Stream, now: Time, k: (Id, Device))
    ensures KeepsReceipt(s.deliveries, FinishDownload(s, stream, now).deliveries, k)
  {
  }

  lemma ReleaseKeepsReceipt(s: Store, who: Device, id: Id, token: Token, now: Time, k: (Id, Device))
    ensures KeepsReceipt(s.deliveries, Release(s, who, id, token, now).0.deliveries, k)
  {
  }

  /** What an acknowledgement must show before it turns the delivery `k`. */
  ghost predicate MayAcknowledge(s: Store, op: Op, k: (Id, Device)) {
    && op.OpAcknowledge? && (op.id, op.who) == k
    && k in s.deliveries && s.deliveries[k].receipt.Leased? && s.deliveries[k].lease.Some?
    && op.token == s.deliveries[k].lease.value.token && op.now < s.deliveries[k].lease.value.until
    && k.0 in s.transfers && op.sha == s.transfers[k.0].spec.sha
    && (k.0, k.1, op.token) in s.served
  }

  lemma AcknowledgeIsFenced(s: Store, op: Op, k: (Id, Device))
    requires DeliveriesOk(s.transfers, s.deliveries, s.grants, s.served, s.confirmed, s.clock) && op.OpAcknowledge?
    requires k in Step(s, op).deliveries && Step(s, op).deliveries[k].receipt.Acked?
    ensures k in s.deliveries && (s.deliveries[k] == Step(s, op).deliveries[k] || MayAcknowledge(s, op, k))
    ensures k in s.deliveries && s.deliveries[k].receipt.Acked? ==> s.deliveries[k] == Step(s, op).deliveries[k]
  {
    if k in s.deliveries && k.0 in s.transfers {
      assert DeliveryOk(k, s.deliveries[k], s.transfers[k.0], s.grants, s.served, s.confirmed, s.clock);
    }
    hide DeliveriesOk;
  }

  lemma AcknowledgeKeepsOthers(s: Store, op: Op, k: (Id, Device))
    requires op.OpAcknowledge? && k in s.deliveries && s.deliveries[k].receipt.Acked?
    ensures k in Step(s, op).deliveries && Step(s, op).deliveries[k] == s.deliveries[k]
  {
  }

  /** Only an acknowledgement under the row's own unexpired lease, after a complete download under
      it, makes a delivery acked; no step takes that back while the transfer's row exists. */
  lemma ReceiptsAreFenced(s: Store, op: Op, k: (Id, Device))
    requires Inv(s) && Enabled(s, op) && k in Step(s, op).deliveries
    ensures Step(s, op).deliveries[k].receipt.Acked? && !(k in s.deliveries && s.deliveries[k].receipt.Acked?) ==>
      MayAcknowledge(s, op, k)
    ensures k in s.deliveries && s.deliveries[k].receipt.Acked? ==> Step(s, op).deliveries[k] == s.deliveries[k]
  {
    hide Inv, DeliveriesOk, Step, MayAcknowledge;
    DeliveriesHaveSpecs(s);
    if op.OpAcknowledge? {
      if Step(s, op).deliveries[k].receipt.Acked? { AcknowledgeIsFenced(s, op, k); }
      if k in s.deliveries && s.deliveries[k].receipt.Acked? { AcknowledgeKeepsOthers(s, op, k); }
    } else if IsLeaseOp(op) {
      LeasesKeepReceipt(s, op, k);
    } else if IsUploadOp(op) {
      UploadsAreQuiet(s, op, k.0);
    } else if op.OpReserve? {
      ReserveKeepsReceipt(s, op, k);
    } else {
      JanitorKeepsReceipt(s, op, k);
    }
  }

  lemma DeliveriesHaveSpecs(s: Store)
    requires Inv(s)
    ensures DeliveriesOk(s.transfers, s.deliveries, s.grants, s.served, s.confirmed, s.clock)
    ensures forall k :: k in s.deliveries ==> k.0 in s.specs
  {
    hide TargetsOk, DiskOk, GrantsOk, HistoryOk, SweepsOk, KeysOk, QuotaOk;
  }

  /** A stage no step leaves: nothing in flight can bring a finished transfer back. */
  lemma TerminalIsAbsorbing(s: Store, op: Op, id: Id)
    requires Inv(s) && Enabled(s, op) && id in s.transfers && !IsLive(s.transfers[id].stage)
    ensures id in Step(s, op).transfers ==> Step(s, op).transfers[id] == s.transfers[id]
  {
    assert id in s.specs;
    hide Inv;
    if op.OpReserve? {
      ReserveKeepsRows(s, op, id);
    } else if IsLeaseOp(op) || op.OpAcknowledge? {
      LeasesKeepTerminal(s, op, id);
    } else if IsUploadOp(op) {
      UploadsAreQuiet(s, op, id);
    } else {
      JanitorKeepsTerminal(s, op, id);
    }
  }

  lemma ReserveKeepsRows(s: Store, op: Op, id: Id)
    requires op.OpReserve? && Enabled(s, op) && id in s.transfers && id in s.specs
    ensures id in Step(s, op).transfers && Step(s, op).transfers[id] == s.transfers[id]
  {
  }

  lemma LeasesKeepTerminal(s: Store, op: Op, id: Id)
    requires (IsLeaseOp(op) || op.OpAcknowledge?) && id in s.transfers && !IsLive(s.transfers[id].stage)
    ensures id in Step(s, op).transfers ==> Step(s, op).transfers[id] == s.transfers[id]
  {
  }

  lemma JanitorKeepsTerminal(s: Store, op: Op, id: Id)
    requires IsJanitorOp(op) && id in s.transfers && !IsLive(s.transfers[id].stage)
    ensures id in Step(s, op).transfers ==> Step(s, op).transfers[id] == s.transfers[id]
  {
  }

  /** Restarting after a crash at any point, and letting the janitor run once, leaves no half
      upload and every ready transfer with the blob of its declared size and digest. */
  lemma RestartRepairs(s: Store, now: Time, overflow: set<Id>, id: Id)
    requires Inv(s) && now >= s.clock
    requires IsOverflow(Retained(Recover(Crash(s)), now), s.cfg.recordLimit, overflow)
    ensures var s' := Cleanup(Recover(Crash(s)), now, overflow);
      && Inv(s') && s'.parts == map[]
      && (id in s'.transfers ==>
           && !s'.transfers[id].stage.Writing?
           && (s'.transfers[id].stage.Ready? ==> Holds(s'.files, id, s'.transfers[id].spec))
           && (s'.transfers[id].stage.Uploading? ==> id !in s'.files))
  {
    hide Inv;
    CrashKeepsInv(s);
    RecoverKeepsInv(Crash(s));
    CleanupKeepsInv(Recover(Crash(s)), now, overflow);
    var s' := Cleanup(Recover(Crash(s)), now, overflow);
    if id in s'.transfers && s'.transfers[id].stage.Ready? { ReadyHasBlob(s', id); }
  }

  lemma ReadyHasBlob(s: Store, id: Id)
    requires Inv(s) && id in s.transfers && s.transfers[id].stage.Ready? && s.transfers[id].expiresAt > s.clock
    ensures Holds(s.files, id, s.transfers[id].spec)
  {
  }

  /** "Every ready transfer has its blob", without regard to its lifetime. */
  ghost predicate AllReadyHaveBlobs(s: Store) {
    forall id :: id in s.transfers && s.transfers[id].stage.Ready? ==> Holds(s.files, id, s.transfers[id].spec)
  }

  /** A janitor pass that fails after unlinking breaks it exactly for the ready rows it found
      expired and had already unlinked: their rows come back with the rollback, their blobs do not. */
  lemma ReadyBlobsSurviveExactlyWhen(s: Store, now: Time, unlinked: set<Id>)
    requires Inv(s) && AllReadyHaveBlobs(s) && now >= s.clock
    ensures AllReadyHaveBlobs(CleanupInterrupted(s, now, unlinked)) <==>
      forall id :: id in s.transfers && s.transfers[id].stage.Ready? && id in unlinked ==> s.transfers[id].expiresAt > now
  {
    hide Inv;
    var s' := CleanupInterrupted(s, now, unlinked);
    forall id | id in s.transfers && s.transfers[id].stage.Ready?
      ensures Holds(s'.files, id, s.transfers[id].spec) <==> id !in unlinked || s.transfers[id].expiresAt > now
    {
    }
  }

  /** Pushing again under one idempotency key never makes a second transfer. */
  lemma PushIsIdempotent(s: Store, who: Device, spec: Spec, newId: Id, free: int, now: Time, id: Id)
    requires Inv(s) && SameKey(s, who, spec.key, id)
    ensures Reserve(s, who, spec, newId, free, now) ==
            (s.(clock := now), KnownReply(id, s.transfers[id], spec))
  {
    var s0 := s.(clock := now);
    assert SameKey(s0, who, spec.key, id);
    assert forall other :: SameKey(s0, who, spec.key, other) ==> other == id by {
      assert KeysOk(s.transfers);
    }
  }

  /** The upload of `id` is under way, its part file on disk, `body` received so far. */
  ghost predicate IsReceiving(s: Store, id: Id, body: Bytes) {
    && id in s.uploads && id in s.parts && id in s.specs
    && s.uploads[id] == body == s.parts[id].content
  }

  /** The size check passes every chunk exactly when the whole body is not too long. */
  lemma {:induction false} ChunksAddUp(s: Store, id: Id, chunks: seq<Bytes>, now: Time)
    requires id in s.uploads && IsReceiving(s, id, s.uploads[id]) && s.clock == now
    requires |s.uploads[id]| <= s.specs[id].1.size
    ensures var (read, reply) := ReceiveChunks(s, id, chunks, now);
            && (reply == Done <==> |s.uploads[id] + Joined(chunks)| <= s.specs[id].1.size)
            && (reply == Done ==>
                  && IsReceiving(read, id, s.uploads[id] + Joined(chunks))
                  && read == s.(uploads := read.uploads, parts := read.parts))
            && reply != Public(id, Ready)
    decreases |chunks|
  {
    if chunks == [] {
      assert s.uploads[id] + [] == s.uploads[id];
    } else {
      assert s.uploads[id] + chunks[0] + Joined(chunks[1..]) == s.uploads[id] + Joined(chunks);
      var (next, reply) := ReceiveChunk(s, id, chunks[0], now);
      if reply == Done { ChunksAddUp(next, id, chunks[1..], now); }
    }
  }

  lemma FinishChecksTheBody(s: Store, id: Id, body: Bytes)
    requires IsReceiving(s, id, body) && id in s.transfers && s.transfers[id].stage.Writing? && !Dead(s.transfers[id], s.clock)
    requires s.specs[id].1 == s.transfers[id].spec
    ensures var (done, reply) := FinishUpload(s, id, s.clock);
            && (reply == Public(id, Ready) <==> |body| == s.transfers[id].spec.size && Sha256(body) == s.transfers[id].spec.sha)
            && (reply == Public(id, Ready) ==>
                  && done.transfers == s.transfers[id := s.transfers[id].(stage := Ready)]
                  && id in done.files && done.files[id].content == body)
  {
  }

  lemma BeginOpensTheBody(s: Store, who: Device, id: Id, now: Time)
    requires Inv(s) && BeginUpload(s, who, id, now).1 == Done
    ensures var begun := BeginUpload(s, who, id, now).0;
            && IsReceiving(begun, id, []) && begun.clock == now && id in s.transfers
            && begun.transfers == s.transfers[id := s.transfers[id].(stage := Writing)]
            && begun.specs[id].1 == s.transfers[id].spec && !Dead(s.transfers[id], now)
  {
    hide Inv;
    SpecsOfRows(s);
  }

  lemma SpecsOfRows(s: Store)
    requires Inv(s)
    ensures forall id :: id in s.transfers ==> id in s.specs && s.specs[id].1 == s.transfers[id].spec
  {
    hide TargetsOk, DiskOk, DeliveriesOk, GrantsOk, HistoryOk, SweepsOk, KeysOk, QuotaOk;
  }

  /** An uninterrupted upload is published exactly when its chunks are the reserved content, and
      what is published is that content. */
  lemma UploadPublishesExactlyTheReserved(s: Store, who: Device, id: Id, chunks: seq<Bytes>, now: Time)
    requires Inv(s)
    ensures var (done, reply) := Upload(s, who, id, chunks, now);
            && (reply == Public(id, Ready) <==>
                  && BeginUpload(s, who, id, now).1 == Done
                  && |Joined(chunks)| == s.transfers[id].spec.size && Sha256(Joined(chunks)) == s.transfers[id].spec.sha)
            && (reply == Public(id, Ready) ==>
                  && done.transfers == s.transfers[id := s.transfers[id].(stage := Ready)]
                  && id in done.files && done.files[id].content == Joined(chunks))
  {
    hide Inv, BeginUpload, FinishUpload, ReceiveChunks;
    var (begun, reply) := BeginUpload(s, who, id, now);
    if reply == Done {
      BeginOpensTheBody(s, who, id, now);
      ChunksAddUp(begun, id, chunks, now);
      assert begun.uploads[id] + Joined(chunks) == Joined(chunks);
      var (read, reply') := ReceiveChunks(begun, id, chunks, now);
      if reply' == Done { FinishChecksTheBody(read, id, Joined(chunks)); }
    } else {
      BeginRefuses(s, who, id, now);
    }
  }

  lemma BeginRefuses(s: Store, who: Device, id: Id, now: Time)
    ensures BeginUpload(s, who, id, now).1 == Done || BeginUpload(s, who, id, now).1.Rejected?
  {
  }
}
