/** What whole runs of the store never undo: reservations, receipts, finished transfers. */
module RelayStoreHistory {
  import opened Basics
  import opened RelayStore
  import opened RelayStoreSafety
  import opened RelayStoreRuns

  /** Reservations and receipts are only ever added; a new receipt of `k` comes from `k`'s own
      acknowledgement. */
  ghost predicate Grows(before: Store, after: Store) {
    && (forall id :: id in before.specs ==> id in after.specs && after.specs[id] == before.specs[id])
    && (forall k :: k in before.confirmed ==> k in after.confirmed)
  }

  lemma StoreGrows(s: Store, op: Op)
    requires Enabled(s, op)
    ensures Grows(s, Step(s, op))
    ensures forall k :: k in Step(s, op).confirmed && k !in s.confirmed ==>
      op.OpAcknowledge? && k == (op.id, op.who)
  {
    hide Step;
    match op
    case OpReserve(who, spec, newId, free, now) => ReserveGrows(s, op);
    case OpAcknowledge(who, id, token, sha, now) => AcknowledgeGrows(s, op);
    case _ =>
      if IsUploadOp(op) { UploadsAreQuiet(s, op, ""); } else { OthersKeepHistory(s, op); }
  }

  lemma ReserveGrows(s: Store, op: Op)
    requires op.OpReserve? && op.newId !in s.specs
    ensures Grows(s, Step(s, op)) && Step(s, op).confirmed == s.confirmed
  {
    hide HasRoom, KeyTaken;
  }

  lemma AcknowledgeGrows(s: Store, op: Op)
    requires op.OpAcknowledge?
    ensures Grows(s, Step(s, op))
    ensures forall k :: k in Step(s, op).confirmed && k !in s.confirmed ==> k == (op.id, op.who)
  {
    hide ReceiptRefusal, Receipted, AllAcked;
    var s1, k := s.(clock := op.now), (op.id, op.who);
    if ReceiptRefusal(s1, k, op.token, op.sha).None? {
      AdmittedReceipt(s1, k, op.token, op.sha);
      ReceiptHistory(s1, k);
    }
  }

  lemma AdmittedReceipt(s: Store, k: (Id, Device), token: Token, sha: Digest)
    requires ReceiptRefusal(s, k, token, sha).None?
    ensures k in s.deliveries && s.deliveries[k].lease.Some? && k.0 in s.transfers
  {
    hide Dead;
  }

  lemma ReceiptHistory(s: Store, k: (Id, Device))
    requires k in s.deliveries && s.deliveries[k].lease.Some? && k.0 in s.transfers
    ensures Receipted(s, k).specs == s.specs && Receipted(s, k).confirmed == s.confirmed[k := s.deliveries[k].lease.value.token]
  {
    hide AllAcked, EndGrant;
  }

  lemma OthersKeepHistory(s: Store, op: Op)
    requires !IsUploadOp(op) && !op.OpReserve? && !op.OpAcknowledge?
    ensures Step(s, op).specs == s.specs && Step(s, op).confirmed == s.confirmed
  {
    hide Cleanup, CleanupInterrupted, SweepOrphans, Crash, Recover, Claim, OpenDownload, FinishDownload, Release;
    match op
    case OpCleanup(now, overflow) => JanitorKeepsHistory(s, now, overflow, {});
    case OpCleanupInterrupted(now, unlinked) => JanitorKeepsHistory(s, now, {}, unlinked);
    case OpSweep(sweep) => RestartKeepsHistory(s, sweep);
    case OpCrash => RestartKeepsHistory(s, Sweep({}, 0));
    case OpRecover => RestartKeepsHistory(s, Sweep({}, 0));
    case OpFinishDownload(stream, now) => ServingKeepsHistory(s, stream, now);
    case OpClaim(who, id, token, now) => ClaimKeepsHistory(s, who, id, token, now);
    case OpOpenDownload(who, id, token, now) => OpeningKeepsHistory(s, who, id, token, now);
    case OpRelease(who, id, token, now) => ReleaseKeepsHistory(s, who, id, token, now);
    case _ =>
  }

  lemma JanitorKeepsHistory(s: Store, now: Time, overflow: set<Id>, unlinked: set<Id>)
    ensures Cleanup(s, now, overflow).specs == s.specs && Cleanup(s, now, overflow).confirmed == s.confirmed
    ensures CleanupInterrupted(s, now, unlinked).specs == s.specs && CleanupInterrupted(s, now, unlinked).confirmed == s.confirmed
  {
  }

  lemma RestartKeepsHistory(s: Store, sweep: Sweep)
    ensures SweepOrphans(s, sweep).specs == s.specs && SweepOrphans(s, sweep).confirmed == s.confirmed
    ensures Crash(s).specs == s.specs && Crash(s).confirmed == s.confirmed
    ensures Recover(s).specs == s.specs && Recover(s).confirmed == s.confirmed
  {
  }

  lemma ServingKeepsHistory(s: Store, stream: Stream, now: Time)
    ensures FinishDownload(s, stream, now).specs == s.specs && FinishDownload(s, stream, now).confirmed == s.confirmed
  {
  }

  lemma ClaimKeepsHistory(s: Store, who: Device, id: Id, token: Token, now: Time)
    ensures Claim(s, who, id, token, now).0.specs == s.specs && Claim(s, who, id, token, now).0.confirmed == s.confirmed
  {
  }

  lemma OpeningKeepsHistory(s: Store, who: Device, id: Id, token: Token, now: Time)
    ensures OpenDownload(s, who, id, token, now).0.specs == s.specs && OpenDownload(s, who, id, token, now).0.confirmed == s.confirmed
  {
  }

  lemma ReleaseKeepsHistory(s: Store, who: Device, id: Id, token: Token, now: Time)
    ensures Release(s, who, id, token, now).0.specs == s.specs && Release(s, who, id, token, now).0.confirmed == s.confirmed
  {
    hide EndGrant;
  }

  // ----------------------------------------------------------- rows come and go

  /** Only a reservation adds a row, under its new id. */
  lemma NoRowReturns(s: Store, op: Op, id: Id)
    requires Enabled(s, op) && id !in s.transfers && id in s.specs
    ensures id !in Step(s, op).transfers
  {
    hide Cleanup, CleanupInterrupted, SweepOrphans, Crash, Recover, Claim, OpenDownload, FinishDownload, Release, Acknowledge, Reserve;
    hide BeginUpload, ReceiveChunk, FinishUpload, FinishInterrupted, AbortUpload;
    match op
    case OpCleanup(now, overflow) => JanitorAddsNoRow(s, now, overflow, {});
    case OpCleanupInterrupted(now, unlinked) => JanitorAddsNoRow(s, now, {}, unlinked);
    case OpSweep(sweep) => RestartAddsNoRow(s, sweep);
    case OpCrash => RestartAddsNoRow(s, Sweep({}, 0));
    case OpRecover => RestartAddsNoRow(s, Sweep({}, 0));
    case OpReserve(_, _, _, _, _) => ReserveAddsOneRow(s, op);
    case OpClaim(who, id, token, now) => LeasesAddNoRow(s, who, id, token, now);
    case OpOpenDownload(who, id, token, now) => LeasesAddNoRow(s, who, id, token, now);
    case OpRelease(who, id, token, now) => LeasesAddNoRow(s, who, id, token, now);
    case OpFinishDownload(stream, now) => ServingAddsNoRow(s, stream, now);
    case OpAcknowledge(who, id, token, sha, now) => ReceiptAddsNoRow(s, who, id, token, sha, now);
    case OpBeginUpload(who, id, now) => BeginAddsNoRow(s, who, id, now);
    case OpChunk(id, chunk, now) => ChunkAddsNoRow(s, id, chunk, now);
    case OpFinishUpload(id, now) => FinishAddsNoRow(s, id, now);
    case OpFinishInterrupted(id, now, dies) => InterruptionAddsNoRow(s, id, now, dies);
    case OpAbortUpload(id) => AbortAddsNoRow(s, id);
  }

  lemma BeginAddsNoRow(s: Store, who: Device, id: Id, now: Time)
    ensures BeginUpload(s, who, id, now).0.transfers.Keys == s.transfers.Keys
  {
    hide Dead;
  }

  lemma ChunkAddsNoRow(s: Store, id: Id, chunk: Bytes, now: Time)
    ensures ReceiveChunk(s, id, chunk, now).0.transfers.Keys == s.transfers.Keys
  {
  }

  lemma AbortAddsNoRow(s: Store, id: Id)
    ensures AbortUpload(s, id).transfers.Keys == s.transfers.Keys
  {
  }

  lemma FinishAddsNoRow(s: Store, id: Id, now: Time)
    ensures FinishUpload(s, id, now).0.transfers.Keys == s.transfers.Keys
  {
    hide Dead, AbortUpload;
    AbortAddsNoRow(s.(clock := now), id);
  }

  lemma InterruptionAddsNoRow(s: Store, id: Id, now: Time, dies: bool)
    ensures FinishInterrupted(s, id, now, dies).transfers.Keys == s.transfers.Keys
  {
    hide Dead, AbortUpload;
    var s1 := s.(clock := now);
    if id in s1.parts { AbortAddsNoRow(RenamePart(s1, id), id); }
  }

  lemma JanitorAddsNoRow(s: Store, now: Time, overflow: set<Id>, unlinked: set<Id>)
    ensures Cleanup(s, now, overflow).transfers.Keys <= s.transfers.Keys
    ensures CleanupInterrupted(s, now, unlinked).transfers.Keys <= s.transfers.Keys
  {
  }

  lemma RestartAddsNoRow(s: Store, sweep: Sweep)
    ensures SweepOrphans(s, sweep).transfers.Keys <= s.transfers.Keys
    ensures Crash(s).transfers.Keys <= s.transfers.Keys && Recover(s).transfers.Keys <= s.transfers.Keys
  {
  }

  lemma ReserveAddsOneRow(s: Store, op: Op)
    requires op.OpReserve?
    ensures Step(s, op).transfers.Keys <= s.transfers.Keys + {op.newId}
  {
    hide HasRoom, KeyTaken;
  }

  lemma LeasesAddNoRow(s: Store, who: Device, id: Id, token: Token, now: Time)
    ensures Claim(s, who, id, token, now).0.transfers == s.transfers
    ensures OpenDownload(s, who, id, token, now).0.transfers == s.transfers
    ensures Release(s, who, id, token, now).0.transfers == s.transfers
  {
    hide EndGrant, Dead, IsHeld;
  }

  lemma ServingAddsNoRow(s: Store, stream: Stream, now: Time)
    ensures FinishDownload(s, stream, now).transfers == s.transfers
  {
  }

  lemma ReceiptAddsNoRow(s: Store, who: Device, id: Id, token: Token, sha: Digest, now: Time)
    ensures Acknowledge(s, who, id, token, sha, now).0.transfers.Keys == s.transfers.Keys
  {
    hide ReceiptRefusal, AllAcked, EndGrant;
    var s1, k := s.(clock := now), (id, who);
    if ReceiptRefusal(s1, k, token, sha).None? { AdmittedReceipt(s1, k, token, sha); }
  }

  // ---------------------------------------------------------------- whole runs

  /** One step of a run, with what holds before it. */
  lemma RunStep(cfg: Config, run: seq<Store>, ops: seq<Op>, n: nat)
    requires IsRun(cfg, run, ops) && n < |ops|
    ensures n + 1 < |run| && Inv(run[n]) && Inv(run[n + 1]) && Enabled(run[n], ops[n]) && run[n + 1] == Step(run[n], ops[n])
  {
    hide Inv, Enabled, Step;
    EveryRunKeepsInv(cfg, run, ops, n);
    EveryRunKeepsInv(cfg, run, ops, n + 1);
  }

  lemma RowsHaveSpecs(s: Store)
    requires Inv(s)
    ensures forall id :: id in s.transfers ==> id in s.specs && s.specs[id].1 == s.transfers[id].spec
    ensures TargetsOk(s.transfers, s.deliveries)
  {
    hide TargetsOk, DiskOk, DeliveriesOk, GrantsOk, HistoryOk, SweepsOk, KeysOk, QuotaOk;
  }

  /** An expired, delivered or cancelled transfer stays exactly as it is for as long as its row exists,
      and a row once deleted never comes back. */
  lemma {:induction false} FinishedStaysFinished(cfg: Config, run: seq<Store>, ops: seq<Op>, m: nat, n: nat, id: Id)
    requires IsRun(cfg, run, ops) && m <= n < |run| && id in run[m].transfers && !IsLive(run[m].transfers[id].stage)
    ensures id in run[n].specs && (id in run[n].transfers ==> run[n].transfers[id] == run[m].transfers[id])
    decreases n
  {
    hide Inv, Enabled, Step, IsLive, IsRun;
    if m == n {
      EveryRunKeepsInv(cfg, run, ops, m);
      RowsHaveSpecs(run[m]);
    } else {
      AsLong(cfg, run, ops);
      FinishedStaysFinished(cfg, run, ops, m, n - 1, id);
      RunStep(cfg, run, ops, n - 1);
      StoreGrows(run[n - 1], ops[n - 1]);
      if id in run[n - 1].transfers {
        TerminalIsAbsorbing(run[n - 1], ops[n - 1], id);
      } else {
        NoRowReturns(run[n - 1], ops[n - 1], id);
      }
    }
  }

  lemma AsLong(cfg: Config, run: seq<Store>, ops: seq<Op>)
    requires IsRun(cfg, run, ops)
    ensures |run| == |ops| + 1
  {
  }

  /** A delivery acked at some time in a run was acked by one acknowledgement, under the row's own
      unexpired lease and after a complete download under that lease. */
  lemma {:induction false} EveryAckWasEarned(cfg: Config, run: seq<Store>, ops: seq<Op>, n: nat, k: (Id, Device)) returns (i: nat)
    requires IsRun(cfg, run, ops) && n < |run| && k in run[n].deliveries && run[n].deliveries[k].receipt.Acked?
    ensures i < n && i < |ops| && MayAcknowledge(run[i], ops[i], k)
  {
    hide Inv, Enabled, Step, MayAcknowledge;
    if n > 0 {
      RunStep(cfg, run, ops, n - 1);
      hide IsRun;
      if k in run[n - 1].deliveries && run[n - 1].deliveries[k].receipt.Acked? {
        i := EveryAckWasEarned(cfg, run, ops, n - 1, k);
      } else {
        ReceiptsAreFenced(run[n - 1], ops[n - 1], k);
        i := n - 1;
      }
    }
  }

  /** A receipt once accepted stays exactly as it is for as long as its row exists. */
  lemma {:induction false} AckedStaysAcked(cfg: Config, run: seq<Store>, ops: seq<Op>, m: nat, n: nat, k: (Id, Device))
    requires IsRun(cfg, run, ops) && m <= n < |run| && k in run[m].deliveries && run[m].deliveries[k].receipt.Acked?
    ensures k.0 in run[n].specs && (k in run[n].deliveries ==> run[n].deliveries[k] == run[m].deliveries[k])
    decreases n
  {
    hide Inv, Enabled, Step, IsRun;
    if m == n {
      EveryRunKeepsInv(cfg, run, ops, m);
      DeliveriesHaveSpecs(run[m]);
    } else {
      AsLong(cfg, run, ops);
      AckedStaysAcked(cfg, run, ops, m, n - 1, k);
      RunStep(cfg, run, ops, n - 1);
      StoreGrows(run[n - 1], ops[n - 1]);
      RowsHaveSpecs(run[n - 1]);
      RowsHaveSpecs(run[n]);
      if k in run[n].deliveries {
        if k.0 !in run[n - 1].transfers { NoRowReturns(run[n - 1], ops[n - 1], k.0); }
        assert k in run[n - 1].deliveries;
        ReceiptsAreFenced(run[n - 1], ops[n - 1], k);
      }
    }
  }

  // ------------------------------------------------------------------ a short run

  /** A run that leaves a ready transfer without its blob: it is reserved and uploaded, and an hour later,
      when it has outlived its lifetime, a janitor pass unlinks its file and fails before committing. */
  lemma ReadyBlobCanBeLost(cfg: Config, who: Device, target: Device, key: string, id: Id, body: Bytes, free: int)
    returns (run: seq<Store>, ops: seq<Op>)
    requires |body| <= cfg.quota && free >= cfg.minimumFree + |body|
    ensures IsRun(cfg, run, ops) && |ops| == 6 && ops[5] == OpCleanupInterrupted(HOUR, {id})
    ensures AllReadyHaveBlobs(run[5]) && !AllReadyHaveBlobs(run[6])
  {
    hide AllReadyHaveBlobs, Step, Enabled;
    var spec := Spec(key, "ai-twin", "files", "name", |body|, Sha256(body), {target}, HOUR);
    ops := [OpRecover, OpReserve(who, spec, id, free, 0), OpBeginUpload(who, id, 0), OpChunk(id, body, 0),
            OpFinishUpload(id, 0), OpCleanupInterrupted(HOUR, {id})];
    var s0 := Initial(cfg);
    var s1 := Step(s0, ops[0]);
    var s2 := Step(s1, ops[1]);
    FirstReservation(cfg, who, spec, id, free);
    var s3 := Step(s2, ops[2]);
    var s4 := Step(s3, ops[3]);
    var s5 := Step(s4, ops[4]);
    FirstUpload(s2, who, id, body);
    run := [s0, s1, s2, s3, s4, s5, Step(s5, ops[5])];
    LateUnlink(s5, id);
  }

  lemma FirstReservation(cfg: Config, who: Device, spec: Spec, id: Id, free: int)
    requires spec.size <= cfg.quota && free >= cfg.minimumFree + spec.size && spec.targets != {}
    ensures var s0, op := Initial(cfg), OpReserve(who, spec, id, free, 0);
            var s1 := Step(s0, OpRecover);
            var s2 := Step(s1, op);
            && Enabled(s0, OpRecover) && Enabled(s1, op) && s2.up && s2.clock == 0
            && s2.transfers == map[id := NewTransfer(who, spec, 0)] && id in s2.specs && s2.specs[id] == (who, spec)
  {
    hide HasRoom, KeyTaken;
    EmptyHasRoom(Step(Initial(cfg), OpRecover), who, spec.key, spec.size);
  }

  /** The three steps of an upload in one piece. */
  lemma FirstUpload(s: Store, who: Device, id: Id, body: Bytes)
    requires s.up && s.clock == 0 && id in s.specs && s.specs[id].1.size == |body| && s.specs[id].1.sha == Sha256(body)
    requires s.transfers == map[id := NewTransfer(who, s.specs[id].1, 0)] && s.specs[id].1.ttl == HOUR
    ensures var begin, chunk, finish := OpBeginUpload(who, id, 0), OpChunk(id, body, 0), OpFinishUpload(id, 0);
            var s1 := Step(s, begin);
            var s2 := Step(s1, chunk);
            var s3 := Step(s2, finish);
            && Enabled(s, begin) && Enabled(s1, chunk) && Enabled(s2, finish) && s3.up && s3.clock == 0
            && s3.transfers.Keys == {id} && s3.transfers[id].stage.Ready? && s3.transfers[id].expiresAt == HOUR
            && Holds(s3.files, id, s3.transfers[id].spec)
  {
    hide Cleanup, CleanupInterrupted, SweepOrphans, Crash, Recover, Claim, OpenDownload, FinishDownload, Acknowledge, Release;
    hide Reserve, AbortUpload, FinishInterrupted;
    assert [] + body == body;
  }

  lemma LateUnlink(s: Store, id: Id)
    requires s.up && s.clock <= HOUR && s.transfers.Keys == {id} && s.transfers[id].stage.Ready?
    requires s.transfers[id].expiresAt == HOUR && Holds(s.files, id, s.transfers[id].spec)
    ensures var op := OpCleanupInterrupted(HOUR, {id});
            Enabled(s, op) && AllReadyHaveBlobs(s) && !AllReadyHaveBlobs(Step(s, op))
  {
    assert id !in CleanupInterrupted(s, HOUR, {id}).files;
  }

  lemma EmptyHasRoom(s: Store, who: Device, key: string, size: nat)
    requires s.transfers == map[] && size <= s.cfg.quota
    ensures HasRoom(s, size) && !KeyTaken(s, who, key) && Total(LiveSizes(s.transfers)) == 0
  {
    assert LiveSizes(s.transfers) == map[];
  }
}
