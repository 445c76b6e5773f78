/** The service itself: its tables, files and open requests as fields, its handlers as methods.
    Every method is proved to take exactly the step of `RelayStore` it is named after. */
module RelayServer {
  import opened Basics
  import opened RelayStore
  import opened RelayStoreSafety
  import opened RelayLeases
  import opened RelayStoreRuns
  import opened RelayStoreAnswers

  class Server {
    const cfg: Config
    var up: bool
    var clock: Time
    var transfers: map<Id, Transfer>
    var deliveries: map<(Id, Device), Delivery>
    var files: map<Id, File>
    var parts: map<Id, File>
    var uploads: map<Id, Bytes>
    var streams: set<Stream>
    var sweeps: set<Sweep>
    ghost var specs: map<Id, (Device, Spec)>
    ghost var grants: map<Token, Grant>
    ghost var served: set<(Id, Device, Token)>
    ghost var confirmed: map<(Id, Device), Token>

    ghost function View(): Store
      reads this
    {
      Store(cfg, up, clock, transfers, deliveries, files, parts, uploads, streams, sweeps, specs, grants, served, confirmed)
    }

    ghost predicate Valid()
      reads this
    {
      Inv(View()) && up
    }

    constructor (cfg: Config)
      ensures View() == Initial(cfg)
    {
      this.cfg, up, clock := cfg, false, 0;
      transfers, deliveries, files, parts, uploads, streams, sweeps := map[], map[], map[], map[], map[], {}, {};
      specs, grants, served, confirmed := map[], map[], {}, map[];
    }

    /** `initialize`, its own call of `cleanup` included. */
    method Initialize(now: Time) returns (overflow: set<Id>)
      requires Inv(View()) && !up && now >= clock
      modifies this
      ensures IsOverflow(Retained(RelayStore.Recover(old(View())), now), cfg.recordLimit, overflow)
      ensures View() == RelayStore.Cleanup(RelayStore.Recover(old(View())), now, overflow) && Valid()
    {
      hide Inv;
      Recover();
      overflow := Cleanup(now);
    }

    /** Uploads cut off by the crash start over: their rows, the blobs they may have renamed, their parts. */
    method Recover()
      requires Inv(View()) && !up
      modifies this
      ensures View() == RelayStore.Recover(old(View())) && Valid() && clock == old(clock)
    {
      hide Inv, Restarted, Unfinished;
      RecoverKeepsInv(View());
      transfers := Restarted(transfers);
      UnlinkBlobs(Unfinished(transfers));
      UnlinkParts(parts.Keys);
      up := true;
    }

    /** `unlink(missing_ok=True)` for each of some blobs. */
    method UnlinkBlobs(ids: set<Id>)
      modifies `files
      ensures files == old(files) - ids
    {
      var left := ids;
      while left != {}
        invariant left <= ids && files == old(files) - (ids - left)
      {
        var id :| id in left;
        assert ids - (left - {id}) == ids - left + {id};
        files, left := files - {id}, left - {id};
      }
      assert ids - left == ids;
    }

    /** And for each of some part files. */
    method UnlinkParts(ids: set<Id>)
      modifies `parts
      ensures parts == old(parts) - ids
    {
      var left := ids;
      while left != {}
        invariant left <= ids && parts == old(parts) - (ids - left)
      {
        var id :| id in left;
        assert ids - (left - {id}) == ids - left + {id};
        parts, left := parts - {id}, left - {id};
      }
      assert ids - left == ids;
    }

    /** The rest of `cleanup`, after its transaction: old files that no row knows of. */
    method SweepOrphans(sweep: Sweep)
      requires Valid() && sweep in sweeps
      modifies this
      ensures View() == RelayStore.SweepOrphans(old(View()), sweep) && Valid()
    {
      hide Inv, OldOrphans;
      SweepKeepsInv(View(), sweep);
      var blobs := FindOrphans(files, sweep);
      UnlinkBlobs(blobs);
      var rests := FindOrphans(parts, sweep);
      UnlinkParts(rests);
      sweeps := sweeps - {sweep};
    }

    /** `cleanup`; the rows dropped for the record limit are found by taking the oldest one out
        until the limit is met. */
    method Cleanup(now: Time) returns (overflow: set<Id>)
      requires Valid() && now >= clock
      modifies this
      ensures IsOverflow(Retained(old(View()), now), cfg.recordLimit, overflow)
      ensures View() == RelayStore.Cleanup(old(View()), now, overflow) && Valid()
    {
      hide Inv, IsOverflow, TerminalIds, Expire, StaleRecords;
      ghost var before := View();
      clock := now;
      ExpireDue(now);
      overflow := BeyondLimit(transfers, cfg.recordLimit);
      DropRecords(overflow);
      CleanupKeepsInv(before, now, overflow);
    }

    /** Rows past their time expire, finished ones lose their files, old records go. */
    method ExpireDue(now: Time)
      modifies this
      ensures transfers == Retained(old(View()), now)
      ensures var gone := TerminalIds(Expire(old(transfers), now));
              View() == old(View()).(transfers := transfers, files := old(files) - gone, parts := old(parts) - gone)
    {
      transfers := Expire(transfers, now);
      var terminal := TerminalIds(transfers);
      UnlinkBlobs(terminal);
      UnlinkParts(terminal);
      transfers := transfers - StaleRecords(transfers, now - cfg.recordAge);
    }

    method DropRecords(overflow: set<Id>)
      modifies this
      ensures var rows := old(transfers) - overflow;
              View() == old(View()).(transfers := rows, deliveries := DropRows(old(deliveries), rows.Keys),
                                     sweeps := old(sweeps) + {Sweep(rows.Keys, old(clock))})
    {
      transfers := transfers - overflow;
      deliveries := DropRows(deliveries, transfers.Keys);
      sweeps := sweeps + {Sweep(transfers.Keys, clock)};
    }

    /** The two checks of `reserve` against the totals of the store. */
    method CheckRoom(size: nat, free: int) returns (admitted: bool)
      ensures admitted <==> HasRoom(View(), size) && free >= cfg.minimumFree + Total(LiveSizes(transfers)) + size
    {
      var used, count := LiveUsage(transfers);
      if used + size > cfg.quota || count >= MAX_LIVE || |transfers| >= MAX_ROWS { return false; }
      return free >= cfg.minimumFree + used + size;
    }

    /** `reserve`, after its own call of `cleanup`. */
    method Reserve(who: Device, spec: Spec, newId: Id, free: int, now: Time) returns (reply: Reply)
      requires Valid() && now >= clock && newId !in specs && spec.targets != {}
      modifies this
      ensures (View(), reply) == RelayStore.Reserve(old(View()), who, spec, newId, free, now) && Valid()
    {
      hide Inv, RelayStore.Reserve;
      ReserveKeepsInv(View(), who, spec, newId, free, now);
      var existing := FindKey(transfers, who, spec.key);
      if existing.Some? {
        reply := Replay(who, spec, newId, free, now, existing.value);
      } else {
        reply := Admit(who, spec, newId, free, now);
      }
    }

    /** A key seen before: the stored transfer, or a refusal. */
    method Replay(who: Device, spec: Spec, ghost newId: Id, ghost free: int, now: Time, id: Id) returns (reply: Reply)
      requires Inv(View()) && id in transfers && transfers[id].source == who && transfers[id].spec.key == spec.key
      modifies this
      ensures (View(), reply) == RelayStore.Reserve(old(View()), who, spec, newId, free, now) && up == old(up)
    {
      hide Inv, RelayStore.Reserve;
      ReserveKnown(View(), who, spec, newId, free, now, id);
      clock := now;
      return KnownReply(id, transfers[id], spec);
    }

    /** The rest of `reserve` once the key is known to be new. */
    method Admit(who: Device, spec: Spec, newId: Id, free: int, now: Time) returns (reply: Reply)
      requires forall id :: id in transfers ==> transfers[id].source != who || transfers[id].spec.key != spec.key
      modifies this
      ensures (View(), reply) == RelayStore.Reserve(old(View()), who, spec, newId, free, now) && up == old(up)
    {
      hide RelayStore.Reserve;
      ReserveUnknown(View(), who, spec, newId, free, now);
      clock := now;
      var admitted := CheckRoom(spec.size, free);
      if !admitted { return Rejected(507); }
      AddRow(newId, NewTransfer(who, spec, now));
      return Public(newId, Uploading);
    }

    method AddRow(id: Id, row: Transfer)
      modifies this
      ensures View() == AddReservation(old(View()), id, row) && up == old(up)
    {
      transfers := transfers[id := row];
      AddDeliveries(id, row.spec.targets);
      specs := specs[id := (row.source, row.spec)];
    }

    method AddDeliveries(id: Id, targets: set<Device>)
      modifies `deliveries
      ensures deliveries == old(deliveries) + NewDeliveries(id, targets)
    {
      var left := targets;
      while left != {}
        invariant left <= targets && deliveries == old(deliveries) + NewDeliveries(id, targets - left)
      {
        var d :| d in left;
        assert targets - (left - {d}) == targets - left + {d};
        left := left - {d};
        deliveries := deliveries[(id, d) := Delivery(Pending, None, false, None)];
      }
      assert targets - left == targets;
    }

    method CheckBegin(who: Device, id: Id) returns (refusal: Option<nat>)
      ensures refusal == BeginRefusal(View(), who, id) && (refusal.None? ==> id in transfers)
    {
      if id !in transfers || who != transfers[id].source { return Some(404); }
      var row := transfers[id];
      if Dead(row, clock) { return Some(410); }
      if !row.stage.Uploading? { return Some(409); }
      if row.uploadDeadline <= clock { return Some(410); }
      return None;
    }

    method BeginUpload(who: Device, id: Id, now: Time) returns (reply: Reply)
      requires Valid() && now >= clock
      modifies this
      ensures (View(), reply) == RelayStore.BeginUpload(old(View()), who, id, now) && Valid()
    {
      hide Inv, BeginRefusal;
      BeginUploadKeepsInv(View(), who, id, now);
      clock := now;
      var refusal := CheckBegin(who, id);
      if refusal.Some? { return Rejected(refusal.value); }
      transfers := transfers[id := transfers[id].(stage := Writing)];
      uploads, parts := uploads[id := []], parts[id := File([], now)];
      return Done;
    }

    /** The `except` branch of `upload`. */
    method AbortUpload(id: Id)
      requires Valid()
      modifies this
      ensures View() == RelayStore.AbortUpload(old(View()), id) && Valid()
    {
      hide Inv;
      AbortUploadKeepsInv(View(), id);
      parts, uploads := parts - {id}, uploads - {id};
      if id in transfers && transfers[id].stage.Writing? {
        transfers := transfers[id := transfers[id].(stage := Uploading)];
      }
    }

    method ReceiveChunk(id: Id, size: nat, chunk: Bytes, now: Time) returns (reply: Reply)
      requires Valid() && now >= clock && id in uploads && id in specs && size == specs[id].1.size
      modifies this
      ensures (View(), reply) == RelayStore.ReceiveChunk(old(View()), id, chunk, now) && Valid()
    {
      hide Inv;
      ghost var before := View();
      ChunkKeepsInv(before, id, chunk, now);
      ClockKeepsInv(before, now);
      clock := now;
      assert View() == before.(clock := now);
      if |uploads[id]| + |chunk| > size {
        AbortUpload(id);
        return Rejected(413);
      }
      uploads := uploads[id := uploads[id] + chunk];
      if id in parts {
        parts := parts[id := File(uploads[id], now)];
      }
      return Done;
    }

    method CheckFinish(id: Id, size: nat, sha: Digest) returns (refusal: Option<nat>)
      requires id in uploads && id in specs && size == specs[id].1.size && sha == specs[id].1.sha
      ensures refusal == FinishRefusal(View(), id)
    {
      if |uploads[id]| != size || Sha256(uploads[id]) != sha { return Some(422); }
      if id !in transfers { return Some(404); }
      if Dead(transfers[id], clock) { return Some(410); }
      if !transfers[id].stage.Writing? { return Some(409); }
      if id !in parts { return Some(500); }
      return None;
    }

    method FinishUpload(id: Id, size: nat, sha: Digest, now: Time) returns (reply: Reply)
      requires Valid() && now >= clock && id in uploads && id in specs
      requires size == specs[id].1.size && sha == specs[id].1.sha
      modifies this
      ensures (View(), reply) == RelayStore.FinishUpload(old(View()), id, now) && Valid()
    {
      hide Inv;
      ghost var before := View();
      FinishUploadKeepsInv(before, id, now);
      ClockKeepsInv(before, now);
      clock := now;
      assert View() == before.(clock := now);
      var refusal := CheckFinish(id, size, sha);
      if refusal.Some? {
        AbortUpload(id);
        return Rejected(refusal.value);
      }
      files, parts := files[id := parts[id]], parts - {id};
      transfers := transfers[id := transfers[id].(stage := Ready)];
      uploads := uploads - {id};
      return Public(id, Ready);
    }

    /** `inbox`, but for the order of the list and its limit of a hundred. */
    method Inbox(who: Device, now: Time) returns (items: set<Id>)
      ensures items == RelayStore.Inbox(View(), who, now)
    {
      items := {};
      var left := transfers.Keys;
      while left != {}
        invariant left <= transfers.Keys && items == RelayStore.Inbox(View(), who, now) - left
      {
        var id :| id in left;
        left := left - {id};
        if (id, who) in deliveries && transfers[id].stage.Ready? && transfers[id].expiresAt > now {
          var d := deliveries[(id, who)];
          if d.receipt.Pending? || (d.receipt.Leased? && (d.lease.None? || d.lease.value.until <= now)) {
            items := items + {id};
          }
        }
      }
    }

    method Claim(who: Device, id: Id, token: Token, now: Time) returns (reply: Reply)
      requires Valid() && now >= clock && token !in grants
      modifies this
      ensures (View(), reply) == RelayStore.Claim(old(View()), who, id, token, now) && Valid()
    {
      hide Inv;
      ghost var before := View();
      ClaimKeepsInv(before, who, id, token, now);
      clock := now;
      assert View() == before.(clock := now);
      if id !in transfers || (id, who) !in deliveries { return Rejected(404); }
      var row, target := transfers[id], deliveries[(id, who)];
      if Dead(row, now) { return Rejected(410); }
      if !row.stage.Ready? || target.receipt.Acked? { return Rejected(409); }
      if IsHeld(target, now) { return Rejected(409); }
      var until := Min(now + LEASE, row.expiresAt);
      deliveries := deliveries[(id, who) := Delivery(Leased, Some(Lease(token, until)), false, target.ackedAt)];
      grants := grants[token := Grant(id, who, now, until)];
      return Granted(Lease(token, until));
    }

    method OpenDownload(who: Device, id: Id, token: Token, now: Time) returns (reply: Reply)
      requires Valid() && now >= clock
      modifies this
      ensures (View(), reply) == RelayStore.OpenDownload(old(View()), who, id, token, now) && Valid()
    {
      hide Inv;
      ghost var before := View();
      OpenDownloadKeepsInv(before, who, id, token, now);
      clock := now;
      assert View() == before.(clock := now);
      if id !in transfers || (id, who) !in deliveries { return Rejected(404); }
      var row, target := transfers[id], deliveries[(id, who)];
      if target.lease.None? || target.lease.value.token != token { return Rejected(409); }
      if Dead(row, now) { return Rejected(410); }
      if !row.stage.Ready? || !IsHeld(target, now) { return Rejected(409); }
      if id !in files { return Rejected(500); }
      var stream := Stream(id, who, token, files[id].content);
      streams := streams + {stream};
      return Opened(stream);
    }

    method FinishDownload(stream: Stream, now: Time)
      requires Valid() && now >= clock && stream in streams
      modifies this
      ensures View() == RelayStore.FinishDownload(old(View()), stream, now) && Valid()
      ensures var k := (stream.id, stream.device);
              k in old(deliveries) && old(deliveries)[k].receipt.Leased? && old(deliveries)[k].lease.Some?
              && old(deliveries)[k].lease.value.token == stream.token ==>
                k in deliveries && deliveries[k] == old(deliveries)[k].(downloaded := true)
    {
      hide Inv, OnlyDelivery, RelayStore.FinishDownload, MarkServed;
      ghost var before := View();
      CountedExactlyWhen(before, stream, now);
      TakesTheStep(before, stream, now);
      FinishDownloadKeepsInv(View(), stream, now);
      clock := now;
      NoteServed(stream);
    }

    /** The flag is set only while the row carries the lease this stream was opened under. */
    method NoteServed(stream: Stream)
      modifies this
      ensures View() == MarkServed(old(View()), stream)
    {
      served := served + {(stream.id, stream.device, stream.token)};
      var k := (stream.id, stream.device);
      if CarriesLease(deliveries, k, stream.token) {
        deliveries := deliveries[k := deliveries[k].(downloaded := true)];
      }
    }

    method CheckReceipt(k: (Id, Device), token: Token, sha: Digest) returns (refusal: Option<nat>)
      ensures refusal == ReceiptRefusal(View(), k, token, sha)
    {
      if k.0 !in transfers || k !in deliveries { return Some(404); }
      var row, target := transfers[k.0], deliveries[k];
      if target.lease.None? || target.lease.value.token != token { return Some(409); }
      if row.spec.sha != sha { return Some(422); }
      if target.receipt.Acked? { return None; }
      if Dead(row, clock) { return Some(410); }
      if !row.stage.Ready? || target.lease.value.until <= clock || !target.downloaded { return Some(409); }
      return None;
    }

    /** The receipt itself: the last one completes the transfer and frees its blob. */
    method Confirm(k: (Id, Device)) returns (stage: Stage)
      requires k in deliveries && deliveries[k].lease.Some? && k.0 in transfers
      modifies this
      ensures View() == Receipted(old(View()), k) && up == old(up)
      ensures stage == if AllAcked(deliveries, k.0, old(transfers)[k.0].spec.targets) then Delivered else Ready
      ensures deliveries == MarkAcked(old(View()), k).deliveries
    {
      hide AllAcked, EndGrant;
      var target := deliveries[k];
      deliveries := deliveries[k := target.(receipt := Acked, ackedAt := Some(clock))];
      grants := EndGrant(grants, target.lease.value.token, clock);
      confirmed := confirmed[k := target.lease.value.token];
      if AllAcked(deliveries, k.0, transfers[k.0].spec.targets) {
        transfers := transfers[k.0 := transfers[k.0].(stage := Delivered, completedAt := Some(clock))];
        files := files - {k.0};
        return Delivered;
      }
      return Ready;
    }

    method Acknowledge(who: Device, id: Id, token: Token, sha: Digest, now: Time) returns (reply: Reply)
      requires Valid() && now >= clock
      modifies this
      ensures (View(), reply) == RelayStore.Acknowledge(old(View()), who, id, token, sha, now) && Valid()
    {
      hide Inv, Receipted;
      AcknowledgeKeepsInv(View(), who, id, token, sha, now);
      clock := now;
      var k := (id, who);
      var refusal := CheckReceipt(k, token, sha);
      if refusal.Some? { return Rejected(refusal.value); }
      if deliveries[k].receipt.Acked? { return Confirmed(transfers[id].stage); }
      var stage := Confirm(k);
      return Confirmed(stage);
    }

    method Release(who: Device, id: Id, token: Token, now: Time) returns (reply: Reply)
      requires Valid() && now >= clock
      modifies this
      ensures (View(), reply) == RelayStore.Release(old(View()), who, id, token, now) && Valid()
    {
      hide Inv;
      ghost var before := View();
      ReleaseKeepsInv(before, who, id, token, now);
      clock := now;
      assert View() == before.(clock := now);
      var k := (id, who);
      if k !in deliveries { return Rejected(404); }
      var target := deliveries[k];
      if target.lease.None? || target.lease.value.token != token { return Rejected(409); }
      if target.receipt.Leased? {
        deliveries := deliveries[k := Delivery(Pending, None, false, target.ackedAt)];
        grants := EndGrant(grants, token, now);
      }
      return Done;
    }

    /** `upload` with nothing coming between its chunks: the body is read chunk by chunk and
        counted against the declared size. */
    method Upload(who: Device, id: Id, chunks: seq<Bytes>, now: Time) returns (reply: Reply)
      requires Valid() && now >= clock
      modifies this
      ensures (View(), reply) == RelayStore.Upload(old(View()), who, id, chunks, now) && Valid()
    {
      hide Inv, RelayStore.ReceiveChunk, RelayStore.FinishUpload;
      RowOf(View(), id);
      reply := BeginUpload(who, id, now);
      if reply != Done { return; }
      ghost var begun := View();
      var size, sha := transfers[id].spec.size, transfers[id].spec.sha;
      var i := 0;
      while i < |chunks|
        invariant 0 <= i <= |chunks| && Valid() && clock == now
        invariant id in uploads && id in specs && specs[id].1.size == size && specs[id].1.sha == sha
        invariant ReceiveChunks(View(), id, chunks[i..], now) == ReceiveChunks(begun, id, chunks, now)
      {
        assert chunks[i..][1..] == chunks[i + 1..];
        ChunkKeepsSession(View(), id, chunks[i], now);
        reply := ReceiveChunk(id, size, chunks[i], now);
        if reply != Done { return; }
        i := i + 1;
      }
      reply := FinishUpload(id, size, sha, now);
    }
  }

  /** The directory listing, file by file. */
  method FindOrphans(found: map<Id, File>, sweep: Sweep) returns (orphans: set<Id>)
    ensures orphans == OldOrphans(found, sweep)
  {
    orphans := {};
    var left := found.Keys;
    while left != {}
      invariant left <= found.Keys && orphans == OldOrphans(found, sweep) - left
    {
      var id :| id in left;
      left := left - {id};
      if id !in sweep.active && found[id].modified < sweep.at - ORPHAN_AGE { orphans := orphans + {id}; }
    }
  }

  lemma TakesTheStep(s: Store, stream: Stream, now: Time)
    requires stream in s.streams
    ensures RelayStore.FinishDownload(s, stream, now) == MarkServed(s.(clock := now), stream)
    ensures RelayStore.FinishDownload(s, stream, now).deliveries.Keys == s.deliveries.Keys
    ensures RelayStore.FinishDownload(s, stream, now).up == s.up
  {
  }

  lemma ChunkKeepsSession(s: Store, id: Id, chunk: Bytes, now: Time)
    ensures var (s', reply) := ReceiveChunk(s, id, chunk, now);
            s'.clock == now && s'.specs == s.specs && (reply == Done ==> id in s'.uploads)
  {
  }

  lemma RowOf(s: Store, id: Id)
    requires Inv(s)
    ensures id in s.transfers ==> id in s.specs && s.specs[id].1 == s.transfers[id].spec
  {
  }

  lemma ReserveKnown(s: Store, who: Device, spec: Spec, newId: Id, free: int, now: Time, id: Id)
    requires Inv(s) && id in s.transfers && s.transfers[id].source == who && s.transfers[id].spec.key == spec.key
    ensures RelayStore.Reserve(s, who, spec, newId, free, now) ==
            (s.(clock := now), KnownReply(id, s.transfers[id], spec))
  {
    PushIsIdempotent(s, who, spec, newId, free, now, id);
  }

  ghost function Admitted(s: Store, newId: Id, row: Transfer, free: int): (Store, Reply) {
    if HasRoom(s, row.spec.size) && free >= s.cfg.minimumFree + Total(LiveSizes(s.transfers)) + row.spec.size
    then (AddReservation(s, newId, row), Public(newId, Uploading))
    else (s, Rejected(507))
  }

  lemma ReserveUnknown(s: Store, who: Device, spec: Spec, newId: Id, free: int, now: Time)
    requires forall id :: id in s.transfers ==> s.transfers[id].source != who || s.transfers[id].spec.key != spec.key
    ensures RelayStore.Reserve(s, who, spec, newId, free, now)
            == Admitted(s.(clock := now), newId, NewTransfer(who, spec, now), free)
  {
    assert !KeyTaken(s.(clock := now), who, spec.key);
  }

  /** `SELECT * FROM transfers WHERE source=? AND request_key=?` */
  method FindKey(rows: map<Id, Transfer>, who: Device, key: string) returns (found: Option<Id>)
    ensures found.Some? ==> found.value in rows && rows[found.value].source == who && rows[found.value].spec.key == key
    ensures found.None? ==> forall id :: id in rows ==> rows[id].source != who || rows[id].spec.key != key
  {
    var rest := rows.Keys;
    while rest != {}
      invariant rest <= rows.Keys
      invariant forall id :: id in rows && id !in rest ==> rows[id].source != who || rows[id].spec.key != key
      decreases |rest|
    {
      var id :| id in rest;
      if rows[id].source == who && rows[id].spec.key == key { return Some(id); }
      rest := rest - {id};
    }
    return None;
  }

  function LiveOutside(rows: map<Id, Transfer>, rest: set<Id>): map<Id, nat> {
    map id | id in rows && id !in rest && IsLive(rows[id].stage) :: rows[id].spec.size
  }

  lemma LiveStep(rows: map<Id, Transfer>, rest: set<Id>, id: Id)
    requires id in rest && id in rows
    ensures LiveOutside(rows, rest - {id})
         == if IsLive(rows[id].stage) then LiveOutside(rows, rest)[id := rows[id].spec.size] else LiveOutside(rows, rest)
    ensures id !in LiveOutside(rows, rest)
    ensures LiveOutside(rows, rows.Keys) == map[] && LiveOutside(rows, {}) == LiveSizes(rows)
  {
  }

  /** `SELECT sum(size), count(*)` over the live transfers. */
  method LiveUsage(rows: map<Id, Transfer>) returns (used: nat, count: nat)
    ensures used == Total(LiveSizes(rows)) && count == |LiveSizes(rows)|
  {
    hide LiveSizes, Total, IsLive;
    used, count := 0, 0;
    var rest := rows.Keys;
    NothingLive(rows);
    while rest != {}
      invariant rest <= rows.Keys
      invariant used == Total(LiveOutside(rows, rest)) && count == |LiveOutside(rows, rest)|
      decreases |rest|
    {
      var id :| id in rest;
      LiveStep(rows, rest, id);
      if IsLive(rows[id].stage) {
        TotalAdd(LiveOutside(rows, rest), id, rows[id].spec.size);
        used, count := used + rows[id].spec.size, count + 1;
      }
      rest := rest - {id};
    }
  }

  lemma NothingLive(rows: map<Id, Transfer>)
    ensures Total(LiveOutside(rows, rows.Keys)) == 0 && |LiveOutside(rows, rows.Keys)| == 0
    ensures LiveOutside(rows, {}) == LiveSizes(rows)
  {
    assert LiveOutside(rows, rows.Keys) == map[];
  }

  /** The completed records beyond the `limit` newest, oldest first. */
  method BeyondLimit(rows: map<Id, Transfer>, limit: nat) returns (drop: set<Id>)
    ensures IsOverflow(rows, limit, drop)
  {
    hide Completed, AreOlder;
    drop := {};
    var kept := Completed(rows);
    NothingIsOlder(rows);
    while |kept| > limit
      invariant kept == Completed(rows) - drop && drop <= Completed(rows)
      invariant drop == {} || |kept| >= limit
      invariant AreOlder(rows, kept, drop)
      decreases |kept|
    {
      var oldest := Oldest(rows, kept);
      OldestGoes(rows, kept, drop, oldest);
      drop, kept := drop + {oldest}, kept - {oldest};
    }
    assert drop == {} ==> kept == Completed(rows);
    SubsetSize(kept, Completed(rows));
    DropIsOverflow(rows, limit, drop);
  }

  lemma NothingIsOlder(rows: map<Id, Transfer>)
    ensures AreOlder(rows, Completed(rows), {})
  {
  }

  lemma OldestGoes(rows: map<Id, Transfer>, kept: set<Id>, drop: set<Id>, oldest: Id)
    requires kept <= Completed(rows) && drop <= Completed(rows) && AreOlder(rows, kept, drop) && oldest in kept
    requires forall id :: id in kept ==> rows[id].completedAt.value >= rows[oldest].completedAt.value
    ensures AreOlder(rows, kept - {oldest}, drop + {oldest})
  {
  }

  lemma DropIsOverflow(rows: map<Id, Transfer>, limit: nat, drop: set<Id>)
    requires drop <= Completed(rows) && AreOlder(rows, Completed(rows) - drop, drop)
    requires |Completed(rows) - drop| == Min(|Completed(rows)|, limit)
    ensures IsOverflow(rows, limit, drop)
  {
  }

  predicate AreOlder(rows: map<Id, Transfer>, kept: set<Id>, drop: set<Id>)
    requires kept <= Completed(rows) && drop <= Completed(rows)
  {
    forall a, b :: a in kept && b in drop ==> rows[a].completedAt.value >= rows[b].completedAt.value
  }

  method Oldest(rows: map<Id, Transfer>, ids: set<Id>) returns (oldest: Id)
    requires ids != {} && ids <= Completed(rows)
    ensures oldest in ids
    ensures forall id :: id in ids ==> rows[id].completedAt.value >= rows[oldest].completedAt.value
  {
    oldest :| oldest in ids;
    var rest := ids - {oldest};
    while rest != {}
      invariant rest <= ids && oldest in ids
      invariant forall id :: id in ids && id !in rest ==> rows[id].completedAt.value >= rows[oldest].completedAt.value
      decreases |rest|
    {
      var id :| id in rest;
      if rows[id].completedAt.value < rows[oldest].completedAt.value { oldest := id; }
      rest := rest - {id};
    }
  }
}
