/** What every step of the temporary store keeps.
    The invariant is split into seven parts over the fields they need; the lemma of a step
    hides the parts and puts them together from one small lemma for each part it touches. */
module RelayStoreSafety {
  import opened Basics
  import opened RelayStore

  type Transfers = map<Id, Transfer>
  type Deliveries = map<(Id, Device), Delivery>
  type Specs = map<Id, (Device, Spec)>
  type Served = set<(Id, Device, Token)>
  type Grants = map<Token, Grant>
  type Confirmed = map<(Id, Device), Token>

  // ------------------------------------------------------------- the invariant

  /** Rows agree with their reservation. */
  ghost predicate RowsOk(rows: Transfers, specs: Specs, clock: Time) {
    forall id :: id in rows ==>
      && id in specs && specs[id] == (rows[id].source, rows[id].spec)
      && rows[id].createdAt <= clock
      && (rows[id].completedAt.Some? <==> !IsLive(rows[id].stage))
  }

  /** The UNIQUE(source, request_key) constraint. */
  ghost predicate KeysOk(rows: Transfers) {
    forall a, b :: a in rows && b in rows && a != b ==>
      rows[a].source != rows[b].source || rows[a].spec.key != rows[b].spec.key
  }

  /** Live transfers fit into the quota and the row limits. */
  ghost predicate QuotaOk(cfg: Config, rows: Transfers) {
    && Total(LiveSizes(rows)) <= cfg.quota
    && |LiveSizes(rows)| <= MAX_LIVE
    && |rows| <= MAX_ROWS
  }

  ghost predicate LedgerOk(cfg: Config, rows: Transfers, specs: Specs, clock: Time) {
    RowsOk(rows, specs, clock) && KeysOk(rows) && QuotaOk(cfg, rows)
  }

  /** The delivery rows are exactly the targets of the transfers, every transfer has one, and
      `delivered` means acked by every target. */
  ghost predicate TargetsOk(rows: Transfers, deliveries: Deliveries) {
    && (forall k :: k in deliveries ==> k.0 in rows && k.1 in rows[k.0].spec.targets)
    && (forall id, d :: id in rows && d in rows[id].spec.targets ==> (id, d) in deliveries)
    && (forall id :: id in rows ==> rows[id].spec.targets != {})
    && (forall id :: id in rows ==>
          (rows[id].stage.Delivered? <==> AllAcked(deliveries, id, rows[id].spec.targets)))
  }

  predicate Holds(files: map<Id, File>, id: Id, spec: Spec) {
    id in files && |files[id].content| == spec.size && Sha256(files[id].content) == spec.sha
  }

  /** Every ready transfer that has not outlived its lifetime has its exact blob. */
  ghost predicate BlobsOk(rows: Transfers, files: map<Id, File>, clock: Time) {
    forall id :: id in rows && rows[id].stage.Ready? && rows[id].expiresAt > clock ==> Holds(files, id, rows[id].spec)
  }

  /** Files belong to reservations and are not older than their row. */
  ghost predicate FilesOk(rows: Transfers, files: map<Id, File>, specs: Specs) {
    forall id :: id in files ==> id in specs && (id in rows ==> files[id].modified >= rows[id].createdAt)
  }

  /** A row is `writing` exactly while one upload of it is under way, and the part file has its bytes. */
  ghost predicate UploadsOk(up: bool, rows: Transfers, uploads: map<Id, Bytes>, parts: map<Id, File>, specs: Specs) {
    && (!up ==> uploads == map[])
    && (forall id :: id in uploads ==> id in specs && (id in rows ==> rows[id].stage.Writing? || rows[id].stage.Expired?))
    && (forall id :: id in rows && rows[id].stage.Writing? ==>
          && (up ==> id in uploads)
          && (id in uploads && id in parts ==> parts[id].content == uploads[id]))
  }

  /** The three statements about the disk. */
  ghost predicate DiskOk(up: bool, rows: Transfers, files: map<Id, File>, parts: map<Id, File>,
                         uploads: map<Id, Bytes>, specs: Specs, clock: Time)
  {
    && BlobsOk(rows, files, clock) && UploadsOk(up, rows, uploads, parts, specs)
    && FilesOk(rows, files, specs) && FilesOk(rows, parts, specs)
  }

  ghost predicate DeliveryOk(k: (Id, Device), d: Delivery, t: Transfer, grants: Grants, served: Served,
                             confirmed: Confirmed, clock: Time)
  {
    && (d.receipt.Pending? <==> d.lease.None?)
    && (d.receipt.Pending? ==> !d.downloaded)
    && (!d.receipt.Pending? ==> t.stage.Ready? || t.stage.Delivered? || t.stage.Expired?)
    && (d.downloaded ==> (k.0, k.1, d.lease.value.token) in served)
    && (d.receipt.Leased? ==>
          && d.lease.value.token in grants
          && grants[d.lease.value.token].id == k.0 && grants[d.lease.value.token].device == k.1
          && grants[d.lease.value.token].to == d.lease.value.until <= t.expiresAt
          && (t.stage.Expired? ==> t.expiresAt <= clock))
    && (d.receipt.Acked? ==> d.downloaded && k in confirmed && confirmed[k] == d.lease.value.token)
  }

  /** `downloaded` and `acked` speak of the very lease the row carries. */
  ghost predicate DeliveriesOk(rows: Transfers, deliveries: Deliveries, grants: Grants, served: Served,
                               confirmed: Confirmed, clock: Time)
  {
    forall k :: k in deliveries ==> k.0 in rows && DeliveryOk(k, deliveries[k], rows[k.0], grants, served, confirmed, clock)
  }

  /** The lease `token` is the one its delivery row carries now. */
  ghost predicate IsCurrent(deliveries: Deliveries, token: Token, g: Grant) {
    var k := (g.id, g.device);
    k in deliveries && deliveries[k].receipt.Leased? && deliveries[k].lease == Some(Lease(token, g.to))
  }

  predicate Disjoint(a: Grant, b: Grant) {
    a.id == b.id && a.device == b.device ==> a.to <= b.from || b.to <= a.from
  }

  /** A lease is over unless its row still carries it; two leases of one delivery never overlap. */
  ghost predicate GrantsOk(grants: Grants, deliveries: Deliveries, clock: Time) {
    && (forall token :: token in grants ==>
          && grants[token].from <= clock && grants[token].from <= grants[token].to
          && (IsCurrent(deliveries, token, grants[token]) || grants[token].to <= clock))
    && (forall a, b :: a in grants && b in grants && a != b ==> Disjoint(grants[a], grants[b]))
  }

  /** Receipts name a lease whose download was completed; bodies being streamed are the reserved content. */
  ghost predicate HistoryOk(up: bool, specs: Specs, served: Served, confirmed: Confirmed, streams: set<Stream>) {
    && (forall k :: k in confirmed ==> (k.0, k.1, confirmed[k]) in served)
    && (forall e :: e in served ==> e.0 in specs)
    && (!up ==> streams == {})
    && (forall st :: st in streams ==>
          && st.id in specs
          && |st.content| == specs[st.id].1.size && Sha256(st.content) == specs[st.id].1.sha)
  }

  /** A row missing from a sweep's list is not older than the sweep. */
  ghost predicate SweepsOk(up: bool, rows: Transfers, sweeps: set<Sweep>, clock: Time) {
    && (!up ==> sweeps == {})
    && (forall w :: w in sweeps ==> w.at <= clock)
    && (forall w, id :: w in sweeps && id in rows && id !in w.active ==> rows[id].createdAt >= w.at)
  }

  ghost predicate Inv(s: Store) {
    && LedgerOk(s.cfg, s.transfers, s.specs, s.clock)
    && TargetsOk(s.transfers, s.deliveries)
    && DiskOk(s.up, s.transfers, s.files, s.parts, s.uploads, s.specs, s.clock)
    && DeliveriesOk(s.transfers, s.deliveries, s.grants, s.served, s.confirmed, s.clock)
    && GrantsOk(s.grants, s.deliveries, s.clock)
    && HistoryOk(s.up, s.specs, s.served, s.confirmed, s.streams)
    && SweepsOk(s.up, s.transfers, s.sweeps, s.clock)
  }

  lemma LiveSizesShrink(before: Transfers, after: Transfers)
    requires forall id :: id in after && IsLive(after[id].stage) ==>
      id in before && IsLive(before[id].stage) && after[id].spec == before[id].spec
    ensures Total(LiveSizes(after)) <= Total(LiveSizes(before))
    ensures |LiveSizes(after)| <= |LiveSizes(before)|
  {
    TotalMono(LiveSizes(after), LiveSizes(before));
    SubsetSize(LiveSizes(after).Keys, LiveSizes(before).Keys);
  }

  lemma ClockKeepsInv(s: Store, now: Time)
    requires Inv(s) && now >= s.clock
    ensures Inv(s.(clock := now))
  {
  }

  // ------------------------------------------------------------------ janitor

  /** The rows after a cleanup: some are gone, some have expired, the rest are as before. */
  ghost predicate Swept(rows: Transfers, after: Transfers, now: Time) {
    forall id :: id in after ==>
      && id in rows
      && after[id] == if Due(rows[id], now) then rows[id].(stage := Expired, completedAt := Some(now)) else rows[id]
  }

  /** Only completed records are deleted. */
  lemma DroppedRows(s: Store, now: Time, overflow: set<Id>)
    requires LedgerOk(s.cfg, s.transfers, s.specs, s.clock) && overflow <= Completed(Retained(s, now))
    ensures Swept(s.transfers, Retained(s, now) - overflow, now)
    ensures forall id :: id in s.transfers && id !in Retained(s, now) - overflow ==>
      !IsLive(s.transfers[id].stage) || Due(s.transfers[id], now)
  {
  }

  lemma SweptLedger(s: Store, after: Transfers, now: Time)
    requires LedgerOk(s.cfg, s.transfers, s.specs, s.clock) && Swept(s.transfers, after, now) && now >= s.clock
    ensures LedgerOk(s.cfg, after, s.specs, now)
  {
    hide QuotaOk;
    SweptQuota(s.cfg, s.transfers, after, now);
  }

  lemma SweptQuota(cfg: Config, rows: Transfers, after: Transfers, now: Time)
    requires QuotaOk(cfg, rows) && Swept(rows, after, now)
    ensures QuotaOk(cfg, after)
  {
    LiveSizesShrink(rows, after);
    SubsetSize(after.Keys, rows.Keys);
  }

  lemma SweptTargets(rows: Transfers, deliveries: Deliveries, after: Transfers, now: Time)
    requires TargetsOk(rows, deliveries) && Swept(rows, after, now)
    ensures TargetsOk(after, DropRows(deliveries, after.Keys))
  {
    forall id | id in after
      ensures AllAcked(DropRows(deliveries, after.Keys), id, after[id].spec.targets)
              <==> AllAcked(deliveries, id, rows[id].spec.targets)
    {
    }
  }

  lemma SweptDeliveries(s: Store, after: Transfers, now: Time)
    requires DeliveriesOk(s.transfers, s.deliveries, s.grants, s.served, s.confirmed, s.clock)
    requires Swept(s.transfers, after, now) && now >= s.clock
    ensures DeliveriesOk(after, DropRows(s.deliveries, after.Keys), s.grants, s.served, s.confirmed, now)
  {
    forall k | k in s.deliveries && k.0 in after
      ensures DeliveryOk(k, s.deliveries[k], after[k.0], s.grants, s.served, s.confirmed, now)
    {
      assert DeliveryOk(k, s.deliveries[k], s.transfers[k.0], s.grants, s.served, s.confirmed, s.clock);
    }
  }

  /** A lease whose row is dropped had run out with its transfer. */
  lemma SweptGrants(s: Store, after: Transfers, kept: Deliveries, now: Time)
    requires DeliveriesOk(s.transfers, s.deliveries, s.grants, s.served, s.confirmed, s.clock)
    requires GrantsOk(s.grants, s.deliveries, s.clock) && TargetsOk(s.transfers, s.deliveries)
    requires now >= s.clock && kept == DropRows(s.deliveries, after.Keys)
    requires forall id :: id in s.transfers && id !in after ==> !IsLive(s.transfers[id].stage) || Due(s.transfers[id], now)
    ensures GrantsOk(s.grants, kept, now)
  {
    forall token | token in s.grants && !IsCurrent(kept, token, s.grants[token])
      ensures s.grants[token].to <= now
    {
      var g := s.grants[token];
      if IsCurrent(s.deliveries, token, g) {
        assert !s.transfers[g.id].stage.Delivered?;
        assert g.id !in after;
      }
    }
  }

  lemma SweptDisk(s: Store, after: Transfers, now: Time)
    requires DiskOk(s.up, s.transfers, s.files, s.parts, s.uploads, s.specs, s.clock)
    requires Swept(s.transfers, after, now) && now >= s.clock
    ensures var gone := TerminalIds(Expire(s.transfers, now));
            DiskOk(s.up, after, s.files - gone, s.parts - gone, s.uploads, s.specs, now)
  {
  }

  lemma SweptSweeps(s: Store, after: Transfers, now: Time)
    requires SweepsOk(s.up, s.transfers, s.sweeps, s.clock) && s.up && now >= s.clock
    requires Swept(s.transfers, after, now)
    ensures SweepsOk(s.up, after, s.sweeps + {Sweep(after.Keys, now)}, now)
  {
  }

  lemma CleanupKeepsInv(s: Store, now: Time, overflow: set<Id>)
    requires Inv(s) && s.up && now >= s.clock && IsOverflow(Retained(s, now), s.cfg.recordLimit, overflow)
    ensures Inv(Cleanup(s, now, overflow))
  {
    hide LedgerOk, TargetsOk, DiskOk, DeliveriesOk, GrantsOk, SweepsOk;
    var s' := Cleanup(s, now, overflow);
    DroppedRows(s, now, overflow);
    SweptLedger(s, s'.transfers, now);
    SweptTargets(s.transfers, s.deliveries, s'.transfers, now);
    SweptDeliveries(s, s'.transfers, now);
    SweptGrants(s, s'.transfers, s'.deliveries, now);
    SweptDisk(s, s'.transfers, now);
    SweptSweeps(s, s'.transfers, now);
  }

  lemma UnlinkedDisk(s: Store, now: Time, gone: set<Id>)
    requires now >= s.clock && gone <= TerminalIds(Expire(s.transfers, now))
    requires DiskOk(s.up, s.transfers, s.files, s.parts, s.uploads, s.specs, s.clock)
    ensures DiskOk(s.up, s.transfers, s.files - gone, s.parts - gone, s.uploads, s.specs, now)
  {
  }

  lemma InterruptedCleanupKeepsInv(s: Store, now: Time, unlinked: set<Id>)
    requires Inv(s) && s.up && now >= s.clock
    ensures Inv(CleanupInterrupted(s, now, unlinked))
  {
    ClockKeepsInv(s, now);
    UnlinkedDisk(s, now, TerminalIds(Expire(s.transfers, now)) * unlinked);
    hide LedgerOk, TargetsOk, DiskOk, DeliveriesOk, GrantsOk, SweepsOk;
  }

  /** A file the janitor takes for an orphan belongs to no row: rows made since are younger than the sweep. */
  lemma OrphansHaveNoRow(s: Store, files: map<Id, File>, sweep: Sweep, id: Id)
    requires FilesOk(s.transfers, files, s.specs) && SweepsOk(s.up, s.transfers, s.sweeps, s.clock)
    requires sweep in s.sweeps && id in OldOrphans(files, sweep)
    ensures id !in s.transfers
  {
  }

  lemma SweepDisk(s: Store, sweep: Sweep)
    requires DiskOk(s.up, s.transfers, s.files, s.parts, s.uploads, s.specs, s.clock)
    requires SweepsOk(s.up, s.transfers, s.sweeps, s.clock) && sweep in s.sweeps
    ensures DiskOk(s.up, s.transfers, s.files - OldOrphans(s.files, sweep), s.parts - OldOrphans(s.parts, sweep),
                   s.uploads, s.specs, s.clock)
  {
    forall id | id in OldOrphans(s.files, sweep) ensures id !in s.transfers {
      OrphansHaveNoRow(s, s.files, sweep, id);
    }
  }

  lemma SweepKeepsInv(s: Store, sweep: Sweep)
    requires Inv(s)
    ensures Inv(SweepOrphans(s, sweep))
  {
    hide LedgerOk, TargetsOk, DiskOk, DeliveriesOk, GrantsOk;
    if sweep in s.sweeps {
      SweepDisk(s, sweep);
    }
  }

  // --------------------------------------------------------- crash and restart

  lemma CrashKeepsInv(s: Store)
    requires Inv(s)
    ensures Inv(Crash(s))
  {
  }

  /** Changes of stage among the three live ones, of transfers not yet ready. */
  ghost predicate Restaged(rows: Transfers, after: Transfers) {
    && after.Keys == rows.Keys
    && forall id :: id in rows ==>
         || after[id] == rows[id]
         || ((rows[id].stage.Uploading? || rows[id].stage.Writing?)
             && IsLive(after[id].stage) && after[id] == rows[id].(stage := after[id].stage))
  }

  lemma RestagedOne(rows: Transfers, id: Id, stage: Stage)
    requires id in rows && IsLive(stage) && (rows[id].stage.Uploading? || rows[id].stage.Writing?)
    ensures Restaged(rows, rows[id := rows[id].(stage := stage)])
  {
  }

  lemma RestagedLedger(s: Store, after: Transfers)
    requires LedgerOk(s.cfg, s.transfers, s.specs, s.clock) && Restaged(s.transfers, after)
    ensures LedgerOk(s.cfg, after, s.specs, s.clock)
  {
    LiveSizesShrink(s.transfers, after);
    assert |after| == |after.Keys| == |s.transfers.Keys| == |s.transfers|;
  }

  lemma RestagedTargets(rows: Transfers, deliveries: Deliveries, after: Transfers)
    requires TargetsOk(rows, deliveries) && Restaged(rows, after)
    ensures TargetsOk(after, deliveries)
  {
    assert forall id :: id in after ==> after[id].spec == rows[id].spec;
  }

  lemma RestagedDeliveries(s: Store, after: Transfers)
    requires DeliveriesOk(s.transfers, s.deliveries, s.grants, s.served, s.confirmed, s.clock)
    requires Restaged(s.transfers, after)
    ensures DeliveriesOk(after, s.deliveries, s.grants, s.served, s.confirmed, s.clock)
  {
  }

  lemma RestagedKeeps(s: Store, after: Transfers)
    requires Inv(s) && Restaged(s.transfers, after)
    ensures LedgerOk(s.cfg, after, s.specs, s.clock) && TargetsOk(after, s.deliveries)
    ensures DeliveriesOk(after, s.deliveries, s.grants, s.served, s.confirmed, s.clock)
    ensures SweepsOk(s.up, after, s.sweeps, s.clock)
  {
    hide LedgerOk, TargetsOk, DiskOk, DeliveriesOk, GrantsOk;
    RestagedLedger(s, after);
    RestagedTargets(s.transfers, s.deliveries, after);
    RestagedDeliveries(s, after);
  }

  lemma RecoveredDisk(s: Store)
    requires DiskOk(s.up, s.transfers, s.files, s.parts, s.uploads, s.specs, s.clock) && !s.up
    ensures var s' := Recover(s);
            DiskOk(s'.up, s'.transfers, s'.files, s'.parts, s'.uploads, s'.specs, s'.clock)
  {
  }

  lemma RecoverKeepsInv(s: Store)
    requires Inv(s) && !s.up
    ensures Inv(Recover(s))
  {
    hide LedgerOk, TargetsOk, DiskOk, DeliveriesOk, GrantsOk;
    RestagedKeeps(s, Recover(s).transfers);
    RecoveredDisk(s);
  }

  // ------------------------------------------------------------------- sending

  /** A reservation that passes the admission test keeps the sum of live sizes within the quota. */
  lemma ReservedQuota(cfg: Config, rows: Transfers, id: Id, row: Transfer)
    requires QuotaOk(cfg, rows) && id !in rows && row.stage.Uploading?
    requires Total(LiveSizes(rows)) + row.spec.size <= cfg.quota
    requires |LiveSizes(rows)| < MAX_LIVE && |rows| < MAX_ROWS
    ensures QuotaOk(cfg, rows[id := row])
  {
    assert LiveSizes(rows[id := row]) == LiveSizes(rows)[id := row.spec.size];
    TotalAdd(LiveSizes(rows), id, row.spec.size);
  }

  lemma ReservedLedger(s: Store, id: Id, row: Transfer)
    requires LedgerOk(s.cfg, s.transfers, s.specs, s.clock) && id !in s.specs
    requires row == NewTransfer(row.source, row.spec, s.clock)
    requires !KeyTaken(s, row.source, row.spec.key) && HasRoom(s, row.spec.size)
    ensures LedgerOk(s.cfg, s.transfers[id := row], s.specs[id := (row.source, row.spec)], s.clock)
  {
    hide QuotaOk, KeyTaken, LiveSizes;
    KeyIsNew(s, row);
    ReservedQuota(s.cfg, s.transfers, id, row);
  }

  lemma KeyIsNew(s: Store, row: Transfer)
    requires !KeyTaken(s, row.source, row.spec.key)
    ensures forall other :: other in s.transfers ==>
      s.transfers[other].source != row.source || s.transfers[other].spec.key != row.spec.key
  {
    forall other | other in s.transfers ensures s.transfers[other].source != row.source || s.transfers[other].spec.key != row.spec.key {
      assert !SameKey(s, row.source, row.spec.key, other);
    }
  }

  lemma ReservedTargets(s: Store, id: Id, row: Transfer)
    requires TargetsOk(s.transfers, s.deliveries)
    requires id !in s.transfers && row.spec.targets != {} && row.stage.Uploading?
    ensures TargetsOk(s.transfers[id := row], s.deliveries + NewDeliveries(id, row.spec.targets))
  {
    hide AllAcked;
    OthersStayAcked(s, id, row.spec.targets);
    NewIsUnacked(s, id, row.spec.targets);
  }

  lemma OthersStayAcked(s: Store, id: Id, targets: set<Device>)
    ensures forall other, others :: other != id ==>
      (AllAcked(s.deliveries + NewDeliveries(id, targets), other, others) <==> AllAcked(s.deliveries, other, others))
  {
  }

  lemma NewIsUnacked(s: Store, id: Id, targets: set<Device>)
    requires targets != {}
    ensures !AllAcked(s.deliveries + NewDeliveries(id, targets), id, targets)
  {
    var d :| d in targets;
    assert NewDeliveries(id, targets)[(id, d)].receipt.Pending?;
  }

  lemma ReservedDeliveries(s: Store, id: Id, row: Transfer)
    requires DeliveriesOk(s.transfers, s.deliveries, s.grants, s.served, s.confirmed, s.clock)
    requires GrantsOk(s.grants, s.deliveries, s.clock) && id !in s.transfers
    ensures DeliveriesOk(s.transfers[id := row], s.deliveries + NewDeliveries(id, row.spec.targets),
                         s.grants, s.served, s.confirmed, s.clock)
    ensures GrantsOk(s.grants, s.deliveries + NewDeliveries(id, row.spec.targets), s.clock)
  {
    var after := s.deliveries + NewDeliveries(id, row.spec.targets);
    assert forall k :: k in s.deliveries ==> k.0 in s.transfers && after[k] == s.deliveries[k];
  }

  lemma ReservedRest(s: Store, id: Id, row: Transfer)
    requires DiskOk(s.up, s.transfers, s.files, s.parts, s.uploads, s.specs, s.clock) && id !in s.specs
    requires SweepsOk(s.up, s.transfers, s.sweeps, s.clock) && row.stage.Uploading? && row.createdAt == s.clock
    requires HistoryOk(s.up, s.specs, s.served, s.confirmed, s.streams)
    ensures var specs := s.specs[id := (row.source, row.spec)];
            && DiskOk(s.up, s.transfers[id := row], s.files, s.parts, s.uploads, specs, s.clock)
            && SweepsOk(s.up, s.transfers[id := row], s.sweeps, s.clock)
            && HistoryOk(s.up, specs, s.served, s.confirmed, s.streams)
  {
  }

  lemma ReservedKeepsInv(s: Store, id: Id, row: Transfer)
    requires Inv(s) && id !in s.specs && row.spec.targets != {}
    requires row == NewTransfer(row.source, row.spec, s.clock)
    requires !KeyTaken(s, row.source, row.spec.key) && HasRoom(s, row.spec.size)
    ensures Inv(AddReservation(s, id, row))
  {
    assert id !in s.transfers by { assert RowsOk(s.transfers, s.specs, s.clock); }
    hide LedgerOk, TargetsOk, DiskOk, DeliveriesOk, GrantsOk, HistoryOk, SweepsOk;
    ReservedLedger(s, id, row);
    ReservedTargets(s, id, row);
    ReservedDeliveries(s, id, row);
    ReservedRest(s, id, row);
  }

  lemma ReserveKeepsInv(s: Store, who: Device, spec: Spec, newId: Id, free: int, now: Time)
    requires Inv(s) && s.up && now >= s.clock && newId !in s.specs && spec.targets != {}
    ensures Inv(Reserve(s, who, spec, newId, free, now).0)
  {
    hide Inv;
    ClockKeepsInv(s, now);
    var s0 := s.(clock := now);
    hide HasRoom, KeyTaken, AddReservation;
    if !KeyTaken(s0, who, spec.key) && HasRoom(s0, spec.size) {
      ReservedKeepsInv(s0, newId, NewTransfer(who, spec, now));
    }
  }

  lemma BegunDisk(s: Store, id: Id)
    requires DiskOk(s.up, s.transfers, s.files, s.parts, s.uploads, s.specs, s.clock)
    requires RowsOk(s.transfers, s.specs, s.clock)
    requires id in s.transfers && s.transfers[id].stage.Uploading? && s.up
    ensures var s' := OpenPart(s, id);
            DiskOk(s'.up, s'.transfers, s'.files, s'.parts, s'.uploads, s'.specs, s'.clock)
  {
    BegunUploads(s, id);
    hide UploadsOk;
  }

  lemma BegunUploads(s: Store, id: Id)
    requires UploadsOk(s.up, s.transfers, s.uploads, s.parts, s.specs) && RowsOk(s.transfers, s.specs, s.clock)
    requires id in s.transfers && s.transfers[id].stage.Uploading? && s.up
    ensures var s' := OpenPart(s, id); UploadsOk(s'.up, s'.transfers, s'.uploads, s'.parts, s'.specs)
  {
  }

  lemma BegunKeepsInv(s: Store, id: Id)
    requires Inv(s) && s.up && id in s.transfers && s.transfers[id].stage.Uploading?
    ensures Inv(OpenPart(s, id))
  {
    AboutRows(s);
    RestagedOne(s.transfers, id, Writing);
    hide Restaged, LedgerOk, RowsOk, TargetsOk, DiskOk, DeliveriesOk, GrantsOk, SweepsOk;
    RestagedKeeps(s, OpenPart(s, id).transfers);
    BegunDisk(s, id);
  }

  lemma BeginUploadKeepsInv(s: Store, who: Device, id: Id, now: Time)
    requires Inv(s) && s.up && now >= s.clock
    ensures Inv(BeginUpload(s, who, id, now).0)
  {
    hide Inv;
    ClockKeepsInv(s, now);
    var s0 := s.(clock := now);
    if BeginUpload(s, who, id, now).1 == Done {
      BegunKeepsInv(s0, id);
    }
  }

  lemma AbortedDisk(s: Store, id: Id)
    requires DiskOk(s.up, s.transfers, s.files, s.parts, s.uploads, s.specs, s.clock)
    ensures var s' := AbortUpload(s, id);
            DiskOk(s'.up, s'.transfers, s'.files, s'.parts, s'.uploads, s'.specs, s'.clock)
  {
  }

  lemma AbortUploadKeepsInv(s: Store, id: Id)
    requires Inv(s)
    ensures Inv(AbortUpload(s, id))
  {
    hide LedgerOk, TargetsOk, DiskOk, DeliveriesOk, GrantsOk, SweepsOk;
    RestagedKeeps(s, AbortUpload(s, id).transfers);
    AbortedDisk(s, id);
  }

  lemma AppendedKeepsInv(s: Store, id: Id, body: Bytes)
    requires Inv(s) && id in s.uploads
    ensures Inv(AppendPart(s, id, body))
  {
    hide LedgerOk, TargetsOk, DeliveriesOk, GrantsOk, SweepsOk;
    assert RowsOk(s.transfers, s.specs, s.clock) by { AboutRows(s); }
    var s' := AppendPart(s, id, body);
    assert UploadsOk(s'.up, s'.transfers, s'.uploads, s'.parts, s'.specs);
    assert FilesOk(s'.transfers, s'.parts, s'.specs);
  }

  lemma AboutRows(s: Store)
    requires Inv(s)
    ensures RowsOk(s.transfers, s.specs, s.clock)
  {
  }

  lemma ChunkKeepsInv(s: Store, id: Id, chunk: Bytes, now: Time)
    requires Inv(s) && s.up && now >= s.clock
    ensures Inv(ReceiveChunk(s, id, chunk, now).0)
  {
    hide Inv;
    ClockKeepsInv(s, now);
    var s0 := s.(clock := now);
    if id in s.uploads && id in s.specs {
      AppendedKeepsInv(s0, id, s.uploads[id] + chunk);
      AbortUploadKeepsInv(s0, id);
    }
  }

  lemma RenamedKeepsInv(s: Store, id: Id)
    requires Inv(s) && id in s.parts && id in s.transfers && s.transfers[id].stage.Writing?
    ensures Inv(RenamePart(s, id))
  {
    hide LedgerOk, TargetsOk, DeliveriesOk, GrantsOk, SweepsOk;
  }

  /** The bytes checked against the reservation are the ones renamed into place. */
  lemma FinishedDisk(s: Store, id: Id)
    requires DiskOk(s.up, s.transfers, s.files, s.parts, s.uploads, s.specs, s.clock)
    requires RowsOk(s.transfers, s.specs, s.clock)
    requires id in s.uploads && id in s.specs && FinishRefusal(s, id).None?
    ensures var s' := CommitUpload(s, id);
            DiskOk(s'.up, s'.transfers, s'.files, s'.parts, s'.uploads, s'.specs, s'.clock)
  {
    hide UploadsOk;
    FinishedUploads(s, id);
  }

  lemma FinishedUploads(s: Store, id: Id)
    requires UploadsOk(s.up, s.transfers, s.uploads, s.parts, s.specs)
    requires id in s.uploads && id in s.specs && FinishRefusal(s, id).None?
    ensures var s' := CommitUpload(s, id); UploadsOk(s'.up, s'.transfers, s'.uploads, s'.parts, s'.specs)
    ensures id in s.parts && s.parts[id].content == s.uploads[id]
  {
  }

  lemma FinishedKeepsInv(s: Store, id: Id)
    requires Inv(s) && id in s.uploads && id in s.specs && FinishRefusal(s, id).None?
    ensures Inv(CommitUpload(s, id))
  {
    AboutRows(s);
    RestagedOne(s.transfers, id, Ready);
    hide Restaged, RowsOk, LedgerOk, TargetsOk, DiskOk, DeliveriesOk, GrantsOk, SweepsOk;
    RestagedKeeps(s, CommitUpload(s, id).transfers);
    FinishedDisk(s, id);
  }

  lemma FinishUploadKeepsInv(s: Store, id: Id, now: Time)
    requires Inv(s) && s.up && now >= s.clock
    ensures Inv(FinishUpload(s, id, now).0)
  {
    hide Inv;
    ClockKeepsInv(s, now);
    var s0 := s.(clock := now);
    if id in s.uploads && id in s.specs {
      if FinishRefusal(s0, id).Some? { AbortUploadKeepsInv(s0, id); } else { FinishedKeepsInv(s0, id); }
    }
  }

  lemma FinishInterruptedKeepsInv(s: Store, id: Id, now: Time, dies: bool)
    requires Inv(s) && s.up && now >= s.clock
    ensures Inv(FinishInterrupted(s, id, now, dies))
  {
    hide Inv;
    ClockKeepsInv(s, now);
    var s0 := s.(clock := now);
    if id in s.uploads && id in s.specs && FinishRefusal(s0, id).None? {
      RenamedKeepsInv(s0, id);
      var r := RenamePart(s0, id);
      CrashKeepsInv(r);
      AbortUploadKeepsInv(r, id);
    }
  }
}
