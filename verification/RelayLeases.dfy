/** The receiving half of the temporary store: leases, downloads and receipts keep the invariant. */
module RelayLeases {
  import opened Basics
  import opened RelayStore
  import opened RelayStoreSafety

  // -------------------------------------------------------------------- claim

  lemma GrantedDeliveries(s: Store, k: (Id, Device), lease: Lease)
    requires DeliveriesOk(s.transfers, s.deliveries, s.grants, s.served, s.confirmed, s.clock)
    requires k in s.deliveries && lease.token !in s.grants
    requires k.0 in s.transfers && s.transfers[k.0].stage.Ready? && lease.until <= s.transfers[k.0].expiresAt
    ensures var s' := GrantLease(s, k, lease);
            DeliveriesOk(s'.transfers, s'.deliveries, s'.grants, s'.served, s'.confirmed, s'.clock)
  {
    var s' := GrantLease(s, k, lease);
    forall j | j in s.deliveries && j != k
      ensures DeliveryOk(j, s'.deliveries[j], s.transfers[j.0], s'.grants, s.served, s.confirmed, s.clock)
    {
      assert DeliveryOk(j, s.deliveries[j], s.transfers[j.0], s.grants, s.served, s.confirmed, s.clock);
    }
  }

  /** Every earlier lease of this delivery is over, so the new one overlaps none of them. */
  lemma GrantedGrants(s: Store, k: (Id, Device), lease: Lease)
    requires GrantsOk(s.grants, s.deliveries, s.clock)
    requires k in s.deliveries && lease.token !in s.grants && s.clock <= lease.until
    requires s.deliveries[k].receipt.Leased? && s.deliveries[k].lease.Some? ==> s.deliveries[k].lease.value.until <= s.clock
    ensures var s' := GrantLease(s, k, lease); GrantsOk(s'.grants, s'.deliveries, s'.clock)
  {
    var s' := GrantLease(s, k, lease);
    forall token | token in s.grants && s.grants[token].id == k.0 && s.grants[token].device == k.1
      ensures s.grants[token].to <= s.clock
    {
      assert IsCurrent(s.deliveries, token, s.grants[token]) ==> s.deliveries[k].lease == Some(Lease(token, s.grants[token].to));
    }
  }

  lemma TouchedTargets(rows: Transfers, deliveries: Deliveries, k: (Id, Device), d: Delivery)
    requires TargetsOk(rows, deliveries) && k in deliveries && !rows[k.0].stage.Delivered? && !d.receipt.Acked?
    ensures TargetsOk(rows, deliveries[k := d])
  {
    var after := deliveries[k := d];
    forall id | id in rows
      ensures AllAcked(after, id, rows[id].spec.targets) <==> AllAcked(deliveries, id, rows[id].spec.targets)
    {
      if id == k.0 { assert !after[(id, k.1)].receipt.Acked?; }
    }
  }

  lemma GrantedKeepsInv(s: Store, k: (Id, Device), token: Token)
    requires Inv(s) && token !in s.grants && ClaimRefusal(s, k).None?
    ensures Inv(GrantLease(s, k, Lease(token, Min(s.clock + LEASE, s.transfers[k.0].expiresAt))))
  {
    hide LedgerOk, TargetsOk, DiskOk, DeliveriesOk, GrantsOk, SweepsOk;
    var lease := Lease(token, Min(s.clock + LEASE, s.transfers[k.0].expiresAt));
    GrantedDeliveries(s, k, lease);
    GrantedGrants(s, k, lease);
    TouchedTargets(s.transfers, s.deliveries, k, Delivery(Leased, Some(lease), false, s.deliveries[k].ackedAt));
  }

  lemma ClaimKeepsInv(s: Store, who: Device, id: Id, token: Token, now: Time)
    requires Inv(s) && s.up && now >= s.clock && token !in s.grants
    ensures Inv(Claim(s, who, id, token, now).0)
  {
    hide Inv;
    ClockKeepsInv(s, now);
    hide GrantLease;
    var s0, k := s.(clock := now), (id, who);
    if ClaimRefusal(s0, k).None? {
      GrantedKeepsInv(s0, k, token);
    }
  }

  // ---------------------------------------------------------------- downloads

  /** The blob a lease entitles to is never missing: `open` cannot fail. */
  lemma BlobIsThere(s: Store, k: (Id, Device), token: Token)
    requires BlobsOk(s.transfers, s.files, s.clock) && RowsOk(s.transfers, s.specs, s.clock)
    ensures OpenRefusal(s, k, token) != Some(500)
    ensures OpenRefusal(s, k, token).None? ==> k.0 in s.specs && Holds(s.files, k.0, s.specs[k.0].1)
  {
  }

  lemma OpenDownloadKeepsInv(s: Store, who: Device, id: Id, token: Token, now: Time)
    requires Inv(s) && s.up && now >= s.clock
    ensures Inv(OpenDownload(s, who, id, token, now).0)
  {
    hide Inv;
    ClockKeepsInv(s, now);
    var s0, k := s.(clock := now), (id, who);
    if OpenRefusal(s0, k, token).None? {
      OpenedKeepsInv(s0, Stream(id, who, token, s.files[id].content), token);
    }
  }

  lemma OpenedKeepsInv(s: Store, stream: Stream, token: Token)
    requires Inv(s) && s.up && OpenRefusal(s, (stream.id, stream.device), token).None?
    requires stream.content == s.files[stream.id].content
    ensures Inv(s.(streams := s.streams + {stream}))
  {
    hide LedgerOk, TargetsOk, DiskOk, DeliveriesOk, GrantsOk, SweepsOk, OpenRefusal;
    OpenedIsReserved(s, stream, token);
  }

  lemma OpenedIsReserved(s: Store, stream: Stream, token: Token)
    requires Inv(s) && OpenRefusal(s, (stream.id, stream.device), token).None?
    requires stream.content == s.files[stream.id].content
    ensures stream.id in s.specs && |stream.content| == s.specs[stream.id].1.size
    ensures Sha256(stream.content) == s.specs[stream.id].1.sha
  {
    hide TargetsOk, DeliveriesOk, GrantsOk, SweepsOk;
    BlobIsThere(s, (stream.id, stream.device), token);
  }

  lemma ServedKeepsInv(s: Store, e: (Id, Device, Token))
    requires Inv(s) && e.0 in s.specs
    ensures Inv(s.(served := s.served + {e}))
  {
    hide LedgerOk, TargetsOk, DiskOk, GrantsOk, SweepsOk;
    var served := s.served + {e};
    forall j | j in s.deliveries
      ensures DeliveryOk(j, s.deliveries[j], s.transfers[j.0], s.grants, served, s.confirmed, s.clock)
    {
      assert DeliveryOk(j, s.deliveries[j], s.transfers[j.0], s.grants, s.served, s.confirmed, s.clock);
    }
  }

  lemma DownloadedDeliveries(s: Store, k: (Id, Device), token: Token)
    requires DeliveriesOk(s.transfers, s.deliveries, s.grants, s.served, s.confirmed, s.clock)
    requires CarriesLease(s.deliveries, k, token) && (k.0, k.1, token) in s.served
    ensures DeliveriesOk(s.transfers, SetDownloaded(s, k).deliveries, s.grants, s.served, s.confirmed, s.clock)
  {
  }

  lemma DownloadedGrants(s: Store, k: (Id, Device), token: Token)
    requires GrantsOk(s.grants, s.deliveries, s.clock) && CarriesLease(s.deliveries, k, token)
    ensures GrantsOk(s.grants, SetDownloaded(s, k).deliveries, s.clock)
  {
    var after := SetDownloaded(s, k).deliveries;
    assert forall t :: t in s.grants ==> (IsCurrent(s.deliveries, t, s.grants[t]) <==> IsCurrent(after, t, s.grants[t]));
  }

  lemma DownloadedKeepsInv(s: Store, k: (Id, Device), token: Token)
    requires Inv(s) && CarriesLease(s.deliveries, k, token) && (k.0, k.1, token) in s.served
    ensures Inv(SetDownloaded(s, k))
  {
    hide LedgerOk, TargetsOk, DiskOk, DeliveriesOk, GrantsOk, SweepsOk;
    DownloadedDeliveries(s, k, token);
    DownloadedGrants(s, k, token);
    LeasedIsNotDelivered(s, k);
    TouchedTargets(s.transfers, s.deliveries, k, s.deliveries[k].(downloaded := true));
  }

  lemma FinishDownloadKeepsInv(s: Store, stream: Stream, now: Time)
    requires Inv(s) && s.up && now >= s.clock
    ensures Inv(FinishDownload(s, stream, now))
  {
    ClockKeepsInv(s, now);
    var s0, e, k := s.(clock := now), (stream.id, stream.device, stream.token), (stream.id, stream.device);
    if stream in s.streams {
      assert stream.id in s.specs;
      hide Inv;
      ServedKeepsInv(s0, e);
      var s1 := s0.(served := s0.served + {e});
      if CarriesLease(s1.deliveries, k, stream.token) { DownloadedKeepsInv(s1, k, stream.token); }
    }
  }

  // ----------------------------------------------------------------- receipts

  /** Ending the lease a row carries, whatever the row becomes, leaves no lease running unseen. */
  lemma EndedGrants(s: Store, k: (Id, Device), d: Delivery)
    requires GrantsOk(s.grants, s.deliveries, s.clock) && k in s.deliveries && s.deliveries[k].lease.Some?
    ensures GrantsOk(EndGrant(s.grants, s.deliveries[k].lease.value.token, s.clock), s.deliveries[k := d], s.clock)
  {
    var mine := s.deliveries[k].lease.value.token;
    var ended, after := EndGrant(s.grants, mine, s.clock), s.deliveries[k := d];
    forall token | token in ended
      ensures ended[token].from <= s.clock && ended[token].from <= ended[token].to <= s.grants[token].to
      ensures IsCurrent(after, token, ended[token]) || ended[token].to <= s.clock
    {
      if token != mine && IsCurrent(s.deliveries, token, s.grants[token]) {
        assert (s.grants[token].id, s.grants[token].device) != k;
      }
    }
    EndedDisjoint(s.grants, mine, s.clock);
  }

  lemma EndedDisjoint(grants: Grants, token: Token, now: Time)
    requires forall a, b :: a in grants && b in grants && a != b ==> Disjoint(grants[a], grants[b])
    ensures var ended := EndGrant(grants, token, now);
            forall a, b :: a in ended && b in ended && a != b ==> Disjoint(ended[a], ended[b])
  {
    var ended := EndGrant(grants, token, now);
    forall a, b | a in ended && b in ended && a != b ensures Disjoint(ended[a], ended[b]) {
      assert Disjoint(grants[a], grants[b]);
    }
  }

  lemma EndedDeliveries(s: Store, k: (Id, Device), d: Delivery, confirmed: Confirmed)
    requires DeliveriesOk(s.transfers, s.deliveries, s.grants, s.served, s.confirmed, s.clock)
    requires k in s.deliveries && s.deliveries[k].receipt.Leased?
    requires if d.receipt.Acked?
             then d == s.deliveries[k].(receipt := Acked, ackedAt := d.ackedAt) && d.downloaded && d.lease.Some?
                  && confirmed == s.confirmed[k := d.lease.value.token]
             else d == Delivery(Pending, None, false, d.ackedAt) && confirmed == s.confirmed
    ensures DeliveriesOk(s.transfers, s.deliveries[k := d], EndGrant(s.grants, s.deliveries[k].lease.value.token, s.clock),
                         s.served, confirmed, s.clock)
  {
    var ended := EndGrant(s.grants, s.deliveries[k].lease.value.token, s.clock);
    forall j | j in s.deliveries && j != k
      ensures DeliveryOk(j, s.deliveries[j], s.transfers[j.0], ended, s.served, confirmed, s.clock)
    {
      assert DeliveryOk(j, s.deliveries[j], s.transfers[j.0], s.grants, s.served, s.confirmed, s.clock);
    }
    assert DeliveryOk(k, s.deliveries[k], s.transfers[k.0], s.grants, s.served, s.confirmed, s.clock);
  }

  lemma ReleaseKeepsInv(s: Store, who: Device, id: Id, token: Token, now: Time)
    requires Inv(s) && s.up && now >= s.clock
    ensures Inv(Release(s, who, id, token, now).0)
  {
    hide Inv;
    ClockKeepsInv(s, now);
    var s0 := s.(clock := now);
    if LeaseRefusal(s0, (id, who), token).None? && s.deliveries[(id, who)].receipt.Leased? {
      EndedKeepsInv(s0, (id, who));
    }
  }

  lemma LeasedIsNotDelivered(s: Store, k: (Id, Device))
    requires TargetsOk(s.transfers, s.deliveries) && k in s.deliveries && !s.deliveries[k].receipt.Acked?
    ensures k.0 in s.transfers && !s.transfers[k.0].stage.Delivered?
  {
    assert k.1 in s.transfers[k.0].spec.targets;
  }

  lemma EndedKeepsInv(s: Store, k: (Id, Device))
    requires Inv(s) && k in s.deliveries && s.deliveries[k].receipt.Leased? && s.deliveries[k].lease.Some?
    ensures Inv(EndLease(s, k))
  {
    hide LedgerOk, TargetsOk, DiskOk, DeliveriesOk, GrantsOk, SweepsOk;
    var d := Delivery(Pending, None, false, s.deliveries[k].ackedAt);
    EndedGrants(s, k, d);
    EndedDeliveries(s, k, d, s.confirmed);
    LeasedIsNotDelivered(s, k);
    TouchedTargets(s.transfers, s.deliveries, k, d);
  }

  lemma AckedTargets(rows: Transfers, deliveries: Deliveries, k: (Id, Device), d: Delivery, done: Transfer)
    requires TargetsOk(rows, deliveries) && k in deliveries && rows[k.0].stage.Ready? && d.receipt.Acked?
    requires done.spec == rows[k.0].spec && done.stage.Delivered?
    ensures var after := deliveries[k := d];
            TargetsOk(if AllAcked(after, k.0, rows[k.0].spec.targets) then rows[k.0 := done] else rows, after)
  {
    var after := deliveries[k := d];
    forall id | id in rows && id != k.0
      ensures AllAcked(after, id, rows[id].spec.targets) <==> AllAcked(deliveries, id, rows[id].spec.targets)
    {
    }
  }

  lemma DoneQuota(cfg: Config, rows: Transfers, id: Id, done: Transfer)
    requires QuotaOk(cfg, rows) && id in rows && !IsLive(done.stage)
    ensures QuotaOk(cfg, rows[id := done])
  {
    LiveSizesShrink(rows, rows[id := done]);
    assert rows[id := done].Keys == rows.Keys;
  }

  lemma DoneKeys(rows: Transfers, id: Id, done: Transfer)
    requires KeysOk(rows) && id in rows && done.source == rows[id].source && done.spec == rows[id].spec
    ensures KeysOk(rows[id := done])
  {
  }

  lemma DoneLedger(s: Store, id: Id, done: Transfer)
    requires LedgerOk(s.cfg, s.transfers, s.specs, s.clock) && id in s.transfers && IsLive(s.transfers[id].stage)
    requires done == s.transfers[id].(stage := Delivered, completedAt := Some(s.clock))
    ensures LedgerOk(s.cfg, s.transfers[id := done], s.specs, s.clock)
  {
    hide QuotaOk, KeysOk;
    DoneKeys(s.transfers, id, done);
    DoneQuota(s.cfg, s.transfers, id, done);
  }

  lemma DoneRest(s: Store, id: Id, done: Transfer)
    requires DiskOk(s.up, s.transfers, s.files, s.parts, s.uploads, s.specs, s.clock)
    requires SweepsOk(s.up, s.transfers, s.sweeps, s.clock) && id in s.transfers && s.transfers[id].stage.Ready?
    requires done == s.transfers[id].(stage := Delivered, completedAt := Some(s.clock))
    ensures DiskOk(s.up, s.transfers[id := done], s.files - {id}, s.parts, s.uploads, s.specs, s.clock)
    ensures SweepsOk(s.up, s.transfers[id := done], s.sweeps, s.clock)
  {
  }

  lemma DoneDeliveries(s: Store, id: Id, done: Transfer)
    requires DeliveriesOk(s.transfers, s.deliveries, s.grants, s.served, s.confirmed, s.clock) && id in s.transfers
    requires done == s.transfers[id].(stage := Delivered, completedAt := Some(s.clock))
    ensures DeliveriesOk(s.transfers[id := done], s.deliveries, s.grants, s.served, s.confirmed, s.clock)
  {
  }

  lemma AckedHistory(s: Store, k: (Id, Device))
    requires HistoryOk(s.up, s.specs, s.served, s.confirmed, s.streams)
    requires DeliveriesOk(s.transfers, s.deliveries, s.grants, s.served, s.confirmed, s.clock)
    requires k in s.deliveries && s.deliveries[k].lease.Some? && s.deliveries[k].downloaded
    ensures HistoryOk(s.up, s.specs, s.served, s.confirmed[k := s.deliveries[k].lease.value.token], s.streams)
  {
    assert DeliveryOk(k, s.deliveries[k], s.transfers[k.0], s.grants, s.served, s.confirmed, s.clock);
  }

  lemma ReceiptedKeepsInv(s: Store, k: (Id, Device))
    requires Inv(s) && k in s.deliveries && s.deliveries[k].receipt.Leased? && s.deliveries[k].lease.Some?
    requires s.deliveries[k].downloaded && k.0 in s.transfers && s.transfers[k.0].stage.Ready?
    ensures Inv(Receipted(s, k))
  {
    hide LedgerOk, TargetsOk, DiskOk, DeliveriesOk, GrantsOk, HistoryOk, SweepsOk;
    var d := s.deliveries[k].(receipt := Acked, ackedAt := Some(s.clock));
    var done := s.transfers[k.0].(stage := Delivered, completedAt := Some(s.clock));
    EndedGrants(s, k, d);
    EndedDeliveries(s, k, d, s.confirmed[k := d.lease.value.token]);
    AckedTargets(s.transfers, s.deliveries, k, d, done);
    AckedHistory(s, k);
    DoneLedger(s, k.0, done);
    DoneRest(s, k.0, done);
    DoneDeliveries(MarkAcked(s, k), k.0, done);
  }

  lemma AcknowledgeKeepsInv(s: Store, who: Device, id: Id, token: Token, sha: Digest, now: Time)
    requires Inv(s) && s.up && now >= s.clock
    ensures Inv(Acknowledge(s, who, id, token, sha, now).0)
  {
    ClockKeepsInv(s, now);
    var s0, k := s.(clock := now), (id, who);
    if ReceiptRefusal(s0, k, token, sha).None? {
      DeliveryShape(s, k);
      hide Inv, Receipted;
      if !s.deliveries[k].receipt.Acked? { ReceiptedKeepsInv(s0, k); }
    }
  }

  lemma DeliveryShape(s: Store, k: (Id, Device))
    requires DeliveriesOk(s.transfers, s.deliveries, s.grants, s.served, s.confirmed, s.clock) && k in s.deliveries
    ensures s.deliveries[k].receipt.Pending? <==> s.deliveries[k].lease.None?
  {
  }
}
