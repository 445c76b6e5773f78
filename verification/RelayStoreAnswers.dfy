/** What the store answers its devices, and that what it promises goes through. */
module RelayStoreAnswers {
  import opened Basics
  import opened RelayStore
  import opened RelayStoreSafety
  import opened RelayStoreRuns

  /** Everything but one transfer's own rows and files is as before. */
  ghost predicate OnlyTransfer(s: Store, after: Store, id: Id) {
    && after.cfg == s.cfg && after.up == s.up
    && (forall x :: x != id ==> (x in after.transfers <==> x in s.transfers) && (x in s.transfers ==> after.transfers[x] == s.transfers[x]))
    && (forall k: (Id, Device) :: k.0 != id ==>
          (k in after.deliveries <==> k in s.deliveries) && (k in s.deliveries ==> after.deliveries[k] == s.deliveries[k]))
    && (forall x :: x != id ==> (x in after.files <==> x in s.files) && (x in s.files ==> after.files[x] == s.files[x]))
  }

  /** Everything but one delivery row is as before. */
  ghost predicate OnlyDelivery(s: Store, after: Store, k: (Id, Device)) {
    && after.cfg == s.cfg && after.up == s.up && after.transfers == s.transfers && after.files == s.files
    && after.parts == s.parts && after.uploads == s.uploads && after.sweeps == s.sweeps
    && after.deliveries.Keys == s.deliveries.Keys
    && forall x :: x in s.deliveries && x != k ==> after.deliveries[x] == s.deliveries[x]
  }

  /** The service knows this transfer and its lifetime is not over. */
  predicate IsAlive(s: Store, id: Id, now: Time) {
    id in s.transfers && !s.transfers[id].stage.Expired? && !s.transfers[id].stage.Cancelled? && now < s.transfers[id].expiresAt
  }

  // ------------------------------------------------------------------- sending

  /** A new request is taken exactly when the quota, the two limits on rows and the free disk have room for
      it; its row waits fifteen minutes for the upload, lives as long as asked for, and has one pending
      delivery for each target. */
  lemma ReservedExactlyWhen(s: Store, who: Device, spec: Spec, newId: Id, free: int, now: Time)
    requires forall id :: id in s.transfers ==> s.transfers[id].source != who || s.transfers[id].spec.key != spec.key
    requires newId !in s.transfers && forall d :: (newId, d) !in s.deliveries
    ensures var (after, reply) := Reserve(s, who, spec, newId, free, now);
            var live := set id | id in s.transfers && IsLive(s.transfers[id].stage);
            var used := Total(LiveSizes(s.transfers));
            && (reply == Public(newId, Uploading) <==>
                  && used + spec.size <= s.cfg.quota && |live| < 5000 && |s.transfers| < 20000
                  && free >= s.cfg.minimumFree + used + spec.size)
            && (reply != Public(newId, Uploading) ==> reply == Rejected(507) && after == s.(clock := now))
            && (reply == Public(newId, Uploading) ==>
                  && OnlyTransfer(s, after, newId) && newId in after.transfers
                  && after.transfers[newId] == Transfer(who, spec, now, now + spec.ttl, now + 15 * MINUTE, Uploading, None)
                  && forall d :: ((newId, d) in after.deliveries <==> d in spec.targets)
                       && (d in spec.targets ==> after.deliveries[(newId, d)] == Delivery(Pending, None, false, None)))
  {
    hide Reserve, Total, LiveSizes, OnlyTransfer, AddReservation, NewTransfer;
    LiveIsCounted(s.transfers);
    NewRequest(s, who, spec, newId, free, now);
    AddedRow(s.(clock := now), newId, NewTransfer(who, spec, now));
    assert OnlyTransfer(s.(clock := now), AddReservation(s.(clock := now), newId, NewTransfer(who, spec, now)), newId);
    NewRow(who, spec, now);
    SameTransfers(s, now, AddReservation(s.(clock := now), newId, NewTransfer(who, spec, now)), newId);
  }

  lemma LiveIsCounted(rows: map<Id, Transfer>)
    ensures |set id | id in rows && IsLive(rows[id].stage)| == |LiveSizes(rows)|
  {
    assert LiveSizes(rows).Keys == set id | id in rows && IsLive(rows[id].stage);
  }

  lemma NewRow(who: Device, spec: Spec, now: Time)
    ensures NewTransfer(who, spec, now) == Transfer(who, spec, now, now + spec.ttl, now + 15 * MINUTE, Uploading, None)
  {
  }

  lemma SameTransfers(s: Store, now: Time, after: Store, id: Id)
    requires OnlyTransfer(s.(clock := now), after, id)
    ensures OnlyTransfer(s, after, id)
  {
  }

  lemma NewRequest(s: Store, who: Device, spec: Spec, newId: Id, free: int, now: Time)
    requires forall id :: id in s.transfers ==> s.transfers[id].source != who || s.transfers[id].spec.key != spec.key
    ensures var used, s1 := Total(LiveSizes(s.transfers)), s.(clock := now);
            var admitted := used + spec.size <= s.cfg.quota && |LiveSizes(s.transfers)| < 5000 && |s.transfers| < 20000
                            && free >= s.cfg.minimumFree + used + spec.size;
            Reserve(s, who, spec, newId, free, now) ==
              if admitted then (AddReservation(s1, newId, NewTransfer(who, spec, now)), Public(newId, Uploading)) else (s1, Rejected(507))
  {
    hide Total, LiveSizes, AddReservation, NewTransfer;
    assert !KeyTaken(s.(clock := now), who, spec.key);
  }

  lemma AddedRow(s: Store, id: Id, row: Transfer)
    requires id !in s.transfers && forall d :: (id, d) !in s.deliveries
    ensures var after := AddReservation(s, id, row);
            && OnlyTransfer(s, after, id) && id in after.transfers && after.transfers[id] == row
            && forall d :: ((id, d) in after.deliveries <==> d in row.spec.targets)
                 && (d in row.spec.targets ==> after.deliveries[(id, d)] == Delivery(Pending, None, false, None))
  {
  }

  /** A request under a key already used returns the stored transfer if it is the same request, and is
      refused otherwise; nothing is created. */
  lemma KnownExactlyWhen(s: Store, who: Device, spec: Spec, newId: Id, free: int, now: Time, id: Id)
    requires Inv(s) && id in s.transfers && s.transfers[id].source == who && s.transfers[id].spec.key == spec.key
    ensures var (after, reply) := Reserve(s, who, spec, newId, free, now);
            && after == s.(clock := now)
            && (s.transfers[id].spec == spec ==> reply == Public(id, s.transfers[id].stage))
            && (s.transfers[id].spec != spec ==> reply == Rejected(409))
  {
    hide Reserve;
    PushIsIdempotent(s, who, spec, newId, free, now, id);
  }

  /** Its sender, and nobody else, may upload a reservation while it waits for it. */
  lemma UploadOpensExactlyWhen(s: Store, who: Device, id: Id, now: Time)
    ensures var (after, reply) := BeginUpload(s, who, id, now);
            var mine := id in s.transfers && s.transfers[id].source == who;
            && (reply == Done <==>
                  mine && IsAlive(s, id, now) && s.transfers[id].stage.Uploading? && now < s.transfers[id].uploadDeadline)
            && (!mine ==> reply == Rejected(404))
            && (mine && !IsAlive(s, id, now) ==> reply == Rejected(410))
            && (mine && IsAlive(s, id, now) && !s.transfers[id].stage.Uploading? ==> reply == Rejected(409))
            && (mine && IsAlive(s, id, now) && s.transfers[id].stage.Uploading? && now >= s.transfers[id].uploadDeadline ==>
                  reply == Rejected(410))
            && (reply != Done ==> after == s.(clock := now))
            && (reply == Done ==>
                  && OnlyTransfer(s, after, id) && after.transfers[id] == s.transfers[id].(stage := Writing)
                  && after.files == s.files && id in after.uploads && after.uploads[id] == [])
  {
  }

  /** A chunk is kept as long as the body is not longer than declared; one too many ends the upload, which
      may then be made again. */
  lemma ChunkKeptExactlyWhen(s: Store, id: Id, chunk: Bytes, now: Time)
    requires id in s.uploads && id in s.specs
    ensures var (after, reply) := ReceiveChunk(s, id, chunk, now);
            && (reply == Done <==> |s.uploads[id]| + |chunk| <= s.specs[id].1.size)
            && (reply == Done ==> id in after.uploads && after.uploads[id] == s.uploads[id] + chunk && after.transfers == s.transfers)
            && (reply != Done ==> reply == Rejected(413) && IsTakenBack(s, after, id))
  {
  }

  /** The upload is over, what arrived of it gone, and its row waits as before it. */
  ghost predicate IsTakenBack(s: Store, after: Store, id: Id) {
    && OnlyTransfer(s, after, id) && id !in after.uploads && id !in after.parts && after.files == s.files
    && (id in after.transfers <==> id in s.transfers)
    && (id in s.transfers ==>
          after.transfers[id] == if s.transfers[id].stage.Writing? then s.transfers[id].(stage := Uploading) else s.transfers[id])
  }

  /** A body is published exactly when it is complete, has the declared digest, and its row still waits for
      it; its refusal says which of these failed. */
  lemma PublishedExactlyWhen(s: Store, id: Id, now: Time)
    requires id in s.uploads && id in s.specs
    ensures var (after, reply) := FinishUpload(s, id, now);
            var whole := |s.uploads[id]| == s.specs[id].1.size && Sha256(s.uploads[id]) == s.specs[id].1.sha;
            && (reply == Public(id, Ready) <==>
                  whole && IsAlive(s, id, now) && s.transfers[id].stage.Writing? && id in s.parts)
            && (!whole ==> reply == Rejected(422))
            && (whole && id !in s.transfers ==> reply == Rejected(404))
            && (whole && id in s.transfers && !IsAlive(s, id, now) ==> reply == Rejected(410))
            && (whole && IsAlive(s, id, now) && !s.transfers[id].stage.Writing? ==> reply == Rejected(409))
            && (reply == Public(id, Ready) ==>
                  && OnlyTransfer(s, after, id) && after.transfers[id] == s.transfers[id].(stage := Ready)
                  && id in after.files && after.files[id] == s.parts[id] && id !in after.parts && id !in after.uploads)
            && (reply != Public(id, Ready) ==> IsTakenBack(s, after, id))
  {
  }

  /** An upload that was aborted can be made again at once. */
  lemma AbortedCanRetry(s: Store, who: Device, id: Id, now: Time)
    requires id in s.transfers && s.transfers[id].stage.Writing? && s.transfers[id].source == who
    requires IsAlive(s, id, now) && now < s.transfers[id].uploadDeadline
    ensures IsTakenBack(s, AbortUpload(s, id), id) && BeginUpload(AbortUpload(s, id), who, id, now).1 == Done
  {
  }

  // ----------------------------------------------------------------- receiving

  /** The delivery is not confirmed, and nobody holds it. */
  predicate IsFree(d: Delivery, now: Time) {
    d.receipt.Pending? || (d.receipt.Leased? && (d.lease.Some? ==> d.lease.value.until <= now))
  }

  /** A target gets a lease exactly while the transfer is ready, in its lifetime, and its delivery free: for
      fifteen minutes or to the end of the lifetime, with the download still to be made. */
  lemma GrantedExactlyWhen(s: Store, who: Device, id: Id, token: Token, now: Time)
    ensures var (after, reply) := Claim(s, who, id, token, now);
            var k := (id, who);
            var addressed := id in s.transfers && k in s.deliveries;
            && (reply.Granted? <==>
                  addressed && IsAlive(s, id, now) && s.transfers[id].stage.Ready? && IsFree(s.deliveries[k], now))
            && (!addressed ==> reply == Rejected(404))
            && (addressed && !IsAlive(s, id, now) ==> reply == Rejected(410))
            && (addressed && IsAlive(s, id, now) && !reply.Granted? ==> reply == Rejected(409))
            && (!reply.Granted? ==> after == s.(clock := now))
            && (reply.Granted? ==>
                  && reply.lease == Lease(token, Min(now + 15 * MINUTE, s.transfers[id].expiresAt))
                  && OnlyDelivery(s, after, k) && after.deliveries[k].receipt.Leased?
                  && after.deliveries[k].lease == Some(reply.lease) && !after.deliveries[k].downloaded)
  {
  }

  /** The holder of the lease may download while it and the transfer last, and what is streamed to it is
      the declared content. */
  lemma OpenedExactlyWhen(s: Store, who: Device, id: Id, token: Token, now: Time)
    requires Inv(s) && s.up && now >= s.clock
    ensures var (after, reply) := OpenDownload(s, who, id, token, now);
            var k := (id, who);
            var addressed := id in s.transfers && k in s.deliveries;
            var named := addressed && s.deliveries[k].lease.Some? && s.deliveries[k].lease.value.token == token;
            && (reply.Opened? <==>
                  && named && IsAlive(s, id, now) && s.transfers[id].stage.Ready?
                  && s.deliveries[k].receipt.Leased? && now < s.deliveries[k].lease.value.until)
            && (!addressed ==> reply == Rejected(404))
            && (addressed && !named ==> reply == Rejected(409))
            && (named && !IsAlive(s, id, now) ==> reply == Rejected(410))
            && (named && IsAlive(s, id, now) && !reply.Opened? ==> reply == Rejected(409))
            && (reply.Opened? ==>
                  && reply.stream.id == id && reply.stream.device == who && reply.stream.token == token
                  && |reply.stream.content| == s.transfers[id].spec.size && Sha256(reply.stream.content) == s.transfers[id].spec.sha
                  && after.streams == s.streams + {reply.stream})
            && after.transfers == s.transfers && after.deliveries == s.deliveries && after.files == s.files
  {
    hide Inv, OpenDownload;
    if IsAlive(s, id, now) && s.transfers[id].stage.Ready? { ReadyInTime(s, id, now); }
    OpenedAsAllowed(s, who, id, token, now);
  }

  lemma ReadyInTime(s: Store, id: Id, now: Time)
    requires Inv(s) && id in s.transfers && s.transfers[id].stage.Ready? && now >= s.clock && now < s.transfers[id].expiresAt
    ensures Holds(s.files, id, s.transfers[id].spec)
  {
    ReadyHasBlob(s, id);
  }

  lemma OpenedAsAllowed(s: Store, who: Device, id: Id, token: Token, now: Time)
    ensures var (after, reply) := OpenDownload(s, who, id, token, now);
            var s1, k := s.(clock := now), (id, who);
            && (reply.Opened? <==> OpenRefusal(s1, k, token).None?)
            && (reply.Opened? ==>
                  && id in s.files && reply.stream == Stream(id, who, token, s.files[id].content)
                  && after.streams == s.streams + {reply.stream})
            && (!reply.Opened? ==> OpenRefusal(s1, k, token).Some? && reply == Rejected(OpenRefusal(s1, k, token).value))
            && after.transfers == s.transfers && after.deliveries == s.deliveries && after.files == s.files
  {
    hide OpenRefusal;
    OpenNeedsFile(s.(clock := now), (id, who), token);
  }

  lemma OpenNeedsFile(s: Store, k: (Id, Device), token: Token)
    ensures OpenRefusal(s, k, token).None? ==> k.0 in s.files
  {
  }

  /** A download counts exactly when it was streamed to its end under the lease its row still carries. */
  lemma CountedExactlyWhen(s: Store, stream: Stream, now: Time)
    requires stream in s.streams
    ensures var after, k := FinishDownload(s, stream, now), (stream.id, stream.device);
            && OnlyDelivery(s, after, k)
            && (k in s.deliveries ==>
                  after.deliveries[k] == s.deliveries[k].(downloaded :=
                    s.deliveries[k].downloaded
                    || (s.deliveries[k].receipt.Leased? && s.deliveries[k].lease.Some? && s.deliveries[k].lease.value.token == stream.token)))
  {
    hide OnlyDelivery, CarriesLease;
    var k := (stream.id, stream.device);
    if CarriesLease(s.deliveries, k, stream.token) {
      LeaseIsCarried(s, k, stream.token);
      FlagIsSet(s, k, SetDownloaded(s, k).deliveries);
    } else {
      LeaseIsCarried(s, k, stream.token);
      FlagIsSet(s, k, s.deliveries);
    }
    SameDelivery(s, s.(deliveries := FinishDownload(s, stream, now).deliveries), FinishDownload(s, stream, now), k);
  }

  lemma LeaseIsCarried(s: Store, k: (Id, Device), token: Token)
    ensures CarriesLease(s.deliveries, k, token) <==>
      k in s.deliveries && s.deliveries[k].receipt.Leased? && s.deliveries[k].lease.Some? && s.deliveries[k].lease.value.token == token
  {
  }

  lemma FlagIsSet(s: Store, k: (Id, Device), deliveries: map<(Id, Device), Delivery>)
    requires deliveries.Keys == s.deliveries.Keys && forall x :: x in s.deliveries && x != k ==> deliveries[x] == s.deliveries[x]
    ensures OnlyDelivery(s, s.(deliveries := deliveries), k)
  {
  }

  lemma SameDelivery(s: Store, changed: Store, after: Store, k: (Id, Device))
    requires OnlyDelivery(s, changed, k) && after.deliveries == changed.deliveries && after.transfers == s.transfers
    requires after.cfg == s.cfg && after.up == s.up && after.files == s.files
    requires after.parts == s.parts && after.uploads == s.uploads && after.sweeps == s.sweeps
    ensures OnlyDelivery(s, after, k)
  {
  }

  /** A receipt is accepted exactly from the holder of the row's lease, with the right digest, and, if it is
      the first, while lease and lifetime last and after the download. The same receipt again is confirmed
      and changes nothing. */
  lemma ConfirmedExactlyWhen(s: Store, who: Device, id: Id, token: Token, sha: Digest, now: Time)
    ensures var (after, reply) := Acknowledge(s, who, id, token, sha, now);
            var k := (id, who);
            var addressed := id in s.transfers && k in s.deliveries;
            var named := addressed && s.deliveries[k].lease.Some? && s.deliveries[k].lease.value.token == token;
            var right := named && s.transfers[id].spec.sha == sha;
            var again := right && s.deliveries[k].receipt.Acked?;
            var first := right && !s.deliveries[k].receipt.Acked? && IsAlive(s, id, now) && s.transfers[id].stage.Ready?
                         && now < s.deliveries[k].lease.value.until && s.deliveries[k].downloaded;
            && (reply.Confirmed? <==> first || again)
            && (!addressed ==> reply == Rejected(404))
            && (addressed && !named ==> reply == Rejected(409))
            && (named && !right ==> reply == Rejected(422))
            && (right && !again && !IsAlive(s, id, now) ==> reply == Rejected(410))
            && (right && !again && !first && IsAlive(s, id, now) ==> reply == Rejected(409))
            && (!first ==> after == s.(clock := now))
            && (again ==> reply == Confirmed(s.transfers[id].stage))
  {
    hide AllAcked, Receipted;
  }

  /** The first receipt of a target confirms its delivery, and completes the transfer exactly when all the
      other targets have confirmed theirs: its blob is then freed. */
  lemma ConfirmedAs(s: Store, who: Device, id: Id, token: Token, sha: Digest, now: Time)
    requires Inv(s) && id in s.transfers && (id, who) in s.deliveries && !s.deliveries[(id, who)].receipt.Acked?
    requires Acknowledge(s, who, id, token, sha, now).1.Confirmed?
    ensures var (after, reply) := Acknowledge(s, who, id, token, sha, now);
            var k := (id, who);
            var last := forall d :: d in s.transfers[id].spec.targets && d != who ==> s.deliveries[(id, d)].receipt.Acked?;
            && k in after.deliveries && after.deliveries[k] == s.deliveries[k].(receipt := Acked, ackedAt := Some(now))
            && (forall x :: x in s.deliveries && x != k ==> x in after.deliveries && after.deliveries[x] == s.deliveries[x])
            && id in after.transfers && (forall x :: x in s.transfers && x != id ==> x in after.transfers && after.transfers[x] == s.transfers[x])
            && reply == Confirmed(after.transfers[id].stage)
            && after.transfers[id] == (if last then s.transfers[id].(stage := Delivered, completedAt := Some(now)) else s.transfers[id])
            && after.files == (if last then s.files - {id} else s.files)
  {
    hide Inv, EndGrant, Dead;
    ConfirmedExactlyWhen(s, who, id, token, sha, now);
    TargetsAreThere(s, id, who);
    var rest := s.transfers[id].spec.targets;
    assert AllAcked(MarkAcked(s.(clock := now), (id, who)).deliveries, id, rest) <==>
           forall d :: d in rest && d != who ==> s.deliveries[(id, d)].receipt.Acked?;
  }

  lemma TargetsAreThere(s: Store, id: Id, who: Device)
    requires Inv(s) && (id, who) in s.deliveries
    ensures id in s.transfers && who in s.transfers[id].spec.targets
    ensures forall d :: d in s.transfers[id].spec.targets ==> (id, d) in s.deliveries
  {
  }

  /** The delivery is held under this lease, by a target of a ready transfer that outlives it. */
  ghost predicate IsHolding(s: Store, k: (Id, Device), lease: Lease) {
    && Inv(s) && s.up && k.0 in s.transfers && s.transfers[k.0].stage.Ready? && lease.until <= s.transfers[k.0].expiresAt
    && k in s.deliveries && s.deliveries[k].receipt.Leased? && s.deliveries[k].lease == Some(lease)
  }

  lemma HolderClaims(s: Store, who: Device, id: Id, token: Token, now: Time)
    requires Inv(s) && s.up && s.clock <= now && token !in s.grants
    requires id in s.transfers && s.transfers[id].stage.Ready? && (id, who) in s.deliveries && IsFree(s.deliveries[(id, who)], now)
    requires now < s.transfers[id].expiresAt
    ensures var (after, reply) := Claim(s, who, id, token, now);
            && reply == Granted(Lease(token, Min(now + 15 * MINUTE, s.transfers[id].expiresAt)))
            && IsHolding(after, (id, who), reply.lease) && OnlyDelivery(s, after, (id, who)) && after.clock == now
  {
    hide Inv, Claim, IsFree;
    GrantedExactlyWhen(s, who, id, token, now);
    StepKeepsInv(s, OpClaim(who, id, token, now));
    ClaimSetsClock(s, who, id, token, now);
  }

  lemma HolderReads(s: Store, who: Device, id: Id, lease: Lease, t1: Time, t2: Time)
    requires IsHolding(s, (id, who), lease) && s.clock <= t1 <= t2 < lease.until
    ensures var (open, answer) := OpenDownload(s, who, id, lease.token, t1);
            && answer.Opened? && answer.stream in open.streams
            && Sha256(answer.stream.content) == s.transfers[id].spec.sha
            && var read := FinishDownload(open, answer.stream, t2);
               && IsHolding(read, (id, who), lease) && read.deliveries[(id, who)].downloaded && read.clock == t2
               && OnlyDelivery(s, read, (id, who))
  {
    hide Inv, OpenDownload, FinishDownload;
    OpenedExactlyWhen(s, who, id, lease.token, t1);
    var open, stream := OpenDownload(s, who, id, lease.token, t1).0, OpenDownload(s, who, id, lease.token, t1).1.stream;
    StepKeepsInv(s, OpOpenDownload(who, id, lease.token, t1));
    OpenSetsClock(s, who, id, lease.token, t1);
    CountedExactlyWhen(open, stream, t2);
    StepKeepsInv(open, OpFinishDownload(stream, t2));
    ReadSetsClock(open, stream, t2);
  }

  /** From claim to receipt: a target of a ready transfer that claims it, downloads it to the end and
      confirms its digest, all within the lease, is confirmed; and the transfer is then delivered exactly
      when the other targets have confirmed it too. */
  lemma DeliveryGoesThrough(s: Store, who: Device, id: Id, token: Token, t0: Time, t1: Time, t2: Time, t3: Time)
    requires Inv(s) && s.up && s.clock <= t0 <= t1 <= t2 <= t3 && token !in s.grants
    requires id in s.transfers && s.transfers[id].stage.Ready? && (id, who) in s.deliveries && IsFree(s.deliveries[(id, who)], t0)
    requires t3 < Min(t0 + 15 * MINUTE, s.transfers[id].expiresAt)
    ensures var (claimed, granted) := Claim(s, who, id, token, t0);
            var (open, answer) := OpenDownload(claimed, who, id, token, t1);
            && granted.Granted? && answer.Opened? && answer.stream in open.streams
            && var read := FinishDownload(open, answer.stream, t2);
               var (done, reply) := Acknowledge(read, who, id, token, Sha256(answer.stream.content), t3);
               && reply.Confirmed? && (id, who) in done.deliveries && done.deliveries[(id, who)].receipt.Acked?
               && id in done.transfers
               && (done.transfers[id].stage.Delivered? <==>
                     forall d :: d in s.transfers[id].spec.targets && d != who ==> s.deliveries[(id, d)].receipt.Acked?)
  {
    hide Inv, Claim, OpenDownload, FinishDownload, Acknowledge, IsFree;
    TargetsAreThere(s, id, who);
    HolderClaims(s, who, id, token, t0);
    var (claimed, granted) := Claim(s, who, id, token, t0);
    HolderReads(claimed, who, id, granted.lease, t1, t2);
    var (open, answer) := OpenDownload(claimed, who, id, token, t1);
    var read := FinishDownload(open, answer.stream, t2);
    ConfirmedExactlyWhen(read, who, id, token, s.transfers[id].spec.sha, t3);
    ConfirmedAs(read, who, id, token, s.transfers[id].spec.sha, t3);
  }

  lemma ClaimSetsClock(s: Store, who: Device, id: Id, token: Token, now: Time)
    ensures Claim(s, who, id, token, now).0.clock == now && Claim(s, who, id, token, now).0.up == s.up
  {
  }

  lemma OpenSetsClock(s: Store, who: Device, id: Id, token: Token, now: Time)
    ensures var after := OpenDownload(s, who, id, token, now).0;
            after.clock == now && after.up == s.up && OnlyDelivery(s, after, (id, who))
  {
  }

  lemma ReadSetsClock(s: Store, stream: Stream, now: Time)
    ensures FinishDownload(s, stream, now).clock == now
  {
  }

  /** The holder may give a lease back, and the delivery can then be claimed again at once; a confirmed one
      stays confirmed. */
  lemma ReleasedExactlyWhen(s: Store, who: Device, id: Id, token: Token, now: Time)
    ensures var (after, reply) := Release(s, who, id, token, now);
            var k := (id, who);
            var named := k in s.deliveries && s.deliveries[k].lease.Some? && s.deliveries[k].lease.value.token == token;
            && (reply == Done <==> named)
            && (k !in s.deliveries ==> reply == Rejected(404))
            && (k in s.deliveries && !named ==> reply == Rejected(409))
            && (!(named && s.deliveries[k].receipt.Leased?) ==> after == s.(clock := now))
            && (named && s.deliveries[k].receipt.Leased? ==>
                  OnlyDelivery(s, after, k) && IsFree(after.deliveries[k], now) && after.deliveries[k].lease.None? && !after.deliveries[k].downloaded)
  {
    hide EndGrant;
  }

  // ------------------------------------------------------------------- the inbox

  /** The inbox lists exactly what a claim at that instant would be granted. */
  lemma InboxIsClaimable(s: Store, who: Device, id: Id, token: Token, now: Time)
    ensures id in Inbox(s, who, now) <==> Claim(s, who, id, token, now).1.Granted?
  {
  }

  // ------------------------------------------------------------------ janitor

  /** Past its lifetime, or past the time for its upload. */
  predicate IsOver(t: Transfer, now: Time) {
    t.expiresAt <= now || ((t.stage.Uploading? || t.stage.Writing?) && t.uploadDeadline <= now)
  }

  /** One pass of the janitor, row by row: live rows that are over expire; finished ones go when they are too
      old or beyond the limit on records; the rest stay as they are. A finished row has no file left, a live
      one keeps its own, and deliveries go with their row. */
  lemma CleanedUp(s: Store, now: Time, overflow: set<Id>, id: Id)
    requires id in s.transfers
    ensures var after, t := Cleanup(s, now, overflow), s.transfers[id];
            var over := IsLive(t.stage) && IsOver(t, now);
            var row := if over then t.(stage := Expired, completedAt := Some(now)) else t;
            && (id in after.transfers <==>
                  id !in overflow && !(row.completedAt.Some? && row.completedAt.value < now - s.cfg.recordAge))
            && (id in after.transfers ==> after.transfers[id] == row)
            && (IsLive(row.stage) ==> (id in after.files <==> id in s.files) && (id in s.files ==> after.files[id] == s.files[id])
                                      && (id in after.parts <==> id in s.parts))
            && (!IsLive(row.stage) ==> id !in after.files && id !in after.parts)
            && (forall d :: ((id, d) in after.deliveries <==> id in after.transfers && (id, d) in s.deliveries)
                  && ((id, d) in after.deliveries ==> after.deliveries[(id, d)] == s.deliveries[(id, d)]))
            && Sweep(after.transfers.Keys, now) in after.sweeps && after.clock == now
  {
  }

  /** Of the finished records as many as the limit allows are kept, the latest ones; below it none is lost. */
  lemma LatestAreKept(s: Store, now: Time, overflow: set<Id>, kept: Id, gone: Id)
    requires IsOverflow(Retained(s, now), s.cfg.recordLimit, overflow)
    ensures var rows := Retained(s, now);
            var finished := set id | id in rows && rows[id].completedAt.Some?;
            && (|finished| <= s.cfg.recordLimit ==> overflow == {})
            && (|finished| > s.cfg.recordLimit ==> |finished - overflow| == s.cfg.recordLimit)
            && (gone in overflow ==> gone in finished)
            && (gone in overflow && kept in finished - overflow ==> rows[kept].completedAt.value >= rows[gone].completedAt.value)
  {
    var rows := Retained(s, now);
    assert Completed(rows) == set id | id in rows && rows[id].completedAt.Some?;
    assert Completed(rows) == (Completed(rows) - overflow) + overflow;
    assert |Completed(rows)| == |Completed(rows) - overflow| + |overflow|;
  }

  /** No pass makes a transfer. */
  lemma NothingNew(s: Store, now: Time, overflow: set<Id>)
    ensures Cleanup(s, now, overflow).transfers.Keys <= s.transfers.Keys
  {
  }

  /** The pass over the directory removes exactly the files older than twenty minutes that no row had. */
  lemma SweptFiles(s: Store, sweep: Sweep, id: Id)
    requires sweep in s.sweeps
    ensures var after := SweepOrphans(s, sweep);
            && (id in after.files <==> id in s.files && (id in sweep.active || s.files[id].modified >= sweep.at - 20 * MINUTE))
            && (id in after.parts <==> id in s.parts && (id in sweep.active || s.parts[id].modified >= sweep.at - 20 * MINUTE))
            && after.transfers == s.transfers && after.deliveries == s.deliveries && after.sweeps == s.sweeps - {sweep}
  {
  }

  /** A crash loses only what was in memory; the restart makes cut-off uploads wait again, without what had
      arrived of them, and leaves every other row, its deliveries and its file alone. */
  lemma RestartedRows(s: Store, id: Id)
    requires id in s.transfers
    ensures Crash(s) == s.(up := false, uploads := map[], streams := {}, sweeps := {})
    ensures var after, t := Recover(Crash(s)), s.transfers[id];
            && after.up && after.transfers.Keys == s.transfers.Keys && after.deliveries == s.deliveries && after.parts == map[]
            && (t.stage.Writing? ==> after.transfers[id] == t.(stage := Uploading))
            && (!t.stage.Writing? ==> after.transfers[id] == t)
            && (t.stage.Writing? || t.stage.Uploading? ==> id !in after.files)
            && (!t.stage.Writing? && !t.stage.Uploading? ==>
                  (id in after.files <==> id in s.files) && (id in s.files ==> after.files[id] == s.files[id]))
  {
  }
}
