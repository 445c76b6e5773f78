# Verification of the relay, the queues and the gates of AI-Twin

A Dafny model of the durable state machines of AI-Twin and of two self-contained algorithms. A
transaction of the original is one step on a value of type `State` (or `Store`, `Sys`); what every step
keeps, and what follows for whole runs, is proved about these steps. Beside each there is a class whose
methods work as the program does and are proved to take exactly those steps: what the program loops
over is a loop, a query that counts or orders rows is a loop, and a statement that updates or deletes
many rows at once is one assignment. For each component a module named `...Answers` states, without
naming the steps' own helpers, exactly when each operation succeeds, what it answers and what becomes of
each row. `dafny verify dfyconfig.toml` checks everything.

- **Relay**: `RelayStore` (steps of the temporary store), `RelayStoreSafety`, `RelayLeases`,
  `RelayStoreRuns` and `RelayStoreHistory` (its invariant, what it implies, what runs never undo),
  `RelayServer` (the service as a class), `RelayBackend` (replay receipts and joined transactions),
  `RelayBridge` and `RelayClient`, and `RelaySystem` with `RelayDelivery`, which put the four
  together and prove delivery end to end; `RelayStoreAnswers` and `RelayAnswers`.
- **Model-call budget and analysis queue**: `BudgetWindow` (the deferral computation),
  `AnalysisQueue`, `AnalysisSafety`, `AnalysisRuns`, `AnalysisAnswers`, and `AnalysisStore` (the tables
  as a class).
- **Reminders**: `Attention`, `AttentionSafety`, `AttentionRuns`, `AttentionPromises`,
  `AttentionAnswers`, and `AttentionBoard` (the tables as a class).
- **Admission**: `RateLimiter`, `RateLimiterRuns` and `RateLimiterAnswers` (in memory, lazily swept);
  `Admission`, `AdmissionRuns` and `AdmissionAnswers` (in tables, pruned).
- **Translation cache and publish gate**: `Localization`, `LocalizationRuns`, `LocalizationAnswers`,
  `LocalizationCache`; `PublishGate`, `PublishAnswers`, `PublishBoard`.
- **Algorithms**: `Multipart`, `MultipartRoundTrip`, `MultipartInverse`, `SpeechRequest`;
  `EditDistance`.
- `Basics` holds bytes, digests, clocks and sums over maps.

## Assumptions

- A `BEGIN IMMEDIATE` block is atomic; a crash loses a process's memory and keeps its tables and files.
- SHA-256 is injective: `Digest` carries its preimage. Fresh ids and tokens are inputs that differ
  from all earlier ones.
- An instant is a count of microseconds (seconds as a real number in `RateLimiter`), read once per
  transaction. Where a result needs the clock not to run backwards, its run predicate says so; the
  results about reminders and the publish gate do not need it.
- Limits, policies and a run's bound on attempts do not change during a run; the limiter's windows may.
- UTF-8 is any pair of inverse functions that works character by character, keeps the first 128
  characters and uses no byte below 128 for the others.
- Several rows of history are kept only to state results: which reservations and leases there ever were,
  what was served, all charges ever made, all requests and hits ever admitted.

## Where the code and a first reading differ

- `ready` does not always imply a blob: a janitor pass that fails after unlinking rolls its rows back but
  not its files (`RelayStoreRuns.ReadyBlobsSurviveExactlyWhen`, `RelayStoreHistory.ReadyBlobCanBeLost`).
  The next pass expires those rows.
- `ok=true` in a relay receipt does not imply that the event row exists
  (`RelayBackend.AcceptedMayHaveWrittenNothing`).
- `record_feedback` accepts guidance on a draft, and the automatic signal does not see it later
  (`AttentionPromises.GuidanceOnADraftIsForgotten`). Both callers look the advice up first and do not find
  drafts, so through them the signal is sound without exception
  (`AttentionPromises.GuardedSilenceIsTotal`).
- The limiter's lazy table is exact only while expiries are in order
  (`RateLimiter.LazyIsExactExactlyWhen`, `RateLimiterRuns.ShorterWindowMiscounts`); otherwise it may refuse
  too much, but never allows too much (`RateLimiterRuns.NoKeyExceedsItsLimit`).
- The retry times of the limiter and of the direct admission can be up to a millisecond short
  (`RateLimiter.RetrySufficesExactlyWhen`, `RateLimiterRuns.RetryCanFallShort`,
  `Admission.DirectRetryFallsShortExactlyWhen`, `AdmissionRuns.DirectRetryCanFallShort`); the speech
  controller's is not.

## Model

| member | source | states |
|---|---|---|
| RelayStoreRuns.EveryRunKeepsInv | AI-Twin/relay/server.py:55-428 | Every run of the store, with requests, janitor passes, crashes and restarts in any order, keeps the seven-part invariant: rows and keys, quota, targets, disk, deliveries, lease history, pending sweeps. |
| RelayStoreRuns.EveryRunIsSafe | AI-Twin/relay/server.py:87-108 | In every state of every run: live sizes sum to at most the quota; a transfer is delivered exactly when all its deliveries are acked; one that is ready and not past its lifetime has a blob of exactly its size and digest. |
| RelayStoreRuns.OneLeaseAtATime | AI-Twin/relay/server.py:347-363 | Two different leases ever granted for one delivery are never valid at the same instant. |
| RelayStoreRuns.AckedWasServed | AI-Twin/relay/server.py:375-419 | An acked delivery was downloaded to the end under the very lease its row still carries; its transfer is delivered exactly when all other targets have acked. |
| RelayStoreRuns.ReceiptsAreFenced | AI-Twin/relay/server.py:398-428 | Only an acknowledgement under the row's own unexpired lease, after a complete download under it, makes a delivery acked; no step takes it back. |
| RelayStoreRuns.TerminalIsAbsorbing | AI-Twin/relay/server.py:87-108 | Expired, delivered and cancelled rows never change while they exist: no upload in flight can resurrect one. |
| RelayStoreHistory.FinishedStaysFinished | AI-Twin/relay/server.py:87-108 | Over a whole run, a row once expired, delivered or cancelled stays exactly as it is until it is deleted, and a deleted row never comes back. |
| RelayStoreHistory.EveryAckWasEarned | AI-Twin/relay/server.py:398-419 | Every delivery acked in some state of a run was acked by an earlier acknowledgement in that run, under the row's own unexpired lease and after a complete download under it. |
| RelayStoreHistory.AckedStaysAcked | AI-Twin/relay/server.py:398-428 | Over a whole run, a receipt once accepted stays exactly as it is until its row is deleted. |
| RelayStoreHistory.NoRowReturns | AI-Twin/relay/server.py:251-284 | No step brings back the row of an id that was reserved before and is gone. |
| RelayStoreRuns.RestartRepairs | AI-Twin/relay/server.py:55-84 | A crash at any point followed by a restart and one janitor pass leaves no part files, no half upload, and every ready transfer with its exact blob. |
| RelayStoreRuns.ReadyBlobsSurviveExactlyWhen | AI-Twin/relay/server.py:87-98 | "Every ready transfer has its blob" is false after a janitor pass that fails between unlinking and commit: it survives exactly when no ready row among the unlinked ones had expired. |
| RelayStoreHistory.ReadyBlobCanBeLost | AI-Twin/relay/server.py:87-98 | Such a run exists for any body that fits: reserved, uploaded, and an hour later unlinked by a pass that fails; every ready transfer had its blob before the pass and one lacks it after. |
| RelayStoreRuns.PushIsIdempotent | AI-Twin/relay/server.py:251-261 | A reservation under a key the device has used returns the stored transfer or a conflict and creates nothing. |
| RelayStoreRuns.ChunksAddUp | AI-Twin/relay/server.py:301-312 | The running size check lets every chunk through exactly when the whole body is not longer than declared, and what is held is then the whole body. |
| RelayStoreRuns.UploadPublishesExactlyTheReserved | AI-Twin/relay/server.py:287-333 | An uninterrupted upload becomes ready exactly when its chunks are the reserved size and digest, and the blob is those chunks. |
| RelayStoreSafety.CleanupKeepsInv | AI-Twin/relay/server.py:87-108 | A janitor pass, its record limits included, keeps the invariant. |
| RelayStoreSafety.InterruptedCleanupKeepsInv | AI-Twin/relay/server.py:87-103 | So does one that fails after having unlinked any of the files it meant to. |
| RelayStoreSafety.SweepKeepsInv | AI-Twin/relay/server.py:103-105 | So does the sweep of files without a row, however late it comes after the list of rows was read. |
| RelayStoreSafety.RecoverKeepsInv | AI-Twin/relay/server.py:55-84 | So does a restart from any crash. |
| RelayStoreSafety.ReserveKeepsInv | AI-Twin/relay/server.py:251-274 | So does every outcome of a reservation. |
| RelayStoreSafety.FinishInterruptedKeepsInv | AI-Twin/relay/server.py:314-333 | So does an upload cut off between renaming the part file and committing, by a crash or by an error. |
| RelayLeases.ClaimKeepsInv | AI-Twin/relay/server.py:347-363 | So does a claim: the lease it replaces has run out, and what was downloaded under it no longer counts. |
| RelayLeases.FinishDownloadKeepsInv | AI-Twin/relay/server.py:384-395 | So does the end of a download stream, also one opened under a lease that has since been replaced. |
| RelayLeases.AcknowledgeKeepsInv | AI-Twin/relay/server.py:398-419 | So does an acknowledgement, the last one of a transfer included. |
| RelayServer.Server.Initialize | AI-Twin/relay/server.py:78-84 | Starting up takes exactly the recovery step and then the janitor step. |
| RelayServer.Server.SweepOrphans | AI-Twin/relay/server.py:103-105 | The loop over the directory removes exactly the old files that no row of the pass knew. |
| RelayServer.Server.Cleanup | AI-Twin/relay/server.py:87-108 | The method's new state is the janitor step; the rows dropped for the record limit are exactly those beyond the newest. |
| RelayServer.Server.Reserve | AI-Twin/relay/server.py:251-274 | The method's new state and reply are those of the reservation step. |
| RelayServer.Server.BeginUpload | AI-Twin/relay/server.py:287-299 | The method that opens an upload takes exactly the opening step. |
| RelayServer.Server.ReceiveChunk | AI-Twin/relay/server.py:304-310 | The method that takes a chunk takes exactly the chunk step, an oversized body included. |
| RelayServer.Server.FinishUpload | AI-Twin/relay/server.py:311-333 | The method that ends an upload takes exactly the finishing step, refusals included. |
| RelayServer.Server.Upload | AI-Twin/relay/server.py:287-333 | The loop over the chunks ends in the state of the whole upload. |
| RelayServer.Server.Claim | AI-Twin/relay/server.py:347-363 | The method takes exactly the claim step. |
| RelayServer.Server.OpenDownload | AI-Twin/relay/server.py:375-383 | The method takes exactly the opening step of a download. |
| RelayServer.Server.FinishDownload | AI-Twin/relay/server.py:384-395 | The method sets the downloaded flag of exactly the stream's own delivery, and exactly when its row still carries the lease the stream was opened with. |
| RelayServer.Server.Acknowledge | AI-Twin/relay/server.py:398-419 | The method takes exactly the acknowledgement step. |
| RelayServer.Server.Release | AI-Twin/relay/server.py:422-428 | The method takes exactly the release step. |
| RelayServer.LiveUsage | AI-Twin/relay/server.py:262-263 | The loop computes the sum and the number of live sizes. |
| RelayServer.BeyondLimit | AI-Twin/relay/server.py:99-101 | The loop finds the completed rows beyond the newest `limit`: none kept is older than one dropped. |
| RelayStoreAnswers.ReservedExactlyWhen | AI-Twin/relay/server.py:251-274 | A new request is taken exactly when bytes, rows and disk have room, with the reason of a refusal; it then has its row, its key and one free delivery for each target. |
| RelayStoreAnswers.KnownExactlyWhen | AI-Twin/relay/server.py:253-261 | A request under a used key returns the stored transfer exactly when it is the same request. |
| RelayStoreAnswers.UploadOpensExactlyWhen | AI-Twin/relay/server.py:287-299 | An upload is opened exactly for the sender of a row that waits for one. |
| RelayStoreAnswers.ChunkKeptExactlyWhen | AI-Twin/relay/server.py:304-310 | A chunk is kept exactly while the body is not longer than declared. |
| RelayStoreAnswers.PublishedExactlyWhen | AI-Twin/relay/server.py:311-333 | A body becomes ready exactly when size, digest and row are as they should be; each refusal names what failed and makes the upload possible again. |
| RelayStoreAnswers.AbortedCanRetry | AI-Twin/relay/server.py:329-333 | After an aborted upload the sender can open it again at once. |
| RelayStoreAnswers.GrantedExactlyWhen | AI-Twin/relay/server.py:347-363 | A claim is granted exactly to a target of a ready transfer in its lifetime whose delivery is neither confirmed nor held; for fifteen minutes or to the end of the lifetime. |
| RelayStoreAnswers.OpenedExactlyWhen | AI-Twin/relay/server.py:366-383 | A stream is opened exactly for the holder of the lease in time, and carries the declared content. |
| RelayStoreAnswers.CountedExactlyWhen | AI-Twin/relay/server.py:384-395 | A download is counted exactly when it was streamed to its end under the lease the row still carries. |
| RelayStoreAnswers.ConfirmedExactlyWhen | AI-Twin/relay/server.py:398-415 | A receipt is accepted exactly from the holder of the lease with the right digest and, if it is the first, in time and after a counted download. |
| RelayStoreAnswers.ConfirmedAs | AI-Twin/relay/server.py:406-419 | The first receipt of a target confirms its delivery and completes the transfer exactly when all other targets have confirmed. |
| RelayStoreAnswers.DeliveryGoesThrough | AI-Twin/relay/server.py:347-419 | In every state with the invariant, a target of a ready transfer that claims it, downloads it to the end and confirms it in time is granted, served and confirmed; the transfer is delivered exactly when all other targets are confirmed. |
| RelayStoreAnswers.ReleasedExactlyWhen | AI-Twin/relay/server.py:422-428 | A lease is given back exactly by its holder, and an unconfirmed delivery can be claimed again at once. |
| RelayStoreAnswers.InboxIsClaimable | AI-Twin/relay/server.py:336-345 | The inbox lists exactly the transfers a claim at that instant is granted. |
| RelayStoreAnswers.CleanedUp | AI-Twin/relay/server.py:87-101 | For each row, what one janitor pass makes of it: expired exactly when live and over, gone exactly when finished and too old or beyond the limit, otherwise as it was. |
| RelayStoreAnswers.LatestAreKept | AI-Twin/relay/server.py:99-101 | Of the completed rows as many as the limit allows are kept, and none of them is older than one that goes. |
| RelayStoreAnswers.SweptFiles | AI-Twin/relay/server.py:103-105 | The pass over the directory removes exactly the old files no row had. |
| RelayStoreAnswers.RestartedRows | AI-Twin/relay/server.py:55-84 | A restart turns exactly the cut-off uploads back and leaves every other row, its deliveries and its file alone. |
| RelayServer.Server.Inbox | AI-Twin/relay/server.py:336-345 | The loop returns exactly the ids of the inbox. |
| RelayBackend.SurvivesExactlyWhen | AI-Twin/backend/app/relay_import.py:144-170 | Under the joined connection a write of the callback is left exactly when no rollback comes after it. |
| RelayBackend.EffectIsSurvivingWrites | AI-Twin/backend/app/relay_import.py:144-170 | The net effect of any nesting of begin, write, commit and rollback is that of the surviving writes in order. |
| RelayBackend.AcceptedMayHaveWrittenNothing | AI-Twin/backend/app/storage.py:4780-4805 | `ok=true` does not mean the event row exists: a concrete callback whose inner rollback has undone it. |
| RelayBackend.EachMessageTakesEffectOnce | AI-Twin/backend/app/storage.py:1200-1234 | In every run the business state is the fold of the committed operations; a key is committed at most once, exactly when it has a receipt, and the receipt is that operation's. |
| RelayBackend.ReplayChangesNothing | AI-Twin/backend/app/storage.py:1207-1218 | A stored message with the same hash returns the identical response without the callback; another hash is a conflict; neither changes anything. |
| RelayBackend.ReceiptsAreFinal | AI-Twin/backend/app/relay_import.py:76-141 | A receipt never changes, and one with ok=false leaves the business tables as before the callback. |
| RelayBackend.Repository.AtomicRelayRequest | AI-Twin/backend/app/storage.py:1200-1234 | The method, action by action on the joined connection, ends in the state and outcome of the transaction. |
| RelayBackend.KeptFits | AI-Twin/backend/app/relay_import.py:43-60 | The snapshot's greedy choice keeps records in order and within the budget. |
| RelayBackend.LeftOutDidNotFit | AI-Twin/backend/app/relay_import.py:43-60 | A record it leaves out did not fit behind those kept before it. |
| RelayBackend.KeepRecords | AI-Twin/backend/app/relay_import.py:43-60 | The loop keeps exactly the greedy choice of the first 100 records, with the exact remainder and truncation flag. |
| RelayAnswers.NewMessageRunExactlyWhen | AI-Twin/backend/app/storage.py:1200-1234 | A new message runs its callback exactly when the account may be written; what then stays of it, and the receipt, are those of its outcome. |
| RelayAnswers.ClosedAccount | AI-Twin/backend/app/storage.py:1200-1206 | An account that may not be written is answered nothing, not even a replay. |
| RelayAnswers.SpentIsSizesAndCommas | AI-Twin/backend/app/relay_import.py:43-60 | A group of kept records takes the sum of their sizes and a comma for each. |
| RelayBridge.QueuedIsInTheInbox | AI-Twin/relay/bridge.py:117-145 | An arrival is marked queued exactly when it is an acceptable request that the inbox then holds under its own digest. |
| RelayBridge.SavedKeeps | AI-Twin/relay/bridge.py:117-145 | Saving an arrival forgets no arrival, replaces no request and changes no recorded answer or attempt count downwards. |
| RelayBridge.Bridge.Save | AI-Twin/relay/bridge.py:117-145 | The callback of a pull takes exactly the saving step; a new file of the application from an unpaired device is put aside. |
| RelayBridge.Bridge.Process | AI-Twin/relay/bridge.py:147-174 | The loop offers every pending message once and records exactly the fitting answers; its count is the number recorded. |
| RelayBridge.Bridge.Send | AI-Twin/relay/bridge.py:176-222 | One row of the reply loop: polls the earlier transfer and pushes again only when there is none left to wait for. |
| RelayClient.Archive.Receive | AI-Twin/relay/client.py:153-181 | Block by block, a download enters the archive exactly when size and digest are those of the claim; the partial file never stays. |
| RelayDelivery.EveryRunKeepsInv | AI-Twin/relay/bridge.py:85-258 | Store, archive, bridge and backend together keep their joint invariant in every run, with lost, late and doubled receipts and bridge crashes anywhere. |
| RelayDelivery.NoAcknowledgedMessageIsLost | AI-Twin/relay/client.py:182-207 | A delivery acked for the bridge's device has its row in the bridge's tables and its exact content in the archive; if taken for a message, the inbox holds it under its digest. |
| RelayDelivery.InboxIsDurable | AI-Twin/relay/bridge.py:117-145 | No step of the whole relay forgets an arrival, replaces a request or changes a recorded answer. |
| RelayDelivery.RecordedAnswersTookEffectOnce | AI-Twin/relay/bridge.py:147-174 | Over a whole run the account is the fold of its committed transactions, and a message whose recorded answer is not the bridge's own refusal is one of them, exactly once. |
| RelayDelivery.BackendSeesTransactions | AI-Twin/relay/bridge.py:49-58 | The backend sees nothing of a run but the transactions the bridge asked for and local changes, in order. |
| RelayDelivery.DeliveredRepliesReachedTheirDevice | AI-Twin/relay/bridge.py:176-222 | A reply counted as delivered was downloaded to the end and confirmed by the requester, byte for byte the recorded answer. |
| RelayAnswers.OnlyRequestsAreTakenIn | AI-Twin/relay/bridge.py:117-128 | A new file of another project or category is put on record only; one from an unpaired device, too large or not a request of its sender is put aside; nothing else changes. |
| RelayAnswers.RequestTakenInAs | AI-Twin/relay/bridge.py:117-145 | A request of a paired device under a new id enters the inbox; the same again keeps its entry and asks for its reply again once it had arrived; another body under its id is a conflict that leaves the inbox alone. |
| RelayAnswers.InboxIsFromPeers | AI-Twin/relay/bridge.py:117-145 | In every state of every run of the whole relay, whatever is in the inbox came from a paired device. |
| RelayAnswers.AnswerRecordedExactlyWhen | AI-Twin/relay/bridge.py:156-174 | An answer is recorded exactly when it comes from this device, to this message, about its operation. |
| RelayAnswers.TakenForAnswer | AI-Twin/relay/bridge.py:147-156 | A body is taken as it is, four status codes as a refusal of the bridge's own, and every other failure leaves the message pending. |
| RelayAnswers.ProcessedAs | AI-Twin/relay/bridge.py:147-174 | A round records an answer exactly for the pending messages that were given a fitting one. |
| RelayAnswers.PolledAs | AI-Twin/relay/bridge.py:183-199 | Delivered is done; expired, cancelled or over asks for another attempt; anything else waits. |
| RelayAnswers.PushedAs | AI-Twin/relay/bridge.py:200-222 | A pushed transfer that is already over asks for another attempt, any other is the one to wait for. |
| RelayAnswers.SentAs | AI-Twin/relay/bridge.py:176-222 | A reply whose transfer waits is left alone; any other that is not delivered is pushed, under a new attempt if the earlier one is over. |
| RelayAnswers.ReplyReservedAs | AI-Twin/relay/bridge.py:200-213 | A reply is reserved for the sender of the message alone, with the recorded bytes, under a key made from reply, attempt and sender. |
| RelayAnswers.FetchedExactlyWhen | AI-Twin/relay/client.py:139-181 | A body is kept in the archive exactly when it has the claimed digest and, unless the file is there already, the claimed size. |
| RelayAnswers.RequestIsQueued | AI-Twin/relay/client.py:118-193 | A request that a paired device left ready in the store is claimed, fetched and queued. |
| RelayAnswers.RequestIsConfirmed | AI-Twin/relay/client.py:182-207 | Once in the tables, its receipt is sent, and confirmed if the download ended and the lease still lasts. |
| RelayAnswers.RequestIsAnswered | AI-Twin/relay/bridge.py:147-174 | A queued message that the backend accepts takes effect, and its answer is recorded with a reply due. |
| RelayAnswers.RepeatIsAnswered | AI-Twin/backend/app/storage.py:1207-1218 | A message sent again is answered from its receipt in the same canonical form and refused in another; neither runs anything. |
| RelayAnswers.ReplyIsSent | AI-Twin/relay/bridge.py:200-222 | A reply that is due is reserved in the store when there is room. |
| RelayAnswers.ReplyIsFollowed | AI-Twin/relay/bridge.py:183-199 | A reply is taken for delivered exactly when the store says its transfer is, and is due again exactly when that is gone, expired, cancelled or past its lifetime. |
| BudgetWindow.ReleaseIsExact | AI-Twin/backend/app/storage.py:3719-3734 | When the row found by the prefix loop leaves the window there is room, and at no instant before. |
| BudgetWindow.ReleaseInstant | AI-Twin/backend/app/storage.py:3723-3733 | The loop answers nothing exactly when the request fits now, else the first instant it fits; it always finds its row. |
| BudgetWindow.BudgetDeferUntil | AI-Twin/backend/app/storage.py:3699-3734 | None exactly when the request fits both windows now; otherwise one second past the first instant at which it fits, or the fixed wait when no waiting can help. |
| BudgetWindow.DeferralIsUnique | AI-Twin/backend/app/storage.py:3699-3734 | No other instant meets that description. |
| AnalysisSafety.TableIsEnough | AI-Twin/backend/app/storage.py:3763-3822 | What the pruned usage tables show of a window is everything ever charged in it. |
| AnalysisSafety.AdmittedWindowHolds | AI-Twin/backend/app/storage.py:3750-3822 | A charge that fits the window ending now keeps every window, past and future, within the limit. |
| AnalysisRuns.EveryRunKeepsInv | AI-Twin/backend/app/storage.py:3279-3610 | Every run of claims, calls, settlements, completions, retries and direct calls keeps ledger order, fences, counts and budgets. |
| AnalysisRuns.BudgetHoldsAtEveryInstant | AI-Twin/backend/app/storage.py:3750-3885 | At every instant of every run the trailing hour and day of the service and of each tenant, on the complete history, are within their limits: of each scope that both claims and direct calls check, whatever the other scope is, and within the larger limit where the two differ. |
| AnalysisRuns.ChargesNeverRise | AI-Twin/backend/app/storage.py:4303-4388 | A charge keeps owner and instant, never rises after admission, and is final once settled. |
| AnalysisRuns.StaleWorkerIsFenced | AI-Twin/backend/app/storage.py:4390-4459 | A worker whose attempt is not the latest can record no call and neither complete nor retry the job. |
| AnalysisRuns.ReclaimedWorkerCannotSpend | AI-Twin/backend/app/storage.py:3655-3697 | Once a global check has run after its lease expired, a worker can record no further call. |
| AnalysisRuns.CallsPerEventAreBounded | AI-Twin/backend/app/storage.py:4303-4316 | The provider calls recorded for one event total at most twice the maximum of attempts. |
| AnalysisRuns.OneStepOnJob | AI-Twin/backend/app/storage.py:3560-3572 | A step keeps a job's attempts except for a granted lease, which uses exactly one; published and closed jobs never change. |
| AnalysisRuns.ClaimsAreCounted | AI-Twin/backend/app/storage.py:3560-3568 | Over any run the leases granted for a job are its attempts, and at most the maximum. |
| AnalysisStore.Queue.Usage | AI-Twin/backend/app/storage.py:3780-3803 | The rows read for a budget are the charges in the order of their instants. |
| AnalysisStore.Queue.Pick | AI-Twin/backend/app/storage.py:3509-3520 | The search returns a due job that none precedes, or none when none is due. |
| AnalysisStore.Queue.ReserveGlobal | AI-Twin/backend/app/storage.py:3750-3822 | Sweep, settlement, pruning and answer of the global check. |
| AnalysisStore.Queue.ReserveTenant | AI-Twin/backend/app/storage.py:3828-3885 | Settlement, pruning and answer of the tenant's check. |
| AnalysisStore.Queue.Claim | AI-Twin/backend/app/storage.py:3416-3625 | The method takes exactly the claim step, with the choice it made, and returns the leased job and its reservation. |
| AnalysisStore.Queue.DirectCall | AI-Twin/backend/app/storage.py:4132-4251 | The method charges a direct call exactly when both budgets have room. |
| AnalysisStore.Queue.Record | AI-Twin/backend/app/storage.py:4303-4316 | The method records a call exactly when the reservation is unsettled and not used up. |
| AnalysisStore.Queue.Settle | AI-Twin/backend/app/storage.py:4318-4388 | The method settles the reservation and wakes the jobs waiting for the released room. |
| AnalysisStore.Queue.NextWaiting | AI-Twin/backend/app/storage.py:4370-4382 | The one job woken for global room waits for it, and none that waits comes before it by priority, due time or age. |
| AnalysisStore.Queue.Complete | AI-Twin/backend/app/storage.py:4390-4427 | The method closes the job exactly for the worker holding it: as published if it says so, without intervention otherwise, with the reason it gives. |
| AnalysisStore.Queue.RetryOrFail | AI-Twin/backend/app/analysis_queue.py:458-479 | Backoff by doubling up to an hour, or closing after the last attempt. |
| AnalysisStore.Queue.Attempt | AI-Twin/backend/app/analysis_queue.py:63-106 | The gateway makes as many provider attempts as wanted and still reserved, each recorded before it is made. |
| AnalysisStore.Queue.Process | AI-Twin/backend/app/analysis_queue.py:209-269 | A claim processed undisturbed records exactly the attempts made, none if a preference blocks it; the job ends as the verdict says (answered, refused for good, tried again or closed at the last attempt); the reservation is settled in any case. |
| AnalysisStore.Queue.Enqueue | AI-Twin/backend/app/storage.py:3279-3357 | A job is created once; an open one is only raised in priority, approval and kind. |
| AnalysisAnswers.CompletedExactlyWhen | AI-Twin/backend/app/storage.py:4390-4427 | Only the holder of the lease ends a job, as published exactly when it says so and without intervention otherwise, for the reason it gives. |
| AnalysisAnswers.RetriedExactlyWhen | AI-Twin/backend/app/analysis_queue.py:446-479 | Only the holder gives a job back: tried again after the backoff while an attempt is left, closed as exhausted otherwise. |
| AnalysisAnswers.BackoffDoubles | AI-Twin/backend/app/analysis_queue.py:458-469 | The wait doubles with each attempt up to the ninth, within an hour. |
| AnalysisAnswers.FinishedAs | AI-Twin/backend/app/analysis_queue.py:209-269 | A held job ends as published only for an answer that says so with every wanted attempt recorded; blocked, refused for good or at its last attempt it ends without intervention; otherwise it is tried again. |
| AnalysisAnswers.PicksWhatWaits | AI-Twin/backend/app/storage.py:3509-3525 | Whenever a job may be taken one is; never one behind another by priority, then age of the event, then age of the job. |
| AnalysisAnswers.LeasedExactlyWhen | AI-Twin/backend/app/storage.py:3521-3625 | The chosen job is leased exactly when neither budget puts it off, as its next attempt, and two calls are charged in advance if there is any limit. |
| AnalysisAnswers.PutOffExactlyWhen | AI-Twin/backend/app/storage.py:3521-3559 | Which budget puts a job off, until when, and that nothing is charged. |
| AnalysisAnswers.DeferredRows | AI-Twin/backend/app/storage.py:3627-3653 | A budget without room puts off exactly the account's jobs that are due. |
| AnalysisAnswers.ReclaimedRows | AI-Twin/backend/app/storage.py:3443-3506 | Exactly the run-out leases go back, and what has used its attempts up is closed. |
| AnalysisAnswers.ChecksTakeBack | AI-Twin/backend/app/storage.py:3443-3508 | After the checks no run-out lease is left in their scope, and no waiting job of the account that is exhausted or too old. |
| AnalysisAnswers.RetiredRows | AI-Twin/backend/app/storage.py:3373-3414 | Exactly the searches that wait too long are closed, with the age for their priority. |
| AnalysisAnswers.EnqueuedJob | AI-Twin/backend/app/storage.py:3279-3357 | A new job waits without an attempt used; an open one gains at most approval, priority and a given problem; a job at work or done is left alone. |
| AnalysisAnswers.RecheckedRows | AI-Twin/backend/app/storage.py:4520-4540 | Looking again makes exactly the jobs that wait for a budget due. |
| AnalysisAnswers.RecordedExactlyWhen | AI-Twin/backend/app/storage.py:4303-4316 | A call is recorded exactly on an unsettled reservation with one of its two calls left. |
| AnalysisAnswers.SettledRows | AI-Twin/backend/app/storage.py:4318-4388 | Settling closes the worker's own reservation; exactly if that gives capacity back, the account's waiting jobs and the chosen one become due. |
| AnalysisAnswers.AbandonedAreSettled | AI-Twin/backend/app/storage.py:3655-3679 | Exactly the reservations whose worker is gone are settled before a budget is counted. |
| AnalysisAnswers.OldAreForgotten | AI-Twin/backend/app/storage.py:3763-3772 | Exactly the settled charges older than eight days leave the tables, direct ones by the global check only. |
| AnalysisAnswers.GrantedExactlyWhen | AI-Twin/backend/app/storage.py:4132-4251 | A direct call is granted exactly when it fits every limit there is. |
| AnalysisAnswers.HopelessWait | AI-Twin/backend/app/storage.py:3699-3718 | A request that could never fit waits an hour or a day, and a second. |
| AttentionRuns.EveryRunKeepsInv | AI-Twin/backend/app/storage.py:4911-5293 | Every run of publications, sweeps, claims, confirmations, failures and feedback, by any devices, keeps the invariant of the attention tables. |
| AttentionSafety.SweepKeepsInv | AI-Twin/backend/app/storage.py:1944-2052 | A sweep keeps it and uses no permit. |
| AttentionSafety.CloseKeepsInv | AI-Twin/backend/app/storage.py:1980-2052 | Closing due reminders writes the negative signal only where the invariant allows it. |
| AttentionPromises.AtMostTwoPermits | AI-Twin/backend/app/storage.py:4911-5070 | Over any run and any set of devices an advice is given out at most twice, and the number of times is the row's count. |
| AttentionPromises.PermitsAreAttempts | AI-Twin/backend/app/storage.py:5046-5060 | The attempts of an advice are as many as its count, with the numbers 1 to count, each once. |
| AttentionPromises.ClaimedWhileOneIsOpen | AI-Twin/backend/app/storage.py:5025-5062 | A row is claimed exactly while one attempt of it is open, and that one has the row's token, device, expiry and number. |
| AttentionPromises.OneDevicePerPermit | AI-Twin/backend/app/storage.py:5072-5199 | No two tokens have confirmed the same permit. |
| AttentionPromises.StaleDeviceIsFenced | AI-Twin/backend/app/storage.py:5084-5126 | A device whose permit is not the latest changes nothing by confirming or failing. |
| AttentionPromises.OneStepOnRow | AI-Twin/backend/app/storage.py:1788-1822 | Any step leaves a resolved row exactly as it is, uses a permit only by giving it out, and never reopens an ended attempt. |
| AttentionPromises.ResolvedIsAbsorbing | AI-Twin/backend/app/storage.py:1788-1822 | A reminder once resolved stays exactly as it is for the rest of every run. |
| AttentionPromises.SweepIsThorough | AI-Twin/backend/app/storage.py:1944-2052 | A sweep leaves no expired active advice, no lease that has run out, no due reminder, and bounds every open reminder by its deadline. |
| AttentionPromises.SweepIsIdempotent | AI-Twin/backend/app/storage.py:1944-2052 | A second sweep at the same instant finds nothing and changes nothing. |
| AttentionPromises.SilenceIsEarned | AI-Twin/backend/app/storage.py:1980-2052 | The automatic signal is written at most once per advice, only after both permits were confirmed displayed and with no user feedback at all since publication, not even "later". |
| AttentionPromises.SilenceIsTotalExactlyWhen | AI-Twin/backend/app/storage.py:6152-6322 | No feedback at all precedes the signal exactly when none was given on the draft, where only guidance is accepted. |
| AttentionPromises.GuidanceOnADraftIsForgotten | AI-Twin/backend/app/storage.py:6203-6247 | A concrete run: guidance recorded on a draft, two silent displays, and the signal is written all the same. |
| AttentionPromises.GuardedSilenceIsTotal | AI-Twin/backend/app/relay_import.py:104-110 | With the callers' check that the advice is not a draft, no feedback of any kind ever precedes the signal. |
| AttentionBoard.Board.Resolve | AI-Twin/backend/app/storage.py:1788-1822 | The method resolves the row and cancels its open attempt. |
| AttentionBoard.Board.ExpireDeadlines | AI-Twin/backend/app/storage.py:1878-1942 | Advice by advice, the loop withdraws what has expired and bounds the rest. |
| AttentionBoard.Board.LapseLeases | AI-Twin/backend/app/storage.py:1944-1978 | Row by row, the loop gives up leases that ran out and resolves spent "later" reminders. |
| AttentionBoard.Board.CloseDue | AI-Twin/backend/app/storage.py:1980-2052 | Row by row, the loop closes due reminders, with a signal only after two displays. |
| AttentionBoard.Board.Sweep | AI-Twin/backend/app/storage.py:5277-5293 | The method takes exactly the sweeping step. |
| AttentionBoard.Board.Choose | AI-Twin/backend/app/storage.py:4974-5000 | The search returns a candidate none precedes, or none when there is none. |
| AttentionBoard.Board.Claim | AI-Twin/backend/app/storage.py:4911-5070 | The method takes exactly the claim step and returns the advice with its permit number. |
| AttentionBoard.Board.Complete | AI-Twin/backend/app/storage.py:5072-5199 | The method takes exactly the confirming step, its replays and refusals included. |
| AttentionBoard.Board.Fail | AI-Twin/backend/app/storage.py:5201-5275 | The method takes exactly the failing step. |
| AttentionBoard.Board.Feedback | AI-Twin/backend/app/storage.py:6152-6322 | The method takes exactly the feedback step, its duplicates and refusals included; recorded adoption is stored as adopted, recorded rejection as dismissed. |
| AttentionAnswers.RecordedExactlyWhen | AI-Twin/backend/app/storage.py:6152-6247 | Which feedback is recorded, which is answered as known and which refused, by the state of the advice, the quotas and what was said before. |
| AttentionAnswers.RecordedAs | AI-Twin/backend/app/storage.py:6263-6299 | Recorded adoption makes the advice adopted, each of the six kinds of rejection dismisses it, the rest leave it as it was; no other advice changes. |
| AttentionAnswers.SignsAfter | AI-Twin/backend/app/storage.py:6248-6322 | Only "irrelevant" leaves a sign of interest, once and at full weight. |
| AttentionAnswers.ReminderAfter | AI-Twin/backend/app/storage.py:1824-1876 | "Later", with a permit and time left, moves the reminder four hours on within the prediction; every other answer, and "later" without, ends it. |
| AttentionAnswers.ResolvedTogether | AI-Twin/backend/app/storage.py:1788-1822 | Ending a reminder ends exactly the open attempt it was claimed under. |
| AttentionAnswers.PicksWhatIsReady | AI-Twin/backend/app/storage.py:4974-5004 | A device gets a permit whenever a reminder may be shown, never for a lower level or, among equals, a newer advice. |
| AttentionAnswers.PermitGiven | AI-Twin/backend/app/storage.py:5001-5070 | The permit given is the advice's next, the device's own, for fifteen minutes, with the time of the second reminder or of closing within the prediction. |
| AttentionAnswers.NoPermitGiven | AI-Twin/backend/app/storage.py:4967-5004 | While everything is paused, or nothing may be shown, a claim is only a sweep. |
| AttentionAnswers.DisplayedExactlyWhen | AI-Twin/backend/app/storage.py:5072-5199 | A display is confirmed exactly by the holder of an unexpired permit or as a replay; what else it changes, answer by answer. |
| AttentionAnswers.GivenUpExactlyWhen | AI-Twin/backend/app/storage.py:5201-5275 | A permit is given up exactly by its holder or as a replay; the permit stays used. |
| AttentionAnswers.ExpiredAdvice | AI-Twin/backend/app/storage.py:1878-1942 | Exactly the active advice past its deadline is withdrawn with its reminder; the others are bounded by theirs. |
| AttentionAnswers.LapsedRow | AI-Twin/backend/app/storage.py:1944-1978 | Exactly the permits run out are lost; the reminder waits or, spent and put off, ends. |
| AttentionAnswers.ClosedRow | AI-Twin/backend/app/storage.py:1980-2052 | A reminder is closed exactly when its hour has passed; the advice is dismissed, with a weak sign, exactly if both displays were confirmed. |
| AttentionAnswers.PublishedRow | AI-Twin/backend/app/storage.py:1706-1732 | Published advice gets a reminder that waits to be shown exactly if it is urgent. |
| AttentionAnswers.DraftsComeAndGo | AI-Twin/backend/app/storage.py:4854-4905 | Exactly drafts are promoted and discarded. |
| AttentionAnswers.WithdrawnAdvice | AI-Twin/backend/app/storage.py:4684-4733 | Expiry outside a sweep withdraws exactly the active advice past its deadline, and no reminder. |
| RateLimiter.PoppedIsLiveExactlyWhen | AI-Twin/backend/app/abuse_controls.py:198-208 | Popping expired hits off the front leaves exactly the live ones if and only if no expired hit stands behind a live one. |
| RateLimiter.RollingWindowLimiter.Reserve | AI-Twin/backend/app/abuse_controls.py:210-267 | For any windows, the decision with its retry time is the one recomputed from everything ever admitted by taking expired hits off the front, so it does not depend on the sweeps; a refusal adds no hit on any key. |
| RateLimiter.LazyIsExactExactlyWhen | AI-Twin/backend/app/abuse_controls.py:198-232 | What is left after that is exactly what has not expired, for all keys, if and only if no key has an expired hit behind a live one. |
| RateLimiter.RollingWindowLimiter.SweepExpired | AI-Twin/backend/app/abuse_controls.py:198-208 | A forced sweep leaves exactly what cannot be taken off the front; any sweep keeps the total equal to the sum of the deques, which stay non-empty. |
| RateLimiter.RollingWindowLimiter.LongestWait | AI-Twin/backend/app/abuse_controls.py:225-242 | The loop over the requested keys finds the longest wait of a blocked key, or none. |
| RateLimiter.RollingWindowLimiter.CheckCapacity | AI-Twin/backend/app/abuse_controls.py:243-262 | Both capacity checks refuse exactly when the keys or hits left exceed the limits. |
| RateLimiter.RollingWindowLimiter.Clear | AI-Twin/backend/app/abuse_controls.py:269-273 | Clearing a key forgets its history and keeps the total right. |
| RateLimiter.DecisionIsUnique | AI-Twin/backend/app/abuse_controls.py:210-267 | The decision is a function of what is left. |
| RateLimiter.NormalizedIsStrictest | AI-Twin/backend/app/abuse_controls.py:217-222 | Of several limits for one key the strictest holds, and none is below one. |
| RateLimiter.RetryIsClose | AI-Twin/backend/app/abuse_controls.py:236-240 | The reported wait r for x seconds satisfies x - 0.001 < r, and r < x + 1 or r is 1. |
| RateLimiter.RetrySufficesExactlyWhen | AI-Twin/backend/app/abuse_controls.py:236-240 | Beyond a second it is long enough unless x ends within the first millisecond of a second. |
| RateLimiter.BlockEndsExactlyWhen | AI-Twin/backend/app/abuse_controls.py:226-242 | A key exactly at its limit is blocked until its first live hit expires and no longer. |
| RateLimiterRuns.EveryDecisionIsEager | AI-Twin/backend/app/abuse_controls.py:210-267 | With an unchanging window every decision of every run, its retry time included, is that of a limiter that keeps exactly the unexpired hits. |
| RateLimiterRuns.NoKeyExceedsItsLimit | AI-Twin/backend/app/abuse_controls.py:210-267 | However the windows change, no state of any run has more unexpired hits of a key than its limit. |
| RateLimiterRuns.NoWindowOverflows | AI-Twin/backend/app/abuse_controls.py:210-267 | Between clears no window of the limiter's length, wherever it lies, holds more admitted hits of a key than its limit. |
| RateLimiterRuns.ShorterWindowMiscounts | AI-Twin/backend/app/abuse_controls.py:198-232 | A run with a long and then a short window: an expired hit hidden behind a live one is counted, and a request is refused that exact counting allows. |
| RateLimiterRuns.RetryCanFallShort | AI-Twin/backend/app/abuse_controls.py:236-240 | A run under one window in which a refused caller comes back exactly when told to and is refused again. |
| RateLimiterAnswers.AllowedExactlyWhen | AI-Twin/backend/app/abuse_controls.py:210-267 | A request is allowed exactly when each of its keys has fewer counted hits than its limit and the table has room for its keys and hits. |
| RateLimiterAnswers.AdmittedHits | AI-Twin/backend/app/abuse_controls.py:263-267 | An allowed request adds one hit to each of its keys and to no other. |
| RateLimiterAnswers.ToldWaitFrees | AI-Twin/backend/app/abuse_controls.py:225-242 | After the told wait, and a millisecond, every key that refused has lost a hit; some key refuses until less than a second before. |
| RateLimiterAnswers.ToldCapacityWait | AI-Twin/backend/app/abuse_controls.py:188-196 | A request the table cannot take is told the first expiry of all, to the second, or one second. |
| Admission.Controller.Acquire | AI-Twin/backend/app/stt_admission.py:124-239 | Every verdict, its retry instant included, is the one the never-pruned history gives; a request refused for concurrency still counts against the window; whoever is not exempt and not refused holds a lease. |
| Admission.Controller.Release | AI-Twin/backend/app/stt_admission.py:241-273 | A release is accepted only for a lease not yet released, and always for an active one. |
| Admission.Controller.Prune | AI-Twin/backend/app/stt_admission.py:342-363 | Pruning drops nothing that can still matter. |
| Admission.OldestPruned | AI-Twin/backend/app/stt_admission.py:156-171 | The oldest request the pruned table shows is the oldest there was in the window. |
| Admission.SpeechRetrySuffices | AI-Twin/backend/app/stt_admission.py:384-385 | The speech controller's retry time is the wait rounded up to whole seconds. |
| Admission.DirectRetryFallsShortExactlyWhen | AI-Twin/backend/app/storage.py:3994-4004 | The direct admission's retry falls short by less than a millisecond, exactly when the wait ends within the first millisecond of a second. |
| AdmissionRuns.DirectRetryCanFallShort | AI-Twin/backend/app/storage.py:3994-4004 | A run in which a refused caller of the direct admission comes back exactly when told to and is refused again. |
| AdmissionRuns.CapsHoldAtEveryInstant | AI-Twin/backend/app/storage.py:4026-4102 | At no instant of any run were more leases held, per user or in all, than the caps, nor more requests counted in any window. |
| AdmissionRuns.ReleasedAtMostOnce | AI-Twin/backend/app/storage.py:4105-4130 | Over any run a lease is released at most once. |
| AdmissionRuns.RetrySuffices | AI-Twin/backend/app/stt_admission.py:163-226 | When the instant a refusal names has come and nothing was admitted since, the limit that refused has room. |
| AdmissionAnswers.AdmittedExactlyWhen | AI-Twin/backend/app/stt_admission.py:124-239 | A request passes exactly when the account is not retired, its window has room and, unless it is exempt, both caps have; one that is not exempt then holds the lease it is given, an exempt one leaves the leases alone. |
| AdmissionAnswers.ReasonIsTrue | AI-Twin/backend/app/stt_admission.py:156-226 | A refusal gives the first of its reasons that holds, and exactly what got past the window is counted in it. |
| AdmissionAnswers.RetryIsNoLater | AI-Twin/backend/app/stt_admission.py:163-226 | With nothing admitted or released meanwhile the limit goes on refusing until the instant named. |
| AdmissionAnswers.AdmittedAreHeld | AI-Twin/backend/app/storage.py:4048-4102 | In every state of a run, each request admitted that is not exempt has its lease on record, and while it runs it is among those the caps bound. |
| AdmissionAnswers.AdmittedAreDistinct | AI-Twin/backend/app/storage.py:4076-4102 | Each such request has a lease of its own. |
| LocalizationRuns.EveryRunKeepsInv | AI-Twin/backend/app/storage.py:5295-5683 | Every interleaving of revisions, claims, expiries, completions and failures keeps rows, claims and attempts in agreement. |
| LocalizationRuns.DisplayedIsCurrent | AI-Twin/backend/app/storage.py:5748-5788 | A translation that is displayed was accepted for exactly the source the advice has now, under a claim for that source. |
| LocalizationRuns.TriesAreBounded | AI-Twin/backend/app/storage.py:5397-5560 | No version of a source is given to workers more often than the maximum; the row's counter is the number of its claims. |
| LocalizationRuns.RunningRowIsFenced | AI-Twin/backend/app/storage.py:5562-5683 | A running row changes only by the worker holding it, by its lease running out, or by its source being revised or deleted. |
| LocalizationRuns.StaleWorkerPublishesNothing | AI-Twin/backend/app/storage.py:5588-5636 | A worker without the lease, or whose source was revised, publishes nothing. |
| LocalizationCache.RoundsKeepInv | AI-Twin/backend/app/storage.py:5453-5557 | The up to 32 rounds of a claim keep the invariant. |
| LocalizationCache.Cache.Claim | AI-Twin/backend/app/storage.py:5397-5560 | The loop takes in each round the due row that comes first and stops at the first lease, at none due, or after 32 rounds. |
| LocalizationCache.Cache.Pick | AI-Twin/backend/app/storage.py:5454-5470 | The search returns a due row none precedes, or none when none is due. |
| LocalizationCache.Cache.EnqueueAll | AI-Twin/backend/app/storage.py:5329-5378 | The loop queues every published advice of the account. |
| LocalizationCache.Cache.Upsert | AI-Twin/backend/app/storage.py:5295-5327 | The method takes exactly the upsert step. |
| LocalizationCache.Cache.Complete | AI-Twin/backend/app/storage.py:5562-5636 | The method takes exactly the completing step. |
| LocalizationCache.Cache.Fail | AI-Twin/backend/app/storage.py:5638-5683 | The method takes exactly the failing step. |
| LocalizationAnswers.ClaimedExactlyWhen | AI-Twin/backend/app/storage.py:5453-5557 | A round gives a claim out exactly when the day's budget has room, the source is foreign and the row has an attempt left. |
| LocalizationAnswers.PostponedRows | AI-Twin/backend/app/storage.py:5471-5500 | A used-up budget puts off exactly the account's waiting rows that are due before it. |
| LocalizationAnswers.PublishedExactlyWhen | AI-Twin/backend/app/storage.py:5562-5636 | A translation is published exactly when advice, source and holder are still those of the claim and the text is acceptable. |
| LocalizationAnswers.UnpublishedChangesNothing | AI-Twin/backend/app/storage.py:5562-5636 | What is not published changes nothing but the row of a holder whose source was revised, which starts over. |
| LocalizationAnswers.FailedExactlyWhen | AI-Twin/backend/app/storage.py:5638-5683 | Only the holder's failure counts: worth trying again and with an attempt left the row waits again, at most a day; otherwise it becomes unavailable. |
| LocalizationAnswers.OpeningRows | AI-Twin/backend/app/storage.py:5415-5452 | A claim first ends exactly the run-out leases and closes exactly the rows without an attempt left. |
| LocalizationAnswers.PicksWhatWaits | AI-Twin/backend/app/storage.py:5454-5470 | Whenever a row is due one is taken, by due time, then attempts, then age of the advice. |
| LocalizationAnswers.QueuedRow | AI-Twin/backend/app/storage.py:5295-5327 | Queueing leaves a row for exactly the present source if it is foreign, and none otherwise. |
| LocalizationAnswers.NotQueued | AI-Twin/backend/app/storage.py:5329-5378 | Drafts, unknown advice and readers of other languages are not queued. |
| LocalizationAnswers.DisplayedExactlyWhen | AI-Twin/backend/app/storage.py:5748-5788 | What a reader sees: the source in his language, the accepted translation of the present source, or whether one is still to come. |
| LocalizationAnswers.TranslationGoesThrough | AI-Twin/backend/app/storage.py:5295-5788 | Queued, claimed and completed with an acceptable text, a translation is what the reader sees. |
| PublishGate.QuotaHoldsInEveryWindow | AI-Twin/backend/app/storage.py:6077-6099 | With a fixed preference no window of the general policy holds more gated publishes than its quota, and no window of a goal's own policy more of that goal, even if the clock runs backwards. |
| PublishGate.PublishesAreSpaced | AI-Twin/backend/app/storage.py:6086-6091 | A gated publish of a goal comes at least the cooldown after every earlier one of that goal, exempt ones included. |
| PublishGate.EveryRunKeepsGate | AI-Twin/backend/app/storage.py:4749-4779 | Through insertion and promotion alike, every gated publish has passed the gate against all before it. |
| PublishGate.PauseStopsEverything | AI-Twin/backend/app/storage.py:6025-6035 | Under a general pause nothing passes the gate, exempt advice included. |
| PublishBoard.Board.CheckGate | AI-Twin/backend/app/storage.py:6015-6100 | The counting loops give exactly the reason the gate gives. |
| PublishBoard.Board.Insert | AI-Twin/backend/app/storage.py:4735-4779 | The method takes exactly the inserting step. |
| PublishBoard.Board.Promote | AI-Twin/backend/app/storage.py:4877-4905 | The method takes exactly the promoting step. |
| PublishAnswers.GateStopsExactlyWhen | AI-Twin/backend/app/storage.py:6015-6100 | The gate stops exactly what the preference does not allow, and each reason it gives is true. |
| PublishAnswers.InsertedExactlyWhen | AI-Twin/backend/app/storage.py:4735-4779 | An insertion succeeds exactly when no unique index is against it and, if it publishes under the gate, the preference allows it. |
| PublishAnswers.PromotedExactlyWhen | AI-Twin/backend/app/storage.py:4854-4905 | A promotion succeeds exactly when the draft is there and, under the gate, the preference allows it. |
| PublishAnswers.ImportantOnlyIsAFloor | AI-Twin/backend/app/storage.py:6025-6035 | Under "important only" nothing below the third level is published under the gate, and nothing of it or above is refused for its level. |
| PublishAnswers.DailyNumbers | AI-Twin/backend/app/domain/preferences.py:77-100 | Over every run, lively, balanced and quiet accounts get at most eight, three and one gated advice in any day. |
| PublishAnswers.HoursApart | AI-Twin/backend/app/domain/preferences.py:77-100 | Two of one goal are at least one, four and twelve hours apart. |
| Multipart.JoinOfSplit | AI-Twin/backend/app/paraformer_server.py:329-330 | Splitting a body at a marker loses nothing. |
| Multipart.SplitIsClean | AI-Twin/backend/app/paraformer_server.py:329-330 | No section of a split contains the marker. |
| Multipart.SplitOfJoin | AI-Twin/backend/app/paraformer_server.py:329-338 | For any number of marker-free sections that end their lines, splitting undoes joining: the marker cannot straddle a section's end. |
| MultipartRoundTrip.HeaderRoundTrip | AI-Twin/backend/app/paraformer_server.py:350-364 | A printed header is read back. |
| MultipartRoundTrip.DivideSection | AI-Twin/backend/app/paraformer_server.py:342-348 | A section is divided at the end of its header, whatever its value contains. |
| MultipartRoundTrip.RoundTrip | AI-Twin/backend/app/paraformer_server.py:308-382 | For any one to eight readable parts free of the marker, parsing what was printed gives what the parts say, and exactly under an acceptable boundary. |
| SpeechRequest.SpeechRoundTripExactlyWhen | AI-Twin/backend/app/local_stt.py:535-570 | For every language and every recording: the server reads exactly the recording and the three fields if and only if the language fits its field and neither it nor the recording contains the marker. |
| SpeechRequest.LongLanguageIsRefused | AI-Twin/backend/app/paraformer_server.py:373-374 | A language longer than 128 bytes is refused. |
| SpeechRequest.ParsedIsClean | AI-Twin/backend/app/paraformer_server.py:329-382 | Neither the recording nor any field the parser returns contains the marker. |
| SpeechRequest.StripKeepsMarker | AI-Twin/backend/app/paraformer_server.py:376 | Taking the white space off a text neither adds nor removes a marker. |
| SpeechRequest.Build | AI-Twin/backend/app/local_stt.py:546-570 | The chunk list, joined, is the printed body. |
| SpeechRequest.ParseBody | AI-Twin/backend/app/paraformer_server.py:340-382 | The loop over the sections fills the table the specification gives, or refuses. |
| MultipartInverse.ParsedWasPrinted | AI-Twin/backend/app/paraformer_server.py:308-382 | Whatever the parser accepts is the printed form of one to eight acceptable parts, no name twice and one of them the file, and it answers what these say; everything else is refused. |
| MultipartInverse.RoundTripEitherWay | AI-Twin/backend/app/paraformer_server.py:323-338 | A printed body is read back whether or not it ends with a line's end, exactly if the boundary is one to seventy visible characters. |
| MultipartInverse.HeaderOfParse | AI-Twin/backend/app/paraformer_server.py:350-364 | A header that was read prints as the same bytes. |
| MultipartInverse.DivideOfSection | AI-Twin/backend/app/paraformer_server.py:342-348 | A section that divides is its header, an empty line, its value and a line's end. |
| EditDistance.EditDistance | AI-Twin/deploy/scripts/evaluate_stt.py:78-96 | The row-by-row loops, with the shorter text in the rows, compute the recursive distance. |
| EditDistance.NextRow | AI-Twin/deploy/scripts/evaluate_stt.py:84-94 | The inner loop turns one row of distances into the next. |
| EditDistance.IsSymmetric | AI-Twin/deploy/scripts/evaluate_stt.py:81-82 | Exchanging the texts does not change the distance. |
| EditDistance.NoScriptIsCheaper | AI-Twin/deploy/scripts/evaluate_stt.py:78-96 | No script of insertions, deletions and replacements that turns one text into the other costs less. |
| EditDistance.SomeScriptIsBest | AI-Twin/deploy/scripts/evaluate_stt.py:78-96 | Some script costs exactly the distance. |
| EditDistance.IsZeroExactlyWhenEqual | AI-Twin/deploy/scripts/evaluate_stt.py:78-96 | The distance is zero exactly between equal texts. |

## Left out

- RelayServer.Server.FinishDownload: the flag and the end of the stream are one step, and so are the receipt that completes a transfer and the unlinking of its blob, which the program does just after its commit.
- RelayStoreRuns.EveryRunKeepsInv: a handler reads the clock once; disk space is an input to a reservation; file names, projects, metadata and the free-space vacuum are not part of this model.
- RelayServer.Server.Inbox: the listing's order and its limit of a hundred are not modelled.
- RelayDelivery.EveryRunKeepsInv: the bridge is the only process that acknowledges or reserves as the bridge's device, as its lock file intends; inbox listing order, HTTP retries and the four attempts at a receipt appear as receipts that arrive late, twice or never.
- RelayBackend.KeepRecords: one group of the snapshot; the sizes of the serialised records are inputs.
- RelayBackend.Repository.AtomicRelayRequest: the business tables are one abstract value; what the operations inside the callback write is a parameter.
- AnalysisRuns.BudgetHoldsAtEveryInstant: a reservation is charged at the instant of its claim, as the program dates it, not at the instant of the provider call; the legacy usage table is empty; the daily sub-budget of translations is not part of the ledger. The program gives direct calls all four limits always; here they may be any.
- AnalysisStore.Queue.NextWaiting: among jobs of equal priority, due time and age the program's order by name is not modelled.
- AnalysisStore.Queue.Claim: an event row that is missing, the provisional advice of earlier attempts, which a claim deletes, and the reason kept of an earlier failure are not part of this model.
- AnalysisStore.Queue.Process: one worker at a time; interleavings with others are in the runs.
- AnalysisStore.Queue.Enqueue: the source of a job's priority and of its approval, a missing event row and the goal id are not part of this model.
- AttentionRuns.EveryRunKeepsInv: one tenant; devices, their quota, relevance of topics and error ledgers are not part of this model; the status column and the status inside the stored record are one field; schema migrations are not modelled, so the tables start empty.
- AttentionBoard.Board.Choose: among candidates of equal level and age the program's order by id is not modelled.
- RateLimiter.RollingWindowLimiter.Reserve: a capacity refusal's retry time is only the first expiry of all and is not claimed to suffice.
- Admission.Controller.Acquire: the retirement of an account is an input, and the user and provider names come normalised; database failures are not modelled.
- LocalizationRuns.EveryRunKeepsInv: one locale; the judgements whether a source is already in it and whether a translation is acceptable are parameters; stored records that cannot be parsed are not modelled.
- LocalizationRuns.TriesAreBounded: a source that is revised and later revised back is a new version with attempts of its own.
- PublishGate.QuotaHoldsInEveryWindow: whether advice is exempt and whether a unique index refuses it are inputs; published rows are never deleted in the program and never here.
- MultipartRoundTrip.HeaderRoundTrip: headers are read by a parser for the form the client prints, not by the general mail parser; letter case of media types and the content-type line of the request are not modelled.
- SpeechRequest.Build: the recording is any byte string; the `wave` container and the random boundary are inputs.
- Percentiles, weighted error rates and text normalisation of the evaluation script: pointwise arithmetic and Unicode tables.
- Detectors, scoring, prompts, privacy redaction, account export, single-flight gates and user interfaces: no state worth a proof here, or meaning that lives in data.
