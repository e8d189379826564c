# A verified model of the receipt service

Receipts are photographed on a device that is often offline, uploaded in 256,000-byte parts,
accepted by a server against quotas, read by OCR, reviewed by people, reconciled with purchase
orders, and deleted after fixed times. This project models that life in Dafny 4.11 and proves what
holds in every run of it, with requests, workers and jobs interleaving statement by statement and
crashing anywhere, and, where a property does not hold of the code, exactly when it does.

`dafny verify dfyconfig.toml` checks everything.

## How it is built

Code that changes tables step by step appears in three forms, each proved to agree with the next:

1. *Functions on tables.* Each committed transaction and each object-store request is a function
   (`upload_tables.dfy`, `device_tables.dfy`, and the first section of the other files).
2. *Classes.* The same transactions statement by statement, as methods of a class whose fields are
   the tables; each method's contract equates its new state with the function, so what is proved of
   the function is proved of the method. The endpoints that string transactions together have
   functions of their own, and lemmas (`OpeningIsRun`, `PartIsRun`, `CompletionIsRun`,
   `CleanUpIsRun`, `RetentionIsRun`, `DeliveryIsRun`) show that they are runs of the protocol. The
   table below names the lemmas, and methods only where the contract says more than that equation.
3. *Protocols.* A state is the tables, what each running request remembers, and ghost histories. A
   step is one transaction or one object-store request of one request, or a crash, or time passing.
   `Run` folds any list of steps, and a state is `Reachable` if some run from an empty deployment
   ends in it, so a theorem about reachable states is about every interleaving.

| file | what it models |
|---|---|
| `upload_tables`, `upload_protocol` | the upload service, its clean-up and its retention: tables, transactions, 29 kinds of step, the invariant |
| `upload_proofs` | the invariant is inductive |
| `upload_theorems` | session machine, one receipt per complete session, storage accounting |
| `upload_exposure` | exactly when the image of an accepted receipt can be lost |
| `upload_durability`, `upload_breaches` | a discipline under which none is, and what a breach of each of its clauses leads to in every state |
| `upload_cleanup` | exactly when the clean-up can take a part of a session that still accepts parts |
| `upload_hazards` | runs from an empty deployment that break one clause alone |
| `upload_server` | the same service as a class |
| `upload_outcomes` | what each endpoint and job answers and leaves, and that every image within the limits is accepted |
| `reassembly` | slicing on the device and joining on the server are inverse |
| `device_tables`, `receipt_sync*` | the device's store, and device and service as one protocol: no receipt is lost, when it is purged and retried, that it can get through, and when it never will |
| `daily_quota` | the daily limits and the advisory lock that guards them |
| `outbox`, `workflow`, `workflow_once`, `ingress` | leased work without fencing tokens: outbox and local queue, enrichment stages and when they save once, ingress reservations |
| `audit_chain`, `replay`, `local_auth` | hash chains, nonces and rate windows, lockout and recovery codes |
| `review`, `reconciliation`, `deletion`, `base64`, `base64_bits` | review merge, reconciliation, paginated deletion, base64 |

Assumptions made once: one clock; a commit happened or did not, and its answer may be lost; SHA-256
is a function of which nothing is known (`audit_chain.dfy` knows that its results are not empty and
have no colon, and where injectivity would be needed offers two different texts, hashed for the rows
at hand, with one hash); `0.9 * limit` is the integer part of nine tenths of the limit; quantities
are reals. Keys and defaults are those of `services/enrichment/migrations`.

## Where the code does less than its documents say

* `docs/hybrid-enrichment.md:19` says conditional counters prevent quota overruns. The storage
  counter does (`AdmissionWithinCap`). The daily counts do exactly if no transaction begins, on a day
  with room left, under an advisory lock named after another day, and no change of limits gives room
  to one that did (`LimitsKept`, `StraddleExactly`, `RaiseExceeds`).
* `docs/hybrid-enrichment.md:17` says an upload is acknowledged only when it is durable. Its
  image can be lost afterwards exactly if, at the commit, a clean-up pass or a compensation already
  means to delete that object, the object is no longer there as it was written, or the answer to the
  commit is lost (`LostExactlyIfExposed`, and the runs in `upload_hazards.dfy`).
* `docs/release-readiness.md:42` says interrupted uploads resume. They do within the 24 hours of their
  session. The service keeps one session per receipt for good, so a receipt whose session has expired
  or failed is never accepted, and the device tries for ever (`EndedNeverSyncs`); one that has no
  session can always get through (`ReceiptGetsThrough`). After a completion whose answer was lost the
  device sends the first part again, is refused, and does not learn within the year that the receipt
  was accepted (`SweptNeverSyncs`).
* A clean-up pass means to spare open sessions within their 24 hours, but it can delete a part of one
  exactly if it begins while a live request that may still hand the session back has been completing
  it for 15 minutes (`EndangeredExactly`, `OverlappingPassTakesPart`).
* `docs/hybrid-enrichment.md:46` says redelivery cannot duplicate provider stages. A receipt can
  be enriched twice exactly if its first save leaves a delivery in flight that is able to save again
  (`PrudentExactly`), as overlapping deliveries do, whatever the leases (`OverlapNeedsNoLease`), and as
  one delivery does whose answer is lost on the fifth attempt (`LostReplyExactly`); and a crash at
  one point leaves a receipt that no delivery will ever enrich (`NeverEnrichedExactly`).
* `docs/hybrid-enrichment.md:31` says replayed request ids are rejected. A request id is forgotten
  when its reservation is released, and answers are true in all runs exactly if no id is ever used
  for two receipts (`HonestExactly`). A nonce is forgotten after ten minutes, which is
  enough exactly if no request stalls for more than 479 seconds (`ReplayProtectedExactly`).
* The one-year deletion of audit events leaves a chain that verifies exactly when what is left is a
  prefix of it, which a deletion of the oldest rows is not (`PurgedVerifiesIffPrefix`).

## Model

| member | source | states |
|---|---|---|
| `UploadTheorems.StepFollowsEdges` | services/enrichment/app/authoritative.py:418-453 | Whatever step is taken by whoever, every session row keeps its receipt, owner, size and digest, its status stays or moves along OPEN → COMPLETING → COMPLETE/FAILED/EXPIRED, COMPLETING → OPEN or OPEN → EXPIRED, and only the request that owns the completion opens a session again. |
| `UploadTheorems.TerminalForever` | services/enrichment/app/authoritative.py:418-453 | Over any run, COMPLETE, FAILED and EXPIRED are absorbing and what a session was opened with never changes. |
| `UploadTheorems.OneCompletion` | services/enrichment/app/authoritative.py:436-458 | In every run from an empty deployment at most one live request owns the completion of a session. |
| `UploadTheorems.AllOrNothing` | services/enrichment/app/authoritative.py:502-611 | In every run the numbers of receipts, RECEIVED audit events, enrichment outbox rows and quota increments of a session are all one if it is COMPLETE and all zero otherwise, and the receipt has its owner, digest and size. |
| `UploadProofs.StepKeeps` | services/enrichment/app/authoritative.py:256-627 | The invariant of tables, histories and running requests is kept by each of the 29 kinds of step. |
| `UploadProofs.RunKeeps` | services/enrichment/app/authoritative.py:256-627 | The invariant holds after any list of steps. |
| `UploadProofs.CommitTables` | services/enrichment/app/authoritative.py:503-601 | Committing a session that was checked keeps every table invariant at once: index, receipts, audit, outbox, charges, storage. |
| `UploadTheorems.StorageAccount` | services/enrichment/app/authoritative.py:547-557 | In every run stored_image_bytes of an organization is exactly the bytes of its receipts whose image is not marked deleted plus those of receipts deleted after a year while their image still counted, so never less than what is there. |
| `UploadTheorems.ReleaseInFull` | services/enrichment/app/jobs.py:251-269 | In every run the release of an image takes its bytes off in full: the floor of GREATEST(0, …) is never reached. |
| `UploadProofs.NeverClamps` | services/enrichment/app/jobs.py:260-268 | A receipt whose image counts has no more bytes than the counter of its organization. |
| `UploadTheorems.AdmissionWithinCap` | services/enrichment/app/authoritative.py:547-557 | A commit changes the counter only of the organization of a session being completed, by exactly that session's size, and leaves it within nine tenths of the limit, however many completions race. |
| `UploadProofs.PurgeStorage` | services/enrichment/app/jobs.py:272-290 | The one-year deletion leaves the storage account right: bytes of deleted receipts that still counted are recorded as leaked. |
| `UploadExposure.LostExactlyIfExposed` | services/enrichment/app/authoritative.py:502-611 | At every commit that takes effect, in every state: the image of the new receipt can be lost before a tombstone is committed for it, by anything that anybody may do afterwards, exactly if the answer to the commit is lost, a live pass or compensation means to delete that object, or the object in the store no longer has the recorded digest and size. |
| `UploadExposure.ImagesDurable` | services/enrichment/app/authoritative.py:483-495 | In every run in which no commit is exposed in that sense, each receipt has its image stored with the recorded digest and size, or a tombstone was committed for it. |
| `UploadDurability.OrderlyImagesDurable` | services/enrichment/app/authoritative.py:436-611 | So it has in every run in which no pass begins on a session with a recorded image that a live request may still commit, no request claims a session whose image a pass holds, and no commit that takes effect loses its answer; in particular the compensation then never deletes the image of a committed receipt. |
| `UploadBreaches.SelectBreach` | services/enrichment/app/jobs.py:128-146 | In every state: a pass that takes up a session whose recorded image a live request is ready to commit makes a loss possible. |
| `UploadBreaches.ClaimBreach` | services/enrichment/app/authoritative.py:436-458 | In every state: so does a claim of a session whose image a pass holds, when the claiming request is ready to commit it. |
| `UploadBreaches.ReplyBreach` | services/enrichment/app/authoritative.py:601-611 | In every state: so does a commit that takes effect and loses its answer. |
| `UploadHazards.LostReplyLosesImage` | services/enrichment/app/authoritative.py:601-611 | A run, for every hash, in which only the answer to a commit is lost: the compensation deletes the image of an accepted receipt. |
| `UploadHazards.OverlappingPassLosesImage` | services/enrichment/app/jobs.py:128-167 | A run in which only a clean-up pass begins on a session that a live request has been completing for 15 minutes: it deletes the image after the commit. |
| `UploadHazards.LateClaimLosesImage` | services/enrichment/app/jobs.py:128-167 | A run in which only a request claims a session that a clean-up pass already holds: the same loss. |
| `UploadHazards.OverlappingPassTakesPart` | services/enrichment/app/jobs.py:128-153 | A run from an empty deployment in which a pass begins on a session that a live request has been completing for 15 minutes, the request hands the session back, and the pass deletes a part of it while it is open and within its 24 hours. |
| `UploadCleanup.EndangeredExactly` | services/enrichment/app/jobs.py:128-167 | In every state in which a first pass takes up a session it does not see complete: it can come to hold a part of that session while the session is open and within its 24 hours exactly if the session is then within its 24 hours and a live request can still hand it back. |
| `UploadCleanup.FirstPassSparesYoung` | services/enrichment/app/jobs.py:129-167 | In every run in which no pass begins like that, no first pass ever has a session that is open and within its 24 hours, now or later. |
| `UploadCleanup.SecondPassSparesYoung` | services/enrichment/app/jobs.py:168-204 | In every run the second pass holds only part objects whose session, if there is one, is older than 25 hours, even of parts whose row is not committed yet; and a first pass that saw its session COMPLETE holds nothing but its parts. |
| `UploadServer.CompletionMeans` | services/enrichment/app/authoritative.py:436-627 | A completion that got the session is accepted exactly when every part is there, the body has the announced size, format and digest, the store takes the image, the quotas have room, and the transaction commits and answers; session, receipt, quota, audit event and outbox row change together or not at all; and the session ends OPEN, FAILED, COMPLETING or COMPLETE, each with its condition. |
| `UploadServer.OpenedOnce` | services/enrichment/app/authoritative.py:256-326 | The session a request is answered with has its receipt, device and digest, and the same request is then answered the same without any change; every other answer changes nothing. |
| `UploadServer.PartStoredOnce` | services/enrichment/app/authoritative.py:354-403 | A part that is not refused has a row with its digest and length, the same part is then acknowledged without any change, and other content under its number is a conflict. |
| `UploadServer.OpeningIsRun` | services/enrichment/app/authoritative.py:256-326 | Opening a session is a run of the protocol. |
| `UploadServer.PartIsRun` | services/enrichment/app/authoritative.py:354-403 | Sending a part, its checks, its object and its row, is a run of the protocol. |
| `UploadServer.CompletionIsRun` | services/enrichment/app/authoritative.py:436-627 | The completion endpoint, with any failing object requests and any end of the commit, is a run of the protocol. |
| `UploadServer.CleanUpIsRun` | services/enrichment/app/jobs.py:140-167 | The clean-up of one stale session is a run of the protocol. |
| `UploadServer.RetentionIsRun` | services/enrichment/app/jobs.py:225-270 | The retention of one image is a run of the protocol, whether the object goes, stays, or goes with an error. |
| `UploadServer.PartsRun` | services/enrichment/app/authoritative.py:459-475 | The loop over the parts reaches what single part reads of the protocol reach. |
| `UploadOutcomes.OpenedExactly` | services/enrichment/app/authoritative.py:256-326 | A receipt nobody has uploaded gets a session exactly if the request has 1 to 5,000,000 bytes, uploads are not paused, site, organization and vendor are active, and image and storage limits have room; the refusals name a reason that holds; the new row is the only change. |
| `UploadOutcomes.KnownReceipt` | services/enrichment/app/authoritative.py:265-283 | Of a receipt that is known, its own device is told of the receipt or the session if the digest is the same and of the conflict if not, other devices of neither; nothing changes. |
| `UploadOutcomes.PartAcceptedExactly` | services/enrichment/app/authoritative.py:354-403 | A part is stored exactly if the session is the device's, open and not 86,400 seconds old, its number n is at least 0 with n * 256,000 below the size, its length is that of the slice, the digest is its own and there is no row yet; object and row are then the only change, and each refusal has its condition. |
| `UploadOutcomes.CompletionEnds` | services/enrichment/app/authoritative.py:436-627 | How every completion ends, table by table. The first part that is not there gives the error, the session is open again and nothing else has changed; a body that is no WebP or has another digest fails the session and nothing else changes; otherwise the session stays COMPLETING if the store does not take the image, is OPEN with the image taken back if the transaction fails or a limit is exceeded, or COMPLETE with receipt, bytes, audit event, outbox row and exactly the part objects and rows gone that could be deleted. A complete session is confirmed, any other refused, without any change. |
| `UploadOutcomes.FirstMissingExactly` | services/enrichment/app/authoritative.py:459-474 | Either every part is there or exactly one is the first that is not. |
| `UploadOutcomes.WholeUploadAccepted` | services/enrichment/app/authoritative.py:256-627 | Every image is accepted: whatever the service holds, for every WebP of 1 to 5,000,000 bytes within the limits, opening a session, sending its slices in order at any times within the day and completing it at any later time with no fault leaves a receipt with its length and digest, the image byte for byte under its name, and no part behind if the store deletes them. |
| `UploadOutcomes.StaleExactly` | services/enrichment/app/jobs.py:128-139 | A clean-up pass takes up exactly open or completing sessions older than 86,400 seconds, completing ones that have not moved for 900, and complete ones with parts left for as long. |
| `UploadOutcomes.CleanUpEnds` | services/enrichment/app/jobs.py:140-167 | Without an error the objects of its part rows are gone, and the image it names unless it is complete, and so are its rows; an open or completing session is EXPIRED; every other session, row and object stays. |
| `UploadOutcomes.CleanUpStops` | services/enrichment/app/jobs.py:151-160 | With a first error at one object exactly those before it have gone, and that one if it went all the same; rows and status stay. |
| `UploadOutcomes.OldExactly` | services/enrichment/app/jobs.py:168-222 | The second half takes up exactly part objects older than 90,000 seconds, the retention exactly unmarked images of receipts older than 7,776,000. |
| `UploadOutcomes.UntrackedExactly` | services/enrichment/app/jobs.py:188-197 | Of these objects exactly those that no row names are deleted. |
| `UploadOutcomes.RetentionEnds` | services/enrichment/app/jobs.py:225-270 | The retention of an image either removes it, completes the tombstone, marks the receipt and gives its bytes back once, or leaves receipt and counter as they were with a tombstone that says so. |
| `UploadOutcomes.PurgesExactly` | services/enrichment/app/jobs.py:271-290 | The yearly deletion removes the receipts with their sessions, parts, audit events and outbox rows and nothing of any other receipt. |
| `UploadOutcomes.ReceiptStaysAYear` | services/enrichment/app/jobs.py:271-290 | In every run an accepted receipt stays for 31,536,000 seconds with its owner, image name, length, digest and time. |
| `Reassembly.SendParts` | apps/mobile/src/sync/receiptBackgroundSync.ts:137-160 | The upload loop sends, in order, exactly the parts the server has not confirmed with the same digest, up to the first request that fails. |
| `Reassembly.PendingExact` | apps/mobile/src/sync/receiptBackgroundSync.ts:140-147 | A part is pending exactly if its offset lies in the image, its bytes are that slice, and the server has not confirmed its digest. |
| `Reassembly.PendingJoins` | apps/mobile/src/sync/receiptBackgroundSync.ts:140-160 | With nothing confirmed there are ceil(total / 256,000) parts, and joined they are the image, for every byte string. |
| `Reassembly.StepFaithful` | services/enrichment/app/authoritative.py:354-475 | Every step keeps: part objects are slices of the image, and what a completion has joined so far is a prefix of it. |
| `Reassembly.ReassemblyIsIdentity` | services/enrichment/app/authoritative.py:454-472 | From the opening of a session on, whatever order, repetition or interruption of slices and whatever else interleaves, any body a completion arrives at is exactly the image, from ceil(total / 256,000) parts. No property of the hash is used. |
| `Reassembly.FaithfulNeverMismatches` | services/enrichment/app/authoritative.py:476-482 | Such a session, opened with the digest of a WebP, passes the checks when all parts are there and goes back to OPEN otherwise; it never fails. |
| `DeviceTables.BackoffSchedule` | apps/mobile/src/sync/receiptBackgroundSync.ts:29-52 | The backoff starts at five seconds, never falls, and is fifteen minutes exactly from the eighth failure on. |
| `DeviceTables.ReceiptSyncStore.CompressedArtifact` | apps/mobile/src/sync/receiptBackgroundSync.ts:83-90 | A cached artifact is used unchanged; otherwise what compression yields is cached before it is returned. |
| `ReceiptSyncSafety.NoReceiptLost` | apps/mobile/src/sync/receiptBackgroundSync.ts:83-175 | In every story of captures, purges, wakes that fail or are killed at any request, requests that arrive after the device gave them up, and anything the service does meanwhile: a receipt whose local image was emptied was accepted by the service under the same id and the digest of the device's cached artifact, and acknowledged to the device at least 604,800 seconds before. |
| `ReceiptSyncSafety.PurgedAfterSevenDays` | apps/mobile/src/sync/receiptSyncStore.ts:533-548 | In every story, whatever move is made: a photograph is altered, or a non-empty artifact goes, only by a purge, which empties or drops it, at least 604,800 seconds after an acknowledgement of that receipt. |
| `DeviceTables.PurgesExactly` | apps/mobile/src/sync/receiptSyncStore.ts:533-548 | One purge empties exactly the images of the synced receipts acknowledged 604,800 seconds ago or earlier, drops exactly their artifacts, and leaves everything else as it was. |
| `ReceiptSyncTimes.RetriedExactly` | apps/mobile/src/sync/receiptSyncStore.ts:218-244 | In every story a receipt may be listed exactly if it was photographed, is not synced, and min(900, 5 * 2^n) seconds have passed since its last failure, n being the number it was listed with; the number it is listed with is that of its failures since it was last acknowledged. |
| `ReceiptSyncProgress.ReceiptGetsThrough` | apps/mobile/src/sync/receiptBackgroundSync.ts:92-175 | From every moment of every story at which the device sleeps and no request is running: a receipt that may be listed and the service has no session for, whose artifact is a WebP of 1 to 5,000,000 bytes within the limits, can get through: the service accepts exactly that artifact and the device marks it synced. |
| `ReceiptSyncProgress.LostSessionForgotten` | apps/mobile/src/sync/receiptBackgroundSync.ts:132-136 | An upload id the service knows no session of is forgotten and the failure counted. |
| `ReceiptSyncEnds.EndedNeverSyncs` | services/enrichment/app/authoritative.py:274-283 | In every story: once the session of a receipt that was never accepted has expired or failed, the device never marks it synced, whatever device and service do. |
| `ReceiptSyncEnds.ForgottenEnds` | services/enrichment/app/jobs.py:128-167 | It comes to that when a clean-up pass meets a session that is a day old and got no part. |
| `ReceiptSyncEnds.SweptNeverSyncs` | apps/mobile/src/sync/receiptBackgroundSync.ts:132-160 | In every story: a device that remembers the session of an accepted receipt whose parts are swept, as after a completion whose answer was lost, does not mark the receipt synced within the receipt's year, whatever device and service do. |
| `ReceiptSyncSafety.SyncedMeansAccepted` | apps/mobile/src/sync/receiptSyncStore.ts:481-496 | A receipt is marked synced only when the service has accepted it under the digest of its cached artifact. |
| `ReceiptSyncSafety.UploadIdsFit` | apps/mobile/src/sync/receiptSyncStore.ts:365-378 | A remembered upload id names a session opened for that receipt with the digest of its artifact, and no two receipts remember one id. |
| `ReceiptSyncSafety.ArtifactForever` | apps/mobile/src/sync/receiptBackgroundSync.ts:83-108 | The artifact of a receipt is chosen once: every later attempt has the same bytes and digest. |
| `ReceiptSyncSafety.SessionsCarryTheArtifact` | apps/mobile/src/sync/receiptBackgroundSync.ts:92-175 | Every session the service holds for this device and receipt was opened with the digest and size of that artifact, and any body about to be committed for it is the artifact byte for byte. |
| `ReceiptSyncSafety.MoveKeeps` | apps/mobile/src/sync/receiptBackgroundSync.ts:208-240 | Whatever device or service does next, the invariant of both holds again. |
| `ReceiptSyncProofs.ConfirmsMeansCharged` | services/enrichment/app/authoritative.py:446-453 | Whoever can answer success to a completion request has seen its session charged. |
| `ReceiptSyncProofs.ReceivedMeansAccepted` | services/enrichment/app/authoritative.py:265-275 | "Already received" is answered only for a receipt accepted under the digest in the request. |
| `ReceiptSyncProofs.StrangerRefused` | services/enrichment/app/authoritative.py:360-368 | A part sent by another device for this device's session changes nothing. |
| `DailyQuota.LimitsKept` | services/enrichment/app/authoritative.py:502-546 | However many completions race and however the limits change: on every day the counts of each site and of the organization stay within the largest limit in force at a count of that day, if no transaction begins on another day than the one its lock is named after, unless that day has no room left, and no change of limits gives room to one that did. |
| `DailyQuota.FixedLimitsKept` | services/enrichment/app/authoritative.py:502-546 | In such runs limits that do not change are kept on every day. |
| `DailyQuota.StraddleExactly` | services/enrichment/app/authoritative.py:502-546 | In every state of such runs: a transaction that begins can lead past every limit there was, with no further disorder, exactly if its lock is named after another day and there is room left on the day it begins. |
| `DailyQuota.RaiseExceeds` | services/enrichment/app/authoritative.py:502-546 | So can a change of limits that gives room to a transaction of today under the lock of another day. |
| `DailyQuota.StraddleExceeds` | services/enrichment/app/authoritative.py:502-546 | For all limits of at least one and every site, such a beginning is reached from an empty table. |
| `DailyQuota.RoomExactly` | services/enrichment/app/authoritative.py:533-546 | A count on the day the transaction began admits it exactly if the site and the organization each have fewer receipts of that day than their limits, and names the site first. |
| `AuditChain.VerifyAuditChains` | services/enrichment/app/audit_chain.py:15-35 | The one-pass verifier accepts exactly the valid tables and counts all rows and chains; otherwise it names the chain of the first row that does not fit and counts the rows before it. |
| `AuditChain.VerifyLocalOperatorChain` | services/enrichment/app/audit_chain.py:38-56 | The same for the single chain of operator events. |
| `AuditChain.ChainByChain` | services/enrichment/app/audit_chain.py:24-35 | Verifying interleaved rows is verifying each chain alone. |
| `AuditChain.OrderOfChains` | services/enrichment/app/audit_chain.py:15-23 | Any order of rows that keeps each chain in its own order gives the same verdict and the same counts. |
| `AuditChain.AuditLog.Append` | services/enrichment/app/authoritative.py:931-951 | The new row continues the newest row of its chain by time; every chain stays one of appended rows, and other chains stay as they were. |
| `AuditChain.AppendsVerify` | services/enrichment/app/authoritative.py:572-591 | Any interleaving of appends to any number of chains, in order of time, verifies, with every chain counted. |
| `AuditChain.SplitsOnce` | services/enrichment/app/audit_chain.py:10-12 | "previous:event" determines both, because a hash has no colon. |
| `AuditChain.HeadDetermines` | services/enrichment/app/audit_chain.py:10-35 | Two verified chains with one history have one head hash, and with one head hash they have one history, event for event and hash for hash, unless a row of one and a row of the other have different texts with one hash. |
| `AuditChain.HashesDistinct` | services/enrichment/app/audit_chain.py:10-35 | No hash occurs twice in a verified chain, unless two of its own rows have different texts with one hash. |
| `AuditChain.VerifiesIffInOrder` | services/enrichment/app/authoritative.py:576-591 | A chain whose rows were appended in the order of (created_at, id) verifies, and one that verifies was appended in that order, unless two of its rows have different texts with one hash. |
| `AuditChain.PurgedVerifiesIffPrefix` | services/enrichment/app/jobs.py:280-280 | After rows are deleted from a verified chain, a prefix verifies, and what verifies is a prefix, unless two rows of the chain have different texts with one hash. |
| `Outbox.OldestExactly` | services/enrichment/app/outbox.py:33-40 | Claimable rows are claimed once each in order of creation, and one is passed over only if the limit was reached by older ones. |
| `Outbox.RoundExactly` | services/enrichment/app/outbox.py:112-136 | In such a round each claimed row ends delivered, disabled, terminal at the tenth attempt, or put back with the delay of its attempt; no other row changes. |
| `Outbox.LocalReceiptQueue.Enqueue` | services/enrichment/app/queueing.py:64-81 | One row per receipt; a receipt that is known keeps its row and status, so it is not delivered again. |
| `Outbox.LocalReceiptQueue.ClaimLocalMessage` | services/enrichment/app/queueing.py:91-118 | The oldest claimable row is leased and handed out with its attempt number, or none is claimable. |
| `Outbox.AtLeastOnce` | services/enrichment/app/outbox.py:28-136 | With expired leases and stale workers: attempt numbers handed out are 1, 2, 3, … without repetition, the row is put back at most nine times for at most 1024 s each, and it is DELIVERED only if its effect ran. |
| `Outbox.SettledExactly` | services/enrichment/app/outbox.py:139-146 | A DELIVERED or FAILED_TERMINAL row changes status exactly when a stale worker disables a credit delivery. |
| `Outbox.SettledForever` | services/enrichment/app/outbox.py:88-136 | For the two receipt event types both are absorbing in every run. |
| `Outbox.DisabledAfterDelivery` | services/enrichment/app/outbox.py:139-146 | A run in which a credit delivery whose effect ran ends DISABLED. |
| `Outbox.TenClaims` | services/enrichment/app/outbox.py:112-123 | If no lease expires there are at most ten claims, and scheduled delays add up to at most 1022 s for the outbox and 766 s for the local queue. |
| `Outbox.CapsNeverBind` | services/enrichment/app/queueing.py:134-147 | The caps of 3600 s and 300 s never bind. |
| `Outbox.ClaimedForever` | services/enrichment/app/queueing.py:91-118 | If workers keep vanishing a row is claimed any number of times: there is no bound without the assumption. |
| `Outbox.ClaimsBounded` | services/enrichment/app/outbox.py:28-50 | In every run there are at most ten claims and one more for each claim of a row whose lease had run out. |
| `Outbox.ClaimsAttained` | services/enrichment/app/queueing.py:91-118 | That bound is attained for every number of such claims. |
| `Outbox.ClaimsPaced` | services/enrichment/app/outbox.py:28-50 | In every run at least 2^min(n, 10) seconds (2^min(n, 8) for the local queue) pass between the put-back of a row claimed n times and its next claim, and more than 120 (180) between two claims without a put-back. |
| `Outbox.TakenExactly` | services/enrichment/app/queueing.py:91-118 | In every run a worker that asks gets the row exactly if it is new and its time has come, or it was put back and has waited that long, or its last claim is older than the lease. |
| `Outbox.AloneClaimed` | services/enrichment/app/outbox.py:33-40 | Alone in the table a row is claimed exactly if it waits and its time has come, or is being processed and its lease is over. |
| `Outbox.MarksExactly` | services/enrichment/app/outbox.py:88-146 | A worker, stale or not, settles the row if it is being processed, terminally from its own tenth attempt on, and otherwise only by disabling it. |
| `Workflow.DeliveryIsRun` | services/enrichment/app/workflow.py:36-93 | One delivery is a run of the protocol. |
| `Workflow.DeliveryMeans` | services/enrichment/app/workflow.py:36-93 | With nothing stored and no commit in doubt, a delivery returns exactly if it stores version 1 with its callback, after OCR succeeded or after a stage failed for good. |
| `Workflow.DeliveryReturnsExactly` | services/enrichment/app/workflow.py:36-93 | A delivery of an enriched receipt returns at once and changes nothing; any other returns exactly if the image stage is complete or free, and either OCR is free and succeeds and is saved, or the stage that fails does so for good and the fallback is saved. |
| `Workflow.DeliveryLeaves` | services/enrichment/app/workflow.py:36-93 | What each of these cases leaves: stages, attempts, version and callbacks. |
| `Workflow.ClaimedExactly` | services/enrichment/app/storage.py:14-33 | A stage is claimed exactly if nobody had it, or it was put back or its claim has run out and it was claimed fewer than five times; for 300 seconds. |
| `Workflow.SettledExactly` | services/enrichment/app/storage.py:45-167 | Only a stage being processed is completed, any stage can be failed, and saving the result completes both. |
| `Workflow.CallbackPerVersion` | services/enrichment/app/storage.py:76-89 | However deliveries overlap, crash or lose answers, the callbacks are exactly those of versions 1 to that of the row, none if there is none, and no stage is claimed more than five times. |
| `WorkflowOnce.VersionChangesExactly` | services/enrichment/app/storage.py:14-73 | In every state with an enrichment row: the row can change version exactly if some delivery in flight is able to save again: it fetches, reads or falls back, it would fail a stage for good, or the stage it wants can be claimed again, now, when its lease is over, or after a stale worker fails it. |
| `WorkflowOnce.PrudentExactly` | services/enrichment/app/storage.py:92-177 | Whoever saves first: a second version can follow exactly if that save leaves such a delivery in flight. |
| `WorkflowOnce.EnrichedOnce` | services/enrichment/app/workflow.py:36-93 | In every run, with any overlap, in which no first save does: the row keeps version 1, there is exactly one callback if there is a row and none otherwise, and OCR is claimed at most five times. |
| `WorkflowOnce.OneAtATime` | services/enrichment/app/workflow.py:36-93 | The same for deliveries one at a time, crashing and repeating without limit, if no commit loses its answer at the fifth attempt at OCR. |
| `WorkflowOnce.LostReplyExactly` | services/enrichment/app/workflow.py:84-88 | In every state with one delivery, about to save: if the answer to its commit is lost, a second version can follow exactly if this was the fifth attempt. |
| `WorkflowOnce.LeaseExactly` | services/enrichment/app/storage.py:14-33 | In every state with one delivery reading under a lease and another asking for the stage: if it asks at that moment, both come to save exactly if the lease has run out and the stage was claimed fewer than five times. |
| `WorkflowOnce.WaitingOutlastsLease` | services/enrichment/app/storage.py:14-33 | If it may wait before it asks, the lease does not matter: with no further delivery and no lost answer, some continuation has both save exactly if the stage was claimed fewer than five times. |
| `WorkflowOnce.OverlapNeedsNoLease` | services/enrichment/app/workflow.py:40-53 | In every state with the image fetched and one delivery reading, a delivery that begins can enrich the receipt a second time, however long the leases run. |
| `WorkflowOnce.OverlapEnrichesTwice` | services/enrichment/app/workflow.py:62-83 | From nothing: two overlapping deliveries, the first slower than its lease, and no other disorder, leave version 2 and two callbacks. |
| `WorkflowOnce.LostReplyEnrichesTwice` | services/enrichment/app/workflow.py:84-88 | From nothing: one delivery at a time and no other disorder, but the fifth attempt loses the answer to its commit, and the fallback makes version 2. |
| `Workflow.NeverEnrichedExactly` | services/enrichment/app/storage.py:14-33 | With nobody at work on a receipt without a row, some run gives it one exactly if its image stage can still be claimed or skipped. |
| `Workflow.CrashLeavesDead` | services/enrichment/app/workflow.py:51-53 | A crash between failing the image stage for good and writing the fallback row leaves it dead. |
| `Ingress.AnswersHonest` | services/enrichment/app/main.py:660-678 | For any interleaving of handlers of the PostgreSQL store, with queue failures, crashes and late releases: if a request id is never used for two receipts, "accepted" and "duplicate" imply that the receipt was enqueued, and no receipt is reserved twice. |
| `Ingress.ReusedIdLies` | services/enrichment/app/ingress.py:124-140 | For every request id used for two receipts there is a run that answers "duplicate" for a receipt that is not in the queue. |
| `Ingress.HonestExactly` | services/enrichment/app/main.py:660-678 | For every set of requests: all answers are honest in all runs in which they are sent, in any order, number and interleaving, exactly if no two of them have one id and different receipts. |
| `Ingress.PostgresIngressStore.Reserve` | services/enrichment/app/ingress.py:70-122 | The reservation is that of the row with the request id, else of the row with the receipt, else new; other content under a known id is a conflict. |
| `Ingress.MemoryIngressStore.ReceiptEvent` | services/enrichment/app/main.py:660-678 | Alone, a handler enqueues the receipt exactly if it answers "accepted", and forgets the request if the queue fails. |
| `Ingress.MemoryHonestExactly` | services/enrichment/app/ingress.py:32-61 | For every set of requests to the service with the in-memory store: all answers are true, in whatever order and number the requests are handled and whatever the queue does, exactly if no two of them have one id and one content and different receipts. |
| `Ingress.AnsweredExactly` | services/enrichment/app/ingress.py:32-61 | The answer of the in-memory service to every event in every sequence: of an id answered positively before, "duplicate" for the same content and a conflict for other content; otherwise "duplicate" if the receipt was accepted before; otherwise "accepted" or "unavailable" as the queue decides. |
| `Ingress.LoneHandler` | services/enrichment/app/main.py:660-678 | A handler of the PostgreSQL store that no other disturbs: its answer, the rows and the queue in every case. |
| `Replay.ReplayProtectedExactly` | services/enrichment/app/authoritative.py:97-118 | Every timestamp and nonce is accepted at most once in every run exactly when no request can stall for more than 479 s between its timestamp check and its transaction. |
| `Replay.AcceptedOnce` | services/enrichment/app/authoritative.py:97-118 | The sufficient half, for any number of devices and requests. |
| `Replay.ReplayedTwice` | services/enrichment/app/authoritative.py:97-118 | For any longer stall, a run that accepts one request twice. |
| `Replay.RateBound` | services/enrichment/app/authoritative.py:119-141 | In every run the requests of a device accepted in one minute are at most the largest limit in force in that minute, or one if that is zero. |
| `Replay.CheckedExactly` | services/enrichment/app/authoritative.py:97-103 | A request passes the check exactly if its timestamp is within 60 whole seconds of the clock and its nonce has 16 to 128 characters. |
| `Replay.AcceptedExactly` | services/enrichment/app/authoritative.py:104-141 | In every run a checked request is accepted exactly if its organization is active, its nonce was not accepted in the last 600 seconds, and the device had none accepted in this minute or fewer than the limit. |
| `LocalAuth.LockoutBound` | services/enrichment/app/local_auth.py:141-162 | Of attempts begun within T seconds of a success, with no success between, served in any order, at most 5 + floor(T / 900) are evaluated and fail. |
| `LocalAuth.BoundReached` | services/enrichment/app/local_auth.py:153-162 | The bound is reached for every number of lockouts. |
| `LocalAuth.CodesOnce` | services/enrichment/app/local_auth.py:110-116 | A recovery code lets its user in at most once; codes left and codes used are together the codes handed out. |
| `LocalAuth.NeverTwoSessions` | services/enrichment/app/local_auth.py:82-216 | Over any logins, enrolments and logouts, with any tokens, no user has two sessions. |
| `LocalAuth.LoginExactly` | services/enrichment/app/local_auth.py:119-177 | A login succeeds exactly if there is a credential that is not locked, the secret can be read, the password is right, the second factor is the code of the moment or a recovery code that is left, and the token is free; every evaluated attempt that lacks password or factor raises the count by one, and locks for 900 seconds from the fifth on; nothing else changes anything. |
| `LocalAuth.AdmittedExactly` | services/enrichment/app/local_auth.py:180-216 | From a database without sessions, over any operations: a token admits a user exactly if some login of that user with that token lacked nothing, its time is not over, and no later logout, enrolment or login has ended it. |
| `LocalAuth.EnrolledEnters` | services/enrichment/app/local_auth.py:84-104 | Whoever was just enrolled gets in with the password and the code of the moment or any code handed out, whatever there was before. |
| `LocalAuth.VerifySecondFactor` | services/enrichment/app/local_auth.py:110-116 | A TOTP is tried first; a recovery code is used up exactly if it is what lets the user in. |
| `Review.ReviewsConsumeVersions` | services/enrichment/app/authoritative.py:753-795 | Over any reviews and projections: successful reviews consume consecutive versions, one each, nothing else moves the version, and the verified row is that of the last verification. |
| `Review.DecisionStands` | services/enrichment/app/outbox.py:155-176 | Late or repeated OCR projections never move a receipt out of VERIFIED or REJECTED: its status is what its last successful review said. |
| `Review.ReviewedExactly` | services/enrichment/app/authoritative.py:753-795 | A review goes through exactly if it names the current version; it then sets status, fields and the next version, and the verified row if it verifies. |
| `Review.RecordExactly` | services/enrichment/app/outbox.py:155-176 | Over any reviews and projections: the fields are those of the last successful review, the OCR data those of the last projection, and a receipt nobody reviewed needs review exactly from the first finished projection on. |
| `Review.MergeGreatest` | services/enrichment/app/reconciliation.py:90-112 | Folding events in any order leaves an event, or the row there was, that no event exceeds. |
| `Review.MergeIgnoresOrderExactly` | services/enrichment/app/reconciliation.py:99-104 | All orders and repetitions of the events give one result exactly when the newest of them agree. |
| `Reconciliation.NormalizedOnce` | services/enrichment/app/reconciliation.py:21-24 | Normalizing a unit is idempotent. |
| `Reconciliation.StripExactly` | services/enrichment/app/reconciliation.py:21-24 | Stripping leaves the one core of a string without the ASCII white space around it. |
| `Reconciliation.OrderExactly` | services/enrichment/app/reconciliation.py:9-38 | A row means: order number, material and unit without the spaces around them in capitals, bags and tonnes under one name each, and the quantity as it is. |
| `Reconciliation.ParseTallyCsv` | services/enrichment/app/reconciliation.py:27-48 | All rows normalized, valid and with distinct keys, or the first kind of fault found. |
| `Reconciliation.AllDistinct` | services/enrichment/app/reconciliation.py:45-47 | As many identities as rows. |
| `Reconciliation.OrdersAreLatest` | services/enrichment/app/reconciliation.py:118-128 | A key is listed exactly if some stored import mentioned it, with the quantity of the latest stored import that did. |
| `Reconciliation.ImportTakesEffectExactly` | services/enrichment/app/reconciliation.py:64-90 | An import leaves the orders with its quantities exactly if its text is new to the site or they agree already: importing one file, another, and the first again keeps the second. |
| `Reconciliation.GroupReceived` | services/enrichment/app/reconciliation.py:129-136 | The sums by key of all verified receipts. |
| `Reconciliation.ReconciliationForSite` | services/enrichment/app/reconciliation.py:115-137 | Exactly one row per key ever imported, with latest quantity, sum received and whether it is exceeded; the rows add up to the total of the receipts that match one. |
| `Deletion.Bucket.DeleteAllObjectVersions` | services/enrichment/app/image_store.py:8-35 | For every versioned bucket, page size and key: exactly the versions and markers of the key go, except those the store refuses one by one; every entry with another key stays in every case; a listing or deletion that raises, with whatever part of its effect, leaves the key gone up to some rank and in part up to another; and with no such error the loop ends. |
| `Deletion.PageObjects` | services/enrichment/app/image_store.py:12-29 | A page shows exactly the entries of the key between its marker and the next, whatever was deleted before. |
| `Deletion.PageDone` | services/enrichment/app/image_store.py:25-31 | Deleting what a page shows completes the work up to its end. |
| `Base64.Base64ToBytes` | apps/mobile/src/engine/base64.ts:5-33 | The loop computes the decoding of the cleaned string, cut or padded to the precomputed length, for every string. |
| `Base64.CleanExactly` | apps/mobile/src/engine/base64.ts:6 | Cleaning drops exactly the white space, wherever it stands. |
| `Base64.DecodingInverts` | apps/mobile/src/engine/base64.ts:5-33 | Decoding an encoding (RFC 4648, section 4) with whitespace inserted anywhere returns the bytes: none dropped, none left zero, and the precomputed length is right. |
| `Base64.DecodesEncoding` | apps/mobile/src/engine/base64.ts:12-30 | Decoding inverts encoding, group by group. |
| `Base64.LengthOfEncoding` | apps/mobile/src/engine/base64.ts:7-9 | An encoding has whole groups, and three quarters of its length is the number of bytes and of padding characters. |
| `Base64.NothingDropped` | apps/mobile/src/engine/base64.ts:8-9 | With whole groups no byte is written beyond the array, whatever the characters are. |
| `Base64Bits.ChunkBits` | apps/mobile/src/engine/base64.ts:13-20 | For any four indices, -1 included, the shifts, masks and ors on 32-bit words leave in their low 24 bits exactly the number the model computes with. |

## Left out

- UploadTheorems.AllOrNothing: audit events and outbox rows are counted per receipt; their contents and the hash of the audit event are in `AuditChain` and `Outbox`, not in the upload tables.
- UploadServer.CompletionMeans: takes the outcome of the day counts as a parameter; `DailyQuota` says when that outcome can be trusted.
- UploadExposure.LostExactlyIfExposed: a receipt that already has a tombstone from an earlier life under the same id counts as covered by it.
- UploadDurability.OrderlyImagesDurable: its clauses also rule out some overlaps that end well; the exact condition is that of `LostExactlyIfExposed`, and `UploadBreaches` says which overlaps do not.
- ReceiptSyncSafety.NoReceiptLost: one wake at a time, as the scheduler ensures; the pending list is any list of eligible receipts, not the oldest five; progress counters, telemetry and logs are not modelled.
- Reassembly.SendParts: the check of charger and Wi-Fi between parts is one of the requests that may fail.
- Ingress.AnswersHonest: the statements of one reservation see the latest committed rows; signature checks come before and are left out.
- WorkflowOnce.EnrichedOnce: GST disabled, as production requires; contents of results are not modelled, only versions and callbacks.
- Outbox.AtLeastOnce: the workflow stage rows that mirror an event's status are left out.
- Review.ReviewsConsumeVersions: the audit event of a review is that of `AuditChain.AuditLog.Append` and not written here; fields are taken as given.
- Reconciliation.NormalizedOnce: ASCII characters only.
- Reconciliation.ParseTallyCsv: the columns of a row and its numbers are taken as parsed; the source accepts a NaN quantity (reconciliation.py:40), which the model cannot have.
- Base64.Base64ToBytes: a string is a sequence of code units, as in the source; a character beyond U+FFFF is two of them, both outside the alphabet.
- Deletion.Bucket.DeleteAllObjectVersions: nobody else writes the bucket meanwhile, and a truncated page carries a marker.
- LocalAuth.CodesOnce: passwords, TOTP and encryption of the secret are parameters; audit rows of logins are left out.
- Replay.AcceptedOnce: device and nonce are one key, the hash of both; nothing is assumed of that hash.
- ReceiptSyncProgress.ReceiptGetsThrough: from moments at which no other request is running, and for receipts without a remembered session; `EndedNeverSyncs` and `SweptNeverSyncs` say when one with a session does not.
- Local storage pause, vendor lookup, Play Integrity and the quota at opening are parameters or plain guards.
- The selection limits of jobs (500 or 1000 rows) and the order in which they visit rows: any choice is allowed in the protocol.
- HTTP routing, tenancy and row security, HMAC signatures, KMS, image and OCR internals, user interfaces, Cloudflare workers and Android services.
- Membership invitations, pilot control, local test runs, telemetry and notifications.
