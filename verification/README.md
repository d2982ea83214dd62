# Verified model of the ingestion service

This project models the correctness cores of a retrieval-augmented document service in Dafny and proves
what they keep. `dafny verify dfyconfig.toml` checks all of it.

**Document ingestion** is a labelled transition system (`IngestionModel.dfy`). One `Cell` holds a document row
with everything that acts on it: versioned chunks, outbox events, dead letters, broker messages, the stored
objects, and the local state of any number of workers, dispatchers and deletion tasks. Each step is one committed
transaction, or one effect on broker or storage between two transactions. Crashes, redeliveries, duplicates and
kills are steps like any other. The theorems are about every schedule:

- the active index is whole, is one split, and is not touched until the next activation (`IngestionSafety`, `IngestionFencing`);
- a lease holder's writes take effect exactly while nothing fenced it, and versions count activations (`IngestionFencing`);
- exactly which steps strand an unfinished document (`IngestionDrivers`), where stranded means, in every reachable state,
  that no schedule of system steps finishes it (`IngestionProgress`);
- which content the active index is built from, and exactly when that is the stored one (`IngestionContent`);
- resuming from checkpoints leaves the chunks of an uninterrupted build of the stored fingerprint, and exactly which
  steps break that (`IngestionResume`);
- deletion is absorbing and removes objects before the row; exactly which steps forget it (`IngestionDeletion`), where
  forgotten means that no schedule of system steps removes the row (`IngestionRemoval`);
- the reconciler never takes a document whose lease holder has shown itself within the limit, and takes a silent one exactly
  behind it; a claimed or refused outbox event rests for its time (`IngestionTimes`);
- the row refers to the object of the last upload or replacement, and exactly one step takes that object away
  (`IngestionObjects`);
- an outbox event is tried no more often than its budget allows, and exactly when overlapping reads or replays
  exceed it (`OutboxBudget`);
- `IngestionStore` is the same code in its imperative form: a class whose methods assign rows and tables in place, each
  proved to leave the state of its step, and each loop proved to be a schedule of steps (`IngestionRuns`).

The other cores are chat capacity leases in two backends (`Capacity`, `CapacityBackends`; what they bound and for how long:
`CapacityLimits`), refresh-token families with interleaved Redis commands, after section 5.2.2.3 of RFC 6819
(`RefreshTokens`), the chunker (`ChunkerText`, `Chunker`, `ChunkerStrategies`; what normalisation, splits and merge do to
the character: `ChunkerLaws`, `ChunkerMerge`), the workspace quota (`WorkspaceQuota`), the audit hash chain (`AuditChain`) and the
embedding cache (`EmbeddingCache`).

## Assumptions

- A `commit()`-delimited transaction is atomic, including the dispatcher's read and write of `uploaded`
  (app/tasks/outbox.py:71-74), the worker's load of the row and its stamp (app/tasks/ingest.py:182-214) and the read and
  delete of `cleanup_superseded_indexes`. A transaction over several
  documents is a sequence of steps on single documents.
- The broker keeps unacknowledged messages; delivery, duplication and death of a worker are nondeterministic. A task
  that the hard time limit kills, or that an exception leaves outside of its try block (a failing claim transaction, a
  failing publish of its retry), ends with its message acknowledged: `KillAndAcknowledge` and `DeleteKill`.
- Worker sessions do not expire on commit (app/db.py:61): an attempt works with content, object key and target as loaded
  right after its claim, and a dispatcher counts from the retry count that it has read.
- A system step is one of a worker, a dispatcher, the maintenance or a deletion task, or the replay of an outbox or cleanup
  letter. An attempt may fail at any point behind its claim, a dispatcher also after it has published; the crash of a worker
  and a duplicate delivery are accidents that nobody can wait for, and no system steps.
- Parser, splitter and encoder are deterministic: their outputs are parameters of the steps. Hashes do not collide.
- `resource_delete_max_retries` is not larger than the task's own `max_retries`.
- Tokens, event, letter and object identifiers are fresh (UUIDs). Redis and its callers share one clock that does not
  go back. Signed tokens cannot be forged.
- `deleted` is written and its row removed in one transaction, so that status is never visible.

## Where the code does less than its documentation says

- The discard of stale chunks has no token guard (app/tasks/ingest.py:303-304). `DiscardExact` gives the exact condition,
  `StaleDiscardEmptiesActiveIndex` a schedule that leaves a ready document without chunks.
- The fingerprint is stored before older chunks are discarded (app/tasks/ingest.py:208-214): an attempt that loses its
  lease or dies in between leaves chunks of another embedding model, which the next one reuses (`ReuseAcrossModels`).
  `StepPrintIff` says exactly which steps do that, `MisfitIsActivated` what follows.
- Replacing content does not clear the processing token: the old content can be activated (`ReplacedContentIsNotIndexed`;
  exact condition in `ReadyMatchesContent`).
- A message is acknowledged when its worker is killed, and an event is not scanned again once it is marked as sent: the two
  together, or a discarded letter, can leave a document that the system never finishes (`KilledBeforeClaimStrands`,
  `SentAfterKillStrands`, `DiscardedLetterStrands`; exact conditions in `StepStrandsIff`). A deletion can be forgotten in the
  same ways (`KilledDeletionIsForgotten`; `StepForgetsIff`).
- Overlapping dispatchers overwrite each other's count, and a replay does not reset it: both exceed the retry budget
  (`OverlappingScansOverspend`, `ReplayOverspends`); nothing else does (`OverspendNeedsOverlapOrReplay`), and without
  overlaps the exact condition is in `SequentialOverspendIff`.
- A blank unit can make the merge of the chunker fail when there is an overlap (`MergedJamsIff`, `BlankWindowJams`).
- A late renewal revives a local lease that Redis has dropped (`LateRenewalDiffers`; exact condition in `RenewDiffersIff`).
- A rotation in flight issues a record that outlives the revocation mark (`InFlightRotationOutrunsMark`; exact condition in
  `ReissueAfterMarkIff`).
- A login between the read and the last command of a revocation of all of a user's sessions is in no index afterwards
  (`LoginDuringRevokeAllIsUnlisted`; exact condition in `StepListsIff`).
- `chain_seq` is drawn before the trigger's lock: rows inserted out of order do not verify (`InsertIsCleanIffInOrder`);
  truncation and a moved `|` are not reported (`TruncationIsNotReported`, `MovedBarIsNotReported`).

## Model

| member | source | states |
|---|---|---|
| IngestionSafety.ActiveIndexIsWhole | app/tasks/ingest.py:279-431 | in every state reached by a schedule whose discards are made under the lease, the active version has exactly one chunk per sequence number of one split, and the row counts them |
| IngestionSafety.DiscardExact | app/tasks/ingest.py:298-304 | the unguarded discard keeps the active index whole if and only if it targets another version or every chunk there is reusable |
| IngestionSafety.LeaseHolderDiscardKeeps | app/tasks/ingest.py:272-304 | a discard by the current lease holder never touches the active version |
| IngestionSafety.CountIsEnough | app/tasks/ingest.py:375-386 | the bare count check before activation implies one chunk per piece, by pigeonhole |
| IngestionSafety.RunKeepsInv | app/tasks/ingest.py:146-539 | every schedule with safe discards keeps token, version, lease and index invariants together |
| IngestionFencing.LeaseFencing | app/tasks/ingest.py:80-103 | after any schedule a worker's token still matches if and only if it matched before and no claim, cancel, delete, reclaim, re-queue, failure or activation came between |
| IngestionFencing.VersionCountsActivations | app/tasks/ingest.py:402-413 | the active version grows by exactly the number of activations and never falls |
| IngestionSafety.VersionsAreConsistent | app/tasks/ingest.py:272-274 | in every reachable state the target is none or one above the active version, no chunk lies above that, and a lease holder's local target is the stored one |
| IngestionFencing.ActiveIndexIsFrozen | app/tasks/ingest.py:167-170 | between two activations no build, cleanup or discard under a lease changes a chunk of the active version |
| IngestionFencing.TombstoneStep | app/routers/admin.py:125-140 | one step takes a document out of deletion if and only if it replays an ingestion letter |
| IngestionFencing.DeletionIsAbsorbing | app/services/resource_cleanup.py:29-50 | without such a replay a deleting or gone document is never claimable nor leased again |
| IngestionDrivers.NoDocumentIsStranded | app/tasks/maintenance.py:50-76 | in every state reached without a step that takes the last driver, a claimable document has a message, a worker that owes it something or whose failure leads to a retry, an event that is scanned again or that an open letter sends again, a dispatcher that holds its event, or a letter to retry; a working one an expirable heartbeat; a failed one an open letter or an attempt that would leave one; sent implies published |
| IngestionDrivers.StepStrandsIff | app/tasks/ingest.py:139-180 | from a state that drives its document, any step whatsoever strands it if and only if it takes every driver left: a kill or another end of an attempt, an event marked as sent, a dispatcher that dies, a discarded letter |
| IngestionDrivers.KillStrandsIff | app/tasks/ingest.py:139-150 | killing a worker strands the document if and only if that worker was its only driver |
| IngestionDrivers.EndStrandsIff | app/tasks/ingest.py:471-530 | an attempt that ends with a lost lease, or with a failure whose retry or letter does not reach the row, strands the document if and only if it was its only driver |
| IngestionDrivers.SentStrandsIff | app/tasks/outbox.py:57-82 | marking an event as sent strands the document if and only if the dispatcher and the event were its only drivers and no open letter could send the event again |
| IngestionDrivers.DeathStrandsIff | app/tasks/outbox.py:57-62 | the death of a dispatcher strands the document if and only if it was its only driver |
| IngestionDrivers.DiscardStrandsIff | app/routers/admin.py:197-212 | discarding a letter strands the document if and only if it was its only driver, or all that could send again the events that were |
| IngestionDrivers.StepScans | app/tasks/outbox.py:34-61 | in every step an event that is scanned, or that an open letter sends again, stays so until it is published and marked as sent, or its letter is discarded; sent implies published, parked implies a letter |
| IngestionWitnesses.DiscardedLetterStrands | app/routers/admin.py:197-212 | a schedule that discards the letter of the only event, after which no schedule of system steps makes the document ready |
| IngestionWitnesses.KilledBeforeClaimStrands | app/tasks/ingest.py:150-180 | a schedule that kills a worker before its claim, after which no schedule of system steps makes the document ready |
| IngestionWitnesses.SentAfterKillStrands | app/tasks/outbox.py:57-82 | a schedule after whose kill the event would still be scanned, and is then marked as sent |
| IngestionProgress.UnfinishedCanFinish | app/tasks/ingest.py:150-180 | from every reachable state in which an unfinished document is not stranded some schedule of system steps makes it ready with whatever split its next attempt computes |
| IngestionProgress.StrandedStays | app/tasks/outbox.py:34-61 | no schedule of system steps touches the row of a stranded document |
| IngestionProgress.StrandedIffNothingFinishes | app/tasks/maintenance.py:35-77 | in every state of every schedule an unfinished document is stranded if and only if no schedule of system steps makes it ready |
| IngestionProgress.SplitFinishes | app/tasks/ingest.py:260-431 | an attempt that is left alone after its split activates exactly the kept chunks and its own |
| IngestionResume.ResumedIsFreshIff | app/tasks/ingest.py:282-304 | one attempt leaves the fresh build if and only if every chunk it reuses has the vector of its own model |
| IngestionResume.ResumeEqualsFreshBuild | app/tasks/ingest.py:279-358 | for every schedule of crashes, lost leases, partial batches and retries under one embedding model the active chunks equal an uninterrupted build of their split |
| IngestionResume.ResumeUnderStoredFingerprint | app/tasks/ingest.py:204-214 | along every schedule of changing contents, configurations and models that abandons no attempt between stamp and discard, the active chunks equal an uninterrupted build of the fingerprint of the activating attempt, of the content that it had loaded |
| IngestionResume.StepPrintIff | app/tasks/ingest.py:204-304 | a step breaks the promise of the stored fingerprint if and only if it takes the lease or the life of an attempt between the stamp of a changed fingerprint and its discard while chunks of another model are there |
| IngestionResume.ReuseIsFreshIff | app/tasks/ingest.py:282-304 | an attempt left alone after its split activates a fresh build if and only if it reuses no chunk of another model |
| IngestionResume.MisfitIsActivated | app/tasks/ingest.py:204-304 | from a claimable state whose stored fingerprint does not fit a chunk, the next attempt under that fingerprint activates that chunk, whenever its split has the same text there |
| IngestionContent.ReadyMatchesContent | app/routers/documents.py:286-303 | for every schedule with faithful splits and any replacements a ready document is the split of the content that its activating worker had loaded after its claim; it matches the row if and only if the replacements since then have not changed the content, or not its split |
| IngestionObjects.RowRefersToLastUpload | app/routers/documents.py:288-293 | in every reachable state the row refers to the object of the last upload or replacement of the schedule |
| IngestionObjects.StepLosesObjectIff | app/tasks/maintenance.py:97-117 | from any state whose row has its object, a step takes that object away if and only if it is the deletion task's step for its key; no sweep or replacement does |
| IngestionObjects.LiveDocumentHasItsObject | app/routers/documents.py:288-293 | along every schedule without a replay of an ingestion letter a document that is not being deleted has the object of its last upload or replacement |
| IngestionObjects.ReplacedObjectGoes | app/tasks/maintenance.py:97-117 | behind a replacement the sweep can take the object of the old content and leaves the one of the new content |
| IngestionObjects.KnowledgeBaseObjectGoes | app/services/resource_cleanup.py:56-97 | deleting a knowledge base drops row and chunks at once, and its event names the object of the row: a schedule of system steps deletes it |
| IngestionTimes.LiveWorkerIsNotReclaimed | app/tasks/maintenance.py:35-56 | after a claim, a stage write or a batch of the lease holder no schedule lets the reconciler take the document before more than its limit has passed |
| IngestionTimes.SilentWorkerIsReclaimedIff | app/tasks/maintenance.py:35-56 | as long as nobody writes a heartbeat, the reconciler can take the document if and only if its status is a working one and more than the limit has passed |
| IngestionTimes.ClaimedEventRests | app/tasks/outbox.py:34-52 | an event that a scan has claimed is not claimed again within a minute, unless its attempt is refused or it is replayed |
| IngestionTimes.RefusedEventRests | app/tasks/outbox.py:83-97 | an event refused for the n-th time is not claimed again before the n-th delay has passed |
| IngestionTimes.DelayDoubles | app/tasks/outbox.py:26-27 | the first delay is the base, each further one twice the one before, none longer than 300 seconds |
| IngestionTimes.ReplacedWhileCounting | app/tasks/ingest.py:398-431 | when content is replaced while an attempt counts its chunks, that attempt never activates them, although it keeps its token |
| IngestionDeletion.RowGoesAfterObjects | app/tasks/maintenance.py:150-187 | when the deletion task looks at the row none of its payload's objects is stored, whatever else runs |
| IngestionDeletion.RemovedRowHasNoObject | app/tasks/maintenance.py:176-187 | without a replayed ingestion letter a removed row's own object was deleted before it |
| IngestionDeletion.NoDeletionIsForgotten | app/services/resource_cleanup.py:29-50 | a deleting row keeps an event that is scanned again or that an open letter sends again, a dispatcher that holds it, a message, a task or an open cleanup letter along every schedule without a step that takes the last of them |
| IngestionDeletion.StepForgetsIff | app/tasks/maintenance.py:125-187 | from a state that drives its deletion, any step whatsoever forgets it if and only if it takes the last of these: a kill, an event marked as sent, a dispatcher that dies, a discarded letter |
| IngestionDeletion.KillForgetsIff | app/tasks/__init__.py:17-21 | killing a task forgets a deletion if and only if the task was all that was left of it |
| IngestionDeletion.SentForgetsIff | app/tasks/outbox.py:57-82 | marking an event as sent forgets a deletion if and only if the dispatcher and the event were all that was left of it and no open letter could send the event again |
| IngestionDeletion.DiscardForgetsIff | app/routers/admin.py:197-212 | discarding a letter forgets a deletion if and only if it was all that was left of it, or all that could send again the events that were |
| IngestionRemoval.DeletionCanFinish | app/tasks/maintenance.py:132-192 | from every reachable state in which a deletion is not forgotten some schedule of system steps removes the row |
| IngestionRemoval.ForgottenStays | app/tasks/maintenance.py:172-187 | no schedule of system steps touches the row of a forgotten deletion |
| IngestionRemoval.ForgottenIffNothingRemoves | app/services/resource_cleanup.py:29-50 | in every state of every schedule a deletion is forgotten if and only if no schedule of system steps removes the row |
| IngestionWitnesses.StaleDiscardEmptiesActiveIndex | app/tasks/ingest.py:303-304 | a schedule that ends ready with an empty active index |
| IngestionWitnesses.ReuseAcrossModels | app/tasks/ingest.py:204-214 | a schedule whose activated chunk has the vector of an earlier model |
| IngestionWitnesses.ReplacedContentIsNotIndexed | app/routers/documents.py:286-303 | a schedule that makes replaced content ready with the old split |
| IngestionWitnesses.KilledDeletionIsForgotten | app/tasks/__init__.py:17-21 | a schedule that kills the only task behind its sent event, after which no schedule of system steps removes the row |
| IngestionWitnesses.OverlappingScansOverspend | app/tasks/outbox.py:57-108 | a schedule that tries an event twice on a budget of one, stores a count of one and leaves two letters |
| IngestionWitnesses.ReplayOverspends | app/routers/admin.py:150-157 | a schedule of one scan after the other that a replay takes beyond the budget |
| IngestionStore.DocumentStore.UploadDocument | app/routers/documents.py:153-204 | the whole new row, its object and its event, in one transaction |
| IngestionStore.DocumentStore.ReplaceContent | app/routers/documents.py:256-303 | content, object key, status and target are the new ones, everything else of the row, the processing token included, stays; the object is stored and one event is new |
| IngestionStore.DocumentStore.ReindexDocument | app/routers/documents.py:425-448 | re-queues ready and failed documents only |
| IngestionStore.DocumentStore.CancelIngestion | app/routers/documents.py:478-510 | cancels every cancellable status and clears the token |
| IngestionStore.DocumentStore.DeleteDocument | app/services/resource_cleanup.py:23-50 | tombstones the row and enqueues the deletion of its object |
| IngestionStore.DocumentStore.ResumeFromStage | app/routers/admin.py:232-281 | re-queues failed, retrying and cancelled documents and keeps their target |
| IngestionStore.DocumentStore.ReplayDeadLetter | app/routers/admin.py:108-184 | replays by source and resolves the letter, with the whole new row and table for each source; the document status is not looked at |
| IngestionStore.DocumentStore.DiscardDeadLetter | app/routers/admin.py:197-224 | resolves an open letter and changes nothing else |
| IngestionStore.DocumentStore.ClaimLease | app/tasks/ingest.py:147-180 | the compare-and-set on the three claimable statuses writes token, heartbeat and target, and nothing else of the row |
| IngestionStore.DocumentStore.StampFingerprint | app/tasks/ingest.py:182-214 | chunks are reusable if and only if the stored fingerprint is the wanted one; the wanted one is stored under the token only |
| IngestionStore.DocumentStore.SetStage | app/tasks/ingest.py:80-91 | writes stage and heartbeat if and only if the token matches |
| IngestionStore.DocumentStore.FindReusable | app/tasks/ingest.py:282-297 | the loop finds exactly the sequence numbers whose stored text is the piece |
| IngestionStore.DocumentStore.DiscardStaleChunks | app/tasks/ingest.py:298-318 | deletes exactly what is not reusable at the target and lists what is left to embed |
| IngestionStore.DocumentStore.EmbedBatch | app/tasks/ingest.py:319-358 | one batch adds exactly its chunks and refreshes the heartbeat under the token, or changes no table |
| IngestionStore.DocumentStore.EmbedPending | app/tasks/ingest.py:319-358 | the batch loop inserts every pending chunk, or the whole batches before the embedder fails, for any batch size, as a schedule of batch steps |
| IngestionRuns.InsertAppend | app/tasks/ingest.py:319-358 | two batches do what their concatenation does |
| IngestionStore.DocumentStore.ActivateIndex | app/tasks/ingest.py:375-431 | switches the index if and only if count, token and status fit |
| IngestionStore.DocumentStore.RecordFailure | app/tasks/ingest.py:471-516 | retrying while less than three retries are spent, otherwise failed with a dead letter; a row under another token stays as it is |
| IngestionStore.DocumentStore.IngestDocument | app/tasks/ingest.py:146-539 | one undisturbed execution is a schedule of steps and ends ready with the kept chunks and its own, or retrying or failed with its letter, for every outcome of parser, splitter and embedder; a failing embedder leaves its finished batches |
| IngestionStore.DocumentStore.ReconcileStale | app/tasks/maintenance.py:35-77 | recovers if and only if the status is one of the four working ones and the heartbeat is older than the limit; then the row is retrying without a token and one event is new |
| IngestionStore.DocumentStore.CleanupSuperseded | app/tasks/maintenance.py:80-93 | keeps exactly the chunks of the active version |
| IngestionStore.DocumentStore.RetryLetter | app/tasks/maintenance.py:273-356 | a cleanup letter is sent again, an ingestion letter re-queues a failed or retrying document and is discarded otherwise; row, event and letter as they are afterwards |
| IngestionStore.DocumentStore.RetryPendingDeadLetters | app/tasks/maintenance.py:273-356 | the loop settles every selected letter once, adds one event per replayed letter and is a schedule of steps |
| IngestionStore.DocumentStore.DeleteResources | app/tasks/maintenance.py:132-192 | deletes the keys in order; the row goes only behind all of them; a refused key is retried or parked |
| IngestionStore.DocumentStore.RecordRefusal | app/tasks/outbox.py:83-108 | count, status, due time and letter of an event after a failed attempt |
| IngestionStore.DocumentStore.DispatchOutboxBatch | app/tasks/outbox.py:30-120 | every due event ends sent and published, or one failed attempt further with a letter once the budget is spent; the others stay |
| OutboxBudget.OverspendNeedsOverlapOrReplay | app/tasks/outbox.py:57-108 | along every schedule the attempts at an event are its stored count plus the counts that overlapping reads have overwritten; they exceed the budget only after such a read or a replay |
| OutboxBudget.SequentialOverspendIff | app/tasks/outbox.py:57-108 | without overlapping reads the budget is exceeded if and only if a failure is recorded on an event read as spent, and so only after a replay |
| OutboxBudget.BudgetIsExact | app/tasks/outbox.py:83-108 | along every schedule without overlapping reads and replays the stored count is the number of failed attempts, an event that is still scanned has failed fewer times than the budget allows, and a parked one exactly that often |
| OutboxBudget.RefusedScans | app/tasks/outbox.py:34-108 | scans that find the event due and are refused are a schedule, with the delays of the next row |
| OutboxBudget.BackoffIsBounded | app/tasks/outbox.py:26-27 | the total delay over n failures is at most 300*n and at most base*(2^n-1) |
| OutboxBudget.BudgetTakesItsTime | app/tasks/outbox.py:34-46 | scanning only due events, n failures take at least the sum of the delays |
| Capacity.CapacityHolds | app/services/concurrency.py:17-50 | after every interleaving no key exceeds its limit, an unexpired lease is in all its keys with one deadline or in none, and no key expires before a member |
| Capacity.LocalCapacityHolds | app/services/concurrency.py:73-156 | the same limits and deadlines after every interleaving on the dictionary, late renewals included |
| CapacityLimits.ConcurrencyIsLimited | app/services/concurrency.py:63-110 | after every interleaving, on both backends, at most max(1, global setting) leases count in all, at most max(1, user setting) of one user and at most one of a conversation |
| CapacityLimits.LeaseLastsOnRedis | app/services/concurrency.py:88-134 | a lease granted or renewed at time T that is then neither renewed nor released counts in all of its keys up to T + max(1, lease seconds) and in none of them afterwards, whatever others do |
| CapacityLimits.LeaseLastsLocally | app/services/concurrency.py:73-134 | the same on the dictionary, from any state |
| CapacityLimits.KeysOutliveLease | app/services/concurrency.py:17-45 | the expiry of a key lies as far behind the deadline as the deadline behind the grant or renewal |
| Capacity.TtlDropsOnlyExpired | app/services/concurrency.py:27-30 | the expiry of a key drops no unexpired member |
| Capacity.AcquireAgrees | app/services/concurrency.py:73-85 | the fallback grants exactly when the script returns 0, and both agree on unexpired members afterwards, also on refusal |
| Capacity.RenewDiffersIff | app/services/concurrency.py:113-134 | two backends that have answered alike answer a renewal differently if and only if Redis has dropped a key of the lease by its own expiry and the dictionary still holds it in all keys |
| Capacity.FallbackRefinesScript | app/services/concurrency.py:88-156 | along every run the fallback gives the answers of the script if and only if no renewal is of that kind, as none is that comes before the lease has lapsed (`UnlapsedConverges`) |
| Capacity.BackendsAgreeIff | app/services/concurrency.py:73-156 | from no leases at all, both backends give the same answers to a run of the scripts if and only if no renewal of it is of that kind |
| Capacity.LateRenewalDiffers | app/services/concurrency.py:113-134 | after the keys' expiry the script refuses a renewal that the fallback grants |
| CapacityBackends.KeysAndLimits | app/services/concurrency.py:63-70 | position by position: the global key with the global setting, the key of the user with the user setting, both at least 1, and the key of the conversation with 1 |
| CapacityBackends.RedisCapacity.AcquireScript | app/services/concurrency.py:17-32 | the loops purge and count key by key and answer the first full one, or add to all keys when each has room |
| CapacityBackends.RedisCapacity.RenewChatSlot | app/services/concurrency.py:34-45 | renews in all keys if and only if all still hold the token |
| CapacityBackends.LocalSlots.AcquireLocal | app/services/concurrency.py:73-85 | the loops over the dictionary purge all keys, then add to all or none |
| CapacityBackends.LocalSlots.ReleaseChatSlot | app/services/concurrency.py:150-156 | removes the token from every key and drops empty keys |
| RefreshTokens.RotationIsSafe | app/services/tokens.py:18-91 | in every interleaving a record is consumed at most once, a family has at most one live record or rotation in flight, and a live record is indexed or its family marked for its whole life |
| RefreshTokens.RevokedTokensStayDead | app/services/tokens.py:40-54 | once the mark is set no call but those already past their check ever consumes a record of the family that was issued before it, whenever its token was signed |
| RefreshTokens.ReissueAfterMarkIff | app/services/tokens.py:65-91 | after the mark some schedule issues a new record of the family if and only if a call past its check has taken the family's record, or still finds it |
| RefreshTokens.RevocationIsLocal | app/services/tokens.py:43-54 | in every interleaving a revocation deletes records of its own family only, and a record it misses dies before the mark |
| RefreshTokens.InFlightRotationOutrunsMark | app/services/tokens.py:71-91 | a schedule from the start, for every lifetime, in which a rotation past its check issues a record that outlives the mark |
| RefreshTokens.StepListsIff | app/services/tokens.py:18-62 | from a state whose records are all listed with their user or marked, a step unlists one if and only if it is the last command of a revocation of everything and the user has an unmarked record by then |
| RefreshTokens.EverySessionIsListed | app/services/tokens.py:57-62 | in every interleaving without such a step the families that a revocation of everything reads are all that the user still has |
| RefreshTokens.LoginDuringRevokeAllIsUnlisted | app/services/tokens.py:57-62 | a schedule, for every lifetime, whose login is in no index and not marked |
| RefreshTokens.RotationRuns | app/services/tokens.py:65-91 | one undisturbed rotation is a schedule of its commands: with its record it ends in a new pair, as a replay or with somebody else's record in the revocation of the whole family, with the state that the method leaves |
| RefreshTokens.RevocationRuns | app/services/tokens.py:40-54 | one undisturbed revocation is a schedule of its commands and leaves the state of the method |
| RefreshTokens.LoginRuns | app/services/tokens.py:18-37 | one undisturbed login is a schedule of its pipeline and its signature and leaves the state of the method |
| RefreshTokens.TokenStore.IssueTokenPair | app/services/tokens.py:18-37 | adds the record, the family's member, its owner and the family to those of its user, keeps the families of all users, and every record can still be found through its user or is marked |
| RefreshTokens.TokenStore.RevokeTokenFamily | app/services/tokens.py:40-54 | the loop deletes every indexed record, the indexes and the listing with the user, and leaves the mark; every record can still be found through its user or is marked |
| RefreshTokens.TokenStore.RotateRefreshToken | app/services/tokens.py:65-91 | answers with a new pair if and only if the family is unmarked and the record is the token's, and the consumed record is gone from the index; otherwise the family is revoked; either way every record can still be found through its user or is marked |
| RefreshTokens.TokenStore.RevokeAllUserFamilies | app/services/tokens.py:57-62 | undisturbed, every record left of the user, in whatever family, is marked for the rest of its life |
| ChunkerText.NormalizeKeepsInk | app/services/chunker.py:70-74 | normalisation changes nothing but whitespace and never lengthens |
| ChunkerLaws.NormalizeKeepsOutline | app/services/chunker.py:70-74 | normalisation keeps every word, and between two words whether they are on one line, on neighbouring lines or in different paragraphs |
| ChunkerLaws.NormalIffTidy | app/services/chunker.py:70-74 | it leaves exactly the texts alone that have no carriage return, no tab, no two blanks, no three newlines behind each other and no whitespace at the ends, and makes one of every text |
| ChunkerLaws.EachReturnIsALineEnd | app/services/chunker.py:71-71 | a carriage return becomes one newline, also together with a newline behind it |
| ChunkerLaws.SplitDoubleNewlinesIsExact | app/services/chunker.py:102-102 | cut at the first double newline, and behind it again |
| ChunkerLaws.SplitBlankLinesIsExact | app/services/chunker.py:88-88 | cut at the first and longest run of whitespace between two newlines, and behind it again |
| ChunkerLaws.SplitSentencesIsExact | app/services/chunker.py:7-7 | cut behind the first terminator, or full stop before whitespace, with all whitespace there, and again |
| ChunkerText.SplitBlankLinesKeepsInk | app/services/chunker.py:86-88 | splitting at blank lines loses no other character |
| ChunkerText.SplitSentencesKeepsInk | app/services/chunker.py:7-7 | splitting at sentence ends loses no character that is not whitespace |
| Chunker.SlicesCover | app/services/chunker.py:77-83 | each window repeats the end of the one before; without that the windows are the text to the character |
| Chunker.MergedCovers | app/services/chunker.py:123-143 | for any overlap and units, without at most overlap repeated characters per chunk the ink of the units is left, across carried tails and hard splits, and no chunk is too long |
| ChunkerMerge.MergeIsGreedy | app/services/chunker.py:123-143 | for any overlap the chunks are, to the character, consecutive units one newline apart, behind the tail of the chunk before; a chunk ends only where the next unit does not fit, and a unit is cut only where it fits in neither way |
| ChunkerMerge.ShortUnitsAreKept | app/services/chunker.py:123-143 | short units merged without overlap: the chunks joined by newlines are the units joined by newlines |
| ChunkerMerge.HardSplitIsWindowed | app/services/chunker.py:77-83 | windows of the given size, one every size minus overlap characters of the normalised text, up to its end |
| Chunker.JamsExactly | app/services/chunker.py:127-140 | one unit makes the merge fail if and only if it is blank and fits neither behind the chunk nor behind the tail |
| Chunker.MergedJamsIff | app/services/chunker.py:123-143 | the merge of a whole list fails if and only if some unit is blank and fits neither behind the chunk that the merge of the units before it leaves nor behind its tail |
| Chunker.MergeSucceeds | app/services/chunker.py:123-143 | units that are not blank, or short ones without overlap, always merge |
| Chunker.MergeUnits | app/services/chunker.py:123-143 | the loop computes its specification, of which `MergeIsGreedy` says what it is, fails exactly when it jams and otherwise covers its units within the limit |
| ChunkerStrategies.NothingLost | app/services/chunker.py:25-60 | with overlap 0 no strategy fails, and every character that is not whitespace is kept exactly once in order |
| ChunkerStrategies.Recursive | app/services/chunker.py:95-109 | refuses bad parameters; a short text is one chunk; otherwise the merge of its paragraphs, with long ones cut at their sentences and long sentences into windows |
| ChunkerStrategies.Paragraph | app/services/chunker.py:86-92 | refuses bad parameters; the merge of the paragraphs between blank lines, with long ones cut into windows; covers the text within the limit |
| ChunkerStrategies.Semantic | app/services/chunker.py:146-173 | refuses bad parameters; with two paragraphs and a working embedder the merge of its groups, which never fails; otherwise what the recursive strategy does |
| ChunkerStrategies.GroupParagraphs | app/services/chunker.py:157-172 | the groups are consecutive paragraphs one newline apart, and break exactly where neighbours are far apart or too long together |
| ChunkerStrategies.FixedUnitsAreExact | app/services/chunker.py:89-91 | each paragraph that fits is one unit, each other one is cut into windows of its normalised text |
| ChunkerStrategies.SplitLongParagraph | app/services/chunker.py:112-120 | each sentence that fits is one unit, each other one is cut into windows; units within the limit with the ink of the paragraph |
| ChunkerStrategies.SplitSegments | app/services/chunker.py:25-60 | the chunks of each segment are what its strategy makes of the normalised text, with that text and position, in order; they cover it; a failure is that of some segment |
| ChunkerStrategies.BlankWindowJams | app/services/chunker.py:95-140 | a concrete text on which the recursive strategy fails, through normalisation, paragraph and sentence splits and windows |
| WorkspaceQuota.QuotaHolds | app/services/tenancy.py:7-12 | every schedule keeps, under one lock per workspace, what each transaction's sum still says about the table |
| WorkspaceQuota.NoWorkspaceExceedsItsQuota | app/routers/documents.py:118-132 | from an empty table, whatever uploads, imports, replacements and unlocked deletions interleave, no workspace exceeds its quota |
| WorkspaceQuota.ReplaceKeepsInv | app/routers/documents.py:277-286 | a replacement under both locks still fits although rows were deleted since its check |
| WorkspaceQuota.InsertPassesIff | app/routers/documents.py:118-132 | a transaction that nobody disturbs inserts if and only if the sum leaves room |
| WorkspaceQuota.ReplacePassesIff | app/routers/documents.py:277-286 | one that replaces goes through if and only if the other documents leave room |
| WorkspaceQuota.SumSplits | app/routers/imports.py:192-198 | the sum over a workspace does not depend on the order of its rows |
| WorkspaceQuota.QuotaTable.Insert | app/routers/imports.py:191-200 | inserts if and only if the sum leaves room, and changes only that workspace's sum |
| WorkspaceQuota.QuotaTable.Replace | app/routers/documents.py:277-286 | the old size does not count against the new one |
| AuditChain.VerifyRows | scripts/verify_audit_chain.py:42-59 | the loop reports exactly the findings of its specification |
| AuditChain.CleanIffNoFindings | scripts/verify_audit_chain.py:42-59 | nothing is reported if and only if every row links to the one before and hashes right |
| AuditChain.ChainIsClean | migrations/versions/0008_dead_letters_quarantine_audit_chain.py:130-142 | rows appended by the trigger in sequence order always verify |
| AuditChain.Backfill | migrations/versions/0008_dead_letters_quarantine_audit_chain.py:108-121 | the loop over the existing rows leaves the chain of their payloads |
| AuditChain.LastHashFixesHistory | scripts/verify_audit_chain.py:16-32 | two clean chains with the same last hash are equal, lengths included |
| AuditChain.EditIsReportedThere | scripts/verify_audit_chain.py:42-59 | an edited payload is reported at its row and nowhere else |
| AuditChain.RehashIsReportedBehind | scripts/verify_audit_chain.py:42-59 | an edited and rehashed row is reported at the next row only |
| AuditChain.ErasedHashIsReportedThere | scripts/verify_audit_chain.py:42-59 | an erased hash is reported at its row and nowhere else |
| AuditChain.RemovalIsReportedBehind | scripts/verify_audit_chain.py:42-59 | a removed interior row is always reported at its successor, and nowhere else |
| AuditChain.HashesMoveOn | migrations/versions/0008_dead_letters_quarantine_audit_chain.py:130-142 | no row of a clean chain repeats the hash of its predecessor |
| AuditChain.InsertIsCleanIffInOrder | migrations/versions/0008_dead_letters_quarantine_audit_chain.py:134-138 | an insert keeps the chain clean if and only if locks are taken in sequence order |
| AuditChain.MovedBarIsNotReported | scripts/verify_audit_chain.py:17-31 | among any number of fields, text moved across a separator between two neighbours is not reported |
| AuditChain.JoinIsInjective | scripts/verify_audit_chain.py:17-31 | without the separator inside a field the joined payload determines the fields |
| EmbeddingCache.LastAfterTouch | app/services/embedder.py:28-35 | moving a key to the end and evicting from the front keeps exactly the last touched distinct keys |
| EmbeddingCache.Embedder.CacheGet | app/services/embedder.py:18-25 | a hit answers what the model would and is a touch; a miss changes nothing |
| EmbeddingCache.Embedder.CachePut | app/services/embedder.py:28-35 | the cache is exactly the capacity most recently touched distinct keys |
| EmbeddingCache.Embedder.EmbedDocuments | app/services/embedder.py:49-76 | from any valid cache the result is the encoding of each text in order, with one touch per text |
| EmbeddingCache.Embedder.EmbedQuery | app/services/embedder.py:79-89 | answers the encoding of instruction and query |
| EmbeddingCache.SpellingIsInjective | app/services/embedder.py:57-80 | document and query keys never collide |

## Left out

- HTTP, authentication of requests, pagination, metrics, tracing, notifications, graph rebuild: no state that these theorems are about.
- Chunk metadata, quarantine flag, error texts and `stage` columns are not part of the row; they guard nothing.
- One cell is one document: steps of different documents touch disjoint rows, and `delete_knowledge_base` appears as its effect on one of them.
- `IngestionStore` has no method for `delete_knowledge_base` and `reconcile_orphan_objects`: they are steps of the transition system only.
- IngestionStore.DocumentStore.IngestDocument: states an execution that nothing interrupts; interleavings are the subject of the transition system, whose steps the called methods leave.
- IngestionProgress.UnfinishedCanFinish: says that a finishing schedule exists, not that a fair scheduler takes it.
- Time-limit kills of the dispatcher are its death between two steps.
- Capacity.FallbackRefinesScript: both backends at once during an outage are not modelled, because the code gives no bound there. Key strings are a datatype, so identifiers with colons are not modelled.
- RefreshTokens.TokenStore.RevokeAllUserFamilies: is stated undisturbed; what a login between its commands does is in `StepListsIff`. Malformed stored records cannot arise from these commands.
- Websocket tickets and access tokens: a single `GETDEL` and a stateless signature.
- ChunkerStrategies.Semantic: the similarity is an arbitrary predicate on neighbouring paragraphs; floating-point arithmetic is not modelled.
- ChunkerMerge.MergeIsGreedy: is stated for units that are not empty, as all callers pass them (app/services/chunker.py:88-120).
- The dispatch of page, section, content type and URL through `StructuredChunk` is one copied field.
- AuditChain.VerifyRows: verifies a full, unpurged chain; the JSON and timestamp rendering that must agree between the database and the script is one payload string.
- EmbeddingCache.Embedder.EmbedDocuments: one caller at a time; other callers' operations keep the same invariant between its own. Loading the model is not modelled.
- Rank fusion, context budgeting, history cache, circuit breaker, regex detectors and query routing: each claim about them would be read off one branch.
