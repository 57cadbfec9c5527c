# SakuraPlayer backend, verified

This Dafny project models the state machines of the SakuraPlayer backend: its queues, caches, logs
and credential stores, each of which is a set of tables changed by short transactions. Every
transaction is one atomic step, runs are sequences of steps, and the main results hold for every
run, every reachable state or every input. `dafny verify dfyconfig.toml` checks everything.

Each core has a specification on plain values (functions on a record of tables, and a step function
over actions), an invariant with the proof that every step keeps it, properties over whole runs, and
a class or methods in the source's own imperative form proved against the specification. What each
transaction achieves is stated through what can be done after it: under a new claim exactly the
announced stages start, a playing client's lease keeps cleanup away, an issued token lets in.

| files | what they model |
|---|---|
| `Events`, `Replay` | the transactional outbox, its retention window, snapshot watermarks and web socket delivery |
| `MetadataModel`, `MetadataInvariants`, `MetadataRuns`, `MetadataProperties`, `MetadataEffects`, `MetadataQueue` | the metadata job queue: attempts, leased claims, stages, retries and the catalog state derived from them |
| `CacheModel`, `CacheInvariants`, `CacheRuns`, `CacheProperties`, `CleanupQueueOrder`, `CacheEffects`, `CacheStore` | the cache lifecycle: admission, pipeline, cancellation, selection, playback leases, eviction and cleanup |
| `Base64Url`, `MovieListing`, `MoviePaging` | keyset pagination of the movie list with its opaque cursors and batched scan |
| `MediaPlan`, `MediaPlanProperties`, `MediaPlanner` | scanning a download, grouping segments, scoring and choosing |
| `Credentials` | the cloud binding and its versioned cookie |
| `Sessions`, `SessionProperties` | administrator sessions and rotating tokens |
| `ActorNames`, `ActorDirectory`, `ActorTables`, `ActorAssets` | actor aliases from two sources, and actor pictures |
| `Orders`, `Wrappers` | strict orders with their unique listings, options, results and set facts |

## How to read it

Ids, claim tokens and claim owners are numbers drawn fresh by the environment; the clock is read inside each
step and does not run backwards, and instants are integers counting microseconds. A claim token also stands for the
worker that drew it. What a foreign service answers is a parameter left open: remote directory
lookups and deletions, credential probes, signatures, checks of payloads and forms.

Five findings about the code came out of the proofs:

- Failing a metadata job closes one running stage only, and a second running stage is not forbidden,
  so a failed job may keep a stage that says it is running. Such a stage is not offered for retry
  (`FailClosesOneStage` gives the exact condition, `RunningStageOutlivesItsJob` a run from the empty
  database).
- Splitting a movie moves a source without looking at its active cache job. The next play request of
  the source under its new movie is then bound to a job of the old one (`SettledExactlyWhenGuarded`
  gives the exact condition over runs, `KeyOfAnotherMovie` a run).
- `CacheCapacityService.transition` looks at no playback lease. No other code of the backend calls it;
  used on a ready job it breaks the lease guarantee exactly when the job is being played
  (`TransitionIgnoresLeases`).
- A core import leaves an alias key to the actor mapping if the mapping holds it at that moment. When
  a later mapping drops the key, it is gone from the actor although JavDB lists it
  (`ImportedKeySurvivesExactly`, and a run in `ImportedKeyIsLost`).
- Logging out ends every access token issued before, of all sessions, but only its own session; the
  others refresh as before (`LogoutEndsAccess`, `LogoutEndsOneSession`).

## Model

| member | source | states |
|---|---|---|
| `DomainEvents.EventStore.Append` | `backend/src/sakuraplayer/events/outbox.py:31-82` | one event is added with the next global sequence and its aggregate's next version, or nothing changes when the type or the payload is refused |
| `DomainEvents.EventStore.PruneExpired` | `backend/src/sakuraplayer/events/outbox.py:146-152` | exactly the rows whose window has ended go; the others keep their order |
| `DomainEvents.EventStore.ReadAfter` | `backend/src/sakuraplayer/events/outbox.py:101-132` | the page starts right behind the cursor's row, or at the first unexpired row without a cursor, and runs on over unexpired rows up to the limit; an error exactly when the cursor names no unexpired event |
| `DomainEvents.PageMeaning` | `backend/src/sakuraplayer/events/outbox.py:101-132` | the same of the query itself: the cursor's row is the last one left out, and nothing behind it is skipped |
| `DomainEvents.EventStore.SendAvailable` | `backend/src/sakuraplayer/events/websocket.py:111-122` | the paged loop sends everything unexpired past the start, once and in order, and ends on the last event sent |
| `DomainEvents.SelectIsSuffix` | `backend/src/sakuraplayer/events/outbox.py:115-132` | because expiries never decrease along the log, the unexpired rows past a sequence are one suffix of the table |
| `DomainEvents.DrainPage` | `backend/src/sakuraplayer/events/websocket.py:111-122` | each page of the drain extends the sent prefix, and a short page means the suffix is finished |
| `EventReplay.RunKeepsLogInv` | `backend/src/sakuraplayer/events/outbox.py:49-82` | over any run of appends, prunes, polls and clock ticks the table is the committed history without an expired prefix, sequences are the positions in it |
| `EventReplay.WatermarkMeaning` | `backend/src/sakuraplayer/events/outbox.py:134-144` | a snapshot carries the newest committed sequence, and a null handle exactly when the whole history has expired |
| `EventReplay.AnchoredPage` | `backend/src/sakuraplayer/events/outbox.py:110-132` | a page behind an event is the history right after it, or fails exactly when that event has expired: nothing is skipped silently |
| `EventReplay.SnapshotReplay` | `backend/src/sakuraplayer/events/websocket.py:67-122` | whatever ran before the snapshot and after it, the delivered events are one gapless stretch of the history that starts right behind the snapshot's version, or, for a null cursor, at the first event unexpired when the first page was read |
| `EventReplay.ShortPageIsCaughtUp` | `backend/src/sakuraplayer/events/websocket.py:116-122` | after a page below the limit the subscriber holds every unexpired event newer than its snapshot |
| `EventReplay.PollClosesOnExpiredCursor` | `backend/src/sakuraplayer/events/websocket.py:89-93` | a poll closes the connection exactly when the last event held has expired |
| `EventReplay.VersionsAreGapless` | `backend/src/sakuraplayer/events/outbox.py:58-82` | an aggregate's versions over the whole history are 1, 2, 3, …, each carried by one event, pruning notwithstanding |
| `EventReplay.PruneKeepsTheWindow` | `backend/src/sakuraplayer/events/outbox.py:146-152` | pruning after any time has passed leaves exactly the events of the history whose window is still open |
| `DomainEvents.AppendedIsReadable` | `backend/src/sakuraplayer/events/outbox.py:49-82` | an appended event becomes the watermark and can be read by its id for exactly thirty days |
| `MetadataQueueService.MetadataQueue.Enqueue` | `backend/src/sakuraplayer/catalog/metadata_queue.py:100-138` | a first attempt for a number, or the existing newest one; the movie must carry the number |
| `MetadataQueueService.MetadataQueue.EnsureSearchPriority` | `backend/src/sakuraplayer/catalog/metadata_queue.py:156-211` | a queued attempt is promoted to search priority, a missing one is added, anything else is only reported |
| `MetadataQueueService.MetadataQueue.EnsureRankingPriority` | `backend/src/sakuraplayer/catalog/metadata_queue.py:213-270` | the same for rankings, never lowering a better priority |
| `MetadataQueueService.MetadataQueue.RescrapeMovie` | `backend/src/sakuraplayer/catalog/metadata_queue.py:272-326` | promotes, reports or adds the next full attempt depending on the newest one |
| `MetadataQueueService.MetadataQueue.RetryManually` | `backend/src/sakuraplayer/catalog/metadata_queue.py:328-369` | a child attempt of a failed job, refused while the number is active |
| `MetadataQueueService.MetadataQueue.RetryMissingEnrichment` | `backend/src/sakuraplayer/catalog/metadata_queue.py:371-430` | a child attempt for retryable stages only, of a movie that has its core |
| `MetadataQueueService.MetadataQueue.SetPaused` | `backend/src/sakuraplayer/catalog/metadata_queue.py:447-469` | flips the pause and nothing else |
| `MetadataQueueService.MetadataQueue.ClaimNext` | `backend/src/sakuraplayer/catalog/metadata_queue.py:471-574` | the least claimable job gets a fresh claim, its interrupted stages go back to pending and its movie to running, unless paused or at three live claims |
| `MetadataQueueService.MetadataQueue.RequireActiveClaim` | `backend/src/sakuraplayer/catalog/metadata_queue.py:1054-1073` | true exactly when the claim is the job's own, unexpired one; it is then the only held claim of that job and of that owner, and the job is the only active one of its number |
| `MetadataQueueService.MetadataQueue.RenewClaim` | `backend/src/sakuraplayer/catalog/metadata_queue.py:576-597` | a held claim is extended; a lost one changes nothing |
| `MetadataQueueService.MetadataQueue.ExpireClaim` | `backend/src/sakuraplayer/catalog/metadata_queue.py:656-669` | a held claim expires now |
| `MetadataQueueService.MetadataQueue.BeginStage` | `backend/src/sakuraplayer/catalog/metadata_queue.py:671-695` | a pending stage of a held job starts |
| `MetadataQueueService.MetadataQueue.EndStage` | `backend/src/sakuraplayer/catalog/metadata_queue.py:715-751` | a running stage of a held job gets its one result |
| `MetadataQueueService.MetadataQueue.CompleteJob` | `backend/src/sakuraplayer/catalog/metadata_queue.py:753-795` | a held job with no open stage completes, with warnings exactly as its stages say |
| `MetadataQueueService.MetadataQueue.FailJob` | `backend/src/sakuraplayer/catalog/metadata_queue.py:825-880` | a held job fails, one running stage is closed and the movie falls back to raw only |
| `MetadataQueueService.MetadataQueue.ImportCoreMetadata` | `backend/src/sakuraplayer/catalog/core_import.py:59-93` | under the fence the movie becomes core-ready; otherwise nothing changes |
| `MetadataQueueService.MetadataQueue.LatestNonSkippedStatus` | `backend/src/sakuraplayer/catalog/metadata_queue.py:1177-1199` | the guarded loop over ancestors computes the recursive walk |
| `MetadataQueueService.MetadataQueue.RetryableStages` | `backend/src/sakuraplayer/catalog/metadata_queue.py:1146-1174` | the listed stages are exactly the retryable ones |
| `MetadataRuns.StepKeepsInv` | `backend/src/sakuraplayer/catalog/metadata_queue.py:88-943` | every transaction keeps the queue's invariant: attempts, lineage, catalog states, row shapes, claim owners and the slot bound |
| `MetadataRuns.RunKeepsInv` | `backend/src/sakuraplayer/catalog/metadata_queue.py:88-943` | so it holds in every reachable state |
| `MetadataProperties.ReachableStates` | `backend/src/sakuraplayer/catalog/metadata_queue.py:404-409` | in every reachable state a movie is core-ready or its state is the one its newest attempt calls for; enrichment attempts belong to core-ready movies; a completed job has no open stage and warns exactly when a stage did; one active job per number; at most three live claims |
| `MetadataProperties.AttemptsAreContiguous` | `backend/src/sakuraplayer/catalog/metadata_queue.py:1046-1052` | in every reachable state a number's attempts are exactly 1..k, one job each, and every attempt before another has ended |
| `MetadataProperties.RunEvolves` | `backend/src/sakuraplayer/catalog/metadata_queue.py:882-943` | over any run attempts keep number and lineage, terminal jobs and settled stages never change, priorities only improve, and core-ready is never left |
| `MetadataProperties.LostClaimIsFenced` | `backend/src/sakuraplayer/catalog/metadata_queue.py:1054-1073` | once a claim is lost, no renewal, start, result, completion, failure, expiry or core import under it changes anything at any later point of any run |
| `MetadataProperties.ClaimEndsExactly` | `backend/src/sakuraplayer/catalog/metadata_queue.py:515-532` | a held claim is lost exactly by its own completion or failure or by a reclaim of its job |
| `MetadataProperties.ClaimOrder` | `backend/src/sakuraplayer/catalog/metadata_queue.py:497-513` | priority, date descending with missing dates last, creation and id form a strict total order |
| `MetadataProperties.ClaimTakesLeast` | `backend/src/sakuraplayer/catalog/metadata_queue.py:479-532` | a claim succeeds exactly when not paused, below three live claims and something is queued or expired; it takes the least such job |
| `MetadataProperties.PendingStages` | `backend/src/sakuraplayer/catalog/metadata_queue.py:551-553` | the pending stages found in an order are exactly those of it that are pending |
| `MetadataProperties.SearchReportsNewest` | `backend/src/sakuraplayer/catalog/metadata_queue.py:156-211` | what a search is told is the state of the newest attempt, or completed once the core is there |
| `MetadataProperties.RankingReportsNewest` | `backend/src/sakuraplayer/catalog/metadata_queue.py:213-270` | likewise for a ranking |
| `MetadataProperties.WalkFindsNearest` | `backend/src/sakuraplayer/catalog/metadata_queue.py:1177-1199` | the walk with its visited set finds the nearest attempt that did not skip the stage; the guard never cuts it short |
| `MetadataProperties.RetryableExactly` | `backend/src/sakuraplayer/catalog/metadata_queue.py:1146-1174` | a stage may be retried exactly when it is not the core, the job completed with warnings or failed as a full attempt whose core was imported, and the nearest attempt that did not skip the stage left it warned, failed or pending |
| `MetadataProperties.FailClosesOneStage` | `backend/src/sakuraplayer/catalog/metadata_queue.py:851-863` | failing closes one running stage: none is left exactly when at most one was running |
| `MetadataProperties.FailedJobMayKeepRunningStage` | `backend/src/sakuraplayer/catalog/metadata_queue.py:671-695` | two stages started under one claim leave a failed job with a stage still running, which is then not retryable |
| `MetadataProperties.RunningStageOutlivesItsJob` | `backend/src/sakuraplayer/catalog/metadata_queue.py:851-863` | a run of six transactions from the empty database ends there |
| `MetadataEffects.ClaimPreparesStages` | `backend/src/sakuraplayer/catalog/metadata_queue.py:515-574` | after a claim no stage runs: every open one is pending again and every settled one as it was; exactly the open ones are announced, in the order of the pipeline, with warnings told truly; the instant of the first start stays |
| `MetadataEffects.AnnouncedStagesStart` | `backend/src/sakuraplayer/catalog/metadata_queue.py:671-695` | under the new claim exactly the announced stages can be started |
| `MetadataEffects.ClaimLastsItsLease` | `backend/src/sakuraplayer/catalog/metadata_queue.py:529-534` | a claim is held for exactly its lease and can be taken over from that instant on |
| `MetadataEffects.RenewalLastsItsLease` | `backend/src/sakuraplayer/catalog/metadata_queue.py:576-597` | a renewal starts the lease again and changes nothing else |
| `MetadataEffects.ExpiryFreesTheJob` | `backend/src/sakuraplayer/catalog/metadata_queue.py:656-669` | an expired claim is not held any more, and its job can be claimed at once |
| `MetadataEffects.PauseStopsClaims` | `backend/src/sakuraplayer/catalog/metadata_queue.py:480-484` | nothing is claimed while paused, and going on restores the queue as it was |
| `MetadataEffects.StageStarts` | `backend/src/sakuraplayer/catalog/metadata_queue.py:671-695` | under a held claim exactly a pending stage starts, once, and no other row or stage changes |
| `MetadataEffects.StageTakesOneResult` | `backend/src/sakuraplayer/catalog/metadata_queue.py:715-751` | exactly a running stage takes a result, once: afterwards it can be neither started nor finished again |
| `MetadataEffects.CompletesExactly` | `backend/src/sakuraplayer/catalog/metadata_queue.py:753-795` | completion is accepted exactly under a held claim with the core there, no stage open and the warnings told truly; the job is then out of reach of every claim |
| `MetadataEffects.FailureCanBeRetried` | `backend/src/sakuraplayer/catalog/metadata_queue.py:825-880` | a failure keeps its code, gives the claim up, takes a movie without its core back to raw, and can be retried by hand at once |
| `MetadataEffects.ImportsExactly` | `backend/src/sakuraplayer/catalog/core_import.py:59-93` | the core is imported exactly under the fence without an identity conflict, and only the movie's state changes |
| `MetadataEffects.EnqueuesOnce` | `backend/src/sakuraplayer/catalog/metadata_queue.py:100-138` | the first request makes attempt 1 with every stage pending; later ones get the newest attempt and change nothing |
| `MetadataEffects.SearchRaisesQueued` | `backend/src/sakuraplayer/catalog/metadata_queue.py:156-211` | a search makes a new attempt or raises the queued newest one to priority 10, exactly where the movie has no core; otherwise nothing changes |
| `MetadataEffects.RankingRaisesQueued` | `backend/src/sakuraplayer/catalog/metadata_queue.py:213-270` | a ranking does so with priority 20, never lowering a better one |
| `MetadataEffects.RescrapeStartsOver` | `backend/src/sakuraplayer/catalog/metadata_queue.py:272-326` | a rescrape raises a queued full attempt, reports a running one, is refused by active enrichment, and otherwise adds the next full attempt as a child of the newest |
| `MetadataEffects.RetriesExactly` | `backend/src/sakuraplayer/catalog/metadata_queue.py:328-369` | a failed job gets a full child attempt exactly while its number has no active job |
| `MetadataEffects.EnrichmentRetriesExactly` | `backend/src/sakuraplayer/catalog/metadata_queue.py:371-430` | enrichment is retried exactly for distinct retryable stages of a job whose number has no active one; the child does those stages and skips the others |
| `MetadataEffects.SearchedComesFirst` | `backend/src/sakuraplayer/catalog/metadata_queue.py:493-512` | after a search told that its job is queued, whatever is claimed next has at least its priority |
| `CacheServices.CacheStore.UniqueTaskDirName` | `backend/src/sakuraplayer/cloud_cache/play_request.py:44-58` | names are drawn until no job of the binding has the one drawn; every name before it was taken |
| `CacheServices.CacheStore.CreatePlayRequest` | `backend/src/sakuraplayer/cloud_cache/play_request.py:157-266` | replays a known key, reuses the active job of the source, or admits a new job within the running and queued capacities, under the first directory name drawn that no job of the binding has |
| `CacheServices.CacheStore.Transition` | `backend/src/sakuraplayer/cloud_cache/capacity.py:72-95` | a legal edge is taken, entering the running class only below its capacity |
| `CacheServices.CacheStore.RequestCancel` | `backend/src/sakuraplayer/cloud_cache/cancellation.py:54-114` | cancelling, then cleaning or cleaned at once depending on what exists remotely; a directory creation in flight keeps its claim |
| `CacheServices.CacheStore.CancelRow` | `backend/src/sakuraplayer/cloud_cache/cancellation.py:72-101` | the job row of a cancellation, assignment by assignment |
| `CacheServices.CacheStore.Select` | `backend/src/sakuraplayer/cloud_cache/media_selection_api.py:52-135` | a valid whole candidate makes an awaiting job ready with its timestamps |
| `CacheServices.CacheStore.CreateSessions` | `backend/src/sakuraplayer/playback/session.py:139-216` | one session and one running lease per selected item, and the job's lifetime starts again |
| `CacheServices.CacheStore.AcquireLease` | `backend/src/sakuraplayer/playback/lease.py:48-121` | a usable session of a ready job gets a running lease and refreshes the job |
| `CacheServices.CacheStore.SendHeartbeat` | `backend/src/sakuraplayer/playback/heartbeat.py:51-135` | a playing heartbeat extends lease and job, a stopped one ends the lease |
| `CacheServices.CacheStore.End` | `backend/src/sakuraplayer/playback/lease.py:123-140` | the lease ends once |
| `CacheServices.CacheStore.Played` | `backend/src/sakuraplayer/cloud_cache/cleanup.py:526-543` | whether an active lease exists for the job; such a job is ready and within its lifetime |
| `CacheServices.CacheStore.Request` | `backend/src/sakuraplayer/cloud_cache/cleanup.py:99-132` | a ready, awaiting or cleanup-failed job nobody plays goes to cleaning |
| `CacheServices.CacheStore.NextJob` | `backend/src/sakuraplayer/cloud_cache/cleanup.py:140-186` | the job the two queries return |
| `CacheServices.CacheStore.ClaimNext` | `backend/src/sakuraplayer/cloud_cache/cleanup.py:134-257` | the chosen job is claimed for cleaning with its next attempt, or detached when it has no binding or directory |
| `CacheServices.CacheStore.StartAttempt` | `backend/src/sakuraplayer/cloud_cache/cleanup.py:214-244` | ends a running attempt and opens the next number |
| `CacheServices.CacheStore.Finish` | `backend/src/sakuraplayer/cloud_cache/cleanup.py:259-400` | succeed, fail, release and detach under the claim; a lost claim changes nothing |
| `CacheServices.CacheStore.DeleteWithBusyRetry` | `backend/src/sakuraplayer/cloud_cache/cleanup.py:499-523` | at most three tries, repeated only while the answer is busy |
| `CacheServices.CacheStore.Process` | `backend/src/sakuraplayer/cloud_cache/cleanup.py:427-497` | cleaned exactly when the owned root has no such directory, or the owned directory was deleted or gone within the tries; released exactly on busy below attempt 60; detached exactly when ownership is foreign, the root directory is missing or the parent vanished within the tries; every other error fails it |
| `CacheRuns.StepKeepsInv` | `backend/src/sakuraplayer/cloud_cache/capacity.py:72-111` | every transaction of admission, pipeline, cancellation, selection, playback and cleanup keeps the lifecycle invariant |
| `CacheRuns.RunKeepsInv` | `backend/src/sakuraplayer/cloud_cache/capacity.py:72-111` | so it holds in every reachable state |
| `CacheRuns.EffectIsGood` | `backend/src/sakuraplayer/cloud_cache/worker/claim.py:158-604` | what a pipeline worker writes under its claim keeps statuses, classes and timestamps consistent |
| `CacheProperties.ReachableAdmission` | `backend/src/sakuraplayer/cloud_cache/play_request.py:167-252` | in every reachable state at most 2 running and 10 queued jobs, classes as the table says, one non-released job per source and binding, keys bound to jobs of their source, directory names distinct per binding |
| `CacheProperties.RunEvolves` | `backend/src/sakuraplayer/cloud_cache/play_request.py:169-178` | over any run a key stays bound to its first job, and a job keeps its movie, source and directory name and never takes back released capacity |
| `CacheProperties.KeysKeepTheirMovie` | `backend/src/sakuraplayer/cloud_cache/play_request.py:195-216` | over every run from the empty database in which no source with a job holding capacity is moved to another movie, each key leads to a job of the movie and the source it was used with |
| `CacheProperties.SettledExactlyWhenGuarded` | `backend/src/sakuraplayer/cloud_cache/play_request.py:195-216` | along a run this holds at every moment if and only if no assignment moved a source away from the movie of a job holding capacity |
| `CacheProperties.KeyOfAnotherMovie` | `backend/src/sakuraplayer/resources/movie_source_service.py:107-151` | a run of five transactions from the empty database ends with a key that leads to a job of another movie |
| `CacheProperties.AssignKeepsSettledExactly` | `backend/src/sakuraplayer/resources/movie_source_service.py:107-151` | moving a source keeps keys and jobs with their movies exactly when every job of the source that holds capacity already has the new movie |
| `CacheProperties.MovedSourceMixesMovies` | `backend/src/sakuraplayer/resources/movie_source_service.py:107-151` | when a job of another movie holds capacity, the next key for the moved source is bound to that job |
| `CacheProperties.LeaseOutlivedByJob` | `backend/src/sakuraplayer/playback/lease.py:83-97` | every lease expires strictly before its job's own lifetime |
| `CacheProperties.DueJobsAreNotPlayed` | `backend/src/sakuraplayer/cloud_cache/cleanup.py:165-176` | a job past its lifetime has no active lease |
| `CacheProperties.PlayedJobStaysReady` | `backend/src/sakuraplayer/cloud_cache/cleanup.py:106-115` | a job with an active lease is ready, and no transaction takes it out of ready |
| `CacheProperties.TransitionIgnoresLeases` | `backend/src/sakuraplayer/cloud_cache/capacity.py:72-95` | the guarded transition on a ready job breaks this exactly when someone plays from it |
| `CacheEffects.AdmitsExactly` | `backend/src/sakuraplayer/cloud_cache/play_request.py:167-266` | a known key replays its job or conflicts, a new key is bound to the job it gets, a refusal changes nothing; a new job is submitted below two running ones or queued below ten |
| `CacheEffects.ActiveJobIsShared` | `backend/src/sakuraplayer/cloud_cache/play_request.py:195-216` | a new key in order gets the source's active job of the binding, if there is one |
| `CacheEffects.RefusedExactlyWhenFull` | `backend/src/sakuraplayer/cloud_cache/play_request.py:218-252` | a new key with everything in order is refused exactly when both capacities are used up |
| `CacheEffects.TransitionsExactly` | `backend/src/sakuraplayer/cloud_cache/capacity.py:72-95` | the transition takes exactly the legal edges that leave the running capacity respected |
| `CacheEffects.AcquiringPlays` | `backend/src/sakuraplayer/playback/lease.py:48-121` | acquiring succeeds exactly for an open session; the client's lease is then active at every instant before the earlier of 90 seconds from now and the session's end, and the job's lifetime starts again |
| `CacheEffects.HeartbeatPlays` | `backend/src/sakuraplayer/playback/heartbeat.py:85-135` | a playing heartbeat does the same, exactly for the session's own administrator and an existing lease; a stopped one ends the lease at once and for good |
| `CacheEffects.PlayingStarts` | `backend/src/sakuraplayer/playback/session.py:139-216` | starting to play gives every new session such a lease and twelve hours, exactly on a ready job |
| `CacheEffects.PlayingAddsOnly` | `backend/src/sakuraplayer/playback/session.py:139-216` | and changes nothing but the job's row |
| `CacheEffects.ActiveLeaseProtects` | `backend/src/sakuraplayer/cloud_cache/cleanup.py:106-151` | while a lease is active cleanup is refused for its job and no claim takes it |
| `CacheEffects.PlayingKeepsCleanupAway` | `backend/src/sakuraplayer/cloud_cache/cleanup.py:106-151` | so after an acquire, a playing heartbeat or a start, cleanup stays away for as long as that lease runs, whatever the clock shows |
| `CacheEffects.EndingStops` | `backend/src/sakuraplayer/playback/lease.py:123-140` | ending a running lease stops it; an ended one stays as it was |
| `CacheEffects.LastClientFreesTheJob` | `backend/src/sakuraplayer/playback/lease.py:123-140` | when the last client leaves, the job can be cleaned |
| `CacheEffects.CancelsExactly` | `backend/src/sakuraplayer/cloud_cache/cancellation.py:54-114` | a confirmed cancellation is accepted exactly before the job is ready or once it is on its way; it is cleaned at once when nothing exists remotely, to be cleaned when only its directory does, cancelling otherwise |
| `CacheEffects.CancelledNeverPlays` | `backend/src/sakuraplayer/cloud_cache/domain/cache_job.py:106-131` | after an accepted cancellation no run makes the job ready or playable again |
| `CacheEffects.PipelineClaimsExactly` | `backend/src/sakuraplayer/cloud_cache/worker/claim.py:89-173` | the pipeline claims a working job nobody holds, a downloading one two seconds after its last update, and a queued one below two running |
| `CacheEffects.PipelineClaimHolds` | `backend/src/sakuraplayer/cloud_cache/worker/claim.py:134-146` | a pipeline claim is held for exactly 90 seconds |
| `CacheEffects.SubmissionGoesOffline` | `backend/src/sakuraplayer/cloud_cache/worker/claim.py:348-396` | under one claim the directory is saved, the submission announced and made; the directory never changes and the submission is announced once |
| `CacheEffects.DownloadIsResolved` | `backend/src/sakuraplayer/cloud_cache/worker/claim.py:418-461` | a finished download is resolved only for the hash that was submitted |
| `CacheEffects.ResolutionMaterializes` | `backend/src/sakuraplayer/cloud_cache/worker/claim.py:188-317` | a resolved job is ready at once when its media were chosen, waits for a choice otherwise, and lives for its hours from now |
| `CacheEffects.CancellationCompletes` | `backend/src/sakuraplayer/cloud_cache/worker/claim.py:463-491` | a cancelled job with a directory is left to cleanup, one without is cleaned |
| `CacheEffects.UncertainJobsWait` | `backend/src/sakuraplayer/cloud_cache/worker/claim.py:398-416` | a submission of unknown outcome leaves the job without a hash and out of the pipeline's reach until it is cancelled |
| `CacheEffects.FailedJobsAreLeft` | `backend/src/sakuraplayer/cloud_cache/worker/claim.py:511-528` | a job its worker fails releases its capacity, and no worker takes it again; a failed download does the same |
| `CacheEffects.DetachedJobsAreLeft` | `backend/src/sakuraplayer/cloud_cache/worker/claim.py:319-337` | exactly a resolving job is detached by its worker, with the same effect |
| `CacheEffects.DeferredJobsComeBack` | `backend/src/sakuraplayer/cloud_cache/worker/claim.py:564-585` | a deferred job stays with its worker for the delay, a day at most, and is then free |
| `CacheEffects.CancelTargetIsSaved` | `backend/src/sakuraplayer/cloud_cache/worker/claim.py:493-509` | the download found for a cancelled job is recorded only while it is being cancelled |
| `CacheEffects.UnbindingForgets` | `backend/src/sakuraplayer/cloud_cache/binding_service.py:262-282` | the binding is removed exactly when every job released its capacity; no job is bound then and new keys are refused |
| `CacheEffects.SelectionMakesPlayable` | `backend/src/sakuraplayer/cloud_cache/media_selection_api.py:97-121` | a valid choice makes exactly an awaiting job ready, with the lifetime it had, and it can be played |
| `CacheEffects.RequestQueues` | `backend/src/sakuraplayer/cloud_cache/cleanup.py:99-132` | cleanup is accepted exactly for an unplayed job that is materialized, failed to be cleaned or being cleaned; it then waits free of any claim |
| `CacheEffects.LongestWaitingFirst` | `backend/src/sakuraplayer/cloud_cache/cleanup.py:146-156` | of the waiting jobs the one that waited longest is served, the lower id on a tie, and none is evicted meanwhile |
| `CacheEffects.CleanupClaimHolds` | `backend/src/sakuraplayer/cloud_cache/cleanup.py:187-257` | a cleanup claim is held for exactly 120 seconds, on the job's next attempt; the running attempt before it fails, and an evicted job carries why |
| `CacheEffects.UnownedIsDetached` | `backend/src/sakuraplayer/cloud_cache/cleanup.py:196-212` | the claim detaches a job exactly when it has no binding or no directory |
| `CacheEffects.EndingsLeave` | `backend/src/sakuraplayer/cloud_cache/cleanup.py:259-400` | each ending leaves the job and the attempt in its own state and frees the claim |
| `CacheEffects.EndingsAreFinal` | `backend/src/sakuraplayer/cloud_cache/cleanup.py:379-401` | an ending happens once; a released job waits in the queue again, and a failed one can be requested again |
| `CacheEffects.BusyGivesUp` | `backend/src/sakuraplayer/cloud_cache/cleanup.py:480-491` | a busy remote gives the job back up to its 59th attempt and fails it from the 60th on |
| `CleanupOrder.LruKeyAgreesWithQuery` | `backend/src/sakuraplayer/cloud_cache/ttl_lru.py:45-58` | the key of `lru_order_key` orders like the query, missing instants included, and on materialized jobs like the eviction order |
| `CleanupOrder.ChosenExactly` | `backend/src/sakuraplayer/cloud_cache/cleanup.py:146-186` | a claim serves the first waiting job if any, else evicts the first eligible one, and finds nothing exactly when there is neither |
| `CleanupOrder.ClaimShrinksPending` | `backend/src/sakuraplayer/cloud_cache/cleanup.py:134-257` | each claim takes one job out of the pending set and leaves the rest alone |
| `CleanupOrder.DrainTerminates` | `backend/src/sakuraplayer/cloud_cache/cleanup.py:134-257` | repeated claims at one instant end within as many claims as there were pending jobs |
| `CleanupOrder.QuietMeaning` | `backend/src/sakuraplayer/cloud_cache/cleanup.py:158-186` | then nothing due and free is left, and the ready jobs outside cleaning number at most 20 or none of them is free |
| `CleanupOrder.EvictionsArePrefix` | `backend/src/sakuraplayer/cloud_cache/cleanup.py:177-186` | along a drain, evictions are a prefix of the order: due jobs first, then least recently used |
| `CleanupOrder.EvictionLowersExcess` | `backend/src/sakuraplayer/cloud_cache/cleanup.py:158-168` | an eviction lowers the excess by one, and for capacity is only made above the target |
| `CleanupOrder.AheadShrinks` | `backend/src/sakuraplayer/cloud_cache/cleanup.py:146-156` | once the clock passed a waiting job's last update nothing gets ahead of it, and every claim takes a job that was ahead |
| `CleanupOrder.WaitIsBounded` | `backend/src/sakuraplayer/cloud_cache/cleanup.py:334-349` | while a job waits, at most as many claims pass it as jobs were ahead of it |
| `CleanupOrder.NobodyPassesTwice` | `backend/src/sakuraplayer/cloud_cache/cleanup.py:334-349` | and none of them passes it twice |
| `CleanupOrder.AttemptNumbers` | `backend/src/sakuraplayer/cloud_cache/cleanup.py:226-233` | a job's cleanup attempts are exactly 1..k |
| `CleanupOrder.BusyIsBounded` | `backend/src/sakuraplayer/cloud_cache/cleanup.py:480-491` | over its whole life a job is released as busy at most 59 times and has at most one attempt running |
| `Base64Url.RoundTrip` | `backend/src/sakuraplayer/catalog/query_service.py:1100-1115` | every byte string survives unpadded URL-safe base64 (section 5 of RFC 4648), and the text needs no escaping |
| `Base64Url.PaddedTextDecodes` | `backend/src/sakuraplayer/catalog/query_service.py:1114-1115` | text with all or part of its padding still decodes; with more it is refused |
| `MovieListing.SortOrder` | `backend/src/sakuraplayer/catalog/query_service.py:1001-1063` | each of the three sorts is a strict total order, missing dates last |
| `MovieListing.AdmitsWhatComesAfter` | `backend/src/sakuraplayer/catalog/query_service.py:1009-1052` | the where-clause of a movie's cursor admits exactly the movies after it, in every branch |
| `MovieListing.CursorRoundTrip` | `backend/src/sakuraplayer/catalog/query_service.py:1066-1132` | a cursor reads back as its movie's place under the same filters and is refused under any other |
| `MovieListing.FilterCommutes` | `backend/src/sakuraplayer/catalog/query_service.py:324-353` | filtering a sorted listing is sorting the filtered rows |
| `MoviePaging.Execute` | `backend/src/sakuraplayer/catalog/query_service.py:317-332` | one query: the selected rows past the cursor, in order, up to the limit |
| `MoviePaging.MovieRows` | `backend/src/sakuraplayer/catalog/query_service.py:302-353` | the 100-row scan loop returns the first limit + 1 rows of filter, sort and slice, or the cursor's error |
| `MoviePaging.KeepMatching` | `backend/src/sakuraplayer/catalog/query_service.py:335-344` | a batch is scanned until the page is full |
| `MoviePaging.ListMovies` | `backend/src/sakuraplayer/catalog/query_service.py:243-300` | one page and its next cursor, equal to filter, sort and slice |
| `MoviePaging.CutAfter` | `backend/src/sakuraplayer/catalog/query_service.py:1001-1063` | from any cursor, the rows after a listed row are the rest of the listing |
| `MoviePaging.NextPage` | `backend/src/sakuraplayer/catalog/query_service.py:292-300` | what the next cursor leaves is the rest of the listing |
| `MoviePaging.FollowListsAll` | `backend/src/sakuraplayer/catalog/query_service.py:243-300` | following the cursors from the first page ends and lists exactly the shown movies, in order and once each, for every sort, filter and page size |
| `MoviePaging.PagesNeverOverlap` | `backend/src/sakuraplayer/catalog/query_service.py:1009-1052` | even over a changed catalog the second page starts strictly after the first ended |
| `MoviePaging.ShownExactly` | `backend/src/sakuraplayer/catalog/query_service.py:973-998` | a movie is listed exactly when it has its core, is a favorite if asked, and one of its sources meets all the source filters at once |
| `MoviePaging.ListsExactly` | `backend/src/sakuraplayer/catalog/query_service.py:250-259` | a page is refused exactly on negative or crossed sizes, a page size outside 1 to 100 or an unreadable cursor; it is as long as the limit and the rest allow, and has a next page exactly when more is left |
| `MediaPlanner.ScanRemoteFiles` | `backend/src/sakuraplayer/cloud_cache/file_scanner.py:45-74` | refused exactly on a repeated file id; otherwise exactly the videos and subtitles, in file order |
| `MediaPlanner.NumbersAreContinuous` | `backend/src/sakuraplayer/cloud_cache/media_selection.py:112-113` | whether sorted parts are numbered 1, 2, … |
| `MediaPlanner.FillBuckets` | `backend/src/sakuraplayer/cloud_cache/media_selection.py:95-107` | files fall into buckets of parent, extension and base, or are singles |
| `MediaPlanner.CandidateGroups` | `backend/src/sakuraplayer/cloud_cache/media_selection.py:92-120` | the groups are exactly the candidates of the set of files |
| `MediaPlanner.ScoreMedia` | `backend/src/sakuraplayer/cloud_cache/media_selection.py:123-151` | the score is the sum of its evidence |
| `MediaPlanner.ScoreMembers` | `backend/src/sakuraplayer/cloud_cache/media_selection.py:50-74` | every member scored at its place, with the bonus of a chain |
| `MediaPlanner.PlanMediaSelection` | `backend/src/sakuraplayer/cloud_cache/media_selection.py:40-89` | the plan is a function of the set of files: order of arrival does not matter |
| `MediaPlanner.PlanScan` | `backend/src/sakuraplayer/cloud_cache/file_scanner.py:58-64` | what a scan accepts is planned as a function of its videos, and a choice made without asking among several candidates is the only one carrying the number |
| `MediaPlan.SegmentKeysDiffer` | `backend/src/sakuraplayer/cloud_cache/media_selection.py:114-114` | joined keys tell buckets apart when neither the parent nor the extension holds the separator |
| `MediaPlan.SegmentKeysCollide` | `backend/src/sakuraplayer/cloud_cache/media_selection.py:114-114` | with the separator in a parent, two buckets can share a key |
| `MediaPlanProperties.ChainedExactly` | `backend/src/sakuraplayer/cloud_cache/media_selection.py:110-117` | sorting a bucket yields 1..n exactly when each of these numbers is present |
| `MediaPlanProperties.CandidateMeaning` | `backend/src/sakuraplayer/cloud_cache/media_selection.py:109-120` | a candidate is one file, or at least two parts numbered through over one parent, extension and base |
| `MediaPlanProperties.PlanPartitions` | `backend/src/sakuraplayer/cloud_cache/media_selection.py:84-89` | every file is listed exactly once, under its candidate's key and with its place in it |
| `MediaPlanProperties.EvidenceAddsUp` | `backend/src/sakuraplayer/cloud_cache/media_selection.py:130-151` | the evidence points add up to the score |
| `MediaPlanProperties.CandidateScoreBounds` | `backend/src/sakuraplayer/cloud_cache/media_selection.py:130-144` | with the minimum size, a carrier scores 111 to 190 and any other candidate 11 to 90 |
| `MediaPlanProperties.AutoChoiceIsTheCarrier` | `backend/src/sakuraplayer/cloud_cache/media_selection.py:77-83` | among several candidates one is chosen without asking only if it alone carries the movie number |
| `MediaPlanProperties.ChosenExactlyWhenLeading` | `backend/src/sakuraplayer/cloud_cache/media_selection.py:77-83` | among several candidates one is chosen without asking if and only if it leads every other by the gap, a sole carrier included |
| `MediaPlanProperties.SmallFilesBreakTheBound` | `backend/src/sakuraplayer/cloud_cache/file_scanner.py:58-60` | with one of three files below the scanner's minimum size the plan chooses a candidate although nothing carries the number |
| `MediaPlanProperties.SoleCarrierMayBeAsked` | `backend/src/sakuraplayer/cloud_cache/media_selection.py:78-83` | the plan of three files of sufficient size asks although one candidate alone carries the number |
| `MediaPlanProperties.RankedInTurn` | `backend/src/sakuraplayer/cloud_cache/media_selection.py:75-77` | candidates are ranked by score, then by total size, then by key |
| `MediaPlanProperties.ListedScoresAddUp` | `backend/src/sakuraplayer/cloud_cache/media_selection.py:61-74` | a listed score is its evidence added up: the file's own points, and 20 exactly for a part of a chain |
| `MediaPlanProperties.SizeEvidence` | `backend/src/sakuraplayer/cloud_cache/media_selection.py:140-143` | the size counts one point for each full 256 MiB, forty at most |
| `Credentials.BindingService.CompareAndSetSecret` | `backend/src/sakuraplayer/identity/secrets.py:127-169` | the secret is replaced and its version moved on exactly when the version is the expected one and the row is not public |
| `Credentials.BindingService.DeleteSecret` | `backend/src/sakuraplayer/identity/secrets.py:252-268` | clearing keeps the row and moves its version on |
| `Credentials.BindingService.BindAccount` | `backend/src/sakuraplayer/cloud_cache/binding_service.py:103-156` | binds or rebinds the account with the new cookie at the next version; only another account's binding refuses it |
| `Credentials.BindingService.Unbind` | `backend/src/sakuraplayer/cloud_cache/binding_service.py:262-282` | clears the cookie and removes the binding unless jobs are active |
| `Credentials.BindingService.FinishScope` | `backend/src/sakuraplayer/cloud_cache/binding_service.py:329-373` | a matching scope records its outcome and possibly a renewed cookie; a stale one changes nothing |
| `Credentials.RunKeepsInv` | `backend/src/sakuraplayer/identity/secrets.py:155-169` | the binding's version is always the secret's; versions never go down and a version seen twice is the same row and binding |
| `Credentials.ScopeMatchesExactly` | `backend/src/sakuraplayer/cloud_cache/binding_service.py:338-344` | a scope opened at some moment still matches after any run exactly when the row is untouched |
| `Credentials.FinishOverwritesWhatItRead` | `backend/src/sakuraplayer/cloud_cache/binding_service.py:347-357` | closing a scope only ever replaces the very cookie it read |
| `Credentials.OnlyOneRefreshWins` | `backend/src/sakuraplayer/cloud_cache/binding_service.py:347-357` | of two scopes with the same version only one can store a cookie |
| `Credentials.StoredVersionsAgree` | `backend/src/sakuraplayer/cloud_cache/binding_service.py:109-125` | in every reachable state binding the known account and unbinding never fail on the stored version |
| `Credentials.RemovedBindingsStayGone` | `backend/src/sakuraplayer/cloud_cache/binding_service.py:293-302` | jobs of a removed binding cannot open a scope again, even after the same account is bound anew |
| `Credentials.OutcomeIsRecorded` | `backend/src/sakuraplayer/cloud_cache/binding_service.py:346-373` | closing a matching scope writes its outcome to the binding: afterwards cache scopes are refused as expired or detached, or open with the cookie that is then current |
| `Credentials.CacheScopeOpensExactly` | `backend/src/sakuraplayer/cloud_cache/binding_service.py:284-327` | a cache scope opens exactly for the stored binding, account and root while it is active or unavailable, with the stored cookie |
| `Credentials.BoundAccountOpens` | `backend/src/sakuraplayer/cloud_cache/binding_service.py:103-156` | after binding an account its scopes open with the new cookie at the next version, and no other secret changed |
| `Credentials.UnboundAccountIsClosed` | `backend/src/sakuraplayer/cloud_cache/binding_service.py:262-282` | after unbinding no scope opens, none matches, and the cookie is gone; active jobs refuse it |
| `SessionProperties.AuthService.BootstrapAdmin` | `backend/src/sakuraplayer/identity/service.py:211-254` | the first administrator and a session, once |
| `SessionProperties.AuthService.OpenSession` | `backend/src/sakuraplayer/identity/service.py:451-485` | a session row keeping its refresh token, and the pair issued for it |
| `SessionProperties.AuthService.RevokeClient` | `backend/src/sakuraplayer/identity/service.py:289-299` | the loop revokes exactly the client's unrevoked sessions |
| `SessionProperties.AuthService.LogIn` | `backend/src/sakuraplayer/identity/service.py:270-307` | a correct password replaces the client's session |
| `SessionProperties.AuthService.RefreshSession` | `backend/src/sakuraplayer/identity/service.py:309-358` | rotation, reuse detection and refusal, in the order of the checks |
| `SessionProperties.AuthService.AuthenticateAccess` | `backend/src/sakuraplayer/identity/service.py:360-380` | accepted exactly while unexpired, unrevoked and of the current epoch; its session is then the only one of its client |
| `SessionProperties.AuthService.LogOut` | `backend/src/sakuraplayer/identity/service.py:382-411` | revokes the session and moves the epoch on |
| `SessionProperties.RunEvolves` | `backend/src/sakuraplayer/identity/service.py:340-346` | over any run expiries never move, revocations are for good and a session's token is only replaced by a new one |
| `SessionProperties.ReachableSessions` | `backend/src/sakuraplayer/identity/service.py:288-305` | at most one unrevoked session per client, one administrator, and every token of a session shares its expiry |
| `SessionProperties.RefreshAcceptsExactly` | `backend/src/sakuraplayer/identity/service.py:325-358` | accepted exactly for the last-issued token of an unrevoked session before expiry; an earlier one revokes the session; anything else changes nothing |
| `SessionProperties.RefreshTokensAreSingleUse` | `backend/src/sakuraplayer/identity/service.py:332-346` | a token traded in is never accepted again, whatever runs in between |
| `SessionProperties.RevokedForGood` | `backend/src/sakuraplayer/identity/service.py:325-331` | after revocation no token of the session of either kind works in any later state |
| `SessionProperties.ReuseEndsTheSession` | `backend/src/sakuraplayer/identity/service.py:332-338` | presenting an earlier unexpired token ends the session for good |
| `SessionProperties.AuthenticatesExactly` | `backend/src/sakuraplayer/identity/service.py:361-380` | accepted exactly while unexpired, unrevoked and of the current epoch |
| `SessionProperties.LogoutEndsAccess` | `backend/src/sakuraplayer/identity/service.py:402-408` | no access token issued before a logout is accepted in any later state |
| `SessionProperties.LogoutEndsOneSession` | `backend/src/sakuraplayer/identity/service.py:405-411` | but every other session goes on refreshing exactly as before |
| `SessionProperties.LoginReplacesTheClient` | `backend/src/sakuraplayer/identity/service.py:289-305` | after a login the new session is the client's only unrevoked one |
| `SessionProperties.LoginGrantsExactly` | `backend/src/sakuraplayer/identity/service.py:278-285` | granted exactly to an account of that name with that password |
| `SessionProperties.LoginLetsIn` | `backend/src/sakuraplayer/identity/service.py:451-485` | the pair of a login works: its access token lets in for fifteen minutes, its refresh token trades in for thirty days |
| `SessionProperties.BootstrapLetsIn` | `backend/src/sakuraplayer/identity/service.py:233-254` | so does the pair of the first administrator, who can log in from then on |
| `SessionProperties.RefreshLetsIn` | `backend/src/sakuraplayer/identity/service.py:340-358` | so does a refreshed pair, until the session's expiry, and only the session's token changes |
| `SessionProperties.LoginLeavesOtherClients` | `backend/src/sakuraplayer/identity/service.py:289-299` | a login revokes its client's sessions at that instant; the sessions of every other client go on refreshing exactly as before |
| `SessionProperties.BootstrapsExactly` | `backend/src/sakuraplayer/identity/service.py:219-232` | the first administrator is made exactly once by an authorized and valid request; anything else changes nothing |
| `SessionProperties.LogoutClosesExactly` | `backend/src/sakuraplayer/identity/service.py:382-411` | a logout is granted exactly to an access token that lets in; it revokes that session, moves the epoch on by one and changes nothing else |
| `ActorTables.Tables.CollectRows` | `backend/src/sakuraplayer/catalog/core_import.py:173-186` | one row per new key, first spelling first |
| `ActorTables.Tables.UpsertActor` | `backend/src/sakuraplayer/catalog/core_import.py:115-187` | the actor of a javdb id is written or created and its javdb aliases replaced |
| `ActorTables.Tables.IndexNames` | `backend/src/sakuraplayer/catalog/actor_mapping.py:148-157` | the index maps each normalised name to the actors known under it |
| `ActorTables.Tables.GroupEntries` | `backend/src/sakuraplayer/catalog/actor_mapping.py:159-161` | entries grouped by normalised name |
| `ActorTables.Tables.MatchEntries` | `backend/src/sakuraplayer/catalog/actor_mapping.py:162-173` | an actor is matched exactly to the only entry under the only name that fits |
| `ActorTables.Tables.RebuildMapping` | `backend/src/sakuraplayer/catalog/actor_mapping.py:133-205` | the tables after a rebuild; every entry is matched or discarded |
| `ActorNames.NewRowsMeaning` | `backend/src/sakuraplayer/catalog/actor_mapping.py:188-201` | the new rows have exactly the listed keys that are neither blank nor blocked, one each, in their first spelling |
| `ActorDirectory.RunKeepsInv` | `backend/src/sakuraplayer/catalog/core_import.py:159-186` | however imports and rebuilds interleave, no actor has an alias key twice |
| `ActorDirectory.RebuildIsIdempotent` | `backend/src/sakuraplayer/catalog/actor_mapping.py:133-205` | rebuilding again from the same entries changes nothing |
| `ActorDirectory.RebuildReplaces` | `backend/src/sakuraplayer/catalog/actor_mapping.py:175-178` | what an earlier rebuild wrote into the alias table has no effect on a later one |
| `ActorDirectory.MatchIsUnambiguous` | `backend/src/sakuraplayer/catalog/actor_mapping.py:165-173` | a match is unique by name, by entry and by actor |
| `ActorDirectory.ImportedKeySurvivesExactly` | `backend/src/sakuraplayer/catalog/core_import.py:165-177` | a key an import lists is there after a later rebuild if and only if the mapping did not hold it at the import or lists it again |
| `ActorDirectory.ImportedKeyIsLost` | `backend/src/sakuraplayer/catalog/core_import.py:165-177` | a run of four transactions from the empty tables ends without an alias that the last import listed |
| `ActorDirectory.MatchesExactly` | `backend/src/sakuraplayer/catalog/actor_mapping.py:162-173` | an actor is matched to an entry exactly when one name fits both uniquely |
| `ActorDirectory.RebuildDescribes` | `backend/src/sakuraplayer/catalog/actor_mapping.py:175-205` | a matched actor gets the entry's name and biography where given and exactly its unlisted alias keys; any other actor keeps its row and loses its mapping aliases |
| `ActorDirectory.ImportedActorIsKnown` | `backend/src/sakuraplayer/catalog/core_import.py:156-186` | an imported actor is known under its name and every listed key the mapping does not hold, in the first spelling, and no other alias row changes |
| `ActorAssets.Rebuild` | `backend/src/sakuraplayer/catalog/gfriends.py:161-237` | exactly the asset rows of the set of lines; counts of rows, actors and discarded lines |
| `ActorAssets.IndexNames` | `backend/src/sakuraplayer/catalog/gfriends.py:187-193` | the name index |
| `ActorAssets.CollectOwners` | `backend/src/sakuraplayer/catalog/gfriends.py:195-203` | who claims which address |
| `ActorAssets.CollectWanted` | `backend/src/sakuraplayer/catalog/gfriends.py:205-213` | the least claiming name of every kept address, and the number of accepted lines |
| `ActorAssets.UrlKeptExactly` | `backend/src/sakuraplayer/catalog/gfriends.py:197-209` | an address is kept exactly when it is claimed and all its uniquely named claims agree |
| `ActorAssets.AssetsAreInPlace` | `backend/src/sakuraplayer/catalog/gfriends.py:218-227` | an address occurs once, an actor's positions once each, in address order |
| `ActorAssets.PositionsAreFilled` | `backend/src/sakuraplayer/catalog/gfriends.py:219-227` | positions run from the profile at 0 without a gap |
| `ActorAssets.CountIgnoresOrder` | `backend/src/sakuraplayer/catalog/gfriends.py:206-210` | the accepted count does not depend on the order of lines |

## Left out

- Transactions are atomic: SQL isolation, row locks, `SKIP LOCKED` and advisory locks are not part of this model.
- Clock readings outside a transaction, as in `CleanupQueue.request` (`cloud_cache/cleanup.py:100`), are taken as made inside it.
- Event publishing by the queues, failure codes and details, elapsed times, display fields and HTTP status codes: recorded by one assignment each.
- Text order is by code point; the database's collation, Unicode normalisation and case folding are not part of this model, names carry their normalised form.
- JSON, date text and token signatures: `Codec`, and the sets of issued tokens in `Sessions`, stand for them; a cursor payload is taken to read back as written, and a token that was not issued never verifies.
- The regular expression that finds a segment number in a file name: files carry what it found.
- Categories, labels and websites of the movie filters are not checked against their fixed lists, only the size bounds are.
- The bootstrap token and form checks are parameters; password hashing compares passwords.
- Playback sessions carry the administrator but not the session epoch; progress, signed stream addresses and subtitles are not part of this model.
- The media rows behind a selection: whether the chosen ones are one whole valid candidate is a parameter of `Select`.
- The order in which the pipeline picks among claimable jobs is left open; the steps of the pipeline are functions on the job row, without a class of their own.
- Removing a binding is modelled twice, for its effect on cache jobs and for its effect on the cookie; that the two happen in one transaction is not stated.
- Movie merge and the other source edits: only the move of a source to another movie is modelled.
- Tags, image plans and movie relations written by a core import, and the biography source and update time written by a mapping rebuild.
- Ranking and provider-snapshot queues: the same claim pattern as the metadata queue with less state.
- Favourites, notifications, labels, progress, QR logins, diagnostics, routers, the cloud, JavDB, DMM, AI and image clients, the clients on other platforms.
- The length and alphabet of idempotency keys, checked before anything is read.
- CacheServices.CacheStore.CreatePlayRequest: takes the drawn names as a sequence that holds an unused one, because a search that never draws one does not end; the draw is made before the checks, on which it has no influence.
- EventReplay.SnapshotReplay: one subscriber that reads a page at a time; the socket's ping messages and lost connections are not modelled.
- MediaPlanner.PlanMediaSelection: requires that no parent directory id or extension of a segment contains the separator character, because otherwise two groups can share a key (`SegmentKeysCollide`) and their order is that of arrival.
- CleanupOrder.WaitIsBounded: requires the clock to have moved past the waiting job's last update, because at one instant jobs released together are ordered by id.
- CacheServices.CacheStore.Transition: keeps the invariant only where nobody plays from the job and a materialized target has its timestamps, because the service itself checks neither; `TransitionIgnoresLeases` says what happens otherwise.
