# SocialFlow protocols, verified

Dafny models of the protocols of SocialFlow that several processes run at once,
with proofs of what they promise. Check everything with
`dafny verify dfyconfig.toml`.

Each protocol is a state machine. Database rows and stored objects are explicit
state, a database transaction is one atomic step, every execution has its own
place in its program and its own stale readings, and time is a number that only
grows. A run is a list of actions; an action whose guard fails changes nothing,
so the lists range over all interleavings, with crashes, lost replies and
repeated deliveries. Where the code changes fields or rows step by step there is
also a class whose methods do the same and are proved to have exactly the effect
of the functions the theorems are about.

| files | subject |
|---|---|
| `RenderRows`, `RenderWorld`, `BatchCounters`, `RenderSafety`, `RenderTheorems`, `RenderLeases`, `RenderProgress`, `RenderDatabase` | render jobs: leases, fencing tokens, recovery, batch counters, cancellation, uploads and the write-once store |
| `RenderRequests`, `BatchRequests`, `BatchAnswers` | idempotent creation of render jobs and batches |
| `PublicationRows`, `PublicationPrepare`, `PreparePromises`, `PublicationExecute` | publication attempts: preparing and executing a publish |
| `ScheduleRows`, `ScheduleSafety` | publication schedules |
| `PublicationWorld`, `PublicationSafety`, `PublicationTheorems`, `PublicationExclusivity`, `ScheduleOutcomes`, `PublicationHonesty`, `PublicationProgress`, `PublicationWitnesses` | all publishes and schedules of one post together |
| `TemplateVersions`, `TemplateEditors`, `TemplateProgress`, `TemplateRequests` | template versions, conflicting editors, stale responses |
| `DiscoveryConnect`, `DiscoveryProgress` | consuming an OAuth discovery |
| `ArtworkPolling`, `BatchPolling` | the polling controllers and the manager |
| `Basics`, `Sets` | shared types and counting facts |

## Assumptions

- A database transaction takes effect as one step. The acquisition of a render
  job, the creations under an idempotency key and the connect of a discovery are
  split where another transaction can come between their check and their write;
  the unique indexes of the migrations refuse the second writer.
- The five counts of a batch are one snapshot.
- A transaction reported as failed has been rolled back.
- Reconcilers may find any candidates, as stale as can be.
- The create-schedule route writes ENQUEUED without a guard
  (`apps/api/src/scheduler.ts:344-347`). The theorems of `ScheduleSafety` assume
  that the schedule still waits by then (`Prompt`); `ConfirmCreatedIntended` says
  that this is exactly what is needed, and two runs show what happens otherwise.
- Executors write attempts by id only, with no guard on status or lease
  (`apps/api/src/publication-service.ts:790-802`, `812-824`, `983-991`).
  Exclusivity assumes that an executor writes before the deadline it put into the
  row (`Timely`) and that no failed attempt is confirmed published beside a live
  one (`Careful`); a run shows that each is needed, and `ExclusiveLostExactlyWhen`
  says which steps cost exclusivity. That a published schedule's accounts are
  published assumes `Timely` alone: `PublishedLostExactlyWhen` says which steps
  overwrite a published row, and `LateFailureUnpublishes` is a run in which a late
  one does. Neither assumption keeps a publish from starting late: no lease is
  checked before the remote call, `LateStartIsNotAlone` is such a run, and
  `PublishStartsAlone` needs the attempt to be live when its publish starts.
- Request fingerprints and image digests distinguish what they are computed from.
- Callbacks given to a polling controller do not call back into it.

Unexpired render leases are not claimed to be exclusive: the reconciler's reset
is guarded by status only (`apps/worker/src/renderer-worker.ts:980-997`), and what
the tokens give instead is stated. Leases are computed from a clock read before
the transaction, so an old lease value can be written again after a release;
`SameReadingRecoversTwice` is such a run, and `RecoveredAgainExactlyWhen` says
exactly when a recovered lease can come back.

## Model

| member | source | states |
|---|---|---|
| `RenderDatabase.Database.CountStatus` | apps/worker/src/renderer-worker.ts:62-84 | The count is the number of the batch's jobs in that status. |
| `RenderDatabase.Database.UpdateBatchCounters` | apps/worker/src/renderer-worker.ts:56-119 | The batch row gets five counts of its jobs taken in one snapshot and the status derived from them; no other row changes, and a missing batch is ignored. |
| `RenderDatabase.Database.AcquireJob` | apps/worker/src/renderer-worker.ts:186-262 | The compare-and-set acquires exactly when the row still has the status, and on recovery the very lease, that was read; it then writes token, lease, attempt and the audit row. |
| `RenderDatabase.Database.MarkPermanentFailure` | apps/worker/src/renderer-worker.ts:338-395 | Only the holder of the token fails its job, with one audit row and a recount of its batch. |
| `RenderDatabase.Database.ReleaseTransientJob` | apps/worker/src/renderer-worker.ts:397-425 | Only the holder puts the job back; the counters are not refreshed. |
| `RenderDatabase.Database.CancelOwnJob` | apps/worker/src/renderer-worker.ts:458-491 | Cooperative cancellation under the token; the recount happens even when the token is gone. |
| `RenderDatabase.Database.ReserveMedia` | apps/worker/src/renderer-worker.ts:727-750 | Reserving the output asset aborts unless the token still holds and leaves an existing row alone. |
| `RenderDatabase.Database.FinalizeRender` | apps/worker/src/renderer-worker.ts:830-882 | Asset and job are finalized together or not at all, exactly when the token still holds and the asset may be finalized. |
| `RenderDatabase.Database.ClaimUploadRow` | apps/api/src/media.ts:347-369 | An upload is claimed exactly when its row is pending and younger than an hour. |
| `RenderDatabase.Database.CommitUploadRow` | apps/api/src/media.ts:433-452 | An upload commits exactly while its row is still uploading. |
| `RenderDatabase.Database.FailUploadRow` | apps/api/src/media.ts:390-408 | Only an uploading row is marked failed. |
| `RenderDatabase.Database.CancelRenderBatch` | apps/api/src/render-batch.ts:1210-1305 | The cancellation as coded has exactly the effect of the specified one, whose effect on the rows `CancelBatchMeans` says; a finished batch is left alone. |
| `RenderDatabase.Database.CreateRenderBatch` | apps/api/src/render-batch.ts:829-889 | One batch row with all items pending and one waiting job per item, in item order. |
| `RenderDatabase.Database.Reconcile` | apps/worker/src/renderer-worker.ts:911-1068 | Every candidate without a live queue entry is counted and, if found PROCESSING and still so, reset; then each active batch is recounted. |
| `RenderDatabase.ReconcilesExactly` | apps/worker/src/renderer-worker.ts:911-1068 | In terms of the rows: the jobs still PROCESSING that were found so without a live queue entry wait again, active batches say how their jobs stand, nothing else changes. |
| `BatchCounters.AggregateIsEndStatus` | packages/contracts/src/design.ts:436-504 | On true counts the aggregate status is terminal exactly when no job remains, and then says how the jobs ended. |
| `BatchCounters.RecountSays` | apps/worker/src/renderer-worker.ts:56-119 | After a recount the batch row says exactly how its jobs stand: five true counts, and for each status, running or ended, when the batch has it. |
| `BatchCounters.CancelBatchMeans` | apps/api/src/render-batch.ts:1210-1305 | Cancelling an unfinished batch cancels all its waiting jobs and changes no other job; the recounted row has none pending and counts the cancelled ones and those that waited; the first cancel time stays. |
| `BatchCounters.CreateBatchMeans` | apps/api/src/render-batch.ts:829-889 | A new batch has one waiting job per id and a row that says so; nothing else changes. |
| `BatchCounters.RefreshAgrees` | apps/worker/src/renderer-worker.ts:56-119 | A recount makes its batch agree with its jobs and leaves every other batch alone. |
| `BatchCounters.CancelBatchKeeps` | apps/api/src/render-batch.ts:1220-1305 | Batch cancellation keeps every batch's counters true. |
| `BatchCounters.FailKeeps` | apps/worker/src/renderer-worker.ts:338-380 | A permanent failure keeps every batch's counters true. |
| `BatchCounters.FinalizeKeeps` | apps/worker/src/renderer-worker.ts:830-882 | A finalization keeps every batch's counters true. |
| `BatchCounters.ReleaseKeeps` | apps/worker/src/renderer-worker.ts:397-425 | A release, although it does not recount, keeps every batch's counters true. |
| `BatchCounters.ResetKeeps` | apps/worker/src/renderer-worker.ts:980-997 | The reconciler's reset, although it does not recount, keeps every batch's counters true. |
| `RenderSafety.StepInv` | apps/worker/src/renderer-worker.ts:165-904 | Every action of workers, uploads, routes and the reconciler keeps ownership, audit counts, media, counters and upload slots sound. |
| `RenderSafety.ReachableInv` | apps/worker/src/renderer-worker.ts:165-904 | Every world reachable by any interleaving, with crashes and lost replies, is sound. |
| `RenderTheorems.JobsAreFenced` | apps/worker/src/renderer-worker.ts:186-262 | In every run a job is PROCESSING exactly while it has a token and exactly while it has a lease; its attempts equal its started plus recovered audit rows; its log holds exactly one commit if it is completed or failed and none otherwise. |
| `RenderTheorems.TerminalForever` | apps/worker/src/renderer-worker.ts:200-220 | Completed, failed and cancelled rows never change again, in any run. |
| `RenderTheorems.SupersededHasNoEffect` | apps/worker/src/renderer-worker.ts:338-425 | A superseded execution's moves change no job, asset or log row; of the batch rows at most its own is recounted, and only by a cooperative cancellation. |
| `RenderTheorems.SupersededForever` | apps/worker/src/renderer-worker.ts:171-262 | An execution that lost its job never gets it back. |
| `RenderTheorems.CancelKeepsOut` | apps/worker/src/renderer-worker.ts:675-721 | A recorded cancel request never changes, and an execution not past its pre-upload check by then never gets past it. |
| `RenderTheorems.KeptOutStoresNothing` | apps/worker/src/renderer-worker.ts:427-491 | Such an execution stores no object, writes no asset and completes no job. |
| `RenderLeases.LeaseMovesForward` | apps/worker/src/renderer-worker.ts:171-242 | While a job stays in process its lease only moves forward, and every change of the row moves it. |
| `RenderLeases.OneRecoveryPerLease` | apps/worker/src/renderer-worker.ts:213-245 | After a recovery no continuation at all recovers with the same reading again, if at the claim no other pending execution of the job read its clock exactly one lease before the lease that was read. |
| `RenderLeases.RecoveredAgainExactlyWhen` | apps/worker/src/renderer-worker.ts:171-245 | Some continuation recovers with the same reading again exactly when a pending execution may still write that very lease: its clock gives it, and it has not read the job, or read it PENDING, or read a lease that may itself be written again. |
| `RenderLeases.OneRecoveryWhileInProcess` | apps/worker/src/renderer-worker.ts:213-245 | While the job stays in process no second recovery with the same reading succeeds, whatever is pending. |
| `RenderLeases.SameReadingRecoversTwice` | apps/worker/src/renderer-worker.ts:172-245 | A concrete run, with a release in between and an old clock reading, in which one reading of a lease is recovered from twice. |
| `RenderTheorems.ReadyMeansStored` | apps/worker/src/renderer-worker.ts:753-841 | In every run a ready asset's object exists and has exactly the recorded hash, size, type and shape. What an execution does with an object already there is `PutThenFinalize`. |
| `RenderProgress.PutThenFinalize` | apps/worker/src/renderer-worker.ts:753-882 | The holder that puts and finalizes completes its job, with its asset ready and described by its picture, exactly when the key is free or holds a readable object of the same picture; over any other object the job fails for good. |
| `RenderProgress.UninterruptedRenderCompletes` | apps/worker/src/renderer-worker.ts:165-882 | An execution that begins on a waiting or expired job and is not interrupted completes it exactly when the object at its key allows and its asset row may be finalized. |
| `RenderProgress.CrashedRenderIsRecovered` | apps/worker/src/renderer-worker.ts:753-882 | A crash between put and finalization loses nothing: after the lease the next execution that draws the same picture completes the job over the object left behind. |
| `RenderProgress.RenderEndsOtherwise` | apps/worker/src/renderer-worker.ts:338-425 | A rejected picture fails the job; an error while rendering gives it back. |
| `RenderProgress.InterruptedIsReleased` | apps/worker/src/renderer-worker.ts:397-425 | An execution that fails anywhere between its acquisition and its last write gives its job back. |
| `RenderProgress.CancelIsSeen` | apps/worker/src/renderer-worker.ts:427-721 | A cancel request is seen before rendering and before storing, and ends the job CANCELLED. |
| `RenderProgress.UploadReadyExactlyWhen` | apps/api/src/media.ts:317-480 | An uninterrupted upload makes its asset ready with the uploaded bytes exactly when it was waiting, younger than an hour, a slot and the key were free and its commit went through; once claimed, it fails otherwise. |
| `RenderProgress.LostUploadFails` | apps/api/src/media.ts:375-408 | An upload whose put fails is marked failed, whether or not the bytes arrived. |
| `RenderTheorems.ReadyForever` | apps/api/src/media-storage.ts:129-139 | Once ready, neither the record nor the stored bytes ever change. |
| `RenderTheorems.CompletionMakesReady` | apps/worker/src/renderer-worker.ts:830-863 | A job becomes completed only by its token's holder, in the very step that makes its own asset ready. |
| `RenderTheorems.CountersAreTrue` | apps/worker/src/renderer-worker.ts:56-119 | In every run the five stored counters sum to the batch size, three are exact, pending plus processing counts the unfinished jobs, and the batch is terminal exactly when all its jobs are. |
| `RenderTheorems.DriftIsNet` | apps/worker/src/renderer-worker.ts:222-425 | Over any run the stored pending count exceeds the true one by exactly the acquisitions of waiting jobs less the releases and resets since the last recount of the batch. |
| `RenderTheorems.PendingAloneMayBeStale` | apps/worker/src/renderer-worker.ts:222-260 | A concrete run after which stored pending and processing are each wrong, as acquisition does not recount. |
| `RenderRequests.EquivalentExactlyWhen` | apps/api/src/render.ts:163-232 | A stored request is equivalent to exactly those that normalise to the same input for the same template version and post. |
| `RenderRequests.StaleIsAtomic` | apps/api/src/render.ts:394-604 | However stale its check, the create route gives the outcome of one atomic step, except that an invalid request may miss a concurrent winner. |
| `RenderRequests.RepliesExactly` | apps/api/src/render.ts:394-604 | On the rows: a request whose key names a row is a replay exactly when the row was stored for the same pictures, text, version and post, and a conflict otherwise; with a new key it is refused if invalid and else adds one row with what it asked for. |
| `RenderRequests.OneJobPerKey` | apps/api/src/render.ts:394-604 | Over any sequence of requests, each checking the key however long before its write, there is one job per key, and any two accepted requests with a key name it and say the same. |
| `BatchRequests.KeepMeans` | apps/api/src/render-batch.ts:614-633 | As many posts as ids means every id was found, and then the resolved list is the requested list. |
| `BatchRequests.FingerprintsAgree` | apps/api/src/render-batch.ts:930-963 | For a selection, the fingerprint computed in recovery equals the one computed in the transaction. |
| `BatchRequests.OneBatchPerKey` | apps/api/src/render-batch.ts:687-906 | In every run a key has at most one batch, with exactly one job per resolved post in request order and one audit row. |
| `BatchRequests.SuccessesNameOneBatch` | apps/api/src/render-batch.ts:687-984 | All successes with one key name one batch; a selection's batch has exactly the requested posts. When a request succeeds is said by the `BatchAnswers` rows. |
| `BatchAnswers.CreateIsAnswered` | apps/api/src/render-batch.ts:687-828 | A create request whose posts are there is a replay exactly when its key names a batch made for the same parameters and posts, a conflict when it names any other; with a new key it goes on to insert what it asked for, if valid. |
| `BatchAnswers.CreateIsRefused` | apps/api/src/render-batch.ts:599-633 | A create request whose posts are not all there is refused for the reason that applies. |
| `BatchAnswers.RetryIsAnswered` | apps/api/src/render-batch.ts:1380-1480 | A retry is a replay exactly when its key names a batch that retries the same parent, else a conflict; with a new key it goes on to insert the parent's failed posts. |
| `BatchAnswers.RetryIsRefused` | apps/api/src/render-batch.ts:1380-1400 | A retry of an unknown batch, or an invalid one, is refused. |
| `BatchAnswers.LostInsertIsAnswered` | apps/api/src/render-batch.ts:906-984 | A request whose insert an index refused is a replay exactly when its key by then names a batch made for the same, or retrying the same parent, a conflict when it names another, and lost when it names none. |
| `BatchAnswers.CreateCompletes` | apps/api/src/render-batch.ts:687-1011 | A new valid create request that nothing interrupts makes one batch for exactly its posts, queues all its jobs once, in order, and reports it. |
| `BatchAnswers.CreateThenReplay` | apps/api/src/render-batch.ts:687-1011 | The same request made again, while its posts are there, reports that batch and adds nothing. |
| `BatchRequests.ReplaysAddNothing` | apps/api/src/render-batch.ts:829-1011 | Batches, jobs and audit rows are added only by inserting, for a key not used yet; the queue grows only by enqueueing, which adds nothing else. |
| `BatchRequests.OnlyTheWinnerEnqueues` | apps/api/src/render-batch.ts:985-1011 | In every run a job is queued only by the request that inserted its batch, and at most once. |
| `BatchRequests.BatchTables.ResolveSelection` | apps/api/src/render-batch.ts:599-633 | Returns the requested posts in request order, or nothing if one is missing. |
| `BatchRequests.BatchTables.InsertBatch` | apps/api/src/render-batch.ts:829-906 | Adds the batch row, its jobs in order and one audit row, and returns the created jobs. |
| `PublicationRows.NumbersAreExact` | apps/api/src/publication-service.ts:361-362 | Attempt numbers of an account are exactly 1..n, each used once, in insertion order. |
| `PublicationRows.UpdateKeepsExclusive` | apps/api/src/publication-service.ts:812-824 | An update by id keeps at most one live attempt per account exactly unless it revives a row beside another live one. |
| `PublicationPrepare.Planner.PlanAccounts` | apps/api/src/publication-service.ts:298-455 | The planning loop returns the first refusal, or else all expired Facebook attempts, or else one plan per account. |
| `PublicationPrepare.Planner.PreparePublication` | apps/api/src/publication-service.ts:156-583 | The preparation as coded has exactly the specified outcome and rows; the rows of `PreparePromises` say what these are. |
| `PreparePromises.ThrowsExactlyWhen` | apps/api/src/publication-service.ts:172-347 | It throws exactly when the post is not found or not approved, lacks the image its accounts need, an account is missing, or a selected account is published and not skippable, uncertain, or still leased; a throw changes nothing. |
| `PreparePromises.ThrownErrorMeans` | apps/api/src/publication-service.ts:172-347 | The error thrown names what was missing, or else the first account in the way and why. |
| `PreparePromises.UncertainExactlyWhen` | apps/api/src/publication-service.ts:345-457 | It reports an uncertain account exactly when nothing blocks and some selected, unpublished Facebook attempt was interrupted; then it marks all of those rows uncertain, changes no other row and inserts none. |
| `PreparePromises.TargetsCoverSelection` | apps/api/src/publication-service.ts:457-583 | A normal return has one sound target per requested account, each once; its row and the target continue from the container of the resumed row, or else of the account's row with the highest number; of the earlier rows only the resumed Instagram attempts change. |
| `PreparePromises.ContinuedMeans` | apps/api/src/publication-service.ts:343-360 | The container the code continues from is that of the account's active row that has one, else that of its row with the highest number, if any. |
| `PreparePromises.PrepareKeepsTable` | apps/api/src/publication-service.ts:361-571 | Every preparation keeps numbering, both unique indexes and exclusivity. |
| `PublicationExecute.Executor.PublishTarget` | apps/api/src/publication-service.ts:766-1005 | The result of one target is the one due for what happened, and is the status of the stored row except that a confirmed publish is told uncertain over a row left open when neither confirming write committed; it is never told or stored as failed. |
| `PublicationExecute.Executor.RecordContainer` | apps/api/src/publication-service.ts:780-809 | Exactly an Instagram target whose write commits gets CONTAINER_CREATED, the reported container and a new lease into its row; failing to counts as a timeout or failure of the publish. |
| `PublicationExecute.DueMeans` | apps/api/src/publication-service.ts:766-1005 | The result due, case by case: published for a confirmed publish that could be recorded, uncertain for one that could not and for a timeout, failed for any other answer, and a stop when the write of the latter two failed. |
| `PublicationExecute.Executor.CleanUp` | apps/api/src/publication-service.ts:652-682 | The failure path before any publish closes all reserved rows together or none. |
| `PublicationExecute.Executor.PublishAll` | apps/api/src/publication-service.ts:696-1008 | For each target in order the result due for what happened, given the rows at the end, agreeing with its row as for one target; or a stop at a target whose outcome could not be recorded, with later targets untouched. |
| `PublicationExecute.Executor.ExecutePublication` | apps/api/src/publication-service.ts:614-1024 | A normal return gives the due result for each target and flags that summarise them; only targeted rows change. |
| `PublicationExecute.CloseReservedMeans` | apps/api/src/publication-service.ts:652-671 | Exactly the reserved rows are closed as failed. |
| `PublicationWorld.ResolutionDesk.Decide` | apps/api/src/publication.ts:306-456 | A resolution is refused exactly for a missing, published or still leased attempt, or a confirmation beside another published one; otherwise it rewrites that row only. |
| `PublicationTheorems.ResolveMeans` | apps/api/src/publication.ts:371-456 | Exactly unless refused a resolution writes its decision into its row: PUBLISHED, FAILED, or the same status dismissed, with the lease gone; nothing else changes. |
| `PublicationSafety.StepRunsOk` | apps/api/src/publication-service.ts:156-1024 | Every step keeps numbering, indexes, row ownership, lease protection, target coverage and the storage of told publishes. |
| `PublicationTheorems.AttemptsAreNumbered` | apps/api/src/publication-service.ts:361-362 | In every run an account's attempts for the post are numbered exactly 1..n. |
| `PublicationTheorems.PreparedIsExecutable` | apps/api/src/publication-service.ts:457-583 | What a preparation returns meets what an execution requires. |
| `PublicationTheorems.RecordedPublishStays` | apps/api/src/publication-service.ts:811-826 | A publish recorded by an execution is never overwritten by any later step of any run. |
| `PublicationExclusivity.ResolveKeepsExclusive` | apps/api/src/publication.ts:371-456 | A resolution breaks exclusivity exactly when it confirms a settled attempt as published beside a live one. |
| `PublicationExclusivity.ExclusiveLostExactlyWhen` | apps/api/src/publication-service.ts:790-824 | A step costs exclusivity exactly when it is a write by id, of a container, a publish or a doubt, or a confirmation, that brings a settled attempt back to life beside a live one and no unique index refuses it. |
| `PublicationExclusivity.OneLiveAttempt` | apps/api/src/publication-service.ts:298-359 | An account has at most one attempt unfinished, uncertain or published, in every run in which no write by id revives a settled attempt beside a live one; timely executors and careful confirmations revive none. |
| `PublicationExclusivity.PublishStartsAlone` | apps/api/src/publication-service.ts:772-790 | In every such run a remote publish that starts while the attempt reserved for it is still live, as it is before its deadline, starts with no other live attempt for its account. |
| `PublicationExclusivity.SettledStartMayOverlap` | apps/api/src/publication-service.ts:770-790 | Once its attempt has been settled, another attempt of the account is live already, or a disciplined run continues to one without touching the execution, which then starts beside it: no lease is checked before the call. |
| `PublicationHonesty.PublishedLostExactlyWhen` | apps/api/src/publication-service.ts:983-991 | A step takes a row out of PUBLISHED exactly when it is a committed write by id (clean-up, container, doubt or failure) of an execution whose row is published already; the updates carry no status guard. |
| `PublicationHonesty.TimelyRunIsSparing` | apps/api/src/publication-service.ts:790-991 | With executors that write before their deadline no published row is ever overwritten. |
| `PublicationHonesty.PublishedScheduleIsPublished` | apps/worker/src/scheduler-worker.ts:714-843 | A schedule that ended PUBLISHED has a published attempt for every target account, in every run in which no published row is overwritten, so in every run with timely executors. |
| `PublicationHonesty.ConcludedResultsAreStored` | apps/worker/src/scheduler-worker.ts:714-733 | In every such run, at its evaluation an execution has one result per target, its targets cover the request, and results told as published are stored as published. |
| `PublicationTheorems.ToldAsStored` | apps/api/src/publication-service.ts:811-991 | In every interleaving the result told for a reserved target is the status just written to its row, except a publish neither of whose confirming writes committed, told as uncertain over rows left as they were. |
| `PublicationTheorems.MovesTellWhatIsDue` | apps/api/src/publication-service.ts:766-1005 | Uninterrupted, the moves of an execution in the interleaved model tell for a target exactly what the code tells. |
| `PublicationTheorems.ContainerMeans` | apps/api/src/publication-service.ts:780-809 | In the interleaved model too a reported container is what its row holds afterwards, with a new lease. |
| `PublicationTheorems.OpeningMeans` | apps/api/src/publication-service.ts:652-682 | An execution that cannot start closes its reserved rows as failed, or none, and throws. |
| `PublicationTheorems.NextMeans` | apps/api/src/publication-service.ts:696-790 | A target found published or refused is told so without a publish, a reserved one is published, and after the last the execution concludes. |
| `PublicationProgress.ScheduledPublishSucceeds` | apps/worker/src/scheduler-worker.ts:320-843 | A schedule delivered in time, whose accounts are connected and free and whose publishes are confirmed and recorded, ends PUBLISHED, and every account it is for has a published attempt. |
| `PublicationTheorems.EvaluationMeans` | apps/worker/src/scheduler-worker.ts:714-803 | Published means all were; reconciliation means some are uncertain; partial means some published, some failed, none uncertain; dead letter means none published, none uncertain. |
| `PublicationWitnesses.LateExecutorBreaksExclusivity` | apps/api/src/publication-service.ts:812-824 | A concrete run in which an executor past its lease leaves a published attempt beside one in progress. |
| `PublicationWitnesses.ConfirmingBreaksExclusivity` | apps/api/src/publication.ts:371-403 | A concrete run in which confirming a failed attempt does the same. |
| `PublicationWitnesses.LateStartIsNotAlone` | apps/api/src/publication-service.ts:770-790 | A concrete run, disciplined throughout, after which an execution past its deadline starts a remote publish for an account another execution has published. |
| `PublicationWitnesses.LateFailureUnpublishes` | apps/api/src/publication-service.ts:983-991 | A concrete run in which a late failure is written over a confirmed publish, so that a schedule ends PUBLISHED whose account has no published attempt. |
| `ScheduleRows.ConfirmCreatedIntended` | apps/api/src/scheduler.ts:344-347 | The create route's unguarded last write is an intended transition exactly when the schedule still waits. |
| `ScheduleRows.ScheduleTable.AcquireSchedule` | apps/worker/src/scheduler-worker.ts:320-432 | Acquires exactly a waiting row of the job's version that is not late; a late one is set aside; nothing else changes. |
| `ScheduleRows.ScheduleTable.FinishExecution` | apps/worker/src/scheduler-worker.ts:806-843 | The final write takes effect exactly while version, token and PROCESSING still match; what it writes is `WriteMeans`. |
| `ScheduleRows.ScheduleTable.RetryExecution` | apps/worker/src/scheduler-worker.ts:746-788 | The retry write takes effect exactly while the execution holds its schedule. |
| `ScheduleRows.ScheduleTable.MarkExhausted` | apps/worker/src/scheduler-worker.ts:891-924 | Out of tries, a PROCESSING row of the job's version becomes a dead letter. |
| `ScheduleRows.ScheduleTable.RescheduleRow` | apps/api/src/scheduler.ts:430-470 | A waiting row of the version read gets the next version and a new time. |
| `ScheduleRows.ScheduleTable.CancelRow` | apps/api/src/scheduler.ts:581-612 | Exactly a waiting row is cancelled. |
| `ScheduleRows.ScheduleTable.RunStartupReconciliation` | apps/worker/src/scheduler-worker.ts:47-276 | Late waiting candidates are set aside, waiting ones the queue lost are put back, abandoned executions are set aside, and each kind is counted. |
| `ScheduleRows.ReconciliationIsSound` | apps/worker/src/scheduler-worker.ts:47-276 | Whatever it discovered, it makes only intended transitions, gives nobody a hold, and its two flag counts are the schedules set aside as late and as abandoned. |
| `ScheduleRows.ReconciledExactly` | apps/worker/src/scheduler-worker.ts:47-276 | Of each row: one still waiting that was found late, or still PROCESSING that was found abandoned with no lease running, is set aside; one still SCHEDULED that the queue lost is put back; any other stays. |
| `ScheduleRows.RecoveredIsExact` | apps/worker/src/scheduler-worker.ts:47-276 | Its third count is the number of candidates put back. |
| `ScheduleOutcomes.DeliveryAcquires` | apps/worker/src/scheduler-worker.ts:320-432 | A delivered job acquires its schedule, with its token and a lease of five minutes from the delivery, exactly when the row waits at its version and is at most a quarter of an hour late; a later one is set aside. |
| `ScheduleOutcomes.WriteMeans` | apps/worker/src/scheduler-worker.ts:806-843 | The holder's final write leaves exactly the status it derived and no lease, and keeps version, due time and accounts; a row not held stays as it is. |
| `ScheduleOutcomes.RetryMeans` | apps/worker/src/scheduler-worker.ts:746-788 | The holder's retry write puts the schedule back without token and lease; without the hold the execution ends as it would without a retry. |
| `ScheduleOutcomes.CreateMeans` | apps/api/src/scheduler.ts:172-347 | A schedule is created exactly for a time to come and at least one account, and then waits. |
| `ScheduleOutcomes.RoutesWrite` | apps/api/src/scheduler.ts:430-612 | What each route and handler writes into its row, field by field, a new due time included, and that it writes no other row. |
| `ScheduleOutcomes.EndedExactlyWhen` | apps/worker/src/scheduler-worker.ts:714-924 | Exactly these steps give a schedule a final status: its holder's write of it and, for DEAD_LETTER, CANCELLED and REQUIRES_RECONCILIATION, exhaustion, the cancel route, a startup reconciliation or a late delivery. |
| `ScheduleOutcomes.ConcludeMeans` | apps/worker/src/scheduler-worker.ts:714-803 | Exactly which results lead an execution to each final status or to a retry. |
| `ScheduleOutcomes.FailingMeans` | apps/worker/src/scheduler-worker.ts:746-803 | An execution that threw asks for another try or ends dead. |
| `ScheduleOutcomes.EndsAsTold` | apps/worker/src/scheduler-worker.ts:714-843 | In every run a schedule becomes PUBLISHED, PARTIALLY_PUBLISHED or FAILED only by its holder, which had been told just what that says: for the second some published, some failed, none uncertain; DEAD_LETTER and REQUIRES_RECONCILIATION written by a holder likewise. |
| `ScheduleOutcomes.PreparationMeans` | apps/api/src/publication-service.ts:156-457 | A scheduled preparation goes on exactly when nothing is missing, in the way or in doubt, asks for a reconciliation exactly when an attempt awaits one, and fails the schedule otherwise. |
| `ScheduleSafety.OneExecutionAtATime` | apps/worker/src/scheduler-worker.ts:386-410 | At most one execution of a schedule is between its acquisition and its final write, in every run with prompt creates. |
| `ScheduleSafety.StepsAreIntended` | apps/worker/src/scheduler-worker.ts:332-432 | Versions change only by one and never while PROCESSING, final rows never change, and PROCESSING is entered and left for a retry only by the token's execution. |
| `ScheduleSafety.FinalForever` | apps/worker/src/scheduler-worker.ts:337-352 | The final statuses are absorbing. |
| `ScheduleSafety.ObsoleteNeverAcquires` | apps/worker/src/scheduler-worker.ts:332-335 | A job of an older version never acquires, in any run at all. |
| `ScheduleSafety.LateCreateHoldsTwice` | apps/api/src/scheduler.ts:344-347 | A concrete run in which the create route's late write lets two executions hold one schedule. |
| `ScheduleSafety.LateCreateRevivesCancelled` | apps/api/src/scheduler.ts:344-347 | A concrete run in which it revives a cancelled schedule. |
| `TemplateVersions.SubmitExactly` | apps/api/src/design-templates.ts:756-861 | A submission is accepted exactly when the template is active and its base is the latest version; it then adds the next number, else it changes nothing. |
| `TemplateVersions.OneSuccessPerBase` | apps/api/src/design-templates.ts:782-812 | Of any submissions on one base at most one is accepted. |
| `TemplateVersions.FirstOnLatestWins` | apps/api/src/design-templates.ts:782-845 | The first admitted submission on the latest version is accepted with its spec, and all before it conflict. |
| `TemplateVersions.TemplateStore.Create` | apps/api/src/design-templates.ts:568-610 | A new template starts active with version 1. |
| `TemplateVersions.TemplateStore.SetStatus` | apps/api/src/design-templates.ts:623-733 | Archiving and reactivating change the status only. |
| `TemplateVersions.TemplateStore.CreateVersion` | apps/api/src/design-templates.ts:756-861 | The handler as coded is one submission on that template and touches no other. |
| `TemplateVersions.TemplateStore.Duplicate` | apps/api/src/design-templates.ts:887-962 | The copy's version 1 says what the source's latest version says; a missing source changes nothing. |
| `TemplateEditors.VersionsOnlyGrow` | apps/api/src/design-templates.ts:756-861 | In every run versions are exactly 1..n, each submitted on the one before, and stored versions never change. |
| `TemplateEditors.AcceptedReplacesKnown` | apps/web/app/design-template-manager.tsx:743-788 | Whenever a submission adds a version, what it replaces is the very content its editor had as base. |
| `TemplateEditors.UnchangedWasReapplied` | apps/web/app/design-template-concurrency.ts:143-184 | In every run a stored version that says what the version before it says was sent from a draft reapplied after a conflict; no other unchanged draft is ever stored. |
| `TemplateEditors.SendsOutOfConflict` | apps/web/app/design-template-concurrency.ts:143-184 | Only an editor out of conflict sends a submission, with its own draft and base. |
| `TemplateEditors.WaysOutOfConflict` | apps/web/app/design-template-manager.tsx:659-684 | A conflict ends only by reapplying the unchanged draft onto the loaded server version, by discarding it for that version, by giving up the edit for a stored version, or by an earlier submission being accepted. |
| `TemplateProgress.ReadyDraftIsSaved` | apps/web/app/design-template-manager.tsx:743-805 | A ready draft that nothing interrupts becomes the next version exactly when it started from the latest one; on an older base it ends in conflict with its draft. |
| `TemplateProgress.ConflictIsRecovered` | apps/web/app/design-template-manager.tsx:659-805 | A draft in conflict, reapplied onto the server's version once that is loaded, is saved unchanged as the next version. |
| `TemplateProgress.StaleDraftIsSaved` | apps/web/app/design-template-manager.tsx:659-805 | From a stale submission to its version in one go: refused, reloaded, reapplied, saved. |
| `TemplateProgress.EditIsSaved` | apps/web/app/design-template-manager.tsx:743-805 | An editor that opens an active template and changes its text saves exactly the next version. |
| `TemplateProgress.ArchivedTakesNothing` | apps/api/src/design-templates.ts:756-812 | An archived template takes no draft, whoever sends it, and the editor is left as it was. |
| `TemplateProgress.ConflictLoads` | apps/web/app/design-template-concurrency.ts:62-104 | The server's version arrives with its number and content; draft and base are as they were. |
| `TemplateProgress.ConflictFails` | apps/web/app/design-template-concurrency.ts:105-141 | When it cannot be loaded the conflict stays, with draft and base, and can be asked for again. |
| `TemplateProgress.ResolvesConflict` | apps/web/app/design-template-manager.tsx:659-684 | Reapplying moves the unchanged draft onto the loaded version; discarding takes that version instead. |
| `TemplateEditors.ConflictKeepsDraft` | apps/web/app/design-template-concurrency.ts:62-116 | While a conflict lasts only typing changes the draft and nothing changes the base. |
| `TemplateEditors.NothingSentInConflict` | apps/web/app/design-template-manager.tsx:789-805 | Over any run in conflict throughout, an editor sends nothing. |
| `TemplateRequests.OneCurrentOfEachKind` | apps/web/app/design-template-concurrency.ts:256-299 | At most one detail and one conflict request are current at any time. |
| `TemplateRequests.ContextMeans` | apps/web/app/design-template-concurrency.ts:230-246 | A change of context aborts every request ever issued, which is current no more; a repeat changes nothing. |
| `TemplateRequests.RequestsMean` | apps/web/app/design-template-concurrency.ts:256-310 | A detail request is handed out current and outdates all earlier ones, a conflict request only the earlier conflict requests; aborting outdates all. |
| `TemplateRequests.ConflictNeverReturns` | apps/web/app/design-template-concurrency.ts:279-299 | A conflict request that stops being current never is again. |
| `TemplateRequests.DetailNeverReturns` | apps/web/app/design-template-concurrency.ts:256-277 | The same for detail requests when conflict requests are started only for the template looked at. |
| `TemplateRequests.OutOfSightExactlyWhen` | apps/web/app/design-template-concurrency.ts:279-299 | Exactly a conflict request for another template leaves a current detail request un-aborted and not current. |
| `TemplateRequests.DetailMayReturn` | apps/web/app/design-template-concurrency.ts:279-299 | A concrete case in which it then becomes current again. |
| `TemplateRequests.TemplateDetailLifecycleController.SwitchContext` | apps/web/app/design-template-concurrency.ts:230-246 | A change of tenant, client or template aborts both requests; a repeat does not. |
| `TemplateRequests.TemplateDetailLifecycleController.StartDetailRequest` | apps/web/app/design-template-concurrency.ts:256-277 | Aborts both kinds and hands out a ticket that is current. |
| `TemplateRequests.TemplateDetailLifecycleController.StartConflictRequest` | apps/web/app/design-template-concurrency.ts:279-299 | Aborts the earlier conflict request only and hands out a ticket that is current. |
| `TemplateRequests.TemplateDetailLifecycleController.AbortRequests` | apps/web/app/design-template-concurrency.ts:301-310 | Aborts and forgets both current requests. |
| `DiscoveryConnect.ReplayIsSetEquality` | apps/api/src/social-accounts.ts:911-931 | For duplicate-free selections the replay check is exactly set equality. |
| `DiscoveryConnect.RepeatedAssetReplays` | apps/api/src/social-accounts.ts:911-931 | A concrete case: with a repeated asset the check accepts a smaller selection. |
| `DiscoveryConnect.ReplayErrsExactlyWhen` | apps/api/src/social-accounts.ts:911-931 | Against a duplicate-free saved selection the check errs exactly when the new one repeats an asset and either is an equally long part of the saved one, which it accepts, or has the same assets, which it refuses. |
| `DiscoveryConnect.UpsertMeans` | apps/api/src/social-accounts.ts:1085-1158 | Existing accounts keep their ids, each selected asset gets one, and the returned ids list them in order. |
| `DiscoveryConnect.ConsumedOnce` | apps/api/src/social-accounts.ts:994-1010 | At most one consumption ever commits, however locks expire and connects overlap, and it never changes. |
| `DiscoveryConnect.SuccessListsWinner` | apps/api/src/social-accounts.ts:1161-1231 | Every success, of the winner, a replay or a recovering loser, lists exactly the winner's accounts. |
| `DiscoveryConnect.LosersLeaveNoTrace` | apps/api/src/social-accounts.ts:1161-1200 | Accounts and consumption change together, only in the step that wins. |
| `DiscoveryConnect.ReleasesOwnLock` | apps/api/src/social-accounts.ts:1256-1271 | A live lock is taken away only by its own owner. |
| `DiscoveryProgress.FirstConnect` | apps/api/src/social-accounts.ts:911-1271 | An uninterrupted connect whose session offers what is selected succeeds with one account per selected asset, is the consumption from then on, and leaves neither session nor lock. |
| `DiscoveryProgress.LaterConnect` | apps/api/src/social-accounts.ts:911-931 | A later connect of the discovery succeeds, listing the same accounts, for the same scope and selection, is refused otherwise, and changes no account. |
| `DiscoveryProgress.BusyConnect` | apps/api/src/social-accounts.ts:957-975 | A connect while another holds the lock is turned away. |
| `DiscoveryProgress.LockMeans` | apps/api/src/social-accounts.ts:957-975 | The lock is taken, until the end of its time to live, exactly when none is held. |
| `DiscoveryProgress.ConsumptionMeans` | apps/api/src/social-accounts.ts:994-1010 | A connect that finds a consumption, at its check or after losing the race, answers by it and by nothing else. |
| `DiscoveryProgress.SessionMeans` | apps/api/src/social-accounts.ts:1011-1083 | It goes on to write exactly when the session is there, of this scope, and offers every selected asset; else it is refused for the first reason that applies. |
| `DiscoveryProgress.CommitMeans` | apps/api/src/social-accounts.ts:1085-1200 | Accounts and consumption are written together exactly when no other consumption is there and nothing fails; existing accounts keep their ids and the answer lists those of the selected assets. |
| `DiscoveryProgress.AnswerMeans` | apps/api/src/social-accounts.ts:1236-1271 | A success drops the session; then the lock is given back exactly if still held by this connect. |
| `DiscoveryConnect.ConnectLock.Take` | apps/api/src/social-accounts.ts:957-975 | The lock is taken exactly when none is held. |
| `DiscoveryConnect.ConnectLock.Release` | apps/api/src/social-accounts.ts:1256-1271 | The lock is given back exactly when held by the releaser. |
| `DiscoveryConnect.AccountTable.MatchAssets` | apps/api/src/social-accounts.ts:1068-1083 | Succeeds exactly when every selected asset was offered, else names one that was not. |
| `DiscoveryConnect.AccountTable.ConnectAssets` | apps/api/src/social-accounts.ts:1085-1158 | The loop over the assets is the specified upsert. |
| `ArtworkPolling.OneThingAtATime` | apps/web/app/artwork-polling-controller.ts:107-298 | Never two armed timers, two live requests, or one of each. |
| `ArtworkPolling.CallbacksAreCurrent` | apps/web/app/artwork-polling-controller.ts:192-195 | Callbacks answer only an unanswered request of the current job and generation, before disposal. |
| `ArtworkPolling.CompletesOnce` | apps/web/app/artwork-polling-controller.ts:201-208 | Completion effects fire at most once per id before disposal. |
| `ArtworkPolling.FetchesAreBounded` | apps/web/app/artwork-polling-controller.ts:232-281 | A cycle makes at most max(1, maxAttempts) fetches. |
| `ArtworkPolling.DisposedForever` | apps/web/app/artwork-polling-controller.ts:213-217 | A disposed controller arms no timer, fetches nothing and calls nobody, whatever still arrives. |
| `ArtworkPolling.StartMeans` | apps/web/app/artwork-polling-controller.ts:124-136 | A start ends the cycle that goes on and arms one timer of a new one, unless disposed. |
| `ArtworkPolling.CheckMeans` | apps/web/app/artwork-polling-controller.ts:143-187 | A manual check ends the cycle and sends one request at once, unless disposed. |
| `ArtworkPolling.StopMeans` | apps/web/app/artwork-polling-controller.ts:107-119 | A stop ends the cycle and calls nobody. |
| `ArtworkPolling.FireMeans` | apps/web/app/artwork-polling-controller.ts:219-236 | The armed timer sends one request of its cycle. |
| `ArtworkPolling.RespondMeans` | apps/web/app/artwork-polling-controller.ts:189-292 | Just which callbacks a response makes; polling goes on, with one armed timer, exactly after a current polled response while the job is unfinished and attempts are left. |
| `ArtworkPolling.ArtworkPollingController.StopPolling` | apps/web/app/artwork-polling-controller.ts:107-119 | Clears the timer, aborts the request and starts a new generation. |
| `ArtworkPolling.ArtworkPollingController.StartPollingJob` | apps/web/app/artwork-polling-controller.ts:124-136 | Starts a fresh cycle with one armed timer, unless disposed. |
| `ArtworkPolling.ArtworkPollingController.ExecuteManualCheck` | apps/web/app/artwork-polling-controller.ts:143-187 | Stops the cycle and sends one request of a new generation, unless disposed. |
| `ArtworkPolling.ArtworkPollingController.DisposeController` | apps/web/app/artwork-polling-controller.ts:213-217 | Stops and forgets the completed ids. |
| `ArtworkPolling.ArtworkPollingController.TimerFires` | apps/web/app/artwork-polling-controller.ts:219-236 | An authorized timer sends one request. |
| `ArtworkPolling.ArtworkPollingController.ResponseArrives` | apps/web/app/artwork-polling-controller.ts:238-292 | Stale responses do nothing; others call back, then stop, give up or arm the timer. |
| `ArtworkPolling.PollingLifecycleManager.GetController` | apps/web/app/artwork-polling-controller.ts:318-323 | Hands out an undisposed current controller; all others ever created stay disposed. |
| `ArtworkPolling.PollingLifecycleManager.OnSetup` | apps/web/app/artwork-polling-controller.ts:325-332 | Disposes the current controller and makes a new one current. |
| `ArtworkPolling.PollingLifecycleManager.OnCleanup` | apps/web/app/artwork-polling-controller.ts:334-339 | Disposes the given controller and forgets it if it was current. |
| `BatchPolling.OneOfEachGeneration` | apps/web/app/batch-polling-controller.ts:83-193 | At most one timer is armed and a generation has at most one unanswered request, not both. |
| `BatchPolling.CallbacksAreCurrent` | apps/web/app/batch-polling-controller.ts:125-179 | Callbacks are made only for the current batch and generation, before disposal. |
| `BatchPolling.TerminalOnce` | apps/web/app/batch-polling-controller.ts:159-172 | The terminal effect fires at most once per batch before disposal. |
| `BatchPolling.FetchesAreBounded` | apps/web/app/batch-polling-controller.ts:134-142 | A cycle makes one fetch per counted attempt, and at most maxAttempts. |
| `BatchPolling.DisposedForever` | apps/web/app/batch-polling-controller.ts:106-110 | A disposed controller arms no timer, fetches nothing and calls nobody. |
| `BatchPolling.StartMeans` | apps/web/app/batch-polling-controller.ts:83-92 | A start halts what goes on and arms one timer of a new cycle, unless disposed. |
| `BatchPolling.StopMeans` | apps/web/app/batch-polling-controller.ts:94-110 | A stop halts and calls nobody; a disposal also forgets the terminal batches for good. |
| `BatchPolling.FireMeans` | apps/web/app/batch-polling-controller.ts:112-145 | The armed timer sends one request, or with all attempts used up reports the timeout and stops. |
| `BatchPolling.RespondMeans` | apps/web/app/batch-polling-controller.ts:146-193 | A response that counts is reported, and polling goes on with one armed timer exactly unless the batch has ended; any other is dropped. |
| `BatchPolling.OneLiveRequest` | apps/web/app/batch-polling-controller.ts:134-193 | At most one request is live, in every run in which no response comes while another request is live. |
| `BatchPolling.SoleExactlyWhen` | apps/web/app/batch-polling-controller.ts:146-193 | A step keeps every live request the remembered one, and of the current generation, exactly unless it answers one pending request while another is live. |
| `BatchPolling.AnswerBesideOverlaps` | apps/web/app/batch-polling-controller.ts:190-192 | Every such response lets requests overlap: the next start and timer leave two requests live. |
| `BatchPolling.RequestsMayOverlap` | apps/web/app/batch-polling-controller.ts:190-192 | A concrete run in which a stale response clears the current controller and two requests are live at once. |
| `BatchPolling.BatchPollingController.Halt` | apps/web/app/batch-polling-controller.ts:94-104 | Clears the timer, aborts the remembered request and withdraws the authorization. |
| `BatchPolling.BatchPollingController.StartPollingBatch` | apps/web/app/batch-polling-controller.ts:83-92 | Starts a cycle of a new generation, unless disposed. |
| `BatchPolling.BatchPollingController.DisposeController` | apps/web/app/batch-polling-controller.ts:106-110 | Stops and forgets the terminal batches. |
| `BatchPolling.BatchPollingController.TimerFires` | apps/web/app/batch-polling-controller.ts:112-145 | A current timer sends one request, or gives up after maxAttempts. |
| `BatchPolling.BatchPollingController.ResponseArrives` | apps/web/app/batch-polling-controller.ts:146-193 | Stale responses call nobody, and every response clears the controller. |

## Left out

- Tenants: one organization and client at a time; row-level security, roles and archived records are not modelled.
- Remote publishing: a publish succeeds, times out or fails; message texts, which decide between retry and dead letter, are an arbitrary choice.
- Queues: delivery may be lost, repeated or late, so queue ids, delays and back-off carry no promise.
- Rendering and inspecting images: one uninterpreted function gives the digest, size and shape of an image.
- Publish idempotency key in Redis (`apps/api/src/publication.ts:213-300`): it only answers repeated clicks; the attempt table decides.
- Audit rows of batches, uploads and publications, completion times and error texts: they follow the writes that are modelled.
- Social account expiry after an authorization failure: it changes no attempt and no schedule.
- Deleting accounts, posts or templates while a run is going on.
- Default templates: a loop of the same insert.
- Contrast confirmation before a template is saved, and switching templates while a save is under way: an editor is followed on one template.
- Template differences, contrast and diff calculation: field-by-field comparison.
- Renaming a template changes no version.
- Session and cookie checks of the OAuth discovery beyond its scope.
- `prepareManualCheck` called from outside: the model calls it where the controller does.
- The reconciler's own timer and its guard against overlapping cycles: cycles may overlap here.
