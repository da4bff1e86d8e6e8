/**
  Rows touched by the render protocol and the database transactions that change
  them.  A transaction is one atomic step, so each one is a function from the
  database before to the database after.
*/
module RenderRows {
  import opened Basics

  /** How long an acquired render job stays leased, in milliseconds. */
  const RENDER_LEASE_MS: Time := 300000

  /** How long a reserved upload may still be claimed, in milliseconds. */
  const UPLOAD_WINDOW_MS: Time := 3600000

  datatype JobStatus = Pending | Processing | Completed | Failed | Cancelled

  datatype Job = Job(
    status: JobStatus,
    token: Option<Uuid>,
    lease: Option<Time>,
    attempt: nat,
    batch: Option<Uuid>,
    output: Option<Uuid>)

  datatype BatchStatus =
    | BatchPending | BatchProcessing | BatchCancelling
    | BatchCompleted | BatchPartiallyFailed | BatchFailed | BatchCancelled

  datatype Counters = Counters(pending: nat, processing: nat, completed: nat, failed: nat, cancelled: nat)

  datatype Batch = Batch(status: BatchStatus, total: nat, counters: Counters, cancelRequestedAt: Option<Time>)

  /** What is recorded about an image: its digest, its size and its shape. */
  datatype Meta = Meta(mime: string, byteSize: nat, width: nat, height: nat, sha256: string)

  const PNG := "image/png"

  datatype AssetStatus = AssetPending | AssetUploading | AssetReady | AssetFailed

  /** The storage key of an asset is determined by its id, so the id stands for both. */
  datatype Asset = Asset(status: AssetStatus, meta: Option<Meta>, createdAt: Time)

  datatype AuditAction = RenderStarted | RenderRecovered | RenderCompleted | RenderFailed

  /** An audit row; `writer` is the execution that wrote it, kept here as history. */
  datatype AuditRow = AuditRow(action: AuditAction, job: Uuid, writer: Uuid)

  datatype Db = Db(
    jobs: map<Uuid, Job>,
    batches: map<Uuid, Batch>,
    assets: map<Uuid, Asset>,
    audit: seq<AuditRow>)

  predicate Terminal(status: JobStatus) {
    status == Completed || status == Failed || status == Cancelled
  }

  /** The guard every fenced write carries: the row still holds this execution's token. */
  predicate HeldBy(db: Db, j: Uuid, token: Uuid) {
    j in db.jobs && db.jobs[j].token == Some(token)
  }

  predicate CancelRequested(db: Db, b: Uuid) {
    b in db.batches && db.batches[b].cancelRequestedAt.Some?
  }

  // ----- Batch counters ------------------------------------------------------------

  function JobsIn(jobs: map<Uuid, Job>, b: Uuid, status: JobStatus): set<Uuid> {
    set j | j in jobs && jobs[j].batch == Some(b) && jobs[j].status == status
  }

  function CountJobs(jobs: map<Uuid, Job>, b: Uuid): Counters {
    Counters(
      |JobsIn(jobs, b, Pending)|, |JobsIn(jobs, b, Processing)|, |JobsIn(jobs, b, Completed)|,
      |JobsIn(jobs, b, Failed)|, |JobsIn(jobs, b, Cancelled)|)
  }

  function Sum(c: Counters): nat {
    c.pending + c.processing + c.completed + c.failed + c.cancelled
  }

  /** `computeBatchAggregateStatus`. */
  function AggregateStatus(total: nat, c: Counters, cancelRequested: bool): BatchStatus {
    if Sum(c) != total then
      if cancelRequested then BatchCancelling else BatchProcessing
    else if c.pending != 0 || c.processing != 0 then
      if cancelRequested then BatchCancelling
      else if c.processing > 0 || c.completed > 0 || c.failed > 0 || c.cancelled > 0 then BatchProcessing
      else BatchPending
    else if c.completed == total then BatchCompleted
    else if c.failed == total then BatchFailed
    else if c.cancelled == total then BatchCancelled
    else if c.failed > 0 then BatchPartiallyFailed
    else if c.cancelled > 0 && c.completed > 0 then BatchCancelled
    else BatchCompleted
  }

  predicate TerminalBatch(status: BatchStatus) {
    status in {BatchCompleted, BatchPartiallyFailed, BatchFailed, BatchCancelled}
  }

  /** A batch with new counts and the status that follows from them. */
  function Recounted(batch: Batch, counters: Counters): Batch {
    batch.(counters := counters, status := AggregateStatus(batch.total, counters, batch.cancelRequestedAt.Some?))
  }

  /** `updateBatchCounters`: recount one batch and derive its status. */
  function Refresh(db: Db, b: Uuid): Db {
    if b !in db.batches then db
    else db.(batches := db.batches[b := Recounted(db.batches[b], CountJobs(db.jobs, b))])
  }

  function RefreshOf(db: Db, b: Option<Uuid>): Db {
    if b.Some? then Refresh(db, b.value) else db
  }

  // ----- Requests ------------------------------------------------------------------

  const NewJob := Job(Pending, None, None, 0, None, None)

  function CreateJob(db: Db, j: Uuid): Db {
    if j in db.jobs then db else db.(jobs := db.jobs[j := NewJob])
  }

  function AddJobs(jobs: map<Uuid, Job>, b: Uuid, ids: seq<Uuid>): map<Uuid, Job> {
    jobs + map j | j in ids :: NewJob.(batch := Some(b))
  }

  /** The ids a new batch may use: one fresh id per item. */
  predicate FreshBatch(db: Db, b: Uuid, ids: seq<Uuid>) {
    && b !in db.batches
    && |ids| > 0
    && (forall i :: 0 <= i < |ids| ==> ids[i] !in db.jobs)
    && (forall i, k :: 0 <= i < k < |ids| ==> ids[i] != ids[k])
  }

  function CreateBatch(db: Db, b: Uuid, ids: seq<Uuid>): Db {
    if !FreshBatch(db, b, ids) then db
    else
      var batch := Batch(BatchPending, |ids|, Counters(|ids|, 0, 0, 0, 0), None);
      db.(batches := db.batches[b := batch], jobs := AddJobs(db.jobs, b, ids))
  }

  function CancelPending(jobs: map<Uuid, Job>, b: Uuid): map<Uuid, Job> {
    map j | j in jobs ::
      if jobs[j].batch == Some(b) && jobs[j].status == Pending then jobs[j].(status := Cancelled) else jobs[j]
  }

  /** The batch cancel route. */
  function CancelBatch(db: Db, b: Uuid, now: Time): Db {
    if b !in db.batches || TerminalBatch(db.batches[b].status) then db
    else
      var batch := db.batches[b];
      var at := if batch.cancelRequestedAt.Some? then batch.cancelRequestedAt.value else now;
      Refresh(
        db.(batches := db.batches[b := batch.(cancelRequestedAt := Some(at))],
            jobs := CancelPending(db.jobs, b)),
        b)
  }

  // ----- Worker transactions -------------------------------------------------------

  /** What the acquisition query saw before its compare-and-set. */
  datatype Seen = Seen(status: JobStatus, lease: Option<Time>)

  predicate Recovers(seen: Seen, now: Time) {
    seen.status == Processing && seen.lease.Some? && seen.lease.value <= now
  }

  predicate Claimable(seen: Seen, now: Time) {
    seen.status == Pending || Recovers(seen, now)
  }

  /** The `where` clause of the acquisition: status unchanged and, on recovery, the very same lease. */
  predicate ClaimMatches(db: Db, j: Uuid, seen: Seen, now: Time) {
    && j in db.jobs
    && db.jobs[j].status == seen.status
    && (Recovers(seen, now) ==> db.jobs[j].lease == seen.lease)
  }

  function Claim(db: Db, token: Uuid, j: Uuid, seen: Seen, now: Time): Db {
    if !Claimable(seen, now) || !ClaimMatches(db, j, seen, now) then db
    else
      var job := db.jobs[j];
      var action := if Recovers(seen, now) then RenderRecovered else RenderStarted;
      db.(jobs := db.jobs[j := job.(status := Processing, token := Some(token),
                                    lease := Some(now + RENDER_LEASE_MS), attempt := job.attempt + 1)],
          audit := db.audit + [AuditRow(action, j, token)])
  }

  /** A fenced write that ends the execution's hold on the job. */
  function EndHold(db: Db, j: Uuid, status: JobStatus): Db
    requires j in db.jobs
  {
    db.(jobs := db.jobs[j := db.jobs[j].(status := status, token := None, lease := None)])
  }

  /** `markPermanentFailure`. */
  function FailJob(db: Db, token: Uuid, j: Uuid): Db {
    if !HeldBy(db, j, token) then db
    else
      RefreshOf(EndHold(db, j, Failed).(audit := db.audit + [AuditRow(RenderFailed, j, token)]), db.jobs[j].batch)
  }

  /** `releaseTransientJob`: the counters are not refreshed. */
  function ReleaseJob(db: Db, token: Uuid, j: Uuid): Db {
    if HeldBy(db, j, token) then EndHold(db, j, Pending) else db
  }

  /** Cooperative cancellation: the counters are refreshed even when the token is gone. */
  function CancelJob(db: Db, token: Uuid, j: Uuid, b: Uuid): Db {
    Refresh(if HeldBy(db, j, token) then EndHold(db, j, Cancelled) else db, b)
  }

  /** Reserve the output asset; an existing row is left alone. */
  function ReserveAsset(db: Db, a: Uuid, now: Time): Db {
    if a in db.assets then db else db.(assets := db.assets[a := Asset(AssetPending, None, now)])
  }

  /** Finalized media rows may only be rewritten with what they already say. */
  predicate MayFinalize(asset: Asset, meta: Meta) {
    asset.status == AssetFailed || asset.status == AssetReady ==> asset.status == AssetReady && asset.meta == Some(meta)
  }

  /** Finalization commits only if both writes succeed. */
  predicate FinalizeCommits(db: Db, token: Uuid, j: Uuid, meta: Meta) {
    && j in db.assets && MayFinalize(db.assets[j], meta)
    && HeldBy(db, j, token)
  }

  function FinalizeJob(db: Db, token: Uuid, j: Uuid, meta: Meta): Db {
    if !FinalizeCommits(db, token, j, meta) then db
    else
      var done := db.jobs[j].(status := Completed, output := Some(j), token := None, lease := None);
      RefreshOf(
        db.(assets := db.assets[j := db.assets[j].(status := AssetReady, meta := Some(meta))],
            jobs := db.jobs[j := done],
            audit := db.audit + [AuditRow(RenderCompleted, j, token)]),
        db.jobs[j].batch)
  }

  /** The reconciler's reset of one candidate: guarded by the candidate's status only. */
  function ResetCandidate(db: Db, j: Uuid, status: JobStatus): Db {
    if j in db.jobs && db.jobs[j].status == status && status == Processing then EndHold(db, j, Pending) else db
  }

  // ----- Upload transactions -------------------------------------------------------

  predicate UploadClaimable(db: Db, a: Uuid, now: Time) {
    a in db.assets && db.assets[a].status == AssetPending && db.assets[a].createdAt > now - UPLOAD_WINDOW_MS
  }

  predicate Uploading(db: Db, a: Uuid) {
    a in db.assets && db.assets[a].status == AssetUploading
  }

  function SetAsset(db: Db, a: Uuid, status: AssetStatus): Db
    requires a in db.assets
  {
    db.(assets := db.assets[a := db.assets[a].(status := status)])
  }

  function CommitUpload(db: Db, a: Uuid, meta: Meta): Db {
    if Uploading(db, a) then
      db.(assets := db.assets[a := db.assets[a].(status := AssetReady, meta := Some(meta))])
    else db
  }
}
