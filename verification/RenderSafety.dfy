/**
  What every run of the render protocol keeps: fencing by execution token, one
  commit per job, exact audit counts, media that matches its record, and batch
  counters that agree with the jobs.
*/
module RenderSafety {
  import opened Basics
  import opened RenderRows
  import opened RenderWorld
  import opened BatchCounters

  // ----- Rows and executions ---------------------------------------------------------

  /** An execution that has acquired its job at some time. */
  predicate HasAcquired(phase: Phase) {
    !phase.Starting? && !phase.Claiming?
  }

  /** A job is leased and owned exactly while it is being processed, and it has an output exactly when completed. */
  predicate JobOk(job: Job, j: Uuid) {
    && (job.status == Processing <==> job.token.Some?)
    && (job.status == Processing <==> job.lease.Some?)
    && (job.status == Completed <==> job.output == Some(j))
    && (job.status != Completed ==> job.output == None)
  }

  /** The token on a row names an execution for that row that did acquire it. */
  predicate OwnerOk(w: World, j: Uuid)
    requires j in w.db.jobs
  {
    var owner := w.db.jobs[j].token;
    owner.Some? ==>
      && owner.value in w.workers
      && w.workers[owner.value].job == j
      && HasAcquired(w.workers[owner.value].phase)
  }

  predicate WorkerOk(w: World, t: Uuid)
    requires t in w.workers
  {
    var worker := w.workers[t];
    match worker.phase
    case Cancelling(b) => BatchOf(w.db, worker.job) == Some(b)
    case _ => true
  }

  ghost predicate RowsOk(w: World) {
    && (forall j :: j in w.db.jobs ==> JobOk(w.db.jobs[j], j) && OwnerOk(w, j))
    && (forall t :: t in w.workers ==> WorkerOk(w, t))
  }

  // ----- Audit -------------------------------------------------------------------------

  function Count(audit: seq<AuditRow>, j: Uuid, actions: set<AuditAction>): nat {
    if audit == [] then 0
    else
      var last := audit[|audit| - 1];
      Count(audit[..|audit| - 1], j, actions) + (if last.job == j && last.action in actions then 1 else 0)
  }

  const Starts := {RenderStarted, RenderRecovered}
  const Commits := {RenderCompleted, RenderFailed}

  lemma CountAppend(audit: seq<AuditRow>, row: AuditRow, j: Uuid, actions: set<AuditAction>)
    ensures Count(audit + [row], j, actions)
         == Count(audit, j, actions) + (if row.job == j && row.action in actions then 1 else 0)
  {
    assert (audit + [row])[..|audit|] == audit;
  }

  /** The audit log counts acquisitions and commits exactly. */
  ghost predicate AuditOk(db: Db) {
    && (forall j :: j in db.jobs ==>
          && Count(db.audit, j, Starts) == db.jobs[j].attempt
          && Count(db.audit, j, {RenderCompleted}) == (if db.jobs[j].status == Completed then 1 else 0)
          && Count(db.audit, j, {RenderFailed}) == (if db.jobs[j].status == Failed then 1 else 0))
    && (forall j :: j !in db.jobs ==> Count(db.audit, j, Starts) == 0)
    && (forall j :: j !in db.jobs ==> Count(db.audit, j, {RenderCompleted}) == 0)
    && (forall j :: j !in db.jobs ==> Count(db.audit, j, {RenderFailed}) == 0)
  }

  // ----- Media -------------------------------------------------------------------------

  /** The object at a ready asset's key is the recorded picture. */
  predicate AssetOk(inspect: Image -> Meta, w: World, a: Uuid)
    requires a in w.db.assets
  {
    w.db.assets[a].status == AssetReady ==>
      a in w.objects && w.db.assets[a].meta == Some(inspect(w.objects[a]))
  }

  predicate RenderStored(inspect: Image -> Meta, w: World, t: Uuid)
    requires t in w.workers
  {
    match w.workers[t].phase
    case Finalizing(image) =>
      var j := w.workers[t].job;
      j in w.objects && inspect(w.objects[j]) == inspect(image)
    case _ => true
  }

  predicate UploadStored(w: World, u: Uuid)
    requires u in w.uploads
  {
    match w.uploads[u].phase
    case Committing(image) => w.uploads[u].asset in w.objects && w.objects[w.uploads[u].asset] == image
    case _ => true
  }

  ghost predicate MediaOk(inspect: Image -> Meta, w: World) {
    && (forall a :: a in w.db.assets ==> AssetOk(inspect, w, a))
    && (forall t :: t in w.workers ==> RenderStored(inspect, w, t))
    && (forall u :: u in w.uploads ==> UploadStored(w, u))
    && (forall j :: j in w.db.jobs && w.db.jobs[j].status == Completed ==>
          j in w.db.assets && w.db.assets[j].status == AssetReady)
  }

  function OpenUploads(uploads: map<Uuid, Upload>): set<Uuid> {
    set u | u in uploads && uploads[u].phase != Closed
  }

  /** The process-wide upload counter is the number of open uploads and never exceeds two. */
  ghost predicate SlotsOk(w: World) {
    w.slots == |OpenUploads(w.uploads)| && w.slots <= 2
  }

  ghost predicate Inv(inspect: Image -> Meta, w: World) {
    && RowsOk(w)
    && BatchesOk(w.db)
    && AuditOk(w.db)
    && MediaOk(inspect, w)
    && SlotsOk(w)
  }

  // ----- One step keeps the rows -----------------------------------------------------------

  /** A write to one job that keeps it in order and hands out at most the writer's token. */
  predicate TokensKept(before: Db, after: Db, claims: bool, t: Uuid, j: Uuid) {
    && after.jobs.Keys == before.jobs.Keys
    && forall x :: x in before.jobs ==>
         && JobOk(after.jobs[x], x)
         && after.jobs[x].batch == before.jobs[x].batch
         && (after.jobs[x].token == before.jobs[x].token || after.jobs[x].token == None
             || (claims && x == j && after.jobs[x].token == Some(t)))
  }

  lemma CancelTokens(db: Db, t: Uuid, j: Uuid, b: Uuid)
    requires forall x :: x in db.jobs ==> JobOk(db.jobs[x], x)
    ensures TokensKept(db, CancelJob(db, t, j, b), false, t, j)
  {
  }

  lemma FailTokens(db: Db, t: Uuid, j: Uuid)
    requires forall x :: x in db.jobs ==> JobOk(db.jobs[x], x)
    ensures TokensKept(db, FailJob(db, t, j), false, t, j)
  {
  }

  lemma FinalizeTokens(db: Db, t: Uuid, j: Uuid, meta: Meta)
    requires forall x :: x in db.jobs ==> JobOk(db.jobs[x], x)
    ensures TokensKept(db, FinalizeJob(db, t, j, meta), false, t, j)
  {
  }

  lemma TransactTokens(db: Db, t: Uuid, j: Uuid, tx: WorkerTx, now: Time)
    requires forall x :: x in db.jobs ==> JobOk(db.jobs[x], x)
    ensures Transact(db, t, j, tx, now).jobs.Keys == db.jobs.Keys
    ensures forall x :: x in db.jobs ==>
      var after := Transact(db, t, j, tx, now).jobs[x];
      && JobOk(after, x)
      && after.batch == db.jobs[x].batch
      && (after.token == db.jobs[x].token || after.token == None || (tx.ClaimTx? && x == j && after.token == Some(t)))
  {
    match tx
    case CancelTx(b) => CancelTokens(db, t, j, b);
    case FailTx => FailTokens(db, t, j);
    case FinalizeTx(meta) => FinalizeTokens(db, t, j, meta);
    case _ => assert TokensKept(db, Transact(db, t, j, tx, now), tx.ClaimTx?, t, j);
  }

  /** An acquired execution stays acquired, a claim acquires, and only the job's own batch is cancelled. */
  lemma DecideProgress(inspect: Image -> Meta, w: World, t: Uuid, j: Uuid, phase: Phase, move: WorkerMove)
    ensures var e := Decide(inspect, w, t, j, phase, move);
      && (e.tx.ClaimTx? || HasAcquired(phase) ==> HasAcquired(e.next))
      && (e.next.Cancelling? ==> phase == e.next || BatchOf(w.db, j) == Some(e.next.batch))
  {
  }

  lemma WorkerStepRows(inspect: Image -> Meta, w: World, t: Uuid, move: WorkerMove)
    requires RowsOk(w) && t in w.workers
    ensures RowsOk(WorkerStep(inspect, w, t, move))
  {
    var j, phase := w.workers[t].job, w.workers[t].phase;
    var e := Decide(inspect, w, t, j, phase, move);
    TransactTokens(w.db, t, j, e.tx, w.now);
    DecideProgress(inspect, w, t, j, phase, move);
    var after := WorkerStep(inspect, w, t, move);
    forall x | x in after.db.jobs ensures OwnerOk(after, x) {
      assert OwnerOk(w, x);
    }
    forall u | u in after.workers ensures WorkerOk(after, u) {
      assert WorkerOk(w, u);
    }
  }

  lemma ServeTokens(db: Db, a: Action, now: Time)
    requires forall x :: x in db.jobs ==> JobOk(db.jobs[x], x)
    ensures db.jobs.Keys <= ServeDb(db, a, now).jobs.Keys
    ensures forall x :: x in ServeDb(db, a, now).jobs ==> JobOk(ServeDb(db, a, now).jobs[x], x)
    ensures forall x :: x in db.jobs ==> ServeDb(db, a, now).jobs[x].batch == db.jobs[x].batch
    ensures forall x :: x in ServeDb(db, a, now).jobs && ServeDb(db, a, now).jobs[x].token.Some? ==>
      x in db.jobs && ServeDb(db, a, now).jobs[x].token == db.jobs[x].token
  {
  }

  lemma ServeRows(inspect: Image -> Meta, w: World, a: Action)
    requires RowsOk(w)
    ensures RowsOk(w.(db := ServeDb(w.db, a, w.now)))
  {
    ServeTokens(w.db, a, w.now);
    var after := w.(db := ServeDb(w.db, a, w.now));
    forall x | x in after.db.jobs ensures OwnerOk(after, x) {
      assert x in w.db.jobs ==> OwnerOk(w, x);
    }
    forall u | u in after.workers ensures WorkerOk(after, u) {
      assert WorkerOk(w, u);
    }
  }

  lemma UploadJobs(inspect: Image -> Meta, w: World, u: Uuid, move: UploadMove)
    requires u in w.uploads
    ensures UploadStep(inspect, w, u, move).db == w.db.(assets := UploadStep(inspect, w, u, move).db.assets)
    ensures UploadStep(inspect, w, u, move).workers == w.workers
  {
  }

  lemma StepRows(inspect: Image -> Meta, w: World, a: Action)
    requires RowsOk(w)
    ensures RowsOk(Apply(inspect, w, a))
  {
    var after := Apply(inspect, w, a);
    match a
    case WorkerMoves(t, move) => if t in w.workers { WorkerStepRows(inspect, w, t, move); }
    case UploadMoves(u, move) =>
      if u in w.uploads {
        UploadJobs(inspect, w, u, move);
        SameRows(w, after);
      }
    case Begin(t, j) =>
      forall x | x in after.db.jobs ensures OwnerOk(after, x) { assert OwnerOk(w, x); }
      forall u | u in after.workers ensures WorkerOk(after, u) { assert u in w.workers ==> WorkerOk(w, u); }
    case Tick(_) => SameRows(w, after);
    case OpenUpload(_, _) => SameRows(w, after);
    case _ => ServeRows(inspect, w, a);
  }

  lemma SameRows(w: World, after: World)
    requires RowsOk(w) && after.workers == w.workers && after.db.jobs == w.db.jobs
    ensures RowsOk(after)
  {
    forall x | x in after.db.jobs ensures OwnerOk(after, x) { assert OwnerOk(w, x); }
    forall u | u in after.workers ensures WorkerOk(after, u) { assert WorkerOk(w, u); }
  }

  // ----- One step keeps the counters -----------------------------------------------------------

  lemma TransactBatches(db: Db, t: Uuid, j: Uuid, tx: WorkerTx, now: Time)
    requires BatchesOk(db) && TokensMeanProcessing(db)
    requires tx.CancelTx? ==> BatchOf(db, j) == Some(tx.batch)
    ensures BatchesOk(Transact(db, t, j, tx, now))
  {
    match tx
    case NoTx =>
    case ClaimTx(seen, claimedAt) => ClaimKeeps(db, t, j, seen, claimedAt);
    case CancelTx(b) => CancelJobKeeps(db, t, j, b);
    case ReserveTx => OtherRowsKeep(db, ReserveAsset(db, j, now));
    case FinalizeTx(meta) => FinalizeKeeps(db, t, j, meta);
    case FailTx => FailKeeps(db, t, j);
    case ReleaseTx => ReleaseKeeps(db, t, j);
  }

  lemma ServeBatches(db: Db, a: Action, now: Time)
    requires BatchesOk(db)
    ensures BatchesOk(ServeDb(db, a, now))
  {
    match a
    case RequestJob(j) => CreateJobKeeps(db, j);
    case RequestBatch(b, ids) => CreateBatchKeeps(db, b, ids);
    case RequestCancel(b) => CancelBatchKeeps(db, b, now);
    case RequestAsset(asset) => OtherRowsKeep(db, ReserveAsset(db, asset, now));
    case Reconcile(j, status) => ResetKeeps(db, j, status);
    case RefreshBatch(b) => RefreshKeeps(db, b);
    case _ =>
  }

  lemma DecideCancels(inspect: Image -> Meta, w: World, t: Uuid, j: Uuid, phase: Phase, move: WorkerMove)
    requires Decide(inspect, w, t, j, phase, move).tx.CancelTx?
    ensures phase == Cancelling(Decide(inspect, w, t, j, phase, move).tx.batch)
  {
  }

  lemma WorkerStepBatches(inspect: Image -> Meta, w: World, t: Uuid, move: WorkerMove)
    requires RowsOk(w) && BatchesOk(w.db) && t in w.workers
    ensures BatchesOk(WorkerStep(inspect, w, t, move).db)
  {
    var j := w.workers[t].job;
    var e := Decide(inspect, w, t, j, w.workers[t].phase, move);
    assert WorkerOk(w, t);
    if e.tx.CancelTx? {
      DecideCancels(inspect, w, t, j, w.workers[t].phase, move);
    }
    TransactBatches(w.db, t, j, e.tx, w.now);
  }

  lemma StepBatches(inspect: Image -> Meta, w: World, a: Action)
    requires RowsOk(w) && BatchesOk(w.db)
    ensures BatchesOk(Apply(inspect, w, a).db)
  {
    match a
    case WorkerMoves(t, move) => if t in w.workers { WorkerStepBatches(inspect, w, t, move); }
    case UploadMoves(u, move) =>
      if u in w.uploads {
        UploadJobs(inspect, w, u, move);
        OtherRowsKeep(w.db, UploadStep(inspect, w, u, move).db);
      }
    case Begin(_, _) =>
    case Tick(_) =>
    case OpenUpload(_, _) =>
    case _ => ServeBatches(w.db, a, w.now);
  }

  // ----- One step keeps the audit log ------------------------------------------------------------

  /** One row appended for one job, matching what happened to that job. */
  lemma AuditGrows(before: Db, after: Db, row: AuditRow)
    requires AuditOk(before) && after.audit == before.audit + [row]
    requires before.jobs.Keys == after.jobs.Keys && row.job in before.jobs
    requires forall x :: x in before.jobs && x != row.job ==> before.jobs[x] == after.jobs[x]
    requires var b, a := before.jobs[row.job], after.jobs[row.job];
      && a.attempt == b.attempt + (if row.action in Starts then 1 else 0)
      && !Terminal(b.status)
      && (a.status == Completed <==> row.action == RenderCompleted)
      && (a.status == Failed <==> row.action == RenderFailed)
    ensures AuditOk(after)
  {
    forall x ensures
      && Count(after.audit, x, Starts)
           == Count(before.audit, x, Starts) + (if row.job == x && row.action in Starts then 1 else 0)
      && Count(after.audit, x, {RenderCompleted})
           == Count(before.audit, x, {RenderCompleted})
              + (if row.job == x && row.action == RenderCompleted then 1 else 0)
      && Count(after.audit, x, {RenderFailed})
           == Count(before.audit, x, {RenderFailed}) + (if row.job == x && row.action == RenderFailed then 1 else 0)
    {
      CountAppend(before.audit, row, x, Starts);
      CountAppend(before.audit, row, x, {RenderCompleted});
      CountAppend(before.audit, row, x, {RenderFailed});
    }
  }

  /** No row appended: attempts and the two committed statuses stay as they are. */
  lemma AuditStays(before: Db, after: Db)
    requires AuditOk(before) && after.audit == before.audit
    requires before.jobs.Keys <= after.jobs.Keys
    requires forall x :: x in before.jobs ==>
      && before.jobs[x].attempt == after.jobs[x].attempt
      && (before.jobs[x].status == Completed <==> after.jobs[x].status == Completed)
      && (before.jobs[x].status == Failed <==> after.jobs[x].status == Failed)
    requires forall x :: x in after.jobs && x !in before.jobs ==>
      after.jobs[x].attempt == 0 && after.jobs[x].status == Pending
    ensures AuditOk(after)
  {
  }

  lemma ClaimAudit(db: Db, t: Uuid, j: Uuid, seen: Seen, now: Time)
    requires AuditOk(db)
    ensures AuditOk(Claim(db, t, j, seen, now))
  {
    if Claimable(seen, now) && ClaimMatches(db, j, seen, now) {
      var action := if Recovers(seen, now) then RenderRecovered else RenderStarted;
      AuditGrows(db, Claim(db, t, j, seen, now), AuditRow(action, j, t));
    }
  }

  lemma FailAudit(db: Db, t: Uuid, j: Uuid)
    requires AuditOk(db) && TokensMeanProcessing(db)
    ensures AuditOk(FailJob(db, t, j))
  {
    if HeldBy(db, j, t) {
      AuditGrows(db, FailJob(db, t, j), AuditRow(RenderFailed, j, t));
    }
  }

  lemma FinalizeAudit(db: Db, t: Uuid, j: Uuid, meta: Meta)
    requires AuditOk(db) && TokensMeanProcessing(db)
    ensures AuditOk(FinalizeJob(db, t, j, meta))
  {
    if FinalizeCommits(db, t, j, meta) {
      AuditGrows(db, FinalizeJob(db, t, j, meta), AuditRow(RenderCompleted, j, t));
    }
  }

  lemma TransactAudit(db: Db, t: Uuid, j: Uuid, tx: WorkerTx, now: Time)
    requires AuditOk(db) && TokensMeanProcessing(db)
    ensures AuditOk(Transact(db, t, j, tx, now))
  {
    match tx
    case ClaimTx(seen, claimedAt) => ClaimAudit(db, t, j, seen, claimedAt);
    case FinalizeTx(meta) => FinalizeAudit(db, t, j, meta);
    case FailTx => FailAudit(db, t, j);
    case CancelTx(b) => AuditStays(db, CancelJob(db, t, j, b));
    case ReleaseTx => AuditStays(db, ReleaseJob(db, t, j));
    case ReserveTx =>
    case NoTx =>
  }

  lemma ServeAudit(db: Db, a: Action, now: Time)
    requires AuditOk(db) && TokensMeanProcessing(db)
    ensures AuditOk(ServeDb(db, a, now))
  {
    AuditStays(db, ServeDb(db, a, now));
  }

  lemma StepAudit(inspect: Image -> Meta, w: World, a: Action)
    requires RowsOk(w) && AuditOk(w.db)
    ensures AuditOk(Apply(inspect, w, a).db)
  {
    match a
    case WorkerMoves(t, move) =>
      if t in w.workers {
        var e := Decide(inspect, w, t, w.workers[t].job, w.workers[t].phase, move);
        TransactAudit(w.db, t, w.workers[t].job, e.tx, w.now);
      }
    case UploadMoves(u, move) =>
      if u in w.uploads {
        UploadJobs(inspect, w, u, move);
        AuditStays(w.db, UploadStep(inspect, w, u, move).db);
      }
    case Begin(_, _) =>
    case Tick(_) =>
    case OpenUpload(_, _) =>
    case _ => ServeAudit(w.db, a, w.now);
  }

  // ----- One step keeps the media ------------------------------------------------------------------

  /** Objects are never replaced or removed. */
  predicate StoreGrows(before: map<Uuid, Image>, after: map<Uuid, Image>) {
    forall k :: k in before ==> k in after && after[k] == before[k]
  }

  lemma StepStoreGrows(inspect: Image -> Meta, w: World, a: Action)
    ensures StoreGrows(w.objects, Apply(inspect, w, a).objects)
  {
  }

  /**
    The asset and completion rows a transaction writes: only a fenced
    finalization makes anything ready or completed.
  */
  lemma TransactMedia(db: Db, t: Uuid, j: Uuid, tx: WorkerTx, now: Time)
    requires tx.FinalizeTx? ==> FinalizeCommits(db, t, j, tx.meta)
    ensures var after := Transact(db, t, j, tx, now);
      && (forall x :: x in db.assets && !(tx.FinalizeTx? && x == j) ==>
          x in after.assets && after.assets[x] == db.assets[x])
      && (forall x :: x in after.assets && x !in db.assets ==> after.assets[x].status == AssetPending)
      && (tx.FinalizeTx? ==>
          j in after.assets && after.assets[j].status == AssetReady && after.assets[j].meta == Some(tx.meta))
      && (forall x :: x in after.jobs && after.jobs[x].status == Completed ==>
            (x in db.jobs && db.jobs[x].status == Completed) || (tx.FinalizeTx? && x == j))
  {
  }

  lemma WorkerStepMedia(inspect: Image -> Meta, w: World, t: Uuid, move: WorkerMove)
    requires MediaOk(inspect, w) && t in w.workers
    ensures MediaOk(inspect, WorkerStep(inspect, w, t, move))
  {
    hide Transact;
    var j, phase := w.workers[t].job, w.workers[t].phase;
    var e := Decide(inspect, w, t, j, phase, move);
    var after := WorkerStep(inspect, w, t, move);
    assert RenderStored(inspect, w, t);
    TransactMedia(w.db, t, j, e.tx, w.now);
    assert StoreGrows(w.objects, after.objects);
    assert e.tx.FinalizeTx? ==> phase.Finalizing? && e.tx.meta == inspect(phase.image);
    forall x | x in after.db.assets ensures AssetOk(inspect, after, x) {
      assert x in w.db.assets ==> AssetOk(inspect, w, x);
    }
    forall u | u in after.workers ensures RenderStored(inspect, after, u) {
      assert RenderStored(inspect, w, u);
    }
    forall u | u in after.uploads ensures UploadStored(after, u) {
      assert UploadStored(w, u);
    }
  }

  lemma UploadStepMedia(inspect: Image -> Meta, w: World, u: Uuid, move: UploadMove)
    requires MediaOk(inspect, w) && u in w.uploads
    ensures MediaOk(inspect, UploadStep(inspect, w, u, move))
  {
    var after := UploadStep(inspect, w, u, move);
    assert UploadStored(w, u);
    assert StoreGrows(w.objects, after.objects);
    UploadJobs(inspect, w, u, move);
    forall x | x in after.db.assets ensures AssetOk(inspect, after, x) {
      assert AssetOk(inspect, w, x);
    }
    forall t | t in after.workers ensures RenderStored(inspect, after, t) {
      assert RenderStored(inspect, w, t);
    }
    forall x | x in after.uploads ensures UploadStored(after, x) {
      assert UploadStored(w, x);
    }
  }

  lemma ServeMedia(db: Db, a: Action, now: Time)
    ensures var after := ServeDb(db, a, now);
      && (forall x :: x in db.assets ==> x in after.assets && after.assets[x] == db.assets[x])
      && (forall x :: x in after.assets && x !in db.assets ==> after.assets[x].status == AssetPending)
      && (forall x :: x in after.jobs && after.jobs[x].status == Completed ==>
          x in db.jobs && db.jobs[x].status == Completed)
  {
  }

  /** Steps that add rows without making any ready keep the media. */
  lemma QuietMedia(inspect: Image -> Meta, w: World, after: World)
    requires MediaOk(inspect, w) && after.objects == w.objects
    requires forall x :: x in w.db.assets ==> x in after.db.assets && after.db.assets[x] == w.db.assets[x]
    requires forall x :: x in after.db.assets && x !in w.db.assets ==> after.db.assets[x].status == AssetPending
    requires forall x :: x in after.db.jobs && after.db.jobs[x].status == Completed ==>
      x in w.db.jobs && w.db.jobs[x].status == Completed
    requires forall t :: t in after.workers ==>
      if t in w.workers then after.workers[t] == w.workers[t] else after.workers[t].phase.Starting?
    requires forall u :: u in after.uploads ==>
      if u in w.uploads then after.uploads[u] == w.uploads[u] else after.uploads[u].phase.Reading?
    ensures MediaOk(inspect, after)
  {
    forall x | x in after.db.assets ensures AssetOk(inspect, after, x) {
      assert x in w.db.assets ==> AssetOk(inspect, w, x);
    }
    forall t | t in after.workers ensures RenderStored(inspect, after, t) {
      assert t in w.workers ==> RenderStored(inspect, w, t);
    }
    forall u | u in after.uploads ensures UploadStored(after, u) {
      assert u in w.uploads ==> UploadStored(w, u);
    }
  }

  lemma RequestMedia(inspect: Image -> Meta, w: World, a: Action)
    requires MediaOk(inspect, w) && !a.WorkerMoves? && !a.UploadMoves?
    ensures MediaOk(inspect, Apply(inspect, w, a))
  {
    hide ServeDb, MediaOk;
    ServeMedia(w.db, a, w.now);
    QuietMedia(inspect, w, Apply(inspect, w, a));
  }

  lemma StepMedia(inspect: Image -> Meta, w: World, a: Action)
    requires MediaOk(inspect, w)
    ensures MediaOk(inspect, Apply(inspect, w, a))
  {
    match a
    case WorkerMoves(t, move) => if t in w.workers { WorkerStepMedia(inspect, w, t, move); }
    case UploadMoves(u, move) => if u in w.uploads { UploadStepMedia(inspect, w, u, move); }
    case _ => RequestMedia(inspect, w, a);
  }

  // ----- One step keeps the upload slots --------------------------------------------------------------

  lemma UploadStepSlots(inspect: Image -> Meta, w: World, u: Uuid, move: UploadMove)
    requires SlotsOk(w) && u in w.uploads
    ensures SlotsOk(UploadStep(inspect, w, u, move))
  {
    var after := UploadStep(inspect, w, u, move);
    if w.uploads[u].phase != Closed && after.uploads[u].phase == Closed {
      assert OpenUploads(after.uploads) == OpenUploads(w.uploads) - {u};
    } else {
      assert OpenUploads(after.uploads) == OpenUploads(w.uploads);
    }
  }

  lemma StepSlots(inspect: Image -> Meta, w: World, a: Action)
    requires SlotsOk(w)
    ensures SlotsOk(Apply(inspect, w, a))
  {
    match a
    case UploadMoves(u, move) => if u in w.uploads { UploadStepSlots(inspect, w, u, move); }
    case OpenUpload(u, target) =>
      var after := StepOpenUpload(w, u, target);
      assert after != w ==> OpenUploads(after.uploads) == OpenUploads(w.uploads) + {u};
    case _ =>
  }

  // ----- Runs -----------------------------------------------------------------------------------------

  lemma StepInv(inspect: Image -> Meta, w: World, a: Action)
    requires Inv(inspect, w)
    ensures Inv(inspect, Apply(inspect, w, a))
  {
    StepRows(inspect, w, a);
    StepBatches(inspect, w, a);
    StepAudit(inspect, w, a);
    StepMedia(inspect, w, a);
    StepSlots(inspect, w, a);
  }

  lemma {:induction false} RunInv(inspect: Image -> Meta, w: World, actions: seq<Action>)
    requires Inv(inspect, w)
    ensures Inv(inspect, Run(inspect, w, actions))
    decreases |actions|
  {
    if actions != [] {
      StepInv(inspect, w, actions[0]);
      RunInv(inspect, Apply(inspect, w, actions[0]), actions[1..]);
    }
  }

  /** Every reachable world is sound: the initial one is, and every action keeps it so. */
  lemma ReachableInv(inspect: Image -> Meta, actions: seq<Action>)
    ensures Inv(inspect, Run(inspect, Empty, actions))
  {
    assert OpenUploads(Empty.uploads) == {};
    RunInv(inspect, Empty, actions);
  }
}
