/**
  The promises of the render protocol, for every run: one commit per job, no
  effect from superseded executions, cancellation that keeps uploads out, leases
  that are recovered once, and media and counters a reader can trust.
*/
module RenderTheorems {
  import opened Basics
  import opened RenderRows
  import opened RenderWorld
  import opened BatchCounters
  import opened RenderSafety

  // ----- Ownership and commits ----------------------------------------------------------

  lemma {:induction false} CountSplit(audit: seq<AuditRow>, j: Uuid)
    ensures Count(audit, j, Commits) == Count(audit, j, {RenderCompleted}) + Count(audit, j, {RenderFailed})
    decreases |audit|
  {
    if audit != [] {
      CountSplit(audit[..|audit| - 1], j);
    }
  }

  /**
    In every reachable world a job is processed exactly while it has a token and
    a lease, its attempts are its acquisitions, and the log holds one commit for
    a completed or failed job and none for any other.
  */
  lemma JobsAreFenced(inspect: Image -> Meta, actions: seq<Action>, j: Uuid)
    requires j in Run(inspect, Empty, actions).db.jobs
    ensures var w := Run(inspect, Empty, actions);
      var job := w.db.jobs[j];
      && (job.status == Processing <==> job.token.Some?)
      && (job.status == Processing <==> job.lease.Some?)
      && job.attempt == Count(w.db.audit, j, Starts)
      && Count(w.db.audit, j, Commits) == (if job.status == Completed || job.status == Failed then 1 else 0)
  {
    ReachableInv(inspect, actions);
    CountSplit(Run(inspect, Empty, actions).db.audit, j);
  }

  lemma TransactFreezes(db: Db, t: Uuid, j: Uuid, tx: WorkerTx, now: Time, x: Uuid)
    requires x in db.jobs && Terminal(db.jobs[x].status) && JobOk(db.jobs[x], x)
    ensures x in Transact(db, t, j, tx, now).jobs && Transact(db, t, j, tx, now).jobs[x] == db.jobs[x]
  {
    hide CountJobs, AggregateStatus;
  }

  lemma ServeFreezes(db: Db, a: Action, now: Time, x: Uuid)
    requires x in db.jobs && Terminal(db.jobs[x].status)
    ensures x in ServeDb(db, a, now).jobs && ServeDb(db, a, now).jobs[x] == db.jobs[x]
  {
    hide CountJobs, AggregateStatus;
  }

  lemma StepFreezes(inspect: Image -> Meta, w: World, a: Action, x: Uuid)
    requires RowsOk(w) && x in w.db.jobs && Terminal(w.db.jobs[x].status)
    ensures x in Apply(inspect, w, a).db.jobs && Apply(inspect, w, a).db.jobs[x] == w.db.jobs[x]
  {
    hide Decide, DecideUpload, Transact, ServeDb;
    match a
    case WorkerMoves(t, move) =>
      if t in w.workers {
        var e := Decide(inspect, w, t, w.workers[t].job, w.workers[t].phase, move);
        TransactFreezes(w.db, t, w.workers[t].job, e.tx, w.now, x);
      }
    case UploadMoves(u, move) => if u in w.uploads { UploadJobs(inspect, w, u, move); }
    case Begin(_, _) =>
    case Tick(_) =>
    case OpenUpload(_, _) =>
    case _ => ServeFreezes(w.db, a, w.now, x);
  }

  /** Completed, failed and cancelled are never left: the whole row stays as it is. */
  lemma {:induction false} TerminalForever(inspect: Image -> Meta, w: World, actions: seq<Action>, x: Uuid)
    requires Inv(inspect, w) && x in w.db.jobs && Terminal(w.db.jobs[x].status)
    ensures x in Run(inspect, w, actions).db.jobs
    ensures Run(inspect, w, actions).db.jobs[x] == w.db.jobs[x]
    decreases |actions|
  {
    if actions != [] {
      StepFreezes(inspect, w, actions[0], x);
      StepInv(inspect, w, actions[0]);
      TerminalForever(inspect, Apply(inspect, w, actions[0]), actions[1..], x);
    }
  }

  // ----- Superseded executions ------------------------------------------------------------

  /** The execution did acquire its job, and the job no longer carries its token. */
  predicate Superseded(w: World, t: Uuid) {
    t in w.workers && HasAcquired(w.workers[t].phase) && !HeldBy(w.db, w.workers[t].job, t)
  }

  /**
    Nothing a superseded execution does reaches the jobs, the assets or the audit
    log; of the batch rows it can at most recount its own, and it can at most put
    an object under its own key, and only where none is.
  */
  lemma SupersededHasNoEffect(inspect: Image -> Meta, w: World, t: Uuid, move: WorkerMove)
    requires Superseded(w, t)
    ensures var after := Apply(inspect, w, WorkerMoves(t, move));
      && after.db.jobs == w.db.jobs
      && after.db.assets == w.db.assets
      && after.db.audit == w.db.audit
      && (after.db == w.db || (w.workers[t].phase.Cancelling? && after.db == Refresh(w.db, w.workers[t].phase.batch)))
      && StoreGrows(w.objects, after.objects)
      && (forall k :: k in after.objects && k !in w.objects ==> k == w.workers[t].job && w.workers[t].phase.Putting?)
  {
    hide Transact;
    var j, phase := w.workers[t].job, w.workers[t].phase;
    var e := Decide(inspect, w, t, j, phase, move);
    assert !e.tx.ClaimTx? && !e.tx.ReserveTx? && !e.tx.FinalizeTx? && (e.tx.CancelTx? ==>
      phase == Cancelling(e.tx.batch));
    LostTransact(w.db, t, j, e.tx, w.now);
  }

  lemma LostTransact(db: Db, t: Uuid, j: Uuid, tx: WorkerTx, now: Time)
    requires !HeldBy(db, j, t) && !tx.ClaimTx? && !tx.ReserveTx? && !tx.FinalizeTx?
    ensures Transact(db, t, j, tx, now) == if tx.CancelTx? then Refresh(db, tx.batch) else db
  {
  }

  lemma WorkerStepSuperseded(inspect: Image -> Meta, w: World, u: Uuid, move: WorkerMove, t: Uuid)
    requires RowsOk(w) && Superseded(w, t) && u in w.workers
    ensures Superseded(WorkerStep(inspect, w, u, move), t)
  {
    hide Transact;
    var j := w.workers[u].job;
    var e := Decide(inspect, w, u, j, w.workers[u].phase, move);
    TransactTokens(w.db, u, j, e.tx, w.now);
    assert e.tx.ClaimTx? ==> w.workers[u].phase.Claiming?;
    assert HasAcquired(w.workers[u].phase) ==> HasAcquired(e.next);
  }

  lemma StepSuperseded(inspect: Image -> Meta, w: World, a: Action, t: Uuid)
    requires Inv(inspect, w) && Superseded(w, t)
    ensures Superseded(Apply(inspect, w, a), t)
  {
    match a
    case WorkerMoves(u, move) => if u in w.workers { WorkerStepSuperseded(inspect, w, u, move, t); }
    case UploadMoves(u, move) => if u in w.uploads { UploadJobs(inspect, w, u, move); }
    case Begin(_, _) =>
    case Tick(_) =>
    case OpenUpload(_, _) =>
    case _ => ServeTokens(w.db, a, w.now);
  }

  /** An execution that lost its job never gets it back. */
  lemma {:induction false} SupersededForever(inspect: Image -> Meta, w: World, actions: seq<Action>, t: Uuid)
    requires Inv(inspect, w) && Superseded(w, t)
    ensures Superseded(Run(inspect, w, actions), t)
    decreases |actions|
  {
    if actions != [] {
      StepSuperseded(inspect, w, actions[0], t);
      StepInv(inspect, w, actions[0]);
      SupersededForever(inspect, Apply(inspect, w, actions[0]), actions[1..], t);
    }
  }

  // ----- Cancellation -----------------------------------------------------------------------

  /** The phases after the last look at the cancel request. */
  predicate PastRecheck(phase: Phase) {
    phase.Reserving? || phase.Putting? || phase.Finalizing?
  }

  /** Batch `b` is being cancelled and execution `t` is not among its uploads. */
  predicate KeptOut(w: World, b: Uuid, t: Uuid) {
    && CancelRequested(w.db, b)
    && (t in w.workers && BatchOf(w.db, w.workers[t].job) == Some(b) ==> !PastRecheck(w.workers[t].phase))
  }

  /** What a cancellation leaves of batches and of the jobs' places in them. */
  predicate BatchesKept(before: Db, after: Db) {
    && (forall x :: x in before.batches ==>
          x in after.batches && after.batches[x].cancelRequestedAt == before.batches[x].cancelRequestedAt)
    && after.jobs.Keys == before.jobs.Keys
    && (forall x :: x in before.jobs ==> after.jobs[x].batch == before.jobs[x].batch)
  }

  lemma RefreshKeepsBatches(db: Db, b: Option<Uuid>)
    ensures BatchesKept(db, RefreshOf(db, b)) && RefreshOf(db, b).jobs == db.jobs
  {
    hide CountJobs, AggregateStatus;
  }

  lemma TransactKeepsBatches(db: Db, t: Uuid, j: Uuid, tx: WorkerTx, now: Time)
    ensures BatchesKept(db, Transact(db, t, j, tx, now))
  {
    match tx
    case CancelTx(b) =>
      RefreshKeepsBatches(if HeldBy(db, j, t) then EndHold(db, j, Cancelled) else db, Some(b));
    case FinalizeTx(meta) => FinalizeKeepsBatches(db, t, j, meta);
    case FailTx =>
      if HeldBy(db, j, t) {
        RefreshKeepsBatches(EndHold(db, j, Failed).(audit := db.audit + [AuditRow(RenderFailed, j, t)]),
                            db.jobs[j].batch);
      }
    case _ =>
  }

  lemma FinalizeKeepsBatches(db: Db, t: Uuid, j: Uuid, meta: Meta)
    ensures BatchesKept(db, FinalizeJob(db, t, j, meta))
  {
  }

  lemma TransactBatchOf(db: Db, t: Uuid, j: Uuid, tx: WorkerTx, now: Time, b: Uuid, x: Uuid)
    requires CancelRequested(db, b)
    ensures BatchOf(Transact(db, t, j, tx, now), x) == BatchOf(db, x)
    ensures CancelRequested(Transact(db, t, j, tx, now), b)
    ensures Transact(db, t, j, tx, now).batches[b].cancelRequestedAt == db.batches[b].cancelRequestedAt
  {
    TransactKeepsBatches(db, t, j, tx, now);
  }

  lemma CancelBatchOf(db: Db, c: Uuid, now: Time, b: Uuid)
    requires CancelRequested(db, b)
    ensures CancelRequested(CancelBatch(db, c, now), b)
    ensures CancelBatch(db, c, now).batches[b].cancelRequestedAt == db.batches[b].cancelRequestedAt
    ensures forall x :: BatchOf(CancelBatch(db, c, now), x) == BatchOf(db, x)
  {
  }

  lemma ServeBatchOf(db: Db, a: Action, now: Time, b: Uuid, x: Uuid)
    requires CancelRequested(db, b)
    ensures BatchOf(ServeDb(db, a, now), x) == Some(b) ==> BatchOf(db, x) == Some(b)
    ensures CancelRequested(ServeDb(db, a, now), b)
    ensures ServeDb(db, a, now).batches[b].cancelRequestedAt == db.batches[b].cancelRequestedAt
  {
    match a
    case RequestCancel(c) => CancelBatchOf(db, c, now, b);
    case RefreshBatch(c) => RefreshKeepsBatches(db, Some(c));
    case _ =>
  }

  lemma WorkerKeptOut(inspect: Image -> Meta, w: World, u: Uuid, move: WorkerMove, b: Uuid, t: Uuid)
    requires KeptOut(w, b, t) && u in w.workers
    ensures KeptOut(WorkerStep(inspect, w, u, move), b, t)
    ensures WorkerStep(inspect, w, u, move).db.batches[b].cancelRequestedAt == w.db.batches[b].cancelRequestedAt
  {
    var e := Decide(inspect, w, u, w.workers[u].job, w.workers[u].phase, move);
    TransactBatchOf(w.db, u, w.workers[u].job, e.tx, w.now, b, if t in w.workers then w.workers[t].job else 0);
  }

  lemma StepKeptOut(inspect: Image -> Meta, w: World, a: Action, b: Uuid, t: Uuid)
    requires KeptOut(w, b, t)
    ensures KeptOut(Apply(inspect, w, a), b, t)
    ensures Apply(inspect, w, a).db.batches[b].cancelRequestedAt == w.db.batches[b].cancelRequestedAt
  {
    match a
    case WorkerMoves(u, move) => if u in w.workers { WorkerKeptOut(inspect, w, u, move, b, t); }
    case UploadMoves(u, move) => if u in w.uploads { UploadJobs(inspect, w, u, move); }
    case Begin(_, _) =>
    case Tick(_) =>
    case OpenUpload(_, _) =>
    case _ => ServeBatchOf(w.db, a, w.now, b, if t in w.workers then w.workers[t].job else 0);
  }

  /**
    A recorded cancel request is never cleared or moved, and an execution that had
    not passed its pre-upload check by then, or had not even begun, never passes it.
  */
  lemma {:induction false} CancelKeepsOut(inspect: Image -> Meta, w: World, actions: seq<Action>, b: Uuid, t: Uuid)
    requires KeptOut(w, b, t)
    ensures KeptOut(Run(inspect, w, actions), b, t)
    ensures Run(inspect, w, actions).db.batches[b].cancelRequestedAt == w.db.batches[b].cancelRequestedAt
    decreases |actions|
  {
    if actions != [] {
      StepKeptOut(inspect, w, actions[0], b, t);
      CancelKeepsOut(inspect, Apply(inspect, w, actions[0]), actions[1..], b, t);
    }
  }

  lemma KeptOutMove(inspect: Image -> Meta, w: World, b: Uuid, t: Uuid, move: WorkerMove)
    requires KeptOut(w, b, t) && t in w.workers && BatchOf(w.db, w.workers[t].job) == Some(b)
    ensures var after := WorkerStep(inspect, w, t, move);
      && after.objects == w.objects
      && after.db.assets == w.db.assets
      && (forall j :: j in after.db.jobs && after.db.jobs[j].status == Completed ==>
            j in w.db.jobs && w.db.jobs[j].status == Completed)
  {
  }

  /** Kept out means: it stores nothing and completes nothing. */
  lemma KeptOutStoresNothing(inspect: Image -> Meta, w: World, actions: seq<Action>, b: Uuid, t: Uuid, move: WorkerMove)
    requires KeptOut(w, b, t)
    requires var late := Run(inspect, w, actions);
      t in late.workers && BatchOf(late.db, late.workers[t].job) == Some(b)
    ensures var late := Run(inspect, w, actions);
      var after := Apply(inspect, late, WorkerMoves(t, move));
      && after.objects == late.objects
      && after.db.assets == late.db.assets
      && (forall j :: j in after.db.jobs && after.db.jobs[j].status == Completed ==>
            j in late.db.jobs && late.db.jobs[j].status == Completed)
  {
    CancelKeepsOut(inspect, w, actions, b, t);
    KeptOutMove(inspect, Run(inspect, w, actions), b, t, move);
  }

  // ----- Media ---------------------------------------------------------------------------------

  /** A ready asset names stored bytes with exactly the recorded digest, size, type and shape. */
  lemma ReadyMeansStored(inspect: Image -> Meta, actions: seq<Action>, a: Uuid)
    requires var w := Run(inspect, Empty, actions); a in w.db.assets && w.db.assets[a].status == AssetReady
    ensures var w := Run(inspect, Empty, actions);
      a in w.objects && w.db.assets[a].meta == Some(inspect(w.objects[a]))
  {
    ReachableInv(inspect, actions);
    assert AssetOk(inspect, Run(inspect, Empty, actions), a);
  }

  lemma WorkerReady(inspect: Image -> Meta, w: World, t: Uuid, move: WorkerMove, x: Uuid)
    requires t in w.workers && x in w.db.assets && w.db.assets[x].status == AssetReady
    ensures var after := WorkerStep(inspect, w, t, move).db; x in after.assets && after.assets[x] == w.db.assets[x]
  {
    hide CountJobs, AggregateStatus;
  }

  lemma UploadReady(inspect: Image -> Meta, w: World, u: Uuid, move: UploadMove, x: Uuid)
    requires u in w.uploads && x in w.db.assets && w.db.assets[x].status == AssetReady
    ensures var after := UploadStep(inspect, w, u, move).db; x in after.assets && after.assets[x] == w.db.assets[x]
  {
  }

  lemma StepReady(inspect: Image -> Meta, w: World, a: Action, x: Uuid)
    requires x in w.db.assets && w.db.assets[x].status == AssetReady
    ensures x in Apply(inspect, w, a).db.assets && Apply(inspect, w, a).db.assets[x] == w.db.assets[x]
  {
    hide CountJobs, AggregateStatus;
    match a
    case WorkerMoves(t, move) => if t in w.workers { WorkerReady(inspect, w, t, move, x); }
    case UploadMoves(u, move) => if u in w.uploads { UploadReady(inspect, w, u, move, x); }
    case Begin(_, _) =>
    case Tick(_) =>
    case OpenUpload(_, _) =>
    case _ => ServeMedia(w.db, a, w.now);
  }

  /** Once ready, neither the record nor the bytes change. */
  lemma {:induction false} ReadyForever(inspect: Image -> Meta, w: World, actions: seq<Action>, x: Uuid)
    requires Inv(inspect, w) && x in w.db.assets && w.db.assets[x].status == AssetReady
    ensures var late := Run(inspect, w, actions);
      && x in late.db.assets && late.db.assets[x] == w.db.assets[x]
      && x in w.objects && x in late.objects && late.objects[x] == w.objects[x]
    decreases |actions|
  {
    assert AssetOk(inspect, w, x);
    if actions != [] {
      StepReady(inspect, w, actions[0], x);
      StepStoreGrows(inspect, w, actions[0]);
      StepInv(inspect, w, actions[0]);
      ReadyForever(inspect, Apply(inspect, w, actions[0]), actions[1..], x);
    }
  }

  lemma TransactCompletes(db: Db, t: Uuid, j: Uuid, tx: WorkerTx, now: Time, x: Uuid)
    requires x in db.jobs && db.jobs[x].status != Completed
    requires Transact(db, t, j, tx, now).jobs[x].status == Completed
    ensures tx.FinalizeTx? && x == j && FinalizeCommits(db, t, j, tx.meta)
  {
  }

  lemma WorkerCompletes(inspect: Image -> Meta, w: World, t: Uuid, move: WorkerMove, x: Uuid)
    requires t in w.workers && x in w.db.jobs && w.db.jobs[x].status != Completed
    requires x in WorkerStep(inspect, w, t, move).db.jobs
    requires WorkerStep(inspect, w, t, move).db.jobs[x].status == Completed
    ensures move.Finalize? && HeldBy(w.db, x, t)
  {
    var e := Decide(inspect, w, t, w.workers[t].job, w.workers[t].phase, move);
    TransactCompletes(w.db, t, w.workers[t].job, e.tx, w.now, x);
  }

  lemma CompletionIsFenced(inspect: Image -> Meta, w: World, a: Action, x: Uuid)
    requires RowsOk(w) && x in w.db.jobs && w.db.jobs[x].status != Completed
    requires x in Apply(inspect, w, a).db.jobs && Apply(inspect, w, a).db.jobs[x].status == Completed
    ensures a.WorkerMoves? && a.move.Finalize? && HeldBy(w.db, x, a.token)
  {
    match a
    case WorkerMoves(t, move) =>
      assert t in w.workers;
      WorkerCompletes(inspect, w, t, move, x);
    case UploadMoves(u, move) =>
      assert u in w.uploads;
      UploadJobs(inspect, w, u, move);
    case Begin(_, _) =>
    case Tick(_) =>
    case OpenUpload(_, _) =>
    case _ => ServeMedia(w.db, a, w.now);
  }

  /** A job is completed only by its token's holder, in the very step that makes its own asset ready. */
  lemma CompletionMakesReady(inspect: Image -> Meta, w: World, a: Action, x: Uuid)
    requires Inv(inspect, w) && x in w.db.jobs && w.db.jobs[x].status != Completed
    requires x in Apply(inspect, w, a).db.jobs && Apply(inspect, w, a).db.jobs[x].status == Completed
    ensures a.WorkerMoves? && a.move.Finalize? && HeldBy(w.db, x, a.token)
    ensures ReadyOutput(inspect, Apply(inspect, w, a), x)
  {
    CompletionIsFenced(inspect, w, a, x);
    StepInv(inspect, w, a);
    CompletedIsReady(inspect, Apply(inspect, w, a), x);
  }

  /** The job's output is its own asset, ready, and the stored bytes are the recorded ones. */
  predicate ReadyOutput(inspect: Image -> Meta, w: World, x: Uuid) {
    && x in w.db.jobs && w.db.jobs[x].output == Some(x)
    && x in w.db.assets && w.db.assets[x].status == AssetReady
    && x in w.objects && w.db.assets[x].meta == Some(inspect(w.objects[x]))
  }

  lemma CompletedIsReady(inspect: Image -> Meta, w: World, x: Uuid)
    requires Inv(inspect, w) && x in w.db.jobs && w.db.jobs[x].status == Completed
    ensures ReadyOutput(inspect, w, x)
  {
    assert JobOk(w.db.jobs[x], x);
    assert AssetOk(inspect, w, x);
  }

  // ----- Counters --------------------------------------------------------------------------------

  /** Every job of the batch has ended. */
  ghost predicate AllEnded(db: Db, b: Uuid) {
    forall j :: j in Members(db.jobs, b) ==> Terminal(db.jobs[j].status)
  }

  lemma AllEndedIsNoneLeft(db: Db, b: Uuid)
    ensures AllEnded(db, b) <==> Unfinished(db.jobs, b) == {}
  {
    if Unfinished(db.jobs, b) != {} {
      var j :| j in Unfinished(db.jobs, b);
      assert j in Members(db.jobs, b);
    } else {
      forall j | j in Members(db.jobs, b) ensures Terminal(db.jobs[j].status) {
        assert j !in Unfinished(db.jobs, b);
      }
    }
  }

  /** Counters that agree say all there is to say about the batch. */
  predicate CountersSay(db: Db, b: Uuid)
    requires b in db.batches
  {
    var c := db.batches[b].counters;
    && Sum(c) == db.batches[b].total == |Members(db.jobs, b)|
    && c.completed == |JobsIn(db.jobs, b, Completed)|
    && c.failed == |JobsIn(db.jobs, b, Failed)|
    && c.cancelled == |JobsIn(db.jobs, b, Cancelled)|
    && c.pending + c.processing == |Unfinished(db.jobs, b)|
  }

  /** The batch is stored as ended exactly when all its jobs have, and then as they ended. */
  ghost predicate EndSays(db: Db, b: Uuid)
    requires b in db.batches
  {
    var c := db.batches[b].counters;
    && (c.pending + c.processing == 0 <==> AllEnded(db, b))
    && (TerminalBatch(db.batches[b].status) <==> AllEnded(db, b))
    && (AllEnded(db, b) ==> db.batches[b].status == EndStatus(db.jobs, b))
  }

  lemma AgreeingCounters(db: Db, b: Uuid)
    requires b in db.batches && CountersAgree(db, b)
    ensures CountersSay(db, b)
  {
    Partition(db.jobs, b);
  }

  lemma AgreeingStatus(db: Db, b: Uuid)
    requires b in db.batches && CountersAgree(db, b) && StatusAgrees(db, b)
    ensures EndSays(db, b)
  {
    AgreeingCounters(db, b);
    AllEndedIsNoneLeft(db, b);
  }

  /**
    In every reachable world the five stored counters of a batch sum to its size,
    three of them are exact, the other two together count the jobs still to end,
    and the batch is stored as ended exactly when all its jobs have.
  */
  lemma CountersAreTrue(inspect: Image -> Meta, actions: seq<Action>, b: Uuid)
    requires b in Run(inspect, Empty, actions).db.batches
    ensures var db := Run(inspect, Empty, actions).db;
      CountersSay(db, b) && EndSays(db, b)
  {
    ReachableInv(inspect, actions);
    var db := Run(inspect, Empty, actions).db;
    AgreeingCounters(db, b);
    AgreeingStatus(db, b);
  }

  // ----- How far pending may be off ------------------------------------------------------------------

  /** The step takes a waiting job of the batch, or gives one back. */
  function Shift(w: World, a: Action, b: Uuid): int {
    match a
    case WorkerMoves(t, ClaimJob) =>
      if t in w.workers && w.workers[t].phase.Claiming? && w.workers[t].phase.seen.status == Pending
         && w.workers[t].job in w.db.jobs && WaitsIn(w.db.jobs[w.workers[t].job], b) then 1 else 0
    case WorkerMoves(t, Release) =>
      if t in w.workers && w.workers[t].phase.Releasing? && HeldBy(w.db, w.workers[t].job, t)
         && w.db.jobs[w.workers[t].job].batch == Some(b) then -1 else 0
    case Reconcile(j, Processing) =>
      if j in w.db.jobs && w.db.jobs[j].status == Processing && w.db.jobs[j].batch == Some(b) then -1 else 0
    case _ => 0
  }

  /** The step ends by recounting the batch. */
  predicate Recounts(inspect: Image -> Meta, w: World, a: Action, b: Uuid) {
    match a
    case RefreshBatch(x) => x == b
    case RequestCancel(x) => x == b && b in w.db.batches && !TerminalBatch(w.db.batches[b].status)
    case WorkerMoves(t, CancelOwn) => t in w.workers && w.workers[t].phase == Cancelling(b)
    case WorkerMoves(t, Fail) =>
      && t in w.workers && w.workers[t].phase.Failing? && HeldBy(w.db, w.workers[t].job, t)
      && BatchOf(w.db, w.workers[t].job) == Some(b)
    case WorkerMoves(t, Finalize) =>
      && t in w.workers && w.workers[t].phase.Finalizing?
      && FinalizeCommits(w.db, t, w.workers[t].job, inspect(w.workers[t].phase.image))
      && BatchOf(w.db, w.workers[t].job) == Some(b)
    case _ => false
  }

  /** The drift after a step. */
  function NextDrift(inspect: Image -> Meta, w: World, a: Action, b: Uuid, drift: int): int {
    if Recounts(inspect, w, a, b) then 0 else drift + Shift(w, a, b)
  }

  lemma FinishDrift(db: Db, after: Db, j: Uuid, b: Uuid)
    requires b in db.batches && j in db.jobs && db.jobs[j].status == Processing && j in after.jobs
    requires after.batches == db.batches && after.jobs == db.jobs[j := after.jobs[j]]
    requires after.jobs[j].batch == db.jobs[j].batch && after.jobs[j].status != Pending
    ensures var done := RefreshOf(after, db.jobs[j].batch);
      b in done.batches && Drift(done, b) == if db.jobs[j].batch == Some(b) then 0 else Drift(db, b)
  {
    SameDrift(db, after, b);
    if db.jobs[j].batch.Some? {
      RefreshDrift(after, db.jobs[j].batch.value, b);
    }
  }

  lemma ClaimDrift(db: Db, t: Uuid, j: Uuid, seen: Seen, now: Time, b: Uuid)
    requires b in db.batches && Claimable(seen, now) && ClaimMatches(db, j, seen, now)
    ensures b in Claim(db, t, j, seen, now).batches
    ensures Drift(Claim(db, t, j, seen, now), b)
         == Drift(db, b) + (if seen.status == Pending && WaitsIn(db.jobs[j], b) then 1 else 0)
  {
    MovedJob(db.jobs, j, Claim(db, t, j, seen, now).jobs[j], b);
  }

  lemma EndHoldDrift(db: Db, j: Uuid, b: Uuid)
    requires b in db.batches && j in db.jobs && db.jobs[j].status == Processing
    ensures Drift(EndHold(db, j, Pending), b) == Drift(db, b) - (if db.jobs[j].batch == Some(b) then 1 else 0)
  {
    MovedJob(db.jobs, j, EndHold(db, j, Pending).jobs[j], b);
  }

  lemma ReleaseDrift(db: Db, t: Uuid, j: Uuid, b: Uuid)
    requires b in db.batches && (HeldBy(db, j, t) ==> db.jobs[j].status == Processing)
    ensures b in ReleaseJob(db, t, j).batches
    ensures Drift(ReleaseJob(db, t, j), b)
         == Drift(db, b) - (if HeldBy(db, j, t) && db.jobs[j].batch == Some(b) then 1 else 0)
  {
    if HeldBy(db, j, t) {
      EndHoldDrift(db, j, b);
    }
  }

  lemma CancelOwnDrift(db: Db, t: Uuid, j: Uuid, x: Uuid, b: Uuid)
    requires b in db.batches && BatchOf(db, j) == Some(x) && (HeldBy(db, j, t) ==> db.jobs[j].status == Processing)
    ensures b in CancelJob(db, t, j, x).batches
    ensures Drift(CancelJob(db, t, j, x), b) == if x == b then 0 else Drift(db, b)
  {
    var ended := if HeldBy(db, j, t) then EndHold(db, j, Cancelled) else db;
    SameDrift(db, ended, b);
    RefreshDrift(ended, x, b);
  }

  lemma WorkerHolds(w: World, t: Uuid)
    requires RowsOk(w) && t in w.workers
    ensures var j, phase := w.workers[t].job, w.workers[t].phase;
      && (HeldBy(w.db, j, t) ==> w.db.jobs[j].status == Processing)
      && (phase.Cancelling? ==> BatchOf(w.db, j) == Some(phase.batch))
  {
    assert WorkerOk(w, t);
    var j := w.workers[t].job;
    assert HeldBy(w.db, j, t) ==> JobOk(w.db.jobs[j], j);
  }

  lemma EndingDrift(inspect: Image -> Meta, w: World, t: Uuid, move: WorkerMove, b: Uuid)
    requires RowsOk(w) && b in w.db.batches && t in w.workers && (move.CancelOwn? || move.Fail? || move.Finalize?)
    ensures var after := WorkerStep(inspect, w, t, move).db;
      b in after.batches && Drift(after, b) == NextDrift(inspect, w, WorkerMoves(t, move), b, Drift(w.db, b))
  {
    hide Drift, RowsOk, FinalizeJob, FailJob, CancelJob;
    var j, phase := w.workers[t].job, w.workers[t].phase;
    WorkerHolds(w, t);
    match move
    case CancelOwn => if phase.Cancelling? { CancelOwnDrift(w.db, t, j, phase.batch, b); }
    case Fail => if phase.Failing? { FailDrift(w.db, t, j, b); }
    case Finalize => if phase.Finalizing? { FinalizeDrift(w.db, t, j, inspect(phase.image), b); }
    case _ =>
  }

  lemma WorkerDrift(inspect: Image -> Meta, w: World, t: Uuid, move: WorkerMove, b: Uuid)
    requires RowsOk(w) && b in w.db.batches && t in w.workers
    ensures var after := WorkerStep(inspect, w, t, move).db;
      b in after.batches && Drift(after, b) == NextDrift(inspect, w, WorkerMoves(t, move), b, Drift(w.db, b))
  {
    hide Drift, RowsOk, ReleaseJob, Claim;
    var j, phase := w.workers[t].job, w.workers[t].phase;
    WorkerHolds(w, t);
    match move
    case ClaimJob =>
      if phase.Claiming? && Claimable(phase.seen, phase.now) && ClaimMatches(w.db, j, phase.seen, phase.now) {
        ClaimDrift(w.db, t, j, phase.seen, phase.now, b);
      }
    case Release => if phase.Releasing? { ReleaseDrift(w.db, t, j, b); }
    case CancelOwn => EndingDrift(inspect, w, t, move, b);
    case Fail => EndingDrift(inspect, w, t, move, b);
    case Finalize => EndingDrift(inspect, w, t, move, b);
    case _ => QuietDrift(inspect, w, t, move, b);
  }

  lemma FailDrift(db: Db, t: Uuid, j: Uuid, b: Uuid)
    requires b in db.batches && (HeldBy(db, j, t) ==> db.jobs[j].status == Processing)
    ensures b in FailJob(db, t, j).batches
    ensures Drift(FailJob(db, t, j), b) == if HeldBy(db, j, t) && db.jobs[j].batch == Some(b) then 0 else Drift(db, b)
  {
    if HeldBy(db, j, t) {
      FinishDrift(db, EndHold(db, j, Failed).(audit := db.audit + [AuditRow(RenderFailed, j, t)]), j, b);
    }
  }

  /** The other moves leave jobs and batches alone. */
  lemma QuietDrift(inspect: Image -> Meta, w: World, t: Uuid, move: WorkerMove, b: Uuid)
    requires t in w.workers && b in w.db.batches
    requires !move.ClaimJob? && !move.Release? && !move.CancelOwn? && !move.Fail? && !move.Finalize?
    ensures var after := WorkerStep(inspect, w, t, move).db;
      b in after.batches && Drift(after, b) == Drift(w.db, b)
  {
    var after := WorkerStep(inspect, w, t, move).db;
    assert after.jobs == w.db.jobs && after.batches == w.db.batches;
  }

  lemma FinalizeDrift(db: Db, t: Uuid, j: Uuid, meta: Meta, b: Uuid)
    requires b in db.batches && (HeldBy(db, j, t) ==> db.jobs[j].status == Processing)
    ensures b in FinalizeJob(db, t, j, meta).batches
    ensures Drift(FinalizeJob(db, t, j, meta), b)
         == if FinalizeCommits(db, t, j, meta) && db.jobs[j].batch == Some(b) then 0 else Drift(db, b)
  {
    if FinalizeCommits(db, t, j, meta) {
      var done := db.jobs[j].(status := Completed, output := Some(j), token := None, lease := None);
      FinishDrift(db, db.(assets := db.assets[j := db.assets[j].(status := AssetReady, meta := Some(meta))],
                          jobs := db.jobs[j := done],
                          audit := db.audit + [AuditRow(RenderCompleted, j, t)]), j, b);
    }
  }

  lemma CancelDrift(db: Db, x: Uuid, now: Time, b: Uuid)
    requires b in db.batches
    ensures b in CancelBatch(db, x, now).batches
    ensures Drift(CancelBatch(db, x, now), b)
         == if x == b && !TerminalBatch(db.batches[b].status) then 0 else Drift(db, b)
  {
    if x in db.batches && !TerminalBatch(db.batches[x].status) {
      var batch := db.batches[x];
      var at := if batch.cancelRequestedAt.Some? then batch.cancelRequestedAt.value else now;
      var marked := db.(batches := db.batches[x := batch.(cancelRequestedAt := Some(at))],
                        jobs := CancelPending(db.jobs, x));
      if x != b {
        SameDrift(db, marked, b);
      }
      RefreshDrift(marked, x, b);
    }
  }

  lemma ServeDrift(inspect: Image -> Meta, w: World, a: Action, b: Uuid)
    requires b in w.db.batches && !a.WorkerMoves? && !a.UploadMoves?
    ensures b in ServeDb(w.db, a, w.now).batches
    ensures Drift(ServeDb(w.db, a, w.now), b) == NextDrift(inspect, w, a, b, Drift(w.db, b))
  {
    match a
    case RequestCancel(x) => CancelDrift(w.db, x, w.now, b);
    case RefreshBatch(x) => RefreshDrift(w.db, x, b);
    case Reconcile(j, status) =>
      if j in w.db.jobs && w.db.jobs[j].status == status == Processing { EndHoldDrift(w.db, j, b); }
    case RequestJob(_) => SameDrift(w.db, ServeDb(w.db, a, w.now), b);
    case RequestBatch(_, _) => SameDrift(w.db, ServeDb(w.db, a, w.now), b);
    case _ =>
  }

  /** Each step moves the drift by the waiting job it takes or gives back, and a recount ends it. */
  lemma StepDrift(inspect: Image -> Meta, w: World, a: Action, b: Uuid)
    requires RowsOk(w) && b in w.db.batches
    ensures var after := Apply(inspect, w, a).db;
      b in after.batches && Drift(after, b) == NextDrift(inspect, w, a, b, Drift(w.db, b))
  {
    match a
    case WorkerMoves(t, move) => if t in w.workers { WorkerDrift(inspect, w, t, move, b); }
    case UploadMoves(u, move) => if u in w.uploads { UploadJobs(inspect, w, u, move); }
    case _ => ServeDrift(inspect, w, a, b);
  }

  /** Acquisitions less releases and resets since the batch was last recounted. */
  function NetSinceRecount(inspect: Image -> Meta, w: World, actions: seq<Action>, b: Uuid, net: int): int
    decreases |actions|
  {
    if actions == [] then net
    else
      var next := NextDrift(inspect, w, actions[0], b, net);
      NetSinceRecount(inspect, Apply(inspect, w, actions[0]), actions[1..], b, next)
  }

  /**
    The stored pending count exceeds the true one by exactly the acquisitions of
    waiting jobs less the releases and resets since the last recount.
  */
  lemma {:induction false} DriftIsNet(inspect: Image -> Meta, w: World, actions: seq<Action>, b: Uuid)
    requires Inv(inspect, w) && b in w.db.batches
    ensures var late := Run(inspect, w, actions).db;
      b in late.batches && Drift(late, b) == NetSinceRecount(inspect, w, actions, b, Drift(w.db, b))
    decreases |actions|
  {
    if actions != [] {
      StepDrift(inspect, w, actions[0], b);
      StepInv(inspect, w, actions[0]);
      DriftIsNet(inspect, Apply(inspect, w, actions[0]), actions[1..], b);
    }
  }

  const BatchOfOne: seq<Action> := [RequestBatch(5, [7])]
  const OneAcquires: seq<Action> := [Begin(0, 7), WorkerMoves(0, ReadJob), WorkerMoves(0, ClaimJob)]

  const OneWaiting := World(
    Db(map[7 := NewJob.(batch := Some(5))], map[5 := Batch(BatchPending, 1, Counters(1, 0, 0, 0, 0), None)], map[], []),
    map[], map[], map[], 0, 0)

  lemma BatchCreated(inspect: Image -> Meta)
    ensures Run(inspect, Empty, BatchOfOne) == OneWaiting
  {
    assert BatchOfOne[1..] == [];
    assert Run(inspect, Empty, BatchOfOne) == Apply(inspect, Empty, BatchOfOne[0]);
    assert AddJobs(map[], 5, [7]) == map[7 := NewJob.(batch := Some(5))];
  }

  /** Pending and processing are exact only together: an acquisition leaves both as they were. */
  lemma PendingAloneMayBeStale(inspect: Image -> Meta)
    ensures var db := Run(inspect, Empty, BatchOfOne + OneAcquires).db;
      && 7 in db.jobs && db.jobs[7].status == Processing && db.jobs[7].batch == Some(5)
      && 5 in db.batches && db.batches[5].counters == Counters(1, 0, 0, 0, 0)
  {
    RunSplit(inspect, Empty, BatchOfOne, OneAcquires);
    BatchCreated(inspect);
    RunThree(inspect, OneWaiting, OneAcquires[0], OneAcquires[1], OneAcquires[2]);
    var read := Apply(inspect, Apply(inspect, OneWaiting, OneAcquires[0]), OneAcquires[1]);
    assert read.workers[0] == Worker(7, Claiming(0, Seen(Pending, None))) && read.db == OneWaiting.db;
  }
}
