/**
  Every interleaving of the render protocol: worker executions, uploads, batch
  routes and the reconciler over one tenant's rows and one write-once store.
  A run is a list of actions; an action whose guard fails changes nothing, so
  the lists range over all schedules, including those with crashes, lost
  replies and stale reads.
*/
module RenderWorld {
  import opened Basics
  import opened RenderRows

  /** The bytes of an image. */
  type Image = seq<int>

  /** Where one execution of `executeRenderJob` stands between two of its effects. */
  datatype Phase =
    | Starting(now: Time)                               // clock read, row not read
    | Claiming(now: Time, seen: Seen)                   // row read, compare-and-set pending
    | Loading                                           // acquired
    | Rendering                                         // job data loaded, not cancelled
    | Checking(image: Image)                            // rendered, cancel not yet re-read
    | Cancelling(batch: Uuid)                           // saw the cancel request
    | Reserving(image: Image)
    | Putting(image: Image)
    | Finalizing(image: Image)
    | Failing                                           // permanent failure not yet written
    | Releasing                                         // transient error, release pending
    | Stopped

  datatype Worker = Worker(job: Uuid, phase: Phase)

  datatype UploadPhase = Reading | Storing(image: Image) | Committing(image: Image) | MarkingFailed | Closed

  datatype Upload = Upload(asset: Uuid, phase: UploadPhase)

  /** What the caller of a storage put learns, and whether the bytes arrived. */
  datatype Reply = Answered | Lost(stored: bool)

  datatype Outcome = Rendered(image: Image) | Rejected | Broken

  datatype World = World(
    db: Db,
    objects: map<Uuid, Image>,
    workers: map<Uuid, Worker>,
    uploads: map<Uuid, Upload>,
    slots: int,
    now: Time)

  /** The moves of one upload request. */
  datatype UploadMove =
    | ClaimUpload(bytes: Image)
    | PutUpload(reply: Reply)
    | FinishUpload(committed: bool)
    | MarkUploadFailed
    | DropUpload

  /** The moves of one worker execution. */
  datatype WorkerMove =
    | ReadJob
    | ClaimJob
    | Load
    | Render(outcome: Outcome)
    | Recheck
    | CancelOwn
    | Reserve
    | Put(reply: Reply, readable: bool)
    | Finalize
    | Fail
    | Release
    | Abort
    | Crash

  datatype Action =
    | Tick(elapsed: nat)
    | RequestJob(job: Uuid)
    | RequestBatch(batch: Uuid, ids: seq<Uuid>)
    | RequestCancel(batch: Uuid)
    | RequestAsset(asset: Uuid)
    | Reconcile(job: Uuid, status: JobStatus)
    | RefreshBatch(batch: Uuid)
    | OpenUpload(upload: Uuid, target: Uuid)
    | UploadMoves(upload: Uuid, uploadMove: UploadMove)
    | Begin(token: Uuid, job: Uuid)
    | WorkerMoves(token: Uuid, move: WorkerMove)

  const Empty := World(Db(map[], map[], map[], []), map[], map[], map[], 0, 0)

  // ----- The write-once store ------------------------------------------------------

  /** `IfNoneMatch: "*"`: a put never replaces an object. */
  function PutObject(objects: map<Uuid, Image>, key: Uuid, image: Image): map<Uuid, Image> {
    if key in objects then objects else objects[key := image]
  }

  // ----- Worker executions ----------------------------------------------------------

  /** The database transaction that goes with a move, if any. */
  datatype WorkerTx =
    | NoTx
    | ClaimTx(seen: Seen, claimedAt: Time)
    | CancelTx(batch: Uuid)
    | ReserveTx
    | FinalizeTx(meta: Meta)
    | FailTx
    | ReleaseTx

  function Transact(db: Db, token: Uuid, j: Uuid, tx: WorkerTx, now: Time): Db {
    match tx
    case NoTx => db
    case ClaimTx(seen, claimedAt) => Claim(db, token, j, seen, claimedAt)
    case CancelTx(b) => CancelJob(db, token, j, b)
    case ReserveTx => ReserveAsset(db, j, now)
    case FinalizeTx(meta) => FinalizeJob(db, token, j, meta)
    case FailTx => FailJob(db, token, j)
    case ReleaseTx => ReleaseJob(db, token, j)
  }

  /** What one move does: the next phase, the transaction, and the bytes put into the store. */
  datatype Effect = Effect(next: Phase, tx: WorkerTx, stored: Option<Image>)

  function Goto(next: Phase): Effect {
    Effect(next, NoTx, None)
  }

  /** The batch of a worker's job, if the job exists and has one. */
  function BatchOf(db: Db, j: Uuid): Option<Uuid> {
    if j in db.jobs then db.jobs[j].batch else None
  }

  predicate JobCancelRequested(db: Db, j: Uuid) {
    BatchOf(db, j).Some? && CancelRequested(db, BatchOf(db, j).value)
  }

  /** The acquisition query: give up on missing, finished and actively leased jobs. */
  function DecideRead(db: Db, j: Uuid, now: Time): Effect {
    if j !in db.jobs || Terminal(db.jobs[j].status) then Goto(Stopped)
    else
      var seen := Seen(db.jobs[j].status, db.jobs[j].lease);
      Goto(if Claimable(seen, now) then Claiming(now, seen) else Stopped)
  }

  function DecideClaim(db: Db, j: Uuid, seen: Seen, now: Time): Effect {
    if Claimable(seen, now) && ClaimMatches(db, j, seen, now) then Effect(Loading, ClaimTx(seen, now), None)
    else Goto(Stopped)
  }

  function DecideLoad(db: Db, token: Uuid, j: Uuid): Effect {
    Goto(if !HeldBy(db, j, token) then Releasing
         else if JobCancelRequested(db, j) then Cancelling(BatchOf(db, j).value)
         else Rendering)
  }

  function DecideRecheck(db: Db, j: Uuid, image: Image): Effect {
    Goto(if JobCancelRequested(db, j) then Cancelling(BatchOf(db, j).value) else Reserving(image))
  }

  function DecideReserve(db: Db, token: Uuid, j: Uuid, image: Image): Effect {
    if HeldBy(db, j, token) then Effect(Putting(image), ReserveTx, None) else Goto(Releasing)
  }

  /** An object already at the key is accepted only if it could be read and is the same picture. */
  function DecidePut(inspect: Image -> Meta, objects: map<Uuid, Image>, j: Uuid, image: Image, reply: Reply,
                     readable: bool): Effect
  {
    match reply
    case Lost(stored) => Effect(Releasing, NoTx, if stored then Some(image) else None)
    case Answered =>
      if j !in objects then Effect(Finalizing(image), NoTx, Some(image))
      else if readable && inspect(objects[j]) == inspect(image) then Goto(Finalizing(image))
      else Goto(Failing)
  }

  function DecideFinalize(db: Db, token: Uuid, j: Uuid, meta: Meta): Effect {
    if FinalizeCommits(db, token, j, meta) then Effect(Stopped, FinalizeTx(meta), None) else Goto(Releasing)
  }

  /** A failed transaction: inside the guarded block the execution goes on to release, elsewhere it ends. */
  function DecideAbort(phase: Phase): Effect {
    Goto(if phase.Starting? || phase.Claiming? || phase.Failing? || phase.Releasing? || phase.Stopped?
         then Stopped else Releasing)
  }

  function Decide(inspect: Image -> Meta, w: World, token: Uuid, j: Uuid, phase: Phase, move: WorkerMove): Effect {
    match (move, phase)
    case (ReadJob, Starting(now)) => DecideRead(w.db, j, now)
    case (ClaimJob, Claiming(now, seen)) => DecideClaim(w.db, j, seen, now)
    case (Load, Loading) => DecideLoad(w.db, token, j)
    case (Render(Rendered(image)), Rendering) => Goto(if inspect(image).mime == PNG then Checking(image) else phase)
    case (Render(Rejected), Rendering) => Goto(Failing)
    case (Render(Broken), Rendering) => Goto(Releasing)
    case (Recheck, Checking(image)) => DecideRecheck(w.db, j, image)
    case (CancelOwn, Cancelling(b)) => Effect(Stopped, CancelTx(b), None)
    case (Reserve, Reserving(image)) => DecideReserve(w.db, token, j, image)
    case (Put(reply, readable), Putting(image)) => DecidePut(inspect, w.objects, j, image, reply, readable)
    case (Finalize, Finalizing(image)) => DecideFinalize(w.db, token, j, inspect(image))
    case (Fail, Failing) => Effect(Stopped, FailTx, None)
    case (Release, Releasing) => Effect(Stopped, ReleaseTx, None)
    case (Abort, _) => DecideAbort(phase)
    case (Crash, _) => Goto(Stopped)
    case _ => Goto(phase)
  }

  /** One move of the execution named `token`. */
  function WorkerStep(inspect: Image -> Meta, w: World, token: Uuid, move: WorkerMove): World
    requires token in w.workers
  {
    var j := w.workers[token].job;
    var e := Decide(inspect, w, token, j, w.workers[token].phase, move);
    w.(db := Transact(w.db, token, j, e.tx, w.now),
       objects := if e.stored.Some? then PutObject(w.objects, j, e.stored.value) else w.objects,
       workers := w.workers[token := Worker(j, e.next)])
  }

  // ----- Uploads -----------------------------------------------------------------------

  datatype UploadTx = NoUploadTx | ClaimUploadTx | CommitUploadTx(meta: Meta) | FailUploadTx

  function TransactUpload(db: Db, a: Uuid, tx: UploadTx): Db {
    match tx
    case NoUploadTx => db
    case ClaimUploadTx => if a in db.assets then SetAsset(db, a, AssetUploading) else db
    case CommitUploadTx(meta) => CommitUpload(db, a, meta)
    case FailUploadTx => if Uploading(db, a) then SetAsset(db, a, AssetFailed) else db
  }

  datatype UploadEffect = UploadEffect(next: UploadPhase, tx: UploadTx, stored: Option<Image>)

  function DecideUpload(inspect: Image -> Meta, w: World, a: Uuid, phase: UploadPhase, move: UploadMove): UploadEffect {
    match (move, phase)
    case (ClaimUpload(bytes), Reading) =>
      if UploadClaimable(w.db, a, w.now) then UploadEffect(Storing(bytes), ClaimUploadTx, None)
      else UploadEffect(Closed, NoUploadTx, None)
    case (PutUpload(Answered), Storing(bytes)) =>
      if a in w.objects then UploadEffect(MarkingFailed, NoUploadTx, None)
      else UploadEffect(Committing(bytes), NoUploadTx, Some(bytes))
    case (PutUpload(Lost(stored)), Storing(bytes)) =>
      UploadEffect(MarkingFailed, NoUploadTx, if stored then Some(bytes) else None)
    case (FinishUpload(committed), Committing(bytes)) =>
      if committed && Uploading(w.db, a) then UploadEffect(Closed, CommitUploadTx(inspect(bytes)), None)
      else UploadEffect(MarkingFailed, NoUploadTx, None)
    case (MarkUploadFailed, MarkingFailed) => UploadEffect(Closed, FailUploadTx, None)
    case (DropUpload, _) => UploadEffect(Closed, NoUploadTx, None)
    case _ => UploadEffect(phase, NoUploadTx, None)
  }

  /** One move of an upload request; its `finally` gives the slot back when it closes. */
  function UploadStep(inspect: Image -> Meta, w: World, u: Uuid, move: UploadMove): World
    requires u in w.uploads
  {
    var upload := w.uploads[u];
    var e := DecideUpload(inspect, w, upload.asset, upload.phase, move);
    w.(db := TransactUpload(w.db, upload.asset, e.tx),
       objects := if e.stored.Some? then PutObject(w.objects, upload.asset, e.stored.value) else w.objects,
       uploads := w.uploads[u := Upload(upload.asset, e.next)],
       slots := if upload.phase != Closed && e.next == Closed then w.slots - 1 else w.slots)
  }

  function StepOpenUpload(w: World, u: Uuid, a: Uuid): World {
    if u in w.uploads || a !in w.db.assets || w.db.assets[a].status != AssetPending || w.slots >= 2 then w
    else w.(uploads := w.uploads[u := Upload(a, Reading)], slots := w.slots + 1)
  }

  // ----- All steps -----------------------------------------------------------------

  /** The transaction of an API route or of the reconciler. */
  function ServeDb(db: Db, a: Action, now: Time): Db {
    match a
    case RequestJob(j) => CreateJob(db, j)
    case RequestBatch(b, ids) => CreateBatch(db, b, ids)
    case RequestCancel(b) => CancelBatch(db, b, now)
    case RequestAsset(asset) => ReserveAsset(db, asset, now)
    case Reconcile(j, status) => ResetCandidate(db, j, status)
    case RefreshBatch(b) => Refresh(db, b)
    case _ => db
  }

  function Apply(inspect: Image -> Meta, w: World, a: Action): World {
    match a
    case Tick(elapsed) => w.(now := w.now + elapsed)
    case OpenUpload(u, target) => StepOpenUpload(w, u, target)
    case UploadMoves(u, move) => if u in w.uploads then UploadStep(inspect, w, u, move) else w
    case Begin(token, j) =>
      if token in w.workers then w else w.(workers := w.workers[token := Worker(j, Starting(w.now))])
    case WorkerMoves(token, move) => if token in w.workers then WorkerStep(inspect, w, token, move) else w
    case _ => w.(db := ServeDb(w.db, a, w.now))
  }

  /** The world after a run. */
  function Run(inspect: Image -> Meta, w: World, actions: seq<Action>): World
    decreases |actions|
  {
    if actions == [] then w else Run(inspect, Apply(inspect, w, actions[0]), actions[1..])
  }

  lemma {:induction false} RunSplit(inspect: Image -> Meta, w: World, first: seq<Action>, rest: seq<Action>)
    ensures Run(inspect, w, first + rest) == Run(inspect, Run(inspect, w, first), rest)
    decreases |first|
  {
    if first == [] {
      assert first + rest == rest;
    } else {
      assert (first + rest)[1..] == first[1..] + rest;
      RunSplit(inspect, Apply(inspect, w, first[0]), first[1..], rest);
    }
  }

  lemma RunThree(inspect: Image -> Meta, w: World, a: Action, b: Action, c: Action)
    ensures Run(inspect, w, [a, b, c]) == Apply(inspect, Apply(inspect, Apply(inspect, w, a), b), c)
  {
    var w1 := Apply(inspect, w, a);
    assert [a, b, c][1..] == [b, c] && [b, c][1..] == [c] && [c][1..] == [];
    assert Run(inspect, w1, [b, c]) == Run(inspect, Apply(inspect, w1, b), [c]);
  }

  lemma RunFive(inspect: Image -> Meta, w: World, a: Action, b: Action, c: Action, d: Action, e: Action)
    ensures Run(inspect, w, [a, b, c, d, e])
         == Apply(inspect, Apply(inspect, Apply(inspect, Apply(inspect, Apply(inspect, w, a), b), c), d), e)
  {
    assert [a, b, c, d, e][1..] == [b, c, d, e] && [b, c, d, e][1..] == [c, d, e];
    RunThree(inspect, Apply(inspect, Apply(inspect, w, a), b), c, d, e);
  }
}
