/**
  What an execution and an upload do when nothing comes between their moves: the
  render that completes, the one that recovers what a crash left behind, the ways
  a render ends otherwise, and the upload that becomes ready.
*/
module RenderProgress {
  import opened Basics
  import opened RenderRows
  import opened RenderWorld
  import opened RenderSafety

  // ----- From the put to the end ---------------------------------------------------------------

  /** The key is free, or holds a readable object that is the same picture. */
  predicate Acceptable(inspect: Image -> Meta, objects: map<Uuid, Image>, j: Uuid, image: Image, readable: bool) {
    j in objects ==> readable && inspect(objects[j]) == inspect(image)
  }

  /** The asset row may still be finalized: it is open, or ready with this very record already. */
  predicate Finishable(asset: Asset, meta: Meta) {
    || asset.status == AssetPending || asset.status == AssetUploading
    || (asset.status == AssetReady && asset.meta == Some(meta))
  }

  /** The job's row is settled: no token and no lease any more. */
  predicate SettledAs(db: Db, j: Uuid, status: JobStatus) {
    j in db.jobs && db.jobs[j].status == status && db.jobs[j].token == None && db.jobs[j].lease == None
  }

  /** The job is completed with its own ready asset, whose object and record are this picture's. */
  predicate CompletedWith(inspect: Image -> Meta, w: World, j: Uuid, meta: Meta) {
    && SettledAs(w.db, j, Completed) && w.db.jobs[j].output == Some(j)
    && j in w.db.assets && w.db.assets[j].status == AssetReady && w.db.assets[j].meta == Some(meta)
    && j in w.objects && inspect(w.objects[j]) == meta
  }

  /** The execution holds its job, has reserved its asset row and is about to put its picture. */
  predicate AboutToPut(inspect: Image -> Meta, w: World, t: Uuid, j: Uuid, image: Image) {
    && t in w.workers && w.workers[t] == Worker(j, Putting(image)) && HeldBy(w.db, j, t)
    && j in w.db.assets
  }

  lemma RunTwo(inspect: Image -> Meta, w: World, a: Action, b: Action)
    ensures Run(inspect, w, [a, b]) == Apply(inspect, Apply(inspect, w, a), b)
  {
    assert [a, b][1..] == [b] && [b][1..] == [];
    assert Run(inspect, Apply(inspect, w, a), [b]) == Apply(inspect, Apply(inspect, w, a), b);
  }

  /** The put sends the execution on to finalize exactly when the object is its own or the same picture. */
  lemma PutGoes(inspect: Image -> Meta, w: World, t: Uuid, j: Uuid, image: Image, readable: bool)
    requires AboutToPut(inspect, w, t, j, image)
    ensures var after := Apply(inspect, w, WorkerMoves(t, Put(Answered, readable)));
      && after.db == w.db && t in after.workers
      && (if Acceptable(inspect, w.objects, j, image, readable) then
            after.workers[t] == Worker(j, Finalizing(image)) && j in after.objects
            && inspect(after.objects[j]) == inspect(image)
          else after.workers[t] == Worker(j, Failing) && after.objects == w.objects)
  {
  }

  lemma FinalizeEnds(inspect: Image -> Meta, w: World, t: Uuid, j: Uuid, image: Image)
    requires t in w.workers && w.workers[t] == Worker(j, Finalizing(image)) && HeldBy(w.db, j, t)
    requires w.db.jobs[j].status != Completed && j in w.db.assets
    requires j in w.objects && inspect(w.objects[j]) == inspect(image)
    ensures var after := Apply(inspect, w, WorkerMoves(t, Finalize));
      && (CompletedWith(inspect, after, j, inspect(image)) <==> Finishable(w.db.assets[j], inspect(image)))
      && (Finishable(w.db.assets[j], inspect(image)) ==>
            after.db.audit == w.db.audit + [AuditRow(RenderCompleted, j, t)])
      && (!Finishable(w.db.assets[j], inspect(image)) ==>
            after.db == w.db && after.workers[t] == Worker(j, Releasing))
  {
    hide CountJobs, AggregateStatus;
  }

  lemma FailEnds(inspect: Image -> Meta, w: World, t: Uuid, j: Uuid)
    requires t in w.workers && w.workers[t] == Worker(j, Failing) && HeldBy(w.db, j, t)
    ensures var after := Apply(inspect, w, WorkerMoves(t, Fail));
      && SettledAs(after.db, j, Failed) && after.db.audit == w.db.audit + [AuditRow(RenderFailed, j, t)]
      && after.objects == w.objects && after.db.assets == w.db.assets
  {
    hide CountJobs, AggregateStatus;
  }

  /**
    The holder that puts and finalizes completes its job exactly when its key is
    free or holds a readable object of the same picture, as a crashed execution
    leaves behind; over any other object the job fails for good.
  */
  lemma PutThenFinalize(inspect: Image -> Meta, w: World, t: Uuid, j: Uuid, image: Image, readable: bool)
    requires RowsOk(w) && AboutToPut(inspect, w, t, j, image) && Finishable(w.db.assets[j], inspect(image))
    ensures var put := WorkerMoves(t, Put(Answered, readable));
      var done := Run(inspect, w, [put, WorkerMoves(t, Finalize)]);
      var failed := Run(inspect, w, [put, WorkerMoves(t, Fail)]);
      && (CompletedWith(inspect, done, j, inspect(image)) <==> Acceptable(inspect, w.objects, j, image, readable))
      && (Acceptable(inspect, w.objects, j, image, readable) ==>
            done.db.audit == w.db.audit + [AuditRow(RenderCompleted, j, t)])
      && (!Acceptable(inspect, w.objects, j, image, readable) ==>
            SettledAs(failed.db, j, Failed) && failed.db.audit == w.db.audit + [AuditRow(RenderFailed, j, t)]
            && failed.objects == w.objects)
  {
    var put := WorkerMoves(t, Put(Answered, readable));
    assert JobOk(w.db.jobs[j], j);
    hide RowsOk, Decide, Transact;
    RunTwo(inspect, w, put, WorkerMoves(t, Finalize));
    RunTwo(inspect, w, put, WorkerMoves(t, Fail));
    PutGoes(inspect, w, t, j, image, readable);
    var after := Apply(inspect, w, put);
    if Acceptable(inspect, w.objects, j, image, readable) {
      FinalizeEnds(inspect, after, t, j, image);
    } else {
      FailEnds(inspect, after, t, j);
      FailingStays(inspect, after, t, j);
    }
  }

  lemma FailingStays(inspect: Image -> Meta, w: World, t: Uuid, j: Uuid)
    requires t in w.workers && w.workers[t] == Worker(j, Failing)
    ensures Apply(inspect, w, WorkerMoves(t, Finalize)).db == w.db
  {
    hide CountJobs, AggregateStatus;
    assert Decide(inspect, w, t, j, Failing, Finalize) == Goto(Failing);
  }

  // ----- From the beginning ----------------------------------------------------------------------

  /** The acquisition of a job by an execution that begins now. */
  lemma Acquires(inspect: Image -> Meta, w: World, t: Uuid, j: Uuid)
    requires t !in w.workers && j in w.db.jobs && !Terminal(w.db.jobs[j].status)
    requires Claimable(Seen(w.db.jobs[j].status, w.db.jobs[j].lease), w.now)
    ensures var late := Run(inspect, w, [Begin(t, j), WorkerMoves(t, ReadJob), WorkerMoves(t, ClaimJob)]);
      var row := w.db.jobs[j];
      && late == w.(db := late.db, workers := w.workers[t := Worker(j, Loading)])
      && late.db == w.db.(audit := late.db.audit,
                          jobs := w.db.jobs[j := row.(status := Processing, token := Some(t),
                                                      lease := Some(w.now + 300000),
                                                      attempt := row.attempt + 1)])
      && late.db.audit == w.db.audit
           + [AuditRow(if row.status == Pending then RenderStarted else RenderRecovered, j, t)]
  {
    var row := w.db.jobs[j];
    var seen := Seen(row.status, row.lease);
    RunThree(inspect, w, Begin(t, j), WorkerMoves(t, ReadJob), WorkerMoves(t, ClaimJob));
    var begun := Apply(inspect, w, Begin(t, j));
    assert begun == w.(workers := w.workers[t := Worker(j, Starting(w.now))]);
    assert Apply(inspect, begun, WorkerMoves(t, ReadJob))
        == w.(workers := w.workers[t := Worker(j, Claiming(w.now, seen))]);
  }

  /** An execution whose batch is not being cancelled goes on to reserve. */
  lemma Renders(inspect: Image -> Meta, w: World, t: Uuid, j: Uuid, image: Image)
    requires t in w.workers && w.workers[t] == Worker(j, Loading) && HeldBy(w.db, j, t)
    requires !JobCancelRequested(w.db, j) && inspect(image).mime == PNG
    ensures Run(inspect, w, [WorkerMoves(t, Load), WorkerMoves(t, Render(Rendered(image))), WorkerMoves(t, Recheck)])
         == w.(workers := w.workers[t := Worker(j, Reserving(image))])
  {
    hide Decide, Transact;
    RunThree(inspect, w, WorkerMoves(t, Load), WorkerMoves(t, Render(Rendered(image))), WorkerMoves(t, Recheck));
    Loads(inspect, w, t, j);
    var loaded := Apply(inspect, w, WorkerMoves(t, Load));
    Draws(inspect, loaded, t, j, image);
    Rechecks(inspect, Apply(inspect, loaded, WorkerMoves(t, Render(Rendered(image)))), t, j, image);
  }

  lemma Loads(inspect: Image -> Meta, w: World, t: Uuid, j: Uuid)
    requires t in w.workers && w.workers[t] == Worker(j, Loading) && HeldBy(w.db, j, t) && !JobCancelRequested(w.db, j)
    ensures Apply(inspect, w, WorkerMoves(t, Load)) == w.(workers := w.workers[t := Worker(j, Rendering)])
  {
  }

  lemma Draws(inspect: Image -> Meta, w: World, t: Uuid, j: Uuid, image: Image)
    requires t in w.workers && w.workers[t] == Worker(j, Rendering) && inspect(image).mime == PNG
    ensures Apply(inspect, w, WorkerMoves(t, Render(Rendered(image))))
         == w.(workers := w.workers[t := Worker(j, Checking(image))])
  {
  }

  lemma Rechecks(inspect: Image -> Meta, w: World, t: Uuid, j: Uuid, image: Image)
    requires t in w.workers && w.workers[t] == Worker(j, Checking(image)) && !JobCancelRequested(w.db, j)
    ensures Apply(inspect, w, WorkerMoves(t, Recheck)) == w.(workers := w.workers[t := Worker(j, Reserving(image))])
  {
  }

  lemma Reserves(inspect: Image -> Meta, w: World, t: Uuid, j: Uuid, image: Image)
    requires t in w.workers && w.workers[t] == Worker(j, Reserving(image)) && HeldBy(w.db, j, t)
    ensures var after := Apply(inspect, w, WorkerMoves(t, Reserve));
      && AboutToPut(inspect, after, t, j, image) && after.objects == w.objects && after.db.jobs == w.db.jobs
      && after.db.assets[j] == (if j in w.db.assets then w.db.assets[j] else Asset(AssetPending, None, w.now))
  {
  }

  function Acquiring(t: Uuid, j: Uuid): seq<Action> {
    [Begin(t, j), WorkerMoves(t, ReadJob), WorkerMoves(t, ClaimJob)]
  }

  function Drawing(t: Uuid, image: Image): seq<Action> {
    [WorkerMoves(t, Load), WorkerMoves(t, Render(Rendered(image))), WorkerMoves(t, Recheck)]
  }

  function Storing(t: Uuid, readable: bool): seq<Action> {
    [WorkerMoves(t, Reserve), WorkerMoves(t, Put(Answered, readable)), WorkerMoves(t, Finalize)]
  }

  /** The asset row the execution finds, or the one it reserves, may be finalized with the picture. */
  predicate Finalizable(db: Db, j: Uuid, meta: Meta) {
    j in db.assets ==> Finishable(db.assets[j], meta)
  }

  /** The last three moves of an execution that has rendered. */
  lemma StoringEnds(inspect: Image -> Meta, w: World, t: Uuid, j: Uuid, image: Image, readable: bool)
    requires RowsOk(w) && t in w.workers && w.workers[t] == Worker(j, Reserving(image)) && HeldBy(w.db, j, t)
    ensures CompletedWith(inspect, Run(inspect, w, Storing(t, readable)), j, inspect(image))
       <==> Acceptable(inspect, w.objects, j, image, readable) && Finalizable(w.db, j, inspect(image))
  {
    var put := WorkerMoves(t, Put(Answered, readable));
    assert JobOk(w.db.jobs[j], j);
    hide RowsOk, Decide, Transact;
    RunThree(inspect, w, WorkerMoves(t, Reserve), put, WorkerMoves(t, Finalize));
    Reserves(inspect, w, t, j, image);
    var reserved := Apply(inspect, w, WorkerMoves(t, Reserve));
    PutGoes(inspect, reserved, t, j, image, readable);
    var after := Apply(inspect, reserved, put);
    if Acceptable(inspect, w.objects, j, image, readable) {
      FinalizeEnds(inspect, after, t, j, image);
    } else {
      FailingStays(inspect, after, t, j);
    }
  }

  /**
    An execution that begins on a waiting or expired job and is not interrupted
    completes it exactly when its picture may be stored and its asset finalized.
  */
  lemma UninterruptedRenderCompletes(inspect: Image -> Meta, w: World, t: Uuid, j: Uuid, image: Image, readable: bool)
    requires RowsOk(w) && t !in w.workers && j in w.db.jobs && !JobCancelRequested(w.db, j)
    requires Claimable(Seen(w.db.jobs[j].status, w.db.jobs[j].lease), w.now) && inspect(image).mime == PNG
    ensures CompletedWith(inspect, Run(inspect, w, Acquiring(t, j) + Drawing(t, image) + Storing(t, readable)), j,
                          inspect(image))
       <==> Acceptable(inspect, w.objects, j, image, readable) && Finalizable(w.db, j, inspect(image))
  {
    hide RowsOk;
    RunSplit(inspect, w, Acquiring(t, j) + Drawing(t, image), Storing(t, readable));
    RunSplit(inspect, w, Acquiring(t, j), Drawing(t, image));
    Acquires(inspect, w, t, j);
    var acquired := Run(inspect, w, Acquiring(t, j));
    Renders(inspect, acquired, t, j, image);
    var drawn := Run(inspect, acquired, Drawing(t, image));
    RunKeepsRows(inspect, w, Acquiring(t, j));
    RunKeepsRows(inspect, acquired, Drawing(t, image));
    StoringEnds(inspect, drawn, t, j, image, readable);
  }

  lemma {:induction false} RunKeepsRows(inspect: Image -> Meta, w: World, actions: seq<Action>)
    requires RowsOk(w)
    ensures RowsOk(Run(inspect, w, actions))
    decreases |actions|
  {
    if actions != [] {
      StepRows(inspect, w, actions[0]);
      RunKeepsRows(inspect, Apply(inspect, w, actions[0]), actions[1..]);
    }
  }

  // ----- Recovery ------------------------------------------------------------------------------------

  function Crashing(x: Uuid, readable: bool, elapsed: nat): seq<Action> {
    [WorkerMoves(x, Put(Answered, readable)), WorkerMoves(x, Crash), Tick(elapsed)]
  }

  lemma CrashLeaves(inspect: Image -> Meta, w: World, x: Uuid, j: Uuid, image: Image, readable: bool, elapsed: nat)
    requires AboutToPut(inspect, w, x, j, image) && Acceptable(inspect, w.objects, j, image, readable)
    ensures var left := Run(inspect, w, Crashing(x, readable, elapsed));
      && left.db == w.db && left.now == w.now + elapsed && left.workers.Keys == w.workers.Keys
      && j in left.objects && inspect(left.objects[j]) == inspect(image)
  {
    RunThree(inspect, w, WorkerMoves(x, Put(Answered, readable)), WorkerMoves(x, Crash), Tick(elapsed));
    PutGoes(inspect, w, x, j, image, readable);
  }

  /**
    A crash between the put and the finalization loses nothing: once the lease has
    run out, the next execution that draws the same picture completes the job over
    the object left behind.
  */
  lemma CrashedRenderIsRecovered(inspect: Image -> Meta, w: World, x: Uuid, j: Uuid, image: Image, readable: bool,
                                 elapsed: nat, t: Uuid, again: Image)
    requires RowsOk(w) && AboutToPut(inspect, w, x, j, image) && Finishable(w.db.assets[j], inspect(image))
    requires Acceptable(inspect, w.objects, j, image, readable) && !JobCancelRequested(w.db, j)
    requires w.db.jobs[j].lease.Some? && w.db.jobs[j].lease.value <= w.now + elapsed
    requires t !in w.workers && inspect(again) == inspect(image) && inspect(image).mime == PNG
    ensures var left := Run(inspect, w, Crashing(x, readable, elapsed));
      CompletedWith(inspect, Run(inspect, left, Acquiring(t, j) + Drawing(t, again) + Storing(t, true)), j,
                    inspect(image))
  {
    assert JobOk(w.db.jobs[j], j);
    CrashLeaves(inspect, w, x, j, image, readable, elapsed);
    RunKeepsRows(inspect, w, Crashing(x, readable, elapsed));
    UninterruptedRenderCompletes(inspect, Run(inspect, w, Crashing(x, readable, elapsed)), t, j, again, true);
  }

  // ----- Other endings ----------------------------------------------------------------------------------

  /** A picture that is rejected fails the job; an error on the way gives the job back. */
  lemma RenderEndsOtherwise(inspect: Image -> Meta, w: World, t: Uuid, j: Uuid)
    requires t in w.workers && w.workers[t] == Worker(j, Rendering) && HeldBy(w.db, j, t)
    ensures SettledAs(Run(inspect, w, [WorkerMoves(t, Render(Rejected)), WorkerMoves(t, Fail)]).db, j, Failed)
    ensures SettledAs(Run(inspect, w, [WorkerMoves(t, Render(Broken)), WorkerMoves(t, Release)]).db, j, Pending)
  {
    hide Decide, Transact;
    RunTwo(inspect, w, WorkerMoves(t, Render(Rejected)), WorkerMoves(t, Fail));
    RunTwo(inspect, w, WorkerMoves(t, Render(Broken)), WorkerMoves(t, Release));
    RenderGoes(inspect, w, t, j);
    FailEnds(inspect, Apply(inspect, w, WorkerMoves(t, Render(Rejected))), t, j);
    ReleaseEnds(inspect, Apply(inspect, w, WorkerMoves(t, Render(Broken))), t, j);
  }

  lemma RenderGoes(inspect: Image -> Meta, w: World, t: Uuid, j: Uuid)
    requires t in w.workers && w.workers[t] == Worker(j, Rendering)
    ensures Apply(inspect, w, WorkerMoves(t, Render(Rejected))) == w.(workers := w.workers[t := Worker(j, Failing)])
    ensures Apply(inspect, w, WorkerMoves(t, Render(Broken))) == w.(workers := w.workers[t := Worker(j, Releasing)])
  {
  }

  lemma ReleaseEnds(inspect: Image -> Meta, w: World, t: Uuid, j: Uuid)
    requires t in w.workers && w.workers[t] == Worker(j, Releasing) && HeldBy(w.db, j, t)
    ensures SettledAs(Apply(inspect, w, WorkerMoves(t, Release)).db, j, Pending)
  {
  }

  /** Between its acquisition and its last write an execution that fails gives its job back. */
  lemma InterruptedIsReleased(inspect: Image -> Meta, w: World, t: Uuid, j: Uuid, move: WorkerMove)
    requires t in w.workers && w.workers[t].job == j && HeldBy(w.db, j, t)
    requires var phase := w.workers[t].phase;
      || (move.Abort? && HasAcquired(phase) && !phase.Failing? && !phase.Releasing? && !phase.Stopped?)
      || (move.Put? && move.reply.Lost? && phase.Putting?)
    ensures SettledAs(Run(inspect, w, [WorkerMoves(t, move), WorkerMoves(t, Release)]).db, j, Pending)
  {
    RunTwo(inspect, w, WorkerMoves(t, move), WorkerMoves(t, Release));
    Interrupts(inspect, w, t, j, move);
    ReleaseEnds(inspect, Apply(inspect, w, WorkerMoves(t, move)), t, j);
  }

  lemma Interrupts(inspect: Image -> Meta, w: World, t: Uuid, j: Uuid, move: WorkerMove)
    requires t in w.workers && w.workers[t].job == j
    requires var phase := w.workers[t].phase;
      || (move.Abort? && HasAcquired(phase) && !phase.Failing? && !phase.Releasing? && !phase.Stopped?)
      || (move.Put? && move.reply.Lost? && phase.Putting?)
    ensures var after := Apply(inspect, w, WorkerMoves(t, move));
      after.db == w.db && t in after.workers && after.workers[t] == Worker(j, Releasing)
  {
  }

  /** The cancel request is seen at both looks, before rendering and before storing, and ends the job CANCELLED. */
  lemma CancelIsSeen(inspect: Image -> Meta, w: World, t: Uuid, j: Uuid, b: Uuid, look: WorkerMove)
    requires t in w.workers && w.workers[t].job == j && HeldBy(w.db, j, t)
    requires w.db.jobs[j].batch == Some(b) && CancelRequested(w.db, b)
    requires (look.Load? && w.workers[t].phase.Loading?) || (look.Recheck? && w.workers[t].phase.Checking?)
    ensures SettledAs(Run(inspect, w, [WorkerMoves(t, look), WorkerMoves(t, CancelOwn)]).db, j, Cancelled)
  {
    hide Decide, Transact;
    RunTwo(inspect, w, WorkerMoves(t, look), WorkerMoves(t, CancelOwn));
    LookSees(inspect, w, t, j, b, look);
    CancelEnds(inspect, Apply(inspect, w, WorkerMoves(t, look)), t, j, b);
  }

  lemma LookSees(inspect: Image -> Meta, w: World, t: Uuid, j: Uuid, b: Uuid, look: WorkerMove)
    requires t in w.workers && w.workers[t].job == j && HeldBy(w.db, j, t)
    requires w.db.jobs[j].batch == Some(b) && CancelRequested(w.db, b)
    requires (look.Load? && w.workers[t].phase.Loading?) || (look.Recheck? && w.workers[t].phase.Checking?)
    ensures Apply(inspect, w, WorkerMoves(t, look)) == w.(workers := w.workers[t := Worker(j, Cancelling(b))])
  {
  }

  lemma CancelEnds(inspect: Image -> Meta, w: World, t: Uuid, j: Uuid, b: Uuid)
    requires t in w.workers && w.workers[t] == Worker(j, Cancelling(b)) && HeldBy(w.db, j, t)
    ensures SettledAs(Apply(inspect, w, WorkerMoves(t, CancelOwn)).db, j, Cancelled)
  {
    hide CountJobs, AggregateStatus;
  }

  /** A single request makes one waiting job without a batch, and only under a new id. */
  lemma RequestMakesJob(inspect: Image -> Meta, w: World, j: Uuid)
    ensures Apply(inspect, w, RequestJob(j)) ==
      if j in w.db.jobs then w
      else w.(db := w.db.(jobs := w.db.jobs[j := Job(Pending, None, None, 0, None, None)]))
  {
  }

  // ----- Uploads ----------------------------------------------------------------------------------------

  /** An upload has a row that waits, is younger than an hour, and a free slot. */
  predicate MayUpload(w: World, a: Uuid) {
    && a in w.db.assets && w.db.assets[a].status == AssetPending && w.slots < 2
    && w.now - w.db.assets[a].createdAt < 3600000
  }

  function Uploads(u: Uuid, a: Uuid, bytes: Image, committed: bool): seq<Action> {
    [OpenUpload(u, a), UploadMoves(u, ClaimUpload(bytes))]
      + [UploadMoves(u, PutUpload(Answered)), UploadMoves(u, FinishUpload(committed)), UploadMoves(u, MarkUploadFailed)]
  }

  lemma UploadClaims(inspect: Image -> Meta, w: World, u: Uuid, a: Uuid, bytes: Image)
    requires u !in w.uploads
    ensures var claimed := Run(inspect, w, [OpenUpload(u, a), UploadMoves(u, ClaimUpload(bytes))]);
      && claimed.objects == w.objects
      && (if MayUpload(w, a) then
            && u in claimed.uploads && claimed.uploads[u] == Upload(a, UploadPhase.Storing(bytes))
            && Uploading(claimed.db, a)
          else claimed.db == w.db && (u in claimed.uploads ==> claimed.uploads[u] == Upload(a, Closed)))
  {
    RunTwo(inspect, w, OpenUpload(u, a), UploadMoves(u, ClaimUpload(bytes)));
  }

  lemma UploadCommits(inspect: Image -> Meta, w: World, u: Uuid, a: Uuid, bytes: Image, committed: bool)
    requires u in w.uploads && w.uploads[u] == Upload(a, UploadPhase.Storing(bytes)) && Uploading(w.db, a)
    ensures var late := Run(inspect, w, [UploadMoves(u, PutUpload(Answered)), UploadMoves(u, FinishUpload(committed)),
                                         UploadMoves(u, MarkUploadFailed)]);
      && a in late.db.assets
      && if committed && a !in w.objects then
           && late.db.assets[a].status == AssetReady && late.db.assets[a].meta == Some(inspect(bytes))
           && late.objects == w.objects[a := bytes]
         else late.db.assets[a].status == AssetFailed
  {
    hide DecideUpload;
    RunThree(inspect, w, UploadMoves(u, PutUpload(Answered)), UploadMoves(u, FinishUpload(committed)),
             UploadMoves(u, MarkUploadFailed));
    PutUploadGoes(inspect, w, u, a, bytes);
    var put := Apply(inspect, w, UploadMoves(u, PutUpload(Answered)));
    var finished := Apply(inspect, put, UploadMoves(u, FinishUpload(committed)));
    if a in w.objects {
      StaysMarking(inspect, put, u, a, FinishUpload(committed));
      MarksFailed(inspect, finished, u, a);
    } else {
      FinishUploadGoes(inspect, put, u, a, bytes, committed);
      if committed {
        ClosedMove(inspect, finished, u, UploadMoves(u, MarkUploadFailed));
        ClosedKeepsObjects(inspect, finished, u, MarkUploadFailed);
      } else {
        MarksFailed(inspect, finished, u, a);
      }
    }
  }

  lemma PutUploadGoes(inspect: Image -> Meta, w: World, u: Uuid, a: Uuid, bytes: Image)
    requires u in w.uploads && w.uploads[u] == Upload(a, UploadPhase.Storing(bytes))
    ensures var after := Apply(inspect, w, UploadMoves(u, PutUpload(Answered)));
      && after.db == w.db && u in after.uploads
      && after.uploads[u] == Upload(a, if a in w.objects then MarkingFailed else Committing(bytes))
      && after.objects == (if a in w.objects then w.objects else w.objects[a := bytes])
  {
  }

  lemma FinishUploadGoes(inspect: Image -> Meta, w: World, u: Uuid, a: Uuid, bytes: Image, committed: bool)
    requires u in w.uploads && w.uploads[u] == Upload(a, Committing(bytes)) && Uploading(w.db, a)
    ensures var after := Apply(inspect, w, UploadMoves(u, FinishUpload(committed)));
      && after.objects == w.objects && u in after.uploads && a in after.db.assets
      && if committed then
           after.uploads[u] == Upload(a, Closed) && after.db.assets[a].status == AssetReady
           && after.db.assets[a].meta == Some(inspect(bytes))
         else after.uploads[u] == Upload(a, MarkingFailed) && after.db == w.db
  {
  }

  lemma StaysMarking(inspect: Image -> Meta, w: World, u: Uuid, a: Uuid, move: UploadMove)
    requires u in w.uploads && w.uploads[u] == Upload(a, MarkingFailed) && move.FinishUpload?
    ensures var after := Apply(inspect, w, UploadMoves(u, move));
      after.db == w.db && after.objects == w.objects && after.uploads == w.uploads
  {
  }

  lemma MarksFailed(inspect: Image -> Meta, w: World, u: Uuid, a: Uuid)
    requires u in w.uploads && w.uploads[u] == Upload(a, MarkingFailed) && Uploading(w.db, a)
    ensures var after := Apply(inspect, w, UploadMoves(u, MarkUploadFailed));
      a in after.db.assets && after.db.assets[a].status == AssetFailed
  {
  }

  lemma ClosedKeepsObjects(inspect: Image -> Meta, w: World, u: Uuid, move: UploadMove)
    requires u in w.uploads && w.uploads[u].phase.Closed?
    ensures Apply(inspect, w, UploadMoves(u, move)).objects == w.objects
  {
  }

  /** A put whose reply is lost makes the upload fail, whether or not the bytes arrived. */
  lemma LostUploadFails(inspect: Image -> Meta, w: World, u: Uuid, a: Uuid, bytes: Image, stored: bool)
    requires u in w.uploads && w.uploads[u] == Upload(a, UploadPhase.Storing(bytes)) && Uploading(w.db, a)
    ensures var late := Run(inspect, w, [UploadMoves(u, PutUpload(Lost(stored))), UploadMoves(u, MarkUploadFailed)]);
      && a in late.db.assets && late.db.assets[a].status == AssetFailed
      && (a in late.objects <==> a in w.objects || stored)
  {
    RunTwo(inspect, w, UploadMoves(u, PutUpload(Lost(stored))), UploadMoves(u, MarkUploadFailed));
    assert Apply(inspect, w, UploadMoves(u, PutUpload(Lost(stored)))).uploads[u] == Upload(a, MarkingFailed);
  }

  /**
    An uninterrupted upload makes its asset ready, with the uploaded bytes stored
    and described, exactly when it was waiting, young enough and in a free slot,
    no object was there and its commit went through; claimed, it fails otherwise.
  */
  lemma UploadReadyExactlyWhen(inspect: Image -> Meta, w: World, u: Uuid, a: Uuid, bytes: Image, committed: bool)
    requires u !in w.uploads && a in w.db.assets && w.db.assets[a].status == AssetPending
    ensures var late := Run(inspect, w, Uploads(u, a, bytes, committed));
      && a in late.db.assets
      && (late.db.assets[a].status == AssetReady <==> MayUpload(w, a) && a !in w.objects && committed)
      && (late.db.assets[a].status == AssetReady ==>
            late.db.assets[a].meta == Some(inspect(bytes)) && a in late.objects && late.objects[a] == bytes)
      && (late.db.assets[a].status == AssetFailed <==> MayUpload(w, a) && (a in w.objects || !committed))
  {
    var first := [OpenUpload(u, a), UploadMoves(u, ClaimUpload(bytes))];
    var rest := [UploadMoves(u, PutUpload(Answered)), UploadMoves(u, FinishUpload(committed)),
                 UploadMoves(u, MarkUploadFailed)];
    RunSplit(inspect, w, first, rest);
    UploadClaims(inspect, w, u, a, bytes);
    var claimed := Run(inspect, w, first);
    if MayUpload(w, a) {
      UploadCommits(inspect, claimed, u, a, bytes, committed);
    } else {
      ClosedStays(inspect, claimed, u, rest[0], rest[1], rest[2]);
    }
  }

  lemma ClosedStays(inspect: Image -> Meta, w: World, u: Uuid, a: Action, b: Action, c: Action)
    requires u in w.uploads ==> w.uploads[u].phase.Closed?
    requires a.UploadMoves? && b.UploadMoves? && c.UploadMoves? && a.upload == b.upload == c.upload == u
    ensures Run(inspect, w, [a, b, c]).db == w.db
  {
    RunThree(inspect, w, a, b, c);
    ClosedMove(inspect, w, u, a);
    ClosedMove(inspect, Apply(inspect, w, a), u, b);
    ClosedMove(inspect, Apply(inspect, Apply(inspect, w, a), b), u, c);
  }

  lemma ClosedMove(inspect: Image -> Meta, w: World, u: Uuid, a: Action)
    requires (u in w.uploads ==> w.uploads[u].phase.Closed?) && a.UploadMoves? && a.upload == u
    ensures var after := Apply(inspect, w, a);
      after.db == w.db && (u in after.uploads ==> after.uploads[u].phase.Closed?)
  {
  }
}
