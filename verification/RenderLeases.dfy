/**
  Leases of render jobs: they only move forward while a job stays in process,
  and one expired lease is recovered once, unless an execution with an older
  clock can still write that lease again.
*/
module RenderLeases {
  import opened Basics
  import opened RenderRows
  import opened RenderWorld
  import opened RenderSafety

  // ----- Leases --------------------------------------------------------------------------------

  predicate InProcess(w: World, j: Uuid) {
    j in w.db.jobs && w.db.jobs[j].status == Processing
  }

  /** The job is being processed in every world of the run. */
  predicate StaysInProcess(inspect: Image -> Meta, w: World, actions: seq<Action>, j: Uuid)
    decreases |actions|
  {
    InProcess(w, j) && (actions == [] || StaysInProcess(inspect, Apply(inspect, w, actions[0]), actions[1..], j))
  }

  lemma TransactLease(db: Db, t: Uuid, j: Uuid, tx: WorkerTx, now: Time, x: Uuid)
    requires x in db.jobs && db.jobs[x].status == Processing && JobOk(db.jobs[x], x)
    requires Transact(db, t, j, tx, now).jobs[x].status == Processing
    ensures var after := Transact(db, t, j, tx, now).jobs[x];
      after == db.jobs[x] || (after.lease.Some? && after.lease.value > db.jobs[x].lease.value)
  {
  }

  lemma ServeLease(db: Db, a: Action, now: Time, x: Uuid)
    requires x in db.jobs && db.jobs[x].status == Processing
    requires x in ServeDb(db, a, now).jobs && ServeDb(db, a, now).jobs[x].status == Processing
    ensures ServeDb(db, a, now).jobs[x] == db.jobs[x]
  {
  }

  lemma StepLease(inspect: Image -> Meta, w: World, a: Action, x: Uuid)
    requires RowsOk(w) && InProcess(w, x) && InProcess(Apply(inspect, w, a), x)
    ensures var after := Apply(inspect, w, a).db.jobs[x];
      after == w.db.jobs[x] || (after.lease.Some? && after.lease.value > w.db.jobs[x].lease.value)
  {
    hide Decide, DecideUpload, Transact, ServeDb;
    assert JobOk(w.db.jobs[x], x);
    match a
    case WorkerMoves(t, move) =>
      if t in w.workers {
        var e := Decide(inspect, w, t, w.workers[t].job, w.workers[t].phase, move);
        TransactLease(w.db, t, w.workers[t].job, e.tx, w.now, x);
      }
    case UploadMoves(u, move) => if u in w.uploads { UploadJobs(inspect, w, u, move); }
    case Begin(_, _) =>
    case Tick(_) =>
    case OpenUpload(_, _) =>
    case _ => ServeLease(w.db, a, w.now, x);
  }

  /** While a job stays in process its lease only moves forward, and every change of row moves it. */
  lemma {:induction false} LeaseMovesForward(inspect: Image -> Meta, w: World, actions: seq<Action>, x: Uuid)
    requires Inv(inspect, w) && StaysInProcess(inspect, w, actions, x)
    ensures InProcess(w, x) && InProcess(Run(inspect, w, actions), x)
    ensures var after := Run(inspect, w, actions).db.jobs[x];
      || after == w.db.jobs[x]
      || (after.lease.Some? && w.db.jobs[x].lease.Some? && after.lease.value > w.db.jobs[x].lease.value)
    decreases |actions|
  {
    assert JobOk(w.db.jobs[x], x);
    if actions != [] {
      var next := Apply(inspect, w, actions[0]);
      StepInv(inspect, w, actions[0]);
      assert InProcess(next, x);
      StepLease(inspect, w, actions[0], x);
      LeaseMovesForward(inspect, next, actions[1..], x);
    }
  }

  /**
    Of all executions that read the same expired lease, one recovers it: once a
    recovery from `seen` has succeeded, no other claim made with the same reading
    succeeds for as long as the job stays in process.
  */
  lemma OneRecoveryWhileInProcess(
      inspect: Image -> Meta, w: World, winner: Uuid, seen: Seen, now: Time, actions: seq<Action>, later: Time)
    requires Inv(inspect, w) && winner in w.workers
    requires w.workers[winner].phase == Claiming(now, seen) && Recovers(seen, now)
    requires HeldBy(Apply(inspect, w, WorkerMoves(winner, ClaimJob)).db, w.workers[winner].job, winner)
    requires StaysInProcess(inspect, Apply(inspect, w, WorkerMoves(winner, ClaimJob)), actions, w.workers[winner].job)
    requires Recovers(seen, later)
    ensures var j := w.workers[winner].job;
      !ClaimMatches(Run(inspect, Apply(inspect, w, WorkerMoves(winner, ClaimJob)), actions).db, j, seen, later)
  {
    var j := w.workers[winner].job;
    var won := Apply(inspect, w, WorkerMoves(winner, ClaimJob));
    assert !HeldBy(w.db, j, winner) by { assert j in w.db.jobs ==> OwnerOk(w, j); }
    assert won.db.jobs[j].lease == Some(now + RENDER_LEASE_MS);
    StepInv(inspect, w, WorkerMoves(winner, ClaimJob));
    LeaseMovesForward(inspect, won, actions, j);
  }

  // ----- When a recovered lease can come back -----------------------------------------------------

  /** No pending execution read its clock before time zero or after now. */
  predicate ClockOk(phase: Phase, now: Time) {
    match phase
    case Starting(began) => 0 <= began <= now
    case Claiming(began, _) => 0 <= began <= now
    case _ => true
  }

  ghost predicate ClocksOk(w: World) {
    0 <= w.now && forall t :: t in w.workers ==> ClockOk(w.workers[t].phase, w.now)
  }

  /** An execution that read its clock at `began` and has yet to claim job `j`. */
  predicate PendingAt(worker: Worker, j: Uuid, began: Time) {
    worker.job == j &&
    match worker.phase
    case Starting(now) => now == began
    case Claiming(now, _) => now == began
    case _ => false
  }

  /** The job is leased until exactly `lease`. */
  predicate LeasedUntil(w: World, j: Uuid, lease: Time) {
    InProcess(w, j) && w.db.jobs[j].lease == Some(lease)
  }

  /** The job is leased until `lease`, or some pending execution may still write that lease. */
  ghost predicate MayReach(w: World, j: Uuid, lease: Time)
    decreases lease, 1
  {
    LeasedUntil(w, j, lease) ||
    (RENDER_LEASE_MS <= lease && exists u :: u in w.workers && MayWrite(w, j, u, lease))
  }

  /**
    The execution's clock gives that lease, and it has not read the job yet, or
    read it PENDING, or read an expired lease that may itself be reached.
  */
  ghost predicate MayWrite(w: World, j: Uuid, u: Uuid, lease: Time)
    requires RENDER_LEASE_MS <= lease && u in w.workers
    decreases lease, 0
  {
    var phase := w.workers[u].phase;
    && PendingAt(w.workers[u], j, lease - RENDER_LEASE_MS)
    && (phase.Claiming? && phase.seen.status != Pending ==>
          Recovers(phase.seen, phase.now) && MayReach(w, j, phase.seen.lease.value))
  }

  lemma StepClocks(inspect: Image -> Meta, w: World, a: Action)
    requires ClocksOk(w)
    ensures ClocksOk(Apply(inspect, w, a)) && w.now <= Apply(inspect, w, a).now
  {
    match a
    case WorkerMoves(t, move) =>
      if t in w.workers { MovePending(inspect, w, t, w.workers[t].job, w.workers[t].phase, move); }
    case _ =>
  }

  /** An execution is pending after a move only with the clock it had before. */
  lemma MovePending(inspect: Image -> Meta, w: World, t: Uuid, j: Uuid, phase: Phase, move: WorkerMove)
    ensures var next := Decide(inspect, w, t, j, phase, move).next;
      && (next.Starting? ==> next == phase)
      && (next.Claiming? ==> next == phase || phase == Starting(next.now))
  {
  }

  /** A lease appears on a row only by the claim of an execution with the clock for it. */
  lemma TransactLeases(db: Db, t: Uuid, j: Uuid, tx: WorkerTx, now: Time, x: Uuid)
    requires x in db.jobs && x in Transact(db, t, j, tx, now).jobs
    requires Transact(db, t, j, tx, now).jobs[x].status == Processing
    ensures Transact(db, t, j, tx, now).jobs[x] == db.jobs[x]
         || (tx.ClaimTx? && x == j && Claimable(tx.seen, tx.claimedAt) && ClaimMatches(db, j, tx.seen, tx.claimedAt)
             && Transact(db, t, j, tx, now).jobs[x].lease == Some(tx.claimedAt + RENDER_LEASE_MS))
  {
    hide CountJobs, AggregateStatus;
  }

  lemma ServeLeases(db: Db, a: Action, now: Time, x: Uuid)
    requires x in db.jobs && x in ServeDb(db, a, now).jobs && ServeDb(db, a, now).jobs[x].status == Processing
    ensures ServeDb(db, a, now).jobs[x] == db.jobs[x]
  {
    hide CountJobs, AggregateStatus;
  }

  lemma DecideClaims(inspect: Image -> Meta, w: World, t: Uuid, j: Uuid, phase: Phase, move: WorkerMove)
    requires Decide(inspect, w, t, j, phase, move).tx.ClaimTx?
    ensures var tx := Decide(inspect, w, t, j, phase, move).tx; phase == Claiming(tx.claimedAt, tx.seen)
  {
  }

  lemma WorkerStepLeases(inspect: Image -> Meta, w: World, t: Uuid, move: WorkerMove, j: Uuid, lease: Time)
    requires ClocksOk(w) && t in w.workers && j in w.db.jobs
    requires LeasedUntil(WorkerStep(inspect, w, t, move), j, lease)
    ensures MayReach(w, j, lease)
  {
    var e := Decide(inspect, w, t, w.workers[t].job, w.workers[t].phase, move);
    TransactLeases(w.db, t, w.workers[t].job, e.tx, w.now, j);
    if !LeasedUntil(w, j, lease) {
      DecideClaims(inspect, w, t, w.workers[t].job, w.workers[t].phase, move);
      assert ClockOk(w.workers[t].phase, w.now);
      assert e.tx.seen.status != Pending ==> LeasedUntil(w, j, e.tx.seen.lease.value);
      assert MayWrite(w, j, t, lease);
    }
  }

  lemma StepLeases(inspect: Image -> Meta, w: World, a: Action, j: Uuid, lease: Time)
    requires ClocksOk(w) && j in w.db.jobs && LeasedUntil(Apply(inspect, w, a), j, lease)
    ensures MayReach(w, j, lease)
  {
    match a
    case WorkerMoves(t, move) => if t in w.workers { WorkerStepLeases(inspect, w, t, move, j, lease); }
    case UploadMoves(u, move) => if u in w.uploads { UploadJobs(inspect, w, u, move); }
    case Begin(_, _) =>
    case Tick(_) =>
    case OpenUpload(_, _) =>
    case _ => ServeLeases(w.db, a, w.now, j);
  }

  /** The phase of an execution before the step, if it is pending after it. */
  lemma StepPending(inspect: Image -> Meta, w: World, a: Action, u: Uuid)
    requires u in Apply(inspect, w, a).workers
    ensures var after := Apply(inspect, w, a).workers[u];
      if u in w.workers then
        && after.job == w.workers[u].job
        && (after.phase.Starting? ==> after == w.workers[u])
        && (after.phase.Claiming? ==> after == w.workers[u] || w.workers[u].phase == Starting(after.phase.now))
      else after.phase == Starting(w.now)
  {
    match a
    case WorkerMoves(t, move) =>
      if t in w.workers { MovePending(inspect, w, t, w.workers[t].job, w.workers[t].phase, move); }
    case _ =>
  }

  /** A step makes no lease reachable, other than those still to come. */
  lemma {:induction false} StepReaches(inspect: Image -> Meta, w: World, a: Action, j: Uuid, lease: Time)
    requires ClocksOk(w) && j in w.db.jobs && lease <= w.now && MayReach(Apply(inspect, w, a), j, lease)
    ensures MayReach(w, j, lease)
    decreases lease
  {
    var after := Apply(inspect, w, a);
    if LeasedUntil(after, j, lease) {
      StepLeases(inspect, w, a, j, lease);
    } else {
      var u :| u in after.workers && MayWrite(after, j, u, lease);
      StepPending(inspect, w, a, u);
      var phase := after.workers[u].phase;
      if w.workers[u].phase == phase && phase.Claiming? && phase.seen.status != Pending {
        StepReaches(inspect, w, a, j, phase.seen.lease.value);
      }
      assert MayWrite(w, j, u, lease);
    }
  }

  lemma StepKeepsJobs(inspect: Image -> Meta, w: World, a: Action)
    requires RowsOk(w)
    ensures w.db.jobs.Keys <= Apply(inspect, w, a).db.jobs.Keys
  {
    match a
    case WorkerMoves(t, move) =>
      if t in w.workers {
        var e := Decide(inspect, w, t, w.workers[t].job, w.workers[t].phase, move);
        TransactTokens(w.db, t, w.workers[t].job, e.tx, w.now);
      }
    case UploadMoves(u, move) => if u in w.uploads { UploadJobs(inspect, w, u, move); }
    case Begin(_, _) =>
    case Tick(_) =>
    case OpenUpload(_, _) =>
    case _ => ServeTokens(w.db, a, w.now);
  }

  lemma {:induction false} NeverReached(inspect: Image -> Meta, w: World, actions: seq<Action>, j: Uuid, lease: Time)
    requires Inv(inspect, w) && ClocksOk(w) && j in w.db.jobs && lease <= w.now && !MayReach(w, j, lease)
    ensures !LeasedUntil(Run(inspect, w, actions), j, lease)
    decreases |actions|
  {
    if actions != [] {
      var next := Apply(inspect, w, actions[0]);
      if MayReach(next, j, lease) {
        StepReaches(inspect, w, actions[0], j, lease);
      }
      StepInv(inspect, w, actions[0]);
      StepClocks(inspect, w, actions[0]);
      StepKeepsJobs(inspect, w, actions[0]);
      NeverReached(inspect, next, actions[1..], j, lease);
    }
  }

  /** An execution that read its clock after `began` and has yet to claim. */
  predicate PendingAfter(worker: Worker, began: Time) {
    match worker.phase
    case Starting(now) => now > began
    case Claiming(now, _) => now > began
    case _ => false
  }

  lemma StartsAndClaims(inspect: Image -> Meta, w: World, j: Uuid, u: Uuid, began: Time)
    requires j in w.db.jobs && w.db.jobs[j].status == Pending
    requires u in w.workers && w.workers[u] == Worker(j, Starting(began))
    ensures var late := Run(inspect, w, [WorkerMoves(u, ReadJob), WorkerMoves(u, ClaimJob)]);
      && LeasedUntil(late, j, began + RENDER_LEASE_MS)
      && forall x :: x in w.workers && x != u ==> x in late.workers && late.workers[x] == w.workers[x]
  {
    var actions := [WorkerMoves(u, ReadJob), WorkerMoves(u, ClaimJob)];
    var read := Apply(inspect, w, actions[0]);
    assert actions[1..] == [actions[1]] && actions[1..][1..] == [];
    assert read.workers[u] == Worker(j, Claiming(began, Seen(Pending, w.db.jobs[j].lease))) && read.db == w.db;
    assert Run(inspect, read, actions[1..]) == Run(inspect, Apply(inspect, read, actions[1]), []);
  }

  lemma Claims(inspect: Image -> Meta, w: World, j: Uuid, u: Uuid, began: Time, seen: Seen)
    requires u in w.workers && w.workers[u] == Worker(j, Claiming(began, seen))
    requires Claimable(seen, began) && ClaimMatches(w.db, j, seen, began)
    ensures var late := Run(inspect, w, [WorkerMoves(u, ClaimJob)]);
      && LeasedUntil(late, j, began + RENDER_LEASE_MS)
      && forall x :: x in w.workers && x != u ==> x in late.workers && late.workers[x] == w.workers[x]
  {
    var actions := [WorkerMoves(u, ClaimJob)];
    assert actions[1..] == [];
    assert Run(inspect, w, actions) == Run(inspect, Apply(inspect, w, actions[0]), []);
  }

  /** From a waiting job, the pending executions bring about every lease they may write. */
  lemma {:induction false} Reaching(inspect: Image -> Meta, w: World, j: Uuid,
                                    lease: Time) returns (actions: seq<Action>)
    requires j in w.db.jobs && w.db.jobs[j].status == Pending && MayReach(w, j, lease)
    ensures var late := Run(inspect, w, actions);
      && LeasedUntil(late, j, lease)
      && forall x :: x in w.workers && PendingAfter(w.workers[x], lease - RENDER_LEASE_MS) ==>
           x in late.workers && late.workers[x] == w.workers[x]
    decreases lease
  {
    var u :| u in w.workers && MayWrite(w, j, u, lease);
    match w.workers[u].phase
    case Starting(began) =>
      StartsAndClaims(inspect, w, j, u, began);
      actions := [WorkerMoves(u, ReadJob), WorkerMoves(u, ClaimJob)];
    case Claiming(began, seen) =>
      if seen.status == Pending {
        Claims(inspect, w, j, u, began, seen);
        actions := [WorkerMoves(u, ClaimJob)];
      } else {
        var before := Reaching(inspect, w, j, seen.lease.value);
        Claims(inspect, Run(inspect, w, before), j, u, began, seen);
        RunSplit(inspect, w, before, [WorkerMoves(u, ClaimJob)]);
        actions := before + [WorkerMoves(u, ClaimJob)];
      }
    case _ =>
  }

  /** Releasing a job takes away none of the leases below its own. */
  lemma {:induction false} ReleaseReaches(w: World, after: World, j: Uuid, lease: Time)
    requires MayReach(w, j, lease) && (InProcess(w, j) && w.db.jobs[j].lease.Some? ==> lease < w.db.jobs[j].lease.value)
    requires forall u :: u in w.workers && (w.workers[u].phase.Starting? || w.workers[u].phase.Claiming?) ==>
      u in after.workers && after.workers[u] == w.workers[u]
    ensures MayReach(after, j, lease)
    decreases lease
  {
    var u :| u in w.workers && MayWrite(w, j, u, lease);
    var phase := w.workers[u].phase;
    if phase.Claiming? && phase.seen.status != Pending {
      ReleaseReaches(w, after, j, phase.seen.lease.value);
    }
    assert MayWrite(after, j, u, lease);
  }

  lemma {:induction false} RunClocks(inspect: Image -> Meta, w: World, actions: seq<Action>)
    requires ClocksOk(w)
    ensures ClocksOk(Run(inspect, w, actions))
    decreases |actions|
  {
    if actions != [] {
      StepClocks(inspect, w, actions[0]);
      RunClocks(inspect, Apply(inspect, w, actions[0]), actions[1..]);
    }
  }

  /** The execution is about to recover its job from the expired lease it read, and its claim matches. */
  predicate AboutToRecover(w: World, winner: Uuid, seen: Seen, now: Time) {
    && winner in w.workers && w.workers[winner].phase == Claiming(now, seen)
    && Recovers(seen, now) && ClaimMatches(w.db, w.workers[winner].job, seen, now)
  }

  function Won(inspect: Image -> Meta, w: World, winner: Uuid): World {
    Apply(inspect, w, WorkerMoves(winner, ClaimJob))
  }

  /** After the given actions a recovery with the reading would succeed. */
  predicate RecoversAfter(inspect: Image -> Meta, w: World, actions: seq<Action>, j: Uuid, seen: Seen, later: Time) {
    Recovers(seen, later) && ClaimMatches(Run(inspect, w, actions).db, j, seen, later)
  }

  ghost predicate RecoverableAgain(inspect: Image -> Meta, w: World, j: Uuid, seen: Seen) {
    exists actions, later :: RecoversAfter(inspect, w, actions, j, seen, later)
  }

  lemma WonWorld(inspect: Image -> Meta, w: World, winner: Uuid, seen: Seen, now: Time)
    requires Inv(inspect, w) && ClocksOk(w) && AboutToRecover(w, winner, seen, now)
    ensures var won := Won(inspect, w, winner);
      var j := w.workers[winner].job;
      && Inv(inspect, won) && ClocksOk(won)
      && seen.lease.value <= won.now && LeasedUntil(won, j, now + RENDER_LEASE_MS)
      && won.db.jobs[j].token == Some(winner) && won.workers == w.workers[winner := Worker(j, Loading)]
  {
    hide Inv;
    StepInv(inspect, w, WorkerMoves(winner, ClaimJob));
    StepClocks(inspect, w, WorkerMoves(winner, ClaimJob));
    assert ClockOk(w.workers[winner].phase, w.now);
  }

  /** The winner gives the job back; what may be reached below its lease still may. */
  lemma GivesBack(inspect: Image -> Meta, won: World, winner: Uuid, j: Uuid, lease: Time)
    requires winner in won.workers && won.workers[winner] == Worker(j, Loading) && HeldBy(won.db, j, winner)
    requires won.db.jobs[j].lease.Some? && lease < won.db.jobs[j].lease.value && MayReach(won, j, lease)
    ensures var back := Run(inspect, won, [WorkerMoves(winner, Abort), WorkerMoves(winner, Release)]);
      j in back.db.jobs && back.db.jobs[j].status == Pending && MayReach(back, j, lease)
  {
    hide MayReach, Decide, Transact;
    var actions := [WorkerMoves(winner, Abort), WorkerMoves(winner, Release)];
    var aborted := Apply(inspect, won, actions[0]);
    assert actions[1..] == [actions[1]] && actions[1..][1..] == [];
    Aborts(inspect, won, winner, j);
    Releases(inspect, aborted, winner, j);
    var back := Apply(inspect, aborted, actions[1]);
    assert Run(inspect, aborted, actions[1..]) == Run(inspect, back, []);
    ReleaseReaches(won, back, j, lease);
  }

  lemma Aborts(inspect: Image -> Meta, w: World, t: Uuid, j: Uuid)
    requires t in w.workers && w.workers[t] == Worker(j, Loading)
    ensures Apply(inspect, w, WorkerMoves(t, Abort)) == w.(workers := w.workers[t := Worker(j, Releasing)])
  {
  }

  lemma Releases(inspect: Image -> Meta, w: World, t: Uuid, j: Uuid)
    requires t in w.workers && w.workers[t] == Worker(j, Releasing) && HeldBy(w.db, j, t)
    ensures Apply(inspect, w, WorkerMoves(t, Release))
         == w.(workers := w.workers[t := Worker(j, Stopped)], db := EndHold(w.db, j, Pending))
  {
  }

  lemma ReachedIsRecovered(inspect: Image -> Meta, won: World, winner: Uuid, j: Uuid, seen: Seen)
    requires winner in won.workers && won.workers[winner] == Worker(j, Loading) && HeldBy(won.db, j, winner)
    requires seen.status == Processing && seen.lease.Some? && MayReach(won, j, seen.lease.value)
    requires won.db.jobs[j].lease.Some? && seen.lease.value < won.db.jobs[j].lease.value
    ensures RecoverableAgain(inspect, won, j, seen)
  {
    var lease := seen.lease.value;
    var giving := [WorkerMoves(winner, Abort), WorkerMoves(winner, Release)];
    GivesBack(inspect, won, winner, j, lease);
    var reaching := Reaching(inspect, Run(inspect, won, giving), j, lease);
    RunSplit(inspect, won, giving, reaching);
    assert RecoversAfter(inspect, won, giving + reaching, j, seen, lease);
  }

  lemma UnreachedIsNot(inspect: Image -> Meta, won: World, j: Uuid, seen: Seen)
    requires Inv(inspect, won) && ClocksOk(won) && j in won.db.jobs
    requires seen.lease.Some? && seen.lease.value <= won.now && !MayReach(won, j, seen.lease.value)
    ensures !RecoverableAgain(inspect, won, j, seen)
  {
    forall actions, later ensures !RecoversAfter(inspect, won, actions, j, seen, later) {
      NeverReached(inspect, won, actions, j, seen.lease.value);
    }
  }

  /**
    After a recovery, a further recovery with the same reading is possible, in
    some continuation, exactly when a pending execution may still write the very
    lease that was read.
  */
  lemma RecoveredAgainExactlyWhen(inspect: Image -> Meta, before: seq<Action>, winner: Uuid, seen: Seen, now: Time)
    requires AboutToRecover(Run(inspect, Empty, before), winner, seen, now)
    ensures var w := Run(inspect, Empty, before);
      var j := w.workers[winner].job;
      var won := Won(inspect, w, winner);
      RecoverableAgain(inspect, won, j, seen) <==> MayReach(won, j, seen.lease.value)
  {
    hide Inv, ClocksOk, Decide, ClaimMatches;
    var w := Run(inspect, Empty, before);
    var won, j := Won(inspect, w, winner), w.workers[winner].job;
    ReachableInv(inspect, before);
    RunClocks(inspect, Empty, before);
    WonWorld(inspect, w, winner, seen, now);
    if MayReach(won, j, seen.lease.value) {
      ReachedIsRecovered(inspect, won, winner, j, seen);
    } else {
      UnreachedIsNot(inspect, won, j, seen);
    }
  }

  /**
    One recovery per lease: when no other pending execution of the job read its
    clock exactly one lease before the expired lease, which can be checked at the
    claim, no continuation at all recovers with that reading again.
  */
  lemma OneRecoveryPerLease(
      inspect: Image -> Meta, before: seq<Action>, winner: Uuid, seen: Seen, now: Time, actions: seq<Action>,
      later: Time)
    requires AboutToRecover(Run(inspect, Empty, before), winner, seen, now)
    requires var w := Run(inspect, Empty, before);
      forall u :: u in w.workers && u != winner ==>
        !PendingAt(w.workers[u], w.workers[winner].job, seen.lease.value - RENDER_LEASE_MS)
    ensures var w := Run(inspect, Empty, before);
      !RecoversAfter(inspect, Won(inspect, w, winner), actions, w.workers[winner].job, seen, later)
  {
    hide Inv, ClocksOk, Decide, ClaimMatches;
    var w := Run(inspect, Empty, before);
    var won, j := Won(inspect, w, winner), w.workers[winner].job;
    ReachableInv(inspect, before);
    RunClocks(inspect, Empty, before);
    WonWorld(inspect, w, winner, seen, now);
    assert !MayReach(won, j, seen.lease.value);
    UnreachedIsNot(inspect, won, j, seen);
  }

  // A run in which one lease value is recovered twice.  Executions 0 and 3 read the clock at time
  // zero and 0 acquires; after its lease 1 and 2 read the expired row; 1 recovers and releases; 3,
  // with its old clock, writes the old lease value again; 2 recovers with what it read.

  const TwoStart: seq<Action> :=
    [RequestJob(7), Begin(0, 7), Begin(3, 7), WorkerMoves(0, ReadJob), WorkerMoves(0, ClaimJob)]
  const TwoRead: seq<Action> :=
    [Tick(300000), Begin(1, 7), Begin(2, 7), WorkerMoves(1, ReadJob), WorkerMoves(2, ReadJob)]
  const OneRecovers: seq<Action> := [WorkerMoves(1, ClaimJob), WorkerMoves(1, Abort), WorkerMoves(1, Release)]
  const OldLeaseAgain: seq<Action> := [WorkerMoves(3, ReadJob), WorkerMoves(3, ClaimJob), WorkerMoves(2, ClaimJob)]

  const Expired := Seen(Processing, Some(300000))

  function Snapshot(job: Job, audit: seq<AuditRow>, workers: map<Uuid, Worker>, now: Time): World {
    World(Db(map[7 := job], map[], map[], audit), map[], workers, map[], 0, now)
  }

  const Leased := Snapshot(
    Job(Processing, Some(0), Some(300000), 1, None, None), [AuditRow(RenderStarted, 7, 0)],
    map[0 := Worker(7, Loading), 3 := Worker(7, Starting(0))], 0)

  const BothRead := Snapshot(
    Job(Processing, Some(0), Some(300000), 1, None, None), [AuditRow(RenderStarted, 7, 0)],
    map[0 := Worker(7, Loading), 3 := Worker(7, Starting(0)),
        1 := Worker(7, Claiming(300000, Expired)), 2 := Worker(7, Claiming(300000, Expired))], 300000)

  const Recovered := Snapshot(
    Job(Processing, Some(1), Some(600000), 2, None, None),
    [AuditRow(RenderStarted, 7, 0), AuditRow(RenderRecovered, 7, 1)], BothRead.workers[1 := Worker(7, Loading)], 300000)

  const Released := Snapshot(
    Job(Pending, None, None, 2, None, None), [AuditRow(RenderStarted, 7, 0), AuditRow(RenderRecovered, 7, 1)],
    map[0 := Worker(7, Loading), 3 := Worker(7, Starting(0)),
        1 := Worker(7, Stopped), 2 := Worker(7, Claiming(300000, Expired))], 300000)

  lemma StaleStart(inspect: Image -> Meta)
    ensures Run(inspect, Empty, TwoStart) == Leased
  {
    RunFive(inspect, Empty, TwoStart[0], TwoStart[1], TwoStart[2], TwoStart[3], TwoStart[4]);
    var begun := Apply(inspect, Apply(inspect, Apply(inspect, Empty, TwoStart[0]), TwoStart[1]), TwoStart[2]);
    assert Apply(inspect, begun, TwoStart[3]).workers[0] == Worker(7, Claiming(0, Seen(Pending, None)));
  }

  lemma StaleRead(inspect: Image -> Meta)
    ensures Run(inspect, Leased, TwoRead) == BothRead
  {
    hide CountJobs, AggregateStatus;
    RunFive(inspect, Leased, TwoRead[0], TwoRead[1], TwoRead[2], TwoRead[3], TwoRead[4]);
    var begun := Apply(inspect, Apply(inspect, Apply(inspect, Leased, TwoRead[0]), TwoRead[1]), TwoRead[2]);
    assert begun.workers[1] == begun.workers[2] == Worker(7, Starting(300000));
  }

  lemma StaleRelease(inspect: Image -> Meta)
    ensures Run(inspect, BothRead, OneRecovers) == Released
  {
    hide Decide, Transact;
    RunThree(inspect, BothRead, OneRecovers[0], OneRecovers[1], OneRecovers[2]);
    FirstRecovers(inspect);
    Aborts(inspect, Recovered, 1, 7);
    Releases(inspect, Apply(inspect, Recovered, OneRecovers[1]), 1, 7);
  }

  lemma FirstRecovers(inspect: Image -> Meta)
    ensures Apply(inspect, BothRead, OneRecovers[0]) == Recovered
  {
  }

  lemma StaleAgain(inspect: Image -> Meta)
    ensures Run(inspect, Released, OldLeaseAgain).db.audit
         == Released.db.audit + [AuditRow(RenderStarted, 7, 3), AuditRow(RenderRecovered, 7, 2)]
  {
    RunThree(inspect, Released, OldLeaseAgain[0], OldLeaseAgain[1], OldLeaseAgain[2]);
    var read := Apply(inspect, Released, OldLeaseAgain[0]);
    assert read.workers[3] == Worker(7, Claiming(0, Seen(Pending, None)));
    assert Apply(inspect, read, OldLeaseAgain[1]).db.jobs[7] == Job(Processing, Some(3), Some(300000), 3, None, None);
  }

  /**
    A lease that does come back: it is computed from a clock read before the
    transaction, so an execution that started early writes the old lease value
    again, and two executions recover with one and the same reading.
  */
  lemma SameReadingRecoversTwice(inspect: Image -> Meta)
    ensures var read := Run(inspect, Empty, TwoStart + TwoRead);
      && 1 in read.workers && 2 in read.workers
      && read.workers[1].phase == read.workers[2].phase == Claiming(300000, Expired)
      && Run(inspect, read, OneRecovers + OldLeaseAgain).db.audit
           == [AuditRow(RenderStarted, 7, 0), AuditRow(RenderRecovered, 7, 1),
               AuditRow(RenderStarted, 7, 3), AuditRow(RenderRecovered, 7, 2)]
  {
    RunSplit(inspect, Empty, TwoStart, TwoRead);
    StaleStart(inspect);
    StaleRead(inspect);
    RunSplit(inspect, BothRead, OneRecovers, OldLeaseAgain);
    StaleRelease(inspect);
    StaleAgain(inspect);
  }
}
