/**
  How a schedule gets from one status to the next: what each write leaves in its
  row, exactly which steps give it each final status, and what the execution that
  wrote it had been told by then.
*/
module ScheduleOutcomes {
  import opened Basics
  import opened PublicationRows
  import opened PublicationPrepare
  import opened PublicationExecute
  import opened PreparePromises
  import opened ScheduleRows
  import opened PublicationWorld
  import opened PublicationSafety
  import opened ScheduleSafety

  /** The execution was delivered for this schedule at this version, holds its token, and the row is PROCESSING. */
  predicate HolderOf(w: World, t: Uuid, s: Uuid) {
    && t in w.runs && s in w.schedules && w.runs[t].origin == Job(s, w.schedules[s].version)
    && w.schedules[s].token == Some(t) && w.schedules[s].status == InProcess
  }

  // ----- The writes of an execution ------------------------------------------------------------

  /**
    A delivery acquires its schedule exactly when the row waits, at that version, and
    is not too late by the time of the transaction; the lease runs from the delivery.
  */
  lemma DeliveryAcquires(w: World, t: Uuid, s: Uuid, version: nat, elapsed: nat)
    requires t !in w.runs && s in w.schedules
    ensures var late := Apply(Apply(Apply(w, Deliver(t, s, version)), Tick(elapsed)), Moves(t, AcquireRow));
      var row := w.schedules[s];
      var waits := row.version == version && (row.status == Scheduled || row.status == Enqueued);
      && late.rows == w.rows && t in late.runs && late.schedules.Keys == w.schedules.Keys
      && (forall x :: x in w.schedules && x != s ==> late.schedules[x] == w.schedules[x])
      && (if waits && w.now + elapsed - row.dueAt <= 900000 then
            && late.schedules[s] ==
                 Schedule(InProcess, version, Some(t), Some(w.now + 300000), row.dueAt, row.targets)
            && late.runs[t] == Execution(Job(s, version), row.targets, [], [], Preparing)
          else
            && late.runs[t].phase == Done
            && late.schedules[s] == if waits then row.(status := RequiresReconciliation, lease := None) else row)
  {
  }

  /**
    The final write of the holder leaves exactly the status it asks for, and no
    lease; it keeps version, due time and accounts.  A row not held stays as it is.
  */
  lemma WriteMeans(w: World, t: Uuid, s: Uuid, version: nat, status: ScheduleStatus)
    requires t in w.runs && s in w.schedules && w.runs[t].origin == Job(s, version)
    requires w.runs[t].phase == Writing(status)
    ensures var after := Apply(w, Moves(t, Write));
      var row := w.schedules[s];
      && after.rows == w.rows && after.schedules.Keys == w.schedules.Keys && after.runs[t].phase == Done
      && (forall x :: x in w.schedules && x != s ==> after.schedules[x] == w.schedules[x])
      && after.schedules[s] ==
           if HolderOf(w, t, s) then Schedule(status, row.version, row.token, None, row.dueAt, row.targets) else row
  {
  }

  /**
    The retry write of the holder puts the schedule back; without the hold the
    execution ends as it would without a retry.
  */
  lemma RetryMeans(w: World, t: Uuid, s: Uuid, version: nat, instead: Option<ScheduleStatus>)
    requires t in w.runs && s in w.schedules && w.runs[t].origin == Job(s, version)
    requires w.runs[t].phase == Retrying(instead)
    ensures var after := Apply(w, Moves(t, Write));
      var row := w.schedules[s];
      && (forall x :: x in w.schedules && x != s ==> x in after.schedules && after.schedules[x] == w.schedules[x])
      && s in after.schedules
      && (if HolderOf(w, t, s) then
            && after.schedules[s] == Schedule(Enqueued, row.version, None, None, row.dueAt, row.targets)
            && after.runs[t].phase == Done
          else
            && after.schedules[s] == row
            && after.runs[t].phase == if instead.Some? then Writing(instead.value) else Done)
  {
  }

  // ----- The writes of the routes and handlers ----------------------------------------------------

  /** The row after a route or a handler has served it. */
  predicate ServedAs(before: Schedule, a: Action, after: Schedule, now: Time) {
    var waits := before.status == Scheduled || before.status == Enqueued;
    match a
    case FinishCreate(_) => after == before.(status := Enqueued)
    case RescheduleTo(_, version, dueAt) =>
      if dueAt > now && before.version == version && waits then
        after == Schedule(Scheduled, version + 1, None, None, dueAt, before.targets)
      else after == before
    case FinishReschedule(_, version) =>
      after == if before.version == version && before.status == Scheduled then before.(status := Enqueued) else before
    case CancelSchedule(_) =>
      after ==
        if waits then Schedule(ScheduleStatus.Cancelled, before.version, None, None, before.dueAt, before.targets)
        else before
    case SetAsideLate(_) => after == if waits then before.(status := RequiresReconciliation, lease := None) else before
    case PutBackWaiting(_) => after == if before.status == Scheduled then before.(status := Enqueued) else before
    case SetAsideOrphan(_) =>
      after == if before.status == InProcess then before.(status := RequiresReconciliation, lease := None) else before
    case ExhaustJob(_, version) =>
      after == if before.version == version && before.status == InProcess
        then before.(status := DeadLetter, lease := None) else before
    case _ => true
  }

  /** The schedule a route or handler serves. */
  function Served(a: Action): Option<Uuid> {
    match a
    case FinishCreate(s) => Some(s)
    case RescheduleTo(s, _, _) => Some(s)
    case FinishReschedule(s, _) => Some(s)
    case CancelSchedule(s) => Some(s)
    case SetAsideLate(s) => Some(s)
    case PutBackWaiting(s) => Some(s)
    case SetAsideOrphan(s) => Some(s)
    case ExhaustJob(s, _) => Some(s)
    case _ => None
  }

  /** Every route and handler writes its own row only, and this into it. */
  lemma RoutesWrite(w: World, a: Action, s: Uuid)
    requires Served(a) == Some(s) && s in w.schedules
    ensures var after := Apply(w, a);
      && after.rows == w.rows && after.runs == w.runs && after.schedules.Keys == w.schedules.Keys
      && (forall x :: x in w.schedules && x != s ==> after.schedules[x] == w.schedules[x])
      && ServedAs(w.schedules[s], a, after.schedules[s], w.now)
  {
  }

  /** A schedule is created exactly for a new id, a time to come and at least one account, and then waits. */
  lemma CreateMeans(w: World, s: Uuid, dueAt: Time, targets: seq<Uuid>)
    ensures var after := Apply(w, CreateSchedule(s, dueAt, targets));
      if s !in w.schedules && dueAt > w.now && targets != [] then
        after == w.(schedules := w.schedules[s := Schedule(Scheduled, 1, None, None, dueAt, targets)])
      else after == w
  {
  }

  // ----- Which steps end a schedule ----------------------------------------------------------------

  /** The holder of the schedule writes this status. */
  predicate Writes(w: World, a: Action, s: Uuid, status: ScheduleStatus) {
    a.Moves? && a.move.Write? && HolderOf(w, a.token, s) && w.runs[a.token].phase == Writing(status)
  }

  /** The step gives the schedule this final status. */
  predicate Ends(w: World, a: Action, s: Uuid, status: ScheduleStatus)
    requires s in w.schedules
  {
    var row := w.schedules[s];
    || Writes(w, a, s, status)
    || (status == DeadLetter && a == ExhaustJob(s, row.version) && row.status == InProcess)
    || (status == ScheduleStatus.Cancelled && a == CancelSchedule(s) && Waiting(row.status))
    || (status == RequiresReconciliation &&
        (|| (a == SetAsideLate(s) && Waiting(row.status))
         || (a == SetAsideOrphan(s) && row.status == InProcess)
         || FindsLate(w, a, s)))
  }

  /** A delivery finds the schedule waiting, but too late. */
  predicate FindsLate(w: World, a: Action, s: Uuid)
    requires s in w.schedules
  {
    && a.Moves? && a.move.AcquireRow? && a.token in w.runs && w.runs[a.token].phase.Acquiring?
    && w.runs[a.token].origin == Job(s, w.schedules[s].version)
    && Waiting(w.schedules[s].status) && Late(w.schedules[s], w.now)
  }

  lemma MoveEnds(w: World, t: Uuid, move: Move, s: Uuid, status: ScheduleStatus)
    requires t in w.runs && s in w.schedules && Final(status) && w.schedules[s].status != status
    ensures StepMove(w, t, move).schedules[s].status == status <==> Ends(w, Moves(t, move), s, status)
  {
    MoveTx(w, t, w.runs[t], move);
  }

  /** What a move asks of its schedule row. */
  lemma MoveTx(w: World, t: Uuid, e: Execution, move: Move)
    ensures var tx := Decide(w, t, e, move).tx;
      match tx
      case NoTx => !(move.Write? && e.origin.Job? && (e.phase.Writing? || e.phase.Retrying?))
                   && !(move.AcquireRow? && e.phase.Acquiring? && HasRow(w, e))
      case AcquireTx(version, _) =>
        move.AcquireRow? && e.phase.Acquiring? && HasRow(w, e) && version == e.origin.version
      case SettleTx(version, status) =>
        move.Write? && e.phase == Writing(status) && e.origin.Job? && version == e.origin.version
      case RequeueTx(version) => move.Write? && e.phase.Retrying? && e.origin.Job? && version == e.origin.version
  {
    match move
    case PrepareAll(setup, found, reachable) =>
      if e.phase.Preparing? { PrepareQuiet(w, t, e, setup, found, reachable); }
    case Save(saved) => if AtTarget(w.rows, e) { SaveQuiet(w, e, saved); }
    case _ =>
  }

  predicate HasRow(w: World, e: Execution) {
    e.origin.Job? && e.origin.schedule in w.schedules
  }

  lemma PrepareQuiet(w: World, t: Uuid, e: Execution, setup: Setup, found: seq<Account>, reachable: bool)
    ensures DecidePrepare(w, t, e, setup, found, reachable).tx == NoTx
  {
  }

  lemma SaveQuiet(w: World, e: Execution, saved: bool)
    requires AtTarget(w.rows, e)
    ensures DecideSave(w, e, saved).tx == NoTx
  {
  }

  /**
    Exactly these steps give a schedule a final status it does not have: the
    holder's final write, and for three statuses a handler, a cancellation, a
    reconciliation or a late delivery.
  */
  lemma EndedExactlyWhen(w: World, a: Action, s: Uuid, status: ScheduleStatus)
    requires s in w.schedules && Final(status) && w.schedules[s].status != status
    ensures s in Apply(w, a).schedules && (Apply(w, a).schedules[s].status == status <==> Ends(w, a, s, status))
  {
    hide Decide, ServeRow;
    match a
    case Moves(t, move) => if t in w.runs { MoveEnds(w, t, move, s, status); }
    case _ => RouteEnds(w, a, s, status);
  }

  lemma RouteEnds(w: World, a: Action, s: Uuid, status: ScheduleStatus)
    requires s in w.schedules && Final(status) && w.schedules[s].status != status && !a.Moves?
    ensures s in Apply(w, a).schedules && (Apply(w, a).schedules[s].status == status <==> Ends(w, a, s, status))
  {
    if Served(a).Some? {
      ServedEnds(w, a, s, status, Served(a).value);
    }
  }

  lemma ServedEnds(w: World, a: Action, s: Uuid, status: ScheduleStatus, served: Uuid)
    requires s in w.schedules && Final(status) && w.schedules[s].status != status && Served(a) == Some(served)
    ensures s in Apply(w, a).schedules && (Apply(w, a).schedules[s].status == status <==> Ends(w, a, s, status))
  {
    if served in w.schedules {
      RoutesWrite(w, a, served);
      hide Apply;
      if served == s {
        RowEnds(w, a, s, Apply(w, a).schedules[s], status);
      }
    } else {
      assert Apply(w, a) == w;
    }
  }

  lemma RowEnds(w: World, a: Action, s: Uuid, after: Schedule, status: ScheduleStatus)
    requires s in w.schedules && Served(a) == Some(s) && ServedAs(w.schedules[s], a, after, w.now)
    requires Final(status) && w.schedules[s].status != status
    ensures after.status == status <==> Ends(w, a, s, status)
  {
  }

  // ----- What an execution asks for -----------------------------------------------------------------

  /** The execution threw with targets still to be told, or had none. */
  predicate Threw(e: Execution) {
    |e.results| < |e.targets| || e.targets == []
  }

  /** One result for each target, none uncertain. */
  predicate AllTold(e: Execution) {
    |e.results| == |e.targets| && Uncertain !in e.results
  }

  /** What the execution had been told when it asked for this status. */
  predicate Says(e: Execution, status: ScheduleStatus) {
    match status
    case AllPublished => AllTold(e) && e.results != [] && Failed !in e.results
    case PartiallyPublished => AllTold(e) && Published in e.results && Failed in e.results
    case DeadLetter => Threw(e) || (AllTold(e) && Published !in e.results)
    case RequiresReconciliation => e.targets == [] || (|e.results| == |e.targets| && Uncertain in e.results)
    case FailedToPrepare => e.targets == []
    case _ => false
  }

  predicate AsksOk(e: Execution) {
    match e.phase
    case Writing(status) => Says(e, status)
    case Retrying(Some(status)) => Says(e, status) && |e.results| == |e.targets|
    case Retrying(None) => Threw(e)
    case Failing => Threw(e)
    case _ => true
  }

  lemma ResultsKnown(rows: Table, t: Uuid, e: Execution, now: Time)
    requires RunOk(rows, t, e, now)
    ensures forall s :: s in e.results ==> s in {Published, Failed, Uncertain}
  {
  }

  /**
    An execution that has told all its targets asks for PUBLISHED exactly when all
    are, for a reconciliation exactly when some are uncertain, and otherwise ends
    or retries as published or dead according to whether some are published.
  */
  lemma ConcludeMeans(w: World, t: Uuid, retry: bool)
    requires t in w.runs && w.runs[t].origin.Job? && w.runs[t].phase.Concluding?
    requires forall s :: s in w.runs[t].results ==> s in {Published, Failed, Uncertain}
    ensures var results := w.runs[t].results;
      var phase := Apply(w, Moves(t, Conclude(retry))).runs[t].phase;
      && (phase == Writing(AllPublished) <==> results != [] && Failed !in results && Uncertain !in results)
      && (phase == Writing(RequiresReconciliation) <==> Uncertain in results)
      && (phase == Writing(PartiallyPublished) <==>
            !retry && Published in results && Failed in results && Uncertain !in results)
      && (phase == Writing(DeadLetter) <==> !retry && Published !in results && Uncertain !in results)
      && (phase == Retrying(Some(PartiallyPublished)) <==>
            retry && Published in results && Failed in results && Uncertain !in results)
      && (phase == Retrying(Some(DeadLetter)) <==> retry && Published !in results && Uncertain !in results)
  {
    var results := w.runs[t].results;
    if results != [] {
      assert results[0] in results;
    }
  }

  /** An execution that threw asks for another try, or ends dead. */
  lemma FailingMeans(w: World, t: Uuid, retry: bool)
    requires t in w.runs && w.runs[t].origin.Job? && w.runs[t].phase.Failing?
    ensures Apply(w, Moves(t, Conclude(retry))).runs[t].phase == if retry then Retrying(None) else Writing(DeadLetter)
  {
  }

  lemma ConcludeAsks(w: World, t: Uuid, e: Execution, retry: bool)
    requires RunOk(w.rows, t, e, w.now) && AsksOk(e) && (e.phase.Concluding? || e.phase.Failing?)
    ensures AsksOk(DecideConclude(w, e, retry).next)
  {
    ResultsKnown(w.rows, t, e, w.now);
    if e.results != [] {
      assert e.results[0] in e.results;
    }
  }

  lemma PrepareSays(w: World, t: Uuid, e: Execution, setup: Setup, found: seq<Account>, reachable: bool)
    requires e.phase.Preparing? && e.targets == [] && AsksOk(e)
    ensures AsksOk(DecidePrepare(w, t, e, setup, found, reachable).next)
  {
  }

  lemma SaveSays(w: World, t: Uuid, e: Execution, saved: bool)
    requires RunOk(w.rows, t, e, w.now) && AsksOk(e) && AtTarget(w.rows, e)
    ensures AsksOk(DecideSave(w, e, saved).next)
  {
  }

  lemma CleanUpSays(w: World, t: Uuid, e: Execution, saved: bool)
    requires RunOk(w.rows, t, e, w.now) && e.phase.CleaningUp?
    ensures AsksOk(DecideCleanUp(w, e, saved).next)
  {
  }

  lemma WriteSays(w: World, t: Uuid, e: Execution)
    requires AsksOk(e)
    ensures AsksOk(DecideWrite(w, t, e).next)
  {
  }

  lemma MoveSays(w: World, t: Uuid, e: Execution, move: Move)
    requires RunOk(w.rows, t, e, w.now) && AsksOk(e)
    ensures AsksOk(Decide(w, t, e, move).next)
  {
    match move
    case PrepareAll(setup, found, reachable) => if e.phase.Preparing? { PrepareSays(w, t, e, setup, found, reachable); }
    case Save(saved) => if AtTarget(w.rows, e) { SaveSays(w, t, e, saved); }
    case CleanUp(saved) => if e.phase.CleaningUp? { CleanUpSays(w, t, e, saved); }
    case Conclude(retry) => if e.phase.Concluding? || e.phase.Failing? { ConcludeAsks(w, t, e, retry); }
    case Write => WriteSays(w, t, e);
    case _ =>
  }

  ghost predicate AllAskOk(w: World) {
    forall t :: t in w.runs ==> AsksOk(w.runs[t])
  }

  lemma StepAsks(w: World, a: Action)
    requires RunsOk(w) && AllAskOk(w)
    ensures AllAskOk(Apply(w, a))
  {
    hide Decide, ResolveRows, ServeRow, RunOk;
    match a
    case Moves(t, move) => if t in w.runs { MoveSays(w, t, w.runs[t], move); }
    case _ =>
  }

  lemma {:induction false} RunAsks(w: World, actions: seq<Action>)
    requires RunsOk(w) && AllAskOk(w)
    ensures AllAskOk(Run(w, actions))
    decreases |actions|
  {
    if actions != [] {
      StepAsks(w, actions[0]);
      StepRunsOk(w, actions[0]);
      RunAsks(Apply(w, actions[0]), actions[1..]);
    }
  }

  /**
    In every run a schedule gets a final status only by its holder, which had been
    told what that status says, or by the handlers, reconciliation and routes that
    may set three of them.
  */
  lemma EndsAsTold(actions: seq<Action>, a: Action, s: Uuid, status: ScheduleStatus)
    requires s in Run(Empty, actions).schedules && Final(status)
    requires var w := Run(Empty, actions);
      w.schedules[s].status != status && s in Apply(w, a).schedules && Apply(w, a).schedules[s].status == status
    ensures var w := Run(Empty, actions);
      && Ends(w, a, s, status)
      && (Writes(w, a, s, status) ==> Says(w.runs[a.token], status))
      && (status in {AllPublished, PartiallyPublished, FailedToPrepare} ==> Writes(w, a, s, status))
  {
    EndedExactlyWhen(Run(Empty, actions), a, s, status);
    RunRunsOk(Empty, actions);
    RunAsks(Empty, actions);
  }

  // ----- What a preparation asks for -------------------------------------------------------------------

  /** The first account in the way has an attempt that awaits a resolution. */
  predicate FirstAwaits(table: Table, found: seq<Account>, allowSkipping: bool, now: Time) {
    exists k :: 0 <= k < |found| && Blocks(table, found[k].id, allowSkipping, now)
                && AwaitsResolution(table, found[k].id)
                && forall i :: 0 <= i < k ==> !Blocks(table, found[i].id, allowSkipping, now)
  }

  /**
    A scheduled preparation goes on exactly when nothing is missing, in the way or
    in doubt; it asks for a reconciliation exactly when the first account in the
    way awaits a resolution, or none is in the way and some attempt is in doubt;
    otherwise the schedule fails.
  */
  lemma PreparationMeans(w: World, t: Uuid, setup: Setup, found: seq<Account>, reachable: bool)
    requires RunsOk(w) && t in w.runs && w.runs[t].phase.Preparing? && w.runs[t].origin.Job?
    requires Fetched(w.runs[t].requested, found)
    ensures var e := w.runs[t];
      var phase := Apply(w, Moves(t, PrepareAll(setup, found, reachable))).runs[t].phase;
      var unfit, blocked := Unfit(setup, e.requested, found), SomeBlocks(w.rows, found, true, w.now);
      var awaits, doubts := FirstAwaits(w.rows, found, true, w.now), SomeInDoubt(w.rows, found, w.now);
      && (phase == Opening <==> reachable && !unfit && !blocked && !doubts)
      && (phase == Writing(RequiresReconciliation) <==>
            reachable && !unfit && (if blocked then awaits else doubts))
      && (phase == Writing(FailedToPrepare) <==> !reachable || unfit || (blocked && !awaits))
  {
    var e := w.runs[t];
    if reachable {
      ThrowsExactlyWhen(w.rows, setup, e.requested, found, true, t, w.now);
      UncertainExactlyWhen(w.rows, setup, e.requested, found, true, t, w.now);
      ThrownErrorMeans(w.rows, setup, e.requested, found, true, t, w.now);
      var p := Prepare(w.rows, setup, e.requested, found, true, t, w.now);
      if p.outcome.Thrown? && !Unfit(setup, e.requested, found) {
        BlockedSays(w.rows, found, p.outcome.error, w.now);
      }
    }
  }

  lemma BlockedSays(table: Table, found: seq<Account>, error: PrepareError, now: Time)
    requires exists k :: 0 <= k < |found| && BlockErrorOk(error, table, found, k, true, now)
    ensures error.AwaitingResolution? <==> FirstAwaits(table, found, true, now)
    ensures SomeBlocks(table, found, true, now)
  {
    var k :| 0 <= k < |found| && BlockErrorOk(error, table, found, k, true, now);
    if FirstAwaits(table, found, true, now) {
      var i :| 0 <= i < |found| && Blocks(table, found[i].id, true, now) && AwaitsResolution(table, found[i].id)
        && forall x :: 0 <= x < i ==> !Blocks(table, found[x].id, true, now);
      assert i == k;
    }
  }
}
