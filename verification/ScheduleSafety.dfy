/**
  The schedule state machine over every run in which the create route's last,
  unguarded write finds its row still waiting: at most one execution holds a
  schedule, versions and final statuses behave, and what goes wrong without it.
*/
module ScheduleSafety {
  import opened Basics
  import opened PublicationRows
  import opened PublicationPrepare
  import opened PublicationExecute
  import opened ScheduleRows
  import opened PublicationWorld

  /** Between its acquisition and its final write. */
  predicate Holding(e: Execution) {
    e.origin.Job? && !e.phase.Acquiring? && !e.phase.Done?
  }

  /** Only final statuses are ever asked for. */
  predicate AsksFinal(phase: Phase) {
    match phase
    case Writing(status) => Final(status)
    case Retrying(Some(status)) => Final(status)
    case _ => true
  }

  /** A holder's row names it, or was taken from it for good. */
  predicate HoldOk(w: World, t: Uuid, e: Execution) {
    && AsksFinal(e.phase)
    && (Holding(e) ==>
          && e.origin.schedule in w.schedules
          && w.schedules[e.origin.schedule].targets == e.requested
          && (Held(w.schedules[e.origin.schedule], e.origin.version, t)
              || Final(w.schedules[e.origin.schedule].status)))
  }

  /** Both executions hold one and the same schedule. */
  predicate SameHold(e: Execution, f: Execution) {
    Holding(e) && Holding(f) && e.origin.schedule == f.origin.schedule
  }

  ghost predicate HoldsOk(w: World) {
    && (forall t :: t in w.runs ==> HoldOk(w, t, w.runs[t]))
    && (forall t, x :: t in w.runs && x in w.runs && SameHold(w.runs[t], w.runs[x]) ==> t == x)
  }

  /** The assumption on the create route: its last write comes while the schedule still waits. */
  predicate Prompt(w: World, a: Action) {
    match a
    case FinishCreate(s) => s in w.schedules ==> Waiting(w.schedules[s].status)
    case _ => true
  }

  predicate PromptRun(w: World, actions: seq<Action>)
    decreases |actions|
  {
    actions == [] || (Prompt(w, actions[0]) && PromptRun(Apply(w, actions[0]), actions[1..]))
  }

  // ----- One row ------------------------------------------------------------------------

  lemma TransactIntended(row: Schedule, t: Uuid, tx: ScheduleTx, now: Time)
    requires tx.SettleTx? ==> Final(tx.status)
    ensures Intended(row, TransactRow(row, t, tx, now), Some(t))
  {
  }

  lemma ServeIntended(row: Schedule, a: Action, now: Time)
    requires a.FinishCreate? ==> Waiting(row.status)
    ensures Intended(row, ServeRow(row, a, now), None)
  {
  }

  lemma HoldSurvives(before: Schedule, after: Schedule, holder: Option<Uuid>, version: nat, t: Uuid)
    requires Intended(before, after, holder) && holder != Some(t)
    requires Held(before, version, t) || Final(before.status)
    ensures Held(after, version, t) || Final(after.status)
  {
  }

  // ----- One move --------------------------------------------------------------------------

  /** The move keeps the origin and asks only for final statuses. */
  predicate AsksOnlyFinal(e: Execution, effect: Effect) {
    && effect.next.origin == e.origin
    && AsksFinal(effect.next.phase)
    && (effect.tx.SettleTx? ==> Final(effect.tx.status))
  }

  lemma PrepareAsks(w: World, t: Uuid, e: Execution, setup: Setup, found: seq<Account>, reachable: bool)
    requires AsksFinal(e.phase)
    ensures AsksOnlyFinal(e, DecidePrepare(w, t, e, setup, found, reachable))
  {
  }

  lemma SaveAsks(w: World, e: Execution, saved: bool)
    requires AsksFinal(e.phase) && AtTarget(w.rows, e)
    ensures AsksOnlyFinal(e, DecideSave(w, e, saved))
  {
  }

  lemma EndingAsks(w: World, t: Uuid, e: Execution, retry: bool)
    requires AsksFinal(e.phase)
    ensures AsksOnlyFinal(e, DecideConclude(w, e, retry)) && AsksOnlyFinal(e, DecideWrite(w, t, e))
  {
  }

  lemma MoveAsksFinal(w: World, t: Uuid, e: Execution, move: Move)
    requires AsksFinal(e.phase)
    ensures AsksOnlyFinal(e, Decide(w, t, e, move))
  {
    match move
    case PrepareAll(setup, found, reachable) => PrepareAsks(w, t, e, setup, found, reachable);
    case Save(saved) => if AtTarget(w.rows, e) { SaveAsks(w, e, saved); }
    case Conclude(retry) => EndingAsks(w, t, e, retry);
    case Write => EndingAsks(w, t, e, false);
    case _ =>
  }

  /** The schedule row of an execution after one of its moves. */
  function RowAfter(w: World, t: Uuid, e: Execution, move: Move): Schedule
    requires e.origin.Job? && e.origin.schedule in w.schedules
  {
    TransactRow(w.schedules[e.origin.schedule], t, Decide(w, t, e, move).tx, w.now)
  }

  /** A move that goes on holding leaves the row alone. */
  lemma GoingOn(w: World, t: Uuid, e: Execution, move: Move)
    requires HoldOk(w, t, e) && Holding(e) && Holding(Decide(w, t, e, move).next)
    ensures RowAfter(w, t, e, move) == w.schedules[e.origin.schedule]
    ensures Decide(w, t, e, move).next.requested == e.requested
  {
  }

  /** An execution comes to hold only by acquiring a waiting row. */
  lemma ComingToHold(w: World, t: Uuid, e: Execution, move: Move)
    requires !Holding(e) && Holding(Decide(w, t, e, move).next)
    ensures e.origin.Job? && e.origin.schedule in w.schedules && e.phase.Acquiring?
    ensures var row := w.schedules[e.origin.schedule];
      && Acquires(row, e.origin.version, w.now)
      && Held(RowAfter(w, t, e, move), e.origin.version, t)
      && RowAfter(w, t, e, move).targets == Decide(w, t, e, move).next.requested
  {
  }

  lemma OwnHold(w: World, t: Uuid, move: Move)
    requires HoldsOk(w) && t in w.runs
    ensures HoldOk(StepMove(w, t, move), t, Decide(w, t, w.runs[t], move).next)
  {
    var e := w.runs[t];
    MoveAsksFinal(w, t, e, move);
    if Holding(Decide(w, t, e, move).next) {
      if Holding(e) {
        GoingOn(w, t, e, move);
      } else {
        ComingToHold(w, t, e, move);
      }
    }
  }

  lemma MoveHolds(w: World, t: Uuid, move: Move)
    requires HoldsOk(w) && t in w.runs
    ensures HoldsOk(StepMove(w, t, move))
  {
    var e := w.runs[t];
    var after := StepMove(w, t, move);
    MoveAsksFinal(w, t, e, move);
    OwnHold(w, t, move);
    forall x | x in w.runs && x != t
      ensures HoldOk(after, x, w.runs[x])
      ensures !SameHold(w.runs[x], after.runs[t])
    {
      assert HoldOk(w, x, w.runs[x]);
      if Holding(w.runs[x]) && e.origin.Job? && e.origin.schedule == w.runs[x].origin.schedule {
        var row := w.schedules[e.origin.schedule];
        TransactIntended(row, t, Decide(w, t, e, move).tx, w.now);
        HoldSurvives(row, RowAfter(w, t, e, move), Some(t), w.runs[x].origin.version, x);
        if Holding(after.runs[t]) && !Holding(e) {
          ComingToHold(w, t, e, move);
        }
      }
    }
  }

  lemma ServeHolds(w: World, s: Uuid, a: Action)
    requires HoldsOk(w) && (a.FinishCreate? && s in w.schedules ==> Waiting(w.schedules[s].status))
    ensures HoldsOk(StepServe(w, s, a))
  {
    if s in w.schedules {
      ServeIntended(w.schedules[s], a, w.now);
      forall x | x in w.runs ensures HoldOk(StepServe(w, s, a), x, w.runs[x]) {
        if Holding(w.runs[x]) && w.runs[x].origin.schedule == s {
          HoldSurvives(w.schedules[s], ServeRow(w.schedules[s], a, w.now), None, w.runs[x].origin.version, x);
        }
      }
    }
  }

  lemma SameSchedulesHold(w: World, after: World)
    requires HoldsOk(w) && w.schedules.Keys <= after.schedules.Keys
    requires forall s :: s in w.schedules ==> after.schedules[s] == w.schedules[s]
    requires forall t :: t in after.runs ==>
      if t in w.runs then after.runs[t] == w.runs[t] else !Holding(after.runs[t]) && AsksFinal(after.runs[t].phase)
    ensures HoldsOk(after)
  {
    forall t | t in after.runs ensures HoldOk(after, t, after.runs[t]) {
      if t in w.runs {
        assert HoldOk(w, t, w.runs[t]);
      }
    }
  }

  lemma StepHolds(w: World, a: Action)
    requires HoldsOk(w) && Prompt(w, a)
    ensures HoldsOk(Apply(w, a))
  {
    match a
    case Tick(_) => SameSchedulesHold(w, Apply(w, a));
    case Publish(_, _) => SameSchedulesHold(w, Apply(w, a));
    case Deliver(_, _, _) => SameSchedulesHold(w, Apply(w, a));
    case Moves(t, move) => if t in w.runs { MoveHolds(w, t, move); }
    case Resolve(_, _) => SameSchedulesHold(w, Apply(w, a));
    case CreateSchedule(_, _, _) => SameSchedulesHold(w, Apply(w, a));
    case FinishCreate(s) => ServeHolds(w, s, a);
    case RescheduleTo(s, _, _) => ServeHolds(w, s, a);
    case FinishReschedule(s, _) => ServeHolds(w, s, a);
    case CancelSchedule(s) => ServeHolds(w, s, a);
    case SetAsideLate(s) => ServeHolds(w, s, a);
    case PutBackWaiting(s) => ServeHolds(w, s, a);
    case SetAsideOrphan(s) => ServeHolds(w, s, a);
    case ExhaustJob(s, _) => ServeHolds(w, s, a);
  }

  lemma {:induction false} RunHolds(w: World, actions: seq<Action>)
    requires HoldsOk(w) && PromptRun(w, actions)
    ensures HoldsOk(Run(w, actions))
    decreases |actions|
  {
    if actions != [] {
      StepHolds(w, actions[0]);
      RunHolds(Apply(w, actions[0]), actions[1..]);
    }
  }

  // ----- The promises --------------------------------------------------------------------------

  /** At most one execution of a schedule is between its acquisition and its final write. */
  lemma OneExecutionAtATime(actions: seq<Action>, t: Uuid, x: Uuid)
    requires PromptRun(Empty, actions)
    requires var w := Run(Empty, actions);
      t in w.runs && x in w.runs && SameHold(w.runs[t], w.runs[x])
    ensures t == x
  {
    RunHolds(Empty, actions);
  }

  /** The execution an action belongs to, if any. */
  function Actor(a: Action): Option<Uuid> {
    match a case Moves(t, _) => Some(t) case _ => None
  }

  /**
    Every step makes only intended transitions: the version stays or grows by one,
    never while PROCESSING; a final row never changes; and PROCESSING is entered
    and left for another try only by the execution whose token the row carries.
  */
  lemma StepsAreIntended(w: World, a: Action, s: Uuid)
    requires HoldsOk(w) && Prompt(w, a) && s in w.schedules
    ensures s in Apply(w, a).schedules && Intended(w.schedules[s], Apply(w, a).schedules[s], Actor(a))
  {
    match a
    case Moves(t, move) =>
      if t in w.runs {
        MoveAsksFinal(w, t, w.runs[t], move);
        TransactIntended(w.schedules[s], t, Decide(w, t, w.runs[t], move).tx, w.now);
      }
    case Tick(_) =>
    case Publish(_, _) =>
    case Deliver(_, _, _) =>
    case Resolve(_, _) =>
    case CreateSchedule(_, _, _) =>
    case FinishCreate(x) => if x == s { ServeIntended(w.schedules[s], a, w.now); }
    case _ => ServeIntended(w.schedules[s], a, w.now);
  }

  /** The final statuses are absorbing. */
  lemma {:induction false} FinalForever(w: World, actions: seq<Action>, s: Uuid)
    requires HoldsOk(w) && PromptRun(w, actions) && s in w.schedules && Final(w.schedules[s].status)
    ensures s in Run(w, actions).schedules && Run(w, actions).schedules[s] == w.schedules[s]
    decreases |actions|
  {
    if actions != [] {
      StepsAreIntended(w, actions[0], s);
      StepHolds(w, actions[0]);
      FinalForever(Apply(w, actions[0]), actions[1..], s);
    }
  }

  // ----- Obsolete jobs ----------------------------------------------------------------------------

  /** The execution was delivered for an older version and has not acquired. */
  predicate Obsolete(w: World, t: Uuid) {
    && t in w.runs && w.runs[t].origin.Job? && !Holding(w.runs[t])
    && w.runs[t].origin.schedule in w.schedules
    && w.runs[t].origin.version < w.schedules[w.runs[t].origin.schedule].version
  }

  lemma VersionsGrow(w: World, a: Action, s: Uuid)
    requires s in w.schedules
    ensures s in Apply(w, a).schedules && w.schedules[s].version <= Apply(w, a).schedules[s].version
  {
  }

  lemma MoveObsolete(w: World, t: Uuid, e: Execution, move: Move)
    requires e.origin.Job? && !Holding(e) && e.origin.schedule in w.schedules
    requires e.origin.version < w.schedules[e.origin.schedule].version
    ensures !Holding(Decide(w, t, e, move).next) && Decide(w, t, e, move).next.origin == e.origin
  {
  }

  /** A job of an older version never acquires, in any run at all. */
  lemma {:induction false} ObsoleteNeverAcquires(w: World, actions: seq<Action>, t: Uuid)
    requires Obsolete(w, t)
    ensures Obsolete(Run(w, actions), t)
    decreases |actions|
  {
    if actions != [] {
      var a := actions[0];
      VersionsGrow(w, a, w.runs[t].origin.schedule);
      if a.Moves? && a.token in w.runs {
        MoveObsolete(w, t, w.runs[t], a.move);
      }
      assert Obsolete(Apply(w, a), t);
      ObsoleteNeverAcquires(Apply(w, a), actions[1..], t);
    }
  }

  // ----- Without the assumption ----------------------------------------------------------------------

  const Acquired1 := [CreateSchedule(0, 1, [7]), Deliver(1, 0, 1), Moves(1, AcquireRow)]
  const Acquired2 := [FinishCreate(0), Deliver(2, 0, 1), Moves(2, AcquireRow)]

  /** A late last write of the create route lets two executions hold one schedule. */
  lemma LateCreateHoldsTwice()
    ensures var w := Run(Empty, Acquired1 + Acquired2);
      1 in w.runs && 2 in w.runs && SameHold(w.runs[1], w.runs[2])
  {
    RunSplit(Empty, Acquired1, Acquired2);
    RunThree(Empty, Acquired1[0], Acquired1[1], Acquired1[2]);
    RunThree(Run(Empty, Acquired1), Acquired2[0], Acquired2[1], Acquired2[2]);
  }

  const Revival := [FinishCreate(0), Deliver(1, 0, 1), Moves(1, AcquireRow)]

  const Cancellation := [CreateSchedule(0, 1, [7]), CancelSchedule(0)]
  const AfterCancellation := Empty.(schedules := map[0 := Schedule(ScheduleStatus.Cancelled, 1, None, None, 1, [7])])

  lemma CancelsOne()
    ensures Run(Empty, Cancellation) == AfterCancellation
  {
    assert Cancellation[1..] == [Cancellation[1]] && [Cancellation[1]][1..] == [];
    var created := Apply(Empty, Cancellation[0]);
    assert Run(created, [Cancellation[1]]) == Apply(created, Cancellation[1]);
  }

  /** It also revives a schedule cancelled meanwhile, which is then executed. */
  lemma LateCreateRevivesCancelled()
    ensures Run(Empty, Cancellation) == AfterCancellation
    ensures var w := Run(Empty, Cancellation + Revival); 1 in w.runs && Holding(w.runs[1])
  {
    CancelsOne();
    RunSplit(Empty, Cancellation, Revival);
    RunThree(AfterCancellation, Revival[0], Revival[1], Revival[2]);
  }
}
