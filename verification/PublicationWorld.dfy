/**
  Every interleaving of publications of one post: manual publishes, deliveries
  of schedule jobs, the schedule routes, startup reconciliation, the handler of
  exhausted jobs, and an administrator resolving attempts.  A run is a list of
  actions; an action whose guard fails changes nothing.  Queue deliveries may be
  lost, repeated and late: a delivery is just another execution.
*/
module PublicationWorld {
  import opened Basics
  import opened PublicationRows
  import opened PublicationPrepare
  import opened PublicationExecute
  import opened ScheduleRows

  datatype Origin = Manual | Job(schedule: Uuid, version: nat)

  /** Where an execution stands between two of its effects. */
  datatype Phase =
    | Acquiring(began: Time)
    | Preparing
    | Opening                     // ticket and hook, before any publish
    | CleaningUp
    | Publishing                  // about to take the next target
    | Calling                     // remote call in progress
    | Confirming                  // published remotely, to be recorded
    | Doubting                    // recording it failed, to be marked uncertain
    | TimingOut                   // remote timeout, to be marked uncertain
    | Erring                      // remote error, to be recorded
    | Failing                     // the execution threw
    | Concluding                  // all results told
    | Retrying(instead: Option<ScheduleStatus>)
    | Writing(status: ScheduleStatus)
    | Done

  datatype Execution = Execution(
    origin: Origin,
    requested: seq<Uuid>,
    targets: seq<Target>,
    results: seq<AttemptStatus>,
    phase: Phase)

  datatype Move =
    | AcquireRow
    | PrepareAll(setup: Setup, found: seq<Account>, reachable: bool)
    | Open(ready: bool)
    | CleanUp(saved: bool)
    | Next
    | SaveContainer(container: Uuid, saved: bool, timesOut: bool)
    | Hear(answer: Answer)
    | Save(saved: bool)
    | Conclude(retry: bool)
    | Write
    | Crash

  datatype Decision = ConfirmPublished | ConfirmFailed | Dismiss

  datatype Action =
    | Tick(elapsed: nat)
    | Publish(token: Uuid, requested: seq<Uuid>)
    | Deliver(token: Uuid, schedule: Uuid, version: nat)
    | Moves(token: Uuid, move: Move)
    | Resolve(attempt: nat, decision: Decision)
    | CreateSchedule(schedule: Uuid, dueAt: Time, targets: seq<Uuid>)
    | FinishCreate(schedule: Uuid)
    | RescheduleTo(schedule: Uuid, version: nat, dueAt: Time)
    | FinishReschedule(schedule: Uuid, version: nat)
    | CancelSchedule(schedule: Uuid)
    | SetAsideLate(schedule: Uuid)
    | PutBackWaiting(schedule: Uuid)
    | SetAsideOrphan(schedule: Uuid)
    | ExhaustJob(schedule: Uuid, version: nat)

  datatype World = World(
    rows: Table,
    schedules: map<Uuid, Schedule>,
    runs: map<Uuid, Execution>,
    now: Time)

  const Empty := World([], map[], map[], 0)

  // ----- Evaluation -------------------------------------------------------------------

  /** The final status a finished execution asks for; none means a retry. */
  function Evaluate(results: seq<AttemptStatus>, retry: bool): Option<ScheduleStatus> {
    if results != [] && forall s | s in results :: s == Published then Some(AllPublished)
    else if Uncertain in results then Some(RequiresReconciliation)
    else if retry then None
    else Some(WithoutRetry(results))
  }

  function WithoutRetry(results: seq<AttemptStatus>): ScheduleStatus {
    if Published in results then PartiallyPublished else DeadLetter
  }

  // ----- Effects -----------------------------------------------------------------------

  datatype ScheduleTx =
    | NoTx
    | AcquireTx(version: nat, leaseEnd: Time)
    | SettleTx(version: nat, status: ScheduleStatus)
    | RequeueTx(version: nat)

  function TransactRow(row: Schedule, token: Uuid, tx: ScheduleTx, now: Time): Schedule {
    match tx
    case NoTx => row
    case AcquireTx(version, leaseEnd) => Acquire(row, version, token, leaseEnd, now)
    case SettleTx(version, status) => Settle(row, version, token, status)
    case RequeueTx(version) => Requeue(row, version, token)
  }

  /** What one move does: the execution after it, the attempt rows, and a write to its schedule. */
  datatype Effect = Effect(next: Execution, rows: Table, tx: ScheduleTx)

  function Goto(w: World, e: Execution, phase: Phase): Effect {
    Effect(e.(phase := phase), w.rows, NoTx)
  }

  /** The execution ends early with a status for its schedule, if it has one. */
  function EndsWith(e: Execution, status: ScheduleStatus): Execution {
    e.(phase := if e.origin.Job? then Writing(status) else Done)
  }

  function Throws(e: Execution): Execution {
    e.(phase := if e.origin.Job? then Failing else Done)
  }

  function DecideAcquire(w: World, e: Execution, began: Time): Effect {
    match e.origin
    case Manual => Goto(w, e, Done)
    case Job(s, version) =>
      if s !in w.schedules then Goto(w, e, Done)
      else
        var row := w.schedules[s];
        Effect(
          if Acquires(row, version, w.now) then e.(requested := row.targets, phase := Preparing) else e.(phase := Done),
          w.rows, AcquireTx(version, began + SCHEDULE_LEASE_MS))
  }

  function DecidePrepare(w: World, t: Uuid, e: Execution, setup: Setup, found: seq<Account>, reachable: bool): Effect {
    if !Fetched(e.requested, found) then Goto(w, e, e.phase)
    else if !reachable then Effect(EndsWith(e, FailedToPrepare), w.rows, NoTx)
    else
      var p := Prepare(w.rows, setup, e.requested, found, e.origin.Job?, t, w.now);
      match p.outcome
      case Thrown(error) =>
        Effect(EndsWith(e, if error.AwaitingResolution? then RequiresReconciliation else FailedToPrepare), w.rows, NoTx)
      case UncertainAccount(_) => Effect(EndsWith(e, RequiresReconciliation), p.rows, NoTx)
      case Targets(targets) => Effect(e.(targets := targets, results := [], phase := Opening), p.rows, NoTx)
  }

  predicate InBounds(rows: Table, e: Execution) {
    && |e.results| <= |e.targets|
    && forall k :: 0 <= k < |e.targets| ==> e.targets[k].attempt < |rows|
  }

  function DecideCleanUp(w: World, e: Execution, saved: bool): Effect
    requires InBounds(w.rows, e)
  {
    Effect(Throws(e), if saved then CloseReserved(w.rows, e.targets, |e.targets|) else w.rows, NoTx)
  }

  function DecideNext(w: World, e: Execution): Effect
    requires InBounds(w.rows, e)
  {
    if |e.results| == |e.targets| then Goto(w, e, Concluding)
    else
      match e.targets[|e.results|].kind
      case AlreadyDone => Effect(e.(results := e.results + [Published]), w.rows, NoTx)
      case Refused => Effect(e.(results := e.results + [Failed]), w.rows, NoTx)
      case Reserved(_, _) => Goto(w, e, Calling)
  }

  /** The target being published. */
  function Current(e: Execution): Target
    requires |e.results| < |e.targets|
  {
    e.targets[|e.results|]
  }

  predicate AtTarget(rows: Table, e: Execution) {
    InBounds(rows, e) && |e.results| < |e.targets| && Current(e).kind.Reserved?
  }

  function DecideContainer(w: World, e: Execution, container: Uuid, saved: bool, timesOut: bool): Effect
    requires AtTarget(w.rows, e)
  {
    var x := Current(e);
    var row := WithContainer(w.rows[x.attempt], container, w.now);
    if x.account.platform == FacebookPage then Goto(w, e, e.phase)
    else if Commits(w.rows, x.attempt, row, saved) then
      var renewed := x.(kind := x.kind.(deadline := w.now + ATTEMPT_LEASE_MS));
      Effect(e.(targets := e.targets[|e.results| := renewed]), w.rows[x.attempt := row], NoTx)
    else Goto(w, e, if timesOut then TimingOut else Erring)
  }

  function DecideHear(w: World, e: Execution, answer: Answer): Effect {
    Goto(w, e, match answer case Success => Confirming case Timeout => TimingOut case Failure => Erring)
  }

  /** Record an outcome by the attempt's id: told when it commits, else `otherwise`. */
  function DecideRecord(w: World, e: Execution, row: Attempt, saved: bool, otherwise: Execution): Effect
    requires AtTarget(w.rows, e)
  {
    var i := Current(e).attempt;
    if Commits(w.rows, i, row, saved) then
      Effect(e.(results := e.results + [row.status], phase := Publishing), w.rows[i := row], NoTx)
    else Effect(otherwise, w.rows, NoTx)
  }

  function DecideSave(w: World, e: Execution, saved: bool): Effect
    requires AtTarget(w.rows, e)
  {
    var row := w.rows[Current(e).attempt];
    match e.phase
    case Confirming => DecideRecord(w, e, AsPublished(row), saved, e.(phase := Doubting))
    case Doubting =>
      DecideRecord(w, e, AsUncertain(row, PersistenceFailed), saved,
                   e.(results := e.results + [Uncertain], phase := Publishing))
    case TimingOut => DecideRecord(w, e, AsUncertain(row, RemoteTimeout), saved, Throws(e))
    case Erring => DecideRecord(w, e, AsFailed(row, RemoteError), saved, Throws(e))
    case _ => Goto(w, e, e.phase)
  }

  function DecideConclude(w: World, e: Execution, retry: bool): Effect {
    if e.origin.Manual? then Goto(w, e, Done)
    else if e.phase.Failing? then Goto(w, e, if retry then Retrying(None) else Writing(DeadLetter))
    else
      var verdict := Evaluate(e.results, retry);
      Goto(w, e, if verdict.Some? then Writing(verdict.value) else Retrying(Some(WithoutRetry(e.results))))
  }

  predicate HoldsRow(w: World, t: Uuid, e: Execution) {
    e.origin.Job? && e.origin.schedule in w.schedules && Held(w.schedules[e.origin.schedule], e.origin.version, t)
  }

  function DecideWrite(w: World, t: Uuid, e: Execution): Effect {
    match (e.origin, e.phase)
    case (Job(_, version), Writing(status)) => Effect(e.(phase := Done), w.rows, SettleTx(version, status))
    case (Job(_, version), Retrying(instead)) =>
      Effect(e.(phase := if HoldsRow(w, t, e) || instead.None? then Done else Writing(instead.value)), w.rows,
             RequeueTx(version))
    case _ => Goto(w, e, e.phase)
  }

  function Decide(w: World, t: Uuid, e: Execution, move: Move): Effect {
    match (move, e.phase)
    case (AcquireRow, Acquiring(began)) => DecideAcquire(w, e, began)
    case (PrepareAll(setup, found, reachable), Preparing) => DecidePrepare(w, t, e, setup, found, reachable)
    case (Open(ready), Opening) => Goto(w, e, if ready then Publishing else CleaningUp)
    case (CleanUp(saved), CleaningUp) => if InBounds(w.rows, e) then DecideCleanUp(w, e, saved) else Goto(w, e, e.phase)
    case (Next, Publishing) => if InBounds(w.rows, e) then DecideNext(w, e) else Goto(w, e, e.phase)
    case (SaveContainer(container, saved, timesOut), Calling) =>
      if AtTarget(w.rows, e) then DecideContainer(w, e, container, saved, timesOut) else Goto(w, e, e.phase)
    case (Hear(answer), Calling) => DecideHear(w, e, answer)
    case (Save(saved), _) => if AtTarget(w.rows, e) then DecideSave(w, e, saved) else Goto(w, e, e.phase)
    case (Conclude(retry), Concluding) => DecideConclude(w, e, retry)
    case (Conclude(retry), Failing) => DecideConclude(w, e, retry)
    case (Write, _) => DecideWrite(w, t, e)
    case (Crash, _) => Goto(w, e, Done)
    case _ => Goto(w, e, e.phase)
  }

  function StepMove(w: World, t: Uuid, move: Move): World
    requires t in w.runs
  {
    var e := w.runs[t];
    var effect := Decide(w, t, e, move);
    w.(rows := effect.rows,
       schedules := if e.origin.Job? && e.origin.schedule in w.schedules
         then w.schedules[e.origin.schedule := TransactRow(w.schedules[e.origin.schedule], t, effect.tx, w.now)]
         else w.schedules,
       runs := w.runs[t := effect.next])
  }

  // ----- An administrator resolves an attempt --------------------------------------------

  predicate Resolvable(rows: Table, i: nat, now: Time) {
    && i < |rows| && rows[i].status != Published
    && !(rows[i].status in UNFINISHED && LeaseActive(rows[i], now))
  }

  function ResolvedRow(row: Attempt, decision: Decision): Attempt {
    match decision
    case ConfirmPublished => AsPublished(row)
    case ConfirmFailed => AsFailed(row, ManuallyFailed)
    case Dismiss => row.(lease := None)
  }

  function ResolveRows(rows: Table, i: nat, decision: Decision, now: Time): Table {
    if !Resolvable(rows, i, now) || (decision.ConfirmPublished? && Clashes(rows, i)) then rows
    else Update(rows, i, ResolvedRow(rows[i], decision), true)
  }

  function StepResolve(w: World, i: nat, decision: Decision): World {
    w.(rows := ResolveRows(w.rows, i, decision, w.now))
  }

  datatype Resolution = Resolved | NoSuchAttempt | AlreadyConfirmed | StillRunning | OtherPublished

  /** The resolution route. */
  class ResolutionDesk {
    var rows: Table

    constructor (table: Table)
      ensures rows == table
    {
      rows := table;
    }

    method Decide(i: nat, decision: Decision, now: Time) returns (r: Resolution)
      requires Unique(rows)
      modifies this
      ensures rows == ResolveRows(old(rows), i, decision, now)
      ensures r.NoSuchAttempt? <==> i >= |old(rows)|
      ensures r.Resolved? <==> Resolvable(old(rows), i, now) && (decision.ConfirmPublished? ==> !Clashes(old(rows), i))
      ensures r.Resolved? ==> rows == old(rows)[i := ResolvedRow(old(rows)[i], decision)]
    {
      if i >= |rows| {
        return NoSuchAttempt;
      }
      var attempt := rows[i];
      if attempt.status == Published {
        return AlreadyConfirmed;
      }
      if attempt.status in UNFINISHED && attempt.lease.Some? && attempt.lease.value > now {
        return StillRunning;
      }
      ResolvingCommits(rows, i, decision);
      match decision {
        case ConfirmPublished =>
          if exists k | 0 <= k < |rows| :: k != i && rows[k].account == attempt.account && rows[k].status == Published {
            return OtherPublished;
          }
          rows := rows[i := attempt.(status := Published, lease := None)];
        case ConfirmFailed => rows := rows[i := attempt.(status := Failed, reason := ManuallyFailed, lease := None)];
        case Dismiss => rows := rows[i := attempt.(lease := None)];
      }
      return Resolved;
    }
  }

  /** A resolution breaks no unique index once the other published attempts are ruled out. */
  lemma ResolvingCommits(rows: Table, i: nat, decision: Decision)
    requires Unique(rows) && i < |rows|
    ensures !(decision.ConfirmPublished? && Clashes(rows, i)) ==> Unique(rows[i := ResolvedRow(rows[i], decision)])
  {
  }

  // ----- All steps --------------------------------------------------------------------------

  function StepCreate(w: World, s: Uuid, dueAt: Time, targets: seq<Uuid>): World {
    if s in w.schedules || dueAt <= w.now || targets == [] then w
    else w.(schedules := w.schedules[s := Schedule(Scheduled, 1, None, None, dueAt, targets)])
  }

  /** The write of a route or handler to an existing schedule row. */
  function ServeRow(row: Schedule, a: Action, now: Time): Schedule {
    match a
    case FinishCreate(_) => ConfirmCreated(row)
    case RescheduleTo(_, version, dueAt) => if dueAt <= now then row else Reschedule(row, version, dueAt)
    case FinishReschedule(_, version) => ConfirmRescheduled(row, version)
    case CancelSchedule(_) => ScheduleRows.Cancel(row)
    case SetAsideLate(_) => FlagLate(row)
    case PutBackWaiting(_) => MarkEnqueued(row)
    case SetAsideOrphan(_) => FlagOrphan(row)
    case ExhaustJob(_, version) => Exhaust(row, version)
    case _ => row
  }

  function StepServe(w: World, s: Uuid, a: Action): World {
    if s in w.schedules then w.(schedules := w.schedules[s := ServeRow(w.schedules[s], a, w.now)]) else w
  }

  function StepBegin(w: World, t: Uuid, e: Execution): World {
    if t in w.runs then w else w.(runs := w.runs[t := e])
  }

  function Apply(w: World, a: Action): World {
    match a
    case Tick(elapsed) => w.(now := w.now + elapsed)
    case Publish(t, requested) => StepBegin(w, t, Execution(Manual, requested, [], [], Preparing))
    case Deliver(t, s, version) => StepBegin(w, t, Execution(Job(s, version), [], [], [], Acquiring(w.now)))
    case Moves(t, move) => if t in w.runs then StepMove(w, t, move) else w
    case Resolve(i, decision) => StepResolve(w, i, decision)
    case CreateSchedule(s, dueAt, targets) => StepCreate(w, s, dueAt, targets)
    case FinishCreate(s) => StepServe(w, s, a)
    case RescheduleTo(s, _, _) => StepServe(w, s, a)
    case FinishReschedule(s, _) => StepServe(w, s, a)
    case CancelSchedule(s) => StepServe(w, s, a)
    case SetAsideLate(s) => StepServe(w, s, a)
    case PutBackWaiting(s) => StepServe(w, s, a)
    case SetAsideOrphan(s) => StepServe(w, s, a)
    case ExhaustJob(s, _) => StepServe(w, s, a)
  }

  /** The world after a run. */
  function Run(w: World, actions: seq<Action>): World
    decreases |actions|
  {
    if actions == [] then w else Run(Apply(w, actions[0]), actions[1..])
  }

  lemma RunThree(w: World, a: Action, b: Action, c: Action)
    ensures Run(w, [a, b, c]) == Apply(Apply(Apply(w, a), b), c)
  {
    var w1 := Apply(w, a);
    var w2 := Apply(w1, b);
    assert [a, b, c][1..] == [b, c] && [b, c][1..] == [c] && [c][1..] == [];
    assert Run(w2, [c]) == Run(Apply(w2, c), []);
    assert Run(w1, [b, c]) == Run(w2, [c]);
    assert Run(w, [a, b, c]) == Run(w1, [b, c]);
  }

  lemma {:induction false} RunSplit(w: World, before: seq<Action>, after: seq<Action>)
    ensures Run(w, before + after) == Run(Run(w, before), after)
    decreases |before|
  {
    if before == [] {
      assert before + after == after;
    } else {
      assert (before + after)[1..] == before[1..] + after;
      RunSplit(Apply(w, before[0]), before[1..], after);
    }
  }
}
