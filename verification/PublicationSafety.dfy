/**
  What every step of the publication protocol keeps: attempt rows stay numbered
  and constrained, executions own the rows they reserved, a live lease protects
  its row, and results told as published are stored as published.
*/
module PublicationSafety {
  import opened Basics
  import opened PublicationRows
  import opened PublicationPrepare
  import opened PublicationExecute
  import opened PreparePromises
  import opened ScheduleRows
  import opened PublicationWorld

  // ----- Invariants of one execution -------------------------------------------------------

  /** Between preparation and its last result an execution is engaged with its targets. */
  predicate Engaged(phase: Phase) {
    phase in {Opening, CleaningUp, Publishing, Calling, Confirming, Doubting, TimingOut, Erring}
  }

  predicate OnTarget(phase: Phase) {
    phase in {Calling, Confirming, Doubting, TimingOut, Erring}
  }

  predicate DistinctTargets(targets: seq<Target>) {
    forall i, k :: 0 <= i < k < |targets| ==> targets[i].account.id != targets[k].account.id
  }

  predicate Covers(targets: seq<Target>, requested: seq<Uuid>) {
    forall id :: id in requested ==> exists k :: 0 <= k < |targets| && targets[k].account.id == id
  }

  /** The targets are rows of their accounts, reserved ones by this execution, and cover the request. */
  predicate TargetsOwned(rows: Table, t: Uuid, e: Execution) {
    && InBounds(rows, e)
    && (forall k :: 0 <= k < |e.targets| ==>
          && rows[e.targets[k].attempt].account == e.targets[k].account.id
          && (e.targets[k].kind.Reserved? ==> rows[e.targets[k].attempt].owner == t))
    && DistinctTargets(e.targets)
    && (e.targets != [] ==> Covers(e.targets, e.requested))
  }

  predicate PhaseOk(e: Execution) {
    && (e.phase.Acquiring? || e.phase.Preparing? ==> e.targets == [] && e.results == [])
    && (e.phase.Opening? || e.phase.CleaningUp? ==> e.results == [])
    && (OnTarget(e.phase) ==> |e.results| < |e.targets| && Current(e).kind.Reserved?)
    && (e.phase.Concluding? ==> |e.results| == |e.targets|)
    && (forall k :: 0 <= k < |e.results| ==> e.results[k] in {Published, Failed, Uncertain})
  }

  /** Before its deadline, the row of a target still to be told holds the lease the execution wrote. */
  predicate LeaseHeld(rows: Table, x: Target, now: Time)
    requires x.attempt < |rows| && x.kind.Reserved?
  {
    now < x.kind.deadline ==>
      rows[x.attempt].lease == Some(x.kind.deadline) && rows[x.attempt].status in {Processing, ContainerCreated}
  }

  predicate LeasesHeld(rows: Table, e: Execution, now: Time)
    requires InBounds(rows, e)
  {
    Engaged(e.phase) ==>
      forall k :: |e.results| <= k < |e.targets| && e.targets[k].kind.Reserved? ==> LeaseHeld(rows, e.targets[k], now)
  }

  /** A publish this execution told as done is stored as done. */
  predicate PublishesStored(rows: Table, e: Execution)
    requires InBounds(rows, e)
  {
    forall k :: 0 <= k < |e.results| && e.results[k] == Published && e.targets[k].kind.Reserved? ==>
      rows[e.targets[k].attempt].status == Published
  }

  predicate RunOk(rows: Table, t: Uuid, e: Execution, now: Time) {
    TargetsOwned(rows, t, e) && PhaseOk(e) && LeasesHeld(rows, e, now) && PublishesStored(rows, e)
  }

  predicate TableOk(rows: Table) {
    Numbered(rows) && Unique(rows)
  }

  ghost predicate RunsOk(w: World) {
    TableOk(w.rows) && forall t :: t in w.runs ==> RunOk(w.rows, t, w.runs[t], w.now)
  }

  /** The attempt is unfinished and its lease still runs. */
  predicate Leased(row: Attempt, now: Time) {
    row.status in UNFINISHED && LeaseActive(row, now)
  }

  // ----- What a step may do to the rows ----------------------------------------------------

  /**
    Rows are appended, never removed or renumbered; a row with a live lease and a
    published row change only at the hand of the execution that owns them.
  */
  predicate RowsStep(before: Table, after: Table, writer: Option<Uuid>, now: Time) {
    && |before| <= |after|
    && forall i {:trigger after[i]} :: 0 <= i < |before| ==>
         && after[i].account == before[i].account && after[i].number == before[i].number
         && after[i].owner == before[i].owner
         && (after[i] != before[i] ==>
               writer == Some(before[i].owner) || (before[i].status != Published && !Leased(before[i], now)))
  }

  lemma OthersKept(before: Table, after: Table, writer: Option<Uuid>, now: Time, t: Uuid, e: Execution)
    requires RowsStep(before, after, writer, now) && RunOk(before, t, e, now) && writer != Some(t)
    ensures RunOk(after, t, e, now)
  {
  }

  lemma UpdateRowsStep(rows: Table, i: nat, row: Attempt, writer: Option<Uuid>, now: Time)
    requires TableOk(rows) && i < |rows| && Unique(rows[i := row])
    requires row.account == rows[i].account && row.number == rows[i].number && row.owner == rows[i].owner
    requires writer == Some(rows[i].owner) || (rows[i].status != Published && !Leased(rows[i], now))
    ensures TableOk(rows[i := row]) && RowsStep(rows, rows[i := row], writer, now)
  {
    NumberedRewrite(rows, rows[i := row]);
  }

  // ----- What a move does to the rows ---------------------------------------------------------

  /** A move keeps the table sound and touches only what it may. */
  predicate RowsSound(w: World, t: Uuid, effect: Effect) {
    TableOk(effect.rows) && RowsStep(w.rows, effect.rows, Some(t), w.now)
  }

  lemma DoubtStep(rows: Table, after: Table, found: seq<Account>, writer: Option<Uuid>, now: Time)
    requires |after| == |rows|
    requires forall i :: 0 <= i < |rows| ==>
      after[i] == if InDoubt(rows, i, found, now) then Doubted(rows[i]) else rows[i]
    ensures RowsStep(rows, after, writer, now)
  {
  }

  lemma ResumeStep(rows: Table, after: Table, found: seq<Account>, writer: Option<Uuid>, now: Time)
    requires OldRowsKept(rows, after, found, |found|, now)
    ensures RowsStep(rows, after, writer, now)
  {
  }

  lemma PrepareRows(w: World, t: Uuid, e: Execution, setup: Setup, found: seq<Account>, reachable: bool)
    requires TableOk(w.rows)
    ensures RowsSound(w, t, DecidePrepare(w, t, e, setup, found, reachable))
  {
    if Fetched(e.requested, found) && reachable {
      PrepareKeepsTable(w.rows, setup, e.requested, found, e.origin.Job?, t, w.now);
      var p := Prepare(w.rows, setup, e.requested, found, e.origin.Job?, t, w.now);
      match p.outcome
      case Thrown(_) =>
      case UncertainAccount(_) =>
        UncertainExactlyWhen(w.rows, setup, e.requested, found, e.origin.Job?, t, w.now);
        DoubtStep(w.rows, p.rows, found, Some(t), w.now);
      case Targets(_) =>
        TargetsCoverSelection(w.rows, setup, e.requested, found, e.origin.Job?, t, w.now);
        ResumeStep(w.rows, p.rows, found, Some(t), w.now);
    }
  }

  lemma FailingKeepsTable(rows: Table, after: Table)
    requires TableOk(rows) && |after| == |rows|
    requires forall i :: 0 <= i < |rows| ==> after[i] == rows[i] || after[i] == AsFailed(rows[i], PreparationFailed)
    ensures TableOk(after)
  {
    NumberedRewrite(rows, after);
  }

  lemma CleanUpRows(w: World, t: Uuid, e: Execution, saved: bool)
    requires TableOk(w.rows) && TargetsOwned(w.rows, t, e)
    ensures RowsSound(w, t, DecideCleanUp(w, e, saved))
  {
    CloseReservedMeans(w.rows, e.targets, |e.targets|);
    FailingKeepsTable(w.rows, CloseReserved(w.rows, e.targets, |e.targets|));
  }

  lemma ContainerRows(w: World, t: Uuid, e: Execution, container: Uuid, saved: bool, timesOut: bool)
    requires TableOk(w.rows) && TargetsOwned(w.rows, t, e) && AtTarget(w.rows, e)
    ensures RowsSound(w, t, DecideContainer(w, e, container, saved, timesOut))
  {
    var i := Current(e).attempt;
    var row := WithContainer(w.rows[i], container, w.now);
    if Commits(w.rows, i, row, saved) {
      UpdateRowsStep(w.rows, i, row, Some(t), w.now);
    }
  }

  /** The row an outcome is recorded in keeps its identity. */
  predicate SameAttempt(before: Attempt, after: Attempt) {
    after.account == before.account && after.number == before.number && after.owner == before.owner
  }

  lemma RecordRows(w: World, t: Uuid, e: Execution, row: Attempt, saved: bool, otherwise: Execution)
    requires TableOk(w.rows) && TargetsOwned(w.rows, t, e) && AtTarget(w.rows, e)
    requires SameAttempt(w.rows[Current(e).attempt], row)
    ensures RowsSound(w, t, DecideRecord(w, e, row, saved, otherwise))
  {
    if Commits(w.rows, Current(e).attempt, row, saved) {
      UpdateRowsStep(w.rows, Current(e).attempt, row, Some(t), w.now);
    }
  }

  lemma SaveRows(w: World, t: Uuid, e: Execution, saved: bool)
    requires TableOk(w.rows) && TargetsOwned(w.rows, t, e) && AtTarget(w.rows, e)
    ensures RowsSound(w, t, DecideSave(w, e, saved))
  {
    var row := w.rows[Current(e).attempt];
    match e.phase
    case Confirming => RecordRows(w, t, e, AsPublished(row), saved, e.(phase := Doubting));
    case Doubting =>
      RecordRows(w, t, e, AsUncertain(row, PersistenceFailed), saved,
                 e.(results := e.results + [Uncertain], phase := Publishing));
    case TimingOut => RecordRows(w, t, e, AsUncertain(row, RemoteTimeout), saved, Throws(e));
    case Erring => RecordRows(w, t, e, AsFailed(row, RemoteError), saved, Throws(e));
    case _ =>
  }

  /** The moves that write attempt rows. */
  predicate Touches(move: Move) {
    move.PrepareAll? || move.CleanUp? || move.SaveContainer? || move.Save?
  }

  lemma QuietMove(w: World, t: Uuid, e: Execution, move: Move)
    requires !Touches(move)
    ensures Decide(w, t, e, move).rows == w.rows
  {
  }

  lemma MoveRows(w: World, t: Uuid, e: Execution, move: Move)
    requires TableOk(w.rows) && TargetsOwned(w.rows, t, e)
    ensures RowsSound(w, t, Decide(w, t, e, move))
  {
    match move
    case PrepareAll(setup, found, reachable) => if e.phase.Preparing? { PrepareRows(w, t, e, setup, found, reachable); }
    case CleanUp(saved) => if e.phase.CleaningUp? { CleanUpRows(w, t, e, saved); }
    case SaveContainer(container, saved, timesOut) =>
      if e.phase.Calling? && AtTarget(w.rows, e) { ContainerRows(w, t, e, container, saved, timesOut); }
    case Save(saved) => if AtTarget(w.rows, e) { SaveRows(w, t, e, saved); }
    case _ => QuietMove(w, t, e, move);
  }

  // ----- What a move does to the execution itself -------------------------------------------------

  /** Leaving the targets behind keeps what is known of them. */
  lemma LeavingRun(rows: Table, t: Uuid, e: Execution, phase: Phase, now: Time)
    requires RunOk(rows, t, e, now) && !Engaged(phase)
    requires !phase.Acquiring? && !phase.Preparing? && !phase.Concluding?
    ensures RunOk(rows, t, e.(phase := phase), now)
  {
  }

  lemma AcquireRun(w: World, t: Uuid, e: Execution, began: Time)
    requires RunOk(w.rows, t, e, w.now) && e.phase == Acquiring(began)
    ensures RunOk(w.rows, t, DecideAcquire(w, e, began).next, w.now)
  {
  }

  lemma PreparedRun(rows: Table, after: Table, t: Uuid, e: Execution, targets: seq<Target>, found: seq<Account>,
                    now: Time)
    requires Fetched(e.requested, found) && |targets| == |found|
    requires TargetsOk(rows, after, targets, found, t, now)
    requires NewRowsOwned(rows, after, found, |found|, t)
    requires forall id :: id in e.requested <==> Selected(found, id)
    ensures RunOk(after, t, e.(targets := targets, results := [], phase := Opening), now)
  {
    assert forall k :: 0 <= k < |targets| ==> TargetOk(rows, after, targets[k], found[k], t, now);
    forall id | id in e.requested ensures exists k :: 0 <= k < |targets| && targets[k].account.id == id {
      assert Selected(found, id);
      var k :| 0 <= k < |found| && found[k].id == id;
      assert targets[k].account == found[k];
    }
  }

  lemma EmptyRun(rows: Table, t: Uuid, e: Execution, now: Time)
    requires e.targets == [] && e.results == [] && PhaseOk(e)
    ensures RunOk(rows, t, e, now)
  {
  }

  lemma PrepareRun(w: World, t: Uuid, e: Execution, setup: Setup, found: seq<Account>, reachable: bool)
    requires TableOk(w.rows) && RunOk(w.rows, t, e, w.now) && e.phase.Preparing?
    ensures var effect := DecidePrepare(w, t, e, setup, found, reachable);
      RunOk(effect.rows, t, effect.next, w.now)
  {
    var effect := DecidePrepare(w, t, e, setup, found, reachable);
    if effect.next.phase.Opening? {
      TargetsCoverSelection(w.rows, setup, e.requested, found, e.origin.Job?, t, w.now);
      var p := Prepare(w.rows, setup, e.requested, found, e.origin.Job?, t, w.now);
      PreparedRun(w.rows, p.rows, t, e, p.outcome.targets, found, w.now);
    } else {
      EmptyRun(effect.rows, t, effect.next, w.now);
    }
  }

  lemma CleanUpRun(w: World, t: Uuid, e: Execution, saved: bool)
    requires RunOk(w.rows, t, e, w.now) && e.phase.CleaningUp?
    ensures var effect := DecideCleanUp(w, e, saved);
      RunOk(effect.rows, t, effect.next, w.now)
  {
    CloseReservedMeans(w.rows, e.targets, |e.targets|);
    var after := CloseReserved(w.rows, e.targets, |e.targets|);
    assert forall k :: 0 <= k < |e.targets| ==> SameAttempt(w.rows[e.targets[k].attempt], after[e.targets[k].attempt]);
  }

  lemma NextRun(w: World, t: Uuid, e: Execution)
    requires RunOk(w.rows, t, e, w.now) && e.phase.Publishing?
    ensures RunOk(w.rows, t, DecideNext(w, e).next, w.now)
  {
  }

  /** Another target of the execution has another row. */
  lemma OtherTargets(rows: Table, t: Uuid, e: Execution)
    requires TargetsOwned(rows, t, e) && |e.results| < |e.targets|
    ensures forall k :: 0 <= k < |e.targets| && k != |e.results| ==> e.targets[k].attempt != Current(e).attempt
  {
  }

  lemma ContainerRun(w: World, t: Uuid, e: Execution, container: Uuid)
    requires RunOk(w.rows, t, e, w.now) && e.phase.Calling?
    ensures var x := Current(e);
      var renewed := x.(kind := x.kind.(deadline := w.now + ATTEMPT_LEASE_MS));
      var rows := w.rows[x.attempt := WithContainer(w.rows[x.attempt], container, w.now)];
      RunOk(rows, t, e.(targets := e.targets[|e.results| := renewed]), w.now)
  {
    OtherTargets(w.rows, t, e);
    var x := Current(e);
    var targets := e.targets[|e.results| := x.(kind := x.kind.(deadline := w.now + ATTEMPT_LEASE_MS))];
    assert forall k :: 0 <= k < |targets| ==> targets[k].account == e.targets[k].account;
  }

  lemma RecordRun(w: World, t: Uuid, e: Execution, row: Attempt)
    requires RunOk(w.rows, t, e, w.now) && OnTarget(e.phase)
    requires SameAttempt(w.rows[Current(e).attempt], row) && row.status in {Published, Failed, Uncertain}
    ensures RunOk(w.rows[Current(e).attempt := row], t, e.(results := e.results + [row.status], phase := Publishing),
                  w.now)
  {
    OtherTargets(w.rows, t, e);
  }

  lemma UnrecordedRun(rows: Table, t: Uuid, e: Execution, now: Time)
    requires RunOk(rows, t, e, now) && OnTarget(e.phase)
    ensures RunOk(rows, t, e.(results := e.results + [Uncertain], phase := Publishing), now)
    ensures RunOk(rows, t, e.(phase := Doubting), now)
  {
  }

  lemma SaveRun(w: World, t: Uuid, e: Execution, saved: bool)
    requires RunOk(w.rows, t, e, w.now) && AtTarget(w.rows, e)
    ensures var effect := DecideSave(w, e, saved);
      RunOk(effect.rows, t, effect.next, w.now)
  {
    if OnTarget(e.phase) {
      var row := w.rows[Current(e).attempt];
      UnrecordedRun(w.rows, t, e, w.now);
      match e.phase
      case Confirming => RecordRun(w, t, e, AsPublished(row));
      case Doubting => RecordRun(w, t, e, AsUncertain(row, PersistenceFailed));
      case TimingOut =>
        RecordRun(w, t, e, AsUncertain(row, RemoteTimeout));
        LeavingRun(w.rows, t, e, Throws(e).phase, w.now);
      case Erring =>
        RecordRun(w, t, e, AsFailed(row, RemoteError));
        LeavingRun(w.rows, t, e, Throws(e).phase, w.now);
      case _ =>
    }
  }

  lemma ConcludeRun(w: World, t: Uuid, e: Execution, retry: bool)
    requires RunOk(w.rows, t, e, w.now)
    ensures RunOk(w.rows, t, DecideConclude(w, e, retry).next, w.now)
  {
    LeavingRun(w.rows, t, e, DecideConclude(w, e, retry).next.phase, w.now);
  }

  lemma WriteRun(w: World, t: Uuid, e: Execution)
    requires RunOk(w.rows, t, e, w.now)
    ensures RunOk(w.rows, t, DecideWrite(w, t, e).next, w.now)
  {
    if e.phase.Writing? || e.phase.Retrying? {
      LeavingRun(w.rows, t, e, DecideWrite(w, t, e).next.phase, w.now);
    }
  }

  lemma TargetPhases(rows: Table, t: Uuid, e: Execution, phase: Phase, now: Time)
    requires RunOk(rows, t, e, now) && (OnTarget(e.phase) || e.phase.Opening?)
    requires OnTarget(phase) || phase.CleaningUp? || phase.Publishing?
    requires OnTarget(phase) <==> OnTarget(e.phase)
    ensures RunOk(rows, t, e.(phase := phase), now)
  {
  }

  /** The execution is in order after the move. */
  predicate MovedOk(w: World, t: Uuid, e: Execution, move: Move) {
    var effect := Decide(w, t, e, move);
    RunOk(effect.rows, t, effect.next, w.now)
  }

  lemma QuietRun(w: World, t: Uuid, e: Execution, move: Move)
    requires RunOk(w.rows, t, e, w.now) && !Touches(move)
    ensures MovedOk(w, t, e, move)
  {
    match move
    case AcquireRow => if e.phase.Acquiring? { AcquireRun(w, t, e, e.phase.began); }
    case Open(ready) =>
      if e.phase.Opening? { TargetPhases(w.rows, t, e, if ready then Publishing else CleaningUp, w.now); }
    case Next => if e.phase.Publishing? { NextRun(w, t, e); }
    case Hear(answer) =>
      if e.phase.Calling? { TargetPhases(w.rows, t, e, DecideHear(w, e, answer).next.phase, w.now); }
    case Conclude(retry) => ConcludeRun(w, t, e, retry);
    case Write => WriteRun(w, t, e);
    case Crash => LeavingRun(w.rows, t, e, Done, w.now);
    case _ =>
  }

  lemma ContainerMoved(w: World, t: Uuid, e: Execution, container: Uuid, saved: bool, timesOut: bool)
    requires RunOk(w.rows, t, e, w.now)
    ensures MovedOk(w, t, e, SaveContainer(container, saved, timesOut))
  {
    if e.phase.Calling? {
      ContainerRun(w, t, e, container);
      TargetPhases(w.rows, t, e, if timesOut then TimingOut else Erring, w.now);
    }
  }

  lemma PrepareMoved(w: World, t: Uuid, e: Execution, setup: Setup, found: seq<Account>, reachable: bool)
    requires TableOk(w.rows) && RunOk(w.rows, t, e, w.now)
    ensures MovedOk(w, t, e, PrepareAll(setup, found, reachable))
  {
    if e.phase.Preparing? {
      PrepareRun(w, t, e, setup, found, reachable);
    }
  }

  lemma SaveMoved(w: World, t: Uuid, e: Execution, saved: bool)
    requires RunOk(w.rows, t, e, w.now)
    ensures MovedOk(w, t, e, Save(saved))
  {
    if AtTarget(w.rows, e) {
      SaveRun(w, t, e, saved);
    }
  }

  lemma CleanUpMoved(w: World, t: Uuid, e: Execution, saved: bool)
    requires RunOk(w.rows, t, e, w.now)
    ensures MovedOk(w, t, e, CleanUp(saved))
  {
    if e.phase.CleaningUp? {
      CleanUpRun(w, t, e, saved);
    }
  }

  lemma TouchingRun(w: World, t: Uuid, e: Execution, move: Move)
    requires TableOk(w.rows) && RunOk(w.rows, t, e, w.now) && Touches(move)
    ensures MovedOk(w, t, e, move)
  {
    match move
    case PrepareAll(setup, found, reachable) => PrepareMoved(w, t, e, setup, found, reachable);
    case CleanUp(saved) => CleanUpMoved(w, t, e, saved);
    case SaveContainer(container, saved, timesOut) => ContainerMoved(w, t, e, container, saved, timesOut);
    case Save(saved) => SaveMoved(w, t, e, saved);
    case _ =>
  }

  lemma MoveRun(w: World, t: Uuid, e: Execution, move: Move)
    requires TableOk(w.rows) && RunOk(w.rows, t, e, w.now)
    ensures MovedOk(w, t, e, move)
  {
    if Touches(move) {
      TouchingRun(w, t, e, move);
    } else {
      QuietRun(w, t, e, move);
    }
  }

  // ----- Every step ----------------------------------------------------------------------------

  lemma ResolveSound(w: World, i: nat, decision: Decision)
    requires RunsOk(w)
    ensures RunsOk(StepResolve(w, i, decision))
    ensures RowsStep(w.rows, StepResolve(w, i, decision).rows, None, w.now)
  {
    var after := StepResolve(w, i, decision);
    if after != w && after.rows != w.rows {
      var row := ResolvedRow(w.rows[i], decision);
      UpdateRowsStep(w.rows, i, row, None, w.now);
      forall t | t in w.runs ensures RunOk(after.rows, t, w.runs[t], w.now) {
        OthersKept(w.rows, after.rows, None, w.now, t, w.runs[t]);
      }
    }
  }

  lemma StepRunsOk(w: World, a: Action)
    requires RunsOk(w)
    ensures RunsOk(Apply(w, a))
  {
    hide Decide, ResolveRows, ServeRow;
    match a
    case Moves(t, move) =>
      if t in w.runs {
        MoveRows(w, t, w.runs[t], move);
        MoveRun(w, t, w.runs[t], move);
        var effect := Decide(w, t, w.runs[t], move);
        forall x | x in w.runs && x != t ensures RunOk(effect.rows, x, w.runs[x], w.now) {
          OthersKept(w.rows, effect.rows, Some(t), w.now, x, w.runs[x]);
        }
      }
    case Resolve(i, decision) => ResolveSound(w, i, decision);
    case _ =>
  }

  lemma {:induction false} RunRunsOk(w: World, actions: seq<Action>)
    requires RunsOk(w)
    ensures RunsOk(Run(w, actions))
    decreases |actions|
  {
    if actions != [] {
      StepRunsOk(w, actions[0]);
      RunRunsOk(Apply(w, actions[0]), actions[1..]);
    }
  }
}
