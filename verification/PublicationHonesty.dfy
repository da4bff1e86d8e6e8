/**
  Published attempts and published schedules: the exact steps that take a row
  out of PUBLISHED, and, where there are none, schedules that end published
  only when every target account is.
*/
module PublicationHonesty {
  import opened Basics
  import opened PublicationRows
  import opened PublicationPrepare
  import opened PublicationExecute
  import opened PreparePromises
  import opened ScheduleRows
  import opened PublicationWorld
  import opened PublicationSafety
  import opened ScheduleSafety
  import opened PublicationExclusivity

  // ----- Published stays published ------------------------------------------------------------------

  predicate PublishedKept(before: Table, after: Table) {
    && |before| <= |after|
    && forall i {:trigger after[i]} :: 0 <= i < |before| && before[i].status == Published ==>
         after[i].status == Published && after[i].account == before[i].account
  }

  lemma PrepareKeepsPublished(w: World, t: Uuid, e: Execution, setup: Setup, found: seq<Account>, reachable: bool)
    requires TableOk(w.rows)
    ensures PublishedKept(w.rows, DecidePrepare(w, t, e, setup, found, reachable).rows)
  {
    if Fetched(e.requested, found) && reachable {
      var p := Prepare(w.rows, setup, e.requested, found, e.origin.Job?, t, w.now);
      match p.outcome
      case Thrown(_) =>
      case UncertainAccount(_) => UncertainExactlyWhen(w.rows, setup, e.requested, found, e.origin.Job?, t, w.now);
      case Targets(_) => TargetsCoverSelection(w.rows, setup, e.requested, found, e.origin.Job?, t, w.now);
    }
  }

  /**
    The step is a write by id, to row `i`, of another status than PUBLISHED:
    the clean-up or the refusal of an attempt, or, where no index forbids it,
    its container or its uncertainty.
  */
  predicate Overwrites(w: World, a: Action, i: nat)
    requires i < |w.rows|
  {
    a.Moves? && a.token in w.runs &&
    var e := w.runs[a.token];
    match a.move
    case CleanUp(saved) =>
      saved && e.phase.CleaningUp? && InBounds(w.rows, e) && Closes(e.targets, |e.targets|, i)
    case SaveContainer(_, saved, _) =>
      && saved && e.phase.Calling? && AtTarget(w.rows, e) && Current(e).attempt == i
      && Current(e).account.platform.InstagramBusiness? && !OtherActive(w.rows, i)
    case Save(saved) =>
      && saved && AtTarget(w.rows, e) && Current(e).attempt == i
      && (e.phase.Erring? || (e.phase in {Doubting, TimingOut} && !OtherActive(w.rows, i)))
    case _ => false
  }

  lemma ReplaceCommits(rows: Table, i: nat, row: Attempt)
    requires Unique(rows) && i < |rows| && rows[i].status == Published && row.account == rows[i].account
    requires row.status in ACTIVE || row.status == Failed
    ensures Unique(rows[i := row]) <==> row.status == Failed || !OtherActive(rows, i)
  {
    var after := rows[i := row];
    if row.status in ACTIVE && OtherActive(rows, i) {
      var k :| 0 <= k < |rows| && k != i && rows[k].account == rows[i].account && rows[k].status in ACTIVE;
      var low, high := if i < k then i else k, if i < k then k else i;
      assert after[low].account == after[high].account;
    }
  }

  /** The row stays published exactly when the step does not overwrite it. */
  predicate LostExactly(w: World, a: Action, i: nat, after: Table)
    requires i < |w.rows| && i < |after|
  {
    after[i].status != Published <==> Overwrites(w, a, i)
  }

  lemma CleanUpLoses(w: World, t: Uuid, saved: bool, i: nat)
    requires RunsOk(w) && t in w.runs && i < |w.rows| && w.rows[i].status == Published
    ensures LostExactly(w, Moves(t, CleanUp(saved)), i, Decide(w, t, w.runs[t], CleanUp(saved)).rows)
  {
    var e := w.runs[t];
    assert RunOk(w.rows, t, e, w.now);
    CloseReservedMeans(w.rows, e.targets, |e.targets|);
  }

  lemma ContainerLoses(w: World, t: Uuid, container: Uuid, saved: bool, timesOut: bool, i: nat)
    requires RunsOk(w) && t in w.runs && i < |w.rows| && w.rows[i].status == Published
    ensures var move := SaveContainer(container, saved, timesOut);
      LostExactly(w, Moves(t, move), i, Decide(w, t, w.runs[t], move).rows)
  {
    var e := w.runs[t];
    if e.phase.Calling? && AtTarget(w.rows, e) && Current(e).attempt == i {
      ReplaceCommits(w.rows, i, WithContainer(w.rows[i], container, w.now));
    }
  }

  lemma RecordLoses(w: World, e: Execution, row: Attempt, saved: bool, otherwise: Execution, i: nat)
    requires Unique(w.rows) && i < |w.rows| && w.rows[i].status == Published && AtTarget(w.rows, e)
    requires row.status in {Failed, Uncertain} && row.account == w.rows[Current(e).attempt].account
    ensures var after := DecideRecord(w, e, row, saved, otherwise).rows;
      && |after| == |w.rows|
      && (after[i].status != Published <==>
            saved && Current(e).attempt == i && (row.status == Failed || !OtherActive(w.rows, i)))
  {
    if Current(e).attempt == i {
      ReplaceCommits(w.rows, i, row);
    }
  }

  lemma SaveLoses(w: World, t: Uuid, saved: bool, i: nat)
    requires RunsOk(w) && t in w.runs && i < |w.rows| && w.rows[i].status == Published
    ensures LostExactly(w, Moves(t, Save(saved)), i, Decide(w, t, w.runs[t], Save(saved)).rows)
  {
    var e := w.runs[t];
    if AtTarget(w.rows, e) {
      match e.phase
      case Confirming =>
      case Doubting =>
        RecordLoses(w, e, AsUncertain(w.rows[Current(e).attempt], PersistenceFailed), saved,
                    e.(results := e.results + [Uncertain], phase := Publishing), i);
      case TimingOut => RecordLoses(w, e, AsUncertain(w.rows[Current(e).attempt], RemoteTimeout), saved, Throws(e), i);
      case Erring => RecordLoses(w, e, AsFailed(w.rows[Current(e).attempt], RemoteError), saved, Throws(e), i);
      case _ =>
    }
  }

  lemma MoveLoses(w: World, t: Uuid, move: Move, i: nat)
    requires RunsOk(w) && t in w.runs && i < |w.rows| && w.rows[i].status == Published
    ensures var after := Decide(w, t, w.runs[t], move).rows;
      && |w.rows| <= |after| && after[i].account == w.rows[i].account
      && LostExactly(w, Moves(t, move), i, after)
  {
    var e := w.runs[t];
    assert RunOk(w.rows, t, e, w.now);
    MoveRows(w, t, e, move);
    match move
    case PrepareAll(setup, found, reachable) =>
      if e.phase.Preparing? { PrepareKeepsPublished(w, t, e, setup, found, reachable); }
    case CleanUp(saved) => CleanUpLoses(w, t, saved, i);
    case SaveContainer(container, saved, timesOut) => ContainerLoses(w, t, container, saved, timesOut, i);
    case Save(saved) => SaveLoses(w, t, saved, i);
    case _ => QuietMove(w, t, e, move);
  }

  /**
    A step takes a row out of PUBLISHED exactly when it is a committed write by id
    of an execution whose row is published already: the status guard those
    updates lack.
  */
  lemma PublishedLostExactlyWhen(w: World, a: Action, i: nat)
    requires RunsOk(w) && i < |w.rows| && w.rows[i].status == Published
    ensures i < |Apply(w, a).rows| && Apply(w, a).rows[i].account == w.rows[i].account
    ensures Apply(w, a).rows[i].status != Published <==> Overwrites(w, a, i)
  {
    match a
    case Moves(t, move) => if t in w.runs { MoveLoses(w, t, move, i); }
    case Resolve(k, decision) => ResolveSound(w, k, decision);
    case _ =>
  }

  /** The step overwrites no published row. */
  predicate Sparing(w: World, a: Action) {
    forall i :: 0 <= i < |w.rows| && w.rows[i].status == Published ==> !Overwrites(w, a, i)
  }

  predicate SparingRun(w: World, actions: seq<Action>)
    decreases |actions|
  {
    actions == [] || (Sparing(w, actions[0]) && SparingRun(Apply(w, actions[0]), actions[1..]))
  }

  /** Every write before its deadline passes the guard: the row it is for is still unfinished. */
  lemma TimelyIsSparing(w: World, a: Action)
    requires RunsOk(w) && Timely(w, a)
    ensures Sparing(w, a)
  {
    if a.Moves? && a.token in w.runs {
      var e := w.runs[a.token];
      assert RunOk(w.rows, a.token, e, w.now);
      forall i | 0 <= i < |w.rows| && w.rows[i].status == Published ensures !Overwrites(w, a, i) {
        if OnTarget(e.phase) && AtTarget(w.rows, e) && (a.move.SaveContainer? || a.move.Save?) {
          CurrentIsLeased(w, a.token, e);
        }
        if a.move.CleanUp? && e.phase.CleaningUp? {
          assert forall k :: 0 <= k < |e.targets| && e.targets[k].kind.Reserved? ==>
            LeaseHeld(w.rows, e.targets[k], w.now);
        }
      }
    }
  }

  lemma StepAppends(w: World, a: Action)
    requires RunsOk(w)
    ensures |w.rows| <= |Apply(w, a).rows|
  {
    match a
    case Moves(t, move) => if t in w.runs { MoveRows(w, t, w.runs[t], move); }
    case _ =>
  }

  lemma StepKeepsPublished(w: World, a: Action)
    requires RunsOk(w) && Sparing(w, a)
    ensures PublishedKept(w.rows, Apply(w, a).rows)
  {
    StepAppends(w, a);
    forall i | 0 <= i < |w.rows| && w.rows[i].status == Published
      ensures Apply(w, a).rows[i].status == Published && Apply(w, a).rows[i].account == w.rows[i].account
    {
      PublishedLostExactlyWhen(w, a, i);
    }
  }

  // ----- Schedules end published only when their accounts are ------------------------------------------

  /** Every listed account has a published attempt. */
  ghost predicate AllDone(rows: Table, ids: seq<Uuid>) {
    forall id :: id in ids ==> Has(rows, id, {Published})
  }

  /** Targets found published are, refused ones were told failed, and a published ending covers the request. */
  ghost predicate TruthOk(rows: Table, e: Execution) {
    && InBounds(rows, e)
    && (forall k :: 0 <= k < |e.targets| && e.targets[k].kind.AlreadyDone? ==>
        rows[e.targets[k].attempt].status == Published)
    && (forall k :: 0 <= k < |e.results| && e.targets[k].kind.Refused? ==> e.results[k] == Failed)
    && (e.phase == Writing(AllPublished) ==> AllDone(rows, e.requested))
    && e.phase != Retrying(Some(AllPublished))
  }

  /** A holder asks only for final statuses, and for the accounts of its schedule. */
  predicate TiedOk(w: World, e: Execution) {
    && AsksFinal(e.phase)
    && (Holding(e) ==> e.origin.schedule in w.schedules && w.schedules[e.origin.schedule].targets == e.requested)
  }

  ghost predicate Honest(w: World) {
    && (forall t :: t in w.runs ==> TruthOk(w.rows, w.runs[t]) && TiedOk(w, w.runs[t]))
    && (forall s :: s in w.schedules && w.schedules[s].status == AllPublished ==>
        AllDone(w.rows, w.schedules[s].targets))
  }

  lemma DoneStays(before: Table, after: Table, ids: seq<Uuid>)
    requires PublishedKept(before, after) && AllDone(before, ids)
    ensures AllDone(after, ids)
  {
    forall id | id in ids ensures Has(after, id, {Published}) {
      var i :| 0 <= i < |before| && before[i].account == id && before[i].status in {Published};
      assert after[i].account == id && after[i].status in {Published};
    }
  }

  lemma TruthStays(before: Table, after: Table, e: Execution)
    requires PublishedKept(before, after) && TruthOk(before, e)
    ensures TruthOk(after, e)
  {
    if e.phase == Writing(AllPublished) {
      DoneStays(before, after, e.requested);
    }
  }

  /** When every result is published, every requested account is. */
  lemma ConcludingCovers(rows: Table, t: Uuid, e: Execution, now: Time)
    requires RunOk(rows, t, e, now) && TruthOk(rows, e) && e.phase.Concluding? && e.results != []
    requires forall s | s in e.results :: s == Published
    ensures AllDone(rows, e.requested)
  {
    forall id | id in e.requested ensures Has(rows, id, {Published}) {
      var k :| 0 <= k < |e.targets| && e.targets[k].account.id == id;
      assert e.results[k] in e.results;
      assert rows[e.targets[k].attempt].status in {Published};
    }
  }

  lemma PrepareTruth(w: World, t: Uuid, e: Execution, setup: Setup, found: seq<Account>, reachable: bool)
    requires TableOk(w.rows) && RunOk(w.rows, t, e, w.now) && e.phase.Preparing? && TruthOk(w.rows, e)
    ensures var effect := DecidePrepare(w, t, e, setup, found, reachable);
      TruthOk(effect.rows, effect.next)
  {
    var effect := DecidePrepare(w, t, e, setup, found, reachable);
    if effect.next.phase.Opening? {
      TargetsCoverSelection(w.rows, setup, e.requested, found, e.origin.Job?, t, w.now);
      assert forall k :: 0 <= k < |effect.next.targets| ==>
        TargetOk(w.rows, effect.rows, effect.next.targets[k], found[k], t, w.now);
    }
  }

  lemma ConcludeTruth(w: World, t: Uuid, e: Execution, retry: bool)
    requires RunOk(w.rows, t, e, w.now) && TruthOk(w.rows, e) && (e.phase.Concluding? || e.phase.Failing?)
    ensures TruthOk(w.rows, DecideConclude(w, e, retry).next)
  {
    if e.phase.Concluding? && e.results != [] && forall s | s in e.results :: s == Published {
      ConcludingCovers(w.rows, t, e, w.now);
    }
  }

  lemma NextTruth(w: World, e: Execution)
    requires TruthOk(w.rows, e) && e.phase.Publishing?
    ensures TruthOk(w.rows, DecideNext(w, e).next)
  {
  }

  lemma WriteTruth(w: World, t: Uuid, e: Execution)
    requires TruthOk(w.rows, e)
    ensures TruthOk(w.rows, DecideWrite(w, t, e).next)
  {
  }

  lemma PhaseTruth(rows: Table, e: Execution, next: Execution)
    requires TruthOk(rows, e) && next == e.(phase := next.phase, requested := next.requested)
    requires !next.phase.Writing? && !next.phase.Retrying?
    ensures TruthOk(rows, next)
  {
  }

  lemma QuietTruth(w: World, t: Uuid, e: Execution, move: Move)
    requires RunOk(w.rows, t, e, w.now) && TruthOk(w.rows, e) && !Touches(move)
    ensures TruthOk(w.rows, Decide(w, t, e, move).next)
  {
    match move
    case AcquireRow => if e.phase.Acquiring? { PhaseTruth(w.rows, e, Decide(w, t, e, move).next); }
    case Open(_) => if e.phase.Opening? { PhaseTruth(w.rows, e, Decide(w, t, e, move).next); }
    case Next => if e.phase.Publishing? { NextTruth(w, e); }
    case Hear(_) => if e.phase.Calling? { PhaseTruth(w.rows, e, Decide(w, t, e, move).next); }
    case Conclude(retry) => if e.phase.Concluding? || e.phase.Failing? { ConcludeTruth(w, t, e, retry); }
    case Write => WriteTruth(w, t, e);
    case Crash => PhaseTruth(w.rows, e, Decide(w, t, e, move).next);
    case _ =>
  }

  /** Telling a result, or renewing the current deadline, keeps the truth about the rows as they are after it. */
  lemma TargetWriteTruth(w: World, t: Uuid, e: Execution, move: Move)
    requires RunOk(w.rows, t, e, w.now) && TruthOk(w.rows, e) && PublishedKept(w.rows, Decide(w, t, e, move).rows)
    requires OnTarget(e.phase) && (move.SaveContainer? || move.Save?)
    ensures var effect := Decide(w, t, e, move);
      TruthOk(effect.rows, effect.next)
  {
    TruthStays(w.rows, Decide(w, t, e, move).rows, e);
  }

  lemma MoveTruth(w: World, t: Uuid, e: Execution, move: Move)
    requires TableOk(w.rows) && RunOk(w.rows, t, e, w.now) && TruthOk(w.rows, e)
    requires PublishedKept(w.rows, Decide(w, t, e, move).rows)
    ensures var effect := Decide(w, t, e, move);
      TruthOk(effect.rows, effect.next)
  {
    match move
    case PrepareAll(setup, found, reachable) =>
      if e.phase.Preparing? { PrepareTruth(w, t, e, setup, found, reachable); }
    case CleanUp(saved) => if e.phase.CleaningUp? { TruthStays(w.rows, DecideCleanUp(w, e, saved).rows, e); }
    case SaveContainer(_, _, _) => if OnTarget(e.phase) { TargetWriteTruth(w, t, e, move); }
    case Save(_) => if OnTarget(e.phase) { TargetWriteTruth(w, t, e, move); }
    case _ =>
      QuietMove(w, t, e, move);
      QuietTruth(w, t, e, move);
  }

  // ----- Schedules, in every run that overwrites no published row ----------------------------------------

  /** Neither a transaction of an execution nor a route changes the accounts of a schedule. */
  lemma TargetsStay(row: Schedule, t: Uuid, tx: ScheduleTx, a: Action, now: Time)
    ensures TransactRow(row, t, tx, now).targets == row.targets
    ensures ServeRow(row, a, now).targets == row.targets
    ensures ServeRow(row, a, now).status == AllPublished ==> row.status == AllPublished
  {
  }

  lemma MoveTied(w: World, t: Uuid, e: Execution, move: Move)
    requires TiedOk(w, e)
    ensures AsksOnlyFinal(e, Decide(w, t, e, move))
    ensures var next := Decide(w, t, e, move).next;
      Holding(next) ==>
        next.origin.schedule in w.schedules && w.schedules[next.origin.schedule].targets == next.requested
  {
    MoveAsksFinal(w, t, e, move);
    if Holding(Decide(w, t, e, move).next) && !Holding(e) {
      ComingToHold(w, t, e, move);
      TargetsStay(w.schedules[e.origin.schedule], t, Decide(w, t, e, move).tx, Tick(0), w.now);
    }
  }

  /** A schedule becomes published only by the final write of an execution that covered it. */
  lemma SettlesCovered(w: World, t: Uuid, e: Execution, move: Move)
    requires TiedOk(w, e) && TruthOk(w.rows, e) && e.origin.Job? && e.origin.schedule in w.schedules
    requires w.schedules[e.origin.schedule].status != AllPublished && RowAfter(w, t, e, move).status == AllPublished
    ensures AllDone(Decide(w, t, e, move).rows, RowAfter(w, t, e, move).targets)
  {
  }

  lemma MoveHonestRow(w: World, t: Uuid, move: Move, s: Uuid)
    requires Honest(w) && t in w.runs && PublishedKept(w.rows, StepMove(w, t, move).rows) && s in w.schedules
    ensures var after := StepMove(w, t, move);
      && after.schedules[s].targets == w.schedules[s].targets
      && (after.schedules[s].status == AllPublished ==> AllDone(after.rows, after.schedules[s].targets))
  {
    var e := w.runs[t];
    var after := StepMove(w, t, move);
    TargetsStay(w.schedules[s], t, Decide(w, t, e, move).tx, Tick(0), w.now);
    if after.schedules[s].status == AllPublished {
      if w.schedules[s].status == AllPublished {
        DoneStays(w.rows, after.rows, w.schedules[s].targets);
      } else {
        SettlesCovered(w, t, e, move);
      }
    }
  }

  lemma MoveHonest(w: World, t: Uuid, move: Move)
    requires RunsOk(w) && Honest(w) && t in w.runs && PublishedKept(w.rows, StepMove(w, t, move).rows)
    ensures Honest(StepMove(w, t, move))
  {
    var e := w.runs[t];
    var after := StepMove(w, t, move);
    MoveTruth(w, t, e, move);
    MoveTied(w, t, e, move);
    forall s | s in w.schedules
      ensures after.schedules[s].targets == w.schedules[s].targets
      ensures after.schedules[s].status == AllPublished ==> AllDone(after.rows, after.schedules[s].targets)
    {
      MoveHonestRow(w, t, move, s);
    }
    forall x | x in w.runs && x != t ensures TruthOk(after.rows, w.runs[x]) && TiedOk(after, w.runs[x]) {
      TruthStays(w.rows, after.rows, w.runs[x]);
    }
  }

  lemma ServeHonest(w: World, s: Uuid, a: Action)
    requires Honest(w)
    ensures Honest(StepServe(w, s, a))
  {
    if s in w.schedules {
      TargetsStay(w.schedules[s], 0, NoTx, a, w.now);
    }
  }

  lemma SameRowsHonest(w: World, after: World)
    requires Honest(w) && after.rows == w.rows && w.schedules.Keys <= after.schedules.Keys
    requires forall s :: s in after.schedules ==>
      if s in w.schedules then after.schedules[s] == w.schedules[s] else after.schedules[s].status == Scheduled
    requires forall t :: t in after.runs ==>
      if t in w.runs then after.runs[t] == w.runs[t] else TruthOk(w.rows, after.runs[t]) && TiedOk(w, after.runs[t])
    ensures Honest(after)
  {
  }

  lemma ResolveHonest(w: World, i: nat, decision: Decision)
    requires RunsOk(w) && Honest(w) && PublishedKept(w.rows, StepResolve(w, i, decision).rows)
    ensures Honest(StepResolve(w, i, decision))
  {
    var after := StepResolve(w, i, decision);
    forall t | t in w.runs ensures TruthOk(after.rows, w.runs[t]) && TiedOk(after, w.runs[t]) {
      TruthStays(w.rows, after.rows, w.runs[t]);
    }
    forall s | s in w.schedules && w.schedules[s].status == AllPublished
      ensures AllDone(after.rows, w.schedules[s].targets)
    {
      DoneStays(w.rows, after.rows, w.schedules[s].targets);
    }
  }

  lemma BeginHonest(w: World, t: Uuid, e: Execution)
    requires Honest(w) && e.targets == [] && e.results == [] && !Holding(e)
    requires e.phase.Preparing? || e.phase.Acquiring?
    ensures Honest(StepBegin(w, t, e))
  {
    SameRowsHonest(w, StepBegin(w, t, e));
  }

  lemma RouteHonest(w: World, a: Action)
    requires Honest(w) && !a.Tick? && !a.Publish? && !a.Deliver? && !a.Moves? && !a.Resolve?
    ensures Honest(Apply(w, a))
  {
    match a
    case CreateSchedule(_, _, _) => SameRowsHonest(w, Apply(w, a));
    case FinishCreate(s) => ServeHonest(w, s, a);
    case RescheduleTo(s, _, _) => ServeHonest(w, s, a);
    case FinishReschedule(s, _) => ServeHonest(w, s, a);
    case CancelSchedule(s) => ServeHonest(w, s, a);
    case SetAsideLate(s) => ServeHonest(w, s, a);
    case PutBackWaiting(s) => ServeHonest(w, s, a);
    case SetAsideOrphan(s) => ServeHonest(w, s, a);
    case ExhaustJob(s, _) => ServeHonest(w, s, a);
    case _ =>
  }

  lemma StepHonest(w: World, a: Action)
    requires RunsOk(w) && Honest(w) && PublishedKept(w.rows, Apply(w, a).rows)
    ensures Honest(Apply(w, a))
  {
    match a
    case Tick(_) => SameRowsHonest(w, Apply(w, a));
    case Publish(t, requested) => BeginHonest(w, t, Execution(Manual, requested, [], [], Preparing));
    case Deliver(t, s, version) => BeginHonest(w, t, Execution(Job(s, version), [], [], [], Acquiring(w.now)));
    case Moves(t, move) => if t in w.runs { MoveHonest(w, t, move); }
    case Resolve(i, decision) => ResolveHonest(w, i, decision);
    case _ => RouteHonest(w, a);
  }

  lemma {:induction false} RunHonest(w: World, actions: seq<Action>)
    requires RunsOk(w) && Honest(w) && SparingRun(w, actions)
    ensures RunsOk(Run(w, actions)) && Honest(Run(w, actions))
    decreases |actions|
  {
    if actions != [] {
      StepKeepsPublished(w, actions[0]);
      StepHonest(w, actions[0]);
      StepRunsOk(w, actions[0]);
      RunHonest(Apply(w, actions[0]), actions[1..]);
    }
  }

  /** With timely executors no published row is ever overwritten. */
  lemma {:induction false} TimelyRunIsSparing(w: World, actions: seq<Action>)
    requires RunsOk(w) && TimelyRun(w, actions)
    ensures SparingRun(w, actions)
    decreases |actions|
  {
    if actions != [] {
      TimelyIsSparing(w, actions[0]);
      StepRunsOk(w, actions[0]);
      TimelyRunIsSparing(Apply(w, actions[0]), actions[1..]);
    }
  }

  /**
    A schedule that ended published has a published attempt for every target
    account, in every run in which no published row is overwritten: with timely
    executors, or with the status guard those updates lack.
  */
  lemma PublishedScheduleIsPublished(actions: seq<Action>, s: Uuid, id: Uuid)
    requires SparingRun(Empty, actions) || TimelyRun(Empty, actions)
    requires var w := Run(Empty, actions);
      s in w.schedules && w.schedules[s].status == AllPublished && id in w.schedules[s].targets
    ensures Has(Run(Empty, actions).rows, id, {Published})
  {
    if TimelyRun(Empty, actions) {
      TimelyRunIsSparing(Empty, actions);
    }
    RunHonest(Empty, actions);
  }

  /**
    When an execution comes to its evaluation it has one result per target, its
    targets cover what was requested, and what was told as published is stored so.
  */
  lemma ConcludedResultsAreStored(actions: seq<Action>, t: Uuid)
    requires SparingRun(Empty, actions) || TimelyRun(Empty, actions)
    requires var w := Run(Empty, actions); t in w.runs && w.runs[t].phase.Concluding?
    ensures var w := Run(Empty, actions);
      var e := w.runs[t];
      && |e.results| == |e.targets| && (e.targets != [] ==> Covers(e.targets, e.requested))
      && forall k :: 0 <= k < |e.results| ==>
           && e.targets[k].attempt < |w.rows| && w.rows[e.targets[k].attempt].account == e.targets[k].account.id
           && e.results[k] in {Published, Failed, Uncertain}
           && (e.results[k] == Published ==> w.rows[e.targets[k].attempt].status == Published)
  {
    if TimelyRun(Empty, actions) {
      TimelyRunIsSparing(Empty, actions);
    }
    RunHonest(Empty, actions);
    var w := Run(Empty, actions);
    assert RunOk(w.rows, t, w.runs[t], w.now) && TruthOk(w.rows, w.runs[t]);
  }
}
