/**
  One live attempt per account: what the executors and administrators must keep
  to, the exact steps that cost it, and which remote publishes start alone.
*/
module PublicationExclusivity {
  import opened Basics
  import opened PublicationRows
  import opened PublicationPrepare
  import opened PublicationExecute
  import opened PreparePromises
  import opened ScheduleRows
  import opened PublicationWorld
  import opened PublicationSafety

  // ----- Assumptions on executors and administrators -------------------------------------------

  /** The execution writes only before the deadline it wrote into the rows. */
  predicate InTime(w: World, e: Execution, move: Move) {
    match move
    case CleanUp(_) =>
      e.phase.CleaningUp? ==>
        forall k :: 0 <= k < |e.targets| && e.targets[k].kind.Reserved? ==> w.now < e.targets[k].kind.deadline
    case SaveContainer(_, _, _) => OnTarget(e.phase) && AtTarget(w.rows, e) ==> w.now < Current(e).kind.deadline
    case Save(_) => OnTarget(e.phase) && AtTarget(w.rows, e) ==> w.now < Current(e).kind.deadline
    case _ => true
  }

  predicate Timely(w: World, a: Action) {
    match a
    case Moves(t, move) => t in w.runs ==> InTime(w, w.runs[t], move)
    case _ => true
  }

  /** No failed attempt is confirmed published while another of the account is unfinished or uncertain. */
  predicate Careful(w: World, a: Action) {
    match a
    case Resolve(i, ConfirmPublished) =>
      i < |w.rows| && !Clashes(w.rows, i) && OtherLive(w.rows, i) ==> Live(w.rows[i].status)
    case _ => true
  }

  predicate Disciplined(w: World, a: Action) {
    Timely(w, a) && Careful(w, a)
  }

  predicate DisciplinedRun(w: World, actions: seq<Action>)
    decreases |actions|
  {
    actions == [] || (Disciplined(w, actions[0]) && DisciplinedRun(Apply(w, actions[0]), actions[1..]))
  }

  lemma {:induction false} DisciplinedSplit(w: World, before: seq<Action>, after: seq<Action>)
    requires DisciplinedRun(w, before) && DisciplinedRun(Run(w, before), after)
    ensures DisciplinedRun(w, before + after)
    decreases |before|
  {
    if before == [] {
      assert before + after == after;
    } else {
      assert (before + after)[1..] == before[1..] + after;
      DisciplinedSplit(Apply(w, before[0]), before[1..], after);
    }
  }

  predicate TimelyRun(w: World, actions: seq<Action>)
    decreases |actions|
  {
    actions == [] || (Timely(w, actions[0]) && TimelyRun(Apply(w, actions[0]), actions[1..]))
  }

  // ----- Exclusivity ------------------------------------------------------------------------------

  lemma LiveIsAlone(rows: Table, i: nat)
    requires Exclusive(rows) && i < |rows| && Live(rows[i].status)
    ensures forall k :: 0 <= k < |rows| && k != i && rows[k].account == rows[i].account ==> !Live(rows[k].status)
    ensures !OtherLive(rows, i)
  {
  }

  /**
    Resolving an attempt keeps exclusivity exactly unless it confirms a settled
    attempt as published while another attempt of the account is live.
  */
  lemma ResolveKeepsExclusive(w: World, i: nat, decision: Decision)
    requires TableOk(w.rows) && Exclusive(w.rows)
    ensures var after := StepResolve(w, i, decision).rows;
      Exclusive(after) <==>
      !(decision.ConfirmPublished? && after != w.rows && !Live(w.rows[i].status) && OtherLive(w.rows, i))
  {
    var after := StepResolve(w, i, decision).rows;
    if after != w.rows {
      UpdateKeepsExclusive(w.rows, i, ResolvedRow(w.rows[i], decision));
      if Live(w.rows[i].status) {
        LiveIsAlone(w.rows, i);
      }
    }
  }

  lemma FailingKeepsExclusive(rows: Table, after: Table)
    requires Exclusive(rows) && |after| == |rows|
    requires forall i :: 0 <= i < |rows| ==> after[i] == rows[i] || after[i] == AsFailed(rows[i], PreparationFailed)
    ensures Exclusive(after)
  {
  }

  /** Another row of the account is unfinished or uncertain. */
  predicate OtherActive(rows: Table, i: nat)
    requires i < |rows|
  {
    exists k :: 0 <= k < |rows| && k != i && rows[k].account == rows[i].account && rows[k].status in ACTIVE
  }

  /** A settled row comes to life beside a live one of its account, and no unique index notices. */
  predicate Brings(rows: Table, i: nat, status: AttemptStatus)
    requires i < |rows|
  {
    && !Live(rows[i].status) && OtherLive(rows, i)
    && (if status == Published then !Clashes(rows, i) else !OtherActive(rows, i))
  }

  /**
    The step is a write by id that brings a settled row back to life beside a live
    one: an executor's container, publish or doubt, or a confirmation.
  */
  predicate Revives(w: World, a: Action) {
    match a
    case Moves(t, SaveContainer(_, saved, _)) =>
      t in w.runs && var e := w.runs[t];
        && saved && e.phase.Calling? && AtTarget(w.rows, e) && Current(e).account.platform.InstagramBusiness?
        && Brings(w.rows, Current(e).attempt, ContainerCreated)
    case Moves(t, Save(saved)) =>
      t in w.runs && var e := w.runs[t];
        && saved && e.phase in {Confirming, Doubting, TimingOut} && AtTarget(w.rows, e)
        && Brings(w.rows, Current(e).attempt, if e.phase.Confirming? then Published else Uncertain)
    case Resolve(i, ConfirmPublished) => Resolvable(w.rows, i, w.now) && Brings(w.rows, i, Published)
    case _ => false
  }

  lemma LiveUpdate(rows: Table, i: nat, row: Attempt)
    requires Unique(rows) && Exclusive(rows) && i < |rows| && row.account == rows[i].account
    requires row.status in {Published, Uncertain, ContainerCreated}
    ensures Unique(rows[i := row]) && !Exclusive(rows[i := row]) <==> Brings(rows, i, row.status)
  {
    UpdateKeepsExclusive(rows, i, row);
    var after := rows[i := row];
    if row.status == Published && Clashes(rows, i) {
      var k :| 0 <= k < |rows| && k != i && rows[k].account == rows[i].account && rows[k].status == Published;
      var low, high := if i < k then i else k, if i < k then k else i;
      assert after[low].account == after[high].account;
    } else if row.status != Published && OtherActive(rows, i) {
      var k :| 0 <= k < |rows| && k != i && rows[k].account == rows[i].account && rows[k].status in ACTIVE;
      var low, high := if i < k then i else k, if i < k then k else i;
      assert after[low].account == after[high].account;
    }
    if Live(rows[i].status) {
      LiveIsAlone(rows, i);
    }
  }

  /** Exclusivity survives the rows written exactly unless the action revives. */
  predicate LosesExactly(w: World, a: Action, after: Table) {
    Exclusive(after) <==> !Revives(w, a)
  }

  lemma ContainerRevives(w: World, t: Uuid, container: Uuid, saved: bool, timesOut: bool)
    requires RunsOk(w) && Exclusive(w.rows) && t in w.runs
    ensures var move := SaveContainer(container, saved, timesOut);
      LosesExactly(w, Moves(t, move), Decide(w, t, w.runs[t], move).rows)
  {
    var e := w.runs[t];
    if e.phase.Calling? && AtTarget(w.rows, e) {
      LiveUpdate(w.rows, Current(e).attempt, WithContainer(w.rows[Current(e).attempt], container, w.now));
    }
  }

  lemma RecordRevives(w: World, e: Execution, row: Attempt, saved: bool, otherwise: Execution)
    requires Unique(w.rows) && Exclusive(w.rows) && AtTarget(w.rows, e)
    requires row.account == w.rows[Current(e).attempt].account && row.status in {Published, Uncertain, Failed}
    ensures Exclusive(DecideRecord(w, e, row, saved, otherwise).rows)
       <==> !(saved && row.status != Failed && Brings(w.rows, Current(e).attempt, row.status))
  {
    var i := Current(e).attempt;
    if row.status == Failed {
      UpdateKeepsExclusive(w.rows, i, row);
    } else {
      LiveUpdate(w.rows, i, row);
    }
  }

  lemma SaveRevives(w: World, t: Uuid, saved: bool)
    requires RunsOk(w) && Exclusive(w.rows) && t in w.runs
    ensures LosesExactly(w, Moves(t, Save(saved)), Decide(w, t, w.runs[t], Save(saved)).rows)
  {
    hide Exclusive, Brings;
    var e := w.runs[t];
    if AtTarget(w.rows, e) {
      var row := w.rows[Current(e).attempt];
      match e.phase
      case Confirming => RecordRevives(w, e, AsPublished(row), saved, e.(phase := Doubting));
      case Doubting =>
        RecordRevives(w, e, AsUncertain(row, PersistenceFailed), saved,
                      e.(results := e.results + [Uncertain], phase := Publishing));
      case TimingOut => RecordRevives(w, e, AsUncertain(row, RemoteTimeout), saved, Throws(e));
      case Erring => RecordRevives(w, e, AsFailed(row, RemoteError), saved, Throws(e));
      case _ =>
    }
  }

  lemma PrepareRevives(w: World, t: Uuid, setup: Setup, found: seq<Account>, reachable: bool)
    requires RunsOk(w) && Exclusive(w.rows) && t in w.runs
    ensures Exclusive(Decide(w, t, w.runs[t], PrepareAll(setup, found, reachable)).rows)
  {
    var e := w.runs[t];
    if e.phase.Preparing? && Fetched(e.requested, found) {
      PrepareKeepsTable(w.rows, setup, e.requested, found, e.origin.Job?, t, w.now);
      ThrowsExactlyWhen(w.rows, setup, e.requested, found, e.origin.Job?, t, w.now);
    }
  }

  lemma CleanUpRevives(w: World, t: Uuid, saved: bool)
    requires RunsOk(w) && Exclusive(w.rows) && t in w.runs
    ensures Exclusive(Decide(w, t, w.runs[t], CleanUp(saved)).rows)
  {
    var e := w.runs[t];
    assert RunOk(w.rows, t, e, w.now);
    CloseReservedMeans(w.rows, e.targets, |e.targets|);
    FailingKeepsExclusive(w.rows, CloseReserved(w.rows, e.targets, |e.targets|));
  }

  lemma MoveRevives(w: World, t: Uuid, move: Move)
    requires RunsOk(w) && Exclusive(w.rows) && t in w.runs
    ensures LosesExactly(w, Moves(t, move), Decide(w, t, w.runs[t], move).rows)
  {
    hide Exclusive, RunsOk, Brings;
    match move
    case PrepareAll(setup, found, reachable) => PrepareRevives(w, t, setup, found, reachable);
    case CleanUp(saved) => CleanUpRevives(w, t, saved);
    case SaveContainer(container, saved, timesOut) => ContainerRevives(w, t, container, saved, timesOut);
    case Save(saved) => SaveRevives(w, t, saved);
    case _ => QuietMove(w, t, w.runs[t], move);
  }

  /**
    A step costs exclusivity exactly when it writes life into a settled row beside
    a live one of the account: the guard no write by id carries.
  */
  lemma ExclusiveLostExactlyWhen(w: World, a: Action)
    requires RunsOk(w) && Exclusive(w.rows)
    ensures Exclusive(Apply(w, a).rows) <==> !Revives(w, a)
  {
    match a
    case Moves(t, move) => if t in w.runs { MoveRevives(w, t, move); }
    case Resolve(i, decision) =>
      ResolveKeepsExclusive(w, i, decision);
      if Resolvable(w.rows, i, w.now) { LiveUpdate(w.rows, i, AsPublished(w.rows[i])); }
    case _ =>
  }

  /** In time, the row an execution writes to is one of its live reservations. */
  lemma CurrentIsLeased(w: World, t: Uuid, e: Execution)
    requires RunOk(w.rows, t, e, w.now) && OnTarget(e.phase) && w.now < Current(e).kind.deadline
    ensures w.rows[Current(e).attempt].status in {Processing, ContainerCreated}
  {
    assert LeaseHeld(w.rows, Current(e), w.now);
  }

  lemma DisciplinedRevivesNothing(w: World, a: Action)
    requires RunsOk(w) && Disciplined(w, a)
    ensures !Revives(w, a)
  {
    if Revives(w, a) && a.Moves? {
      assert RunOk(w.rows, a.token, w.runs[a.token], w.now);
      CurrentIsLeased(w, a.token, w.runs[a.token]);
    }
  }

  predicate RevivingRun(w: World, actions: seq<Action>)
    decreases |actions|
  {
    actions != [] && (Revives(w, actions[0]) || RevivingRun(Apply(w, actions[0]), actions[1..]))
  }

  lemma {:induction false} DisciplinedRunRevivesNothing(w: World, actions: seq<Action>)
    requires RunsOk(w) && DisciplinedRun(w, actions)
    ensures !RevivingRun(w, actions)
    decreases |actions|
  {
    if actions != [] {
      DisciplinedRevivesNothing(w, actions[0]);
      StepRunsOk(w, actions[0]);
      DisciplinedRunRevivesNothing(Apply(w, actions[0]), actions[1..]);
    }
  }

  lemma {:induction false} RunKeepsExclusive(w: World, actions: seq<Action>)
    requires RunsOk(w) && Exclusive(w.rows) && !RevivingRun(w, actions)
    ensures Exclusive(Run(w, actions).rows)
    decreases |actions|
  {
    if actions != [] {
      ExclusiveLostExactlyWhen(w, actions[0]);
      StepRunsOk(w, actions[0]);
      RunKeepsExclusive(Apply(w, actions[0]), actions[1..]);
    }
  }

  /**
    Each account has at most one attempt unfinished, uncertain or published, over
    manual publishes, scheduled retries, Instagram resumptions and every
    interleaving of them that revives no settled row, as none does with timely
    executors and careful confirmations.
  */
  lemma OneLiveAttempt(actions: seq<Action>, i: nat, k: nat)
    requires DisciplinedRun(Empty, actions) || !RevivingRun(Empty, actions)
    requires var rows := Run(Empty, actions).rows;
      i < |rows| && k < |rows| && rows[i].account == rows[k].account && Live(rows[i].status) && Live(rows[k].status)
    ensures i == k
  {
    if DisciplinedRun(Empty, actions) {
      DisciplinedRunRevivesNothing(Empty, actions);
    }
    RunKeepsExclusive(Empty, actions);
    LiveIsAlone(Run(Empty, actions).rows, i);
  }

  /** The next move of the execution is a remote publish. */
  predicate Starts(w: World, t: Uuid) {
    && t in w.runs && w.runs[t].phase.Publishing?
    && AtTarget(w.rows, w.runs[t]) && Decide(w, t, w.runs[t], Next).next.phase.Calling?
  }

  /** The row the execution reserved for the publish it starts. */
  function OwnRow(w: World, t: Uuid): nat
    requires Starts(w, t)
  {
    Current(w.runs[t]).attempt
  }

  /**
    A remote publish that starts while the row reserved for it is still live, as
    it is before its deadline, starts for an account with no other live attempt.
  */
  lemma PublishStartsAlone(actions: seq<Action>, t: Uuid)
    requires DisciplinedRun(Empty, actions) || !RevivingRun(Empty, actions)
    requires Starts(Run(Empty, actions), t)
    ensures var w := Run(Empty, actions);
      && (Live(w.rows[OwnRow(w, t)].status) ==> !OtherLive(w.rows, OwnRow(w, t)))
      && (w.now < Current(w.runs[t]).kind.deadline ==> Live(w.rows[OwnRow(w, t)].status))
  {
    if DisciplinedRun(Empty, actions) {
      DisciplinedRunRevivesNothing(Empty, actions);
    }
    RunKeepsExclusive(Empty, actions);
    RunRunsOk(Empty, actions);
    var w := Run(Empty, actions);
    assert LeaseHeld(w.rows, Current(w.runs[t]), w.now);
    if Live(w.rows[OwnRow(w, t)].status) {
      LiveIsAlone(w.rows, OwnRow(w, t));
    }
  }

  const READY := Setup(true, true, true, true, true)

  /** Another execution begins and prepares the account of the publish that is about to start. */
  function Overtake(w: World, t: Uuid, y: Uuid): seq<Action>
    requires Starts(w, t)
  {
    var account := Current(w.runs[t]).account.(access := Granted);
    [Publish(y, [account.id]), Moves(y, PrepareAll(READY, [account], true))]
  }

  /** Preparing an account without live attempts reserves a new one. */
  lemma FreeAccountReserves(rows: Table, account: Account, t: Uuid, now: Time)
    requires account.access.Granted?
    requires forall k :: 0 <= k < |rows| && rows[k].account == account.id ==> !Live(rows[k].status)
    ensures var after := Prepare(rows, READY, [account.id], [account], false, t, now).rows;
      && |after| == |rows| + 1 && after[..|rows|] == rows
      && after[|rows|].account == account.id && after[|rows|].status == Processing
  {
    LatestMeans(rows, |rows|, account.id, {Published});
    LatestMeans(rows, |rows|, account.id, ACTIVE);
    var plan := Judge(rows, account, false, now).plan;
    assert plan.Create?;
    var vs := Verdicts(rows, [account], false, now);
    assert vs == [Planned(plan)];
    assert FirstError(vs, 0).None? && FirstExpired(vs, 0).None?;
    assert Plans(vs, 0, |rows|) == [] && Plans(vs, 1, |rows|) == [plan];
    assert CarryAll(rows, [plan], 0, t, now).0 == rows;
    assert CarryAll(rows, [plan], 1, t, now).0 == Carry(rows, plan, t, now);
  }

  /** The execution is as it was and about to start, and another attempt of the account is live. */
  predicate StartsBeside(w: World, t: Uuid, e: Execution) {
    Starts(w, t) && w.runs[t] == e && OtherLive(w.rows, OwnRow(w, t))
  }

  lemma OvertakingIsBeside(w: World, t: Uuid, y: Uuid)
    requires Starts(w, t) && y !in w.runs && RunOk(w.rows, t, w.runs[t], w.now)
    requires !Live(w.rows[OwnRow(w, t)].status) && !OtherLive(w.rows, OwnRow(w, t))
    ensures DisciplinedRun(w, Overtake(w, t, y))
    ensures StartsBeside(Run(w, Overtake(w, t, y)), t, w.runs[t])
  {
    var more := Overtake(w, t, y);
    var account := Current(w.runs[t]).account.(access := Granted);
    var begun := Apply(w, more[0]);
    var late := Apply(begun, more[1]);
    assert more[1..] == [more[1]] && more[1..][1..] == [];
    assert DisciplinedRun(late, []) && Run(late, []) == late;
    assert DisciplinedRun(begun, more[1..]) && Run(begun, more[1..]) == late;
    FreeAccountReserves(w.rows, account, y, w.now);
    assert late.rows == Prepare(w.rows, READY, [account.id], [account], false, y, w.now).rows;
    assert late.runs[t] == w.runs[t];
    var i := OwnRow(w, t);
    assert late.rows[i] == late.rows[..|w.rows|][i];
    assert late.rows[|w.rows|].account == late.rows[i].account && Live(late.rows[|w.rows|].status);
  }

  /**
    Once the row reserved for it has been settled, nothing keeps the publish from
    starting beside another attempt: one is live already, or a disciplined
    overtaking brings one to life and leaves the execution ready to start.
  */
  lemma SettledStartMayOverlap(actions: seq<Action>, t: Uuid, y: Uuid)
    requires DisciplinedRun(Empty, actions) && Starts(Run(Empty, actions), t) && y !in Run(Empty, actions).runs
    requires var w := Run(Empty, actions); !Live(w.rows[OwnRow(w, t)].status)
    ensures var w := Run(Empty, actions);
      var more := if OtherLive(w.rows, OwnRow(w, t)) then [] else Overtake(w, t, y);
      DisciplinedRun(Empty, actions + more) && StartsBeside(Run(Empty, actions + more), t, w.runs[t])
  {
    var w := Run(Empty, actions);
    RunRunsOk(Empty, actions);
    if OtherLive(w.rows, OwnRow(w, t)) {
      assert actions + [] == actions;
    } else {
      OvertakingIsBeside(w, t, y);
      DisciplinedSplit(Empty, actions, Overtake(w, t, y));
      RunSplit(Empty, actions, Overtake(w, t, y));
    }
  }
}
