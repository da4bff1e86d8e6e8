/**
  What holds of publishing in every run whatever: attempts numbered without
  gaps, recorded publishes that stay, results told as stored, and moves that
  tell exactly what the code tells.
*/
module PublicationTheorems {
  import opened Basics
  import opened PublicationRows
  import opened PublicationPrepare
  import opened PublicationExecute
  import opened PreparePromises
  import opened ScheduleRows
  import opened PublicationWorld
  import opened PublicationSafety

  // ----- Attempt rows, in every run -----------------------------------------------------------

  /** In every run each account's attempts are numbered exactly 1..n. */
  lemma AttemptsAreNumbered(actions: seq<Action>, account: Uuid, m: nat)
    ensures var rows := Run(Empty, actions).rows;
      && (1 <= m <= Count(rows, account) <==>
            (exists i :: 0 <= i < |rows| && rows[i].account == account && rows[i].number == m))
      && (forall i, k :: 0 <= i < k < |rows| && rows[i].account == account && rows[k].account == account ==>
            rows[i].number < rows[k].number)
  {
    RunRunsOk(Empty, actions);
    NumbersAreExact(Run(Empty, actions).rows, account, m);
  }

  /** What a preparation hands over is what an execution asks for. */
  lemma PreparedIsExecutable(rows: Table, setup: Setup, requested: seq<Uuid>, found: seq<Account>, allowSkipping: bool,
                             t: Uuid, now: Time)
    requires TableOk(rows) && Fetched(requested, found)
    ensures var p := Prepare(rows, setup, requested, found, allowSkipping, t, now);
      p.outcome.Targets? ==> Executable(p.rows, p.outcome.targets)
  {
    PrepareKeepsTable(rows, setup, requested, found, allowSkipping, t, now);
    TargetsCoverSelection(rows, setup, requested, found, allowSkipping, t, now);
    var p := Prepare(rows, setup, requested, found, allowSkipping, t, now);
    if p.outcome.Targets? {
      var targets := p.outcome.targets;
      assert forall k :: 0 <= k < |targets| ==> TargetOk(rows, p.rows, targets[k], found[k], t, now);
    }
  }

  /** The first `k + 1` targets and results are as they were. */
  predicate TellsOn(e: Execution, next: Execution, k: nat)
    requires k < |e.results| && k < |e.targets|
  {
    && k < |next.results| && next.results[k] == e.results[k]
    && k < |next.targets| && next.targets[k] == e.targets[k]
  }

  lemma SaveTellsOn(w: World, e: Execution, saved: bool, k: nat)
    requires AtTarget(w.rows, e) && k < |e.results|
    ensures TellsOn(e, DecideSave(w, e, saved).next, k)
  {
  }

  /** What an execution has told it never takes back. */
  lemma ResultsStay(w: World, t: Uuid, e: Execution, move: Move, k: nat)
    requires RunOk(w.rows, t, e, w.now) && k < |e.results|
    ensures TellsOn(e, Decide(w, t, e, move).next, k)
  {
    match move
    case PrepareAll(_, _, _) =>
    case Save(saved) => if AtTarget(w.rows, e) { SaveTellsOn(w, e, saved, k); }
    case _ =>
  }

  /** The execution has told target `k` as published by itself. */
  predicate ToldPublished(w: World, t: Uuid, k: nat) {
    && t in w.runs && k < |w.runs[t].results| && k < |w.runs[t].targets|
    && w.runs[t].results[k] == Published && w.runs[t].targets[k].kind.Reserved?
  }

  lemma StepTellsOn(w: World, a: Action, t: Uuid, k: nat)
    requires RunsOk(w) && ToldPublished(w, t, k)
    ensures ToldPublished(Apply(w, a), t, k) && Apply(w, a).runs[t].targets[k] == w.runs[t].targets[k]
  {
    hide Decide, ResolveRows, ServeRow;
    match a
    case Moves(x, move) => ResultsStay(w, t, w.runs[t], move, k);
    case _ =>
  }

  /** A publish an execution recorded is never overwritten, by any later step of any run. */
  lemma {:induction false} RecordedPublishStays(w: World, actions: seq<Action>, t: Uuid, k: nat)
    requires RunsOk(w) && ToldPublished(w, t, k)
    ensures var late := Run(w, actions);
      && ToldPublished(late, t, k)
      && late.runs[t].targets[k].attempt == w.runs[t].targets[k].attempt < |late.rows|
      && late.rows[w.runs[t].targets[k].attempt].status == Published
    decreases |actions|
  {
    if actions == [] {
      assert RunOk(w.rows, t, w.runs[t], w.now);
    } else {
      StepTellsOn(w, actions[0], t, k);
      StepRunsOk(w, actions[0]);
      RecordedPublishStays(Apply(w, actions[0]), actions[1..], t, k);
    }
  }

  // ----- Results and their evaluation -----------------------------------------------------------------

  /** The move tells a result for a reserved target. */
  predicate Tells(w: World, t: Uuid, e: Execution, move: Move) {
    && |e.results| < |e.targets| && Current(e).kind.Reserved?
    && |Decide(w, t, e, move).next.results| > |e.results|
  }

  /**
    The result told for a reserved target is the status just written to its row,
    except that a publish whose confirming and doubting writes both failed is told
    as uncertain over a row left as it was.
  */
  lemma ToldAsStored(w: World, t: Uuid, e: Execution, move: Move)
    requires RunOk(w.rows, t, e, w.now) && Tells(w, t, e, move)
    ensures var effect := Decide(w, t, e, move);
      var i := Current(e).attempt;
      && move.Save? && i < |effect.rows| == |w.rows|
      && (effect.rows != w.rows ==>
            effect.rows == w.rows[i := w.rows[i].(status := effect.rows[i].status, reason := effect.rows[i].reason,
                                                  lease := None)])
      && effect.next.results == e.results + [effect.next.results[|e.results|]]
      && (if e.phase.Doubting? && !Commits(w.rows, i, AsUncertain(w.rows[i], PersistenceFailed), move.saved)
          then effect.next.results[|e.results|] == Uncertain && effect.rows == w.rows
          else effect.next.results[|e.results|] == effect.rows[i].status)
      && (effect.next.results[|e.results|] == Published <==> e.phase.Confirming?)
  {
  }

  /** What the evaluation of the results means; every other outcome asks for a retry or a review. */
  lemma EvaluationMeans(results: seq<AttemptStatus>, retry: bool)
    requires forall s :: s in results ==> s in {Published, Failed, Uncertain}
    ensures var verdict := Evaluate(results, retry);
      && (verdict == Some(AllPublished) <==> results != [] && Failed !in results && Uncertain !in results)
      && (verdict == Some(RequiresReconciliation) <==> Uncertain in results)
      && (verdict == Some(PartiallyPublished) <==>
            !retry && Published in results && Failed in results && Uncertain !in results)
      && (verdict == Some(DeadLetter) <==> !retry && Published !in results && Uncertain !in results)
      && (verdict == None <==> retry && Uncertain !in results && (results == [] || Failed in results))
  {
    if results != [] {
      assert results[0] in results;
    }
  }

  // ----- What each write leaves in its row ------------------------------------------------------------

  /** A reported container is recorded, with a new lease, exactly for an Instagram account when the write commits. */
  lemma ContainerMeans(w: World, t: Uuid, container: Uuid, saved: bool, timesOut: bool)
    requires t in w.runs && w.runs[t].phase.Calling? && AtTarget(w.rows, w.runs[t]) && Unique(w.rows)
    requires w.rows[Current(w.runs[t]).attempt].status in UNFINISHED
    ensures var after := Apply(w, Moves(t, SaveContainer(container, saved, timesOut)));
      var i := Current(w.runs[t]).attempt;
      if Current(w.runs[t]).account.platform == InstagramBusiness && saved then
        && after.rows == w.rows[i := w.rows[i].(status := ContainerCreated, container := Some(container),
                                                lease := Some(w.now + 180000))]
        && after.runs[t].phase == Calling
      else
        && after.rows == w.rows
        && after.runs[t].phase ==
             if Current(w.runs[t]).account.platform == FacebookPage then Calling
             else if timesOut then TimingOut else Erring
  {
    var i := Current(w.runs[t]).attempt;
    OpenCommits(w.rows, i, WithContainer(w.rows[i], container, w.now));
  }

  /** Opening goes on to publish or to clean up; cleaning up closes the reserved rows, or none, and throws. */
  lemma OpeningMeans(w: World, t: Uuid, ready: bool, saved: bool)
    requires t in w.runs && InBounds(w.rows, w.runs[t])
    ensures w.runs[t].phase.Opening? ==>
      Apply(w, Moves(t, Open(ready)))
        == w.(runs := w.runs[t := w.runs[t].(phase := if ready then Publishing else CleaningUp)])
    ensures w.runs[t].phase.CleaningUp? ==>
      var e := w.runs[t];
      var after := Apply(w, Moves(t, CleanUp(saved)));
      && after.runs[t].phase == (if e.origin.Job? then Failing else Done) && |after.rows| == |w.rows|
      && forall i :: 0 <= i < |w.rows| ==>
           after.rows[i] ==
             if saved && Closes(e.targets, |e.targets|, i) then
               w.rows[i].(status := Failed, reason := PreparationFailed, lease := None)
             else w.rows[i]
  {
    CloseReservedMeans(w.rows, w.runs[t].targets, |w.runs[t].targets|);
  }

  /**
    The next target: one found published or refused is told so, a reserved one is
    published, and after the last the execution concludes.
  */
  lemma NextMeans(w: World, t: Uuid)
    requires t in w.runs && w.runs[t].phase.Publishing? && InBounds(w.rows, w.runs[t])
    ensures var e := w.runs[t];
      Apply(w, Moves(t, Next)) == w.(runs := w.runs[t :=
        if |e.results| == |e.targets| then e.(phase := Concluding)
        else if Current(e).kind.AlreadyDone? then e.(results := e.results + [Published])
        else if Current(e).kind.Refused? then e.(results := e.results + [Failed])
        else e.(phase := Calling)])
  {
  }

  /** The administrator's decision, as it is to be found in the row. */
  predicate DecidedAs(before: Attempt, decision: Decision, after: Attempt) {
    match decision
    case ConfirmPublished => after == before.(status := Published, lease := None)
    case ConfirmFailed => after == before.(status := Failed, reason := ManuallyFailed, lease := None)
    case Dismiss => after == before.(lease := None)
  }

  /** A resolution is refused for an attempt that is missing, published or still leased, and beside a published one. */
  predicate RefusesResolution(w: World, i: nat, decision: Decision) {
    || i >= |w.rows| || w.rows[i].status == Published
    || (w.rows[i].status in UNFINISHED && w.rows[i].lease.Some? && w.rows[i].lease.value > w.now)
    || (decision.ConfirmPublished? && Clashes(w.rows, i))
  }

  /** A resolution writes the decision into its row, and nothing else, exactly unless it is refused. */
  lemma ResolveMeans(w: World, i: nat, decision: Decision)
    requires Unique(w.rows)
    ensures var after := Apply(w, Resolve(i, decision));
      && after == w.(rows := after.rows)
      && (if RefusesResolution(w, i, decision) then after == w
          else i < |w.rows| && |after.rows| == |w.rows| && DecidedAs(w.rows[i], decision, after.rows[i])
               && forall k :: 0 <= k < |w.rows| && k != i ==> after.rows[k] == w.rows[k])
  {
    if i < |w.rows| {
      ResolvingCommits(w.rows, i, decision);
    }
  }

  // ----- The moves of the world and the code ------------------------------------------------------------

  /** The moves one target takes when nothing comes between them. */
  function PublishMoves(w: World, t: Uuid, script: Script): World
    requires t in w.runs
  {
    AnswerMoves(
      if script.container.Some? then
        StepMove(w, t, SaveContainer(script.container.value, script.containerSaved, script.saveTimesOut))
      else w,
      t, script)
  }

  /** After the container, if any: still calling exactly when recording it was fine. */
  lemma ContainerMove(w: World, t: Uuid, container: Uuid, saved: bool, timesOut: bool)
    requires t in w.runs && w.runs[t].phase.Calling? && AtTarget(w.rows, w.runs[t]) && Unique(w.rows)
    requires w.rows[Current(w.runs[t]).attempt].status == Processing
    ensures var after := StepMove(w, t, SaveContainer(container, saved, timesOut));
      var e, f, i := w.runs[t], after.runs[t], Current(w.runs[t]).attempt;
      && f.origin == e.origin && f.results == e.results && AtTarget(after.rows, f)
      && Current(f).attempt == i && Current(f).account == Current(e).account
      && Unique(after.rows) && |after.rows| == |w.rows|
      && SameAttempt(w.rows[i], after.rows[i]) && after.rows[i].status in {Processing, ContainerCreated}
      && (forall k :: 0 <= k < |w.rows| && k != i ==> after.rows[k] == w.rows[k])
      && f.phase == (if Current(e).account.platform == FacebookPage || saved then Calling
                     else if timesOut then TimingOut else Erring)
  {
    var i := Current(w.runs[t]).attempt;
    OpenCommits(w.rows, i, WithContainer(w.rows[i], container, w.now));
  }

  /** What is told once the answer is in. */
  lemma SaveMoves(w: World, t: Uuid, first: bool, second: bool)
    requires t in w.runs && w.runs[t].phase in {Confirming, TimingOut, Erring}
    requires AtTarget(w.rows, w.runs[t]) && Unique(w.rows) && w.rows[Current(w.runs[t]).attempt].status in ACTIVE
    ensures var e := w.runs[t];
      var saved := StepMove(w, t, Save(first));
      var after := if saved.runs[t].phase.Doubting? then StepMove(saved, t, Save(second)) else saved;
      var told :=
        if e.phase.Confirming? then Some(if first && !Clashes(w.rows, Current(e).attempt) then Published else Uncertain)
        else if !first then None
        else Some(if e.phase.TimingOut? then Uncertain else Failed);
      if told.Some? then after.runs[t] == e.(results := e.results + [told.value], phase := Publishing)
      else after.runs[t] == Throws(e) && after.rows == w.rows
  {
    var e := w.runs[t];
    var i := Current(e).attempt;
    PublishCommits(w.rows, i);
    OpenCommits(w.rows, i, AsUncertain(w.rows[i], PersistenceFailed));
    OpenCommits(w.rows, i, AsUncertain(w.rows[i], RemoteTimeout));
    OpenCommits(w.rows, i, AsFailed(w.rows[i], RemoteError));
  }

  /** The moves after the container has been dealt with. */
  function AnswerMoves(w: World, t: Uuid, script: Script): World
    requires t in w.runs
  {
    var heard := if w.runs[t].phase.Calling? then StepMove(w, t, Hear(script.answer)) else w;
    var saved := StepMove(heard, t, Save(script.firstSaved));
    if saved.runs[t].phase.Doubting? then StepMove(saved, t, Save(script.secondSaved)) else saved
  }

  lemma AnswersTellWhatIsDue(w: World, t: Uuid, script: Script)
    requires t in w.runs && AtTarget(w.rows, w.runs[t]) && Unique(w.rows)
    requires w.rows[Current(w.runs[t]).attempt].status in ACTIVE
    requires var x := Current(w.runs[t]);
      w.runs[t].phase ==
        if ContainerFine(x, script) then Calling else if script.saveTimesOut then TimingOut else Erring
    ensures var e, f := w.runs[t], AnswerMoves(w, t, script).runs[t];
      match Due(Current(e), script, Clashes(w.rows, Current(e).attempt))
      case Some(status) => f.results == e.results + [status] && f.phase == Publishing
      case None => f.results == e.results && f.phase == Throws(e).phase
  {
    var heard := if w.runs[t].phase.Calling? then StepMove(w, t, Hear(script.answer)) else w;
    assert heard.rows == w.rows && Current(heard.runs[t]) == Current(w.runs[t]);
    SaveMoves(heard, t, script.firstSaved, script.secondSaved);
  }

  /** Uninterrupted, the moves of an execution tell for a target exactly what the code tells. */
  lemma MovesTellWhatIsDue(w: World, t: Uuid, script: Script)
    requires t in w.runs && w.runs[t].phase.Calling? && AtTarget(w.rows, w.runs[t]) && Unique(w.rows)
    requires w.rows[Current(w.runs[t]).attempt].status == Processing
    ensures var e, f := w.runs[t], PublishMoves(w, t, script).runs[t];
      match Due(Current(e), script, Clashes(w.rows, Current(e).attempt))
      case Some(status) => f.results == e.results + [status] && f.phase == Publishing
      case None => f.results == e.results && f.phase == Throws(e).phase
  {
    if script.container.Some? {
      var recorded := StepMove(w, t, SaveContainer(script.container.value, script.containerSaved, script.saveTimesOut));
      ContainerMove(w, t, script.container.value, script.containerSaved, script.saveTimesOut);
      SameClash(w.rows, recorded.rows, Current(w.runs[t]).attempt);
      AnswersTellWhatIsDue(recorded, t, script);
    } else {
      AnswersTellWhatIsDue(w, t, script);
    }
  }
}
