/**
  The scheduled publish that nothing interrupts and nobody refuses: from the
  delivery of its job to a schedule that is published, with a published attempt
  for every account.
*/
module PublicationProgress {
  import opened Basics
  import opened PublicationRows
  import opened PublicationPrepare
  import opened PublicationExecute
  import opened PreparePromises
  import opened ScheduleRows
  import opened PublicationWorld
  import opened PublicationSafety
  import opened PublicationTheorems
  import opened ScheduleOutcomes

  // ----- One target after the other -------------------------------------------------------------

  /** Row of a target the execution has told, when told is set, or is still to tell. */
  predicate InState(rows: Table, x: Target, told: bool) {
    && x.attempt < |rows| && rows[x.attempt].account == x.account.id
    && match x.kind
       case AlreadyDone => rows[x.attempt].status == Published
       case Refused => false
       case Reserved(_, _) =>
         if told then rows[x.attempt].status == Published
         else rows[x.attempt].status == Processing && !Clashes(rows, x.attempt)
  }

  /** The execution has told its first `k` targets as published, and can go on so. */
  predicate Going(w: World, t: Uuid, k: nat) {
    && t in w.runs && w.runs[t].phase == Publishing && Unique(w.rows)
    && |w.runs[t].results| == k <= |w.runs[t].targets| && DistinctTargets(w.runs[t].targets)
    && (forall i :: 0 <= i < k ==> w.runs[t].results[i] == Published)
    && forall i :: 0 <= i < |w.runs[t].targets| ==> InState(w.rows, w.runs[t].targets[i], i < k)
  }

  function TargetActions(t: Uuid, kind: Kind): seq<Action> {
    if kind.Reserved? then [Moves(t, Next), Moves(t, Hear(Success)), Moves(t, Save(true))] else [Moves(t, Next)]
  }

  /** The moves for the targets from `k` on. */
  function TargetsActions(t: Uuid, targets: seq<Target>, k: nat): seq<Action>
    requires k <= |targets|
    decreases |targets| - k
  {
    if k == |targets| then [] else TargetActions(t, targets[k].kind) + TargetsActions(t, targets, k + 1)
  }

  /** Only the rows and this execution's results and phase differ. */
  predicate OnlyTold(w: World, after: World, t: Uuid) {
    && t in w.runs && t in after.runs && after.schedules == w.schedules && after.now == w.now
    && after.runs[t] == w.runs[t].(results := after.runs[t].results, phase := after.runs[t].phase)
  }

  lemma SkipGoes(w: World, t: Uuid, k: nat)
    requires Going(w, t, k) && k < |w.runs[t].targets| && w.runs[t].targets[k].kind.AlreadyDone?
    ensures var after := Run(w, [Moves(t, Next)]);
      Going(after, t, k + 1) && OnlyTold(w, after, t)
  {
    var actions := [Moves(t, Next)];
    assert actions[1..] == [];
    var after := Apply(w, actions[0]);
    assert Run(w, actions) == Run(after, []);
    assert InState(w.rows, w.runs[t].targets[k], false);
    NextMeans(w, t);
    forall i | 0 <= i < |w.runs[t].targets| ensures InState(w.rows, w.runs[t].targets[i], i < k + 1) {
      assert InState(w.rows, w.runs[t].targets[i], i < k);
    }
  }

  /** The three moves of a reserved target whose publish is confirmed and recorded. */
  lemma PublishGoes(w: World, t: Uuid, k: nat)
    requires Going(w, t, k) && k < |w.runs[t].targets| && w.runs[t].targets[k].kind.Reserved?
    ensures var after := Run(w, TargetActions(t, w.runs[t].targets[k].kind));
      var e, i := w.runs[t], w.runs[t].targets[k].attempt;
      && i < |w.rows| && after == w.(rows := w.rows[i := AsPublished(w.rows[i])],
                                     runs := w.runs[t := e.(results := e.results + [Published])])
      && Unique(after.rows)
  {
    var e := w.runs[t];
    var x := e.targets[k];
    assert InState(w.rows, x, false);
    PublishCommits(w.rows, x.attempt);
    RunThree(w, Moves(t, Next), Moves(t, Hear(Success)), Moves(t, Save(true)));
    NextMeans(w, t);
    hide Apply, Unique;
    var calling := w.(runs := w.runs[t := e.(phase := Calling)]);
    HearSuccess(calling, t);
    SaveConfirms(calling.(runs := calling.runs[t := e.(phase := Confirming)]), t);
  }

  lemma HearSuccess(w: World, t: Uuid)
    requires t in w.runs && w.runs[t].phase.Calling? && AtTarget(w.rows, w.runs[t])
    ensures Apply(w, Moves(t, Hear(Success))) == w.(runs := w.runs[t := w.runs[t].(phase := Confirming)])
  {
  }

  lemma SaveConfirms(w: World, t: Uuid)
    requires t in w.runs && w.runs[t].phase.Confirming? && AtTarget(w.rows, w.runs[t])
    requires Unique(w.rows[Current(w.runs[t]).attempt := AsPublished(w.rows[Current(w.runs[t]).attempt])])
    ensures var e, i := w.runs[t], Current(w.runs[t]).attempt;
      Apply(w, Moves(t, Save(true)))
        == w.(rows := w.rows[i := AsPublished(w.rows[i])],
              runs := w.runs[t := e.(results := e.results + [Published], phase := Publishing)])
  {
  }

  /** Publishing one account leaves the targets of the others as they were. */
  lemma OtherInState(rows: Table, x: Target, y: Target, told: bool)
    requires InState(rows, x, false) && x.kind.Reserved? && InState(rows, y, told) && x.account.id != y.account.id
    ensures InState(rows[x.attempt := AsPublished(rows[x.attempt])], y, told)
  {
    var after := rows[x.attempt := AsPublished(rows[x.attempt])];
    if y.kind.Reserved? && !told {
      forall k | 0 <= k < |after| && k != y.attempt && after[k].account == after[y.attempt].account
        ensures after[k].status != Published
      {
        assert k != x.attempt && rows[k].account == rows[y.attempt].account;
      }
    }
  }

  lemma TargetGoes(w: World, t: Uuid, k: nat)
    requires Going(w, t, k) && k < |w.runs[t].targets|
    ensures var after := Run(w, TargetActions(t, w.runs[t].targets[k].kind));
      Going(after, t, k + 1) && OnlyTold(w, after, t)
  {
    var e := w.runs[t];
    var x := e.targets[k];
    assert InState(w.rows, x, false);
    if x.kind.Reserved? {
      PublishGoes(w, t, k);
      var after := Run(w, TargetActions(t, x.kind));
      forall i | 0 <= i < |e.targets| ensures InState(after.rows, e.targets[i], i < k + 1) {
        assert InState(w.rows, e.targets[i], i < k);
        if i != k {
          OtherInState(w.rows, x, e.targets[i], i < k);
        }
      }
    } else {
      SkipGoes(w, t, k);
    }
  }

  lemma {:induction false} TargetsGo(w: World, t: Uuid, k: nat)
    requires Going(w, t, k)
    ensures var after := Run(w, TargetsActions(t, w.runs[t].targets, k));
      Going(after, t, |w.runs[t].targets|) && OnlyTold(w, after, t)
    decreases if t in w.runs then |w.runs[t].targets| - k else 0
  {
    var targets := w.runs[t].targets;
    if k < |targets| {
      hide Going, TargetActions;
      TargetGoes(w, t, k);
      var next := Run(w, TargetActions(t, targets[k].kind));
      RunSplit(w, TargetActions(t, targets[k].kind), TargetsActions(t, targets, k + 1));
      TargetsGo(next, t, k + 1);
    }
  }

  // ----- From the delivery to the end -------------------------------------------------------------

  function Ending(t: Uuid): seq<Action> {
    [Moves(t, Next), Moves(t, Conclude(false)), Moves(t, Write)]
  }

  lemma Concludes(w: World, t: Uuid)
    requires t in w.runs && w.runs[t].origin.Job? && w.runs[t].phase.Concluding? && w.runs[t].results != []
    requires forall r :: r in w.runs[t].results ==> r == Published
    ensures Apply(w, Moves(t, Conclude(false))) == w.(runs := w.runs[t := w.runs[t].(phase := Writing(AllPublished))])
  {
  }

  /** All told as published, the holder of the schedule ends it as published. */
  lemma EndingPublishes(w: World, t: Uuid, s: Uuid)
    requires t in w.runs && Going(w, t, |w.runs[t].targets|) && w.runs[t].targets != [] && HolderOf(w, t, s)
    ensures var after := Run(w, Ending(t));
      && after.rows == w.rows && s in after.schedules
      && after.schedules[s] == w.schedules[s].(status := AllPublished, lease := None)
  {
    var e := w.runs[t];
    RunThree(w, Moves(t, Next), Moves(t, Conclude(false)), Moves(t, Write));
    assert InBounds(w.rows, e) by {
      forall i | 0 <= i < |e.targets| ensures e.targets[i].attempt < |w.rows| {
        assert InState(w.rows, e.targets[i], true);
      }
    }
    NextMeans(w, t);
    var told := w.(runs := w.runs[t := e.(phase := Concluding)]);
    assert e.results[0] == Published;
    assert forall r :: r in e.results ==> r == Published;
    Concludes(told, t);
    hide Apply, Going, InState;
    var concluded := Apply(told, Moves(t, Conclude(false)));
    WriteMeans(concluded, t, s, w.schedules[s].version, AllPublished);
  }

  /** The accounts selected are connected, and none is in the way or in doubt. */
  predicate Publishable(w: World, setup: Setup, requested: seq<Uuid>, found: seq<Account>) {
    && Fetched(requested, found) && !Unfit(setup, requested, found)
    && !SomeBlocks(w.rows, found, true, w.now) && !SomeInDoubt(w.rows, found, w.now)
    && forall k :: 0 <= k < |found| ==> found[k].access == Granted
  }

  function Starting(t: Uuid, s: Uuid, version: nat): seq<Action> {
    [Deliver(t, s, version), Moves(t, AcquireRow)]
  }

  function Opens(t: Uuid, setup: Setup, found: seq<Account>): seq<Action> {
    [Moves(t, PrepareAll(setup, found, true)), Moves(t, Open(true))]
  }

  lemma RunTwo(w: World, a: Action, b: Action)
    ensures Run(w, [a, b]) == Apply(Apply(w, a), b)
  {
    assert [a, b][1..] == [b] && [b][1..] == [];
    assert Run(Apply(w, a), [b]) == Run(Apply(Apply(w, a), b), []);
  }

  lemma TargetStarts(table: Table, rows: Table, x: Target, account: Account, t: Uuid, now: Time, found: seq<Account>)
    requires TargetOk(table, rows, x, account, t, now) && account.access == Granted
    requires OldRowsKept(table, rows, found, |found|, now) && NewRowsOwned(table, rows, found, |found|, t)
    requires Unique(rows)
    requires forall i :: |table| <= i < |rows| && rows[i].account == account.id ==> i == x.attempt
    ensures InState(rows, x, false)
  {
    if x.kind.Reserved? {
      forall k | 0 <= k < |rows| && k != x.attempt && rows[k].account == rows[x.attempt].account
        ensures rows[k].status != Published
      {
        assert k < |table| && table[k].account == account.id;
        assert table[k].status in {Published} ==> Has(table, account.id, {Published});
      }
    }
  }

  /** A preparation that goes on leaves the execution ready for its targets. */
  lemma PreparedGoes(w: World, t: Uuid, setup: Setup, found: seq<Account>)
    requires RunsOk(w) && t in w.runs && w.runs[t].phase == Preparing && w.runs[t].origin.Job?
    requires Publishable(w, setup, w.runs[t].requested, found)
    ensures var after := Run(w, Opens(t, setup, found));
      && Going(after, t, 0) && after.schedules == w.schedules && after.runs[t].origin == w.runs[t].origin
      && |after.runs[t].targets| == |found|
      && (forall id :: id in w.runs[t].requested <==> Selected(found, id))
      && forall k :: 0 <= k < |found| ==> after.runs[t].targets[k].account == found[k]
  {
    var e := w.runs[t];
    RunTwo(w, Moves(t, PrepareAll(setup, found, true)), Moves(t, Open(true)));
    PreparationMeans(w, t, setup, found, true);
    TargetsCoverSelection(w.rows, setup, e.requested, found, true, t, w.now);
    PreparedStates(w.rows, setup, e.requested, found, t, w.now);
    PreparesTo(w, t, setup, found);
    hide TargetsOk, TargetOk, OldRowsKept, NewRowsOwned, Prepare, Unfit, SomeBlocks, SomeInDoubt, RunOk, InState;
    hide Unique;
    hide Decide, Apply;
    OpensTo(Apply(w, Moves(t, PrepareAll(setup, found, true))), t);
  }

  lemma PreparesTo(w: World, t: Uuid, setup: Setup, found: seq<Account>)
    requires t in w.runs && w.runs[t].phase.Preparing? && Fetched(w.runs[t].requested, found)
    ensures var e := w.runs[t];
      var p := Prepare(w.rows, setup, e.requested, found, e.origin.Job?, t, w.now);
      p.outcome.Targets? ==>
        Apply(w, Moves(t, PrepareAll(setup, found, true)))
          == w.(rows := p.rows,
                runs := w.runs[t := e.(targets := p.outcome.targets, results := [], phase := Opening)])
  {
    hide Prepare;
  }

  lemma OpensTo(w: World, t: Uuid)
    requires t in w.runs && w.runs[t].phase.Opening?
    ensures Apply(w, Moves(t, Open(true))) == w.(runs := w.runs[t := w.runs[t].(phase := Publishing)])
  {
  }

  lemma PreparedStates(table: Table, setup: Setup, requested: seq<Uuid>, found: seq<Account>, t: Uuid, now: Time)
    requires Unique(table) && Numbered(table) && Fetched(requested, found)
    requires forall k :: 0 <= k < |found| ==> found[k].access == Granted
    ensures var p := Prepare(table, setup, requested, found, true, t, now);
      p.outcome.Targets? ==>
        && Unique(p.rows) && |p.outcome.targets| == |found| && DistinctTargets(p.outcome.targets)
        && forall k :: 0 <= k < |found| ==>
             p.outcome.targets[k].account == found[k] && InState(p.rows, p.outcome.targets[k], false)
  {
    var p := Prepare(table, setup, requested, found, true, t, now);
    if p.outcome.Targets? {
      TargetsCoverSelection(table, setup, requested, found, true, t, now);
      PrepareKeepsTable(table, setup, requested, found, true, t, now);
      NewRowsAreTargets(table, setup, requested, found, true, t, now);
      hide Prepare, InState, TargetOk, OldRowsKept, NewRowsOwned;
      forall k | 0 <= k < |found|
        ensures p.outcome.targets[k].account == found[k] && InState(p.rows, p.outcome.targets[k], false)
      {
        assert TargetOk(table, p.rows, p.outcome.targets[k], found[k], t, now);
        OfAccount(table, p.rows, p.outcome.targets[k], found[k], t, now);
        TargetStarts(table, p.rows, p.outcome.targets[k], found[k], t, now, found);
      }
    }
  }

  lemma OfAccount(table: Table, rows: Table, x: Target, account: Account, t: Uuid, now: Time)
    requires TargetOk(table, rows, x, account, t, now)
    ensures x.account == account
  {
  }

  /** A preparation inserts at most one row per account, the one its target names. */
  lemma NewRowsAreTargets(table: Table, setup: Setup, requested: seq<Uuid>, found: seq<Account>, allowSkipping: bool,
                          token: Uuid, now: Time)
    requires Unique(table) && Numbered(table) && Fetched(requested, found)
    ensures var p := Prepare(table, setup, requested, found, allowSkipping, token, now);
      p.outcome.Targets? ==>
        && |p.outcome.targets| == |found|
        && forall k, i :: 0 <= k < |found| && |table| <= i < |p.rows| && p.rows[i].account == found[k].id ==>
             i == p.outcome.targets[k].attempt
  {
    var p := Prepare(table, setup, requested, found, allowSkipping, token, now);
    if p.outcome.Targets? {
      var plans := ReadyCarriesPlans(table, setup, requested, found, allowSkipping, token, now);
      CarriedOnce(table, plans, found, |plans|, token, now);
    }
  }

  lemma {:induction false} CarriedOnce(table: Table, plans: seq<Plan>, found: seq<Account>, n: nat, token: Uuid,
                                       now: Time)
    requires Distinct(found) && PlansOk(table, plans, found, now) && n <= |plans|
    ensures var r := CarryAll(table, plans, n, token, now);
      && |r.1| == n
      && forall k, i :: 0 <= k < n && |table| <= i < |r.0| && r.0[i].account == found[k].id ==> i == r.1[k].attempt
  {
    if n > 0 {
      CarriedOnce(table, plans, found, n - 1, token, now);
      CarriedNewRows(table, plans, found, n - 1, token, now);
      var before := CarryAll(table, plans, n - 1, token, now);
      var r := CarryAll(table, plans, n, token, now);
      assert PlanOk(table, plans[n - 1], found[n - 1], now);
      forall k, i | 0 <= k < n && |table| <= i < |r.0| && r.0[i].account == found[k].id
        ensures i == r.1[k].attempt
      {
        if i < |before.0| {
          assert r.0[i].account == before.0[i].account;
          assert SelectedIn(found, n - 1, before.0[i].account);
        }
      }
    }
  }

  /** The schedule is acquired by an execution that goes on to prepare. */
  lemma Delivered(w: World, t: Uuid, s: Uuid)
    requires t !in w.runs && s in w.schedules && Acquires(w.schedules[s], w.schedules[s].version, w.now)
    ensures var row := w.schedules[s];
      var acquired := Run(w, Starting(t, s, row.version));
      && acquired.rows == w.rows && acquired.now == w.now && HolderOf(acquired, t, s)
      && acquired.runs[t] == Execution(Job(s, row.version), row.targets, [], [], Preparing)
      && acquired.schedules[s].version == row.version && acquired.schedules[s].targets == row.targets
  {
    var version := w.schedules[s].version;
    RunTwo(w, Deliver(t, s, version), Moves(t, AcquireRow));
    DeliveryAcquires(w, t, s, version, 0);
    assert Apply(Apply(w, Deliver(t, s, version)), Tick(0)) == Apply(w, Deliver(t, s, version));
  }

  /**
    A schedule delivered in time, whose accounts are connected and free and whose
    publishes are all confirmed and recorded, ends published, and every account it
    is for has a published attempt.
  */
  lemma ScheduledPublishSucceeds(w: World, t: Uuid, s: Uuid, setup: Setup, found: seq<Account>)
    requires RunsOk(w) && t !in w.runs && s in w.schedules && w.schedules[s].targets != []
    requires Acquires(w.schedules[s], w.schedules[s].version, w.now)
    requires Publishable(w, setup, w.schedules[s].targets, found)
    ensures var acquired := Run(w, Starting(t, s, w.schedules[s].version));
      var begun := Run(acquired, Opens(t, setup, found));
      t in begun.runs &&
      var late := Run(Run(begun, TargetsActions(t, begun.runs[t].targets, 0)), Ending(t));
      && s in late.schedules && late.schedules[s].status == AllPublished && late.schedules[s].lease == None
      && late.schedules[s].targets == w.schedules[s].targets
      && forall id :: id in w.schedules[s].targets ==> Has(late.rows, id, {Published})
  {
    var version := w.schedules[s].version;
    Delivered(w, t, s);
    hide Apply, RunsOk;
    var acquired := Run(w, Starting(t, s, version));
    RunRunsOk(w, Starting(t, s, version));
    PreparedGoes(acquired, t, setup, found);
    var begun := Run(acquired, Opens(t, setup, found));
    var targets := begun.runs[t].targets;
    TargetsGo(begun, t, 0);
    var told := Run(begun, TargetsActions(t, targets, 0));
    assert w.schedules[s].targets[0] in w.schedules[s].targets;
    EndingPublishes(told, t, s);
    forall id | id in w.schedules[s].targets ensures Has(told.rows, id, {Published}) {
      var k :| 0 <= k < |found| && found[k].id == id;
      assert InState(told.rows, targets[k], true);
      assert told.rows[targets[k].attempt].status in {Published};
    }
  }
}
