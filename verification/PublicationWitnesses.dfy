/**
  Runs that show what the assumptions on executors and administrators exclude:
  an executor that outlives its lease, a publish that starts after its account
  was published by another, a failed attempt confirmed published while another
  one is in progress, and a late failure written over a confirmed publish.
*/
module PublicationWitnesses {
  import opened Basics
  import opened PublicationRows
  import opened PublicationPrepare
  import opened PublicationExecute
  import opened PreparePromises
  import opened ScheduleRows
  import opened PublicationWorld
  import opened PublicationSafety
  import opened PublicationExclusivity
  import opened PublicationHonesty

  const ACCOUNT := Account(7, InstagramBusiness, Granted)

  const PREPARE := PrepareAll(READY, [ACCOUNT], true)

  function Row(number: nat, status: AttemptStatus, lease: Option<Time>, reason: Reason, owner: Uuid): Attempt {
    Attempt(7, number, status, lease, None, reason, owner)
  }

  function Run7(phase: Phase, attempt: nat, deadline: Time): Execution {
    Execution(Manual, [7], [Target(ACCOUNT, attempt, Reserved(deadline, None))], [], phase)
  }

  /** Preparing the account on an empty table reserves attempt number 1. */
  lemma FirstPrepare(t: Uuid, now: Time)
    ensures Prepare([], READY, [7], [ACCOUNT], false, t, now)
         == Prepared([Row(1, Processing, Some(now + ATTEMPT_LEASE_MS), NoReason, t)],
                     Targets([Target(ACCOUNT, 0, Reserved(now + ATTEMPT_LEASE_MS, None))]))
  {
    assert Judge([], ACCOUNT, false, now) == Planned(Create(ACCOUNT, None, 1));
    OnePlan([], Create(ACCOUNT, None, 1), t, now);
  }

  /** A selection of one planned account. */
  lemma OnePlan(table: Table, plan: Plan, t: Uuid, now: Time)
    requires Judge(table, ACCOUNT, false, now) == Planned(plan) && (plan.Resume? ==> plan.active < |table|)
    ensures Prepare(table, READY, [7], [ACCOUNT], false, t, now)
         == Prepared(Carry(table, plan, t, now), Targets([TargetOf(|table|, plan, now)]))
  {
    var vs := Verdicts(table, [ACCOUNT], false, now);
    assert vs == [Planned(plan)];
    assert FirstError(vs, 0).None? && FirstExpired(vs, 0).None?;
    assert Plans(vs, 0, |table|) == [];
    assert Plans(vs, 1, |table|) == [plan];
    assert CarryAll(table, [plan], 0, t, now) == (table, []);
    var none: seq<Target> := [];
    assert none + [TargetOf(|table|, plan, now)] == [TargetOf(|table|, plan, now)];
    assert CarryAll(table, [plan], 1, t, now) == (Carry(table, plan, t, now), [TargetOf(|table|, plan, now)]);
  }

  /** A second preparation over an expired or failed first attempt reserves number 2. */
  lemma SecondPrepare(first: Attempt, t: Uuid, now: Time)
    requires first.account == 7 && first.number == 1 && first.container == None
    requires first.status == Failed || (first.status == Processing && !LeaseActive(first, now))
    ensures var closed := if first.status == Failed then first else Abandoned(first);
      Prepare([first], READY, [7], [ACCOUNT], false, t, now)
         == Prepared([closed, Row(2, Processing, Some(now + ATTEMPT_LEASE_MS), NoReason, t)],
                     Targets([Target(ACCOUNT, 1, Reserved(now + ATTEMPT_LEASE_MS, None))]))
  {
    var table := [first];
    assert LatestIn(table, 0, 7, ACTIVE).None? && LatestIn(table, 0, 7, {Published}).None?;
    AnyStatus(first.status);
    if first.status == Failed {
      assert Judge(table, ACCOUNT, false, now) == Planned(Create(ACCOUNT, None, 2));
      OnePlan(table, Create(ACCOUNT, None, 2), t, now);
    } else {
      assert Judge(table, ACCOUNT, false, now) == Planned(Resume(ACCOUNT, 0, None, 2));
      OnePlan(table, Resume(ACCOUNT, 0, None, 2), t, now);
    }
  }

  // ----- One publish in progress ------------------------------------------------------------

  const Begun := [Publish(1, [7]), Moves(1, PREPARE), Moves(1, Open(true))]
  const FirstRow := Row(1, Processing, Some(180000), NoReason, 1)
  const AfterBegun := World([FirstRow], map[], map[1 := Run7(Publishing, 0, 180000)], 0)

  lemma BeginsOne()
    ensures Run(Empty, Begun) == AfterBegun
  {
    RunThree(Empty, Begun[0], Begun[1], Begun[2]);
    var w1 := Apply(Empty, Begun[0]);
    assert w1 == World([], map[], map[1 := Execution(Manual, [7], [], [], Preparing)], 0);
    FirstPrepare(1, 0);
    assert Apply(w1, Begun[1]) == World([FirstRow], map[], map[1 := Run7(Opening, 0, 180000)], 0);
  }

  // ----- An executor that outlives its lease --------------------------------------------------

  const Stalled := [Moves(1, Next), Tick(180000), Publish(2, [7])]
  const Overtaken := [Moves(2, PREPARE), Moves(1, Hear(Success)), Moves(1, Save(true))]

  const AfterStalled := World([FirstRow], map[],
    map[1 := Run7(Calling, 0, 180000), 2 := Execution(Manual, [7], [], [], Preparing)], 180000)

  lemma StallsOne()
    ensures Run(AfterBegun, Stalled) == AfterStalled
  {
    RunThree(AfterBegun, Stalled[0], Stalled[1], Stalled[2]);
  }

  const ResumedRows := [Abandoned(FirstRow), Row(2, Processing, Some(360000), NoReason, 2)]
  const ConfirmedRows := [AsPublished(Abandoned(FirstRow)), Row(2, Processing, Some(360000), NoReason, 2)]

  lemma OvertakesOne()
    ensures Run(AfterStalled, Overtaken).rows == ConfirmedRows
  {
    RunThree(AfterStalled, Overtaken[0], Overtaken[1], Overtaken[2]);
    SecondPrepare(FirstRow, 2, 180000);
    var resumed := Apply(AfterStalled, Overtaken[0]);
    assert resumed.rows == ResumedRows && resumed.runs[1] == Run7(Calling, 0, 180000);
    var heard := Apply(resumed, Overtaken[1]);
    assert heard.rows == ResumedRows && heard.runs[1] == Run7(Confirming, 0, 180000);
    assert ResumedRows[0 := AsPublished(ResumedRows[0])] == ConfirmedRows;
    assert Unique(ConfirmedRows);
  }

  /** The account has a published attempt and another one in progress. */
  predicate PublishedTwiceOver(rows: Table) {
    && |rows| == 2 && rows[0].account == rows[1].account
    && rows[0].status == Published && rows[1].status == Processing && !Exclusive(rows)
  }

  /**
    A stalled executor whose attempt was resumed still records its publish: the
    account then has a published attempt and one in progress.
  */
  lemma LateExecutorBreaksExclusivity()
    ensures PublishedTwiceOver(Run(Empty, Begun + Stalled + Overtaken).rows)
  {
    RunSplit(Empty, Begun + Stalled, Overtaken);
    RunSplit(Empty, Begun, Stalled);
    BeginsOne();
    StallsOne();
    OvertakesOne();
    assert ConfirmedRows[0].account == ConfirmedRows[1].account;
  }

  // ----- A publish that starts too late ---------------------------------------------------------

  const Resumption := [Tick(180000), Publish(2, [7]), Moves(2, PREPARE)]
  const SecondCall := [Moves(2, Open(true)), Moves(2, Next), Moves(2, Hear(Success))]
  const SecondSave := [Moves(2, Save(true))]

  const SecondTarget := [Target(ACCOUNT, 1, Reserved(360000, None))]

  function WithSecond(rows: Table, phase: Phase, results: seq<AttemptStatus>): World {
    World(rows, map[],
          map[1 := Run7(Publishing, 0, 180000), 2 := Execution(Manual, [7], SecondTarget, results, phase)], 180000)
  }

  const SecondPublished := [Abandoned(FirstRow), AsPublished(Row(2, Processing, Some(360000), NoReason, 2))]

  lemma DisciplinedThree(w: World, a: Action, b: Action, c: Action)
    requires Disciplined(w, a) && Disciplined(Apply(w, a), b) && Disciplined(Apply(Apply(w, a), b), c)
    ensures DisciplinedRun(w, [a, b, c])
  {
    var w1 := Apply(w, a);
    var w2 := Apply(w1, b);
    assert [a, b, c][1..] == [b, c] && [b, c][1..] == [c] && [c][1..] == [];
    assert DisciplinedRun(w2, [c]) && DisciplinedRun(w1, [b, c]);
  }

  lemma ResumesOne()
    ensures Run(AfterBegun, Resumption) == WithSecond(ResumedRows, Opening, [])
    ensures DisciplinedRun(AfterBegun, Resumption)
  {
    RunThree(AfterBegun, Resumption[0], Resumption[1], Resumption[2]);
    DisciplinedThree(AfterBegun, Resumption[0], Resumption[1], Resumption[2]);
    SecondPrepare(FirstRow, 2, 180000);
  }

  lemma CallsSecond()
    ensures Run(WithSecond(ResumedRows, Opening, []), SecondCall) == WithSecond(ResumedRows, Confirming, [])
    ensures DisciplinedRun(WithSecond(ResumedRows, Opening, []), SecondCall)
  {
    var w := WithSecond(ResumedRows, Opening, []);
    RunThree(w, SecondCall[0], SecondCall[1], SecondCall[2]);
    DisciplinedThree(w, SecondCall[0], SecondCall[1], SecondCall[2]);
    assert Apply(w, SecondCall[0]) == WithSecond(ResumedRows, Publishing, []);
    assert Apply(WithSecond(ResumedRows, Publishing, []), SecondCall[1]) == WithSecond(ResumedRows, Calling, []);
  }

  lemma SavesSecond()
    ensures Run(WithSecond(ResumedRows, Confirming, []), SecondSave)
         == WithSecond(SecondPublished, Publishing, [Published])
    ensures DisciplinedRun(WithSecond(ResumedRows, Confirming, []), SecondSave)
  {
    var w := WithSecond(ResumedRows, Confirming, []);
    assert SecondSave[1..] == [];
    assert Run(w, SecondSave) == Run(Apply(w, SecondSave[0]), []);
    assert ResumedRows[1 := AsPublished(ResumedRows[1])] == SecondPublished;
    assert Unique(SecondPublished);
    var none: seq<AttemptStatus> := [];
    assert none + [Published] == [Published];
    assert DisciplinedRun(Apply(w, SecondSave[0]), []);
  }

  lemma BeginsDisciplined()
    ensures DisciplinedRun(Empty, Begun)
  {
    DisciplinedThree(Empty, Begun[0], Begun[1], Begun[2]);
  }

  lemma SecondRun()
    ensures DisciplinedRun(Empty, Begun + Resumption + SecondCall + SecondSave)
    ensures Run(Empty, Begun + Resumption + SecondCall + SecondSave)
         == WithSecond(SecondPublished, Publishing, [Published])
  {
    BeginsOne();
    BeginsDisciplined();
    ResumesOne();
    CallsSecond();
    SavesSecond();
    RunSplit(Empty, Begun, Resumption);
    RunSplit(Empty, Begun + Resumption, SecondCall);
    RunSplit(Empty, Begun + Resumption + SecondCall, SecondSave);
    DisciplinedSplit(Empty, Begun, Resumption);
    DisciplinedSplit(Empty, Begun + Resumption, SecondCall);
    DisciplinedSplit(Empty, Begun + Resumption + SecondCall, SecondSave);
  }

  /**
    Writing in time does not keep a publish from starting late: the execution
    checks no lease before the remote call, and starts it for an account another
    execution has published meanwhile.
  */
  lemma LateStartIsNotAlone()
    ensures DisciplinedRun(Empty, Begun + Resumption + SecondCall + SecondSave)
    ensures var w := Run(Empty, Begun + Resumption + SecondCall + SecondSave);
      && StartsBeside(w, 1, Run7(Publishing, 0, 180000)) && OwnRow(w, 1) == 0
      && w.rows[1].account == w.rows[0].account && w.rows[1].status == Published
  {
    SecondRun();
    var w := WithSecond(SecondPublished, Publishing, [Published]);
    assert w.rows[1].account == w.rows[0].account && Live(w.rows[1].status);
  }

  // ----- A late failure over a confirmed publish --------------------------------------------------

  const Waits := [CreateSchedule(9, 180000, [7]), Moves(1, Next), Tick(180000)]
  const Confirms := [Resolve(0, ConfirmPublished), Deliver(2, 9, 1), Moves(2, AcquireRow)]
  const Skips := [Moves(2, PREPARE), Moves(2, Open(true)), Moves(2, Next)]
  const Ends := [Moves(2, Next), Moves(2, Conclude(false)), Tick(1)]
  const Loses := [Moves(1, Hear(Failure)), Moves(1, Save(true)), Moves(2, Write)]

  const ConfirmedRow := AsPublished(FirstRow)

  function Held9(status: ScheduleStatus, token: Option<Uuid>, lease: Option<Time>): map<Uuid, Schedule> {
    map[9 := Schedule(status, 1, token, lease, 180000, [7])]
  }

  function Scheduled2(targets: seq<Target>, results: seq<AttemptStatus>, phase: Phase): map<Uuid, Execution> {
    map[1 := Run7(Calling, 0, 180000), 2 := Execution(Job(9, 1), [7], targets, results, phase)]
  }

  const AfterWaits := World([FirstRow], Held9(Scheduled, None, None), map[1 := Run7(Calling, 0, 180000)], 180000)
  const AfterConfirms :=
    World([ConfirmedRow], Held9(InProcess, Some(2), Some(480000)), Scheduled2([], [], Preparing), 180000)
  const Done7 := [Target(ACCOUNT, 0, AlreadyDone)]
  const AfterSkips :=
    World([ConfirmedRow], Held9(InProcess, Some(2), Some(480000)), Scheduled2(Done7, [Published], Publishing), 180000)
  const AfterEnds :=
    World([ConfirmedRow], Held9(InProcess, Some(2), Some(480000)),
          Scheduled2(Done7, [Published], Writing(AllPublished)), 180001)

  lemma WaitsOne()
    ensures Run(AfterBegun, Waits) == AfterWaits
  {
    RunThree(AfterBegun, Waits[0], Waits[1], Waits[2]);
  }

  lemma ConfirmsFirst()
    ensures Run(AfterWaits, Confirms) == AfterConfirms
  {
    RunThree(AfterWaits, Confirms[0], Confirms[1], Confirms[2]);
    assert [FirstRow][0 := ConfirmedRow] == [ConfirmedRow];
    assert Unique([ConfirmedRow]);
    var confirmed := Apply(AfterWaits, Confirms[0]);
    assert confirmed == AfterWaits.(rows := [ConfirmedRow]);
    var delivered := Apply(confirmed, Confirms[1]);
    assert delivered.runs
         == map[1 := Run7(Calling, 0, 180000), 2 := Execution(Job(9, 1), [], [], [], Acquiring(180000))];
  }

  /** A scheduled preparation skips the published account. */
  lemma SkippingPrepare()
    ensures Prepare([ConfirmedRow], READY, [7], [ACCOUNT], true, 2, 180000) == Prepared([ConfirmedRow], Targets(Done7))
  {
    var rows := [ConfirmedRow];
    var plan := Skip(ACCOUNT, 0);
    assert Judge(rows, ACCOUNT, true, 180000) == Planned(plan);
    var vs := Verdicts(rows, [ACCOUNT], true, 180000);
    assert vs == [Planned(plan)];
    assert FirstError(vs, 0).None? && FirstExpired(vs, 0).None?;
    assert Plans(vs, 0, 1) == [] && Plans(vs, 1, 1) == [plan];
    assert CarryAll(rows, [plan], 0, 2, 180000) == (rows, []);
    var none: seq<Target> := [];
    assert none + [TargetOf(1, plan, 180000)] == Done7;
    assert CarryAll(rows, [plan], 1, 2, 180000) == (rows, Done7);
  }

  lemma SkipsSecond()
    ensures Run(AfterConfirms, Skips) == AfterSkips
  {
    RunThree(AfterConfirms, Skips[0], Skips[1], Skips[2]);
    SkippingPrepare();
    var prepared := Apply(AfterConfirms, Skips[0]);
    assert prepared == AfterConfirms.(runs := Scheduled2(Done7, [], Opening));
    var opening := Apply(prepared, Skips[1]);
    assert opening == AfterConfirms.(runs := Scheduled2(Done7, [], Publishing));
    var none: seq<AttemptStatus> := [];
    assert none + [Published] == [Published];
  }

  lemma EndsSecond()
    ensures Run(AfterSkips, Ends) == AfterEnds
  {
    RunThree(AfterSkips, Ends[0], Ends[1], Ends[2]);
    var told := Apply(AfterSkips, Ends[0]);
    assert told == AfterSkips.(runs := Scheduled2(Done7, [Published], Concluding));
    assert Evaluate([Published], false) == Some(AllPublished);
  }

  const LostRow := AsFailed(ConfirmedRow, RemoteError)

  lemma LosesFirst()
    ensures var w := Run(AfterEnds, Loses); w.rows == [LostRow] && w.schedules == Held9(AllPublished, Some(2), None)
  {
    RunThree(AfterEnds, Loses[0], Loses[1], Loses[2]);
    HearsFailure();
    SavesFailure();
    var failed := Apply(AfterHearing, Loses[1]);
    assert Apply(failed, Loses[2]).rows == [LostRow];
  }

  const AfterHearing := AfterEnds.(runs := AfterEnds.runs[1 := Run7(Erring, 0, 180000)])

  lemma HearsFailure()
    ensures Apply(AfterEnds, Loses[0]) == AfterHearing
  {
  }

  /** The late write is the one the exact step theorem singles out. */
  lemma SavesFailure()
    ensures Overwrites(AfterHearing, Loses[1], 0)
    ensures var w := Apply(AfterHearing, Loses[1]);
      w.rows == [LostRow] && w.schedules == AfterEnds.schedules && 2 in w.runs && w.runs[2] == AfterEnds.runs[2]
  {
    assert [ConfirmedRow][0 := LostRow] == [LostRow];
    assert Unique([LostRow]);
  }

  /**
    An administrator confirms an attempt whose executor is still calling, a
    schedule finds its account published and ends so, and the executor's late
    failure is written over the confirmed row: the schedule ended published, and
    its account has no published attempt.
  */
  lemma LateFailureUnpublishes()
    ensures var w := Run(Empty, Begun + Waits + Confirms + Skips + Ends + Loses);
      && 9 in w.schedules && w.schedules[9].status == AllPublished && w.schedules[9].targets == [7]
      && !Has(w.rows, 7, {Published})
  {
    BeginsOne();
    WaitsOne();
    ConfirmsFirst();
    SkipsSecond();
    EndsSecond();
    LosesFirst();
    RunSplit(Empty, Begun, Waits);
    RunSplit(Empty, Begun + Waits, Confirms);
    RunSplit(Empty, Begun + Waits + Confirms, Skips);
    RunSplit(Empty, Begun + Waits + Confirms + Skips, Ends);
    RunSplit(Empty, Begun + Waits + Confirms + Skips + Ends, Loses);
  }

  // ----- A failed attempt confirmed published -----------------------------------------------------

  const Refusal := [Moves(1, Next), Moves(1, Hear(Failure)), Moves(1, Save(true))]
  const FailedRow := AsFailed(FirstRow, RemoteError)
  const AfterRefusal := World([FailedRow], map[], map[1 := Run7(Publishing, 0, 180000).(results := [Failed])], 0)

  lemma RefusesOne()
    ensures Run(AfterBegun, Refusal) == AfterRefusal
  {
    RunThree(AfterBegun, Refusal[0], Refusal[1], Refusal[2]);
    var calling := Apply(AfterBegun, Refusal[0]);
    assert calling == AfterBegun.(runs := map[1 := Run7(Calling, 0, 180000)]);
    var erring := Apply(calling, Refusal[1]);
    assert erring == AfterBegun.(runs := map[1 := Run7(Erring, 0, 180000)]);
    assert [FirstRow][0 := FailedRow] == [FailedRow];
    assert Unique([FailedRow]);
    var none: seq<AttemptStatus> := [];
    assert none + [Failed] == [Failed];
  }

  const Confirmation := [Publish(2, [7]), Moves(2, PREPARE), Resolve(0, ConfirmPublished)]
  const RetriedRows := [FailedRow, Row(2, Processing, Some(180000), NoReason, 2)]

  lemma ConfirmsOne()
    ensures Run(AfterRefusal, Confirmation).rows == RetriedRows[0 := AsPublished(FailedRow)]
  {
    RunThree(AfterRefusal, Confirmation[0], Confirmation[1], Confirmation[2]);
    SecondPrepare(FailedRow, 2, 0);
    var second := Apply(Apply(AfterRefusal, Confirmation[0]), Confirmation[1]);
    assert second.rows == RetriedRows;
    assert Unique(RetriedRows[0 := AsPublished(FailedRow)]);
  }

  /** Confirming a failed attempt while the next one is in progress has the same effect. */
  lemma ConfirmingBreaksExclusivity()
    ensures PublishedTwiceOver(Run(Empty, Begun + Refusal + Confirmation).rows)
  {
    RunSplit(Empty, Begun + Refusal, Confirmation);
    RunSplit(Empty, Begun, Refusal);
    BeginsOne();
    RefusesOne();
    ConfirmsOne();
    var rows := RetriedRows[0 := AsPublished(FailedRow)];
    assert rows[0].account == rows[1].account;
  }
}
