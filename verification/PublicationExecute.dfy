/**
  `executePublication`: publishes the reserved targets one after the other,
  outside any transaction, and records each outcome by the attempt's id.  The
  remote side and every commit may fail; what happens is given by a script.
*/
module PublicationExecute {
  import opened Basics
  import opened PublicationRows
  import opened PublicationPrepare

  datatype Answer = Success | Timeout | Failure

  /**
    What happens while one target is published: the container the adapter
    reports and whether it could be recorded, the remote answer, and whether the
    writes that follow commit.
  */
  datatype Script = Script(
    container: Option<Uuid>,
    containerSaved: bool,
    saveTimesOut: bool,
    answer: Answer,
    firstSaved: bool,
    secondSaved: bool,
    now: Time)

  datatype Report =
    | Unprepared                                    // failed before any publish
    | Unrecorded                                   // an outcome could not be recorded
    | Finished(results: seq<AttemptStatus>, allSuccess: bool, hasSuccess: bool, hasFailures: bool, hasUncertain: bool)

  // ----- Writes of an execution ---------------------------------------------------------

  function WithContainer(row: Attempt, container: Uuid, now: Time): Attempt {
    row.(status := ContainerCreated, container := Some(container), lease := Some(now + ATTEMPT_LEASE_MS))
  }

  function AsPublished(row: Attempt): Attempt {
    row.(status := Published, lease := None)
  }

  function AsUncertain(row: Attempt, reason: Reason): Attempt {
    row.(status := Uncertain, reason := reason, lease := None)
  }

  function AsFailed(row: Attempt, reason: Reason): Attempt {
    row.(status := Failed, reason := reason, lease := None)
  }

  // ----- What the caller may rely on ------------------------------------------------------

  /** The targets stand for distinct rows, as a preparation leaves them. */
  predicate Executable(rows: Table, targets: seq<Target>) {
    && Unique(rows)
    && (forall k :: 0 <= k < |targets| ==>
        targets[k].attempt < |rows| && Expected(rows[targets[k].attempt], targets[k].kind))
    && (forall i, k :: 0 <= i < k < |targets| ==> targets[i].attempt != targets[k].attempt)
  }

  predicate Expected(row: Attempt, kind: Kind) {
    match kind
    case AlreadyDone => row.status == Published
    case Refused => row.status == Failed
    case Reserved(_, _) => row.status == Processing
  }

  /** A container was reported and recorded. */
  predicate Records(target: Target, script: Script) {
    target.account.platform == InstagramBusiness && script.container.Some? && script.containerSaved
  }

  /** The remote side said the post is published. */
  predicate Confirmed(target: Target, script: Script) {
    target.kind.Reserved? && ContainerFine(target, script) && script.answer.Success?
  }

  /** No container had to be recorded, or recording it worked. */
  predicate ContainerFine(target: Target, script: Script) {
    script.container.None? || target.account.platform == FacebookPage || script.containerSaved
  }

  /** The result told for a target agrees with its stored row, unless a confirmed publish could not even be doubted. */
  predicate Truthful(result: AttemptStatus, before: Attempt, after: Attempt, target: Target, script: Script) {
    if !target.kind.Reserved? then after == before && result == before.status
    else
      && result in {Published, Failed, Uncertain}
      && after.account == before.account && after.number == before.number && after.owner == before.owner
      && after.container == (if Records(target, script) then script.container else before.container)
      && (after.status !in UNFINISHED ==> after.lease == None)
      && (if result == Uncertain && Confirmed(target, script) && !script.secondSaved then after.status in UNFINISHED
          else after.status == result)
      && (result == Published ==> Confirmed(target, script))
      && (Confirmed(target, script) ==> result != Failed && after.status != Failed)
      && (after.status == Uncertain ==>
            after.reason == if Confirmed(target, script) then PersistenceFailed else RemoteTimeout)
      && (after.status == Failed ==> after.reason == RemoteError)
  }

  /** Another row of the account is already published, so this one cannot be. */
  predicate Clashes(rows: Table, i: nat)
    requires i < |rows|
  {
    exists k :: 0 <= k < |rows| && k != i && rows[k].account == rows[i].account && rows[k].status == Published
  }

  predicate TimesOut(target: Target, script: Script) {
    if ContainerFine(target, script) then script.answer.Timeout? else script.saveTimesOut
  }

  /** The result of a reserved target, or none when its outcome could not be recorded. */
  function Due(target: Target, script: Script, clashes: bool): Option<AttemptStatus> {
    if Confirmed(target, script) then Some(if script.firstSaved && !clashes then Published else Uncertain)
    else if !script.firstSaved then None
    else Some(if TimesOut(target, script) then Uncertain else Failed)
  }

  /**
    What is due, case by case: published for a confirmed publish that could be
    recorded, uncertain for one that could not and for a timeout, failed for any
    other answer, and nothing when the write of the latter two failed.
  */
  lemma DueMeans(target: Target, script: Script, clashes: bool)
    requires target.kind.Reserved?
    ensures var recorded := target.account.platform == FacebookPage || script.container.None? || script.containerSaved;
      var due := Due(target, script, clashes);
      && (due == Some(Published) <==> recorded && script.answer == Success && script.firstSaved && !clashes)
      && (due == Some(Uncertain) <==>
            (recorded && script.answer == Success && (!script.firstSaved || clashes))
            || (script.firstSaved && (if recorded then script.answer == Timeout else script.saveTimesOut)))
      && (due == Some(Failed) <==>
            script.firstSaved && (if recorded then script.answer == Failure else !script.saveTimesOut))
      && (due == None <==> !script.firstSaved && (recorded ==> script.answer != Success))
  {
  }

  /** A target whose outcome could not be recorded: unpublished as far as known, its row still open. */
  predicate LeftOpen(before: Attempt, after: Attempt, target: Target, script: Script) {
    && target.kind.Reserved? && !Confirmed(target, script) && !script.firstSaved
    && after.status in UNFINISHED && after.account == before.account && after.number == before.number
  }

  /** Row `i` is not the row of any of the given targets. */
  predicate Untargeted(targets: seq<Target>, i: nat) {
    forall k :: 0 <= k < |targets| ==> targets[k].attempt != i
  }

  class Executor {
    var rows: Table

    constructor (table: Table)
      ensures rows == table
    {
      rows := table;
    }

    /** An update by id in its own transaction. */
    method Save(i: nat, row: Attempt, reachable: bool) returns (saved: bool)
      requires i < |rows|
      modifies this
      ensures saved == Commits(old(rows), i, row, reachable)
      ensures rows == Update(old(rows), i, row, reachable)
    {
      saved := reachable && Unique(rows[i := row]);
      if saved {
        rows := rows[i := row];
      }
    }

    /** The container an Instagram publish reports is recorded first; failing that, the publish counts as failed. */
    method RecordContainer(target: Target, script: Script) returns (answer: Answer)
      requires target.attempt < |rows| && target.kind.Reserved? && rows[target.attempt].status == Processing
      requires Unique(rows)
      modifies this
      ensures Unique(rows) && |rows| == |old(rows)|
      ensures forall i :: 0 <= i < |rows| && i != target.attempt ==> rows[i] == old(rows[i])
      ensures rows[target.attempt] ==
        if Records(target, script) then
          old(rows)[target.attempt].(status := ContainerCreated, container := script.container,
                                     lease := Some(script.now + 180000))
        else old(rows)[target.attempt]
      ensures answer.Success? <==> Confirmed(target, script)
      ensures answer.Timeout? <==> TimesOut(target, script)
    {
      answer := script.answer;
      if target.account.platform == InstagramBusiness && script.container.Some? {
        var i := target.attempt;
        OpenCommits(rows, i, WithContainer(rows[i], script.container.value, script.now));
        var kept := Save(i, WithContainer(rows[i], script.container.value, script.now), script.containerSaved);
        if !kept {
          answer := if script.saveTimesOut then Timeout else Failure;
        }
      }
    }

    /** One reserved target: container, remote answer, and the write that records it. */
    method PublishTarget(target: Target, script: Script) returns (result: Option<AttemptStatus>)
      requires target.attempt < |rows| && target.kind.Reserved? && rows[target.attempt].status == Processing
      requires Unique(rows)
      modifies this
      ensures Unique(rows) && |rows| == |old(rows)|
      ensures forall i :: 0 <= i < |rows| && i != target.attempt ==> rows[i] == old(rows[i])
      ensures result == Due(target, script, Clashes(old(rows), target.attempt))
      ensures match result
        case Some(status) => Truthful(status, old(rows)[target.attempt], rows[target.attempt], target, script)
        case None => LeftOpen(old(rows)[target.attempt], rows[target.attempt], target, script)
    {
      var i := target.attempt;
      var answer := RecordContainer(target, script);
      SameClash(old(rows), rows, i);
      match answer {
        case Success =>
          PublishCommits(rows, i);
          var saved := Save(i, AsPublished(rows[i]), script.firstSaved);
          if saved {
            result := Some(Published);
          } else {
            OpenCommits(rows, i, AsUncertain(rows[i], PersistenceFailed));
            var _ := Save(i, AsUncertain(rows[i], PersistenceFailed), script.secondSaved);
            result := Some(Uncertain);
          }
        case Timeout =>
          OpenCommits(rows, i, AsUncertain(rows[i], RemoteTimeout));
          var saved := Save(i, AsUncertain(rows[i], RemoteTimeout), script.firstSaved);
          result := if saved then Some(Uncertain) else None;
        case Failure =>
          OpenCommits(rows, i, AsFailed(rows[i], RemoteError));
          var saved := Save(i, AsFailed(rows[i], RemoteError), script.firstSaved);
          result := if saved then Some(Failed) else None;
      }
    }

    /** The failure path before any publish: the reserved rows are closed together, or not at all. */
    method CleanUp(targets: seq<Target>, saved: bool)
      requires forall k :: 0 <= k < |targets| ==> targets[k].attempt < |rows|
      modifies this
      ensures rows == if saved then CloseReserved(old(rows), targets, |targets|) else old(rows)
    {
      if saved {
        for k := 0 to |targets|
          invariant rows == CloseReserved(old(rows), targets, k)
        {
          if targets[k].kind.Reserved? {
            rows := rows[targets[k].attempt := AsFailed(rows[targets[k].attempt], PreparationFailed)];
          }
        }
      }
    }

    /** All targets in order; no results when an outcome could not be recorded. */
    method PublishAll(targets: seq<Target>, scripts: seq<Script>) returns (results: Option<seq<AttemptStatus>>)
      requires Executable(rows, targets) && |scripts| == |targets|
      modifies this
      ensures |rows| == |old(rows)|
      ensures match results
        case Some(told) => Told(old(rows), rows, targets, scripts, told, |targets|)
        case None => (exists n :: 0 <= n < |targets| && StoppedAt(old(rows), rows, targets, scripts, n))
      ensures forall i :: 0 <= i < |rows| && Untargeted(targets, i) ==> rows[i] == old(rows[i])
    {
      ghost var start := rows;
      var done := [];
      for k := 0 to |targets|
        invariant |rows| == |start| && Unique(rows)
        invariant Told(start, rows, targets, scripts, done, k)
        invariant forall j :: k <= j < |targets| ==> rows[targets[j].attempt] == start[targets[j].attempt]
        invariant forall i :: 0 <= i < |rows| && Untargeted(targets, i) ==> rows[i] == start[i]
      {
        var target := targets[k];
        if target.kind.AlreadyDone? {
          done := done + [Published];
        } else if target.kind.Refused? {
          done := done + [rows[target.attempt].status];
        } else {
          ghost var before := rows;
          var result := PublishTarget(target, scripts[k]);
          ToldStays(start, before, rows, targets, scripts, done, k);
          SameClash(before, rows, target.attempt);
          if result.None? {
            assert StoppedAt(start, rows, targets, scripts, k);
            return None;
          }
          done := done + [result.value];
        }
      }
      results := Some(done);
    }

    method ExecutePublication(targets: seq<Target>, ready: bool, cleanupSaved: bool, scripts: seq<Script>)
      returns (report: Report)
      requires Executable(rows, targets) && |scripts| == |targets|
      modifies this
      ensures |rows| == |old(rows)|
      ensures report.Unprepared? <==> !ready
      ensures !ready ==> rows == if cleanupSaved then CloseReserved(old(rows), targets, |targets|) else old(rows)
      ensures report.Finished? ==> Told(old(rows), rows, targets, scripts, report.results, |targets|) && FlagsOk(report)
      ensures report.Unrecorded? ==>
        (exists n :: 0 <= n < |targets| && StoppedAt(old(rows), rows, targets, scripts, n))
      ensures forall i :: 0 <= i < |rows| && Untargeted(targets, i) ==> rows[i] == old(rows[i])
    {
      if !ready {
        CleanUp(targets, cleanupSaved);
        CloseReservedMeans(old(rows), targets, |targets|);
        return Unprepared;
      }
      var results := PublishAll(targets, scripts);
      if results.None? {
        return Unrecorded;
      }
      var told := results.value;
      report := Finished(told, |told| > 0 && (forall s | s in told :: s == Published),
                         Published in told, Failed in told, Uncertain in told);
    }
  }

  /** One truthful result for each of the first `n` targets, in order, and the one due given the rows at the end. */
  predicate Told(before: Table, after: Table, targets: seq<Target>, scripts: seq<Script>,
                 results: seq<AttemptStatus>, n: nat) {
    && |results| == n <= |targets| == |scripts| && |before| == |after|
    && forall k :: 0 <= k < n ==>
         && targets[k].attempt < |before|
         && Truthful(results[k], before[targets[k].attempt], after[targets[k].attempt], targets[k], scripts[k])
         && (targets[k].kind.Reserved? ==>
               Due(targets[k], scripts[k], Clashes(after, targets[k].attempt)) == Some(results[k]))
  }

  /** The outcome of target `n` could not be recorded; earlier ones are told, later ones untouched. */
  ghost predicate StoppedAt(before: Table, after: Table, targets: seq<Target>, scripts: seq<Script>, n: nat)
    requires n < |targets| == |scripts| && |before| == |after|
    requires forall k :: 0 <= k < |targets| ==> targets[k].attempt < |before|
  {
    && LeftOpen(before[targets[n].attempt], after[targets[n].attempt], targets[n], scripts[n])
    && (exists results :: Told(before, after, targets, scripts, results, n))
    && forall j :: n < j < |targets| ==> after[targets[j].attempt] == before[targets[j].attempt]
  }

  /** The four flags summarise the results. */
  predicate FlagsOk(report: Report)
    requires report.Finished?
  {
    && (report.allSuccess <==> report.results != [] && forall s | s in report.results :: s == Published)
    && (report.hasSuccess <==> Published in report.results)
    && (report.hasFailures <==> Failed in report.results)
    && (report.hasUncertain <==> Uncertain in report.results)
  }

  lemma ToldStays(start: Table, before: Table, after: Table, targets: seq<Target>, scripts: seq<Script>,
                  results: seq<AttemptStatus>, n: nat)
    requires Told(start, before, targets, scripts, results, n) && n < |targets| && |after| == |before|
    requires forall k :: 0 <= k < n ==> targets[k].attempt != targets[n].attempt
    requires targets[n].attempt < |before| && before[targets[n].attempt].status == Processing && Unique(after)
    requires after[targets[n].attempt].account == before[targets[n].attempt].account
    requires forall i :: 0 <= i < |before| && i != targets[n].attempt ==> after[i] == before[i]
    ensures Told(start, after, targets, scripts, results, n)
  {
    forall k | 0 <= k < n && targets[k].kind.Reserved?
      ensures Due(targets[k], scripts[k], Clashes(after, targets[k].attempt)) == Some(results[k])
    {
      var i := targets[k].attempt;
      if Clashes(before, i) {
        ClashStays(before, after, i, targets[n].attempt);
      } else if before[i].status == Published {
        NoClash(after, i);
      }
    }
  }

  lemma ClashStays(before: Table, after: Table, i: nat, changed: nat)
    requires i < |before| == |after| && changed < |before| && i != changed && Clashes(before, i)
    requires before[changed].status != Published
    requires forall k :: 0 <= k < |before| && k != changed ==> after[k] == before[k]
    ensures Clashes(after, i)
  {
    var k :| 0 <= k < |before| && k != i && before[k].account == before[i].account && before[k].status == Published;
    assert after[k] == before[k];
  }

  lemma NoClash(rows: Table, i: nat)
    requires Unique(rows) && i < |rows| && rows[i].status == Published
    ensures !Clashes(rows, i)
  {
  }

  function CloseReserved(rows: Table, targets: seq<Target>, n: nat): (after: Table)
    requires n <= |targets| && forall k :: 0 <= k < |targets| ==> targets[k].attempt < |rows|
    ensures |after| == |rows|
  {
    if n == 0 then rows
    else
      var before := CloseReserved(rows, targets, n - 1);
      var i := targets[n - 1].attempt;
      if targets[n - 1].kind.Reserved? then before[i := AsFailed(before[i], PreparationFailed)] else before
  }

  predicate Closes(targets: seq<Target>, n: nat, i: nat)
    requires n <= |targets|
  {
    exists k :: 0 <= k < n && targets[k].attempt == i && targets[k].kind.Reserved?
  }

  /** Exactly the reserved rows are closed. */
  lemma {:induction false} CloseReservedMeans(rows: Table, targets: seq<Target>, n: nat)
    requires n <= |targets| && forall k :: 0 <= k < |targets| ==> targets[k].attempt < |rows|
    ensures forall i :: 0 <= i < |rows| ==>
      CloseReserved(rows, targets, n)[i]
        == if Closes(targets, n, i) then rows[i].(status := Failed, reason := PreparationFailed, lease := None)
           else rows[i]
  {
    if n > 0 {
      CloseReservedMeans(rows, targets, n - 1);
    }
  }

  /** An open row can be kept open, or closed as failed, without breaking an index. */
  lemma OpenCommits(rows: Table, i: nat, row: Attempt)
    requires Unique(rows) && i < |rows| && rows[i].status in ACTIVE && row.account == rows[i].account
    requires row.status in ACTIVE || row.status == Failed
    ensures Unique(rows[i := row])
  {
  }

  /** An open row can be published unless another row of the account already is. */
  lemma PublishCommits(rows: Table, i: nat)
    requires Unique(rows) && i < |rows| && rows[i].status in ACTIVE
    ensures Unique(rows[i := AsPublished(rows[i])]) <==> !Clashes(rows, i)
  {
    var after := rows[i := AsPublished(rows[i])];
    if Clashes(rows, i) {
      var k :| 0 <= k < |rows| && k != i && rows[k].account == rows[i].account && rows[k].status == Published;
      var low, high := if i < k then i else k, if i < k then k else i;
      assert after[low].account == after[high].account;
    }
  }

  lemma SameClash(before: Table, after: Table, i: nat)
    requires i < |before| == |after| && after[i].account == before[i].account
    requires forall k :: 0 <= k < |before| && k != i ==> after[k] == before[k]
    ensures Clashes(after, i) <==> Clashes(before, i)
  {
    if k :| 0 <= k < |after| && k != i && after[k].account == after[i].account && after[k].status == Published {
      assert before[k] == after[k];
    }
    if k :| 0 <= k < |before| && k != i && before[k].account == before[i].account && before[k].status == Published {
      assert before[k] == after[k];
    }
  }
}
