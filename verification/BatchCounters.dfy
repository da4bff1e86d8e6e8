/**
  The stored counters of a batch against the jobs themselves.  Acquisition,
  release and reset do not refresh them, so pending and processing may each be
  stale; everything else agrees in every state.
*/
module BatchCounters {
  import opened Basics
  import opened RenderRows
  import opened Sets

  function Members(jobs: map<Uuid, Job>, b: Uuid): set<Uuid> {
    set j | j in jobs && jobs[j].batch == Some(b)
  }

  function Unfinished(jobs: map<Uuid, Job>, b: Uuid): set<Uuid> {
    set j | j in jobs && jobs[j].batch == Some(b) && !Terminal(jobs[j].status)
  }

  /** The stored counters are those of the jobs, up to the split between pending and processing. */
  ghost predicate CountersAgree(db: Db, b: Uuid)
    requires b in db.batches
  {
    var batch := db.batches[b];
    var c := batch.counters;
    && batch.total == |Members(db.jobs, b)| > 0
    && c.completed == |JobsIn(db.jobs, b, Completed)|
    && c.failed == |JobsIn(db.jobs, b, Failed)|
    && c.cancelled == |JobsIn(db.jobs, b, Cancelled)|
    && c.pending + c.processing == |Unfinished(db.jobs, b)|
  }

  /** The stored status says whether jobs remain, whether a cancel was asked for, and how the batch ended. */
  ghost predicate StatusAgrees(db: Db, b: Uuid)
    requires b in db.batches
  {
    var batch := db.batches[b];
    if Unfinished(db.jobs, b) != {} then
      if batch.cancelRequestedAt.Some? then batch.status == BatchCancelling
      else batch.status == BatchPending || batch.status == BatchProcessing
    else batch.status == EndStatus(db.jobs, b)
  }

  /** How a finished batch is reported, read off its jobs. */
  ghost function EndStatus(jobs: map<Uuid, Job>, b: Uuid): BatchStatus {
    if forall j :: j in Members(jobs, b) ==> jobs[j].status == Completed then BatchCompleted
    else if forall j :: j in Members(jobs, b) ==> jobs[j].status == Failed then BatchFailed
    else if exists j :: j in Members(jobs, b) && jobs[j].status == Failed then BatchPartiallyFailed
    else BatchCancelled
  }

  ghost predicate BatchesOk(db: Db) {
    && (forall b :: b in db.batches ==> CountersAgree(db, b) && StatusAgrees(db, b))
    && (forall j :: j in db.jobs && db.jobs[j].batch.Some? ==> db.jobs[j].batch.value in db.batches)
  }

  // ----- Counting ------------------------------------------------------------------

  lemma UnfinishedSplit(jobs: map<Uuid, Job>, b: Uuid)
    ensures |Unfinished(jobs, b)| == |JobsIn(jobs, b, Pending)| + |JobsIn(jobs, b, Processing)|
  {
    assert Unfinished(jobs, b) == JobsIn(jobs, b, Pending) + JobsIn(jobs, b, Processing);
    DisjointSum(JobsIn(jobs, b, Pending), JobsIn(jobs, b, Processing));
  }

  function Finished(jobs: map<Uuid, Job>, b: Uuid): set<Uuid> {
    set j | j in jobs && jobs[j].batch == Some(b) && Terminal(jobs[j].status)
  }

  lemma FinishedSplit(jobs: map<Uuid, Job>, b: Uuid)
    ensures |Finished(jobs, b)|
         == |JobsIn(jobs, b, Completed)| + |JobsIn(jobs, b, Failed)| + |JobsIn(jobs, b, Cancelled)|
  {
    var c, f, x := JobsIn(jobs, b, Completed), JobsIn(jobs, b, Failed), JobsIn(jobs, b, Cancelled);
    assert Finished(jobs, b) == (c + f) + x;
    DisjointSum(c, f);
    DisjointSum(c + f, x);
  }

  /** Every job of a batch is counted under exactly one status. */
  lemma Partition(jobs: map<Uuid, Job>, b: Uuid)
    ensures |Members(jobs, b)| == Sum(CountJobs(jobs, b))
    ensures |Unfinished(jobs, b)| == |JobsIn(jobs, b, Pending)| + |JobsIn(jobs, b, Processing)|
  {
    assert Members(jobs, b) == Unfinished(jobs, b) + Finished(jobs, b);
    DisjointSum(Unfinished(jobs, b), Finished(jobs, b));
    UnfinishedSplit(jobs, b);
    FinishedSplit(jobs, b);
  }

  lemma DisjointSum(a: set<Uuid>, b: set<Uuid>)
    requires a !! b
    ensures |a + b| == |a| + |b|
  {
  }

  /** On consistent counts the aggregate status means what `EndStatus` says. */
  lemma AggregateIsEndStatus(jobs: map<Uuid, Job>, b: Uuid, cancelRequested: bool)
    requires Members(jobs, b) != {} && Unfinished(jobs, b) == {}
    ensures AggregateStatus(|Members(jobs, b)|, CountJobs(jobs, b), cancelRequested) == EndStatus(jobs, b)
  {
    var m, c := Members(jobs, b), CountJobs(jobs, b);
    Partition(jobs, b);
    var done, failed, gone := JobsIn(jobs, b, Completed), JobsIn(jobs, b, Failed), JobsIn(jobs, b, Cancelled);
    FullSubset(done, m);
    FullSubset(failed, m);
    FullSubset(gone, m);
    var some :| some in m;
    if forall j :: j in m ==> jobs[j].status == Completed {
      assert done == m;
    } else if forall j :: j in m ==> jobs[j].status == Failed {
      assert failed == m;
    } else {
      assert done != m && failed != m;
      if exists j :: j in m && jobs[j].status == Failed {
        var j :| j in m && jobs[j].status == Failed;
        assert j in failed && c.failed > 0;
      } else {
        assert failed == {};
      }
    }
  }

  /** Refreshing one batch makes that batch agree and leaves the others alone. */
  lemma RefreshAgrees(db: Db, b: Uuid)
    requires b in db.batches && db.batches[b].total == |Members(db.jobs, b)| > 0
    ensures CountersAgree(Refresh(db, b), b) && StatusAgrees(Refresh(db, b), b)
  {
    Partition(db.jobs, b);
    if Unfinished(db.jobs, b) == {} {
      assert Members(db.jobs, b) != {};
      AggregateIsEndStatus(db.jobs, b, db.batches[b].cancelRequestedAt.Some?);
    }
  }

  /** A batch that agrees keeps agreeing while its jobs keep their batch and their terminal status. */
  lemma SameJobsAgree(before: Db, after: Db, b: Uuid)
    requires b in before.batches && b in after.batches && before.batches[b] == after.batches[b]
    requires CountersAgree(before, b) && StatusAgrees(before, b)
    requires forall j :: j in Members(before.jobs, b) <==> j in Members(after.jobs, b)
    requires forall j :: j in Members(before.jobs, b) ==>
      before.jobs[j].status == after.jobs[j].status
      || (!Terminal(before.jobs[j].status) && !Terminal(after.jobs[j].status))
    ensures CountersAgree(after, b) && StatusAgrees(after, b)
  {
    assert Members(after.jobs, b) == Members(before.jobs, b);
    assert Unfinished(after.jobs, b) == Unfinished(before.jobs, b);
    forall s | Terminal(s) ensures JobsIn(after.jobs, b, s) == JobsIn(before.jobs, b, s) {
      forall j ensures j in JobsIn(after.jobs, b, s) <==> j in JobsIn(before.jobs, b, s) {
        assert j in Members(before.jobs, b) <==> j in Members(after.jobs, b);
      }
    }
    if Unfinished(after.jobs, b) == {} {
      forall j | j in Members(after.jobs, b) ensures before.jobs[j].status == after.jobs[j].status {
        assert j in Members(before.jobs, b) && j !in Unfinished(after.jobs, b);
      }
    }
  }

  // ----- What each kind of transaction keeps ----------------------------------------

  /** The rows of two databases differ at most in the status of one batch's jobs. */
  ghost predicate SameShape(before: Db, after: Db) {
    && before.jobs.Keys == after.jobs.Keys
    && (forall j :: j in before.jobs ==> before.jobs[j].batch == after.jobs[j].batch)
  }

  /** No status crosses the line between unfinished and terminal except inside batch `b`. */
  ghost predicate SameOutside(before: Db, after: Db, b: Option<Uuid>) {
    forall j :: j in before.jobs && j in after.jobs && (b.None? || before.jobs[j].batch != b) ==>
      before.jobs[j].status == after.jobs[j].status
      || (!Terminal(before.jobs[j].status) && !Terminal(after.jobs[j].status))
  }

  lemma ShapeKeepsMembers(before: Db, after: Db, b: Uuid)
    requires SameShape(before, after)
    ensures Members(before.jobs, b) == Members(after.jobs, b)
  {
  }

  /** Writes that leave terminal statuses alone need no refresh. */
  lemma UnrefreshedWrite(before: Db, after: Db)
    requires BatchesOk(before) && SameShape(before, after) && before.batches == after.batches
    requires SameOutside(before, after, None)
    ensures BatchesOk(after)
  {
    forall b | b in after.batches ensures CountersAgree(after, b) && StatusAgrees(after, b) {
      ShapeKeepsMembers(before, after, b);
      SameJobsAgree(before, after, b);
    }
  }

  /** A write inside one batch followed by a refresh of that batch. */
  lemma RefreshedWrite(before: Db, after: Db, b: Uuid)
    requires BatchesOk(before) && SameShape(before, after) && b in before.batches
    requires after.batches.Keys == before.batches.Keys
    requires forall x :: x in before.batches && x != b ==> after.batches[x] == before.batches[x]
    requires after.batches[b].total == before.batches[b].total
    requires SameOutside(before, after, Some(b))
    ensures BatchesOk(Refresh(after, b))
  {
    var refreshed := Refresh(after, b);
    forall x | x in refreshed.batches ensures CountersAgree(refreshed, x) && StatusAgrees(refreshed, x) {
      ShapeKeepsMembers(before, after, x);
      if x == b {
        RefreshAgrees(after, b);
      } else {
        SameJobsAgree(before, refreshed, x);
      }
    }
  }

  lemma RefreshedWriteOf(before: Db, after: Db, b: Option<Uuid>)
    requires BatchesOk(before) && SameShape(before, after) && before.batches == after.batches
    requires b.Some? ==> b.value in before.batches
    requires b.None? ==> forall j :: j in before.jobs && before.jobs[j] != after.jobs[j] ==> before.jobs[j].batch.None?
    requires b.Some? ==> SameOutside(before, after, b)
    ensures BatchesOk(RefreshOf(after, b))
  {
    if b.Some? {
      RefreshedWrite(before, after, b.value);
    } else {
      forall x | x in after.batches ensures CountersAgree(after, x) && StatusAgrees(after, x) {
        ShapeKeepsMembers(before, after, x);
        SameJobsAgree(before, after, x);
      }
    }
  }

  // ----- The transactions ------------------------------------------------------------

  lemma NewMembers(jobs: map<Uuid, Job>, b: Uuid, ids: seq<Uuid>)
    requires forall j :: j in jobs ==> jobs[j].batch != Some(b)
    ensures Members(AddJobs(jobs, b, ids), b) == Elements(ids)
    ensures Unfinished(AddJobs(jobs, b, ids), b) == Elements(ids)
    ensures Finished(AddJobs(jobs, b, ids), b) == {}
  {
  }

  lemma NoneFinished(jobs: map<Uuid, Job>, b: Uuid, s: JobStatus)
    requires Finished(jobs, b) == {} && Terminal(s)
    ensures JobsIn(jobs, b, s) == {}
  {
    assert JobsIn(jobs, b, s) <= Finished(jobs, b);
  }

  lemma NewBatchAgrees(db: Db, b: Uuid, ids: seq<Uuid>)
    requires BatchesOk(db) && FreshBatch(db, b, ids)
    ensures CountersAgree(CreateBatch(db, b, ids), b) && StatusAgrees(CreateBatch(db, b, ids), b)
  {
    var jobs := AddJobs(db.jobs, b, ids);
    NewMembers(db.jobs, b, ids);
    NoneFinished(jobs, b, Completed);
    NoneFinished(jobs, b, Failed);
    NoneFinished(jobs, b, Cancelled);
    assert |Elements(ids)| == |ids| by { DistinctCount(ids); }
    assert CreateBatch(db, b, ids).jobs == jobs;
    assert |Unfinished(jobs, b)| != 0;
  }

  lemma OldBatchAgrees(db: Db, b: Uuid, ids: seq<Uuid>, x: Uuid)
    requires BatchesOk(db) && FreshBatch(db, b, ids) && x in db.batches
    ensures CountersAgree(CreateBatch(db, b, ids), x) && StatusAgrees(CreateBatch(db, b, ids), x)
  {
    var after := CreateBatch(db, b, ids);
    forall j ensures j in Members(after.jobs, x) <==> j in Members(db.jobs, x) {}
    SameJobsAgree(db, after, x);
  }

  lemma CreateBatchKeeps(db: Db, b: Uuid, ids: seq<Uuid>)
    requires BatchesOk(db)
    ensures BatchesOk(CreateBatch(db, b, ids))
  {
    if FreshBatch(db, b, ids) {
      var after := CreateBatch(db, b, ids);
      forall x | x in after.batches ensures CountersAgree(after, x) && StatusAgrees(after, x) {
        if x == b {
          NewBatchAgrees(db, b, ids);
        } else {
          OldBatchAgrees(db, b, ids, x);
        }
      }
    }
  }

  lemma CancelBatchKeeps(db: Db, b: Uuid, now: Time)
    requires BatchesOk(db)
    ensures BatchesOk(CancelBatch(db, b, now))
  {
    hide BatchesOk, CountJobs, AggregateStatus;
    if b in db.batches && !TerminalBatch(db.batches[b].status) {
      var batch := db.batches[b];
      var at := if batch.cancelRequestedAt.Some? then batch.cancelRequestedAt.value else now;
      var marked := db.(batches := db.batches[b := batch.(cancelRequestedAt := Some(at))],
                        jobs := CancelPending(db.jobs, b));
      RefreshedWrite(db, marked, b);
    }
  }

  lemma RefreshKeeps(db: Db, b: Uuid)
    requires BatchesOk(db)
    ensures BatchesOk(Refresh(db, b))
  {
    if b in db.batches {
      RefreshedWrite(db, db, b);
    }
  }

  lemma ClaimKeeps(db: Db, token: Uuid, j: Uuid, seen: Seen, now: Time)
    requires BatchesOk(db)
    ensures BatchesOk(Claim(db, token, j, seen, now))
  {
    hide BatchesOk;
    var after := Claim(db, token, j, seen, now);
    UnrefreshedWrite(db, after);
  }

  /** Writes to jobs that are still being processed, as every fenced write is. */
  ghost predicate TokensMeanProcessing(db: Db) {
    forall j :: j in db.jobs && db.jobs[j].token.Some? ==> db.jobs[j].status == Processing
  }

  lemma ReleaseKeeps(db: Db, token: Uuid, j: Uuid)
    requires BatchesOk(db) && TokensMeanProcessing(db)
    ensures BatchesOk(ReleaseJob(db, token, j))
  {
    hide BatchesOk;
    UnrefreshedWrite(db, ReleaseJob(db, token, j));
  }

  lemma FailKeeps(db: Db, token: Uuid, j: Uuid)
    requires BatchesOk(db)
    ensures BatchesOk(FailJob(db, token, j))
  {
    if HeldBy(db, j, token) {
      var failed := EndHold(db, j, Failed).(audit := db.audit + [AuditRow(RenderFailed, j, token)]);
      RefreshedWriteOf(db, failed, db.jobs[j].batch);
    }
  }

  lemma FinalizeKeeps(db: Db, token: Uuid, j: Uuid, meta: Meta)
    requires BatchesOk(db)
    ensures BatchesOk(FinalizeJob(db, token, j, meta))
  {
    if FinalizeCommits(db, token, j, meta) {
      var done := db.jobs[j].(status := Completed, output := Some(j), token := None, lease := None);
      var final := db.(assets := db.assets[j := db.assets[j].(status := AssetReady, meta := Some(meta))],
                       jobs := db.jobs[j := done],
                       audit := db.audit + [AuditRow(RenderCompleted, j, token)]);
      RefreshedWriteOf(db, final, db.jobs[j].batch);
    }
  }

  lemma CancelJobKeeps(db: Db, token: Uuid, j: Uuid, b: Uuid)
    requires BatchesOk(db) && j in db.jobs && db.jobs[j].batch == Some(b)
    ensures BatchesOk(CancelJob(db, token, j, b))
  {
    RefreshedWrite(db, if HeldBy(db, j, token) then EndHold(db, j, Cancelled) else db, b);
  }

  lemma ResetKeeps(db: Db, j: Uuid, status: JobStatus)
    requires BatchesOk(db)
    ensures BatchesOk(ResetCandidate(db, j, status))
  {
    hide BatchesOk;
    UnrefreshedWrite(db, ResetCandidate(db, j, status));
  }

  lemma CreateJobKeeps(db: Db, j: Uuid)
    requires BatchesOk(db)
    ensures BatchesOk(CreateJob(db, j))
  {
    hide CountersAgree, StatusAgrees;
    var after := CreateJob(db, j);
    forall b | b in after.batches ensures CountersAgree(after, b) && StatusAgrees(after, b) {
      assert Members(after.jobs, b) == Members(db.jobs, b);
      SameJobsAgree(db, after, b);
    }
  }

  /** Rows other than jobs and batches do not matter here. */
  lemma OtherRowsKeep(before: Db, after: Db)
    requires BatchesOk(before) && before.jobs == after.jobs && before.batches == after.batches
    ensures BatchesOk(after)
  {
    UnrefreshedWrite(before, after);
  }

  // ----- What a recount says -----------------------------------------------------------

  /** Every job of the batch has this status. */
  ghost predicate AllAre(jobs: map<Uuid, Job>, b: Uuid, status: JobStatus) {
    forall j :: j in jobs && jobs[j].batch == Some(b) ==> jobs[j].status == status
  }

  /** Some job of the batch has this status. */
  ghost predicate SomeAre(jobs: map<Uuid, Job>, b: Uuid, status: JobStatus) {
    exists j :: j in jobs && jobs[j].batch == Some(b) && jobs[j].status == status
  }

  /** The counts are the true ones, and the status is read off the jobs and the cancel request. */
  ghost predicate Says(jobs: map<Uuid, Job>, b: Uuid, batch: Batch) {
    var remain := SomeAre(jobs, b, Pending) || SomeAre(jobs, b, Processing);
    var cancel := batch.cancelRequestedAt.Some?;
    && batch.counters.pending == |JobsIn(jobs, b, Pending)|
    && batch.counters.processing == |JobsIn(jobs, b, Processing)|
    && batch.counters.completed == |JobsIn(jobs, b, Completed)|
    && batch.counters.failed == |JobsIn(jobs, b, Failed)|
    && batch.counters.cancelled == |JobsIn(jobs, b, Cancelled)|
    && (batch.status == BatchPending <==> !cancel && AllAre(jobs, b, Pending))
    && (batch.status == BatchProcessing <==> !cancel && remain && !AllAre(jobs, b, Pending))
    && (batch.status == BatchCancelling <==> cancel && remain)
    && (batch.status == BatchCompleted <==> AllAre(jobs, b, Completed))
    && (batch.status == BatchFailed <==> AllAre(jobs, b, Failed))
    && (batch.status == BatchPartiallyFailed <==> !remain && SomeAre(jobs, b, Failed) && !AllAre(jobs, b, Failed))
    && (batch.status == BatchCancelled <==>
          !remain && !SomeAre(jobs, b, Failed) && !AllAre(jobs, b, Completed))
  }

  lemma SomeMeans(jobs: map<Uuid, Job>, b: Uuid, status: JobStatus)
    ensures SomeAre(jobs, b, status) <==> |JobsIn(jobs, b, status)| > 0
  {
    if SomeAre(jobs, b, status) {
      var j :| j in jobs && jobs[j].batch == Some(b) && jobs[j].status == status;
      assert j in JobsIn(jobs, b, status);
    }
    if JobsIn(jobs, b, status) != {} {
      var j :| j in JobsIn(jobs, b, status);
      assert jobs[j].batch == Some(b);
    }
  }

  lemma AllMeans(jobs: map<Uuid, Job>, b: Uuid, status: JobStatus)
    ensures AllAre(jobs, b, status) <==> |JobsIn(jobs, b, status)| == |Members(jobs, b)|
  {
    FullSubset(JobsIn(jobs, b, status), Members(jobs, b));
    if AllAre(jobs, b, status) {
      assert JobsIn(jobs, b, status) == Members(jobs, b);
    }
    if JobsIn(jobs, b, status) == Members(jobs, b) {
      forall j | j in jobs && jobs[j].batch == Some(b) ensures jobs[j].status == status {
        assert j in Members(jobs, b);
      }
    }
  }

  /** After a recount the row of a batch says exactly how its jobs stand. */
  lemma RecountSays(db: Db, b: Uuid)
    requires b in db.batches && db.batches[b].total == |Members(db.jobs, b)| > 0
    ensures Says(db.jobs, b, Refresh(db, b).batches[b])
    ensures Refresh(db, b).batches[b].total == db.batches[b].total
    ensures Refresh(db, b).batches[b].cancelRequestedAt == db.batches[b].cancelRequestedAt
    ensures Refresh(db, b).batches[b].counters.cancelled == |JobsIn(db.jobs, b, Cancelled)|
  {
    hide AllAre, SomeAre, JobsIn;
    Partition(db.jobs, b);
    SomeMeans(db.jobs, b, Pending);
    SomeMeans(db.jobs, b, Processing);
    SomeMeans(db.jobs, b, Failed);
    AllMeans(db.jobs, b, Pending);
    AllMeans(db.jobs, b, Completed);
    AllMeans(db.jobs, b, Failed);
  }

  /** The job's row after its batch was cancelled: a waiting job is cancelled, any other stays. */
  predicate CancelledRow(before: Job, after: Job, b: Uuid) {
    if before.batch == Some(b) && before.status == Pending then
      after == Job(Cancelled, before.token, before.lease, before.attempt, before.batch, before.output)
    else after == before
  }

  lemma CancelledCount(before: map<Uuid, Job>, after: map<Uuid, Job>, b: Uuid)
    requires before.Keys == after.Keys && forall j :: j in before ==> CancelledRow(before[j], after[j], b)
    ensures JobsIn(after, b, Pending) == {}
    ensures |JobsIn(after, b, Cancelled)| == |JobsIn(before, b, Cancelled)| + |JobsIn(before, b, Pending)|
    ensures forall s :: s != Pending && s != Cancelled ==> JobsIn(after, b, s) == JobsIn(before, b, s)
    ensures Members(after, b) == Members(before, b)
  {
    assert JobsIn(after, b, Cancelled) == JobsIn(before, b, Cancelled) + JobsIn(before, b, Pending);
    DisjointSum(JobsIn(before, b, Cancelled), JobsIn(before, b, Pending));
  }

  /** The rows after a cancellation: waiting jobs of the batch are cancelled, and nothing else is touched. */
  lemma CancelRows(db: Db, b: Uuid, now: Time)
    requires b in db.batches && !TerminalBatch(db.batches[b].status)
    ensures var after := CancelBatch(db, b, now);
      && after.jobs.Keys == db.jobs.Keys && after.assets == db.assets && after.audit == db.audit
      && (forall j :: j in db.jobs ==> CancelledRow(db.jobs[j], after.jobs[j], b))
      && after.batches.Keys == db.batches.Keys
      && (forall x :: x in db.batches && x != b ==> after.batches[x] == db.batches[x])
  {
    hide CountJobs, AggregateStatus;
    PendingAreCancelled(db.jobs, b);
  }

  /** The row of the batch after it. */
  lemma CancelSays(db: Db, b: Uuid, now: Time)
    requires b in db.batches && !TerminalBatch(db.batches[b].status) && CountersAgree(db, b)
    ensures var after := CancelBatch(db, b, now);
      var batch := db.batches[b];
      && b in after.batches && Says(after.jobs, b, after.batches[b]) && after.batches[b].total == batch.total
      && after.batches[b].counters.cancelled == |JobsIn(after.jobs, b, Cancelled)|
      && after.batches[b].cancelRequestedAt ==
           Some(if batch.cancelRequestedAt.Some? then batch.cancelRequestedAt.value else now)
  {
    var batch := db.batches[b];
    var at := if batch.cancelRequestedAt.Some? then batch.cancelRequestedAt.value else now;
    var marked := db.(batches := db.batches[b := batch.(cancelRequestedAt := Some(at))],
                      jobs := CancelPending(db.jobs, b));
    PendingAreCancelled(db.jobs, b);
    CancelledCount(db.jobs, marked.jobs, b);
    RecountSays(marked, b);
  }

  /**
    Cancelling a batch that has not ended cancels every waiting job of it and no
    other, keeps the time of the first request, and leaves a row that says so;
    everything else stays.  A batch that has ended is left alone.
  */
  lemma CancelBatchMeans(db: Db, b: Uuid, now: Time)
    requires b in db.batches && BatchesOk(db)
    ensures var after := CancelBatch(db, b, now);
      var batch := db.batches[b];
      if TerminalBatch(batch.status) then after == db
      else
        && after.jobs.Keys == db.jobs.Keys && after.assets == db.assets && after.audit == db.audit
        && (forall j :: j in db.jobs ==> CancelledRow(db.jobs[j], after.jobs[j], b))
        && JobsIn(after.jobs, b, Pending) == {}
        && after.batches.Keys == db.batches.Keys
        && (forall x :: x in db.batches && x != b ==> after.batches[x] == db.batches[x])
        && Says(after.jobs, b, after.batches[b]) && after.batches[b].total == batch.total
        && after.batches[b].counters.cancelled == |JobsIn(db.jobs, b, Cancelled)| + |JobsIn(db.jobs, b, Pending)|
        && after.batches[b].cancelRequestedAt ==
             Some(if batch.cancelRequestedAt.Some? then batch.cancelRequestedAt.value else now)
  {
    if !TerminalBatch(db.batches[b].status) {
      assert CountersAgree(db, b);
      CancelRows(db, b, now);
      CancelSays(db, b, now);
      hide CancelBatch, Says, BatchesOk, CountersAgree, CancelledRow;
      CancelledCount(db.jobs, CancelBatch(db, b, now).jobs, b);
    }
  }

  lemma PendingAreCancelled(jobs: map<Uuid, Job>, b: Uuid)
    ensures var after := CancelPending(jobs, b);
      after.Keys == jobs.Keys && forall j :: j in jobs ==> CancelledRow(jobs[j], after[j], b)
  {
  }

  /** A new batch has one waiting job per id, and its row says so; nothing else changes. */
  lemma CreateBatchMeans(db: Db, b: Uuid, ids: seq<Uuid>)
    requires FreshBatch(db, b, ids)
    ensures var after := CreateBatch(db, b, ids);
      && after.assets == db.assets && after.audit == db.audit
      && after.batches == db.batches[b := Batch(BatchPending, |ids|, Counters(|ids|, 0, 0, 0, 0), None)]
      && (forall j :: j in after.jobs <==> j in db.jobs || j in ids)
      && (forall j :: j in db.jobs ==> after.jobs[j] == db.jobs[j])
      && (forall j :: j in ids ==> after.jobs[j] == Job(Pending, None, None, 0, Some(b), None))
  {
  }

  // ----- How far pending may be off ----------------------------------------------------

  /** By how much the stored pending count exceeds the true one; processing is off by as much the other way. */
  function Drift(db: Db, b: Uuid): int
    requires b in db.batches
  {
    db.batches[b].counters.pending - |JobsIn(db.jobs, b, Pending)|
  }

  predicate WaitsIn(job: Job, b: Uuid) {
    job.batch == Some(b) && job.status == Pending
  }

  /** Rewriting one job moves the count by that job alone. */
  lemma MovedJob(jobs: map<Uuid, Job>, j: Uuid, job: Job, b: Uuid)
    requires j in jobs
    ensures |JobsIn(jobs[j := job], b, Pending)|
         == |JobsIn(jobs, b, Pending)| - (if WaitsIn(jobs[j], b) then 1 else 0) + (if WaitsIn(job, b) then 1 else 0)
  {
    var rest := JobsIn(jobs, b, Pending) - {j};
    assert JobsIn(jobs, b, Pending) == if WaitsIn(jobs[j], b) then rest + {j} else rest;
    assert JobsIn(jobs[j := job], b, Pending) == if WaitsIn(job, b) then rest + {j} else rest;
  }

  /** Jobs of other batches do not matter. */
  lemma SameDrift(before: Db, after: Db, b: Uuid)
    requires b in before.batches && b in after.batches && after.batches[b].counters == before.batches[b].counters
    requires forall j :: j in before.jobs && WaitsIn(before.jobs[j], b) ==> j in after.jobs && WaitsIn(after.jobs[j], b)
    requires forall j :: j in after.jobs && WaitsIn(after.jobs[j], b) ==> j in before.jobs && WaitsIn(before.jobs[j], b)
    ensures Drift(after, b) == Drift(before, b)
  {
    assert JobsIn(after.jobs, b, Pending) == JobsIn(before.jobs, b, Pending);
  }

  /** A recount of the batch leaves no drift; a recount of another one leaves it as it is. */
  lemma RefreshDrift(db: Db, x: Uuid, b: Uuid)
    requires b in db.batches
    ensures b in Refresh(db, x).batches && Drift(Refresh(db, x), b) == if x == b then 0 else Drift(db, b)
  {
  }
}
