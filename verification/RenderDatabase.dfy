/**
  The tables themselves, changed row by row as the handlers do.  Each method is
  one transaction and is proved to have exactly the effect of its specification
  in `RenderRows`, so the theorems about runs speak about this code.
*/
module RenderDatabase {
  import opened Basics
  import opened RenderRows
  import opened BatchCounters

  class Database {
    var jobs: map<Uuid, Job>
    var batches: map<Uuid, Batch>
    var assets: map<Uuid, Asset>
    var audit: seq<AuditRow>

    function Rows(): Db
      reads this
    {
      Db(jobs, batches, assets, audit)
    }

    constructor ()
      ensures Rows() == Db(map[], map[], map[], [])
    {
      jobs, batches, assets, audit := map[], map[], map[], [];
    }

    /** `tx.renderJob.count` over one batch and status. */
    method CountStatus(b: Uuid, status: JobStatus) returns (n: nat)
      ensures n == |JobsIn(jobs, b, status)|
    {
      var rows := set j | j in jobs && jobs[j].batch == Some(b) && jobs[j].status == status;
      assert rows == JobsIn(jobs, b, status);
      n := |rows|;
    }

    /** The five counts, read in one snapshot. */
    method CountAll(b: Uuid) returns (counters: Counters)
      ensures counters == CountJobs(jobs, b)
    {
      var pendingItems := CountStatus(b, Pending);
      var processingItems := CountStatus(b, Processing);
      var completedItems := CountStatus(b, Completed);
      var failedItems := CountStatus(b, Failed);
      var cancelledItems := CountStatus(b, Cancelled);
      counters := Counters(pendingItems, processingItems, completedItems, failedItems, cancelledItems);
    }

    method UpdateBatchCounters(b: Uuid)
      modifies this`batches
      ensures Rows() == Refresh(old(Rows()), b)
    {
      hide CountJobs, AggregateStatus;
      var counters := CountAll(b);
      assert counters == CountJobs(old(Rows()).jobs, b);
      if b in batches {
        batches := batches[b := Recounted(batches[b], counters)];
      }
    }

    /** The acquisition's `updateMany` and audit row; `acquired` says whether one row matched. */
    method AcquireJob(executionToken: Uuid, j: Uuid, existing: Seen, now: Time) returns (acquired: bool)
      requires Claimable(existing, now)
      modifies this`jobs, this`audit
      ensures Rows() == Claim(old(Rows()), executionToken, j, existing, now)
      ensures acquired == ClaimMatches(old(Rows()), j, existing, now)
    {
      var isRecovery := Recovers(existing, now);
      acquired := false;
      if j in jobs && jobs[j].status == existing.status && (!isRecovery || jobs[j].lease == existing.lease) {
        var row := jobs[j];
        jobs := jobs[j := row.(status := Processing, token := Some(executionToken),
                               lease := Some(now + RENDER_LEASE_MS), attempt := row.attempt + 1)];
        audit := audit + [AuditRow(if isRecovery then RenderRecovered else RenderStarted, j, executionToken)];
        acquired := true;
      }
    }

    method MarkPermanentFailure(executionToken: Uuid, j: Uuid)
      modifies this`jobs, this`batches, this`audit
      ensures Rows() == FailJob(old(Rows()), executionToken, j)
    {
      if j in jobs && jobs[j].token == Some(executionToken) {
        jobs := jobs[j := jobs[j].(status := Failed, lease := None, token := None)];
        audit := audit + [AuditRow(RenderFailed, j, executionToken)];
        if jobs[j].batch.Some? {
          UpdateBatchCounters(jobs[j].batch.value);
        }
      }
    }

    method ReleaseTransientJob(executionToken: Uuid, j: Uuid)
      modifies this`jobs
      ensures Rows() == ReleaseJob(old(Rows()), executionToken, j)
    {
      if j in jobs && jobs[j].token == Some(executionToken) {
        jobs := jobs[j := jobs[j].(status := Pending, lease := None, token := None)];
      }
    }

    /** Cooperative cancellation of the execution's own job. */
    method CancelOwnJob(executionToken: Uuid, j: Uuid, b: Uuid)
      modifies this`jobs, this`batches
      ensures Rows() == CancelJob(old(Rows()), executionToken, j, b)
    {
      if j in jobs && jobs[j].token == Some(executionToken) {
        jobs := jobs[j := jobs[j].(status := Cancelled, token := None, lease := None)];
      }
      UpdateBatchCounters(b);
    }

    /** The reservation aborts unless the token still holds; an existing asset row is left as it is. */
    method ReserveMedia(executionToken: Uuid, j: Uuid, now: Time) returns (reserved: bool)
      modifies this`assets
      ensures reserved == HeldBy(old(Rows()), j, executionToken)
      ensures Rows() == if reserved then ReserveAsset(old(Rows()), j, now) else old(Rows())
    {
      reserved := j in jobs && jobs[j].token == Some(executionToken);
      if reserved && j !in assets {
        assets := assets[j := Asset(AssetPending, None, now)];
      }
    }

    /** Both writes of the finalization, rolled back together when the token no longer matches. */
    method FinalizeRender(executionToken: Uuid, j: Uuid, meta: Meta) returns (committed: bool)
      modifies this
      ensures committed == FinalizeCommits(old(Rows()), executionToken, j, meta)
      ensures Rows() == FinalizeJob(old(Rows()), executionToken, j, meta)
    {
      committed := false;
      if j !in assets || !MayFinalize(assets[j], meta) {
        return;
      }
      var savedAssets := assets;
      assets := assets[j := assets[j].(status := AssetReady, meta := Some(meta))];
      if j !in jobs || jobs[j].token != Some(executionToken) {
        assets := savedAssets;
        return;
      }
      jobs := jobs[j := jobs[j].(status := Completed, output := Some(j), lease := None, token := None)];
      audit := audit + [AuditRow(RenderCompleted, j, executionToken)];
      if jobs[j].batch.Some? {
        UpdateBatchCounters(jobs[j].batch.value);
      }
      committed := true;
    }

    /** The upload's claim: only a pending row younger than the upload window. */
    method ClaimUploadRow(a: Uuid, now: Time) returns (claimed: bool)
      modifies this`assets
      ensures claimed == UploadClaimable(old(Rows()), a, now)
      ensures Rows() == if claimed then SetAsset(old(Rows()), a, AssetUploading) else old(Rows())
    {
      claimed := a in assets && assets[a].status == AssetPending && assets[a].createdAt > now - UPLOAD_WINDOW_MS;
      if claimed {
        assets := assets[a := assets[a].(status := AssetUploading)];
      }
    }

    method CommitUploadRow(a: Uuid, meta: Meta) returns (committed: bool)
      modifies this`assets
      ensures committed == Uploading(old(Rows()), a)
      ensures Rows() == CommitUpload(old(Rows()), a, meta)
    {
      committed := a in assets && assets[a].status == AssetUploading;
      if committed {
        assets := assets[a := assets[a].(status := AssetReady, meta := Some(meta))];
      }
    }

    method FailUploadRow(a: Uuid)
      modifies this`assets
      ensures Rows() == if Uploading(old(Rows()), a) then SetAsset(old(Rows()), a, AssetFailed) else old(Rows())
    {
      if a in assets && assets[a].status == AssetUploading {
        assets := assets[a := assets[a].(status := AssetFailed)];
      }
    }

    /** Jobs of the batch that have not started are cancelled together. */
    method CancelPendingJobs(b: Uuid)
      modifies this`jobs
      ensures jobs == CancelPending(old(jobs), b)
    {
      jobs := map j | j in jobs ::
        if jobs[j].batch == Some(b) && jobs[j].status == Pending then jobs[j].(status := Cancelled) else jobs[j];
    }

    /** The batch cancel route: record the request, cancel what has not started, recount. */
    method CancelRenderBatch(b: Uuid, now: Time)
      modifies this`jobs, this`batches
      ensures Rows() == CancelBatch(old(Rows()), b, now)
    {
      if b !in batches || TerminalBatch(batches[b].status) {
        return;
      }
      var at := if batches[b].cancelRequestedAt.Some? then batches[b].cancelRequestedAt.value else now;
      batches := batches[b := batches[b].(cancelRequestedAt := Some(at))];
      CancelPendingJobs(b);
      UpdateBatchCounters(b);
    }

    /** Batch and job rows of a new batch, one job per item in item order. */
    method CreateRenderBatch(b: Uuid, ids: seq<Uuid>) returns (created: seq<Uuid>)
      requires FreshBatch(Rows(), b, ids)
      modifies this`jobs, this`batches
      ensures Rows() == CreateBatch(old(Rows()), b, ids)
      ensures created == ids
    {
      batches := batches[b := Batch(BatchPending, |ids|, Counters(|ids|, 0, 0, 0, 0), None)];
      created := [];
      var idx := 0;
      while idx < |ids|
        invariant 0 <= idx <= |ids| && created == ids[..idx]
        invariant jobs == AddJobs(old(jobs), b, ids[..idx])
        invariant batches == old(batches)[b := Batch(BatchPending, |ids|, Counters(|ids|, 0, 0, 0, 0), None)]
      {
        AddJobsNext(old(jobs), b, ids, idx);
        jobs := jobs[ids[idx] := NewJob.(batch := Some(b))];
        created := created + [ids[idx]];
        idx := idx + 1;
      }
      assert ids[..idx] == ids;
    }

    /**
      The candidates of one reconciliation cycle with what the queue said of each.
      `recovered` counts the candidates put back on the queue; only those are reset.
    */
    method Reconcile(candidates: seq<Candidate>, activeBatches: seq<Uuid>) returns (recovered: nat)
      modifies this`jobs, this`batches
      ensures recovered == |Requeued(candidates)|
      ensures Rows() == RefreshAll(ResetAll(old(Rows()), Requeued(candidates)), activeBatches)
    {
      recovered := 0;
      var i := 0;
      while i < |candidates|
        invariant 0 <= i <= |candidates| && batches == old(batches)
        invariant recovered == |Requeued(candidates[..i])|
        invariant Rows() == ResetAll(old(Rows()), Requeued(candidates[..i]))
      {
        var candidate := candidates[i];
        RequeuedNext(old(Rows()), candidates, i);
        if NeedsEnqueue(candidate) {
          if candidate.job in jobs && jobs[candidate.job].status == candidate.status && candidate.status == Processing {
            jobs := jobs[candidate.job := jobs[candidate.job].(status := Pending, lease := None, token := None)];
          }
          recovered := recovered + 1;
        }
        i := i + 1;
      }
      assert candidates[..i] == candidates;
      var k := 0;
      ghost var reset := Rows();
      while k < |activeBatches|
        invariant 0 <= k <= |activeBatches|
        invariant Rows() == RefreshAll(reset, activeBatches[..k])
      {
        assert activeBatches[..k + 1][..k] == activeBatches[..k];
        UpdateBatchCounters(activeBatches[k]);
        k := k + 1;
      }
      assert activeBatches[..k] == activeBatches;
    }
  }

  /** What the queue said of a candidate: no entry, one that ended, a live one, or an error on the way. */
  datatype QueueEntry = Missing | Ended | Live | Unreachable

  /** A job the reconciler found, with the status it was found in. */
  datatype Candidate = Candidate(job: Uuid, status: JobStatus, entry: QueueEntry)

  predicate NeedsEnqueue(candidate: Candidate) {
    candidate.entry == Missing || candidate.entry == Ended
  }

  /** The candidates that are put back on the queue. */
  function Requeued(candidates: seq<Candidate>): seq<Candidate> {
    if candidates == [] then []
    else
      var last := candidates[|candidates| - 1];
      Requeued(candidates[..|candidates| - 1]) + (if NeedsEnqueue(last) then [last] else [])
  }

  function ResetAll(db: Db, candidates: seq<Candidate>): Db {
    if candidates == [] then db
    else
      var last := candidates[|candidates| - 1];
      ResetCandidate(ResetAll(db, candidates[..|candidates| - 1]), last.job, last.status)
  }

  function RefreshAll(db: Db, batches: seq<Uuid>): Db {
    if batches == [] then db
    else Refresh(RefreshAll(db, batches[..|batches| - 1]), batches[|batches| - 1])
  }

  /** Among the first `n` candidates the job was found PROCESSING, and the queue holds no live entry for it. */
  predicate FoundIdle(candidates: seq<Candidate>, n: nat, j: Uuid)
    requires n <= |candidates|
  {
    exists k :: 0 <= k < n && candidates[k].job == j && candidates[k].status == Processing
                && (candidates[k].entry == Missing || candidates[k].entry == Ended)
  }

  /** The candidates the queue has no live entry for. */
  function Idle(candidates: seq<Candidate>, n: nat): set<nat>
    requires n <= |candidates|
  {
    set k | 0 <= k < n && (candidates[k].entry == Missing || candidates[k].entry == Ended)
  }

  lemma {:induction false} ResetsExactly(db: Db, candidates: seq<Candidate>, n: nat)
    requires n <= |candidates|
    ensures var after := ResetAll(db, Requeued(candidates[..n]));
      && after == db.(jobs := after.jobs) && after.jobs.Keys == db.jobs.Keys
      && forall j :: j in db.jobs ==>
           after.jobs[j] ==
             if db.jobs[j].status == Processing && FoundIdle(candidates, n, j) then
               db.jobs[j].(status := Pending, token := None, lease := None)
             else db.jobs[j]
  {
    if n == 0 {
      assert candidates[..0] == [];
    } else {
      ResetsExactly(db, candidates, n - 1);
      RequeuedNext(db, candidates, n - 1);
      hide FoundIdle, Requeued, ResetAll, ResetCandidate;
      var c := candidates[n - 1];
      ResetOne(ResetAll(db, Requeued(candidates[..n - 1])), c.job, c.status);
      forall j | j in db.jobs
        ensures FoundIdle(candidates, n, j) == (FoundIdle(candidates, n - 1, j) || IdleNow(c, j))
      {
        FoundNext(candidates, n, j);
      }
    }
  }

  lemma {:induction false} CountsIdle(candidates: seq<Candidate>, n: nat)
    requires n <= |candidates|
    ensures |Requeued(candidates[..n])| == |Idle(candidates, n)|
  {
    if n == 0 {
      assert candidates[..0] == [] && Idle(candidates, 0) == {};
    } else {
      CountsIdle(candidates, n - 1);
      RequeuedNext(Db(map[], map[], map[], []), candidates, n - 1);
      assert Idle(candidates, n)
          == Idle(candidates, n - 1) + (if NeedsEnqueue(candidates[n - 1]) then {n - 1} else {});
    }
  }

  /** This candidate is the job, PROCESSING when found and without a live entry. */
  predicate IdleNow(c: Candidate, j: Uuid) {
    c.job == j && c.status == Processing && NeedsEnqueue(c)
  }

  lemma FoundNext(candidates: seq<Candidate>, n: nat, j: Uuid)
    requires 0 < n <= |candidates|
    ensures FoundIdle(candidates, n, j) == (FoundIdle(candidates, n - 1, j) || IdleNow(candidates[n - 1], j))
  {
  }

  lemma ResetOne(db: Db, j: Uuid, status: JobStatus)
    ensures var after := ResetCandidate(db, j, status);
      && after == db.(jobs := after.jobs) && after.jobs.Keys == db.jobs.Keys
      && forall x :: x in db.jobs ==>
           after.jobs[x] ==
             if x == j && status == Processing && db.jobs[x].status == Processing then
               db.jobs[x].(status := Pending, token := None, lease := None)
             else db.jobs[x]
  {
  }

  lemma {:induction false} RecountsExactly(db: Db, batches: seq<Uuid>)
    ensures var after := RefreshAll(db, batches);
      && after == db.(batches := after.batches) && after.batches.Keys == db.batches.Keys
      && forall b :: b in db.batches ==>
           after.batches[b] == if b in batches then Refresh(db, b).batches[b] else db.batches[b]
  {
    hide CountJobs, AggregateStatus;
    if batches != [] {
      var front, last := batches[..|batches| - 1], batches[|batches| - 1];
      RecountsExactly(db, front);
      assert forall b :: b in batches <==> b in front || b == last;
    }
  }

  /**
    What a reconciliation cycle does: the jobs still PROCESSING that it found so
    and without a live queue entry wait again, each active batch is recounted, and
    nothing else changes.
  */
  lemma ReconcilesExactly(db: Db, candidates: seq<Candidate>, active: seq<Uuid>)
    ensures |Requeued(candidates)| == |Idle(candidates, |candidates|)|
    ensures var after := RefreshAll(ResetAll(db, Requeued(candidates)), active);
      && after.assets == db.assets && after.audit == db.audit
      && after.jobs.Keys == db.jobs.Keys && after.batches.Keys == db.batches.Keys
      && (forall j :: j in db.jobs ==>
            after.jobs[j] ==
              if db.jobs[j].status == Processing && FoundIdle(candidates, |candidates|, j) then
                db.jobs[j].(status := Pending, token := None, lease := None)
              else db.jobs[j])
      && (forall b :: b in db.batches && b !in active ==> after.batches[b] == db.batches[b])
      && (forall b :: b in db.batches && b in active && db.batches[b].total == |Members(after.jobs, b)| > 0 ==>
            Says(after.jobs, b, after.batches[b]))
  {
    hide CountJobs, AggregateStatus, Says;
    assert candidates[..|candidates|] == candidates;
    ResetsExactly(db, candidates, |candidates|);
    CountsIdle(candidates, |candidates|);
    var reset := ResetAll(db, Requeued(candidates));
    RecountsExactly(reset, active);
    forall b | b in db.batches && b in active && db.batches[b].total == |Members(reset.jobs, b)| > 0
      ensures Says(reset.jobs, b, Refresh(reset, b).batches[b])
    {
      RecountSays(reset, b);
    }
  }

  lemma RequeuedNext(db: Db, candidates: seq<Candidate>, i: nat)
    requires i < |candidates|
    ensures var before, last := Requeued(candidates[..i]), candidates[i];
      if NeedsEnqueue(last) then
        && |Requeued(candidates[..i + 1])| == |before| + 1
        && ResetAll(db, Requeued(candidates[..i + 1])) == ResetCandidate(ResetAll(db, before), last.job, last.status)
      else Requeued(candidates[..i + 1]) == before
  {
    var before, last := Requeued(candidates[..i]), candidates[i];
    assert candidates[..i + 1][..i] == candidates[..i];
    assert (before + [last])[..|before|] == before;
  }

  lemma AddJobsNext(jobs: map<Uuid, Job>, b: Uuid, ids: seq<Uuid>, i: nat)
    requires i < |ids|
    ensures ids[..i + 1] == ids[..i] + [ids[i]]
    ensures AddJobs(jobs, b, ids[..i + 1]) == AddJobs(jobs, b, ids[..i])[ids[i] := NewJob.(batch := Some(b))]
  {
    assert ids[..i + 1] == ids[..i] + [ids[i]];
    assert forall j :: j in ids[..i + 1] <==> j in ids[..i] || j == ids[i];
  }
}
