/** Schedule rows and the guarded writes that change them. */
module ScheduleRows {
  import opened Basics

  /** A job this late is not published without a review, in milliseconds. */
  const LATE_TOLERANCE_MS: Time := 900000

  /** How long an acquired schedule stays leased, in milliseconds. */
  const SCHEDULE_LEASE_MS: Time := 300000

  /** `InProcess` is the row status PROCESSING, `AllPublished` PUBLISHED and `FailedToPrepare` FAILED. */
  datatype ScheduleStatus =
    | Scheduled | Enqueued | InProcess
    | AllPublished | PartiallyPublished | FailedToPrepare | DeadLetter | Cancelled | RequiresReconciliation

  datatype Schedule = Schedule(
    status: ScheduleStatus,
    version: nat,
    token: Option<Uuid>,
    lease: Option<Time>,
    dueAt: Time,
    targets: seq<Uuid>)

  predicate Waiting(status: ScheduleStatus) {
    status == Scheduled || status == Enqueued
  }

  predicate Final(status: ScheduleStatus) {
    !Waiting(status) && status != InProcess
  }

  predicate Late(row: Schedule, now: Time) {
    now - row.dueAt > LATE_TOLERANCE_MS
  }

  /** The compare-and-set of an acquisition matches. */
  predicate Acquires(row: Schedule, version: nat, now: Time) {
    row.version == version && Waiting(row.status) && !Late(row, now)
  }

  function Acquire(row: Schedule, version: nat, token: Uuid, leaseEnd: Time, now: Time): Schedule {
    if row.version != version || !Waiting(row.status) then row
    else if Late(row, now) then row.(status := RequiresReconciliation, lease := None)
    else row.(status := InProcess, token := Some(token), lease := Some(leaseEnd))
  }

  /** The guard of every write of an execution: version, token and PROCESSING. */
  predicate Held(row: Schedule, version: nat, token: Uuid) {
    row.version == version && row.token == Some(token) && row.status == InProcess
  }

  function Settle(row: Schedule, version: nat, token: Uuid, status: ScheduleStatus): Schedule {
    if Held(row, version, token) then row.(status := status, lease := None) else row
  }

  function Requeue(row: Schedule, version: nat, token: Uuid): Schedule {
    if Held(row, version, token) then row.(status := Enqueued, token := None, lease := None) else row
  }

  /** The handler of a job out of tries: guarded by version and status only. */
  function Exhaust(row: Schedule, version: nat): Schedule {
    if row.version == version && row.status == InProcess then row.(status := DeadLetter, lease := None) else row
  }

  function FlagLate(row: Schedule): Schedule {
    if Waiting(row.status) then row.(status := RequiresReconciliation, lease := None) else row
  }

  function FlagOrphan(row: Schedule): Schedule {
    if row.status == InProcess then row.(status := RequiresReconciliation, lease := None) else row
  }

  function MarkEnqueued(row: Schedule): Schedule {
    if row.status == Scheduled then row.(status := Enqueued) else row
  }

  function Reschedule(row: Schedule, version: nat, dueAt: Time): Schedule {
    if row.version == version && Waiting(row.status) then
      row.(dueAt := dueAt, version := version + 1, status := Scheduled, token := None, lease := None)
    else row
  }

  /** The last write of the reschedule route: guarded. */
  function ConfirmRescheduled(row: Schedule, version: nat): Schedule {
    if row.version == version then MarkEnqueued(row) else row
  }

  /** The last write of the create route: not guarded. */
  function ConfirmCreated(row: Schedule): Schedule {
    row.(status := Enqueued)
  }

  function Cancel(row: Schedule): Schedule {
    if Waiting(row.status) then row.(status := Cancelled, token := None, lease := None) else row
  }

  /** The transitions the protocol intends; `holder` is the execution that writes, if any. */
  predicate Intended(before: Schedule, after: Schedule, holder: Option<Uuid>) {
    && after.targets == before.targets
    && (after.version == before.version || (after.version == before.version + 1 && Waiting(before.status)))
    && (Final(before.status) ==> after == before)
    && (before.status == InProcess && Waiting(after.status) ==>
          after.version == before.version && holder.Some? && before.token == holder)
    && (before.status == InProcess && after.status == InProcess ==> after == before)
    && (Waiting(before.status) && after.status == InProcess ==>
          after.version == before.version && holder.Some? && after.token == holder)
  }

  /**
    The unguarded write of the create route is an intended transition exactly
    when the row is still waiting; on any other row it revives or reopens it.
  */
  lemma ConfirmCreatedIntended(row: Schedule)
    ensures Intended(row, ConfirmCreated(row), None) <==> Waiting(row.status)
  {
  }

  // ----- The table, written as the handlers do -------------------------------------------

  datatype Acquisition =
    | NotFound | ObsoleteVersion | AlreadyCancelled | AlreadyTerminal | FlaggedLate | NotAcquired
    | Acquired(row: Schedule)

  /** What the queue said of a candidate's job. */
  datatype QueueEntry = Missing | Present | Unreachable

  /** A candidate as discovered, with the leases of its schedule's unfinished attempts. */
  datatype Candidate = Candidate(
    schedule: Uuid,
    status: ScheduleStatus,
    dueAt: Time,
    lease: Option<Time>,
    updatedAt: Time,
    entry: QueueEntry,
    attempts: seq<Option<Time>>)

  predicate Running(lease: Option<Time>, now: Time) {
    lease.Some? && lease.value > now
  }

  /** No lease runs, and something shows that an execution was there and is gone. */
  predicate Orphaned(c: Candidate, now: Time) {
    && (forall k :: 0 <= k < |c.attempts| ==> !Running(c.attempts[k], now))
    && !Running(c.lease, now)
    && (|c.attempts| > 0 || now - c.updatedAt > 300000 || c.lease.Some?)
  }

  class ScheduleTable {
    var schedules: map<Uuid, Schedule>

    constructor ()
      ensures schedules == map[]
    {
      schedules := map[];
    }

    /** The acquisition transaction of `processScheduleJob`. */
    method AcquireSchedule(s: Uuid, version: nat, token: Uuid, began: Time, now: Time) returns (r: Acquisition)
      modifies this
      ensures r.NotFound? <==> s !in old(schedules)
      ensures s in old(schedules) ==>
        var row := old(schedules)[s];
        && schedules == old(schedules)[s := Acquire(row, version, token, began + SCHEDULE_LEASE_MS, now)]
        && (r.Acquired? <==> Acquires(row, version, now))
        && (r.Acquired? ==> r.row == row)
        && (r.FlaggedLate? <==> row.version == version && Waiting(row.status) && Late(row, now))
      ensures s !in old(schedules) ==> schedules == old(schedules)
    {
      if s !in schedules {
        return NotFound;
      }
      var row := schedules[s];
      if row.version != version {
        assert schedules == schedules[s := row];
        return ObsoleteVersion;
      }
      if row.status == Cancelled {
        assert schedules == schedules[s := row];
        return AlreadyCancelled;
      }
      if row.status in {AllPublished, PartiallyPublished, DeadLetter, RequiresReconciliation} {
        assert schedules == schedules[s := row];
        return AlreadyTerminal;
      }
      if now - row.dueAt > LATE_TOLERANCE_MS {
        if row.status in {Scheduled, Enqueued} {
          schedules := schedules[s := row.(status := RequiresReconciliation, lease := None)];
          return FlaggedLate;
        }
        assert schedules == schedules[s := row];
        return NotAcquired;
      }
      if row.status !in {Scheduled, Enqueued} {
        assert schedules == schedules[s := row];
        return NotAcquired;
      }
      schedules := schedules[s := row.(status := InProcess, token := Some(token),
                                       lease := Some(began + SCHEDULE_LEASE_MS))];
      return Acquired(row);
    }

    /** The token-guarded final write; `updated` says whether the execution still held its schedule. */
    method FinishExecution(s: Uuid, version: nat, token: Uuid, status: ScheduleStatus) returns (updated: bool)
      requires s in schedules
      modifies this
      ensures schedules == old(schedules)[s := Settle(old(schedules)[s], version, token, status)]
      ensures updated == Held(old(schedules)[s], version, token)
    {
      var row := schedules[s];
      updated := row.version == version && row.token == Some(token) && row.status == InProcess;
      schedules := schedules[s := if updated then row.(status := status, lease := None) else row];
    }

    /** The token-guarded write that puts the schedule back for another try. */
    method RetryExecution(s: Uuid, version: nat, token: Uuid) returns (retryEnqueued: bool)
      requires s in schedules
      modifies this
      ensures schedules == old(schedules)[s := Requeue(old(schedules)[s], version, token)]
      ensures retryEnqueued == Held(old(schedules)[s], version, token)
    {
      var row := schedules[s];
      retryEnqueued := row.version == version && row.token == Some(token) && row.status == InProcess;
      var waiting := row.(status := Enqueued, token := None, lease := None);
      schedules := schedules[s := if retryEnqueued then waiting else row];
    }

    /** The `failed` handler of a job out of tries. */
    method MarkExhausted(s: Uuid, version: nat)
      modifies this
      ensures s !in old(schedules) ==> schedules == old(schedules)
      ensures s in old(schedules) ==> schedules == old(schedules)[s := Exhaust(old(schedules)[s], version)]
    {
      if s in schedules {
        var row := schedules[s];
        schedules := schedules[s :=
          if row.version == version && row.status == InProcess then row.(status := DeadLetter, lease := None) else row];
      }
    }

    /** The reschedule route's compare-and-set on the version it read. */
    method RescheduleRow(s: Uuid, version: nat, dueAt: Time) returns (ok: bool)
      requires s in schedules
      modifies this
      ensures schedules == old(schedules)[s := Reschedule(old(schedules)[s], version, dueAt)]
      ensures ok <==> schedules[s].version == version + 1 && old(schedules)[s].version == version
    {
      var row := schedules[s];
      ok := row.version == version && row.status in {Scheduled, Enqueued};
      schedules := schedules[s :=
        if ok then row.(dueAt := dueAt, version := version + 1, status := Scheduled, token := None,
                        lease := None) else row];
    }

    method CancelRow(s: Uuid) returns (ok: bool)
      requires s in schedules
      modifies this
      ensures schedules == old(schedules)[s := Cancel(old(schedules)[s])]
      ensures ok <==> Waiting(old(schedules)[s].status)
    {
      var row := schedules[s];
      ok := row.status in {Scheduled, Enqueued};
      schedules := schedules[s := if ok then row.(status := Cancelled, token := None, lease := None) else row];
    }

    /** The candidates that wait: late ones are set aside, ones the queue lost are put back. */
    method ReconcileWaiting(candidates: seq<Candidate>, now: Time) returns (recoveredJobs: nat, flaggedLate: nat)
      modifies this
      ensures Tally(schedules, recoveredJobs, flaggedLate, 0)
           == AfterWaiting(Tally(old(schedules), 0, 0, 0), candidates, |candidates|, now)
    {
      recoveredJobs, flaggedLate := 0, 0;
      for i := 0 to |candidates|
        invariant Tally(schedules, recoveredJobs, flaggedLate, 0)
               == AfterWaiting(Tally(old(schedules), 0, 0, 0), candidates, i, now)
      {
        var c := candidates[i];
        if c.status in {Scheduled, Enqueued} {
          if now - c.dueAt > LATE_TOLERANCE_MS {
            if c.schedule in schedules && schedules[c.schedule].status in {Scheduled, Enqueued} {
              schedules := schedules[c.schedule := schedules[c.schedule].(status := RequiresReconciliation,
                                                                          lease := None)];
              flaggedLate := flaggedLate + 1;
            }
          } else if c.entry == Missing && c.schedule in schedules {
            if schedules[c.schedule].status == Scheduled {
              schedules := schedules[c.schedule := schedules[c.schedule].(status := Enqueued)];
            }
            recoveredJobs := recoveredJobs + 1;
          }
        }
      }
    }

    /** `runStartupReconciliation`: the waiting candidates, then the abandoned executions. */
    method RunStartupReconciliation(candidates: seq<Candidate>, now: Time)
      returns (recoveredJobs: nat, flaggedLate: nat, flaggedOrphan: nat)
      modifies this
      ensures Tally(schedules, recoveredJobs, flaggedLate, flaggedOrphan) == Reconciled(old(schedules), candidates, now)
    {
      recoveredJobs, flaggedLate := ReconcileWaiting(candidates, now);
      flaggedOrphan := 0;
      ghost var waited := Tally(schedules, recoveredJobs, flaggedLate, 0);
      for i := 0 to |candidates|
        invariant Tally(schedules, recoveredJobs, flaggedLate, flaggedOrphan)
               == AfterOrphans(waited, candidates, i, now)
      {
        var c := candidates[i];
        if c.status == InProcess && Orphaned(c, now) && c.schedule in schedules
           && schedules[c.schedule].status == InProcess {
          schedules := schedules[c.schedule := schedules[c.schedule].(status := RequiresReconciliation, lease := None)];
          flaggedOrphan := flaggedOrphan + 1;
        }
      }
    }
  }

  // ----- Startup reconciliation as a function -----------------------------------------------

  datatype Tally = Tally(schedules: map<Uuid, Schedule>, recovered: nat, late: nat, orphans: nat)

  function ServeWaiting(t: Tally, c: Candidate, now: Time): Tally {
    if !Waiting(c.status) || c.schedule !in t.schedules then t
    else
      var row := t.schedules[c.schedule];
      if now - c.dueAt > LATE_TOLERANCE_MS then
        if Waiting(row.status) then t.(schedules := t.schedules[c.schedule := FlagLate(row)], late := t.late + 1) else t
      else if c.entry == Missing then
        t.(schedules := t.schedules[c.schedule := MarkEnqueued(row)], recovered := t.recovered + 1)
      else t
  }

  function ServeOrphan(t: Tally, c: Candidate, now: Time): Tally {
    if c.status != InProcess || !Orphaned(c, now) || c.schedule !in t.schedules
       || t.schedules[c.schedule].status != InProcess then t
    else t.(schedules := t.schedules[c.schedule := FlagOrphan(t.schedules[c.schedule])], orphans := t.orphans + 1)
  }

  function AfterWaiting(t: Tally, candidates: seq<Candidate>, n: nat, now: Time): Tally
    requires n <= |candidates|
  {
    if n == 0 then t else ServeWaiting(AfterWaiting(t, candidates, n - 1, now), candidates[n - 1], now)
  }

  function AfterOrphans(t: Tally, candidates: seq<Candidate>, n: nat, now: Time): Tally
    requires n <= |candidates|
  {
    if n == 0 then t else ServeOrphan(AfterOrphans(t, candidates, n - 1, now), candidates[n - 1], now)
  }

  function Reconciled(schedules: map<Uuid, Schedule>, candidates: seq<Candidate>, now: Time): Tally {
    AfterOrphans(AfterWaiting(Tally(schedules, 0, 0, 0), candidates, |candidates|, now), candidates, |candidates|, now)
  }

  /** The schedules that waited and were set aside between two states of the table. */
  function LateAside(before: map<Uuid, Schedule>, after: map<Uuid, Schedule>): set<Uuid> {
    set s | s in before && s in after && Waiting(before[s].status) && after[s].status == RequiresReconciliation
  }

  /** Those that were PROCESSING. */
  function OrphansAside(before: map<Uuid, Schedule>, after: map<Uuid, Schedule>): set<Uuid> {
    set s | s in before && s in after && before[s].status == InProcess && after[s].status == RequiresReconciliation
  }

  /** Every row moved as intended and no execution gained or lost a hold to another. */
  predicate RowsSound(before: map<Uuid, Schedule>, after: map<Uuid, Schedule>) {
    && after.Keys == before.Keys
    && forall s :: s in before ==>
         && Intended(before[s], after[s], None)
         && after[s].token == before[s].token && after[s].version == before[s].version
  }

  /** Sound rows, and flags that count the rows set aside. */
  predicate SoundTally(before: map<Uuid, Schedule>, t: Tally) {
    && RowsSound(before, t.schedules)
    && t.late == |LateAside(before, t.schedules)| && t.orphans == |OrphansAside(before, t.schedules)|
  }

  lemma SettingAsideIntended(before: Schedule, row: Schedule)
    requires Intended(before, row, None) && (Waiting(row.status) || row.status == InProcess)
    ensures Intended(before, row.(status := RequiresReconciliation, lease := None), None)
    ensures if Waiting(row.status) then Waiting(before.status) else before.status == InProcess
  {
  }

  lemma OneMoreAside(before: map<Uuid, Schedule>, rows: map<Uuid, Schedule>, s: Uuid, row: Schedule)
    requires s in before && s in rows && rows[s].status != RequiresReconciliation
    requires row.status == RequiresReconciliation
    ensures LateAside(before, rows[s := row]) == LateAside(before, rows) + if Waiting(before[s].status) then {s} else {}
    ensures OrphansAside(before, rows[s := row])
         == OrphansAside(before, rows) + if before[s].status == InProcess then {s} else {}
    ensures s !in LateAside(before, rows) && s !in OrphansAside(before, rows)
  {
  }

  lemma OneMoreSound(before: map<Uuid, Schedule>, rows: map<Uuid, Schedule>, s: Uuid, row: Schedule)
    requires RowsSound(before, rows) && s in before && Intended(before[s], row, None)
    requires row.token == rows[s].token && row.version == rows[s].version
    ensures RowsSound(before, rows[s := row])
  {
  }

  lemma SetOneAside(before: map<Uuid, Schedule>, t: Tally, s: Uuid)
    requires SoundTally(before, t) && s in before
    requires Waiting(t.schedules[s].status) || t.schedules[s].status == InProcess
    ensures var after := t.schedules[s := t.schedules[s].(status := RequiresReconciliation, lease := None)];
      && RowsSound(before, after)
      && |LateAside(before, after)| == t.late + (if Waiting(t.schedules[s].status) then 1 else 0)
      && |OrphansAside(before, after)| == t.orphans + (if Waiting(t.schedules[s].status) then 0 else 1)
  {
    hide LateAside, OrphansAside;
    var row := t.schedules[s].(status := RequiresReconciliation, lease := None);
    SettingAsideIntended(before[s], t.schedules[s]);
    hide Intended;
    OneMoreSound(before, t.schedules, s, row);
    hide RowsSound;
    OneMoreAside(before, t.schedules, s, row);
  }

  lemma PutBack(before: map<Uuid, Schedule>, t: Tally, s: Uuid)
    requires SoundTally(before, t) && s in before
    ensures var after := t.schedules[s := MarkEnqueued(t.schedules[s])];
      && RowsSound(before, after)
      && LateAside(before, after) == LateAside(before, t.schedules)
      && OrphansAside(before, after) == OrphansAside(before, t.schedules)
  {
    assert Intended(before[s], MarkEnqueued(t.schedules[s]), None);
  }

  lemma ServeWaitingSound(before: map<Uuid, Schedule>, t: Tally, c: Candidate, now: Time)
    requires SoundTally(before, t)
    ensures SoundTally(before, ServeWaiting(t, c, now))
  {
    if c.schedule in t.schedules {
      PutBack(before, t, c.schedule);
      if Waiting(t.schedules[c.schedule].status) {
        SetOneAside(before, t, c.schedule);
      }
    }
  }

  lemma ServeOrphanSound(before: map<Uuid, Schedule>, t: Tally, c: Candidate, now: Time)
    requires SoundTally(before, t)
    ensures SoundTally(before, ServeOrphan(t, c, now))
  {
    if ServeOrphan(t, c, now) != t {
      SetOneAside(before, t, c.schedule);
    }
  }

  lemma {:induction false} WaitingSound(before: map<Uuid, Schedule>, t: Tally, candidates: seq<Candidate>, n: nat,
                                        now: Time)
    requires n <= |candidates| && SoundTally(before, t)
    ensures SoundTally(before, AfterWaiting(t, candidates, n, now))
  {
    if n > 0 {
      WaitingSound(before, t, candidates, n - 1, now);
      ServeWaitingSound(before, AfterWaiting(t, candidates, n - 1, now), candidates[n - 1], now);
    }
  }

  lemma {:induction false} OrphansSound(before: map<Uuid, Schedule>, t: Tally, candidates: seq<Candidate>, n: nat,
                                        now: Time)
    requires n <= |candidates| && SoundTally(before, t)
    ensures SoundTally(before, AfterOrphans(t, candidates, n, now))
  {
    if n > 0 {
      OrphansSound(before, t, candidates, n - 1, now);
      ServeOrphanSound(before, AfterOrphans(t, candidates, n - 1, now), candidates[n - 1], now);
    }
  }

  /** The candidates put back: waiting, in time, known, and without a job in the queue. */
  function Lost(schedules: map<Uuid, Schedule>, candidates: seq<Candidate>, n: nat, now: Time): set<nat>
    requires n <= |candidates|
  {
    set k | 0 <= k < n && Waiting(candidates[k].status) && now - candidates[k].dueAt <= 900000
            && candidates[k].entry == Missing && candidates[k].schedule in schedules
  }

  lemma {:induction false} WaitingCounts(schedules: map<Uuid, Schedule>, candidates: seq<Candidate>, n: nat, now: Time)
    requires n <= |candidates|
    ensures var t := AfterWaiting(Tally(schedules, 0, 0, 0), candidates, n, now);
      && t.schedules.Keys == schedules.Keys && t.orphans == 0
      && t.recovered == |Lost(schedules, candidates, n, now)|
  {
    if n == 0 {
      assert Lost(schedules, candidates, 0, now) == {};
    } else {
      WaitingCounts(schedules, candidates, n - 1, now);
      var c := candidates[n - 1];
      var lost := Waiting(c.status) && now - c.dueAt <= 900000 && c.entry == Missing && c.schedule in schedules;
      assert Lost(schedules, candidates, n, now)
          == Lost(schedules, candidates, n - 1, now) + (if lost then {n - 1} else {});
    }
  }

  lemma {:induction false} OrphansKeepCounts(t: Tally, candidates: seq<Candidate>, n: nat, now: Time)
    requires n <= |candidates|
    ensures var after := AfterOrphans(t, candidates, n, now); after.recovered == t.recovered && after.late == t.late
  {
    if n > 0 {
      OrphansKeepCounts(t, candidates, n - 1, now);
    }
  }

  /** The count of recovered jobs is the number of candidates put back. */
  lemma RecoveredIsExact(schedules: map<Uuid, Schedule>, candidates: seq<Candidate>, now: Time)
    ensures Reconciled(schedules, candidates, now).recovered == |Lost(schedules, candidates, |candidates|, now)|
  {
    WaitingCounts(schedules, candidates, |candidates|, now);
    OrphansKeepCounts(AfterWaiting(Tally(schedules, 0, 0, 0), candidates, |candidates|, now), candidates, |candidates|,
                      now);
  }

  // ----- What a startup reconciliation does to each row -----------------------------------------

  /** Among the first `n` candidates the schedule was found waiting, more than a quarter of an hour past its time. */
  predicate FoundLate(candidates: seq<Candidate>, n: nat, s: Uuid, now: Time)
    requires n <= |candidates|
  {
    exists k :: 0 <= k < n && candidates[k].schedule == s && Waiting(candidates[k].status)
                && now - candidates[k].dueAt > 900000
  }

  /** It was found waiting, in time, and without a job in the queue. */
  predicate FoundLost(candidates: seq<Candidate>, n: nat, s: Uuid, now: Time)
    requires n <= |candidates|
  {
    exists k :: 0 <= k < n && candidates[k].schedule == s && Waiting(candidates[k].status)
                && now - candidates[k].dueAt <= 900000 && candidates[k].entry == Missing
  }

  /**
    It was found PROCESSING with no lease running, its own or an attempt's, and
    with a lease or an attempt to show for it, or untouched for five minutes.
  */
  predicate FoundOrphaned(candidates: seq<Candidate>, n: nat, s: Uuid, now: Time)
    requires n <= |candidates|
  {
    exists k :: 0 <= k < n && candidates[k].schedule == s && candidates[k].status == InProcess
                && Unattended(candidates[k], now)
  }

  /** No lease runs, and there is a sign that an execution was there. */
  predicate Unattended(c: Candidate, now: Time) {
    && (c.lease.Some? ==> c.lease.value <= now)
    && (forall k :: 0 <= k < |c.attempts| && c.attempts[k].Some? ==> c.attempts[k].value <= now)
    && (c.lease.Some? || c.attempts != [] || now - c.updatedAt > 300000)
  }

  lemma OrphanedIsUnattended(c: Candidate, now: Time)
    ensures Orphaned(c, now) <==> Unattended(c, now)
  {
    if Unattended(c, now) {
      assert forall k :: 0 <= k < |c.attempts| ==> !Running(c.attempts[k], now);
    }
    if Orphaned(c, now) {
      assert forall k :: 0 <= k < |c.attempts| ==> !Running(c.attempts[k], now);
    }
  }

  /** A waiting row after the first pass over `n` candidates; other rows are left alone. */
  function AfterWait(row: Schedule, late: bool, lost: bool): Schedule {
    if late && Waiting(row.status) then row.(status := RequiresReconciliation, lease := None)
    else if lost && row.status == Scheduled then row.(status := Enqueued)
    else row
  }

  lemma {:induction false} WaitingPass(schedules: map<Uuid, Schedule>, candidates: seq<Candidate>, n: nat, s: Uuid,
                                       now: Time)
    requires n <= |candidates| && s in schedules
    ensures var after := AfterWaiting(Tally(schedules, 0, 0, 0), candidates, n, now).schedules;
      && s in after
      && after[s] == AfterWait(schedules[s], FoundLate(candidates, n, s, now), FoundLost(candidates, n, s, now))
  {
    if n > 0 {
      WaitingPass(schedules, candidates, n - 1, s, now);
      var c := candidates[n - 1];
      var isLate := c.schedule == s && Waiting(c.status) && now - c.dueAt > 900000;
      var isLost := c.schedule == s && Waiting(c.status) && now - c.dueAt <= 900000 && c.entry == Missing;
      assert FoundLate(candidates, n, s, now) <==> (FoundLate(candidates, n - 1, s, now) || isLate);
      assert FoundLost(candidates, n, s, now) <==> (FoundLost(candidates, n - 1, s, now) || isLost);
    }
  }

  lemma {:induction false} OrphansPass(t: Tally, candidates: seq<Candidate>, n: nat, s: Uuid, now: Time)
    requires n <= |candidates| && s in t.schedules
    ensures var after := AfterOrphans(t, candidates, n, now).schedules;
      && s in after
      && after[s] ==
           if t.schedules[s].status == InProcess && FoundOrphaned(candidates, n, s, now) then
             t.schedules[s].(status := RequiresReconciliation, lease := None)
           else t.schedules[s]
  {
    if n > 0 {
      OrphansPass(t, candidates, n - 1, s, now);
      var c := candidates[n - 1];
      OrphanedIsUnattended(c, now);
      var isOrphan := c.schedule == s && c.status == InProcess && Unattended(c, now);
      assert FoundOrphaned(candidates, n, s, now) <==> (FoundOrphaned(candidates, n - 1, s, now) || isOrphan);
    }
  }

  /**
    What a startup reconciliation makes of each row: one still waiting that was
    found late, and one still PROCESSING that was found abandoned, are set aside; one
    still SCHEDULED that the queue lost is put back; every other row stays.
  */
  lemma ReconciledExactly(schedules: map<Uuid, Schedule>, candidates: seq<Candidate>, now: Time, s: Uuid)
    requires s in schedules
    ensures var after := Reconciled(schedules, candidates, now).schedules;
      var row, n := schedules[s], |candidates|;
      && s in after
      && after[s] ==
           if Waiting(row.status) && FoundLate(candidates, n, s, now) then
             row.(status := RequiresReconciliation, lease := None)
           else if row.status == InProcess && FoundOrphaned(candidates, n, s, now) then
             row.(status := RequiresReconciliation, lease := None)
           else if row.status == Scheduled && FoundLost(candidates, n, s, now) then row.(status := Enqueued)
           else row
  {
    WaitingPass(schedules, candidates, |candidates|, s, now);
    OrphansPass(AfterWaiting(Tally(schedules, 0, 0, 0), candidates, |candidates|, now), candidates, |candidates|, s,
                now);
  }

  /**
    A startup reconciliation, whatever candidates it discovered, makes only
    intended transitions, gives no execution a hold and takes no final status
    back; its two flag counts are the waiting and the PROCESSING schedules it set
    aside.
  */
  lemma ReconciliationIsSound(schedules: map<Uuid, Schedule>, candidates: seq<Candidate>, now: Time)
    ensures SoundTally(schedules, Reconciled(schedules, candidates, now))
  {
    assert LateAside(schedules, schedules) == {} && OrphansAside(schedules, schedules) == {};
    WaitingSound(schedules, Tally(schedules, 0, 0, 0), candidates, |candidates|, now);
    OrphansSound(schedules, AfterWaiting(Tally(schedules, 0, 0, 0), candidates, |candidates|, now), candidates,
                 |candidates|, now);
  }
}
