/**
  `preparePublication`: one transaction that judges every selected account,
  then either refuses, marks interrupted Facebook attempts uncertain, or
  reserves one attempt per account.
*/
module PublicationPrepare {
  import opened Basics
  import opened PublicationRows

  datatype Platform = FacebookPage | InstagramBusiness

  /** Whether the account is active with a credential, and whether that credential decrypts. */
  datatype Access = Granted | NotConnected | Undecryptable

  datatype Account = Account(id: Uuid, platform: Platform, access: Access)

  /** What the transaction reads about the post, the image and the configuration. */
  datatype Setup = Setup(postFound: bool, approved: bool, imageGiven: bool, imageReady: bool, keyConfigured: bool)

  datatype PrepareError =
    | PostNotFound | PostNotApproved | AccountMissing | ImageRequired | ImageNotFound | NoMasterKey
    | AlreadyPublished(account: Uuid) | AwaitingResolution(account: Uuid) | InProgress(account: Uuid)

  datatype Plan =
    | Skip(account: Account, attempt: nat)
    | RecordFailed(account: Account, number: nat, reason: Reason)
    | Resume(account: Account, active: nat, previous: Option<Uuid>, number: nat)
    | Create(account: Account, previous: Option<Uuid>, number: nat)

  datatype Verdict = Rejected(error: PrepareError) | Expired(attempt: nat) | Planned(plan: Plan)

  /** What the executor is to do with a target. */
  datatype Kind = AlreadyDone | Refused | Reserved(deadline: Time, previous: Option<Uuid>)

  datatype Target = Target(account: Account, attempt: nat, kind: Kind)

  datatype Outcome = Thrown(error: PrepareError) | UncertainAccount(account: Uuid) | Targets(targets: seq<Target>)

  datatype Prepared = Prepared(rows: Table, outcome: Outcome)

  /** The accounts a query by a list of ids can return. */
  predicate Fetched(requested: seq<Uuid>, found: seq<Account>) {
    && (forall k :: 0 <= k < |found| ==> found[k].id in requested)
    && (forall i, k :: 0 <= i < k < |found| ==> found[i].id != found[k].id)
  }

  // ----- Judging one account -----------------------------------------------------------

  /** The container to continue from: that of the expired attempt, else that of the last one. */
  function PreviousContainer(table: Table, active: Option<nat>, last: Option<nat>): Option<Uuid>
    requires active.Some? ==> active.value < |table|
    requires last.Some? ==> last.value < |table|
  {
    if active.Some? && table[active.value].container.Some? then table[active.value].container
    else if last.Some? then table[last.value].container
    else None
  }

  /** The verdict speaks of existing rows. */
  predicate Fits(v: Verdict, size: nat) {
    && (v.Expired? ==> v.attempt < size)
    && (v.Planned? && v.plan.Resume? ==> v.plan.active < size)
  }

  function Judge(table: Table, account: Account, allowSkipping: bool, now: Time): (v: Verdict)
    ensures Fits(v, |table|)
  {
    var published := Latest(table, account.id, {Published});
    var active := Latest(table, account.id, ACTIVE);
    var last := Latest(table, account.id, ANY);
    var number := (if last.Some? then table[last.value].number else 0) + 1;
    var previous := PreviousContainer(table, active, last);
    if published.Some? then
      if allowSkipping then Planned(Skip(account, published.value)) else Rejected(AlreadyPublished(account.id))
    else if active.Some? && table[active.value].status == Uncertain then Rejected(AwaitingResolution(account.id))
    else if active.Some? && LeaseActive(table[active.value], now) then Rejected(InProgress(account.id))
    else if active.Some? && account.platform == FacebookPage then Expired(active.value)
    else if account.access == NotConnected then Planned(RecordFailed(account, number, AccountInactive))
    else if account.access == Undecryptable then Planned(RecordFailed(account, number, DecryptFailed))
    else if active.Some? then Planned(Resume(account, active.value, previous, number))
    else Planned(Create(account, previous, number))
  }

  // ----- Judging the selection ----------------------------------------------------------

  function Verdicts(table: Table, found: seq<Account>, allowSkipping: bool, now: Time): (vs: seq<Verdict>)
    ensures |vs| == |found| && forall k :: 0 <= k < |vs| ==> Fits(vs[k], |table|)
  {
    seq(|found|, k requires 0 <= k < |found| => Judge(table, found[k], allowSkipping, now))
  }

  /** The first error among the first `n` verdicts. */
  function FirstError(vs: seq<Verdict>, n: nat): Option<PrepareError>
    requires n <= |vs|
  {
    if n == 0 then None
    else if FirstError(vs, n - 1).Some? then FirstError(vs, n - 1)
    else if vs[n - 1].Rejected? then Some(vs[n - 1].error)
    else None
  }

  /** The place of the first expired Facebook attempt among the first `n` verdicts. */
  function FirstExpired(vs: seq<Verdict>, n: nat): (r: Option<nat>)
    requires n <= |vs|
    ensures r.Some? ==> r.value < n && vs[r.value].Expired?
    ensures r.None? ==> forall k :: 0 <= k < n ==> !vs[k].Expired?
  {
    if n == 0 then None
    else if FirstExpired(vs, n - 1).Some? then FirstExpired(vs, n - 1)
    else if vs[n - 1].Expired? then Some(n - 1)
    else None
  }

  /** The expired Facebook attempts among the first `n` verdicts. */
  function ExpiredRows(vs: seq<Verdict>, n: nat, size: nat): (rows: seq<nat>)
    requires n <= |vs| && forall k :: 0 <= k < |vs| ==> Fits(vs[k], size)
    ensures forall k :: 0 <= k < |rows| ==> rows[k] < size
  {
    if n == 0 then []
    else ExpiredRows(vs, n - 1, size) + (if vs[n - 1].Expired? then [vs[n - 1].attempt] else [])
  }

  function Plans(vs: seq<Verdict>, n: nat, size: nat): (plans: seq<Plan>)
    requires n <= |vs| && forall k :: 0 <= k < |vs| ==> Fits(vs[k], size)
    ensures forall k :: 0 <= k < |plans| && plans[k].Resume? ==> plans[k].active < size
  {
    if n == 0 then []
    else Plans(vs, n - 1, size) + (if vs[n - 1].Planned? then [vs[n - 1].plan] else [])
  }

  // ----- Writes ---------------------------------------------------------------------------

  function Doubted(row: Attempt): Attempt {
    row.(status := Uncertain, reason := LeaseExpiredUncertain, lease := None)
  }

  function Abandoned(row: Attempt): Attempt {
    row.(status := Failed, reason := AbandonedLeaseExpired, lease := None)
  }

  function MarkUncertain(table: Table, rows: seq<nat>, n: nat): (after: Table)
    requires n <= |rows| && forall k :: 0 <= k < |rows| ==> rows[k] < |table|
    ensures |after| == |table|
    ensures forall i :: 0 <= i < |table| ==> after[i] == if i in rows[..n] then Doubted(table[i]) else table[i]
  {
    if n == 0 then table
    else
      var before := MarkUncertain(table, rows, n - 1);
      assert rows[..n] == rows[..n - 1] + [rows[n - 1]];
      before[rows[n - 1] := Doubted(before[rows[n - 1]])]
  }

  function ReservedRow(account: Account, number: nat, previous: Option<Uuid>, token: Uuid, now: Time): Attempt {
    Attempt(account.id, number, Processing, Some(now + ATTEMPT_LEASE_MS), previous, NoReason, token)
  }

  function Carry(table: Table, plan: Plan, token: Uuid, now: Time): Table
    requires plan.Resume? ==> plan.active < |table|
  {
    match plan
    case Skip(_, _) => table
    case RecordFailed(account, number, reason) =>
      table + [Attempt(account.id, number, Failed, None, None, reason, token)]
    case Resume(account, active, previous, number) =>
      table[active := Abandoned(table[active])] + [ReservedRow(account, number, previous, token, now)]
    case Create(account, previous, number) => table + [ReservedRow(account, number, previous, token, now)]
  }

  function TargetOf(size: nat, plan: Plan, now: Time): Target {
    match plan
    case Skip(account, attempt) => Target(account, attempt, AlreadyDone)
    case RecordFailed(account, _, _) => Target(account, size, Refused)
    case Resume(account, _, previous, _) => Target(account, size, Reserved(now + ATTEMPT_LEASE_MS, previous))
    case Create(account, previous, _) => Target(account, size, Reserved(now + ATTEMPT_LEASE_MS, previous))
  }

  /** The first `n` planned writes in order, with the targets they give. */
  function CarryAll(table: Table, plans: seq<Plan>, n: nat, token: Uuid, now: Time): (r: (Table, seq<Target>))
    requires n <= |plans| && forall k :: 0 <= k < |plans| && plans[k].Resume? ==> plans[k].active < |table|
    ensures |r.0| >= |table|
  {
    if n == 0 then (table, [])
    else
      var before := CarryAll(table, plans, n - 1, token, now);
      (Carry(before.0, plans[n - 1], token, now), before.1 + [TargetOf(|before.0|, plans[n - 1], now)])
  }

  // ----- The transaction --------------------------------------------------------------------

  function Check(setup: Setup, requested: seq<Uuid>, found: seq<Account>): Option<PrepareError> {
    if !setup.postFound then Some(PostNotFound)
    else if !setup.approved then Some(PostNotApproved)
    else if |found| != |requested| then Some(AccountMissing)
    else if (exists k :: 0 <= k < |found| && found[k].platform == InstagramBusiness) && !setup.imageGiven then
      Some(ImageRequired)
    else if setup.imageGiven && !setup.imageReady then Some(ImageNotFound)
    else if !setup.keyConfigured then Some(NoMasterKey)
    else None
  }

  function Prepare(table: Table, setup: Setup, requested: seq<Uuid>, found: seq<Account>, allowSkipping: bool,
                   token: Uuid, now: Time): Prepared
  {
    var unfit := Check(setup, requested, found);
    var vs := Verdicts(table, found, allowSkipping, now);
    var rejection := FirstError(vs, |vs|);
    var facebookExpired := FirstExpired(vs, |vs|);
    var expired := ExpiredRows(vs, |vs|, |table|);
    var plans := Plans(vs, |vs|, |table|);
    if unfit.Some? then Prepared(table, Thrown(unfit.value))
    else if rejection.Some? then Prepared(table, Thrown(rejection.value))
    else if facebookExpired.Some? then
      Prepared(MarkUncertain(table, expired, |expired|), UncertainAccount(found[facebookExpired.value].id))
    else
      var (rows, targets) := CarryAll(table, plans, |plans|, token, now);
      Prepared(rows, Targets(targets))
  }

  // ----- The code -----------------------------------------------------------------------------

  function AccountAt(found: seq<Account>, place: Option<nat>): Option<Uuid>
    requires place.Some? ==> place.value < |found|
  {
    if place.Some? then Some(found[place.value].id) else None
  }

  class Planner {
    var rows: Table

    constructor (table: Table)
      ensures rows == table
    {
      rows := table;
    }

    method JudgeAccount(found: seq<Account>, i: nat, allowSkipping: bool, now: Time) returns (verdict: Verdict)
      requires i < |found|
      ensures verdict == Verdicts(rows, found, allowSkipping, now)[i]
    {
      verdict := Judge(rows, found[i], allowSkipping, now);
    }

    /** The planning loop: the first refusal ends it; once an attempt has expired no plan is kept. */
    method PlanAccounts(found: seq<Account>, allowSkipping: bool, now: Time)
      returns (refused: Option<PrepareError>, plans: seq<Plan>, facebookExpired: Option<Uuid>, expiredIds: seq<nat>)
      ensures var vs := Verdicts(rows, found, allowSkipping, now);
        && refused == FirstError(vs, |vs|)
        && (refused.None? ==>
              && expiredIds == ExpiredRows(vs, |vs|, |rows|)
              && facebookExpired == AccountAt(found, FirstExpired(vs, |vs|))
              && (facebookExpired.None? ==> plans == Plans(vs, |vs|, |rows|)))
    {
      refused, plans, facebookExpired, expiredIds := None, [], None, [];
      ghost var vs := Verdicts(rows, found, allowSkipping, now);
      for i := 0 to |found|
        invariant FirstError(vs, i).None?
        invariant expiredIds == ExpiredRows(vs, i, |rows|)
        invariant facebookExpired == AccountAt(found, FirstExpired(vs, i))
        invariant facebookExpired.None? ==> plans == Plans(vs, i, |rows|)
      {
        var verdict := JudgeAccount(found, i, allowSkipping, now);
        match verdict {
          case Rejected(error) =>
            FirstErrorStays(vs, i + 1, |vs|);
            refused := Some(error);
            return;
          case Expired(attempt) =>
            expiredIds := expiredIds + [attempt];
            if facebookExpired.None? {
              facebookExpired := Some(found[i].id);
            }
          case Planned(plan) =>
            if facebookExpired.None? {
              plans := plans + [plan];
            }
        }
      }
    }

    method MarkExpired(expiredIds: seq<nat>)
      requires forall k :: 0 <= k < |expiredIds| ==> expiredIds[k] < |rows|
      modifies this
      ensures rows == MarkUncertain(old(rows), expiredIds, |expiredIds|)
    {
      for k := 0 to |expiredIds|
        invariant rows == MarkUncertain(old(rows), expiredIds, k)
      {
        rows := rows[expiredIds[k] := Doubted(rows[expiredIds[k]])];
      }
    }

    method CarryOut(plans: seq<Plan>, token: Uuid, now: Time) returns (targets: seq<Target>)
      requires forall k :: 0 <= k < |plans| && plans[k].Resume? ==> plans[k].active < |rows|
      modifies this
      ensures (rows, targets) == CarryAll(old(rows), plans, |plans|, token, now)
    {
      targets := [];
      for k := 0 to |plans|
        invariant (rows, targets) == CarryAll(old(rows), plans, k, token, now)
      {
        targets := targets + [TargetOf(|rows|, plans[k], now)];
        rows := Carry(rows, plans[k], token, now);
      }
    }

    method PreparePublication(setup: Setup, requested: seq<Uuid>, found: seq<Account>, allowSkipping: bool,
                              token: Uuid, now: Time)
      returns (outcome: Outcome)
      modifies this
      ensures Prepared(rows, outcome) == Prepare(old(rows), setup, requested, found, allowSkipping, token, now)
    {
      var unfit := Check(setup, requested, found);
      if unfit.Some? {
        return Thrown(unfit.value);
      }
      var refused, plans, facebookExpired, expiredIds := PlanAccounts(found, allowSkipping, now);
      if refused.Some? {
        return Thrown(refused.value);
      }
      if facebookExpired.Some? {
        MarkExpired(expiredIds);
        return UncertainAccount(facebookExpired.value);
      }
      var targets := CarryOut(plans, token, now);
      return Targets(targets);
    }
  }

  /** An error found on the way is the error of the whole selection. */
  lemma {:induction false} FirstErrorStays(vs: seq<Verdict>, i: nat, n: nat)
    requires i <= n <= |vs| && FirstError(vs, i).Some?
    ensures FirstError(vs, n) == FirstError(vs, i)
    decreases n
  {
    if i < n {
      FirstErrorStays(vs, i, n - 1);
    }
  }
}
