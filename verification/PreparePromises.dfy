/**
  What a preparation promises, in terms of the table alone: exactly when it
  refuses, exactly which rows it marks uncertain, that the targets cover the
  selection once, and that numbering and exclusivity survive it.
*/
module PreparePromises {
  import opened Basics
  import opened PublicationRows
  import opened PublicationPrepare
  import opened Sets

  /** The account has an attempt in one of the statuses. */
  predicate Has(table: Table, account: Uuid, statuses: set<AttemptStatus>) {
    exists i :: 0 <= i < |table| && table[i].account == account && table[i].status in statuses
  }

  /** An attempt that is uncertain or still leased stands in the way. */
  predicate Occupied(table: Table, account: Uuid, now: Time) {
    exists i :: 0 <= i < |table| && table[i].account == account && table[i].status in ACTIVE &&
                (table[i].status == Uncertain || LeaseActive(table[i], now))
  }

  /** The account makes the preparation refuse the whole selection. */
  predicate Blocks(table: Table, account: Uuid, allowSkipping: bool, now: Time) {
    if Has(table, account, {Published}) then !allowSkipping else Occupied(table, account, now)
  }

  /** Row `i` is an unfinished attempt whose lease has run out, of an account not published yet. */
  predicate Interrupted(table: Table, i: nat, account: Account, now: Time)
    requires i < |table|
  {
    && table[i].account == account.id && table[i].status in UNFINISHED && !LeaseActive(table[i], now)
    && !Has(table, account.id, {Published})
  }

  /** Row `i` belongs to a selected Facebook page and was interrupted. */
  predicate InDoubt(table: Table, i: nat, found: seq<Account>, now: Time)
    requires i < |table|
  {
    exists k :: 0 <= k < |found| && found[k].platform == FacebookPage && Interrupted(table, i, found[k], now)
  }

  /** The id is among the first `n` accounts. */
  predicate SelectedIn(found: seq<Account>, n: nat, id: Uuid)
    requires n <= |found|
  {
    exists k :: 0 <= k < n && found[k].id == id
  }

  predicate Selected(found: seq<Account>, id: Uuid) {
    SelectedIn(found, |found|, id)
  }

  // ----- One account -------------------------------------------------------------------------

  lemma OnlyActive(table: Table, account: Uuid, i: nat)
    requires Unique(table) && i < |table| && table[i].account == account && table[i].status in ACTIVE
    ensures Latest(table, account, ACTIVE) == Some(i)
  {
    LatestMeans(table, |table|, account, ACTIVE);
  }

  lemma JudgeRejects(table: Table, account: Account, allowSkipping: bool, now: Time)
    requires Unique(table)
    ensures Judge(table, account, allowSkipping, now).Rejected? <==> Blocks(table, account.id, allowSkipping, now)
  {
    LatestMeans(table, |table|, account.id, {Published});
    LatestMeans(table, |table|, account.id, ACTIVE);
    if Occupied(table, account.id, now) {
      var i :| 0 <= i < |table| && table[i].account == account.id && table[i].status in ACTIVE &&
        (table[i].status == Uncertain || LeaseActive(table[i], now));
      OnlyActive(table, account.id, i);
    }
  }

  lemma JudgeExpires(table: Table, account: Account, allowSkipping: bool, now: Time, i: nat)
    requires Unique(table) && i < |table| && !Blocks(table, account.id, allowSkipping, now)
    ensures Judge(table, account, allowSkipping, now) == Expired(i) <==>
      account.platform == FacebookPage && Interrupted(table, i, account, now)
  {
    JudgeRejects(table, account, allowSkipping, now);
    LatestMeans(table, |table|, account.id, {Published});
    LatestMeans(table, |table|, account.id, ACTIVE);
    if table[i].account == account.id && table[i].status in ACTIVE {
      OnlyActive(table, account.id, i);
    }
  }

  // ----- When a preparation refuses ------------------------------------------------------------

  predicate SomeBlocks(table: Table, found: seq<Account>, allowSkipping: bool, now: Time) {
    exists k :: 0 <= k < |found| && Blocks(table, found[k].id, allowSkipping, now)
  }

  lemma {:induction false} FirstErrorMeans(vs: seq<Verdict>, n: nat)
    requires n <= |vs|
    ensures FirstError(vs, n).Some? <==> exists k :: 0 <= k < n && vs[k].Rejected?
  {
    if n > 0 {
      FirstErrorMeans(vs, n - 1);
    }
  }

  lemma {:induction false} ExpiredRowsMean(vs: seq<Verdict>, n: nat, size: nat, i: nat)
    requires n <= |vs| && forall k :: 0 <= k < |vs| ==> Fits(vs[k], size)
    ensures i in ExpiredRows(vs, n, size) <==> exists k :: 0 <= k < n && vs[k] == Expired(i)
  {
    if n > 0 {
      ExpiredRowsMean(vs, n - 1, size, i);
    }
  }

  lemma RejectionMeans(table: Table, found: seq<Account>, allowSkipping: bool, now: Time)
    requires Unique(table)
    ensures FirstError(Verdicts(table, found, allowSkipping, now), |found|).Some?
       <==> SomeBlocks(table, found, allowSkipping, now)
  {
    var vs := Verdicts(table, found, allowSkipping, now);
    FirstErrorMeans(vs, |found|);
    forall k | 0 <= k < |found| ensures vs[k].Rejected? <==> Blocks(table, found[k].id, allowSkipping, now) {
      JudgeRejects(table, found[k], allowSkipping, now);
    }
  }

  lemma ExpiredMeans(table: Table, found: seq<Account>, allowSkipping: bool, now: Time, i: nat)
    requires Unique(table) && i < |table| && !SomeBlocks(table, found, allowSkipping, now)
    ensures var expired := ExpiredRows(Verdicts(table, found, allowSkipping, now), |found|, |table|);
      i in expired <==> InDoubt(table, i, found, now)
  {
    var vs := Verdicts(table, found, allowSkipping, now);
    ExpiredRowsMean(vs, |found|, |table|, i);
    forall k | 0 <= k < |found|
      ensures vs[k] == Expired(i) <==> found[k].platform == FacebookPage && Interrupted(table, i, found[k], now)
    {
      assert !Blocks(table, found[k].id, allowSkipping, now);
      JudgeExpires(table, found[k], allowSkipping, now, i);
    }
  }

  /**
    A preparation throws exactly when its setup is unfit, an account is missing,
    or some selected account is published (and may not be skipped), uncertain or
    still leased; and a throw changes nothing.
  */
  lemma ThrowsExactlyWhen(table: Table, setup: Setup, requested: seq<Uuid>, found: seq<Account>, allowSkipping: bool,
                          token: Uuid, now: Time)
    requires Unique(table)
    ensures var p := Prepare(table, setup, requested, found, allowSkipping, token, now);
      && (p.outcome.Thrown? <==> Unfit(setup, requested, found) || SomeBlocks(table, found, allowSkipping, now))
      && (p.outcome.Thrown? ==> p.rows == table)
  {
    RejectionMeans(table, found, allowSkipping, now);
  }

  // ----- What a refusal says ---------------------------------------------------------------------

  /** The post, the selection or the configuration does not allow a publish. */
  predicate Unfit(setup: Setup, requested: seq<Uuid>, found: seq<Account>) {
    || !setup.postFound || !setup.approved || |found| != |requested|
    || (NeedsImage(found) && !setup.imageGiven) || (setup.imageGiven && !setup.imageReady) || !setup.keyConfigured
  }

  /** An Instagram account is selected. */
  predicate NeedsImage(found: seq<Account>) {
    exists k :: 0 <= k < |found| && found[k].platform == InstagramBusiness
  }

  /** The error of the setup: the first thing missing, in the order in which they are looked at. */
  predicate SetupErrorOk(error: PrepareError, setup: Setup, requested: seq<Uuid>, found: seq<Account>) {
    match error
    case PostNotFound => !setup.postFound
    case PostNotApproved => setup.postFound && !setup.approved
    case AccountMissing => setup.postFound && setup.approved && |found| != |requested|
    case ImageRequired => setup.postFound && setup.approved && NeedsImage(found) && !setup.imageGiven
    case ImageNotFound => setup.postFound && setup.approved && setup.imageGiven && !setup.imageReady
    case NoMasterKey =>
      setup.postFound && setup.approved && (setup.imageGiven ==> setup.imageReady) && !setup.keyConfigured
    case _ => false
  }

  predicate AwaitsResolution(table: Table, account: Uuid) {
    !Has(table, account, {Published}) && Has(table, account, {Uncertain})
  }

  /** The error names the first account that blocks and says why it does. */
  predicate BlockErrorOk(error: PrepareError, table: Table, found: seq<Account>, k: nat, allowSkipping: bool, now: Time)
    requires k < |found|
  {
    && Blocks(table, found[k].id, allowSkipping, now)
    && (forall i :: 0 <= i < k ==> !Blocks(table, found[i].id, allowSkipping, now))
    && error == if Has(table, found[k].id, {Published}) then AlreadyPublished(found[k].id)
                else if AwaitsResolution(table, found[k].id) then AwaitingResolution(found[k].id)
                else InProgress(found[k].id)
  }

  lemma JudgeSays(table: Table, account: Account, allowSkipping: bool, now: Time)
    requires Unique(table) && Judge(table, account, allowSkipping, now).Rejected?
    ensures Blocks(table, account.id, allowSkipping, now)
    ensures Judge(table, account, allowSkipping, now).error ==
      if Has(table, account.id, {Published}) then AlreadyPublished(account.id)
      else if AwaitsResolution(table, account.id) then AwaitingResolution(account.id)
      else InProgress(account.id)
  {
    JudgeRejects(table, account, allowSkipping, now);
    LatestMeans(table, |table|, account.id, {Published});
    LatestMeans(table, |table|, account.id, ACTIVE);
    if i :| 0 <= i < |table| && table[i].account == account.id && table[i].status in {Uncertain} {
      OnlyActive(table, account.id, i);
    }
  }

  lemma {:induction false} FirstErrorIs(vs: seq<Verdict>, n: nat) returns (k: nat)
    requires n <= |vs| && FirstError(vs, n).Some?
    ensures k < n && vs[k].Rejected? && FirstError(vs, n) == Some(vs[k].error)
    ensures forall i :: 0 <= i < k ==> !vs[i].Rejected?
  {
    if FirstError(vs, n - 1).Some? {
      k := FirstErrorIs(vs, n - 1);
    } else {
      k := n - 1;
      FirstErrorMeans(vs, n - 1);
    }
  }

  /** The error thrown names what was missing, or the first account in the way and why. */
  lemma ThrownErrorMeans(table: Table, setup: Setup, requested: seq<Uuid>, found: seq<Account>, allowSkipping: bool,
                         token: Uuid, now: Time)
    requires Unique(table)
    ensures var p := Prepare(table, setup, requested, found, allowSkipping, token, now);
      p.outcome.Thrown? ==>
        if Unfit(setup, requested, found) then SetupErrorOk(p.outcome.error, setup, requested, found)
        else exists k :: 0 <= k < |found| && BlockErrorOk(p.outcome.error, table, found, k, allowSkipping, now)
  {
    var p := Prepare(table, setup, requested, found, allowSkipping, token, now);
    if p.outcome.Thrown? && !Unfit(setup, requested, found) {
      var vs := Verdicts(table, found, allowSkipping, now);
      var k := FirstErrorIs(vs, |vs|);
      JudgeSays(table, found[k], allowSkipping, now);
      forall i | 0 <= i < k ensures !Blocks(table, found[i].id, allowSkipping, now) {
        assert !vs[i].Rejected?;
        JudgeRejects(table, found[i], allowSkipping, now);
      }
      assert BlockErrorOk(p.outcome.error, table, found, k, allowSkipping, now);
    }
  }

  /** Some row of the selection is left in doubt. */
  predicate SomeInDoubt(table: Table, found: seq<Account>, now: Time) {
    exists i :: 0 <= i < |table| && InDoubt(table, i, found, now)
  }

  /** A row of this account is left in doubt. */
  predicate HasInDoubt(table: Table, found: seq<Account>, account: Uuid, now: Time) {
    exists i :: 0 <= i < |table| && table[i].account == account && InDoubt(table, i, found, now)
  }

  lemma {:induction false} FirstExpiredIs(table: Table, found: seq<Account>, allowSkipping: bool, now: Time)
    requires Unique(table) && !SomeBlocks(table, found, allowSkipping, now)
    ensures var first := FirstExpired(Verdicts(table, found, allowSkipping, now), |found|);
      first.Some? ==> HasInDoubt(table, found, found[first.value].id, now)
  {
    var vs := Verdicts(table, found, allowSkipping, now);
    var first := FirstExpired(vs, |found|);
    if first.Some? {
      var i := vs[first.value].attempt;
      ExpiredRowsMean(vs, |found|, |table|, i);
      ExpiredMeans(table, found, allowSkipping, now, i);
      JudgeExpires(table, found[first.value], allowSkipping, now, i);
      assert !Blocks(table, found[first.value].id, allowSkipping, now);
      assert InDoubt(table, i, found, now) && table[i].account == found[first.value].id;
    }
  }

  lemma FirstExpiredMeans(table: Table, found: seq<Account>, allowSkipping: bool, now: Time)
    requires Unique(table) && !SomeBlocks(table, found, allowSkipping, now)
    ensures FirstExpired(Verdicts(table, found, allowSkipping, now), |found|).Some? <==> SomeInDoubt(table, found, now)
  {
    var vs := Verdicts(table, found, allowSkipping, now);
    var first := FirstExpired(vs, |found|);
    if first.Some? {
      var i := vs[first.value].attempt;
      ExpiredRowsMean(vs, |found|, |table|, i);
      ExpiredMeans(table, found, allowSkipping, now, i);
      assert InDoubt(table, i, found, now);
    }
    if SomeInDoubt(table, found, now) {
      var i :| 0 <= i < |table| && InDoubt(table, i, found, now);
      ExpiredMeans(table, found, allowSkipping, now, i);
      ExpiredRowsMean(vs, |found|, |table|, i);
    }
  }

  /**
    It reports an uncertain account exactly when it does not throw and some
    selected Facebook attempt was interrupted; then it marks all of those rows
    uncertain, changes no other row and inserts none.
  */
  lemma UncertainExactlyWhen(table: Table, setup: Setup, requested: seq<Uuid>, found: seq<Account>,
                             allowSkipping: bool, token: Uuid, now: Time)
    requires Unique(table)
    ensures var p := Prepare(table, setup, requested, found, allowSkipping, token, now);
      && (p.outcome.UncertainAccount? <==> !p.outcome.Thrown? && SomeInDoubt(table, found, now))
      && (p.outcome.UncertainAccount? ==>
            && Selected(found, p.outcome.account) && HasInDoubt(table, found, p.outcome.account, now)
            && |p.rows| == |table|
            && forall i :: 0 <= i < |table| ==>
                 p.rows[i] ==
                   if InDoubt(table, i, found, now) then
                     table[i].(status := Uncertain, reason := LeaseExpiredUncertain, lease := None)
                   else table[i])
  {
    ThrowsExactlyWhen(table, setup, requested, found, allowSkipping, token, now);
    var p := Prepare(table, setup, requested, found, allowSkipping, token, now);
    if !p.outcome.Thrown? {
      FirstExpiredMeans(table, found, allowSkipping, now);
      FirstExpiredIs(table, found, allowSkipping, now);
      if p.outcome.UncertainAccount? {
        var rows := ExpiredRows(Verdicts(table, found, allowSkipping, now), |found|, |table|);
        assert rows[..|rows|] == rows;
        forall i | 0 <= i < |table|
          ensures p.rows[i] == if InDoubt(table, i, found, now) then Doubted(table[i]) else table[i]
        {
          ExpiredMeans(table, found, allowSkipping, now, i);
        }
      }
    }
  }

  // ----- What a plan says -------------------------------------------------------------------------

  predicate Resumes(table: Table, i: nat, account: Account, now: Time)
    requires i < |table|
  {
    account.platform == InstagramBusiness && account.access == Granted && Interrupted(table, i, account, now)
  }

  /**
    The container to continue from: the one of the account's active attempt, or,
    if that has none, the one of its attempt with the highest number, if any.
  */
  predicate Continued(table: Table, account: Uuid, previous: Option<Uuid>) {
    && (forall i :: 0 <= i < |table| && table[i].account == account && HasContainer(table[i]) ==>
          previous == table[i].container)
    && ((forall i :: 0 <= i < |table| && table[i].account == account ==> !HasContainer(table[i])) ==>
          && (Count(table, account) == 0 ==> previous == None)
          && forall i :: 0 <= i < |table| && table[i].account == account && table[i].number == Count(table, account) ==>
               previous == table[i].container)
  }

  /** The attempt is active and its container was recorded. */
  predicate HasContainer(row: Attempt) {
    row.status in ACTIVE && row.container.Some?
  }

  lemma ContinuedMeans(table: Table, account: Uuid)
    requires Unique(table) && Numbered(table)
    ensures Continued(table, account,
                      PreviousContainer(table, Latest(table, account, ACTIVE), Latest(table, account, ANY)))
  {
    LatestMeans(table, |table|, account, ACTIVE);
    LatestMeans(table, |table|, account, ANY);
    LastNumber(table, account);
    var last := Latest(table, account, ANY);
    forall i | 0 <= i < |table| && table[i].account == account ensures last.Some? && i <= last.value {
      AnyStatus(table[i].status);
    }
    forall i | 0 <= i < |table| && table[i].account == account && HasContainer(table[i])
      ensures Latest(table, account, ACTIVE) == Some(i)
    {
      OnlyActive(table, account, i);
    }
    forall i | 0 <= i < |table| && table[i].account == account && table[i].number == Count(table, account)
      ensures last == Some(i)
    {
      if i != last.value {
        NumbersRise(table, i, last.value);
      }
    }
  }

  /** A plan fits the account's rows. */
  predicate PlanOk(table: Table, plan: Plan, account: Account, now: Time) {
    && plan.account == account
    && match plan
       case Skip(_, attempt) =>
         attempt < |table| && table[attempt].account == account.id && table[attempt].status == Published
       case RecordFailed(_, number, reason) =>
         && number == Count(table, account.id) + 1 && account.access != Granted
         && reason == (if account.access == NotConnected then AccountInactive else DecryptFailed)
         && !Has(table, account.id, {Published})
       case Resume(_, active, previous, number) =>
         && number == Count(table, account.id) + 1 && Continued(table, account.id, previous)
         && active < |table| && Resumes(table, active, account, now)
       case Create(_, previous, number) =>
         && number == Count(table, account.id) + 1 && Continued(table, account.id, previous)
         && account.access == Granted && !Has(table, account.id, ACTIVE + {Published})
  }

  lemma JudgePlans(table: Table, account: Account, allowSkipping: bool, now: Time)
    requires Unique(table) && Numbered(table) && Judge(table, account, allowSkipping, now).Planned?
    ensures PlanOk(table, Judge(table, account, allowSkipping, now).plan, account, now)
  {
    LatestMeans(table, |table|, account.id, {Published});
    LatestMeans(table, |table|, account.id, ACTIVE);
    LastNumber(table, account.id);
    ContinuedMeans(table, account.id);
  }

  /** A plan for every account, in order. */
  predicate PlansOk(table: Table, plans: seq<Plan>, found: seq<Account>, now: Time) {
    && |plans| == |found|
    && (forall k :: 0 <= k < |plans| ==> PlanOk(table, plans[k], found[k], now))
    && (forall k :: 0 <= k < |plans| && plans[k].Resume? ==> plans[k].active < |table|)
  }

  lemma {:induction false} AllPlanned(vs: seq<Verdict>, n: nat, size: nat)
    requires n <= |vs| && forall k :: 0 <= k < |vs| ==> Fits(vs[k], size) && vs[k].Planned?
    ensures |Plans(vs, n, size)| == n && forall k :: 0 <= k < n ==> Plans(vs, n, size)[k] == vs[k].plan
  {
    if n > 0 {
      AllPlanned(vs, n - 1, size);
    }
  }

  /** A normal return has carried out one fitting plan per account. */
  lemma ReadyCarriesPlans(table: Table, setup: Setup, requested: seq<Uuid>, found: seq<Account>,
                          allowSkipping: bool, token: Uuid, now: Time) returns (plans: seq<Plan>)
    requires Unique(table) && Numbered(table)
    requires Prepare(table, setup, requested, found, allowSkipping, token, now).outcome.Targets?
    ensures PlansOk(table, plans, found, now)
    ensures var p := Prepare(table, setup, requested, found, allowSkipping, token, now);
      (p.rows, p.outcome.targets) == CarryAll(table, plans, |plans|, token, now)
  {
    var vs := Verdicts(table, found, allowSkipping, now);
    plans := Plans(vs, |vs|, |table|);
    FirstErrorMeans(vs, |vs|);
    forall k | 0 <= k < |vs| ensures vs[k].Planned? && PlanOk(table, vs[k].plan, found[k], now) {
      assert !vs[k].Rejected? && !vs[k].Expired?;
      JudgePlans(table, found[k], allowSkipping, now);
    }
    AllPlanned(vs, |vs|, |table|);
  }

  // ----- What a preparation reserves -------------------------------------------------------------

  /** Row `i` is the interrupted attempt of a connected Instagram account among the first `n`, which is resumed. */
  predicate Resumed(table: Table, i: nat, found: seq<Account>, n: nat, now: Time)
    requires i < |table| && n <= |found|
  {
    exists k :: 0 <= k < n && Resumes(table, i, found[k], now)
  }

  /** Old rows stay, except that resumed attempts are closed. */
  predicate OldRowsKept(table: Table, rows: Table, found: seq<Account>, n: nat, now: Time)
    requires n <= |found|
  {
    && |rows| >= |table|
    && forall i {:trigger rows[i]} :: 0 <= i < |table| ==>
         rows[i] ==
           if Resumed(table, i, found, n, now) then
             table[i].(status := Failed, reason := AbandonedLeaseExpired, lease := None)
           else table[i]
  }

  /** New rows belong to this execution and to accounts of the selection. */
  predicate NewRowsOwned(table: Table, rows: Table, found: seq<Account>, n: nat, token: Uuid)
    requires n <= |found|
  {
    forall i :: |table| <= i < |rows| ==> rows[i].owner == token && SelectedIn(found, n, rows[i].account)
  }

  /** The target stands for its account: already published, refused, or reserved with the next number. */
  predicate TargetOk(table: Table, rows: Table, target: Target, account: Account, token: Uuid, now: Time) {
    && target.account == account
    && target.attempt < |rows| && rows[target.attempt].account == account.id
    && match target.kind
       case AlreadyDone => target.attempt < |table| && rows[target.attempt].status == Published
       case Refused =>
         && |table| <= target.attempt && account.access != Granted && !Has(table, account.id, {Published})
         && rows[target.attempt] == Attempt(account.id, Count(table, account.id) + 1, Failed, None, None,
                                            if account.access == NotConnected then AccountInactive else DecryptFailed,
                                            token)
       case Reserved(deadline, previous) =>
         && |table| <= target.attempt && deadline == now + ATTEMPT_LEASE_MS && account.access == Granted
         && !Has(table, account.id, {Published})
         && rows[target.attempt] == Attempt(account.id, Count(table, account.id) + 1, Processing,
                                            Some(now + ATTEMPT_LEASE_MS), previous, NoReason, token)
         && Continued(table, account.id, previous)
  }

  /** A resumption closes the only active attempt of its account. */
  lemma OnlyResumed(table: Table, plan: Plan, account: Account, now: Time, i: nat)
    requires Unique(table) && PlanOk(table, plan, account, now) && i < |table|
    requires plan.Skip? || plan.RecordFailed? || plan.Resume? || plan.Create?
    ensures plan.Resume? && plan.active == i <==> plan.Resume? && Resumes(table, i, account, now)
    ensures !plan.Resume? ==> !Resumes(table, i, account, now)
  {
    if Resumes(table, i, account, now) {
      OnlyActive(table, account.id, i);
      if plan.Resume? {
        OnlyActive(table, account.id, plan.active);
      }
    }
  }

  lemma {:induction false} CarriedOldRows(table: Table, plans: seq<Plan>, found: seq<Account>, n: nat, token: Uuid,
                                          now: Time)
    requires Unique(table) && PlansOk(table, plans, found, now) && n <= |plans|
    ensures OldRowsKept(table, CarryAll(table, plans, n, token, now).0, found, n, now)
  {
    if n > 0 {
      CarriedOldRows(table, plans, found, n - 1, token, now);
      var rows := CarryAll(table, plans, n, token, now).0;
      forall i | 0 <= i < |table|
        ensures rows[i] == if Resumed(table, i, found, n, now) then Abandoned(table[i]) else table[i]
      {
        OnlyResumed(table, plans[n - 1], found[n - 1], now, i);
        assert Resumed(table, i, found, n, now)
          <==> Resumed(table, i, found, n - 1, now) || Resumes(table, i, found[n - 1], now);
      }
    }
  }

  lemma {:induction false} CarriedNewRows(table: Table, plans: seq<Plan>, found: seq<Account>, n: nat, token: Uuid,
                                          now: Time)
    requires PlansOk(table, plans, found, now) && n <= |plans|
    ensures NewRowsOwned(table, CarryAll(table, plans, n, token, now).0, found, n, token)
  {
    if n > 0 {
      CarriedNewRows(table, plans, found, n - 1, token, now);
      var before := CarryAll(table, plans, n - 1, token, now).0;
      var rows := CarryAll(table, plans, n, token, now).0;
      forall i | |table| <= i < |rows| ensures rows[i].owner == token && SelectedIn(found, n, rows[i].account) {
        assert plans[n - 1].account == found[n - 1];
        if i >= |before| {
          assert rows[i].account == found[n - 1].id;
        }
      }
    }
  }

  // ----- Numbering ------------------------------------------------------------------------------------

  predicate Distinct(found: seq<Account>) {
    forall i, k :: 0 <= i < k < |found| ==> found[i].id != found[k].id
  }

  lemma AppendCount(table: Table, row: Attempt, account: Uuid)
    ensures Count(table + [row], account) == Count(table, account) + (if row.account == account then 1 else 0)
  {
    assert (table + [row])[..|table|] == table;
  }

  lemma CarryCount(rows: Table, plan: Plan, token: Uuid, now: Time, account: Uuid)
    requires plan.Resume? ==> plan.active < |rows|
    ensures Count(Carry(rows, plan, token, now), account)
         == Count(rows, account) + (if !plan.Skip? && plan.account.id == account then 1 else 0)
  {
    match plan
    case Skip(_, _) =>
    case RecordFailed(a, number, reason) =>
      AppendCount(rows, Attempt(a.id, number, Failed, None, None, reason, token), account);
    case Resume(a, active, previous, number) =>
      var closed := rows[active := Abandoned(rows[active])];
      SameAccountsCount(rows, closed, account);
      AppendCount(closed, ReservedRow(a, number, previous, token, now), account);
    case Create(a, previous, number) => AppendCount(rows, ReservedRow(a, number, previous, token, now), account);
  }

  lemma {:induction false} CarriedCount(table: Table, plans: seq<Plan>, found: seq<Account>, n: nat, token: Uuid,
                                        now: Time,
                                        account: Uuid)
    requires PlansOk(table, plans, found, now) && n <= |plans| && !SelectedIn(found, n, account)
    ensures Count(CarryAll(table, plans, n, token, now).0, account) == Count(table, account)
  {
    if n > 0 {
      assert !SelectedIn(found, n - 1, account) && found[n - 1].id != account;
      CarriedCount(table, plans, found, n - 1, token, now, account);
      CarryCount(CarryAll(table, plans, n - 1, token, now).0, plans[n - 1], token, now, account);
    }
  }

  lemma CarryNumbered(rows: Table, plan: Plan, token: Uuid, now: Time)
    requires Numbered(rows) && (plan.Resume? ==> plan.active < |rows|)
    requires !plan.Skip? ==> plan.number == Count(rows, plan.account.id) + 1
    ensures Numbered(Carry(rows, plan, token, now))
  {
    match plan
    case Skip(_, _) =>
    case RecordFailed(a, number, reason) =>
      NumberedAppend(rows, Attempt(a.id, number, Failed, None, None, reason, token));
    case Resume(a, active, previous, number) =>
      var closed := rows[active := Abandoned(rows[active])];
      NumberedRewrite(rows, closed);
      SameAccountsCount(rows, closed, a.id);
      NumberedAppend(closed, ReservedRow(a, number, previous, token, now));
    case Create(a, previous, number) => NumberedAppend(rows, ReservedRow(a, number, previous, token, now));
  }

  lemma CarryAllNext(table: Table, plans: seq<Plan>, n: nat, token: Uuid, now: Time)
    requires n < |plans| && forall k :: 0 <= k < |plans| && plans[k].Resume? ==> plans[k].active < |table|
    ensures CarryAll(table, plans, n + 1, token, now).0
         == Carry(CarryAll(table, plans, n, token, now).0, plans[n], token, now)
  {
  }

  /** Plan `k`'s number follows the rows its account has by then. */
  predicate NumberFollows(table: Table, plans: seq<Plan>, k: nat, token: Uuid, now: Time)
    requires k < |plans| && forall i :: 0 <= i < |plans| && plans[i].Resume? ==> plans[i].active < |table|
  {
    !plans[k].Skip? ==> plans[k].number == Count(CarryAll(table, plans, k, token, now).0, plans[k].account.id) + 1
  }

  lemma NextNumber(table: Table, plans: seq<Plan>, found: seq<Account>, k: nat, token: Uuid, now: Time)
    requires Distinct(found) && PlansOk(table, plans, found, now) && k < |plans|
    ensures NumberFollows(table, plans, k, token, now)
  {
    assert PlanOk(table, plans[k], found[k], now);
    assert !SelectedIn(found, k, found[k].id);
    CarriedCount(table, plans, found, k, token, now, found[k].id);
  }

  lemma {:induction false} FollowingNumbers(table: Table, plans: seq<Plan>, n: nat, token: Uuid, now: Time)
    requires Numbered(table) && n <= |plans|
    requires forall i :: 0 <= i < |plans| && plans[i].Resume? ==> plans[i].active < |table|
    requires forall k :: 0 <= k < n ==> NumberFollows(table, plans, k, token, now)
    ensures Numbered(CarryAll(table, plans, n, token, now).0)
  {
    if n > 0 {
      FollowingNumbers(table, plans, n - 1, token, now);
      assert NumberFollows(table, plans, n - 1, token, now);
      CarryNumbered(CarryAll(table, plans, n - 1, token, now).0, plans[n - 1], token, now);
      CarryAllNext(table, plans, n - 1, token, now);
    }
  }

  lemma CarriedNumbered(table: Table, plans: seq<Plan>, found: seq<Account>, n: nat, token: Uuid, now: Time)
    requires Numbered(table) && Distinct(found) && PlansOk(table, plans, found, now) && n <= |plans|
    ensures Numbered(CarryAll(table, plans, n, token, now).0)
  {
    forall k | 0 <= k < n ensures NumberFollows(table, plans, k, token, now) {
      NextNumber(table, plans, found, k, token, now);
    }
    FollowingNumbers(table, plans, n, token, now);
  }

  // ----- Exclusivity -------------------------------------------------------------------------------

  lemma AppendAlone(rows: Table, row: Attempt, statuses: set<AttemptStatus>)
    requires AtMostOne(rows, statuses)
    requires row.status in statuses ==> !Has(rows, row.account, statuses)
    ensures AtMostOne(rows + [row], statuses)
  {
  }

  /** A class of statuses that holds every active one, or none: the two indexes and exclusivity use no other. */
  predicate Closed(statuses: set<AttemptStatus>) {
    statuses == ACTIVE || statuses == {Published} || statuses == ACTIVE + {Published}
  }

  lemma CarryAtMostOne(table: Table, rows: Table, plan: Plan, found: seq<Account>, n: nat, token: Uuid, now: Time,
                       statuses: set<AttemptStatus>)
    requires Unique(table) && AtMostOne(table, statuses) && AtMostOne(rows, statuses) && Closed(statuses)
    requires n < |found| && !SelectedIn(found, n, found[n].id)
    requires OldRowsKept(table, rows, found, n, now) && NewRowsOwned(table, rows, found, n, token)
    requires PlanOk(table, plan, found[n], now)
    ensures AtMostOne(Carry(rows, plan, token, now), statuses)
  {
    assert forall i :: 0 <= i < |rows| && rows[i].account == found[n].id ==> i < |table| && rows[i] == table[i];
    match plan
    case Skip(_, _) =>
    case RecordFailed(a, number, reason) =>
      AppendAlone(rows, Attempt(a.id, number, Failed, None, None, reason, token), statuses);
    case Resume(a, active, previous, number) =>
      var closed := rows[active := Abandoned(rows[active])];
      forall i | 0 <= i < |closed| && closed[i].account == a.id && Processing in statuses
        ensures closed[i].status !in statuses
      {
        OnlyActive(table, a.id, active);
        assert i < |table| && (i != active ==> table[i] == rows[i]);
      }
      AppendAlone(closed, ReservedRow(a, number, previous, token, now), statuses);
    case Create(a, previous, number) =>
      AppendAlone(rows, ReservedRow(a, number, previous, token, now), statuses);
  }

  lemma NextAtMostOne(table: Table, plans: seq<Plan>, found: seq<Account>, n: nat, token: Uuid, now: Time,
                      statuses: set<AttemptStatus>)
    requires Unique(table) && AtMostOne(table, statuses) && Closed(statuses)
    requires Distinct(found) && PlansOk(table, plans, found, now) && n < |plans|
    requires AtMostOne(CarryAll(table, plans, n, token, now).0, statuses)
    ensures AtMostOne(Carry(CarryAll(table, plans, n, token, now).0, plans[n], token, now), statuses)
  {
    CarriedOldRows(table, plans, found, n, token, now);
    CarriedNewRows(table, plans, found, n, token, now);
    assert PlanOk(table, plans[n], found[n], now);
    assert !SelectedIn(found, n, found[n].id);
    CarryAtMostOne(table, CarryAll(table, plans, n, token, now).0, plans[n], found, n, token, now, statuses);
  }

  lemma {:induction false} CarriedAtMostOne(table: Table, plans: seq<Plan>, found: seq<Account>, n: nat, token: Uuid,
                                            now: Time, statuses: set<AttemptStatus>)
    requires Unique(table) && AtMostOne(table, statuses) && Closed(statuses)
    requires Distinct(found) && PlansOk(table, plans, found, now) && n <= |plans|
    ensures AtMostOne(CarryAll(table, plans, n, token, now).0, statuses)
  {
    if n > 0 {
      CarriedAtMostOne(table, plans, found, n - 1, token, now, statuses);
      NextAtMostOne(table, plans, found, n - 1, token, now, statuses);
      CarryAllNext(table, plans, n - 1, token, now);
    }
  }

  // ----- Targets -------------------------------------------------------------------------------------

  /** The last account's own target, right after its write. */
  lemma CarryTarget(table: Table, rows: Table, plan: Plan, found: seq<Account>, n: nat, token: Uuid, now: Time)
    requires n < |found| && !SelectedIn(found, n, found[n].id) && OldRowsKept(table, rows, found, n, now)
    requires PlanOk(table, plan, found[n], now)
    ensures TargetOk(table, Carry(rows, plan, token, now), TargetOf(|rows|, plan, now), found[n], token, now)
  {
    match plan
    case Skip(_, attempt) => assert !Resumed(table, attempt, found, n, now);
    case RecordFailed(_, _, _) =>
    case Resume(_, _, _, _) =>
    case Create(_, _, _) =>
  }

  /** A later write leaves the targets of earlier accounts alone. */
  lemma CarryKeepsTarget(table: Table, rows: Table, target: Target, owner: Account, plan: Plan, account: Account,
                         token: Uuid, now: Time)
    requires TargetOk(table, rows, target, owner, token, now) && owner.id != account.id
    requires |rows| >= |table| && forall i :: 0 <= i < |table| ==> rows[i].account == table[i].account
    requires PlanOk(table, plan, account, now)
    ensures TargetOk(table, Carry(rows, plan, token, now), target, owner, token, now)
  {
    assert Carry(rows, plan, token, now)[target.attempt] == rows[target.attempt];
  }

  /** One sound target per account, in order. */
  predicate TargetsOk(table: Table, rows: Table, targets: seq<Target>, found: seq<Account>, token: Uuid, now: Time) {
    && |targets| <= |found|
    && forall k :: 0 <= k < |targets| ==> TargetOk(table, rows, targets[k], found[k], token, now)
  }

  lemma {:induction false} CarriedTargets(table: Table, plans: seq<Plan>, found: seq<Account>, n: nat, token: Uuid,
                                          now: Time)
    requires Unique(table) && Distinct(found) && PlansOk(table, plans, found, now) && n <= |plans|
    ensures var r := CarryAll(table, plans, n, token, now);
      |r.1| == n && TargetsOk(table, r.0, r.1, found, token, now)
  {
    if n > 0 {
      var before := CarryAll(table, plans, n - 1, token, now);
      CarriedTargets(table, plans, found, n - 1, token, now);
      CarriedOldRows(table, plans, found, n - 1, token, now);
      assert PlanOk(table, plans[n - 1], found[n - 1], now);
      NextTarget(table, before.0, before.1, plans[n - 1], found, token, now);
    }
  }

  lemma NextTarget(table: Table, rows: Table, targets: seq<Target>, plan: Plan, found: seq<Account>, token: Uuid,
                   now: Time)
    requires |targets| < |found| && Distinct(found) && TargetsOk(table, rows, targets, found, token, now)
    requires OldRowsKept(table, rows, found, |targets|, now) && PlanOk(table, plan, found[|targets|], now)
    ensures TargetsOk(table, Carry(rows, plan, token, now), targets + [TargetOf(|rows|, plan, now)], found, token, now)
  {
    CarryTarget(table, rows, plan, found, |targets|, token, now);
    forall k | 0 <= k < |targets|
      ensures TargetOk(table, Carry(rows, plan, token, now), targets[k], found[k], token, now)
    {
      CarryKeepsTarget(table, rows, targets[k], found[k], plan, found[|targets|], token, now);
    }
  }

  // ----- Covering the selection ---------------------------------------------------------------------

  function Ids(found: seq<Account>): seq<Uuid> {
    seq(|found|, k requires 0 <= k < |found| => found[k].id)
  }

  /** The length check of the code is enough: as many accounts as ids means every id is among them. */
  lemma CountCovers(requested: seq<Uuid>, found: seq<Account>)
    requires Fetched(requested, found) && |found| == |requested|
    ensures forall id :: id in requested <==> Selected(found, id)
  {
    DistinctCount(Ids(found));
    ElementsAtMost(requested);
    assert Elements(Ids(found)) <= Elements(requested);
    FullSubset(Elements(Ids(found)), Elements(requested));
    forall id ensures id in requested <==> Selected(found, id) {
      assert id in Elements(requested) <==> id in requested;
      assert id in Elements(Ids(found)) <==> Selected(found, id);
    }
  }

  // ----- The main results ----------------------------------------------------------------------------

  /**
    A normal return yields exactly one target per requested account, each
    standing for its attempt; of the earlier rows only the resumed ones change.
  */
  lemma TargetsCoverSelection(table: Table, setup: Setup, requested: seq<Uuid>, found: seq<Account>,
                              allowSkipping: bool, token: Uuid, now: Time)
    requires Unique(table) && Numbered(table) && Fetched(requested, found)
    ensures var p := Prepare(table, setup, requested, found, allowSkipping, token, now);
      p.outcome.Targets? ==>
        && |p.outcome.targets| == |found| == |requested|
        && TargetsOk(table, p.rows, p.outcome.targets, found, token, now)
        && OldRowsKept(table, p.rows, found, |found|, now)
        && NewRowsOwned(table, p.rows, found, |found|, token)
        && forall id :: id in requested <==> Selected(found, id)
  {
    if Prepare(table, setup, requested, found, allowSkipping, token, now).outcome.Targets? {
      var plans := ReadyCarriesPlans(table, setup, requested, found, allowSkipping, token, now);
      CarriedTargets(table, plans, found, |plans|, token, now);
      CarriedOldRows(table, plans, found, |plans|, token, now);
      CarriedNewRows(table, plans, found, |plans|, token, now);
      CountCovers(requested, found);
    }
  }

  lemma DoubtKeepsAtMostOne(table: Table, rows: Table, found: seq<Account>, now: Time, statuses: set<AttemptStatus>)
    requires AtMostOne(table, statuses) && Closed(statuses) && |rows| == |table|
    requires forall i :: 0 <= i < |table| ==>
      rows[i] == if InDoubt(table, i, found, now) then Doubted(table[i]) else table[i]
    ensures AtMostOne(rows, statuses)
  {
  }

  lemma PrepareKeepsAtMostOne(table: Table, setup: Setup, requested: seq<Uuid>, found: seq<Account>,
                              allowSkipping: bool, token: Uuid, now: Time, statuses: set<AttemptStatus>)
    requires Unique(table) && Numbered(table) && AtMostOne(table, statuses) && Closed(statuses)
    requires Fetched(requested, found)
    ensures AtMostOne(Prepare(table, setup, requested, found, allowSkipping, token, now).rows, statuses)
  {
    var p := Prepare(table, setup, requested, found, allowSkipping, token, now);
    UncertainExactlyWhen(table, setup, requested, found, allowSkipping, token, now);
    match p.outcome
    case Thrown(_) =>
    case UncertainAccount(_) => DoubtKeepsAtMostOne(table, p.rows, found, now, statuses);
    case Targets(_) =>
      var plans := ReadyCarriesPlans(table, setup, requested, found, allowSkipping, token, now);
      CarriedAtMostOne(table, plans, found, |plans|, token, now, statuses);
  }

  lemma PrepareNumbers(table: Table, setup: Setup, requested: seq<Uuid>, found: seq<Account>,
                       allowSkipping: bool, token: Uuid, now: Time)
    requires Unique(table) && Numbered(table) && Fetched(requested, found)
    ensures Numbered(Prepare(table, setup, requested, found, allowSkipping, token, now).rows)
  {
    var p := Prepare(table, setup, requested, found, allowSkipping, token, now);
    UncertainExactlyWhen(table, setup, requested, found, allowSkipping, token, now);
    match p.outcome
    case Thrown(_) =>
    case UncertainAccount(_) => NumberedRewrite(table, p.rows);
    case Targets(_) =>
      var plans := ReadyCarriesPlans(table, setup, requested, found, allowSkipping, token, now);
      CarriedNumbered(table, plans, found, |plans|, token, now);
  }

  /**
    Every preparation keeps attempt numbers gapless, breaks no unique index, and
    keeps at most one attempt per account unfinished, uncertain or published.
  */
  lemma PrepareKeepsTable(table: Table, setup: Setup, requested: seq<Uuid>, found: seq<Account>,
                          allowSkipping: bool, token: Uuid, now: Time)
    requires Unique(table) && Numbered(table) && Fetched(requested, found)
    ensures var rows := Prepare(table, setup, requested, found, allowSkipping, token, now).rows;
      Numbered(rows) && Unique(rows) && (Exclusive(table) ==> Exclusive(rows))
  {
    PrepareNumbers(table, setup, requested, found, allowSkipping, token, now);
    PrepareKeepsAtMostOne(table, setup, requested, found, allowSkipping, token, now, ACTIVE);
    PrepareKeepsAtMostOne(table, setup, requested, found, allowSkipping, token, now, {Published});
    if Exclusive(table) {
      PrepareKeepsAtMostOne(table, setup, requested, found, allowSkipping, token, now, ACTIVE + {Published});
    }
  }
}
