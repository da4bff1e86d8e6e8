/**
  The attempt table of one post.  Rows are only ever appended, so a row's index
  serves as its id; per account they are numbered in that order.
*/
module PublicationRows {
  import opened Basics

  /** How long a reserved attempt stays leased, in milliseconds. */
  const ATTEMPT_LEASE_MS: Time := 180000

  datatype AttemptStatus = Pending | Processing | ContainerCreated | Published | Failed | Uncertain

  datatype Reason =
    | NoReason | AccountInactive | DecryptFailed | AbandonedLeaseExpired | LeaseExpiredUncertain
    | PreparationFailed | RemoteTimeout | RemoteError | PersistenceFailed | ManuallyFailed

  /** One attempt; `owner` is the execution that inserted it, kept here as history. */
  datatype Attempt = Attempt(
    account: Uuid,
    number: nat,
    status: AttemptStatus,
    lease: Option<Time>,
    container: Option<Uuid>,
    reason: Reason,
    owner: Uuid)

  type Table = seq<Attempt>

  const ACTIVE := {Pending, Processing, ContainerCreated, Uncertain}
  const UNFINISHED := {Pending, Processing, ContainerCreated}
  const ANY := {Pending, Processing, ContainerCreated, Published, Failed, Uncertain}

  /** Statuses that bar another publish to the same account. */
  predicate Live(status: AttemptStatus) {
    status in ACTIVE || status == Published
  }

  predicate LeaseActive(row: Attempt, now: Time) {
    row.lease.Some? && row.lease.value > now
  }

  // ----- Constraints of the table ---------------------------------------------------

  /** The rows of one account. */
  function Count(table: Table, account: Uuid): nat {
    if table == [] then 0
    else Count(table[..|table| - 1], account) + (if table[|table| - 1].account == account then 1 else 0)
  }

  /** Each row's number is its place among the rows of its account. */
  predicate Numbered(table: Table) {
    forall i {:trigger table[i].number} :: 0 <= i < |table| ==>
      table[i].number == Count(table[..i], table[i].account) + 1
  }

  /** No two rows of one account have their statuses in the same class. */
  predicate AtMostOne(table: Table, statuses: set<AttemptStatus>) {
    forall i, k :: 0 <= i < k < |table| && table[i].account == table[k].account ==>
      !(table[i].status in statuses && table[k].status in statuses)
  }

  /** The two unique partial indexes. */
  predicate Unique(table: Table) {
    AtMostOne(table, ACTIVE) && AtMostOne(table, {Published})
  }

  /** At most one attempt per account is unfinished, uncertain or published. */
  predicate Exclusive(table: Table) {
    AtMostOne(table, ACTIVE + {Published})
  }

  /** Some other row of the same account bars a publish. */
  predicate OtherLive(table: Table, i: nat)
    requires i < |table|
  {
    exists k :: 0 <= k < |table| && k != i && table[k].account == table[i].account && Live(table[k].status)
  }

  /** An update by id, rolled back when it fails or breaks a unique index. */
  predicate Commits(table: Table, i: nat, row: Attempt, reachable: bool)
    requires i < |table|
  {
    reachable && Unique(table[i := row])
  }

  function Update(table: Table, i: nat, row: Attempt, reachable: bool): Table
    requires i < |table|
  {
    if Commits(table, i, row, reachable) then table[i := row] else table
  }

  /** The last row of an account, among the first `n`, with one of the given statuses. */
  function LatestIn(table: Table, n: nat, account: Uuid, statuses: set<AttemptStatus>): (r: Option<nat>)
    requires n <= |table|
    ensures r.Some? ==> r.value < n
  {
    if n == 0 then None
    else if table[n - 1].account == account && table[n - 1].status in statuses then Some(n - 1)
    else LatestIn(table, n - 1, account, statuses)
  }

  function Latest(table: Table, account: Uuid, statuses: set<AttemptStatus>): Option<nat> {
    LatestIn(table, |table|, account, statuses)
  }

  lemma {:induction false} LatestMeans(table: Table, n: nat, account: Uuid, statuses: set<AttemptStatus>)
    requires n <= |table|
    ensures match LatestIn(table, n, account, statuses)
      case Some(last) =>
        && table[last].account == account && table[last].status in statuses
        && forall i :: last < i < n && table[i].account == account ==> table[i].status !in statuses
      case None => forall i :: 0 <= i < n && table[i].account == account ==> table[i].status !in statuses
  {
    if n > 0 {
      LatestMeans(table, n - 1, account, statuses);
    }
  }

  // ----- What the numbering means ----------------------------------------------------

  lemma CountLast(table: Table, i: nat, account: Uuid)
    requires i < |table|
    ensures Count(table[..i + 1], account)
         == Count(table[..i], account) + (if table[i].account == account then 1 else 0)
  {
    assert table[..i + 1][..i] == table[..i];
  }

  lemma {:induction false} CountGrows(table: Table, i: nat, k: nat, account: Uuid)
    requires i <= k <= |table|
    ensures Count(table[..i], account) <= Count(table[..k], account)
    decreases k
  {
    if i < k {
      CountGrows(table, i, k - 1, account);
      CountLast(table, k - 1, account);
    }
  }

  lemma {:induction false} CountReaches(table: Table, account: Uuid, m: nat)
    requires 1 <= m <= Count(table, account)
    ensures exists i :: 0 <= i < |table| && table[i].account == account && Count(table[..i], account) + 1 == m
    decreases |table|
  {
    var n := |table| - 1;
    CountLast(table, n, account);
    assert table[..n + 1] == table;
    if m <= Count(table[..n], account) {
      CountReaches(table[..n], account, m);
      var i :| 0 <= i < n && table[..n][i].account == account && Count(table[..n][..i], account) + 1 == m;
      assert table[..n][..i] == table[..i];
    }
  }

  /** Later rows of an account have higher numbers, all within its count. */
  lemma NumbersRise(table: Table, i: nat, k: nat)
    requires Numbered(table) && i < |table| && i < k <= |table|
    ensures 1 <= table[i].number <= Count(table[..k], table[i].account)
    ensures k < |table| && table[k].account == table[i].account ==> table[i].number < table[k].number
  {
    CountLast(table, i, table[i].account);
    CountGrows(table, i + 1, k, table[i].account);
  }

  /** The attempt numbers of an account are exactly 1..n, each used once. */
  lemma NumbersAreExact(table: Table, account: Uuid, m: nat)
    requires Numbered(table)
    ensures 1 <= m <= Count(table, account) <==>
      (exists i :: 0 <= i < |table| && table[i].account == account && table[i].number == m)
    ensures forall i, k :: 0 <= i < k < |table| && table[i].account == account && table[k].account == account ==>
      table[i].number < table[k].number
  {
    forall i, k | 0 <= i < k < |table| && table[i].account == account && table[k].account == account
      ensures table[i].number < table[k].number
    {
      NumbersRise(table, i, k);
    }
    assert table[..|table|] == table;
    if 1 <= m <= Count(table, account) {
      CountReaches(table, account, m);
      var i :| 0 <= i < |table| && table[i].account == account && Count(table[..i], account) + 1 == m;
      assert table[i].number == m;
    }
    if i :| 0 <= i < |table| && table[i].account == account && table[i].number == m {
      NumbersRise(table, i, |table|);
    }
  }

  /** Appending a row with the next number keeps the numbering. */
  lemma NumberedAppend(table: Table, row: Attempt)
    requires Numbered(table) && row.number == Count(table, row.account) + 1
    ensures Numbered(table + [row])
  {
    forall i | 0 <= i < |table| + 1
      ensures (table + [row])[i].number == Count((table + [row])[..i], (table + [row])[i].account) + 1
    {
      assert (table + [row])[..i] == table[..i];
      if i == |table| {
        assert table[..i] == table;
      }
    }
  }

  lemma {:induction false} SameAccountsCount(a: Table, b: Table, account: Uuid)
    requires |a| == |b| && forall i :: 0 <= i < |a| ==> a[i].account == b[i].account
    ensures Count(a, account) == Count(b, account)
    decreases |a|
  {
    if a != [] {
      SameAccountsCount(a[..|a| - 1], b[..|b| - 1], account);
    }
  }

  /** Rewriting rows without touching accounts or numbers keeps the numbering. */
  lemma NumberedRewrite(a: Table, b: Table)
    requires Numbered(a) && |a| == |b|
    requires forall i :: 0 <= i < |a| ==> a[i].account == b[i].account && a[i].number == b[i].number
    ensures Numbered(b)
  {
    forall i | 0 <= i < |b| ensures b[i].number == Count(b[..i], b[i].account) + 1 {
      SameAccountsCount(a[..i], b[..i], b[i].account);
    }
  }

  lemma AnyStatus(status: AttemptStatus)
    ensures status in ANY
  {
    match status
    case Pending =>
    case Processing =>
    case ContainerCreated =>
    case Published =>
    case Failed =>
    case Uncertain =>
  }

  lemma {:induction false} LastNumberIn(table: Table, n: nat, account: Uuid)
    requires Numbered(table) && n <= |table|
    ensures var last := LatestIn(table, n, account, ANY);
      Count(table[..n], account) == (if last.Some? then table[last.value].number else 0)
  {
    if n > 0 {
      AnyStatus(table[n - 1].status);
      CountLast(table, n - 1, account);
      LastNumberIn(table, n - 1, account);
    }
  }

  /** The highest number of an account is on its last row. */
  lemma LastNumber(table: Table, account: Uuid)
    requires Numbered(table)
    ensures var last := Latest(table, account, ANY);
      Count(table, account) == (if last.Some? then table[last.value].number else 0)
  {
    LastNumberIn(table, |table|, account);
    assert table[..|table|] == table;
  }

  // ----- When an update keeps attempts exclusive ---------------------------------------

  /**
    An update of one row keeps exclusivity exactly when it does not bring a row
    back to life beside another live row of the account.
  */
  lemma UpdateKeepsExclusive(table: Table, i: nat, row: Attempt)
    requires Exclusive(table) && i < |table| && row.account == table[i].account
    ensures Exclusive(table[i := row]) <==> !(Live(row.status) && OtherLive(table, i))
  {
    var after := table[i := row];
    if Live(row.status) && OtherLive(table, i) {
      var k :| 0 <= k < |table| && k != i && table[k].account == table[i].account && Live(table[k].status);
      var low, high := if i < k then i else k, if i < k then k else i;
      assert after[low].account == after[high].account;
    }
  }
}
