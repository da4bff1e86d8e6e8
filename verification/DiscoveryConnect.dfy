/**
  Connecting the accounts of one OAuth discovery: an expiring owner lock, a
  discovery session that may vanish, and one durable consumption row that all
  overlapping connects agree on.
*/
module DiscoveryConnect {
  import opened Basics
  import opened Sets

  datatype Platform = FacebookPage | InstagramBusiness

  datatype Asset = Asset(platform: Platform, id: Uuid)

  /** Tenant, client and user of a request. */
  datatype Scope = Scope(org: Uuid, client: Uuid, user: Uuid)

  datatype Session = Session(scope: Scope, assets: seq<Asset>)

  /** The durable row; `winner` is the request that wrote it, kept here as history. */
  datatype Consumption = Consumption(scope: Scope, selected: seq<Asset>, accounts: seq<Uuid>, winner: Uuid)

  datatype Lock = Lock(owner: Uuid, until: Time)

  datatype Error = Busy | NoSession | WrongScope | UnknownAsset | DifferentSelection | Race | Failed

  datatype Reply = Connected(accounts: set<Uuid>) | Rejected(error: Error)

  datatype Phase =
    | Arrived
    | Locked                        // inside the transaction, nothing read
    | Unconsumed                    // saw no consumption, session not read
    | Committing                    // assets matched, rows to be written
    | Recovering                    // lost a unique index, to look again
    | Replying(reply: Reply)        // session to be dropped
    | Releasing(reply: Reply)
    | Answered(reply: Reply)
    | Dead

  datatype Request = Request(scope: Scope, selected: seq<Asset>, phase: Phase, won: bool)

  datatype World = World(
    lock: Option<Lock>,
    session: Option<Session>,
    consumption: Option<Consumption>,
    accounts: map<Asset, Uuid>,
    next: Uuid,
    requests: map<Uuid, Request>,
    now: Time)

  datatype Action =
    | Tick(elapsed: nat)
    | Discover(session: Session)
    | ForgetSession
    | Arrive(request: Uuid, scope: Scope, selected: seq<Asset>)
    | TakeLock(request: Uuid, ttl: nat)
    | CheckConsumption(request: Uuid)
    | ReadSession(request: Uuid)
    | Commit(request: Uuid, clash: bool, reachable: bool)
    | Recover(request: Uuid)
    | DropSession(request: Uuid, reachable: bool)
    | Release(request: Uuid, reachable: bool)
    | Crash(request: Uuid)

  const Empty := World(None, None, None, map[], 0, map[], 0)

  // ----- Selections -------------------------------------------------------------------------

  /** The replay check: lengths differ, or some selected asset was not saved. */
  predicate Different(saved: seq<Asset>, selected: seq<Asset>) {
    |saved| != |selected| || exists k :: 0 <= k < |selected| && selected[k] !in saved
  }

  predicate DuplicateFree(selection: seq<Asset>) {
    forall i, k :: 0 <= i < k < |selection| ==> selection[i] != selection[k]
  }

  function Assets(selection: seq<Asset>): set<Asset> {
    set a | a in selection
  }

  lemma {:induction false} DuplicateFreeCount(selection: seq<Asset>)
    requires DuplicateFree(selection)
    ensures |Assets(selection)| == |selection|
  {
    if selection != [] {
      var front := selection[..|selection| - 1];
      DuplicateFreeCount(front);
      assert Assets(selection) == Assets(front) + {selection[|selection| - 1]};
    }
  }

  /** For duplicate-free selections the replay check is exactly set equality. */
  lemma ReplayIsSetEquality(saved: seq<Asset>, selected: seq<Asset>)
    requires DuplicateFree(saved) && DuplicateFree(selected)
    ensures !Different(saved, selected) <==> Assets(saved) == Assets(selected)
  {
    DuplicateFreeCount(saved);
    DuplicateFreeCount(selected);
    if !Different(saved, selected) {
      assert Assets(selected) <= Assets(saved);
      assert Assets(saved) == Assets(selected) + (Assets(saved) - Assets(selected));
    } else if |saved| == |selected| {
      var k :| 0 <= k < |selected| && selected[k] !in saved;
      assert selected[k] in Assets(selected) && selected[k] !in Assets(saved);
    }
  }

  /** With a repeated asset the check accepts a smaller selection. */
  lemma RepeatedAssetReplays(a: Asset, b: Asset)
    requires a != b
    ensures !Different([a, b], [a, a]) && Assets([a, b]) != Assets([a, a])
  {
    assert b in Assets([a, b]) && b !in Assets([a, a]);
  }

  lemma {:induction false} RepeatedCount(selection: seq<Asset>)
    ensures |Assets(selection)| <= |selection|
    ensures !DuplicateFree(selection) ==> |Assets(selection)| < |selection|
  {
    if selection != [] {
      var front, last := selection[..|selection| - 1], selection[|selection| - 1];
      RepeatedCount(front);
      assert Assets(selection) == Assets(front) + {last};
      if DuplicateFree(front) && !DuplicateFree(selection) {
        assert last in Assets(front);
      }
    }
  }

  /**
    Against a duplicate-free saved selection the check errs exactly when the new
    one repeats an asset, and then it accepts a smaller selection of equal length,
    or refuses the same assets at another length.
  */
  lemma ReplayErrsExactlyWhen(saved: seq<Asset>, selected: seq<Asset>)
    requires DuplicateFree(saved)
    ensures (!Different(saved, selected) && Assets(saved) != Assets(selected))
       <==> (!DuplicateFree(selected) && |selected| == |saved| && Assets(selected) <= Assets(saved))
    ensures (Different(saved, selected) && Assets(saved) == Assets(selected))
       <==> (!DuplicateFree(selected) && Assets(selected) == Assets(saved))
  {
    DuplicateFreeCount(saved);
    RepeatedCount(selected);
    if DuplicateFree(selected) {
      ReplayIsSetEquality(saved, selected);
    }
    if !Different(saved, selected) {
      assert Assets(selected) <= Assets(saved);
    } else if |selected| == |saved| {
      var k :| 0 <= k < |selected| && selected[k] !in saved;
      assert selected[k] in Assets(selected) && selected[k] !in Assets(saved);
    }
  }

  // ----- Writing the rows ----------------------------------------------------------------------

  /** The account of an asset is updated if it exists and created if not; one id per asset, in order. */
  function Upsert(accounts: map<Asset, Uuid>, next: Uuid, selected: seq<Asset>, n: nat): (map<Asset, Uuid>, Uuid,
                  seq<Uuid>)
    requires n <= |selected|
  {
    if n == 0 then (accounts, next, [])
    else
      var before := Upsert(accounts, next, selected, n - 1);
      var a := selected[n - 1];
      if a in before.0 then (before.0, before.1, before.2 + [before.0[a]])
      else (before.0[a := before.1], before.1 + 1, before.2 + [before.1])
  }

  /** Accounts have ids given out so far, no two the same. */
  predicate IdsOk(accounts: map<Asset, Uuid>, next: Uuid) {
    && (forall a :: a in accounts ==> accounts[a] < next)
    && (forall a, b :: a in accounts && b in accounts && a != b ==> accounts[a] != accounts[b])
  }

  /** Existing accounts keep their ids. */
  predicate AccountsKept(before: map<Asset, Uuid>, after: map<Asset, Uuid>) {
    forall a :: a in before ==> a in after && after[a] == before[a]
  }

  /** The ids list the accounts of the first `n` selected assets, in order. */
  predicate Lists(accounts: map<Asset, Uuid>, ids: seq<Uuid>, selected: seq<Asset>, n: nat)
    requires n <= |selected|
  {
    |ids| == n && forall k :: 0 <= k < n ==> selected[k] in accounts && ids[k] == accounts[selected[k]]
  }

  lemma ListsMore(before: map<Asset, Uuid>, after: map<Asset, Uuid>, ids: seq<Uuid>, selected: seq<Asset>, n: nat)
    requires n < |selected| && Lists(before, ids, selected, n) && AccountsKept(before, after) && selected[n] in after
    ensures Lists(after, ids + [after[selected[n]]], selected, n + 1)
  {
  }

  lemma {:induction false} UpsertMeans(accounts: map<Asset, Uuid>, next: Uuid, selected: seq<Asset>, n: nat)
    requires n <= |selected| && IdsOk(accounts, next)
    ensures var r := Upsert(accounts, next, selected, n);
      && IdsOk(r.0, r.1) && AccountsKept(accounts, r.0) && Lists(r.0, r.2, selected, n)
      && (forall a :: a in r.0 && a !in accounts ==> a in selected)
  {
    if n > 0 {
      UpsertMeans(accounts, next, selected, n - 1);
      var before := Upsert(accounts, next, selected, n - 1);
      ListsMore(before.0, Upsert(accounts, next, selected, n).0, before.2, selected, n - 1);
    }
  }

  // ----- Steps ------------------------------------------------------------------------------------

  predicate Held(lock: Option<Lock>, now: Time) {
    lock.Some? && now < lock.value.until
  }

  /** `resolveExistingConsumption`. */
  function Resolve(c: Consumption, r: Request): Reply {
    if c.scope != r.scope then Rejected(WrongScope)
    else if Different(c.selected, r.selected) then Rejected(DifferentSelection)
    else Connected(Elements(c.accounts))
  }

  /** An error skips dropping the session. */
  function After(r: Request, reply: Reply): Request {
    r.(phase := if reply.Connected? then Replying(reply) else Releasing(reply))
  }

  function Match(session: Option<Session>, r: Request): Option<Error> {
    if session.None? then Some(NoSession)
    else if session.value.scope != r.scope then Some(WrongScope)
    else if exists k :: 0 <= k < |r.selected| && r.selected[k] !in session.value.assets then Some(UnknownAsset)
    else None
  }

  function Put(w: World, t: Uuid, r: Request): World {
    w.(requests := w.requests[t := r])
  }

  function StepCommit(w: World, t: Uuid, r: Request, clash: bool, reachable: bool): World {
    if !reachable then Put(w, t, After(r, Rejected(Failed)))
    else if clash || w.consumption.Some? then Put(w, t, r.(phase := Recovering))
    else
      var rows := Upsert(w.accounts, w.next, r.selected, |r.selected|);
      Put(w, t, After(r, Connected(Elements(rows.2))).(won := true))
        .(accounts := rows.0, next := rows.1, consumption := Some(Consumption(r.scope, r.selected, rows.2, t)))
  }

  function StepRequest(w: World, t: Uuid, a: Action): World
    requires t in w.requests
  {
    var r := w.requests[t];
    match (a, r.phase)
    case (TakeLock(_, ttl), Arrived) =>
      if Held(w.lock, w.now) then Put(w, t, r.(phase := Answered(Rejected(Busy))))
      else Put(w, t, r.(phase := Locked)).(lock := Some(Lock(t, w.now + ttl)))
    case (CheckConsumption(_), Locked) =>
      Put(w, t, if w.consumption.Some? then After(r, Resolve(w.consumption.value, r)) else r.(phase := Unconsumed))
    case (ReadSession(_), Unconsumed) =>
      var error := Match(w.session, r);
      Put(w, t, if error.Some? then After(r, Rejected(error.value)) else r.(phase := Committing))
    case (Commit(_, clash, reachable), Committing) => StepCommit(w, t, r, clash, reachable)
    case (Recover(_), Recovering) =>
      Put(w, t, After(r, if w.consumption.Some? then Resolve(w.consumption.value, r) else Rejected(Race)))
    case (DropSession(_, reachable), Replying(reply)) =>
      Put(w, t, r.(phase := Releasing(reply))).(session := if reachable then None else w.session)
    case (Release(_, reachable), Releasing(reply)) =>
      Put(w, t, r.(phase := Answered(reply)))
        .(lock := if reachable && Held(w.lock, w.now) && w.lock.value.owner == t then None else w.lock)
    case (Crash(_), _) => Put(w, t, r.(phase := Dead))
    case _ => w
  }

  function Apply(w: World, a: Action): World {
    match a
    case Tick(elapsed) => w.(now := w.now + elapsed)
    case Discover(session) => if w.session.None? && w.consumption.None? then w.(session := Some(session)) else w
    case ForgetSession => w.(session := None)
    case Arrive(t, scope, selected) =>
      if t in w.requests then w else Put(w, t, Request(scope, selected, Arrived, false))
    case _ => if a.request in w.requests then StepRequest(w, a.request, a) else w
  }

  function Run(w: World, actions: seq<Action>): World
    decreases |actions|
  {
    if actions == [] then w else Run(Apply(w, actions[0]), actions[1..])
  }

  // ----- Invariant ----------------------------------------------------------------------------------

  function ReplyOf(phase: Phase): Option<Reply> {
    match phase
    case Replying(reply) => Some(reply)
    case Releasing(reply) => Some(reply)
    case Answered(reply) => Some(reply)
    case _ => None
  }

  /** A success lists the accounts of the consumption, for its scope and its selection. */
  predicate RequestOk(w: World, t: Uuid, r: Request) {
    && (r.won ==> w.consumption.Some? && w.consumption.value.winner == t)
    && (ReplyOf(r.phase).Some? && ReplyOf(r.phase).value.Connected? ==>
          && w.consumption.Some?
          && ReplyOf(r.phase).value.accounts == Elements(w.consumption.value.accounts)
          && w.consumption.value.scope == r.scope && !Different(w.consumption.value.selected, r.selected))
  }

  /** The consumption lists the account of each selected asset. */
  predicate ConsumptionOk(w: World) {
    w.consumption.Some? ==>
      var c := w.consumption.value;
      && |c.accounts| == |c.selected|
      && forall k :: 0 <= k < |c.selected| ==> c.selected[k] in w.accounts && c.accounts[k] == w.accounts[c.selected[k]]
  }

  predicate Ok(w: World) {
    && IdsOk(w.accounts, w.next) && ConsumptionOk(w)
    && forall t :: t in w.requests ==> RequestOk(w, t, w.requests[t])
  }

  lemma CommitOk(w: World, t: Uuid, clash: bool, reachable: bool)
    requires Ok(w) && t in w.requests && w.requests[t].phase.Committing?
    ensures Ok(StepCommit(w, t, w.requests[t], clash, reachable))
    ensures AccountsKept(w.accounts, StepCommit(w, t, w.requests[t], clash, reachable).accounts)
  {
    var r := w.requests[t];
    UpsertMeans(w.accounts, w.next, r.selected, |r.selected|);
  }

  lemma RequestStepOk(w: World, t: Uuid, a: Action)
    requires Ok(w) && t in w.requests && !a.Commit?
    ensures Ok(StepRequest(w, t, a))
    ensures StepRequest(w, t, a).consumption == w.consumption && StepRequest(w, t, a).accounts == w.accounts
  {
    hide Resolve;
    StepKeepsRows(w, t, a);
    assert RequestOk(w, t, w.requests[t]);
    OwnStepOk(w, t, a);
  }

  lemma StepKeepsRows(w: World, t: Uuid, a: Action)
    requires t in w.requests && !a.Commit?
    ensures var after := StepRequest(w, t, a);
      && after.consumption == w.consumption && after.accounts == w.accounts && after.next == w.next
      && t in after.requests && after.requests == w.requests[t := after.requests[t]]
  {
  }

  lemma OwnStepOk(w: World, t: Uuid, a: Action)
    requires t in w.requests && !a.Commit? && RequestOk(w, t, w.requests[t])
    ensures var after := StepRequest(w, t, a); t in after.requests && RequestOk(after, t, after.requests[t])
  {
  }

  lemma StepOk(w: World, a: Action)
    requires Ok(w)
    ensures Ok(Apply(w, a))
    ensures w.consumption.Some? ==> Apply(w, a).consumption == w.consumption
    ensures AccountsKept(w.accounts, Apply(w, a).accounts)
  {
    match a
    case Commit(t, clash, reachable) =>
      if t in w.requests && w.requests[t].phase.Committing? {
        CommitOk(w, t, clash, reachable);
      }
    case Tick(_) =>
    case Discover(_) =>
    case ForgetSession =>
    case Arrive(_, _, _) =>
    case _ => if a.request in w.requests { RequestStepOk(w, a.request, a); }
  }

  lemma {:induction false} RunOk(w: World, actions: seq<Action>)
    requires Ok(w)
    ensures Ok(Run(w, actions))
    ensures w.consumption.Some? ==> Run(w, actions).consumption == w.consumption
    decreases |actions|
  {
    if actions != [] {
      StepOk(w, actions[0]);
      RunOk(Apply(w, actions[0]), actions[1..]);
    }
  }

  // ----- The promises --------------------------------------------------------------------------------

  /** At most one consumption ever commits, however locks expire and connects overlap, and it never changes. */
  lemma ConsumedOnce(before: seq<Action>, after: seq<Action>, t: Uuid, x: Uuid)
    ensures var w := Run(Empty, before);
      && (t in w.requests && x in w.requests && w.requests[t].won && w.requests[x].won ==> t == x)
      && (w.consumption.Some? ==> Run(w, after).consumption == w.consumption)
  {
    RunOk(Empty, before);
    RunOk(Run(Empty, before), after);
  }

  /**
    Every success, of the winner, of a replay or of a loser that recovered, lists
    exactly the accounts of the committed selection, for the same scope.
  */
  lemma SuccessListsWinner(actions: seq<Action>, t: Uuid, accounts: set<Uuid>)
    requires var w := Run(Empty, actions); t in w.requests && w.requests[t].phase == Answered(Connected(accounts))
    ensures var w := Run(Empty, actions);
      && w.consumption.Some?
      && accounts == Elements(w.consumption.value.accounts)
      && w.consumption.value.scope == w.requests[t].scope
      && (forall k :: 0 <= k < |w.consumption.value.selected| ==>
            var a := w.consumption.value.selected[k]; a in w.accounts && w.accounts[a] in accounts)
      && (DuplicateFree(w.consumption.value.selected) && DuplicateFree(w.requests[t].selected) ==>
            Assets(w.consumption.value.selected) == Assets(w.requests[t].selected))
  {
    RunOk(Empty, actions);
    var w := Run(Empty, actions);
    assert RequestOk(w, t, w.requests[t]);
    var c := w.consumption.value;
    forall k | 0 <= k < |c.selected| ensures c.selected[k] in w.accounts && w.accounts[c.selected[k]] in accounts {
      assert c.accounts[k] in c.accounts;
    }
    if DuplicateFree(c.selected) && DuplicateFree(w.requests[t].selected) {
      ReplayIsSetEquality(c.selected, w.requests[t].selected);
    }
  }

  /** A step takes away a live lock only as the release of its own owner. */
  lemma ReleasesOwnLock(w: World, a: Action)
    requires Held(w.lock, w.now) && Apply(w, a).lock != w.lock
    ensures a.Release? && w.lock.value.owner == a.request && Apply(w, a).lock == None
  {
  }

  /** Account rows and the consumption change together, in the one step that wins. */
  lemma LosersLeaveNoTrace(w: World, a: Action)
    requires var after := Apply(w, a);
      after.accounts != w.accounts || after.next != w.next || after.consumption != w.consumption
    ensures a.Commit? && a.request in w.requests && w.consumption.None?
    ensures Apply(w, a).consumption.Some? && Apply(w, a).consumption.value.winner == a.request
    ensures Apply(w, a).requests[a.request].won
  {
  }

  // ----- The lock and the rows, handled as the handler does ----------------------------------------------------------

  /** Set-if-absent with expiry, and delete-if-owner. */
  class ConnectLock {
    var lock: Option<Lock>

    constructor ()
      ensures lock == None
    {
      lock := None;
    }

    method Take(owner: Uuid, ttl: nat, now: Time) returns (acquired: bool)
      modifies this
      ensures acquired == !Held(old(lock), now)
      ensures lock == if acquired then Some(Lock(owner, now + ttl)) else old(lock)
    {
      acquired := lock.None? || now >= lock.value.until;
      if acquired {
        lock := Some(Lock(owner, now + ttl));
      }
    }

    method Release(owner: Uuid, now: Time) returns (released: bool)
      modifies this
      ensures released <==> Held(old(lock), now) && old(lock).value.owner == owner
      ensures lock == if released then None else old(lock)
    {
      released := lock.Some? && now < lock.value.until && lock.value.owner == owner;
      if released {
        lock := None;
      }
    }
  }

  class AccountTable {
    var accounts: map<Asset, Uuid>
    var next: Uuid

    constructor ()
      ensures accounts == map[] && next == 0
    {
      accounts, next := map[], 0;
    }

    /** Every selected asset must have been offered; the first that was not is named. */
    method MatchAssets(selected: seq<Asset>, offered: seq<Asset>) returns (missing: Option<Asset>)
      ensures missing.None? <==> forall k :: 0 <= k < |selected| ==> selected[k] in offered
      ensures missing.Some? ==> missing.value in selected && missing.value !in offered
    {
      for i := 0 to |selected|
        invariant forall k :: 0 <= k < i ==> selected[k] in offered
      {
        if selected[i] !in offered {
          return Some(selected[i]);
        }
      }
      missing := None;
    }

    method ConnectAssets(selected: seq<Asset>) returns (connected: seq<Uuid>)
      modifies this
      ensures (accounts, next, connected) == Upsert(old(accounts), old(next), selected, |selected|)
    {
      connected := [];
      for i := 0 to |selected|
        invariant (accounts, next, connected) == Upsert(old(accounts), old(next), selected, i)
      {
        var asset := selected[i];
        if asset !in accounts {
          accounts := accounts[asset := next];
          next := next + 1;
        }
        connected := connected + [accounts[asset]];
      }
    }
  }
}
