/**
  What a connect does: the meaning of each of its moves, and the connect that
  nothing interrupts.
*/
module DiscoveryProgress {
  import opened Basics
  import opened Sets
  import opened DiscoveryConnect

  // ----- The moves ---------------------------------------------------------------------------

  predicate At(w: World, t: Uuid, phase: Phase) {
    t in w.requests && w.requests[t].phase == phase
  }

  /** The lock is taken exactly when none is held; otherwise the connect is turned away. */
  lemma LockMeans(w: World, t: Uuid, ttl: nat)
    requires At(w, t, Arrived)
    ensures var after := Apply(w, TakeLock(t, ttl));
      if w.lock.Some? && w.now < w.lock.value.until then
        after == w.(requests := w.requests[t := w.requests[t].(phase := Answered(Rejected(Busy)))])
      else
        after == w.(requests := w.requests[t := w.requests[t].(phase := Locked)], lock := Some(Lock(t, w.now + ttl)))
  {
  }

  /** What a connect answers when the discovery has been consumed already. */
  function Consumed(c: Consumption, r: Request): Reply {
    if c.scope != r.scope then Rejected(WrongScope)
    else if |c.selected| == |r.selected| && forall k :: 0 <= k < |r.selected| ==> r.selected[k] in c.selected then
      Connected(set k | 0 <= k < |c.accounts| :: c.accounts[k])
    else Rejected(DifferentSelection)
  }

  lemma ConsumedMeans(c: Consumption, r: Request)
    ensures Resolve(c, r) == Consumed(c, r)
  {
    assert Elements(c.accounts) == set k | 0 <= k < |c.accounts| :: c.accounts[k];
  }

  /** The phase in which a connect with this answer goes on: only a success drops the session. */
  function WithAnswer(reply: Reply): Phase {
    if reply.Connected? then Replying(reply) else Releasing(reply)
  }

  /** A connect that finds a consumption, at its check or after losing the race, answers by it. */
  lemma ConsumptionMeans(w: World, t: Uuid)
    requires At(w, t, Locked) || At(w, t, Recovering)
    ensures var r := w.requests[t];
      var after := Apply(w, if r.phase.Locked? then CheckConsumption(t) else Recover(t));
      && after == w.(requests := w.requests[t := r.(phase := after.requests[t].phase)])
      && after.requests[t].phase ==
           if w.consumption.Some? then WithAnswer(Consumed(w.consumption.value, r))
           else if r.phase.Locked? then Unconsumed else Releasing(Rejected(Race))
  {
    if w.consumption.Some? {
      ConsumedMeans(w.consumption.value, w.requests[t]);
    }
  }

  /** The session must be there, be this scope's, and offer every selected asset. */
  predicate Offers(session: Option<Session>, r: Request) {
    session.Some? && session.value.scope == r.scope && forall a :: a in r.selected ==> a in session.value.assets
  }

  lemma SessionMeans(w: World, t: Uuid)
    requires At(w, t, Unconsumed)
    ensures var r := w.requests[t];
      var after := Apply(w, ReadSession(t));
      && after == w.(requests := w.requests[t := r.(phase := after.requests[t].phase)])
      && after.requests[t].phase ==
           if Offers(w.session, r) then Committing
           else Releasing(Rejected(if w.session.None? then NoSession
                                   else if w.session.value.scope != r.scope then WrongScope else UnknownAsset))
  {
    var r := w.requests[t];
    if w.session.Some? && exists a :: a in r.selected && a !in w.session.value.assets {
      var a :| a in r.selected && a !in w.session.value.assets;
      var k :| 0 <= k < |r.selected| && r.selected[k] == a;
    }
  }

  /** The accounts of the selected assets. */
  function AccountsOf(accounts: map<Asset, Uuid>, selected: seq<Asset>): set<Uuid>
    requires forall a :: a in selected ==> a in accounts
  {
    set a | a in selected :: accounts[a]
  }

  /** Every selected asset has an account, kept or new; no other account appears or changes. */
  ghost predicate Connects(before: map<Asset, Uuid>, after: map<Asset, Uuid>, selected: seq<Asset>) {
    && (forall a :: a in after <==> a in before || a in selected)
    && (forall a :: a in before ==> after[a] == before[a])
  }

  /**
    The commit writes accounts and consumption together, exactly when no other
    consumption is there and nothing fails; else it goes on to recover, or fails.
  */
  lemma CommitMeans(w: World, t: Uuid, clash: bool, reachable: bool)
    requires At(w, t, Committing) && IdsOk(w.accounts, w.next)
    ensures var r := w.requests[t];
      var after := Apply(w, Commit(t, clash, reachable));
      if !reachable then after == w.(requests := w.requests[t := r.(phase := Releasing(Rejected(Failed)))])
      else if clash || w.consumption.Some? then after == w.(requests := w.requests[t := r.(phase := Recovering)])
      else
        && after.lock == w.lock && after.session == w.session && after.now == w.now
        && Connects(w.accounts, after.accounts, r.selected)
        && after.consumption.Some? && after.consumption.value.scope == r.scope
        && after.consumption.value.selected == r.selected && after.consumption.value.winner == t
        && |after.consumption.value.accounts| == |r.selected|
        && (forall k :: 0 <= k < |r.selected| ==> after.consumption.value.accounts[k] == after.accounts[r.selected[k]])
        && after.requests == w.requests[t := r.(won := true,
             phase := Replying(Connected(AccountsOf(after.accounts, r.selected))))]
  {
    var r := w.requests[t];
    if reachable && !clash && w.consumption.None? {
      UpsertMeans(w.accounts, w.next, r.selected, |r.selected|);
      var rows := Upsert(w.accounts, w.next, r.selected, |r.selected|);
      ListedAccounts(rows.0, rows.2, r.selected);
      forall a | a in r.selected ensures a in rows.0 {
        var k :| 0 <= k < |r.selected| && r.selected[k] == a;
      }
    }
  }

  lemma ListedAccounts(accounts: map<Asset, Uuid>, ids: seq<Uuid>, selected: seq<Asset>)
    requires Lists(accounts, ids, selected, |selected|)
    ensures (forall a :: a in selected ==> a in accounts) && Elements(ids) == AccountsOf(accounts, selected)
  {
    forall a | a in selected ensures a in accounts && accounts[a] in ids {
      var k :| 0 <= k < |selected| && selected[k] == a;
      assert ids[k] == accounts[a];
    }
    forall i | i in Elements(ids) ensures i in AccountsOf(accounts, selected) {
      var k :| 0 <= k < |ids| && ids[k] == i;
      assert selected[k] in selected;
    }
  }

  /** A success drops the session; then the connect gives its lock back, if it still holds it, and answers. */
  lemma AnswerMeans(w: World, t: Uuid, reply: Reply)
    requires At(w, t, Replying(reply)) || At(w, t, Releasing(reply))
    ensures var r := w.requests[t];
      var dropped := if r.phase.Replying? then Apply(w, DropSession(t, true)) else w;
      var after := Apply(dropped, Release(t, true));
      && after.consumption == w.consumption && after.accounts == w.accounts && after.next == w.next
      && after.requests == w.requests[t := r.(phase := Answered(reply))]
      && after.session == (if r.phase.Replying? then None else w.session)
      && after.lock ==
           if w.lock.Some? && w.now < w.lock.value.until && w.lock.value.owner == t then None else w.lock
  {
  }

  // ----- The whole connect ---------------------------------------------------------------------

  function Start(w: World, t: Uuid, scope: Scope, selected: seq<Asset>, ttl: nat): World {
    Apply(Apply(Apply(w, Arrive(t, scope, selected)), TakeLock(t, ttl)), CheckConsumption(t))
  }

  function Finish(w: World, t: Uuid): World
    requires t in w.requests
  {
    Apply(if w.requests[t].phase.Replying? then Apply(w, DropSession(t, true)) else w, Release(t, true))
  }

  /**
    A connect of a discovery not consumed yet, which nothing interrupts, succeeds
    exactly when its session offers what is selected; it then has one account per
    selected asset, is the consumption from now on, and leaves neither session nor
    lock.
  */
  lemma FirstConnect(w: World, t: Uuid, scope: Scope, selected: seq<Asset>, ttl: nat)
    requires Ok(w) && t !in w.requests && w.consumption.None? && !Held(w.lock, w.now) && ttl > 0
    requires Offers(w.session, Request(scope, selected, Unconsumed, false))
    ensures var started := Start(w, t, scope, selected, ttl);
      var committed := Apply(Apply(started, ReadSession(t)), Commit(t, false, true));
      t in committed.requests &&
      var late := Finish(committed, t);
      && Connects(w.accounts, late.accounts, selected)
      && t in late.requests
      && late.requests[t].phase == Answered(Connected(AccountsOf(late.accounts, selected)))
      && late.consumption.Some? && late.consumption.value.selected == selected
      && late.consumption.value.scope == scope && late.consumption.value.winner == t
      && late.session == None && late.lock == None
  {
    var arrived := Apply(w, Arrive(t, scope, selected));
    LockMeans(arrived, t, ttl);
    var locked := Apply(arrived, TakeLock(t, ttl));
    ConsumptionMeans(locked, t);
    var started := Apply(locked, CheckConsumption(t));
    hide Resolve, Match, Upsert, StepRequest, Apply, Ok;
    SessionMeans(started, t);
    var read := Apply(started, ReadSession(t));
    IdsStay(w, started);
    CommitMeans(read, t, false, true);
    var committed := Apply(read, Commit(t, false, true));
    AnswerMeans(committed, t, committed.requests[t].phase.reply);
  }

  lemma IdsStay(w: World, after: World)
    requires Ok(w) && after.accounts == w.accounts && after.next == w.next
    ensures IdsOk(after.accounts, after.next)
  {
  }

  /** A later connect of the same discovery answers by the consumption: a success for the same scope and selection. */
  lemma LaterConnect(w: World, t: Uuid, scope: Scope, selected: seq<Asset>, ttl: nat)
    requires t !in w.requests && w.consumption.Some? && !Held(w.lock, w.now) && ttl > 0
    ensures var started := Start(w, t, scope, selected, ttl);
      t in started.requests &&
      var late := Finish(started, t);
      && t in late.requests && late.consumption == w.consumption && late.accounts == w.accounts && late.lock == None
      && late.requests[t].phase
           == Answered(Consumed(w.consumption.value, Request(scope, selected, Locked, false)))
  {
    var arrived := Apply(w, Arrive(t, scope, selected));
    LockMeans(arrived, t, ttl);
    var locked := Apply(arrived, TakeLock(t, ttl));
    ConsumptionMeans(locked, t);
    var started := Apply(locked, CheckConsumption(t));
    AnswerMeans(started, t, started.requests[t].phase.reply);
  }

  /** A connect while another one holds the lock is turned away. */
  lemma BusyConnect(w: World, t: Uuid, scope: Scope, selected: seq<Asset>, ttl: nat)
    requires t !in w.requests && w.lock.Some? && w.now < w.lock.value.until
    ensures var late := Apply(Apply(w, Arrive(t, scope, selected)), TakeLock(t, ttl));
      late == w.(requests := w.requests[t := Request(scope, selected, Answered(Rejected(Busy)), false)])
  {
    LockMeans(Apply(w, Arrive(t, scope, selected)), t, ttl);
  }

  /** A discovery is stored exactly while nothing of it is stored or consumed, and forgotten alone. */
  lemma DiscoverMeans(w: World, session: Session)
    ensures Apply(w, Discover(session)) ==
      if w.session.None? && w.consumption.None? then w.(session := Some(session)) else w
    ensures Apply(w, ForgetSession) == w.(session := None)
  {
  }
}
