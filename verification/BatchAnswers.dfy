/**
  What a batch request is answered, in terms of the rows: when a repeated request
  is a replay and when a conflict, what a lost insert recovers, and that a new
  request which nothing interrupts creates its batch and queues all its jobs.
*/
module BatchAnswers {
  import opened Basics
  import opened BatchRequests

  // ----- Reading -------------------------------------------------------------------------------

  /** These are the posts a create request is for, all there. */
  predicate IsFor(w: World, source: Source, posts: seq<Uuid>) {
    match source
    case Selection(requested) => posts == requested && forall k :: 0 <= k < |requested| ==> requested[k] in w.posts
    case Content(content) => content in w.contents && posts == w.contents[content] && 0 < |posts| <= 100
  }

  /** The row was made for the same parameters and the same posts, from the same kind of source. */
  predicate MadeFor(row: BatchRow, params: Params, fromSelection: bool, posts: seq<Uuid>) {
    row.hash.params == params && row.hash.fromSelection == fromSelection && row.hash.posts == posts
  }

  predicate KeyUsed(w: World, key: Key) {
    exists i :: 0 <= i < |w.batches| && w.batches[i].key == key
  }

  lemma TheRow(w: World, i: nat)
    requires RowsOk(w) && i < |w.batches|
    ensures FindKey(w.batches, w.batches[i].key, |w.batches|) == Some(w.batches[i])
    ensures IdOf(w.batches, w.batches[i].id, |w.batches|) == Some(w.batches[i])
  {
    IdFound(w.batches, |w.batches|, i);
  }

  lemma {:induction false} IdFound(batches: seq<BatchRow>, n: nat, i: nat)
    requires i < n <= |batches|
    ensures IdOf(batches, batches[i].id, n).Some?
  {
    if i < n - 1 {
      IdFound(batches, n - 1, i);
    }
  }

  lemma {:induction false} IdMissing(batches: seq<BatchRow>, id: Uuid, n: nat)
    requires n <= |batches| && forall i :: 0 <= i < n ==> batches[i].id != id
    ensures IdOf(batches, id, n).None?
  {
    if n > 0 {
      IdMissing(batches, id, n - 1);
    }
  }

  lemma Resolved(w: World, source: Source, posts: seq<Uuid>)
    ensures IsFor(w, source, posts) <==> Resolve(w, source) == Posts(posts)
  {
    if source.Selection? {
      KeepMeans(source.posts, w.posts, |source.posts|);
      assert source.posts[..|source.posts|] == source.posts;
    }
  }

  /** A request of this kind is about to read. */
  predicate ReadsFor(w: World, t: Uuid, wish: Wish) {
    t in w.requests && w.requests[t].phase == Reading && w.requests[t].wish == wish
  }

  /** The answer to a create request whose key names this row. */
  function CreateAnswer(row: BatchRow, params: Params, fromSelection: bool, posts: seq<Uuid>): Phase {
    Answered(if MadeFor(row, params, fromSelection, posts) then Accepted(row.id, true) else Refused(KeyConflict))
  }

  /**
    A create request whose posts are all there is a replay exactly when its key
    names a batch made for the same; the key of any other batch is a conflict; and
    with a new key it goes on to insert exactly what it asked for, if it is valid.
  */
  lemma CreateIsAnswered(w: World, t: Uuid, params: Params, source: Source, posts: seq<Uuid>, valid: bool,
                         failed: seq<Uuid>)
    requires RowsOk(w) && ReadsFor(w, t, Create(params, source)) && IsFor(w, source, posts)
    ensures var phase := Apply(w, Read(t, valid, failed)).requests[t].phase;
      var key := w.requests[t].key;
      && (forall i :: 0 <= i < |w.batches| && w.batches[i].key == key ==>
            phase == CreateAnswer(w.batches[i], params, source.Selection?, posts))
      && (!KeyUsed(w, key) ==>
            phase == if valid then Inserting(Fingerprint(params, source.Selection?, posts))
              else Answered(Refused(Invalid)))
  {
    Resolved(w, source, posts);
    forall i | 0 <= i < |w.batches| && w.batches[i].key == w.requests[t].key
      ensures FindKey(w.batches, w.requests[t].key, |w.batches|) == Some(w.batches[i])
    {
      TheRow(w, i);
    }
  }

  /** A create request whose posts are not all there is refused for the reason that applies. */
  lemma CreateIsRefused(w: World, t: Uuid, params: Params, source: Source, valid: bool, failed: seq<Uuid>)
    requires ReadsFor(w, t, Create(params, source)) && forall posts :: !IsFor(w, source, posts)
    ensures Apply(w, Read(t, valid, failed)).requests[t].phase == Answered(Refused(
      match source
      case Selection(_) => MissingPosts
      case Content(content) =>
        if content !in w.contents then NotFound else if w.contents[content] == [] then Empty else TooMany))
  {
    match source
    case Selection(requested) =>
      KeepMeans(requested, w.posts, |requested|);
      assert !IsFor(w, source, requested);
    case Content(content) => if content in w.contents { assert !IsFor(w, source, w.contents[content]); }
  }

  /**
    A retry is a replay exactly when its key names a batch that retries the same
    parent; with a new key it goes on to insert the parent's failed posts under the
    parent's parameters, without its defaults.
  */
  lemma RetryIsAnswered(w: World, t: Uuid, parent: Uuid, p: nat, valid: bool, failed: seq<Uuid>)
    requires RowsOk(w) && ReadsFor(w, t, Retry(parent)) && p < |w.batches| && w.batches[p].id == parent && valid
    ensures var phase := Apply(w, Read(t, valid, failed)).requests[t].phase;
      var key := w.requests[t].key;
      && (forall i :: 0 <= i < |w.batches| && w.batches[i].key == key ==>
            phase == Answered(if w.batches[i].parent == Some(parent) then Accepted(w.batches[i].id, true)
                              else Refused(KeyConflict)))
      && (!KeyUsed(w, key) ==>
            phase == if failed == [] then Answered(Refused(Empty))
              else Inserting(Fingerprint(Params(w.batches[p].hash.params.settings, None),
                                         w.batches[p].hash.fromSelection, failed)))
  {
    TheRow(w, p);
    forall i | 0 <= i < |w.batches| && w.batches[i].key == w.requests[t].key
      ensures FindKey(w.batches, w.requests[t].key, |w.batches|) == Some(w.batches[i])
    {
      TheRow(w, i);
    }
  }

  /** A retry of an unknown batch, or an invalid one, is refused. */
  lemma RetryIsRefused(w: World, t: Uuid, parent: Uuid, valid: bool, failed: seq<Uuid>)
    requires ReadsFor(w, t, Retry(parent))
    ensures var phase := Apply(w, Read(t, valid, failed)).requests[t].phase;
      && (!HasId(w.batches, parent) ==> phase == Answered(Refused(NotFound)))
      && (HasId(w.batches, parent) && !valid ==> phase == Answered(Refused(Invalid)))
  {
    if HasId(w.batches, parent) {
      var i :| 0 <= i < |w.batches| && w.batches[i].id == parent;
      IdFound(w.batches, |w.batches|, i);
    } else {
      IdMissing(w.batches, parent, |w.batches|);
    }
  }

  // ----- Recovering ------------------------------------------------------------------------------

  /** The posts a recovering create request compares: the selection, or the content batch as it is by then. */
  function ComparedPosts(w: World, source: Source): seq<Uuid> {
    match source
    case Selection(requested) => requested
    case Content(content) => if content in w.contents then w.contents[content] else []
  }

  /**
    A request whose insert was refused looks again: it is a replay exactly when its
    key by then names a batch made for the same, or retrying the same parent, a
    conflict when it names another one, and lost when it names none.
  */
  lemma LostInsertIsAnswered(w: World, t: Uuid)
    requires RowsOk(w) && t in w.requests && w.requests[t].phase == Recovering
    ensures var r := w.requests[t];
      var phase := Apply(w, Recover(t)).requests[t].phase;
      && (forall i :: 0 <= i < |w.batches| && w.batches[i].key == r.key ==>
            match r.wish
            case Create(params, source) =>
              phase == CreateAnswer(w.batches[i], params, source.Selection?, ComparedPosts(w, source))
            case Retry(parent) =>
              phase == Answered(if w.batches[i].parent == Some(parent) then Accepted(w.batches[i].id, true)
                                else Refused(KeyConflict)))
      && (!KeyUsed(w, r.key) ==> phase == Answered(Refused(Lost)))
  {
    var r := w.requests[t];
    forall i | 0 <= i < |w.batches| && w.batches[i].key == r.key
      ensures FindKey(w.batches, r.key, |w.batches|) == Some(w.batches[i])
    {
      TheRow(w, i);
    }
  }

  // ----- Inserting and queueing ---------------------------------------------------------------------

  /** The parent a retry names in its row. */
  function ParentOf(wish: Wish): Option<Uuid> {
    match wish case Create(_, _) => None case Retry(parent) => Some(parent)
  }

  /**
    An insert under a new id adds exactly its batch, one job per post in order and
    one audit row, unless an index refuses; then it goes on to recover.
  */
  lemma InsertMeans(w: World, t: Uuid, id: Uuid, clash: bool)
    requires t in w.requests && w.requests[t].phase.Inserting? && !HasId(w.batches, id)
    ensures var r := w.requests[t];
      var posts := r.phase.hash.posts;
      var after := Apply(w, Insert(t, id, clash));
      if clash || KeyUsed(w, r.key) then after == w.(requests := w.requests[t := Request(r.key, r.wish, Recovering)])
      else
        && after == w.(batches := after.batches, jobs := after.jobs, audit := w.audit + [id],
                       requests := w.requests[t := Request(r.key, r.wish,
                                                           Enqueueing(id, |w.jobs|, |w.jobs| + |posts|))])
        && after.batches == w.batches + [BatchRow(id, r.key, ParentOf(r.wish), r.phase.hash, |posts|, t)]
        && |after.jobs| == |w.jobs| + |posts| && w.jobs <= after.jobs
        && forall k :: 0 <= k < |posts| ==> after.jobs[|w.jobs| + k] == JobRow(id, posts[k])
  {
  }

  function Enqueues(t: Uuid, n: nat): seq<Action> {
    seq(n, k => Enqueue(t, true))
  }

  /** The numbers from `from` on. */
  function Numbers(from: nat, n: nat): seq<nat> {
    seq(n, k requires 0 <= k => from + k)
  }

  /** Left alone, the request queues each of its jobs, in order, and reports its batch. */
  lemma {:induction false} QueuesAll(w: World, t: Uuid, batch: Uuid, from: nat, limit: nat)
    requires t in w.requests && w.requests[t].phase == Enqueueing(batch, from, limit) && from <= limit
    ensures Run(w, Enqueues(t, limit - from + 1))
         == w.(queue := w.queue + Numbers(from, limit - from),
               requests := w.requests[t := Request(w.requests[t].key, w.requests[t].wish,
                                                   Answered(Accepted(batch, false)))])
    decreases limit - from
  {
    var actions := Enqueues(t, limit - from + 1);
    var next := Apply(w, actions[0]);
    assert actions[1..] == Enqueues(t, limit - from);
    if from == limit {
      assert Run(next, []) == next;
      assert w.queue + Numbers(from, 0) == w.queue;
    } else {
      QueuesAll(next, t, batch, from + 1, limit);
      assert w.queue + [from] + Numbers(from + 1, limit - from - 1) == w.queue + Numbers(from, limit - from);
    }
  }

  lemma RunTwo(w: World, a: Action, b: Action, rest: seq<Action>)
    ensures Run(w, [a, b] + rest) == Run(Apply(Apply(w, a), b), rest)
  {
    assert ([a, b] + rest)[1..] == [b] + rest && ([b] + rest)[1..] == rest;
  }

  /** A request that has decided what to insert, and is neither refused nor interrupted, ends with its batch. */
  lemma {:induction false} InsertCompletes(w: World, t: Uuid, id: Uuid)
    requires t in w.requests && w.requests[t].phase.Inserting?
    requires !HasId(w.batches, id) && !KeyUsed(w, w.requests[t].key)
    ensures var r := w.requests[t];
      var posts := r.phase.hash.posts;
      var late := Run(w, [Insert(t, id, false)] + Enqueues(t, |posts| + 1));
      && late.posts == w.posts && late.contents == w.contents
      && late.requests == w.requests[t := Request(r.key, r.wish, Answered(Accepted(id, false)))]
      && late.batches == w.batches + [BatchRow(id, r.key, ParentOf(r.wish), r.phase.hash, |posts|, t)]
      && late.audit == w.audit + [id] && late.queue == w.queue + Numbers(|w.jobs|, |posts|)
      && |late.jobs| == |w.jobs| + |posts| && w.jobs <= late.jobs
      && forall k :: 0 <= k < |posts| ==> late.jobs[|w.jobs| + k] == JobRow(id, posts[k])
  {
    var posts := w.requests[t].phase.hash.posts;
    InsertMeans(w, t, id, false);
    var inserted := Apply(w, Insert(t, id, false));
    var actions := [Insert(t, id, false)] + Enqueues(t, |posts| + 1);
    assert actions[1..] == Enqueues(t, |posts| + 1);
    QueuesAll(inserted, t, id, |w.jobs|, |w.jobs| + |posts|);
  }

  /** A request that arrives, reads, inserts and queues without interruption. */
  function Creating(t: Uuid, key: Key, wish: Wish, id: Uuid, jobs: nat): seq<Action> {
    [Arrive(t, key, wish), Read(t, true, [])] + ([Insert(t, id, false)] + Enqueues(t, jobs + 1))
  }

  /**
    A new valid create request that nothing interrupts makes one batch for exactly
    its posts and queues all its jobs.
  */
  lemma CreateCompletes(w: World, t: Uuid, key: Key, params: Params, source: Source, posts: seq<Uuid>, id: Uuid)
    requires Ok(w) && t !in w.requests && IsFor(w, source, posts) && !HasId(w.batches, id) && !KeyUsed(w, key)
    ensures var wish := Create(params, source);
      var made := Run(w, Creating(t, key, wish, id, |posts|));
      && Ok(made) && made.posts == w.posts && made.contents == w.contents
      && made.requests == w.requests[t := Request(key, wish, Answered(Accepted(id, false)))]
      && made.batches == w.batches
           + [BatchRow(id, key, None, Fingerprint(params, source.Selection?, posts), |posts|, t)]
      && PostsOf(made.jobs, id, |made.jobs|) == posts
      && made.queue == w.queue + Numbers(|w.jobs|, |posts|)
  {
    hide *;
    var wish := Create(params, source);
    var hash := Fingerprint(params, source.Selection?, posts);
    var arrive, read := Arrive(t, key, wish), Read(t, true, []);
    var decided := w.(requests := w.requests[t := Request(key, wish, Inserting(hash))]);
    var rest := [Insert(t, id, false)] + Enqueues(t, |posts| + 1);
    StepOk(w, arrive);
    StepOk(Apply(w, arrive), read);
    RunTwo(w, arrive, read, rest);
    Decides(w, t, key, params, source, posts);
    SameRowsUsed(w, decided, id, key);
    InsertCompletes(decided, t, id);
    RunOk(decided, rest);
    OkMeans(Run(decided, rest), |w.batches|);
    CreatingMeans(t, key, params, source, id, |posts|);
  }

  lemma CreatingMeans(t: Uuid, key: Key, params: Params, source: Source, id: Uuid, jobs: nat)
    ensures var wish := Create(params, source);
      && ParentOf(wish) == None
      && Creating(t, key, wish, id, jobs)
           == [Arrive(t, key, wish), Read(t, true, [])] + ([Insert(t, id, false)] + Enqueues(t, jobs + 1))
  {
  }

  lemma SameRowsUsed(w: World, after: World, id: Uuid, key: Key)
    requires after.batches == w.batches
    ensures HasId(after.batches, id) <==> HasId(w.batches, id)
    ensures KeyUsed(after, key) <==> KeyUsed(w, key)
  {
  }

  /**
    The same request made again, while its posts are all there, reports the batch
    of the first one and adds nothing.
  */
  lemma CreateThenReplay(w: World, t: Uuid, x: Uuid, key: Key, params: Params, source: Source, posts: seq<Uuid>,
                         id: Uuid)
    requires Ok(w) && t !in w.requests && x !in w.requests && x != t && IsFor(w, source, posts)
    requires !HasId(w.batches, id) && !KeyUsed(w, key)
    ensures var wish := Create(params, source);
      var made := Run(w, Creating(t, key, wish, id, |posts|));
      var again := Apply(Apply(made, Arrive(x, key, wish)), Read(x, true, []));
      && x in again.requests && again.requests[x].phase == Answered(Accepted(id, true))
      && again.(requests := made.requests) == made
  {
    CreateCompletes(w, t, key, params, source, posts, id);
    var made := Run(w, Creating(t, key, Create(params, source), id, |posts|));
    hide Apply, Run;
    OkMeans(made, |w.batches|);
    ReplaysLater(made, x, key, params, source, posts, |w.batches|);
  }

  lemma Decides(w: World, t: Uuid, key: Key, params: Params, source: Source, posts: seq<Uuid>)
    requires Ok(w) && t !in w.requests && IsFor(w, source, posts) && !KeyUsed(w, key)
    ensures var wish := Create(params, source);
      Apply(Apply(w, Arrive(t, key, wish)), Read(t, true, []))
        == w.(requests := w.requests[t := Request(key, wish, Inserting(Fingerprint(params, source.Selection?, posts)))])
  {
    var arrived := Apply(w, Arrive(t, key, Create(params, source)));
    CreateIsAnswered(arrived, t, params, source, posts, true, []);
  }

  lemma OkMeans(w: World, i: nat)
    requires Ok(w) && i < |w.batches|
    ensures RowsOk(w) && PostsOf(w.jobs, w.batches[i].id, |w.jobs|) == w.batches[i].hash.posts
  {
  }

  lemma ReplaysLater(w: World, x: Uuid, key: Key, params: Params, source: Source, posts: seq<Uuid>, i: nat)
    requires RowsOk(w) && x !in w.requests && IsFor(w, source, posts) && i < |w.batches|
    requires w.batches[i].key == key && MadeFor(w.batches[i], params, source.Selection?, posts)
    ensures var again := Apply(Apply(w, Arrive(x, key, Create(params, source))), Read(x, true, []));
      && x in again.requests && again.requests[x].phase == Answered(Accepted(w.batches[i].id, true))
      && again.(requests := w.requests) == w
  {
    var arrived := Apply(w, Arrive(x, key, Create(params, source)));
    CreateIsAnswered(arrived, x, params, source, posts, true, []);
  }
}
