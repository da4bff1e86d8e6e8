/**
  Creating and retrying render batches under an idempotency key: the check, the
  write that a unique index may refuse, and the recovery that looks again.  The
  request fingerprint is taken to be injective.
*/
module BatchRequests {
  import opened Basics

  type Key = string

  const MAX_ITEMS: nat := 100

  datatype Source = Selection(posts: seq<Uuid>) | Content(content: Uuid)

  /** Everything else a request says: template version, format, defaults. */
  datatype Params = Params(settings: Uuid, defaults: Option<Uuid>)

  datatype Wish = Create(params: Params, source: Source) | Retry(parent: Uuid)

  datatype Fingerprint = Fingerprint(params: Params, fromSelection: bool, posts: seq<Uuid>)

  /** A batch row; `winner` is the request that inserted it, kept here as history. */
  datatype BatchRow = BatchRow(id: Uuid, key: Key, parent: Option<Uuid>, hash: Fingerprint, total: nat, winner: Uuid)

  datatype JobRow = JobRow(batch: Uuid, post: Uuid)

  datatype Error = MissingPosts | NotFound | TooMany | Empty | Invalid | KeyConflict | Lost

  datatype Reply = Accepted(batch: Uuid, replay: bool) | Refused(error: Error)

  datatype Phase =
    | Reading
    | Inserting(hash: Fingerprint)
    | Recovering
    | Enqueueing(batch: Uuid, from: nat, to: nat)
    | Answered(reply: Reply)
    | Dead

  datatype Request = Request(key: Key, wish: Wish, phase: Phase)

  datatype World = World(
    posts: set<Uuid>,
    contents: map<Uuid, seq<Uuid>>,
    batches: seq<BatchRow>,
    jobs: seq<JobRow>,
    audit: seq<Uuid>,
    queue: seq<nat>,
    requests: map<Uuid, Request>)

  datatype Action =
    | SetPosts(posts: set<Uuid>)
    | SetContent(content: Uuid, list: seq<Uuid>)
    | Arrive(request: Uuid, key: Key, wish: Wish)
    | Read(request: Uuid, valid: bool, failed: seq<Uuid>)
    | Insert(request: Uuid, id: Uuid, clash: bool)
    | Recover(request: Uuid)
    | Enqueue(request: Uuid, ok: bool)
    | Crash(request: Uuid)

  const Start := World({}, map[], [], [], [], [], map[])

  // ----- Resolving posts ---------------------------------------------------------------------

  /** The first `n` requested ids that were found, in request order. */
  function Keep(requested: seq<Uuid>, found: set<Uuid>, n: nat): seq<Uuid>
    requires n <= |requested|
  {
    if n == 0 then []
    else Keep(requested, found, n - 1) + (if requested[n - 1] in found then [requested[n - 1]] else [])
  }

  /** As many posts as ids means all were found, and then the resolved list is the requested one. */
  lemma {:induction false} KeepMeans(requested: seq<Uuid>, found: set<Uuid>, n: nat)
    requires n <= |requested|
    ensures |Keep(requested, found, n)| <= n
    ensures |Keep(requested, found, n)| == n <==> forall k :: 0 <= k < n ==> requested[k] in found
    ensures |Keep(requested, found, n)| == n ==> Keep(requested, found, n) == requested[..n]
  {
    if n > 0 {
      KeepMeans(requested, found, n - 1);
      assert requested[..n] == requested[..n - 1] + [requested[n - 1]];
    }
  }

  datatype Resolved = Posts(posts: seq<Uuid>) | Unresolved(error: Error)

  function Resolve(w: World, source: Source): Resolved {
    match source
    case Selection(requested) =>
      var kept := Keep(requested, w.posts, |requested|);
      if |kept| != |requested| then Unresolved(MissingPosts) else Posts(kept)
    case Content(content) =>
      if content !in w.contents then Unresolved(NotFound)
      else if |w.contents[content]| > MAX_ITEMS then Unresolved(TooMany)
      else if w.contents[content] == [] then Unresolved(Empty)
      else Posts(w.contents[content])
  }

  /** What the recovery resolves: it trusts the requested ids and does not check a content batch again. */
  function ResolveAgain(w: World, source: Source): seq<Uuid> {
    match source
    case Selection(requested) => requested
    case Content(content) => if content in w.contents then w.contents[content] else []
  }

  function HashOf(params: Params, source: Source, posts: seq<Uuid>): Fingerprint {
    Fingerprint(params, source.Selection?, posts)
  }

  /** For a selection both ways to compute the fingerprint agree whenever the first succeeds. */
  lemma FingerprintsAgree(w: World, later: World, params: Params, source: Source)
    requires source.Selection? && Resolve(w, source).Posts?
    ensures HashOf(params, source, Resolve(w, source).posts) == HashOf(params, source, ResolveAgain(later, source))
  {
    KeepMeans(source.posts, w.posts, |source.posts|);
    assert source.posts[..|source.posts|] == source.posts;
  }

  // ----- Rows ------------------------------------------------------------------------------------

  /** The batch with an idempotency key, searched among the first `n`. */
  function FindKey(batches: seq<BatchRow>, key: Key, n: nat): (r: Option<BatchRow>)
    requires n <= |batches|
    ensures r.Some? ==> r.value in batches && r.value.key == key
    ensures r.None? ==> forall k :: 0 <= k < n ==> batches[k].key != key
  {
    if n == 0 then None
    else if batches[n - 1].key == key then Some(batches[n - 1])
    else FindKey(batches, key, n - 1)
  }

  predicate HasId(batches: seq<BatchRow>, id: Uuid) {
    exists k :: 0 <= k < |batches| && batches[k].id == id
  }

  function IdOf(batches: seq<BatchRow>, id: Uuid, n: nat): (r: Option<BatchRow>)
    requires n <= |batches|
    ensures r.Some? ==> r.value in batches && r.value.id == id
  {
    if n == 0 then None
    else if batches[n - 1].id == id then Some(batches[n - 1])
    else IdOf(batches, id, n - 1)
  }

  function NewJobs(batch: Uuid, posts: seq<Uuid>): seq<JobRow> {
    seq(|posts|, k requires 0 <= k < |posts| => JobRow(batch, posts[k]))
  }

  // ----- Steps --------------------------------------------------------------------------------------

  /** A key already used: a replay if the request is the same, else a conflict. */
  function Replay(row: BatchRow, wish: Wish, hash: Fingerprint): Reply {
    var same := match wish case Create(_, _) => row.hash == hash case Retry(parent) => row.parent == Some(parent);
    if same then Accepted(row.id, true) else Refused(KeyConflict)
  }

  function ReadCreate(w: World, r: Request, params: Params, source: Source, valid: bool): Phase {
    var resolved := Resolve(w, source);
    if resolved.Unresolved? then Answered(Refused(resolved.error))
    else
      var hash := HashOf(params, source, resolved.posts);
      var existing := FindKey(w.batches, r.key, |w.batches|);
      if existing.Some? then Answered(Replay(existing.value, r.wish, hash))
      else if !valid then Answered(Refused(Invalid))
      else Inserting(hash)
  }

  /** The retry route reads the parent, the key and the parent's failed jobs. */
  function ReadRetry(w: World, r: Request, parent: Uuid, valid: bool, failed: seq<Uuid>): Phase {
    var row := IdOf(w.batches, parent, |w.batches|);
    if row.None? then Answered(Refused(NotFound))
    else if !valid then Answered(Refused(Invalid))
    else
      var existing := FindKey(w.batches, r.key, |w.batches|);
      var hash := Fingerprint(row.value.hash.params.(defaults := None), row.value.hash.fromSelection, failed);
      if existing.Some? then Answered(Replay(existing.value, r.wish, hash))
      else if failed == [] then Answered(Refused(Empty))
      else Inserting(hash)
  }

  function ReadPhase(w: World, r: Request, valid: bool, failed: seq<Uuid>): Phase {
    match r.wish
    case Create(params, source) => ReadCreate(w, r, params, source, valid)
    case Retry(parent) => ReadRetry(w, r, parent, valid, failed)
  }

  function RecoverPhase(w: World, r: Request): Phase {
    var existing := FindKey(w.batches, r.key, |w.batches|);
    if existing.None? then Answered(Refused(Lost))
    else
      match r.wish
      case Create(params, source) =>
        Answered(Replay(existing.value, r.wish, HashOf(params, source, ResolveAgain(w, source))))
      case Retry(_) => Answered(Replay(existing.value, r.wish, existing.value.hash))
  }

  function Put(w: World, t: Uuid, r: Request): World {
    w.(requests := w.requests[t := r])
  }

  /** One batch row, one job per post in order, and one audit row, unless an index refuses. */
  function StepInsert(w: World, t: Uuid, r: Request, hash: Fingerprint, id: Uuid, clash: bool): World {
    if HasId(w.batches, id) then w
    else if clash || FindKey(w.batches, r.key, |w.batches|).Some? then Put(w, t, r.(phase := Recovering))
    else
      var parent := match r.wish case Create(_, _) => None case Retry(p) => Some(p);
      var row := BatchRow(id, r.key, parent, hash, |hash.posts|, t);
      Put(w, t, r.(phase := Enqueueing(id, |w.jobs|, |w.jobs| + |hash.posts|)))
        .(batches := w.batches + [row], jobs := w.jobs + NewJobs(id, hash.posts), audit := w.audit + [id])
  }

  function StepEnqueue(w: World, t: Uuid, r: Request, batch: Uuid, from: nat, to: nat, ok: bool): World {
    if from >= to then Put(w, t, r.(phase := Answered(Accepted(batch, false))))
    else
      Put(w, t, r.(phase := Enqueueing(batch, from + 1, to))).(queue := if ok then w.queue + [from] else w.queue)
  }

  function StepRequest(w: World, t: Uuid, a: Action): World
    requires t in w.requests
  {
    var r := w.requests[t];
    match (a, r.phase)
    case (Read(_, valid, failed), Reading) => Put(w, t, r.(phase := ReadPhase(w, r, valid, failed)))
    case (Insert(_, id, clash), Inserting(hash)) => StepInsert(w, t, r, hash, id, clash)
    case (Recover(_), Recovering) => Put(w, t, r.(phase := RecoverPhase(w, r)))
    case (Enqueue(_, ok), Enqueueing(batch, from, to)) => StepEnqueue(w, t, r, batch, from, to, ok)
    case (Crash(_), _) => Put(w, t, r.(phase := Dead))
    case _ => w
  }

  function Apply(w: World, a: Action): World {
    match a
    case SetPosts(posts) => w.(posts := posts)
    case SetContent(content, list) => w.(contents := w.contents[content := list])
    case Arrive(t, key, wish) => if t in w.requests then w else Put(w, t, Request(key, wish, Reading))
    case _ => if a.request in w.requests then StepRequest(w, a.request, a) else w
  }

  function Run(w: World, actions: seq<Action>): World
    decreases |actions|
  {
    if actions == [] then w else Run(Apply(w, actions[0]), actions[1..])
  }

  // ----- Invariant -------------------------------------------------------------------------------------

  /** The posts of a batch's jobs, in the order the jobs were created. */
  function PostsOf(jobs: seq<JobRow>, batch: Uuid, n: nat): seq<Uuid>
    requires n <= |jobs|
  {
    if n == 0 then [] else PostsOf(jobs, batch, n - 1) + (if jobs[n - 1].batch == batch then [jobs[n - 1].post] else [])
  }

  lemma {:induction false} SamePosts(a: seq<JobRow>, b: seq<JobRow>, batch: Uuid, n: nat)
    requires n <= |a| && a <= b
    ensures PostsOf(b, batch, n) == PostsOf(a, batch, n)
  {
    if n > 0 {
      SamePosts(a, b, batch, n - 1);
    }
  }

  lemma {:induction false} MorePosts(jobs: seq<JobRow>, batch: Uuid, posts: seq<Uuid>, other: Uuid, n: nat)
    requires n <= |posts|
    ensures PostsOf(jobs + NewJobs(batch, posts), other, |jobs| + n)
         == PostsOf(jobs, other, |jobs|) + (if other == batch then posts[..n] else [])
  {
    var all := jobs + NewJobs(batch, posts);
    if n == 0 {
      SamePosts(jobs, all, other, |jobs|);
    } else {
      MorePosts(jobs, batch, posts, other, n - 1);
      assert all[|jobs| + n - 1] == JobRow(batch, posts[n - 1]);
      assert posts[..n] == posts[..n - 1] + [posts[n - 1]];
    }
  }

  lemma {:induction false} NoPosts(jobs: seq<JobRow>, batch: Uuid, n: nat)
    requires n <= |jobs| && forall k :: 0 <= k < n ==> jobs[k].batch != batch
    ensures PostsOf(jobs, batch, n) == []
  {
    if n > 0 {
      NoPosts(jobs, batch, n - 1);
    }
  }

  /** Keys and ids are used once, each batch has its posts' jobs, and the log one row per batch. */
  predicate RowsOk(w: World) {
    && (forall i, k :: 0 <= i < k < |w.batches| ==>
        w.batches[i].key != w.batches[k].key && w.batches[i].id != w.batches[k].id)
    && (forall i :: 0 <= i < |w.batches| ==>
          && PostsOf(w.jobs, w.batches[i].id, |w.jobs|) == w.batches[i].hash.posts
          && w.batches[i].total == |w.batches[i].hash.posts|)
    && (forall k :: 0 <= k < |w.jobs| ==> HasId(w.batches, w.jobs[k].batch))
    && |w.audit| == |w.batches| && (forall i :: 0 <= i < |w.audit| ==> w.audit[i] == w.batches[i].id)
    && (forall q :: 0 <= q < |w.queue| ==> w.queue[q] < |w.jobs|)
    && (forall q, k :: 0 <= q < k < |w.queue| ==> w.queue[q] != w.queue[k])
  }

  /** The row answers the request: same key and, for a create, the same fingerprint. */
  predicate Fits(row: BatchRow, r: Request) {
    && row.key == r.key
    && match r.wish
       case Create(params, source) =>
         row.hash.params == params && row.hash.fromSelection == source.Selection?
         && (source.Selection? ==> row.hash.posts == source.posts)
       case Retry(parent) => row.parent == Some(parent)
  }

  predicate Names(w: World, batch: Uuid, r: Request) {
    exists i :: 0 <= i < |w.batches| && w.batches[i].id == batch && Fits(w.batches[i], r)
  }

  /** The request inserted the batch. */
  predicate Inserted(w: World, t: Uuid, batch: Uuid) {
    exists i :: 0 <= i < |w.batches| && w.batches[i].id == batch && w.batches[i].winner == t
  }

  /** The jobs with these numbers are the batch's, and none has been queued. */
  predicate ToQueue(w: World, batch: Uuid, from: nat, to: nat) {
    && from <= to <= |w.jobs|
    && (forall k :: from <= k < to ==> w.jobs[k].batch == batch)
    && (forall q :: 0 <= q < |w.queue| ==> !(from <= w.queue[q] < to))
  }

  predicate RequestOk(w: World, t: Uuid, r: Request) {
    match r.phase
    case Answered(Accepted(batch, _)) => Names(w, batch, r)
    case Enqueueing(batch, from, to) => Names(w, batch, r) && Inserted(w, t, batch) && ToQueue(w, batch, from, to)
    case Inserting(hash) =>
      (match r.wish
       case Create(params, source) =>
         hash.params == params && hash.fromSelection == source.Selection? && (source.Selection? ==>
           hash.posts == source.posts)
       case Retry(_) => true)
    case _ => true
  }

  ghost predicate Ok(w: World) {
    RowsOk(w) && forall t :: t in w.requests ==> RequestOk(w, t, w.requests[t])
  }

  lemma ReplayFits(w: World, r: Request, row: BatchRow, hash: Fingerprint)
    requires row in w.batches && row.key == r.key && Replay(row, r.wish, hash).Accepted?
    requires match r.wish
      case Create(params, source) =>
        hash.params == params && hash.fromSelection == source.Selection? && (source.Selection? ==>
          hash.posts == source.posts)
      case Retry(_) => true
    ensures Names(w, row.id, r)
  {
    var i :| 0 <= i < |w.batches| && w.batches[i] == row;
    assert w.batches[i].id == row.id && Fits(w.batches[i], r);
  }

  lemma ReadOk(w: World, t: Uuid, r: Request, valid: bool, failed: seq<Uuid>)
    ensures RequestOk(w, t, r.(phase := ReadPhase(w, r, valid, failed)))
  {
    var existing := FindKey(w.batches, r.key, |w.batches|);
    match r.wish
    case Create(params, source) =>
      var resolved := Resolve(w, source);
      if resolved.Posts? {
        if source.Selection? {
          FingerprintsAgree(w, w, params, source);
        }
        var hash := HashOf(params, source, resolved.posts);
        if existing.Some? && Replay(existing.value, r.wish, hash).Accepted? {
          ReplayFits(w, r, existing.value, hash);
          NamesAnywhere(w, existing.value.id, r, ReadPhase(w, r, valid, failed));
        }
      }
    case Retry(parent) =>
      if existing.Some? && existing.value.parent == Some(parent) {
        ReplayFits(w, r, existing.value, existing.value.hash);
        NamesAnywhere(w, existing.value.id, r, ReadPhase(w, r, valid, failed));
      }
  }

  /** Naming a batch does not depend on the phase. */
  lemma NamesAnywhere(w: World, batch: Uuid, r: Request, phase: Phase)
    requires Names(w, batch, r)
    ensures Names(w, batch, r.(phase := phase))
  {
    var i :| 0 <= i < |w.batches| && w.batches[i].id == batch && Fits(w.batches[i], r);
    assert Fits(w.batches[i], r.(phase := phase));
  }

  lemma RecoverOk(w: World, t: Uuid, r: Request)
    ensures RequestOk(w, t, r.(phase := RecoverPhase(w, r)))
  {
    var existing := FindKey(w.batches, r.key, |w.batches|);
    var phase := RecoverPhase(w, r);
    if existing.Some? && phase.Answered? && phase.reply.Accepted? {
      match r.wish
      case Create(params, source) => ReplayFits(w, r, existing.value, HashOf(params, source, ResolveAgain(w, source)));
      case Retry(_) => ReplayFits(w, r, existing.value, existing.value.hash);
      NamesAnywhere(w, existing.value.id, r, phase);
    }
  }

  lemma InsertRows(w: World, row: BatchRow, after: World)
    requires RowsOk(w) && !HasId(w.batches, row.id) && row.total == |row.hash.posts|
    requires forall k :: 0 <= k < |w.batches| ==> w.batches[k].key != row.key
    requires after.batches == w.batches + [row] && after.jobs == w.jobs + NewJobs(row.id, row.hash.posts)
    requires after.audit == w.audit + [row.id] && after.queue == w.queue
    ensures RowsOk(after)
  {
    var posts := row.hash.posts;
    assert posts[..|posts|] == posts;
    forall i | 0 <= i < |after.batches|
      ensures PostsOf(after.jobs, after.batches[i].id, |after.jobs|) == after.batches[i].hash.posts
    {
      MorePosts(w.jobs, row.id, posts, after.batches[i].id, |posts|);
      if i == |w.batches| {
        NoPosts(w.jobs, row.id, |w.jobs|);
      } else {
        assert after.batches[i].id != row.id;
      }
    }
    forall k | 0 <= k < |after.jobs| ensures HasId(after.batches, after.jobs[k].batch) {
      if k < |w.jobs| {
        var i :| 0 <= i < |w.batches| && w.batches[i].id == w.jobs[k].batch;
        assert after.batches[i].id == after.jobs[k].batch;
      } else {
        assert after.batches[|w.batches|].id == after.jobs[k].batch;
      }
    }
  }

  lemma GrownOk(w: World, after: World, t: Uuid, r: Request)
    requires RequestOk(w, t, r) && w.batches <= after.batches && w.jobs <= after.jobs && after.queue == w.queue
    ensures RequestOk(after, t, r)
  {
    match r.phase
    case Answered(Accepted(batch, _)) =>
      var i :| 0 <= i < |w.batches| && w.batches[i].id == batch && Fits(w.batches[i], r);
      assert after.batches[i] == w.batches[i];
    case Enqueueing(batch, _, _) =>
      var i :| 0 <= i < |w.batches| && w.batches[i].id == batch && Fits(w.batches[i], r);
      var k :| 0 <= k < |w.batches| && w.batches[k].id == batch && w.batches[k].winner == t;
      assert after.batches[i] == w.batches[i] && after.batches[k] == w.batches[k];
    case _ =>
  }

  lemma InsertOk(w: World, t: Uuid, id: Uuid, clash: bool)
    requires Ok(w) && t in w.requests && w.requests[t].phase.Inserting?
    ensures Ok(StepInsert(w, t, w.requests[t], w.requests[t].phase.hash, id, clash))
  {
    var r := w.requests[t];
    var hash := r.phase.hash;
    var after := StepInsert(w, t, r, hash, id, clash);
    if after.batches != w.batches {
      var row := after.batches[|w.batches|];
      InsertRows(w, row, after);
      assert Fits(after.batches[|w.batches|], after.requests[t]) && after.batches[|w.batches|].winner == t;
      forall x | x in w.requests && x != t ensures RequestOk(after, x, w.requests[x]) {
        GrownOk(w, after, x, w.requests[x]);
      }
    }
  }

  lemma OwnEnqueueOk(w: World, t: Uuid, ok: bool)
    requires RowsOk(w) && t in w.requests && w.requests[t].phase.Enqueueing? && RequestOk(w, t, w.requests[t])
    ensures var e := w.requests[t].phase;
      var after := StepEnqueue(w, t, w.requests[t], e.batch, e.from, e.to, ok);
      RowsOk(after) && RequestOk(after, t, after.requests[t])
  {
    var e := w.requests[t].phase;
    var after := StepEnqueue(w, t, w.requests[t], e.batch, e.from, e.to, ok);
    hide Names, Inserted;
    QueueRowsOk(w, after);
    NamesAnywhere(w, e.batch, w.requests[t], after.requests[t].phase);
    SameNames(w, after, t, e.batch, after.requests[t]);
  }

  lemma QueueRowsOk(w: World, after: World)
    requires RowsOk(w) && after.batches == w.batches && after.jobs == w.jobs && after.audit == w.audit
    requires after.queue == w.queue
      || (exists j :: 0 <= j < |w.jobs| && after.queue == w.queue + [j] && forall q :: 0 <= q < |w.queue| ==>
          w.queue[q] != j)
    ensures RowsOk(after)
  {
  }

  lemma SameNames(w: World, after: World, t: Uuid, batch: Uuid, r: Request)
    requires after.batches == w.batches
    ensures Names(after, batch, r) <==> Names(w, batch, r)
    ensures Inserted(after, t, batch) <==> Inserted(w, t, batch)
  {
  }

  lemma EnqueueOk(w: World, t: Uuid, ok: bool)
    requires Ok(w) && t in w.requests && w.requests[t].phase.Enqueueing?
    ensures var e := w.requests[t].phase;
      Ok(StepEnqueue(w, t, w.requests[t], e.batch, e.from, e.to, ok))
  {
    var e := w.requests[t].phase;
    var after := StepEnqueue(w, t, w.requests[t], e.batch, e.from, e.to, ok);
    OwnEnqueueOk(w, t, ok);
    forall x | x in w.requests && x != t ensures RequestOk(after, x, w.requests[x]) {
      QueuedApart(w, t, x, after);
    }
  }

  lemma DifferentWinners(w: World, a: Uuid, x: Uuid, b: Uuid, y: Uuid)
    requires RowsOk(w) && Inserted(w, x, a) && Inserted(w, y, b) && x != y
    ensures a != b
  {
    var i :| 0 <= i < |w.batches| && w.batches[i].id == a && w.batches[i].winner == x;
    var k :| 0 <= k < |w.batches| && w.batches[k].id == b && w.batches[k].winner == y;
    assert i != k;
  }

  /** What one request queues is not for another one to queue. */
  lemma QueuedApart(w: World, t: Uuid, x: Uuid, after: World)
    requires RowsOk(w) && t in w.requests && x in w.requests && x != t
    requires RequestOk(w, t, w.requests[t]) && RequestOk(w, x, w.requests[x]) && w.requests[t].phase.Enqueueing?
    requires after.batches == w.batches && after.jobs == w.jobs
    requires after.queue == w.queue
      || (w.requests[t].phase.from < w.requests[t].phase.to && after.queue == w.queue + [w.requests[t].phase.from])
    ensures RequestOk(after, x, w.requests[x])
  {
    var r := w.requests[x];
    match r.phase
    case Answered(Accepted(batch, _)) => assert Names(after, batch, r);
    case Enqueueing(batch, from, to) =>
      assert Names(after, batch, r) && Inserted(after, x, batch);
      var e := w.requests[t].phase;
      DifferentWinners(w, batch, x, e.batch, t);
      if after.queue != w.queue {
        assert w.jobs[e.from].batch == e.batch;
        assert !(from <= e.from < to);
      }
    case _ =>
  }

  lemma SameRowsOk(w: World, after: World)
    requires Ok(w) && after.batches == w.batches && after.jobs == w.jobs && after.audit == w.audit
    requires after.queue == w.queue
    requires forall t :: t in after.requests ==>
      RequestOk(w, t, after.requests[t])
    ensures Ok(after)
  {
    forall t | t in after.requests ensures RequestOk(after, t, after.requests[t]) {
      GrownOk(w, after, t, after.requests[t]);
    }
  }

  lemma PutOk(w: World, t: Uuid, r: Request)
    requires Ok(w) && RequestOk(w, t, r)
    ensures Ok(Put(w, t, r))
  {
    SameRowsOk(w, Put(w, t, r));
  }

  lemma StepOk(w: World, a: Action)
    requires Ok(w)
    ensures Ok(Apply(w, a))
  {
    hide Ok, ReadPhase, RecoverPhase, StepInsert, StepEnqueue;
    match a
    case SetPosts(_) => SettingOk(w, Apply(w, a));
    case SetContent(_, _) => SettingOk(w, Apply(w, a));
    case Arrive(t, key, wish) => PutOk(w, t, Request(key, wish, Reading));
    case Read(t, valid, failed) =>
      if t in w.requests {
        ReadOk(w, t, w.requests[t], valid, failed);
        PutOk(w, t, w.requests[t].(phase := ReadPhase(w, w.requests[t], valid, failed)));
      }
    case Insert(t, id, clash) => if t in w.requests && w.requests[t].phase.Inserting? { InsertOk(w, t, id, clash); }
    case Recover(t) =>
      if t in w.requests {
        RecoverOk(w, t, w.requests[t]);
        PutOk(w, t, w.requests[t].(phase := RecoverPhase(w, w.requests[t])));
      }
    case Enqueue(t, ok) => if t in w.requests && w.requests[t].phase.Enqueueing? { EnqueueOk(w, t, ok); }
    case Crash(t) => if t in w.requests { PutOk(w, t, w.requests[t].(phase := Dead)); }
  }

  lemma SettingOk(w: World, after: World)
    requires Ok(w) && after == w.(posts := after.posts, contents := after.contents)
    ensures Ok(after)
  {
    SameRowsOk(w, after);
  }

  lemma {:induction false} RunOk(w: World, actions: seq<Action>)
    requires Ok(w)
    ensures Ok(Run(w, actions))
    decreases |actions|
  {
    if actions != [] {
      StepOk(w, actions[0]);
      RunOk(Apply(w, actions[0]), actions[1..]);
    }
  }

  // ----- The promises -------------------------------------------------------------------------------------

  /**
    For each key at most one batch exists; its jobs are one per resolved post in
    request order, and it was logged once.
  */
  lemma OneBatchPerKey(actions: seq<Action>, i: nat, k: nat)
    requires var w := Run(Start, actions);
      i < |w.batches| && k < |w.batches| && w.batches[i].key == w.batches[k].key
    ensures var w := Run(Start, actions);
      && i == k
      && PostsOf(w.jobs, w.batches[i].id, |w.jobs|) == w.batches[i].hash.posts
      && w.batches[i].total == |w.batches[i].hash.posts|
      && |w.audit| == |w.batches| && w.audit[i] == w.batches[i].id
  {
    RunOk(Start, actions);
  }

  /** All successes with one key name one batch; a selection got exactly the posts it asked for. */
  lemma SuccessesNameOneBatch(actions: seq<Action>, t: Uuid, x: Uuid)
    requires var w := Run(Start, actions);
      && t in w.requests && x in w.requests && w.requests[t].key == w.requests[x].key
      && w.requests[t].phase.Answered? && w.requests[t].phase.reply.Accepted?
      && w.requests[x].phase.Answered? && w.requests[x].phase.reply.Accepted?
    ensures var w := Run(Start, actions);
      var b := w.requests[t].phase.reply.batch;
      && b == w.requests[x].phase.reply.batch
      && (w.requests[t].wish.Create? && w.requests[t].wish.source.Selection? ==>
            PostsOf(w.jobs, b, |w.jobs|) == w.requests[t].wish.source.posts)
  {
    RunOk(Start, actions);
    var w := Run(Start, actions);
    assert RequestOk(w, t, w.requests[t]) && RequestOk(w, x, w.requests[x]);
    var i :| 0 <= i < |w.batches| && w.batches[i].id == w.requests[t].phase.reply.batch
      && Fits(w.batches[i], w.requests[t]);
    var k :| 0 <= k < |w.batches| && w.batches[k].id == w.requests[x].phase.reply.batch
      && Fits(w.batches[k], w.requests[x]);
    assert i == k;
  }

  /** A job is queued only by the request that inserted its batch, and at most once. */
  lemma OnlyTheWinnerEnqueues(actions: seq<Action>, a: Action)
    ensures var w := Run(Start, actions);
      var after := Apply(w, a);
      && (forall q, k :: 0 <= q < k < |after.queue| ==> after.queue[q] != after.queue[k])
      && (after.queue != w.queue ==>
            && a.Enqueue? && a.request in w.requests && w.requests[a.request].phase.Enqueueing?
            && var j := w.requests[a.request].phase.from;
              && j < |w.jobs| && after.queue == w.queue + [j] && Inserted(w, a.request, w.jobs[j].batch))
  {
    RunOk(Start, actions);
    StepOk(Run(Start, actions), a);
  }

  /**
    Batches, jobs, log rows and queue entries are added only by inserting, for an
    unused key, and by enqueueing after it.
  */
  lemma ReplaysAddNothing(w: World, a: Action)
    requires var after := Apply(w, a);
      after.batches != w.batches || after.jobs != w.jobs || after.audit != w.audit || after.queue != w.queue
    ensures var after := Apply(w, a);
      && (a.Insert? || a.Enqueue?) && a.request in w.requests && after.requests[a.request].phase.Enqueueing?
      && (a.Enqueue? ==>
            && w.requests[a.request].phase.Enqueueing?
            && after.batches == w.batches && after.jobs == w.jobs && after.audit == w.audit)
      && (a.Insert? ==>
            && FindKey(w.batches, w.requests[a.request].key, |w.batches|).None? && after.queue == w.queue
            && after.batches[|after.batches| - 1].winner == a.request)
  {
  }

  // ----- The rows, written as the handler does ---------------------------------------------------------------

  class BatchTables {
    var batches: seq<BatchRow>
    var jobs: seq<JobRow>
    var audit: seq<Uuid>

    constructor ()
      ensures batches == [] && jobs == [] && audit == []
    {
      batches, jobs, audit := [], [], [];
    }

    /** Selected posts in request order, or none if one is missing. */
    method ResolveSelection(requested: seq<Uuid>, found: set<Uuid>) returns (posts: Option<seq<Uuid>>)
      ensures posts == if forall k :: 0 <= k < |requested| ==> requested[k] in found then Some(requested) else None
    {
      var kept := [];
      for i := 0 to |requested|
        invariant kept == Keep(requested, found, i)
      {
        if requested[i] in found {
          kept := kept + [requested[i]];
        }
      }
      KeepMeans(requested, found, |requested|);
      assert requested[..|requested|] == requested;
      posts := if |kept| != |requested| then None else Some(kept);
    }

    /** Batch row, jobs one after the other, audit row. */
    method InsertBatch(row: BatchRow) returns (createdJobs: seq<nat>)
      modifies this
      ensures batches == old(batches) + [row]
      ensures jobs == old(jobs) + NewJobs(row.id, row.hash.posts)
      ensures audit == old(audit) + [row.id]
      ensures |createdJobs| == |row.hash.posts| && forall k :: 0 <= k < |createdJobs| ==>
        createdJobs[k] < |jobs| && jobs[createdJobs[k]] == JobRow(row.id, row.hash.posts[k])
    {
      batches := batches + [row];
      createdJobs := [];
      for idx := 0 to |row.hash.posts|
        invariant jobs == old(jobs) + NewJobs(row.id, row.hash.posts)[..idx]
        invariant batches == old(batches) + [row] && audit == old(audit)
        invariant |createdJobs| == idx && forall k :: 0 <= k < idx ==> createdJobs[k] == |old(jobs)| + k
      {
        createdJobs := createdJobs + [|jobs|];
        jobs := jobs + [JobRow(row.id, row.hash.posts[idx])];
      }
      audit := audit + [row.id];
    }
  }
}
