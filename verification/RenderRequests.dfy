/** Requests for a single render job under an idempotency key. */
module RenderRequests {
  import opened Basics

  /** Text and pictures of an artwork; absent fields were left out of the request. */
  datatype Input = Input(
    title: string,
    eyebrow: Option<string>,
    subtitle: Option<string>,
    callToAction: Option<string>,
    background: Option<Uuid>,
    logo: Option<Uuid>)

  datatype Payload = Payload(key: string, templateVersion: Uuid, post: Option<Uuid>, input: Input)

  datatype Normal = Normal(
    title: string,
    eyebrow: string,
    subtitle: string,
    callToAction: string,
    background: Option<Uuid>,
    logo: Option<Uuid>)

  datatype Row = Row(
    key: string, templateVersion: Uuid, post: Option<Uuid>, background: Option<Uuid>, logo: Option<Uuid>, input: Input)

  /** A request, and whether the template and media it names pass their checks. */
  datatype Attempt = Attempt(payload: Payload, valid: bool)

  datatype Reply = Accepted(job: nat, replay: bool) | KeyConflict | Invalid

  function OrEmpty(text: Option<string>): string {
    if text.Some? then text.value else ""
  }

  function NormalizeInput(input: Input): Normal {
    Normal(input.title, OrEmpty(input.eyebrow), OrEmpty(input.subtitle), OrEmpty(input.callToAction),
           input.background, input.logo)
  }

  function RowOf(p: Payload): Row {
    Row(p.key, p.templateVersion, p.post, p.input.background, p.input.logo, p.input)
  }

  predicate IsEquivalent(existing: Row, p: Payload) {
    if existing.templateVersion != p.templateVersion then false
    else if existing.post != p.post then false
    else if existing.background != p.input.background then false
    else if existing.logo != p.input.logo then false
    else NormalizeInput(existing.input) == NormalizeInput(p.input)
  }

  /** Two requests say the same: absent and empty texts count as equal. */
  predicate SaysTheSame(p: Payload, q: Payload) {
    p.templateVersion == q.templateVersion && p.post == q.post && NormalizeInput(p.input) == NormalizeInput(q.input)
  }

  /** A row stored for one request is equivalent exactly to the requests that say the same. */
  lemma EquivalentExactlyWhen(p: Payload, q: Payload)
    ensures IsEquivalent(RowOf(p), q) <==> SaysTheSame(p, q)
  {
  }

  function FindKey(rows: seq<Row>, key: string, n: nat): (r: Option<nat>)
    requires n <= |rows|
    ensures r.Some? ==> r.value < n && rows[r.value].key == key
    ensures r.None? ==> forall k :: 0 <= k < n ==> rows[k].key != key
  {
    if n == 0 then None else if rows[n - 1].key == key then Some(n - 1) else FindKey(rows, key, n - 1)
  }

  function Answer(rows: seq<Row>, job: nat, p: Payload): Reply
    requires job < |rows|
  {
    if IsEquivalent(rows[job], p) then Accepted(job, true) else KeyConflict
  }

  /** Check the key, validate, insert: as one step. */
  function Serve(rows: seq<Row>, a: Attempt): (seq<Row>, Reply) {
    var existing := FindKey(rows, a.payload.key, |rows|);
    if existing.Some? then (rows, Answer(rows, existing.value, a.payload))
    else if !a.valid then (rows, Invalid)
    else (rows + [RowOf(a.payload)], Accepted(|rows|, false))
  }

  /** The route as it runs: what it checked may be stale when it inserts, and the unique index then refuses. */
  function ServeStale(checked: seq<Row>, rows: seq<Row>, a: Attempt): (seq<Row>, Reply) {
    var existing := FindKey(checked, a.payload.key, |checked|);
    if existing.Some? then (rows, Answer(checked, existing.value, a.payload))
    else if !a.valid then (rows, Invalid)
    else
      var winner := FindKey(rows, a.payload.key, |rows|);
      if winner.Some? then (rows, Answer(rows, winner.value, a.payload))
      else (rows + [RowOf(a.payload)], Accepted(|rows|, false))
  }

  predicate KeysOnce(rows: seq<Row>) {
    forall i, k :: 0 <= i < k < |rows| ==> rows[i].key != rows[k].key
  }

  /**
    However stale its check, the route gives the outcome of one step at the time
    of its write, unless it is invalid; then it may also miss a concurrent winner.
  */
  lemma StaleIsAtomic(checked: seq<Row>, rows: seq<Row>, a: Attempt)
    requires checked <= rows && KeysOnce(rows)
    ensures ServeStale(checked, rows, a) == Serve(rows, a)
       <==> (a.valid || FindKey(checked, a.payload.key, |checked|).Some? || FindKey(rows, a.payload.key, |rows|).None?)
  {
    var seen := FindKey(checked, a.payload.key, |checked|);
    if seen.Some? {
      assert rows[seen.value] == checked[seen.value];
    }
  }

  /** Two texts count as the same: an absent one is an empty one. */
  predicate SameText(a: Option<string>, b: Option<string>) {
    a == b || (a == None && b == Some("")) || (a == Some("") && b == None)
  }

  /** The stored row is what this request asks for. */
  predicate Stores(row: Row, p: Payload) {
    && row.templateVersion == p.templateVersion && row.post == p.post
    && row.background == row.input.background == p.input.background && row.logo == row.input.logo == p.input.logo
    && row.input.title == p.input.title && SameText(row.input.eyebrow, p.input.eyebrow)
    && SameText(row.input.subtitle, p.input.subtitle) && SameText(row.input.callToAction, p.input.callToAction)
  }

  /** The pictures of a row are also in its input, as every insert leaves them. */
  predicate PicturesOk(rows: seq<Row>) {
    forall i :: 0 <= i < |rows| ==> rows[i].background == rows[i].input.background && rows[i].logo == rows[i].input.logo
  }

  /** The answer to a request whose key this row has. */
  function RowAnswer(rows: seq<Row>, i: nat, p: Payload): Reply
    requires i < |rows|
  {
    if Stores(rows[i], p) then Accepted(i, true) else KeyConflict
  }

  predicate KeyUsed(rows: seq<Row>, key: string) {
    exists i :: 0 <= i < |rows| && rows[i].key == key
  }

  /**
    What a request is answered: by the row of its key, seen at the check or only at
    the write, as a replay exactly when that row stores what it asks for; refused
    when it is invalid; and otherwise by the new row, which stores exactly that.
  */
  lemma RepliesExactly(checked: seq<Row>, rows: seq<Row>, a: Attempt)
    requires checked <= rows && KeysOnce(rows) && PicturesOk(rows)
    ensures var (after, reply) := ServeStale(checked, rows, a);
      var p := a.payload;
      && PicturesOk(after)
      && (forall i :: 0 <= i < |rows| && rows[i].key == p.key && (i < |checked| || a.valid) ==>
            after == rows && reply == RowAnswer(rows, i, p))
      && (!KeyUsed(checked, p.key) && !a.valid ==> after == rows && reply == Invalid)
      && (!KeyUsed(rows, p.key) && a.valid ==>
            reply == Accepted(|rows|, false)
            && after == rows + [Row(p.key, p.templateVersion, p.post, p.input.background, p.input.logo, p.input)])
  {
    var seen := FindKey(checked, a.payload.key, |checked|);
    var winner := FindKey(rows, a.payload.key, |rows|);
    if seen.Some? {
      assert rows[seen.value] == checked[seen.value];
    }
    forall i | 0 <= i < |rows| && rows[i].key == a.payload.key
      ensures winner == Some(i) && (i < |checked| ==> checked[i] == rows[i] && seen == Some(i))
      ensures IsEquivalent(rows[i], a.payload) <==> Stores(rows[i], a.payload)
    {
      EquivalentMeans(rows[i], a.payload);
    }
  }

  lemma EquivalentMeans(row: Row, p: Payload)
    requires row.background == row.input.background && row.logo == row.input.logo
    ensures IsEquivalent(row, p) <==> Stores(row, p)
  {
  }

  /**
    The first `n` requests in the order of their writes.  As rows are only added,
    what a request checked was a prefix of the rows; `seen` is its length.
  */
  function ServeAll(rows: seq<Row>, attempts: seq<Attempt>, seen: seq<nat>, n: nat): (seq<Row>, seq<Reply>)
    requires n <= |attempts| == |seen|
  {
    if n == 0 then (rows, [])
    else
      var before := ServeAll(rows, attempts, seen, n - 1);
      var last := ServeStale(Checked(before.0, seen[n - 1]), before.0, attempts[n - 1]);
      (last.0, before.1 + [last.1])
  }

  function Checked(rows: seq<Row>, seen: nat): seq<Row> {
    if seen <= |rows| then rows[..seen] else rows
  }

  /** Each accepted request names a row of its key that says what it says. */
  predicate AnswersOk(rows: seq<Row>, attempts: seq<Attempt>, replies: seq<Reply>, n: nat) {
    && |replies| == n <= |attempts|
    && forall i :: 0 <= i < n && replies[i].Accepted? ==>
         && replies[i].job < |rows| && rows[replies[i].job].key == attempts[i].payload.key
         && IsEquivalent(rows[replies[i].job], attempts[i].payload)
  }

  lemma {:induction false} ServeAllOk(rows: seq<Row>, attempts: seq<Attempt>, seen: seq<nat>, n: nat)
    requires KeysOnce(rows) && n <= |attempts| == |seen|
    ensures var r := ServeAll(rows, attempts, seen, n);
      KeysOnce(r.0) && rows <= r.0 && AnswersOk(r.0, attempts, r.1, n)
  {
    if n > 0 {
      ServeAllOk(rows, attempts, seen, n - 1);
      var before := ServeAll(rows, attempts, seen, n - 1);
      ServeOk(before.0, Checked(before.0, seen[n - 1]), attempts, before.1, n - 1);
    }
  }

  lemma ServeOk(rows: seq<Row>, checked: seq<Row>, attempts: seq<Attempt>, replies: seq<Reply>, n: nat)
    requires n < |attempts| && KeysOnce(rows) && checked <= rows && AnswersOk(rows, attempts, replies, n)
    ensures var r := ServeStale(checked, rows, attempts[n]);
      KeysOnce(r.0) && rows <= r.0 && AnswersOk(r.0, attempts, replies + [r.1], n + 1)
  {
    assert IsEquivalent(RowOf(attempts[n].payload), attempts[n].payload);
    var known := FindKey(checked, attempts[n].payload.key, |checked|);
    if known.Some? {
      assert rows[known.value] == checked[known.value];
    }
  }

  /**
    Over any sequence of requests, however stale what each one checked, there is
    one job per key, and any two accepted requests with one key name one job and
    say the same.
  */
  lemma OneJobPerKey(attempts: seq<Attempt>, seen: seq<nat>, i: nat, k: nat)
    requires |seen| == |attempts|
    requires i < |attempts| && k < |attempts| && attempts[i].payload.key == attempts[k].payload.key
    ensures var r := ServeAll([], attempts, seen, |attempts|);
      && |r.1| == |attempts| && KeysOnce(r.0)
      && (r.1[i].Accepted? && r.1[k].Accepted? ==>
            r.1[i].job == r.1[k].job && SaysTheSame(attempts[i].payload, attempts[k].payload))
  {
    ServeAllOk([], attempts, seen, |attempts|);
    var r := ServeAll([], attempts, seen, |attempts|);
    if r.1[i].Accepted? && r.1[k].Accepted? {
      var a, b := r.1[i].job, r.1[k].job;
      assert r.0[a].key == r.0[b].key;
    }
  }
}
