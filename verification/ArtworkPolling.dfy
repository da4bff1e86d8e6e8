/**
  The artwork polling controller as a machine driven by any sequence of calls,
  timer firings and responses, early or late, and the class that is that machine.
  Callbacks do not call back into the controller.
*/
module ArtworkPolling {
  import opened Basics

  datatype JobStatus = Pending | Processing | Completed | Failed | Cancelled

  datatype Timer = Timer(job: Uuid, gen: nat)

  /** A fetch not answered yet; `live` until its controller is aborted. */
  datatype Request = Request(job: Uuid, gen: nat, manual: bool, live: bool)

  datatype Response = Found(id: Uuid, status: JobStatus) | AbortError | OtherError

  /** A callback, with the job and generation it was delivered for. */
  datatype Call =
    | OnUpdated(job: Uuid, gen: nat, id: Uuid)
    | OnCompleted(job: Uuid, gen: nat, id: Uuid)
    | OnFailed(job: Uuid, gen: nat, id: Uuid)
    | OnTimeout(job: Uuid, gen: nat)

  /**
    The controller's fields, then its surroundings: armed timers, unanswered
    requests, callbacks made, fetches of the current cycle, and how many handles were given out.
  */
  datatype Poller = Poller(
    generation: nat,
    authorized: Option<Uuid>,
    timerId: Option<nat>,
    controller: Option<nat>,
    attempts: nat,
    disposed: bool,
    completed: set<Uuid>,
    armed: map<nat, Timer>,
    requests: map<nat, Request>,
    calls: seq<Call>,
    fetches: nat,
    handles: nat)

  datatype Event =
    | Start(job: Uuid)
    | Stop
    | Check(job: Uuid)
    | Dispose
    | Fire(timer: nat)
    | Respond(request: nat, response: Response)

  const New := Poller(0, None, None, None, 0, false, {}, map[], map[], [], 0, 0)

  // ----- The controller's operations ---------------------------------------------------------

  predicate Authorized(p: Poller, job: Uuid, gen: nat) {
    !p.disposed && p.authorized == Some(job) && p.generation == gen
  }

  function AbortCurrent(p: Poller): map<nat, Request> {
    if p.controller.Some? && p.controller.value in p.requests then
      p.requests[p.controller.value := p.requests[p.controller.value].(live := false)]
    else p.requests
  }

  function StopPolling(p: Poller): Poller {
    p.(armed := if p.timerId.Some? then p.armed - {p.timerId.value} else p.armed,
       timerId := None,
       requests := AbortCurrent(p),
       controller := None,
       generation := p.generation + 1,
       authorized := None,
       attempts := 0)
  }

  function ScheduleNext(p: Poller, job: Uuid, gen: nat): Poller {
    if Authorized(p, job, gen) then
      p.(timerId := Some(p.handles), armed := p.armed[p.handles := Timer(job, gen)], handles := p.handles + 1)
    else p
  }

  function Send(p: Poller, job: Uuid, gen: nat, manual: bool): Poller {
    p.(controller := Some(p.handles),
       requests := p.requests[p.handles := Request(job, gen, manual, true)],
       handles := p.handles + 1)
  }

  function StartPolling(p: Poller, job: Uuid): Poller {
    if p.disposed then p
    else
      var q := StopPolling(p).(authorized := Some(job), fetches := 0);
      ScheduleNext(q, job, q.generation)
  }

  function ManualCheck(p: Poller, job: Uuid): Poller {
    if p.disposed then p
    else
      var q := StopPolling(p).(authorized := Some(job));
      Send(q, job, q.generation, true)
  }

  function DisposeAll(p: Poller): Poller {
    StopPolling(p.(disposed := true)).(completed := {})
  }

  function Complete(p: Poller, job: Uuid, gen: nat, id: Uuid): Poller {
    if id in p.completed then p
    else p.(completed := p.completed + {id}, calls := p.calls + [OnCompleted(job, gen, id)])
  }

  function Deliver(p: Poller, job: Uuid, gen: nat, id: Uuid, status: JobStatus): Poller {
    var q := p.(calls := p.calls + [OnUpdated(job, gen, id)]);
    if status == Completed then Complete(q, job, gen, id)
    else if status == Failed then q.(calls := q.calls + [OnFailed(job, gen, id)])
    else q
  }

  /** One more unfinished attempt: give up or arm the timer again. */
  function CountAttempt(p: Poller, job: Uuid, gen: nat, maxAttempts: int): Poller {
    var q := p.(attempts := p.attempts + 1);
    if q.attempts >= maxAttempts then
      var s := StopPolling(q);
      s.(calls := s.calls + [OnTimeout(job, gen)])
    else ScheduleNext(q, job, gen)
  }

  function FireTimer(p: Poller, timer: nat): Poller {
    if timer !in p.armed then p
    else
      var t := p.armed[timer];
      var q := p.(armed := p.armed - {timer}, timerId := None);
      if Authorized(q, t.job, t.gen) then Send(q, t.job, t.gen, false).(fetches := q.fetches + 1) else q
  }

  function HearManual(p: Poller, r: Request, response: Response): Poller {
    if response.AbortError? || !Authorized(p, r.job, r.gen) then p
    else
      match response
      case Found(id, status) => Deliver(p.(controller := None), r.job, r.gen, id, status)
      case _ => p.(controller := None)
  }

  function HearPolled(p: Poller, r: Request, response: Response, maxAttempts: int): Poller {
    if response.AbortError? || !Authorized(p, r.job, r.gen) then p
    else
      match response
      case Found(id, status) =>
        var q := Deliver(p.(controller := None), r.job, r.gen, id, status);
        if status in {Completed, Failed, Cancelled} then StopPolling(q) else CountAttempt(q, r.job, r.gen, maxAttempts)
      case _ => CountAttempt(p.(controller := None), r.job, r.gen, maxAttempts)
  }

  function Hear(p: Poller, request: nat, response: Response, maxAttempts: int): Poller {
    if request !in p.requests then p
    else
      var r := p.requests[request];
      var q := p.(requests := p.requests - {request});
      if r.manual then HearManual(q, r, response) else HearPolled(q, r, response, maxAttempts)
  }

  function Step(p: Poller, e: Event, maxAttempts: int): Poller {
    match e
    case Start(job) => StartPolling(p, job)
    case Stop => StopPolling(p)
    case Check(job) => ManualCheck(p, job)
    case Dispose => DisposeAll(p)
    case Fire(timer) => FireTimer(p, timer)
    case Respond(request, response) => Hear(p, request, response, maxAttempts)
  }

  function Run(p: Poller, events: seq<Event>, maxAttempts: int): Poller
    decreases |events|
  {
    if events == [] then p else Run(Step(p, events[0], maxAttempts), events[1..], maxAttempts)
  }

  // ----- Invariant -------------------------------------------------------------------------------

  function Most(maxAttempts: int): nat {
    if maxAttempts > 1 then maxAttempts else 1
  }

  /** The armed timer is the one remembered, is authorized, and excludes a live request. */
  predicate TimersOk(p: Poller) {
    && (forall t :: t in p.armed ==>
        p.timerId == Some(t) && t < p.handles && Authorized(p, p.armed[t].job, p.armed[t].gen))
    && (p.armed != map[] ==> forall r :: r in p.requests ==> !p.requests[r].live)
  }

  /** A live request is the one remembered and is authorized; requests of this generation are live. */
  predicate RequestsOk(p: Poller) {
    && (p.controller.Some? ==> p.controller.value < p.handles)
    && forall r :: r in p.requests ==>
         && r < p.handles && p.requests[r].gen <= p.generation
         && (p.requests[r].gen == p.generation ==> p.requests[r].live)
         && (p.requests[r].live ==> p.controller == Some(r) && Authorized(p, p.requests[r].job, p.requests[r].gen))
  }

  /** The current cycle has made one fetch per counted attempt, plus the one under way. */
  predicate FetchesOk(p: Poller, maxAttempts: int) {
    && p.fetches <= Most(maxAttempts)
    && (p.armed != map[] ==> p.fetches == p.attempts < Most(maxAttempts))
    && (forall r :: r in p.requests && p.requests[r].live && !p.requests[r].manual ==> p.fetches == p.attempts + 1)
  }

  function Completions(calls: seq<Call>, id: Uuid): nat {
    if calls == [] then 0
    else
      var last := calls[|calls| - 1];
      Completions(calls[..|calls| - 1], id) + (if last.OnCompleted? && last.id == id then 1 else 0)
  }

  ghost predicate CompletionsOk(p: Poller) {
    !p.disposed ==> forall id :: Completions(p.calls, id) == (if id in p.completed then 1 else 0)
  }

  ghost predicate Ok(p: Poller, maxAttempts: int) {
    TimersOk(p) && RequestsOk(p) && FetchesOk(p, maxAttempts) && CompletionsOk(p)
  }

  lemma AddCall(calls: seq<Call>, c: Call, id: Uuid)
    ensures Completions(calls + [c], id) == Completions(calls, id) + (if c.OnCompleted? && c.id == id then 1 else 0)
  {
    assert (calls + [c])[..|calls|] == calls;
  }

  lemma OtherCall(p: Poller, c: Call)
    requires CompletionsOk(p) && !c.OnCompleted?
    ensures CompletionsOk(p.(calls := p.calls + [c]))
  {
    forall id ensures Completions(p.calls + [c], id) == Completions(p.calls, id) {
      AddCall(p.calls, c, id);
    }
  }

  lemma CompleteOk(p: Poller, job: Uuid, gen: nat, id: Uuid)
    requires CompletionsOk(p)
    ensures CompletionsOk(Complete(p, job, gen, id))
  {
    forall x
      ensures Completions(p.calls + [OnCompleted(job, gen, id)], x)
           == Completions(p.calls, x) + (if x == id then 1 else 0)
    {
      AddCall(p.calls, OnCompleted(job, gen, id), x);
    }
  }

  /** The parts of the invariant that do not mention callbacks. */
  predicate QuietOk(p: Poller, maxAttempts: int) {
    TimersOk(p) && RequestsOk(p) && FetchesOk(p, maxAttempts)
  }

  lemma StopOk(p: Poller, maxAttempts: int)
    requires QuietOk(p, maxAttempts)
    ensures QuietOk(StopPolling(p), maxAttempts)
    ensures var q := StopPolling(p);
      q.armed == map[] && forall r :: r in q.requests ==> !q.requests[r].live
  {
  }

  /** Nothing is armed or live, so the controller may arm or send. */
  predicate Idle(p: Poller) {
    p.armed == map[] && forall r :: r in p.requests ==> !p.requests[r].live
  }

  lemma ScheduleOk(p: Poller, job: Uuid, gen: nat, maxAttempts: int)
    requires QuietOk(p, maxAttempts) && Idle(p) && p.fetches == p.attempts < Most(maxAttempts)
    ensures QuietOk(ScheduleNext(p, job, gen), maxAttempts)
  {
  }

  lemma SendOk(p: Poller, job: Uuid, gen: nat, manual: bool, fetches: nat, maxAttempts: int)
    requires QuietOk(p, maxAttempts) && Idle(p) && Authorized(p, job, gen)
    requires if manual then fetches == p.fetches else fetches == p.fetches + 1 == p.attempts + 1 <= Most(maxAttempts)
    ensures QuietOk(Send(p, job, gen, manual).(fetches := fetches), maxAttempts)
  {
  }

  lemma FireOk(p: Poller, timer: nat, maxAttempts: int)
    requires QuietOk(p, maxAttempts)
    ensures QuietOk(FireTimer(p, timer), maxAttempts)
  {
    if timer in p.armed {
      var q := p.(armed := p.armed - {timer}, timerId := None);
      assert q.armed == map[];
      SendOk(q, p.armed[timer].job, p.armed[timer].gen, false, q.fetches + 1, maxAttempts);
    }
  }

  lemma AttemptOk(p: Poller, job: Uuid, gen: nat, maxAttempts: int)
    requires QuietOk(p, maxAttempts) && Idle(p) && p.fetches == p.attempts + 1
    ensures QuietOk(CountAttempt(p, job, gen, maxAttempts), maxAttempts)
  {
    var q := p.(attempts := p.attempts + 1);
    if q.attempts >= maxAttempts {
      StopOk(q, maxAttempts);
    } else {
      ScheduleOk(q, job, gen, maxAttempts);
    }
  }

  /** An authorized response is the one live request's. */
  predicate Answers(p: Poller, request: nat) {
    request in p.requests && Authorized(p, p.requests[request].job, p.requests[request].gen)
  }

  lemma AnswerIdles(p: Poller, request: nat, maxAttempts: int)
    requires QuietOk(p, maxAttempts) && Answers(p, request)
    ensures var q := p.(requests := p.requests - {request}, controller := None);
      QuietOk(q, maxAttempts) && Idle(q)
    ensures !p.requests[request].manual ==> p.fetches == p.attempts + 1
  {
    assert p.requests[request].live;
  }

  lemma ForgetOk(p: Poller, request: nat, maxAttempts: int)
    requires QuietOk(p, maxAttempts)
    ensures QuietOk(p.(requests := p.requests - {request}), maxAttempts)
  {
  }

  lemma DeliverQuiet(p: Poller, job: Uuid, gen: nat, id: Uuid, status: JobStatus)
    ensures Deliver(p, job, gen, id, status) == p.(calls := Deliver(p, job, gen, id, status).calls,
                                                   completed := Deliver(p, job, gen, id, status).completed)
  {
  }

  lemma HearOk(p: Poller, request: nat, response: Response, maxAttempts: int)
    requires QuietOk(p, maxAttempts)
    ensures QuietOk(Hear(p, request, response, maxAttempts), maxAttempts)
  {
    if request in p.requests {
      ForgetOk(p, request, maxAttempts);
      if Answers(p, request) && !response.AbortError? {
        var r := p.requests[request];
        AnswerIdles(p, request, maxAttempts);
        var q := p.(requests := p.requests - {request}, controller := None);
        match response
        case Found(id, status) =>
          DeliverQuiet(q, r.job, r.gen, id, status);
          var d := Deliver(q, r.job, r.gen, id, status);
          assert QuietOk(d, maxAttempts) && Idle(d);
          if !r.manual {
            if status in {Completed, Failed, Cancelled} {
              StopOk(d, maxAttempts);
            } else {
              AttemptOk(d, r.job, r.gen, maxAttempts);
            }
          }
        case OtherError => if !r.manual { AttemptOk(q, r.job, r.gen, maxAttempts); }
      }
    }
  }

  lemma StepQuiet(p: Poller, e: Event, maxAttempts: int)
    requires QuietOk(p, maxAttempts)
    ensures QuietOk(Step(p, e, maxAttempts), maxAttempts)
  {
    match e
    case Start(job) =>
      StopOk(p, maxAttempts);
      var q := StopPolling(p).(authorized := Some(job), fetches := 0);
      if !p.disposed { ScheduleOk(q, job, q.generation, maxAttempts); }
    case Stop => StopOk(p, maxAttempts);
    case Check(job) =>
      StopOk(p, maxAttempts);
      var q := StopPolling(p).(authorized := Some(job));
      if !p.disposed { SendOk(q, job, q.generation, true, q.fetches, maxAttempts); }
    case Dispose => StopOk(p, maxAttempts);
    case Fire(timer) => FireOk(p, timer, maxAttempts);
    case Respond(request, response) => HearOk(p, request, response, maxAttempts);
  }

  // ----- Callbacks ---------------------------------------------------------------------------------

  lemma DeliverOk(p: Poller, job: Uuid, gen: nat, id: Uuid, status: JobStatus)
    requires CompletionsOk(p)
    ensures CompletionsOk(Deliver(p, job, gen, id, status))
  {
    OtherCall(p, OnUpdated(job, gen, id));
    var q := p.(calls := p.calls + [OnUpdated(job, gen, id)]);
    if status == Completed {
      CompleteOk(q, job, gen, id);
    } else if status == Failed {
      OtherCall(q, OnFailed(job, gen, id));
    }
  }

  lemma CountAttemptOk(p: Poller, job: Uuid, gen: nat, maxAttempts: int)
    requires CompletionsOk(p)
    ensures CompletionsOk(CountAttempt(p, job, gen, maxAttempts))
  {
    OtherCall(StopPolling(p.(attempts := p.attempts + 1)), OnTimeout(job, gen));
  }

  lemma StepCompletions(p: Poller, e: Event, maxAttempts: int)
    requires CompletionsOk(p)
    ensures CompletionsOk(Step(p, e, maxAttempts))
  {
    match e
    case Respond(request, response) =>
      if request in p.requests {
        var r := p.requests[request];
        var q := p.(requests := p.requests - {request}, controller := None);
        match response
        case Found(id, status) =>
          DeliverOk(q, r.job, r.gen, id, status);
          CountAttemptOk(Deliver(q, r.job, r.gen, id, status), r.job, r.gen, maxAttempts);
        case AbortError =>
        case OtherError => CountAttemptOk(q, r.job, r.gen, maxAttempts);
      }
    case _ =>
  }

  lemma {:induction false} RunOk(p: Poller, events: seq<Event>, maxAttempts: int)
    requires Ok(p, maxAttempts)
    ensures Ok(Run(p, events, maxAttempts), maxAttempts)
    decreases |events|
  {
    if events != [] {
      StepQuiet(p, events[0], maxAttempts);
      StepCompletions(p, events[0], maxAttempts);
      RunOk(Step(p, events[0], maxAttempts), events[1..], maxAttempts);
    }
  }

  // ----- The promises ----------------------------------------------------------------------------------

  /** Never two armed timers, never two live requests, never one of each. */
  lemma OneThingAtATime(events: seq<Event>, maxAttempts: int)
    ensures var p := Run(New, events, maxAttempts);
      && (forall t, u :: t in p.armed && u in p.armed ==> t == u)
      && (forall r, q :: r in p.requests && q in p.requests && p.requests[r].live && p.requests[q].live ==> r == q)
      && (forall t, r :: t in p.armed && r in p.requests ==> !p.requests[r].live)
  {
    RunOk(New, events, maxAttempts);
  }

  /** The job and generation a callback was made for. */
  function Cycle(c: Call): (Uuid, nat) {
    (c.job, c.gen)
  }

  /** The calls from `n` on are all of one cycle. */
  predicate CallsOf(calls: seq<Call>, n: nat, job: Uuid, gen: nat) {
    forall k :: n <= k < |calls| ==> Cycle(calls[k]) == (job, gen)
  }

  lemma DeliverCalls(p: Poller, job: Uuid, gen: nat, id: Uuid, status: JobStatus, maxAttempts: int)
    ensures var d := Deliver(p, job, gen, id, status);
      && p.calls <= d.calls && CallsOf(d.calls, |p.calls|, job, gen)
      && p.calls <= CountAttempt(d, job, gen, maxAttempts).calls
      && CallsOf(CountAttempt(d, job, gen, maxAttempts).calls, |p.calls|, job, gen)
  {
  }

  /**
    A step makes callbacks only when it answers an unanswered request of the job
    and generation that are current, before disposal; and only for that cycle.
  */
  lemma CallbacksAreCurrent(p: Poller, e: Event, maxAttempts: int)
    ensures var q := Step(p, e, maxAttempts);
      && p.calls <= q.calls
      && (q.calls != p.calls ==>
            && e.Respond? && Answers(p, e.request)
            && forall k :: |p.calls| <= k < |q.calls| ==>
                 Cycle(q.calls[k]) == (p.requests[e.request].job, p.requests[e.request].gen))
  {
    match e
    case Respond(request, Found(id, status)) =>
      if Answers(p, request) {
        var r := p.requests[request];
        DeliverCalls(p.(requests := p.requests - {request}, controller := None), r.job, r.gen, id, status, maxAttempts);
      }
    case _ =>
  }

  /** Completion effects fire at most once per job id before disposal. */
  lemma CompletesOnce(events: seq<Event>, maxAttempts: int, id: Uuid)
    requires !Run(New, events, maxAttempts).disposed
    ensures Completions(Run(New, events, maxAttempts).calls, id) <= 1
  {
    RunOk(New, events, maxAttempts);
  }

  /** A cycle makes at most max(1, maxAttempts) fetches. */
  lemma FetchesAreBounded(events: seq<Event>, maxAttempts: int)
    ensures Run(New, events, maxAttempts).fetches <= Most(maxAttempts)
  {
    RunOk(New, events, maxAttempts);
  }

  lemma StepDisposed(p: Poller, e: Event, maxAttempts: int)
    requires QuietOk(p, maxAttempts) && p.disposed
    ensures var q := Step(p, e, maxAttempts);
      q.disposed && q.calls == p.calls && q.armed == map[] && q.fetches == p.fetches
  {
    assert p.armed == map[];
  }

  /** A disposed controller arms no timer, fetches nothing and calls nobody, whatever still arrives. */
  lemma {:induction false} DisposedForever(p: Poller, events: seq<Event>, maxAttempts: int)
    requires QuietOk(p, maxAttempts) && p.disposed
    ensures var q := Run(p, events, maxAttempts);
      q.disposed && q.calls == p.calls && q.armed == map[] && q.fetches == p.fetches
    decreases |events|
  {
    if events != [] {
      StepQuiet(p, events[0], maxAttempts);
      StepDisposed(p, events[0], maxAttempts);
      DisposedForever(Step(p, events[0], maxAttempts), events[1..], maxAttempts);
    } else {
      assert p.armed == map[];
    }
  }

  // ----- What each event does --------------------------------------------------------------------------

  /** The remembered request is aborted and every other one is as it was. */
  predicate Aborted(p: Poller, requests: map<nat, Request>) {
    && requests.Keys == p.requests.Keys
    && forall r :: r in p.requests ==>
         requests[r] == p.requests[r].(live := p.requests[r].live && p.controller != Some(r))
  }

  /** A start ends the cycle that goes on and arms one timer of a new one, unless disposed. */
  lemma StartMeans(p: Poller, job: Uuid, maxAttempts: int)
    requires QuietOk(p, maxAttempts)
    ensures var q := Step(p, Start(job), maxAttempts);
      if p.disposed then q == p
      else
        && q.generation == p.generation + 1 && q.authorized == Some(job) && q.attempts == 0 && q.fetches == 0
        && q.armed == map[p.handles := Timer(job, p.generation + 1)] && q.timerId == Some(p.handles)
        && Aborted(p, q.requests) && q.controller == None && q.calls == p.calls && q.completed == p.completed
  {
    StopOk(p, maxAttempts);
  }

  /** A manual check ends the cycle and sends one request at once, unless disposed. */
  lemma CheckMeans(p: Poller, job: Uuid, maxAttempts: int)
    requires QuietOk(p, maxAttempts)
    ensures var q := Step(p, Check(job), maxAttempts);
      if p.disposed then q == p
      else
        && q.generation == p.generation + 1 && q.authorized == Some(job) && q.armed == map[]
        && q.controller == Some(p.handles) && q.handles == p.handles + 1
        && p.handles in q.requests && q.requests[p.handles] == Request(job, p.generation + 1, true, true)
        && Aborted(p, q.requests - {p.handles}) && q.calls == p.calls && q.completed == p.completed
  {
    StopOk(p, maxAttempts);
    assert p.handles !in p.requests;
  }

  /** A stop ends the cycle and calls nobody; a disposal also forgets the completed jobs for good. */
  lemma StopMeans(p: Poller, maxAttempts: int)
    requires QuietOk(p, maxAttempts)
    ensures var q := Step(p, Stop, maxAttempts);
      && q.authorized == None && q.armed == map[] && q.controller == None && Aborted(p, q.requests)
      && q.generation == p.generation + 1 && q.calls == p.calls && q.completed == p.completed
      && q.disposed == p.disposed
    ensures var q := Step(p, Dispose, maxAttempts);
      && q.authorized == None && q.armed == map[] && q.controller == None && Aborted(p, q.requests)
      && q.calls == p.calls && q.completed == {} && q.disposed
  {
    StopOk(p, maxAttempts);
  }

  /** The armed timer sends one request of its cycle. */
  lemma FireMeans(p: Poller, timer: nat, maxAttempts: int)
    requires QuietOk(p, maxAttempts) && timer in p.armed
    ensures var q := Step(p, Fire(timer), maxAttempts);
      var t := p.armed[timer];
      && q.armed == map[] && q.authorized == p.authorized && q.generation == p.generation && q.calls == p.calls
      && q.requests == p.requests[p.handles := Request(t.job, t.gen, false, true)] && q.controller == Some(p.handles)
      && q.fetches == p.fetches + 1 && q.attempts == p.attempts
  {
  }

  /** The callbacks a found job makes. */
  function CallsFor(p: Poller, r: Request, id: Uuid, status: JobStatus): seq<Call> {
    [OnUpdated(r.job, r.gen, id)]
    + (if status == Completed && id !in p.completed then [OnCompleted(r.job, r.gen, id)]
       else if status == Failed then [OnFailed(r.job, r.gen, id)] else [])
  }

  /** The job found is in a final status. */
  predicate Ends(response: Response) {
    response.Found? && response.status in {Completed, Failed, Cancelled}
  }

  /**
    What a response of the current cycle reports: the job found, its completion the
    first time, its failure; and the timeout after the last attempt that left it
    unfinished.
  */
  function Reports(p: Poller, r: Request, response: Response, maxAttempts: int): seq<Call> {
    (if response.Found? then CallsFor(p, r, response.id, response.status) else [])
    + (if !r.manual && !Ends(response) && p.attempts + 1 >= maxAttempts then [OnTimeout(r.job, r.gen)] else [])
  }

  /**
    A response of the current cycle is reported.  After a polled one the cycle goes
    on with one armed timer exactly while the job is unfinished and attempts are
    left, and else it stops; a manual one changes nothing else.  An aborted or stale
    response is dropped.
  */
  lemma RespondMeans(p: Poller, request: nat, response: Response, maxAttempts: int)
    requires QuietOk(p, maxAttempts) && request in p.requests
    ensures var q := Step(p, Respond(request, response), maxAttempts);
      var r := p.requests[request];
      && q.requests.Keys == p.requests.Keys - {request}
      && (if response.AbortError? || !Answers(p, request) then q == p.(requests := p.requests - {request})
          else
            && q.calls == p.calls + Reports(p, r, response, maxAttempts) && q.controller == None
            && q.completed == (if response.Found? && response.status == Completed then p.completed + {response.id}
                               else p.completed)
            && (if r.manual then q.armed == map[] && q.authorized == p.authorized && q.attempts == p.attempts
                else if Ends(response) || p.attempts + 1 >= maxAttempts then q.armed == map[] && q.authorized == None
                else
                  && q.authorized == p.authorized && q.attempts == p.attempts + 1
                  && q.armed == map[p.handles := Timer(r.job, r.gen)] && q.timerId == Some(p.handles)))
  {
    if !response.AbortError? && Answers(p, request) {
      assert p.armed == map[];
      var r := p.requests[request];
      match response
      case Found(id, status) =>
        DeliverMeans(p.(requests := p.requests - {request}, controller := None), r, id, status);
        var d := CallsFor(p, r, id, status);
        var none: seq<Call> := [];
        assert p.calls + d + [OnTimeout(r.job, r.gen)] == p.calls + (d + [OnTimeout(r.job, r.gen)]);
        assert d + none == d;
      case AbortError =>
      case OtherError =>
        var none: seq<Call> := [];
        assert p.calls + (none + none) == p.calls;
        assert none + [OnTimeout(r.job, r.gen)] == [OnTimeout(r.job, r.gen)];
    }
  }

  lemma DeliverMeans(p: Poller, r: Request, id: Uuid, status: JobStatus)
    ensures Deliver(p, r.job, r.gen, id, status)
         == p.(calls := p.calls + CallsFor(p, r, id, status),
               completed := if status == Completed then p.completed + {id} else p.completed)
  {
    var first, none := [OnUpdated(r.job, r.gen, id)], [];
    assert first + none == first;
    assert p.calls + first + [OnCompleted(r.job, r.gen, id)] == p.calls + (first + [OnCompleted(r.job, r.gen, id)]);
    assert p.calls + first + [OnFailed(r.job, r.gen, id)] == p.calls + (first + [OnFailed(r.job, r.gen, id)]);
    assert id in p.completed ==> p.completed + {id} == p.completed;
  }

  // ----- The class ------------------------------------------------------------------------------------

  class ArtworkPollingController {
    const maxAttempts: int
    var generation: nat
    var authorizedJobId: Option<Uuid>
    var timerId: Option<nat>
    var abortController: Option<nat>
    var attempts: nat
    var isDisposed: bool
    var completedJobIds: set<Uuid>

    // the surroundings
    var armed: map<nat, Timer>
    var requests: map<nat, Request>
    var calls: seq<Call>
    var fetches: nat
    var handles: nat

    function State(): Poller
      reads this
    {
      Poller(generation, authorizedJobId, timerId, abortController, attempts, isDisposed, completedJobIds,
             armed, requests, calls, fetches, handles)
    }

    constructor (maxAttempts: int)
      ensures State() == New && this.maxAttempts == maxAttempts
    {
      this.maxAttempts := maxAttempts;
      generation, authorizedJobId, timerId, abortController, attempts := 0, None, None, None, 0;
      isDisposed, completedJobIds := false, {};
      armed, requests, calls, fetches, handles := map[], map[], [], 0, 0;
    }

    predicate IsAuthorized(job: Uuid, gen: nat)
      reads this
    {
      !isDisposed && authorizedJobId == Some(job) && generation == gen
    }

    method StopPolling()
      modifies this
      ensures State() == Step(old(State()), Stop, maxAttempts)
    {
      if timerId.Some? {
        armed := armed - {timerId.value};
        timerId := None;
      }
      if abortController.Some? {
        if abortController.value in requests {
          requests := requests[abortController.value := requests[abortController.value].(live := false)];
        }
        abortController := None;
      }
      generation := generation + 1;
      authorizedJobId := None;
      attempts := 0;
    }

    method SetTimer(job: Uuid, gen: nat)
      modifies this`armed, this`timerId, this`handles
      ensures State() == ScheduleNext(old(State()), job, gen)
    {
      if IsAuthorized(job, gen) {
        timerId := Some(handles);
        armed := armed[handles := Timer(job, gen)];
        handles := handles + 1;
      }
    }

    method Fetch(job: Uuid, gen: nat, manual: bool)
      modifies this`requests, this`abortController, this`handles
      ensures State() == Send(old(State()), job, gen, manual)
    {
      abortController := Some(handles);
      requests := requests[handles := Request(job, gen, manual, true)];
      handles := handles + 1;
    }

    method StartPollingJob(job: Uuid)
      modifies this
      ensures State() == Step(old(State()), Start(job), maxAttempts)
    {
      if isDisposed {
        return;
      }
      StopPolling();
      authorizedJobId := Some(job);
      fetches := 0;
      SetTimer(job, generation);
    }

    method ExecuteManualCheck(job: Uuid)
      modifies this
      ensures State() == Step(old(State()), Check(job), maxAttempts)
    {
      if isDisposed {
        return;
      }
      StopPolling();
      authorizedJobId := Some(job);
      Fetch(job, generation, true);
    }

    method DisposeController()
      modifies this
      ensures State() == Step(old(State()), Dispose, maxAttempts)
    {
      isDisposed := true;
      StopPolling();
      completedJobIds := {};
    }

    /** The timer's callback and the start of `pollStep`. */
    method TimerFires(timer: nat)
      modifies this
      ensures State() == Step(old(State()), Fire(timer), maxAttempts)
    {
      if timer !in armed {
        return;
      }
      var t := armed[timer];
      armed := armed - {timer};
      timerId := None;
      if IsAuthorized(t.job, t.gen) {
        Fetch(t.job, t.gen, false);
        fetches := fetches + 1;
      }
    }

    method HandleJobResult(job: Uuid, gen: nat, id: Uuid, status: JobStatus)
      modifies this`calls, this`completedJobIds
      ensures State() == Deliver(old(State()), job, gen, id, status)
    {
      calls := calls + [OnUpdated(job, gen, id)];
      if status == Completed {
        if id !in completedJobIds {
          completedJobIds := completedJobIds + {id};
          calls := calls + [OnCompleted(job, gen, id)];
        }
      } else if status == Failed {
        calls := calls + [OnFailed(job, gen, id)];
      }
    }

    method AfterAttempt(job: Uuid, gen: nat)
      modifies this
      ensures State() == CountAttempt(old(State()), job, gen, maxAttempts)
    {
      attempts := attempts + 1;
      if attempts >= maxAttempts {
        StopPolling();
        calls := calls + [OnTimeout(job, gen)];
      } else {
        SetTimer(job, gen);
      }
    }

    /** The continuation of a fetch, of either kind. */
    method ResponseArrives(request: nat, response: Response)
      modifies this
      ensures State() == Step(old(State()), Respond(request, response), maxAttempts)
    {
      if request !in requests {
        return;
      }
      var r := requests[request];
      requests := requests - {request};
      if response.AbortError? || !IsAuthorized(r.job, r.gen) {
        return;
      }
      abortController := None;
      match response {
        case Found(id, status) =>
          HandleJobResult(r.job, r.gen, id, status);
          if !r.manual {
            if status in {Completed, Failed, Cancelled} {
              StopPolling();
            } else {
              AfterAttempt(r.job, r.gen);
            }
          }
        case OtherError =>
          if !r.manual {
            AfterAttempt(r.job, r.gen);
          }
      }
    }
  }

  // ----- The manager -------------------------------------------------------------------------------------

  /** Hands out controllers; `created` is every controller it ever made, kept as history. */
  class PollingLifecycleManager {
    const maxAttempts: int
    var currentInstance: ArtworkPollingController?
    ghost var created: set<ArtworkPollingController>

    /** Only the current instance may still be undisposed. */
    ghost predicate Valid()
      reads this, created
    {
      && (currentInstance != null ==> currentInstance in created)
      && forall c :: c in created && c != currentInstance ==> c.isDisposed
    }

    constructor (maxAttempts: int)
      ensures Valid() && created == {} && currentInstance == null
    {
      this.maxAttempts := maxAttempts;
      currentInstance, created := null, {};
    }

    method GetController() returns (c: ArtworkPollingController)
      requires Valid()
      modifies this`currentInstance, this`created
      ensures Valid() && c == currentInstance && !c.isDisposed
      ensures fresh(created - old(created)) && old(created) <= created
    {
      if currentInstance == null || currentInstance.isDisposed {
        var instance := new ArtworkPollingController(maxAttempts);
        assert instance.State().disposed == instance.isDisposed;
        currentInstance, created := instance, created + {instance};
      }
      c := currentInstance;
    }

    method OnSetup() returns (c: ArtworkPollingController)
      requires Valid()
      modifies this`currentInstance, this`created, currentInstance
      ensures Valid() && c == currentInstance && fresh(c) && !c.isDisposed
      ensures created == old(created) + {c}
    {
      if currentInstance != null && !currentInstance.isDisposed {
        currentInstance.DisposeController();
        assert currentInstance.State().disposed == currentInstance.isDisposed;
      }
      c := new ArtworkPollingController(maxAttempts);
      assert c.State().disposed == c.isDisposed;
      currentInstance, created := c, created + {c};
    }

    method OnCleanup(instance: ArtworkPollingController)
      requires Valid()
      modifies this`currentInstance, instance
      ensures Valid() && instance.isDisposed && created == old(created)
      ensures currentInstance == if old(currentInstance) == instance then null else old(currentInstance)
    {
      instance.DisposeController();
      assert instance.State().disposed == instance.isDisposed;
      if currentInstance == instance {
        currentInstance := null;
      }
    }
  }
}
