/**
  The batch polling controller, driven by any sequence of calls, timer firings
  and responses.  Unlike the artwork controller it clears its abort controller
  after every response, stale ones included, which costs request exclusivity.
*/
module BatchPolling {
  import opened Basics

  datatype Timer = Timer(batch: Uuid, gen: nat)

  /** A fetch not answered yet; `live` until its controller is aborted. */
  datatype Request = Request(batch: Uuid, gen: nat, live: bool)

  datatype Response = Found(terminal: bool) | Failure

  datatype Call =
    | OnUpdated(batch: Uuid, gen: nat)
    | OnTerminal(batch: Uuid, gen: nat)
    | OnTimeout(batch: Uuid, gen: nat)

  datatype Poller = Poller(
    generation: nat,
    authorized: Option<Uuid>,
    timerId: Option<nat>,
    controller: Option<nat>,
    attempts: nat,
    disposed: bool,
    terminal: set<Uuid>,
    armed: map<nat, Timer>,
    requests: map<nat, Request>,
    calls: seq<Call>,
    fetches: nat,
    handles: nat)

  datatype Event = Start(batch: Uuid) | Stop | Dispose | Fire(timer: nat) | Respond(request: nat, response: Response)

  const New := Poller(0, None, None, None, 0, false, {}, map[], map[], [], 0, 0)

  predicate Authorized(p: Poller, batch: Uuid, gen: nat) {
    !p.disposed && p.generation == gen && p.authorized == Some(batch)
  }

  function StopPolling(p: Poller): Poller {
    p.(armed := if p.timerId.Some? then p.armed - {p.timerId.value} else p.armed,
       timerId := None,
       requests := if p.controller.Some? && p.controller.value in p.requests
         then p.requests[p.controller.value := p.requests[p.controller.value].(live := false)] else p.requests,
       controller := None,
       authorized := None)
  }

  function ScheduleNextTick(p: Poller, gen: nat, batch: Uuid): Poller {
    if p.disposed || p.generation != gen then p
    else p.(timerId := Some(p.handles), armed := p.armed[p.handles := Timer(batch, gen)], handles := p.handles + 1)
  }

  function StartPolling(p: Poller, batch: Uuid): Poller {
    if p.disposed then p
    else
      var s := StopPolling(p);
      ScheduleNextTick(s.(generation := s.generation + 1, authorized := Some(batch), attempts := 0, fetches := 0),
                       s.generation + 1, batch)
  }

  function ExecuteTick(p: Poller, timer: nat, maxAttempts: int): Poller {
    if timer !in p.armed then p
    else
      var t := p.armed[timer];
      var q := p.(armed := p.armed - {timer}, timerId := None);
      if !Authorized(q, t.batch, t.gen) then q
      else if q.attempts >= maxAttempts then
        StopPolling(q).(calls := q.calls + [OnTimeout(t.batch, t.gen)])
      else
        q.(attempts := q.attempts + 1, fetches := q.fetches + 1, controller := Some(q.handles),
           requests := q.requests[q.handles := Request(t.batch, t.gen, true)], handles := q.handles + 1)
  }

  function Settle(p: Poller, batch: Uuid, gen: nat): Poller {
    StopPolling(
      if batch in p.terminal then p
      else p.(terminal := p.terminal + {batch}, calls := p.calls + [OnTerminal(batch, gen)]))
  }

  /** The continuation of a fetch; its `finally` clears the controller whatever it is by then. */
  function Hear(p: Poller, request: nat, response: Response): Poller {
    if request !in p.requests then p
    else
      var r := p.requests[request];
      var q := p.(requests := p.requests - {request});
      var after :=
        if !Authorized(q, r.batch, r.gen) || (response.Failure? && !r.live) then q
        else
          match response
          case Found(terminal) =>
            var u := q.(calls := q.calls + [OnUpdated(r.batch, r.gen)]);
            if terminal then Settle(u, r.batch, r.gen) else ScheduleNextTick(u, r.gen, r.batch)
          case Failure => ScheduleNextTick(q, r.gen, r.batch);
      after.(controller := None)
  }

  function Step(p: Poller, e: Event, maxAttempts: int): Poller {
    match e
    case Start(batch) => StartPolling(p, batch)
    case Stop => StopPolling(p)
    case Dispose => StopPolling(p.(disposed := true)).(terminal := {})
    case Fire(timer) => ExecuteTick(p, timer, maxAttempts)
    case Respond(request, response) => Hear(p, request, response)
  }

  function Run(p: Poller, events: seq<Event>, maxAttempts: int): Poller
    decreases |events|
  {
    if events == [] then p else Run(Step(p, events[0], maxAttempts), events[1..], maxAttempts)
  }

  // ----- Invariant ------------------------------------------------------------------------------

  function Most(maxAttempts: int): nat {
    if maxAttempts > 0 then maxAttempts else 0
  }

  /** The armed timer is the one remembered, is authorized, and excludes a request of its generation. */
  predicate TimersOk(p: Poller) {
    && (forall t :: t in p.armed ==>
        p.timerId == Some(t) && t < p.handles && Authorized(p, p.armed[t].batch, p.armed[t].gen))
    && (p.armed != map[] ==> forall r :: r in p.requests ==> p.requests[r].gen != p.generation)
  }

  /** A generation has at most one unanswered request. */
  predicate RequestsOk(p: Poller) {
    && (forall r :: r in p.requests ==> r < p.handles && p.requests[r].gen <= p.generation)
    && (forall r, q :: r in p.requests && q in p.requests && p.requests[r].gen == p.requests[q].gen ==> r == q)
  }

  predicate Ok(p: Poller, maxAttempts: int) {
    TimersOk(p) && RequestsOk(p) && p.fetches == p.attempts <= Most(maxAttempts)
  }

  function Terminals(calls: seq<Call>, batch: Uuid): nat {
    if calls == [] then 0
    else
      var last := calls[|calls| - 1];
      Terminals(calls[..|calls| - 1], batch) + (if last.OnTerminal? && last.batch == batch then 1 else 0)
  }

  ghost predicate TerminalsOk(p: Poller) {
    !p.disposed ==> forall b :: Terminals(p.calls, b) == (if b in p.terminal then 1 else 0)
  }

  lemma StopOk(p: Poller, maxAttempts: int)
    requires Ok(p, maxAttempts)
    ensures Ok(StopPolling(p), maxAttempts) && StopPolling(p).armed == map[]
  {
  }

  lemma ScheduleOk(p: Poller, gen: nat, batch: Uuid, maxAttempts: int)
    requires Ok(p, maxAttempts) && p.armed == map[] && (gen == p.generation ==> p.authorized == Some(batch))
    requires forall r :: r in p.requests ==> p.requests[r].gen != p.generation
    ensures Ok(ScheduleNextTick(p, gen, batch), maxAttempts)
  {
  }

  lemma TickOk(p: Poller, timer: nat, maxAttempts: int)
    requires Ok(p, maxAttempts)
    ensures Ok(ExecuteTick(p, timer, maxAttempts), maxAttempts)
  {
    if timer in p.armed {
      var q := p.(armed := p.armed - {timer}, timerId := None);
      assert q.armed == map[];
      assert Ok(q, maxAttempts);
      StopOk(q, maxAttempts);
    }
  }

  lemma HearOk(p: Poller, request: nat, response: Response, maxAttempts: int)
    requires Ok(p, maxAttempts)
    ensures Ok(Hear(p, request, response), maxAttempts)
  {
    if request in p.requests {
      var r := p.requests[request];
      var q := p.(requests := p.requests - {request});
      assert Ok(q, maxAttempts);
      if Authorized(q, r.batch, r.gen) {
        assert q.armed == map[];
        match response
        case Found(terminal) =>
          var u := q.(calls := q.calls + [OnUpdated(r.batch, r.gen)]);
          assert Ok(u, maxAttempts);
          if terminal {
            StopOk(u.(terminal := u.terminal + {r.batch}, calls := u.calls + [OnTerminal(r.batch, r.gen)]),
                   maxAttempts);
            StopOk(u, maxAttempts);
          } else {
            ScheduleOk(u, r.gen, r.batch, maxAttempts);
          }
        case Failure => ScheduleOk(q, r.gen, r.batch, maxAttempts);
      }
    }
  }

  lemma StepOk(p: Poller, e: Event, maxAttempts: int)
    requires Ok(p, maxAttempts)
    ensures Ok(Step(p, e, maxAttempts), maxAttempts)
  {
    StopOk(p, maxAttempts);
    match e
    case Start(batch) =>
      var s := StopPolling(p);
      if !p.disposed {
        ScheduleOk(s.(generation := s.generation + 1, authorized := Some(batch), attempts := 0, fetches := 0),
                   s.generation + 1, batch, maxAttempts);
      }
    case Stop =>
    case Dispose =>
    case Fire(timer) => TickOk(p, timer, maxAttempts);
    case Respond(request, response) => HearOk(p, request, response, maxAttempts);
  }

  lemma AddCall(calls: seq<Call>, c: Call, batch: Uuid)
    ensures Terminals(calls + [c], batch)
         == Terminals(calls, batch) + (if c.OnTerminal? && c.batch == batch then 1 else 0)
  {
    assert (calls + [c])[..|calls|] == calls;
  }

  lemma OtherCall(p: Poller, c: Call)
    requires TerminalsOk(p) && !c.OnTerminal?
    ensures TerminalsOk(p.(calls := p.calls + [c]))
  {
    forall b ensures Terminals(p.calls + [c], b) == Terminals(p.calls, b) {
      AddCall(p.calls, c, b);
    }
  }

  lemma SettleTerminals(p: Poller, batch: Uuid, gen: nat)
    requires TerminalsOk(p)
    ensures TerminalsOk(Settle(p, batch, gen))
  {
    forall b
      ensures Terminals(p.calls + [OnTerminal(batch, gen)], b) == Terminals(p.calls, b) + (if b == batch then 1 else 0)
    {
      AddCall(p.calls, OnTerminal(batch, gen), b);
    }
  }

  lemma StepTerminals(p: Poller, e: Event, maxAttempts: int)
    requires TerminalsOk(p)
    ensures TerminalsOk(Step(p, e, maxAttempts))
  {
    match e
    case Fire(timer) => if timer in p.armed { OtherCall(p, OnTimeout(p.armed[timer].batch, p.armed[timer].gen)); }
    case Respond(request, _) =>
      if request in p.requests {
        var r := p.requests[request];
        OtherCall(p, OnUpdated(r.batch, r.gen));
        SettleTerminals(p.(requests := p.requests - {request}, calls := p.calls + [OnUpdated(r.batch, r.gen)]),
                        r.batch, r.gen);
      }
    case _ =>
  }

  lemma {:induction false} RunOk(p: Poller, events: seq<Event>, maxAttempts: int)
    requires Ok(p, maxAttempts) && TerminalsOk(p)
    ensures Ok(Run(p, events, maxAttempts), maxAttempts) && TerminalsOk(Run(p, events, maxAttempts))
    decreases |events|
  {
    if events != [] {
      StepOk(p, events[0], maxAttempts);
      StepTerminals(p, events[0], maxAttempts);
      RunOk(Step(p, events[0], maxAttempts), events[1..], maxAttempts);
    }
  }

  // ----- The promises -------------------------------------------------------------------------------

  /** At most one timer is armed, and at most one request of the current generation is unanswered, not both. */
  lemma OneOfEachGeneration(events: seq<Event>, maxAttempts: int)
    ensures var p := Run(New, events, maxAttempts);
      && (forall t, u :: t in p.armed && u in p.armed ==> t == u)
      && (forall r, q :: r in p.requests && q in p.requests && p.requests[r].gen == p.requests[q].gen ==> r == q)
      && (p.armed != map[] ==> forall r :: r in p.requests ==> p.requests[r].gen != p.generation)
  {
    RunOk(New, events, maxAttempts);
  }

  /** What an event is about to speak for: an armed timer or an unanswered request. */
  predicate SpeaksFor(p: Poller, e: Event, batch: Uuid, gen: nat) {
    match e
    case Fire(timer) => timer in p.armed && p.armed[timer] == Timer(batch, gen)
    case Respond(request, _) =>
      request in p.requests && p.requests[request].batch == batch && p.requests[request].gen == gen
    case _ => false
  }

  /** Callbacks are made only for the current batch and generation, before disposal. */
  lemma CallbacksAreCurrent(p: Poller, e: Event, maxAttempts: int)
    ensures var q := Step(p, e, maxAttempts);
      && p.calls <= q.calls
      && forall k :: |p.calls| <= k < |q.calls| ==>
           Authorized(p, q.calls[k].batch, q.calls[k].gen) && SpeaksFor(p, e, q.calls[k].batch, q.calls[k].gen)
  {
  }

  /** The terminal effect fires at most once per batch before disposal. */
  lemma TerminalOnce(events: seq<Event>, maxAttempts: int, batch: Uuid)
    requires !Run(New, events, maxAttempts).disposed
    ensures Terminals(Run(New, events, maxAttempts).calls, batch) <= 1
  {
    RunOk(New, events, maxAttempts);
  }

  /** A cycle makes one fetch per counted attempt, so at most maxAttempts. */
  lemma FetchesAreBounded(events: seq<Event>, maxAttempts: int)
    ensures var p := Run(New, events, maxAttempts); p.fetches == p.attempts <= Most(maxAttempts)
  {
    RunOk(New, events, maxAttempts);
  }

  lemma StepDisposed(p: Poller, e: Event, maxAttempts: int)
    requires Ok(p, maxAttempts) && p.disposed
    ensures var q := Step(p, e, maxAttempts);
      q.disposed && q.calls == p.calls && q.armed == map[] && q.fetches == p.fetches
  {
    assert p.armed == map[];
  }

  /** A disposed controller arms no timer, fetches nothing and calls nobody. */
  lemma {:induction false} DisposedForever(p: Poller, events: seq<Event>, maxAttempts: int)
    requires Ok(p, maxAttempts) && p.disposed
    ensures var q := Run(p, events, maxAttempts);
      q.disposed && q.calls == p.calls && q.armed == map[] && q.fetches == p.fetches
    decreases |events|
  {
    if events != [] {
      StepOk(p, events[0], maxAttempts);
      StepDisposed(p, events[0], maxAttempts);
      DisposedForever(Step(p, events[0], maxAttempts), events[1..], maxAttempts);
    } else {
      assert p.armed == map[];
    }
  }

  lemma RunTwo(p: Poller, a: Event, b: Event, maxAttempts: int)
    ensures Run(p, [a, b], maxAttempts) == Step(Step(p, a, maxAttempts), b, maxAttempts)
  {
    assert [a, b][1..] == [b] && [b][1..] == [];
    assert Run(Step(p, a, maxAttempts), [b], maxAttempts) == Step(Step(p, a, maxAttempts), b, maxAttempts);
  }

  lemma {:induction false} RunSplit(p: Poller, before: seq<Event>, after: seq<Event>, maxAttempts: int)
    ensures Run(p, before + after, maxAttempts) == Run(Run(p, before, maxAttempts), after, maxAttempts)
    decreases |before|
  {
    if before == [] {
      assert before + after == after;
    } else {
      assert (before + after)[1..] == before[1..] + after;
      RunSplit(Step(p, before[0], maxAttempts), before[1..], after, maxAttempts);
    }
  }

  // ----- When at most one request is live ---------------------------------------------------------------

  /** Every live request is the one whose controller is remembered, and of the current generation. */
  predicate Sole(p: Poller) {
    forall r :: r in p.requests && p.requests[r].live ==> p.controller == Some(r) && p.requests[r].gen == p.generation
  }

  /** The event answers one pending request while another one is live. */
  predicate AnswersBeside(p: Poller, e: Event) {
    e.Respond? && e.request in p.requests && exists q :: q in p.requests && q != e.request && p.requests[q].live
  }

  lemma HearSole(p: Poller, request: nat, response: Response, maxAttempts: int)
    requires Ok(p, maxAttempts) && Sole(p) && request in p.requests
    ensures Sole(Hear(p, request, response)) <==> !AnswersBeside(p, Respond(request, response))
  {
    var r := p.requests[request];
    if AnswersBeside(p, Respond(request, response)) {
      var q :| q in p.requests && q != request && p.requests[q].live;
      assert r.gen != p.generation;
      assert q in Hear(p, request, response).requests;
    } else {
      assert forall q :: q in Hear(p, request, response).requests ==>
        q in p.requests && Hear(p, request, response).requests[q].live == p.requests[q].live == false;
    }
  }

  lemma FireSole(p: Poller, timer: nat, maxAttempts: int)
    requires Ok(p, maxAttempts) && Sole(p)
    ensures Sole(ExecuteTick(p, timer, maxAttempts))
  {
    if timer in p.armed {
      assert forall r :: r in p.requests ==> !p.requests[r].live;
    }
  }

  /** A step keeps the live request unique and remembered exactly unless it answers a request beside it. */
  lemma SoleExactlyWhen(p: Poller, e: Event, maxAttempts: int)
    requires Ok(p, maxAttempts) && Sole(p)
    ensures Sole(Step(p, e, maxAttempts)) <==> !AnswersBeside(p, e)
  {
    match e
    case Fire(timer) => FireSole(p, timer, maxAttempts);
    case Respond(request, response) => if request in p.requests { HearSole(p, request, response, maxAttempts); }
    case _ =>
  }

  /** No response of the run comes while another request is live. */
  predicate AnsweredAlone(p: Poller, events: seq<Event>, maxAttempts: int)
    decreases |events|
  {
    events == [] ||
    (!AnswersBeside(p, events[0]) && AnsweredAlone(Step(p, events[0], maxAttempts), events[1..], maxAttempts))
  }

  lemma {:induction false} RunSole(p: Poller, events: seq<Event>, maxAttempts: int)
    requires Ok(p, maxAttempts) && Sole(p) && AnsweredAlone(p, events, maxAttempts)
    ensures Sole(Run(p, events, maxAttempts))
    decreases |events|
  {
    if events != [] {
      SoleExactlyWhen(p, events[0], maxAttempts);
      StepOk(p, events[0], maxAttempts);
      RunSole(Step(p, events[0], maxAttempts), events[1..], maxAttempts);
    }
  }

  /** At most one request is live, in every run without such a response. */
  lemma OneLiveRequest(events: seq<Event>, maxAttempts: int, r: nat, q: nat)
    requires AnsweredAlone(New, events, maxAttempts)
    requires var p := Run(New, events, maxAttempts);
      r in p.requests && q in p.requests && p.requests[r].live && p.requests[q].live
    ensures r == q
  {
    RunSole(New, events, maxAttempts);
  }

  /**
    Such a response always lets requests overlap: the live request loses its
    controller, so that the next start fails to abort it and sends a second one.
  */
  lemma AnswerBesideOverlaps(p: Poller, request: nat, response: Response, q: nat, batch: Uuid, maxAttempts: int)
    requires Ok(p, maxAttempts) && Sole(p) && !p.disposed && maxAttempts > 0
    requires request in p.requests && q in p.requests && q != request && p.requests[q].live
    ensures var late := Run(p, [Respond(request, response)] + [Start(batch), Fire(p.handles)], maxAttempts);
      && q in late.requests && late.requests[q].live
      && p.handles + 1 != q && p.handles + 1 in late.requests && late.requests[p.handles + 1].live
  {
    assert p.requests[request].gen != p.generation;
    var answered := Hear(p, request, response);
    assert answered == p.(requests := p.requests - {request}, controller := None);
    var answer := [Respond(request, response)];
    assert answer[1..] == [] && Run(p, answer, maxAttempts) == answered;
    RunSplit(p, answer, [Start(batch), Fire(p.handles)], maxAttempts);
    RunTwo(answered, Start(batch), Fire(p.handles), maxAttempts);
  }

  // ----- What each event does ----------------------------------------------------------------------------

  /** Nothing is authorized or armed, and the remembered request is aborted. */
  predicate Halted(p: Poller, q: Poller) {
    && q.authorized == None && q.timerId == None && q.controller == None
    && (p.timerId.Some? ==> p.timerId.value !in q.armed)
    && q.requests.Keys == p.requests.Keys
    && (forall r :: r in p.requests ==>
          q.requests[r] == Request(p.requests[r].batch, p.requests[r].gen,
                                   p.requests[r].live && p.controller != Some(r)))
  }

  /** A start halts what goes on and arms one timer of a new cycle, unless disposed. */
  lemma StartMeans(p: Poller, batch: Uuid, maxAttempts: int)
    requires Ok(p, maxAttempts)
    ensures var q := Step(p, Start(batch), maxAttempts);
      if p.disposed then q == p
      else
        && Halted(p, q.(authorized := None, timerId := None, armed := q.armed - {p.handles}))
        && q.authorized == Some(batch) && q.generation == p.generation + 1 && q.attempts == 0
        && q.armed == map[p.handles := Timer(batch, p.generation + 1)] && q.timerId == Some(p.handles)
        && q.calls == p.calls && q.terminal == p.terminal && !q.disposed
  {
    StopOk(p, maxAttempts);
  }

  /** A stop halts and calls nobody; a disposal also forgets the terminal batches for good. */
  lemma StopMeans(p: Poller, maxAttempts: int)
    requires Ok(p, maxAttempts)
    ensures var q := Step(p, Stop, maxAttempts);
      Halted(p, q) && q.armed == map[] && q.calls == p.calls && q.terminal == p.terminal && q.disposed == p.disposed
    ensures var q := Step(p, Dispose, maxAttempts);
      Halted(p, q) && q.armed == map[] && q.calls == p.calls && q.terminal == {} && q.disposed
  {
  }

  /** The armed timer sends one request of its cycle, or, with all attempts used up, reports the timeout and stops. */
  lemma FireMeans(p: Poller, timer: nat, maxAttempts: int)
    requires Ok(p, maxAttempts) && timer in p.armed
    ensures var q := Step(p, Fire(timer), maxAttempts);
      var t := p.armed[timer];
      && q.armed == map[]
      && (if p.attempts < maxAttempts then
            && q.attempts == p.attempts + 1 && q.controller == Some(p.handles) && q.authorized == p.authorized
            && q.requests == p.requests[p.handles := Request(t.batch, t.gen, true)] && q.calls == p.calls
          else
            && q.authorized == None && q.requests.Keys == p.requests.Keys && q.attempts == p.attempts
            && q.calls == p.calls + [OnTimeout(t.batch, t.gen)])
  {
  }

  /** The callbacks a response of the current cycle makes. */
  function CallsFor(p: Poller, r: Request, response: Response): seq<Call> {
    match response
    case Found(terminal) =>
      [OnUpdated(r.batch, r.gen)] + if terminal && r.batch !in p.terminal then [OnTerminal(r.batch, r.gen)] else []
    case Failure => []
  }

  /** The response is of the current batch and cycle, and not of an aborted fetch. */
  predicate Counts(p: Poller, request: nat, response: Response) {
    request in p.requests && Authorized(p, p.requests[request].batch, p.requests[request].gen)
    && (response.Found? || p.requests[request].live)
  }

  /**
    A response that counts is reported, and then polling goes on with one armed
    timer, exactly unless the batch has ended; then it stops, and the end is
    reported the first time.  Any other response is dropped.
  */
  lemma RespondMeans(p: Poller, request: nat, response: Response, maxAttempts: int)
    requires Ok(p, maxAttempts) && request in p.requests
    ensures var q := Step(p, Respond(request, response), maxAttempts);
      var r := p.requests[request];
      && q.requests.Keys == p.requests.Keys - {request} && q.controller == None
      && (if !Counts(p, request, response) then
            q == p.(requests := p.requests - {request}, controller := None)
          else
            && q.calls == p.calls + CallsFor(p, r, response) && q.attempts == p.attempts
            && (if response == Found(true) then
                  q.authorized == None && q.armed == map[] && q.terminal == p.terminal + {r.batch}
                else
                  && q.authorized == p.authorized && q.terminal == p.terminal
                  && q.armed == map[p.handles := Timer(r.batch, r.gen)] && q.timerId == Some(p.handles)))
  {
    if Counts(p, request, response) {
      assert p.armed == map[];
      var none: seq<Call> := [];
      assert p.calls + none == p.calls;
      var r := p.requests[request];
      assert p.calls + [OnUpdated(r.batch, r.gen)] + [OnTerminal(r.batch, r.gen)]
          == p.calls + ([OnUpdated(r.batch, r.gen)] + [OnTerminal(r.batch, r.gen)]);
      assert [OnUpdated(r.batch, r.gen)] + none == [OnUpdated(r.batch, r.gen)];
      assert p.terminal + {r.batch} == if r.batch in p.terminal then p.terminal else p.terminal + {r.batch};
    }
  }

  // ----- Requests may overlap ---------------------------------------------------------------------------

  const FirstCycle := [Start(1), Fire(0)]
  const SecondCycle := [Start(1), Fire(2)]
  const LateAnswer := [Respond(1, Failure)]
  const ThirdCycle := [Start(1), Fire(4)]

  lemma TwoCycles(maxAttempts: int)
    requires maxAttempts > 0
    ensures var p := Run(Run(New, FirstCycle, maxAttempts), SecondCycle, maxAttempts);
      && p.requests == map[1 := Request(1, 1, false), 3 := Request(1, 2, true)] && p.controller == Some(3)
      && p.timerId == None && p.armed == map[] && p.generation == 2 && !p.disposed && p.handles == 4
  {
    RunTwo(New, FirstCycle[0], FirstCycle[1], maxAttempts);
    var p := Run(New, FirstCycle, maxAttempts);
    assert p.requests == map[1 := Request(1, 1, true)] && p.controller == Some(1);
    RunTwo(p, SecondCycle[0], SecondCycle[1], maxAttempts);
  }

  /**
    Two requests can be live at once: a stale response clears the controller of
    the current request, which the next start then fails to abort.
  */
  lemma RequestsMayOverlap(maxAttempts: int)
    requires maxAttempts > 0
    ensures var p := Run(New, FirstCycle + SecondCycle + LateAnswer + ThirdCycle, maxAttempts);
      3 in p.requests && 5 in p.requests && p.requests[3].live && p.requests[5].live
  {
    RunSplit(New, FirstCycle + SecondCycle + LateAnswer, ThirdCycle, maxAttempts);
    RunSplit(New, FirstCycle + SecondCycle, LateAnswer, maxAttempts);
    RunSplit(New, FirstCycle, SecondCycle, maxAttempts);
    TwoCycles(maxAttempts);
    var p := Run(New, FirstCycle + SecondCycle, maxAttempts);
    var q := Step(p, LateAnswer[0], maxAttempts);
    assert LateAnswer[1..] == [] && Run(p, LateAnswer, maxAttempts) == q;
    assert q.requests == map[3 := Request(1, 2, true)] && q.controller == None;
    RunTwo(q, ThirdCycle[0], ThirdCycle[1], maxAttempts);
  }

  lemma StopKeepsCalls(p: Poller)
    ensures StopPolling(p).calls == p.calls
  {
  }

  // ----- The class --------------------------------------------------------------------------------------

  class BatchPollingController {
    const maxAttempts: int
    var generation: nat
    var authorizedBatchId: Option<Uuid>
    var timerId: Option<nat>
    var abortController: Option<nat>
    var attempts: nat
    var isDisposed: bool
    var terminalBatchIds: set<Uuid>

    // the surroundings
    var armed: map<nat, Timer>
    var requests: map<nat, Request>
    var calls: seq<Call>
    var fetches: nat
    var handles: nat

    function State(): Poller
      reads this
    {
      Poller(generation, authorizedBatchId, timerId, abortController, attempts, isDisposed, terminalBatchIds,
             armed, requests, calls, fetches, handles)
    }

    constructor (maxAttempts: int)
      ensures State() == New && this.maxAttempts == maxAttempts
    {
      this.maxAttempts := maxAttempts;
      generation, authorizedBatchId, timerId, abortController, attempts := 0, None, None, None, 0;
      isDisposed, terminalBatchIds := false, {};
      armed, requests, calls, fetches, handles := map[], map[], [], 0, 0;
    }

    predicate IsCurrent(gen: nat, batch: Uuid)
      reads this
    {
      !isDisposed && generation == gen && authorizedBatchId == Some(batch)
    }

    method Halt()
      modifies this
      ensures State() == Step(old(State()), Stop, maxAttempts)
    {
      if timerId.Some? {
        armed := armed - {timerId.value};
        timerId := None;
      }
      if abortController.Some? {
        if abortController.value in requests {
          requests := requests[abortController.value := requests[abortController.value].(live := false)];
        }
        abortController := None;
      }
      authorizedBatchId := None;
    }

    method SetTimer(gen: nat, batch: Uuid)
      modifies this`armed, this`timerId, this`handles
      ensures State() == ScheduleNextTick(old(State()), gen, batch)
    {
      if isDisposed || generation != gen {
        return;
      }
      timerId := Some(handles);
      armed := armed[handles := Timer(batch, gen)];
      handles := handles + 1;
    }

    method StartPollingBatch(batch: Uuid)
      modifies this
      ensures State() == Step(old(State()), Start(batch), maxAttempts)
    {
      if isDisposed {
        return;
      }
      Halt();
      generation := generation + 1;
      authorizedBatchId := Some(batch);
      attempts := 0;
      fetches := 0;
      SetTimer(generation, batch);
    }

    method DisposeController()
      modifies this
      ensures State() == Step(old(State()), Dispose, maxAttempts)
    {
      isDisposed := true;
      Halt();
      terminalBatchIds := {};
    }

    method TimerFires(timer: nat)
      modifies this
      ensures State() == Step(old(State()), Fire(timer), maxAttempts)
    {
      hide StopPolling, ScheduleNextTick, StartPolling, Hear;
      if timer !in armed {
        return;
      }
      var t := armed[timer];
      armed := armed - {timer};
      timerId := None;
      if !IsCurrent(t.gen, t.batch) {
        return;
      }
      if attempts >= maxAttempts {
        StopKeepsCalls(State());
        Halt();
        calls := calls + [OnTimeout(t.batch, t.gen)];
        return;
      }
      attempts := attempts + 1;
      abortController := Some(handles);
      requests := requests[handles := Request(t.batch, t.gen, true)];
      handles := handles + 1;
      fetches := fetches + 1;
    }

    method ResponseArrives(request: nat, response: Response)
      modifies this
      ensures State() == Step(old(State()), Respond(request, response), maxAttempts)
    {
      hide StopPolling, ScheduleNextTick;
      if request !in requests {
        return;
      }
      var r := requests[request];
      requests := requests - {request};
      if IsCurrent(r.gen, r.batch) && (response.Found? || r.live) {
        match response {
          case Found(terminal) =>
            calls := calls + [OnUpdated(r.batch, r.gen)];
            if terminal {
              if r.batch !in terminalBatchIds {
                terminalBatchIds := terminalBatchIds + {r.batch};
                calls := calls + [OnTerminal(r.batch, r.gen)];
              }
              Halt();
            } else {
              SetTimer(r.gen, r.batch);
            }
          case Failure => SetTimer(r.gen, r.batch);
        }
      }
      abortController := None;
    }
  }
}
