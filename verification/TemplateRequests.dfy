/**
  The controller that decides whether a late detail or conflict response still
  concerns what the user looks at, as a machine over its calls and as a class.
*/
module TemplateRequests {
  import opened Basics

  datatype Kind = Detail | Conflict

  /** What a caller was handed: its request id, its template, and its abort controller. */
  datatype Ticket = Ticket(kind: Kind, template: Uuid, id: nat, controller: nat)

  /** The fields of the controller, then the aborted controllers, the next one, and every ticket handed out. */
  datatype Lifecycle = Lifecycle(
    org: Uuid,
    client: Uuid,
    template: Option<Uuid>,
    detailId: nat,
    conflictId: nat,
    detailController: Option<nat>,
    conflictController: Option<nat>,
    aborted: set<nat>,
    next: nat,
    issued: seq<Ticket>)

  datatype Event =
    | UpdateContext(org: Uuid, client: Uuid, template: Option<Uuid>)
    | StartDetail(target: Uuid)
    | StartConflict(target: Uuid)
    | AbortAll

  function New(org: Uuid, client: Uuid): Lifecycle {
    Lifecycle(org, client, None, 0, 0, None, None, {}, 0, [])
  }

  /** `isCurrent` as the ticket's holder asks it. */
  predicate IsCurrent(l: Lifecycle, t: Ticket) {
    && l.template == Some(t.template)
    && (if t.kind.Detail? then l.detailId else l.conflictId) == t.id
    && t.controller !in l.aborted
  }

  function One(controller: Option<nat>): set<nat> {
    if controller.Some? then {controller.value} else {}
  }

  function AbortBoth(l: Lifecycle): Lifecycle {
    l.(aborted := l.aborted + One(l.detailController) + One(l.conflictController),
       detailController := None, conflictController := None)
  }

  function Step(l: Lifecycle, e: Event): Lifecycle {
    match e
    case UpdateContext(org, client, template) =>
      var moved := l.(org := org, client := client, template := template);
      if l.org != org || l.client != client || l.template != template then AbortBoth(moved) else moved
    case StartDetail(target) =>
      l.(aborted := l.aborted + One(l.detailController) + One(l.conflictController),
         detailController := Some(l.next), next := l.next + 1, detailId := l.detailId + 1, template := Some(target),
         issued := l.issued + [Ticket(Detail, target, l.detailId + 1, l.next)])
    case StartConflict(target) =>
      l.(aborted := l.aborted + One(l.conflictController),
         conflictController := Some(l.next), next := l.next + 1, conflictId := l.conflictId + 1,
         template := Some(target),
         issued := l.issued + [Ticket(Conflict, target, l.conflictId + 1, l.next)])
    case AbortAll => AbortBoth(l)
  }

  function Run(l: Lifecycle, events: seq<Event>): Lifecycle
    decreases |events|
  {
    if events == [] then l else Run(Step(l, events[0]), events[1..])
  }

  // ----- Invariant ---------------------------------------------------------------------------

  /** Ids count up, and a request not aborted is the latest of its kind. */
  predicate TicketOk(l: Lifecycle, t: Ticket) {
    && t.controller < l.next
    && t.id <= (if t.kind.Detail? then l.detailId else l.conflictId)
    && (t.controller !in l.aborted ==>
          if t.kind.Detail? then l.detailController == Some(t.controller) && l.detailId == t.id
          else l.conflictController == Some(t.controller) && l.conflictId == t.id && l.template == Some(t.template))
  }

  predicate Ok(l: Lifecycle) {
    && (forall i :: 0 <= i < |l.issued| ==> TicketOk(l, l.issued[i]))
    && IdsRise(l)
    && (forall c :: c in l.aborted ==> c < l.next)
    && (l.detailController.Some? ==> l.detailController.value < l.next)
    && (l.conflictController.Some? ==>
        l.conflictController.value < l.next && l.conflictController != l.detailController)
  }

  /** A detail request not aborted is of the template looked at. */
  predicate DetailOk(l: Lifecycle) {
    forall i :: 0 <= i < |l.issued| && l.issued[i].kind.Detail? && l.issued[i].controller !in l.aborted ==>
      l.template == Some(l.issued[i].template)
  }

  /** The assumption: a conflict request is started only for the template looked at. */
  predicate Focused(l: Lifecycle, e: Event) {
    match e
    case StartConflict(target) => l.template == Some(target)
    case _ => true
  }

  predicate FocusedRun(l: Lifecycle, events: seq<Event>)
    decreases |events|
  {
    events == [] || (Focused(l, events[0]) && FocusedRun(Step(l, events[0]), events[1..]))
  }

  lemma StepTicket(l: Lifecycle, e: Event, t: Ticket)
    requires Ok(l) && TicketOk(l, t)
    ensures TicketOk(Step(l, e), t)
  {
  }

  /** New tickets get new ids of their kind. */
  predicate IdsRise(l: Lifecycle) {
    forall i, k :: 0 <= i < k < |l.issued| && l.issued[i].kind == l.issued[k].kind ==> l.issued[i].id < l.issued[k].id
  }

  lemma StepIds(l: Lifecycle, e: Event)
    requires Ok(l)
    ensures IdsRise(Step(l, e))
  {
    assert forall i :: 0 <= i < |l.issued| ==> TicketOk(l, l.issued[i]);
  }

  lemma StepOk(l: Lifecycle, e: Event)
    requires Ok(l)
    ensures Ok(Step(l, e))
    ensures DetailOk(l) && Focused(l, e) ==> DetailOk(Step(l, e))
    ensures l.issued <= Step(l, e).issued && l.aborted <= Step(l, e).aborted
  {
    var after := Step(l, e);
    forall i | 0 <= i < |after.issued| ensures TicketOk(after, after.issued[i]) {
      if i < |l.issued| {
        StepTicket(l, e, l.issued[i]);
      }
    }
    StepIds(l, e);
  }

  lemma {:induction false} RunOk(l: Lifecycle, events: seq<Event>)
    requires Ok(l)
    ensures Ok(Run(l, events))
    decreases |events|
  {
    if events != [] {
      StepOk(l, events[0]);
      RunOk(Step(l, events[0]), events[1..]);
    }
  }

  // ----- The promises ---------------------------------------------------------------------------

  /** At most one detail request and at most one conflict request is current at any time. */
  lemma OneCurrentOfEachKind(org: Uuid, client: Uuid, events: seq<Event>, i: nat, k: nat)
    requires var l := Run(New(org, client), events);
      && i < |l.issued| && k < |l.issued| && l.issued[i].kind == l.issued[k].kind
      && IsCurrent(l, l.issued[i]) && IsCurrent(l, l.issued[k])
    ensures i == k
  {
    RunOk(New(org, client), events);
  }

  /** A conflict request is current exactly until it is aborted, and so never becomes current again. */
  lemma {:induction false} ConflictNeverReturns(l: Lifecycle, events: seq<Event>, i: nat)
    requires Ok(l) && i < |l.issued| && l.issued[i].kind.Conflict? && !IsCurrent(l, l.issued[i])
    ensures i < |Run(l, events).issued| && Run(l, events).issued[i] == l.issued[i]
    ensures !IsCurrent(Run(l, events), l.issued[i])
    decreases |events|
  {
    if events != [] {
      StepOk(l, events[0]);
      ConflictNeverReturns(Step(l, events[0]), events[1..], i);
    }
  }

  /** The same holds for detail requests when conflict requests are started only for the template looked at. */
  lemma {:induction false} DetailNeverReturns(l: Lifecycle, events: seq<Event>, i: nat)
    requires Ok(l) && DetailOk(l) && FocusedRun(l, events)
    requires i < |l.issued| && l.issued[i].kind.Detail? && !IsCurrent(l, l.issued[i])
    ensures i < |Run(l, events).issued| && Run(l, events).issued[i] == l.issued[i]
    ensures !IsCurrent(Run(l, events), l.issued[i])
    decreases |events|
  {
    if events != [] {
      StepOk(l, events[0]);
      DetailNeverReturns(Step(l, events[0]), events[1..], i);
    }
  }

  /**
    Exactly a conflict request for another template leaves the current detail
    request out of sight without aborting it, free to come back.
  */
  lemma OutOfSightExactlyWhen(l: Lifecycle, e: Event, t: Ticket)
    requires Ok(l) && t in l.issued && t.kind.Detail? && IsCurrent(l, t)
    ensures !IsCurrent(Step(l, e), t) && t.controller !in Step(l, e).aborted
       <==> e.StartConflict? && e.target != t.template
  {
  }

  /** A change of tenant, client or template aborts every request; a repeat of the same aborts none. */
  lemma ContextMeans(l: Lifecycle, org: Uuid, client: Uuid, template: Option<Uuid>)
    requires Ok(l)
    ensures var after := Step(l, UpdateContext(org, client, template));
      && after.org == org && after.client == client && after.template == template && after.issued == l.issued
      && (if l.org == org && l.client == client && l.template == template then after == l
          else forall i :: 0 <= i < |l.issued| ==>
            l.issued[i].controller in after.aborted && !IsCurrent(after, l.issued[i]))
  {
    assert forall i :: 0 <= i < |l.issued| ==> TicketOk(l, l.issued[i]);
  }

  /** The other requests of this kind, or of both, are no longer current. */
  predicate Outdates(l: Lifecycle, after: Lifecycle, all: bool) {
    forall i :: 0 <= i < |l.issued| && (all || l.issued[i].kind.Conflict?) ==>
      l.issued[i].controller in after.aborted && !IsCurrent(after, l.issued[i])
  }

  /**
    A detail request is handed out for its template, current, and outdates all
    earlier requests; a conflict request outdates the earlier conflict requests
    only; aborting outdates all.
  */
  lemma RequestsMean(l: Lifecycle, target: Uuid)
    requires Ok(l)
    ensures var after := Step(l, StartDetail(target));
      && after.issued == l.issued + [after.issued[|l.issued|]] && after.issued[|l.issued|].kind == Detail
      && after.issued[|l.issued|].template == target && IsCurrent(after, after.issued[|l.issued|])
      && Outdates(l, after, true)
    ensures var after := Step(l, StartConflict(target));
      && after.issued == l.issued + [after.issued[|l.issued|]] && after.issued[|l.issued|].kind == Conflict
      && after.issued[|l.issued|].template == target && IsCurrent(after, after.issued[|l.issued|])
      && Outdates(l, after, false)
      && (l.template == Some(target) ==>
            forall i :: 0 <= i < |l.issued| && l.issued[i].kind.Detail? && IsCurrent(l, l.issued[i]) ==>
              IsCurrent(after, l.issued[i]))
    ensures Outdates(l, Step(l, AbortAll), true) && Step(l, AbortAll).issued == l.issued
  {
    assert forall i :: 0 <= i < |l.issued| ==> TicketOk(l, l.issued[i]);
  }

  /** And back it comes. */
  lemma DetailMayReturn(org: Uuid, client: Uuid)
    ensures var l := Step(New(org, client), StartDetail(1));
      var away, back := Step(l, StartConflict(2)), Step(Step(l, StartConflict(2)), StartConflict(1));
      |l.issued| == 1 && IsCurrent(l, l.issued[0]) && !IsCurrent(away, l.issued[0]) && IsCurrent(back, l.issued[0])
  {
  }

  // ----- The class ----------------------------------------------------------------------------------

  class TemplateDetailLifecycleController {
    var activeOrg: Uuid
    var activeClientId: Uuid
    var activeTemplateId: Option<Uuid>
    var detailRequestId: nat
    var conflictRequestId: nat
    var detailAbortController: Option<nat>
    var conflictAbortController: Option<nat>

    // the surroundings
    var aborted: set<nat>
    var next: nat
    var issued: seq<Ticket>

    function State(): Lifecycle
      reads this
    {
      Lifecycle(activeOrg, activeClientId, activeTemplateId, detailRequestId, conflictRequestId,
                detailAbortController, conflictAbortController, aborted, next, issued)
    }

    constructor (org: Uuid, client: Uuid)
      ensures State() == New(org, client)
    {
      activeOrg, activeClientId, activeTemplateId := org, client, None;
      detailRequestId, conflictRequestId := 0, 0;
      detailAbortController, conflictAbortController := None, None;
      aborted, next, issued := {}, 0, [];
    }

    method AbortRequests()
      modifies this
      ensures State() == Step(old(State()), AbortAll)
    {
      if detailAbortController.Some? {
        aborted := aborted + {detailAbortController.value};
        detailAbortController := None;
      }
      if conflictAbortController.Some? {
        aborted := aborted + {conflictAbortController.value};
        conflictAbortController := None;
      }
    }

    method SwitchContext(org: Uuid, client: Uuid, template: Option<Uuid>)
      modifies this
      ensures State() == Step(old(State()), UpdateContext(org, client, template))
    {
      var clientChanged := activeOrg != org || activeClientId != client;
      var templateChanged := activeTemplateId != template;
      activeOrg, activeClientId, activeTemplateId := org, client, template;
      if clientChanged || templateChanged {
        AbortRequests();
      }
    }

    method StartDetailRequest(target: Uuid) returns (ticket: Ticket)
      modifies this
      ensures State() == Step(old(State()), StartDetail(target))
      ensures ticket == issued[|issued| - 1] && (Ok(old(State())) ==> IsCurrent(State(), ticket))
    {
      aborted := aborted + One(detailAbortController) + One(conflictAbortController);
      detailAbortController := Some(next);
      detailRequestId := detailRequestId + 1;
      activeTemplateId := Some(target);
      ticket := Ticket(Detail, target, detailRequestId, next);
      issued := issued + [ticket];
      next := next + 1;
    }

    method StartConflictRequest(target: Uuid) returns (ticket: Ticket)
      modifies this
      ensures State() == Step(old(State()), StartConflict(target))
      ensures ticket == issued[|issued| - 1] && (Ok(old(State())) ==> IsCurrent(State(), ticket))
    {
      aborted := aborted + One(conflictAbortController);
      conflictAbortController := Some(next);
      conflictRequestId := conflictRequestId + 1;
      activeTemplateId := Some(target);
      ticket := Ticket(Conflict, target, conflictRequestId, next);
      issued := issued + [ticket];
      next := next + 1;
    }
  }
}
