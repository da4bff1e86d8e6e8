/**
  Editors of one template and the server, in every interleaving: loads, drafts,
  submissions, conflicts, late replies.  An action whose guard fails changes
  nothing.
*/
module TemplateEditors {
  import opened Basics
  import opened TemplateVersions

  /** A version as an editor knows it. */
  datatype Known = Known(number: nat, spec: Spec)

  /** A request for the template's latest version; `from` is the base the conflict started on. */
  datatype Fetch = Fetch(from: nat, answer: Option<Known>)

  datatype Conflicting = Conflicting(from: nat, server: Option<Known>, failed: bool, loading: bool)

  /** A submission on its way; the base's content and whether the draft was reapplied are kept here as history. */
  datatype Saving = Idle | Sent(base: Known, spec: Spec, reapplied: bool, reply: Option<Reply>) | Reloading

  datatype Editor = Editor(
    editing: bool,
    draft: Spec,
    base: Option<Known>,
    detail: Option<Known>,
    reapplied: bool,
    conflict: Option<Conflicting>,
    saving: Saving,
    detailFetch: Option<Fetch>,
    conflictFetch: Option<Fetch>)

  datatype World = World(template: Template, editors: map<Uuid, Editor>)

  datatype Action =
    | Join(editor: Uuid)
    | SetStatus(status: TemplateStatus)
    | LoadDetail(editor: Uuid)
    | ServeDetail(editor: Uuid)
    | DetailArrives(editor: Uuid, ok: bool)
    | StartEditing(editor: Uuid)
    | ReopenEditing(editor: Uuid)
    | Type(editor: Uuid, spec: Spec)
    | CancelEditing(editor: Uuid)
    | SubmitDraft(editor: Uuid)
    | ServeSubmit(editor: Uuid)
    | SubmitArrives(editor: Uuid, ok: bool)
    | RetryConflict(editor: Uuid)
    | ServeConflict(editor: Uuid)
    | ConflictArrives(editor: Uuid, ok: bool)
    | Reapply(editor: Uuid)
    | Discard(editor: Uuid)

  const NewEditor := Editor(false, "", None, None, false, None, Idle, None, None)

  // ----- Conflict rules ---------------------------------------------------------------------

  function NewConflict(from: nat): Conflicting {
    Conflicting(from, None, false, true)
  }

  function FetchFailed(c: Conflicting): Conflicting {
    c.(failed := true, loading := false)
  }

  predicate CanReapply(conflict: Option<Conflicting>) {
    conflict.Some? && !conflict.value.loading && conflict.value.server.Some? && !conflict.value.failed
  }

  predicate CanDiscard(conflict: Option<Conflicting>) {
    conflict.Some? && !conflict.value.loading && conflict.value.server.Some?
  }

  /** The draft differs from its base, was reapplied, or is in conflict. */
  predicate Dirty(e: Editor) {
    e.editing && e.base.Some? && (e.conflict.Some? || e.reapplied || e.draft != e.base.value.spec)
  }

  predicate MaySubmit(e: Editor) {
    if !e.editing then false
    else if e.conflict.Some? then false
    else Dirty(e)
  }

  // ----- Editor steps -------------------------------------------------------------------------

  function EndReload(saving: Saving): Saving {
    if saving.Reloading? then Idle else saving
  }

  /** A new detail request aborts the current requests of both kinds. */
  function StartDetail(e: Editor): Editor {
    e.(detailFetch := Some(Fetch(0, None)), conflictFetch := None, saving := EndReload(e.saving))
  }

  function StartConflict(e: Editor, from: nat): Editor {
    e.(conflictFetch := Some(Fetch(from, None)),
       conflict := Some(
         if e.conflict.Some? then e.conflict.value.(loading := true, failed := false) else NewConflict(from)))
  }

  function ShowLatest(e: Editor, latest: Known): Editor {
    e.(base := Some(latest), draft := latest.spec, conflict := None)
  }

  function DetailLoaded(e: Editor, ok: bool): Editor {
    if e.detailFetch.None? || (ok && e.detailFetch.value.answer.None?) then e
    else if !ok then e.(detailFetch := None)
    else
      var latest := e.detailFetch.value.answer.value;
      ShowLatest(e, latest).(detail := Some(latest), detailFetch := None, editing := false, reapplied := false)
  }

  function ConflictLoaded(e: Editor, ok: bool): Editor {
    if e.conflictFetch.None? || (ok && e.conflictFetch.value.answer.None?) then e
    else
      var fetch := e.conflictFetch.value;
      var done := e.(conflictFetch := None, saving := EndReload(e.saving));
      if ok then
        done.(conflict := Some(Conflicting(fetch.from, fetch.answer, false, false)), detail := fetch.answer)
      else
        done.(conflict := Some(FetchFailed(if e.conflict.Some? then e.conflict.value else NewConflict(fetch.from))))
  }

  function SubmitAnswered(e: Editor, ok: bool): Editor {
    if !e.saving.Sent? || (ok && e.saving.reply.None?) then e
    else if !ok then e.(saving := Idle)
    else
      match e.saving.reply.value
      case Created(_) => StartDetail(e.(editing := false, reapplied := false, conflict := None, saving := Idle))
      case Conflict(_) => StartConflict(e.(saving := Reloading), e.saving.base.number)
      case Inactive => e.(saving := Idle)
      case Missing => e.(saving := Idle)
  }

  function ReapplyDraft(e: Editor): Editor {
    if CanReapply(e.conflict) then e.(base := e.conflict.value.server, reapplied := true, conflict := None) else e
  }

  function DiscardDraft(e: Editor): Editor {
    if CanDiscard(e.conflict) then
      ShowLatest(e, e.conflict.value.server.value).(reapplied := false, editing := false)
    else e
  }

  function StepEditor(e: Editor, a: Action): Editor {
    match a
    case LoadDetail(_) => StartDetail(e)
    case DetailArrives(_, ok) => DetailLoaded(e, ok)
    case StartEditing(_) =>
      if e.editing || e.detail.None? then e else ShowLatest(e, e.detail.value).(editing := true)
    case ReopenEditing(_) => if e.detail.Some? then e.(editing := true) else e
    case Type(_, spec) => if e.editing then e.(draft := spec) else e
    case CancelEditing(_) =>
      if e.editing && e.detail.Some? then ShowLatest(e, e.detail.value).(editing := false) else e
    case SubmitDraft(_) =>
      if MaySubmit(e) && e.saving.Idle? && e.detail.Some? && e.base.Some? then
        e.(saving := Sent(e.base.value, e.draft, e.reapplied, None))
      else e
    case SubmitArrives(_, ok) => SubmitAnswered(e, ok)
    case RetryConflict(_) =>
      if e.conflict.Some? && e.conflict.value.failed && e.detail.Some? then
        StartConflict(e.(saving := EndReload(e.saving)), e.conflict.value.from)
      else e
    case ConflictArrives(_, ok) => ConflictLoaded(e, ok)
    case Reapply(_) => ReapplyDraft(e)
    case Discard(_) => DiscardDraft(e)
    case _ => e
  }

  // ----- Server steps --------------------------------------------------------------------------

  function Current(template: Template): Option<Known> {
    if template.versions == [] then None
    else
      var row := template.versions[LatestAt(template.versions, |template.versions|)];
      Some(Known(row.number, row.spec))
  }

  function Answer(fetch: Option<Fetch>, template: Template): Option<Fetch> {
    if fetch.Some? && fetch.value.answer.None? then Some(fetch.value.(answer := Current(template))) else fetch
  }

  predicate Awaits(e: Editor) {
    e.saving.Sent? && e.saving.reply.None?
  }

  function StepServer(w: World, ed: Uuid, a: Action): World
    requires ed in w.editors
  {
    var e := w.editors[ed];
    match a
    case ServeDetail(_) => w.(editors := w.editors[ed := e.(detailFetch := Answer(e.detailFetch, w.template))])
    case ServeConflict(_) => w.(editors := w.editors[ed := e.(conflictFetch := Answer(e.conflictFetch, w.template))])
    case ServeSubmit(_) =>
      if !Awaits(e) then w
      else
        var r := Submit(w.template, Submission(e.saving.base.number, e.saving.spec));
        World(r.0, w.editors[ed := e.(saving := e.saving.(reply := Some(r.1)))])
    case _ => w
  }

  function Apply(w: World, a: Action): World {
    match a
    case Join(ed) => if ed in w.editors then w else w.(editors := w.editors[ed := NewEditor])
    case SetStatus(status) => w.(template := w.template.(status := status))
    case ServeDetail(ed) => if ed in w.editors then StepServer(w, ed, a) else w
    case ServeSubmit(ed) => if ed in w.editors then StepServer(w, ed, a) else w
    case ServeConflict(ed) => if ed in w.editors then StepServer(w, ed, a) else w
    case _ =>
      if a.editor in w.editors then w.(editors := w.editors[a.editor := StepEditor(w.editors[a.editor], a)]) else w
  }

  function Run(w: World, actions: seq<Action>): World
    decreases |actions|
  {
    if actions == [] then w else Run(Apply(w, actions[0]), actions[1..])
  }

  // ----- Invariants -------------------------------------------------------------------------------

  /** What an editor knows is what the server stores under that number. */
  predicate Real(versions: seq<Version>, known: Option<Known>) {
    known.Some? ==> SpecOf(versions, known.value.number) == Some(known.value.spec)
  }

  predicate FetchReal(versions: seq<Version>, fetch: Option<Fetch>) {
    fetch.Some? ==> Real(versions, fetch.value.answer)
  }

  predicate EditorOk(versions: seq<Version>, e: Editor) {
    && Real(versions, e.base) && Real(versions, e.detail)
    && FetchReal(versions, e.detailFetch) && FetchReal(versions, e.conflictFetch)
    && (e.conflict.Some? ==> Real(versions, e.conflict.value.server))
    && (e.saving.Sent? ==>
          Real(versions, Some(e.saving.base)) && (e.saving.reapplied || e.saving.spec != e.saving.base.spec))
    && (e.conflict.Some? || e.conflictFetch.Some? || e.saving.Sent? ==> e.detail.Some? && e.base.Some?)
  }

  ghost predicate WorldOk(w: World) {
    && Gapless(w.template.versions) && w.template.versions != []
    && forall ed :: ed in w.editors ==> EditorOk(w.template.versions, w.editors[ed])
  }

  lemma DetailLoadedOk(versions: seq<Version>, e: Editor, ok: bool)
    requires EditorOk(versions, e)
    ensures EditorOk(versions, DetailLoaded(e, ok))
  {
  }

  lemma ConflictLoadedOk(versions: seq<Version>, e: Editor, ok: bool)
    requires EditorOk(versions, e)
    ensures EditorOk(versions, ConflictLoaded(e, ok))
  {
  }

  lemma SubmitAnsweredOk(versions: seq<Version>, e: Editor, ok: bool)
    requires EditorOk(versions, e)
    ensures EditorOk(versions, SubmitAnswered(e, ok))
  {
  }

  lemma StepEditorOk(versions: seq<Version>, e: Editor, a: Action)
    requires EditorOk(versions, e)
    ensures EditorOk(versions, StepEditor(e, a))
  {
    match a
    case DetailArrives(_, ok) => DetailLoadedOk(versions, e, ok);
    case ConflictArrives(_, ok) => ConflictLoadedOk(versions, e, ok);
    case SubmitArrives(_, ok) => SubmitAnsweredOk(versions, e, ok);
    case _ =>
  }

  /** Appending versions changes nothing an editor knows. */
  lemma GrowthOk(before: seq<Version>, after: seq<Version>, e: Editor)
    requires EditorOk(before, e) && before <= after
    ensures EditorOk(after, e)
  {
  }

  lemma CurrentIsReal(template: Template)
    requires Gapless(template.versions) && template.versions != []
    ensures Current(template).Some? && Real(template.versions, Current(template))
    ensures Current(template).value.number == |template.versions|
  {
    GaplessLatestAt(template.versions, |template.versions|);
  }

  lemma ServerOk(w: World, ed: Uuid, a: Action)
    requires WorldOk(w) && ed in w.editors
    ensures WorldOk(StepServer(w, ed, a)) && w.template.versions <= StepServer(w, ed, a).template.versions
  {
    CurrentIsReal(w.template);
    var e := w.editors[ed];
    if a.ServeSubmit? && Awaits(e) {
      SubmitExactly(w.template, Submission(e.saving.base.number, e.saving.spec));
      var after := StepServer(w, ed, a);
      forall x | x in w.editors ensures EditorOk(after.template.versions, w.editors[x]) {
        GrowthOk(w.template.versions, after.template.versions, w.editors[x]);
      }
    }
  }

  lemma StepOk(w: World, a: Action)
    requires WorldOk(w)
    ensures WorldOk(Apply(w, a)) && w.template.versions <= Apply(w, a).template.versions
  {
    match a
    case Join(_) =>
    case SetStatus(_) =>
    case ServeDetail(ed) => if ed in w.editors { ServerOk(w, ed, a); }
    case ServeSubmit(ed) => if ed in w.editors { ServerOk(w, ed, a); }
    case ServeConflict(ed) => if ed in w.editors { ServerOk(w, ed, a); }
    case _ => if a.editor in w.editors { StepEditorOk(w.template.versions, w.editors[a.editor], a); }
  }

  // ----- The promises --------------------------------------------------------------------------------

  /** Versions stay exactly 1..n, each on the one before, and no stored version ever changes. */
  lemma {:induction false} VersionsOnlyGrow(w: World, actions: seq<Action>)
    requires WorldOk(w)
    ensures var late := Run(w, actions).template.versions;
      WorldOk(Run(w, actions)) && Gapless(late) && w.template.versions <= late
    decreases |actions|
  {
    if actions != [] {
      StepOk(w, actions[0]);
      VersionsOnlyGrow(Apply(w, actions[0]), actions[1..]);
    }
  }

  /**
    No update is lost: whenever a submission adds a version, the content it
    replaces is the very content its editor had as base when it submitted.
  */
  lemma AcceptedReplacesKnown(start: Template, actions: seq<Action>, a: Action)
    requires Gapless(start.versions) && start.versions != []
    requires var w := Run(World(start, map[]), actions);
      |Apply(w, a).template.versions| > |w.template.versions|
    ensures var w := Run(World(start, map[]), actions);
      && a.ServeSubmit? && a.editor in w.editors && Awaits(w.editors[a.editor])
      && var sent := w.editors[a.editor].saving;
        && SpecOf(w.template.versions, |w.template.versions|) == Some(sent.base.spec)
        && Apply(w, a).template.versions
             == w.template.versions + [Version(sent.base.number + 1, sent.spec, sent.base.number)]
  {
    VersionsOnlyGrow(World(start, map[]), actions);
    var w := Run(World(start, map[]), actions);
    match a
    case ServeSubmit(ed) =>
      assert ed in w.editors && Awaits(w.editors[ed]);
      var sent := w.editors[ed].saving;
      assert EditorOk(w.template.versions, w.editors[ed]);
      SubmitExactly(w.template, Submission(sent.base.number, sent.spec));
    case _ =>
  }

  /**
    A version that says what the version before it says was sent from a draft
    reapplied after a conflict: an unchanged draft is never stored otherwise.
  */
  lemma UnchangedWasReapplied(start: Template, actions: seq<Action>, a: Action)
    requires Gapless(start.versions) && start.versions != []
    requires var w := Run(World(start, map[]), actions);
      var after := Apply(w, a).template.versions;
      && |after| > |w.template.versions|
      && SpecOf(after, |after|) == SpecOf(after, |after| - 1)
    ensures var w := Run(World(start, map[]), actions);
      a.ServeSubmit? && a.editor in w.editors && Awaits(w.editors[a.editor]) && w.editors[a.editor].saving.reapplied
  {
    AcceptedReplacesKnown(start, actions, a);
    VersionsOnlyGrow(World(start, map[]), actions);
    var w := Run(World(start, map[]), actions);
    assert EditorOk(w.template.versions, w.editors[a.editor]);
  }

  /** A step that sends a submission is the editor's own, out of conflict, with its draft and base as they are. */
  lemma SendsOutOfConflict(e: Editor, a: Action)
    requires !e.saving.Sent? && StepEditor(e, a).saving.Sent?
    ensures a.SubmitDraft? && MaySubmit(e) && e.conflict.None? && e.base.Some?
    ensures StepEditor(e, a).saving == Sent(e.base.value, e.draft, e.reapplied, None)
  {
  }

  /**
    The only ways out of a conflict: reapplying the unchanged draft onto the
    loaded server version, discarding it for that version, giving up the edit for
    a stored version, or an earlier submission of one's own being accepted.
  */
  lemma WaysOutOfConflict(versions: seq<Version>, e: Editor, a: Action)
    requires EditorOk(versions, e) && e.conflict.Some? && StepEditor(e, a).conflict.None?
    ensures var c, after := e.conflict.value, StepEditor(e, a);
      match a
      case Reapply(_) =>
        && !c.loading && !c.failed && c.server.Some? && after.base == c.server && Real(versions, c.server)
        && after.draft == e.draft && after.editing == e.editing && (e.editing ==> MaySubmit(after))
      case Discard(_) =>
        && !c.loading && c.server.Some? && after.base == c.server && Real(versions, c.server)
        && after.draft == c.server.value.spec && !after.editing
      case SubmitArrives(_, _) =>
        e.saving.Sent? && e.saving.reply.Some? && e.saving.reply.value.Created? && !after.editing
      case StartEditing(_) => after.base == e.detail && after.draft == e.detail.value.spec
      case CancelEditing(_) => after.base == e.detail && after.draft == e.detail.value.spec && !after.editing
      case DetailArrives(_, _) =>
        after.base == after.detail && after.base.Some? && after.draft == after.base.value.spec && !after.editing
      case _ => false
  {
  }

  /** Conflict handling never touches the draft while the conflict lasts; only typing does. */
  lemma ConflictKeepsDraft(e: Editor, a: Action)
    requires e.conflict.Some? && StepEditor(e, a).conflict.Some? && !a.Type?
    ensures StepEditor(e, a).draft == e.draft && StepEditor(e, a).base == e.base
  {
  }

  /** The editor is in conflict at every point of the run. */
  predicate InConflictThroughout(w: World, actions: seq<Action>, ed: Uuid)
    decreases |actions|
  {
    && ed in w.editors && w.editors[ed].conflict.Some?
    && (actions == [] || InConflictThroughout(Apply(w, actions[0]), actions[1..], ed))
  }

  lemma ConflictBlocks(w: World, a: Action, ed: Uuid)
    requires ed in w.editors && w.editors[ed].conflict.Some? && !w.editors[ed].saving.Sent?
    ensures ed in Apply(w, a).editors && !Apply(w, a).editors[ed].saving.Sent?
  {
    if ed in w.editors && StepEditor(w.editors[ed], a).saving.Sent? {
      SendsOutOfConflict(w.editors[ed], a);
    }
  }

  /** While its conflict lasts an editor sends nothing, whatever else happens. */
  lemma {:induction false} NothingSentInConflict(w: World, actions: seq<Action>, ed: Uuid)
    requires InConflictThroughout(w, actions, ed) && !w.editors[ed].saving.Sent?
    ensures ed in Run(w, actions).editors && !Run(w, actions).editors[ed].saving.Sent?
    decreases |actions|
  {
    if actions != [] {
      ConflictBlocks(w, actions[0], ed);
      NothingSentInConflict(Apply(w, actions[0]), actions[1..], ed);
    }
  }
}
