/**
  What an editor can get done: an edit that is stored, an edit that met a conflict
  and is stored after all, the draft given up for the server's version, and what
  each step of a conflict leaves behind.
*/
module TemplateProgress {
  import opened Basics
  import opened TemplateVersions
  import opened TemplateEditors

  /** The editor at its place in the world. */
  predicate Is(w: World, ed: Uuid, e: Editor) {
    ed in w.editors && w.editors[ed] == e
  }

  predicate ActiveTemplate(w: World) {
    w.template.status == Active && Gapless(w.template.versions) && w.template.versions != []
  }

  /** The latest version, as a reader gets it. */
  function LatestKnown(template: Template): Known
    requires template.versions != []
  {
    Known(|template.versions|, template.versions[|template.versions| - 1].spec)
  }

  lemma LatestIsLast(template: Template)
    requires Gapless(template.versions) && template.versions != []
    ensures Current(template) == Some(LatestKnown(template)) && Latest(template.versions) == |template.versions|
  {
    GaplessLatest(template.versions);
    GaplessLatestAt(template.versions, |template.versions|);
  }

  // ----- Submitting --------------------------------------------------------------------------

  /** The form may be submitted: it is edited, out of conflict, and changed or reapplied. */
  predicate Ready(e: Editor) {
    && e.editing && e.conflict.None? && e.base.Some? && e.detail.Some? && e.saving.Idle?
    && (e.reapplied || e.draft != e.base.value.spec)
  }

  /** Submitting sends exactly when the form is ready. */
  lemma SubmitSends(w: World, ed: Uuid, e: Editor)
    requires Is(w, ed, e)
    ensures Apply(w, SubmitDraft(ed)) ==
      if Ready(e) then
        w.(editors := w.editors[ed := e.(saving := Sent(e.base.value, e.draft, e.reapplied, None))])
      else w
  {
  }

  /**
    The server appends the draft exactly for an active template whose latest version
    is the one the editor started from, and answers what it found otherwise.
  */
  lemma ServeMeans(w: World, ed: Uuid, e: Editor)
    requires Is(w, ed, e) && Awaits(e) && Gapless(w.template.versions)
    ensures var after := Apply(w, ServeSubmit(ed));
      var n := |w.template.versions|;
      var stored := w.template.status == Active && e.saving.base.number == n;
      && after.template == (if stored then
           w.template.(versions := w.template.versions + [Version(n + 1, e.saving.spec, n)]) else w.template)
      && after.editors == w.editors[ed := e.(saving := e.saving.(reply := Some(
           if stored then Created(n + 1) else if w.template.status != Active then Inactive else Conflict(n))))]
  {
    SubmitExactly(w.template, Submission(e.saving.base.number, e.saving.spec));
  }

  /** An answer that arrives ends the edit, opens a conflict on the base that was sent, or lets the editor go on. */
  lemma AnswerMeans(e: Editor)
    requires e.saving.Sent? && e.saving.reply.Some?
    ensures var after := StepEditor(e, SubmitArrives(0, true));
      match e.saving.reply.value
      case Created(_) =>
        after == e.(editing := false, reapplied := false, conflict := None, saving := Idle,
                    detailFetch := Some(Fetch(0, None)), conflictFetch := None)
      case Conflict(_) =>
        after == e.(saving := Reloading, conflictFetch := Some(Fetch(e.saving.base.number, None)),
                    conflict := Some(
                      if e.conflict.Some? then
                        Conflicting(e.conflict.value.from, e.conflict.value.server, false, true)
                      else Conflicting(e.saving.base.number, None, false, true)))
      case _ => after == e.(saving := Idle)
  {
  }

  function Saves(ed: Uuid): seq<Action> {
    [SubmitDraft(ed), ServeSubmit(ed), SubmitArrives(ed, true)]
  }

  lemma RunThree(w: World, a: Action, b: Action, c: Action)
    ensures Run(w, [a, b, c]) == Apply(Apply(Apply(w, a), b), c)
  {
    var w1 := Apply(w, a);
    var w2 := Apply(w1, b);
    assert [a, b, c][1..] == [b, c] && [b, c][1..] == [c] && [c][1..] == [];
    assert Run(w2, [c]) == Run(Apply(w2, c), []);
    assert Run(w1, [b, c]) == Run(w2, [c]);
  }

  lemma {:induction false} RunSplit(w: World, before: seq<Action>, after: seq<Action>)
    ensures Run(w, before + after) == Run(Run(w, before), after)
    decreases |before|
  {
    if before == [] {
      assert before + after == after;
    } else {
      assert (before + after)[1..] == before[1..] + after;
      RunSplit(Apply(w, before[0]), before[1..], after);
    }
  }

  /**
    A ready draft that nothing interrupts becomes the next version exactly when it
    started from the latest one of an active template; the editor then stops
    editing and loads it.  On an older base it ends in conflict with its draft.
  */
  lemma ReadyDraftIsSaved(w: World, ed: Uuid, e: Editor)
    requires Is(w, ed, e) && Ready(e) && ActiveTemplate(w)
    ensures var late := Run(w, Saves(ed));
      var n := |w.template.versions|;
      && ed in late.editors && late.editors.Keys == w.editors.Keys && late.template.status == Active
      && (if e.base.value.number == n then
            && late.template.versions == w.template.versions + [Version(n + 1, e.draft, n)]
            && !late.editors[ed].editing && late.editors[ed].conflict.None? && late.editors[ed].saving.Idle?
            && late.editors[ed].detailFetch == Some(Fetch(0, None))
          else
            && late.template == w.template
            && late.editors[ed] == e.(saving := Reloading, conflict := Some(NewConflict(e.base.value.number)),
                                      conflictFetch := Some(Fetch(e.base.value.number, None))))
  {
    hide Apply, StepEditor, Gapless;
    RunThree(w, SubmitDraft(ed), ServeSubmit(ed), SubmitArrives(ed, true));
    SubmitSends(w, ed, e);
    var sent := Apply(w, SubmitDraft(ed));
    ServeMeans(sent, ed, sent.editors[ed]);
    var served := Apply(sent, ServeSubmit(ed));
    AnswerArrives(served, ed);
    AnswerMeans(served.editors[ed]);
  }

  lemma AnswerArrives(w: World, ed: Uuid)
    requires ed in w.editors
    ensures Apply(w, SubmitArrives(ed, true))
         == w.(editors := w.editors[ed := StepEditor(w.editors[ed], SubmitArrives(0, true))])
  {
  }

  // ----- Loading -----------------------------------------------------------------------------

  /** A detail request that arrives shows the version it was answered with, and no longer edits. */
  lemma DetailMeans(w: World, ed: Uuid, e: Editor)
    requires Is(w, ed, e) && Gapless(w.template.versions) && w.template.versions != []
    requires e.detailFetch.Some? && e.detailFetch.value.answer.None?
    ensures var late := Apply(Apply(w, ServeDetail(ed)), DetailArrives(ed, true));
      var latest := LatestKnown(w.template);
      && late.template == w.template
      && late.editors == w.editors[ed := e.(base := Some(latest), draft := latest.spec, detail := Some(latest),
                                            conflict := None, detailFetch := None, editing := false,
                                            reapplied := false)]
  {
    LatestIsLast(w.template);
  }

  /** Loading asks for the latest version, and drops what was asked before. */
  lemma LoadMeans(w: World, ed: Uuid, e: Editor)
    requires Is(w, ed, e)
    ensures Apply(w, LoadDetail(ed)) ==
      w.(editors := w.editors[ed := e.(detailFetch := Some(Fetch(0, None)), conflictFetch := None,
                                       saving := if e.saving.Reloading? then Idle else e.saving)])
  {
  }

  /** A load or a submission whose answer is lost leaves the draft, its base and the edit as they are. */
  lemma LossMeans(w: World, ed: Uuid, e: Editor)
    requires Is(w, ed, e)
    ensures Apply(w, DetailArrives(ed, false)) == w.(editors := w.editors[ed := e.(detailFetch := None)])
    ensures Apply(w, SubmitArrives(ed, false))
         == w.(editors := w.editors[ed := e.(saving := if e.saving.Sent? then Idle else e.saving)])
  {
  }

  /** Editing starts from the version shown, with its text as draft; typing then changes the draft alone. */
  lemma EditingMeans(w: World, ed: Uuid, e: Editor, spec: Spec)
    requires Is(w, ed, e) && e.detail.Some? && !e.editing
    ensures var late := Apply(Apply(w, StartEditing(ed)), Type(ed, spec));
      late == w.(editors := w.editors[ed := e.(editing := true, base := e.detail, draft := spec, conflict := None)])
    ensures Apply(w, Type(ed, spec)) == w
    ensures Apply(w, ReopenEditing(ed)) == w.(editors := w.editors[ed := e.(editing := true)])
  {
  }

  /** Giving up the edit shows the version shown before. */
  lemma CancelMeans(w: World, ed: Uuid, e: Editor)
    requires Is(w, ed, e) && e.detail.Some? && e.editing
    ensures Apply(w, CancelEditing(ed)) ==
      w.(editors := w.editors[ed := e.(editing := false, base := e.detail, draft := e.detail.value.spec,
                                       conflict := None)])
  {
  }

  // ----- Conflicts ---------------------------------------------------------------------------

  /** The editor is in conflict and its request for the server's version is under way. */
  predicate Asks(e: Editor) {
    && e.conflict.Some? && e.conflictFetch.Some? && e.conflictFetch.value.answer.None?
    && e.conflictFetch.value.from == e.conflict.value.from
  }

  /** The server's version arrives: it can be reapplied onto or taken, and the draft is as it was. */
  lemma ConflictLoads(w: World, ed: Uuid, e: Editor)
    requires Is(w, ed, e) && Asks(e) && Gapless(w.template.versions) && w.template.versions != []
    ensures var late := Apply(Apply(w, ServeConflict(ed)), ConflictArrives(ed, true));
      var latest := LatestKnown(w.template);
      && late.template == w.template && late.editors.Keys == w.editors.Keys
      && late.editors[ed] == e.(conflict := Some(Conflicting(e.conflict.value.from, Some(latest), false, false)),
                                detail := Some(latest), conflictFetch := None,
                                saving := if e.saving.Reloading? then Idle else e.saving)
  {
    LatestIsLast(w.template);
  }

  /** When it cannot be loaded the conflict stays, with draft and base, and can be asked for again. */
  lemma ConflictFails(w: World, ed: Uuid, e: Editor)
    requires Is(w, ed, e) && Asks(e) && e.detail.Some?
    ensures var failed := Apply(w, ConflictArrives(ed, false));
      var again := Apply(failed, RetryConflict(ed));
      && ed in failed.editors && failed.editors[ed].conflict.Some?
      && failed.editors[ed].conflict.value.failed && !failed.editors[ed].conflict.value.loading
      && failed.editors[ed].draft == e.draft && failed.editors[ed].base == e.base
      && ed in again.editors && Asks(again.editors[ed]) && again.editors[ed].conflict.value.loading
      && again.editors[ed].draft == e.draft && again.editors[ed].base == e.base
  {
  }

  /** The server's version has been loaded since the conflict opened, and none is being loaded. */
  predicate Loaded(e: Editor) {
    e.conflict.Some? && e.conflict.value.server.Some? && !e.conflict.value.loading
  }

  /**
    Reapplying moves the unchanged draft onto the loaded version, exactly when the
    last load went through; discarding takes that version instead, even after a
    failed reload.
  */
  lemma ResolvesConflict(w: World, ed: Uuid, e: Editor)
    requires Is(w, ed, e)
    ensures Apply(w, Reapply(ed)) ==
      if Loaded(e) && !e.conflict.value.failed then
        w.(editors := w.editors[ed := e.(base := e.conflict.value.server, reapplied := true, conflict := None)])
      else w
    ensures Apply(w, Discard(ed)) ==
      if Loaded(e) then
        w.(editors := w.editors[ed := e.(base := e.conflict.value.server, draft := e.conflict.value.server.value.spec,
                                         reapplied := false, editing := false, conflict := None)])
      else w
  {
  }

  function Recovers(ed: Uuid): seq<Action> {
    [ServeConflict(ed), ConflictArrives(ed, true), Reapply(ed)]
  }

  /**
    A draft that met a conflict is not lost: once the server's version is loaded and
    the draft reapplied onto it, the very same draft is saved as the next version.
  */
  lemma ConflictIsRecovered(w: World, ed: Uuid, e: Editor)
    requires Is(w, ed, e) && Asks(e) && e.editing && e.saving.Reloading? && ActiveTemplate(w)
    ensures var late := Run(w, Recovers(ed) + Saves(ed));
      && ed in late.editors && !late.editors[ed].editing && late.editors[ed].conflict.None?
      && late.template.versions
           == w.template.versions + [Version(|w.template.versions| + 1, e.draft, |w.template.versions|)]
  {
    hide Apply, Gapless;
    RunSplit(w, Recovers(ed), Saves(ed));
    RunThree(w, ServeConflict(ed), ConflictArrives(ed, true), Reapply(ed));
    ConflictLoads(w, ed, e);
    var loaded := Apply(Apply(w, ServeConflict(ed)), ConflictArrives(ed, true));
    ResolvesConflict(loaded, ed, loaded.editors[ed]);
    var reapplied := Apply(loaded, Reapply(ed));
    ReadyDraftIsSaved(reapplied, ed, reapplied.editors[ed]);
  }

  /** From a stale submission to its version in one go: submitted, refused, reloaded, reapplied and saved. */
  lemma StaleDraftIsSaved(w: World, ed: Uuid, e: Editor)
    requires Is(w, ed, e) && Ready(e) && ActiveTemplate(w) && e.base.value.number != |w.template.versions|
    ensures var late := Run(w, Saves(ed) + (Recovers(ed) + Saves(ed)));
      late.template.versions
        == w.template.versions + [Version(|w.template.versions| + 1, e.draft, |w.template.versions|)]
  {
    RunSplit(w, Saves(ed), Recovers(ed) + Saves(ed));
    ReadyDraftIsSaved(w, ed, e);
    var refused := Run(w, Saves(ed));
    ConflictIsRecovered(refused, ed, refused.editors[ed]);
  }

  // ----- Templates from their first version on ---------------------------------------------------

  function Opens(ed: Uuid): seq<Action> {
    [LoadDetail(ed), ServeDetail(ed), DetailArrives(ed, true)]
  }

  function Types(ed: Uuid, draft: Spec): seq<Action> {
    [StartEditing(ed), Type(ed, draft)]
  }

  /** An editor that opens an active template and changes its text saves the next version. */
  lemma EditIsSaved(w: World, ed: Uuid, draft: Spec)
    requires ed in w.editors && !w.editors[ed].editing && w.editors[ed].saving.Idle? && ActiveTemplate(w)
    requires draft != LatestKnown(w.template).spec
    ensures var late := Run(w, Opens(ed) + (Types(ed, draft) + Saves(ed)));
      late.template == w.template.(versions :=
        w.template.versions + [Version(|w.template.versions| + 1, draft, |w.template.versions|)])
  {
    var e := w.editors[ed];
    RunSplit(w, Opens(ed), Types(ed, draft) + Saves(ed));
    RunThree(w, LoadDetail(ed), ServeDetail(ed), DetailArrives(ed, true));
    LoadMeans(w, ed, e);
    var asked := Apply(w, LoadDetail(ed));
    DetailMeans(asked, ed, asked.editors[ed]);
    var shown := Run(w, Opens(ed));
    RunSplit(shown, Types(ed, draft), Saves(ed));
    assert Types(ed, draft)[1..] == [Type(ed, draft)] && [Type(ed, draft)][1..] == [];
    EditingMeans(shown, ed, shown.editors[ed], draft);
    var typed := Apply(Apply(shown, StartEditing(ed)), Type(ed, draft));
    ReadyDraftIsSaved(typed, ed, typed.editors[ed]);
  }

  /** The first edit of a new template makes its version 2. */
  lemma FirstEditIsSaved(ed: Uuid, spec: Spec, draft: Spec)
    requires draft != spec
    ensures var w := Apply(World(NewTemplate(spec), map[]), Join(ed));
      Run(w, Opens(ed) + (Types(ed, draft) + Saves(ed))).template
        == Template(Active, [Version(1, spec, 0), Version(2, draft, 1)])
  {
    var w := Apply(World(NewTemplate(spec), map[]), Join(ed));
    EditIsSaved(w, ed, draft);
  }

  /** An archived template takes no draft, whoever sends it; the editor keeps its own and may send it again. */
  lemma ArchivedTakesNothing(w: World, ed: Uuid, e: Editor)
    requires Is(w, ed, e) && Ready(e)
    ensures var archived := Apply(w, SetStatus(Archived));
      && archived == w.(template := Template(Archived, w.template.versions))
      && Run(archived, Saves(ed)) == archived
  {
    var archived := Apply(w, SetStatus(Archived));
    RunThree(archived, SubmitDraft(ed), ServeSubmit(ed), SubmitArrives(ed, true));
    SubmitSends(archived, ed, e);
    var sent := Apply(archived, SubmitDraft(ed));
    var served := Apply(sent, ServeSubmit(ed));
    AnswerArrives(served, ed);
    AnswerMeans(served.editors[ed]);
    assert archived.editors == archived.editors[ed := e];
  }
}
