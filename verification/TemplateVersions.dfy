/**
  Design templates at the server: versions are appended by compare-and-set on the
  base version the submitter expects, under the template's row lock.
*/
module TemplateVersions {
  import opened Basics

  /** A template specification, as its serialised text. */
  type Spec = string

  datatype TemplateStatus = Active | Archived

  /** One version; `base` is the version its submitter started from, kept here as history. */
  datatype Version = Version(number: nat, spec: Spec, base: nat)

  datatype Template = Template(status: TemplateStatus, versions: seq<Version>)

  datatype Reply = Created(number: nat) | Conflict(current: nat) | Inactive | Missing

  datatype Submission = Submission(base: nat, spec: Spec)

  /** The row `ORDER BY version DESC` puts first among the first `n`. */
  function LatestAt(versions: seq<Version>, n: nat): (r: nat)
    requires 0 < n <= |versions|
    ensures r < n
  {
    if n == 1 then 0
    else
      var rest := LatestAt(versions, n - 1);
      if versions[n - 1].number > versions[rest].number then n - 1 else rest
  }

  /** The latest version number, or 0. */
  function Latest(versions: seq<Version>): nat {
    if versions == [] then 0 else versions[LatestAt(versions, |versions|)].number
  }

  /** The unique index on template and number refuses a second version with this number. */
  predicate Taken(versions: seq<Version>, number: nat) {
    exists i :: 0 <= i < |versions| && versions[i].number == number
  }

  /** Numbers are 1..n in order, and each version was submitted on the one before it. */
  predicate Gapless(versions: seq<Version>) {
    forall i :: 0 <= i < |versions| ==> versions[i].number == i + 1 && versions[i].base == i
  }

  function Submit(template: Template, s: Submission): (Template, Reply) {
    if template.status != Active then (template, Inactive)
    else if Latest(template.versions) != s.base then (template, Conflict(Latest(template.versions)))
    else
      var row := Version(Latest(template.versions) + 1, s.spec, s.base);
      if Taken(template.versions, row.number) then (template, Conflict(row.number))
      else (template.(versions := template.versions + [row]), Created(row.number))
  }

  /** A new template starts with version 1. */
  function NewTemplate(spec: Spec): Template {
    Template(Active, [Version(1, spec, 0)])
  }

  function SpecOf(versions: seq<Version>, number: nat): Option<Spec> {
    if 1 <= number <= |versions| then Some(versions[number - 1].spec) else None
  }

  lemma {:induction false} GaplessLatestAt(versions: seq<Version>, n: nat)
    requires Gapless(versions) && 0 < n <= |versions|
    ensures LatestAt(versions, n) == n - 1
  {
    if n > 1 {
      GaplessLatestAt(versions, n - 1);
    }
  }

  lemma GaplessLatest(versions: seq<Version>)
    requires Gapless(versions)
    ensures Latest(versions) == |versions|
  {
    if versions != [] {
      GaplessLatestAt(versions, |versions|);
    }
  }

  /** A submission on gapless versions is accepted exactly when the template is active and its base is the latest. */
  lemma SubmitExactly(template: Template, s: Submission)
    requires Gapless(template.versions)
    ensures var (after, reply) := Submit(template, s);
      && Gapless(after.versions) && after.status == template.status
      && (reply.Created? <==> template.status == Active && s.base == |template.versions|)
      && (reply.Conflict? <==> template.status == Active && s.base != |template.versions|)
      && (reply.Conflict? ==> reply.current == |template.versions|)
      && (if reply.Created? then
            && after.versions == template.versions + [Version(s.base + 1, s.spec, s.base)]
            && reply.number == |after.versions|
          else after == template)
  {
    GaplessLatest(template.versions);
    assert forall i :: 0 <= i < |template.versions| ==> template.versions[i].number == i + 1;
  }

  // ----- Many submissions ----------------------------------------------------------------

  /** The first `n` submissions in the order in which the row lock admits them. */
  function SubmitAll(template: Template, subs: seq<Submission>, n: nat): (Template, seq<Reply>)
    requires n <= |subs|
  {
    if n == 0 then (template, [])
    else
      var before := SubmitAll(template, subs, n - 1);
      var last := Submit(before.0, subs[n - 1]);
      (last.0, before.1 + [last.1])
  }

  lemma {:induction false} SubmitAllGrows(template: Template, subs: seq<Submission>, n: nat)
    requires Gapless(template.versions) && n <= |subs|
    ensures var r := SubmitAll(template, subs, n);
      && |r.1| == n && Gapless(r.0.versions) && r.0.status == template.status
      && template.versions <= r.0.versions
      && (forall i :: 0 <= i < n && r.1[i].Created? ==> subs[i].base < |r.0.versions|)
  {
    if n > 0 {
      SubmitAllGrows(template, subs, n - 1);
      SubmitExactly(SubmitAll(template, subs, n - 1).0, subs[n - 1]);
    }
  }

  /** Of any submissions on one base, at most one is accepted. */
  lemma {:induction false} OneSuccessPerBase(template: Template, subs: seq<Submission>, n: nat, i: nat, k: nat)
    requires Gapless(template.versions) && i < k < n <= |subs| && subs[i].base == subs[k].base
    ensures var r := SubmitAll(template, subs, n);
      |r.1| == n && !(r.1[i].Created? && r.1[k].Created?)
  {
    SubmitAllGrows(template, subs, n);
    SubmitAllGrows(template, subs, n - 1);
    if k < n - 1 {
      OneSuccessPerBase(template, subs, n - 1, i, k);
    } else {
      SubmitExactly(SubmitAll(template, subs, n - 1).0, subs[k]);
    }
  }

  /** If any of them is on the latest version, the first of those is accepted. */
  lemma {:induction false} FirstOnLatestWins(template: Template, subs: seq<Submission>, n: nat, i: nat)
    requires Gapless(template.versions) && template.status == Active && i < n <= |subs|
    requires subs[i].base == |template.versions|
    requires forall k :: 0 <= k < i ==> subs[k].base != |template.versions|
    ensures var r := SubmitAll(template, subs, n);
      && |r.1| == n && r.1[i] == Created(|template.versions| + 1)
      && SpecOf(r.0.versions, |template.versions| + 1) == Some(subs[i].spec)
      && forall k :: 0 <= k < i ==> r.1[k] == Conflict(|template.versions|)
  {
    if i < n - 1 {
      FirstOnLatestWins(template, subs, n - 1, i);
      SubmitAllGrows(template, subs, n - 1);
      SubmitExactly(SubmitAll(template, subs, n - 1).0, subs[n - 1]);
    } else {
      NoneOnLatest(template, subs, i);
      SubmitExactly(template, subs[i]);
    }
  }

  lemma {:induction false} NoneOnLatest(template: Template, subs: seq<Submission>, n: nat)
    requires Gapless(template.versions) && template.status == Active && n <= |subs|
    requires forall k :: 0 <= k < n ==> subs[k].base != |template.versions|
    ensures var r := SubmitAll(template, subs, n);
      r.0 == template && |r.1| == n && forall k :: 0 <= k < n ==> r.1[k] == Conflict(|template.versions|)
  {
    if n > 0 {
      NoneOnLatest(template, subs, n - 1);
      SubmitExactly(template, subs[n - 1]);
    }
  }

  // ----- The tables, changed as the handlers do -----------------------------------------------

  class TemplateStore {
    var templates: map<Uuid, Template>

    predicate Valid()
      reads this
    {
      forall t :: t in templates ==> Gapless(templates[t].versions)
    }

    constructor ()
      ensures Valid() && templates == map[]
    {
      templates := map[];
    }

    method Create(t: Uuid, spec: Spec)
      requires Valid() && t !in templates
      modifies this
      ensures Valid() && templates == old(templates)[t := Template(Active, [Version(1, spec, 0)])]
    {
      templates := templates[t := Template(Active, [Version(1, spec, 0)])];
    }

    method SetStatus(t: Uuid, status: TemplateStatus) returns (found: bool)
      requires Valid()
      modifies this
      ensures Valid() && found == (t in old(templates))
      ensures templates == if found then old(templates)[t := old(templates)[t].(status := status)] else old(templates)
    {
      found := t in templates;
      if found && templates[t].status != status {
        templates := templates[t := templates[t].(status := status)];
      }
      assert found ==> templates == old(templates)[t := old(templates)[t].(status := status)];
    }

    method CreateVersion(t: Uuid, expectedBaseVersion: nat, spec: Spec) returns (reply: Reply)
      requires Valid()
      modifies this
      ensures Valid()
      ensures t !in old(templates) ==> reply == Missing && templates == old(templates)
      ensures t in old(templates) ==>
        var (after, answer) := Submit(old(templates)[t], Submission(expectedBaseVersion, spec));
        reply == answer && templates == old(templates)[t := after]
    {
      if t !in templates {
        return Missing;
      }
      var template := templates[t];
      SubmitExactly(template, Submission(expectedBaseVersion, spec));
      assert templates == templates[t := template];
      if template.status != Active {
        return Inactive;
      }
      var currentLatestVersion := Latest(template.versions);
      if currentLatestVersion != expectedBaseVersion {
        return Conflict(currentLatestVersion);
      }
      var nextVersion := currentLatestVersion + 1;
      if Taken(template.versions, nextVersion) {
        assert false; // the unique index never fires under the row lock
      }
      var version := Version(nextVersion, spec, expectedBaseVersion);
      templates := templates[t := template.(versions := template.versions + [version])];
      return Created(nextVersion);
    }

    /** The copy starts with version 1, which says what the source's latest version says. */
    method Duplicate(source: Uuid, t: Uuid) returns (reply: Reply)
      requires Valid() && t !in templates
      modifies this
      ensures Valid()
      ensures reply.Created? <==> source in old(templates) && old(templates)[source].versions != []
      ensures reply.Created? ==>
        var versions := old(templates)[source].versions;
        templates == old(templates)[t := Template(Active, [Version(1, versions[|versions| - 1].spec, 0)])]
      ensures !reply.Created? ==> reply == Missing && templates == old(templates)
    {
      if source !in templates || templates[source].versions == [] {
        return Missing;
      }
      var versions := templates[source].versions;
      GaplessLatestAt(versions, |versions|);
      var latestVersion := versions[LatestAt(versions, |versions|)];
      templates := templates[t := Template(Active, [Version(1, latestVersion.spec, 0)])];
      return Created(1);
    }
  }
}
