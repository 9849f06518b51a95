/** Step "Projects": schema (the URL may be absent, empty or a valid URL),
    default values, the name-and-description auto-save gate and the commit
    that turns an empty URL into undefined. */
module ProjectsForm {
  import opened Common
  import opened ResumeCreation
  import FieldArray

  /** `z.string().url().optional().or(z.literal(''))`. */
  predicate UrlValid(checks: FormatChecks, url: Option<string>)
  {
    url.None? || url.value == "" || checks.isUrl(url.value)
  }

  predicate EntryValid(checks: FormatChecks, p: Project)
  {
    |p.name| >= 2 && |p.description| >= 20 && UrlValid(checks, p.url)
  }

  /** `projectsSchema`: at least one project, each one valid. */
  predicate SchemaValid(checks: FormatChecks, ps: seq<Project>)
  {
    |ps| >= 1 && forall i :: 0 <= i < |ps| ==> EntryValid(checks, ps[i])
  }

  /** The entry shown when the store holds no project, and the one "Add Another Project" appends. */
  const Blank := Project("", "", Some(""))

  function Defaults(stored: seq<Project>): (r: seq<Project>)
    ensures |r| >= 1
    ensures |stored| > 0 ==> r == stored
    ensures |stored| == 0 ==> r == [Blank]
  {
    if |stored| > 0 then stored else [Blank]
  }

  predicate AutoSaveGate(ps: seq<Project>)
  {
    forall i :: 0 <= i < |ps| ==> ps[i].name != "" && ps[i].description != ""
  }

  /** `url: project.url || undefined`. */
  function NormalizeUrl(p: Project): (r: Project)
    ensures r.name == p.name && r.description == p.description
    ensures r.url.None? <==> !Truthy(p.url)
    ensures r.url.Some? ==> r.url == p.url
  {
    p.(url := if Truthy(p.url) then p.url else None)
  }

  /** `onSubmit`: names, descriptions and order kept, empty URLs dropped,
      under the `projects` key alone. */
  function Commit(ps: seq<Project>): (r: FormPatch)
    ensures forall k :: Has(r, k) <==> k == ProjectsKey
    ensures r.projects.Some? && |r.projects.value| == |ps|
    ensures forall i :: 0 <= i < |ps| ==> r.projects.value[i] == NormalizeUrl(ps[i])
  {
    EmptyPatch.(projects := Some(Map(NormalizeUrl, ps)))
  }

  function OnChange(ps: seq<Project>): (r: Option<FormPatch>)
    ensures r.Some? <==> (forall i :: 0 <= i < |ps| ==> |ps[i].name| > 0 && |ps[i].description| > 0)
    ensures r.Some? ==> r.value == Commit(ps)
  {
    if AutoSaveGate(ps) then Some(Commit(ps)) else None
  }

  /** No stored project carries an empty URL. */
  predicate NoEmptyUrl(ps: seq<Project>)
  {
    forall i :: 0 <= i < |ps| ==> ps[i].url != Some("")
  }

  /** What the commit stores never holds an empty URL, and committing it again changes nothing. */
  lemma CommitIsIdempotent(ps: seq<Project>)
    ensures NoEmptyUrl(Commit(ps).projects.value)
    ensures Commit(Commit(ps).projects.value) == Commit(ps)
  {
    var once := Commit(ps).projects.value;
    var twice := Commit(once).projects.value;
    assert |twice| == |once|;
    forall i | 0 <= i < |once| ensures twice[i] == once[i] {
      assert twice[i] == NormalizeUrl(once[i]);
    }
    assert twice == once;
  }

  /** Opening the step and saving it unchanged leaves a non-empty store as it
      was, as long as it holds no empty URL (the commit never stores one). */
  lemma SeedThenCommitRestores(stored: seq<Project>)
    requires |stored| > 0 && NoEmptyUrl(stored)
    ensures Commit(Defaults(stored)).projects == Some(stored)
  {
    var back := Commit(stored).projects.value;
    assert |back| == |stored|;
    forall i | 0 <= i < |stored| ensures back[i] == stored[i] {
      assert back[i] == NormalizeUrl(stored[i]);
    }
    assert back == stored;
  }

  lemma ValidPassesGate(checks: FormatChecks, ps: seq<Project>)
    requires SchemaValid(checks, ps)
    ensures AutoSaveGate(ps)
  {
    forall i | 0 <= i < |ps| ensures ps[i].name != "" && ps[i].description != "" {
      assert EntryValid(checks, ps[i]);
    }
  }

  /** A project with a one-letter name and a short description is saved although the schema rejects it. */
  lemma GateLetsInvalidThrough(checks: FormatChecks)
    ensures var ps := [Project("X", "short", None)];
      OnChange(ps).Some? && !SchemaValid(checks, ps)
  {
    var ps := [Project("X", "short", None)];
    assert !EntryValid(checks, ps[0]);
  }

  lemma EmptyListRejected(checks: FormatChecks)
    ensures !SchemaValid(checks, [])
  {
  }

  lemma EditsNeverEmpty(stored: seq<Project>, ops: seq<FieldArray.EditOp<Project>>)
    ensures |FieldArray.EditAll(Defaults(stored), ops)| >= 1
  {
    FieldArray.EditsKeepNonEmpty(Defaults(stored), ops);
  }
}
