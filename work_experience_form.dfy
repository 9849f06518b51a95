/** Step "Work Experience": schema, default values seeded from the store,
    the start-date auto-save gate, the commit that turns date strings into
    dates, and the blank entry appended by "Add Another Experience". */
module WorkExperienceForm {
  import opened Common
  import opened ResumeCreation
  import FieldArray

  /** One experience as the form holds it: dates are the strings of date inputs. */
  datatype ExperienceFields = ExperienceFields(
    company: string,
    position: string,
    startDate: string,
    endDate: Option<string>,
    description: string)

  predicate EntryValid(e: ExperienceFields)
  {
    |e.company| >= 2 && |e.position| >= 2 && |e.startDate| >= 1 && |e.description| >= 20
  }

  /** `workExperienceSchema`: at least one experience, each one valid. */
  predicate SchemaValid(es: seq<ExperienceFields>)
  {
    |es| >= 1 && forall i :: 0 <= i < |es| ==> EntryValid(es[i])
  }

  /** The single entry shown when the store holds no experience (it has no endDate key). */
  const Blank := ExperienceFields("", "", "", None, "")

  /** The entry "Add Another Experience" appends (its endDate is the empty string). */
  const Appended := ExperienceFields("", "", "", Some(""), "")

  /** A stored experience as the form shows it, dates rendered as yyyy-mm-dd. */
  function FieldsOf(lib: DateLib, e: WorkExperience): (r: ExperienceFields)
    ensures r.company == e.company && r.position == e.position && r.description == e.description
    ensures r.startDate == lib.isoDay(e.startDate)
    ensures r.endDate.Some? <==> e.endDate.Some?
  {
    ExperienceFields(
      e.company, e.position, lib.isoDay(e.startDate),
      if e.endDate.Some? then Some(lib.isoDay(e.endDate.value)) else None,
      e.description)
  }

  /** The form's default values: the stored experiences, or exactly one blank entry. */
  function Defaults(lib: DateLib, stored: seq<WorkExperience>): (r: seq<ExperienceFields>)
    ensures |r| >= 1
    ensures |stored| > 0 ==> |r| == |stored| && forall i :: 0 <= i < |stored| ==> r[i] == FieldsOf(lib, stored[i])
    ensures |stored| == 0 ==> r == [Blank]
  {
    if |stored| > 0 then Map(e => FieldsOf(lib, e), stored) else [Blank]
  }

  /** The auto-save gate: every entry has a non-empty start date. No other field is looked at. */
  predicate AutoSaveGate(es: seq<ExperienceFields>)
  {
    forall i :: 0 <= i < |es| ==> es[i].startDate != ""
  }

  /** One form entry as it is stored: the start date is parsed, an empty or
      missing end date becomes undefined. */
  function EntryOf(lib: DateLib, f: ExperienceFields): (r: WorkExperience)
    ensures r.company == f.company && r.position == f.position && r.description == f.description
    ensures r.startDate == lib.parse(f.startDate)
    ensures r.endDate.None? <==> !Truthy(f.endDate)
  {
    WorkExperience(
      f.company, f.position, lib.parse(f.startDate),
      if Truthy(f.endDate) then Some(lib.parse(f.endDate.value)) else None,
      f.description)
  }

  /** `onSubmit`: the entries converted one-to-one and in order, under the
      `workExperiences` key alone. */
  function Commit(lib: DateLib, es: seq<ExperienceFields>): (r: FormPatch)
    ensures forall k :: Has(r, k) <==> k == WorkExperiencesKey
    ensures r.workExperiences.Some? && |r.workExperiences.value| == |es|
    ensures forall i :: 0 <= i < |es| ==> r.workExperiences.value[i] == EntryOf(lib, es[i])
  {
    EmptyPatch.(workExperiences := Some(Map(f => EntryOf(lib, f), es)))
  }

  /** The watch callback: the commit is dispatched iff the gate passes. */
  function OnChange(lib: DateLib, es: seq<ExperienceFields>): (r: Option<FormPatch>)
    ensures r.Some? <==> (forall i :: 0 <= i < |es| ==> |es[i].startDate| > 0)
    ensures r.Some? ==> r.value == Commit(lib, es)
  {
    if AutoSaveGate(es) then Some(Commit(lib, es)) else None
  }

  /** Whatever the schema accepts, the gate lets through. */
  lemma ValidPassesGate(es: seq<ExperienceFields>)
    requires SchemaValid(es)
    ensures AutoSaveGate(es)
  {
    forall i | 0 <= i < |es| ensures es[i].startDate != "" {
      assert EntryValid(es[i]);
    }
  }

  /** The gate does not run the schema: an entry with only a start date is
      saved, although the schema rejects it. */
  lemma GateLetsInvalidThrough(lib: DateLib)
    ensures var es := [Blank.(startDate := "2020-01-01")];
      OnChange(lib, es).Some? && !SchemaValid(es)
  {
    var es := [Blank.(startDate := "2020-01-01")];
    assert !EntryValid(es[0]);
  }

  /** The blank defaults and a freshly appended entry hold back the auto-save
      until a start date is typed. */
  lemma BlankEntriesAreNotSaved(lib: DateLib, es: seq<ExperienceFields>)
    ensures OnChange(lib, es + [Appended]).None?
    ensures OnChange(lib, [Blank]).None?
  {
    assert (es + [Appended])[|es|] == Appended;
  }

  /** The schema rejects an empty list. */
  lemma EmptyListRejected()
    ensures !SchemaValid([])
  {
  }

  /** Opening the step and saving it unchanged gives back what the store held,
      provided the stored dates survive the yyyy-mm-dd rendering. */
  lemma SeedThenCommitRestores(lib: DateLib, stored: seq<WorkExperience>)
    requires |stored| > 0
    requires forall i :: 0 <= i < |stored| ==> DayRoundTrips(lib, stored[i].startDate)
    requires forall i :: 0 <= i < |stored| ==> stored[i].endDate.Some? ==> DayRoundTrips(lib, stored[i].endDate.value)
    ensures Commit(lib, Defaults(lib, stored)).workExperiences == Some(stored)
  {
    var fields := Defaults(lib, stored);
    var back := Commit(lib, fields).workExperiences.value;
    assert |back| == |stored|;
    forall i | 0 <= i < |stored| ensures back[i] == stored[i] {
      assert fields[i] == FieldsOf(lib, stored[i]);
      assert back[i] == EntryOf(lib, fields[i]);
      if stored[i].endDate.Some? {
        assert DayRoundTrips(lib, stored[i].endDate.value);
        assert Truthy(fields[i].endDate);
      }
    }
    assert back == stored;
  }

  /** The "Remove Experience" buttons never empty the list the defaults start from. */
  lemma EditsNeverEmpty(lib: DateLib, stored: seq<WorkExperience>, ops: seq<FieldArray.EditOp<ExperienceFields>>)
    ensures |FieldArray.EditAll(Defaults(lib, stored), ops)| >= 1
  {
    FieldArray.EditsKeepNonEmpty(Defaults(lib, stored), ops);
  }
}
