/** Step "Education": schema, default values seeded from the store, the
    start-date auto-save gate, the commit that turns date strings into dates,
    and the blank entry appended by "Add Another Education". */
module EducationForm {
  import opened Common
  import opened ResumeCreation
  import FieldArray

  /** One education as the form holds it: dates are the strings of date inputs. */
  datatype EducationFields = EducationFields(
    institution: string,
    degree: string,
    fieldOfStudy: string,
    startDate: string,
    endDate: Option<string>)

  predicate EntryValid(e: EducationFields)
  {
    |e.institution| >= 2 && |e.degree| >= 2 && |e.fieldOfStudy| >= 2 && |e.startDate| >= 1
  }

  /** `educationSchema`: at least one education, each one valid. */
  predicate SchemaValid(es: seq<EducationFields>)
  {
    |es| >= 1 && forall i :: 0 <= i < |es| ==> EntryValid(es[i])
  }

  /** The single entry shown when the store holds no education (it has no endDate key). */
  const Blank := EducationFields("", "", "", "", None)

  /** The entry "Add Another Education" appends (its endDate is the empty string). */
  const Appended := EducationFields("", "", "", "", Some(""))

  /** A stored education as the form shows it, dates rendered as yyyy-mm-dd. */
  function FieldsOf(lib: DateLib, e: Education): (r: EducationFields)
    ensures r.institution == e.institution && r.degree == e.degree && r.fieldOfStudy == e.fieldOfStudy
    ensures r.startDate == lib.isoDay(e.startDate)
    ensures r.endDate.Some? <==> e.endDate.Some?
  {
    EducationFields(
      e.institution, e.degree, e.fieldOfStudy, lib.isoDay(e.startDate),
      if e.endDate.Some? then Some(lib.isoDay(e.endDate.value)) else None)
  }

  /** The form's default values: the stored educations, or exactly one blank entry. */
  function Defaults(lib: DateLib, stored: seq<Education>): (r: seq<EducationFields>)
    ensures |r| >= 1
    ensures |stored| > 0 ==> |r| == |stored| && forall i :: 0 <= i < |stored| ==> r[i] == FieldsOf(lib, stored[i])
    ensures |stored| == 0 ==> r == [Blank]
  {
    if |stored| > 0 then Map(e => FieldsOf(lib, e), stored) else [Blank]
  }

  /** The auto-save gate: every entry has a non-empty start date. */
  predicate AutoSaveGate(es: seq<EducationFields>)
  {
    forall i :: 0 <= i < |es| ==> es[i].startDate != ""
  }

  /** One form entry as it is stored. */
  function EntryOf(lib: DateLib, f: EducationFields): (r: Education)
    ensures r.institution == f.institution && r.degree == f.degree && r.fieldOfStudy == f.fieldOfStudy
    ensures r.startDate == lib.parse(f.startDate)
    ensures r.endDate.None? <==> !Truthy(f.endDate)
  {
    Education(
      f.institution, f.degree, f.fieldOfStudy, lib.parse(f.startDate),
      if Truthy(f.endDate) then Some(lib.parse(f.endDate.value)) else None)
  }

  /** `onSubmit`: order and count kept, under the `educations` key alone. */
  function Commit(lib: DateLib, es: seq<EducationFields>): (r: FormPatch)
    ensures forall k :: Has(r, k) <==> k == EducationsKey
    ensures r.educations.Some? && |r.educations.value| == |es|
    ensures forall i :: 0 <= i < |es| ==> r.educations.value[i] == EntryOf(lib, es[i])
  {
    EmptyPatch.(educations := Some(Map(f => EntryOf(lib, f), es)))
  }

  /** The watch callback: the commit is dispatched iff every start date is filled in. */
  function OnChange(lib: DateLib, es: seq<EducationFields>): (r: Option<FormPatch>)
    ensures r.Some? <==> (forall i :: 0 <= i < |es| ==> |es[i].startDate| > 0)
    ensures r.Some? ==> r.value == Commit(lib, es)
  {
    if AutoSaveGate(es) then Some(Commit(lib, es)) else None
  }

  /** Whatever the schema accepts, the gate lets through. */
  lemma ValidPassesGate(es: seq<EducationFields>)
    requires SchemaValid(es)
    ensures AutoSaveGate(es)
  {
    forall i | 0 <= i < |es| ensures es[i].startDate != "" {
      assert EntryValid(es[i]);
    }
  }

  /** The gate does not run the schema: an entry with only a start date is saved. */
  lemma GateLetsInvalidThrough(lib: DateLib)
    ensures var es := [Blank.(startDate := "2016-01-01")];
      OnChange(lib, es).Some? && !SchemaValid(es)
  {
    var es := [Blank.(startDate := "2016-01-01")];
    assert !EntryValid(es[0]);
  }

  lemma EmptyListRejected()
    ensures !SchemaValid([])
  {
  }

  /** Opening the step and saving it unchanged gives back what the store held,
      provided the stored dates survive the yyyy-mm-dd rendering. */
  lemma SeedThenCommitRestores(lib: DateLib, stored: seq<Education>)
    requires |stored| > 0
    requires forall i :: 0 <= i < |stored| ==> DayRoundTrips(lib, stored[i].startDate)
    requires forall i :: 0 <= i < |stored| ==> stored[i].endDate.Some? ==> DayRoundTrips(lib, stored[i].endDate.value)
    ensures Commit(lib, Defaults(lib, stored)).educations == Some(stored)
  {
    var fields := Defaults(lib, stored);
    var back := Commit(lib, fields).educations.value;
    assert |back| == |stored|;
    forall i | 0 <= i < |stored| ensures back[i] == stored[i] {
      assert fields[i] == FieldsOf(lib, stored[i]);
      assert back[i] == EntryOf(lib, fields[i]);
      if stored[i].endDate.Some? {
        assert DayRoundTrips(lib, stored[i].endDate.value);
        assert Truthy(fields[i].endDate);
      }
    }
    assert back == stored;
  }

  /** The "Remove Education" buttons never empty the list the defaults start from. */
  lemma EditsNeverEmpty(lib: DateLib, stored: seq<Education>, ops: seq<FieldArray.EditOp<EducationFields>>)
    ensures |FieldArray.EditAll(Defaults(lib, stored), ops)| >= 1
  {
    FieldArray.EditsKeepNonEmpty(Defaults(lib, stored), ops);
  }
}
