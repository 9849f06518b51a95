/** Step "Certifications": a schema without a minimum count, default values
    with dates as full ISO strings, the three-field auto-save gate and the
    commit that parses the dates back. */
module CertificationsForm {
  import opened Common
  import opened ResumeCreation
  import FieldArray

  datatype CertificationFields = CertificationFields(name: string, issuer: string, date: string)

  predicate EntryValid(c: CertificationFields)
  {
    |c.name| >= 2 && |c.issuer| >= 2 && |c.date| >= 1
  }

  /** `certificationsSchema`: every entry valid; there is no minimum count. */
  predicate SchemaValid(cs: seq<CertificationFields>)
  {
    forall i :: 0 <= i < |cs| ==> EntryValid(cs[i])
  }

  /** The entry "Add Another Certification" appends. */
  const Blank := CertificationFields("", "", "")

  function FieldsOf(lib: DateLib, c: Certification): (r: CertificationFields)
    ensures r.name == c.name && r.issuer == c.issuer && r.date == lib.isoString(c.date)
  {
    CertificationFields(c.name, c.issuer, lib.isoString(c.date))
  }

  /** One entry per stored certification, in order; none when the store holds none. */
  function Defaults(lib: DateLib, stored: seq<Certification>): (r: seq<CertificationFields>)
    ensures |r| == |stored|
    ensures forall i :: 0 <= i < |stored| ==> r[i] == FieldsOf(lib, stored[i])
  {
    Map(c => FieldsOf(lib, c), stored)
  }

  predicate ShowsPlaceholder(fields: seq<CertificationFields>)
  {
    |fields| == 0
  }

  predicate AutoSaveGate(cs: seq<CertificationFields>)
  {
    forall i :: 0 <= i < |cs| ==> cs[i].name != "" && cs[i].issuer != "" && cs[i].date != ""
  }

  function EntryOf(lib: DateLib, f: CertificationFields): (r: Certification)
    ensures r.name == f.name && r.issuer == f.issuer && r.date == lib.parse(f.date)
  {
    Certification(f.name, f.issuer, lib.parse(f.date))
  }

  /** `onSubmit`: order and count kept, under the `certifications` key alone. */
  function Commit(lib: DateLib, cs: seq<CertificationFields>): (r: FormPatch)
    ensures forall k :: Has(r, k) <==> k == CertificationsKey
    ensures r.certifications.Some? && |r.certifications.value| == |cs|
    ensures forall i :: 0 <= i < |cs| ==> r.certifications.value[i] == EntryOf(lib, cs[i])
  {
    EmptyPatch.(certifications := Some(Map(f => EntryOf(lib, f), cs)))
  }

  function OnChange(lib: DateLib, cs: seq<CertificationFields>): (r: Option<FormPatch>)
    ensures r.Some? <==> (forall i :: 0 <= i < |cs| ==> |cs[i].name| > 0 && |cs[i].issuer| > 0 && |cs[i].date| > 0)
    ensures r.Some? ==> r.value == Commit(lib, cs)
  {
    if AutoSaveGate(cs) then Some(Commit(lib, cs)) else None
  }

  /** An empty store opens the step with no entry and the placeholder; the
      empty list is valid and is saved as `[]`. */
  lemma EmptyStoreShowsPlaceholder(lib: DateLib)
    ensures Defaults(lib, []) == [] && ShowsPlaceholder(Defaults(lib, []))
    ensures SchemaValid([])
    ensures OnChange(lib, []).Some? && Commit(lib, []).certifications == Some([])
  {
  }

  lemma ValidPassesGate(cs: seq<CertificationFields>)
    requires SchemaValid(cs)
    ensures AutoSaveGate(cs)
  {
    forall i | 0 <= i < |cs| ensures cs[i].name != "" && cs[i].issuer != "" && cs[i].date != "" {
      assert EntryValid(cs[i]);
    }
  }

  /** One-letter name and issuer are saved although the schema rejects them. */
  lemma GateLetsInvalidThrough(lib: DateLib)
    ensures var cs := [CertificationFields("A", "B", "2020-01-01")];
      OnChange(lib, cs).Some? && !SchemaValid(cs)
  {
    var cs := [CertificationFields("A", "B", "2020-01-01")];
    assert !EntryValid(cs[0]);
  }

  /** Opening the step and saving it unchanged gives back what the store held,
      provided the stored dates survive the ISO rendering. */
  lemma SeedThenCommitRestores(lib: DateLib, stored: seq<Certification>)
    requires forall i :: 0 <= i < |stored| ==> IsoRoundTrips(lib, stored[i].date)
    ensures Commit(lib, Defaults(lib, stored)).certifications == Some(stored)
  {
    var fields := Defaults(lib, stored);
    var back := Commit(lib, fields).certifications.value;
    assert |back| == |stored|;
    forall i | 0 <= i < |stored| ensures back[i] == stored[i] {
      assert fields[i] == FieldsOf(lib, stored[i]);
      assert back[i] == EntryOf(lib, fields[i]);
    }
    assert back == stored;
  }

  /** Once a certification has been added, the list cannot become empty again. */
  lemma NonEmptyStaysNonEmpty(fields: seq<CertificationFields>, ops: seq<FieldArray.EditOp<CertificationFields>>)
    requires |fields| >= 1
    ensures |FieldArray.EditAll(fields, ops)| >= 1
  {
    FieldArray.EditsKeepNonEmpty(fields, ops);
  }
}
