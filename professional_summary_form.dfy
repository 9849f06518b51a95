/** Step "Professional Summary": schema, default value and the auto-save
    that dispatches every change. */
module ProfessionalSummaryForm {
  import opened Common
  import opened ResumeCreation

  const MinSummaryLength := 50

  /** `professionalSummarySchema`. */
  predicate SchemaValid(s: ProfessionalSummary)
  {
    |s.summary| >= MinSummaryLength
  }

  /** The stored summary, or an empty one. */
  function Defaults(stored: Option<ProfessionalSummary>): (r: ProfessionalSummary)
    ensures stored.Some? ==> r == stored.value
    ensures stored.None? ==> r.summary == ""
  {
    if stored.Some? then stored.value else ProfessionalSummary("")
  }

  /** `onSubmit`: the payload carries only `professionalSummary`. */
  function Commit(s: ProfessionalSummary): (r: FormPatch)
    ensures forall k :: Has(r, k) <==> k == ProfessionalSummaryKey
    ensures r.professionalSummary == Some(Some(s))
  {
    EmptyPatch.(professionalSummary := Some(Some(s)))
  }

  /** The watch callback commits every change, without running the schema. */
  function OnChange(s: ProfessionalSummary): (r: Option<FormPatch>)
    ensures r.Some?
    ensures forall k :: Has(r.value, k) <==> k == ProfessionalSummaryKey
    ensures r.value.professionalSummary == Some(Some(s))
  {
    Some(Commit(s))
  }

  /** A summary shorter than 50 characters is rejected by the schema and is
      stored all the same. */
  lemma ShortSummaryIsStored(st: State, s: ProfessionalSummary)
    requires |s.summary| < MinSummaryLength
    ensures !SchemaValid(s)
    ensures Reduce(st, UpdateFormData(OnChange(s).value)).formData.professionalSummary == Some(s)
  {
    UpdateReplacesOnlyPayloadKeys(st, Commit(s), ProfessionalSummaryKey);
  }

  /** What a change commits is what the form shows when the step is opened again. */
  lemma CommitThenReopen(st: State, s: ProfessionalSummary)
    ensures Defaults(Reduce(st, UpdateFormData(Commit(s))).formData.professionalSummary) == s
  {
    UpdateReplacesOnlyPayloadKeys(st, Commit(s), ProfessionalSummaryKey);
  }
}
