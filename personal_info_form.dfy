/** Step "Personal Information": schema, default values and the auto-save
    that dispatches every change. */
module PersonalInfoForm {
  import opened Common
  import opened ResumeCreation

  /** An optional URL field: absent, or present and accepted by the URL check. */
  predicate OptionalUrl(checks: FormatChecks, s: Option<string>)
  {
    s.None? || checks.isUrl(s.value)
  }

  /** `personalInfoSchema`. */
  predicate SchemaValid(checks: FormatChecks, p: PersonalInfo)
  {
    && |p.fullName| >= 2
    && checks.isEmail(p.email)
    && OptionalUrl(checks, p.linkedin)
    && OptionalUrl(checks, p.website)
  }

  /** The form's default values: the stored personal info, or every field empty. */
  function Defaults(stored: Option<PersonalInfo>): (r: PersonalInfo)
    ensures stored.Some? ==> r == stored.value
    ensures stored.None? ==> (r.fullName == "" && r.email == "" &&
      r.phone == Some("") && r.address == Some("") && r.linkedin == Some("") && r.website == Some(""))
  {
    if stored.Some? then stored.value else PersonalInfo("", "", Some(""), Some(""), Some(""), Some(""))
  }

  /** `onSubmit`: the payload carries the form values under `personalInfo` and nothing else. */
  function Commit(p: PersonalInfo): (r: FormPatch)
    ensures forall k :: Has(r, k) <==> k == PersonalInfoKey
    ensures r.personalInfo == Some(Some(p))
  {
    EmptyPatch.(personalInfo := Some(Some(p)))
  }

  /** The watch callback: every change is committed, without running the schema. */
  function OnChange(p: PersonalInfo): (r: Option<FormPatch>)
    ensures r.Some?
    ensures forall k :: Has(r.value, k) <==> k == PersonalInfoKey
    ensures r.value.personalInfo == Some(Some(p))
  {
    Some(Commit(p))
  }

  /** Phone and address are optional and unconstrained: no value of theirs
      changes the schema's verdict. */
  lemma SchemaIgnoresPhoneAndAddress(checks: FormatChecks, p: PersonalInfo, phone: Option<string>, address: Option<string>)
    ensures SchemaValid(checks, p) <==> SchemaValid(checks, p.(phone := phone, address := address))
  {
  }

  /** A full name shorter than two characters is rejected whatever the other fields hold. */
  lemma ShortNameRejected(checks: FormatChecks, p: PersonalInfo)
    requires |p.fullName| < 2
    ensures !SchemaValid(checks, p)
  {
  }

  /** Present-but-empty LinkedIn and website values are valid only if the URL
      check accepts the empty string. */
  lemma EmptyUrlNeedsUrlCheck(checks: FormatChecks, p: PersonalInfo)
    requires p.linkedin == Some("")
    ensures SchemaValid(checks, p) ==> checks.isUrl("")
  {
  }

  /** Every value the schema rejects reaches the store all the same, the
      blank defaults among them; the rest of the draft is kept. */
  lemma InvalidValuesReachStore(checks: FormatChecks, s: State, p: PersonalInfo)
    requires !SchemaValid(checks, p)
    ensures var r := Reduce(s, UpdateFormData(OnChange(p).value));
      r.formData.personalInfo == Some(p) && r.step == s.step &&
      forall k :: k != PersonalInfoKey ==> Agrees(s.formData, r.formData, k)
    ensures !SchemaValid(checks, Defaults(None))
  {
    forall k {
      UpdateReplacesOnlyPayloadKeys(s, OnChange(p).value, k);
    }
  }

  /** What a change commits is what the form shows when the step is opened again. */
  lemma CommitThenReopen(s: State, p: PersonalInfo)
    ensures Defaults(Reduce(s, UpdateFormData(Commit(p))).formData.personalInfo) == p
  {
    UpdateReplacesOnlyPayloadKeys(s, Commit(p), PersonalInfoKey);
  }
}
