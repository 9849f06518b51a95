/** Step "Languages": the five language levels, a schema without a minimum
    count, default values that may be empty, the name-and-level auto-save
    gate and the pass-through commit. */
module LanguagesForm {
  import opened Common
  import opened ResumeCreation
  import FieldArray

  /** `languageLevels`, in the order the level picker lists them. */
  const LanguageLevels: seq<LanguageLevel> :=
    [LanguageLevel.Basic, LanguageLevel.Intermediate, LanguageLevel.Advanced, LanguageLevel.Fluent, LanguageLevel.Native]

  /** `z.enum(languageLevels)` applied to the string the level picker yields.
      The picker offers only the level names, so the form values hold a
      level already and `SchemaValid` takes it typed; this function states
      the enum check on its own, and `LevelNamesRoundTrip` shows that every
      value the picker can yield passes it. */
  function ParseLevel(s: string): (r: Option<LanguageLevel>)
    ensures r.Some? ==> LanguageLevelName(r.value) == s
  {
    if s == "BASIC" then Some(LanguageLevel.Basic)
    else if s == "INTERMEDIATE" then Some(LanguageLevel.Intermediate)
    else if s == "ADVANCED" then Some(LanguageLevel.Advanced)
    else if s == "FLUENT" then Some(LanguageLevel.Fluent)
    else if s == "NATIVE" then Some(LanguageLevel.Native)
    else None
  }

  lemma LevelNamesRoundTrip(l: LanguageLevel)
    ensures ParseLevel(LanguageLevelName(l)) == Some(l)
    ensures l in LanguageLevels
  {
  }

  /** `languagesSchema`: every name has two or more characters; there is no minimum count. */
  predicate SchemaValid(languages: seq<Language>)
  {
    forall i :: 0 <= i < |languages| ==> |languages[i].name| >= 2
  }

  /** The entry "Add Another Language" appends. */
  const Blank := Language("", LanguageLevel.Intermediate)

  /** The stored languages, which may be none; the "No items" placeholder shows iff there are none. */
  function Defaults(stored: seq<Language>): (r: seq<Language>)
    ensures r == stored
  {
    stored
  }

  predicate ShowsPlaceholder(fields: seq<Language>)
  {
    |fields| == 0
  }

  /** The auto-save gate: every language has a non-empty name (the level check always passes). */
  predicate AutoSaveGate(languages: seq<Language>)
  {
    forall i :: 0 <= i < |languages| ==> languages[i].name != ""
  }

  function Commit(languages: seq<Language>): (r: FormPatch)
    ensures forall k :: Has(r, k) <==> k == LanguagesKey
    ensures r.languages == Some(languages)
  {
    EmptyPatch.(languages := Some(languages))
  }

  function OnChange(languages: seq<Language>): (r: Option<FormPatch>)
    ensures r.Some? <==> (forall i :: 0 <= i < |languages| ==> |languages[i].name| > 0)
    ensures r.Some? ==> r.value == Commit(languages)
  {
    if AutoSaveGate(languages) then Some(Commit(languages)) else None
  }

  /** The empty list is valid, shows the placeholder, and is saved as `[]`. */
  lemma EmptyListIsValidAndSaved()
    ensures SchemaValid([]) && ShowsPlaceholder(Defaults([]))
    ensures OnChange([]) == Some(Commit([])) && Commit([]).languages == Some([])
  {
  }

  lemma ValidPassesGate(languages: seq<Language>)
    requires SchemaValid(languages)
    ensures AutoSaveGate(languages)
  {
  }

  /** Opening the step and saving it unchanged leaves the store as it was. */
  lemma SeedAndCommitAreInverse(s: State, languages: seq<Language>)
    ensures Commit(Defaults(languages)).languages == Some(languages)
    ensures Defaults(Reduce(s, UpdateFormData(Commit(languages))).formData.languages) == languages
  {
    UpdateReplacesOnlyPayloadKeys(s, Commit(languages), LanguagesKey);
  }

  /** Once a language has been added, the list cannot become empty again. */
  lemma NonEmptyStaysNonEmpty(fields: seq<Language>, ops: seq<FieldArray.EditOp<Language>>)
    requires |fields| >= 1
    ensures |FieldArray.EditAll(fields, ops)| >= 1
  {
    FieldArray.EditsKeepNonEmpty(fields, ops);
  }
}
