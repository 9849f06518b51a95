/** Step "Skills": the four skill levels, schema, default values, the
    name-and-level auto-save gate and the pass-through commit. */
module SkillsForm {
  import opened Common
  import opened ResumeCreation
  import FieldArray

  /** `skillLevels`, in the order the level picker lists them. */
  const SkillLevels: seq<SkillLevel> := [SkillLevel.Beginner, SkillLevel.Intermediate, SkillLevel.Advanced, SkillLevel.Expert]

  /** `z.enum(skillLevels)` applied to the string the level picker yields.
      The picker offers only the level names, so the form values hold a
      level already and `SchemaValid` takes it typed; this function states
      the enum check on its own, and `LevelNamesRoundTrip` shows that every
      value the picker can yield passes it. */
  function ParseLevel(s: string): (r: Option<SkillLevel>)
    ensures r.Some? ==> SkillLevelName(r.value) == s
  {
    if s == "BEGINNER" then Some(SkillLevel.Beginner)
    else if s == "INTERMEDIATE" then Some(SkillLevel.Intermediate)
    else if s == "ADVANCED" then Some(SkillLevel.Advanced)
    else if s == "EXPERT" then Some(SkillLevel.Expert)
    else None
  }

  /** The enum accepts exactly the four level names. */
  lemma LevelNamesRoundTrip(l: SkillLevel)
    ensures ParseLevel(SkillLevelName(l)) == Some(l)
    ensures l in SkillLevels
  {
  }

  /** `skillsSchema`: at least one skill, each with a name of two or more characters. */
  predicate SchemaValid(skills: seq<Skill>)
  {
    |skills| >= 1 && forall i :: 0 <= i < |skills| ==> |skills[i].name| >= 2
  }

  /** The entry shown when the store holds no skill, and the one "Add Another Skill" appends. */
  const Blank := Skill("", SkillLevel.Intermediate)

  /** The stored skills, or one blank skill. */
  function Defaults(stored: seq<Skill>): (r: seq<Skill>)
    ensures |r| >= 1
    ensures |stored| > 0 ==> r == stored
    ensures |stored| == 0 ==> r == [Blank]
  {
    if |stored| > 0 then stored else [Blank]
  }

  /** The auto-save gate: every skill has a non-empty name; the level is always
      one of the four values, so its check always passes. */
  predicate AutoSaveGate(skills: seq<Skill>)
  {
    forall i :: 0 <= i < |skills| ==> skills[i].name != ""
  }

  /** `onSubmit`: the skills unchanged, under the `skills` key alone. */
  function Commit(skills: seq<Skill>): (r: FormPatch)
    ensures forall k :: Has(r, k) <==> k == SkillsKey
    ensures r.skills == Some(skills)
  {
    EmptyPatch.(skills := Some(skills))
  }

  function OnChange(skills: seq<Skill>): (r: Option<FormPatch>)
    ensures r.Some? <==> (forall i :: 0 <= i < |skills| ==> |skills[i].name| > 0)
    ensures r.Some? ==> r.value == Commit(skills)
  {
    if AutoSaveGate(skills) then Some(Commit(skills)) else None
  }

  lemma ValidPassesGate(skills: seq<Skill>)
    requires SchemaValid(skills)
    ensures AutoSaveGate(skills)
  {
  }

  /** A one-letter skill name is saved although the schema rejects it. */
  lemma GateLetsInvalidThrough()
    ensures var skills := [Skill("C", SkillLevel.Expert)];
      OnChange(skills).Some? && !SchemaValid(skills)
  {
    var skills := [Skill("C", SkillLevel.Expert)];
    assert |skills[0].name| == 1;
  }

  lemma EmptyListRejected()
    ensures !SchemaValid([])
  {
  }

  /** Opening the step and saving it unchanged leaves a non-empty store as it was,
      and what a change saves is what the step shows when opened again. */
  lemma SeedAndCommitAreInverse(s: State, skills: seq<Skill>)
    requires |skills| > 0
    ensures Commit(Defaults(skills)).skills == Some(skills)
    ensures Defaults(Reduce(s, UpdateFormData(Commit(skills))).formData.skills) == skills
  {
    UpdateReplacesOnlyPayloadKeys(s, Commit(skills), SkillsKey);
  }

  lemma EditsNeverEmpty(stored: seq<Skill>, ops: seq<FieldArray.EditOp<Skill>>)
    ensures |FieldArray.EditAll(Defaults(stored), ops)| >= 1
  {
    FieldArray.EditsKeepNonEmpty(Defaults(stored), ops);
  }
}
