/** The eight form steps side by side: whatever step the user edits, its
    auto-save dispatches a payload under that step's own key, and the store
    changes in that category alone. */
module FormSteps {
  import opened Common
  import opened ResumeCreation
  import PersonalInfoForm
  import ProfessionalSummaryForm
  import WorkExperienceForm
  import EducationForm
  import SkillsForm
  import LanguagesForm
  import ProjectsForm
  import CertificationsForm

  /** The current values of one step's form. */
  datatype StepValues =
    | PersonalInfoValues(personalInfo: PersonalInfo)
    | SummaryValues(summary: ProfessionalSummary)
    | WorkValues(experiences: seq<WorkExperienceForm.ExperienceFields>)
    | EducationValues(educations: seq<EducationForm.EducationFields>)
    | SkillsValues(skills: seq<Skill>)
    | LanguagesValues(languages: seq<Language>)
    | ProjectsValues(projects: seq<Project>)
    | CertificationsValues(certifications: seq<CertificationsForm.CertificationFields>)

  /** The form-data key a step writes. */
  function CategoryOf(v: StepValues): Key
  {
    match v
    case PersonalInfoValues(_) => PersonalInfoKey
    case SummaryValues(_) => ProfessionalSummaryKey
    case WorkValues(_) => WorkExperiencesKey
    case EducationValues(_) => EducationsKey
    case SkillsValues(_) => SkillsKey
    case LanguagesValues(_) => LanguagesKey
    case ProjectsValues(_) => ProjectsKey
    case CertificationsValues(_) => CertificationsKey
  }

  /** The step's `onSubmit` payload. */
  function Commit(lib: DateLib, v: StepValues): (r: FormPatch)
    ensures forall k :: Has(r, k) <==> k == CategoryOf(v)
  {
    match v
    case PersonalInfoValues(p) => PersonalInfoForm.Commit(p)
    case SummaryValues(s) => ProfessionalSummaryForm.Commit(s)
    case WorkValues(es) => WorkExperienceForm.Commit(lib, es)
    case EducationValues(es) => EducationForm.Commit(lib, es)
    case SkillsValues(ss) => SkillsForm.Commit(ss)
    case LanguagesValues(ls) => LanguagesForm.Commit(ls)
    case ProjectsValues(ps) => ProjectsForm.Commit(ps)
    case CertificationsValues(cs) => CertificationsForm.Commit(lib, cs)
  }

  /** The step's watch callback: the payload it dispatches, if any. */
  function AutoSave(lib: DateLib, v: StepValues): (r: Option<FormPatch>)
    ensures r.Some? ==> r.value == Commit(lib, v)
  {
    match v
    case PersonalInfoValues(p) => PersonalInfoForm.OnChange(p)
    case SummaryValues(s) => ProfessionalSummaryForm.OnChange(s)
    case WorkValues(es) => WorkExperienceForm.OnChange(lib, es)
    case EducationValues(es) => EducationForm.OnChange(lib, es)
    case SkillsValues(ss) => SkillsForm.OnChange(ss)
    case LanguagesValues(ls) => LanguagesForm.OnChange(ls)
    case ProjectsValues(ps) => ProjectsForm.OnChange(ps)
    case CertificationsValues(cs) => CertificationsForm.OnChange(lib, cs)
  }

  /** Committing any single step changes only that step's category: the step
      number, the template and every other form-data key are kept, and the
      category takes the committed value. */
  lemma CommitChangesOnlyItsCategory(lib: DateLib, s: State, v: StepValues)
    ensures var t := Reduce(s, UpdateFormData(Commit(lib, v)));
      t.step == s.step && t.templateId == s.templateId &&
      Takes(t.formData, Commit(lib, v), CategoryOf(v)) &&
      forall k :: k != CategoryOf(v) ==> Agrees(s.formData, t.formData, k)
  {
    var p := Commit(lib, v);
    forall k ensures Has(p, k) ==> Takes(Reduce(s, UpdateFormData(p)).formData, p, k)
      ensures !Has(p, k) ==> Agrees(s.formData, Reduce(s, UpdateFormData(p)).formData, k)
    {
      UpdateReplacesOnlyPayloadKeys(s, p, k);
    }
  }

  /** Whatever an auto-save dispatches, it changes only its step's category. */
  lemma AutoSaveChangesOnlyItsCategory(lib: DateLib, s: State, v: StepValues)
    requires AutoSave(lib, v).Some?
    ensures var t := Reduce(s, UpdateFormData(AutoSave(lib, v).value));
      t.step == s.step && t.templateId == s.templateId &&
      forall k :: k != CategoryOf(v) ==> Agrees(s.formData, t.formData, k)
  {
    CommitChangesOnlyItsCategory(lib, s, v);
  }

  /** Commits of two different steps do not interfere: either order gives the same state. */
  lemma CommitsOfDifferentStepsCommute(lib: DateLib, s: State, v: StepValues, w: StepValues)
    requires CategoryOf(v) != CategoryOf(w)
    ensures Reduce(Reduce(s, UpdateFormData(Commit(lib, v))), UpdateFormData(Commit(lib, w)))
         == Reduce(Reduce(s, UpdateFormData(Commit(lib, w))), UpdateFormData(Commit(lib, v)))
  {
    var p, q := Commit(lib, v), Commit(lib, w);
    var vw := Reduce(Reduce(s, UpdateFormData(p)), UpdateFormData(q));
    var wv := Reduce(Reduce(s, UpdateFormData(q)), UpdateFormData(p));
    forall k ensures Agrees(vw.formData, wv.formData, k) {
      UpdateReplacesOnlyPayloadKeys(s, p, k);
      UpdateReplacesOnlyPayloadKeys(s, q, k);
      UpdateReplacesOnlyPayloadKeys(Reduce(s, UpdateFormData(p)), q, k);
      UpdateReplacesOnlyPayloadKeys(Reduce(s, UpdateFormData(q)), p, k);
    }
    AgreesEverywhere(vw.formData, wv.formData);
  }
}
