/** The wizard store: the draft resume (current step, chosen template and the
    form data collected so far) and the reducer that every dispatched action
    goes through. */
module ResumeCreation {
  import opened Common

  datatype PersonalInfo = PersonalInfo(
    fullName: string,
    email: string,
    phone: Option<string>,
    address: Option<string>,
    linkedin: Option<string>,
    website: Option<string>)

  datatype ProfessionalSummary = ProfessionalSummary(summary: string)

  datatype WorkExperience = WorkExperience(
    company: string,
    position: string,
    startDate: Date,
    endDate: Option<Date>,
    description: string)

  datatype Education = Education(
    institution: string,
    degree: string,
    fieldOfStudy: string,
    startDate: Date,
    endDate: Option<Date>)

  datatype SkillLevel = Beginner | Intermediate | Advanced | Expert

  datatype Skill = Skill(name: string, level: SkillLevel)

  datatype LanguageLevel = Basic | Intermediate | Advanced | Fluent | Native

  datatype Language = Language(name: string, level: LanguageLevel)

  datatype Certification = Certification(name: string, issuer: string, date: Date)

  datatype Project = Project(name: string, description: string, url: Option<string>)

  /** The level as the string literal the store holds. */
  function SkillLevelName(l: SkillLevel): string
  {
    match l
    case Beginner => "BEGINNER"
    case Intermediate => "INTERMEDIATE"
    case Advanced => "ADVANCED"
    case Expert => "EXPERT"
  }

  function LanguageLevelName(l: LanguageLevel): string
  {
    match l
    case Basic => "BASIC"
    case Intermediate => "INTERMEDIATE"
    case Advanced => "ADVANCED"
    case Fluent => "FLUENT"
    case Native => "NATIVE"
  }

  datatype FormData = FormData(
    title: string,
    personalInfo: Option<PersonalInfo>,
    professionalSummary: Option<ProfessionalSummary>,
    workExperiences: seq<WorkExperience>,
    educations: seq<Education>,
    skills: seq<Skill>,
    languages: seq<Language>,
    certifications: seq<Certification>,
    projects: seq<Project>)

  datatype State = State(step: int, templateId: Option<string>, formData: FormData)

  /** A `Partial<FormData>`: a key is in the payload when its entry is `Some`. */
  datatype FormPatch = FormPatch(
    title: Option<string>,
    personalInfo: Option<Option<PersonalInfo>>,
    professionalSummary: Option<Option<ProfessionalSummary>>,
    workExperiences: Option<seq<WorkExperience>>,
    educations: Option<seq<Education>>,
    skills: Option<seq<Skill>>,
    languages: Option<seq<Language>>,
    certifications: Option<seq<Certification>>,
    projects: Option<seq<Project>>)

  const EmptyPatch := FormPatch(None, None, None, None, None, None, None, None, None)

  /** The actions of the reducer; `Unrecognised` stands for any action whose
      type is none of the five. */
  datatype Action =
    | SetTemplate(templateId: string)
    | NextStep
    | PrevStep
    | SetStep(step: int)
    | UpdateFormData(patch: FormPatch)
    | Unrecognised(actionType: string)

  /** The nine keys of the form data. */
  datatype Key =
    | TitleKey | PersonalInfoKey | ProfessionalSummaryKey | WorkExperiencesKey
    | EducationsKey | SkillsKey | LanguagesKey | CertificationsKey | ProjectsKey

  /** The payload carries key `k`. */
  predicate Has(p: FormPatch, k: Key)
  {
    match k
    case TitleKey => p.title.Some?
    case PersonalInfoKey => p.personalInfo.Some?
    case ProfessionalSummaryKey => p.professionalSummary.Some?
    case WorkExperiencesKey => p.workExperiences.Some?
    case EducationsKey => p.educations.Some?
    case SkillsKey => p.skills.Some?
    case LanguagesKey => p.languages.Some?
    case CertificationsKey => p.certifications.Some?
    case ProjectsKey => p.projects.Some?
  }

  /** Two form-data records hold the same value under key `k`. */
  predicate Agrees(a: FormData, b: FormData, k: Key)
  {
    match k
    case TitleKey => a.title == b.title
    case PersonalInfoKey => a.personalInfo == b.personalInfo
    case ProfessionalSummaryKey => a.professionalSummary == b.professionalSummary
    case WorkExperiencesKey => a.workExperiences == b.workExperiences
    case EducationsKey => a.educations == b.educations
    case SkillsKey => a.skills == b.skills
    case LanguagesKey => a.languages == b.languages
    case CertificationsKey => a.certifications == b.certifications
    case ProjectsKey => a.projects == b.projects
  }

  /** The form data holds, under key `k`, the value the payload carries for it. */
  predicate Takes(a: FormData, p: FormPatch, k: Key)
  {
    match k
    case TitleKey => p.title == Some(a.title)
    case PersonalInfoKey => p.personalInfo == Some(a.personalInfo)
    case ProfessionalSummaryKey => p.professionalSummary == Some(a.professionalSummary)
    case WorkExperiencesKey => p.workExperiences == Some(a.workExperiences)
    case EducationsKey => p.educations == Some(a.educations)
    case SkillsKey => p.skills == Some(a.skills)
    case LanguagesKey => p.languages == Some(a.languages)
    case CertificationsKey => p.certifications == Some(a.certifications)
    case ProjectsKey => p.projects == Some(a.projects)
  }

  lemma AgreesEverywhere(a: FormData, b: FormData)
    requires forall k :: Agrees(a, b, k)
    ensures a == b
  {
    assert Agrees(a, b, TitleKey) && Agrees(a, b, PersonalInfoKey) && Agrees(a, b, ProfessionalSummaryKey);
    assert Agrees(a, b, WorkExperiencesKey) && Agrees(a, b, EducationsKey) && Agrees(a, b, SkillsKey);
    assert Agrees(a, b, LanguagesKey) && Agrees(a, b, CertificationsKey) && Agrees(a, b, ProjectsKey);
  }

  function Pick<T>(update: Option<T>, current: T): T
  {
    if update.Some? then update.value else current
  }

  /** `{ ...formData, ...patch }`: each key the payload carries is replaced,
      every other key keeps its value. */
  function Merge(fd: FormData, p: FormPatch): (r: FormData)
    ensures forall k :: Has(p, k) ==> Takes(r, p, k)
    ensures forall k :: !Has(p, k) ==> Agrees(fd, r, k)
  {
    FormData(
      Pick(p.title, fd.title),
      Pick(p.personalInfo, fd.personalInfo),
      Pick(p.professionalSummary, fd.professionalSummary),
      Pick(p.workExperiences, fd.workExperiences),
      Pick(p.educations, fd.educations),
      Pick(p.skills, fd.skills),
      Pick(p.languages, fd.languages),
      Pick(p.certifications, fd.certifications),
      Pick(p.projects, fd.projects))
  }

  /** The draft a creation session starts from. */
  const InitialState := State(1, None, FormData("", None, None, [], [], [], [], [], []))

  /** `resumeCreationReducer`: a total function of the state and the action. */
  function Reduce(s: State, a: Action): State
  {
    match a
    case SetTemplate(id) => s.(templateId := Some(id))
    case NextStep => s.(step := s.step + 1)
    case PrevStep => s.(step := if s.step - 1 < 1 then 1 else s.step - 1)
    case SetStep(n) => s.(step := n)
    case UpdateFormData(p) => s.(formData := Merge(s.formData, p))
    case Unrecognised(_) => s
  }

  /** The state after dispatching `actions` one after the other. */
  function Run(s: State, actions: seq<Action>): State
    decreases |actions|
  {
    if actions == [] then s else Run(Reduce(s, actions[0]), actions[1..])
  }

  lemma InitialStateIsEmpty()
    ensures InitialState.step == 1 && InitialState.templateId == None
    ensures InitialState.formData.title == ""
    ensures InitialState.formData.personalInfo == None && InitialState.formData.professionalSummary == None
    ensures InitialState.formData.workExperiences == [] && InitialState.formData.educations == []
    ensures InitialState.formData.skills == [] && InitialState.formData.languages == []
    ensures InitialState.formData.certifications == [] && InitialState.formData.projects == []
  {
  }

  lemma SetTemplateOnlySetsTemplate(s: State, id: string)
    ensures Reduce(s, SetTemplate(id)).templateId == Some(id)
    ensures Reduce(s, SetTemplate(id)).step == s.step
    ensures Reduce(s, SetTemplate(id)).formData == s.formData
  {
  }

  /** NEXT_STEP has no upper bound and does not look at the template or the form data. */
  lemma NextStepIsUnbounded(s: State)
    ensures Reduce(s, NextStep) == State(s.step + 1, s.templateId, s.formData)
    ensures Reduce(s, NextStep).step > s.step
  {
  }

  /** PREV_STEP is floored at 1: from any step at or below 1 it yields 1,
      otherwise it goes back by exactly one. */
  lemma PrevStepIsFloored(s: State)
    ensures Reduce(s, PrevStep).step >= 1
    ensures s.step <= 1 ==> Reduce(s, PrevStep).step == 1
    ensures s.step > 1 ==> Reduce(s, PrevStep).step == s.step - 1
    ensures Reduce(s, PrevStep).templateId == s.templateId && Reduce(s, PrevStep).formData == s.formData
  {
  }

  /** SET_STEP stores any number, including 0, negatives and steps past the last one. */
  lemma SetStepIsUnchecked(s: State, n: int)
    ensures Reduce(s, SetStep(n)) == State(n, s.templateId, s.formData)
  {
  }

  /** UPDATE_FORM_DATA replaces exactly the keys of its payload and touches
      neither the step nor the template. */
  lemma UpdateReplacesOnlyPayloadKeys(s: State, p: FormPatch, k: Key)
    ensures Reduce(s, UpdateFormData(p)).step == s.step
    ensures Reduce(s, UpdateFormData(p)).templateId == s.templateId
    ensures Has(p, k) ==> Takes(Reduce(s, UpdateFormData(p)).formData, p, k)
    ensures !Has(p, k) ==> Agrees(s.formData, Reduce(s, UpdateFormData(p)).formData, k)
  {
  }

  /** Dispatching the same form-data update twice is the same as dispatching it once. */
  lemma UpdateIsIdempotent(s: State, p: FormPatch)
    ensures Reduce(Reduce(s, UpdateFormData(p)), UpdateFormData(p)) == Reduce(s, UpdateFormData(p))
  {
    var once := Reduce(s, UpdateFormData(p));
    var twice := Reduce(once, UpdateFormData(p));
    forall k ensures Agrees(once.formData, twice.formData, k) {
      if Has(p, k) {
        assert Takes(once.formData, p, k) && Takes(twice.formData, p, k);
      } else {
        assert Agrees(once.formData, twice.formData, k);
      }
    }
    AgreesEverywhere(once.formData, twice.formData);
  }

  /** An empty payload changes nothing. */
  lemma EmptyUpdateIsIdentity(s: State)
    ensures Reduce(s, UpdateFormData(EmptyPatch)) == s
  {
    var r := Reduce(s, UpdateFormData(EmptyPatch));
    forall k ensures Agrees(s.formData, r.formData, k) {
      assert !Has(EmptyPatch, k);
    }
    AgreesEverywhere(s.formData, r.formData);
  }

  lemma UnrecognisedIsIgnored(s: State, t: string)
    ensures Reduce(s, Unrecognised(t)) == s
  {
  }

  predicate NoSetStep(actions: seq<Action>)
  {
    forall i :: 0 <= i < |actions| ==> !actions[i].SetStep?
  }

  /** Without SET_STEP no sequence of actions takes the step below 1 from a
      state whose step is at least 1. */
  lemma {:induction false} StepStaysPositive(s: State, actions: seq<Action>)
    requires s.step >= 1
    requires NoSetStep(actions)
    ensures Run(s, actions).step >= 1
    decreases |actions|
  {
    if actions != [] {
      assert !actions[0].SetStep?;
      assert Reduce(s, actions[0]).step >= 1;
      assert NoSetStep(actions[1..]) by {
        forall i | 0 <= i < |actions[1..]| ensures !actions[1..][i].SetStep? {
          assert actions[1..][i] == actions[i + 1];
        }
      }
      StepStaysPositive(Reduce(s, actions[0]), actions[1..]);
    }
  }

  /** From the initial state, no action sequence without SET_STEP reaches a step below 1. */
  lemma ReachableStepIsPositive(actions: seq<Action>)
    requires NoSetStep(actions)
    ensures Run(InitialState, actions).step >= 1
  {
    StepStaysPositive(InitialState, actions);
  }

  /** PREV_STEP right after NEXT_STEP restores the state, whenever the step is at least 1. */
  lemma PrevUndoesNext(s: State)
    requires s.step >= 1
    ensures Reduce(Reduce(s, NextStep), PrevStep) == s
  {
  }

  /** The store of one creation session: `useReducer(resumeCreationReducer, initialState)`. */
  class ResumeCreationStore {
    var state: State

    constructor ()
      ensures state == InitialState
    {
      state := InitialState;
    }

    method Dispatch(action: Action)
      modifies this
      ensures state == Reduce(old(state), action)
    {
      state := Reduce(state, action);
    }
  }
}
