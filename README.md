# Resume-creation wizard: a Dafny model

This project models the client-side core of a resume builder written in
TypeScript and React. The builder is a wizard. Its parts are:

- **The wizard store.** `resumeCreationReducer` handles five actions over the
  draft `(step, templateId, formData)`: SET_TEMPLATE, NEXT_STEP, PREV_STEP,
  SET_STEP and UPDATE_FORM_DATA. Any other action leaves the draft unchanged.
- **Eight form steps.** These are personal information, professional
  summary, work experience, education, skills, languages, projects and
  certifications. Each step has:
  - a validation schema;
  - default values seeded from the store;
  - an auto-save gate, checked on every change, that decides whether the
    change is dispatched;
  - a commit that turns the form values into a one-key UPDATE_FORM_DATA
    payload.

  The list-valued steps also have "Add Another" and "Remove" buttons.
- **The Toronto template.** It has a web rendering and a PDF rendering.
  Both turn the template data into an ordered list of sections: header,
  summary, work, education, skills, languages, certifications, projects.
- **Presentation rules.** These cover the preview step (template data, tabs
  and the busy flag of the PDF download), the step indicator, and the
  template gallery.

Each source file is one Dafny module:

| module | file |
|---|---|
| `ResumeCreation` | `resume_creation.dfy` |
| `FieldArray` (the shared add/remove list editing) | `field_array.dfy` |
| `PersonalInfoForm`, `ProfessionalSummaryForm`, `WorkExperienceForm`, `EducationForm`, `SkillsForm`, `LanguagesForm`, `ProjectsForm`, `CertificationsForm` | one file per form step |
| `FormSteps` (the cross-step "only its category changes" results) | `form_steps.dfy` |
| `TemplateTypes` (template data and the Toronto catalogue entry) | `template_types.dfy` |
| `TorontoSections` (the body shared by both renderings, and the header machinery) | `toronto_sections.dfy` |
| `TorontoWeb` | `toronto_web.dfy` |
| `TorontoPdf` | `toronto_pdf.dfy` |
| `PreviewData` (the gallery's sample resume) | `preview_data.dfy` |
| `PreviewStep` | `preview_step.dfy` |
| `StepsIndicator` | `steps.dfy` |
| `TemplateSelector` | `template_selector.dfy` |

`Common` holds `Option`, JavaScript truthiness of an optional string, a
generic `Map` (`Array.prototype.map`) and ASCII lower-casing.

Some behaviour comes from libraries, so it enters the model as parameters:

- The date library (`new Date(s)`, `toISOString()` and its `yyyy-mm-dd`
  prefix) is a `DateLib` record of three functions. Round trips are stated
  as explicit assumptions about it (`DayRoundTrips`, `IsoRoundTrips`).
- zod's `.email()` and `.url()` checks are a `FormatChecks` record of two
  predicates.
- zod's `.min(n)` is a bound on the length of a `seq<char>`.

The reducer bounds neither NEXT_STEP nor SET_STEP: NEXT_STEP adds one
without bound, SET_STEP stores any number, and only PREV_STEP is clamped, at
1. The upper bound (`state.step < steps.length`,
`src/app/(app)/resumes/create/form/page.tsx:146`) and the per-step data check
(`src/app/(app)/resumes/create/form/page.tsx:53-143`) live in the wizard
page, which is not part of this model.

## Model

All source paths are under `src/`.

| member | source | states |
|---|---|---|
| `Common.Map` | src/components/resume/form-steps/WorkExperienceForm.tsx:50-54 | the mapped list has the same length and holds `f` of each element at the same position (one-to-one, order kept) |
| `Common.ToLower` | src/components/resume-templates/toronto/index.tsx:113 | same length, each character lower-cased, no upper-case letter left |
| `ResumeCreation.Merge` | src/contexts/ResumeCreationContext.tsx:107-114 | every key the payload carries takes the payload's value; every other key keeps its value |
| `ResumeCreation.AgreesEverywhere` | src/contexts/ResumeCreationContext.tsx:6-62 | two drafts that agree on all nine keys are equal |
| `ResumeCreation.InitialStateIsEmpty` | src/contexts/ResumeCreationContext.tsx:64-78 | the initial draft is at step 1 with no template, an empty title, null personal info and summary, and six empty lists |
| `ResumeCreation.SetTemplateOnlySetsTemplate` | src/contexts/ResumeCreationContext.tsx:87-91 | SET_TEMPLATE sets the template id to its payload; the step and the form data are unchanged |
| `ResumeCreation.NextStepIsUnbounded` | src/contexts/ResumeCreationContext.tsx:92-96 | NEXT_STEP adds exactly one to the step, with no upper bound and no look at the template or the data |
| `ResumeCreation.PrevStepIsFloored` | src/contexts/ResumeCreationContext.tsx:97-101 | PREV_STEP yields 1 from any step at or below 1, otherwise the step minus one; nothing else changes |
| `ResumeCreation.SetStepIsUnchecked` | src/contexts/ResumeCreationContext.tsx:102-106 | SET_STEP stores any number, including 0, negatives and steps past the last; nothing else changes |
| `ResumeCreation.UpdateReplacesOnlyPayloadKeys` | src/contexts/ResumeCreationContext.tsx:107-114 | UPDATE_FORM_DATA replaces exactly the payload's keys, keeps every other key, and leaves the step and the template alone |
| `ResumeCreation.UpdateIsIdempotent` | src/contexts/ResumeCreationContext.tsx:107-114 | applying the same update twice equals applying it once |
| `ResumeCreation.EmptyUpdateIsIdentity` | src/contexts/ResumeCreationContext.tsx:107-114 | an update with an empty payload changes nothing |
| `ResumeCreation.UnrecognisedIsIgnored` | src/contexts/ResumeCreationContext.tsx:115-116 | an action of any other type returns the draft unchanged |
| `ResumeCreation.StepStaysPositive` | src/contexts/ResumeCreationContext.tsx:92-101 | from a step of at least 1, no sequence of actions without SET_STEP takes the step below 1 (by induction over the actions) |
| `ResumeCreation.ReachableStepIsPositive` | src/contexts/ResumeCreationContext.tsx:65 | from the initial draft, every sequence of actions without SET_STEP keeps the step at 1 or more |
| `ResumeCreation.PrevUndoesNext` | src/contexts/ResumeCreationContext.tsx:92-101 | PREV_STEP right after NEXT_STEP restores the draft whenever the step is at least 1 |
| `ResumeCreation.ResumeCreationStore.constructor` | src/contexts/ResumeCreationContext.tsx:64-78 | a new store holds the initial draft |
| `ResumeCreation.ResumeCreationStore.Dispatch` | src/contexts/ResumeCreationContext.tsx:85-118 | the store's new draft is the reducer applied to the old draft and the action |
| `FieldArray.Edit` | src/components/resume/form-steps/WorkExperienceForm.tsx:152-181 | "Add" appends the entry at the end; "Remove" of a rendered button deletes exactly that entry and keeps the others in order; a "Remove" with one entry or fewer changes nothing |
| `FieldArray.EditKeepsNonEmpty` | src/components/resume/form-steps/WorkExperienceForm.tsx:152-163 | one event never empties a non-empty list and never removes more than one entry |
| `FieldArray.EditsKeepNonEmpty` | src/components/resume/form-steps/EducationForm.tsx:149-160 | once a list holds an entry, no series of events empties it (by induction over the events) |
| `FieldArray.EmptyStaysEmptyWithoutAppend` | src/components/resume/form-steps/LanguagesForm.tsx:123-134 | an empty list stays empty under any series of "Remove" clicks |
| `FieldArray.FieldList.constructor` | src/components/resume/form-steps/WorkExperienceForm.tsx:44-47 | the field array starts from the default values |
| `FieldArray.FieldList.Append` | src/components/resume/form-steps/SkillsForm.tsx:135-138 | the list becomes the old list with the entry at the end |
| `FieldArray.FieldList.Remove` | src/components/resume/form-steps/ProjectsForm.tsx:124-135 | the list becomes the edit of the old list; a non-empty list stays non-empty |
| `PersonalInfoForm.Defaults` | src/components/resume/form-steps/PersonalInfoForm.tsx:28-35 | the stored personal info when there is one, otherwise all six fields empty |
| `PersonalInfoForm.Commit` | src/components/resume/form-steps/PersonalInfoForm.tsx:38-45 | the payload carries the form values under `personalInfo` and no other key |
| `PersonalInfoForm.OnChange` | src/components/resume/form-steps/PersonalInfoForm.tsx:48-53 | every change yields a patch that carries exactly the `personalInfo` key with the form values; no schema condition is checked |
| `PersonalInfoForm.SchemaIgnoresPhoneAndAddress` | src/components/resume/form-steps/PersonalInfoForm.tsx:15-16 | no phone or address value changes the schema's verdict |
| `PersonalInfoForm.ShortNameRejected` | src/components/resume/form-steps/PersonalInfoForm.tsx:13 | a full name shorter than two characters fails the schema whatever the other fields hold |
| `PersonalInfoForm.EmptyUrlNeedsUrlCheck` | src/components/resume/form-steps/PersonalInfoForm.tsx:17-18 | a present LinkedIn value, even an empty one, must pass the URL check |
| `PersonalInfoForm.InvalidValuesReachStore` | src/components/resume/form-steps/PersonalInfoForm.tsx:49-51 | every value the schema rejects is stored all the same, the rest of the draft and the step kept; the blank defaults are such a value |
| `PersonalInfoForm.CommitThenReopen` | src/components/resume/form-steps/PersonalInfoForm.tsx:28-45 | what a change stores is what the step shows when it is opened again |
| `ProfessionalSummaryForm.Defaults` | src/components/resume/form-steps/ProfessionalSummaryForm.tsx:23-25 | the stored summary, or an empty one |
| `ProfessionalSummaryForm.Commit` | src/components/resume/form-steps/ProfessionalSummaryForm.tsx:28-35 | the payload carries only `professionalSummary` |
| `ProfessionalSummaryForm.OnChange` | src/components/resume/form-steps/ProfessionalSummaryForm.tsx:38-43 | every change yields a patch that carries exactly the `professionalSummary` key with the form value; no schema condition is checked |
| `ProfessionalSummaryForm.ShortSummaryIsStored` | src/components/resume/form-steps/ProfessionalSummaryForm.tsx:13 | a summary under 50 characters fails the schema and is stored all the same |
| `ProfessionalSummaryForm.CommitThenReopen` | src/components/resume/form-steps/ProfessionalSummaryForm.tsx:23-35 | what a change stores is what the step shows when it is opened again |
| `WorkExperienceForm.FieldsOf` | src/components/resume/form-steps/WorkExperienceForm.tsx:35-39 | a stored experience is shown with the same texts, its dates as `yyyy-mm-dd`, and an end date iff it has one |
| `WorkExperienceForm.Defaults` | src/components/resume/form-steps/WorkExperienceForm.tsx:33-41 | the stored experiences shown one-to-one in order, or exactly one blank entry; never empty |
| `WorkExperienceForm.EntryOf` | src/components/resume/form-steps/WorkExperienceForm.tsx:50-54 | texts are kept, the start date is parsed, and an empty or missing end date becomes undefined |
| `WorkExperienceForm.Commit` | src/components/resume/form-steps/WorkExperienceForm.tsx:49-62 | the entries converted one-to-one in order, under `workExperiences` alone |
| `WorkExperienceForm.OnChange` | src/components/resume/form-steps/WorkExperienceForm.tsx:66-74 | a change is committed iff every entry has a non-empty start date |
| `WorkExperienceForm.ValidPassesGate` | src/components/resume/form-steps/WorkExperienceForm.tsx:17-23 | whatever the schema accepts passes the auto-save gate |
| `WorkExperienceForm.GateLetsInvalidThrough` | src/components/resume/form-steps/WorkExperienceForm.tsx:69 | an entry with only a start date is saved although the schema rejects it |
| `WorkExperienceForm.BlankEntriesAreNotSaved` | src/components/resume/form-steps/WorkExperienceForm.tsx:168-181 | the blank default and a freshly appended entry hold back the auto-save |
| `WorkExperienceForm.EmptyListRejected` | src/components/resume/form-steps/WorkExperienceForm.tsx:23 | the schema rejects an empty list |
| `WorkExperienceForm.SeedThenCommitRestores` | src/components/resume/form-steps/WorkExperienceForm.tsx:33-62 | opening the step and saving it unchanged gives back the stored list, given that the dates survive `yyyy-mm-dd` |
| `WorkExperienceForm.EditsNeverEmpty` | src/components/resume/form-steps/WorkExperienceForm.tsx:152-163 | no series of add and remove clicks empties the list the defaults start from |
| `EducationForm.FieldsOf` | src/components/resume/form-steps/EducationForm.tsx:34-38 | a stored education is shown with the same texts, dates as `yyyy-mm-dd`, and an end date iff it has one |
| `EducationForm.Defaults` | src/components/resume/form-steps/EducationForm.tsx:32-40 | the stored educations one-to-one in order, or exactly one blank entry |
| `EducationForm.EntryOf` | src/components/resume/form-steps/EducationForm.tsx:49-53 | texts kept, start date parsed, an empty or missing end date becomes undefined |
| `EducationForm.Commit` | src/components/resume/form-steps/EducationForm.tsx:48-61 | order and count kept, under `educations` alone |
| `EducationForm.OnChange` | src/components/resume/form-steps/EducationForm.tsx:64-72 | a change is committed iff every entry has a non-empty start date |
| `EducationForm.ValidPassesGate` | src/components/resume/form-steps/EducationForm.tsx:16-22 | whatever the schema accepts passes the gate |
| `EducationForm.GateLetsInvalidThrough` | src/components/resume/form-steps/EducationForm.tsx:67 | an entry with only a start date is saved although the schema rejects it |
| `EducationForm.EmptyListRejected` | src/components/resume/form-steps/EducationForm.tsx:22 | the schema rejects an empty list |
| `EducationForm.SeedThenCommitRestores` | src/components/resume/form-steps/EducationForm.tsx:32-61 | opening and saving unchanged gives back the stored list, given date round trips |
| `EducationForm.EditsNeverEmpty` | src/components/resume/form-steps/EducationForm.tsx:149-160 | the list never becomes empty |
| `SkillsForm.ParseLevel` | src/components/resume/form-steps/SkillsForm.tsx:22 | a string is accepted as a level only when it is that level's name |
| `SkillsForm.LevelNamesRoundTrip` | src/components/resume/form-steps/SkillsForm.tsx:27 | each of the four levels is accepted under its own name and is listed in `skillLevels` |
| `SkillsForm.Defaults` | src/components/resume/form-steps/SkillsForm.tsx:38-42 | the stored skills, or one `{name: '', level: INTERMEDIATE}` entry |
| `SkillsForm.Commit` | src/components/resume/form-steps/SkillsForm.tsx:50-57 | the skills unchanged, under `skills` alone |
| `SkillsForm.OnChange` | src/components/resume/form-steps/SkillsForm.tsx:60-68 | a change is committed iff every skill has a non-empty name |
| `SkillsForm.ValidPassesGate` | src/components/resume/form-steps/SkillsForm.tsx:24-29 | whatever the schema accepts passes the gate |
| `SkillsForm.GateLetsInvalidThrough` | src/components/resume/form-steps/SkillsForm.tsx:26 | a one-letter skill is saved although the schema rejects it |
| `SkillsForm.EmptyListRejected` | src/components/resume/form-steps/SkillsForm.tsx:28 | the schema rejects an empty list |
| `SkillsForm.SeedAndCommitAreInverse` | src/components/resume/form-steps/SkillsForm.tsx:38-57 | reopening and saving keeps a non-empty store; what is saved is what is shown next time |
| `SkillsForm.EditsNeverEmpty` | src/components/resume/form-steps/SkillsForm.tsx:119-130 | the list never becomes empty |
| `LanguagesForm.ParseLevel` | src/components/resume/form-steps/LanguagesForm.tsx:22 | a string is accepted as a level only when it is that level's name |
| `LanguagesForm.LevelNamesRoundTrip` | src/components/resume/form-steps/LanguagesForm.tsx:27 | each of the five levels is accepted under its own name and is listed in `languageLevels` |
| `LanguagesForm.Defaults` | src/components/resume/form-steps/LanguagesForm.tsx:39-41 | the stored list, which may be empty |
| `LanguagesForm.Commit` | src/components/resume/form-steps/LanguagesForm.tsx:49-56 | the languages unchanged, under `languages` alone |
| `LanguagesForm.OnChange` | src/components/resume/form-steps/LanguagesForm.tsx:59-67 | a change is committed iff every language has a non-empty name |
| `LanguagesForm.EmptyListIsValidAndSaved` | src/components/resume/form-steps/LanguagesForm.tsx:79-83 | the empty list passes the schema, shows the placeholder, passes the gate and is saved as `[]` |
| `LanguagesForm.ValidPassesGate` | src/components/resume/form-steps/LanguagesForm.tsx:24-30 | whatever the schema accepts passes the gate |
| `LanguagesForm.SeedAndCommitAreInverse` | src/components/resume/form-steps/LanguagesForm.tsx:39-56 | reopening and saving keeps the store; what is saved is what is shown next time |
| `LanguagesForm.NonEmptyStaysNonEmpty` | src/components/resume/form-steps/LanguagesForm.tsx:123-134 | once a language is added, the list cannot become empty again |
| `ProjectsForm.Defaults` | src/components/resume/form-steps/ProjectsForm.tsx:31-35 | the stored projects, or one blank entry |
| `ProjectsForm.NormalizeUrl` | src/components/resume/form-steps/ProjectsForm.tsx:45-46 | name and description kept; the url becomes undefined iff it is not truthy, and is kept otherwise |
| `ProjectsForm.Commit` | src/components/resume/form-steps/ProjectsForm.tsx:43-55 | order and count kept with urls normalised, under `projects` alone |
| `ProjectsForm.OnChange` | src/components/resume/form-steps/ProjectsForm.tsx:58-66 | a change is committed iff every project has a non-empty name and description |
| `ProjectsForm.CommitIsIdempotent` | src/components/resume/form-steps/ProjectsForm.tsx:43-55 | committed projects hold no empty url, and committing them again changes nothing |
| `ProjectsForm.SeedThenCommitRestores` | src/components/resume/form-steps/ProjectsForm.tsx:31-55 | a non-empty store without empty urls survives reopening and saving |
| `ProjectsForm.ValidPassesGate` | src/components/resume/form-steps/ProjectsForm.tsx:16-22 | whatever the schema accepts passes the gate |
| `ProjectsForm.GateLetsInvalidThrough` | src/components/resume/form-steps/ProjectsForm.tsx:59-63 | a project with a one-letter name and a short description is saved although the schema rejects it |
| `ProjectsForm.EmptyListRejected` | src/components/resume/form-steps/ProjectsForm.tsx:21 | the schema rejects an empty list |
| `ProjectsForm.EditsNeverEmpty` | src/components/resume/form-steps/ProjectsForm.tsx:124-135 | the list never becomes empty |
| `CertificationsForm.FieldsOf` | src/components/resume/form-steps/CertificationsForm.tsx:32-34 | name and issuer kept, the date shown as its ISO string |
| `CertificationsForm.Defaults` | src/components/resume/form-steps/CertificationsForm.tsx:31-35 | each stored certification shown one-to-one in order; none when the store is empty |
| `CertificationsForm.EntryOf` | src/components/resume/form-steps/CertificationsForm.tsx:45-48 | name and issuer kept, the date parsed |
| `CertificationsForm.Commit` | src/components/resume/form-steps/CertificationsForm.tsx:44-56 | order and count kept, under `certifications` alone |
| `CertificationsForm.OnChange` | src/components/resume/form-steps/CertificationsForm.tsx:59-67 | a change is committed iff every entry has a non-empty name, issuer and date |
| `CertificationsForm.EmptyStoreShowsPlaceholder` | src/components/resume/form-steps/CertificationsForm.tsx:79-83 | an empty store gives no entries and the placeholder; the empty list is valid and is saved as `[]` |
| `CertificationsForm.ValidPassesGate` | src/components/resume/form-steps/CertificationsForm.tsx:15-22 | whatever the schema accepts passes the gate |
| `CertificationsForm.GateLetsInvalidThrough` | src/components/resume/form-steps/CertificationsForm.tsx:60-64 | one-letter name and issuer are saved although the schema rejects them |
| `CertificationsForm.SeedThenCommitRestores` | src/components/resume/form-steps/CertificationsForm.tsx:31-56 | reopening and saving gives back the store, given that dates survive the ISO string |
| `CertificationsForm.NonEmptyStaysNonEmpty` | src/components/resume/form-steps/CertificationsForm.tsx:128-139 | once a certification is added, the list cannot become empty again |
| `FormSteps.Commit` | src/contexts/ResumeCreationContext.tsx:107-114 | the payload of any step carries exactly the key of that step's category |
| `FormSteps.AutoSave` | src/contexts/ResumeCreationContext.tsx:107-114 | an auto-save, when it fires, dispatches the step's commit |
| `FormSteps.CommitChangesOnlyItsCategory` | src/contexts/ResumeCreationContext.tsx:107-114 | committing any step keeps the step and the template, sets that step's category and leaves every other category as it was |
| `FormSteps.AutoSaveChangesOnlyItsCategory` | src/contexts/ResumeCreationContext.tsx:107-114 | the same for an auto-save that fires |
| `FormSteps.CommitsOfDifferentStepsCommute` | src/contexts/ResumeCreationContext.tsx:107-114 | commits of two steps with different categories give the same draft in either order |
| `TorontoSections.PeriodOf` | src/components/resume-templates/toronto/index.tsx:61-66 | the period starts at the start date and ends at the end date, or at 'Present' iff there is none |
| `TorontoSections.WorkItemOf` | src/components/resume-templates/toronto/index.tsx:52-73 | position, company and description kept, with the entry's period |
| `TorontoSections.EducationItemOf` | src/components/resume-templates/toronto/index.tsx:83-100 | the heading reads "degree in field", with the institution and the period |
| `TorontoSections.SkillText` | src/components/resume-templates/toronto/index.tsx:113 | starts with the name, followed by the lower-cased level in parentheses |
| `TorontoSections.LanguageText` | src/components/resume-templates/toronto/index.tsx:127 | starts with the name, followed by " - " and the lower-cased level |
| `TorontoSections.CertificationItemOf` | src/components/resume-templates/toronto/index.tsx:139-148 | name, issuer and date kept |
| `TorontoSections.ProjectItemOf` | src/components/resume-templates/toronto/index.tsx:159-172 | name and description kept; a link iff the url is truthy, and then the url itself |
| `TorontoSections.SectionFor` | src/components/resume-templates/toronto/index.tsx:37-175 | the section built for a kind is of that kind |
| `TorontoSections.CollectSound` | src/components/resume-templates/toronto/index.tsx:37-175 | every collected section is of a listed kind whose data is present, and is that kind's section (by induction) |
| `TorontoSections.CollectComplete` | src/components/resume-templates/toronto/index.tsx:37-175 | every listed kind whose data is present has its section collected (by induction) |
| `TorontoSections.PrependKeepsOrder` | src/components/resume-templates/toronto/index.tsx:37-175 | a section ranked before all the others keeps page order when put in front |
| `TorontoSections.CollectKeepsOrder` | src/components/resume-templates/toronto/index.tsx:37-175 | collecting over kinds in page order yields sections in page order (by induction) |
| `TorontoSections.CollectInclusion` | src/components/resume-templates/toronto/index.tsx:37-175 | a listed kind has its section collected iff its data is present |
| `TorontoSections.CollectOrderAndInclusion` | src/components/resume-templates/toronto/index.tsx:37-175 | sections in page order; a listed kind appears iff its data is present |
| `TorontoSections.BodyOrderAndInclusion` | src/components/resume-templates/toronto/index.tsx:37-175 | the body is in the fixed order summary, work, education, skills, languages, certifications, projects; each appears iff its list is non-empty, the summary iff it is non-null |
| `TorontoSections.PrependHeader` | src/components/resume-templates/toronto/index.tsx:14-175 | the header put in front of a body in page order gives a page in page order on which a kind appears iff its data is present |
| `TorontoSections.ContactLinesSound` | src/components/resume-templates/toronto/index.tsx:14-34 | each contact line is of a listed, shown field, holds that field's value and is a link iff the field is linked |
| `TorontoSections.ContactLinesComplete` | src/components/resume-templates/toronto/index.tsx:14-34 | every listed field that is shown has a line |
| `TorontoSections.ContactLinesOrdered` | src/components/resume-templates/toronto/index.tsx:14-34 | contact lines follow the field order |
| `TorontoSections.ContactLinesSpec` | src/components/resume-templates/toronto/index.tsx:14-34 | a field has a line iff it is shown, with its value and link flag, in the order email, phone, address, LinkedIn, website |
| `TorontoWeb.Render` | src/components/resume-templates/toronto/index.tsx:6-175 | no page iff personal info is null; scaled iff the variant is 'preview'; the web header first, then the body |
| `TorontoWeb.WebHeaderSpec` | src/components/resume-templates/toronto/index.tsx:14-34 | the full name always; a line for a field iff it is truthy, the email included; never a link; fields in order |
| `TorontoWeb.WebPageLayout` | src/components/resume-templates/toronto/index.tsx:14-175 | the whole page is in page order with the header first; a section kind appears iff its data is present |
| `TorontoWeb.VariantOnlyScales` | src/components/resume-templates/toronto/index.tsx:10-12 | only 'preview' scales; the sections do not depend on the variant |
| `TorontoPdf.Render` | src/components/resume-templates/toronto/pdf.tsx:68-219 | no document iff personal info is null; otherwise one A4 page with the PDF header first, then the body |
| `TorontoPdf.PdfHeaderSpec` | src/components/resume-templates/toronto/pdf.tsx:74-88 | the full name; the email line always; never a website line; phone, address and LinkedIn iff truthy; only LinkedIn is a link; fields in order |
| `TorontoPdf.HeaderDivergence` | src/components/resume-templates/toronto/pdf.tsx:75-87 | the web header shows the email iff non-empty and the website iff truthy; the PDF header always shows the email and never the website; on other fields they agree |
| `TorontoPdf.HeadersAgreeWithoutWebsite` | src/components/resume-templates/toronto/pdf.tsx:75-87 | with a non-empty email and no website, both headers list the same fields |
| `TorontoPdf.PdfPageLayout` | src/components/resume-templates/toronto/pdf.tsx:72-215 | the PDF page is in page order with the header first; a section kind appears iff its data is present |
| `TorontoPdf.SameBodyAsWeb` | src/components/resume-templates/toronto/pdf.tsx:90-215 | below the header, the PDF page and the web page hold the same sections |
| `PreviewData.SampleDataIsSampleShaped` | src/components/resume/template-preview-data.ts:4-42 | the sample has personal info, a summary, non-empty work, education, skills and languages, and no certifications or projects |
| `PreviewData.SampleSections` | src/components/resume/template-preview-data.ts:4-42 | for such data both renderings exist, are in page order, and hold every section except certifications and projects |
| `PreviewData.SampleHeaders` | src/components/resume/template-preview-data.ts:5-11 | the sample's web and PDF headers both list exactly email, phone and LinkedIn |
| `PreviewStep.ResumeDataOf` | src/components/resume/form-steps/PreviewStep.tsx:23-32 | the eight categories copied unchanged, null personal info and summary included |
| `PreviewStep.ResumeDataForgetsOnlyTitle` | src/components/resume/form-steps/PreviewStep.tsx:23-32 | two drafts give the same template data iff they agree on every key but the title |
| `PreviewStep.DraftOf` | src/components/resume/form-steps/PreviewStep.tsx:23-32 | rebuilding a draft keeps the given title |
| `PreviewStep.ResumeDataRoundTrip` | src/components/resume/form-steps/PreviewStep.tsx:23-32 | the template data and the title together give back the draft, and the other way round |
| `PreviewStep.ViewOf` | src/components/resume/form-steps/PreviewStep.tsx:72-98 | a tab is empty iff the template id is not "toronto"; it shows a render error iff Toronto is chosen with null personal info; otherwise the unscaled Toronto page |
| `PreviewStep.TabsAgree` | src/components/resume/form-steps/PreviewStep.tsx:75-94 | both tabs render or both stay empty, and below the header they show the same sections |
| `PreviewStep.ChoosingTorontoRenders` | src/components/resume/form-steps/PreviewStep.tsx:75-94 | with personal info set, a tab renders iff the template is "toronto", and SET_TEMPLATE "toronto" makes it render |
| `PreviewStep.DownloadLabel` | src/components/resume/form-steps/PreviewStep.tsx:114-124 | "Generating PDF..." iff the button is disabled, otherwise "Download PDF" |
| `PreviewStep.AfterClick` | src/components/resume/form-steps/PreviewStep.tsx:34-35 | after a click the panel is busy and on the same tab |
| `PreviewStep.AfterSettle` | src/components/resume/form-steps/PreviewStep.tsx:45-47 | after generation ends, failed or not, the panel is idle and on the same tab |
| `PreviewStep.DownloadCycle` | src/components/resume/form-steps/PreviewStep.tsx:34-47 | a click while busy changes nothing; click then settle returns an idle panel to where it was; busy disables the button |
| `PreviewStep.WithTab` | src/components/resume/form-steps/PreviewStep.tsx:60 | selecting a tab changes only the active tab |
| `PreviewStep.PreviewPanel.constructor` | src/components/resume/form-steps/PreviewStep.tsx:19-20 | the panel starts idle on the web tab |
| `PreviewStep.PreviewPanel.SetActiveTab` | src/components/resume/form-steps/PreviewStep.tsx:60 | the new flags are the old ones with the chosen tab |
| `PreviewStep.PreviewPanel.EditResume` | src/components/resume/form-steps/PreviewStep.tsx:102-107 | only the active tab changes, back to web; the wizard store is not touched |
| `PreviewStep.PreviewPanel.ClickDownload` | src/components/resume/form-steps/PreviewStep.tsx:109-112 | the handler runs iff the panel was idle, and the panel is then busy |
| `PreviewStep.PreviewPanel.SettleDownload` | src/components/resume/form-steps/PreviewStep.tsx:45-47 | the panel becomes idle, success or failure |
| `StepsIndicator.StatusOf` | src/components/ui/steps.tsx:30-34 | completed iff id < current, current iff equal, upcoming iff id > current |
| `StepsIndicator.MarkerAt` | src/components/ui/steps.tsx:16-58 | the step's id and title; title highlighted iff id ≤ current; a connector iff the step is not last, highlighted iff also id < current |
| `StepsIndicator.Render` | src/components/ui/steps.tsx:16-18 | one marker per step, in the given order |
| `StepsIndicator.HighlightAgreesWithStatus` | src/components/ui/steps.tsx:43-55 | a title is highlighted iff its step is not upcoming; a highlighted connector follows a completed step |
| `StepsIndicator.StatusesAreOrdered` | src/components/ui/steps.tsx:30-34 | with increasing ids, completed steps come first, then at most one current, then the upcoming ones |
| `StepsIndicator.Click` | src/components/ui/steps.tsx:27 | the step's id is passed iff a handler is given |
| `StepsIndicator.ClickIgnoresCurrentStep` | src/components/ui/steps.tsx:27 | the click does not depend on the current step |
| `StepsIndicator.ClickJumpsToStep` | src/components/ui/steps.tsx:27 | with the wizard's SET_STEP handler, a click moves to the clicked step whatever the current one, keeping the template and the data |
| `TemplateSelector.Label` | src/components/resume/TemplateSelector.tsx:70 | 'Premium Only' iff locked; 'Selected' iff unlocked and selected; 'Use Template' otherwise |
| `TemplateSelector.CardFor` | src/components/resume/TemplateSelector.tsx:29-71 | selected iff the selection equals the id; disabled iff not free-available and the user is FREE; the label follows |
| `TemplateSelector.Gallery` | src/components/resume/TemplateSelector.tsx:29 | one card per template, in catalogue order |
| `TemplateSelector.Click` | src/components/resume/TemplateSelector.tsx:64-68 | `onSelect` receives the card's id iff the button is not disabled |
| `TemplateSelector.PremiumAndNullSelection` | src/components/resume/TemplateSelector.tsx:30-31 | PREMIUM users are never locked out; a null selection selects nothing |
| `TemplateSelector.AtMostOneSelected` | src/components/resume/TemplateSelector.tsx:30 | with distinct ids, at most one card is selected |
| `TemplateSelector.CatalogueNeverLocked` | src/components/resume/TemplateSelector.tsx:16-19 | the catalogue holds only Toronto, which is free-available: its card is never disabled and a click selects "toronto" |
| `TemplateSelector.SelectThenSelected` | src/components/resume/TemplateSelector.tsx:30-71 | when the chosen id is dispatched as SET_TEMPLATE, the clicked card comes back selected, labelled "Selected" |

## Left out

- Date parsing and formatting (`new Date`, `toISOString`, `toLocaleDateString`) depend on the time zone and locale. They are the parameters of `DateLib`, and no property of the library is assumed beyond the round trips that some lemmas take as premises. "Invalid Date" results are not modelled.
- zod's `.email()` and `.url()` regexes are the parameters of `FormatChecks`.
- zod's `.min(n)` counts UTF-16 code units. The model counts the elements of a `seq<char>`.
- The React and react-hook-form machinery is not modelled. This covers `useEffect`, `watch` subscriptions, `useFieldArray` internals, the context provider, and `useResumeCreation` throwing outside a provider. Only its effects are modelled: the dispatched payload, and append and remove.
- The Select controls' `setValue` calls, and the partially filled watch values, are not modelled. The watch callback's `exp &&` / `skill &&` checks are not modelled either. Form values are always complete records.
- `useReducer` runs actions in order. `ResumeCreationStore.Dispatch` models one dispatch, and `Run` models a sequence of dispatches.
- A patch key present with an explicit `undefined` value is not modelled. A key is either absent (`None`) or carries a value.
- Steps are modelled as mathematical integers. NaN and non-integer step payloads are left out.
- Styling, colours, font sizes and class names are left out. So are `PDFViewer`, the `@react-pdf` drawing primitives and locale date formatting inside the templates. The sections keep their structure and the texts taken from the data.
- The simulated two-second delay of the PDF download is an asynchronous stub. Only its entry (busy) and its `finally` (idle) are modelled.
- The "Finish" button calls a callback prop that the preview step does not define.
- Radix tab mounting is left out. Both tabs' contents are modelled; which one is visible is the `activeTab` flag.
- The pages that choose which step component to show, and the account, auth, navigation and API files, are not part of this model. Only two of their facts are used, in `StepsIndicator.ClickJumpsToStep` and `TemplateSelector.SelectThenSelected`: the step click dispatches SET_STEP, and the template selection dispatches SET_TEMPLATE.
- The fixed label strings of the templates are not modelled as text: the "LinkedIn: " and "Website: " prefixes of a contact line are represented by its `ContactField` tag, the section headings by the `Section` constructors, and "Present" and "Project Link" by `Ending`'s Present and the project link field.
- `TorontoSections.SkillText`: its contract states the text through `ToLower`, which is the only place where the lower-casing is modelled; it covers ASCII letters only, not the full Unicode `toLowerCase`.
- `TorontoPdf.Render`: the PDF renderer takes a `variant` prop but never reads it, so the model has no variant parameter.
