/** The data a resume template renders, its display variant, and the
    template catalogue entry with the Toronto constant. */
module TemplateTypes {
  import opened Common
  import opened ResumeCreation

  /** `ResumeTemplateData`. The interface declares personalInfo and
      professionalSummary non-null, but the preview forwards them with a
      non-null assertion and no check, so either may arrive as null. */
  datatype TemplateData = TemplateData(
    personalInfo: Option<PersonalInfo>,
    professionalSummary: Option<ProfessionalSummary>,
    workExperiences: seq<WorkExperience>,
    educations: seq<Education>,
    skills: seq<Skill>,
    projects: seq<Project>,
    languages: seq<Language>,
    certifications: seq<Certification>)

  /** `variant: 'preview' | 'full'`. */
  datatype Variant = PreviewVariant | FullVariant

  /** `TemplateConfig` without its colour and font-size tables. */
  datatype TemplateConfig = TemplateConfig(id: string, name: string, description: string, isAvailableInFree: bool)

  /** `torontoConfig`. */
  const TorontoConfig := TemplateConfig(
    "toronto", "Toronto", "Clean and professional template ideal for corporate positions", true)
}
