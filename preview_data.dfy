/** `previewData`, the sample resume shown by the template gallery, and what
    both Toronto renderings make of it. Its projects and certifications are
    empty, so neither rendering has those sections. */
module PreviewData {
  import opened Common
  import opened ResumeCreation
  import opened TemplateTypes
  import opened TorontoSections
  import TorontoWeb
  import TorontoPdf

  /** Midnight UTC of 2016-01-01, 2020-01-01 and 2023-12-31, in milliseconds. */
  const Jan2016 := Date(1451606400000)
  const Jan2020 := Date(1577836800000)
  const Dec2023 := Date(1703980800000)

  const SampleData := TemplateData(
    Some(PersonalInfo("John Doe", "john.doe@example.com", Some("+1 234 567 890"), None, Some("linkedin.com/in/johndoe"), None)),
    Some(ProfessionalSummary("Experienced software engineer with expertise in web development and cloud technologies.")),
    [WorkExperience("Tech Corp", "Senior Developer", Jan2020, Some(Dec2023),
      "Led development team, implemented key features, improved performance.")],
    [Education("University of Technology", "Bachelor", "Computer Science", Jan2016, Some(Jan2020))],
    [Skill("JavaScript", SkillLevel.Expert), Skill("React", SkillLevel.Advanced), Skill("Node.js", SkillLevel.Advanced)],
    [],
    [Language("English", LanguageLevel.Native), Language("Spanish", LanguageLevel.Intermediate)],
    [])

  /** The sample's shape: a summary, non-empty work, education, skills and
      languages, no certifications and no projects. */
  predicate SampleShaped(d: TemplateData)
  {
    d.personalInfo.Some? && d.professionalSummary.Some? &&
    |d.workExperiences| > 0 && |d.educations| > 0 && |d.skills| > 0 && |d.languages| > 0 &&
    d.certifications == [] && d.projects == []
  }

  lemma SampleDataIsSampleShaped()
    ensures SampleShaped(SampleData)
  {
  }

  /** Both renderings of a sample-shaped resume exist and hold every section
      kind except certifications and projects, in page order. */
  lemma SampleSections(d: TemplateData)
    requires SampleShaped(d)
    ensures TorontoWeb.Render(d, FullVariant).Some? && TorontoPdf.Render(d).Some?
    ensures InPageOrder(TorontoWeb.Render(d, FullVariant).value.sections)
    ensures InPageOrder(TorontoPdf.Render(d).value.pages[0].sections)
    ensures var ws := TorontoWeb.Render(d, FullVariant).value.sections;
      forall k :: (exists i :: 0 <= i < |ws| && KindOf(ws[i]) == k) <==> Included(d, k)
    ensures var ps := TorontoPdf.Render(d).value.pages[0].sections;
      forall k :: (exists i :: 0 <= i < |ps| && KindOf(ps[i]) == k) <==> Included(d, k)
    ensures forall k :: Included(d, k) <==> k != CertificationsKind && k != ProjectsKind
  {
    TorontoWeb.WebPageLayout(d, FullVariant);
    TorontoPdf.PdfPageLayout(d);
  }

  /** The sample has no address and no website: the web header lists email,
      phone and LinkedIn; the PDF header lists the same three. */
  lemma SampleHeaders()
    ensures var p := SampleData.personalInfo.value;
      (forall f :: Shows(TorontoWeb.WebHeader(p).contacts, f) <==> f in [EmailField, PhoneField, LinkedInField]) &&
      (forall f :: Shows(TorontoPdf.PdfHeader(p).contacts, f) <==> f in [EmailField, PhoneField, LinkedInField])
  {
    var p := SampleData.personalInfo.value;
    TorontoWeb.WebHeaderSpec(p);
    TorontoPdf.PdfHeaderSpec(p);
  }
}
