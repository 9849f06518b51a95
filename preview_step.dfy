/** The last wizard step: the draft projected into template data, the two
    tabs that render it with the chosen template, and the flags of the panel
    (the active tab and the "generating PDF" busy flag). */
module PreviewStep {
  import opened Common
  import opened ResumeCreation
  import opened TemplateTypes
  import opened TorontoSections
  import TorontoWeb
  import TorontoPdf

  /** `resumeData`: the eight content categories of the draft, copied as
      they are; the title is dropped. personalInfo and professionalSummary
      are forwarded with a non-null assertion, so a null one arrives null. */
  function ResumeDataOf(fd: FormData): (r: TemplateData)
    ensures r.personalInfo == fd.personalInfo && r.professionalSummary == fd.professionalSummary
    ensures r.workExperiences == fd.workExperiences && r.educations == fd.educations
    ensures r.skills == fd.skills && r.languages == fd.languages
    ensures r.certifications == fd.certifications && r.projects == fd.projects
  {
    TemplateData(fd.personalInfo, fd.professionalSummary, fd.workExperiences, fd.educations,
      fd.skills, fd.projects, fd.languages, fd.certifications)
  }

  /** Two drafts give the same template data iff they agree on every key but the title. */
  lemma ResumeDataForgetsOnlyTitle(a: FormData, b: FormData)
    ensures ResumeDataOf(a) == ResumeDataOf(b) <==> forall k :: k != TitleKey ==> Agrees(a, b, k)
  {
    if forall k :: k != TitleKey ==> Agrees(a, b, k) {
      assert Agrees(a, b, PersonalInfoKey) && Agrees(a, b, ProfessionalSummaryKey);
      assert Agrees(a, b, WorkExperiencesKey) && Agrees(a, b, EducationsKey);
      assert Agrees(a, b, SkillsKey) && Agrees(a, b, LanguagesKey);
      assert Agrees(a, b, CertificationsKey) && Agrees(a, b, ProjectsKey);
    }
  }

  /** The title and the template data together give back the draft. */
  function DraftOf(title: string, d: TemplateData): (r: FormData)
    ensures r.title == title
  {
    FormData(title, d.personalInfo, d.professionalSummary, d.workExperiences, d.educations,
      d.skills, d.languages, d.certifications, d.projects)
  }

  lemma ResumeDataRoundTrip(fd: FormData, title: string, d: TemplateData)
    ensures DraftOf(fd.title, ResumeDataOf(fd)) == fd
    ensures ResumeDataOf(DraftOf(title, d)) == d
  {
  }

  /** The two tabs, `'web'` and `'pdf'`. */
  datatype Tab = WebTab | PdfTab

  /** What a tab's card holds: nothing (a template other than Toronto, or
      none chosen), the rendered page, or the error the template throws when
      personalInfo is null. */
  datatype TabView = Empty | WebView(page: TorontoWeb.WebPage) | PdfView(doc: TorontoPdf.PdfDocument) | RenderError

  /** The content of `tab` for the store state `s`: the Toronto template in
      its 'full' variant when the template id is exactly "toronto". */
  function ViewOf(s: State, tab: Tab): (r: TabView)
    ensures r.Empty? <==> s.templateId != Some("toronto")
    ensures r.RenderError? <==> s.templateId == Some("toronto") && s.formData.personalInfo.None?
    ensures r.WebView? ==> (tab == WebTab && !r.page.scaled && |r.page.sections| >= 1 &&
                            r.page.sections[0] == TorontoWeb.WebHeader(s.formData.personalInfo.value) &&
                            r.page.sections[1..] == Body(ResumeDataOf(s.formData)))
    ensures r.PdfView? ==> (tab == PdfTab && |r.doc.pages| == 1 && |r.doc.pages[0].sections| >= 1 &&
                            r.doc.pages[0].sections[0] == TorontoPdf.PdfHeader(s.formData.personalInfo.value) &&
                            r.doc.pages[0].sections[1..] == Body(ResumeDataOf(s.formData)))
  {
    if s.templateId != Some("toronto") then Empty
    else
      var d := ResumeDataOf(s.formData);
      match tab
      case WebTab => (match TorontoWeb.Render(d, FullVariant) case Some(page) => WebView(page) case None => RenderError)
      case PdfTab => (match TorontoPdf.Render(d) case Some(doc) => PdfView(doc) case None => RenderError)
  }

  /** Both tabs render or both stay empty, and below their headers they
      show the same sections; the title plays no part. */
  lemma TabsAgree(s: State)
    ensures ViewOf(s, WebTab).Empty? <==> ViewOf(s, PdfTab).Empty?
    ensures ViewOf(s, WebTab).RenderError? <==> ViewOf(s, PdfTab).RenderError?
    ensures ViewOf(s, WebTab).WebView? <==> ViewOf(s, PdfTab).PdfView?
    ensures ViewOf(s, WebTab).WebView? ==>
      ViewOf(s, WebTab).page.sections[1..] == ViewOf(s, PdfTab).doc.pages[0].sections[1..]
  {
  }

  /** Choosing Toronto in the store makes the tabs render, provided personalInfo is set. */
  lemma ChoosingTorontoRenders(s: State, tab: Tab)
    requires s.formData.personalInfo.Some?
    ensures !ViewOf(s, tab).Empty? <==> s.templateId == Some("toronto")
    ensures ViewOf(Reduce(s, SetTemplate("toronto")), tab).WebView? || ViewOf(Reduce(s, SetTemplate("toronto")), tab).PdfView?
  {
    SetTemplateOnlySetsTemplate(s, "toronto");
  }

  /** The panel's two flags. */
  datatype PanelFlags = PanelFlags(isGeneratingPdf: bool, activeTab: Tab)

  const InitialFlags := PanelFlags(false, WebTab)

  /** The Download button is disabled while a PDF is being generated. */
  predicate DownloadDisabled(f: PanelFlags)
  {
    f.isGeneratingPdf
  }

  function DownloadLabel(f: PanelFlags): (r: string)
    ensures r == "Generating PDF..." <==> DownloadDisabled(f)
    ensures r == "Download PDF" <==> !DownloadDisabled(f)
  {
    if f.isGeneratingPdf then "Generating PDF..." else "Download PDF"
  }

  /** A click on Download: ignored by the disabled button while busy,
      otherwise the handler raises the busy flag on entry. */
  function AfterClick(f: PanelFlags): (r: PanelFlags)
    ensures r.isGeneratingPdf && r.activeTab == f.activeTab
  {
    if DownloadDisabled(f) then f else f.(isGeneratingPdf := true)
  }

  /** The handler's `finally`: the busy flag drops whether generation
      succeeded or `failed`. */
  function AfterSettle(f: PanelFlags, failed: bool): (r: PanelFlags)
    ensures !r.isGeneratingPdf && r.activeTab == f.activeTab
  {
    f.(isGeneratingPdf := false)
  }

  /** A click while busy starts nothing new; a click then its settling,
      failed or not, returns the panel to where it was before, if it was idle. */
  lemma DownloadCycle(f: PanelFlags, failed: bool)
    ensures AfterClick(AfterClick(f)) == AfterClick(f)
    ensures !f.isGeneratingPdf ==> AfterSettle(AfterClick(f), failed) == f
    ensures DownloadDisabled(AfterClick(f)) && !DownloadDisabled(AfterSettle(f, failed))
  {
  }

  /** "Edit Resume" and the tab triggers change only the active tab. */
  function WithTab(f: PanelFlags, t: Tab): (r: PanelFlags)
    ensures r.activeTab == t && r.isGeneratingPdf == f.isGeneratingPdf
  {
    f.(activeTab := t)
  }

  /** The panel's state as the component holds it. */
  class PreviewPanel {
    var isGeneratingPdf: bool
    var activeTab: Tab

    function Flags(): PanelFlags
      reads this
    {
      PanelFlags(isGeneratingPdf, activeTab)
    }

    constructor ()
      ensures Flags() == InitialFlags
    {
      isGeneratingPdf := false;
      activeTab := WebTab;
    }

    /** A click on a tab trigger (`onValueChange`). */
    method SetActiveTab(t: Tab)
      modifies this
      ensures Flags() == WithTab(old(Flags()), t)
    {
      activeTab := t;
    }

    /** "Edit Resume": back to the web tab; the wizard step is not touched. */
    method EditResume()
      modifies this
      ensures Flags() == WithTab(old(Flags()), WebTab)
    {
      activeTab := WebTab;
    }

    /** A click on Download; `started` tells whether the handler ran. */
    method ClickDownload() returns (started: bool)
      modifies this
      ensures started <==> !old(isGeneratingPdf)
      ensures Flags() == AfterClick(old(Flags()))
    {
      started := !isGeneratingPdf;
      if started {
        isGeneratingPdf := true;
      }
    }

    /** The end of generation, successful or `failed`. */
    method SettleDownload(failed: bool)
      modifies this
      ensures Flags() == AfterSettle(old(Flags()), failed)
    {
      isGeneratingPdf := false;
    }
  }
}
