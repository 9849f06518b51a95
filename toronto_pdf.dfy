/** `TorontoPDFTemplate`, the PDF rendering: one A4 page holding a header
    that always shows the email and never the website, followed by the same
    body sections as the web rendering. */
module TorontoPdf {
  import opened Common
  import opened ResumeCreation
  import opened TemplateTypes
  import opened TorontoSections
  import TorontoWeb

  /** The PDF header shows the email unconditionally, phone, address and
      LinkedIn when truthy, and never the website. */
  predicate PdfShows(p: PersonalInfo, f: ContactField)
  {
    f == EmailField || (f != WebsiteField && Filled(p, f))
  }

  /** Only the LinkedIn line is wrapped in a link. */
  predicate PdfLinked(f: ContactField)
  {
    f == LinkedInField
  }

  function PdfHeader(p: PersonalInfo): Section
  {
    Header(p.fullName, ContactLines(p, ContactOrder, f => PdfShows(p, f), f => PdfLinked(f)))
  }

  datatype PageSize = A4

  datatype PdfPage = PdfPage(size: PageSize, sections: seq<Section>)

  datatype PdfDocument = PdfDocument(pages: seq<PdfPage>)

  /** The document for `d`: a single A4 page; none when personalInfo is null. */
  function Render(d: TemplateData): (r: Option<PdfDocument>)
    ensures r.None? <==> d.personalInfo.None?
    ensures r.Some? ==> |r.value.pages| == 1 && r.value.pages[0].size == A4
    ensures r.Some? ==> |r.value.pages[0].sections| >= 1 && r.value.pages[0].sections[0] == PdfHeader(d.personalInfo.value)
    ensures r.Some? ==> r.value.pages[0].sections[1..] == Body(d)
  {
    if d.personalInfo.None? then None
    else
      var sections := [PdfHeader(d.personalInfo.value)] + Body(d);
      assert sections[1..] == Body(d);
      Some(PdfDocument([PdfPage(A4, sections)]))
  }

  /** The PDF header shows the full name; the email line always, even when
      empty; phone, address and LinkedIn lines iff truthy; never a website
      line; only LinkedIn as a link; in the order of the fields. */
  lemma PdfHeaderSpec(p: PersonalInfo)
    ensures PdfHeader(p).fullName == p.fullName
    ensures Shows(PdfHeader(p).contacts, EmailField)
    ensures !Shows(PdfHeader(p).contacts, WebsiteField)
    ensures forall f :: f != EmailField && f != WebsiteField ==> (Shows(PdfHeader(p).contacts, f) <==> FieldText(p, f) != "")
    ensures forall i :: 0 <= i < |PdfHeader(p).contacts| ==>
      PdfHeader(p).contacts[i].value == FieldText(p, PdfHeader(p).contacts[i].field) &&
      (PdfHeader(p).contacts[i].linked <==> PdfHeader(p).contacts[i].field == LinkedInField)
    ensures forall i, j :: 0 <= i < j < |PdfHeader(p).contacts| ==>
      FieldRank(PdfHeader(p).contacts[i].field) < FieldRank(PdfHeader(p).contacts[j].field)
  {
    ContactLinesSpec(p, f => PdfShows(p, f), f => PdfLinked(f));
  }

  /** Where the two headers differ: the web one shows the email only when it
      is non-empty and the website when truthy; the PDF one always shows the
      email and never the website. On every other field they agree. */
  lemma HeaderDivergence(p: PersonalInfo)
    ensures Shows(TorontoWeb.WebHeader(p).contacts, EmailField) <==> p.email != ""
    ensures Shows(PdfHeader(p).contacts, EmailField)
    ensures Shows(TorontoWeb.WebHeader(p).contacts, WebsiteField) <==> Truthy(p.website)
    ensures !Shows(PdfHeader(p).contacts, WebsiteField)
    ensures forall f :: f != EmailField && f != WebsiteField ==>
      (Shows(TorontoWeb.WebHeader(p).contacts, f) <==> Shows(PdfHeader(p).contacts, f))
  {
    TorontoWeb.WebHeaderSpec(p);
    PdfHeaderSpec(p);
  }

  /** With a non-empty email and no website, both headers list the same fields. */
  lemma HeadersAgreeWithoutWebsite(p: PersonalInfo)
    requires p.email != "" && !Truthy(p.website)
    ensures forall f :: Shows(TorontoWeb.WebHeader(p).contacts, f) <==> Shows(PdfHeader(p).contacts, f)
  {
    HeaderDivergence(p);
    forall f ensures Shows(TorontoWeb.WebHeader(p).contacts, f) <==> Shows(PdfHeader(p).contacts, f) {
      if f == WebsiteField {
        assert !Truthy(p.website);
      }
    }
  }

  /** The PDF page: the header first, then the body sections, all in page
      order; a section kind appears iff its data is present. */
  lemma PdfPageLayout(d: TemplateData)
    requires d.personalInfo.Some?
    ensures var ss := Render(d).value.pages[0].sections;
      InPageOrder(ss) &&
      KindOf(ss[0]) == HeaderKind &&
      forall k :: (exists i :: 0 <= i < |ss| && KindOf(ss[i]) == k) <==> Included(d, k)
  {
    BodyOrderAndInclusion(d);
    PrependHeader(PdfHeader(d.personalInfo.value), Body(d), d);
    assert Render(d).value.pages[0].sections == [PdfHeader(d.personalInfo.value)] + Body(d);
  }

  /** Below the header, the PDF page and the web page hold the same sections. */
  lemma SameBodyAsWeb(d: TemplateData, variant: Variant)
    requires d.personalInfo.Some?
    ensures Render(d).value.pages[0].sections[1..] == TorontoWeb.Render(d, variant).value.sections[1..]
  {
  }
}
