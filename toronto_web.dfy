/** `TorontoTemplate`, the web rendering: a header whose contact lines each
    appear only when truthy, followed by the shared body sections; the
    'preview' variant scales the page down. */
module TorontoWeb {
  import opened Common
  import opened ResumeCreation
  import opened TemplateTypes
  import opened TorontoSections

  /** The web header shows a field iff its value is truthy (the email included). */
  predicate WebShows(p: PersonalInfo, f: ContactField)
  {
    Filled(p, f)
  }

  /** The web header: the full name, then email, phone, address, LinkedIn and website lines; none is a link. */
  function WebHeader(p: PersonalInfo): Section
  {
    Header(p.fullName, ContactLines(p, ContactOrder, f => WebShows(p, f), f => false))
  }

  /** The rendered page: whether it is scaled for a preview, and its sections. */
  datatype WebPage = WebPage(scaled: bool, sections: seq<Section>)

  /** The template applied to `d`; reading the full name of a null
      personalInfo throws, so there is no page then. */
  function Render(d: TemplateData, variant: Variant): (r: Option<WebPage>)
    ensures r.None? <==> d.personalInfo.None?
    ensures r.Some? ==> (r.value.scaled <==> variant == PreviewVariant)
    ensures r.Some? ==> |r.value.sections| >= 1 && r.value.sections[0] == WebHeader(d.personalInfo.value)
    ensures r.Some? ==> r.value.sections[1..] == Body(d)
  {
    if d.personalInfo.None? then None
    else
      var sections := [WebHeader(d.personalInfo.value)] + Body(d);
      assert sections[1..] == Body(d);
      Some(WebPage(variant == PreviewVariant, sections))
  }

  /** The web header shows the full name, and a contact line for a field iff
      that field is truthy, with the field's own value, never as a link, in
      the order email, phone, address, LinkedIn, website. */
  lemma WebHeaderSpec(p: PersonalInfo)
    ensures WebHeader(p).fullName == p.fullName
    ensures forall f :: Shows(WebHeader(p).contacts, f) <==> FieldText(p, f) != ""
    ensures forall i :: 0 <= i < |WebHeader(p).contacts| ==>
      WebHeader(p).contacts[i].value == FieldText(p, WebHeader(p).contacts[i].field) && !WebHeader(p).contacts[i].linked
    ensures forall i, j :: 0 <= i < j < |WebHeader(p).contacts| ==>
      FieldRank(WebHeader(p).contacts[i].field) < FieldRank(WebHeader(p).contacts[j].field)
  {
    ContactLinesSpec(p, f => WebShows(p, f), f => false);
  }

  /** The whole page: the header first, then the body sections, all in page
      order; a section kind appears iff its data is present. */
  lemma WebPageLayout(d: TemplateData, variant: Variant)
    requires d.personalInfo.Some?
    ensures var ss := Render(d, variant).value.sections;
      InPageOrder(ss) &&
      KindOf(ss[0]) == HeaderKind &&
      forall k :: (exists i :: 0 <= i < |ss| && KindOf(ss[i]) == k) <==> Included(d, k)
  {
    BodyOrderAndInclusion(d);
    PrependHeader(WebHeader(d.personalInfo.value), Body(d), d);
    assert Render(d, variant).value.sections == [WebHeader(d.personalInfo.value)] + Body(d);
  }

  /** Only the 'preview' variant scales; the sections do not depend on the variant. */
  lemma VariantOnlyScales(d: TemplateData)
    requires d.personalInfo.Some?
    ensures Render(d, PreviewVariant).value.scaled && !Render(d, FullVariant).value.scaled
    ensures Render(d, PreviewVariant).value.sections == Render(d, FullVariant).value.sections
  {
  }
}
