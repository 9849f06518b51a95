/** The section structure both Toronto templates share: the entry formatting
    of each section and the seven body sections after the header, each
    present iff its data is, always in the same order. The web and PDF
    renderings differ only in their header. */
module TorontoSections {
  import opened Common
  import opened ResumeCreation
  import opened TemplateTypes

  /** The second half of a date range: a date, or the word "Present". */
  datatype Ending = Until(date: Date) | Present

  datatype Period = Period(start: Date, end: Ending)

  datatype WorkItem = WorkItem(position: string, company: string, period: Period, description: string)

  datatype EducationItem = EducationItem(heading: string, institution: string, period: Period)

  datatype CertificationItem = CertificationItem(name: string, issuer: string, date: Date)

  /** A project and, when it has a truthy url, the target of its "Project Link". */
  datatype ProjectItem = ProjectItem(name: string, description: string, link: Option<string>)

  datatype ContactField = EmailField | PhoneField | AddressField | LinkedInField | WebsiteField

  /** One contact line of the header; `linked` when it is wrapped in a link. */
  datatype Contact = Contact(field: ContactField, value: string, linked: bool)

  datatype Section =
    | Header(fullName: string, contacts: seq<Contact>)
    | Summary(text: string)
    | WorkSection(work: seq<WorkItem>)
    | EducationSection(education: seq<EducationItem>)
    | SkillsSection(skills: seq<string>)
    | LanguagesSection(languages: seq<string>)
    | CertificationsSection(certifications: seq<CertificationItem>)
    | ProjectsSection(projects: seq<ProjectItem>)

  datatype Kind = HeaderKind | SummaryKind | WorkKind | EducationKind | SkillsKind | LanguagesKind | CertificationsKind | ProjectsKind

  function KindOf(s: Section): Kind
  {
    match s
    case Header(_, _) => HeaderKind
    case Summary(_) => SummaryKind
    case WorkSection(_) => WorkKind
    case EducationSection(_) => EducationKind
    case SkillsSection(_) => SkillsKind
    case LanguagesSection(_) => LanguagesKind
    case CertificationsSection(_) => CertificationsKind
    case ProjectsSection(_) => ProjectsKind
  }

  /** The position of each kind of section on the page. */
  function Rank(k: Kind): nat
  {
    match k
    case HeaderKind => 0
    case SummaryKind => 1
    case WorkKind => 2
    case EducationKind => 3
    case SkillsKind => 4
    case LanguagesKind => 5
    case CertificationsKind => 6
    case ProjectsKind => 7
  }

  /** The body kinds in their order on the page. */
  const BodyOrder := [SummaryKind, WorkKind, EducationKind, SkillsKind, LanguagesKind, CertificationsKind, ProjectsKind]

  /** The inclusion rule: the header always, the summary iff it is non-null,
      a list section iff its list is non-empty. */
  predicate Included(d: TemplateData, k: Kind)
  {
    match k
    case HeaderKind => true
    case SummaryKind => d.professionalSummary.Some?
    case WorkKind => |d.workExperiences| > 0
    case EducationKind => |d.educations| > 0
    case SkillsKind => |d.skills| > 0
    case LanguagesKind => |d.languages| > 0
    case CertificationsKind => |d.certifications| > 0
    case ProjectsKind => |d.projects| > 0
  }

  /** "start - end", with "Present" when there is no end date. */
  function PeriodOf(start: Date, end: Option<Date>): (r: Period)
    ensures r.start == start
    ensures r.end == Present <==> end.None?
    ensures end.Some? ==> r.end == Until(end.value)
  {
    Period(start, if end.Some? then Until(end.value) else Present)
  }

  function WorkItemOf(e: WorkExperience): (r: WorkItem)
    ensures r.position == e.position && r.company == e.company && r.description == e.description
    ensures r.period == PeriodOf(e.startDate, e.endDate)
  {
    WorkItem(e.position, e.company, PeriodOf(e.startDate, e.endDate), e.description)
  }

  /** The heading is "degree in fieldOfStudy". */
  function EducationItemOf(e: Education): (r: EducationItem)
    ensures r.heading == e.degree + " in " + e.fieldOfStudy
    ensures r.institution == e.institution && r.period == PeriodOf(e.startDate, e.endDate)
  {
    EducationItem(e.degree + " in " + e.fieldOfStudy, e.institution, PeriodOf(e.startDate, e.endDate))
  }

  /** "name (level)", the level in lower case. */
  function SkillText(s: Skill): (r: string)
    ensures r == s.name + " (" + ToLower(SkillLevelName(s.level)) + ")"
    ensures r[..|s.name|] == s.name
  {
    s.name + " (" + ToLower(SkillLevelName(s.level)) + ")"
  }

  /** "name - level", the level in lower case. */
  function LanguageText(l: Language): (r: string)
    ensures r == l.name + " - " + ToLower(LanguageLevelName(l.level))
    ensures r[..|l.name|] == l.name
  {
    l.name + " - " + ToLower(LanguageLevelName(l.level))
  }

  function CertificationItemOf(c: Certification): (r: CertificationItem)
    ensures r.name == c.name && r.issuer == c.issuer && r.date == c.date
  {
    CertificationItem(c.name, c.issuer, c.date)
  }

  /** The "Project Link" appears iff the url is truthy, and points at it. */
  function ProjectItemOf(p: Project): (r: ProjectItem)
    ensures r.name == p.name && r.description == p.description
    ensures r.link.Some? <==> Truthy(p.url)
    ensures r.link.Some? ==> r.link == p.url
  {
    ProjectItem(p.name, p.description, if Truthy(p.url) then p.url else None)
  }

  /** The body section of kind `k`, built from its data. */
  function SectionFor(d: TemplateData, k: Kind): (r: Section)
    requires k != HeaderKind && Included(d, k)
    ensures KindOf(r) == k
  {
    match k
    case SummaryKind => Summary(d.professionalSummary.value.summary)
    case WorkKind => WorkSection(Map(WorkItemOf, d.workExperiences))
    case EducationKind => EducationSection(Map(EducationItemOf, d.educations))
    case SkillsKind => SkillsSection(Map(SkillText, d.skills))
    case LanguagesKind => LanguagesSection(Map(LanguageText, d.languages))
    case CertificationsKind => CertificationsSection(Map(CertificationItemOf, d.certifications))
    case ProjectsKind => ProjectsSection(Map(ProjectItemOf, d.projects))
  }

  /** One conditional block of a template: the section of kind `k` if its
      data is present, otherwise nothing. */
  function Part(d: TemplateData, k: Kind): seq<Section>
    requires k != HeaderKind
  {
    if Included(d, k) then [SectionFor(d, k)] else []
  }

  /** Reference definition: one section for each kind of `ks` whose data is present, in the order of `ks`. */
  function Collect(d: TemplateData, ks: seq<Kind>): seq<Section>
    requires HeaderKind !in ks
  {
    if ks == [] then [] else Part(d, ks[0]) + Collect(d, ks[1..])
  }

  /** Every collected section is the one built for its kind, and that kind is in `ks` with its data present. */
  lemma {:induction false} CollectSound(d: TemplateData, ks: seq<Kind>)
    requires HeaderKind !in ks
    ensures forall i :: 0 <= i < |Collect(d, ks)| ==>
      KindOf(Collect(d, ks)[i]) in ks && Included(d, KindOf(Collect(d, ks)[i]))
    ensures forall i :: 0 <= i < |Collect(d, ks)| ==>
      KindOf(Collect(d, ks)[i]) != HeaderKind && Collect(d, ks)[i] == SectionFor(d, KindOf(Collect(d, ks)[i]))
  {
    if ks != [] {
      CollectSound(d, ks[1..]);
      var head, rest := Part(d, ks[0]), Collect(d, ks[1..]);
      var r := Collect(d, ks);
      assert r == head + rest;
      forall i | 0 <= i < |r|
        ensures KindOf(r[i]) in ks && Included(d, KindOf(r[i]))
        ensures KindOf(r[i]) != HeaderKind && r[i] == SectionFor(d, KindOf(r[i]))
      {
        if i < |head| {
          assert r[i] == SectionFor(d, ks[0]);
        } else {
          assert r[i] == rest[i - |head|];
          assert KindOf(r[i]) in ks[1..];
        }
      }
    }
  }

  /** Every kind of `ks` whose data is present has its section. */
  lemma {:induction false} CollectComplete(d: TemplateData, ks: seq<Kind>, k: Kind)
    requires HeaderKind !in ks
    requires k in ks && Included(d, k)
    ensures exists i :: 0 <= i < |Collect(d, ks)| && KindOf(Collect(d, ks)[i]) == k
  {
    var head, rest := Part(d, ks[0]), Collect(d, ks[1..]);
    var r := Collect(d, ks);
    assert r == head + rest;
    if ks[0] == k {
      assert KindOf(r[0]) == k;
    } else {
      assert k in ks[1..];
      CollectComplete(d, ks[1..], k);
      var j :| 0 <= j < |rest| && KindOf(rest[j]) == k;
      assert r[|head| + j] == rest[j];
    }
  }

  /** The kinds of `ks` appear in strictly increasing rank. */
  predicate Ascending(ks: seq<Kind>)
  {
    forall i, j :: 0 <= i < j < |ks| ==> Rank(ks[i]) < Rank(ks[j])
  }

  /** The sections appear in strictly increasing rank. */
  predicate InPageOrder(ss: seq<Section>)
  {
    forall i, j :: 0 <= i < j < |ss| ==> Rank(KindOf(ss[i])) < Rank(KindOf(ss[j]))
  }

  /** Putting a section of lower rank in front keeps page order. */
  lemma PrependKeepsOrder(s: Section, rest: seq<Section>)
    requires InPageOrder(rest)
    requires forall i :: 0 <= i < |rest| ==> Rank(KindOf(s)) < Rank(KindOf(rest[i]))
    ensures InPageOrder([s] + rest)
  {
    var r := [s] + rest;
    forall i, j | 0 <= i < j < |r| ensures Rank(KindOf(r[i])) < Rank(KindOf(r[j])) {
      assert r[j] == rest[j - 1];
      if i > 0 {
        assert r[i] == rest[i - 1];
      }
    }
  }

  /** Collecting along an ascending list of kinds yields sections in page order. */
  lemma {:induction false} CollectKeepsOrder(d: TemplateData, ks: seq<Kind>)
    requires HeaderKind !in ks && Ascending(ks)
    ensures InPageOrder(Collect(d, ks))
  {
    if ks != [] {
      CollectKeepsOrder(d, ks[1..]);
      CollectSound(d, ks[1..]);
      var rest := Collect(d, ks[1..]);
      if Included(d, ks[0]) {
        forall i | 0 <= i < |rest| ensures Rank(KindOf(SectionFor(d, ks[0]))) < Rank(KindOf(rest[i])) {
          var j :| 0 <= j < |ks[1..]| && ks[1..][j] == KindOf(rest[i]);
          assert ks[j + 1] == KindOf(rest[i]);
        }
        PrependKeepsOrder(SectionFor(d, ks[0]), rest);
        assert Collect(d, ks) == [SectionFor(d, ks[0])] + rest;
      } else {
        assert Collect(d, ks) == rest;
      }
    }
  }

  /** The sections after the header: the conditional blocks of both
      templates, taken in page order. */
  function Body(d: TemplateData): seq<Section>
  {
    Collect(d, BodyOrder)
  }

  /** Collecting along an ascending list of body kinds: page order, a kind
      of `ks` appears iff its data is present, each section built from its
      own data. */
  lemma CollectOrderAndInclusion(d: TemplateData, ks: seq<Kind>)
    requires HeaderKind !in ks && Ascending(ks)
    ensures InPageOrder(Collect(d, ks))
    ensures forall k :: k in ks ==> ((exists i :: 0 <= i < |Collect(d, ks)| && KindOf(Collect(d, ks)[i]) == k) <==> Included(d, k))
    ensures forall i :: 0 <= i < |Collect(d, ks)| ==>
      KindOf(Collect(d, ks)[i]) != HeaderKind && Included(d, KindOf(Collect(d, ks)[i])) &&
      Collect(d, ks)[i] == SectionFor(d, KindOf(Collect(d, ks)[i]))
  {
    CollectKeepsOrder(d, ks);
    CollectSound(d, ks);
    forall k | k in ks
      ensures (exists i :: 0 <= i < |Collect(d, ks)| && KindOf(Collect(d, ks)[i]) == k) <==> Included(d, k)
    {
      CollectInclusion(d, ks, k);
    }
  }

  /** A kind of `ks` has its section in the collection iff its data is present. */
  lemma CollectInclusion(d: TemplateData, ks: seq<Kind>, k: Kind)
    requires HeaderKind !in ks && k in ks
    ensures (exists i :: 0 <= i < |Collect(d, ks)| && KindOf(Collect(d, ks)[i]) == k) <==> Included(d, k)
  {
    if Included(d, k) {
      CollectComplete(d, ks, k);
    } else {
      CollectSound(d, ks);
      var c := Collect(d, ks);
      forall i | 0 <= i < |c| ensures KindOf(c[i]) != k {
        assert Included(d, KindOf(c[i]));
      }
    }
  }

  /** Putting the header in front of a body in page order, in which a body
      kind appears iff its data is present, gives a whole page with the same
      properties. */
  lemma PrependHeader(h: Section, body: seq<Section>, d: TemplateData)
    requires KindOf(h) == HeaderKind
    requires InPageOrder(body)
    requires forall i :: 0 <= i < |body| ==> KindOf(body[i]) != HeaderKind
    requires forall k :: k != HeaderKind ==> ((exists i :: 0 <= i < |body| && KindOf(body[i]) == k) <==> Included(d, k))
    ensures InPageOrder([h] + body)
    ensures forall k :: (exists i :: 0 <= i < |[h] + body| && KindOf(([h] + body)[i]) == k) <==> Included(d, k)
  {
    var ss := [h] + body;
    forall i, j | 0 <= i < j < |ss| ensures Rank(KindOf(ss[i])) < Rank(KindOf(ss[j])) {
      assert ss[j] == body[j - 1];
      if i > 0 {
        assert ss[i] == body[i - 1];
      }
    }
    forall k ensures (exists i :: 0 <= i < |ss| && KindOf(ss[i]) == k) <==> Included(d, k) {
      if k == HeaderKind {
        assert KindOf(ss[0]) == k;
      } else if Included(d, k) {
        var i :| 0 <= i < |body| && KindOf(body[i]) == k;
        assert ss[i + 1] == body[i];
      } else {
        forall i | 0 <= i < |ss| ensures KindOf(ss[i]) != k {
          if i > 0 {
            assert ss[i] == body[i - 1];
          }
        }
      }
    }
  }

  /** The body's fixed order and inclusion rule: sections in page order, a
      body kind appears iff its data is present, and each section is built
      from its own data. */
  lemma BodyOrderAndInclusion(d: TemplateData)
    ensures InPageOrder(Body(d))
    ensures forall k :: k != HeaderKind ==> ((exists i :: 0 <= i < |Body(d)| && KindOf(Body(d)[i]) == k) <==> Included(d, k))
    ensures forall i :: 0 <= i < |Body(d)| ==>
      KindOf(Body(d)[i]) != HeaderKind && Included(d, KindOf(Body(d)[i])) && Body(d)[i] == SectionFor(d, KindOf(Body(d)[i]))
  {
    var ks := BodyOrder;
    CollectOrderAndInclusion(d, ks);
    assert forall k :: k != HeaderKind ==> k in ks;
  }

  // Header contact lines

  /** The contact fields in the order both headers list them. */
  const ContactOrder := [EmailField, PhoneField, AddressField, LinkedInField, WebsiteField]

  function FieldRank(f: ContactField): nat
  {
    match f
    case EmailField => 0
    case PhoneField => 1
    case AddressField => 2
    case LinkedInField => 3
    case WebsiteField => 4
  }

  /** The value a header shows for a field: the email, or the optional field's string ("" when absent). */
  function FieldText(p: PersonalInfo, f: ContactField): string
  {
    match f
    case EmailField => p.email
    case PhoneField => if p.phone.Some? then p.phone.value else ""
    case AddressField => if p.address.Some? then p.address.value else ""
    case LinkedInField => if p.linkedin.Some? then p.linkedin.value else ""
    case WebsiteField => if p.website.Some? then p.website.value else ""
  }

  /** The field's value is truthy. */
  predicate Filled(p: PersonalInfo, f: ContactField)
  {
    FieldText(p, f) != ""
  }

  /** The line for field `f` if `shown` selects it, otherwise nothing. */
  function Line(p: PersonalInfo, f: ContactField, shown: ContactField -> bool, linked: ContactField -> bool): seq<Contact>
  {
    if shown(f) then [Contact(f, FieldText(p, f), linked(f))] else []
  }

  /** One line per field of `fs` that `shown` selects, in the order of `fs`. */
  function ContactLines(p: PersonalInfo, fs: seq<ContactField>, shown: ContactField -> bool, linked: ContactField -> bool): seq<Contact>
  {
    if fs == [] then [] else Line(p, fs[0], shown, linked) + ContactLines(p, fs[1..], shown, linked)
  }

  /** The header shows a line for field `f`. */
  predicate Shows(cs: seq<Contact>, f: ContactField)
  {
    exists i :: 0 <= i < |cs| && cs[i].field == f
  }

  /** Every line is for a selected field of `fs` and carries that field's value and link flag. */
  lemma {:induction false} ContactLinesSound(p: PersonalInfo, fs: seq<ContactField>, shown: ContactField -> bool, linked: ContactField -> bool)
    ensures forall i :: 0 <= i < |ContactLines(p, fs, shown, linked)| ==>
      var c := ContactLines(p, fs, shown, linked)[i];
      c.field in fs && shown(c.field) && c.value == FieldText(p, c.field) && c.linked == linked(c.field)
  {
    if fs != [] {
      ContactLinesSound(p, fs[1..], shown, linked);
      var head, rest := Line(p, fs[0], shown, linked), ContactLines(p, fs[1..], shown, linked);
      var r := ContactLines(p, fs, shown, linked);
      assert r == head + rest;
      forall i | 0 <= i < |r|
        ensures r[i].field in fs && shown(r[i].field) && r[i].value == FieldText(p, r[i].field) && r[i].linked == linked(r[i].field)
      {
        if i >= |head| {
          assert r[i] == rest[i - |head|];
          assert r[i].field in fs[1..];
        }
      }
    }
  }

  /** Every selected field of `fs` has its line. */
  lemma {:induction false} ContactLinesComplete(p: PersonalInfo, fs: seq<ContactField>, shown: ContactField -> bool, linked: ContactField -> bool, f: ContactField)
    requires f in fs && shown(f)
    ensures Shows(ContactLines(p, fs, shown, linked), f)
  {
    var head, rest := Line(p, fs[0], shown, linked), ContactLines(p, fs[1..], shown, linked);
    var r := ContactLines(p, fs, shown, linked);
    assert r == head + rest;
    if fs[0] == f {
      assert r[0].field == f;
    } else {
      assert f in fs[1..];
      ContactLinesComplete(p, fs[1..], shown, linked, f);
      var j :| 0 <= j < |rest| && rest[j].field == f;
      assert r[|head| + j] == rest[j];
    }
  }

  /** Lines follow the order of `fs`. */
  lemma {:induction false} ContactLinesOrdered(p: PersonalInfo, fs: seq<ContactField>, shown: ContactField -> bool, linked: ContactField -> bool)
    requires forall i, j :: 0 <= i < j < |fs| ==> FieldRank(fs[i]) < FieldRank(fs[j])
    ensures forall i, j :: 0 <= i < j < |ContactLines(p, fs, shown, linked)| ==>
      FieldRank(ContactLines(p, fs, shown, linked)[i].field) < FieldRank(ContactLines(p, fs, shown, linked)[j].field)
  {
    if fs != [] {
      ContactLinesOrdered(p, fs[1..], shown, linked);
      ContactLinesSound(p, fs[1..], shown, linked);
      var head, rest := Line(p, fs[0], shown, linked), ContactLines(p, fs[1..], shown, linked);
      var r := ContactLines(p, fs, shown, linked);
      assert r == head + rest;
      forall i | 0 <= i < |rest| ensures FieldRank(fs[0]) < FieldRank(rest[i].field) {
        var j :| 0 <= j < |fs[1..]| && fs[1..][j] == rest[i].field;
        assert fs[j + 1] == rest[i].field;
      }
      forall i, j | 0 <= i < j < |r| ensures FieldRank(r[i].field) < FieldRank(r[j].field) {
        assert r[j] == rest[j - |head|];
        if i >= |head| {
          assert r[i] == rest[i - |head|];
        }
      }
    }
  }

  /** Over `ContactOrder`: a field has a line iff it is selected; the line
      carries the field's value and link flag; lines keep the field order. */
  lemma ContactLinesSpec(p: PersonalInfo, shown: ContactField -> bool, linked: ContactField -> bool)
    ensures forall f :: Shows(ContactLines(p, ContactOrder, shown, linked), f) <==> shown(f)
    ensures forall i :: 0 <= i < |ContactLines(p, ContactOrder, shown, linked)| ==>
      var c := ContactLines(p, ContactOrder, shown, linked)[i];
      c.value == FieldText(p, c.field) && c.linked == linked(c.field)
    ensures forall i, j :: 0 <= i < j < |ContactLines(p, ContactOrder, shown, linked)| ==>
      FieldRank(ContactLines(p, ContactOrder, shown, linked)[i].field) < FieldRank(ContactLines(p, ContactOrder, shown, linked)[j].field)
  {
    var fs := ContactOrder;
    ContactLinesSound(p, fs, shown, linked);
    ContactLinesOrdered(p, fs, shown, linked);
    forall f | shown(f) ensures Shows(ContactLines(p, fs, shown, linked), f) {
      assert f == fs[FieldRank(f)];
      ContactLinesComplete(p, fs, shown, linked, f);
    }
  }
}
