/** The template gallery: one card per catalogue entry, marked selected when
    it is the chosen template, locked for free users when it is premium-only,
    with a button whose label and enabled state follow from the two. */
module TemplateSelector {
  import opened Common
  import opened ResumeCreation
  import opened TemplateTypes

  datatype UserType = Free | Premium

  /** The catalogue: Toronto only. */
  const Templates := [TorontoConfig]

  predicate IsSelected(selectedTemplate: Option<string>, t: TemplateConfig)
  {
    selectedTemplate == Some(t.id)
  }

  predicate IsLocked(t: TemplateConfig, userType: UserType)
  {
    !t.isAvailableInFree && userType == Free
  }

  function Label(locked: bool, selected: bool): (r: string)
    ensures r == "Premium Only" <==> locked
    ensures r == "Selected" <==> !locked && selected
    ensures r == "Use Template" <==> !locked && !selected
  {
    if locked then "Premium Only" else if selected then "Selected" else "Use Template"
  }

  /** One card: the template's id, name and description, whether it is
      selected, whether its button is disabled, and the button's label. */
  datatype Card = Card(id: string, name: string, description: string, selected: bool, disabled: bool, caption: string)

  function CardFor(t: TemplateConfig, selectedTemplate: Option<string>, userType: UserType): (r: Card)
    ensures r.id == t.id && r.name == t.name && r.description == t.description
    ensures r.selected <==> selectedTemplate == Some(t.id)
    ensures r.disabled <==> !t.isAvailableInFree && userType == Free
    ensures r.caption == Label(r.disabled, r.selected)
  {
    var selected := IsSelected(selectedTemplate, t);
    var locked := IsLocked(t, userType);
    Card(t.id, t.name, t.description, selected, locked, Label(locked, selected))
  }

  /** The gallery: one card per template, in catalogue order. */
  function Gallery(catalogue: seq<TemplateConfig>, selectedTemplate: Option<string>, userType: UserType): (r: seq<Card>)
    ensures |r| == |catalogue|
    ensures forall i :: 0 <= i < |r| ==> r[i] == CardFor(catalogue[i], selectedTemplate, userType)
  {
    Map(t => CardFor(t, selectedTemplate, userType), catalogue)
  }

  /** A click on a card's button: `onSelect(template.id)`, unless the button is disabled. */
  function Click(c: Card): (r: Option<string>)
    ensures r.Some? <==> !c.disabled
    ensures r.Some? ==> r.value == c.id
  {
    if c.disabled then None else Some(c.id)
  }

  /** Premium users are never locked out, and a null selection selects nothing. */
  lemma PremiumAndNullSelection(t: TemplateConfig, selectedTemplate: Option<string>)
    ensures !CardFor(t, selectedTemplate, Premium).disabled
    ensures !CardFor(t, None, Free).selected && !CardFor(t, None, Premium).selected
    ensures Click(CardFor(t, selectedTemplate, Premium)) == Some(t.id)
  {
  }

  /** With distinct ids, at most one card of the gallery is selected. */
  lemma AtMostOneSelected(catalogue: seq<TemplateConfig>, selectedTemplate: Option<string>, userType: UserType)
    requires forall i, j :: 0 <= i < j < |catalogue| ==> catalogue[i].id != catalogue[j].id
    ensures forall i, j :: 0 <= i < j < |catalogue| ==>
      !(Gallery(catalogue, selectedTemplate, userType)[i].selected && Gallery(catalogue, selectedTemplate, userType)[j].selected)
  {
  }

  /** The catalogue holds Toronto only, which free users may use: no card is
      ever locked, and every click selects "toronto". */
  lemma CatalogueNeverLocked(selectedTemplate: Option<string>, userType: UserType)
    ensures |Gallery(Templates, selectedTemplate, userType)| == 1
    ensures !Gallery(Templates, selectedTemplate, userType)[0].disabled
    ensures Click(Gallery(Templates, selectedTemplate, userType)[0]) == Some("toronto")
  {
  }

  /** When the chosen id is dispatched as SET_TEMPLATE, the card clicked
      comes back selected, with the "Selected" label. */
  lemma SelectThenSelected(s: State, t: TemplateConfig, userType: UserType)
    requires !IsLocked(t, userType)
    ensures var id := Click(CardFor(t, s.templateId, userType)).value;
      CardFor(t, Reduce(s, SetTemplate(id)).templateId, userType).selected &&
      CardFor(t, Reduce(s, SetTemplate(id)).templateId, userType).caption == "Selected"
  {
    SetTemplateOnlySetsTemplate(s, t.id);
  }
}
