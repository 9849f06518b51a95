/** The step indicator of the wizard: one circle and title per step, and a
    connector line after every step but the last, each coloured by how the
    step's id compares with the current step. */
module StepsIndicator {
  import opened Common
  import opened ResumeCreation

  datatype StepItem = StepItem(id: int, title: string)

  datatype Status = Completed | Current | Upcoming

  /** The circle's colouring: done, the current one (ringed) or still ahead. */
  function StatusOf(id: int, currentStep: int): (r: Status)
    ensures r == Completed <==> id < currentStep
    ensures r == Current <==> id == currentStep
    ensures r == Upcoming <==> id > currentStep
  {
    if id < currentStep then Completed else if id == currentStep then Current else Upcoming
  }

  /** One rendered step: its circle label, title, status, whether the title
      is highlighted, and its connector (none for the last step, otherwise
      whether the line is highlighted). */
  datatype Marker = Marker(id: int, title: string, status: Status, titleHighlighted: bool, connector: Option<bool>)

  function MarkerAt(steps: seq<StepItem>, currentStep: int, i: int): (r: Marker)
    requires 0 <= i < |steps|
    ensures r.id == steps[i].id && r.title == steps[i].title
    ensures r.status == StatusOf(steps[i].id, currentStep)
    ensures r.titleHighlighted <==> steps[i].id <= currentStep
    ensures r.connector.Some? <==> i != |steps| - 1
    ensures r.connector == Some(true) <==> i != |steps| - 1 && steps[i].id < currentStep
  {
    var s := steps[i];
    Marker(s.id, s.title, StatusOf(s.id, currentStep), s.id <= currentStep,
      if i != |steps| - 1 then Some(s.id < currentStep) else None)
  }

  /** The indicator: the steps in the order given. */
  function Render(steps: seq<StepItem>, currentStep: int): (r: seq<Marker>)
    ensures |r| == |steps|
    ensures forall i :: 0 <= i < |r| ==> r[i] == MarkerAt(steps, currentStep, i)
  {
    seq(|steps|, i requires 0 <= i < |steps| => MarkerAt(steps, currentStep, i))
  }

  /** A highlighted title is exactly a step not upcoming, and a highlighted
      connector follows only a completed step. */
  lemma HighlightAgreesWithStatus(steps: seq<StepItem>, currentStep: int)
    ensures forall i :: 0 <= i < |steps| ==>
      (Render(steps, currentStep)[i].titleHighlighted <==> Render(steps, currentStep)[i].status != Upcoming)
    ensures forall i :: 0 <= i < |steps| && Render(steps, currentStep)[i].connector == Some(true) ==>
      Render(steps, currentStep)[i].status == Completed
  {
  }

  function StatusRank(s: Status): nat
  {
    match s
    case Completed => 0
    case Current => 1
    case Upcoming => 2
  }

  predicate Increasing(steps: seq<StepItem>)
  {
    forall i, j :: 0 <= i < j < |steps| ==> steps[i].id < steps[j].id
  }

  /** With ids increasing along the list, the completed steps come first, then
      at most one current step, then the upcoming ones. */
  lemma StatusesAreOrdered(steps: seq<StepItem>, currentStep: int)
    requires Increasing(steps)
    ensures forall i, j :: 0 <= i < j < |steps| ==>
      StatusRank(Render(steps, currentStep)[i].status) <= StatusRank(Render(steps, currentStep)[j].status)
    ensures forall i, j :: 0 <= i < j < |steps| ==>
      !(Render(steps, currentStep)[i].status == Current && Render(steps, currentStep)[j].status == Current)
  {
    var r := Render(steps, currentStep);
    forall i, j | 0 <= i < j < |steps| ensures StatusRank(r[i].status) <= StatusRank(r[j].status) {
      assert r[i] == MarkerAt(steps, currentStep, i) && r[j] == MarkerAt(steps, currentStep, j);
    }
    forall i, j | 0 <= i < j < |steps| ensures !(r[i].status == Current && r[j].status == Current) {
      assert r[i] == MarkerAt(steps, currentStep, i) && r[j] == MarkerAt(steps, currentStep, j);
    }
  }

  /** A click on a step's circle: `onStepClick?.(step.id)` passes the id when
      a handler is given and does nothing otherwise. */
  function Click(hasHandler: bool, step: StepItem, currentStep: int): (r: Option<int>)
    ensures r.Some? <==> hasHandler
    ensures r.Some? ==> r.value == step.id
  {
    if hasHandler then Some(step.id) else None
  }

  /** The click does not look at the current step: any step, ahead or behind, can be chosen. */
  lemma ClickIgnoresCurrentStep(hasHandler: bool, step: StepItem, c1: int, c2: int)
    ensures Click(hasHandler, step, c1) == Click(hasHandler, step, c2)
    ensures hasHandler ==> Click(hasHandler, step, c1) == Some(step.id)
  {
  }

  /** The wizard page's handler dispatches SET_STEP with the clicked id, so
      a click jumps to that step whatever the current one is, and keeps the
      chosen template and the draft. */
  lemma ClickJumpsToStep(s: State, step: StepItem)
    ensures var t := Reduce(s, SetStep(Click(true, step, s.step).value));
      t.step == step.id && t.templateId == s.templateId && t.formData == s.formData
  {
  }
}
