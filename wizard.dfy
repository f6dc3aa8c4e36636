/**
 * The three-step wizard that owns the requirements, the generated script and
 * the current step, the status of each circle of the step indicator, and which
 * panel is shown.
 */
module Wizard {
  import opened Text
  import opened Requirements
  import ScriptTemplate

  datatype Step = RequirementsStep | PreviewStep | RenderStep

  /** The number printed in a step's indicator circle. */
  function StepNumber(s: Step): (r: nat)
    ensures 1 <= r <= 3
  {
    match s
    case RequirementsStep => 1
    case PreviewStep => 2
    case RenderStep => 3
  }

  /** The three looks of an indicator circle: highlighted, green, grey. */
  datatype StepStatus = Current | Done | Upcoming

  /** The colour choice of circle `step` while the wizard is at `current`. */
  function Status(step: Step, current: Step): (r: StepStatus)
    ensures r == Current <==> step == current
    ensures step == RequirementsStep && step != current ==> r == Done
    ensures step == PreviewStep ==> (r == Done <==> current == RenderStep)
    ensures step == RenderStep ==> r != Done
  {
    if current == step then Current
    else if step == RequirementsStep || (step == PreviewStep && current == RenderStep) then Done
    else Upcoming
  }

  /** The indicator colours exactly the steps before the current one green. */
  lemma StatusFollowsOrder(step: Step, current: Step)
    ensures Status(step, current) == Done <==> StepNumber(step) < StepNumber(current)
    ensures Status(step, current) == Upcoming <==> StepNumber(step) > StepNumber(current)
  {
  }

  /** Whether the connector drawn after circle `step` (steps 1 and 2 only) is green. */
  function ConnectorDone(step: Step, current: Step): (r: bool)
    requires step != RenderStep
    ensures r <==> StepNumber(step) < StepNumber(current)
  {
    (step == RequirementsStep && (current == PreviewStep || current == RenderStep))
    || (step == PreviewStep && current == RenderStep)
  }

  /** A connector is green exactly when the circle before it is. */
  lemma ConnectorMatchesCircle(step: Step, current: Step)
    requires step != RenderStep
    ensures ConnectorDone(step, current) <==> Status(step, current) == Done
  {
    StatusFollowsOrder(step, current);
  }

  /** The step content: the form, a panel fed with the stored data, or nothing. */
  datatype Panel =
    | FormPanel
    | PreviewPanel(requirements: VideoRequirements, script: string)
    | RenderPanel(requirements: VideoRequirements, script: string)
    | NoPanel

  /** The panel chosen by the step and by whether requirements are stored. */
  function PanelFor(step: Step, stored: Option<VideoRequirements>, script: string): (r: Panel)
    ensures r.FormPanel? <==> step == RequirementsStep
    ensures r.NoPanel? <==> step != RequirementsStep && stored.None?
    ensures r.PreviewPanel? || r.RenderPanel? ==> r.requirements == stored.value && r.script == script
    ensures r.PreviewPanel? <==> step == PreviewStep && stored.Some?
  {
    match step
    case RequirementsStep => FormPanel
    case PreviewStep => if stored.Some? then PreviewPanel(stored.value, script) else NoPanel
    case RenderStep => if stored.Some? then RenderPanel(stored.value, script) else NoPanel
  }

  class VideoGenerator {
    var requirements: Option<VideoRequirements>
    var generatedScript: string
    var currentStep: Step

    /**
     * A later step is only reached with requirements stored, and the script
     * is always the one generated from the stored requirements.
     */
    ghost predicate Valid()
      reads this
    {
      (currentStep != RequirementsStep ==> requirements.Some?)
      && (requirements.None? ==> generatedScript == "")
      && (requirements.Some? ==> generatedScript == ScriptTemplate.GenerateManimScript(requirements.value))
    }

    /** The panel shown under the step indicator. */
    function VisiblePanel(): Panel
      reads this
    {
      PanelFor(currentStep, requirements, generatedScript)
    }

    constructor ()
      ensures Valid()
      ensures requirements == None && generatedScript == "" && currentStep == RequirementsStep
    {
      requirements := None;
      generatedScript := "";
      currentStep := RequirementsStep;
    }

    /** `handleRequirementsSubmit`: store the record, move to preview, generate the script. */
    method HandleRequirementsSubmit(reqs: VideoRequirements)
      modifies this
      ensures Valid()
      ensures requirements == Some(reqs) && currentStep == PreviewStep
      ensures generatedScript == ScriptTemplate.GenerateManimScript(reqs)
    {
      requirements := Some(reqs);
      currentStep := PreviewStep;
      var script := ScriptTemplate.GenerateManimScript(reqs);
      generatedScript := script;
    }

    /** `handleScriptApprove`, offered by the preview panel. */
    method HandleScriptApprove()
      requires Valid() && currentStep == PreviewStep
      modifies this
      ensures Valid()
      ensures currentStep == RenderStep
      ensures requirements == old(requirements) && generatedScript == old(generatedScript)
    {
      currentStep := RenderStep;
    }

    /** `handleBackToRequirements`, offered by the preview panel; the stored data stays. */
    method HandleBackToRequirements()
      requires Valid() && currentStep == PreviewStep
      modifies this
      ensures Valid()
      ensures currentStep == RequirementsStep
      ensures requirements == old(requirements) && generatedScript == old(generatedScript)
    {
      currentStep := RequirementsStep;
    }

    /** `handleBackToPreview`, offered by the render panel. */
    method HandleBackToPreview()
      requires Valid() && currentStep == RenderStep
      modifies this
      ensures Valid()
      ensures currentStep == PreviewStep
      ensures requirements == old(requirements) && generatedScript == old(generatedScript)
    {
      currentStep := PreviewStep;
    }
  }

  /**
   * In every valid state some panel is shown, and the preview and render
   * panels receive the stored requirements together with their own script.
   */
  lemma PanelShown(g: VideoGenerator)
    requires g.Valid()
    ensures !g.VisiblePanel().NoPanel?
    ensures g.VisiblePanel().PreviewPanel? || g.VisiblePanel().RenderPanel? ==>
      g.VisiblePanel().script == ScriptTemplate.GenerateManimScript(g.VisiblePanel().requirements)
  {
  }
}
