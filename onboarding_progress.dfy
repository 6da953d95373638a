/** The onboarding wizard's progress header: the percentage, the step indicators with
    their connectors, and the label shown on small screens. */
module OnboardingProgress {
  import opened JsValues
  import opened OnboardingHook

  /** One wizard step's caption. */
  datatype StepInfo = StepInfo(title: string, description: string)

  /** The wizard's four steps. */
  const STEPS: seq<StepInfo> := [
    StepInfo("Academic", "Your background"), StepInfo("Goals", "Study plans"),
    StepInfo("Budget", "Financial planning"), StepInfo("Readiness", "Exams & prep")]

  /** `Math.round((current / total) * 100)`, taken on exact ratios; a zero total
      gives no finite percentage. */
  function Percentage(current: int, total: int): (r: Option<int>)
    ensures r.None? <==> total == 0
  {
    if total > 0 then Some(RoundDiv(100 * current, total))
    else if total < 0 then Some(RoundDiv(-100 * current, -total))
    else None
  }

  /** A step within the wizard shows a percentage from 0 to 100, and 100 exactly on
      the last step. */
  lemma PercentageBounds(current: int, total: int)
    requires 0 <= current <= total && total > 0
    ensures 0 <= Percentage(current, total).value <= 100
    ensures current == total ==> Percentage(current, total).value == 100
  {
    RoundDivBounds(100 * current, total);
    RoundDivOfMultiple(100, total);
    assert 100 * total == total * 100;
  }

  /** With four steps the header reads 25, 50, 75 and 100 percent. */
  lemma FourStepPercentages()
    ensures Percentage(1, 4) == Some(25) && Percentage(2, 4) == Some(50)
    ensures Percentage(3, 4) == Some(75) && Percentage(4, 4) == Some(100)
  {
    RoundDivOfMultiple(25, 4);
    RoundDivOfMultiple(50, 4);
    RoundDivOfMultiple(75, 4);
    RoundDivOfMultiple(100, 4);
  }

  /** A later step never shows a smaller percentage. */
  lemma PercentageGrowsWithStep(current: int, next: int, total: int)
    requires total > 0 && current <= next
    ensures Percentage(current, total).value <= Percentage(next, total).value
  {
    RoundDivMonotone(100 * current, 100 * next, total);
  }

  /** How an indicator is drawn. */
  datatype StepState = Done | Active | Upcoming

  /** The indicator at `index` shows step `index + 1`: done before the current step,
      active at it, upcoming after it. */
  function StepStateOf(current: int, index: int): StepState {
    if index + 1 < current then Done
    else if index + 1 == current then Active
    else Upcoming
  }

  /** At most one indicator is active, and exactly the one of the current step. */
  lemma OneActiveStep(current: int, i: int, j: int)
    ensures StepStateOf(current, i) == Active && StepStateOf(current, j) == Active ==> i == j
    ensures StepStateOf(current, i) == Active <==> i == current - 1
    ensures StepStateOf(current, i) == Done <==> i < current - 1
  {
  }

  /** An indicator draws its connector to the next one unless it shows the last step;
      the connector is highlighted when the step is done. */
  predicate HasConnector(total: int, index: int) {
    index + 1 < total
  }

  predicate ConnectorHighlighted(current: int, total: int, index: int) {
    HasConnector(total, index) && StepStateOf(current, index) == Done
  }

  /** With one indicator per step, every indicator but the last has a connector. */
  lemma ConnectorsBetweenSteps(steps: seq<StepInfo>, index: int)
    requires 0 <= index < |steps|
    ensures HasConnector(|steps|, index) <==> index != |steps| - 1
  {
  }

  /** The small-screen caption, `steps[current - 1]`; outside 1..|steps| the lookup
      finds nothing and rendering fails. */
  function MobileCaption(steps: seq<StepInfo>, current: int): (r: Option<StepInfo>)
    ensures r.Some? <==> 1 <= current <= |steps|
    ensures r.Some? ==> r.value == steps[current - 1]
  {
    if 1 <= current <= |steps| then Some(steps[current - 1]) else None
  }

  /** The small-screen caption is the caption of the active indicator. */
  lemma MobileCaptionIsActiveStep(steps: seq<StepInfo>, current: int)
    requires MobileCaption(steps, current).Some?
    ensures StepStateOf(current, current - 1) == Active
    ensures MobileCaption(steps, current).value == steps[current - 1]
  {
  }

  /** The wizard's step stays in 1..4 under next and previous, so with the four
      captions the caption always exists once the starting step is in range. */
  lemma WizardStepHasCaption(current: int)
    requires 1 <= current <= TOTAL_STEPS
    ensures MobileCaption(STEPS, current).Some?
    ensures Percentage(current, TOTAL_STEPS).Some?
  {
  }
}
