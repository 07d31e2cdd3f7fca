/**
 * The page component (src/pages/Index.tsx): the wizard state, the step
 * indicator derived from it, and the simulated generation run.
 *
 * Each `await new Promise(resolve => setTimeout(resolve, 500))` of the run is
 * one abstract tick. At a tick the pending state updates are rendered, so the
 * class records, in the ghost field `Ticks`, the view the page shows at each
 * tick: the step index, whether the progress bar is shown, and its value.
 */
module IndexPage {
  import opened Wrappers
  import ScenarioInput
  import JsString

  /** One phase of the wizard, as listed in the `steps` array (`caption` is the source's `label`). */
  datatype StepDef = StepDef(id: string, caption: string)

  /** The six steps, in display order. */
  const Steps: seq<StepDef> := [
    StepDef("input", "Scenario Input"),
    StepDef("data", "Data Generation"),
    StepDef("code", "Python Code"),
    StepDef("test", "Testing"),
    StepDef("docs", "Documentation"),
    StepDef("enhance", "Enhancements")
  ]

  /** The step a run starts on, and the step it ends on. */
  const RunStep := 1
  const FinalStep := 5

  /** The `for (let i = 0; i <= 100; i += 20)` loop: its bound and stride. */
  const ProgressMax := 100
  const ProgressStride := 20
  /** The value of the loop counter when the loop exits. */
  const LoopExit := ProgressMax + ProgressStride

  /** Step indicator: step `index` is highlighted when `index <= currentStep`. */
  predicate IsActive(index: nat, currentStep: int) {
    index <= currentStep
  }

  /** Step indicator: step `index` carries the ring when `index === currentStep`. */
  predicate IsCurrent(index: nat, currentStep: int) {
    index == currentStep
  }

  /** Number of active steps among the first n. */
  function ActiveCount(n: nat, currentStep: int): nat {
    if n == 0 then 0
    else ActiveCount(n - 1, currentStep) + (if IsActive(n - 1, currentStep) then 1 else 0)
  }

  /** Number of current steps among the first n. */
  function CurrentCount(n: nat, currentStep: int): nat {
    if n == 0 then 0
    else CurrentCount(n - 1, currentStep) + (if IsCurrent(n - 1, currentStep) then 1 else 0)
  }

  /** Among the first n steps, the active ones are the first currentStep + 1. */
  lemma {:induction false} ActiveCountIs(n: nat, currentStep: int)
    requires 0 <= currentStep
    ensures ActiveCount(n, currentStep) == if n <= currentStep + 1 then n else currentStep + 1
  {
    if n > 0 {
      ActiveCountIs(n - 1, currentStep);
    }
  }

  /** Among the first n steps, exactly one is current when currentStep < n, none otherwise. */
  lemma {:induction false} CurrentCountIs(n: nat, currentStep: int)
    ensures CurrentCount(n, currentStep) == if 0 <= currentStep < n then 1 else 0
  {
    if n > 0 {
      CurrentCountIs(n - 1, currentStep);
    }
  }

  /** For a valid step index: step i is active iff i <= currentStep, exactly one
      step is current and it is active, and currentStep + 1 steps are active.
      The first two clauses restate the definitions of IsActive and IsCurrent;
      the counts carry the content. */
  lemma StepIndicator(currentStep: int)
    requires 0 <= currentStep < |Steps|
    ensures forall i: nat :: i < |Steps| ==> (IsActive(i, currentStep) <==> i <= currentStep)
    ensures forall i: nat :: i < |Steps| && IsCurrent(i, currentStep) ==> i == currentStep && IsActive(i, currentStep)
    ensures CurrentCount(|Steps|, currentStep) == 1
    ensures ActiveCount(|Steps|, currentStep) == currentStep + 1
  {
    ActiveCountIs(|Steps|, currentStep);
    CurrentCountIs(|Steps|, currentStep);
  }

  /** What the page shows of the wizard state at one moment. */
  datatype View = View(step: int, processing: bool, progress: int) {
    /** `{isProcessing && <Progress value={progress} />}`: the progress bar and
        its percentage are rendered only while processing. */
    function ProgressBar(): Option<int> {
      if processing then Some(progress) else None
    }
  }

  /** The views shown at the ticks of one run while the loop counter goes
      from 0 up to (not including) i. */
  function TicksBelow(i: nat): seq<View>
    decreases i
  {
    if i < ProgressStride then []
    else TicksBelow(i - ProgressStride) + [View(RunStep, true, i - ProgressStride)]
  }

  /** The views shown at the ticks of one whole run. */
  function RunTrace(): seq<View> {
    TicksBelow(LoopExit)
  }

  /** At the k-th tick the progress value written is 20 k, the step is 1 and
      processing is on. */
  lemma {:induction false} TicksBelowShape(i: nat)
    requires i % ProgressStride == 0
    ensures |TicksBelow(i)| == i / ProgressStride
    ensures forall k :: 0 <= k < |TicksBelow(i)| ==>
              TicksBelow(i)[k] == View(RunStep, true, ProgressStride * k)
  {
    if i >= ProgressStride {
      TicksBelowShape(i - ProgressStride);
    }
  }

  /** A run shows six ticks whose progress values are 0, 20, 40, 60, 80, 100,
      strictly increasing and within [0, 100], each with the progress bar
      shown and step 1; the last value written is 100. (That the counter
      leaves the loop at 120 is the exit invariant of HandleGenerateScenario,
      whose ticks are RunTrace() = TicksBelow(LoopExit).) */
  lemma RunTraceProgress()
    ensures |RunTrace()| == 6
    ensures forall k :: 0 <= k < 6 ==> RunTrace()[k].progress == [0, 20, 40, 60, 80, 100][k]
    ensures forall j, k :: 0 <= j < k < |RunTrace()| ==> RunTrace()[j].progress < RunTrace()[k].progress
    ensures forall k :: 0 <= k < |RunTrace()| ==>
              && 0 <= RunTrace()[k].progress <= ProgressMax
              && RunTrace()[k].ProgressBar() == Some(RunTrace()[k].progress)
              && RunTrace()[k].step == RunStep
    ensures RunTrace()[5].progress == ProgressMax
  {
    TicksBelowShape(LoopExit);
  }

  /** At every tick of a run the step is 1, so the step never decreases
      across the ticks and stays at most 5, the step a run ends on. */
  lemma RunStepMonotone()
    ensures forall j, k :: 0 <= j <= k < |RunTrace()| ==> RunTrace()[j].step <= RunTrace()[k].step
    ensures forall k :: 0 <= k < |RunTrace()| ==> RunTrace()[k].step <= FinalStep
    ensures RunTrace()[0].step == RunStep
  {
    TicksBelowShape(LoopExit);
  }

  /** What the overview card shows: the entered text beside two static badges,
      or the placeholder prompt. */
  datatype Overview = IdeaCard(idea: string) | Placeholder

  /** `scenarioIdea ? … : …`: JavaScript truthiness of a string, i.e. non-empty,
      with no trimming. */
  function OverviewCard(scenarioIdea: string): Overview {
    if scenarioIdea != "" then IdeaCard(scenarioIdea) else Placeholder
  }

  /** The card shows exactly the entered text iff it is non-empty. Unlike the
      Generate guard it does not trim, so white-space-only text shows the card
      while Generate stays disabled. */
  lemma OverviewCardVersusGuard(scenarioIdea: string, isProcessing: bool)
    ensures OverviewCard(scenarioIdea) == IdeaCard(scenarioIdea) <==> scenarioIdea != ""
    ensures OverviewCard(scenarioIdea).Placeholder? <==> scenarioIdea == ""
    ensures scenarioIdea != "" && JsString.IsBlank(scenarioIdea) ==>
              OverviewCard(scenarioIdea).IdeaCard? && ScenarioInput.GenerateDisabled(scenarioIdea, isProcessing)
    ensures !ScenarioInput.GenerateDisabled(scenarioIdea, isProcessing) ==> OverviewCard(scenarioIdea).IdeaCard?
  {
    JsString.TrimEmptyIffBlank(scenarioIdea);
  }

  /** The page's state: the four `useState` hooks. */
  class Wizard {
    var scenarioIdea: string
    var currentStep: int
    var isProcessing: bool
    var progress: int
    /** The views rendered at every tick so far. */
    ghost var Ticks: seq<View>

    /** currentStep indexes `Steps` and progress is a percentage. */
    ghost predicate Valid()
      reads this
    {
      0 <= currentStep < |Steps| && 0 <= progress <= ProgressMax
    }

    /** What the page renders from the current state. */
    function Snapshot(): View
      reads this
    {
      View(currentStep, isProcessing, progress)
    }

    /** The initial state: empty text, step 0, not processing, progress 0. */
    constructor ()
      ensures Valid()
      ensures scenarioIdea == "" && currentStep == 0 && !isProcessing && progress == 0
      ensures Ticks == []
    {
      scenarioIdea := "";
      currentStep := 0;
      isProcessing := false;
      progress := 0;
      Ticks := [];
    }

    /** `setScenarioIdea`, the `onChange` callback: stores the text as given. */
    method SetScenarioIdea(text: string)
      requires Valid()
      modifies this
      ensures Valid()
      ensures scenarioIdea == text
      ensures currentStep == old(currentStep) && isProcessing == old(isProcessing)
      ensures progress == old(progress) && Ticks == old(Ticks)
    {
      scenarioIdea := text;
    }

    /** `handleGenerateScenario`, the `onGenerate` callback. It checks
        nothing: processing goes on and the step to 1 before any progress is
        written; the loop writes 0, 20, ..., 100, one tick after each write;
        then processing goes off and the step jumps to 5, the last step.
        Progress is left at 100 and the text is untouched. */
    method HandleGenerateScenario()
      requires Valid()
      modifies this
      ensures Valid()
      ensures scenarioIdea == old(scenarioIdea)
      ensures !isProcessing && currentStep == FinalStep == |Steps| - 1 && progress == ProgressMax
      ensures Ticks == old(Ticks) + RunTrace()
      ensures Snapshot().ProgressBar() == None
    {
      isProcessing := true;
      currentStep := RunStep;
      var i := 0;
      while i <= ProgressMax
        invariant 0 <= i <= LoopExit && i % ProgressStride == 0
        invariant isProcessing && currentStep == RunStep && scenarioIdea == old(scenarioIdea)
        invariant 0 <= progress <= ProgressMax
        invariant i > 0 ==> progress == i - ProgressStride
        invariant Ticks == old(Ticks) + TicksBelow(i)
      {
        progress := i;
        // the await: one tick, at which the page renders the new progress
        Ticks := Ticks + [Snapshot()];
        i := i + ProgressStride;
      }
      isProcessing := false;
      currentStep := FinalStep;
    }

    /** A user event on the scenario panel, wired as in the page:
        `onChange` is `setScenarioIdea`, `onGenerate` is `handleGenerateScenario`.
        An event on a disabled control changes nothing. */
    method Handle(ev: ScenarioInput.Event)
      requires Valid()
      modifies this
      ensures Valid()
      ensures var cb := ScenarioInput.Dispatch(old(scenarioIdea), old(isProcessing), ev);
              cb == None ==> unchanged(this)
      ensures var cb := ScenarioInput.Dispatch(old(scenarioIdea), old(isProcessing), ev);
              cb.Some? && cb.value.OnChange? ==>
                && scenarioIdea == cb.value.value
                && currentStep == old(currentStep) && isProcessing == old(isProcessing)
                && progress == old(progress) && Ticks == old(Ticks)
      ensures var cb := ScenarioInput.Dispatch(old(scenarioIdea), old(isProcessing), ev);
              cb == Some(ScenarioInput.OnGenerate) ==>
                && scenarioIdea == old(scenarioIdea)
                && !isProcessing && currentStep == FinalStep && progress == ProgressMax
                && Ticks == old(Ticks) + RunTrace()
    {
      var cb := ScenarioInput.Dispatch(scenarioIdea, isProcessing, ev);
      if cb.Some? {
        match cb.value
        case OnChange(text) => SetScenarioIdea(text);
        case OnGenerate => HandleGenerateScenario();
      }
    }
  }

  /** Selecting the first example and pressing Generate: the text is that
      example, the run shows its six ticks and ends complete. A second press
      is allowed and starts over from step 1. */
  method ExampleScenarioRun() returns (w: Wizard)
    ensures w.Valid()
    ensures w.scenarioIdea == ScenarioInput.ExampleScenarios[0]
    ensures !w.isProcessing && w.currentStep == FinalStep && w.progress == ProgressMax
    ensures w.Ticks == RunTrace() + RunTrace()
    ensures w.Ticks[|RunTrace()|].step == RunStep
  {
    w := new Wizard();
    ScenarioInput.ExampleClickSetsText(w.scenarioIdea, w.isProcessing, 0);
    w.Handle(ScenarioInput.ExampleClicked(0));
    ScenarioInput.ExamplesEnableGenerate(0);
    w.Handle(ScenarioInput.GenerateClicked);
    w.Handle(ScenarioInput.GenerateClicked);
    RunTraceProgress();
  }
}
