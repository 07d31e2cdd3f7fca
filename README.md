# AML scenario lab: wizard, input guard and result classifiers

A Dafny model of the only logic in the "AI AML LAB" dashboard: the page's
wizard state and its simulated generation run, the Generate button's guard and
the example selection of the scenario input panel, and the risk-tier and
test-status classifiers of the results panel. Everything else in the
dashboard renders literal data.

- `wrappers.dfy` — `Option`.
- `js_string.dfy` (`JsString`) — JavaScript white space and `String.prototype.trim`.
- `scenario_input.dfy` (`ScenarioInput`) — the input panel as a function from
  props and a user event to the parent callback it calls, if any.
- `index_page.dfy` (`IndexPage`) — the six steps, the step indicator, and the
  class `Wizard` holding the page state (`scenarioIdea`, `currentStep`,
  `isProcessing`, `progress`) with the generation loop. Each `await` of the
  loop is one abstract tick; the ghost field `Wizard.Ticks` records the view
  (step, processing flag, progress) the page renders at each tick.
- `test_results.dfy` (`TestResults`) — `getRiskBadge`, `getStatusIcon`, the
  test-case badge variant, and the literal detection rows and test cases.

Two behaviours of the code that the model follows as written:

- The generation handler has no guard of its own. Starting is prevented only
  by the button being disabled (blank text or a run in progress), so a click
  on a disabled button changes nothing, but a new run from the completed state
  is allowed and moves the step back from 5 to 1.
- Progress is never reset: the first loop iteration writes 0, and after the
  run progress stays at 100.

## Model

| member | source | states |
|---|---|---|
| JsString.TrimStart | src/components/ScenarioInput.tsx:58 | the result is a suffix of the input, starts with a non-white-space character, and only white space was dropped |
| JsString.TrimEnd | src/components/ScenarioInput.tsx:58 | the result is a prefix of the input, ends with a non-white-space character, and only white space was dropped |
| JsString.Trim | src/components/ScenarioInput.tsx:58 | `value.trim()` is an infix of the text with only white space outside it, and it begins and ends with visible characters |
| JsString.TrimEmptyIffBlank | src/components/ScenarioInput.tsx:58 | the trimmed text is empty exactly when every character is white space |
| JsString.TrimIdempotent | src/components/ScenarioInput.tsx:58 | trimming a trimmed text changes nothing |
| JsString.VisibleFirstNotBlank | src/components/ScenarioInput.tsx:58 | a text starting with a visible character is non-empty after trimming |
| ScenarioInput.GenerateDisabled | src/components/ScenarioInput.tsx:58 | definition; its properties are proved in GenerateEnabledIff, BlankTextDisables and ProcessingDisables |
| ScenarioInput.Dispatch | src/components/ScenarioInput.tsx:29-58 | a Generate click reaches `onGenerate` only when the text is not blank and no run is active; only edits and example clicks call `onChange` |
| ScenarioInput.GenerateEnabledIff | src/components/ScenarioInput.tsx:58 | the button is enabled, and a click fires `onGenerate`, if and only if the text has a non-white-space character and not processing |
| ScenarioInput.BlankTextDisables | src/components/ScenarioInput.tsx:58 | white-space-only text leaves the button disabled and a click does nothing |
| ScenarioInput.ProcessingDisables | src/components/ScenarioInput.tsx:58 | while processing the button is disabled whatever the text |
| ScenarioInput.TypedTextForwarded | src/components/ScenarioInput.tsx:51 | typed text reaches `onChange` unchanged, untrimmed and unvalidated |
| ScenarioInput.ExampleClickSetsText | src/components/ScenarioInput.tsx:29-31 | clicking example k calls `onChange` with exactly `exampleScenarios[k]`, whatever the current state |
| ScenarioInput.ExamplesEnableGenerate | src/components/ScenarioInput.tsx:22-27 | there are four examples, none blank, so after selecting one Generate is enabled when not processing |
| IndexPage.ActiveCountIs | src/pages/Index.tsx:74 | among the first n steps exactly min(n, currentStep + 1) are active |
| IndexPage.CurrentCountIs | src/pages/Index.tsx:75 | among the first n steps exactly one is current if currentStep < n, none otherwise |
| IndexPage.StepIndicator | src/pages/Index.tsx:72-75 | for a valid step: step i is active iff i <= currentStep, exactly one step is current and it is active, and currentStep + 1 steps are active |
| IndexPage.TicksBelowShape | src/pages/Index.tsx:37-40 | after the counter reaches i the loop has shown i/20 ticks, the k-th with progress 20k, step 1 and processing on |
| IndexPage.RunTraceProgress | src/pages/Index.tsx:37-40 | a run shows exactly six progress values 0, 20, 40, 60, 80, 100, strictly increasing, in [0,100], each with the bar shown and step 1; the last value written is 100 |
| IndexPage.RunStepMonotone | src/pages/Index.tsx:32-44 | every tick of a run is at step 1, so the step never decreases across the ticks and stays at most 5 |
| IndexPage.View.ProgressBar | src/pages/Index.tsx:96-103 | definition; its properties are proved in RunTraceProgress (shown at every tick) and HandleGenerateScenario (hidden after a run) |
| IndexPage.IsActive | src/pages/Index.tsx:74 | definition; its properties are proved in ActiveCountIs and StepIndicator |
| IndexPage.IsCurrent | src/pages/Index.tsx:75 | definition; its properties are proved in CurrentCountIs and StepIndicator |
| IndexPage.OverviewCard | src/pages/Index.tsx:138 | definition; its properties are proved in OverviewCardVersusGuard |
| IndexPage.OverviewCardVersusGuard | src/pages/Index.tsx:138-165 | the card shows exactly the entered text iff it is non-empty, else the placeholder; white-space-only text shows the card while Generate is disabled, and whenever Generate is enabled the card is shown |
| IndexPage.Wizard.constructor | src/pages/Index.tsx:18-21 | initial state: empty text, step 0, not processing, progress 0 |
| IndexPage.Wizard.SetScenarioIdea | src/pages/Index.tsx:112 | `onChange` stores the text as given and changes nothing else |
| IndexPage.Wizard.HandleGenerateScenario | src/pages/Index.tsx:32-44 | processing on and step 1 before any progress write; the ticks are exactly the run trace; afterwards not processing, step 5 (the last index of the steps), progress 100, text unchanged; step always a valid index; the progress bar is hidden afterwards |
| IndexPage.Wizard.Handle | src/pages/Index.tsx:110-115 | an event on a disabled control changes no state; an edit or example click sets only the text; an enabled Generate click performs a whole run |
| IndexPage.ExampleScenarioRun | src/pages/Index.tsx:32-44 | selecting the first example sets the text to it; Generate completes a run; a second Generate from the completed state is accepted and starts at step 1 |
| TestResults.RiskBadge | src/components/TestResults.tsx:59-63 | definition; its properties are proved in RiskBadgeTiers and RiskBadgeMonotone |
| TestResults.GetStatusIcon | src/components/TestResults.tsx:50-57 | definition; its properties are proved in StatusIconCases and StatusIconInjective |
| TestResults.TestCaseVariant | src/components/TestResults.tsx:106 | definition; its properties are proved in TestCaseVariantIff |
| TestResults.RiskBadgeTiers | src/components/TestResults.tsx:59-63 | High iff score >= 80, Medium iff 60 <= score < 80, Low iff score < 60 |
| TestResults.RiskBadgeMonotone | src/components/TestResults.tsx:59-63 | a higher score never yields a lower tier |
| TestResults.LabelsDistinct | src/components/TestResults.tsx:60-62 | the three badge texts are pairwise distinct |
| TestResults.DetectionStatusAgrees | src/components/TestResults.tsx:16-41 | every literal row's `status` is the label of the tier its `riskScore` gets (95 High, 78 Medium, 88 High), and no other tier has that label |
| TestResults.StatusIconCases | src/components/TestResults.tsx:50-57 | passed, warning and failed get the check, alert and cross icons; any other status gets none |
| TestResults.StatusIconInjective | src/components/TestResults.tsx:50-57 | two statuses with the same icon are the same status |
| TestResults.TestCaseVariantIff | src/components/TestResults.tsx:106 | the badge variant is 'default' iff the status is 'passed', i.e. iff the icon is the check mark |
| TestResults.TestCasesRendering | src/components/TestResults.tsx:43-48 | every literal test case gets an icon; three get 'default', the warning gets 'secondary' |

## Left out

- Time: the 500 ms waits of the run are abstract ticks; wall-clock time and the 2-second "Copied!" reset of the code viewer are not modelled.
- Concurrency: the run is modelled as one atomic call, so user edits made while a run is awaiting, and the absence of cancellation, are not modelled.
- React's batching of state updates and re-rendering are reduced to one recorded view per tick; JSX, CSS classes, icons and the `Tabs`/`Progress`/`Badge` components are not modelled.
- The overview card (src/pages/Index.tsx:138-165) is modelled only as the choice between the entered text and the placeholder; its markup and its two static badges are display only.
- The clipboard write of the code viewer is a browser call and is not modelled; the code viewer, data generator, documentation and recommendations panels only render literals and are not part of this model.
- The floating-point metric values and `status.toUpperCase()` in the results panel are display only.
- TestResults.RiskBadge: scores are modelled as integers; a JavaScript `number` may also be fractional or NaN.
- JsString.IsWhiteSpace: uses the Unicode space separators of the current Unicode version; JavaScript strings are UTF-16 and may hold lone surrogates, which Dafny characters cannot.
