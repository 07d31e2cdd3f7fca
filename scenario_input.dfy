/**
 * The scenario input panel (src/components/ScenarioInput.tsx). The panel
 * keeps no state of its own: it receives the current text and the parent's
 * `isProcessing` flag as props, and turns each user event into a call of one
 * of the parent's callbacks (`onChange` or `onGenerate`), or into nothing
 * when the event hits a disabled control.
 */
module ScenarioInput {
  import opened Wrappers
  import opened JsString

  /** The four fixed example scenarios offered as buttons. Each is written
      as two literals joined, since the verifier does not look inside a
      string literal this long. */
  const ExampleScenarios: seq<string> := [
    "Detect unusual cash deposits " + "followed by immediate wire transfers",
    "Identify structuring patterns " + "in customer transactions",
    "Monitor high-risk geography " + "transaction flows",
    "Flag suspicious business " + "account activity patterns"
  ]

  /** What the user can do to the panel. */
  datatype Event =
    | TextEdited(text: string)         // the textarea's change event carries the new text
    | ExampleClicked(index: nat)       // a click on the example button at this position
    | GenerateClicked                  // a click on "Generate AML Scenario"

  /** The parent's callbacks the panel invokes. */
  datatype Callback =
    | OnChange(value: string)
    | OnGenerate

  /** The `disabled` attribute of the Generate button: `!value.trim() || isProcessing`. */
  predicate GenerateDisabled(value: string, isProcessing: bool) {
    Trim(value) == [] || isProcessing
  }

  /** The callback an event triggers. Typed text is forwarded as it is and an
      example click forwards that example (`handleExampleClick`); a Generate
      click reaches `onGenerate` only while the button is enabled. There is
      no button beyond the fourth example, so such a click does nothing. */
  function Dispatch(value: string, isProcessing: bool, ev: Event): (r: Option<Callback>)
    ensures r.Some? && r.value.OnGenerate? ==> ev.GenerateClicked? && !IsBlank(value) && !isProcessing
    ensures r.Some? && r.value.OnChange? ==> ev.TextEdited? || ev.ExampleClicked?
  {
    match ev
    case TextEdited(text) => Some(OnChange(text))
    case ExampleClicked(k) =>
      if k < |ExampleScenarios| then Some(OnChange(ExampleScenarios[k])) else None
    case GenerateClicked =>
      if GenerateDisabled(value, isProcessing) then None else Some(OnGenerate)
  }

  /** The button is enabled exactly when the text holds a non-white-space
      character and no run is active. */
  lemma GenerateEnabledIff(value: string, isProcessing: bool)
    ensures !GenerateDisabled(value, isProcessing) <==> !IsBlank(value) && !isProcessing
    ensures Dispatch(value, isProcessing, GenerateClicked) == Some(OnGenerate)
            <==> !IsBlank(value) && !isProcessing
  {
    TrimEmptyIffBlank(value);
  }

  /** Text made of white space only leaves the button disabled. */
  lemma BlankTextDisables(value: string, isProcessing: bool)
    requires IsBlank(value)
    ensures GenerateDisabled(value, isProcessing)
    ensures Dispatch(value, isProcessing, GenerateClicked) == None
  {
    TrimEmptyIffBlank(value);
  }

  /** While a run is active the button is disabled whatever the text. */
  lemma ProcessingDisables(value: string)
    ensures GenerateDisabled(value, true)
    ensures Dispatch(value, true, GenerateClicked) == None
  {
  }

  /** Typed text reaches `onChange` unchanged: no trimming, no validation,
      whatever the current text or processing flag. */
  lemma TypedTextForwarded(value: string, isProcessing: bool, text: string)
    ensures Dispatch(value, isProcessing, TextEdited(text)) == Some(OnChange(text))
  {
  }

  /** Selecting example k replaces the text by exactly that example and does
      nothing else, whatever the current text or processing flag. */
  lemma ExampleClickSetsText(value: string, isProcessing: bool, k: nat)
    requires k < |ExampleScenarios|
    ensures Dispatch(value, isProcessing, ExampleClicked(k)) == Some(OnChange(ExampleScenarios[k]))
  {
  }

  /** There are four examples, none of them blank, so once one is selected
      Generate is enabled unless a run is active. */
  lemma ExamplesEnableGenerate(k: nat)
    requires k < |ExampleScenarios|
    ensures |ExampleScenarios| == 4
    ensures !IsBlank(ExampleScenarios[k])
    ensures Dispatch(ExampleScenarios[k], false, GenerateClicked) == Some(OnGenerate)
  {
    var e := ExampleScenarios[k];
    // each example opens with a capital letter
    if k == 0 { assert e[0] == 'D'; }
    else if k == 1 { assert e[0] == 'I'; }
    else if k == 2 { assert e[0] == 'M'; }
    else { assert e[0] == 'F'; }
    VisibleFirstNotBlank(e);
    GenerateEnabledIff(e, false);
  }
}
