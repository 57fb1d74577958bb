/**
 * The prompt form (src/components/PromptBuilder.jsx): the text area's
 * `input` state, the submit guard on the trimmed input, and the submit
 * button's disabled state.
 */
module PromptBuilder {
  import opened Wrappers
  import opened Text

  /** `disabled={!input.trim() || isOptimizing}`. */
  function SubmitDisabled(input: string, isOptimizing: bool): (disabled: bool)
    ensures disabled <==> isOptimizing || forall k :: 0 <= k < |input| ==> IsJsWhitespace(input[k])
  {
    BlankIffAllWhitespace(input);
    IsBlank(input) || isOptimizing
  }

  /** The form's local state. */
  class PromptForm {
    var input: string

    constructor ()
      ensures input == ""
    {
      input := "";
    }

    /** The text area's `onChange`. */
    method SetInput(value: string)
      modifies this
      ensures input == value
    {
      input := value;
    }

    /**
     * `handleSubmit`: nothing is submitted when the input is whitespace
     * only; otherwise `onOptimize` receives the input as typed, untrimmed.
     */
    method HandleSubmit() returns (submitted: Option<string>)
      ensures submitted.None? <==> forall k :: 0 <= k < |input| ==> IsJsWhitespace(input[k])
      ensures submitted.Some? ==> submitted.value == input
    {
      BlankIffAllWhitespace(input);
      if !IsBlank(input) {
        submitted := Some(input);
      } else {
        submitted := None;
      }
    }
  }
}
