/** The prompt box: a text value that is submitted, trimmed, to an optional
    callback, in a "home" variant (a text area) and a "chat" variant (a line). */
module ChatInput {
  import opened Text
  import opened Optional

  datatype Variant = Home | Chat

  /** Whether the submit button is disabled for this value: when trimming
      leaves nothing. */
  predicate SubmitDisabled(value: string) {
    Trim(value) == []
  }

  lemma SubmitDisabledIff(value: string)
    ensures SubmitDisabled(value) <==> AllSpace(value)
  {
    TrimEmptyIff(value);
  }

  /** What a key press does: whether it submits, and whether the key's default
      action (a new line in the text area) is suppressed. */
  datatype KeyOutcome = KeyOutcome(submits: bool, preventsDefault: bool)

  function KeyDown(variant: Variant, key: string, shiftKey: bool): (r: KeyOutcome)
    ensures r.submits <==> key == "Enter" && (variant == Chat || !shiftKey)
    ensures r.preventsDefault <==> variant == Home && r.submits
  {
    match variant
    case Home => if key == "Enter" && !shiftKey then KeyOutcome(true, true) else KeyOutcome(false, false)
    case Chat => KeyOutcome(key == "Enter", false)
  }

  class Field {
    const variant: Variant
    var value: string
    var focused: bool

    constructor (variant: Variant)
      ensures this.variant == variant && value == [] && !focused
    {
      this.variant := variant;
      value := [];
      focused := false;
    }

    method Change(newValue: string)
      modifies this
      ensures value == newValue && focused == old(focused)
    {
      value := newValue;
    }

    method Focus()
      modifies this
      ensures focused && value == old(value)
    {
      focused := true;
    }

    method Blur()
      modifies this
      ensures !focused && value == old(value)
    {
      focused := false;
    }

    /** `handleSubmit`: with a callback and a value that is not all white space,
        the callback receives the trimmed value and the box is cleared;
        otherwise nothing happens. `submitted` is what the callback receives. */
    method Submit(hasCallback: bool) returns (submitted: Option<string>)
      modifies this
      ensures submitted.Some? <==> hasCallback && !AllSpace(old(value))
      ensures submitted.Some? ==> submitted.value == Trim(old(value)) && value == []
      ensures submitted.Some? ==> submitted.value != [] && Trimmed(submitted.value)
      ensures submitted.None? ==> value == old(value)
      ensures focused == old(focused)
    {
      TrimEmptyIff(value);
      var trimmed := Trim(value);
      if trimmed != [] && hasCallback {
        submitted := Some(trimmed);
        value := [];
      } else {
        submitted := None;
      }
    }

    /** A key press in the field: Enter submits (in the home variant only
        without Shift). */
    method PressKey(key: string, shiftKey: bool, hasCallback: bool) returns (submitted: Option<string>)
      modifies this
      ensures !KeyDown(variant, key, shiftKey).submits ==> submitted == None && value == old(value)
      ensures KeyDown(variant, key, shiftKey).submits ==>
        (submitted.Some? <==> hasCallback && !AllSpace(old(value)))
      ensures submitted.Some? ==> submitted.value == Trim(old(value)) && value == []
      ensures submitted.None? ==> value == old(value)
      ensures focused == old(focused)
    {
      if KeyDown(variant, key, shiftKey).submits {
        submitted := Submit(hasCallback);
      } else {
        submitted := None;
      }
    }
  }
}
