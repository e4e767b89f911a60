/**
 * The message input: a draft held in component state, a submit handler that
 * sends the trimmed draft and clears it, Enter (without Shift) as a submit
 * key, a send button enabled by the same rule, and a character counter.
 * `disabled` is a prop that the parent binds to its loading flag; every
 * handler reads it when it runs, so here it is a parameter.
 */
module ChatInput {
  import opened Wrappers
  import opened JsString

  /**
   * The guard and payload of `handleSubmit`: when the trimmed draft is
   * non-empty and the input enabled, the trimmed draft goes to
   * `onSendMessage`. Something is
   * sent exactly when the input is enabled and the draft has a character
   * that `trim` keeps, and what is sent has no white space at either end.
   */
  function SubmitOutcome(draft: string, disabled: bool): (sent: Option<string>)
    ensures sent.Some? <==> !disabled && exists m :: 0 <= m < |draft| && !IsTrimmable(draft[m])
    ensures sent.Some? ==> sent.value == Trim(draft)
    ensures sent.Some? ==> sent.value != [] && !IsTrimmable(sent.value[0]) && !IsTrimmable(sent.value[|sent.value| - 1])
  {
    var text := Trim(draft);
    if text != "" && !disabled then Some(text) else None
  }

  /**
   * The send button's `disabled` rule: the trimmed draft is empty or the
   * input is disabled, that is, the draft is white space only or the input
   * is disabled.
   */
  function SendButtonDisabled(draft: string, disabled: bool): (off: bool)
    ensures off <==> disabled || forall m :: 0 <= m < |draft| ==> IsTrimmable(draft[m])
  {
    Trim(draft) == "" || disabled
  }

  /** The send button is enabled exactly when submitting would send. */
  lemma ButtonMatchesGuard(draft: string, disabled: bool)
    ensures !SendButtonDisabled(draft, disabled) <==> SubmitOutcome(draft, disabled).Some?
  {
  }

  /** What is sent is already trimmed: sending it again would send the same text. */
  lemma SentTextIsStable(draft: string, disabled: bool)
    requires SubmitOutcome(draft, disabled).Some?
    ensures SubmitOutcome(SubmitOutcome(draft, disabled).value, disabled) == SubmitOutcome(draft, disabled)
  {
    TrimIdempotent(draft);
  }

  /** The key presses that submit: Enter with Shift not held. */
  function SubmitsOnKey(key: string, shiftKey: bool): (submits: bool)
    ensures submits ==> key == "Enter"
    ensures shiftKey ==> !submits
  {
    key == "Enter" && !shiftKey
  }

  /** One mounted input box. */
  class Component {
    /** The `message` draft. */
    var message: string

    constructor()
      ensures message == ""
    {
      message := "";
    }

    /** `onChange`: the textarea's new value becomes the draft. */
    method Change(value: string)
      modifies this
      ensures message == value
    {
      message := value;
    }

    /**
     * `handleSubmit`: send the trimmed draft and clear it when the guard
     * holds; otherwise send nothing and keep the draft.
     */
    method HandleSubmit(disabled: bool) returns (sent: Option<string>)
      modifies this
      ensures sent == SubmitOutcome(old(message), disabled)
      ensures sent.Some? ==> message == ""
      ensures sent.None? ==> message == old(message)
    {
      var text := Trim(message);
      if text != "" && !disabled {
        sent := Some(text);
        message := "";
      } else {
        sent := None;
      }
    }

    /**
     * `handleKeyDown`: Enter without Shift submits; Shift+Enter and every
     * other key leave the draft to the textarea and send nothing.
     */
    method HandleKeyDown(key: string, shiftKey: bool, disabled: bool) returns (sent: Option<string>)
      modifies this
      ensures SubmitsOnKey(key, shiftKey) ==> sent == SubmitOutcome(old(message), disabled)
      ensures !SubmitsOnKey(key, shiftKey) ==> sent.None?
      ensures sent.Some? ==> message == ""
      ensures sent.None? ==> message == old(message)
    {
      if key == "Enter" && !shiftKey {
        sent := HandleSubmit(disabled);
      } else {
        sent := None;
      }
    }

    /**
     * `{message.length} characters`: the untrimmed draft's length, which
     * counts the white space that sending would strip.
     */
    function CharacterCount(): (n: nat)
      reads this
      ensures n == |message|
      ensures n >= |Trim(message)|
    {
      |message|
    }
  }
}
