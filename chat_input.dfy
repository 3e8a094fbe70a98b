/** components/ChatInput.tsx: the message box and its Send button, as a
    state machine over the `input` state and the `disabled` property. The
    `onSend` callback is recorded as the list of the values passed to it. */
module ChatInput {
  import Text

  const EnterKey: string := "Enter"

  /** The guard of `handleSubmit`: `input.trim() && !disabled`. */
  predicate CanSubmit(input: string, disabled: bool) {
    Text.Trim(input) != "" && !disabled
  }

  /** The Send button's `disabled={disabled || !input.trim()}`. */
  predicate SendButtonDisabled(input: string, disabled: bool) {
    disabled || Text.Trim(input) == ""
  }

  /** The key test of `handleKeyPress`: Enter without Shift. */
  predicate IsSubmitKey(key: string, shiftKey: bool) {
    key == EnterKey && !shiftKey
  }

  /** The button is enabled exactly when a click would send, which is when
      the component is enabled and the input has a non-whitespace
      character. */
  lemma ButtonEnabledIffSubmitSends(input: string, disabled: bool)
    ensures !SendButtonDisabled(input, disabled) <==> CanSubmit(input, disabled)
    ensures CanSubmit(input, disabled) <==>
      !disabled && exists i :: 0 <= i < |input| && !Text.IsWhitespace(input[i])
  {
    Text.TrimEmptyIff(input);
  }

  class ChatInput {
    /** The text area's `input` state. */
    var input: string
    /** The `disabled` property. */
    var disabled: bool
    /** Every value `onSend` has been called with, oldest first. */
    var sent: seq<string>

    /** A freshly mounted component: `useState("")`. */
    constructor (disabled: bool)
      ensures input == "" && this.disabled == disabled && sent == []
    {
      input, this.disabled, sent := "", disabled, [];
    }

    /** `onChange`: `setInput(e.target.value)`. */
    method Change(value: string)
      modifies this
      ensures input == value && disabled == old(disabled) && sent == old(sent)
    {
      input := value;
    }

    /** The parent re-renders with a new `disabled` property. */
    method SetDisabled(d: bool)
      modifies this
      ensures disabled == d && input == old(input) && sent == old(sent)
    {
      disabled := d;
    }

    /** The Send button's state: disabled exactly when a click would not
        send. */
    function ButtonDisabled(): (r: bool)
      reads this
      ensures r <==> !CanSubmit(input, disabled)
    {
      SendButtonDisabled(input, disabled)
    }

    /** `handleSubmit`: sends the input as typed (untrimmed) and clears it
        when it is not blank and the component is enabled; otherwise nothing
        changes. */
    method Submit() returns (sends: bool)
      modifies this
      ensures sends == CanSubmit(old(input), disabled)
      ensures disabled == old(disabled)
      ensures sends ==> sent == old(sent) + [old(input)] && input == ""
      ensures !sends ==> sent == old(sent) && input == old(input)
    {
      sends := Text.Trim(input) != "" && !disabled;
      if sends {
        sent := sent + [input];
        input := "";
      }
    }

    /** `handleKeyPress`: Enter without Shift prevents the default newline
        and submits; every other key press changes nothing. */
    method KeyPress(key: string, shiftKey: bool) returns (prevented: bool)
      modifies this
      ensures prevented == IsSubmitKey(key, shiftKey)
      ensures disabled == old(disabled)
      ensures prevented && CanSubmit(old(input), disabled) ==> sent == old(sent) + [old(input)] && input == ""
      ensures !(prevented && CanSubmit(old(input), disabled)) ==> sent == old(sent) && input == old(input)
    {
      prevented := key == EnterKey && !shiftKey;
      if prevented {
        var _ := Submit();
      }
    }
  }

  // The scenarios of the component's tests.

  const Greeting: string := "Hello, chatbot!"

  lemma GreetingIsNotBlank()
    ensures Text.Trim(Greeting) == Greeting
  {
    assert !Text.IsWhitespace(Greeting[0]) && !Text.IsWhitespace(Greeting[|Greeting| - 1]);
  }

  /** Typing a message and clicking Send sends it and empties the box. */
  method ClickSendsTypedText() returns (sent: seq<string>, input: string)
    ensures sent == [Greeting] && input == ""
  {
    GreetingIsNotBlank();
    var c := new ChatInput(false);
    c.Change(Greeting);
    var _ := c.Submit();
    sent, input := c.sent, c.input;
  }

  /** Typing a message and pressing Enter does the same. */
  method EnterSendsTypedText() returns (sent: seq<string>, input: string)
    ensures sent == [Greeting] && input == ""
  {
    GreetingIsNotBlank();
    var c := new ChatInput(false);
    c.Change(Greeting);
    var _ := c.KeyPress(EnterKey, false);
    sent, input := c.sent, c.input;
  }

  /** Shift+Enter is left to the browser: the handler does not prevent the
      default action, sends nothing and leaves the typed text as it was (the
      newline the browser inserts arrives later, as a separate `Change`). */
  method ShiftEnterDoesNotSend() returns (sent: seq<string>, input: string)
    ensures sent == [] && input == Greeting
  {
    var c := new ChatInput(false);
    c.Change(Greeting);
    var _ := c.KeyPress(EnterKey, true);
    sent, input := c.sent, c.input;
  }

  /** Clicking Send on an empty box sends nothing. */
  method EmptyClickSendsNothing() returns (sent: seq<string>)
    ensures sent == []
  {
    var c := new ChatInput(false);
    var _ := c.Submit();
    sent := c.sent;
  }

  /** A disabled component has a disabled button and sends nothing, even
      with text in the box. */
  method DisabledSendsNothing() returns (buttonDisabled: bool, sent: seq<string>)
    ensures buttonDisabled && sent == []
  {
    var c := new ChatInput(true);
    c.Change(Greeting);
    buttonDisabled := c.ButtonDisabled();
    var _ := c.Submit();
    sent := c.sent;
  }
}
