/**
 * The chat's input box: a text field whose content is sent, untrimmed, when
 * it is not blank, no generation is running and the box is enabled; the
 * field is then cleared. Enter without Shift submits as the button does.
 */
module ChatInput {
  import Text

  /** The guard of `handleSubmit`: `message.trim() && !isLoading && !disabled`. */
  predicate CanSubmit(message: string, isLoading: bool, disabled: bool)
  {
    Text.Trim(message) != [] && !isLoading && !disabled
  }

  /**
   * The send button's `disabled` expression. It is disabled exactly when a
   * submit would be refused, i.e. when the text is blank, a generation is
   * running or the box is disabled.
   */
  function SendButtonDisabled(message: string, isLoading: bool, disabled: bool): (r: bool)
    ensures r <==> !CanSubmit(message, isLoading, disabled)
    ensures r <==> (Text.IsBlank(message) || isLoading || disabled)
  {
    isLoading || Text.Trim(message) == [] || disabled
  }

  /**
   * The text area's `disabled` expression: a generation is running or the
   * box is disabled. Whenever the text area is locked, no text can be
   * submitted.
   */
  function TextareaDisabled(isLoading: bool, disabled: bool): (r: bool)
    ensures r ==> forall m :: !CanSubmit(m, isLoading, disabled)
    ensures !r ==> forall m :: CanSubmit(m, isLoading, disabled) <==> !Text.IsBlank(m)
  {
    isLoading || disabled
  }

  /** The key handler submits on Enter without Shift. */
  predicate SubmitsOnKey(key: string, shiftKey: bool)
  {
    key == "Enter" && !shiftKey
  }

  class Input {
    var message: string
    /** The texts handed to `onSendMessage`, in order. */
    var sent: seq<string>

    constructor ()
      ensures message == "" && sent == []
    {
      message := "";
      sent := [];
    }

    /** The text area's `onChange`. */
    method Change(value: string)
      modifies this`message
      ensures message == value
    {
      message := value;
    }

    /**
     * `handleSubmit`: an accepted submit sends the text exactly as typed
     * (not trimmed) and clears the field; a refused one changes nothing.
     */
    method HandleSubmit(isLoading: bool, disabled: bool)
      modifies this
      ensures CanSubmit(old(message), isLoading, disabled) ==> sent == old(sent) + [old(message)] && message == ""
      ensures !CanSubmit(old(message), isLoading, disabled) ==> sent == old(sent) && message == old(message)
    {
      if Text.Trim(message) != [] && !isLoading && !disabled {
        sent := sent + [message];
        message := "";
      }
    }

    /** The text area's `onKeyDown`: Enter without Shift submits; any other key changes nothing here. */
    method KeyDown(key: string, shiftKey: bool, isLoading: bool, disabled: bool)
      modifies this
      ensures SubmitsOnKey(key, shiftKey) && CanSubmit(old(message), isLoading, disabled) ==>
        sent == old(sent) + [old(message)] && message == ""
      ensures !(SubmitsOnKey(key, shiftKey) && CanSubmit(old(message), isLoading, disabled)) ==>
        sent == old(sent) && message == old(message)
    {
      if key == "Enter" && !shiftKey {
        HandleSubmit(isLoading, disabled);
      }
    }
  }
}
