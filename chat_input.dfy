/**
 * The message box under the chat: it keeps the draft, sends the trimmed draft only when there is
 * something to send and no reply is streaming, and sends on Enter but not on Shift+Enter.
 */
module ChatInput {
  import opened Options
  import opened Text

  /** The send guard: a non-blank draft, an enabled box, and no reply streaming. */
  predicate CanSend(draft: string, disabled: bool, isStreaming: bool) {
    Trim(draft) != "" && !disabled && !isStreaming
  }

  /** Whether a key press sends: Enter without Shift. */
  predicate SendsOnKey(key: string, shift: bool) {
    key == "Enter" && !shift
  }

  class Input {
    /** The text in the box. */
    var draft: string

    constructor ()
      ensures draft == ""
    {
      draft := "";
    }

    /** Typing replaces the draft. */
    method HandleChange(text: string)
      modifies this
      ensures draft == text
    {
      draft := text;
    }

    /**
     * `handleSend`: when the guard holds, hand the trimmed draft to the page and clear the box;
     * otherwise send nothing and keep the draft. The text sent is never blank and starts and
     * ends with a non-space character.
     */
    method HandleSend(disabled: bool, isStreaming: bool) returns (sent: Option<string>)
      modifies this
      ensures sent.Some? <==> CanSend(old(draft), disabled, isStreaming)
      ensures sent.Some? ==> sent.value == Trim(old(draft)) && draft == ""
      ensures sent.Some? ==> sent.value != "" && !IsWhitespace(sent.value[0])
                             && !IsWhitespace(sent.value[|sent.value| - 1])
      ensures sent.None? ==> draft == old(draft)
    {
      if Trim(draft) != "" && !disabled && !isStreaming {
        sent := Some(Trim(draft));
        draft := "";
      } else {
        sent := None;
      }
    }

    /**
     * `handleKeyDown`: Enter without Shift suppresses the newline and tries to send; any other
     * key is left to the text box.
     */
    method HandleKeyDown(key: string, shift: bool, disabled: bool, isStreaming: bool)
      returns (sent: Option<string>, prevented: bool)
      modifies this
      ensures prevented == SendsOnKey(key, shift)
      ensures sent.Some? <==> SendsOnKey(key, shift) && CanSend(old(draft), disabled, isStreaming)
      ensures sent.Some? ==> sent.value == Trim(old(draft)) && draft == ""
      ensures sent.None? ==> draft == old(draft)
    {
      prevented := key == "Enter" && !shift;
      if prevented {
        sent := HandleSend(disabled, isStreaming);
      } else {
        sent := None;
      }
    }
  }

  /** A draft of only spaces and line breaks can never be sent. */
  lemma BlankNeverSent(draft: string, disabled: bool, isStreaming: bool)
    requires AllWhitespace(draft)
    ensures !CanSend(draft, disabled, isStreaming)
  {
  }

  /** Sending again what was just sent sends the same text: trimming is idempotent. */
  lemma ResendSame(draft: string)
    requires CanSend(draft, false, false)
    ensures CanSend(Trim(draft), false, false) && Trim(Trim(draft)) == Trim(draft)
  {
    TrimIdempotent(draft);
  }
}
