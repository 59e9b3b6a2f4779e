/** The chat panel's form: its own text field and the gates that enable the
    field and the send button. A disabled control delivers no events, so a
    change or a submission made while its control is disabled changes
    nothing. */
module ChatPanel {
  import opened Wrappers
  import opened Text

  /** The send button is enabled unless a reply is pending or the text is
      blank once trimmed; the form can be submitted only then. */
  function SubmitEnabled(isLoading: bool, input: string): (r: bool)
    ensures r <==> !isLoading && exists i :: 0 <= i < |input| && !IsWhitespace(input[i])
  {
    TrimProperties(input);
    !isLoading && !IsBlank(input)
  }

  class ChatForm {
    /** The text typed into the field. */
    var input: string

    constructor ()
      ensures input == ""
    {
      input := "";
    }

    /** Typing into the field; the field is disabled while a reply is
        pending. */
    method Change(text: string, isLoading: bool)
      modifies this
      ensures input == if isLoading then old(input) else text
    {
      if !isLoading {
        input := text;
      }
    }

    /** Submitting the form: when the send button is enabled, the text is
        forwarded untrimmed to the page's send handler (`forwarded`) and
        the field is cleared, whatever becomes of the send. */
    method Submit(isLoading: bool) returns (forwarded: Option<string>)
      modifies this
      ensures SubmitEnabled(isLoading, old(input)) ==> forwarded == Some(old(input)) && input == ""
      ensures !SubmitEnabled(isLoading, old(input)) ==> forwarded == None && input == old(input)
    {
      if SubmitEnabled(isLoading, input) {
        forwarded := Some(input);
        input := "";
      } else {
        forwarded := None;
      }
    }
  }
}
