/** The prompt form (`StoryboardPrompt.tsx`): a text buffer that is sent,
    trimmed, when it holds more than white space, and then cleared. The
    white-space test of `trim` is the parameter `ws`. */
module StoryboardPrompt {
  import opened Wrappers
  import Text

  /** What a submit of `buffer` hands to `onGenerate`, if anything: nothing
      for white space only, otherwise the buffer with exactly its leading and
      trailing white space removed. */
  function Submitted(buffer: string, ws: char -> bool): (r: Option<string>)
    ensures r.None? <==> Text.AllSpace(buffer, ws)
    ensures r.Some? ==> r.value != [] && Text.Trimmed(r.value, ws)
    ensures r.Some? ==> var i := Text.LeadingSpace(buffer, ws);
              && i + |r.value| <= |buffer|
              && Text.AllSpace(buffer[..i], ws)
              && r.value == buffer[i..i + |r.value|]
              && Text.AllSpace(buffer[i + |r.value|..], ws)
  {
    var value := Text.Trim(buffer, ws);
    if value == [] then None else Some(value)
  }

  /** Typing the value that was sent and submitting again sends the same
      value. */
  lemma ResubmitSame(buffer: string, ws: char -> bool)
    requires Submitted(buffer, ws).Some?
    ensures Submitted(Submitted(buffer, ws).value, ws) == Submitted(buffer, ws)
  {
    Text.TrimIdempotent(buffer, ws);
  }

  class PromptForm {
    var prompt: string
    const ws: char -> bool

    /** The buffer starts empty. */
    constructor (ws: char -> bool)
      ensures prompt == "" && this.ws == ws
    {
      prompt := "";
      this.ws := ws;
    }

    /** The input's `onChange`. */
    method Change(value: string)
      modifies this
      ensures prompt == value
    {
      prompt := value;
    }

    /** `handleSubmit`: at most one `onGenerate` call, with the trimmed
        buffer; the buffer is cleared exactly when a call is made. */
    method Submit() returns (generated: Option<string>)
      modifies this
      ensures generated == Submitted(old(prompt), ws)
      ensures generated.None? ==> prompt == old(prompt)
      ensures generated.Some? ==> prompt == ""
    {
      generated := Submitted(prompt, ws);
      if generated.Some? {
        prompt := "";
      }
    }
  }
}
