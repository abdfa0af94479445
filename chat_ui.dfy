/**
 * The input box of components/chat-ui.tsx: a message is handed to the parent
 * only when its trimmed text is non-empty and no reply is pending, and the
 * box is cleared once it has been handed over.
 */
module ChatUi {
  import opened Wrappers
  import opened Text

  /** What a submit hands to `onSendMessage`, if anything. */
  function Submission(input: string, isLoading: bool): (r: Option<string>)
    ensures r.Some? <==> !AllWhitespace(input) && !isLoading
    ensures r.Some? ==> r.value == Trim(input) && r.value != ""
  {
    var t := Trim(input);
    if t != "" && !isLoading then Some(t) else None
  }

  /** The `disabled` condition of the send button. */
  predicate SendDisabled(input: string, isLoading: bool) {
    Trim(input) == "" || isLoading
  }

  /** The button is enabled exactly when a submit would send something. */
  lemma ButtonMatchesSubmit(input: string, isLoading: bool)
    ensures !SendDisabled(input, isLoading) <==> Submission(input, isLoading).Some?
  {
  }

  /** What is sent has nothing left to trim. */
  lemma SubmittedIsTrimmed(input: string, isLoading: bool)
    requires Submission(input, isLoading).Some?
    ensures Trim(Submission(input, isLoading).value) == Submission(input, isLoading).value
  {
    TrimIdempotent(input);
  }

  /** Extra spaces around the text change neither whether nor what is sent. */
  lemma PaddingIgnored(input: string, isLoading: bool)
    ensures Submission(" " + input + " ", isLoading) == Submission(input, isLoading)
  {
    PaddedTrim(input);
  }

  /** A space on either side is trimmed away with the rest of the padding. */
  lemma PaddedTrim(s: string)
    ensures Trim(" " + s + " ") == Trim(s)
  {
    var r := Trim(s);
    if r == "" {
      WhitespaceConcat(" ", s);
      WhitespaceConcat(" " + s, " ");
    } else {
      TrimRemovesOnlyWhitespace(s);
      var k := SkipForward(s, 0);
      PadLeft(s, r, k);
      PadRight(" " + s, r, k + 1);
      TrimOfCut(" " + s + " ", r, k + 1);
    }
  }

  lemma PadLeft(s: string, r: string, k: int)
    requires CutAt(s, r, k)
    ensures CutAt(" " + s, r, k + 1)
  {
    var p := " " + s;
    assert p[k + 1..k + 1 + |r|] == s[k..k + |r|];
    assert p[..k + 1] == " " + s[..k];
    WhitespaceConcat(" ", s[..k]);
    assert p[k + 1 + |r|..] == s[k + |r|..];
  }

  lemma PadRight(s: string, r: string, k: int)
    requires CutAt(s, r, k)
    ensures CutAt(s + " ", r, k)
  {
    var p := s + " ";
    assert p[k..k + |r|] == s[k..k + |r|];
    assert p[..k] == s[..k];
    assert p[k + |r|..] == s[k + |r|..] + " ";
    WhitespaceConcat(s[k + |r|..], " ");
  }

  /** The chat input's own state. */
  class ChatInput {
    var inputValue: string

    constructor ()
      ensures inputValue == ""
    {
      inputValue := "";
    }

    /** Typing into the box. */
    method SetInput(text: string)
      modifies this
      ensures inputValue == text
    {
      inputValue := text;
    }

    /** `handleSubmit`: hand over the trimmed text and clear the box, or do
        nothing when the text is blank or a reply is pending. */
    method HandleSubmit(isLoading: bool) returns (forwarded: Option<string>)
      modifies this
      ensures forwarded == Submission(old(inputValue), isLoading)
      ensures forwarded.Some? ==> inputValue == ""
      ensures forwarded.None? ==> inputValue == old(inputValue)
    {
      forwarded := None;
      var trimmed := Trim(inputValue);
      if trimmed != "" && !isLoading {
        forwarded := Some(trimmed);
        inputValue := "";
      }
    }

    /** `handleKeyPress`: Enter without Shift submits; any other key leaves
        the box to the browser. */
    method HandleKeyPress(key: string, shiftKey: bool, isLoading: bool) returns (forwarded: Option<string>)
      modifies this
      ensures key == "Enter" && !shiftKey ==> forwarded == Submission(old(inputValue), isLoading)
      ensures !(key == "Enter" && !shiftKey) ==> forwarded == None && inputValue == old(inputValue)
      ensures forwarded.Some? ==> inputValue == ""
      ensures forwarded.None? ==> inputValue == old(inputValue)
    {
      forwarded := None;
      if key == "Enter" && !shiftKey {
        forwarded := HandleSubmit(isLoading);
      }
    }
  }
}
