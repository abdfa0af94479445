/**
 * The full-page chat of app/chat/page.tsx. A send is split at its `await`:
 * `BeginSend` appends the user's message and marks a reply as pending, and
 * `FinishSend` appends the one bot message the reply turns into. The class
 * invariant says the conversation is the greeting followed by alternating
 * user and bot messages, with a user message last exactly while loading.
 */
module ChatPage {
  import opened Wrappers
  import opened Text
  import opened Chat

  const Greeting: string :=
    "Hello! I'm your AI Career Mentor. I'm here to help you with resume tips, interview preparation, career guidance, learning paths, and any other career-related questions you might have. How can I assist you today?"

  const Apology: string :=
    "I apologize, but I'm having trouble responding right now. Please try again in a moment."

  /** After the greeting, odd positions hold user messages and even ones bot
      messages; every user message is trimmed and non-empty. */
  predicate Alternating(ms: seq<ChatMessage>) {
    && |ms| >= 1 && ms[0] == ChatMessage(Greeting, Bot)
    && (forall i :: 1 <= i < |ms| ==> ms[i].sender == (if i % 2 == 1 then User else Bot))
    && (forall i :: 0 <= i < |ms| && ms[i].sender == User ==> TrimmedNonBlank(ms[i].content))
  }

  /** Each complete exchange adds one user message and one bot message, so
      in a conversation with no reply pending the user messages are exactly
      half of the messages after the greeting. */
  function UserCount(ms: seq<ChatMessage>): nat {
    if ms == [] then 0 else UserCount(ms[..|ms| - 1]) + (if ms[|ms| - 1].sender == User then 1 else 0)
  }

  lemma {:induction false} UserCountHalf(ms: seq<ChatMessage>)
    requires Alternating(ms)
    ensures UserCount(ms) == |ms| / 2
    decreases |ms|
  {
    if |ms| > 1 {
      var p := ms[..|ms| - 1];
      assert forall i :: 0 <= i < |p| ==> p[i] == ms[i];
      UserCountHalf(p);
    } else {
      assert ms[..0] == [];
    }
  }

  lemma AppendUser(ms: seq<ChatMessage>, text: string)
    requires Alternating(ms) && |ms| % 2 == 1
    requires TrimmedNonBlank(text)
    ensures Alternating(ms + [ChatMessage(text, User)])
  {
    var r := ms + [ChatMessage(text, User)];
    assert forall i :: 0 <= i < |ms| ==> r[i] == ms[i];
  }

  lemma AppendBot(ms: seq<ChatMessage>, m: ChatMessage)
    requires Alternating(ms) && |ms| % 2 == 0 && m.sender == Bot
    ensures Alternating(ms + [m])
  {
    var r := ms + [m];
    assert forall i :: 0 <= i < |ms| ==> r[i] == ms[i];
  }

  class ChatPageState {
    var messages: seq<ChatMessage>
    var inputValue: string
    var isLoading: bool

    ghost predicate Valid()
      reads this
    {
      Alternating(messages) && (isLoading <==> |messages| % 2 == 0)
    }

    /** The page opens with the greeting alone. */
    constructor ()
      ensures Valid()
      ensures messages == [ChatMessage(Greeting, Bot)] && inputValue == "" && !isLoading
    {
      messages := [ChatMessage(Greeting, Bot)];
      inputValue := "";
      isLoading := false;
    }

    method SetInput(text: string)
      requires Valid()
      modifies this`inputValue
      ensures Valid()
      ensures inputValue == text
    {
      inputValue := text;
    }

    /** `handleSendMessage` up to the request: a blank input or a pending
        reply changes nothing; otherwise the trimmed text is appended as a
        user message, the box is cleared and loading starts. */
    method BeginSend() returns (request: Option<string>)
      requires Valid()
      modifies this
      ensures Valid()
      ensures Trim(old(inputValue)) == "" || old(isLoading) ==>
        request == None && messages == old(messages) && inputValue == old(inputValue) && isLoading == old(isLoading)
      ensures Trim(old(inputValue)) != "" && !old(isLoading) ==>
        && request == Some(Trim(old(inputValue)))
        && messages == old(messages) + [ChatMessage(Trim(old(inputValue)), User)]
        && inputValue == "" && isLoading
    {
      request := None;
      var text := Trim(inputValue);
      if text == "" || isLoading {
        return;
      }
      AppendUser(messages, text);
      request := Some(text);
      messages := messages + [ChatMessage(text, User)];
      inputValue := "";
      isLoading := true;
    }

    /** `handleSendMessage` after the request: exactly one bot message, the
        reply or the apology, and loading ends. Text typed meanwhile stays. */
    method FinishSend(reply: ChatReply)
      requires Valid() && isLoading
      modifies this`messages, this`isLoading
      ensures Valid()
      ensures messages == old(messages) + [ReplyMessage(reply, Apology)]
      ensures !isLoading
    {
      AppendBot(messages, ReplyMessage(reply, Apology));
      messages := messages + [ReplyMessage(reply, Apology)];
      isLoading := false;
    }

    /** A whole send when no other handler runs during the request. */
    method HandleSendMessage(reply: ChatReply)
      requires Valid()
      modifies this
      ensures Valid()
      ensures Trim(old(inputValue)) == "" || old(isLoading) ==>
        messages == old(messages) && inputValue == old(inputValue) && isLoading == old(isLoading)
      ensures Trim(old(inputValue)) != "" && !old(isLoading) ==>
        && messages == old(messages) + [ChatMessage(Trim(old(inputValue)), User), ReplyMessage(reply, Apology)]
        && inputValue == "" && !isLoading
    {
      var request := BeginSend();
      if request.Some? {
        FinishSend(reply);
      }
    }

    /** `handleKeyPress`: Enter without Shift sends. */
    method HandleKeyPress(key: string, shiftKey: bool, reply: ChatReply)
      requires Valid()
      modifies this
      ensures Valid()
      ensures !(key == "Enter" && !shiftKey) ==>
        messages == old(messages) && inputValue == old(inputValue) && isLoading == old(isLoading)
      ensures key == "Enter" && !shiftKey && Trim(old(inputValue)) != "" && !old(isLoading) ==>
        && messages == old(messages) + [ChatMessage(Trim(old(inputValue)), User), ReplyMessage(reply, Apology)]
        && inputValue == "" && !isLoading
      ensures key == "Enter" && !shiftKey && (Trim(old(inputValue)) == "" || old(isLoading)) ==>
        messages == old(messages) && inputValue == old(inputValue) && isLoading == old(isLoading)
    {
      if key == "Enter" && !shiftKey {
        HandleSendMessage(reply);
      }
    }
  }
}
