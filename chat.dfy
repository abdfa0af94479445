/**
 * The message type shared by components/chat-ui.tsx, app/chat/page.tsx and
 * components/chatbot-widget.tsx, and the outcome of their `/api/chat` call.
 */
module Chat {

  datatype Sender = User | Bot

  /** A chat message without its id and timestamp. */
  datatype ChatMessage = ChatMessage(content: string, sender: Sender)

  /** What the `/api/chat` request yields: an ok response with its `message`
      field, a non-ok response, or a thrown exception. */
  datatype ChatReply = Replied(message: string) | NotOk | Threw

  /** The bot message a reply turns into: the response text when it came back
      ok, and the page's fixed apology otherwise. */
  function ReplyMessage(reply: ChatReply, apology: string): (r: ChatMessage)
    ensures r.sender == Bot
    ensures reply.Replied? ==> r.content == reply.message
    ensures !reply.Replied? ==> r.content == apology
  {
    ChatMessage(if reply.Replied? then reply.message else apology, Bot)
  }
}
