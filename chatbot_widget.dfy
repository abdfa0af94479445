/**
 * The floating chat widget of components/chatbot-widget.tsx: a launcher that
 * blinks until the widget is first opened, a window that can be minimised
 * or closed, and a message list that receives a welcome message the first
 * time the window is open with no messages.
 *
 * React runs the two effects after every render; since both are idempotent
 * (the welcome message goes only into an empty list, and blinking is only
 * ever switched off), each handler below ends by running them once.
 */
module ChatbotWidget {
  import opened Chat

  const Welcome: string :=
    "Hi! I'm your AI Career Mentor. I can help you with career advice, skill development, and answer questions about your professional journey. How can I assist you today?"

  const Apology: string :=
    "I'm sorry, I'm having trouble connecting right now. Please try again in a moment."

  /** The message list after the welcome effect. */
  function WithWelcome(isOpen: bool, messages: seq<ChatMessage>): (r: seq<ChatMessage>)
    ensures isOpen && messages == [] ==> r == [ChatMessage(Welcome, Bot)]
    ensures !(isOpen && messages == []) ==> r == messages
  {
    if isOpen && messages == [] then [ChatMessage(Welcome, Bot)] else messages
  }

  /** The welcome effect never adds to a list that already has messages, so
      running it again changes nothing. */
  lemma WelcomeAtMostOnce(isOpen: bool, messages: seq<ChatMessage>)
    ensures WithWelcome(isOpen, WithWelcome(isOpen, messages)) == WithWelcome(isOpen, messages)
    ensures |WithWelcome(isOpen, messages)| <= |messages| + 1
  {
  }

  class ChatbotWidgetState {
    var isOpen: bool
    var isMinimized: bool
    var messages: seq<ChatMessage>
    var isLoading: bool
    var shouldBlink: bool

    /** Both effects have run: an open window has messages and no blinking. */
    ghost predicate Valid()
      reads this
    {
      isOpen ==> messages != [] && !shouldBlink
    }

    constructor ()
      ensures Valid()
      ensures !isOpen && !isMinimized && messages == [] && !isLoading && shouldBlink
    {
      isOpen := false;
      isMinimized := false;
      messages := [];
      isLoading := false;
      shouldBlink := true;
    }

    /** The welcome effect and the blink effect. */
    method RunEffects()
      modifies this`messages, this`shouldBlink
      ensures Valid()
      ensures messages == WithWelcome(isOpen, old(messages))
      ensures shouldBlink == (old(shouldBlink) && !isOpen)
    {
      if isOpen && messages == [] {
        messages := [ChatMessage(Welcome, Bot)];
      }
      if isOpen {
        shouldBlink := false;
      }
    }

    /** `toggleChat`: flip the window, un-minimise, stop blinking. */
    method ToggleChat()
      requires Valid()
      modifies this
      ensures Valid()
      ensures isOpen == !old(isOpen) && !isMinimized && !shouldBlink
      ensures messages == WithWelcome(isOpen, old(messages))
      ensures isLoading == old(isLoading)
    {
      isOpen := !isOpen;
      isMinimized := false;
      shouldBlink := false;
      RunEffects();
    }

    /** `minimizeChat`: only the minimised flag changes. */
    method MinimizeChat()
      requires Valid()
      modifies this
      ensures Valid()
      ensures isMinimized
      ensures isOpen == old(isOpen) && messages == old(messages)
      ensures isLoading == old(isLoading) && shouldBlink == old(shouldBlink)
    {
      isMinimized := true;
      RunEffects();
    }

    /** `closeChat`: the window closes and is no longer minimised. */
    method CloseChat()
      requires Valid()
      modifies this
      ensures Valid()
      ensures !isOpen && !isMinimized
      ensures messages == old(messages) && isLoading == old(isLoading) && shouldBlink == old(shouldBlink)
    {
      isOpen := false;
      isMinimized := false;
      RunEffects();
    }

    /** `handleSendMessage` when no other handler runs during the request:
        the user's message and then exactly one bot message; loading ends. */
    method HandleSendMessage(message: string, reply: ChatReply)
      requires Valid()
      modifies this
      ensures Valid()
      ensures messages == old(messages) + [ChatMessage(message, User), ReplyMessage(reply, Apology)]
      ensures !isLoading
      ensures isOpen == old(isOpen) && isMinimized == old(isMinimized) && shouldBlink == old(shouldBlink)
    {
      messages := messages + [ChatMessage(message, User)];
      isLoading := true;
      messages := messages + [ReplyMessage(reply, Apology)];
      isLoading := false;
      RunEffects();
    }
  }

  /** The handlers a user can trigger on the widget. */
  datatype Handler = Toggle | Minimize | Close | Send(message: string, reply: ChatReply)

  /** Blinking never restarts: across any handler, a widget that has stopped
      blinking stays stopped. */
  method BlinkStaysOff(w: ChatbotWidgetState, handler: Handler)
    requires w.Valid() && !w.shouldBlink
    modifies w
    ensures w.Valid() && !w.shouldBlink
  {
    match handler
    case Toggle => w.ToggleChat();
    case Minimize => w.MinimizeChat();
    case Close => w.CloseChat();
    case Send(message, reply) => w.HandleSendMessage(message, reply);
  }
}
