/**
 * The chat-style aptitude test of app/aptitude-test/page.tsx: a welcome
 * message, questions from the backend or, when the request throws, from a
 * fixed list of five mock questions, the user's answers, a completed flag
 * and a progress percentage over a nominal total of ten questions.
 */
module AptitudeTest {
  import opened Wrappers
  import opened Chat
  import AuthContext

  const WelcomeText: string :=
    "Welcome to the CareerCompass Aptitude Test! I'll ask you a series of questions to better understand your skills, interests, and career preferences. Let's begin!"

  const CompletionText: string :=
    "Congratulations! You've completed the aptitude test. Based on your responses, I'll now generate your personalized career recommendations and learning path."

  const ThankYouText: string :=
    "Thank you for completing the aptitude test! Your responses will help us create a personalized career roadmap for you."

  const TotalQuestions: nat := 10

  const MockQuestions: seq<string> := [
    "What type of work environment do you prefer? (Remote, Office, Hybrid, or Flexible)",
    "Which of these subjects interests you most? (Mathematics, Science, Arts, Business, Technology)",
    "How do you prefer to solve problems? (Analytical approach, Creative thinking, Collaborative discussion, or Independent research)",
    "What motivates you most in your career? (Financial success, Work-life balance, Making an impact, or Personal growth)",
    "Which programming languages or technologies are you most interested in learning?"
  ]

  /** A question as the backend sends it (its type and options are not used). */
  datatype Question = Question(id: string, question: string)

  /** What the next-question request yields. */
  datatype QuestionFetch =
    | NextQuestion(q: Question)   // ok, `completed` falsy
    | TestDone                    // ok, `completed` truthy
    | NotOk                       // a non-ok status: no exception, nothing happens
    | Threw                       // an exception: the mock fallback runs

  /** The body of an answer submission. A `userId` of `None` is an
      `undefined` value, which `JSON.stringify` leaves out of the body. */
  datatype AnswerRequest = AnswerRequest(userId: Option<string>, questionId: string, answer: string)

  /** `user.id` as the page reads it. The signed-in user is a Firebase user,
      which carries its id as `uid` and has no `id` property, so the read
      is `undefined`. */
  function UserIdAsWritten(u: AuthContext.FirebaseUser): Option<string> {
    None
  }

  /** The id the backend evidently expects: the Firebase `uid`. */
  function IntendedUserId(u: AuthContext.FirebaseUser): Option<string> {
    Some(u.uid)
  }

  /** As written, every answer body lacks the user id, so the answers of two
      different users to the same question are indistinguishable. */
  lemma WrittenAnswerNamesNoUser(u: AuthContext.FirebaseUser, v: AuthContext.FirebaseUser, q: Question, answer: string)
    ensures AnswerRequest(UserIdAsWritten(u), q.id, answer).userId == None
    ensures AnswerRequest(UserIdAsWritten(u), q.id, answer) == AnswerRequest(UserIdAsWritten(v), q.id, answer)
  {
  }

  /** With the `uid`, an answer body names its user, and the bodies of two
      users with different ids differ. */
  lemma IntendedAnswerNamesUser(u: AuthContext.FirebaseUser, v: AuthContext.FirebaseUser, q: Question, answer: string)
    ensures AnswerRequest(IntendedUserId(u), q.id, answer).userId == Some(u.uid)
    ensures u.uid != v.uid ==> AnswerRequest(IntendedUserId(u), q.id, answer) != AnswerRequest(IntendedUserId(v), q.id, answer)
  {
  }

  /** The number of bot messages, `messages.filter(m => m.sender === "bot").length`. */
  function BotCount(ms: seq<ChatMessage>): nat
    ensures BotCount(ms) <= |ms|
    ensures BotCount(ms) == 0 <==> forall i :: 0 <= i < |ms| ==> ms[i].sender != Bot
    ensures BotCount(ms) == |ms| <==> forall i :: 0 <= i < |ms| ==> ms[i].sender == Bot
  {
    if ms == [] then 0 else BotCount(ms[..|ms| - 1]) + (if ms[|ms| - 1].sender == Bot then 1 else 0)
  }

  lemma BotCountAppend(ms: seq<ChatMessage>, m: ChatMessage)
    ensures BotCount(ms + [m]) == BotCount(ms) + (if m.sender == Bot then 1 else 0)
  {
    assert (ms + [m])[..|ms|] == ms;
  }

  /** `mockQuestions[i]`, which is `undefined` outside the list. */
  function MockQuestionAt(i: int): (r: Option<string>)
    ensures r.Some? <==> 0 <= i < |MockQuestions|
    ensures r.Some? ==> r.value == MockQuestions[i]
  {
    if 0 <= i < |MockQuestions| then Some(MockQuestions[i]) else None
  }

  /** What the fallback does with the message list it sees. */
  datatype Fallback =
    | AskMock(content: Option<string>, progress: real)
    | FinishMock

  /** The fallback branch of `fetchNextQuestion`: the index is one less than
      the number of bot messages seen; below five it asks that mock question
      and sets progress to (index + 1) / 10 * 100, otherwise the test ends.
      An index of -1 asks `mockQuestions[-1]`, which is `undefined`. */
  function FallbackStep(seen: seq<ChatMessage>): (r: Fallback)
    ensures var index := BotCount(seen) - 1;
      && (index < |MockQuestions| <==> r.AskMock?)
      && (r.AskMock? ==> r.content == MockQuestionAt(index) && r.progress == (index + 1) as real * 10.0)
  {
    var index := BotCount(seen) - 1;
    if index < |MockQuestions| then
      AskMock(MockQuestionAt(index), ((index + 1) as real / TotalQuestions as real) * 100.0)
    else FinishMock
  }

  /** The fallback never reports more than half the nominal total: five mock
      questions out of ten. */
  lemma FallbackProgressBounded(seen: seq<ChatMessage>)
    ensures FallbackStep(seen).AskMock? ==> 0.0 <= FallbackStep(seen).progress <= 50.0
  {
  }

  /** With `k + 1` bot messages seen (the welcome and `k` questions), the
      fallback asks the `k`-th mock question and reports `(k + 1) * 10` percent;
      from the welcome alone it asks the first at 10 percent. */
  lemma FallbackAsksInOrder(seen: seq<ChatMessage>, k: nat)
    requires BotCount(seen) == k + 1 && k < |MockQuestions|
    ensures FallbackStep(seen) == AskMock(Some(MockQuestions[k]), (k + 1) as real * 10.0)
  {
  }

  const Welcome: ChatMessage := ChatMessage(WelcomeText, Bot)

  /** How the page shows a bot message whose content is `undefined`: an empty bubble. */
  function BubbleText(content: Option<string>): string {
    content.GetOr("")
  }

  /** `initializeTest` as written calls the `fetchNextQuestion` of the render
      that ran the effect, whose `messages` is still the initial empty list.
      When the request throws, the fallback then counts no bot message at
      all: it posts `mockQuestions[-1]` (an empty bubble) at 0 percent, and
      on the next fetch, which sees the welcome and that empty bubble, it
      continues with the second mock question, so the first is never asked. */
  lemma StaleInitSkipsFirstQuestion(answer: string)
    ensures FallbackStep([]) == AskMock(None, 0.0)
    ensures var afterInit := [Welcome, ChatMessage(BubbleText(None), Bot)];
      FallbackStep(afterInit) == AskMock(Some(MockQuestions[1]), 20.0)
      && FallbackStep(afterInit + [ChatMessage(answer, User)]) == AskMock(Some(MockQuestions[1]), 20.0)
  {
    var afterInit := [Welcome, ChatMessage(BubbleText(None), Bot)];
    assert afterInit[..1] == [Welcome];
    assert [Welcome][..0] == [];
    BotCountAppend(afterInit, ChatMessage(answer, User));
  }

  /** Reading the welcome list instead, the first fallback asks the first
      mock question at 10 percent. */
  lemma FreshInitAsksFirstQuestion()
    ensures FallbackStep([Welcome]) == AskMock(Some(MockQuestions[0]), 10.0)
  {
    assert [Welcome][..0] == [];
  }

  /** The page state apart from the user and the loading flag. */
  datatype TestView = TestView(messages: seq<ChatMessage>, currentQuestion: Option<Question>, testCompleted: bool, progress: real)

  /** What `initializeTest` leaves for a signed-in user, read as intended:
      the list restarts at the welcome message and the first fetch, which sees
      that list, adds at most one bot message. */
  function AfterInit(outcome: QuestionFetch, v: TestView): TestView {
    match outcome
    case NextQuestion(q) => v.(messages := [Welcome, ChatMessage(q.question, Bot)], currentQuestion := Some(q))
    case TestDone => v.(messages := [Welcome, ChatMessage(CompletionText, Bot)], testCompleted := true)
    case NotOk => v.(messages := [Welcome])
    case Threw => v.(messages := [Welcome, ChatMessage(MockQuestions[0], Bot)], progress := 10.0)
  }

  /** After a thrown first request, the intended initialisation is exactly
      the fallback run on the welcome list. */
  lemma AfterInitThrewIsFallback(v: TestView)
    ensures FallbackStep([Welcome]).AskMock?
    ensures AfterInit(QuestionFetch.Threw, v).messages == [Welcome, ChatMessage(BubbleText(FallbackStep([Welcome]).content), Bot)]
    ensures AfterInit(QuestionFetch.Threw, v).progress == FallbackStep([Welcome]).progress
  {
    FreshInitAsksFirstQuestion();
  }

  class AptitudeTestState {
    /** The signed-in user, if any. */
    var user: Option<AuthContext.FirebaseUser>
    var messages: seq<ChatMessage>
    var currentQuestion: Option<Question>
    var isLoading: bool
    var testCompleted: bool
    var progress: real

    function View(): TestView
      reads this
    {
      TestView(messages, currentQuestion, testCompleted, progress)
    }

    ghost predicate Valid()
      reads this
    {
      0.0 <= progress <= 50.0
    }

    constructor (user: Option<AuthContext.FirebaseUser>)
      ensures Valid()
      ensures this.user == user && messages == [] && currentQuestion == None
      ensures !isLoading && !testCompleted && progress == 0.0
    {
      this.user := user;
      messages := [];
      currentQuestion := None;
      isLoading := false;
      testCompleted := false;
      progress := 0.0;
    }

    /** `fetchNextQuestion`, reading the current message list. Without a user
        nothing happens; otherwise the outcome decides, and loading ends. */
    method FetchNextQuestion(outcome: QuestionFetch)
      requires Valid()
      modifies this
      ensures Valid()
      ensures user == old(user)
      ensures old(user).None? ==>
        messages == old(messages) && currentQuestion == old(currentQuestion) && isLoading == old(isLoading)
        && testCompleted == old(testCompleted) && progress == old(progress)
      ensures old(user).Some? ==> !isLoading
      ensures |old(messages)| <= |messages| <= |old(messages)| + 1 && messages[..|old(messages)|] == old(messages)
      ensures old(user).Some? && outcome.TestDone? ==>
        testCompleted && messages == old(messages) + [ChatMessage(CompletionText, Bot)]
        && currentQuestion == old(currentQuestion) && progress == old(progress)
      ensures old(user).Some? && outcome.NextQuestion? ==>
        currentQuestion == Some(outcome.q) && messages == old(messages) + [ChatMessage(outcome.q.question, Bot)]
        && testCompleted == old(testCompleted) && progress == old(progress)
      ensures old(user).Some? && outcome.NotOk? ==>
        messages == old(messages) && currentQuestion == old(currentQuestion)
        && testCompleted == old(testCompleted) && progress == old(progress)
      ensures old(user).Some? && outcome.Threw? ==>
        currentQuestion == old(currentQuestion) &&
        match FallbackStep(old(messages))
        case AskMock(content, p) =>
          messages == old(messages) + [ChatMessage(BubbleText(content), Bot)]
          && progress == p && testCompleted == old(testCompleted)
        case FinishMock =>
          messages == old(messages) + [ChatMessage(ThankYouText, Bot)]
          && testCompleted && progress == old(progress)
    {
      if user.None? {
        return;
      }
      isLoading := true;
      match outcome {
      case TestDone =>
        testCompleted := true;
        messages := messages + [ChatMessage(CompletionText, Bot)];
      case NextQuestion(q) =>
        currentQuestion := Some(q);
        messages := messages + [ChatMessage(q.question, Bot)];
      case NotOk =>
      case Threw =>
        var step := FallbackStep(messages);
        FallbackProgressBounded(messages);
        match step
        case AskMock(content, p) =>
          messages := messages + [ChatMessage(BubbleText(content), Bot)];
          progress := p;
        case FinishMock =>
          testCompleted := true;
          messages := messages + [ChatMessage(ThankYouText, Bot)];
      }
      isLoading := false;
    }

    /** `initializeTest`: the list becomes the welcome message alone, and the
        first question is fetched against that list. */
    method InitializeTest(outcome: QuestionFetch)
      requires Valid()
      modifies this
      ensures Valid()
      ensures user == old(user)
      ensures 1 <= |messages| <= 2 && messages[0] == Welcome
      ensures old(user).None? ==> messages == [Welcome]
      ensures old(user).Some? && outcome.Threw? && !old(testCompleted) ==>
        messages == [Welcome, ChatMessage(MockQuestions[0], Bot)] && progress == 10.0 && !testCompleted && !isLoading
      ensures old(user).Some? && outcome.NextQuestion? ==>
        messages == [Welcome, ChatMessage(outcome.q.question, Bot)] && currentQuestion == Some(outcome.q)
      ensures old(user).Some? ==> View() == AfterInit(outcome, old(View())) && !isLoading
      ensures old(user).None? ==> View() == old(View()).(messages := [Welcome]) && isLoading == old(isLoading)
    {
      messages := [Welcome];
      FreshInitAsksFirstQuestion();
      FetchNextQuestion(outcome);
    }

    /** The effect on `user`: without a user the page redirects to the login
        page and changes nothing; otherwise the test starts. */
    method OnUserChange(outcome: QuestionFetch) returns (redirectToLogin: bool)
      requires Valid()
      modifies this
      ensures Valid()
      ensures redirectToLogin <==> old(user).None?
      ensures redirectToLogin ==> messages == old(messages) && progress == old(progress) && testCompleted == old(testCompleted)
      ensures !redirectToLogin ==> 1 <= |messages| <= 2 && messages[0] == Welcome
      ensures redirectToLogin ==> View() == old(View()) && isLoading == old(isLoading)
      ensures !redirectToLogin ==> View() == AfterInit(outcome, old(View())) && !isLoading
    {
      if user.None? {
        return true;
      }
      redirectToLogin := false;
      InitializeTest(outcome);
    }

    /** `submitAnswer`: the request it sends, if any. It needs both a user and
        a current question, and its failures are swallowed, so no state changes.
        The body carries the user's `uid` (the corrected `IntendedUserId`). */
    method SubmitAnswer(answer: string) returns (request: Option<AnswerRequest>)
      ensures request.Some? <==> user.Some? && currentQuestion.Some?
      ensures request.Some? ==>
        request.value == AnswerRequest(Some(user.value.uid), currentQuestion.value.id, answer)
    {
      if user.None? || currentQuestion.None? {
        return None;
      }
      request := Some(AnswerRequest(IntendedUserId(user.value), currentQuestion.value.id, answer));
    }

    /** `handleSendMessage`: the answer is always appended; unless the test is
        completed it is submitted and the next fetch is scheduled (the caller
        then runs `FetchNextQuestion`). */
    method HandleSendMessage(message: string) returns (request: Option<AnswerRequest>, fetchScheduled: bool)
      requires Valid()
      modifies this`messages
      ensures Valid()
      ensures messages == old(messages) + [ChatMessage(message, User)]
      ensures fetchScheduled <==> !testCompleted
      ensures testCompleted ==> request.None?
      ensures !testCompleted ==>
        (request.Some? <==> user.Some? && currentQuestion.Some?)
        && (request.Some? ==> request.value == AnswerRequest(Some(user.value.uid), currentQuestion.value.id, message))
    {
      messages := messages + [ChatMessage(message, User)];
      request := None;
      fetchScheduled := false;
      if !testCompleted {
        request := SubmitAnswer(message);
        fetchScheduled := true;
      }
    }
  }
}
