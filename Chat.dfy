/**
 * The chat panel: the state it keeps (the conversation, the text box and
 * the loading flag) and how `sendMessage` and `handleKeyPress` change it.
 * The answer of `/api/chat` is an input (`ChatOutcome`); the request body
 * sent and the topic passed to `onAgentChange` are outputs. Message ids
 * come from the clock in the application and are parameters here.
 */
module Chat {
  import opened Options
  import opened Strings
  import ChatRoute

  datatype Role = User | Assistant

  /** The name and emoji of the agent that wrote an answer. */
  datatype AgentBadge = AgentBadge(name: string, emoji: string)

  datatype Message = Message(id: string, role: Role, content: string, agent: Option<AgentBadge>)

  /** The parsed body of a reply from `/api/chat`. */
  datatype ResponseData = ResponseData(
    error: Option<string>,
    response: string,
    agent: Option<AgentBadge>,
    agentType: Option<string>)

  /** A parsed reply, or an exception from `fetch` or `json`. */
  datatype ChatOutcome = Received(data: ResponseData) | Threw

  /** The body posted to `/api/chat`. */
  datatype ChatRequest = ChatRequest(message: string, history: seq<ChatRoute.Turn>)

  const Apology: string := "죄송합니다. 오류가 발생했습니다. 다시 시도해주세요."

  function RoleName(r: Role): string {
    match r
    case User => "user"
    case Assistant => "assistant"
  }

  /** `messageText || input`: the explicit text unless it is absent or
      empty, in which case the text box. */
  function SendText(messageText: Option<string>, input: string): (text: string)
    ensures PresentText(messageText) ==> text == messageText.value
    ensures !PresentText(messageText) ==> text == input
    ensures text == "" ==> input == ""
  {
    if PresentText(messageText) then messageText.value else input
  }

  /** The conversation as sent to the server: role and content of every
      message, in order; ids and agent badges are dropped. */
  function HistoryOf(messages: seq<Message>): (h: seq<ChatRoute.Turn>)
    ensures |h| == |messages|
    ensures forall i :: 0 <= i < |messages| ==>
              h[i].role == RoleName(messages[i].role) && h[i].content == messages[i].content
  {
    seq(|messages|, i requires 0 <= i < |messages| =>
      ChatRoute.Turn(RoleName(messages[i].role), messages[i].content))
  }

  /** The history of a longer conversation extends the history of a shorter one. */
  lemma HistoryAppend(a: seq<Message>, b: seq<Message>)
    ensures HistoryOf(a + b) == HistoryOf(a) + HistoryOf(b)
  {
    assert forall i :: 0 <= i < |b| ==> (a + b)[|a| + i] == b[i];
  }

  /** A reply was received and it does not carry an error. */
  predicate Succeeded(outcome: ChatOutcome) {
    outcome.Received? && !PresentText(outcome.data.error)
  }

  /** The one assistant message a finished request adds. */
  function ReplyFor(id: string, outcome: ChatOutcome): (m: Message)
    ensures m.id == id && m.role == Assistant
    ensures Succeeded(outcome) ==>
              m.content == outcome.data.response && m.agent == outcome.data.agent
    ensures !Succeeded(outcome) ==> m.content == Apology && m.agent.None?
  {
    if Succeeded(outcome) then Message(id, Assistant, outcome.data.response, outcome.data.agent)
    else Message(id, Assistant, Apology, None)
  }

  /** The topic passed to `onAgentChange`, if it is called. */
  function AgentChange(hasCallback: bool, outcome: ChatOutcome): (t: Option<string>)
    ensures t.Some? <==> hasCallback && Succeeded(outcome) && PresentText(outcome.data.agentType)
    ensures t.Some? ==> t.value == outcome.data.agentType.value && t.value != ""
  {
    if hasCallback && Succeeded(outcome) && PresentText(outcome.data.agentType)
    then Some(outcome.data.agentType.value) else None
  }

  /** A conversation at rest: user and assistant messages alternate,
      starting with the user, and no user message is blank. */
  ghost predicate Alternating(messages: seq<Message>) {
    forall i :: 0 <= i < |messages| ==>
      messages[i].role == (if i % 2 == 0 then User else Assistant) &&
      (i % 2 == 0 ==> !IsBlank(messages[i].content))
  }

  /** In an alternating conversation the history the server receives
      alternates between the roles "user" and "assistant". */
  lemma AlternatingHistory(messages: seq<Message>)
    requires Alternating(messages)
    ensures forall i :: 0 <= i < |messages| ==>
              HistoryOf(messages)[i].role == (if i % 2 == 0 then "user" else "assistant")
  {
  }

  class ChatInterface {
    var messages: seq<Message>
    var input: string
    var isLoading: bool
    /** Whether the parent passed an `onAgentChange` callback. */
    const hasAgentCallback: bool

    /** Roles alternate; a request is in flight exactly when the last
        message is the user's. */
    ghost predicate Valid()
      reads this
    {
      Alternating(messages) && (isLoading <==> |messages| % 2 == 1)
    }

    constructor(hasAgentCallback: bool)
      ensures Valid()
      ensures messages == [] && input == "" && !isLoading
      ensures this.hasAgentCallback == hasAgentCallback
    {
      messages := [];
      input := "";
      isLoading := false;
      this.hasAgentCallback := hasAgentCallback;
    }

    /** The text box's `onChange`. */
    method OnInputChange(value: string)
      requires Valid()
      modifies this
      ensures Valid()
      ensures input == value && messages == old(messages) && isLoading == old(isLoading)
    {
      input := value;
    }

    /** `sendMessage` up to the request: the guard, then the user message is
      appended, the text box cleared and the loading flag raised. The
      request carries the conversation as it was before the new message. */
    method BeginSend(messageText: Option<string>, userId: string) returns (request: Option<ChatRequest>)
      requires Valid()
      modifies this
      ensures Valid()
      ensures request.Some? <==> !IsBlank(SendText(messageText, old(input))) && !old(isLoading)
      ensures request.None? ==>
                messages == old(messages) && input == old(input) && isLoading == old(isLoading)
      ensures request.Some? ==>
                var text := SendText(messageText, old(input));
                request.value == ChatRequest(text, HistoryOf(old(messages))) &&
                messages == old(messages) + [Message(userId, User, text, None)] &&
                input == "" && isLoading
    {
      var text := SendText(messageText, input);
      if IsBlank(text) || isLoading {
        return None;
      }
      request := Some(ChatRequest(text, HistoryOf(messages)));
      messages := messages + [Message(userId, User, text, None)];
      input := "";
      isLoading := true;
    }

    /** `sendMessage` after the request: exactly one assistant message, the
      answer or the apology, then the loading flag is lowered. */
    method FinishSend(replyId: string, outcome: ChatOutcome) returns (agentChange: Option<string>)
      requires Valid() && isLoading
      modifies this
      ensures Valid()
      ensures messages == old(messages) + [ReplyFor(replyId, outcome)]
      ensures !isLoading && input == old(input)
      ensures agentChange == AgentChange(hasAgentCallback, outcome)
    {
      messages := messages + [ReplyFor(replyId, outcome)];
      agentChange := AgentChange(hasAgentCallback, outcome);
      isLoading := false;
    }

    /** One whole call of `sendMessage` with nothing happening in between. */
    method SendMessage(messageText: Option<string>, userId: string, replyId: string, outcome: ChatOutcome)
      returns (request: Option<ChatRequest>, agentChange: Option<string>)
      requires Valid()
      modifies this
      ensures Valid()
      ensures request.Some? <==> !IsBlank(SendText(messageText, old(input))) && !old(isLoading)
      ensures request.None? ==>
                messages == old(messages) && input == old(input) &&
                isLoading == old(isLoading) && agentChange.None?
      ensures request.Some? ==>
                var text := SendText(messageText, old(input));
                request.value == ChatRequest(text, HistoryOf(old(messages))) &&
                messages == old(messages) + [Message(userId, User, text, None), ReplyFor(replyId, outcome)] &&
                input == "" && !isLoading &&
                agentChange == AgentChange(hasAgentCallback, outcome)
    {
      request := BeginSend(messageText, userId);
      if request.None? {
        return None, None;
      }
      agentChange := FinishSend(replyId, outcome);
    }

    /** `handleKeyPress`: Enter without Shift sends the text box; every other
      key, Shift+Enter included, changes nothing. */
    method HandleKeyPress(key: string, shiftKey: bool, userId: string, replyId: string, outcome: ChatOutcome)
      returns (request: Option<ChatRequest>, agentChange: Option<string>)
      requires Valid()
      modifies this
      ensures Valid()
      ensures !(key == "Enter" && !shiftKey) ==>
                request.None? && agentChange.None? &&
                messages == old(messages) && input == old(input) && isLoading == old(isLoading)
      ensures key == "Enter" && !shiftKey ==>
                (request.Some? <==> !IsBlank(old(input)) && !old(isLoading))
      ensures request.None? ==>
                agentChange.None? &&
                messages == old(messages) && input == old(input) && isLoading == old(isLoading)
      ensures request.Some? ==>
                request.value == ChatRequest(old(input), HistoryOf(old(messages))) &&
                messages == old(messages) + [Message(userId, User, old(input), None), ReplyFor(replyId, outcome)] &&
                input == "" && !isLoading && agentChange == AgentChange(hasAgentCallback, outcome)
    {
      if key == "Enter" && !shiftKey {
        request, agentChange := SendMessage(None, userId, replyId, outcome);
      } else {
        request, agentChange := None, None;
      }
    }
  }

  /** After a send the next request's history is the previous history
      followed by the question and its answer. */
  lemma NextHistory(before: seq<Message>, question: Message, answer: Message)
    ensures HistoryOf(before + [question, answer]) ==
            HistoryOf(before) + [ChatRoute.Turn(RoleName(question.role), question.content),
                                 ChatRoute.Turn(RoleName(answer.role), answer.content)]
  {
    HistoryAppend(before, [question, answer]);
  }

  /** The suggestion buttons under an empty conversation. */
  datatype ExampleQuestion = ExampleQuestion(emoji: string, text: string, category: string)

  const RenewalQuestion: string := "외국인등록증 갱신하려면요?"
  const MovingQuestion: string := "이사했는데 뭐 해야 해요?"
  const YearEndQuestion: string := "연말정산이 뭐예요?"
  const PremiumQuestion: string := "건강보험료 납부 방법은?"

  const ExampleQuestions: seq<ExampleQuestion> := [
    ExampleQuestion("🛂", RenewalQuestion, "visa"),
    ExampleQuestion("🏠", MovingQuestion, "housing"),
    ExampleQuestion("💰", YearEndQuestion, "tax"),
    ExampleQuestion("🏥", PremiumQuestion, "healthcare")
  ]
}
