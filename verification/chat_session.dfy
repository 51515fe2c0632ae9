/**
 The chat widget's conversation state: the list of messages shown and whether a
 reply is awaited. Sending, receiving the endpoint's answer and clearing are pure
 transitions; the network round trip is replaced by its outcome, given as input.
 */
module ChatSession {
  import opened Text
  import ChatRoute

  datatype Role = User | Assistant

  /** A message as shown: who wrote it and what it says (ids and timestamps are not modelled). */
  datatype Message = Message(role: Role, content: string)

  datatype ChatState = ChatState(messages: seq<Message>, isLoading: bool)

  const Greeting: string :=
    "Hello! I'm your TekMakon AI Guide. I can help you understand our services, guide you through products like OpSuite, or teach you about IoT concepts."
  const ClearedGreeting: string := "Chat cleared. How can I help you now?"
  const ConnectionTrouble: string := "I'm having trouble connecting to the server. Please try again later."

  /** The state the widget starts in. */
  const Initial: ChatState := ChatState([Message(Assistant, Greeting)], false)

  /** How the request for a reply ended: the endpoint answered with `content`, it
      answered with a non-success status, or the request or its decoding threw. */
  datatype Fetched = Answered(content: string) | NotOk | Thrown

  /** `clearMessages`: whatever came before, one assistant message and nothing loading. */
  function Clear(s: ChatState): (r: ChatState)
    ensures |r.messages| == 1 && r.messages[0] == Message(Assistant, ClearedGreeting)
    ensures !r.isLoading
  {
    ChatState([Message(Assistant, ClearedGreeting)], false)
  }

  /** The first, synchronous half of `sendMessage`: input that trims to nothing is
      ignored; anything else is appended, untrimmed, as the user's message, and a
      reply is awaited. */
  function Send(s: ChatState, content: string): (r: ChatState)
    ensures IsBlank(content) ==> r == s
    ensures !IsBlank(content) ==> r.isLoading
    ensures !IsBlank(content) ==> r.messages == s.messages + [Message(User, content)]
  {
    if Trim(content) == "" then s
    else ChatState(s.messages + [Message(User, content)], true)
  }

  /** The text of the assistant message a request outcome produces. */
  function ReplyContent(f: Fetched): (r: string)
    ensures f.Answered? ==> r == f.content
    ensures !f.Answered? ==> r == ConnectionTrouble
  {
    match f
    case Answered(content) => content
    case NotOk => ConnectionTrouble
    case Thrown => ConnectionTrouble
  }

  /** The second half of `sendMessage`, once the request has ended: one assistant
      message is appended to whatever the state is by then, and loading stops. */
  function Receive(s: ChatState, f: Fetched): (r: ChatState)
    ensures |r.messages| == |s.messages| + 1 && r.messages[..|s.messages|] == s.messages
    ensures r.messages[|s.messages|].role == Assistant
    ensures f.Answered? ==> r.messages[|s.messages|].content == f.content
    ensures !f.Answered? ==> r.messages[|s.messages|].content == ConnectionTrouble
    ensures !r.isLoading
  {
    ChatState(s.messages + [Message(Assistant, ReplyContent(f))], false)
  }

  /** What can happen to the conversation: a send, the end of a request, a clear. */
  datatype Event = Sent(content: string) | Received(outcome: Fetched) | Cleared

  /** One event. */
  function Step(s: ChatState, e: Event): ChatState {
    match e
    case Sent(content) => Send(s, content)
    case Received(f) => Receive(s, f)
    case Cleared => Clear(s)
  }

  /** The events in order, from `s`. */
  function Run(s: ChatState, events: seq<Event>): ChatState
    decreases |events|
  {
    if |events| == 0 then s else Run(Step(s, events[0]), events[1..])
  }

  /** What every reachable state satisfies: the conversation opens with an assistant
      message, and no user message is blank. */
  predicate Coherent(s: ChatState) {
    && |s.messages| >= 1
    && s.messages[0].role == Assistant
    && forall i :: 0 <= i < |s.messages| && s.messages[i].role == User ==> !IsBlank(s.messages[i].content)
  }

  /** The initial state is coherent. */
  lemma InitialCoherent()
    ensures Coherent(Initial)
  {
  }

  /** Every event keeps the state coherent. */
  lemma StepKeepsCoherent(s: ChatState, e: Event)
    requires Coherent(s)
    ensures Coherent(Step(s, e))
  {
    var r := Step(s, e);
    if e.Sent? || e.Received? {
      assert r.messages[..|s.messages|] == s.messages;
      forall i | 0 <= i < |s.messages|
        ensures r.messages[i] == s.messages[i]
      {
        assert r.messages[..|s.messages|][i] == r.messages[i];
      }
    }
  }

  /** Any run of events keeps the state coherent. */
  lemma {:induction false} RunKeepsCoherent(s: ChatState, events: seq<Event>)
    requires Coherent(s)
    ensures Coherent(Run(s, events))
    decreases |events|
  {
    if |events| > 0 {
      StepKeepsCoherent(s, events[0]);
      RunKeepsCoherent(Step(s, events[0]), events[1..]);
    }
  }

  /** Every state reachable from the initial one is coherent. */
  lemma ReachableCoherent(events: seq<Event>)
    ensures Coherent(Run(Initial, events))
  {
    InitialCoherent();
    RunKeepsCoherent(Initial, events);
  }

  /** The number of messages a run of events without a clear appends: one per
      non-blank send and one per ended request. */
  function Appended(events: seq<Event>): nat
    decreases |events|
  {
    if |events| == 0 then 0
    else (if events[0].Sent? && IsBlank(events[0].content) then 0 else 1) + Appended(events[1..])
  }

  /** `e` does not clear the conversation. */
  predicate NotCleared(e: Event) {
    !e.Cleared?
  }

  /** Outside of a clear, messages are only appended: the earlier list stays a
      prefix, one message is added per non-blank send and per ended request. */
  lemma {:induction false} RunWithoutClearAppends(s: ChatState, events: seq<Event>)
    requires forall k :: 0 <= k < |events| ==> NotCleared(events[k])
    ensures s.messages <= Run(s, events).messages
    ensures |Run(s, events).messages| == |s.messages| + Appended(events)
    decreases |events|
  {
    if |events| > 0 {
      var t := Step(s, events[0]);
      assert s.messages <= t.messages;
      RunWithoutClearAppends(t, events[1..]);
    }
  }

  /** A clear forgets everything before it: the run from any state ends where the
      run after the last clear ends. */
  lemma {:induction false} ClearForgetsHistory(s: ChatState, before: seq<Event>, after: seq<Event>)
    ensures Run(s, before + [Cleared] + after) == Run(Clear(s), after)
    decreases |before|
  {
    if |before| == 0 {
      assert before + [Cleared] + after == [Cleared] + after;
      assert ([Cleared] + after)[1..] == after;
    } else {
      assert (before + [Cleared] + after)[0] == before[0];
      assert (before + [Cleared] + after)[1..] == before[1..] + [Cleared] + after;
      ClearForgetsHistory(Step(s, before[0]), before[1..], after);
    }
  }

  /** A request that ends after a clear still adds its reply, below the cleared greeting. */
  lemma ReplyAfterClearIsKept(s: ChatState, f: Fetched)
    ensures Receive(Clear(s), f).messages == [Message(Assistant, ClearedGreeting), Message(Assistant, ReplyContent(f))]
  {
  }

  /** `response.ok`: a status in the 2xx range. */
  predicate IsOk(status: nat) {
    200 <= status < 300
  }

  /** How the widget reads the chat endpoint's response: the `content` of a
      successful reply, otherwise a failed request. */
  function OutcomeOf(response: ChatRoute.Response): (f: Fetched)
    ensures f.Answered? <==> IsOk(response.status) && response.body.ReplyBody?
    ensures f.Answered? ==> f.content == response.body.content
  {
    if IsOk(response.status) && response.body.ReplyBody? then Answered(response.body.content) else NotOk
  }

  /** The widget reads a reply from the chat endpoint to any string message. */
  lemma EndpointAnswers(content: string)
    ensures OutcomeOf(ChatRoute.Post(ChatRoute.Parsed(ChatRoute.Str(content)))) == Answered(ChatRoute.Reply(content))
  {
    var response := ChatRoute.Post(ChatRoute.Parsed(ChatRoute.Str(content)));
    assert response.status == 200 && response.body.content == ChatRoute.Reply(content);
  }

  /** A turn whose request is answered: the user's message, then the answer. */
  lemma AnsweredTurn(s: ChatState, content: string, answer: string)
    requires !IsBlank(content)
    ensures Receive(Send(s, content), Answered(answer))
      == ChatState(s.messages + [Message(User, content), Message(Assistant, answer)], false)
  {
    assert s.messages + [Message(User, content)] + [Message(Assistant, answer)]
      == s.messages + [Message(User, content), Message(Assistant, answer)];
  }

  /** A whole turn against the chat endpoint: a non-blank message is shown, then the
      endpoint's knowledge-base reply to it, and loading is over. */
  lemma ConversationTurn(s: ChatState, content: string)
    requires !IsBlank(content)
    ensures Receive(Send(s, content), OutcomeOf(ChatRoute.Post(ChatRoute.Parsed(ChatRoute.Str(content))))).messages
      == s.messages + [Message(User, content), Message(Assistant, ChatRoute.Reply(content))]
    ensures !Receive(Send(s, content), OutcomeOf(ChatRoute.Post(ChatRoute.Parsed(ChatRoute.Str(content))))).isLoading
  {
    EndpointAnswers(content);
    AnsweredTurn(s, content, ChatRoute.Reply(content));
  }
}
