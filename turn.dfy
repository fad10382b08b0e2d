/**
  One conversational turn as main.py's `get_therapy_response` runs it: the
  OpenAI key goes into the environment, the user's message is appended to
  the caller's history, the compiled graph is streamed once with the
  session's thread id and, if that raises, once more without it; the reply
  is the content of the last message of the last non-empty event, and a
  truthy reply is appended to the history as an AI message.
 */
module TherapyTurn {
  import opened Options
  import opened PyValues
  import opened Messages
  import opened MemoryNodes
  import opened Graph
  import opened MainHelpers

  /** `{"configurable": {"thread_id": session_id}}`. */
  datatype Config = Config(threadId: string)

  /** The compiled graph as the turn handler uses it: `stream(state,
      config=..., stream_mode="values")`, with or without a config. */
  type App = (State, Option<Config>) -> Stream

  /** The reply when both attempts raise (main.py:176). */
  const RetryApology := "I apologize, but I'm having technical difficulties. Please check your OpenAI API key and try again."
  /** The reply when no truthy content came out of the stream (main.py:183). */
  const EmptyApology := "I apologize, but I'm having technical difficulties. Please check your API key and try again."
  /** The reply when anything outside the two attempts raises (main.py:186). */
  const ErrorApology := "I'm experiencing some technical issues. Please check your API keys and try again later."

  /** The value `therapist_response` holds after a stream's events have been
      consumed, starting from `prev`: each event whose message list is
      non-empty overwrites it with the content of that list's last message. */
  function LatestReply(events: seq<seq<Message>>, prev: Option<string>): Option<string>
  {
    if events == [] then prev
    else
      var e := events[|events| - 1];
      if e != [] then Some(e[|e| - 1].content) else LatestReply(events[..|events| - 1], prev)
  }

  /** Event `i` is the last event with a non-empty message list. */
  ghost predicate IsLastNonEmpty(events: seq<seq<Message>>, i: int)
  {
    0 <= i < |events| && events[i] != [] && forall j :: i < j < |events| ==> events[j] == []
  }

  /** The reply is the last message of the last non-empty event. */
  lemma {:induction false} LatestReplyOfLastNonEmpty(events: seq<seq<Message>>, prev: Option<string>, i: int)
    requires IsLastNonEmpty(events, i)
    ensures LatestReply(events, prev) == Some(events[i][|events[i]| - 1].content)
    decreases |events|
  {
    if i < |events| - 1 {
      var init := events[..|events| - 1];
      assert IsLastNonEmpty(init, i);
      LatestReplyOfLastNonEmpty(init, prev, i);
    }
  }

  /** A stream whose events are all empty leaves the previous value alone. */
  lemma {:induction false} LatestReplyAllEmpty(events: seq<seq<Message>>, prev: Option<string>)
    requires forall i :: 0 <= i < |events| ==> events[i] == []
    ensures LatestReply(events, prev) == prev
    decreases |events|
  {
    if events != [] {
      LatestReplyAllEmpty(events[..|events| - 1], prev);
    }
  }

  /** Consuming two streams one after the other into the same variable is
      consuming their concatenation. */
  lemma {:induction false} LatestReplyConcat(a: seq<seq<Message>>, b: seq<seq<Message>>, prev: Option<string>)
    ensures LatestReply(a + b, prev) == LatestReply(b, LatestReply(a, prev))
    decreases |b|
  {
    if b == [] {
      assert a + b == a;
    } else {
      assert (a + b)[..|a + b| - 1] == a + b[..|b| - 1];
      LatestReplyConcat(a, b[..|b| - 1], prev);
    }
  }

  /** The `for event in ...` loop of main.py:162-166 (and 170-174). */
  method Drain(events: seq<seq<Message>>, prev: Option<string>) returns (response: Option<string>)
    ensures response == LatestReply(events, prev)
  {
    response := prev;
    var i := 0;
    assert events[..0] == [];
    while i < |events|
      invariant 0 <= i <= |events|
      invariant response == LatestReply(events[..i], prev)
    {
      var e := events[i];
      assert events[..i + 1][..i] == events[..i];
      if e != [] {
        response := Some(e[|e| - 1].content);
      }
      i := i + 1;
    }
    assert events[..i] == events;
  }

  /** What a turn returns, and the caller's history afterwards. */
  datatype TurnResult = TurnResult(reply: string, success: bool, history: seq<Message>)

  /** The value `therapist_response` holds when the two attempts are over. */
  function Attempts(state: State, sessionId: string, app: App): Option<string>
  {
    var first := app(state, Some(Config(sessionId)));
    var r1 := LatestReply(first.events, None);
    if first.end == Completed then r1
    else
      var second := app(state, None);
      if second.end == Completed then LatestReply(second.events, r1) else Some(RetryApology)
  }

  /** `get_therapy_response`, as a function of the history it is given. */
  function Turn(history: seq<Message>, userMessage: string, userId: string, sessionId: string,
                apiKey: Option<string>, app: App): TurnResult
  {
    if IsTruthyText(apiKey) && EnvWriteRaises(apiKey.value) then
      TurnResult(ErrorApology, false, history)
    else
      var h := history + [HumanMessage(userMessage)];
      var response := Attempts(State(h, Some(userId)), sessionId, app);
      if IsTruthyText(response) then TurnResult(response.value, true, h + [AIMessage(response.value)])
      else TurnResult(EmptyApology, false, h)
  }

  /** The caller's `conversation_history` list, which the turn appends to. */
  class ConversationHistory {
    var messages: seq<Message>

    constructor (initial: seq<Message>)
      ensures messages == initial
    {
      messages := initial;
    }

    /** `conversation_history.append(m)`. */
    method Append(m: Message)
      modifies this
      ensures messages == old(messages) + [m]
    {
      messages := messages + [m];
    }
  }

  /** main.py:140-186: appends to `history` in place and returns the reply
      and the success flag. */
  method GetTherapyResponse(userMessage: string, history: ConversationHistory, userId: string,
                            sessionId: string, apiKey: Option<string>, app: App)
    returns (reply: string, success: bool)
    modifies history
    ensures Turn(old(history.messages), userMessage, userId, sessionId, apiKey, app)
         == TurnResult(reply, success, history.messages)
  {
    if IsTruthyText(apiKey) && EnvWriteRaises(apiKey.value) {
      return ErrorApology, false;
    }
    history.Append(HumanMessage(userMessage));
    var state := State(history.messages, Some(userId));
    var therapistResponse: Option<string> := None;
    var first := app(state, Some(Config(sessionId)));
    therapistResponse := Drain(first.events, therapistResponse);
    if first.end == Raised {
      var second := app(state, None);
      therapistResponse := Drain(second.events, therapistResponse);
      if second.end == Raised {
        therapistResponse := Some(RetryApology);
      }
    }
    if IsTruthyText(therapistResponse) {
      history.Append(AIMessage(therapistResponse.value));
      return therapistResponse.value, true;
    }
    return EmptyApology, false;
  }

  // ---------------------------------------------------------------------
  // Properties of a turn, for every app
  // ---------------------------------------------------------------------

  /** The outcomes a turn can have: success exactly when the history gains
      the user's message and then the reply; otherwise one of the two fixed
      apologies, and the user's message is kept unless the environment
      write raised first. */
  lemma TurnOutcome(history: seq<Message>, userMessage: string, userId: string, sessionId: string,
                    apiKey: Option<string>, app: App)
    ensures var r := Turn(history, userMessage, userId, sessionId, apiKey, app);
      && (r.success <==> r.history == history + [HumanMessage(userMessage), AIMessage(r.reply)])
      && (r.success ==> r.reply != "")
      && (!r.success ==>
            || (r.reply == ErrorApology && r.history == history)
            || (r.reply == EmptyApology && r.history == history + [HumanMessage(userMessage)]))
      && (r.history == history <==> IsTruthyText(apiKey) && EnvWriteRaises(apiKey.value))
  {
  }

  /** Once the key is set, the turn is decided by the value `response` the
      attempts leave: a truthy value is the reply, anything else gives the
      empty-reply apology. */
  lemma TurnOfResponse(history: seq<Message>, userMessage: string, userId: string, sessionId: string,
                       apiKey: Option<string>, app: App, response: Option<string>)
    requires !(IsTruthyText(apiKey) && EnvWriteRaises(apiKey.value))
    requires Attempts(State(history + [HumanMessage(userMessage)], Some(userId)), sessionId, app) == response
    ensures var h := history + [HumanMessage(userMessage)];
      Turn(history, userMessage, userId, sessionId, apiKey, app)
        == if IsTruthyText(response) then TurnResult(response.value, true, h + [AIMessage(response.value)])
           else TurnResult(EmptyApology, false, h)
  {
  }

  /** When the first attempt ends normally no second attempt is made: the
      turn does not depend on what a config-less stream would do. */
  lemma FirstAttemptSuffices(history: seq<Message>, userMessage: string, userId: string, sessionId: string,
                             apiKey: Option<string>, app: App, other: App)
    requires var state := State(history + [HumanMessage(userMessage)], Some(userId));
      && app(state, Some(Config(sessionId))).end == Completed
      && other(state, Some(Config(sessionId))) == app(state, Some(Config(sessionId)))
    ensures Turn(history, userMessage, userId, sessionId, apiKey, app)
         == Turn(history, userMessage, userId, sessionId, apiKey, other)
  {
  }

  /** When both attempts raise, the retry apology is the reply; it is truthy,
      so it is appended as an AI message and the turn reports success. */
  lemma BothAttemptsRaise(history: seq<Message>, userMessage: string, userId: string, sessionId: string,
                          apiKey: Option<string>, app: App)
    requires !(IsTruthyText(apiKey) && EnvWriteRaises(apiKey.value))
    requires var state := State(history + [HumanMessage(userMessage)], Some(userId));
      app(state, Some(Config(sessionId))).end == Raised && app(state, None).end == Raised
    ensures Turn(history, userMessage, userId, sessionId, apiKey, app)
         == TurnResult(RetryApology, true, history + [HumanMessage(userMessage), AIMessage(RetryApology)])
  {
  }

  /** The two attempts share one variable: when the first raises after a
      non-empty event and the retry ends normally without one, the reply is
      what the failed first attempt left behind. */
  lemma LeftoverFromFirstAttempt(history: seq<Message>, userMessage: string, userId: string, sessionId: string,
                                 apiKey: Option<string>, app: App, i: int)
    requires !(IsTruthyText(apiKey) && EnvWriteRaises(apiKey.value))
    requires var state := State(history + [HumanMessage(userMessage)], Some(userId));
      var first := app(state, Some(Config(sessionId)));
      var second := app(state, None);
      && first.end == Raised && IsLastNonEmpty(first.events, i)
      && second.end == Completed && (forall j :: 0 <= j < |second.events| ==> second.events[j] == [])
    ensures var state := State(history + [HumanMessage(userMessage)], Some(userId));
      var first := app(state, Some(Config(sessionId)));
      var left := first.events[i][|first.events[i]| - 1].content;
      Turn(history, userMessage, userId, sessionId, apiKey, app).reply
        == (if left != "" then left else EmptyApology)
  {
    var state := State(history + [HumanMessage(userMessage)], Some(userId));
    var first := app(state, Some(Config(sessionId)));
    var second := app(state, None);
    LatestReplyOfLastNonEmpty(first.events, None, i);
    LatestReplyAllEmpty(second.events, LatestReply(first.events, None));
  }

  /** The reply after a retry that ends normally is read from both attempts'
      events as if they were one stream. */
  lemma RetryContinuesStream(history: seq<Message>, userMessage: string, userId: string, sessionId: string, app: App)
    requires var state := State(history + [HumanMessage(userMessage)], Some(userId));
      app(state, Some(Config(sessionId))).end == Raised && app(state, None).end == Completed
    ensures var state := State(history + [HumanMessage(userMessage)], Some(userId));
      Attempts(state, sessionId, app)
        == LatestReply(app(state, Some(Config(sessionId))).events + app(state, None).events, None)
  {
    var state := State(history + [HumanMessage(userMessage)], Some(userId));
    LatestReplyConcat(app(state, Some(Config(sessionId))).events, app(state, None).events, None);
  }

  // ---------------------------------------------------------------------
  // A turn over the therapy graph
  // ---------------------------------------------------------------------

  /** The compiled graph of graph.py:219-222 as an app. Compiled with a
      checkpointer, a stream without a thread id raises before yielding;
      a configured stream runs the pipeline on the given state. */
  function GraphApp(sv: Services, checkpointed: bool): App
  {
    (st: State, cfg: Option<Config>) =>
      if checkpointed && cfg.None? then Stream([], Raised)
      else AsStream(StreamGraph(TherapyRoute, st, sv))
  }

  /** The request the model receives during the turn. */
  function TurnRequest(history: seq<Message>, userMessage: string, userId: string, sv: Services): seq<Message>
  {
    var state := State(history + [HumanMessage(userMessage)], Some(userId));
    ChatRequest(Merge(state, Retrieve(state, sv.memory, sv.pyStr)))
  }

  /** A model that answers `c` ends the first attempt normally with `c` as
      the last message streamed. */
  lemma GraphAttemptsAnswered(history: seq<Message>, userMessage: string, userId: string, sessionId: string,
                              sv: Services, checkpointed: bool, c: string)
    requires sv.llm(TurnRequest(history, userMessage, userId, sv)) == Answered(c)
    ensures Attempts(State(history + [HumanMessage(userMessage)], Some(userId)), sessionId, GraphApp(sv, checkpointed))
         == Some(c)
  {
    var state := State(history + [HumanMessage(userMessage)], Some(userId));
    var app := GraphApp(sv, checkpointed);
    var run := StreamGraph(TherapyRoute, state, sv);
    RunAnswered(state, sv, c);
    assert app(state, Some(Config(sessionId))) == AsStream(run);
    var events := run.events;
    assert events[3][|events[3]| - 1] == AIMessage(c);
    assert IsLastNonEmpty(events, 3);
    LatestReplyOfLastNonEmpty(events, None, 3);
  }

  /** Appending the question and then the answer appends the exchange. */
  lemma ExchangeAppended(history: seq<Message>, question: Message, answer: Message)
    ensures history + [question] + [answer] == history + [question, answer]
  {
    assert (history + [question] + [answer])[|history|..] == [question, answer];
  }

  /** A model that answers with a non-empty reply: the reply is returned,
      the turn succeeds, and the history gains the message and the reply
      only (the memory context is not kept). */
  lemma GraphTurnAnswered(history: seq<Message>, userMessage: string, userId: string, sessionId: string,
                          apiKey: Option<string>, sv: Services, checkpointed: bool, c: string)
    requires !(IsTruthyText(apiKey) && EnvWriteRaises(apiKey.value))
    requires sv.llm(TurnRequest(history, userMessage, userId, sv)) == Answered(c)
    requires c != ""
    ensures Turn(history, userMessage, userId, sessionId, apiKey, GraphApp(sv, checkpointed))
         == TurnResult(c, true, history + [HumanMessage(userMessage), AIMessage(c)])
  {
    GraphAttemptsAnswered(history, userMessage, userId, sessionId, sv, checkpointed, c);
    TurnOfResponse(history, userMessage, userId, sessionId, apiKey, GraphApp(sv, checkpointed), Some(c));
    ExchangeAppended(history, HumanMessage(userMessage), AIMessage(c));
  }

  /** A model that answers with an empty reply: the turn fails with the
      empty-reply apology and only the user's message is kept. */
  lemma GraphTurnEmptyReply(history: seq<Message>, userMessage: string, userId: string, sessionId: string,
                            apiKey: Option<string>, sv: Services, checkpointed: bool)
    requires !(IsTruthyText(apiKey) && EnvWriteRaises(apiKey.value))
    requires sv.llm(TurnRequest(history, userMessage, userId, sv)) == Answered("")
    ensures Turn(history, userMessage, userId, sessionId, apiKey, GraphApp(sv, checkpointed))
         == TurnResult(EmptyApology, false, history + [HumanMessage(userMessage)])
  {
    var h := history + [HumanMessage(userMessage)];
    assert Attempts(State(h, Some(userId)), sessionId, GraphApp(sv, checkpointed)) == Some("") by {
      GraphAttemptsAnswered(history, userMessage, userId, sessionId, sv, checkpointed, "");
    }
    TurnOfResponse(history, userMessage, userId, sessionId, apiKey, GraphApp(sv, checkpointed), Some(""));
  }

  /** A model call that raises makes both attempts raise, with or without a
      checkpointer: the retry apology is returned as a successful reply. */
  lemma GraphTurnModelFails(history: seq<Message>, userMessage: string, userId: string, sessionId: string,
                            apiKey: Option<string>, sv: Services, checkpointed: bool)
    requires !(IsTruthyText(apiKey) && EnvWriteRaises(apiKey.value))
    requires sv.llm(TurnRequest(history, userMessage, userId, sv)) == LlmFailed
    ensures Turn(history, userMessage, userId, sessionId, apiKey, GraphApp(sv, checkpointed))
         == TurnResult(RetryApology, true, history + [HumanMessage(userMessage), AIMessage(RetryApology)])
  {
    var state := State(history + [HumanMessage(userMessage)], Some(userId));
    var app := GraphApp(sv, checkpointed);
    RunModelFails(state, sv);
    assert app(state, Some(Config(sessionId))) == AsStream(StreamGraph(TherapyRoute, state, sv));
    assert app(state, Some(Config(sessionId))).end == Raised;
    assert app(state, None).end == Raised;
    BothAttemptsRaise(history, userMessage, userId, sessionId, apiKey, GraphApp(sv, checkpointed));
  }

  /** A first turn for a new user with an empty memory store and a model
      that answers a fixed sentence. */
  lemma AnxiousFirstTurn(search: (string, string, int) -> SearchOutcome, pyStr: PyValue -> string,
                         llm: seq<Message> -> LlmOutcome, checkpointed: bool)
    requires forall q, u, n :: search(q, u, n) == Found(PyList([]))
    requires forall req :: llm(req) == Answered("I hear you \U{2014} let's talk through that anxiety.")
    ensures var sv := Services(Mem0(search), llm, pyStr);
      Turn([], "I feel anxious today", "alice_1a2b3c4d", "session_alice_1a2b3c4d_9f8e7d6c", None,
           GraphApp(sv, checkpointed))
      == TurnResult("I hear you \U{2014} let's talk through that anxiety.", true,
                    [HumanMessage("I feel anxious today"),
                     AIMessage("I hear you \U{2014} let's talk through that anxiety.")])
  {
    var sv := Services(Mem0(search), llm, pyStr);
    GraphTurnAnswered([], "I feel anxious today", "alice_1a2b3c4d", "session_alice_1a2b3c4d_9f8e7d6c", None,
                      sv, checkpointed, "I hear you \U{2014} let's talk through that anxiety.");
  }
}
