/**
  The rest of graph.py: the `chatbot` node, the wiring of the three nodes
  into a `StateGraph` (a builder whose node and edge lists grow in place),
  and one run of the compiled graph as `stream(..., stream_mode="values")`
  delivers it: the input state first, then the state after each node, each
  node's returned messages appended by the `add_messages` reducer.
 */
module Graph {
  import opened Options
  import opened PyValues
  import opened Messages
  import opened MemoryNodes

  /** What the chat model's `invoke` produced: a reply, or an exception. */
  datatype LlmOutcome = Answered(content: string) | LlmFailed

  /** The external services the nodes call: the memory client, the chat
      model, and Python's `str()` for records that are not strings. */
  datatype Services = Services(memory: MemoryClient, llm: seq<Message> -> LlmOutcome, pyStr: PyValue -> string)

  /** The fixed persona prompt; its wording is not reproduced here. */
  const SystemPrompt := "You are a compassionate and supportive virtual therapist."

  /** A node either returns an update or raises. */
  datatype Step = Ran(out: NodeOutput) | NodeRaised

  /** What `chatbot` sends to the model: the persona prompt, then the state's
      messages in order. */
  function ChatRequest(s: State): (request: seq<Message>)
    ensures |request| == |s.messages| + 1
    ensures request[0] == SystemMessage(SystemPrompt) && request[1..] == s.messages
  {
    [SystemMessage(SystemPrompt)] + s.messages
  }

  /** `chatbot`: one model call; its reply is the node's only message. A
      failing call is not caught here. */
  function Chatbot(s: State, llm: seq<Message> -> LlmOutcome): Step
  {
    match llm(ChatRequest(s))
    case Answered(c) => Ran(NodeOutput([AIMessage(c)], UserIdOf(s), []))
    case LlmFailed => NodeRaised
  }

  /** The node returns exactly one message, the model's reply, and makes no
      memory call; it raises exactly when the model call does. */
  lemma ChatbotContract(s: State, llm: seq<Message> -> LlmOutcome)
    ensures Chatbot(s, llm).Ran? <==> llm(ChatRequest(s)).Answered?
    ensures Chatbot(s, llm).Ran? ==>
      Chatbot(s, llm).out == NodeOutput([AIMessage(llm(ChatRequest(s)).content)], UserIdOf(s), [])
  {
  }

  // ---------------------------------------------------------------------
  // Wiring
  // ---------------------------------------------------------------------

  /** LangGraph's names for the entry and exit points. */
  const Start := "__start__"
  const End := "__end__"

  const RetrieveNode := "retrieve_memories"
  const ChatbotNode := "chatbot"
  const StoreNode := "store_memories"

  /** A graph under construction: its nodes and edges in the order added. */
  class StateGraph {
    var nodes: seq<string>
    var edges: seq<(string, string)>

    constructor ()
      ensures nodes == [] && edges == []
    {
      nodes := [];
      edges := [];
    }

    /** `add_node(name, fn)`. */
    method AddNode(name: string)
      modifies this
      ensures nodes == old(nodes) + [name] && edges == old(edges)
    {
      nodes := nodes + [name];
    }

    /** `add_edge(source, target)`. */
    method AddEdge(source: string, target: string)
      modifies this
      ensures edges == old(edges) + [(source, target)] && nodes == old(nodes)
    {
      edges := edges + [(source, target)];
    }
  }

  /** The target of the first edge leaving `n`, if any. */
  function Successor(edges: seq<(string, string)>, n: string): (r: Option<string>)
    ensures r.Some? ==> (n, r.value) in edges
    ensures r.None? ==> forall i :: 0 <= i < |edges| ==> edges[i].0 != n
  {
    if edges == [] then None
    else if edges[0].0 == n then Some(edges[0].1)
    else Successor(edges[1..], n)
  }

  /** The nodes run after `from`, following edges until `End`, at most
      `fuel` of them. */
  function Route(edges: seq<(string, string)>, from: string, fuel: nat): (route: seq<string>)
    ensures |route| <= fuel
    ensures End !in route
    decreases fuel
  {
    if fuel == 0 then []
    else
      match Successor(edges, from)
      case None => []
      case Some(next) => if next == End then [] else [next] + Route(edges, next, fuel - 1)
  }

  /** The order in which the pipeline runs its nodes. */
  const TherapyRoute := [RetrieveNode, ChatbotNode, StoreNode]

  /** Appending items one at a time to an empty list leaves them in order. */
  lemma ThreeAppended<T>(a: T, b: T, c: T)
    ensures [] + [a] + [b] + [c] == [a, b, c]
  {
    assert ([] + [a] + [b] + [c])[2] == c;
  }

  lemma FourAppended<T>(a: T, b: T, c: T, d: T)
    ensures [] + [a] + [b] + [c] + [d] == [a, b, c, d]
  {
    ThreeAppended(a, b, c);
  }

  /** The edges of the therapy graph, in the order they are added. */
  const TherapyEdges := [(Start, RetrieveNode), (RetrieveNode, ChatbotNode), (ChatbotNode, StoreNode), (StoreNode, End)]

  /** Each node of the chain leads to the next one, and storage to the end. */
  lemma TherapyEdgesSuccessors()
    ensures Successor(TherapyEdges, Start) == Some(RetrieveNode)
    ensures Successor(TherapyEdges, RetrieveNode) == Some(ChatbotNode)
    ensures Successor(TherapyEdges, ChatbotNode) == Some(StoreNode)
    ensures Successor(TherapyEdges, StoreNode) == Some(End)
  {
    var e := TherapyEdges;
    assert Start[0] != RetrieveNode[0] && Start[0] != ChatbotNode[0] && Start[0] != StoreNode[0];
    assert RetrieveNode[0] != ChatbotNode[0] && RetrieveNode[0] != StoreNode[0] && ChatbotNode[0] != StoreNode[0];
    assert e[1..] == [(RetrieveNode, ChatbotNode), (ChatbotNode, StoreNode), (StoreNode, End)];
    assert e[1..][1..] == [(ChatbotNode, StoreNode), (StoreNode, End)];
    assert e[1..][1..][1..] == [(StoreNode, End)];
    assert Successor(e[1..][1..], ChatbotNode) == Some(StoreNode);
    assert Successor(e[1..], ChatbotNode) == Some(StoreNode);
    assert Successor(e[1..][1..][1..], StoreNode) == Some(End);
    assert Successor(e[1..][1..], StoreNode) == Some(End);
    assert Successor(e[1..], StoreNode) == Some(End);
  }

  /** Following the edges from the start visits the three nodes in order. */
  lemma TherapyEdgesRoute()
    ensures Route(TherapyEdges, Start, |TherapyRoute|) == TherapyRoute
  {
    var e := TherapyEdges;
    TherapyEdgesSuccessors();
    assert Route(e, StoreNode, 0) == [];
    assert Route(e, ChatbotNode, 1) == [StoreNode];
    assert Route(e, RetrieveNode, 2) == [ChatbotNode, StoreNode];
  }

  /** Lines 207-216 of graph.py: three nodes and a straight chain of edges
      from the start through retrieval, the chatbot and storage to the end. */
  method BuildTherapyGraph() returns (g: StateGraph)
    ensures fresh(g)
    ensures g.nodes == TherapyRoute
    ensures Route(g.edges, Start, |g.nodes|) == TherapyRoute
    ensures Successor(g.edges, StoreNode) == Some(End)
  {
    g := new StateGraph();
    g.AddNode(RetrieveNode);
    g.AddNode(ChatbotNode);
    g.AddNode(StoreNode);
    g.AddEdge(Start, RetrieveNode);
    g.AddEdge(RetrieveNode, ChatbotNode);
    g.AddEdge(ChatbotNode, StoreNode);
    g.AddEdge(StoreNode, End);
    ThreeAppended(RetrieveNode, ChatbotNode, StoreNode);
    FourAppended((Start, RetrieveNode), (RetrieveNode, ChatbotNode), (ChatbotNode, StoreNode), (StoreNode, End));
    TherapyEdgesSuccessors();
    TherapyEdgesRoute();
  }

  // ---------------------------------------------------------------------
  // Running the compiled graph
  // ---------------------------------------------------------------------

  /** The node registered under `name`, run on `s`; a name no node was
      registered under cannot be compiled, and counts as raising. */
  function RunNode(name: string, s: State, sv: Services): Step
  {
    if name == RetrieveNode then Ran(Retrieve(s, sv.memory, sv.pyStr))
    else if name == ChatbotNode then Chatbot(s, sv.llm)
    else if name == StoreNode then Ran(Store(s, sv.memory))
    else NodeRaised
  }

  /** Applying a node's update: `add_messages` appends the returned messages,
      and the returned `user_id` replaces the old one. */
  function Merge(s: State, out: NodeOutput): State
  {
    State(s.messages + out.messages, Some(out.userId))
  }

  /** A run: the states seen after each node, how it ended, the last state
      reached and the memory calls made, in order. */
  datatype Run = Run(events: seq<seq<Message>>, end: StreamEnd, final: State, calls: seq<MemoryCall>)

  /** Runs the nodes of `route` one after another from `s`, stopping at the
      first that raises. */
  function RunRoute(route: seq<string>, s: State, sv: Services): (r: Run)
    ensures |r.events| <= |route|
    ensures r.end == Completed ==> |r.events| == |route|
  {
    if route == [] then Run([], Completed, s, [])
    else
      match RunNode(route[0], s, sv)
      case NodeRaised => Run([], Raised, s, [])
      case Ran(out) =>
        var s' := Merge(s, out);
        var rest := RunRoute(route[1..], s', sv);
        Run([s'.messages] + rest.events, rest.end, rest.final, out.calls + rest.calls)
  }

  /** `app.stream(input, stream_mode="values")` over `route`: the input
      state is the first event. */
  function StreamGraph(route: seq<string>, input: State, sv: Services): Run
  {
    var r := RunRoute(route, input, sv);
    Run([input.messages] + r.events, r.end, r.final, r.calls)
  }

  /** The stream as its consumer sees it. */
  function AsStream(r: Run): Stream
  {
    Stream(r.events, r.end)
  }

  /** The request the model receives in a run of the pipeline: the persona
      prompt, the whole input history, and then the context message from
      retrieval, if any, after the latest human message. */
  lemma ModelSeesContextLast(input: State, sv: Services)
    ensures var ctx := Retrieve(input, sv.memory, sv.pyStr);
      ChatRequest(Merge(input, ctx)) == [SystemMessage(SystemPrompt)] + input.messages + ctx.messages
  {
  }

  /** A run of the pipeline whose model call answers `c`: four events, the
      last state is the input, the retrieved context and the reply, the
      reply is the last message of the last event, and the memory calls are
      the search of retrieval followed by the add of storage. */
  lemma RunAnswered(input: State, sv: Services, c: string)
    requires var ctx := Retrieve(input, sv.memory, sv.pyStr);
      sv.llm(ChatRequest(Merge(input, ctx))) == Answered(c)
    ensures var ctx := Retrieve(input, sv.memory, sv.pyStr);
      var r := StreamGraph(TherapyRoute, input, sv);
      var reply := input.messages + ctx.messages + [AIMessage(c)];
      && r.end == Completed
      && r.events == [input.messages, input.messages + ctx.messages, reply, reply]
      && r.final == State(reply, Some(UserIdOf(input)))
      && r.calls == ctx.calls + Store(State(reply, Some(UserIdOf(input))), sv.memory).calls
  {
    var ctx := Retrieve(input, sv.memory, sv.pyStr);
    var s1 := Merge(input, ctx);
    var s2 := Merge(s1, NodeOutput([AIMessage(c)], UserIdOf(s1), []));
    var st := Store(s2, sv.memory);
    var s3 := Merge(s2, st);
    assert UserIdOf(s1) == UserIdOf(input);
    assert st.messages == [] && st.userId == UserIdOf(input);
    assert s3 == s2;
    var r3 := RunRoute([], s3, sv);
    assert r3 == Run([], Completed, s3, []);
    var r2 := RunRoute([StoreNode], s2, sv);
    assert [StoreNode][1..] == [];
    assert r2 == Run([s3.messages], Completed, s3, st.calls + []);
    var r1 := RunRoute([ChatbotNode, StoreNode], s1, sv);
    assert [ChatbotNode, StoreNode][1..] == [StoreNode];
    assert r1 == Run([s2.messages] + r2.events, Completed, s3, [] + r2.calls);
    var r0 := RunRoute(TherapyRoute, input, sv);
    assert TherapyRoute[1..] == [ChatbotNode, StoreNode];
    assert r0 == Run([s1.messages] + r1.events, Completed, s3, ctx.calls + r1.calls);
  }

  /** A run of the pipeline whose model call raises: the input and the state
      after retrieval are streamed, then the run raises; nothing is stored. */
  lemma RunModelFails(input: State, sv: Services)
    requires var ctx := Retrieve(input, sv.memory, sv.pyStr);
      sv.llm(ChatRequest(Merge(input, ctx))) == LlmFailed
    ensures var ctx := Retrieve(input, sv.memory, sv.pyStr);
      var r := StreamGraph(TherapyRoute, input, sv);
      && r.end == Raised
      && r.events == [input.messages, input.messages + ctx.messages]
      && r.calls == ctx.calls
  {
    var ctx := Retrieve(input, sv.memory, sv.pyStr);
    var s1 := Merge(input, ctx);
    var r1 := RunRoute([ChatbotNode, StoreNode], s1, sv);
    assert r1 == Run([], Raised, s1, []);
    var r0 := RunRoute(TherapyRoute, input, sv);
    assert TherapyRoute[1..] == [ChatbotNode, StoreNode];
    assert r0 == Run([s1.messages], Raised, s1, ctx.calls + []);
  }

  /** With a memory client configured, a run that answers `c` ends by adding
      a transcript whose last line is the reply. */
  lemma RunStoresReply(input: State, sv: Services, c: string)
    requires sv.memory.Mem0?
    requires var ctx := Retrieve(input, sv.memory, sv.pyStr);
      sv.llm(ChatRequest(Merge(input, ctx))) == Answered(c)
    ensures var r := StreamGraph(TherapyRoute, input, sv);
      var line := "Therapist: " + c + "\n";
      && r.calls != [] && r.calls[|r.calls| - 1].Add?
      && |line| <= |r.calls[|r.calls| - 1].text|
      && r.calls[|r.calls| - 1].text[|r.calls[|r.calls| - 1].text| - |line|..] == line
  {
    RunAnswered(input, sv, c);
    var ctx := Retrieve(input, sv.memory, sv.pyStr);
    StoreEndsWithReply(input.messages + ctx.messages, c, Some(UserIdOf(input)), sv.memory);
  }
}
