/**
  The conversation vocabulary shared by the graph (graph.py) and the turn
  handler (main.py): chat messages, the graph state, what a node returns,
  the calls made on the memory store, and a streamed run of the graph.
 */
module Messages {
  import opened Options

  /** The three LangChain message kinds the core creates or inspects. */
  datatype Message =
    | SystemMessage(content: string)
    | HumanMessage(content: string)
    | AIMessage(content: string)

  /** The graph state: the message list and the optional `user_id` entry
      (`None` when the key is absent from the state dict). */
  datatype State = State(messages: seq<Message>, userId: Option<string>)

  /** The user id a node falls back to when the state carries none. */
  const DefaultUserId := "default_user"

  /** `state.get("user_id", "default_user")`. */
  function UserIdOf(s: State): (id: string)
    ensures s.userId.None? ==> id == DefaultUserId
    ensures s.userId.Some? ==> id == s.userId.value
  {
    if s.userId.Some? then s.userId.value else DefaultUserId
  }

  /** A call made on the memory store, recorded in the order it is made. */
  datatype MemoryCall =
    | Search(query: string, userId: string, limit: int)
    | Add(text: string, userId: string)

  /** A node's returned update (its `messages` and `user_id`), together with
      the memory-store calls the node made while computing it. */
  datatype NodeOutput = NodeOutput(messages: seq<Message>, userId: string, calls: seq<MemoryCall>)

  /** How a stream of graph events ends: normally, or by raising. */
  datatype StreamEnd = Completed | Raised

  /** A `stream(..., stream_mode="values")` run as its consumer sees it:
      the `messages` list of each event in order, then how the run ended. */
  datatype Stream = Stream(events: seq<seq<Message>>, end: StreamEnd)
}
