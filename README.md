# TherapistGPT conversation pipeline, modelled in Dafny

TherapistGPT answers a user's message with a chat-model reply that takes the
user's earlier sessions into account. This project models the core of that
backend and proves properties of the model:

- **The three-node LangGraph pipeline of `graph.py`.**
  - `retrieve_memories` searches the memory store (mem0) with the latest human
    message. It normalises whatever comes back into trimmed texts, and returns
    at most one context `SystemMessage`.
  - `chatbot` calls the chat model with the persona prompt put in front of the
    conversation.
  - `store_memories` writes the last four messages back to the memory store as
    a `User:`/`Therapist:` transcript.
  - The wiring is a straight chain from start to end. Each node's returned
    messages are appended to the state by the `add_messages` reducer.
- **One conversational turn, `get_therapy_response` in `main.py`.** It appends
  the user's message to the caller's history. It streams the graph with the
  session's thread id, and streams once more without it if that raises. It then
  picks the reply out of the streamed events, appends a truthy reply as an AI
  message, and reports success.
- **The small helpers of `main.py`.** `find_preferred_microphone`,
  `test_api_keys`, `create_user_profile` and `create_session_id`.

Everything outside the program is a parameter:
- the memory client's `search` (an outcome per query, user and limit);
- the chat model (an outcome per request);
- Python's `str()` of a record;
- the ElevenLabs client constructor;
- the compiled app's stream, in the turn handler;
- the random UUID behind each identifier.

The files and what each holds:
- `options.dfy`: an `Option` type.
- `text.dfy`: Python's `str.strip()` over the full `isspace` set, `"\n".join`,
  `split` (as the inverse of join) and the substring test.
- `py_values.dfy`: the dynamically typed values a search returns, with
  truthiness, `dict.get` and iteration.
- `messages.dfy`: messages, the graph state, node outputs and streams.
- `memory_nodes.dfy`: the two memory nodes. Each is specified by a function
  (`Retrieve`, `Store`) and implemented by a method with the source's loops
  (`RetrieveMemories`, `StoreMemories`), which is proved equal to that
  function.
- `graph.py` is modelled by `graph.dfy`:
  - `chatbot`;
  - the `StateGraph` builder as a class whose node and edge lists grow in
    place;
  - a run of the chain in `stream_mode="values"`: the input state first, then
    the state after each node.
- `main_helpers.dfy`: the `main.py` helpers.
- `turn.dfy`:
  - `Turn` specifies a turn for any app;
  - `GetTherapyResponse` mutates a `ConversationHistory` object in place and is
    proved against `Turn`;
  - `GraphApp` plugs the graph model in as the app.

### Behaviour of the code worth knowing

- **Both attempts raise.** The apology of `main.py:176` is a truthy string.
  It passes the check at line 178, is appended as an AI message, and is
  returned with `success=True` (`TherapyTurn.BothAttemptsRaise`,
  `TherapyTurn.GraphTurnModelFails`).
- **Where the memory context goes.** `retrieve_memories` returns the context
  message (graph.py:112-122), and `add_messages` appends it after the latest
  human message. The model therefore receives the persona prompt, the history,
  and then the context (graph.py:176, `Graph.ModelSeesContextLast`).
- **An empty reply.** An empty completion is not retried: the retry at
  `main.py:167-174` happens only when the first stream raises. A completed
  stream whose last message is empty returns the apology of `main.py:183`
  with `success=False` (`TherapyTurn.GraphTurnEmptyReply`).
- **The first streamed event.** In `stream_mode="values"` the first event is
  the input state, so `therapist_response` (main.py:162-166) holds the user's
  own message until a later event replaces it. When the first attempt raises
  and the retry yields nothing but ends normally, the value left by the failed
  attempt becomes the reply (`TherapyTurn.LeftoverFromFirstAttempt`).
- **Unreachable handler.** In `test_api_keys`, the `except` around
  `initialize_elevenlabs` (`main.py:134-135`) cannot fire, because that
  function catches every exception itself (main.py:11-16). An ElevenLabs
  failure is always reported as
  `"ElevenLabs key error: Failed to initialize ElevenLabs: "` followed by the
  exception text.

## Model

| member | source | states |
|---|---|---|
| Text.Strip | graph.py:108-109 | `strip()` returns a string with no whitespace at either end, and it is empty exactly when the input is all whitespace |
| Text.StripIsInfix | graph.py:108-109 | `strip()` removes whitespace only at the two ends: the result is the input between a blank prefix and a blank suffix |
| Text.StripIdempotent | graph.py:109 | stripping an already stripped text changes nothing |
| Text.SplitJoin | graph.py:112 | joining newline-free texts with `"\n"` and splitting on `"\n"` gives the texts back |
| Text.ContainsIffOccurs | main.py:104 | the substring test holds exactly when the pattern occurs at some position of the name |
| PyValues.Get | graph.py:97-100 | `d.get(k)` is the value stored under `k`, or `None` when the key is absent |
| PyValues.Iterate | graph.py:93 | a `for` loop walks a list's items, a string's characters or a dict's keys, and raises on a scalar |
| Messages.UserIdOf | graph.py:58 | the state's `user_id`, or `"default_user"` when it has none |
| MemoryNodes.LastHumanIndex | graph.py:61-65 | the position of the most recent human message: it is a human message and no later one is; `None` when there is none |
| MemoryNodes.QueryIsLatestHuman | graph.py:61-65 | the search query is the content of the most recent human message, whatever AI or system messages follow it |
| MemoryNodes.LatestHumanText | graph.py:61-65 | the backward scan with its early exit computes that query, or `""` when there is no human message |
| MemoryNodes.FirstTruthyIndex | graph.py:96-101 | the `or` chain stops at the first key whose value is truthy: that value is truthy, every earlier key's value is falsy, and the chain falls through to `str(mem)` exactly when every key's value is falsy |
| MemoryNodes.TextIsStringOrTruthy | graph.py:94-106 | a record's text is a string or a truthy value, so a text that is not a string always reaches `.strip()` |
| MemoryNodes.RecordTextPriority | graph.py:94-106 | a dict record's text is the value of the first truthy key among `memory`, `text`, `content`, `data` |
| MemoryNodes.ResultShapes | graph.py:74-88 | `results` wins over `memories`, which wins over `data`; a dict with none of them is one record; a list is used as is; a string or scalar gives no texts |
| MemoryNodes.NormaliseTrimmed | graph.py:108-109 | every gathered text is non-empty and has no whitespace at either end |
| MemoryNodes.NormaliseSnoc | graph.py:93-109 | one more record adds its own contribution after the texts gathered so far, or raises |
| MemoryNodes.NormaliseConcat | graph.py:93-109 | texts are gathered record by record in order: two runs of records give the first run's texts followed by the second's, and an exception in either loses both |
| MemoryNodes.NormaliseSingle | graph.py:103-109 | one record contributes exactly its stripped text, nothing when that text is blank, or an exception when it is a truthy non-string |
| MemoryNodes.NormaliseAbsorbs | graph.py:93-125 | once a run of records has raised, the whole loop raises |
| MemoryNodes.NormaliseAbsorbsAt | graph.py:93-125 | a single record that raises, wherever it sits, makes the whole loop raise |
| MemoryNodes.KeptNonString | graph.py:108-109 | a text that is not a string is never kept: `.strip()` on it raises |
| MemoryNodes.GatherRaises | graph.py:93-125 | the loop's early exit at a non-string text agrees with the specification: the whole gathering raises |
| MemoryNodes.GatherStep | graph.py:108-109 | one loop step appends the stripped text exactly when the text and its stripped form are non-empty |
| MemoryNodes.Normalise | graph.py:93-109 | the loop keeps at most one text per record |
| MemoryNodes.GatherTexts | graph.py:92-109 | the record loop computes the stripped non-blank texts in record order, or raises at the first text that cannot be stripped |
| MemoryNodes.RetrieveContract | graph.py:53-127 | the user id is the state's or the default; a search is made exactly when a client exists and the latest human message is non-empty, with that query and limit 5; at most one message, a `SystemMessage` |
| MemoryNodes.RetrieveMessage | graph.py:90-127 | the node returns one context message holding the texts joined by newlines exactly when the search succeeded and a text survived; a failed search or a raising read gives none |
| MemoryNodes.ContextRoundTrip | graph.py:111-115 | when no memory text contains a newline, the memories can be recovered from the joined context by splitting on newlines, each stripped and non-empty |
| MemoryNodes.RetrieveMemories | graph.py:53-127 | the node as the source runs it equals the specification `Retrieve` |
| MemoryNodes.Window | graph.py:188 | `messages[-4:]` has four messages, or all of them when there are fewer, and is a suffix of the list |
| MemoryNodes.RenderSnoc | graph.py:191-195 | one more message adds its own line after the transcript so far |
| MemoryNodes.RenderEmptyIff | graph.py:193-197 | the transcript is empty exactly when every message in the window is a system message |
| MemoryNodes.RenderLines | graph.py:191-195 | the transcript loop writes `User: c` or `Therapist: c` and a newline per human or AI message, in order |
| MemoryNodes.StoreContract | graph.py:180-204 | no messages are returned; the state's user id; one `add` of the window's transcript exactly when a client exists and the window holds a human or AI message |
| MemoryNodes.StoreEndsWithReply | graph.py:188-199 | after a reply, the stored transcript ends with `Therapist: ` and that reply |
| MemoryNodes.StoreMemories | graph.py:180-204 | the node as the source runs it equals the specification `Store` |
| Graph.ChatRequest | graph.py:176 | the model is sent the persona prompt followed by every state message in order |
| Graph.ChatbotContract | graph.py:176-178 | the node returns exactly one message, the model's reply, and raises exactly when the model call does |
| Graph.StateGraph.constructor | graph.py:207 | a new builder has no nodes and no edges |
| Graph.StateGraph.AddNode | graph.py:208-210 | adding a node appends it and leaves the edges alone |
| Graph.StateGraph.AddEdge | graph.py:213-216 | adding an edge appends it and leaves the nodes alone |
| Graph.Successor | graph.py:213-216 | the node an edge leads to from `n` is the target of an edge leaving `n`; there is none when no edge leaves `n` |
| Graph.Route | graph.py:213-216 | following edges from the start visits at most one node per step and never the end marker |
| Graph.TherapyEdgesSuccessors | graph.py:213-216 | in the wiring, the start leads to retrieval, retrieval to the chatbot, the chatbot to storage and storage to the end |
| Graph.TherapyEdgesRoute | graph.py:213-216 | following the wiring from the start visits retrieval, the chatbot and storage, in that order |
| Graph.BuildTherapyGraph | graph.py:207-216 | the built graph has the three nodes, and following its edges from the start visits retrieval, the chatbot and storage in that order, then the end |
| Graph.RunRoute | graph.py:50 | a run streams at most one state per node of the route, and exactly one per node when it completes |
| Graph.ModelSeesContextLast | graph.py:176 | in a run, the model receives the persona prompt, the whole history, and then the retrieved context message |
| Graph.RunAnswered | graph.py:207-216 | a run whose model answers streams four states ending with the reply; it searches and then adds, in that order |
| Graph.RunModelFails | graph.py:176-177 | a run whose model raises streams the input and the state after retrieval, then raises; nothing is stored |
| Graph.RunStoresReply | graph.py:197-199 | with a memory client, a successful run ends by adding a transcript whose last line is the reply |
| MainHelpers.FindPreferredMicrophone | main.py:102-106 | the least index whose name contains the preferred text, or `None` exactly when no name contains it |
| MainHelpers.InitializeElevenLabs | main.py:11-16 | success exactly when the client can be built; otherwise the message is `"Failed to initialize ElevenLabs: "` and the exception text |
| MainHelpers.TestApiKeys | main.py:114-138 | the errors are the OpenAI key's followed by the ElevenLabs key's, and the keys are valid exactly when there are none |
| MainHelpers.OpenAIKeyErrorsShape | main.py:118-125 | the OpenAI check reports at most one error, naming OpenAI; it is the "required" message exactly when the key is missing, and there is none exactly when the key is present and can be set |
| MainHelpers.ElevenLabsKeyErrorsShape | main.py:127-135 | the ElevenLabs check reports at most one error, naming ElevenLabs; it is the "required" message exactly when the key is missing, and there is none exactly when the key is present and the client can be built |
| MainHelpers.ApiKeyErrorsContract | main.py:114-138 | at most one error per key, OpenAI's first; a missing key is reported as required; valid exactly when both keys are present, the OpenAI key can be set and the client can be built |
| MainHelpers.LastIndexOf | main.py:188-205 | the position of the last occurrence of a character, or `None` exactly when it does not occur; it is the reader used to state the round trips of `create_user_profile` and `create_session_id` |
| MainHelpers.SplitLastUnderscoreAppend | main.py:189 | an identifier `head_tail` whose tail has no underscore splits back into `head` and `tail`, even when the name holds underscores |
| MainHelpers.CreateUserProfile | main.py:188-190 | the user id reads back as the stripped name and the UUID's first eight characters |
| MainHelpers.CreateSessionId | main.py:204-205 | the session id starts with `session_` and reads back as the user id and the UUID's first eight characters |
| MainHelpers.SessionIdsDistinct | main.py:204-205 | different users or different suffixes never share a session id |
| MainHelpers.SessionOfProfile | main.py:188-205 | a session id built from a new profile reads back to the stripped name |
| TherapyTurn.LatestReplyOfLastNonEmpty | main.py:162-166 | the reply is the content of the last message of the last event with a non-empty message list |
| TherapyTurn.LatestReplyAllEmpty | main.py:162-166 | events with empty message lists leave the reply as it was |
| TherapyTurn.LatestReplyConcat | main.py:159-174 | the two attempts share one variable: consuming both is consuming their events one after the other |
| TherapyTurn.Drain | main.py:162-166 | the event loop computes that reply |
| TherapyTurn.ConversationHistory.constructor | main.py:140 | the history holds the caller's messages |
| TherapyTurn.ConversationHistory.Append | main.py:147 | appending adds exactly one message at the end |
| TherapyTurn.GetTherapyResponse | main.py:140-186 | the turn as the source runs it, appending to the history in place, equals the specification `Turn` in reply, flag and new history |
| TherapyTurn.TurnOutcome | main.py:140-186 | success exactly when the history gains the user's message and then the reply; otherwise one of two fixed apologies; the user's message is kept unless the key cannot be set |
| TherapyTurn.TurnOfResponse | main.py:140-186 | once the key is set, the turn depends on the attempts only through their response: a truthy response is the reply with success, anything else the line-183 apology |
| TherapyTurn.FirstAttemptSuffices | main.py:160-167 | when the first attempt ends normally, no retry is made |
| TherapyTurn.BothAttemptsRaise | main.py:167-181 | when both attempts raise, the line-176 apology is appended and returned with success |
| TherapyTurn.LeftoverFromFirstAttempt | main.py:159-176 | a value left by a failed first attempt survives a retry that yields nothing |
| TherapyTurn.RetryContinuesStream | main.py:167-174 | after a retry that ends normally, the reply is read from both attempts' events as one stream |
| TherapyTurn.GraphAttemptsAnswered | main.py:160-166 | over the graph, the first attempt ends normally with the model's answer as the reply |
| TherapyTurn.GraphTurnAnswered | main.py:178-181 | over the graph, a non-empty answer is returned with success, and the history gains only the user's message and the reply |
| TherapyTurn.GraphTurnEmptyReply | main.py:182-183 | over the graph, an empty answer gives the line-183 apology without success, keeping the user's message |
| TherapyTurn.GraphTurnModelFails | main.py:167-181 | over the graph, a model that raises on every call gives the line-176 apology with success, with or without a checkpointer |
| TherapyTurn.AnxiousFirstTurn | main.py:140-183 | a first turn with an empty memory store and a fixed answer returns that answer with success, and a two-message history |

## Left out

- The Streamlit front end (`app.py`), speech recognition, audio playback, microphone listing, and reading or saving the user identity file: these are user-interface and device I/O.
- Client set-up for the chat model, mem0 and the SQLite checkpointer (graph.py:15-47): the memory client is an optional handle, and the model is a function from request to outcome.
- Environment side effects: the value a successful `os.environ` write stores is not modelled, only whether the write raises (a NUL character in the value).
- LangGraph's checkpoint merge and `add_messages` id-based de-duplication: a configured run starts from the given state as if the thread's checkpoint held nothing more. Only the reducer's append is modelled. The refusal of a checkpointer-compiled app to stream without a thread id is the one runtime rule kept (`TherapyTurn.GraphApp`).
- Graph.SystemPrompt and MemoryNodes.MemoryPrompt: the wording of the persona prompt and of the instructions around the memory context is not reproduced. Only the structure is modelled: a fixed prompt, and a fixed head and tail around the joined texts.
- PyValues.PyValue: tuples, sets and other iterables that are not lists, strings or dicts are not modelled. A non-string, non-dict record goes through the `pyStr` parameter, which stands for `str()`.
- MemoryNodes.MemoryClient: what `memory.add` returns and whether it raises are not modelled. Both are ignored by the source, so an add is recorded as a call.
- Exceptions inside `str()` of a record are not modelled.
- Unicode handling below the level of characters: strings are sequences of code points, as in Python.
- MemoryNodes.Normalise: its own contract states only the bound of one text per record. Order, trimming and exceptions are stated by the lemmas beside it.
