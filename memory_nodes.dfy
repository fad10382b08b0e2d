/**
  The two memory nodes of graph.py: `retrieve_memories`, which searches the
  memory store with the latest human message and turns whatever comes back
  into at most one context `SystemMessage`, and `store_memories`, which
  writes the last four messages back as a `User:`/`Therapist:` transcript.
  Each node is specified by a function (`Retrieve`, `Store`) and implemented
  by a method with the source's loops (`RetrieveMemories`, `StoreMemories`).
 */
module MemoryNodes {
  import opened Options
  import opened Text
  import opened PyValues
  import opened Messages

  /** What one `memory.search(...)` call produced: a value, or an exception. */
  datatype SearchOutcome = Found(value: PyValue) | SearchFailed

  /** The module-level `memory` handle: `NoMemory` when the client could not
      be built. `search` answers a (query, user id, limit) call. What `add`
      returns is never read and its exceptions are swallowed, so an add is
      only recorded as a call. */
  datatype MemoryClient = NoMemory | Mem0(search: (string, string, int) -> SearchOutcome)

  /** Every search asks for at most this many memories. */
  const SearchLimit := 5

  /** The record keys tried, in this order, for a memory's text. */
  const TextKeys: seq<string> := ["memory", "text", "content", "data"]

  /** Label of the context message built from the retrieved memories; the
      instruction text around it is not reproduced word for word. */
  const MemoryPromptHead := "Previous conversation memories about this user:\n"
  const MemoryPromptTail := "\nUse this context to personalise the reply."

  /** The content of the context `SystemMessage` for the joined memories. */
  function MemoryPrompt(context: string): string
  {
    MemoryPromptHead + context + MemoryPromptTail
  }

  // ---------------------------------------------------------------------
  // retrieve_memories: specification
  // ---------------------------------------------------------------------

  /** Position of the most recent `HumanMessage`, if there is one. */
  function LastHumanIndex(msgs: seq<Message>): (r: Option<nat>)
    ensures r.Some? ==> r.value < |msgs| && msgs[r.value].HumanMessage?
    ensures r.Some? ==> forall j :: r.value < j < |msgs| ==> !msgs[j].HumanMessage?
    ensures r.None? ==> forall j :: 0 <= j < |msgs| ==> !msgs[j].HumanMessage?
  {
    if msgs == [] then None
    else if msgs[|msgs| - 1].HumanMessage? then Some(|msgs| - 1)
    else LastHumanIndex(msgs[..|msgs| - 1])
  }

  /** The search query: the content of the most recent human message, or
      the empty string when there is none. */
  function LastHumanContent(msgs: seq<Message>): string
  {
    match LastHumanIndex(msgs)
    case None => ""
    case Some(i) => msgs[i].content
  }

  /** The value the records are read from, chosen by the shape of the search
      result: the `results`, else `memories`, else `data` entry of a dict; any
      other dict as the single record; a list as it is; anything else gives
      an empty list. */
  function MemoryList(v: PyValue): PyValue
  {
    match v
    case PyDict(entries) =>
      if HasKey(entries, "results") then Get(entries, "results")
      else if HasKey(entries, "memories") then Get(entries, "memories")
      else if HasKey(entries, "data") then Get(entries, "data")
      else PyList([v])
    case PyList(_) => v
    case _ => PyList([])
  }

  /** The position of the first key whose entry is truthy (Python's
      `d.get(k1) or d.get(k2) or ...` stops there), or `None` when all are
      falsy. */
  function FirstTruthyIndex(entries: seq<(string, PyValue)>, keys: seq<string>): (r: Option<nat>)
    ensures r.None? <==> forall k :: 0 <= k < |keys| ==> !Truthy(Get(entries, keys[k]))
    ensures r.Some? ==> r.value < |keys| && Truthy(Get(entries, keys[r.value]))
    ensures r.Some? ==> forall j :: 0 <= j < r.value ==> !Truthy(Get(entries, keys[j]))
  {
    if keys == [] then None
    else if Truthy(Get(entries, keys[0])) then Some(0)
    else
      var r := FirstTruthyIndex(entries, keys[1..]);
      assert forall k :: 1 <= k < |keys| ==> keys[k] == keys[1..][k - 1];
      if r.Some? then Some(r.value + 1) else None
  }

  /** A record's text: for a dict, the first truthy of its `memory`, `text`,
      `content` and `data` entries, else `str(record)`; a string as it is;
      anything else `str(record)`. `pyStr` is Python's `str()`. */
  function MemoryText(mem: PyValue, pyStr: PyValue -> string): PyValue
  {
    match mem
    case PyDict(entries) =>
      (match FirstTruthyIndex(entries, TextKeys)
       case Some(k) => Get(entries, TextKeys[k])
       case None => PyStr(pyStr(mem)))
    case PyStr(_) => mem
    case _ => PyStr(pyStr(mem))
  }

  /** What one record's text adds to the list: its stripped form when that is
      non-empty, nothing for an empty or all-whitespace text, and `None` when
      calling `.strip()` raises (a truthy text that is not a string). */
  function Kept(text: PyValue): Option<seq<string>>
  {
    match text
    case PyStr(s) => Some(if s != "" && Strip(s) != "" then [Strip(s)] else [])
    case _ => if Truthy(text) then None else Some([])
  }

  /** Appending optional text lists: `None` (an exception) absorbs. */
  function Append(x: Option<seq<string>>, y: Option<seq<string>>): Option<seq<string>>
  {
    if x.Some? && y.Some? then Some(x.value + y.value) else None
  }

  /** The texts gathered from `records` in order, or `None` when some record
      makes the loop raise. */
  function Normalise(records: seq<PyValue>, pyStr: PyValue -> string): (r: Option<seq<string>>)
    ensures r.Some? ==> |r.value| <= |records|
  {
    if records == [] then Some([])
    else Append(Normalise(records[..|records| - 1], pyStr), Kept(MemoryText(records[|records| - 1], pyStr)))
  }

  /** The texts drawn from a search result, or `None` when reading it raises. */
  function MemoryTexts(v: PyValue, pyStr: PyValue -> string): Option<seq<string>>
  {
    var list := MemoryList(v);
    if !Truthy(list) then Some([])
    else
      match Iterate(list)
      case None => None
      case Some(records) => Normalise(records, pyStr)
  }

  /** The messages the node returns for the texts it gathered: one context
      message when there is at least one text, none otherwise. */
  function ContextMessages(texts: Option<seq<string>>): seq<Message>
  {
    if texts.Some? && texts.value != [] then [SystemMessage(MemoryPrompt(Join(texts.value, "\n")))] else []
  }

  /** `retrieve_memories` as a function of the state and the memory client. */
  function Retrieve(s: State, memory: MemoryClient, pyStr: PyValue -> string): NodeOutput
  {
    var userId := UserIdOf(s);
    if memory.NoMemory? then NodeOutput([], userId, [])
    else
      var query := LastHumanContent(s.messages);
      if query == "" then NodeOutput([], userId, [])
      else
        var found :=
          match memory.search(query, userId, SearchLimit)
          case SearchFailed => []
          case Found(v) => ContextMessages(MemoryTexts(v, pyStr));
        NodeOutput(found, userId, [Search(query, userId, SearchLimit)])
  }

  // ---------------------------------------------------------------------
  // retrieve_memories: properties
  // ---------------------------------------------------------------------

  /** Every gathered text is non-empty and has no whitespace at either end. */
  lemma {:induction false} NormaliseTrimmed(records: seq<PyValue>, pyStr: PyValue -> string)
    ensures var r := Normalise(records, pyStr);
      r.Some? ==> forall k :: 0 <= k < |r.value| ==> r.value[k] != "" && Trimmed(r.value[k])
  {
    if records != [] {
      NormaliseTrimmed(records[..|records| - 1], pyStr);
    }
  }

  /** One more record adds its kept text at the end. */
  lemma NormaliseSnoc(rs: seq<PyValue>, r: PyValue, pyStr: PyValue -> string)
    ensures Normalise(rs + [r], pyStr) == Append(Normalise(rs, pyStr), Kept(MemoryText(r, pyStr)))
  {
    assert (rs + [r])[..|rs|] == rs;
  }

  /** `Append` is associative. */
  lemma AppendAssoc(x: Option<seq<string>>, y: Option<seq<string>>, z: Option<seq<string>>)
    ensures Append(Append(x, y), z) == Append(x, Append(y, z))
  {
    if x.Some? && y.Some? && z.Some? {
      assert (x.value + y.value) + z.value == x.value + (y.value + z.value);
    }
  }

  /** Gathering texts from two runs of records one after the other gives the
      texts of the first run followed by those of the second: order is kept
      and records do not affect each other. */
  lemma {:induction false} NormaliseConcat(a: seq<PyValue>, b: seq<PyValue>, pyStr: PyValue -> string)
    ensures Normalise(a + b, pyStr) == Append(Normalise(a, pyStr), Normalise(b, pyStr))
    decreases |b|
  {
    var x := Normalise(a, pyStr);
    if b == [] {
      assert a + b == a;
      if x.Some? {
        assert x.value + [] == x.value;
      }
    } else {
      var b', last := b[..|b| - 1], b[|b| - 1];
      assert a + b == (a + b') + [last];
      assert b == b' + [last];
      NormaliseConcat(a, b', pyStr);
      NormaliseSnoc(a + b', last, pyStr);
      NormaliseSnoc(b', last, pyStr);
      AppendAssoc(x, Normalise(b', pyStr), Kept(MemoryText(last, pyStr)));
    }
  }

  /** A single record contributes exactly its kept text. */
  lemma NormaliseSingle(r: PyValue, pyStr: PyValue -> string)
    ensures Normalise([r], pyStr) == Kept(MemoryText(r, pyStr))
  {
    assert [r][..0] == [];
    var z := Kept(MemoryText(r, pyStr));
    if z.Some? {
      assert [] + z.value == z.value;
    }
  }

  /** The text of a record: a dict's text is the value of the first of
      `memory`, `text`, `content`, `data` that is truthy, and `str(record)`
      only when none is; a string is its own text. */
  lemma RecordTextPriority(entries: seq<(string, PyValue)>, pyStr: PyValue -> string, k: nat)
    requires k < |TextKeys| && Truthy(Get(entries, TextKeys[k]))
    requires forall j :: 0 <= j < k ==> !Truthy(Get(entries, TextKeys[j]))
    ensures MemoryText(PyDict(entries), pyStr) == Get(entries, TextKeys[k])
  {
    var r := FirstTruthyIndex(entries, TextKeys);
    assert r.value == k;
  }

  /** Whatever shape carries a list of records `rs`, the same texts come
      out: a dict's `results` entry wins over `memories`, which wins over
      `data`; a dict with none of them is one record; a string or a scalar
      gives nothing. */
  lemma ResultShapes(entries: seq<(string, PyValue)>, rs: seq<PyValue>, v: PyValue, pyStr: PyValue -> string)
    ensures HasKey(entries, "results") && Get(entries, "results") == PyList(rs)
      ==> MemoryTexts(PyDict(entries), pyStr) == MemoryTexts(PyList(rs), pyStr)
    ensures !HasKey(entries, "results") && HasKey(entries, "memories") && Get(entries, "memories") == PyList(rs)
      ==> MemoryTexts(PyDict(entries), pyStr) == MemoryTexts(PyList(rs), pyStr)
    ensures !HasKey(entries, "results") && !HasKey(entries, "memories") && HasKey(entries, "data")
        && Get(entries, "data") == PyList(rs)
      ==> MemoryTexts(PyDict(entries), pyStr) == MemoryTexts(PyList(rs), pyStr)
    ensures !HasKey(entries, "results") && !HasKey(entries, "memories") && !HasKey(entries, "data")
      ==> MemoryTexts(PyDict(entries), pyStr) == MemoryTexts(PyList([PyDict(entries)]), pyStr)
    ensures v.PyStr? || v.PyScalar? ==> MemoryTexts(v, pyStr) == Some([])
  {
  }

  /** The node's outcome, stated outright: the user id is the state's (or
      the default); a search is made exactly when a client is configured and
      the most recent human message is non-empty, and it is then the one
      call, with that message as its query and the limit 5; the node returns
      at most one message, a context `SystemMessage`. */
  lemma RetrieveContract(s: State, memory: MemoryClient, pyStr: PyValue -> string)
    ensures Retrieve(s, memory, pyStr).userId == UserIdOf(s)
    ensures var out := Retrieve(s, memory, pyStr);
      out.calls == [] <==> memory.NoMemory? || LastHumanContent(s.messages) == ""
    ensures var out := Retrieve(s, memory, pyStr);
      out.calls != [] ==> out.calls == [Search(LastHumanContent(s.messages), UserIdOf(s), SearchLimit)]
    ensures var out := Retrieve(s, memory, pyStr);
      out.calls == [] ==> out.messages == []
    ensures var out := Retrieve(s, memory, pyStr);
      |out.messages| <= 1 && (out.messages != [] ==> out.messages[0].SystemMessage?)
  {
  }

  /** The query is the content of the most recent human message: a later
      human message always replaces an earlier one, and AI or system
      messages after it do not change it. */
  lemma {:induction false} QueryIsLatestHuman(msgs: seq<Message>, i: nat)
    requires i < |msgs| && msgs[i].HumanMessage?
    requires forall j :: i < j < |msgs| ==> !msgs[j].HumanMessage?
    ensures LastHumanContent(msgs) == msgs[i].content
  {
    var r := LastHumanIndex(msgs);
    assert r == Some(i);
  }

  /** The node returns one message exactly when the search succeeded and at
      least one text survived; that message holds the surviving texts in
      order, joined by newlines. A failed search, or a result whose reading
      raises, leaves the node with no message. */
  lemma RetrieveMessage(s: State, memory: MemoryClient, pyStr: PyValue -> string)
    requires memory.Mem0? && LastHumanContent(s.messages) != ""
    ensures var out := Retrieve(s, memory, pyStr);
      var answer := memory.search(LastHumanContent(s.messages), UserIdOf(s), SearchLimit);
      && (answer.SearchFailed? ==> out.messages == [])
      && (answer.Found? && MemoryTexts(answer.value, pyStr).None? ==> out.messages == [])
      && (answer.Found? && MemoryTexts(answer.value, pyStr) == Some([]) ==> out.messages == [])
      && (answer.Found? && MemoryTexts(answer.value, pyStr).Some? && MemoryTexts(answer.value, pyStr).value != []
          ==> out.messages == [SystemMessage(MemoryPrompt(Join(MemoryTexts(answer.value, pyStr).value, "\n")))])
  {
  }

  /** The memories can be read back from the context message: when no text
      contains a newline, splitting the joined context on newlines gives the
      texts again, each stripped and non-empty. */
  lemma ContextRoundTrip(v: PyValue, pyStr: PyValue -> string)
    requires MemoryTexts(v, pyStr).Some? && MemoryTexts(v, pyStr).value != []
    requires forall k :: 0 <= k < |MemoryTexts(v, pyStr).value| ==> '\n' !in MemoryTexts(v, pyStr).value[k]
    ensures var texts := MemoryTexts(v, pyStr).value;
      && Split(Join(texts, "\n"), '\n') == texts
      && forall k :: 0 <= k < |texts| ==> texts[k] != "" && Trimmed(texts[k])
  {
    var texts := MemoryTexts(v, pyStr).value;
    SplitJoin(texts, '\n');
    var list := MemoryList(v);
    assert Truthy(list);
    var records := Iterate(list).value;
    assert MemoryTexts(v, pyStr) == Normalise(records, pyStr);
    NormaliseTrimmed(records, pyStr);
  }

  // ---------------------------------------------------------------------
  // retrieve_memories: the node as the source runs it
  // ---------------------------------------------------------------------

  /** The backward scan of `retrieve_memories`: the content of the first
      human message met walking from the end, or "" when there is none. */
  method LatestHumanText(msgs: seq<Message>) returns (lastMessage: string)
    ensures lastMessage == LastHumanContent(msgs)
  {
    lastMessage := "";
    var i := |msgs|;
    while i > 0
      invariant 0 <= i <= |msgs|
      invariant forall j :: i <= j < |msgs| ==> !msgs[j].HumanMessage?
      invariant lastMessage == ""
    {
      i := i - 1;
      if msgs[i].HumanMessage? {
        lastMessage := msgs[i].content;
        QueryIsLatestHuman(msgs, i);
        return;
      }
    }
    assert LastHumanIndex(msgs).None?;
  }

  /** A record's text is a string or a truthy value: the `or` chain either
      stops at a truthy entry or falls through to `str(record)`. */
  lemma TextIsStringOrTruthy(mem: PyValue, pyStr: PyValue -> string)
    ensures MemoryText(mem, pyStr).PyStr? || Truthy(MemoryText(mem, pyStr))
  {
  }

  /** Gathering one more record of a run adds its kept text. */
  lemma NormaliseStep(records: seq<PyValue>, k: nat, pyStr: PyValue -> string)
    requires k < |records|
    ensures Normalise(records[..k + 1], pyStr)
         == Append(Normalise(records[..k], pyStr), Kept(MemoryText(records[k], pyStr)))
  {
    assert records[..k + 1][..k] == records[..k];
  }

  /** Once a prefix of the records raises, so does the whole run. */
  lemma NormaliseAbsorbs(records: seq<PyValue>, k: nat, pyStr: PyValue -> string)
    requires k <= |records| && Normalise(records[..k], pyStr).None?
    ensures Normalise(records, pyStr).None?
  {
    NormaliseConcat(records[..k], records[k..], pyStr);
    assert records[..k] + records[k..] == records;
  }

  /** The record loop of `retrieve_memories`: the stripped non-blank texts in
      record order, or `None` as soon as a record's text cannot be stripped. */
  method GatherTexts(records: seq<PyValue>, pyStr: PyValue -> string) returns (texts: Option<seq<string>>)
    ensures texts == Normalise(records, pyStr)
  {
    var memoryTexts: seq<string> := [];
    var k := 0;
    NormaliseNoneYet(records, pyStr);
    while k < |records|
      invariant 0 <= k <= |records|
      invariant Normalise(records[..k], pyStr) == Some(memoryTexts)
    {
      var memoryText := MemoryText(records[k], pyStr);
      if !memoryText.PyStr? {
        // a text that is not a string is truthy, and `.strip()` on it raises
        GatherRaises(records, k, pyStr);
        return None;
      }
      var before := memoryTexts;
      var stripped := Strip(memoryText.s);
      if memoryText.s != "" && stripped != "" {
        memoryTexts := memoryTexts + [stripped];
      }
      GatherStep(records, k, pyStr, before, memoryTexts);
      k := k + 1;
    }
    NormaliseAll(records, pyStr);
    return Some(memoryTexts);
  }

  /** Before the first record nothing has been gathered. */
  lemma NormaliseNoneYet(records: seq<PyValue>, pyStr: PyValue -> string)
    ensures Normalise(records[..0], pyStr) == Some([])
  {
    assert records[..0] == [];
  }

  /** After the last record the gathered texts are those of all records. */
  lemma NormaliseAll(records: seq<PyValue>, pyStr: PyValue -> string)
    ensures Normalise(records[..|records|], pyStr) == Normalise(records, pyStr)
  {
    assert records[..|records|] == records;
  }

  /** A record whose text is a string adds that text stripped, or nothing
      when it is blank. */
  lemma GatherStep(records: seq<PyValue>, k: nat, pyStr: PyValue -> string, before: seq<string>, after: seq<string>)
    requires k < |records| && Normalise(records[..k], pyStr) == Some(before)
    requires MemoryText(records[k], pyStr).PyStr?
    requires var t := MemoryText(records[k], pyStr).s;
      after == if t != "" && Strip(t) != "" then before + [Strip(t)] else before
    ensures Normalise(records[..k + 1], pyStr) == Some(after)
  {
    NormaliseStep(records, k, pyStr);
    assert before + [] == before;
  }

  /** A record whose text is not a string makes the whole loop raise. */
  lemma GatherRaises(records: seq<PyValue>, k: nat, pyStr: PyValue -> string)
    requires k < |records| && !MemoryText(records[k], pyStr).PyStr?
    ensures Normalise(records, pyStr).None?
  {
    KeptNonString(records[k], pyStr);
    NormaliseAbsorbsAt(records, k, pyStr);
  }

  /** A memory whose text is not a string cannot be kept: its text is truthy, so `strip` raises. */
  lemma KeptNonString(mem: PyValue, pyStr: PyValue -> string)
    requires !MemoryText(mem, pyStr).PyStr?
    ensures Kept(MemoryText(mem, pyStr)).None?
  {
    TextIsStringOrTruthy(mem, pyStr);
  }

  /** One memory that raises makes the whole normalisation raise. */
  lemma NormaliseAbsorbsAt(records: seq<PyValue>, k: nat, pyStr: PyValue -> string)
    requires k < |records| && Kept(MemoryText(records[k], pyStr)).None?
    ensures Normalise(records, pyStr).None?
  {
    if k < |records| - 1 {
      NormaliseRaisesBeforeLast(records, k, pyStr);
    } else {
      NormaliseRaisesAtLast(records, k, pyStr);
    }
  }

  lemma NormaliseRaisesAtLast(records: seq<PyValue>, k: nat, pyStr: PyValue -> string)
    requires k == |records| - 1 && Kept(MemoryText(records[k], pyStr)).None?
    ensures Normalise(records, pyStr).None?
  {
  }

  lemma NormaliseRaisesAfterPrefix(records: seq<PyValue>, pyStr: PyValue -> string)
    requires |records| > 0 && Normalise(records[..|records| - 1], pyStr).None?
    ensures Normalise(records, pyStr).None?
  {
  }

  lemma {:induction false} NormaliseRaisesBeforeLast(records: seq<PyValue>, k: nat, pyStr: PyValue -> string)
    requires k < |records| - 1 && Kept(MemoryText(records[k], pyStr)).None?
    ensures Normalise(records, pyStr).None?
    decreases |records|
  {
    var last := |records| - 1;
    assert records[..last][k] == records[k];
    if k < last - 1 {
      NormaliseRaisesBeforeLast(records[..last], k, pyStr);
    } else {
      NormaliseRaisesAtLast(records[..last], k, pyStr);
    }
    NormaliseRaisesAfterPrefix(records, pyStr);
  }

  /** `retrieve_memories`: find the query, search, read the result by its
      shape, gather the texts and wrap them in one context message. */
  method RetrieveMemories(s: State, memory: MemoryClient, pyStr: PyValue -> string) returns (out: NodeOutput)
    ensures out == Retrieve(s, memory, pyStr)
  {
    var userId := UserIdOf(s);
    if memory.NoMemory? {
      return NodeOutput([], userId, []);
    }
    var lastMessage := LatestHumanText(s.messages);
    if lastMessage == "" {
      return NodeOutput([], userId, []);
    }
    var call := Search(lastMessage, userId, SearchLimit);
    var answer := memory.search(lastMessage, userId, SearchLimit);
    if answer.SearchFailed? {
      return NodeOutput([], userId, [call]);
    }
    var memoryList := MemoryList(answer.value);
    if !Truthy(memoryList) {
      return NodeOutput([], userId, [call]);
    }
    var iterated := Iterate(memoryList);
    if iterated.None? {
      return NodeOutput([], userId, [call]);
    }
    var memoryTexts := GatherTexts(iterated.value, pyStr);
    if memoryTexts.Some? && memoryTexts.value != [] {
      return NodeOutput([SystemMessage(MemoryPrompt(Join(memoryTexts.value, "\n")))], userId, [call]);
    }
    return NodeOutput([], userId, [call]);
  }

  // ---------------------------------------------------------------------
  // store_memories
  // ---------------------------------------------------------------------

  /** How many of the latest messages are written back. */
  const WindowSize := 4

  /** `messages[-4:]`: the last four messages, or all of them when fewer. */
  function Window(msgs: seq<Message>): (w: seq<Message>)
    ensures |w| == if |msgs| < WindowSize then |msgs| else WindowSize
    ensures w == msgs[|msgs| - |w|..]
  {
    if |msgs| <= WindowSize then msgs else msgs[|msgs| - WindowSize..]
  }

  /** The transcript line of one message; system messages give none. */
  function Line(m: Message): string
  {
    match m
    case HumanMessage(c) => "User: " + c + "\n"
    case AIMessage(c) => "Therapist: " + c + "\n"
    case SystemMessage(_) => ""
  }

  /** The transcript of `msgs`: their lines in order. */
  function Render(msgs: seq<Message>): string
  {
    if msgs == [] then "" else Render(msgs[..|msgs| - 1]) + Line(msgs[|msgs| - 1])
  }

  /** `store_memories` as a function of the state and the memory client: it
      never returns messages, and adds the transcript of the window when a
      client is configured and the transcript is non-empty. */
  function Store(s: State, memory: MemoryClient): NodeOutput
  {
    var userId := UserIdOf(s);
    if memory.NoMemory? then NodeOutput([], userId, [])
    else
      var text := Render(Window(s.messages));
      NodeOutput([], userId, if text != "" then [Add(text, userId)] else [])
  }

  /** The transcript is empty exactly when no message in it is a human or an
      AI message. */
  lemma {:induction false} RenderEmptyIff(msgs: seq<Message>)
    ensures Render(msgs) == "" <==> forall i :: 0 <= i < |msgs| ==> msgs[i].SystemMessage?
  {
    if msgs != [] {
      RenderEmptyIff(msgs[..|msgs| - 1]);
      assert forall i :: 0 <= i < |msgs| - 1 ==> msgs[..|msgs| - 1][i] == msgs[i];
    }
  }

  /** The node's outcome, stated outright: no messages, the state's user id,
      and one `add` of the window's transcript exactly when a client is
      configured and one of the last four messages is a human or AI message. */
  lemma StoreContract(s: State, memory: MemoryClient)
    ensures var out := Store(s, memory);
      && out.messages == []
      && out.userId == UserIdOf(s)
      && |out.calls| <= 1
      && (out.calls != [] ==> out.calls[0] == Add(Render(Window(s.messages)), UserIdOf(s)))
    ensures var w := Window(s.messages);
      Store(s, memory).calls != [] <==> memory.Mem0? && exists i :: 0 <= i < |w| && !w[i].SystemMessage?
  {
    RenderEmptyIff(Window(s.messages));
  }

  /** One more message adds its line at the end of the transcript. */
  lemma RenderSnoc(msgs: seq<Message>, m: Message)
    ensures Render(msgs + [m]) == Render(msgs) + Line(m)
  {
    assert (msgs + [m])[..|msgs|] == msgs;
  }

  /** After a reply, the stored transcript ends with that reply: when the
      last message is the AI message `c`, the text added ends with
      `Therapist: c` and its newline. */
  lemma StoreEndsWithReply(history: seq<Message>, c: string, userId: Option<string>, memory: MemoryClient)
    requires memory.Mem0?
    ensures var out := Store(State(history + [AIMessage(c)], userId), memory);
      var line := "Therapist: " + c + "\n";
      |out.calls| == 1 && out.calls[0].Add? && |line| <= |out.calls[0].text|
      && out.calls[0].text[|out.calls[0].text| - |line|..] == line
  {
    var msgs := history + [AIMessage(c)];
    var w := Window(msgs);
    assert w == w[..|w| - 1] + [AIMessage(c)];
    RenderSnoc(w[..|w| - 1], AIMessage(c));
  }

  /** The transcript loop of `store_memories`: one `role: content` line per
      human or AI message, in order. */
  method RenderLines(recent: seq<Message>) returns (conversationText: string)
    ensures conversationText == Render(recent)
  {
    conversationText := "";
    assert recent[..0] == [];
    for k := 0 to |recent|
      invariant conversationText == Render(recent[..k])
    {
      var msg := recent[k];
      RenderPrefixStep(recent, k);
      if msg.HumanMessage? || msg.AIMessage? {
        var role := if msg.HumanMessage? then "User" else "Therapist";
        RoleLine(msg, role);
        conversationText := conversationText + (role + ": " + msg.content + "\n");
      } else {
        assert Line(msg) == [] && conversationText + [] == conversationText;
      }
    }
    assert recent[..|recent|] == recent;
  }

  /** One more message of the window adds its line to the transcript. */
  lemma RenderPrefixStep(recent: seq<Message>, k: nat)
    requires k < |recent|
    ensures Render(recent[..k + 1]) == Render(recent[..k]) + Line(recent[k])
  {
    assert recent[..k + 1] == recent[..k] + [recent[k]];
    RenderSnoc(recent[..k], recent[k]);
  }

  /** The f-string `role: content` with its newline is the message's line. */
  lemma RoleLine(msg: Message, role: string)
    requires msg.HumanMessage? || msg.AIMessage?
    requires role == if msg.HumanMessage? then "User" else "Therapist"
    ensures role + ": " + msg.content + "\n" == Line(msg)
  {
  }

  /** `store_memories`: take the last four messages, write their transcript
      to the memory store when it is non-empty, return no messages. */
  method StoreMemories(s: State, memory: MemoryClient) returns (out: NodeOutput)
    ensures out == Store(s, memory)
  {
    var userId := UserIdOf(s);
    if memory.NoMemory? {
      return NodeOutput([], userId, []);
    }
    var msgs := s.messages;
    var recent := if |msgs| <= WindowSize then msgs else msgs[|msgs| - WindowSize..];
    assert recent == Window(msgs);
    var conversationText := RenderLines(recent);
    assert conversationText == Render(Window(s.messages));
    var calls := if conversationText != "" then [Add(conversationText, userId)] else [];
    return NodeOutput([], userId, calls);
  }
}
