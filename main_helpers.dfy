/**
  The small helpers of main.py: picking a microphone by name, checking the
  two API keys, and building user and session identifiers from a name and
  the first eight characters of a random UUID.
 */
module MainHelpers {
  import opened Options
  import opened Text

  /** Python truthiness of an optional string: `None` and `""` are falsy. */
  predicate IsTruthyText(r: Option<string>)
  {
    r.Some? && r.value != ""
  }

  /** Assigning `os.environ[name] = value` raises: CPython refuses a value
      holding a NUL character. */
  predicate EnvWriteRaises(value: string)
  {
    '\0' in value
  }

  /** `str(e)` for that refusal. */
  const EnvWriteError := "embedded null byte"

  // ---------------------------------------------------------------------
  // Microphone choice
  // ---------------------------------------------------------------------

  /** The name searched for when the caller gives none. */
  const DefaultPreferredMicrophone := "OnePlus Buds 3"

  /** `find_preferred_microphone`: the first index whose name contains
      `preferred`, or `None` when no name does. */
  method FindPreferredMicrophone(micNames: seq<string>, preferred: string := DefaultPreferredMicrophone) returns (index: Option<nat>)
    ensures index.None? <==> forall i :: 0 <= i < |micNames| ==> !Contains(micNames[i], preferred)
    ensures index.Some? ==> index.value < |micNames| && Contains(micNames[index.value], preferred)
    ensures index.Some? ==> forall j :: 0 <= j < index.value ==> !Contains(micNames[j], preferred)
  {
    var i := 0;
    while i < |micNames|
      invariant 0 <= i <= |micNames|
      invariant forall j :: 0 <= j < i ==> !Contains(micNames[j], preferred)
    {
      if Contains(micNames[i], preferred) {
        return Some(i);
      }
      i := i + 1;
    }
    return None;
  }

  // ---------------------------------------------------------------------
  // API key check
  // ---------------------------------------------------------------------

  /** What constructing the ElevenLabs client does with a key: it succeeds,
      or raises an exception whose `str()` is `message`. */
  datatype ClientOutcome = ClientCreated | ClientRaised(message: string)

  const ElevenLabsReady := "ElevenLabs initialized successfully"
  const ElevenLabsFailurePrefix := "Failed to initialize ElevenLabs: "

  /** `initialize_elevenlabs`: the success flag and the message; every
      exception from the constructor is caught. */
  function InitializeElevenLabs(key: string, construct: string -> ClientOutcome): (r: (bool, string))
    ensures r.0 <==> construct(key).ClientCreated?
    ensures r.0 ==> r.1 == ElevenLabsReady
    ensures !r.0 ==> IsPrefix(ElevenLabsFailurePrefix, r.1)
                     && r.1[|ElevenLabsFailurePrefix|..] == construct(key).message
  {
    match construct(key)
    case ClientCreated => (true, ElevenLabsReady)
    case ClientRaised(m) => (false, ElevenLabsFailurePrefix + m)
  }

  const OpenAIKeyRequired := "OpenAI API key is required"
  const ElevenLabsKeyRequired := "ElevenLabs API key is required"
  const OpenAIErrorPrefix := "OpenAI key error: "
  const ElevenLabsErrorPrefix := "ElevenLabs key error: "

  /** The errors the OpenAI half of `test_api_keys` reports. */
  function OpenAIKeyErrors(key: Option<string>): seq<string>
  {
    if !IsTruthyText(key) then [OpenAIKeyRequired]
    else if EnvWriteRaises(key.value) then [OpenAIErrorPrefix + EnvWriteError]
    else []
  }

  /** The errors the ElevenLabs half of `test_api_keys` reports. */
  function ElevenLabsKeyErrors(key: Option<string>, construct: string -> ClientOutcome): seq<string>
  {
    if !IsTruthyText(key) then [ElevenLabsKeyRequired]
    else
      var (ok, message) := InitializeElevenLabs(key.value, construct);
      if ok then [] else [ElevenLabsErrorPrefix + message]
  }

  /** `test_api_keys`: the OpenAI key is checked first, then the ElevenLabs
      key, each adding at most one error; the keys are valid when there is
      none. */
  method TestApiKeys(openaiKey: Option<string>, elevenlabsKey: Option<string>, construct: string -> ClientOutcome)
    returns (valid: bool, errors: seq<string>)
    ensures errors == OpenAIKeyErrors(openaiKey) + ElevenLabsKeyErrors(elevenlabsKey, construct)
    ensures valid <==> errors == []
  {
    errors := [];
    if IsTruthyText(openaiKey) {
      if EnvWriteRaises(openaiKey.value) {
        errors := errors + [OpenAIErrorPrefix + EnvWriteError];
      }
    } else {
      errors := errors + [OpenAIKeyRequired];
    }
    if IsTruthyText(elevenlabsKey) {
      var (ok, message) := InitializeElevenLabs(elevenlabsKey.value, construct);
      if !ok {
        errors := errors + [ElevenLabsErrorPrefix + message];
      }
    } else {
      errors := errors + [ElevenLabsKeyRequired];
    }
    valid := |errors| == 0;
  }

  /** The OpenAI check contributes at most one message, which names OpenAI; it
      is the "required" message exactly when the key is missing. */
  lemma OpenAIKeyErrorsShape(key: Option<string>)
    ensures var a := OpenAIKeyErrors(key);
      && |a| <= 1
      && (forall i :: 0 <= i < |a| ==> IsPrefix("OpenAI", a[i]) && a[i] != ElevenLabsKeyRequired)
      && (OpenAIKeyRequired in a <==> !IsTruthyText(key))
      && (a == [] <==> IsTruthyText(key) && !EnvWriteRaises(key.value))
  {
    var a := OpenAIKeyErrors(key);
    forall i | 0 <= i < |a| ensures IsPrefix("OpenAI", a[i]) && a[i] != ElevenLabsKeyRequired {
      assert a[i][..6] == "OpenAI";
      assert a[i][0] == 'O';
    }
    if IsTruthyText(key) && EnvWriteRaises(key.value) {
      assert a[0] != OpenAIKeyRequired by {
        assert a[0][7] != OpenAIKeyRequired[7];
      }
    }
  }

  /** The ElevenLabs check likewise contributes at most one message, which names
      ElevenLabs; it is the "required" message exactly when the key is missing. */
  lemma ElevenLabsKeyErrorsShape(key: Option<string>, construct: string -> ClientOutcome)
    ensures var b := ElevenLabsKeyErrors(key, construct);
      && |b| <= 1
      && (forall i :: 0 <= i < |b| ==> IsPrefix("ElevenLabs", b[i]) && b[i] != OpenAIKeyRequired)
      && (ElevenLabsKeyRequired in b <==> !IsTruthyText(key))
      && (b == [] <==> IsTruthyText(key) && construct(key.value).ClientCreated?)
  {
    var b := ElevenLabsKeyErrors(key, construct);
    forall i | 0 <= i < |b| ensures IsPrefix("ElevenLabs", b[i]) && b[i] != OpenAIKeyRequired {
      assert b[i][..10] == "ElevenLabs";
      assert b[i][0] == 'E';
    }
    if IsTruthyText(key) && b != [] {
      assert b[0] != ElevenLabsKeyRequired by {
        assert b[0][11] != ElevenLabsKeyRequired[11];
      }
    }
  }

  /** What the error list says: at most one error per key, the OpenAI error
      first; a missing key is reported as required; and the keys are valid
      exactly when both are present, the OpenAI key can be put into the
      environment and the ElevenLabs client can be built. */
  lemma ApiKeyErrorsContract(openaiKey: Option<string>, elevenlabsKey: Option<string>, construct: string -> ClientOutcome)
    ensures var errors := OpenAIKeyErrors(openaiKey) + ElevenLabsKeyErrors(elevenlabsKey, construct);
      && |errors| <= 2
      && (forall i :: 0 <= i < |errors| ==> IsPrefix("OpenAI", errors[i]) || IsPrefix("ElevenLabs", errors[i]))
      && (forall i, j :: 0 <= i < j < |errors| ==> IsPrefix("OpenAI", errors[i]) && IsPrefix("ElevenLabs", errors[j]))
      && (!IsTruthyText(openaiKey) <==> OpenAIKeyRequired in errors)
      && (!IsTruthyText(elevenlabsKey) <==> ElevenLabsKeyRequired in errors)
      && (errors == [] <==>
            && IsTruthyText(openaiKey) && !EnvWriteRaises(openaiKey.value)
            && IsTruthyText(elevenlabsKey) && construct(elevenlabsKey.value).ClientCreated?)
  {
    OpenAIKeyErrorsShape(openaiKey);
    ElevenLabsKeyErrorsShape(elevenlabsKey, construct);
    var a := OpenAIKeyErrors(openaiKey);
    var b := ElevenLabsKeyErrors(elevenlabsKey, construct);
    var errors := a + b;
    assert OpenAIKeyRequired in errors <==> OpenAIKeyRequired in a;
    assert ElevenLabsKeyRequired in errors <==> ElevenLabsKeyRequired in b;
  }


  // ---------------------------------------------------------------------
  // Identifiers
  // ---------------------------------------------------------------------

  /** A lower-case hexadecimal digit, as `str(uuid4())` writes them. */
  predicate IsHexDigit(c: char)
  {
    ('0' <= c <= '9') || ('a' <= c <= 'f')
  }

  /** `str(uuid.uuid4())`: 36 characters, hex digits in groups of 8-4-4-4-12
      separated by dashes. */
  predicate IsUuidText(u: string)
  {
    && |u| == 36
    && (forall i :: 0 <= i < 36 && i != 8 && i != 13 && i != 18 && i != 23 ==> IsHexDigit(u[i]))
    && u[8] == '-' && u[13] == '-' && u[18] == '-' && u[23] == '-'
  }

  /** The position of the last `c` in `s`, if any. */
  function LastIndexOf(s: string, c: char): (r: Option<nat>)
    ensures r.Some? ==> r.value < |s| && s[r.value] == c && c !in s[r.value + 1..]
    ensures r.None? ==> c !in s
  {
    if s == [] then None
    else if s[|s| - 1] == c then Some(|s| - 1)
    else
      var r := LastIndexOf(s[..|s| - 1], c);
      assert r.Some? ==> s[r.value + 1..] == s[..|s| - 1][r.value + 1..] + [s[|s| - 1]];
      r
  }

  /** Splits `s` around its last underscore. */
  function SplitLastUnderscore(s: string): Option<(string, string)>
  {
    match LastIndexOf(s, '_')
    case None => None
    case Some(k) => Some((s[..k], s[k + 1..]))
  }

  /** In a head, an underscore and an underscore-free tail, the last
      underscore is the one after the head. */
  lemma {:induction false} LastUnderscoreAfterHead(head: string, tail: string)
    requires '_' !in tail
    ensures LastIndexOf(head + "_" + tail, '_') == Some(|head|)
    decreases |tail|
  {
    var s := head + "_" + tail;
    if tail != [] {
      assert s[|s| - 1] == tail[|tail| - 1];
      assert s[..|s| - 1] == head + "_" + tail[..|tail| - 1];
      LastUnderscoreAfterHead(head, tail[..|tail| - 1]);
    }
  }

  /** A head, an underscore and an underscore-free tail split back apart. */
  lemma SplitLastUnderscoreAppend(head: string, tail: string)
    requires '_' !in tail
    ensures SplitLastUnderscore(head + "_" + tail) == Some((head, tail))
  {
    var s := head + "_" + tail;
    LastUnderscoreAfterHead(head, tail);
    assert s[..|head|] == head && s[|head| + 1..] == tail;
  }

  /** The eight characters of a UUID used as a suffix hold no underscore. */
  lemma SuffixHasNoUnderscore(u: string)
    requires IsUuidText(u)
    ensures '_' !in u[..8]
  {
    forall i | 0 <= i < 8 ensures u[..8][i] != '_' {
      assert IsHexDigit(u[i]);
    }
  }

  /** Reads a user id back into the stripped name and the suffix. */
  function ParseUserId(userId: string): Option<(string, string)>
  {
    SplitLastUnderscore(userId)
  }

  /** `create_user_profile`: the stripped name, an underscore, and the first
      eight characters of a fresh UUID `u`. */
  function CreateUserProfile(userName: string, u: string): (userId: string)
    requires IsUuidText(u)
    ensures ParseUserId(userId) == Some((Strip(userName), u[..8]))
    ensures |userId| == |Strip(userName)| + 9
  {
    SuffixHasNoUnderscore(u);
    SplitLastUnderscoreAppend(Strip(userName), u[..8]);
    Strip(userName) + "_" + u[..8]
  }

  const SessionPrefix := "session_"

  /** Reads a session id back into the user id and the suffix. */
  function ParseSessionId(sessionId: string): Option<(string, string)>
  {
    if IsPrefix(SessionPrefix, sessionId) then SplitLastUnderscore(sessionId[|SessionPrefix|..]) else None
  }

  /** `create_session_id`: `session_`, the user id, an underscore, and the
      first eight characters of a fresh UUID `u`. */
  function CreateSessionId(userId: string, u: string): (sessionId: string)
    requires IsUuidText(u)
    ensures IsPrefix(SessionPrefix, sessionId)
    ensures ParseSessionId(sessionId) == Some((userId, u[..8]))
  {
    SuffixHasNoUnderscore(u);
    SplitLastUnderscoreAppend(userId, u[..8]);
    var sessionId := SessionPrefix + userId + "_" + u[..8];
    assert sessionId[|SessionPrefix|..] == userId + "_" + u[..8];
    sessionId
  }

  /** Different users, or different UUID prefixes, never share a session id:
      each user's sessions are told apart by their suffix. */
  lemma SessionIdsDistinct(userA: string, uA: string, userB: string, uB: string)
    requires IsUuidText(uA) && IsUuidText(uB)
    requires userA != userB || uA[..8] != uB[..8]
    ensures CreateSessionId(userA, uA) != CreateSessionId(userB, uB)
  {
  }

  /** A session id made from a new profile reads back to the stripped name. */
  lemma SessionOfProfile(userName: string, u1: string, u2: string)
    requires IsUuidText(u1) && IsUuidText(u2)
    ensures var sessionId := CreateSessionId(CreateUserProfile(userName, u1), u2);
      && ParseSessionId(sessionId).Some?
      && ParseUserId(ParseSessionId(sessionId).value.0) == Some((Strip(userName), u1[..8]))
  {
  }
}
