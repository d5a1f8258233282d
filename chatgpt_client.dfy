/** internal/chatgpt/client.go: the chat message the front-ends fill m, the assembly of a chat
    completion request from it (system prompt, a history window, the user prompt), and the
    guard chain that builds an SDK client from the configured key, api type, base URL and proxy. */
module ChatgptClient {
  import opened Base
  import opened Text
  import opened OpenAI

  /** chatgpt.Message: one user turn and the settings it is sent with. */
  datatype Message = Message(
    streamId: string,
    id: string,
    user: string,
    model: string,
    prompt: string,
    system: string,
    stream: bool,
    history: Uint,
    maxTokens: Uint)

  /** The system message, when the system prompt is not empty. */
  function SystemPart(system: string): (r: seq<ChatMessage>)
    ensures |r| == if system != "" then 1 else 0
  {
    if system != "" then [ChatMessage(System, system)] else []
  }

  /** The part of the caller's history that a request carries: none when the limit is 0, the
      history without its oldest pair when it holds more pairs than the limit, else all of it. */
  function Window(history: seq<ChatMessage>, limit: nat): seq<ChatMessage>
  {
    if limit == 0 then []
    else if |history| / 2 > limit then history[2..]
    else history
  }

  /** MakeChatRequest: [system?] + window of the history + [user prompt], with the settings of
      `m` copied. History is compared as an unsigned number (see MakeChatRequestAsWritten). */
  function MakeChatRequest(m: Message, history: seq<ChatMessage>): (r: ChatRequest)
    ensures |r.messages| == |SystemPart(m.system)| + |Window(history, m.history)| + 1
    ensures r.messages[|r.messages| - 1] == ChatMessage(User, m.prompt)
    ensures m.system != "" ==> r.messages[0] == ChatMessage(System, m.system)
    ensures r.model == m.model && r.stream == m.stream && r.user == m.user
    ensures r.maxTokens == GoInt(m.maxTokens) && r.n == 1
  {
    ChatRequest(
      model := m.model,
      messages := SystemPart(m.system) + Window(history, m.history) + [ChatMessage(User, m.prompt)],
      maxTokens := GoInt(m.maxTokens),
      stream := m.stream,
      user := m.user,
      n := 1)
  }

  /** The history messages of a request: everything between the optional system message and
      the final user message. */
  function Prior(r: ChatRequest, m: Message): seq<ChatMessage>
    requires |r.messages| >= |SystemPart(m.system)| + 1
  {
    r.messages[|SystemPart(m.system)|..|r.messages| - 1]
  }

  /** The history a request carries: nothing when History is 0, all of it while it holds at
      most History pairs, and exactly history[2..] (one pair dropped, never more) otherwise. */
  lemma IncludedHistory(m: Message, history: seq<ChatMessage>)
    ensures var r := MakeChatRequest(m, history);
      && (m.history == 0 ==> Prior(r, m) == [])
      && (m.history > 0 && |history| / 2 <= m.history ==> Prior(r, m) == history)
      && (m.history > 0 && |history| / 2 > m.history ==> Prior(r, m) == history[2..])
      && (m.history > 0 ==> |Prior(r, m)| >= |history| - 2)
  {
    var r := MakeChatRequest(m, history);
    var w := Window(history, m.history);
    assert r.messages == SystemPart(m.system) + w + [ChatMessage(User, m.prompt)];
    assert Prior(r, m) == w;
  }

  /** No message of the sequence has the system role. */
  predicate NoSystem(ms: seq<ChatMessage>) {
    forall i :: 0 <= i < |ms| ==> ms[i].role != System
  }

  /** With a history free of system messages (the callers only store user and assistant
      turns), a request holds a system message iff the system prompt is set, and then only as
      its first message. */
  lemma SystemFirstIff(m: Message, history: seq<ChatMessage>)
    requires NoSystem(history)
    ensures var ms := MakeChatRequest(m, history).messages;
      && ((exists i :: 0 <= i < |ms| && ms[i].role == System) <==> m.system != "")
      && (forall i :: 0 < i < |ms| ==> ms[i].role != System)
  {
    var ms := MakeChatRequest(m, history).messages;
    var w := Window(history, m.history);
    assert ms == SystemPart(m.system) + w + [ChatMessage(User, m.prompt)];
    assert NoSystem(w) by {
      if m.history > 0 && |history| / 2 > m.history {
        assert forall i :: 0 <= i < |w| ==> w[i] == history[i + 2];
      }
    }
    forall i | |SystemPart(m.system)| <= i < |ms| ensures ms[i].role != System {
      if i < |ms| - 1 {
        assert ms[i] == w[i - |SystemPart(m.system)|];
      }
    }
    if m.system != "" {
      assert ms[0].role == System;
    }
  }

  /** A complete user/assistant pair sequence: even length, user turns at even positions. */
  predicate Paired(ms: seq<ChatMessage>) {
    |ms| % 2 == 0 && forall i :: 0 <= i < |ms| && i % 2 == 0 ==> ms[i].role == User
  }

  /** Whole pairs m, whole pairs out, and one call keeps the window within the limit as long
      as the stored history exceeds it by at most one pair. */
  lemma WindowPairs(history: seq<ChatMessage>, limit: nat)
    requires Paired(history)
    ensures Paired(Window(history, limit))
    ensures |history| / 2 <= limit + 1 ==> |Window(history, limit)| / 2 <= limit
  {
    var w := Window(history, limit);
    if limit > 0 && |history| / 2 > limit {
      forall i | 0 <= i < |w| && i % 2 == 0 ensures w[i].role == User {
        assert w[i] == history[i + 2];
      }
    }
  }

  /** One drop per call: a history that exceeds the limit by two pairs still exceeds it after
      assembly, so the window bound only holds for callers that trim once per turn. */
  lemma OneDropOnly(m: Message, history: seq<ChatMessage>)
    requires m.history > 0 && |history| % 2 == 0 && |history| / 2 == m.history + 2
    ensures |Prior(MakeChatRequest(m, history), m)| / 2 == m.history + 1
  {
    IncludedHistory(m, history);
  }

  /** End-to-end scenario: system prompt, history limit 2, three stored pairs and the input "Hi"
      give [system, pair 2, pair 3, user "Hi"]. */
  lemma ScenarioDropOldestPair(u1: string, a1: string, u2: string, a2: string, u3: string, a3: string)
    ensures var m := Message("", "", "", "", "Hi", "You are helpful", false, 2, 0);
      var h := [ChatMessage(User, u1), ChatMessage(Assistant, a1), ChatMessage(User, u2),
                ChatMessage(Assistant, a2), ChatMessage(User, u3), ChatMessage(Assistant, a3)];
      MakeChatRequest(m, h).messages
        == [ChatMessage(System, "You are helpful"), ChatMessage(User, u2), ChatMessage(Assistant, a2),
            ChatMessage(User, u3), ChatMessage(Assistant, a3), ChatMessage(User, "Hi")]
  {
  }

  /** MakeChatRequest exactly as the source writes it: History is converted with int(), which
      on a 64-bit platform makes values of 2^63 and more negative; the trim test then holds for
      every history, and history[2:] on fewer than two messages panics (None). */
  function MakeChatRequestAsWritten(m: Message, history: seq<ChatMessage>): (r: Option<ChatRequest>)
    ensures m.history < 0x8000_0000_0000_0000 ==> r == Some(MakeChatRequest(m, history))
  {
    var included :=
      if m.history > 0 && |history| / 2 > GoInt(m.history) then
        (if |history| < 2 then None else Some(history[2..]))
      else if m.history > 0 then Some(history)
      else Some([]);
    if included.None? then None
    else Some(ChatRequest(
      model := m.model,
      messages := SystemPart(m.system) + included.value + [ChatMessage(User, m.prompt)],
      maxTokens := GoInt(m.maxTokens),
      stream := m.stream,
      user := m.user,
      n := 1))
  }

  /** The first request of a session (empty history) panics when History is the largest uint,
      where the unsigned comparison simply includes the empty history. */
  lemma AsWrittenPanicsOnHugeHistory(m: Message)
    requires m.history == UintLimit - 1
    ensures MakeChatRequestAsWritten(m, []) == None
    ensures Prior(MakeChatRequest(m, []), m) == []
  {
    IncludedHistory(m, []);
  }

  // ---------------------------------------------------------------------------------------
  // NewOpenAIClient

  /** The errors NewOpenAIClient returns, with the values their messages quote. */
  datatype ClientError =
    | MissedApiKey
    | InvalidBaseUrl(url: string, cause: string)
    | MissedBaseUrl
    | InvalidApiType(apiType: string)
    | InvalidProxy(proxy: string, cause: string)

  /** err.Error() of a ClientError; `quote` stands for fmt's %q verb. */
  function ErrorText(e: ClientError, quote: string -> string): string {
    match e
    case MissedApiKey => "missed api key"
    case InvalidBaseUrl(u, c) => "invalid base url: " + quote(u) + ", cause " + c
    case MissedBaseUrl => "missed base url"
    case InvalidApiType(t) => "invalid api type: " + quote(t)
    case InvalidProxy(p, c) => "invalid proxy: " + quote(p) + ", cause " + c
  }

  predicate Parses(f: Foreign, s: string) {
    f.urlParse(s).Parsed?
  }

  /** NewOpenAIClient: key, then base URL syntax, then the upper-cased api type (an empty base
      URL is fine for OPEN_AI, required for AZURE), then the proxy URL. */
  function NewOpenAIClient(apiKey: string, apiType: string, baseUrl: string, proxy: string, f: Foreign)
    : (r: Result<Client, ClientError>)
    ensures r.Success? <==>
      && apiKey != ""
      && (baseUrl == "" || Parses(f, baseUrl))
      && (ToUpper(apiType) == APITypeOpenAI || (ToUpper(apiType) == APITypeAzure && baseUrl != ""))
      && (proxy == "" || Parses(f, proxy))
    ensures apiKey == "" ==> r == Failure(MissedApiKey)
    ensures apiKey != "" && baseUrl != "" && !Parses(f, baseUrl)
      ==> r == Failure(InvalidBaseUrl(baseUrl, f.urlParse(baseUrl).cause))
    ensures r.Failure? && r.error.InvalidApiType? ==> ToUpper(apiType) !in {APITypeOpenAI, APITypeAzure}
    ensures r.Failure? && r.error == MissedBaseUrl ==> ToUpper(apiType) == APITypeAzure && baseUrl == ""
    ensures r.Failure? && r.error.InvalidProxy? ==> r.error.proxy == proxy && proxy != "" && !Parses(f, proxy)
    ensures r.Success? ==>
      && r.value.apiKey == apiKey
      && r.value.kind == (if ToUpper(apiType) == APITypeOpenAI then OpenAIKind else AzureKind)
      && r.value.baseUrl == (if baseUrl == "" then None else Some(baseUrl))
      && r.value.proxy == (if proxy == "" then None else Some(proxy))
  {
    if apiKey == "" then Failure(MissedApiKey)
    else if baseUrl != "" && f.urlParse(baseUrl).ParseFailed? then
      Failure(InvalidBaseUrl(baseUrl, f.urlParse(baseUrl).cause))
    else
      var kind :=
        if ToUpper(apiType) == APITypeOpenAI then Success(OpenAIKind)
        else if ToUpper(apiType) == APITypeAzure then
          (if baseUrl == "" then Failure(MissedBaseUrl) else Success(AzureKind))
        else Failure(InvalidApiType(apiType));
      if kind.Failure? then Failure(kind.error)
      else if proxy != "" && f.urlParse(proxy).ParseFailed? then
        Failure(InvalidProxy(proxy, f.urlParse(proxy).cause))
      else
        Success(Client(kind.value, apiKey, if baseUrl == "" then None else Some(baseUrl),
                       if proxy == "" then None else Some(proxy)))
  }

  /** The api type is matched case-insensitively: "azure" and "Open_Ai" select the same
      clients as their upper-case spellings, while AZURE_AD is rejected. */
  lemma ApiTypeCaseInsensitive(apiKey: string, apiType: string, baseUrl: string, proxy: string, f: Foreign)
    ensures NewOpenAIClient(apiKey, apiType, baseUrl, proxy, f).Success?
        == NewOpenAIClient(apiKey, ToUpper(apiType), baseUrl, proxy, f).Success?
    ensures apiKey != "" && (baseUrl == "" || Parses(f, baseUrl)) && ToUpper(apiType) == APITypeAzureAD
      ==> NewOpenAIClient(apiKey, apiType, baseUrl, proxy, f) == Failure(InvalidApiType(apiType))
  {
    ToUpperIdempotent(apiType);
  }
}
