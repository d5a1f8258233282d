/** What the three command-line conversation loops share: the outcome of one `chatCompletion`
    (internal/console/chat.go and pkg/ai/chat.go read a streamed reply from the first choice of
    every chunk, or take the first choice of a whole reply), and the `BuildClient` guard chain
    of pkg/ai/chat.go and pkg/chatgpt/chatgpt.go, which only differ in their error texts. */
module Cli {
  import opened Base
  import opened Text
  import opened OpenAI

  // ---------------------------------------------------------------------------------------
  // One completion

  /** What chatCompletion gives back: the reply message, no reply (an error was printed), or a
      panic from indexing Choices[0] of a chunk or a reply without choices. */
  datatype Answer = Answered(msg: ChatMessage) | NoAnswer | Panicked

  /** How a scanner loop stops: "q" (console only), the end of the input, a panic in
      chatCompletion, or a panic building the request (console only: history[2:] of a history
      shorter than two messages). */
  datatype SessionEnd = Quit | InputEnd | Panic | RequestPanic

  /** One request of a conversation: the line used as prompt, the request sent, its answer. */
  datatype Exchange = Exchange(prompt: string, request: ChatRequest, answer: Answer)

  /** A conversation: the stored history at its end, the exchanges in order, how it ended. */
  datatype Session = Session(history: seq<ChatMessage>, exchanges: seq<Exchange>, end: SessionEnd)

  /** The exchanges `done` made before a session r. */
  function Prepend(done: seq<Exchange>, r: Session): Session {
    r.(exchanges := done + r.exchanges)
  }

  lemma PrependCons(done: seq<Exchange>, e: Exchange, rest: Session)
    ensures Prepend(done, Prepend([e], rest)) == Prepend(done + [e], rest)
  {
    assert done + ([e] + rest.exchanges) == (done + [e]) + rest.exchanges;
  }

  /** The exchanges answered. */
  function Successes(es: seq<Exchange>): (n: nat)
    ensures n <= |es|
  {
    if es == [] then 0 else (if es[0].answer.Answered? then 1 else 0) + Successes(es[1..])
  }

  /** Every chunk of the stream has at least one choice. */
  predicate AllHaveChoice(chunks: seq<seq<string>>) {
    forall i :: 0 <= i < |chunks| ==> chunks[i] != []
  }

  /** The Delta.Content of the first choice of every chunk. */
  function Firsts(chunks: seq<seq<string>>): (r: seq<string>)
    requires AllHaveChoice(chunks)
    ensures |r| == |chunks|
    ensures forall i :: 0 <= i < |chunks| ==> r[i] == chunks[i][0]
  {
    if chunks == [] then [] else Firsts(chunks[..|chunks| - 1]) + [chunks[|chunks| - 1][0]]
  }

  /** The answer of one chatCompletion call given what the SDK does with the request. */
  function Reply(stream: bool, up: Upstream): (r: Answer)
    ensures stream && r.Answered? ==> r.msg.role == Assistant
    ensures r.Panicked? <==>
      if stream then up.createErr.None? && !AllHaveChoice(up.chunks) else up.reply == Success([])
    ensures r.NoAnswer? <==>
      if stream then up.createErr.Some? || (AllHaveChoice(up.chunks) && up.end.RecvFailed?)
      else up.reply.Failure?
    ensures !stream && up.reply.Success? && up.reply.value != [] ==> r == Answered(up.reply.value[0])
  {
    if stream then
      if up.createErr.Some? then NoAnswer
      else if !AllHaveChoice(up.chunks) then Panicked
      else if up.end == Eof then Answered(ChatMessage(Assistant, Concat(Firsts(up.chunks))))
      else NoAnswer
    else if up.reply.Failure? then NoAnswer
    else if up.reply.value == [] then Panicked
    else Answered(up.reply.value[0])
  }

  lemma FirstsPrefix(chunks: seq<seq<string>>, i: nat)
    requires i < |chunks| && AllHaveChoice(chunks[..i + 1])
    ensures AllHaveChoice(chunks[..i])
    ensures Firsts(chunks[..i + 1]) == Firsts(chunks[..i]) + [chunks[i][0]]
  {
    assert chunks[..i + 1][..i] == chunks[..i];
  }

  /** One more chunk read: the builder grows by that chunk's first delta. */
  lemma ReadStep(chunks: seq<seq<string>>, i: nat)
    requires i < |chunks| && AllHaveChoice(chunks[..i]) && chunks[i] != []
    ensures AllHaveChoice(chunks[..i + 1])
    ensures Concat(Firsts(chunks[..i + 1])) == Concat(Firsts(chunks[..i])) + chunks[i][0]
  {
    var pre := chunks[..i + 1];
    assert AllHaveChoice(pre) by {
      forall j | 0 <= j < |pre| ensures pre[j] != [] {
        if j < i {
          assert pre[j] == chunks[..i][j];
        }
      }
    }
    FirstsPrefix(chunks, i);
    ConcatPrefix(Firsts(chunks[..i + 1]), i);
  }

  /** The Recv loop of chatCompletion: accumulates the first choice's delta of every chunk in
      a builder; None when a chunk without choices makes Choices[0] panic. */
  method ReadStream(chunks: seq<seq<string>>) returns (r: Option<string>)
    ensures r.None? <==> !AllHaveChoice(chunks)
    ensures r.Some? ==> AllHaveChoice(chunks) && r.value == Concat(Firsts(chunks))
  {
    var sb := "";
    var i := 0;
    while i < |chunks|
      invariant i <= |chunks| && AllHaveChoice(chunks[..i])
      invariant sb == Concat(Firsts(chunks[..i]))
    {
      var choices := chunks[i];
      if choices == [] {
        assert !AllHaveChoice(chunks);
        return None;
      }
      ReadStep(chunks, i);
      sb := sb + choices[0];
      i := i + 1;
    }
    assert chunks[..i] == chunks;
    return Some(sb);
  }

  /** chatCompletion: a streamed reply is read until io.EOF, which returns the accumulated
      text as an assistant message, while any other error returns nothing; a whole reply
      returns its first choice. */
  method ChatCompletion(stream: bool, up: Upstream) returns (a: Answer)
    ensures a == Reply(stream, up)
    ensures stream && a.Answered? ==> a.msg.content == Concat(Firsts(up.chunks))
  {
    if stream {
      if up.createErr.Some? {
        return NoAnswer;
      }
      var text := ReadStream(up.chunks);
      if text.None? {
        return Panicked;
      }
      if up.end.RecvFailed? {
        return NoAnswer;
      }
      return Answered(ChatMessage(Assistant, text.value));
    }
    if up.reply.Failure? {
      return NoAnswer;
    }
    if up.reply.value == [] {
      return Panicked;
    }
    return Answered(up.reply.value[0]);
  }

  // ---------------------------------------------------------------------------------------
  // BuildClient

  /** ErrInvalidAPIKey, ErrInvalidBaseURL, ErrInvalidAPIType and ErrInvalidProxy. */
  datatype BuildError = ErrInvalidAPIKey | ErrInvalidBaseURL | ErrInvalidAPIType | ErrInvalidProxy

  /** The sentinel texts of pkg/ai/error.go. */
  function AiErrorText(e: BuildError): string {
    match e
    case ErrInvalidAPIKey => "invalid api key"
    case ErrInvalidAPIType => "invalid api type"
    case ErrInvalidBaseURL => "invalid base URL"
    case ErrInvalidProxy => "invalid proxy"
  }

  /** The sentinel texts of pkg/chatgpt/error.go, which spell key and type with underscores. */
  function ChatgptErrorText(e: BuildError): string {
    match e
    case ErrInvalidAPIKey => "invalid api_key"
    case ErrInvalidAPIType => "invalid api_type"
    case ErrInvalidBaseURL => "invalid base URL"
    case ErrInvalidProxy => "invalid proxy"
  }

  /** BuildClient: the key and the base URL must both be non-empty (checked in that order),
      the type must be exactly OPEN_AI or AZURE (no case folding: the two packages differ from
      NewOpenAIClient here), and a non-empty proxy must parse. The base URL itself is never
      parsed. */
  function BuildClient(apiKey: string, apiType: string, baseUrl: string, proxy: string, f: Foreign)
    : (r: Result<Client, BuildError>)
    ensures r.Success? <==>
      apiKey != "" && baseUrl != "" && apiType in {APITypeOpenAI, APITypeAzure}
      && (proxy == "" || f.urlParse(proxy).Parsed?)
    ensures apiKey == "" ==> r == Failure(ErrInvalidAPIKey)
    ensures apiKey != "" && baseUrl == "" ==> r == Failure(ErrInvalidBaseURL)
    ensures r == Failure(ErrInvalidAPIType) <==>
      apiKey != "" && baseUrl != "" && apiType !in {APITypeOpenAI, APITypeAzure}
    ensures r == Failure(ErrInvalidProxy) ==> proxy != "" && f.urlParse(proxy).ParseFailed?
    ensures r.Success? ==>
      && r.value.apiKey == apiKey && r.value.baseUrl == Some(baseUrl)
      && r.value.kind == (if apiType == APITypeOpenAI then OpenAIKind else AzureKind)
      && r.value.proxy == (if proxy == "" then None else Some(proxy))
  {
    if apiKey == "" then Failure(ErrInvalidAPIKey)
    else if baseUrl == "" then Failure(ErrInvalidBaseURL)
    else
      var kind :=
        if apiType == APITypeOpenAI then Some(OpenAIKind)
        else if apiType == APITypeAzure then Some(AzureKind)
        else None;
      if kind.None? then Failure(ErrInvalidAPIType)
      else if proxy != "" && f.urlParse(proxy).ParseFailed? then Failure(ErrInvalidProxy)
      else Success(Client(kind.value, apiKey, Some(baseUrl), if proxy == "" then None else Some(proxy)))
  }

  /** Unlike the web client builder, BuildClient is case-sensitive: the lower-case spelling of
      a valid type is rejected. */
  lemma BuildClientCaseSensitive(apiKey: string, baseUrl: string, f: Foreign)
    requires apiKey != "" && baseUrl != ""
    ensures BuildClient(apiKey, "open_ai", baseUrl, "", f) == Failure(ErrInvalidAPIType)
    ensures BuildClient(apiKey, "azure", baseUrl, "", f) == Failure(ErrInvalidAPIType)
    ensures BuildClient(apiKey, "AZURE_AD", baseUrl, "", f) == Failure(ErrInvalidAPIType)
  {
    assert "open_ai" != APITypeOpenAI && "open_ai" != APITypeAzure;
    assert "azure" != APITypeOpenAI && "azure" != APITypeAzure;
    assert "AZURE_AD" != APITypeOpenAI && "AZURE_AD" != APITypeAzure;
  }
}
