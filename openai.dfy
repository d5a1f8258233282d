/** The vocabulary of the go-openai SDK that the core uses: message roles, chat messages, the
    chat completion request, the api type names, the model name used as a default, and the
    outcomes of the SDK's network calls, which the model takes as inputs. */
module OpenAI {
  import opened Base
  import opened Text

  /** openai.ChatMessageRoleSystem / User / Assistant. */
  datatype Role = System | User | Assistant

  /** openai.ChatCompletionMessage: a role and a text. */
  datatype ChatMessage = ChatMessage(role: Role, content: string)

  /** openai.ChatCompletionRequest, without the floating-point sampling parameters
      (temperature 0.7, top-p 1 and zero penalties everywhere in the core). */
  datatype ChatRequest = ChatRequest(
    model: string,
    messages: seq<ChatMessage>,
    maxTokens: int,
    stream: bool,
    user: string,
    n: nat)

  const APITypeOpenAI: string := "OPEN_AI"
  const APITypeAzure: string := "AZURE"
  const APITypeAzureAD: string := "AZURE_AD"

  /** openai.GPT3Dot5Turbo. */
  const GPT3Dot5Turbo: string := "gpt-3.5-turbo"

  /** The two client configurations the core builds: openai.DefaultConfig and
      openai.DefaultAzureConfig. */
  datatype ApiKind = OpenAIKind | AzureKind

  /** An SDK client as configured by the core: its kind, key, base URL (None keeps the SDK's
      default endpoint) and the proxy URL its HTTP transport uses (None: no proxy set). */
  datatype Client = Client(kind: ApiKind, apiKey: string, baseUrl: Option<string>, proxy: Option<string>)

  // ---------------------------------------------------------------------------------------
  // Outcomes of the SDK calls

  /** One link of a Go error's wrap chain, as errors.As sees it: an *openai.RequestError, an
      *openai.APIError with its HTTP status code, a *url.Error with the result of Timeout(), or
      an error of any other type. */
  datatype ErrLink = RequestErrLink | ApiErrLink(status: int) | UrlErrLink(timeout: bool) | OtherLink

  /** An error returned by the SDK: its wrap chain (outermost first) and its Error() text. */
  datatype UpstreamError = UpstreamError(chain: seq<ErrLink>, text: string)

  /** How a stream reader's Recv loop ends: io.EOF, or another error with its Error() text. */
  datatype StreamEnd = Eof | RecvFailed(text: string)

  /** What the SDK does with one request.
      - createErr: the error of CreateChatCompletionStream, if any;
      - chunks: for each chunk Recv returns, the Delta.Content of each of its choices;
      - end: how Recv stops after the chunks;
      - reply: the ChatCompletionResponse.Choices messages of CreateChatCompletion, or its error. */
  datatype Upstream = Upstream(
    createErr: Option<UpstreamError>,
    chunks: seq<seq<string>>,
    end: StreamEnd,
    reply: Result<seq<ChatMessage>, UpstreamError>)

  /** The non-empty strings of xs, in order. */
  function NonEmpty(xs: seq<string>): (r: seq<string>)
    ensures |r| <= |xs|
  {
    if xs == [] then []
    else NonEmpty(xs[..|xs| - 1]) + (if xs[|xs| - 1] != [] then [xs[|xs| - 1]] else [])
  }

  /** The non-empty Delta.Content values of every choice of every chunk, in arrival order. */
  function Deltas(chunks: seq<seq<string>>): seq<string> {
    if chunks == [] then [] else Deltas(chunks[..|chunks| - 1]) + NonEmpty(chunks[|chunks| - 1])
  }

  /** No string NonEmpty keeps is empty. */
  lemma {:induction false} NonEmptyHasNoEmpty(xs: seq<string>)
    ensures forall i :: 0 <= i < |NonEmpty(xs)| ==> NonEmpty(xs)[i] != []
  {
    if xs != [] {
      var n := |xs| - 1;
      NonEmptyHasNoEmpty(xs[..n]);
      var prev, last := NonEmpty(xs[..n]), if xs[n] != [] then [xs[n]] else [];
      assert NonEmpty(xs) == prev + last;
      forall i | 0 <= i < |prev + last| ensures (prev + last)[i] != [] {
        if i < |prev| {
          assert (prev + last)[i] == prev[i];
        }
      }
    }
  }

  /** No token the stream relays is empty. */
  lemma {:induction false} DeltasHaveNoEmpty(chunks: seq<seq<string>>)
    ensures forall i :: 0 <= i < |Deltas(chunks)| ==> Deltas(chunks)[i] != []
  {
    if chunks != [] {
      var n := |chunks| - 1;
      DeltasHaveNoEmpty(chunks[..n]);
      NonEmptyHasNoEmpty(chunks[n]);
      var prev, last := Deltas(chunks[..n]), NonEmpty(chunks[n]);
      assert Deltas(chunks) == prev + last;
      forall i | 0 <= i < |prev + last| ensures (prev + last)[i] != [] {
        if i < |prev| {
          assert (prev + last)[i] == prev[i];
        } else {
          assert (prev + last)[i] == last[i - |prev|];
        }
      }
    }
  }

  /** Dropping the empty strings does not change the concatenated text. */
  lemma {:induction false} NonEmptyConcat(xs: seq<string>)
    ensures Concat(NonEmpty(xs)) == Concat(xs)
  {
    if xs != [] {
      var n := |xs| - 1;
      NonEmptyConcat(xs[..n]);
      ConcatAppend(NonEmpty(xs[..n]), if xs[n] != [] then [xs[n]] else []);
    }
  }

  /** Deltas keeps every non-empty fragment exactly once and in order, so its text is the
      concatenation of every choice's content. */
  lemma {:induction false} DeltasConcat(chunks: seq<seq<string>>)
    ensures Concat(Deltas(chunks)) == Concat(seq(|chunks|, i requires 0 <= i < |chunks| => Concat(chunks[i])))
  {
    if chunks != [] {
      var n := |chunks| - 1;
      DeltasConcat(chunks[..n]);
      ConcatAppend(Deltas(chunks[..n]), NonEmpty(chunks[n]));
      NonEmptyConcat(chunks[n]);
      var all := seq(|chunks|, i requires 0 <= i < |chunks| => Concat(chunks[i]));
      var front := seq(n, i requires 0 <= i < n => Concat(chunks[..n][i]));
      assert all[..n] == front;
    }
  }
}
