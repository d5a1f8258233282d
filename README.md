# aichat, modelled in Dafny

aichat is a small Go program that talks to OpenAI-style chat completion services. It has
three console chat loops and two HTTP handlers that relay a reply to the browser. The
handlers use either a server-sent-events hub or an event stream written straight into the
response. Around these sit a configuration loader and a few web utilities. This project
models the sequential logic of that core, with one Dafny module per Go file or package:

- **Request assembly.** `ChatgptClient` builds the message list from the system prompt, the
  history window and the user prompt. It also has the client-construction guard chain.
- **Conversation loops.** There are three, each a method with a loop proved against a
  recursive specification function:
  - `ConsoleChat`: the console's history grows without bound.
  - `AiChat`: `pkg/ai` keeps a trimmed history window.
  - `ChatgptChat`: `pkg/chatgpt` keeps an unbounded transcript that also retains failed user
    turns.
- **Replies and client checks, shared.** `Cli` holds the reply reader and the stricter
  `BuildClient` guard chain that the command-line packages share.
- **Configuration.** `Config` has the defaults, log setup and the OpenAI settings check. The
  process-wide default configuration and logger are the class `Globals`.
- **Upstream relay.** `ChatgptHttp` covers:
  - the error classifier;
  - the token trace the producer sends on a channel, a class of its own;
  - the two sinks that consume it. One publishes to a hub, modelled as a publication log.
    The other writes event-stream frames.
- **Event-stream parser.** `EventStream` is an independent parser for the event-stream format
  of section 9.2.6 ("Interpreting an event stream") of the WHATWG HTML Living Standard. It
  proves what a browser reads back from the frames.
- **HTTP.** `Http` models the parts of `net/http` the handlers use. A response writer is a
  class: its header map, cookies, status, body, flush and write counts, and how many writes
  the connection accepts. The request is a value.
- **Handlers.** `ChatHandler` covers the chat page and the two prompt handlers: form
  decoding, stream-id cookies, the prompt echo, the event-stream headers and the template-map
  values.
- **Utilities.**
  - `Render`: the allowed status codes, header setters, template loading and the `HtmlStatus`
    decision.
  - `RealIp`: the client address.
  - `RequestId`: UUID to 32 hexadecimal digits, Base16 as in section 8 of RFC 4648, over the
    field groups of section 3 of RFC 4122 without hyphens.
  - `TemplateMaps`: the template map and its `Title` rule.
  - `Web`: the counting response-writer wrapper.
  - `Project`: the file-name helper.
- **Base and Text.** `Base` holds options, results and Go's `int(uint)` conversion. `Text`
  holds the `strings` and `strconv` functions the core relies on.

These are inputs, not re-implementations:
- foreign pure functions: `url.Parse`, `%q`, `fmt.Sprintf`, `filepath.Dir`,
  `net.SplitHostPort` and the template engine's parse and execute;
- what the SDK returns for a request: the `Upstream` datatype;
- the UUIDs `uuid.New` would draw;
- the file-system walk.

Concurrency is fixed to one interleaving, described by two indices:
- `cancelAt`: the loop check at which the producer sees its request context cancelled;
- `stopAt`: the number of tokens a sink takes before it sees the cancellation.

## Model

| member | source | states |
|---|---|---|
| Base.GoInt | internal/chatgpt/client.go:116 | `int(u)` on 64 bits. The result is in the signed 64-bit range. It equals `u` exactly when `u < 2^63`, and it is negative exactly when `u >= 2^63`. |
| Text.Replace | internal/chatgpt/http.go:216 | `strings.Replace(s, c, rep, -1)`. Without `c` in `s` the text is unchanged. When `rep` has no `c`, the result has none either. |
| Text.ReplaceChars | internal/chatgpt/http.go:216 | Every character of the result comes from `rep` or is a character of `s` other than `c`. |
| Text.ReplaceAppend | internal/chatgpt/http.go:216 | Replacing distributes over concatenation. |
| Text.Remove | internal/chatgpt/http.go:192 | Deleting every `c` leaves no `c`. A text without `c` is unchanged. |
| Text.TrimLeft | internal/console/chat.go:46 | The result is a suffix of `s` that does not start with a space. Every dropped character is a space. |
| Text.TrimRight | internal/console/chat.go:46 | The result is a prefix of `s` that does not end with a space. Every dropped character is a space. |
| Text.TrimSpace | internal/console/chat.go:46 | The result is an infix of `s` with only spaces around it. It neither starts nor ends with a space. |
| Text.TrimSpaceEmpty | pkg/ai/chat.go:114 | A line trims to "" exactly when every character is white space. |
| Text.ToUpper | internal/chatgpt/client.go:49 | Upper-casing keeps the length. |
| Text.UpperMatches | internal/chatgpt/client.go:49 | For a keyword in capitals, digits and `_`, `ToUpper(s) == k` holds exactly when `s` spells `k` in any mix of cases. This includes the two non-ASCII letters whose upper case is `I` or `S`. |
| Text.ToUpperIdempotent | internal/chatgpt/client.go:49 | Upper-casing twice is upper-casing once. |
| Text.DigitChar | internal/handler/chat/msg.go:97 | The character for a value below ten is a decimal digit, and its offset from '0' is that value. |
| Text.Decimal | internal/handler/chat/msg.go:97 | `strconv.FormatUint(n, 10)`: at least one digit, all decimal, with no leading zero. |
| Text.DecimalValue | internal/handler/chat/msg.go:97 | The digits of `Decimal(n)` read back as `n`. |
| Text.Itoa | internal/handler/chat/chat.go:42 | `strconv.Itoa` gives at least one character. |
| Text.ParseUint | internal/handler/chat/sse_msg.go:65 | `ParseUint(s, 10, 0)` succeeds exactly for a non-empty all-digit text below 2^64, and its value is that of the digits. |
| Text.ParseFormatUint | internal/handler/chat/sse_msg.go:65 | ParseUint reads back what FormatUint writes, for every 64-bit value. |
| Text.SpellingsDisjoint | internal/handler/chat/sse_msg.go:56 | No text is both a true spelling and a false spelling of strconv.ParseBool. |
| Text.ParseBoolIff | internal/handler/chat/sse_msg.go:56 | `ParseBool(s) == Some(b)` exactly for `b`'s six spellings. Every other text is an error. |
| Text.ParseFormatBool | internal/handler/chat/msg.go:95 | ParseBool reads back what FormatBool writes. |
| OpenAI.NonEmpty | internal/chatgpt/http.go:151-155 | Filtering the empty deltas never lengthens the list. |
| OpenAI.NonEmptyHasNoEmpty | internal/chatgpt/http.go:151-155 | No relayed delta of a chunk is empty. |
| OpenAI.DeltasHaveNoEmpty | internal/chatgpt/http.go:124-156 | No token of a whole stream is empty. |
| OpenAI.NonEmptyConcat | internal/chatgpt/http.go:151-155 | Dropping the empty deltas does not change the concatenated text. |
| OpenAI.DeltasConcat | internal/chatgpt/http.go:124-156 | The relayed tokens of a stream concatenate to the text of all its choices, chunk by chunk. |
| ChatgptClient.SystemPart | internal/chatgpt/client.go:86-95 | There is one system message exactly when the system prompt is non-empty, else none. |
| ChatgptClient.MakeChatRequest | internal/chatgpt/client.go:80-122 | Length is the system part, plus the included history, plus one. The last message is the user prompt, and the first is the system message when one is set. Model, stream and user are copied, MaxTokens goes through `int`, and `N` is 1. |
| ChatgptClient.IncludedHistory | internal/chatgpt/client.go:97-102 | History 0 includes nothing. Otherwise the whole history is included when its pairs are within the limit, else exactly `history[2:]`, so at most one pair is dropped. |
| ChatgptClient.SystemFirstIff | internal/chatgpt/client.go:86-95 | For a history without system messages, the request has a system message exactly when `System != ""`, and only at position 0. |
| ChatgptClient.WindowPairs | internal/chatgpt/client.go:97-102 | Whole user/assistant pairs go in and whole pairs come out. One call keeps the window within the limit when the history exceeds it by at most one pair. |
| ChatgptClient.OneDropOnly | internal/chatgpt/client.go:98-101 | With limit+2 stored pairs, the request still carries limit+1 pairs: only one pair is dropped. |
| ChatgptClient.ScenarioDropOldestPair | internal/chatgpt/client.go:80-122 | With three stored pairs and limit 2, the request is system, pairs 2 and 3, then the prompt. |
| ChatgptClient.MakeChatRequestAsWritten | internal/chatgpt/client.go:97-102 | The code as written, with `int(in.History)` on 64 bits, where None stands for the panic of `history[2:]`. It agrees with MakeChatRequest for every History below 2^63. |
| ChatgptClient.AsWrittenPanicsOnHugeHistory | internal/chatgpt/client.go:98-101 | With History = 2^64-1 and an empty history, the code as written panics, while the intended window is empty. |
| ChatgptClient.NewOpenAIClient | internal/chatgpt/client.go:38-77 | Succeeds exactly when all of these hold: the key is non-empty; the base URL is empty or parses; the upper-cased type is OPEN_AI, or AZURE with a base URL; the proxy is empty or parses. An empty key fails first, with MissedApiKey. A bad base URL fails next, with its parse cause. An invalid-type error means the upper-cased type is neither keyword. |
| ChatgptClient.ApiTypeCaseInsensitive | internal/chatgpt/client.go:49-64 | Success does not depend on the type's case. AZURE_AD, in any case, is rejected as an invalid api type. |
| Cli.Firsts | internal/console/chat.go:91 | One delta per chunk: the first choice's content, in order. |
| Cli.Reply | internal/console/chat.go:63-106 | Both `chatCompletion` functions, which differ only in what they print (the other is pkg/ai/chat.go:145-196). A streamed call panics exactly when the stream opens and some chunk has no choice. A non-streamed call panics exactly when the reply has no choices. There is no answer exactly when creating the request, or a Recv other than EOF, fails. A streamed answer has the assistant role. A non-streamed answer is the first choice's message. |
| Cli.ReadStream | internal/console/chat.go:74-94 | The Recv loop. None exactly when some chunk has no choice; otherwise the builder holds the first-choice deltas concatenated. |
| Cli.ChatCompletion | internal/console/chat.go:63-106 | The method computes `Reply`. A streamed answer's content is the concatenation of the first-choice deltas. |
| Cli.BuildClient | pkg/ai/chat.go:42-75 | Shared with pkg/chatgpt/chatgpt.go:29-65. Succeeds exactly when the key and the base URL are non-empty, the type is exactly OPEN_AI or AZURE, and the proxy is empty or parses. The errors come in the order key, base URL, type, proxy. |
| Cli.BuildClientCaseSensitive | pkg/ai/chat.go:52-62 | `open_ai`, `azure` and `AZURE_AD` are all rejected as an invalid api type: there is no case folding. |
| ConsoleChat.Exchanged | internal/console/chat.go:51-53 | The exchange for a line carries the trimmed line as prompt and the request that MakeChatRequest, as written, builds from the stored history. Its answer is `Reply`. There is no exchange exactly when building the request panics. Below a History of 2^63 the request is the intended one. |
| ConsoleChat.RunLine | internal/console/chat.go:45-60 | One line of the session: a blank line is skipped and "q" quits. A request that cannot be built ends the session with a panic. So does a panicking reply. Any other reply continues from the history extended by that turn. |
| ConsoleChat.AdvanceSkip | internal/console/chat.go:46-47 | A blank line keeps the loop invariant with the same history. |
| ConsoleChat.AdvanceQuit | internal/console/chat.go:48-50 | "q" ends the session with the exchanges so far and the current history. |
| ConsoleChat.AdvanceRequestPanic | internal/console/chat.go:52 | A request that cannot be built ends the session with a panic, before any exchange is made for that line. |
| ConsoleChat.AdvancePanic | internal/console/chat.go:52-53 | A reply without choices ends the session after that exchange. |
| ConsoleChat.AdvanceStep | internal/console/chat.go:51-57 | A completed turn keeps the invariant, with the history extended by its user message and reply. |
| ConsoleChat.Finish | internal/console/chat.go:45-60 | At the end of input, the loop state is the session. |
| ConsoleChat.Ask | internal/console/chat.go:51-57 | One request, built as written: no exchange when building it panics. Otherwise the exchange is made, and the history gains the user message and the reply when there is one. |
| ConsoleChat.Line | internal/console/chat.go:46-59 | One pass of the scanner loop keeps the invariant or returns the whole session, including the session that ends with a request panic. `in.Prompt` is the only field it changes. |
| ConsoleChat.Chat | internal/console/chat.go:33-61 | The loop's result is the session specification `Run` over the input lines, whose requests are built as written. |
| ConsoleChat.RunShape | internal/console/chat.go:45-60 | Every session stores the history extended by exactly its turns. Each request is built from the history as it stood. Prompts are non-blank and not "q". Streamed replies are assistant messages. Only the last exchange can panic. A request fails to build only for a History of 2^63 or more. |
| ConsoleChat.TurnsShape | internal/console/chat.go:55-56 | The turns form user/assistant pairs, two messages per answered exchange. Assistant roles hold for streamed answers. |
| ConsoleChat.SessionHistory | internal/console/chat.go:55-56 | From an empty start, the history is paired, has twice as many messages as answered exchanges, and alternates user/assistant when streaming. |
| ConsoleChat.AllButOldestPair | internal/console/chat.go:52-56 | The console never trims. With n stored pairs above the limit, a request carries exactly `h[2..]`, which is n-1 pairs, between the system message and the prompt. The as-written builder gives the same request. |
| ConsoleChat.HugeHistoryPanicsAtOnce | internal/console/chat.go:52 | With History = 2^64-1, the first non-blank line other than "q" ends the session with a request panic. |
| AiChat.RunLine | pkg/ai/chat.go:112-142 | One line: a blank line is skipped. A panic ends the session with the trimmed history. Otherwise the session continues from the trimmed history plus the turn when answered. |
| AiChat.AdvanceSkip | pkg/ai/chat.go:114 | A blank line keeps the loop invariant. |
| AiChat.AdvancePanic | pkg/ai/chat.go:135 | A panic ends the session, with the trimmed history, after that exchange. |
| AiChat.AdvanceStep | pkg/ai/chat.go:114-139 | A turn keeps the invariant, with the history after the turn. |
| AiChat.Finish | pkg/ai/chat.go:112-142 | At the end of input, the loop state is the session. |
| AiChat.Turn | pkg/ai/chat.go:114-139 | One turn computes the exchange, the trimmed history, and the history after the turn. |
| AiChat.Line | pkg/ai/chat.go:112-142 | One pass keeps the invariant or returns the whole session. |
| AiChat.Chat | pkg/ai/chat.go:77-143 | The loop's result is the session specification `Run` over the input lines. |
| AiChat.KeptStored | pkg/ai/chat.go:121-126 | Trimming a well-formed stored history, at most limit+1 pairs, leaves whole pairs and at most `history` of them. |
| AiChat.RequestParts | pkg/ai/chat.go:115-133 | The request is the system part, then the trimmed history (none when the setting is not positive), then the line as typed. |
| AiChat.TurnStored | pkg/ai/chat.go:114-139 | A turn assembles its request as described and keeps the stored history within limit+1 pairs, and the trimmed history is well formed even when the reply panics. With the setting off, the history grows by exactly the answered pair. |
| AiChat.RunShaped | pkg/ai/chat.go:112-142 | Every session keeps the history well formed and within the bound. Each request carries at most `history` pairs (none when the setting is off) and ends with the untrimmed line. |
| AiChat.SessionBounds | pkg/ai/chat.go:121-139 | From an empty start: the history stays paired and within limit+1 pairs. Requests are assembled as described. With the setting off, the history holds two messages per answered exchange. |
| AiChat.FailedTurnStillTrims | pkg/ai/chat.go:121-139 | The history loses its oldest pair even when the reply then fails. |
| ChatgptChat.RunLine | pkg/chatgpt/chatgpt.go:95-113 | One line: the line is appended as a user message. A reply without choices ends the conversation. A failure keeps the user message only. A success adds the reply. |
| ChatgptChat.Start | pkg/chatgpt/chatgpt.go:77-86 | The loop starts from the system part alone. |
| ChatgptChat.Advance | pkg/chatgpt/chatgpt.go:95-113 | Each line, including an empty one, extends the transcript and the requests sent. The cases are as in RunLine. |
| ChatgptChat.Finish | pkg/chatgpt/chatgpt.go:95-113 | At the end of input, the loop state is the conversation. |
| ChatgptChat.Line | pkg/chatgpt/chatgpt.go:95-112 | One pass keeps the invariant or returns the ended conversation. |
| ChatgptChat.Chat | pkg/chatgpt/chatgpt.go:67-114 | The loop's result is the conversation specification `Run`, from the system part. |
| ChatgptChat.RunGrown | pkg/chatgpt/chatgpt.go:95-113 | The transcript only grows. Every request is a prefix of it and ends with its line. Without a panic, the transcript has one message per line plus one per success. |
| ChatgptChat.TranscriptGrowth | pkg/chatgpt/chatgpt.go:77-113 | The transcript starts with the system message exactly when a prompt is set, otherwise with the first line. Without a panic, its length is the system part, plus one per line, plus one per success. Every request ends with its line. |
| ChatgptChat.ConsecutiveUserMessages | pkg/chatgpt/chatgpt.go:102-106 | After a failed completion, the next request ends with two user messages in a row. |
| Config.AppConfig.constructor | internal/config/config.go:92-95 | AppConfig's fields as given. |
| Config.LogConfig.constructor | internal/config/config.go:98-102 | LogConfig's fields as given. |
| Config.HttpServerConfig.constructor | internal/config/config.go:105-107 | `new(HttpServerConfig)`: port 0. |
| Config.OpenAIConfig.constructor | internal/config/config.go:110-120 | `new(OpenAIConfig)`: every field at its zero value. |
| Config.Config.constructor | internal/config/config.go:72-77 | Config's four parts as given. |
| Config.New | internal/config/config.go:49-69 | Fresh parts. `Dir` is `appDirIn` when that is non-empty, else the directory of the executable path. Log defaults are caller off, "info" and "text". Everything else is zero. |
| Config.ParseLevel | internal/config/config.go:130-143 | A level exactly for DEBUG, INFO, WARN or ERROR after upper-casing, and its name is that text. |
| Config.FormatOf | internal/config/config.go:147-161 | JSON exactly for any case of "json", else TEXT. |
| Config.LevelCaseInsensitive | internal/config/config.go:130-143 | The level is `l` exactly when the text spells `l`'s name in any case. Anything else gives INFO. |
| Config.WarningsAsWritten | internal/config/config.go:130-161 | As written, a valid level produces no warning at all, whatever the format. |
| Config.Warnings | internal/config/config.go:130-161 | Corrected: one warning for an invalid level and one for an invalid format, level first. |
| Config.FormatWarningLost | internal/config/config.go:155-160 | Level "info" with format "xml": the code as written gives TEXT with no warning, while the evident intent warns about the format. |
| Config.WarningsAgree | internal/config/config.go:155-160 | The two agree whenever the level is invalid or the format is valid. |
| Config.Globals.constructor | internal/config/config.go:32-36 | `init`: the default Config is `New("")`, and the logger is slog's default (INFO, no caller, default output). |
| Config.Globals.SetupLog | internal/config/config.go:122-169 | Installs the logger for the level and format read case-insensitively, with the caller flag. The warnings are collected as the source does: a format warning only together with a level warning. Their join is logged once when any exist. The default config is unchanged. |
| Config.Globals.Setup | internal/config/config.go:198-210 | Logging is configured first, with the warnings as written. The check's error is returned. The default Config becomes `v` only when the check passes. The api type is normalised, and the other eight OpenAI fields are unchanged. |
| Config.CheckedApiType | internal/config/config.go:173-182 | An empty type becomes OPEN_AI. Any other is kept as written. |
| Config.CheckError | internal/config/config.go:171-196 | No error exactly when all hold: the type is empty or upper-cases to OPEN_AI, AZURE or AZURE_AD; the base URL is empty or parses; the proxy is empty or parses. Failures come in that order, with the parse cause. |
| Config.CheckOpenAIConfig | internal/config/config.go:171-196 | Returns `CheckError` and rewrites an empty type to OPEN_AI. Every other field is unchanged. |
| Config.CheckIdempotent | internal/config/config.go:171-196 | A checked configuration passes the check again, and normalising twice is normalising once. |
| ChatgptHttp.FirstWhere | internal/chatgpt/http.go:42-75 | `errors.As`: the first link of the chain that matches, or None exactly when no link does. |
| ChatgptHttp.Classify | internal/chatgpt/http.go:42-84 | RequestError exactly when a link is one. Other exactly when no link is an SDK or URL error. An API class carries a status found on the chain. A URL class has no request or API error before it. |
| ChatgptHttp.StatusToken | internal/chatgpt/http.go:54-73 | 500, 503 and 504 are unavailable; 429 is too many requests; 401 is unauthorized; any other status is a bad request. |
| ChatgptHttp.ErrTokens | internal/chatgpt/http.go:42-86 | At most one token: the bad-request token for a RequestError; the status token for an APIError; the timeout token only for a timed-out url.Error; the bracketed text for anything else. |
| ChatgptHttp.ErrTokensSilent | internal/chatgpt/http.go:75-84 | chatErr sends nothing exactly for a url.Error that is not a timeout. |
| ChatgptHttp.Channel.constructor | internal/handler/chat/msg.go:75 | A new channel is open and empty. |
| ChatgptHttp.Channel.Send | internal/chatgpt/http.go:153 | A send appends to an open channel. |
| ChatgptHttp.Channel.Close | internal/chatgpt/http.go:143 | A close keeps what was sent and closes. |
| ChatgptHttp.ChatErr | internal/chatgpt/http.go:34-87 | Sends `ErrTokens(e)`. It returns the error only for an unclassified one, else nil. |
| ChatgptHttp.HttpChatCompletion | internal/chatgpt/http.go:90-173 | Sends exactly the trace's tokens. It closes the channel exactly when it does not panic. |
| ChatgptHttp.RelayStream | internal/chatgpt/http.go:124-156 | Sends the non-empty deltas of the chunks read before cancellation, then a bracketed token for a non-EOF Recv error, then closes. |
| ChatgptHttp.SendDeltas | internal/chatgpt/http.go:151-155 | The inner loop sends the non-empty deltas of one chunk in order. |
| ChatgptHttp.StreamingTrace | internal/chatgpt/http.go:124-156 | When streaming succeeds: all the deltas at EOF; the deltas plus one bracketed token on a Recv error; only the deltas before the cancelled check; never a panic. |
| ChatgptHttp.FailureTraces | internal/chatgpt/http.go:100-168 | A construction failure sends one bracketed error. A streaming create error sends only chatErr's output. A non-streamed failure ends with a bracketed error, which an unclassified error produces twice. |
| ChatgptHttp.ReplyTrace | internal/chatgpt/http.go:157-172 | A non-streamed success sends exactly the first choice's content. It panics exactly when there are no choices. |
| ChatgptHttp.AzureAdAcceptedThenRejected | internal/chatgpt/http.go:100-108 | AZURE_AD passes the config check, yet the producer sends the invalid-api-type error. |
| ChatgptHttp.PublicationLog.constructor | internal/chatgpt/http.go:194 | The hub's log starts empty. |
| ChatgptHttp.PublicationLog.Publish | internal/chatgpt/http.go:194 | Publishing appends one event for the stream. |
| ChatgptHttp.Escaped | internal/chatgpt/http.go:192-193 | A published token has no CR or LF. A token without either is unchanged. |
| ChatgptHttp.EscapedAppend | internal/chatgpt/http.go:192-193 | The escape distributes over concatenation. |
| ChatgptHttp.Published | internal/chatgpt/http.go:181-196 | One event per token. |
| ChatgptHttp.SseServerChatResponseProcess | internal/chatgpt/http.go:176-197 | Returns the raw tokens received, concatenated. It publishes each escaped token in order, then `<br><br>` only when it saw the close, not on cancellation. |
| ChatgptHttp.PublishedNoLineBreaks | internal/chatgpt/http.go:192-193 | No published data holds a CR or LF. |
| ChatgptHttp.FrameBlock | internal/chatgpt/http.go:216 | A frame is the event-stream data block of the token plus the blank line that ends the event. |
| ChatgptHttp.FramesAppend | internal/chatgpt/http.go:206-225 | The body grows by one frame per token written. |
| ChatgptHttp.HttpChatResponseProcess | internal/chatgpt/http.go:200-226 | For the tokens taken before cancellation, the body gains the frames of those written. There is one flush per frame. The result is the accumulated text, or "" when a write fails. |
| ChatgptHttp.WriteFrames | internal/chatgpt/http.go:206-225 | The write loop writes frames until the count or the connection's room runs out. It reports whether all were written and the text of those that were. |
| ChatgptHttp.WriteFrame | internal/chatgpt/http.go:216-223 | On an accepted write, one frame and one flush. On a refused write, nothing. |
| ChatgptHttp.FramesDecode | internal/chatgpt/http.go:216 | An event-stream parser reading the body gets back exactly the tokens, in order, when none holds a CR. |
| ChatgptHttp.EscapedDropsCr | internal/chatgpt/http.go:192 | The hub sink deletes a CR inside a token and keeps what follows it. |
| ChatgptHttp.HttpRelayCrLoss | internal/chatgpt/http.go:216 | The frame of `x CR y` is read back as `x`, losing `y`, while the hub sink publishes `xy`. |
| EventStream.LineLen | internal/chatgpt/http.go:216 | The reference parser's line: the characters before the first CR or LF. |
| EventStream.BeforeColon | internal/chatgpt/http.go:216 | A field name: the prefix of the line before the first colon. |
| EventStream.DataLine | internal/chatgpt/http.go:216 | A `data: ` line adds its text and a LF to the data buffer. |
| EventStream.DataLines | internal/chatgpt/http.go:216 | A data block of a text without CR leaves the text plus a LF in the buffer. |
| EventStream.BlankLine | internal/chatgpt/http.go:216 | A blank line dispatches a non-empty buffer without its final LF and empties it. |
| EventStream.LastBlankLine | internal/chatgpt/http.go:216 | A final blank line dispatches the buffer. |
| EventStream.EventRoundTrip | internal/chatgpt/http.go:216 | The frame of a token without CR is parsed back as exactly that token. |
| EventStream.DataField | internal/chatgpt/http.go:216 | A `data: ` field appends its value and a LF to the buffer. |
| EventStream.IgnoredField | internal/chatgpt/http.go:216 | A line naming another field leaves the buffer alone. |
| EventStream.CarriageReturnTruncates | internal/chatgpt/http.go:216 | A bare CR ends the line, so the frame of `x CR y` dispatches only `x`. |
| Http.Response.constructor | internal/handler/chat/msg.go:19 | A fresh writer: nothing set, sent or written. |
| Http.Response.SetHeader | internal/handler/chat/msg.go:31-36 | `Header().Set` changes that field only. |
| Http.Response.SetCookie | internal/handler/chat/chat.go:62 | Adds one Set-Cookie line. |
| Http.Response.WriteHeader | internal/handler/chat/msg.go:70 | The first status wins and snapshots the header. Later calls change nothing. |
| Http.Response.Write | internal/chatgpt/http.go:216 | An implied status of 200. The data is appended exactly when the connection accepts the write. Every call is counted. |
| Http.Response.Flush | internal/handler/chat/msg.go:71 | An implied status of 200, and one more flush. |
| Http.PostFormValue | internal/handler/chat/msg.go:38-39 | The value, or "" for an absent key. |
| Http.CanonicalKey | pkg/web/realip/real_ip.go:51 | The canonical form has the same length. |
| Http.HeaderGet | pkg/web/realip/real_ip.go:45-54 | The value under the canonical key, or "". |
| Http.FindCookie | internal/handler/chat/chat.go:55 | The first cookie with that name, or None exactly when there is none. |
| ChatHandler.StreamIdOf | internal/handler/chat/chat.go:48-73 | The stream id always has 32 characters. |
| ChatHandler.GetStreamId | internal/handler/chat/chat.go:48-73 | Returns `StreamIdOf`. It adds the Set-Cookie line only when the cookie is not kept. Nothing else of the writer changes. |
| ChatHandler.StreamIdShape | internal/handler/chat/chat.go:55-71 | A kept cookie's value is returned unchanged. Otherwise exactly one Set-Cookie is issued, and the id is 32 lower-case hexadecimal digits. |
| ChatHandler.StreamIdSticky | internal/handler/chat/chat.go:55-71 | When the browser returns the cookie it was given, the next request keeps it, gets the same id and sets no cookie. |
| ChatHandler.FreshIdsDiffer | internal/handler/chat/chat.go:56-61 | Requests without a cookie get different ids for different UUIDs. |
| ChatHandler.FormMessage | internal/handler/chat/sse_msg.go:44-67 | The decoded message always has a model. |
| ChatHandler.FormMessageRoundTrip | internal/handler/chat/sse_msg.go:56-67 | A form holding model, system, FormatBool(stream) and Decimal(maxTokens) decodes to exactly those settings, with history 0. |
| ChatHandler.FormMessageDefaults | internal/handler/chat/sse_msg.go:56-67 | An empty form gives gpt-3.5-turbo, stream off, max tokens 0 and history 0. |
| ChatHandler.FormMessageFallbacks | internal/handler/chat/sse_msg.go:56-67 | An unparseable stream flag is false, and an unparseable max tokens is 0. Each true spelling turns streaming on. |
| ChatHandler.PostedRequest | internal/handler/chat/sse_msg.go:80-81 | The request is `[system?, user prompt]` with the message's model, stream flag, `N = 1` and max tokens through `int`. |
| ChatHandler.RelayedSettingsCarryOver | internal/handler/chat/sse_msg.go:100-104 | A form re-posting the stored values reproduces the model, system prompt and stream flag. |
| ChatHandler.ChatSettingsPosted | internal/handler/chat/chat.go:38-43 | The chat page's values, posted back, decode to the configured settings. |
| ChatHandler.HugeSettingShownNegative | internal/handler/chat/chat.go:42 | A configured max tokens of 2^63 or more is shown negative through `int`, and then cannot be parsed back. |
| ChatHandler.ShowDefaults | internal/handler/chat/sse_msg.go:105-111 | The else branch stores the stream id from getStreamID, gpt-3.5-turbo, "true", "" and "0". |
| ChatHandler.ShowRelayed | internal/handler/chat/sse_msg.go:100-104 | After a relay, the map stores the stream id, model, FormatBool(stream), system and Decimal(history). |
| ChatHandler.Produce | internal/handler/chat/sse_msg.go:87-90 | The producer goroutine sends the trace of the posted request, and closes exactly when it does not panic. |
| ChatHandler.EchoPrompt | internal/handler/chat/sse_msg.go:74-78 | Publishes one event: the prompt without CRs, with LF as `<br>`, inside the info paragraph. |
| ChatHandler.SseEvents | internal/handler/chat/sse_msg.go:74-91 | The first event of a relay is always the echo. |
| ChatHandler.SseRelay | internal/handler/chat/sse_msg.go:74-104 | The log gains the echo, then what the sink publishes. The map is updated only when the handler completes: no hang, no crash. |
| ChatHandler.SseEventsAppend | internal/handler/chat/sse_msg.go:74-91 | The echo and the sink's events together are SseEvents. |
| ChatHandler.SseRelayed | internal/handler/chat/sse_msg.go:74-113 | The sink gets exactly the relay's events: the echo, then the produced tokens up to the stop point, then the closing event. On completion, the relayed values are stored and chat_input.gohtml is rendered with them. |
| ChatHandler.SseDefaults | internal/handler/chat/sse_msg.go:105-113 | Stores the defaults, sets the stream-id cookie when needed, then renders. |
| ChatHandler.SseMessage | internal/handler/chat/sse_msg.go:35-114 | A relay runs exactly when both stream_id and prompt are non-empty. The sink then gets exactly the relay's events, and otherwise none. On completion, the relayed or default values are stored and rendered. Otherwise the map and body are unchanged. |
| ChatHandler.StreamHeadFields | internal/handler/chat/msg.go:31-36 | Sets the five fields with their values and keeps every other field and every cookie. |
| ChatHandler.SetStreamHeaders | internal/handler/chat/msg.go:31-36 | The header becomes StreamHead, and nothing is sent. |
| ChatHandler.OpenStream | internal/handler/chat/msg.go:31-71 | The stream header, then status 200 and one flush, before anything is relayed. |
| ChatHandler.HttpRelay | internal/handler/chat/msg.go:70-97 | Status 200 and a flush. The body gains one frame per token up to the first refused write, with one flush per frame. The number of writes counts the refused one. The outcome is a crash, a hang (fewer tokens consumed than produced), or completion, and only completion stores the relayed values. |
| ChatHandler.Streamed | internal/handler/chat/msg.go:31-106 | With a prompt: the stream header and status 200 go out with the relay's frames and flushes. On completion, the relayed values are stored and chat_input.gohtml is served after the frames when the writer still accepts. Otherwise the body ends with the frames. Without a prompt (stream_id may be empty), the defaults are stored and the page is rendered. |
| ChatHandler.Message | internal/handler/chat/msg.go:19-107 | A writer that cannot flush gets status 500 and the error page, whose error text is "streaming unsupported" in debug mode, and nothing else. Otherwise the result is as in Streamed. |
| ChatHandler.Chat | internal/handler/chat/chat.go:31-46 | Stores the stream id and the configured model, stream, system, max tokens and history, then renders chat.gohtml. |
| RealIp.FirstItem | pkg/web/realip/real_ip.go:67-69 | Everything before the first comma, or all of the text. |
| RealIp.ClientIP | pkg/web/realip/real_ip.go:38-70 | "" for a nil request. Cf-Connecting-Ip wins, then X-Real-IP. |
| RealIp.LowerSources | pkg/web/realip/real_ip.go:56-69 | Without those two headers, the first forwarded hop is taken, trimmed. Failing that, the host of RemoteAddr, or RemoteAddr itself when it does not split. |
| RealIp.FirstHopHasNoComma | pkg/web/realip/real_ip.go:67-69 | The first hop holds no comma. |
| RealIp.EarlierSourceWins | pkg/web/realip/real_ip.go:45-54 | Once an earlier header is set, later sources do not matter. |
| RealIp.XRealIpLookup | pkg/web/realip/real_ip.go:51 | X-Real-IP is looked up as X-Real-Ip. |
| RealIp.OtherLookups | pkg/web/realip/real_ip.go:45-67 | The other two header names are canonical already. |
| RequestId.HexDigit | pkg/requestid/request_id.go:42-48 | A digit value gives a lower-case hexadecimal digit. |
| RequestId.DigitValue | pkg/requestid/request_id.go:42-48 | A digit's value is below 16. |
| RequestId.DigitRoundTrip | pkg/requestid/request_id.go:42-48 | The value of a digit's spelling is the digit. |
| RequestId.Hex | pkg/requestid/request_id.go:42-48 | Two characters per byte. |
| RequestId.HexAt | pkg/requestid/request_id.go:42-48 | Byte `i` is spelled at positions `2i` and `2i+1`, high half first. |
| RequestId.HexAppend | pkg/requestid/request_id.go:42-48 | Encoding distributes over concatenation. |
| RequestId.HexDigitsOnly | pkg/requestid/request_id.go:43-47 | Every output character is in `[0-9a-f]`. |
| RequestId.HexRoundTrip | pkg/requestid/request_id.go:36-48 | Decoding the digits gives the bytes back. |
| RequestId.HexInjective | pkg/requestid/request_id.go:36-48 | Different UUIDs have different encodings. |
| RequestId.Encode | pkg/requestid/request_id.go:43-47 | `hex.Encode` into a sub-slice: spells each byte at its place and leaves the rest of the buffer alone. |
| RequestId.EncodeHex | pkg/requestid/request_id.go:42-48 | The five group writes fill the 32-byte buffer with the encoding of all 16 bytes in order. |
| RequestId.SpellsAll | pkg/requestid/request_id.go:42-48 | A buffer that spells every byte in turn is the encoding. |
| RequestId.ToBytes | pkg/requestid/request_id.go:36-40 | 32 bytes: the encoding of the UUID. |
| RequestId.AsText | pkg/requestid/request_id.go:33 | `string(b)` keeps each ASCII byte as a character. |
| RequestId.ToString | pkg/requestid/request_id.go:32-34 | 32 characters: `string(ToBytes(v))`. |
| RequestId.New | pkg/requestid/request_id.go:24-26 | 32 characters for the drawn UUID. |
| RequestId.NewByes | pkg/requestid/request_id.go:28-30 | 32 bytes for the drawn UUID. |
| RequestId.FieldGroups | pkg/requestid/request_id.go:43-47 | `[0:8]`, `[8:12]`, `[12:16]`, `[16:20]` and `[20:32]` encode the five RFC 4122 field groups. |
| RequestId.IdsDistinct | pkg/requestid/request_id.go:32-48 | Equal ids mean equal UUIDs. Every character is a lower-case hexadecimal digit. |
| TemplateMaps.TitledParts | pkg/web/templatemap/template_map.go:34-39 | The new title starts with `s`. It ends with ` \| ` plus the current title when one is set and non-empty, else it is `s`. |
| TemplateMaps.TitlesStack | pkg/web/templatemap/template_map.go:34-37 | For non-empty a and b, Title(a) then Title(b) over `t` gives `b \| a \| t` (`b \| a` when `t` is ""). |
| TemplateMaps.TemplateMap.constructor | pkg/web/templatemap/template_map.go:20 | A new map is empty. |
| TemplateMaps.TemplateMap.Get | pkg/web/templatemap/template_map.go:20 | `m[key]`: present exactly for a stored key. |
| TemplateMaps.TemplateMap.Set | pkg/web/templatemap/template_map.go:20 | `m[key] = value` changes that key only. |
| TemplateMaps.TemplateMap.Title | pkg/web/templatemap/template_map.go:24-40 | An empty format leaves the map alone. Otherwise only "title" changes: it is set to the formatted text (or the format verbatim without arguments), prepended to the current title. |
| Web.ResponseWriterWrapper.constructor | pkg/web/response_writer_wrapper.go:34-36 | Both counters start at zero. |
| Web.ResponseWriterWrapper.Unwrap | pkg/web/response_writer_wrapper.go:39-41 | The wrapped writer. |
| Web.ResponseWriterWrapper.Flush | pkg/web/response_writer_wrapper.go:45-49 | Forwarded only to a Flusher. Otherwise nothing changes. |
| Web.ResponseWriterWrapper.Hijack | pkg/web/response_writer_wrapper.go:54-59 | The inner result for a Hijacker, else ErrHijackNotImplemented. |
| Web.ResponseWriterWrapper.Push | pkg/web/response_writer_wrapper.go:64-69 | The inner result for a Pusher, else ErrPushNotImplemented. |
| Web.ResponseWriterWrapper.ReadFrom | pkg/web/response_writer_wrapper.go:74-79 | The data go to the inner writer, and neither counter changes. An empty source succeeds with 0 bytes: no write, no status and no header is sent. |
| Web.ResponseWriterWrapper.WriteHeader | pkg/web/response_writer_wrapper.go:82-85 | StatusCode is the code just passed, which is then forwarded. |
| Web.ResponseWriterWrapper.Write | pkg/web/response_writer_wrapper.go:88-92 | ContentLength grows by the count the inner writer reports, which is 0 when the write fails. The data are appended exactly when the connection accepts them. |
| Render.AllowedCodesFacts | pkg/web/render/render.go:69-87 | 200 and 500 are allowed, 204 and 503 are not, and there are ten codes. |
| Render.SettersTouchOnly | pkg/web/render/render.go:54-64 | The setters add exactly their fields, Content-Type and nosniff (plus no-store and no-cache), and keep all else. |
| Render.WriteResponseContentType | pkg/web/render/render.go:54-57 | The header gains Content-Type and nosniff. Nothing is sent. |
| Render.WriteNoCacheResponseContentType | pkg/web/render/render.go:60-64 | Also Cache-Control no-store and Pragma no-cache. |
| Render.LoadFiles | pkg/web/render/render.go:125-147 | The walk succeeds exactly when no visit errs or fails to parse. On success it has parsed exactly the non-directory `.gohtml` files, in walk order. On failure it reports the first visit that stopped it. |
| Render.Reload | pkg/web/render/render.go:106-123 | A nil file system is a no-op. A failure keeps the old templates. A success installs the parsed set. |
| Render.Execute | pkg/web/render/render.go:90-99 | Fails with "no html templates are defined" when none are loaded, else runs the engine. |
| Render.EscapedSafe | pkg/web/render/html.go:83 | `html.EscapeString` output has no `<`, `>`, `"` or `'`. |
| Render.EscapeIdentity | pkg/web/render/html.go:111 | A text without special characters is its own escape. |
| Render.GenericErrorSafe | pkg/web/render/html.go:107 | The generic message is unchanged by escaping. |
| Render.OutcomeAllowed | pkg/web/render/html.go:51-134 | The status sent is always allowed: the code asked for, or 500. |
| Render.UnregisteredIgnoresTemplate | pkg/web/render/html.go:59-74 | An unregistered code gives 500 with "<code> is not a registered response statusCode", whatever the template would do. |
| Render.RenderedIff | pkg/web/render/html.go:76-125 | The requested code goes out exactly when it is allowed, no debug reload failed, and rendering worked, and then the body is the rendered page. A render failure outside debug gives the generic message. |
| Render.ErrorTextEscaped | pkg/web/render/html.go:76-121 | In debug mode the reload or render error is shown escaped, so it cannot open or close markup. |
| Render.Renderer.constructor | pkg/web/render/render.go:29-47 | No templates, no file system, and debug off. |
| Render.Renderer.SetDebug | pkg/web/render/render.go:49-51 | Sets only the flag. |
| Render.Renderer.SetFileSystem | pkg/web/render/render.go:101-103 | Sets only the file system. |
| Render.Renderer.LoadTemplates | pkg/web/render/render.go:106-123 | Commits `Reload`'s templates and returns its error. |
| Render.Renderer.Prepare | pkg/web/render/html.go:59-121 | The page, status and body, HtmlStatus decides on. It reloads the templates first in debug mode. |
| Render.Renderer.HtmlStatus | pkg/web/render/html.go:51-134 | Content-Type is set first. The page's status is the one sent when none was. The body is written only when the connection accepts it. |
| Render.Renderer.Html | pkg/web/render/html.go:36-38 | HtmlStatus with 200. |
| Render.Renderer.Html500 | pkg/web/render/html.go:139-150 | Sends 500, with "Internal Server Error" unless debug, in which case the error text. |
| Render.Renderer.HtmlNoContent | pkg/web/render/html.go:30-33 | No-cache HTML headers and status 200 (not 204), with no body. |
| Project.ExtFrom | pkg/project/file.go:63 | The scanned extension is a suffix of the path that starts at a dot of the last element. |
| Project.TrimSuffix | pkg/project/file.go:63 | `strings.TrimSuffix`: the suffix is removed when present, else the text is unchanged. |
| Project.FilenameWithoutExt | pkg/project/file.go:62-64 | The result is a prefix, and result + Ext(name) == name. |
| Project.UnchangedIffNoDot | pkg/project/file.go:63 | A name is returned unchanged exactly when its last element has no dot. |
| Project.LastExtensionOnly | pkg/project/file.go:63 | "a.tar.gz" gives "a.tar". |
| Project.DirectoryDotIgnored | pkg/project/file.go:63 | "dir.d/file" is unchanged. |
| Project.DotFileEmpty | pkg/project/file.go:63 | ".bashrc" gives "". |

## Left out

- Printing, stdin and the console prompt text are left out: the lines are an input sequence, and printed text is not modelled.
- The go-openai SDK is left out. `CreateChatCompletion`, `CreateChatCompletionStream` and `Recv` are the `Upstream` datatype given to each turn, not computed.
- Scheduling of the producer goroutine and the sinks is left out. One interleaving is modelled, with cancellation as the indices `cancelAt` and `stopAt`.
- What a sink does with tokens published before a producer panic is left out. The model records the crash outcome only.
- The sse hub (replay, heartbeat, subscribers) is left out. Its code is not part of this model; `Publish` is an append to `PublicationLog`.
- The proxy transport mutation (internal/chatgpt/client.go:71, pkg/ai/chat.go:71) and HTTP client construction are left out: they are side effects on the SDK's client.
- The float sampling parameters (temperature, top-p, penalties) are left out: they are constants the model does not carry.
- The console writes `in.Prompt` in place (internal/console/chat.go:51). Only the value the request is built from is modelled; `in` is passed on unchanged.
- `Web.ResponseWriterWrapper.Hijack` and `Push` do not model taking over the connection or pushing a resource, only the error returned.
- `Render.LoadFiles` takes the walk order and each entry's error as input. `fs.WalkDir` itself is not modelled.
- Template data are string maps. Non-string values (`any`) are not modelled.
- html/template execution is left out. It is an engine function taken as a parameter, together with its `missingkey=zero` option.
- The buffer pool of `HtmlStatus` is left out.
- slog handlers and the log output are left out. The logger is a value (level, handler kind, caller), and the warnings are a list of texts. The initial logger is slog's default: INFO, no caller, default output.
- Requests' contexts, `logging.FromContext` and `templatemap.FromContext` are left out. The map and the renderer are passed explicitly.
- Default and SetDefault are not separate members. They are a read and a write of `Globals.defaultConfig`.
- Foreign functions taken as parameters:
  - url.Parse;
  - `%q` formatting;
  - `fmt.Sprintf` in `Title`;
  - `filepath.Dir` and the executable path in `Config.New`;
  - `net.SplitHostPort`;
  - `uuid.New`, whose UUIDs are inputs.
- strings.ToUpper is exact for ASCII and for the two non-ASCII letters whose upper case is ASCII. It leaves other non-ASCII characters unchanged. Its only use is comparison against ASCII keywords.
- Cookie lengths count characters. net/http sanitises cookie values to ASCII, so characters and bytes coincide.
- Not part of this model:
  - command-line wiring (cmd/);
  - the HTTP server lifecycle (internal/config/http.go);
  - routing and middleware;
  - the context helpers and assets;
  - the sentinel error files, which are constructors of error datatypes here.
- Http.Response.WriteHeader takes any code. net/http panics on a code outside 100..999, and sends a 1xx code other than 101 as an informational header that does not end the header phase. The handlers modelled here send only 200 and the codes Render allows.
- Web.ResponseWriterWrapper.ReadFrom writes a non-empty source in one Write. io.Copy may use several.
- The console keeps no bound on the history: a request carries the stored history minus its oldest pair (`ConsoleChat.AllButOldestPair`).
- Project.ExtFrom and Project.FilenameWithoutExt treat only '/' as a separator, as `filepath.Ext` does on Unix. Windows '\\' separators are not modelled.

## Findings

| source | as written | input that shows it | evidently intended | confidence | as-written member | corrected member |
|---|---|---|---|---|---|---|
| internal/config/config.go:155-160 | The format warning is joined onto `err` only when `err != nil`, that is, only when the level was invalid too. | level "info", format "xml": TEXT is installed and no warning is logged. | An invalid format is reported whatever the level. | not executed | Config.WarningsAsWritten | Config.Warnings |
| internal/chatgpt/client.go:98 | `int(in.History)` of a `uint` at or above 2^63 is negative, so the trim condition holds for every history, and `history[2:]` panics on a history shorter than two. | History = 2^64-1 with an empty history. | A huge limit includes the whole history (no trim). | not executed | ChatgptClient.MakeChatRequestAsWritten | ChatgptClient.MakeChatRequest |

`Config.Globals.SetupLog` and `Config.Globals.Setup` log the warnings as the code collects them (`Config.WarningsAsWritten`). `Config.Warnings` is the intended list, and `Config.FormatWarningLost` shows where the two differ.
