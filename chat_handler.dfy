/** internal/handler/chat: the chat page (chat.go) and the two handlers that answer a posted
    prompt, one relaying the reply into the response itself as an event stream (msg.go) and
    one publishing it to the sse hub of the browser's stream id (sse_msg.go). Both start
    HttpChatCompletion in a goroutine feeding an unbuffered channel, consume the channel, wait
    for the goroutine, then fill the template map and render chat_input.gohtml.

    The goroutine is modelled as running to its end first (its sends are the channel's `sent`
    history); the consumer then takes the tokens that a receive loop stopping after `stopAt`
    receives would take. When the consumer stops while tokens are still unsent, the producer
    blocks for ever on its next send and wg.Wait never returns: the handler hangs. A producer
    that panics takes the whole process down. */
module ChatHandler {
  import opened Base
  import opened Text
  import opened OpenAI
  import ChatgptClient
  import opened Config
  import opened Http
  import opened ChatgptHttp
  import opened Render
  import opened RequestId

  import TemplateMaps

  /** cookieName, and the cookie's lifetime: 400 days, the longest Chrome keeps. */
  const CookieName: string := "stream_id"
  const CookieMaxAge: int := 86400 * 400

  /** The keys of the posted form and of the template map. */
  const StreamIdKey: string := "stream_id"
  const PromptKey: string := "prompt"
  const ModelKey: string := "model"
  const StreamKey: string := "stream"
  const SystemKey: string := "system"
  const MaxTokensKey: string := "max_tokens"
  const HistoryKey: string := "history"

  /** The values of the event-stream header fields, and the error of a writer that cannot
      flush. */
  const EventStreamType: string := "text/event-stream; charset=utf-8"
  const KeepAlive: string := "keep-alive"
  const AnyOrigin: string := "*"
  const NoBuffering: string := "no"
  const StreamingUnsupported: string := "streaming unsupported"

  // ---------------------------------------------------------------------------------------
  // The stream id cookie

  /** The stream id cookie of the request is kept: present and 32 characters long. */
  predicate KeepsCookie(cs: seq<Cookie>) {
    var c := FindCookie(cs, CookieName);
    c.Some? && |c.value.value| == 32
  }

  /** The stream id getStreamID returns: the request's cookie when it is kept, else a fresh id,
      drawn from u1 when no cookie came and from u2 when the cookie had the wrong length. */
  function StreamIdOf(cs: seq<Cookie>, u1: Uuid, u2: Uuid): (id: string)
    ensures |id| == 32
  {
    var c := FindCookie(cs, CookieName);
    if c.None? then AsText(Hex(u1))
    else if |c.value.value| != 32 then AsText(Hex(u2))
    else c.value.value
  }

  /** The response header after getStreamID: one Set-Cookie for the id when a fresh one was
      drawn. */
  function StreamIdHead(h: Head, cs: seq<Cookie>, u1: Uuid, u2: Uuid): Head {
    if KeepsCookie(cs) then h else h.(cookies := h.cookies + [Cookie(CookieName, StreamIdOf(cs, u1, u2), CookieMaxAge)])
  }

  /** getStreamID, given the UUIDs its calls to requestid.New would draw. A missing cookie is
      replaced by a new one, which has 32 characters and so passes the length check; a cookie
      of another length is replaced once. */
  method GetStreamId(w: Response, r: Request, u1: Uuid, u2: Uuid) returns (id: string)
    modifies w
    ensures id == StreamIdOf(r.cookies, u1, u2)
    ensures w.header == StreamIdHead(old(w.header), r.cookies, u1, u2)
    ensures w.sent == old(w.sent) && w.status == old(w.status) && w.body == old(w.body)
    ensures w.flushes == old(w.flushes) && w.writes == old(w.writes)
  {
    var cookie := FindCookie(r.cookies, CookieName);
    var c: Cookie;
    if cookie.None? {
      var value := RequestId.New(u1);
      c := Cookie(CookieName, value, CookieMaxAge);
      w.SetCookie(c);
    } else {
      c := cookie.value;
    }
    if |c.value| != 32 {
      var value := RequestId.New(u2);
      c := Cookie(CookieName, value, CookieMaxAge);
      w.SetCookie(c);
    }
    return c.value;
  }

  /** The id is a 32-digit lower-case hexadecimal text, and a fresh one is issued exactly when
      the request did not carry a usable cookie; a kept id is the cookie's own value. */
  lemma StreamIdShape(cs: seq<Cookie>, u1: Uuid, u2: Uuid)
    ensures KeepsCookie(cs) ==> StreamIdOf(cs, u1, u2) == FindCookie(cs, CookieName).value.value
    ensures !KeepsCookie(cs) ==>
              |StreamIdHead(Head(map[], []), cs, u1, u2).cookies| == 1
              && forall i :: 0 <= i < 32 ==>
                   ('0' <= StreamIdOf(cs, u1, u2)[i] <= '9' || 'a' <= StreamIdOf(cs, u1, u2)[i] <= 'f')
  {
    var c := FindCookie(cs, CookieName);
    if c.None? {
      IdsDistinct(u1, u1);
    } else if |c.value.value| != 32 {
      IdsDistinct(u2, u2);
    }
  }

  /** Once the browser sends back the cookie it was given, the same id comes back and no
      further cookie is set, whatever UUIDs would be drawn. */
  lemma StreamIdSticky(cs: seq<Cookie>, u1: Uuid, u2: Uuid, cs': seq<Cookie>, v1: Uuid, v2: Uuid)
    requires FindCookie(cs', CookieName).Some?
    requires FindCookie(cs', CookieName).value.value == StreamIdOf(cs, u1, u2)
    ensures KeepsCookie(cs')
    ensures StreamIdOf(cs', v1, v2) == StreamIdOf(cs, u1, u2)
    ensures StreamIdHead(Head(map[], []), cs', v1, v2).cookies == []
  {
  }

  /** Requests without a cookie get different ids for different UUIDs. */
  lemma FreshIdsDiffer(cs: seq<Cookie>, u1: Uuid, u2: Uuid, v1: Uuid, v2: Uuid)
    requires FindCookie(cs, CookieName).None?
    requires u1 != v1
    ensures StreamIdOf(cs, u1, u2) != StreamIdOf(cs, v1, v2)
  {
    IdsDistinct(u1, v1);
  }

  // ---------------------------------------------------------------------------------------
  // The posted message

  /** The chatgpt.Message both prompt handlers build from the form: stream from ParseBool
      (false when it fails), the model or gpt-3.5-turbo, the system prompt, max_tokens from
      ParseUint (0 when it fails), and no history (its parsing is commented out). */
  function FormMessage(r: Request, streamId: string, prompt: string): (m: ChatgptClient.Message)
    ensures m.model != ""
  {
    var model := PostFormValue(r, ModelKey);
    ChatgptClient.Message(
      streamId := streamId,
      id := "",
      user := "",
      model := if model == "" then GPT3Dot5Turbo else model,
      prompt := prompt,
      system := PostFormValue(r, SystemKey),
      stream := ParseBool(PostFormValue(r, StreamKey)).GetOr(false),
      history := 0,
      maxTokens := ParseUint(PostFormValue(r, MaxTokensKey)).GetOr(0))
  }

  /** A form that spells settings the way strconv writes them gives exactly those settings
      back; a form missing them gets the defaults. */
  lemma FormMessageRoundTrip(r: Request, streamId: string, prompt: string,
                             model: string, system: string, stream: bool, maxTokens: Uint)
    requires model != ""
    requires r.form == map[ModelKey := model, SystemKey := system, StreamKey := FormatBool(stream),
                           MaxTokensKey := Decimal(maxTokens)]
    ensures FormMessage(r, streamId, prompt)
      == ChatgptClient.Message(streamId, "", "", model, prompt, system, stream, 0, maxTokens)
  {
    ParseFormatBool(stream);
    ParseFormatUint(maxTokens);
  }

  lemma FormMessageDefaults(r: Request, streamId: string, prompt: string)
    requires r.form == map[]
    ensures FormMessage(r, streamId, prompt)
      == ChatgptClient.Message(streamId, "", "", GPT3Dot5Turbo, prompt, "", false, 0, 0)
  {
  }

  /** Settings that do not parse fall back, each on its own: a bad stream flag means no
      streaming, a bad max_tokens means 0. */
  lemma FormMessageFallbacks(r: Request, streamId: string, prompt: string)
    ensures ParseBool(PostFormValue(r, StreamKey)).None? ==> !FormMessage(r, streamId, prompt).stream
    ensures ParseUint(PostFormValue(r, MaxTokensKey)).None? ==> FormMessage(r, streamId, prompt).maxTokens == 0
    ensures PostFormValue(r, StreamKey) in TrueSpellings ==> FormMessage(r, streamId, prompt).stream
  {
  }

  /** The request sent for a posted prompt: the system prompt when one was given, then the
      prompt, with the posted model, stream flag and token limit. */
  lemma PostedRequest(r: Request, streamId: string, prompt: string)
    ensures var msg := FormMessage(r, streamId, prompt);
      var req := ChatgptClient.MakeChatRequest(msg, []);
      && req.messages == ChatgptClient.SystemPart(msg.system) + [ChatMessage(User, prompt)]
      && req.model == msg.model && req.stream == msg.stream && req.n == 1
      && req.maxTokens == GoInt(msg.maxTokens)
  {
    var msg := FormMessage(r, streamId, prompt);
    assert ChatgptClient.SystemPart(msg.system) + ChatgptClient.Window([], msg.history) + [ChatMessage(User, prompt)]
      == ChatgptClient.SystemPart(msg.system) + [ChatMessage(User, prompt)];
  }

  // ---------------------------------------------------------------------------------------
  // The template map

  /** The values the prompt handlers store after relaying a reply. */
  function RelayedFields(entries: map<string, string>, msg: ChatgptClient.Message): map<string, string> {
    entries[StreamIdKey := msg.streamId][ModelKey := msg.model][StreamKey := FormatBool(msg.stream)]
      [SystemKey := msg.system][HistoryKey := Decimal(msg.history)]
  }

  /** The history setting shown when no prompt was relayed. */
  const NoHistory: string := "0"

  /** The values the prompt handlers store when no prompt was relayed. */
  function DefaultFields(entries: map<string, string>, streamId: string): map<string, string> {
    entries[StreamIdKey := streamId][ModelKey := GPT3Dot5Turbo][StreamKey := TrueText][SystemKey := ""][HistoryKey := NoHistory]
  }

  /** The values the chat page stores: the configured settings, the numbers through int. */
  function ChatFields(entries: map<string, string>, streamId: string, model: string, stream: bool,
                      system: string, maxTokens: Uint, history: Uint): map<string, string>
  {
    entries[StreamIdKey := streamId][ModelKey := model][StreamKey := FormatBool(stream)][SystemKey := system]
      [MaxTokensKey := Itoa(GoInt(maxTokens))][HistoryKey := Itoa(GoInt(history))]
  }

  /** The settings shown after a relayed prompt, posted again as they are, give the same
      settings: the page carries the conversation's settings from one prompt to the next. */
  lemma RelayedSettingsCarryOver(r: Request, streamId: string, prompt: string,
                                 entries: map<string, string>, r': Request, prompt': string)
    requires var e := RelayedFields(entries, FormMessage(r, streamId, prompt));
      forall k :: k in [ModelKey, SystemKey, StreamKey] ==> k in r'.form && r'.form[k] == e[k]
    ensures var msg := FormMessage(r, streamId, prompt);
      var msg' := FormMessage(r', streamId, prompt');
      msg'.model == msg.model && msg'.system == msg.system && msg'.stream == msg.stream
  {
    var msg := FormMessage(r, streamId, prompt);
    var e := RelayedFields(entries, msg);
    assert r'.form[ModelKey] == e[ModelKey] == msg.model;
    assert r'.form[SystemKey] == e[SystemKey];
    assert r'.form[StreamKey] == e[StreamKey] == FormatBool(msg.stream);
    ParseFormatBool(msg.stream);
  }

  /** The settings of the chat page, posted as they are, give the configured ones back: the
      model when one is configured and the token limit when it is below 2^63. */
  lemma ChatSettingsPosted(id: string, model: string, stream: bool, system: string, maxTokens: Uint,
                           history: Uint, entries: map<string, string>, r: Request, prompt: string)
    requires model != "" && maxTokens < 0x8000_0000_0000_0000
    requires var e := ChatFields(entries, id, model, stream, system, maxTokens, history);
      forall k :: k in [ModelKey, SystemKey, StreamKey, MaxTokensKey] ==> k in r.form && r.form[k] == e[k]
    ensures var msg := FormMessage(r, id, prompt);
      msg.model == model && msg.system == system && msg.stream == stream && msg.maxTokens == maxTokens
  {
    var e := ChatFields(entries, id, model, stream, system, maxTokens, history);
    assert r.form[ModelKey] == e[ModelKey] == model;
    assert r.form[SystemKey] == e[SystemKey];
    assert r.form[StreamKey] == e[StreamKey] == FormatBool(stream);
    assert r.form[MaxTokensKey] == e[MaxTokensKey] == Decimal(maxTokens);
    ParseFormatBool(stream);
    ParseFormatUint(maxTokens);
  }

  /** A configured number of 2^63 or more goes through int and is shown negative, so a page
      posting it back gets max_tokens 0. */
  lemma HugeSettingShownNegative(id: string, model: string, stream: bool, system: string,
                                 maxTokens: Uint, history: Uint, entries: map<string, string>)
    requires maxTokens >= 0x8000_0000_0000_0000
    ensures var e := ChatFields(entries, id, model, stream, system, maxTokens, history);
      e[MaxTokensKey][0] == '-' && ParseUint(e[MaxTokensKey]).None?
  {
  }

  // ---------------------------------------------------------------------------------------
  // The handlers

  /** The form values both prompt handlers start from. */
  function Prompt(r: Request): string { PostFormValue(r, PromptKey) }
  function PostedStreamId(r: Request): string { PostFormValue(r, StreamIdKey) }

  const ChatInputPage: string := "chat_input.gohtml"
  const ChatPage: string := "chat.gohtml"

  datatype Outcome =
    | Completed  // the handler returned
    | Hung       // wg.Wait never returns
    | Crashed    // the producer goroutine panicked

  /** What becomes of a prompt handler: the producer's panic, else a hang when the consumer
      took fewer tokens than were produced. */
  function OutcomeOf(p: Production, consumed: nat): Outcome {
    if p.panicked then Crashed else if consumed < |p.tokens| then Hung else Completed
  }

  /** The echo of the prompt published before the reply: the prompt without CRs and with each
      LF as <br>, in an info paragraph. */
  function Echo(prompt: string): string {
    EchoOpen + Escaped(prompt) + EchoClose
  }

  const EchoOpen: string := "<p class=\"has-text-info\">"
  const EchoClose: string := "</p>"

  /** The tokens the producer sends for a posted prompt. */
  function Produced(msg: ChatgptClient.Message, cfg: OpenAIConfig, up: Upstream, cancelAt: nat, f: Foreign): Production
    reads cfg
  {
    Trace(cfg.apiKey, cfg.apiType, cfg.apiBaseUrl, cfg.proxy, ChatgptClient.MakeChatRequest(msg, []), up, cancelAt, f)
  }

  /** The status and body after one Html call with `page`. */
  predicate Served(page: Page, status0: Option<int>, body0: string, accepts0: bool,
                   status: Option<int>, body: string) {
    status == (if status0.None? then Some(page.status) else status0)
    && body == body0 + (if accepts0 then page.body else [])
  }

  /** The else branch shared by both prompt handlers: the stream id from getStreamID and the
      default settings. */
  method ShowDefaults(w: Response, r: Request, m: TemplateMaps.TemplateMap, u1: Uuid, u2: Uuid)
    modifies w, m
    ensures m.entries == DefaultFields(old(m.entries), StreamIdOf(r.cookies, u1, u2))
    ensures w.header == StreamIdHead(old(w.header), r.cookies, u1, u2)
    ensures w.sent == old(w.sent) && w.status == old(w.status) && w.body == old(w.body)
    ensures w.flushes == old(w.flushes) && w.writes == old(w.writes)
  {
    var id := GetStreamId(w, r, u1, u2);
    m.Set(StreamIdKey, id);
    m.Set(ModelKey, GPT3Dot5Turbo);
    m.Set(StreamKey, TrueText);
    m.Set(SystemKey, "");
    m.Set(HistoryKey, NoHistory);
  }

  /** The values stored after a relayed reply. */
  method ShowRelayed(m: TemplateMaps.TemplateMap, msg: ChatgptClient.Message)
    modifies m
    ensures m.entries == RelayedFields(old(m.entries), msg)
  {
    m.Set(StreamIdKey, msg.streamId);
    m.Set(ModelKey, msg.model);
    m.Set(StreamKey, FormatBool(msg.stream));
    m.Set(SystemKey, msg.system);
    m.Set(HistoryKey, Decimal(msg.history));
  }

  /** The goroutine of both prompt handlers: the request for the message without history,
      completed into a new channel. */
  method Produce(cfg: OpenAIConfig, msg: ChatgptClient.Message, up: Upstream, cancelAt: nat, f: Foreign)
    returns (ch: Channel, panicked: bool)
    ensures fresh(ch)
    ensures var p := Produced(msg, cfg, up, cancelAt, f);
      ch.sent == p.tokens && panicked == p.panicked
    ensures ch.closed == !panicked
  {
    var chatReq := ChatgptClient.MakeChatRequest(msg, []);
    ch := new Channel();
    panicked := HttpChatCompletion(ch, cfg, chatReq, up, cancelAt, f);
  }

  /** The prompt as the sse handler publishes it before the reply. */
  method EchoPrompt(hub: PublicationLog, streamId: string, prompt: string)
    modifies hub
    ensures hub.events == old(hub.events) + [Event(streamId, Echo(prompt))]
  {
    var inMsg := Remove(prompt, '\r');
    inMsg := Replace(inMsg, '\n', "<br>");
    hub.Publish(streamId, EchoOpen + inMsg + EchoClose);
  }

  /** What becomes of SseMessage's relay of msg. */
  function SseOutcome(msg: ChatgptClient.Message, cfg: OpenAIConfig, up: Upstream, cancelAt: nat, stopAt: nat,
                      f: Foreign): Outcome
    reads cfg
  {
    var p := Produced(msg, cfg, up, cancelAt, f);
    OutcomeOf(p, Min(stopAt, |p.tokens|))
  }

  /** What SseMessage publishes to the stream id's subscribers: the echo of the prompt, then,
      unless the producer panicked, each token the sink took, and the closing line when it saw
      the channel closed. */
  function SseEvents(sid: string, prompt: string, p: Production, stopAt: nat): (r: seq<Event>)
    ensures |r| > 0 && r[0] == Event(sid, Echo(prompt))
  {
    [Event(sid, Echo(prompt))]
      + (if p.panicked then [] else Published(sid, p.tokens[..Min(stopAt, |p.tokens|)]))
      + (if !p.panicked && stopAt > |p.tokens| then [Event(sid, Closing)] else [])
  }

  /** SseMessage with a stream id and a prompt, once the message is built from the form: the
      echo, then the reply published to the stream id's subscribers, then (when the handler
      gets that far) the settings in the map. */
  method SseRelay(msg: ChatgptClient.Message, m: TemplateMaps.TemplateMap, hub: PublicationLog,
                  cfg: OpenAIConfig, up: Upstream, cancelAt: nat, stopAt: nat, f: Foreign)
    returns (outcome: Outcome)
    modifies m, hub
    ensures hub.events == old(hub.events)
      + SseEvents(msg.streamId, msg.prompt, Produced(msg, cfg, up, cancelAt, f), stopAt)
    ensures outcome == SseOutcome(msg, cfg, up, cancelAt, stopAt, f)
    ensures outcome == Completed ==> m.entries == RelayedFields(old(m.entries), msg)
    ensures outcome != Completed ==> m.entries == old(m.entries)
  {
    ghost var before := hub.events;
    EchoPrompt(hub, msg.streamId, msg.prompt);
    var ch, panicked := Produce(cfg, msg, up, cancelAt, f);
    SseEventsAppend(before, msg.streamId, msg.prompt, Produced(msg, cfg, up, cancelAt, f), stopAt);
    if panicked {
      return Crashed;
    }
    var _ := SseServerChatResponseProcess(ch, msg.streamId, hub, stopAt);
    if stopAt < |ch.sent| {
      return Hung;
    }
    ShowRelayed(m, msg);
    return Completed;
  }

  /** The echo, then what the sink publishes, is what SseEvents lists. */
  lemma SseEventsAppend(a: seq<Event>, sid: string, prompt: string, p: Production, stopAt: nat)
    ensures var echoed := a + [Event(sid, Echo(prompt))];
      var n := Min(stopAt, |p.tokens|);
      && (p.panicked ==> echoed == a + SseEvents(sid, prompt, p, stopAt))
      && (!p.panicked ==>
            echoed + Published(sid, p.tokens[..n]) + (if stopAt > |p.tokens| then [Event(sid, Closing)] else [])
            == a + SseEvents(sid, prompt, p, stopAt))
  {
  }

  /** SseMessage's first branch to its end: the relay, then chat_input.gohtml when the
      handler completes. */
  method SseRelayed(w: Response, msg: ChatgptClient.Message, m: TemplateMaps.TemplateMap,
                    hub: PublicationLog, cfg: OpenAIConfig, renderer: Renderer, up: Upstream,
                    cancelAt: nat, stopAt: nat, f: Foreign) returns (outcome: Outcome)
    requires w.Valid()
    modifies w, m, hub, renderer
    ensures outcome == SseOutcome(msg, cfg, up, cancelAt, stopAt, f)
    ensures hub.events == old(hub.events)
      + SseEvents(msg.streamId, msg.prompt, Produced(msg, cfg, up, cancelAt, f), stopAt)
    ensures outcome == Completed ==>
      var data := RelayedFields(old(m.entries), msg);
      && m.entries == data
      && Served(old(renderer.PageFor(200, ChatInputPage, data)), old(w.status), old(w.body),
                old(w.Accepts()), w.status, w.body)
      && w.header == ContentTyped(old(w.header), HdrHtml)
    ensures outcome != Completed ==> m.entries == old(m.entries) && w.body == old(w.body) && w.status == old(w.status)
  {
    outcome := SseRelay(msg, m, hub, cfg, up, cancelAt, stopAt, f);
    if outcome != Completed {
      return;
    }
    renderer.Html(w, ChatInputPage, m.entries);
  }

  /** SseMessage's second branch: the stream id from getStreamID and the default settings,
      then chat_input.gohtml. */
  method SseDefaults(w: Response, r: Request, m: TemplateMaps.TemplateMap, renderer: Renderer,
                     u1: Uuid, u2: Uuid)
    requires w.Valid()
    modifies w, m, renderer
    ensures var data := DefaultFields(old(m.entries), StreamIdOf(r.cookies, u1, u2));
      && m.entries == data
      && Served(old(renderer.PageFor(200, ChatInputPage, data)), old(w.status), old(w.body),
                old(w.Accepts()), w.status, w.body)
      && w.header == ContentTyped(StreamIdHead(old(w.header), r.cookies, u1, u2), HdrHtml)
  {
    ShowDefaults(w, r, m, u1, u2);
    renderer.Html(w, ChatInputPage, m.entries);
  }

  /** SseMessage: the relay when both a stream id and a prompt were posted, the defaults
      otherwise, then chat_input.gohtml. */
  method SseMessage(w: Response, r: Request, m: TemplateMaps.TemplateMap, hub: PublicationLog,
                    cfg: OpenAIConfig, renderer: Renderer, up: Upstream, cancelAt: nat, stopAt: nat,
                    f: Foreign, u1: Uuid, u2: Uuid) returns (outcome: Outcome)
    requires w.Valid()
    modifies w, m, hub, renderer
    ensures var armed := PostedStreamId(r) != "" && Prompt(r) != "";
      && (!armed ==> outcome == Completed && hub.events == old(hub.events))
      && (armed ==> outcome == SseOutcome(FormMessage(r, PostedStreamId(r), Prompt(r)), cfg, up, cancelAt, stopAt, f))
      && (armed ==>
            hub.events == old(hub.events)
              + SseEvents(PostedStreamId(r), Prompt(r),
                          Produced(FormMessage(r, PostedStreamId(r), Prompt(r)), cfg, up, cancelAt, f), stopAt))
    ensures var armed := PostedStreamId(r) != "" && Prompt(r) != "";
      var data := if armed then RelayedFields(old(m.entries), FormMessage(r, PostedStreamId(r), Prompt(r)))
                  else DefaultFields(old(m.entries), StreamIdOf(r.cookies, u1, u2));
      outcome == Completed ==>
        && m.entries == data
        && Served(old(renderer.PageFor(200, ChatInputPage, data)), old(w.status), old(w.body),
                  old(w.Accepts()), w.status, w.body)
        && w.header == ContentTyped(if armed then old(w.header) else StreamIdHead(old(w.header), r.cookies, u1, u2), HdrHtml)
    ensures outcome != Completed ==> m.entries == old(m.entries) && w.body == old(w.body) && w.status == old(w.status)
  {
    if PostedStreamId(r) != "" && Prompt(r) != "" {
      var msg := FormMessage(r, PostedStreamId(r), Prompt(r));
      outcome := SseRelayed(w, msg, m, hub, cfg, renderer, up, cancelAt, stopAt, f);
    } else {
      SseDefaults(w, r, m, renderer, u1, u2);
      outcome := Completed;
    }
  }

  /** The header fields Message sets before streaming. */
  function StreamHead(h: Head): Head {
    h.(fields := h.fields[HdrContentType := EventStreamType][HdrCacheControl := NoCache]
                 [HdrConnection := KeepAlive][HdrAllowOrigin := AnyOrigin][HdrAccelBuffering := NoBuffering])
  }

  /** The stream header holds the five fields, keeps every other field and every cookie. */
  lemma StreamHeadFields(h: Head)
    ensures var s := StreamHead(h);
      && s.fields[HdrContentType] == EventStreamType
      && s.fields[HdrCacheControl] == NoCache && s.fields[HdrConnection] == KeepAlive
      && s.fields[HdrAllowOrigin] == AnyOrigin && s.fields[HdrAccelBuffering] == NoBuffering
      && s.cookies == h.cookies
      && forall k :: k in h.fields && k !in [HdrContentType, HdrCacheControl, HdrConnection,
                                              HdrAllowOrigin, HdrAccelBuffering]
           ==> k in s.fields && s.fields[k] == h.fields[k]
  {
  }

  /** The five header fields, set one after the other. */
  method SetStreamHeaders(w: Response)
    modifies w
    ensures w.header == StreamHead(old(w.header))
    ensures w.sent == old(w.sent) && w.status == old(w.status) && w.body == old(w.body)
    ensures w.flushes == old(w.flushes) && w.writes == old(w.writes)
  {
    w.SetHeader(HdrContentType, EventStreamType);
    w.SetHeader(HdrCacheControl, NoCache);
    w.SetHeader(HdrConnection, KeepAlive);
    w.SetHeader(HdrAllowOrigin, AnyOrigin);
    w.SetHeader(HdrAccelBuffering, NoBuffering);
  }

  /** The event-stream header, then status 200 and a flush, before the reply is relayed. */
  method OpenStream(w: Response)
    requires w.Valid() && w.flusher
    modifies w
    ensures w.Valid()
    ensures w.header == StreamHead(old(w.header))
    ensures w.status == (if old(w.status).None? then Some(200) else old(w.status))
    ensures w.sent == (if old(w.status).None? then Some(StreamHead(old(w.header))) else old(w.sent))
    ensures w.body == old(w.body) && w.writes == old(w.writes) && w.flushes == old(w.flushes) + 1
  {
    SetStreamHeaders(w);
    w.WriteHeader(200);
    w.Flush();
  }

  /** How many tokens the relay into the response takes: the receives up to stopAt, cut at
      the receive whose write fails. */
  function HttpConsumed(m: nat, room: nat): nat {
    if m > room then room + 1 else m
  }

  /** The frames the relay into the response writes: those of the tokens taken before the
      first refused write, none when the producer panicked. */
  function RelayFrames(p: Production, stopAt: nat, room: nat): string {
    if p.panicked then [] else Frames(p.tokens[..Min(Min(stopAt, |p.tokens|), room)])
  }

  /** The flushes after the frames: one per frame written. */
  function RelayFlushes(p: Production, stopAt: nat, room: nat): nat {
    if p.panicked then 0 else Min(Min(stopAt, |p.tokens|), room)
  }

  /** The Write calls of the relay: one per token taken, the refused one included. */
  function RelayWrites(p: Production, stopAt: nat, room: nat): nat {
    var n := Min(stopAt, |p.tokens|);
    if p.panicked then 0 else if n > room then room + 1 else n
  }

  /** What becomes of msg.go's relay. */
  function RelayOutcome(p: Production, stopAt: nat, room: nat): Outcome {
    if p.panicked then Crashed else OutcomeOf(p, HttpConsumed(Min(stopAt, |p.tokens|), room))
  }

  /** Message with a prompt and a writer that flushes: the event-stream header and status 200
      go out at once, then each token as one frame. */
  method HttpRelay(w: Response, msg: ChatgptClient.Message, m: TemplateMaps.TemplateMap, cfg: OpenAIConfig,
                   up: Upstream, cancelAt: nat, stopAt: nat, f: Foreign) returns (outcome: Outcome)
    requires w.Valid() && w.flusher
    modifies w, m
    ensures w.Valid()
    ensures var p := Produced(msg, cfg, up, cancelAt, f);
      var room := old(Room(w));
      && outcome == RelayOutcome(p, stopAt, room)
      && w.flushes == old(w.flushes) + 1 + RelayFlushes(p, stopAt, room)
      && w.body == old(w.body) + RelayFrames(p, stopAt, room)
      && w.writes == old(w.writes) + RelayWrites(p, stopAt, room)
    ensures w.header == StreamHead(old(w.header))
    ensures w.status == (if old(w.status).None? then Some(200) else old(w.status))
    ensures w.sent == (if old(w.status).None? then Some(StreamHead(old(w.header))) else old(w.sent))
    ensures outcome == Completed ==> m.entries == RelayedFields(old(m.entries), msg)
    ensures outcome != Completed ==> m.entries == old(m.entries)
  {
    OpenStream(w);
    var ch, panicked := Produce(cfg, msg, up, cancelAt, f);
    if panicked {
      return Crashed;
    }
    var room := Room(w);
    var _ := HttpChatResponseProcess(w, ch, stopAt);
    if HttpConsumed(Min(stopAt, |ch.sent|), room) < |ch.sent| {
      return Hung;
    }
    ShowRelayed(m, msg);
    return Completed;
  }

  /** What Message does for a prompt or without one once the writer is known to flush: the
      relay or the defaults (under the event-stream header), then chat_input.gohtml. */
  method Streamed(w: Response, r: Request, m: TemplateMaps.TemplateMap, cfg: OpenAIConfig,
                  renderer: Renderer, up: Upstream, cancelAt: nat, stopAt: nat, f: Foreign,
                  u1: Uuid, u2: Uuid) returns (outcome: Outcome)
    requires w.Valid() && w.flusher
    modifies w, m, renderer
    ensures w.Valid()
    ensures Prompt(r) != "" ==>
      var msg := FormMessage(r, PostedStreamId(r), Prompt(r));
      var p := Produced(msg, cfg, up, cancelAt, f);
      var room := old(Room(w));
      var status := if old(w.status).None? then Some(200) else old(w.status);
      var body := old(w.body) + RelayFrames(p, stopAt, room);
      var data := RelayedFields(old(m.entries), msg);
      && outcome == RelayOutcome(p, stopAt, room)
      && w.flushes == old(w.flushes) + 1 + RelayFlushes(p, stopAt, room)
      && (outcome == Completed ==>
            && m.entries == data
            && w.header == ContentTyped(StreamHead(old(w.header)), HdrHtml)
            && Served(old(renderer.PageFor(200, ChatInputPage, data)), status, body,
                      old(w.writes) + RelayWrites(p, stopAt, room) < w.acceptedWrites, w.status, w.body))
      && (outcome != Completed ==>
            w.header == StreamHead(old(w.header)) && w.status == status && w.body == body)
    ensures Prompt(r) == "" ==>
      var data := DefaultFields(old(m.entries), StreamIdOf(r.cookies, u1, u2));
      && outcome == Completed && m.entries == data
      && w.header == ContentTyped(StreamIdHead(StreamHead(old(w.header)), r.cookies, u1, u2), HdrHtml)
      && Served(old(renderer.PageFor(200, ChatInputPage, data)), old(w.status), old(w.body),
                old(w.Accepts()), w.status, w.body)
    ensures outcome != Completed ==> m.entries == old(m.entries)
  {
    var prompt := Prompt(r);
    if prompt != "" {
      var msg := FormMessage(r, PostedStreamId(r), prompt);
      outcome := HttpRelay(w, msg, m, cfg, up, cancelAt, stopAt, f);
      if outcome != Completed {
        return;
      }
    } else {
      SetStreamHeaders(w);
      ShowDefaults(w, r, m, u1, u2);
      outcome := Completed;
    }
    renderer.Html(w, ChatInputPage, m.entries);
  }

  /** Message: a writer that cannot flush gets the 500 page, and nothing else happens;
      otherwise Streamed. After a relay the status is already 200, so the page's own status,
      500 included, is not sent. */
  method Message(w: Response, r: Request, m: TemplateMaps.TemplateMap, cfg: OpenAIConfig,
                 renderer: Renderer, up: Upstream, cancelAt: nat, stopAt: nat, f: Foreign,
                 u1: Uuid, u2: Uuid) returns (outcome: Outcome)
    requires w.Valid()
    modifies w, m, renderer
    ensures w.Valid()
    ensures !w.flusher ==>
      var errStr := if old(renderer.isDebug) then StreamingUnsupported else InternalServerError;
      var page := old(renderer.PageFor(500, ErrorTemplate, map[TitleKey := InternalServerError, ErrorKey := errStr]));
      && outcome == Completed && m.entries == old(m.entries)
      && (old(w.status).None? ==> w.status == Some(500))
      && w.header == ContentTyped(old(w.header), HdrHtml)
      && w.body == old(w.body) + (if old(w.Accepts()) then page.body else [])
    ensures w.flusher && Prompt(r) != "" ==>
      var msg := FormMessage(r, PostedStreamId(r), Prompt(r));
      var p := Produced(msg, cfg, up, cancelAt, f);
      var room := old(Room(w));
      var status := if old(w.status).None? then Some(200) else old(w.status);
      var body := old(w.body) + RelayFrames(p, stopAt, room);
      var data := RelayedFields(old(m.entries), msg);
      && outcome == RelayOutcome(p, stopAt, room)
      && w.flushes == old(w.flushes) + 1 + RelayFlushes(p, stopAt, room)
      && (outcome == Completed ==>
            && m.entries == data
            && w.header == ContentTyped(StreamHead(old(w.header)), HdrHtml)
            && Served(old(renderer.PageFor(200, ChatInputPage, data)), status, body,
                      old(w.writes) + RelayWrites(p, stopAt, room) < w.acceptedWrites, w.status, w.body))
      && (outcome != Completed ==>
            w.header == StreamHead(old(w.header)) && w.status == status && w.body == body)
    ensures w.flusher && Prompt(r) == "" ==>
      var data := DefaultFields(old(m.entries), StreamIdOf(r.cookies, u1, u2));
      && outcome == Completed && m.entries == data
      && w.header == ContentTyped(StreamIdHead(StreamHead(old(w.header)), r.cookies, u1, u2), HdrHtml)
      && Served(old(renderer.PageFor(200, ChatInputPage, data)), old(w.status), old(w.body),
                old(w.Accepts()), w.status, w.body)
    ensures outcome != Completed ==> m.entries == old(m.entries)
  {
    if !w.flusher {
      renderer.Html500(w, StreamingUnsupported);
      return Completed;
    }
    outcome := Streamed(w, r, m, cfg, renderer, up, cancelAt, stopAt, f, u1, u2);
  }

  /** Chat: the stream id and the configured settings, then chat.gohtml. */
  method Chat(w: Response, r: Request, m: TemplateMaps.TemplateMap, cfg: OpenAIConfig, renderer: Renderer,
              u1: Uuid, u2: Uuid)
    requires w.Valid()
    modifies w, m, renderer
    ensures w.Valid()
    ensures var data := ChatFields(old(m.entries), StreamIdOf(r.cookies, u1, u2), cfg.model, cfg.stream,
                                   cfg.system, cfg.maxTokens, cfg.history);
      && m.entries == data
      && Served(old(renderer.PageFor(200, ChatPage, data)), old(w.status), old(w.body),
                old(w.Accepts()), w.status, w.body)
      && w.header == ContentTyped(StreamIdHead(old(w.header), r.cookies, u1, u2), HdrHtml)
  {
    var id := GetStreamId(w, r, u1, u2);
    m.Set(StreamIdKey, id);
    m.Set(ModelKey, cfg.model);
    m.Set(StreamKey, FormatBool(cfg.stream));
    m.Set(SystemKey, cfg.system);
    m.Set(MaxTokensKey, Itoa(GoInt(cfg.maxTokens)));
    m.Set(HistoryKey, Itoa(GoInt(cfg.history)));
    renderer.Html(w, ChatPage, m.entries);
  }
}
