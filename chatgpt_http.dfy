/** internal/chatgpt/http.go: the web front-end's relay. A producer turns one chat completion
    (its upstream outcome) into a sequence of text tokens on a channel and closes it; one of
    two consumers takes the tokens until the channel is closed or the request is cancelled and
    either publishes them to an event hub (with line breaks turned into <br>) or writes them to
    the response as event-stream "data:" frames. The SDK's results, the moment the request's
    context is cancelled and the writes the client accepts are inputs. */
module ChatgptHttp {
  import opened Base
  import opened Text
  import opened OpenAI
  import opened ChatgptClient
  import opened Config
  import opened Http
  import opened EventStream

  // ---------------------------------------------------------------------------------------
  // Sentinel tokens and error classification

  const BadRequestToken: string := "[[错误请求]]"
  const UnavailableToken: string := "[[服务不可用]]"
  const TooManyToken: string := "[[太多请求]]"
  const UnauthorizedToken: string := "[[未授权]]"
  const TimeoutToken: string := "[[请求超时]]"

  /** fmt.Sprintf("[[%s]]", s). */
  function Bracket(s: string): string {
    "[[" + s + "]]"
  }

  /** The index of the first link of the chain that p accepts: what errors.As finds. */
  function FirstWhere(chain: seq<ErrLink>, p: ErrLink -> bool): (r: Option<nat>)
    ensures r.None? <==> forall i :: 0 <= i < |chain| ==> !p(chain[i])
    ensures r.Some? ==>
      r.value < |chain| && p(chain[r.value]) && forall j :: 0 <= j < r.value ==> !p(chain[j])
  {
    if chain == [] then None
    else if p(chain[0]) then Some(0)
    else
      var r := FirstWhere(chain[1..], p);
      if r.None? then None else Some(r.value + 1)
  }

  predicate IsRequestErr(l: ErrLink) { l.RequestErrLink? }
  predicate IsApiErr(l: ErrLink) { l.ApiErrLink? }
  predicate IsUrlErr(l: ErrLink) { l.UrlErrLink? }

  /** How chatErr sees an error: as an *openai.RequestError, else as the first *openai.APIError
      of its chain, else as the first *url.Error, else as an error of another type. */
  datatype ErrClass = RequestClass | ApiClass(status: int) | UrlClass(timeout: bool) | OtherClass

  function Classify(e: UpstreamError): (c: ErrClass)
    ensures c == RequestClass <==> exists i :: 0 <= i < |e.chain| && IsRequestErr(e.chain[i])
    ensures c.OtherClass? <==> forall i :: 0 <= i < |e.chain| ==> e.chain[i] == OtherLink
    ensures c.ApiClass? ==> exists i :: 0 <= i < |e.chain| && e.chain[i] == ApiErrLink(c.status)
    ensures c.UrlClass? ==> forall i :: 0 <= i < |e.chain| ==> !IsApiErr(e.chain[i]) && !IsRequestErr(e.chain[i])
  {
    var rq := FirstWhere(e.chain, IsRequestErr);
    var api := FirstWhere(e.chain, IsApiErr);
    var url := FirstWhere(e.chain, IsUrlErr);
    if rq.Some? then RequestClass
    else if api.Some? then ApiClass(e.chain[api.value].status)
    else if url.Some? then UrlClass(e.chain[url.value].timeout)
    else
      assert forall i :: 0 <= i < |e.chain| ==> e.chain[i] == OtherLink by {
        forall i | 0 <= i < |e.chain| ensures e.chain[i] == OtherLink {
          assert !IsRequestErr(e.chain[i]) && !IsApiErr(e.chain[i]) && !IsUrlErr(e.chain[i]);
        }
      }
      OtherClass
  }

  /** The token chatErr sends for an API error with the given HTTP status. */
  function StatusToken(status: int): (t: string)
    ensures status in {500, 503, 504} ==> t == UnavailableToken
    ensures status == 429 ==> t == TooManyToken
    ensures status == 401 ==> t == UnauthorizedToken
    ensures status !in {500, 503, 504, 429, 401} ==> t == BadRequestToken
  {
    if status == 504 || status == 500 || status == 503 then UnavailableToken
    else if status == 429 then TooManyToken
    else if status == 401 then UnauthorizedToken
    else BadRequestToken
  }

  /** The tokens chatErr sends. */
  function ErrTokens(e: UpstreamError): (r: seq<string>)
    ensures |r| <= 1
    ensures Classify(e) == RequestClass ==> r == [BadRequestToken]
    ensures Classify(e).ApiClass? ==> r == [StatusToken(Classify(e).status)]
    ensures Classify(e).UrlClass? ==> r == (if Classify(e).timeout then [TimeoutToken] else [])
    ensures Classify(e) == OtherClass ==> r == [Bracket(e.text)]
  {
    match Classify(e)
    case RequestClass => [BadRequestToken]
    case ApiClass(s) => [StatusToken(s)]
    case UrlClass(t) => if t then [TimeoutToken] else []
    case OtherClass => [Bracket(e.text)]
  }

  /** chatErr sends nothing exactly for a url.Error that is not a timeout. */
  lemma ErrTokensSilent(e: UpstreamError)
    ensures ErrTokens(e) == [] <==> Classify(e) == UrlClass(false)
  {
  }

  // ---------------------------------------------------------------------------------------
  // The channel

  /** An unbuffered `chan string` seen from the producer: the values sent, in order, and
      whether it has been closed. Sending on or closing a closed channel panics in Go, so both
      require an open channel; every close is therefore the only one. */
  class Channel {
    var sent: seq<string>
    var closed: bool

    constructor ()
      ensures sent == [] && !closed
    {
      sent := [];
      closed := false;
    }

    method Send(s: string)
      requires !closed
      modifies this
      ensures sent == old(sent) + [s] && !closed
    {
      sent := sent + [s];
    }

    method Close()
      requires !closed
      modifies this
      ensures closed && sent == old(sent)
    {
      closed := true;
    }
  }

  /** chatErr: sends the classifier's tokens and returns the error itself only when it is of
      none of the three known types. */
  method ChatErr(e: UpstreamError, ch: Channel) returns (ret: Option<UpstreamError>)
    requires !ch.closed
    modifies ch
    ensures ch.sent == old(ch.sent) + ErrTokens(e) && !ch.closed
    ensures ret == (if Classify(e) == OtherClass then Some(e) else None)
  {
    var c := Classify(e);
    match c
    case RequestClass =>
      ch.Send(BadRequestToken);
      ret := None;
    case ApiClass(status) =>
      if status == 504 || status == 500 || status == 503 {
        ch.Send(UnavailableToken);
      } else if status == 429 {
        ch.Send(TooManyToken);
      } else if status == 401 {
        ch.Send(UnauthorizedToken);
      } else if status == 400 {
        ch.Send(BadRequestToken);
      } else {
        ch.Send(BadRequestToken);
      }
      ret := None;
    case UrlClass(timeout) =>
      if timeout {
        ch.Send(TimeoutToken);
      }
      ret := None;
    case OtherClass =>
      ch.Send(Bracket(e.text));
      ret := Some(e);
  }

  // ---------------------------------------------------------------------------------------
  // The producer

  function Min(a: nat, b: nat): nat { if a <= b then a else b }

  /** The tokens of a stream whose reader yields `chunks` and then `end`, when the request's
      context is found cancelled at the check before Recv number cancelAt (0-based). */
  function StreamTokens(chunks: seq<seq<string>>, end: StreamEnd, cancelAt: nat): seq<string> {
    Deltas(chunks[..Min(cancelAt, |chunks|)])
    + (if cancelAt > |chunks| && end.RecvFailed? then [Bracket(end.text)] else [])
  }

  /** What HttpChatCompletion sends, and whether it panics (indexing Choices[0] of an empty
      non-streamed reply) instead of closing the channel. */
  datatype Production = Production(tokens: seq<string>, panicked: bool)

  function Trace(apiKey: string, apiType: string, baseUrl: string, proxy: string,
                 req: ChatRequest, up: Upstream, cancelAt: nat, f: Foreign): Production
  {
    var client := NewOpenAIClient(apiKey, apiType, baseUrl, proxy, f);
    if client.Failure? then Production([Bracket(ErrorText(client.error, f.quote))], false)
    else if req.stream then
      if up.createErr.Some? then Production(ErrTokens(up.createErr.value), false)
      else Production(StreamTokens(up.chunks, up.end, cancelAt), false)
    else if up.reply.Failure? then
      Production(ErrTokens(up.reply.error) + [Bracket(up.reply.error.text)], false)
    else if up.reply.value == [] then Production([], true)
    else Production([up.reply.value[0].content], false)
  }

  /** HttpChatCompletion: builds the client from the configuration, then relays either the
      stream's non-empty deltas (checking for cancellation before every Recv) or the single
      reply, and closes the channel on every path that does not panic. */
  method HttpChatCompletion(ch: Channel, cfg: OpenAIConfig, req: ChatRequest, up: Upstream,
                            cancelAt: nat, f: Foreign) returns (panicked: bool)
    requires ch.sent == [] && !ch.closed
    modifies ch
    ensures var p := Trace(cfg.apiKey, cfg.apiType, cfg.apiBaseUrl, cfg.proxy, req, up, cancelAt, f);
      ch.sent == p.tokens && panicked == p.panicked
    ensures ch.closed == !panicked
  {
    var client := NewOpenAIClient(cfg.apiKey, cfg.apiType, cfg.apiBaseUrl, cfg.proxy, f);
    if client.Failure? {
      ch.Send(Bracket(ErrorText(client.error, f.quote)));
      ch.Close();
      return false;
    }
    if req.stream {
      if up.createErr.Some? {
        var _ := ChatErr(up.createErr.value, ch);
        ch.Close();
        return false;
      }
      RelayStream(ch, up.chunks, up.end, cancelAt);
      return false;
    } else {
      if up.reply.Failure? {
        var _ := ChatErr(up.reply.error, ch);
        ch.Send(Bracket(up.reply.error.text));
        ch.Close();
        return false;
      }
      if up.reply.value == [] {
        return true;
      }
      ch.Send(up.reply.value[0].content);
      ch.Close();
      return false;
    }
  }

  /** The streaming loop of HttpChatCompletion: before each Recv the request context is
      checked, each chunk's non-empty deltas are sent in order, a Recv error adds one
      bracketed token, and the channel is closed at the end. */
  method RelayStream(ch: Channel, chunks: seq<seq<string>>, end: StreamEnd, cancelAt: nat)
    requires ch.sent == [] && !ch.closed
    modifies ch
    ensures ch.sent == StreamTokens(chunks, end, cancelAt) && ch.closed
  {
    var i := 0;
    while i < cancelAt && i < |chunks|
      invariant i <= |chunks| && i <= cancelAt
      invariant ch.sent == Deltas(chunks[..i]) && !ch.closed
    {
      SendDeltas(ch, chunks[i]);
      assert chunks[..i + 1][..i] == chunks[..i];
      i := i + 1;
    }
    if i >= cancelAt {
      ch.Close();
      return;
    }
    assert chunks[..i] == chunks;
    if end.RecvFailed? {
      ch.Send(Bracket(end.text));
    }
    ch.Close();
  }

  /** The inner loop: the non-empty delta of each choice of one chunk, in order. */
  method SendDeltas(ch: Channel, choices: seq<string>)
    requires !ch.closed
    modifies ch
    ensures ch.sent == old(ch.sent) + NonEmpty(choices) && !ch.closed
  {
    var j := 0;
    while j < |choices|
      invariant j <= |choices|
      invariant ch.sent == old(ch.sent) + NonEmpty(choices[..j]) && !ch.closed
    {
      if choices[j] != "" {
        ch.Send(choices[j]);
      }
      assert choices[..j + 1][..j] == choices[..j];
      j := j + 1;
    }
    assert choices[..j] == choices;
  }

  /** Streaming: with no create error, the tokens are the non-empty deltas of every choice of
      every chunk read before cancellation, in order; a Recv error reached before cancellation
      adds one bracketed token; io.EOF and cancellation add nothing. */
  lemma StreamingTrace(apiKey: string, apiType: string, baseUrl: string, proxy: string,
                       req: ChatRequest, up: Upstream, cancelAt: nat, f: Foreign)
    requires NewOpenAIClient(apiKey, apiType, baseUrl, proxy, f).Success?
    requires req.stream && up.createErr.None?
    ensures var p := Trace(apiKey, apiType, baseUrl, proxy, req, up, cancelAt, f);
      && !p.panicked
      && (cancelAt > |up.chunks| && up.end == Eof ==> p.tokens == Deltas(up.chunks))
      && (cancelAt > |up.chunks| && up.end.RecvFailed? ==> p.tokens == Deltas(up.chunks) + [Bracket(up.end.text)])
      && (cancelAt <= |up.chunks| ==> p.tokens == Deltas(up.chunks[..cancelAt]))
  {
    var p := Trace(apiKey, apiType, baseUrl, proxy, req, up, cancelAt, f);
    assert p == Production(StreamTokens(up.chunks, up.end, cancelAt), false);
    if cancelAt > |up.chunks| {
      assert up.chunks[..|up.chunks|] == up.chunks;
    }
  }

  /** The failure paths: a client that cannot be built sends one bracketed message; a stream
      that cannot be created sends only chatErr's tokens; a failed non-streamed completion
      sends chatErr's tokens and then the bracketed error text, so an error of an unknown type
      is reported twice. */
  lemma FailureTraces(apiKey: string, apiType: string, baseUrl: string, proxy: string,
                      req: ChatRequest, up: Upstream, cancelAt: nat, f: Foreign)
    ensures var client := NewOpenAIClient(apiKey, apiType, baseUrl, proxy, f);
      var p := Trace(apiKey, apiType, baseUrl, proxy, req, up, cancelAt, f);
      && (client.Failure? ==> p == Production([Bracket(ErrorText(client.error, f.quote))], false))
      && (client.Success? && req.stream && up.createErr.Some? ==>
            p == Production(ErrTokens(up.createErr.value), false) && |p.tokens| <= 1)
      && (client.Success? && !req.stream && up.reply.Failure? ==>
            !p.panicked && p.tokens[|p.tokens| - 1] == Bracket(up.reply.error.text)
            && (Classify(up.reply.error) == OtherClass ==>
                  p.tokens == [Bracket(up.reply.error.text), Bracket(up.reply.error.text)]))
  {
  }

  /** A non-streamed reply: its first choice's content is the single token; an empty choice
      list panics, the only path that leaves the channel open. */
  lemma ReplyTrace(apiKey: string, apiType: string, baseUrl: string, proxy: string,
                   req: ChatRequest, up: Upstream, cancelAt: nat, f: Foreign)
    requires NewOpenAIClient(apiKey, apiType, baseUrl, proxy, f).Success?
    requires !req.stream && up.reply.Success?
    ensures var p := Trace(apiKey, apiType, baseUrl, proxy, req, up, cancelAt, f);
      && (p.panicked <==> up.reply.value == [])
      && (up.reply.value != [] ==> p.tokens == [up.reply.value[0].content])
  {
  }

  /** The configuration check accepts AZURE_AD, but the client builder rejects it, so such a
      configuration passes Setup and every web request then answers with one bracketed
      "invalid api type" message. */
  lemma AzureAdAcceptedThenRejected(apiKey: string, apiType: string, baseUrl: string, proxy: string,
                                    req: ChatRequest, up: Upstream, cancelAt: nat, f: Foreign)
    requires apiKey != "" && ToUpper(apiType) == APITypeAzureAD
    requires baseUrl == "" || f.urlParse(baseUrl).Parsed?
    requires proxy == "" || f.urlParse(proxy).Parsed?
    ensures CheckError(apiType, baseUrl, proxy, f).None?
    ensures Trace(apiKey, apiType, baseUrl, proxy, req, up, cancelAt, f).tokens
      == [Bracket(ErrorText(ClientError.InvalidApiType(apiType), f.quote))]
  {
    assert apiType != "";
  }

  // ---------------------------------------------------------------------------------------
  // The hub consumer

  /** One event given to the server-sent-events hub: the stream it goes to and its data. */
  datatype Event = Event(streamId: string, data: string)

  /** The sse hub seen through sse.Default().Publish: the events published, in order. */
  class PublicationLog {
    var events: seq<Event>

    constructor ()
      ensures events == []
    {
      events := [];
    }

    method Publish(streamId: string, data: string)
      modifies this
      ensures events == old(events) + [Event(streamId, data)]
    {
      events := events + [Event(streamId, data)];
    }
  }

  /** A token as the hub consumer publishes it: CRs deleted, then each LF replaced by <br>. */
  function Escaped(t: string): (r: string)
    ensures '\r' !in r && '\n' !in r
    ensures '\r' !in t && '\n' !in t ==> r == t
  {
    ReplaceChars(Remove(t, '\r'), '\n', "<br>");
    Replace(Remove(t, '\r'), '\n', "<br>")
  }

  /** The replacement keeps every other character: a text without CR has exactly its LFs
      turned into <br>, split for split. */
  lemma EscapedAppend(a: string, b: string)
    ensures Escaped(a + b) == Escaped(a) + Escaped(b)
  {
    ReplaceAppend(a, b, '\r', []);
    ReplaceAppend(Remove(a, '\r'), Remove(b, '\r'), '\n', "<br>");
  }

  /** The events published for the tokens ts of one stream. */
  function Published(streamId: string, ts: seq<string>): (r: seq<Event>)
    ensures |r| == |ts|
  {
    seq(|ts|, i requires 0 <= i < |ts| => Event(streamId, Escaped(ts[i])))
  }

  /** The closing event, published only when the consumer sees the channel closed. */
  const Closing: string := "<br><br>"

  /** SSEServerChatResponseProcess: receives tokens until the channel is closed or the request
      is found cancelled before receive number stopAt (0-based); publishes each token escaped,
      publishes "<br><br>" only on close, and returns the raw tokens' concatenation. */
  method SseServerChatResponseProcess(ch: Channel, streamId: string, hub: PublicationLog, stopAt: nat)
    returns (text: string)
    requires ch.closed
    modifies hub
    ensures text == Concat(ch.sent[..Min(stopAt, |ch.sent|)])
    ensures hub.events == old(hub.events) + Published(streamId, ch.sent[..Min(stopAt, |ch.sent|)])
      + (if stopAt > |ch.sent| then [Event(streamId, Closing)] else [])
  {
    var messages := "";
    var k := 0;
    while k < stopAt && k < |ch.sent|
      invariant k <= |ch.sent| && k <= stopAt
      invariant messages == Concat(ch.sent[..k])
      invariant hub.events == old(hub.events) + Published(streamId, ch.sent[..k])
    {
      var str := ch.sent[k];
      ConcatPrefix(ch.sent, k);
      PublishedPrefix(streamId, ch.sent, k);
      messages := messages + str;
      str := Remove(str, '\r');
      str := Replace(str, '\n', "<br>");
      hub.Publish(streamId, str);
      k := k + 1;
    }
    if k >= stopAt {
      return messages;
    }
    hub.Publish(streamId, Closing);
    return messages;
  }

  lemma PublishedPrefix(streamId: string, ts: seq<string>, k: nat)
    requires k < |ts|
    ensures Published(streamId, ts[..k + 1]) == Published(streamId, ts[..k]) + [Event(streamId, Escaped(ts[k]))]
  {
    var longer, shorter := Published(streamId, ts[..k + 1]), Published(streamId, ts[..k]);
    forall i | 0 <= i < k + 1
      ensures longer[i] == (shorter + [Event(streamId, Escaped(ts[k]))])[i]
    {
      if i < k {
        assert ts[..k + 1][i] == ts[..k][i];
      }
    }
  }

  /** Everything the hub receives for one stream is free of line breaks, and the closing event
      comes last. */
  lemma PublishedNoLineBreaks(streamId: string, ts: seq<string>)
    ensures forall i :: 0 <= i < |ts| ==>
      '\r' !in Published(streamId, ts)[i].data && '\n' !in Published(streamId, ts)[i].data
  {
  }

  // ---------------------------------------------------------------------------------------
  // The response consumer

  /** fmt.Fprintf(w, "data: %s\n\n", strings.Replace(t, "\n", "\ndata: ", -1)). */
  function Frame(t: string): string {
    FrameStart + Replace(t, '\n', FrameLineBreak) + FrameEnd
  }

  const FrameStart: string := "data: "
  const FrameLineBreak: string := "\ndata: "
  const FrameEnd: string := "\n\n"

  /** A frame is the data block of the token and the blank line that ends the event. */
  lemma FrameBlock(t: string)
    ensures Frame(t) == DataBlock(t) + "\n"
  {
    assert FrameStart == "data: " && FrameLineBreak == "\ndata: " && FrameEnd == "\n" + "\n";
  }

  /** The frames of a sequence of tokens, one after another. */
  function Frames(ts: seq<string>): string {
    if ts == [] then [] else Frame(ts[0]) + Frames(ts[1..])
  }

  lemma {:induction false} FramesAppend(ts: seq<string>, t: string)
    ensures Frames(ts + [t]) == Frames(ts) + Frame(t)
  {
    var u := ts + [t];
    if ts != [] {
      assert u[0] == ts[0] && u[1..] == ts[1..] + [t];
      FramesAppend(ts[1..], t);
      var head, mid, last := Frame(ts[0]), Frames(ts[1..]), Frame(t);
      assert Frames(u) == head + (mid + last);
      assert head + (mid + last) == (head + mid) + last;
    } else {
      assert u == [t];
      assert Frames(u) == Frame(t) + Frames([]);
    }
  }

  /** How many more Write calls a writer accepts. */
  function Room(w: Response): nat
    reads w
  {
    if w.writes <= w.acceptedWrites then w.acceptedWrites - w.writes else 0
  }

  /** HttpChatResponseProcess: receives tokens until the channel is closed or the request is
      found cancelled before receive number stopAt; writes each token as one frame and flushes
      it; returns the raw tokens' concatenation, or "" as soon as a write fails. The status line
      has been sent before the relay starts. */
  method HttpChatResponseProcess(w: Response, ch: Channel, stopAt: nat) returns (text: string)
    requires ch.closed && w.Valid() && w.status.Some? && w.flusher
    modifies w
    ensures w.Valid()
    ensures var m := Min(stopAt, |ch.sent|);
      var failed := m > old(Room(w));
      var written := Min(m, old(Room(w)));
      && text == (if failed then [] else Concat(ch.sent[..m]))
      && w.body == old(w.body) + Frames(ch.sent[..written])
      && w.flushes == old(w.flushes) + written
      && w.writes == old(w.writes) + (if failed then written + 1 else m)
    ensures w.header == old(w.header) && w.sent == old(w.sent) && w.status == old(w.status)
  {
    var k, ok, messages := WriteFrames(w, ch.sent, Min(stopAt, |ch.sent|));
    text := if ok then messages else "";
  }

  /** The loop of HttpChatResponseProcess over the first n tokens: it stops after k frames,
      either because all n are written (ok) or because the write of frame k failed, which
      happens exactly when the writer's room is k. */
  method WriteFrames(w: Response, ts: seq<string>, n: nat) returns (k: nat, ok: bool, messages: string)
    requires n <= |ts| && w.Valid() && w.status.Some? && w.flusher
    modifies w
    ensures w.Valid() && k <= n
    ensures ok ==> k == n && n <= old(Room(w))
    ensures !ok ==> k < n && k == old(Room(w))
    ensures messages == Concat(ts[..k])
    ensures w.body == old(w.body) + Frames(ts[..k])
    ensures w.flushes == old(w.flushes) + k && w.writes == old(w.writes) + (if ok then k else k + 1)
    ensures w.header == old(w.header) && w.sent == old(w.sent) && w.status == old(w.status)
  {
    ghost var room := Room(w);
    messages := "";
    k := 0;
    while k < n
      invariant k <= n && w.Valid() && w.status == old(w.status)
      invariant k <= room
      invariant messages == Concat(ts[..k])
      invariant w.body == old(w.body) + Frames(ts[..k])
      invariant w.flushes == old(w.flushes) + k && w.writes == old(w.writes) + k
      invariant w.header == old(w.header) && w.sent == old(w.sent)
    {
      var written := WriteFrame(w, ts[k]);
      if !written {
        return k, false, messages;
      }
      ConcatPrefix(ts, k);
      messages := messages + ts[k];
      FramesPrefix(ts, k);
      k := k + 1;
    }
    ok := true;
  }

  /** One round of the relay: the token's frame is written and, when the write succeeds,
      flushed. */
  method WriteFrame(w: Response, t: string) returns (ok: bool)
    requires w.Valid() && w.status.Some? && w.flusher
    modifies w
    ensures w.Valid() && ok == old(w.Accepts())
    ensures w.body == old(w.body) + (if ok then Frame(t) else [])
    ensures w.writes == old(w.writes) + 1 && w.flushes == old(w.flushes) + (if ok then 1 else 0)
    ensures w.header == old(w.header) && w.sent == old(w.sent) && w.status == old(w.status)
  {
    var _, written := w.Write(Frame(t));
    ok := written;
    if ok {
      w.Flush();
    }
  }

  lemma FramesPrefix(ts: seq<string>, k: nat)
    requires k < |ts|
    ensures Frames(ts[..k + 1]) == Frames(ts[..k]) + Frame(ts[k])
  {
    assert ts[..k + 1] == ts[..k] + [ts[k]];
    FramesAppend(ts[..k], ts[k]);
  }

  /** What the browser's event-stream parser makes of the body: when no token holds a CR, the
      data of the events is exactly the tokens written, in order. */
  lemma {:induction false} FramesDecode(ts: seq<string>)
    requires forall i :: 0 <= i < |ts| ==> '\r' !in ts[i]
    ensures Events(Frames(ts), []) == ts
  {
    if ts != [] {
      FramesDecode(ts[1..]);
      FrameBlock(ts[0]);
      assert Frame(ts[0]) + Frames(ts[1..]) == DataBlock(ts[0]) + "\n" + Frames(ts[1..]);
      EventRoundTrip(ts[0], Frames(ts[1..]));
    } else {
      assert Events([], []) == [];
    }
  }

  lemma EscapedLeadingCr(y: string)
    ensures Escaped(['\r'] + y) == Escaped(y)
  {
    assert (['\r'] + y)[1..] == y;
    assert Remove(['\r'] + y, '\r') == Remove(y, '\r');
  }

  /** The hub consumer deletes a CR inside a token and keeps what follows it. */
  lemma EscapedDropsCr(x: string, y: string)
    requires '\r' !in x && '\n' !in x && '\r' !in y && '\n' !in y
    ensures Escaped(x + "\r" + y) == x + y
  {
    var rest := ['\r'] + y;
    assert x + "\r" + y == x + rest;
    EscapedAppend(x, rest);
    EscapedLeadingCr(y);
  }

  lemma SingleFrame(t: string)
    ensures Frames([t]) == DataBlock(t) + "\n"
  {
    assert Frames([t]) == Frame(t) + Frames([]);
    FrameBlock(t);
  }

  /** The frame of a token with a CR inside loses what follows the CR (when that does not
      itself look like a data field), unlike the hub consumer, which deletes CRs first. */
  lemma HttpRelayCrLoss(x: string, y: string)
    requires forall i :: 0 <= i < |x| ==> !IsLineBreak(x[i])
    requires y != [] && forall i :: 0 <= i < |y| ==> !IsLineBreak(y[i])
    requires BeforeColon(y) != "data"
    ensures Events(Frames([x + "\r" + y]), []) == [x]
    ensures Escaped(x + "\r" + y) == x + y
  {
    SingleFrame(x + "\r" + y);
    CarriageReturnTruncates(x, y);
    assert '\r' !in x && '\n' !in x by {
      assert forall i :: 0 <= i < |x| ==> x[i] != '\r' && x[i] != '\n';
    }
    assert '\r' !in y && '\n' !in y by {
      assert forall i :: 0 <= i < |y| ==> y[i] != '\r' && y[i] != '\n';
    }
    EscapedDropsCr(x, y);
  }
}
