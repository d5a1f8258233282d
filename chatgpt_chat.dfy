/** pkg/chatgpt/chatgpt.go: a conversation that keeps the whole transcript in the request. The
    transcript starts with the system prompt, when there is one; every input line, blank or not,
    is appended as a user message before the (never streamed) completion is asked for; a reply
    appends its first choice, and a failed completion leaves the user message in place, so the
    next line follows it directly. Lines come in as a sequence and the SDK's answer to the
    request made for line i is ups[i]. */
module ChatgptChat {
  import opened Base
  import opened OpenAI
  import opened ChatgptClient

  /** The arguments of chatgpt.Chat other than the client; `stream` is accepted and unused. */
  datatype Settings = Settings(user: string, model: string, prompt: string, stream: bool)

  /** A conversation: the transcript, the requests sent in order, how many were answered, and
      whether it ended in a panic (a reply without choices). */
  datatype Conversation = Conversation(transcript: seq<ChatMessage>, sent: seq<ChatRequest>,
                                       successes: nat, panicked: bool)

  /** The request sent for a transcript. */
  function Request(p: Settings, t: seq<ChatMessage>): ChatRequest {
    ChatRequest(model := p.model, messages := t, maxTokens := 0, stream := false, user := p.user, n := 1)
  }

  /** The conversation the loop runs from transcript t over the remaining lines. */
  function Run(p: Settings, t: seq<ChatMessage>, lines: seq<string>, ups: seq<Upstream>): Conversation
    requires |ups| >= |lines|
    decreases |lines|
  {
    if lines == [] then Conversation(t, [], 0, false)
    else
      var t1 := t + [ChatMessage(User, lines[0])];
      var reply := ups[0].reply;
      if reply == Success([]) then Conversation(t1, [Request(p, t1)], 0, true)
      else
        var t2 := if reply.Failure? then t1 else t1 + [reply.value[0]];
        var rest := Run(p, t2, lines[1..], ups[1..]);
        rest.(sent := [Request(p, t1)] + rest.sent,
              successes := (if reply.Failure? then 0 else 1) + rest.successes)
  }

  // ---------------------------------------------------------------------------------------
  // The loop

  lemma RunLine(p: Settings, t: seq<ChatMessage>, lines: seq<string>, ups: seq<Upstream>, i: nat)
    requires i < |lines| && |ups| >= |lines|
    ensures var r := Run(p, t, lines[i..], ups[i..]);
      var t1 := t + [ChatMessage(User, lines[i])];
      var reply := ups[i].reply;
      && (reply == Success([]) ==> r == Conversation(t1, [Request(p, t1)], 0, true))
      && (reply != Success([]) ==>
            var t2 := if reply.Failure? then t1 else t1 + [reply.value[0]];
            r == Combine([Request(p, t1)], if reply.Failure? then 0 else 1, Run(p, t2, lines[i + 1..], ups[i + 1..])))
  {
    assert lines[i..][0] == lines[i] && ups[i..][0] == ups[i];
    assert lines[i..][1..] == lines[i + 1..] && ups[i..][1..] == ups[i + 1..];
  }

  /** The requests `done` and the `n` replies before a conversation r. */
  function Combine(done: seq<ChatRequest>, n: nat, r: Conversation): Conversation {
    r.(sent := done + r.sent, successes := n + r.successes)
  }

  lemma CombineCons(done: seq<ChatRequest>, n: nat, req: ChatRequest, ok: nat, rest: Conversation)
    ensures Combine(done, n, Combine([req], ok, rest)) == Combine(done + [req], n + ok, rest)
  {
    assert done + ([req] + rest.sent) == (done + [req]) + rest.sent;
  }

  /** The loop has sent `done`, had `n` replies and holds transcript t before line i. */
  predicate Resumes(p: Settings, lines: seq<string>, ups: seq<Upstream>, t: seq<ChatMessage>,
                    done: seq<ChatRequest>, n: nat, i: nat)
    requires i <= |lines| && |ups| >= |lines|
  {
    Run(p, SystemPart(p.prompt), lines, ups) == Combine(done, n, Run(p, t, lines[i..], ups[i..]))
  }

  lemma Start(p: Settings, lines: seq<string>, ups: seq<Upstream>)
    requires |ups| >= |lines|
    ensures Resumes(p, lines, ups, SystemPart(p.prompt), [], 0, 0)
  {
    assert lines[0..] == lines && ups[0..] == ups;
    var r := Run(p, SystemPart(p.prompt), lines, ups);
    assert [] + r.sent == r.sent;
  }

  lemma Advance(p: Settings, lines: seq<string>, ups: seq<Upstream>, t: seq<ChatMessage>,
                done: seq<ChatRequest>, n: nat, i: nat)
    requires i < |lines| && |ups| >= |lines| && Resumes(p, lines, ups, t, done, n, i)
    ensures var t1 := t + [ChatMessage(User, lines[i])];
      var reply := ups[i].reply;
      && (reply == Success([]) ==>
            Run(p, SystemPart(p.prompt), lines, ups) == Conversation(t1, done + [Request(p, t1)], n, true))
      && (reply.Failure? ==> Resumes(p, lines, ups, t1, done + [Request(p, t1)], n, i + 1))
      && (reply.Success? && reply.value != [] ==>
            Resumes(p, lines, ups, t1 + [reply.value[0]], done + [Request(p, t1)], n + 1, i + 1))
  {
    RunLine(p, t, lines, ups, i);
    var t1 := t + [ChatMessage(User, lines[i])];
    var reply := ups[i].reply;
    if reply != Success([]) {
      var t2 := if reply.Failure? then t1 else t1 + [reply.value[0]];
      CombineCons(done, n, Request(p, t1), if reply.Failure? then 0 else 1, Run(p, t2, lines[i + 1..], ups[i + 1..]));
    }
  }

  lemma Finish(p: Settings, lines: seq<string>, ups: seq<Upstream>, t: seq<ChatMessage>,
               done: seq<ChatRequest>, n: nat)
    requires |ups| >= |lines| && Resumes(p, lines, ups, t, done, n, |lines|)
    ensures Run(p, SystemPart(p.prompt), lines, ups) == Conversation(t, done, n, false)
  {
    assert lines[|lines|..] == [];
    assert done + [] == done;
  }

  /** One pass of the loop: the line is appended, the completion asked for with the whole
      transcript, and a reply's first choice appended; `stop` reports a panic. */
  method Line(p: Settings, lines: seq<string>, ups: seq<Upstream>, t: seq<ChatMessage>,
              done: seq<ChatRequest>, n: nat, i: nat)
    returns (stop: bool, t': seq<ChatMessage>, done': seq<ChatRequest>, n': nat)
    requires i < |lines| && |ups| >= |lines| && Resumes(p, lines, ups, t, done, n, i)
    ensures stop ==> Run(p, SystemPart(p.prompt), lines, ups) == Conversation(t', done', n', true)
    ensures !stop ==> Resumes(p, lines, ups, t', done', n', i + 1)
  {
    Advance(p, lines, ups, t, done, n, i);
    t' := t + [ChatMessage(User, lines[i])];
    var req := Request(p, t');
    done' := done + [req];
    n' := n;
    var resp := ups[i].reply;
    if resp.Failure? {
      return false, t', done', n';
    }
    if resp.value == [] {
      return true, t', done', n';
    }
    t' := t' + [resp.value[0]];
    n' := n + 1;
    stop := false;
  }

  /** Chat: the transcript starts with the system prompt and grows line by line. */
  method Chat(p: Settings, lines: seq<string>, ups: seq<Upstream>) returns (c: Conversation)
    requires |ups| >= |lines|
    ensures c == Run(p, SystemPart(p.prompt), lines, ups)
  {
    var t: seq<ChatMessage> := [];
    if p.prompt != "" {
      t := t + [ChatMessage(System, p.prompt)];
    }
    assert t == SystemPart(p.prompt);
    Start(p, lines, ups);
    var done: seq<ChatRequest> := [];
    var n: nat := 0;
    var i := 0;
    while i < |lines|
      invariant i <= |lines| && Resumes(p, lines, ups, t, done, n, i)
    {
      var stop;
      stop, t, done, n := Line(p, lines, ups, t, done, n, i);
      if stop {
        return Conversation(t, done, n, true);
      }
      i := i + 1;
    }
    Finish(p, lines, ups, t, done, n);
    return Conversation(t, done, n, false);
  }

  // ---------------------------------------------------------------------------------------
  // Properties

  /** What every conversation from transcript t satisfies: t is kept as a prefix; every request
      holds a prefix of the final transcript ending with its line as a user message; without a
      panic every line was sent once and the transcript grew by one message per line and one
      per reply. */
  predicate Grown(t: seq<ChatMessage>, lines: seq<string>, c: Conversation) {
    && t <= c.transcript
    && |c.sent| <= |lines|
    && (forall k :: 0 <= k < |c.sent| ==>
          && c.sent[k].messages <= c.transcript
          && |c.sent[k].messages| > |t|
          && c.sent[k].messages[|c.sent[k].messages| - 1] == ChatMessage(User, lines[k]))
    && (!c.panicked ==> |c.sent| == |lines| && |c.transcript| == |t| + |lines| + c.successes)
  }

  lemma PrefixTrans(a: seq<ChatMessage>, b: seq<ChatMessage>, c: seq<ChatMessage>)
    requires a <= b && b <= c
    ensures a <= c
  {
  }

  lemma ConsGrown(p: Settings, t: seq<ChatMessage>, t1: seq<ChatMessage>, t2: seq<ChatMessage>,
                  lines: seq<string>, ok: nat, rest: Conversation)
    requires lines != [] && t1 == t + [ChatMessage(User, lines[0])] && t1 <= t2
    requires |t2| == |t1| + ok
    requires Grown(t2, lines[1..], rest)
    ensures Grown(t, lines, rest.(sent := [Request(p, t1)] + rest.sent, successes := ok + rest.successes))
  {
    var c := rest.(sent := [Request(p, t1)] + rest.sent, successes := ok + rest.successes);
    PrefixTrans(t1, t2, rest.transcript);
    PrefixTrans(t, t1, rest.transcript);
    forall k | 0 <= k < |c.sent|
      ensures c.sent[k].messages <= c.transcript
      ensures |c.sent[k].messages| > |t|
      ensures c.sent[k].messages[|c.sent[k].messages| - 1] == ChatMessage(User, lines[k])
    {
      if k > 0 {
        assert c.sent[k] == rest.sent[k - 1];
        assert lines[1..][k - 1] == lines[k];
      }
    }
  }

  /** A reply without choices ends the conversation with the one request for the line. */
  lemma PanicGrown(p: Settings, t: seq<ChatMessage>, lines: seq<string>)
    requires lines != []
    ensures var t1 := t + [ChatMessage(User, lines[0])];
      Grown(t, lines, Conversation(t1, [Request(p, t1)], 0, true))
  {
    var t1 := t + [ChatMessage(User, lines[0])];
    assert Request(p, t1).messages == t1;
  }

  lemma {:induction false} RunGrown(p: Settings, t: seq<ChatMessage>, lines: seq<string>, ups: seq<Upstream>)
    requires |ups| >= |lines|
    ensures Grown(t, lines, Run(p, t, lines, ups))
    decreases |lines|
  {
    if lines == [] {
      return;
    }
    var t1 := t + [ChatMessage(User, lines[0])];
    var reply := ups[0].reply;
    if reply == Success([]) {
      PanicGrown(p, t, lines);
      return;
    }
    var t2 := if reply.Failure? then t1 else t1 + [reply.value[0]];
    var ok := if reply.Failure? then 0 else 1;
    var rest := Run(p, t2, lines[1..], ups[1..]);
    assert Run(p, t, lines, ups) == rest.(sent := [Request(p, t1)] + rest.sent, successes := ok + rest.successes);
    RunGrown(p, t2, lines[1..], ups[1..]);
    ConsGrown(p, t, t1, t2, lines, ok, rest);
  }

  /** From the start: the transcript begins with one system message exactly when the prompt is
      set, every line is sent as a user message, and the transcript only grows: after k lines
      without a panic it holds the system message (if any), k user messages and one message
      per reply. */
  lemma TranscriptGrowth(p: Settings, lines: seq<string>, ups: seq<Upstream>)
    requires |ups| >= |lines|
    ensures var c := Run(p, SystemPart(p.prompt), lines, ups);
      && (p.prompt != "" ==> |c.transcript| > 0 && c.transcript[0] == ChatMessage(System, p.prompt))
      && (p.prompt == "" && lines != [] ==> |c.transcript| > 0 && c.transcript[0] == ChatMessage(User, lines[0]))
      && |c.sent| <= |lines|
      && (forall k :: 0 <= k < |c.sent| ==>
            |c.sent[k].messages| > 0 && k < |lines|
            && c.sent[k].messages[|c.sent[k].messages| - 1] == ChatMessage(User, lines[k]))
      && (!c.panicked ==> |c.transcript| == |SystemPart(p.prompt)| + |lines| + c.successes)
  {
    RunGrown(p, SystemPart(p.prompt), lines, ups);
    var c := Run(p, SystemPart(p.prompt), lines, ups);
    if p.prompt == "" && lines != [] {
      assert c.sent[0].messages <= c.transcript && |c.sent[0].messages| > 0;
      RunLine(p, [], lines, ups, 0);
      assert lines[0..] == lines && ups[0..] == ups;
      assert c.sent[0].messages == [ChatMessage(User, lines[0])];
    }
  }

  /** A failed completion keeps its user message, so the next request ends with two user
      messages in a row. */
  lemma ConsecutiveUserMessages(p: Settings, a: string, b: string, up1: Upstream, up2: Upstream)
    requires up1.reply.Failure?
    ensures var c := Run(p, SystemPart(p.prompt), [a, b], [up1, up2]);
      |c.sent| >= 2 && c.sent[1].messages == SystemPart(p.prompt) + [ChatMessage(User, a), ChatMessage(User, b)]
  {
    var t1 := SystemPart(p.prompt) + [ChatMessage(User, a)];
    assert [a, b][1..] == [b] && [up1, up2][1..] == [up2];
    assert t1 + [ChatMessage(User, b)] == SystemPart(p.prompt) + [ChatMessage(User, a), ChatMessage(User, b)];
  }
}
