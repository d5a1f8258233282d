/** internal/console/chat.go: the terminal conversation of the main binary. Every input line is
    whitespace-trimmed; a blank line is skipped, "q" ends the session, and any other line becomes
    the prompt of a request built by client.go's MakeChatRequest, exactly as written, from the
    history kept so far. A successful
    turn stores the user message and the reply; the stored history is never shortened (only
    the request's window drops a pair). Lines come in as a sequence and the SDK's answer to the
    request made for line i is ups[i]. */
module ConsoleChat {
  import opened Base
  import opened Text
  import opened OpenAI
  import opened ChatgptClient
  import opened Cli

  /** What an exchange adds to the history: the user message and the reply, if there is one. */
  function Turn(e: Exchange): seq<ChatMessage> {
    if e.answer.Answered? then [ChatMessage(User, e.prompt), e.answer.msg] else []
  }

  function Turns(es: seq<Exchange>): seq<ChatMessage> {
    if es == [] then [] else Turn(es[0]) + Turns(es[1..])
  }

  /** The session that the scanner loop runs from history `h` over the remaining lines. */
  function Run(m: Message, h: seq<ChatMessage>, lines: seq<string>, ups: seq<Upstream>): Session
    requires |ups| >= |lines|
    decreases |lines|
  {
    if lines == [] then Session(h, [], InputEnd)
    else
      var input := TrimSpace(lines[0]);
      if input == "" then Run(m, h, lines[1..], ups[1..])
      else if input == "q" then Session(h, [], Quit)
      else
        var e := Exchanged(m, h, input, ups[0]);
        if e.None? then Session(h, [], RequestPanic)
        else if e.value.answer.Panicked? then Session(h, [e.value], Panic)
        else
          Prepend([e.value], Run(m, h + Turn(e.value), lines[1..], ups[1..]))
  }

  /** The exchange made for a non-blank line other than "q", or None when building its request
      panics. Below 2^63 the request is the intended one. */
  function Exchanged(m: Message, h: seq<ChatMessage>, input: string, up: Upstream): (e: Option<Exchange>)
    ensures e.None? <==> MakeChatRequestAsWritten(m.(prompt := input), h).None?
    ensures e.Some? ==>
      && e.value.prompt == input
      && MakeChatRequestAsWritten(m.(prompt := input), h) == Some(e.value.request)
      && e.value.answer == Reply(m.stream, up)
    ensures m.history < 0x8000_0000_0000_0000 ==>
      e.Some? && e.value.request == MakeChatRequest(m.(prompt := input), h)
  {
    var built := MakeChatRequestAsWritten(m.(prompt := input), h);
    if built.None? then None else Some(Exchange(input, built.value, Reply(built.value.stream, up)))
  }

  /** Run over lines[i..], one line unfolded. */
  lemma RunLine(m: Message, h: seq<ChatMessage>, lines: seq<string>, ups: seq<Upstream>, i: nat)
    requires i < |lines| && |ups| >= |lines|
    ensures var r := Run(m, h, lines[i..], ups[i..]);
      var input := TrimSpace(lines[i]);
      var e := Exchanged(m, h, input, ups[i]);
      && (input == "" ==> r == Run(m, h, lines[i + 1..], ups[i + 1..]))
      && (input == "q" ==> r == Session(h, [], Quit))
      && (input != "" && input != "q" && e.None? ==> r == Session(h, [], RequestPanic))
      && (input != "" && input != "q" && e.Some? && e.value.answer.Panicked? ==>
            r == Session(h, [e.value], Panic))
      && (input != "" && input != "q" && e.Some? && !e.value.answer.Panicked? ==>
            r == Prepend([e.value], Run(m, h + Turn(e.value), lines[i + 1..], ups[i + 1..])))
  {
    assert lines[i..][0] == lines[i] && ups[i..][0] == ups[i];
    assert lines[i..][1..] == lines[i + 1..] && ups[i..][1..] == ups[i + 1..];
  }

  /** The loop has made the exchanges `done` and holds history h before line i: the whole
      session is those exchanges followed by the run over the remaining lines. */
  predicate Resumes(m: Message, lines: seq<string>, ups: seq<Upstream>, h: seq<ChatMessage>,
                    done: seq<Exchange>, i: nat)
    requires i <= |lines| && |ups| >= |lines|
  {
    Run(m, [], lines, ups) == Prepend(done, Run(m, h, lines[i..], ups[i..]))
  }

  /** One line of the loop, case by case: a blank line is skipped, "q" ends the session, a
      request that cannot be built ends it, a panicking request ends it with the exchange, and
      any other request moves on with the exchange made and its turn stored. */
  lemma AdvanceSkip(m: Message, lines: seq<string>, ups: seq<Upstream>, h: seq<ChatMessage>,
                    done: seq<Exchange>, i: nat)
    requires i < |lines| && |ups| >= |lines| && Resumes(m, lines, ups, h, done, i)
    requires TrimSpace(lines[i]) == ""
    ensures Resumes(m, lines, ups, h, done, i + 1)
  {
    RunLine(m, h, lines, ups, i);
  }

  lemma AdvanceQuit(m: Message, lines: seq<string>, ups: seq<Upstream>, h: seq<ChatMessage>,
                    done: seq<Exchange>, i: nat)
    requires i < |lines| && |ups| >= |lines| && Resumes(m, lines, ups, h, done, i)
    requires TrimSpace(lines[i]) == "q"
    ensures Run(m, [], lines, ups) == Session(h, done, Quit)
  {
    RunLine(m, h, lines, ups, i);
    assert done + [] == done;
  }

  lemma AdvanceRequestPanic(m: Message, lines: seq<string>, ups: seq<Upstream>, h: seq<ChatMessage>,
                            done: seq<Exchange>, i: nat)
    requires i < |lines| && |ups| >= |lines| && Resumes(m, lines, ups, h, done, i)
    requires TrimSpace(lines[i]) != "" && TrimSpace(lines[i]) != "q"
    requires Exchanged(m, h, TrimSpace(lines[i]), ups[i]).None?
    ensures Run(m, [], lines, ups) == Session(h, done, RequestPanic)
  {
    RunLine(m, h, lines, ups, i);
    assert done + [] == done;
  }

  lemma AdvancePanic(m: Message, lines: seq<string>, ups: seq<Upstream>, h: seq<ChatMessage>,
                     done: seq<Exchange>, i: nat)
    requires i < |lines| && |ups| >= |lines| && Resumes(m, lines, ups, h, done, i)
    requires TrimSpace(lines[i]) != "" && TrimSpace(lines[i]) != "q"
    requires var e := Exchanged(m, h, TrimSpace(lines[i]), ups[i]); e.Some? && e.value.answer.Panicked?
    ensures Run(m, [], lines, ups) == Session(h, done + [Exchanged(m, h, TrimSpace(lines[i]), ups[i]).value], Panic)
  {
    RunLine(m, h, lines, ups, i);
  }

  lemma AdvanceStep(m: Message, lines: seq<string>, ups: seq<Upstream>, h: seq<ChatMessage>,
                    done: seq<Exchange>, i: nat)
    requires i < |lines| && |ups| >= |lines| && Resumes(m, lines, ups, h, done, i)
    requires TrimSpace(lines[i]) != "" && TrimSpace(lines[i]) != "q"
    requires var e := Exchanged(m, h, TrimSpace(lines[i]), ups[i]); e.Some? && !e.value.answer.Panicked?
    ensures var e := Exchanged(m, h, TrimSpace(lines[i]), ups[i]).value;
      Resumes(m, lines, ups, h + Turn(e), done + [e], i + 1)
  {
    RunLine(m, h, lines, ups, i);
    var e := Exchanged(m, h, TrimSpace(lines[i]), ups[i]).value;
    PrependCons(done, e, Run(m, h + Turn(e), lines[i + 1..], ups[i + 1..]));
  }

  lemma Finish(m: Message, lines: seq<string>, ups: seq<Upstream>, h: seq<ChatMessage>, done: seq<Exchange>)
    requires |ups| >= |lines| && Resumes(m, lines, ups, h, done, |lines|)
    ensures Run(m, [], lines, ups) == Session(h, done, InputEnd)
  {
    assert lines[|lines|..] == [];
    assert Run(m, h, lines[|lines|..], ups[|lines|..]) == Session(h, [], InputEnd);
    assert done + [] == done;
  }

  /** One request of the loop: the request is built (None when that panics) and answered, and
      on success the user message and the reply are appended to the history. */
  method Ask(msg: Message, hisMsg: seq<ChatMessage>, up: Upstream) returns (e: Option<Exchange>, h: seq<ChatMessage>)
    ensures e == Exchanged(msg, hisMsg, msg.prompt, up)
    ensures h == hisMsg + (if e.Some? then Turn(e.value) else [])
  {
    assert msg.(prompt := msg.prompt) == msg;
    var built := MakeChatRequestAsWritten(msg, hisMsg);
    if built.None? {
      return None, hisMsg;
    }
    var req := built.value;
    var a := ChatCompletion(req.stream, up);
    e := Some(Exchange(msg.prompt, req, a));
    h := hisMsg;
    if a.Answered? {
      h := h + [req.messages[|req.messages| - 1]];
      h := h + [a.msg];
    }
  }

  /** One pass of the scanner loop over line i: returns the finished session when the line
      ends it ("q" or a panic), and otherwise the new history and exchanges. */
  method Line(m: Message, msg: Message, lines: seq<string>, ups: seq<Upstream>,
              hisMsg: seq<ChatMessage>, done: seq<Exchange>, i: nat)
    returns (stop: Option<Session>, msg': Message, hisMsg': seq<ChatMessage>, done': seq<Exchange>)
    requires i < |lines| && |ups| >= |lines| && msg == m.(prompt := msg.prompt)
    requires Resumes(m, lines, ups, hisMsg, done, i)
    ensures msg' == m.(prompt := msg'.prompt)
    ensures stop.Some? ==> stop.value == Run(m, [], lines, ups)
    ensures stop.None? ==> Resumes(m, lines, ups, hisMsg', done', i + 1)
  {
    msg', hisMsg', done' := msg, hisMsg, done;
    var input := TrimSpace(lines[i]);
    if input == "" {
      AdvanceSkip(m, lines, ups, hisMsg, done, i);
      return None, msg', hisMsg', done';
    }
    if input == "q" {
      AdvanceQuit(m, lines, ups, hisMsg, done, i);
      return Some(Session(hisMsg, done, Quit)), msg', hisMsg', done';
    }
    msg' := msg.(prompt := input);
    var e, h := Ask(msg', hisMsg, ups[i]);
    assert e == Exchanged(m, hisMsg, input, ups[i]);
    if e.None? {
      AdvanceRequestPanic(m, lines, ups, hisMsg, done, i);
      return Some(Session(hisMsg, done, RequestPanic)), msg', hisMsg', done';
    }
    if e.value.answer.Panicked? {
      AdvancePanic(m, lines, ups, hisMsg, done, i);
      return Some(Session(hisMsg, done + [e.value], Panic)), msg', hisMsg', done';
    }
    AdvanceStep(m, lines, ups, hisMsg, done, i);
    hisMsg' := h;
    done' := done + [e.value];
    stop := None;
  }

  /** Chat: the scanner loop, with `msg` standing for the caller's *Message whose Prompt it
      overwrites for every request. */
  method Chat(m: Message, lines: seq<string>, ups: seq<Upstream>) returns (s: Session)
    requires |ups| >= |lines|
    ensures s == Run(m, [], lines, ups)
  {
    var msg := m;
    var hisMsg: seq<ChatMessage> := [];
    var done: seq<Exchange> := [];
    var i := 0;
    assert lines[0..] == lines && ups[0..] == ups;
    while i < |lines|
      invariant i <= |lines| && msg == m.(prompt := msg.prompt)
      invariant Resumes(m, lines, ups, hisMsg, done, i)
    {
      var stop;
      stop, msg, hisMsg, done := Line(m, msg, lines, ups, hisMsg, done, i);
      if stop.Some? {
        return stop.value;
      }
      i := i + 1;
    }
    Finish(m, lines, ups, hisMsg, done);
    return Session(hisMsg, done, InputEnd);
  }

  // ---------------------------------------------------------------------------------------
  // Properties of a session

  lemma TurnsCons(e: Exchange, rest: seq<Exchange>, k: nat)
    requires k <= |rest|
    ensures Turns([e] + rest) == Turn(e) + Turns(rest)
    ensures Turns(([e] + rest)[..k + 1]) == Turn(e) + Turns(rest[..k])
  {
    assert ([e] + rest)[1..] == rest;
    assert ([e] + rest)[..k + 1] == [e] + rest[..k];
    assert ([e] + rest[..k])[1..] == rest[..k];
  }

  lemma Assoc(a: seq<ChatMessage>, b: seq<ChatMessage>, c: seq<ChatMessage>)
    ensures a + b + c == a + (b + c)
  {
  }

  /** Every exchange was built from the history as it stood before it. */
  predicate Built(m: Message, h: seq<ChatMessage>, es: seq<Exchange>) {
    forall k :: 0 <= k < |es| ==>
      MakeChatRequestAsWritten(m.(prompt := es[k].prompt), h + Turns(es[..k])) == Some(es[k].request)
  }

  /** Every prompt is a non-blank line other than "q". */
  predicate Prompts(es: seq<Exchange>) {
    forall k :: 0 <= k < |es| ==> es[k].prompt != "" && es[k].prompt != "q"
  }

  /** Streamed replies are assistant messages. */
  predicate StreamRoles(m: Message, es: seq<Exchange>) {
    forall k :: 0 <= k < |es| && m.stream && es[k].answer.Answered? ==> es[k].answer.msg.role == Assistant
  }

  /** Only the last exchange can have panicked. */
  predicate PanicLast(es: seq<Exchange>) {
    forall k :: 0 <= k < |es| - 1 ==> !es[k].answer.Panicked?
  }

  lemma BuiltCons(m: Message, h: seq<ChatMessage>, e: Exchange, rest: seq<Exchange>)
    requires MakeChatRequestAsWritten(m.(prompt := e.prompt), h) == Some(e.request)
    requires Built(m, h + Turn(e), rest)
    ensures Built(m, h, [e] + rest)
  {
    var es := [e] + rest;
    forall k | 0 <= k < |es|
      ensures MakeChatRequestAsWritten(m.(prompt := es[k].prompt), h + Turns(es[..k])) == Some(es[k].request)
    {
      if k == 0 {
        assert es[..0] == [];
        assert h + Turns(es[..0]) == h;
      } else {
        TurnsCons(e, rest, k - 1);
        assert es[k] == rest[k - 1];
        Assoc(h, Turn(e), Turns(rest[..k - 1]));
      }
    }
  }

  lemma ListsCons(m: Message, e: Exchange, rest: seq<Exchange>)
    requires e.prompt != "" && e.prompt != "q" && !e.answer.Panicked?
    requires m.stream && e.answer.Answered? ==> e.answer.msg.role == Assistant
    requires Prompts(rest) && StreamRoles(m, rest) && PanicLast(rest)
    ensures Prompts([e] + rest) && StreamRoles(m, [e] + rest) && PanicLast([e] + rest)
  {
    var es := [e] + rest;
    assert forall k :: 0 < k < |es| ==> es[k] == rest[k - 1];
  }

  lemma HistoryCons(h: seq<ChatMessage>, e: Exchange, rest: seq<Exchange>, final: seq<ChatMessage>)
    requires final == h + Turn(e) + Turns(rest)
    ensures final == h + Turns([e] + rest)
  {
    TurnsCons(e, rest, 0);
    Assoc(h, Turn(e), Turns(rest));
  }

  /** What every session satisfies, from its starting history h. */
  predicate Shaped(m: Message, h: seq<ChatMessage>, s: Session) {
    && s.history == h + Turns(s.exchanges)
    && Built(m, h, s.exchanges) && Prompts(s.exchanges) && StreamRoles(m, s.exchanges)
    && PanicLast(s.exchanges)
    && (s.end == Panic ==> s.exchanges != [] && s.exchanges[|s.exchanges| - 1].answer.Panicked?)
    && (s.end == RequestPanic ==> m.history >= 0x8000_0000_0000_0000)
  }

  lemma EndShaped(m: Message, h: seq<ChatMessage>, end: SessionEnd)
    requires end != Panic
    requires end == RequestPanic ==> m.history >= 0x8000_0000_0000_0000
    ensures Shaped(m, h, Session(h, [], end))
  {
    assert h + Turns([]) == h;
  }

  lemma PanicShaped(m: Message, h: seq<ChatMessage>, e: Exchange)
    requires MakeChatRequestAsWritten(m.(prompt := e.prompt), h) == Some(e.request)
    requires e.prompt != "" && e.prompt != "q" && e.answer.Panicked?
    ensures Shaped(m, h, Session(h, [e], Panic))
  {
    assert [e][..0] == [] && [e][1..] == [];
    assert Turns([e]) == Turn(e) + Turns([]);
    assert h + Turns([e]) == h;
    assert h + Turns([e][..0]) == h;
  }

  lemma ConsShaped(m: Message, h: seq<ChatMessage>, e: Exchange, rest: Session)
    requires MakeChatRequestAsWritten(m.(prompt := e.prompt), h) == Some(e.request)
    requires e.prompt != "" && e.prompt != "q" && !e.answer.Panicked?
    requires m.stream && e.answer.Answered? ==> e.answer.msg.role == Assistant
    requires Shaped(m, h + Turn(e), rest)
    ensures Shaped(m, h, rest.(exchanges := [e] + rest.exchanges))
  {
    HistoryCons(h, e, rest.exchanges, rest.history);
    BuiltCons(m, h, e, rest.exchanges);
    ListsCons(m, e, rest.exchanges);
    var es := [e] + rest.exchanges;
    assert es[|es| - 1] == if rest.exchanges == [] then e else rest.exchanges[|rest.exchanges| - 1];
  }

  /** Every exchange was built from the history as it stood, every prompt is a non-blank line
      other than "q", streamed replies are assistant messages, only the last exchange can have
      panicked (and a panic ends the session), a request fails to build only for a History of
      2^63 or more, and the history is the starting one followed by the turns of the successful
      exchanges, in order. */
  lemma {:induction false} RunShape(m: Message, h: seq<ChatMessage>, lines: seq<string>, ups: seq<Upstream>)
    requires |ups| >= |lines|
    ensures Shaped(m, h, Run(m, h, lines, ups))
    decreases |lines|
  {
    if lines == [] {
      EndShaped(m, h, InputEnd);
      return;
    }
    RunLine(m, h, lines, ups, 0);
    assert lines[0..] == lines && ups[0..] == ups;
    var input := TrimSpace(lines[0]);
    if input == "" {
      RunShape(m, h, lines[1..], ups[1..]);
    } else if input == "q" {
      EndShaped(m, h, Quit);
    } else {
      var e := Exchanged(m, h, input, ups[0]);
      if e.None? {
        EndShaped(m, h, RequestPanic);
      } else if e.value.answer.Panicked? {
        PanicShaped(m, h, e.value);
      } else {
        RunShape(m, h + Turn(e.value), lines[1..], ups[1..]);
        ConsShaped(m, h, e.value, Run(m, h + Turn(e.value), lines[1..], ups[1..]));
      }
    }
  }

  lemma PairedAppend(a: seq<ChatMessage>, b: seq<ChatMessage>)
    requires Paired(a) && Paired(b)
    ensures Paired(a + b)
  {
    forall i | 0 <= i < |a + b| && i % 2 == 0 ensures (a + b)[i].role == User {
      if i >= |a| {
        assert (a + b)[i] == b[i - |a|];
      }
    }
  }

  /** The odd positions hold assistant messages. */
  predicate AssistantReplies(ms: seq<ChatMessage>) {
    forall i :: 0 <= i < |ms| && i % 2 == 1 ==> ms[i].role == Assistant
  }

  lemma AssistantAppend(a: seq<ChatMessage>, b: seq<ChatMessage>)
    requires |a| % 2 == 0 && AssistantReplies(a) && AssistantReplies(b)
    ensures AssistantReplies(a + b)
  {
    forall i | 0 <= i < |a + b| && i % 2 == 1 ensures (a + b)[i].role == Assistant {
      if i >= |a| {
        assert (a + b)[i] == b[i - |a|];
      }
    }
  }

  lemma {:induction false} TurnsShape(es: seq<Exchange>, stream: bool)
    requires forall k :: 0 <= k < |es| && stream && es[k].answer.Answered? ==> es[k].answer.msg.role == Assistant
    ensures Paired(Turns(es)) && |Turns(es)| == 2 * Successes(es)
    ensures stream ==> AssistantReplies(Turns(es))
  {
    if es != [] {
      assert forall k :: 0 <= k < |es[1..]| ==> es[1..][k] == es[k + 1];
      TurnsShape(es[1..], stream);
      PairedAppend(Turn(es[0]), Turns(es[1..]));
      if stream {
        AssistantAppend(Turn(es[0]), Turns(es[1..]));
      }
    }
  }

  /** Starting from an empty history, the console's history always has even length, holds a
      user message at every even position and, for streamed replies, an assistant message at
      every odd one; it grows by one pair per successful exchange and never shrinks. */
  lemma SessionHistory(m: Message, lines: seq<string>, ups: seq<Upstream>)
    requires |ups| >= |lines|
    ensures var s := Run(m, [], lines, ups);
      && Paired(s.history)
      && |s.history| == 2 * Successes(s.exchanges)
      && (m.stream ==> AssistantReplies(s.history))
  {
    RunShape(m, [], lines, ups);
    var s := Run(m, [], lines, ups);
    assert StreamRoles(m, s.exchanges);
    TurnsShape(s.exchanges, m.stream);
    assert [] + Turns(s.exchanges) == Turns(s.exchanges);
  }

  /** Because the console never trims its own history, once more than History pairs are stored
      every request carries all of them but the oldest: with n pairs stored, n - 1 are sent. */
  lemma AllButOldestPair(m: Message, h: seq<ChatMessage>)
    requires Paired(h) && 0 < m.history < |h| / 2
    ensures |MakeChatRequest(m, h).messages| == |SystemPart(m.system)| + 2 * (|h| / 2 - 1) + 1
    ensures MakeChatRequest(m, h).messages == SystemPart(m.system) + h[2..] + [ChatMessage(User, m.prompt)]
    ensures MakeChatRequestAsWritten(m, h) == Some(MakeChatRequest(m, h))
  {
  }

  /** With History the largest uint, the first line already ends the session: the request for
      the empty history cannot be built. */
  lemma HugeHistoryPanicsAtOnce(m: Message, line: string, up: Upstream)
    requires m.history == UintLimit - 1 && TrimSpace(line) != "" && TrimSpace(line) != "q"
    ensures Run(m, [], [line], [up]) == Session([], [], RequestPanic)
  {
    AsWrittenPanicsOnHugeHistory(m.(prompt := TrimSpace(line)));
  }
}
