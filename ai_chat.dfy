/** pkg/ai/chat.go: the conversation of the stand-alone command. A line that is blank after
    trimming is ignored; any other line is sent as it was typed, after the system prompt and,
    when the history setting is positive, the stored history, from which the oldest pair is
    first dropped for good whenever more pairs are stored than the setting allows. A successful
    turn stores the user message and the reply. Lines come in as a sequence and the SDK's answer
    to the request made for line i is ups[i]. */
module AiChat {
  import opened Base
  import opened Text
  import opened OpenAI
  import opened ChatgptClient
  import opened Cli

  /** The arguments of ai.Chat other than the client. */
  datatype Settings = Settings(stream: bool, user: string, model: string, prompt: string, maxTokens: int, history: int)

  /** hMsgs after the trim at the start of a turn. */
  function Kept(p: Settings, h: seq<ChatMessage>): seq<ChatMessage> {
    if p.history > 0 && |h| / 2 > p.history then h[2..] else h
  }

  /** The request sent for a non-blank line: the stream flag is passed to chatCompletion
      separately and the request's own Stream field keeps its zero value. */
  function Request(p: Settings, h: seq<ChatMessage>, input: string): ChatRequest {
    ChatRequest(
      model := p.model,
      messages := SystemPart(p.prompt) + (if p.history > 0 then Kept(p, h) else []) + [ChatMessage(User, input)],
      maxTokens := p.maxTokens,
      stream := false,
      user := p.user,
      n := 1)
  }

  function Exchanged(p: Settings, h: seq<ChatMessage>, input: string, up: Upstream): Exchange {
    Exchange(input, Request(p, h, input), Reply(p.stream, up))
  }

  /** hMsgs after a turn that did not panic. */
  function After(p: Settings, h: seq<ChatMessage>, e: Exchange): seq<ChatMessage> {
    Kept(p, h) + (if e.answer.Answered? then [ChatMessage(User, e.prompt), e.answer.msg] else [])
  }

  /** The session the scanner loop runs from stored history h over the remaining lines. */
  function Run(p: Settings, h: seq<ChatMessage>, lines: seq<string>, ups: seq<Upstream>): Session
    requires |ups| >= |lines|
    decreases |lines|
  {
    if lines == [] then Session(h, [], InputEnd)
    else if TrimSpace(lines[0]) == "" then Run(p, h, lines[1..], ups[1..])
    else
      var e := Exchanged(p, h, lines[0], ups[0]);
      if e.answer.Panicked? then Session(Kept(p, h), [e], Panic)
      else
        Prepend([e], Run(p, After(p, h, e), lines[1..], ups[1..]))
  }

  // ---------------------------------------------------------------------------------------
  // The loop

  lemma RunLine(p: Settings, h: seq<ChatMessage>, lines: seq<string>, ups: seq<Upstream>, i: nat)
    requires i < |lines| && |ups| >= |lines|
    ensures var r := Run(p, h, lines[i..], ups[i..]);
      var e := Exchanged(p, h, lines[i], ups[i]);
      && (TrimSpace(lines[i]) == "" ==> r == Run(p, h, lines[i + 1..], ups[i + 1..]))
      && (TrimSpace(lines[i]) != "" && e.answer.Panicked? ==> r == Session(Kept(p, h), [e], Panic))
      && (TrimSpace(lines[i]) != "" && !e.answer.Panicked? ==>
            r == Prepend([e], Run(p, After(p, h, e), lines[i + 1..], ups[i + 1..])))
  {
    assert lines[i..][0] == lines[i] && ups[i..][0] == ups[i];
    assert lines[i..][1..] == lines[i + 1..] && ups[i..][1..] == ups[i + 1..];
  }

  /** The loop has made the exchanges `done` and stores h before line i. */
  predicate Resumes(p: Settings, lines: seq<string>, ups: seq<Upstream>, h: seq<ChatMessage>,
                    done: seq<Exchange>, i: nat)
    requires i <= |lines| && |ups| >= |lines|
  {
    Run(p, [], lines, ups) == Prepend(done, Run(p, h, lines[i..], ups[i..]))
  }

  /** One line of the loop, case by case: a blank line is skipped, a panicking request ends
      the session with the exchange, and any other request moves on with the exchange made
      and the history it leaves. */
  lemma AdvanceSkip(p: Settings, lines: seq<string>, ups: seq<Upstream>, h: seq<ChatMessage>,
                    done: seq<Exchange>, i: nat)
    requires i < |lines| && |ups| >= |lines| && Resumes(p, lines, ups, h, done, i)
    requires TrimSpace(lines[i]) == ""
    ensures Resumes(p, lines, ups, h, done, i + 1)
  {
    RunLine(p, h, lines, ups, i);
  }

  lemma AdvancePanic(p: Settings, lines: seq<string>, ups: seq<Upstream>, h: seq<ChatMessage>,
                     done: seq<Exchange>, i: nat)
    requires i < |lines| && |ups| >= |lines| && Resumes(p, lines, ups, h, done, i)
    requires TrimSpace(lines[i]) != "" && Exchanged(p, h, lines[i], ups[i]).answer.Panicked?
    ensures Run(p, [], lines, ups) == Session(Kept(p, h), done + [Exchanged(p, h, lines[i], ups[i])], Panic)
  {
    RunLine(p, h, lines, ups, i);
  }

  lemma AdvanceStep(p: Settings, lines: seq<string>, ups: seq<Upstream>, h: seq<ChatMessage>,
                    done: seq<Exchange>, i: nat)
    requires i < |lines| && |ups| >= |lines| && Resumes(p, lines, ups, h, done, i)
    requires TrimSpace(lines[i]) != "" && !Exchanged(p, h, lines[i], ups[i]).answer.Panicked?
    ensures var e := Exchanged(p, h, lines[i], ups[i]);
      Resumes(p, lines, ups, After(p, h, e), done + [e], i + 1)
  {
    RunLine(p, h, lines, ups, i);
    var e := Exchanged(p, h, lines[i], ups[i]);
    PrependCons(done, e, Run(p, After(p, h, e), lines[i + 1..], ups[i + 1..]));
  }

  lemma Finish(p: Settings, lines: seq<string>, ups: seq<Upstream>, h: seq<ChatMessage>, done: seq<Exchange>)
    requires |ups| >= |lines| && Resumes(p, lines, ups, h, done, |lines|)
    ensures Run(p, [], lines, ups) == Session(h, done, InputEnd)
  {
    assert lines[|lines|..] == [];
    assert done + [] == done;
  }

  /** One turn for a non-blank line: trims hMsgs in place when it holds more pairs than the
      setting, assembles the request, asks for the reply and stores user message and reply. */
  method Turn(p: Settings, hMsgs: seq<ChatMessage>, input: string, up: Upstream)
    returns (e: Exchange, kept: seq<ChatMessage>, h: seq<ChatMessage>)
    ensures e == Exchanged(p, hMsgs, input, up)
    ensures kept == Kept(p, hMsgs) && h == After(p, hMsgs, e)
  {
    var msgs: seq<ChatMessage> := [];
    if p.prompt != "" {
      msgs := msgs + [ChatMessage(System, p.prompt)];
    }
    kept := hMsgs;
    if p.history > 0 {
      if |kept| / 2 > p.history {
        kept := kept[2..];
      }
      msgs := msgs + kept;
    }
    var uMsg := ChatMessage(User, input);
    msgs := msgs + [uMsg];
    var req := ChatRequest(model := p.model, messages := msgs, maxTokens := p.maxTokens,
                           stream := false, user := p.user, n := 1);
    var a := ChatCompletion(p.stream, up);
    e := Exchange(input, req, a);
    h := kept;
    if a.Answered? {
      h := h + [uMsg];
      h := h + [a.msg];
    }
  }

  /** One pass of the scanner loop over line i. */
  method Line(p: Settings, lines: seq<string>, ups: seq<Upstream>, hMsgs: seq<ChatMessage>,
              done: seq<Exchange>, i: nat)
    returns (stop: Option<Session>, hMsgs': seq<ChatMessage>, done': seq<Exchange>)
    requires i < |lines| && |ups| >= |lines| && Resumes(p, lines, ups, hMsgs, done, i)
    ensures stop.Some? ==> stop.value == Run(p, [], lines, ups)
    ensures stop.None? ==> Resumes(p, lines, ups, hMsgs', done', i + 1)
  {
    hMsgs', done' := hMsgs, done;
    var input := lines[i];
    if TrimSpace(input) == "" {
      AdvanceSkip(p, lines, ups, hMsgs, done, i);
      return None, hMsgs', done';
    }
    var e, kept, h := Turn(p, hMsgs, input, ups[i]);
    if e.answer.Panicked? {
      AdvancePanic(p, lines, ups, hMsgs, done, i);
      return Some(Session(kept, done + [e], Panic)), hMsgs', done';
    }
    AdvanceStep(p, lines, ups, hMsgs, done, i);
    hMsgs' := h;
    done' := done + [e];
    stop := None;
  }

  /** Chat: the scanner loop over the input lines. */
  method Chat(p: Settings, lines: seq<string>, ups: seq<Upstream>) returns (s: Session)
    requires |ups| >= |lines|
    ensures s == Run(p, [], lines, ups)
  {
    var hMsgs: seq<ChatMessage> := [];
    var done: seq<Exchange> := [];
    var i := 0;
    assert lines[0..] == lines && ups[0..] == ups;
    while i < |lines|
      invariant i <= |lines| && Resumes(p, lines, ups, hMsgs, done, i)
    {
      var stop;
      stop, hMsgs, done := Line(p, lines, ups, hMsgs, done, i);
      if stop.Some? {
        return stop.value;
      }
      i := i + 1;
    }
    Finish(p, lines, ups, hMsgs, done);
    return Session(hMsgs, done, InputEnd);
  }

  // ---------------------------------------------------------------------------------------
  // Properties

  /** The stored history: whole pairs, each starting with a user message, and at most one pair
      over the limit when the limit is positive. */
  predicate Stored(p: Settings, h: seq<ChatMessage>) {
    Paired(h) && (p.history > 0 ==> |h| / 2 <= p.history + 1)
  }

  /** A request as ai.Chat assembles it: the system prompt first, whole pairs of stored history
      in the middle (none at all when the setting is not positive, at most `history` pairs
      when it is), the line as typed last; the line is not blank. */
  predicate Assembled(p: Settings, e: Exchange) {
    var ms := e.request.messages;
    var sys := SystemPart(p.prompt);
    && TrimSpace(e.prompt) != ""
    && |ms| >= |sys| + 1 && ms[..|sys|] == sys && ms[|ms| - 1] == ChatMessage(User, e.prompt)
    && Paired(ms[|sys|..|ms| - 1])
    && (if p.history > 0 then |ms| - |sys| - 1 <= 2 * p.history else |ms| == |sys| + 1)
    && e.request.model == p.model && e.request.user == p.user && e.request.maxTokens == p.maxTokens
  }

  lemma PairedDrop(h: seq<ChatMessage>)
    requires Paired(h) && |h| >= 2
    ensures Paired(h[2..])
  {
    forall i | 0 <= i < |h[2..]| && i % 2 == 0 ensures h[2..][i].role == User {
      assert h[2..][i] == h[i + 2];
    }
  }

  lemma PairedAppendTurn(h: seq<ChatMessage>, u: ChatMessage, r: ChatMessage)
    requires Paired(h) && u.role == User
    ensures Paired(h + [u, r])
  {
    forall i | 0 <= i < |h + [u, r]| && i % 2 == 0 ensures (h + [u, r])[i].role == User {
      if i < |h| {
        assert (h + [u, r])[i] == h[i];
      }
    }
  }

  lemma KeptStored(p: Settings, h: seq<ChatMessage>)
    requires Stored(p, h)
    ensures Paired(Kept(p, h)) && (p.history > 0 ==> |Kept(p, h)| / 2 <= p.history)
    ensures Stored(p, Kept(p, h))
  {
    if p.history > 0 && |h| / 2 > p.history {
      PairedDrop(h);
    }
  }

  lemma RequestParts(p: Settings, h: seq<ChatMessage>, input: string)
    ensures var ms := Request(p, h, input).messages;
      var sys := SystemPart(p.prompt);
      var mid := if p.history > 0 then Kept(p, h) else [];
      && |ms| == |sys| + |mid| + 1
      && ms[..|sys|] == sys && ms[|sys|..|ms| - 1] == mid && ms[|ms| - 1] == ChatMessage(User, input)
  {
    var sys := SystemPart(p.prompt);
    var mid := if p.history > 0 then Kept(p, h) else [];
    var ms := sys + mid + [ChatMessage(User, input)];
    assert ms[..|sys|] == sys;
    assert ms[|sys|..|ms| - 1] == mid;
  }

  /** One turn keeps the stored history well formed and assembles its request as described. */
  lemma TurnStored(p: Settings, h: seq<ChatMessage>, input: string, up: Upstream)
    requires Stored(p, h) && TrimSpace(input) != ""
    ensures var e := Exchanged(p, h, input, up);
      && Assembled(p, e)
      && Stored(p, Kept(p, h))
      && (!e.answer.Panicked? ==> Stored(p, After(p, h, e)))
      && (p.history <= 0 ==> |After(p, h, e)| == |h| + (if e.answer.Answered? then 2 else 0))
  {
    var e := Exchanged(p, h, input, up);
    KeptStored(p, h);
    RequestParts(p, h, input);
    if e.answer.Answered? {
      PairedAppendTurn(Kept(p, h), ChatMessage(User, input), e.answer.msg);
    }
  }

  /** What every session satisfies, from a well-formed stored history h. */
  predicate Shaped(p: Settings, h: seq<ChatMessage>, s: Session) {
    && Stored(p, s.history)
    && (forall k :: 0 <= k < |s.exchanges| ==> Assembled(p, s.exchanges[k]))
    && (p.history <= 0 && s.end != Panic ==> |s.history| == |h| + 2 * Successes(s.exchanges))
  }

  lemma ConsShaped(p: Settings, h: seq<ChatMessage>, e: Exchange, rest: Session)
    requires Assembled(p, e) && !e.answer.Panicked?
    requires p.history <= 0 ==> |After(p, h, e)| == |h| + (if e.answer.Answered? then 2 else 0)
    requires Shaped(p, After(p, h, e), rest)
    ensures Shaped(p, h, rest.(exchanges := [e] + rest.exchanges))
  {
    var es := [e] + rest.exchanges;
    assert es[1..] == rest.exchanges;
    assert forall k :: 0 < k < |es| ==> es[k] == rest.exchanges[k - 1];
  }

  lemma PanicShaped(p: Settings, h: seq<ChatMessage>, e: Exchange)
    requires Assembled(p, e) && Stored(p, Kept(p, h))
    ensures Shaped(p, h, Session(Kept(p, h), [e], Panic))
  {
  }

  lemma {:induction false} RunShaped(p: Settings, h: seq<ChatMessage>, lines: seq<string>, ups: seq<Upstream>)
    requires |ups| >= |lines| && Stored(p, h)
    ensures Shaped(p, h, Run(p, h, lines, ups))
    decreases |lines|
  {
    if lines == [] {
      return;
    }
    RunLine(p, h, lines, ups, 0);
    assert lines[0..] == lines && ups[0..] == ups;
    if TrimSpace(lines[0]) == "" {
      RunShaped(p, h, lines[1..], ups[1..]);
    } else {
      var e := Exchanged(p, h, lines[0], ups[0]);
      TurnStored(p, h, lines[0], ups[0]);
      if e.answer.Panicked? {
        PanicShaped(p, h, e);
      } else {
        RunShaped(p, After(p, h, e), lines[1..], ups[1..]);
        ConsShaped(p, h, e, Run(p, After(p, h, e), lines[1..], ups[1..]));
      }
    }
  }

  /** Starting from an empty history: every request carries whole pairs of history, at most
      `history` of them (none when the setting is not positive), and the stored history never
      holds more than history + 1 pairs; with a setting that is not positive it still grows
      by one pair per successful turn. */
  lemma SessionBounds(p: Settings, lines: seq<string>, ups: seq<Upstream>)
    requires |ups| >= |lines|
    ensures var s := Run(p, [], lines, ups);
      && Paired(s.history)
      && (p.history > 0 ==> |s.history| / 2 <= p.history + 1)
      && (forall k :: 0 <= k < |s.exchanges| ==> Assembled(p, s.exchanges[k]))
      && (p.history <= 0 && s.end != Panic ==> |s.history| == 2 * Successes(s.exchanges))
  {
    RunShaped(p, [], lines, ups);
  }

  /** A turn whose request fails still loses the oldest pair when the trim applies: the stored
      history then shrinks although nothing was answered. */
  lemma FailedTurnStillTrims(p: Settings, h: seq<ChatMessage>, input: string, up: Upstream)
    requires p.history > 0 && |h| / 2 > p.history
    requires Exchanged(p, h, input, up).answer.NoAnswer?
    ensures After(p, h, Exchanged(p, h, input, up)) == h[2..]
  {
  }
}
