/** How a browser reads a text/event-stream body, following the "interpreting an event
    stream" algorithm of section 9.2.6 of the WHATWG HTML Living Standard, reduced to the data
    of each dispatched event: lines end at CRLF, LF or CR; a blank line dispatches the data
    buffer (nothing when it is empty, else without its final LF); a line starting with ':' is a
    comment; otherwise the field name runs up to the first ':' and the value follows it, with
    one leading space dropped; only the "data" field adds to the buffer (value plus LF). A line
    missing its terminator at the end of the stream is discarded. */
module EventStream {
  import opened Text

  predicate IsLineBreak(c: char) { c == '\r' || c == '\n' }

  /** The number of characters before the first CR or LF (|s| when there is none). */
  function LineLen(s: string): (k: nat)
    ensures k <= |s|
    ensures k < |s| ==> IsLineBreak(s[k])
    ensures forall i :: 0 <= i < k ==> !IsLineBreak(s[i])
  {
    if s == [] || IsLineBreak(s[0]) then 0 else 1 + LineLen(s[1..])
  }

  /** The characters of a line up to its first ':' (all of it when there is none). */
  function BeforeColon(s: string): (r: string)
    ensures |r| <= |s| && r == s[..|r|] && ':' !in r
    ensures |r| < |s| ==> s[|r|] == ':'
  {
    if s == [] || s[0] == ':' then [] else [s[0]] + BeforeColon(s[1..])
  }

  /** What one non-blank line does to the data buffer. */
  function Field(line: string, buf: string): string
    requires line != []
  {
    if line[0] == ':' then buf
    else
      var name := BeforeColon(line);
      var raw := if |name| < |line| then line[|name| + 1..] else [];
      var value := if raw != [] && raw[0] == ' ' then raw[1..] else raw;
      if name == "data" then buf + value + "\n" else buf
  }

  /** The data buffer without its final LF. */
  function DropLF(buf: string): string {
    if buf != [] && buf[|buf| - 1] == '\n' then buf[..|buf| - 1] else buf
  }

  /** The data of the events dispatched while reading s with `buf` in the data buffer. */
  function Events(s: string, buf: string): seq<string>
    decreases |s|
  {
    var k := LineLen(s);
    if k == |s| then []
    else
      var line := s[..k];
      var rest := if s[k] == '\r' && k + 1 < |s| && s[k + 1] == '\n' then s[k + 2..] else s[k + 1..];
      if line == [] then
        (if buf == [] then Events(rest, []) else [DropLF(buf)] + Events(rest, []))
      else Events(rest, Field(line, buf))
  }

  // ---------------------------------------------------------------------------------------

  lemma {:induction false} LineLenAppend(p: string, q: string)
    requires forall i :: 0 <= i < |p| ==> !IsLineBreak(p[i])
    ensures LineLen(p + q) == |p| + LineLen(q)
  {
    if p != [] {
      assert (p + q)[1..] == p[1..] + q;
      LineLenAppend(p[1..], q);
    } else {
      assert p + q == q;
    }
  }

  lemma {:induction false} BeforeColonAppend(p: string, q: string)
    requires ':' !in p
    ensures BeforeColon(p + [':'] + q) == p
  {
    if p != [] {
      assert (p + [':'] + q)[1..] == p[1..] + [':'] + q;
      BeforeColonAppend(p[1..], q);
    }
  }

  /** A "data: " line carrying a line of text: the text is added to the buffer with a LF. */
  lemma DataLine(a: string, rest: string, buf: string)
    requires forall i :: 0 <= i < |a| ==> !IsLineBreak(a[i])
    ensures Events("data: " + a + "\n" + rest, buf) == Events(rest, buf + a + "\n")
  {
    var line := "data: " + a;
    assert forall i :: 0 <= i < |line| ==> !IsLineBreak(line[i]);
    LfLine(line, rest, buf);
    DataField(a, buf);
  }

  /** Replacing the LFs of a + LF + b, where a has none, splits at that LF. */
  lemma ReplaceAtFirst(a: string, b: string, rep: string)
    requires '\n' !in a
    ensures Replace(a + "\n" + b, '\n', rep) == a + rep + Replace(b, '\n', rep)
  {
    assert a + "\n" + b == a + ("\n" + b);
    ReplaceAppend(a, "\n" + b, '\n', rep);
    ReplaceAppend("\n", b, '\n', rep);
    assert "\n"[1..] == [];
    assert Replace("\n", '\n', rep) == rep + Replace([], '\n', rep);
  }

  /** The framing of a text as "data:" lines: "data: " + the text with each LF replaced by
      LF + "data: ", ended by a LF. */
  function DataBlock(t: string): string {
    "data: " + Replace(t, '\n', "\ndata: ") + "\n"
  }

  lemma DataBlockSplit(a: string, b: string, rest: string)
    requires '\n' !in a
    ensures DataBlock(a + "\n" + b) + rest == "data: " + a + "\n" + (DataBlock(b) + rest)
  {
    ReplaceAtFirst(a, b, "\ndata: ");
  }

  /** A data block of a single line of text. */
  lemma DataLinesSingle(t: string, rest: string, buf: string)
    requires forall i :: 0 <= i < |t| ==> !IsLineBreak(t[i])
    ensures Events(DataBlock(t) + rest, buf) == Events(rest, buf + t + "\n")
  {
    assert '\n' !in t by {
      forall i | 0 <= i < |t| ensures t[i] != '\n' {
        assert !IsLineBreak(t[i]);
      }
    }
    assert DataBlock(t) + rest == "data: " + t + "\n" + rest;
    DataLine(t, rest, buf);
  }

  /** The first line of a data block. */
  lemma DataLinesStep(a: string, b: string, rest: string, buf: string)
    requires forall i :: 0 <= i < |a| ==> !IsLineBreak(a[i])
    ensures Events(DataBlock(a + "\n" + b) + rest, buf) == Events(DataBlock(b) + rest, buf + a + "\n")
  {
    assert '\n' !in a by {
      forall i | 0 <= i < |a| ensures a[i] != '\n' {
        assert !IsLineBreak(a[i]);
      }
    }
    DataBlockSplit(a, b, rest);
    DataLine(a, DataBlock(b) + rest, buf);
  }

  lemma BufferAppend(buf: string, a: string, b: string)
    ensures buf + a + "\n" + b + "\n" == buf + (a + "\n" + b) + "\n"
  {
  }

  /** A data block of a text without CR reads back as the text plus a LF added to the buffer. */
  lemma {:induction false} DataLines(t: string, rest: string, buf: string)
    requires '\r' !in t
    ensures Events(DataBlock(t) + rest, buf) == Events(rest, buf + t + "\n")
    decreases |t|
  {
    var k := LineLen(t);
    if k == |t| {
      DataLinesSingle(t, rest, buf);
    } else {
      var a := t[..k];
      var b := t[k + 1..];
      assert t == a + "\n" + b;
      assert forall i :: 0 <= i < |a| ==> !IsLineBreak(a[i]);
      DataLinesStep(a, b, rest, buf);
      assert '\r' !in b;
      var buf1 := buf + a + "\n";
      DataLines(b, rest, buf1);
      BufferAppend(buf, a, b);
    }
  }

  lemma DropLFAppend(x: string)
    ensures DropLF(x + "\n") == x
  {
    assert (x + "\n")[..|x|] == x;
  }

  /** A blank line dispatches a non-empty buffer without its final LF. */
  lemma BlankLine(rest: string, buf: string)
    requires buf != []
    ensures Events("\n" + rest, buf) == [DropLF(buf)] + Events(rest, [])
  {
    var s := "\n" + rest;
    assert s[0] == '\n';
    assert s[..0] == [];
    assert s[1..] == rest;
  }

  /** A final blank line dispatches a non-empty buffer and ends the stream. */
  lemma LastBlankLine(buf: string)
    requires buf != []
    ensures Events("\n", buf) == [DropLF(buf)]
  {
    assert "\n"[..0] == [] && "\n"[1..] == [];
  }

  /** A data block followed by a blank line is one event whose data is the text, whenever the
      text holds no CR. */
  lemma {:induction false} EventRoundTrip(t: string, rest: string)
    requires '\r' !in t
    ensures Events(DataBlock(t) + "\n" + rest, []) == [t] + Events(rest, [])
  {
    assert DataBlock(t) + "\n" + rest == DataBlock(t) + ("\n" + rest);
    DataLines(t, "\n" + rest, []);
    assert [] + t + "\n" == t + "\n";
    BlankLine(rest, t + "\n");
    DropLFAppend(t);
  }

  /** A non-blank line ended by a bare CR. */
  lemma CrLine(line: string, rest: string, buf: string)
    requires line != [] && forall i :: 0 <= i < |line| ==> !IsLineBreak(line[i])
    requires rest == [] || rest[0] != '\n'
    ensures Events(line + "\r" + rest, buf) == Events(rest, Field(line, buf))
  {
    var s := line + "\r" + rest;
    assert s == line + ("\r" + rest);
    LineLenAppend(line, "\r" + rest);
    assert ("\r" + rest)[0] == '\r';
    assert s[..|line|] == line;
    assert s[|line| + 1..] == rest;
  }

  /** A non-blank line ended by a LF. */
  lemma LfLine(line: string, rest: string, buf: string)
    requires line != [] && forall i :: 0 <= i < |line| ==> !IsLineBreak(line[i])
    ensures Events(line + "\n" + rest, buf) == Events(rest, Field(line, buf))
  {
    var s := line + "\n" + rest;
    assert s == line + ("\n" + rest);
    LineLenAppend(line, "\n" + rest);
    assert ("\n" + rest)[0] == '\n';
    assert s[..|line|] == line;
    assert s[|line| + 1..] == rest;
  }

  /** The shape of the frame of x CR y when neither part holds a line break. */
  lemma CrFrameShape(x: string, y: string)
    requires forall i :: 0 <= i < |x| ==> !IsLineBreak(x[i])
    requires forall i :: 0 <= i < |y| ==> !IsLineBreak(y[i])
    ensures DataBlock(x + "\r" + y) + "\n" == ("data: " + x) + "\r" + (y + "\n" + "\n")
  {
    var t := x + "\r" + y;
    assert '\n' !in t by {
      forall i | 0 <= i < |t| ensures t[i] != '\n' {
        if i < |x| { assert t[i] == x[i]; } else if i > |x| { assert t[i] == y[i - |x| - 1]; }
      }
    }
  }

  lemma DataPrefixNoBreak(x: string)
    requires forall i :: 0 <= i < |x| ==> !IsLineBreak(x[i])
    ensures forall i :: 0 <= i < |"data: " + x| ==> !IsLineBreak(("data: " + x)[i])
  {
  }

  /** A "data: " line carrying x sets the buffer to buf + x + LF. */
  lemma DataField(x: string, buf: string)
    ensures Field("data: " + x, buf) == buf + x + "\n"
  {
    var line := "data: " + x;
    assert line == "data" + [':'] + (" " + x);
    BeforeColonAppend("data", " " + x);
    assert line[5..] == " " + x;
  }

  lemma DataFieldFresh(x: string)
    ensures Field("data: " + x, []) == x + "\n"
  {
    DataField(x, []);
    assert [] + x + "\n" == x + "\n";
  }

  /** A line naming another field than "data" leaves the buffer alone. */
  lemma IgnoredField(y: string, buf: string)
    requires y != [] && BeforeColon(y) != "data"
    ensures Field(y, buf) == buf
  {
  }

  /** A line ended by CR, then a line ended by LF, then whatever follows. */
  lemma CrThenLf(line: string, y: string, rest: string, buf: string)
    requires line != [] && forall i :: 0 <= i < |line| ==> !IsLineBreak(line[i])
    requires y != [] && forall i :: 0 <= i < |y| ==> !IsLineBreak(y[i])
    ensures Events(line + "\r" + (y + "\n" + rest), buf) == Events(rest, Field(y, Field(line, buf)))
  {
    assert (y + "\n" + rest)[0] == y[0];
    CrLine(line, y + "\n" + rest, buf);
    LfLine(y, rest, Field(line, buf));
  }

  /** A CR inside a text ends the "data:" line early: what follows it becomes a line of its
      own, read as another field (or a comment) and ignored, so only the part before the CR
      arrives; for example "a" CR "b" arrives as "a". */
  lemma CarriageReturnTruncates(x: string, y: string)
    requires forall i :: 0 <= i < |x| ==> !IsLineBreak(x[i])
    requires y != [] && forall i :: 0 <= i < |y| ==> !IsLineBreak(y[i])
    requires BeforeColon(y) != "data"
    ensures Events(DataBlock(x + "\r" + y) + "\n", []) == [x]
  {
    CrFrameShape(x, y);
    DataPrefixNoBreak(x);
    CrThenLf("data: " + x, y, "\n", []);
    DataFieldFresh(x);
    IgnoredField(y, x + "\n");
    LastBlankLine(x + "\n");
    DropLFAppend(x);
  }
}
