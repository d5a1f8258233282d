/** The string and number conversions of Go's standard library that the core relies on:
    strings.Replace with a one-character pattern, strings.TrimSpace, strings.ToUpper,
    strings.HasSuffix, strconv.ParseBool, strconv.ParseUint (base 10), strconv.FormatBool,
    strconv.FormatUint and strconv.Itoa. */
module Text {
  import opened Base

  /** Concatenation of a sequence of strings (what a strings.Builder holds after its writes). */
  function Concat(parts: seq<string>): (s: string)
  {
    if parts == [] then [] else Concat(parts[..|parts| - 1]) + parts[|parts| - 1]
  }

  lemma {:induction false} ConcatAppend(a: seq<string>, b: seq<string>)
    ensures Concat(a + b) == Concat(a) + Concat(b)
    decreases |b|
  {
    if b == [] {
      assert a + b == a;
    } else {
      var n := |b| - 1;
      assert (a + b)[..|a + b| - 1] == a + b[..n];
      ConcatAppend(a, b[..n]);
    }
  }

  /** One more part, appended at the end. */
  lemma ConcatPrefix(ts: seq<string>, k: nat)
    requires k < |ts|
    ensures Concat(ts[..k + 1]) == Concat(ts[..k]) + ts[k]
  {
    assert ts[..k + 1][..k] == ts[..k];
  }

  /** strings.Replace(s, string(c), by, -1): every occurrence of c replaced by `rep`. */
  function Replace(s: string, c: char, rep: string): (t: string)
    ensures c !in s ==> t == s
    ensures c !in rep ==> c !in t
  {
    if s == [] then [] else (if s[0] == c then rep else [s[0]]) + Replace(s[1..], c, rep)
  }

  /** Every character of the result comes from `rep` or is a character of s other than c. */
  lemma {:induction false} ReplaceChars(s: string, c: char, rep: string)
    ensures forall x :: x in Replace(s, c, rep) ==> x in rep || (x in s && x != c)
  {
    if s != [] {
      ReplaceChars(s[1..], c, rep);
      assert forall x :: x in s[1..] ==> x in s;
    }
  }

  lemma {:induction false} ReplaceAppend(a: string, b: string, c: char, rep: string)
    ensures Replace(a + b, c, rep) == Replace(a, c, rep) + Replace(b, c, rep)
  {
    if a != [] {
      var h := if a[0] == c then rep else [a[0]];
      assert (a + b)[0] == a[0];
      assert (a + b)[1..] == a[1..] + b;
      assert Replace(a + b, c, rep) == h + Replace(a[1..] + b, c, rep);
      ReplaceAppend(a[1..], b, c, rep);
      assert Replace(a, c, rep) == h + Replace(a[1..], c, rep);
    } else {
      assert a + b == b;
    }
  }

  /** strings.Replace(s, string(c), "", -1): every occurrence of c deleted. */
  function Remove(s: string, c: char): (t: string)
    ensures c !in t
    ensures c !in s ==> t == s
  {
    Replace(s, c, [])
  }

  /** unicode.IsSpace: the Latin-1 spaces and the other White_Space code points. */
  predicate IsSpace(c: char) {
    c == ' ' || c == '\t' || c == '\n' || c == '\U{000B}' || c == '\U{000C}' || c == '\r'
    || c == '\U{0085}' || c == '\U{00A0}' || c == '\U{1680}'
    || ('\U{2000}' <= c <= '\U{200A}')
    || c == '\U{2028}' || c == '\U{2029}' || c == '\U{202F}' || c == '\U{205F}' || c == '\U{3000}'
  }

  function TrimLeft(s: string): (r: string)
    ensures |r| <= |s| && r == s[|s| - |r|..]
    ensures r == [] || !IsSpace(r[0])
    ensures forall i :: 0 <= i < |s| - |r| ==> IsSpace(s[i])
  {
    if s != [] && IsSpace(s[0]) then TrimLeft(s[1..]) else s
  }

  function TrimRight(s: string): (r: string)
    ensures |r| <= |s| && r == s[..|r|]
    ensures r == [] || !IsSpace(r[|r| - 1])
    ensures forall i :: |r| <= i < |s| ==> IsSpace(s[i])
  {
    if s != [] && IsSpace(s[|s| - 1]) then TrimRight(s[..|s| - 1]) else s
  }

  /** r is the infix s[k..k + |r|] of s and everything around it is space. */
  predicate TrimmedAt(s: string, k: int, r: string) {
    0 <= k <= |s| - |r| && r == s[k..k + |r|]
    && (forall i :: 0 <= i < k ==> IsSpace(s[i]))
    && (forall i :: k + |r| <= i < |s| ==> IsSpace(s[i]))
  }

  /** strings.TrimSpace: the infix of s left after removing leading and trailing spaces; it
      neither starts nor ends with a space. */
  function TrimSpace(s: string): (r: string)
    ensures r == [] || (!IsSpace(r[0]) && !IsSpace(r[|r| - 1]))
    ensures exists k :: TrimmedAt(s, k, r)
  {
    TrimBothAt(s);
    TrimRight(TrimLeft(s))
  }

  /** Trimming the left, then the right, leaves the infix at the number of leading spaces. */
  lemma TrimBothAt(s: string)
    ensures TrimmedAt(s, |s| - |TrimLeft(s)|, TrimRight(TrimLeft(s)))
  {
    var l := TrimLeft(s);
    InfixAt(s, l, TrimRight(l));
  }

  /** The right-trimmed prefix r of the suffix l of s sits at |s| - |l| with space around it. */
  lemma InfixAt(s: string, l: string, r: string)
    requires |l| <= |s| && l == s[|s| - |l|..] && forall i :: 0 <= i < |s| - |l| ==> IsSpace(s[i])
    requires |r| <= |l| && r == l[..|r|] && forall i :: |r| <= i < |l| ==> IsSpace(l[i])
    ensures TrimmedAt(s, |s| - |l|, r)
  {
    var k := |s| - |l|;
    assert r == s[k..k + |r|];
    forall i | k + |r| <= i < |s| ensures IsSpace(s[i]) {
      assert s[i] == l[i - k];
    }
  }

  /** A string made of spaces only trims to the empty string, and only such a string does. */
  lemma TrimSpaceEmpty(s: string)
    ensures TrimSpace(s) == [] <==> forall i :: 0 <= i < |s| ==> IsSpace(s[i])
  {
  }

  /** Upper-case mapping of unicode.ToUpper for the ASCII letters and for the two non-ASCII
      letters whose upper case is ASCII (dotless i and long s); every other character is kept.
      The model only compares upper-cased text with ASCII keywords, where this is exact. */
  function UpperChar(c: char): char {
    if 'a' <= c <= 'z' then (c as int - 32) as char
    else if c == '\U{0131}' then 'I'
    else if c == '\U{017F}' then 'S'
    else c
  }

  /** strings.ToUpper, character by character. */
  function ToUpper(s: string): (r: string)
    ensures |r| == |s|
  {
    if s == [] then [] else [UpperChar(s[0])] + ToUpper(s[1..])
  }

  lemma {:induction false} ToUpperAt(s: string, i: nat)
    requires i < |s|
    ensures ToUpper(s)[i] == UpperChar(s[i])
  {
    if i > 0 {
      ToUpperAt(s[1..], i - 1);
    }
  }

  /** A keyword written in capitals, digits and underscores. */
  predicate IsKeyword(k: string) {
    forall i :: 0 <= i < |k| ==> ('A' <= k[i] <= 'Z' || '0' <= k[i] <= '9' || k[i] == '_')
  }

  /** c is one of the spellings whose upper case is the keyword character u. */
  predicate FoldsTo(c: char, u: char) {
    c == u
    || ('A' <= u <= 'Z' && c as int == u as int + 32)
    || (u == 'I' && c == '\U{0131}')
    || (u == 'S' && c == '\U{017F}')
  }

  /** For a keyword character u, upper-casing c gives u exactly when c folds to u. */
  lemma UpperCharFolds(c: char, u: char)
    requires 'A' <= u <= 'Z' || '0' <= u <= '9' || u == '_'
    ensures UpperChar(c) == u <==> FoldsTo(c, u)
  {
  }

  /** Upper-casing s yields the keyword k exactly when s spells k in any mix of cases. */
  lemma UpperMatches(s: string, k: string)
    requires IsKeyword(k)
    ensures ToUpper(s) == k <==> |s| == |k| && forall i :: 0 <= i < |k| ==> FoldsTo(s[i], k[i])
  {
    if |s| == |k| {
      forall i | 0 <= i < |k| ensures ToUpper(s)[i] == k[i] <==> FoldsTo(s[i], k[i]) {
        ToUpperAt(s, i);
        UpperCharFolds(s[i], k[i]);
      }
    }
  }

  /** Upper-casing is idempotent, so two spellings are told apart only by their upper case. */
  lemma ToUpperIdempotent(s: string)
    ensures ToUpper(ToUpper(s)) == ToUpper(s)
  {
    var u := ToUpper(s);
    forall i | 0 <= i < |s| ensures ToUpper(u)[i] == u[i] {
      ToUpperAt(s, i);
      ToUpperAt(u, i);
    }
  }

  /** strings.HasSuffix. */
  predicate HasSuffix(s: string, suffix: string) {
    |suffix| <= |s| && s[|s| - |suffix|..] == suffix
  }

  // ---------------------------------------------------------------------------------------
  // Decimal numbers

  predicate IsDigit(c: char) { '0' <= c <= '9' }

  function DigitChar(d: nat): (c: char)
    requires d < 10
    ensures IsDigit(c) && c as int - '0' as int == d
  {
    ('0' as int + d) as char
  }

  predicate AllDigits(s: string) {
    forall i :: 0 <= i < |s| ==> IsDigit(s[i])
  }

  /** The value of a string of decimal digits, most significant first. */
  function DigitsValue(s: string): nat
    requires AllDigits(s)
  {
    if s == [] then 0 else DigitsValue(s[..|s| - 1]) * 10 + (s[|s| - 1] as int - '0' as int)
  }

  /** strconv.FormatUint(n, 10): decimal digits without leading zeros. */
  function Decimal(n: nat): (s: string)
    ensures |s| >= 1 && AllDigits(s)
    ensures |s| > 1 ==> s[0] != '0'
  {
    if n < 10 then [DigitChar(n)] else Decimal(n / 10) + [DigitChar(n % 10)]
  }

  lemma {:induction false} DecimalValue(n: nat)
    ensures DigitsValue(Decimal(n)) == n
  {
    if n >= 10 {
      var s := Decimal(n);
      assert s[..|s| - 1] == Decimal(n / 10);
      DecimalValue(n / 10);
    }
  }

  /** strconv.Itoa: decimal with a leading minus sign for negative numbers. */
  function Itoa(i: int): (s: string)
    ensures |s| >= 1
  {
    if i < 0 then "-" + Decimal(-i) else Decimal(i)
  }

  /** strconv.ParseUint(s, 10, 0) on a 64-bit platform: succeeds exactly on a non-empty string of
      decimal digits whose value fits in 64 bits (no sign, no underscores, leading zeros allowed). */
  function ParseUint(s: string): (r: Option<Uint>)
    ensures r.Some? <==> s != [] && AllDigits(s) && DigitsValue(s) < UintLimit
    ensures r.Some? ==> r.value == DigitsValue(s)
  {
    if s != [] && AllDigits(s) && DigitsValue(s) < UintLimit then Some(DigitsValue(s)) else None
  }

  /** ParseUint reads back what FormatUint writes. */
  lemma ParseFormatUint(n: Uint)
    ensures ParseUint(Decimal(n)) == Some(n)
  {
    DecimalValue(n);
  }

  const TrueText: string := "true"
  const FalseText: string := "false"

  /** strconv.FormatBool. */
  function FormatBool(b: bool): string {
    if b then TrueText else FalseText
  }

  /** The spellings strconv.ParseBool accepts for true, and those for false. */
  const TrueSpellings: seq<string> := ["1", "t", "T", "TRUE", "true", "True"]
  const FalseSpellings: seq<string> := ["0", "f", "F", "FALSE", "false", "False"]

  /** strconv.ParseBool: the accepted spellings of true and false; anything else is an error. */
  function ParseBool(s: string): Option<bool> {
    if s in TrueSpellings then Some(true)
    else if s in FalseSpellings then Some(false)
    else None
  }

  /** No spelling stands for both values. */
  lemma SpellingsDisjoint()
    ensures forall s :: s in TrueSpellings ==> s !in FalseSpellings
  {
    forall s | s in TrueSpellings ensures s !in FalseSpellings {
      assert |s| == 1 || s[0] == 'T' || s[0] == 't';
    }
  }

  /** ParseBool gives b exactly for b's own spellings, and fails for every other text. */
  lemma ParseBoolIff(s: string, b: bool)
    ensures ParseBool(s) == Some(b) <==> s in (if b then TrueSpellings else FalseSpellings)
    ensures ParseBool(s).None? <==> s !in TrueSpellings && s !in FalseSpellings
  {
    SpellingsDisjoint();
  }

  /** ParseBool reads back what FormatBool writes. */
  lemma ParseFormatBool(b: bool)
    ensures ParseBool(FormatBool(b)) == Some(b)
  {
    assert TrueSpellings[4] == TrueText;
    assert FalseSpellings[4] == FalseText;
    SpellingsDisjoint();
  }
}
