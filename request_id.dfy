/** pkg/requestid/request_id.go: a request id is a UUID written as 32 lower-case hexadecimal
    digits (Base16 of section 8 of RFC 4648), its field groups of section 3 of RFC 4122 encoded
    into one 32-byte buffer one after the other, without the hyphens of the usual text form.
    The UUID itself comes from uuid.New and is an input here. */
module RequestId {

  type Byte = x: int | 0 <= x < 256

  /** uuid.UUID: 16 bytes. */
  type Uuid = s: seq<Byte> | |s| == 16 witness [0, 0, 0, 0, 0, 0, 0, 0, 0, 0, 0, 0, 0, 0, 0, 0]

  /** The digits of encoding/hex, lower case. */
  const HexTable: string := "0123456789abcdef"

  /** The byte of the digit for the value d. */
  function HexDigit(d: int): (b: Byte)
    requires 0 <= d < 16
    ensures IsHexDigit(b)
  {
    HexTable[d] as int
  }

  /** '0'-'9' or 'a'-'f'. */
  predicate IsHexDigit(b: int) {
    48 <= b <= 57 || 97 <= b <= 102
  }

  /** The value of a hexadecimal digit. */
  function DigitValue(b: int): (d: int)
    requires IsHexDigit(b)
    ensures 0 <= d < 16
  {
    if b <= 57 then b - 48 else b - 87
  }

  lemma DigitRoundTrip(d: int)
    requires 0 <= d < 16
    ensures DigitValue(HexDigit(d)) == d
  {
  }

  /** hex.EncodeToString as bytes: two digits per byte, high half first. */
  function Hex(src: seq<Byte>): (r: seq<Byte>)
    ensures |r| == 2 * |src|
  {
    if src == [] then [] else [HexDigit(src[0] / 16), HexDigit(src[0] % 16)] + Hex(src[1..])
  }

  /** Byte i of src is spelled at positions 2 * i (high half) and 2 * i + 1 (low half). */
  predicate Spells(h: seq<Byte>, at: int, b: Byte)
    requires 0 <= at && at + 1 < |h|
  {
    h[at] == HexDigit(b / 16) && h[at + 1] == HexDigit(b % 16)
  }

  lemma {:induction false} HexAt(src: seq<Byte>, i: int)
    requires 0 <= i < |src|
    ensures Spells(Hex(src), 2 * i, src[i])
    decreases |src|
  {
    if i > 0 {
      HexAt(src[1..], i - 1);
      assert src[1..][i - 1] == src[i];
    }
  }

  lemma {:induction false} HexAppend(a: seq<Byte>, b: seq<Byte>)
    ensures Hex(a + b) == Hex(a) + Hex(b)
    decreases |a|
  {
    if a == [] {
      assert a + b == b;
    } else {
      assert (a + b)[1..] == a[1..] + b;
      HexAppend(a[1..], b);
    }
  }

  /** Every byte of the encoding is a lower-case hexadecimal digit. */
  lemma HexDigitsOnly(src: seq<Byte>)
    ensures forall k :: 0 <= k < |Hex(src)| ==> IsHexDigit(Hex(src)[k])
  {
    forall k | 0 <= k < |Hex(src)| ensures IsHexDigit(Hex(src)[k]) {
      var i := k / 2;
      HexAt(src, i);
      assert k == 2 * i || k == 2 * i + 1;
    }
  }

  /** hex.Decode of a string of digits of even length. */
  function Unhex(h: seq<Byte>): (r: seq<Byte>)
    requires |h| % 2 == 0 && forall k :: 0 <= k < |h| ==> IsHexDigit(h[k])
  {
    if h == [] then [] else [DigitValue(h[0]) * 16 + DigitValue(h[1])] + Unhex(h[2..])
  }

  /** Decoding the digits gives the bytes back, so different UUIDs get different ids. */
  lemma {:induction false} HexRoundTrip(src: seq<Byte>)
    ensures forall k :: 0 <= k < |Hex(src)| ==> IsHexDigit(Hex(src)[k])
    ensures Unhex(Hex(src)) == src
    decreases |src|
  {
    HexDigitsOnly(src);
    if src != [] {
      var h := Hex(src);
      assert h[2..] == Hex(src[1..]);
      HexRoundTrip(src[1..]);
      DigitRoundTrip(src[0] / 16);
      DigitRoundTrip(src[0] % 16);
    }
  }

  lemma HexInjective(u: Uuid, v: Uuid)
    requires Hex(u) == Hex(v)
    ensures u == v
  {
    HexRoundTrip(u);
    HexRoundTrip(v);
  }

  /** hex.Encode(dst[off:], src): spells byte i of src at dst[off + 2 * i] and the element
      after it, and leaves every other element alone. */
  method Encode(dst: array<Byte>, off: nat, src: seq<Byte>)
    requires off + 2 * |src| <= dst.Length
    modifies dst
    ensures forall i :: 0 <= i < |src| ==> Spells(dst[..], off + 2 * i, src[i])
    ensures forall j :: 0 <= j < dst.Length && (j < off || off + 2 * |src| <= j) ==> dst[j] == old(dst[j])
  {
    var i := 0;
    while i < |src|
      invariant i <= |src|
      invariant forall m :: 0 <= m < i ==> Spells(dst[..], off + 2 * m, src[m])
      invariant forall j :: 0 <= j < dst.Length && (j < off || off + 2 * i <= j) ==> dst[j] == old(dst[j])
    {
      dst[off + 2 * i] := HexTable[src[i] / 16] as int;
      dst[off + 2 * i + 1] := HexTable[src[i] % 16] as int;
      i := i + 1;
    }
  }

  /** encodeHex: the five field groups of the UUID, each at its place in the 32-byte buffer.
      Together they write every position once and spell Hex(v). */
  method EncodeHex(dst: array<Byte>, v: Uuid)
    requires dst.Length == 32
    modifies dst
    ensures dst[..] == Hex(v)
  {
    Encode(dst, 0, v[..4]);
    Encode(dst, 8, v[4..6]);
    Encode(dst, 12, v[6..8]);
    Encode(dst, 16, v[8..10]);
    Encode(dst, 20, v[10..]);
    forall i | 0 <= i < 16 ensures Spells(dst[..], 2 * i, v[i]) {
      if i < 4 {
        assert v[..4][i] == v[i];
      } else if i < 6 {
        assert v[4..6][i - 4] == v[i];
      } else if i < 8 {
        assert v[6..8][i - 6] == v[i];
      } else if i < 10 {
        assert v[8..10][i - 8] == v[i];
      } else {
        assert v[10..][i - 10] == v[i];
      }
    }
    SpellsAll(dst[..], v);
  }

  /** A buffer that spells every byte of src in turn is Hex(src). */
  lemma SpellsAll(h: seq<Byte>, src: seq<Byte>)
    requires |h| == 2 * |src|
    requires forall i :: 0 <= i < |src| ==> Spells(h, 2 * i, src[i])
    ensures h == Hex(src)
  {
    var hex := Hex(src);
    forall k | 0 <= k < |h| ensures h[k] == hex[k] {
      Halves(k, |src|);
      SameSpelling(h, src, k / 2, k);
    }
  }

  /** Position k of a two-per-byte buffer belongs to byte k / 2. */
  lemma Halves(k: int, n: int)
    requires 0 <= k < 2 * n
    ensures 0 <= k / 2 < n && (k == 2 * (k / 2) || k == 2 * (k / 2) + 1)
  {
  }

  lemma SameSpelling(h: seq<Byte>, src: seq<Byte>, i: int, k: int)
    requires 0 <= i < |src| && |h| == 2 * |src| && (k == 2 * i || k == 2 * i + 1)
    requires Spells(h, 2 * i, src[i])
    ensures h[k] == Hex(src)[k]
  {
    HexAt(src, i);
  }

  /** ToBytes: the 32 digits of the UUID. */
  method ToBytes(v: Uuid) returns (b: seq<Byte>)
    ensures |b| == 32 && b == Hex(v)
  {
    var buf := new Byte[32];
    EncodeHex(buf, v);
    b := buf[..];
  }

  /** string(b) for bytes that are ASCII. */
  function AsText(b: seq<Byte>): (s: string)
    ensures |s| == |b| && forall i :: 0 <= i < |b| ==> s[i] as int == b[i]
  {
    seq(|b|, i requires 0 <= i < |b| => b[i] as char)
  }

  /** ToString: the digits of ToBytes as a string. */
  method ToString(v: Uuid) returns (s: string)
    ensures |s| == 32 && s == AsText(Hex(v))
  {
    var b := ToBytes(v);
    s := AsText(b);
  }

  /** New, given the UUID that uuid.New draws. */
  method New(u: Uuid) returns (s: string)
    ensures |s| == 32 && s == AsText(Hex(u))
  {
    s := ToString(u);
  }

  /** NewByes, given the UUID that uuid.New draws. */
  method NewByes(u: Uuid) returns (b: seq<Byte>)
    ensures |b| == 32 && b == Hex(u)
  {
    b := ToBytes(u);
  }

  /** The field groups of section 3 of RFC 4122, in order and without separators: time_low,
      time_mid, time_hi_and_version, the clock sequence, and the node. */
  lemma FieldGroups(v: Uuid)
    ensures Hex(v)[0..8] == Hex(v[0..4])
    ensures Hex(v)[8..12] == Hex(v[4..6])
    ensures Hex(v)[12..16] == Hex(v[6..8])
    ensures Hex(v)[16..20] == Hex(v[8..10])
    ensures Hex(v)[20..32] == Hex(v[10..16])
  {
    assert v == v[0..4] + v[4..6] + v[6..8] + v[8..10] + v[10..16];
    HexAppend(v[0..4] + v[4..6] + v[6..8] + v[8..10], v[10..16]);
    HexAppend(v[0..4] + v[4..6] + v[6..8], v[8..10]);
    HexAppend(v[0..4] + v[4..6], v[6..8]);
    HexAppend(v[0..4], v[4..6]);
  }

  /** Two UUIDs get the same id only when they are equal, and every character of an id is a
      lower-case hexadecimal digit. */
  lemma IdsDistinct(u: Uuid, v: Uuid)
    ensures AsText(Hex(u)) == AsText(Hex(v)) ==> u == v
    ensures forall i :: 0 <= i < 32 ==> ('0' <= AsText(Hex(u))[i] <= '9' || 'a' <= AsText(Hex(u))[i] <= 'f')
  {
    HexDigitsOnly(u);
    if AsText(Hex(u)) == AsText(Hex(v)) {
      assert forall i :: 0 <= i < 32 ==> Hex(u)[i] == AsText(Hex(u))[i] as int == Hex(v)[i];
      HexInjective(u, v);
    }
  }
}
