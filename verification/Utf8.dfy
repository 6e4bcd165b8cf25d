/** UTF-8 as sections 3 and 4 of RFC 3629 define it, and the byte-limited
    truncation of src/core/health.rs. */
module Utf8 {
  import opened Prelude

  const MAX_ERROR_TEXT_BYTES: nat := 1024

  predicate Tail(b: Byte) { 0x80 <= b <= 0xBF }

  /** The first two bytes of a three-byte character. */
  predicate Lead3(a: Byte, b: Byte) {
    || (a == 0xE0 && 0xA0 <= b <= 0xBF)
    || (0xE1 <= a <= 0xEC && Tail(b))
    || (a == 0xED && 0x80 <= b <= 0x9F)
    || (0xEE <= a <= 0xEF && Tail(b))
  }

  /** The first two bytes of a four-byte character. */
  predicate Lead4(a: Byte, b: Byte) {
    || (a == 0xF0 && 0x90 <= b <= 0xBF)
    || (0xF1 <= a <= 0xF3 && Tail(b))
    || (a == 0xF4 && 0x80 <= b <= 0x8F)
  }

  /** Length of the character that starts `s`, or 0 when there is none. */
  function FirstLen(s: Bytes): (n: nat)
    ensures n <= |s| && n <= 4
  {
    if |s| == 0 then 0
    else if s[0] <= 0x7F then 1
    else if |s| >= 2 && 0xC2 <= s[0] <= 0xDF && Tail(s[1]) then 2
    else if |s| >= 3 && Lead3(s[0], s[1]) && Tail(s[2]) then 3
    else if |s| >= 4 && Lead4(s[0], s[1]) && Tail(s[2]) && Tail(s[3]) then 4
    else 0
  }

  predicate Valid(s: Bytes)
    decreases |s|
  {
    s == [] || (FirstLen(s) > 0 && Valid(s[FirstLen(s)..]))
  }

  /** Position `i` lies between two characters of `s`. */
  predicate Boundary(s: Bytes, i: nat)
    decreases |s|
  {
    i == 0 || (0 < FirstLen(s) <= i && Boundary(s[FirstLen(s)..], i - FirstLen(s)))
  }

  /** The one-byte test `str::is_char_boundary` uses instead. */
  predicate IsCharBoundary(s: Bytes, i: nat) {
    i == 0 || i == |s| || (i < |s| && !Tail(s[i]))
  }

  lemma {:induction false} ByteTestIsBoundary(s: Bytes, i: nat)
    requires Valid(s) && i <= |s|
    ensures IsCharBoundary(s, i) <==> Boundary(s, i)
    decreases |s|
  {
    var n := FirstLen(s);
    if n <= i && s != [] {
      ByteTestIsBoundary(s[n..], i - n);
    }
  }

  /** A prefix of a valid string is valid exactly when it ends on a boundary. */
  lemma {:induction false} PrefixValidIffBoundary(s: Bytes, i: nat)
    requires Valid(s) && i <= |s|
    ensures Valid(s[..i]) <==> Boundary(s, i)
    decreases |s|
  {
    var n := FirstLen(s);
    if i != 0 {
      if n <= i {
        assert s[..i][n..] == s[n..][..i - n];
        PrefixValidIffBoundary(s[n..], i - n);
      }
    }
  }

  /** A character is at most four bytes long, so a boundary is never far. */
  lemma {:induction false} NearbyBoundary(s: Bytes, i: nat) returns (j: nat)
    requires Valid(s) && i <= |s|
    ensures j <= i <= j + 3 && Boundary(s, j)
    decreases |s|
  {
    var n := FirstLen(s);
    if i < n || s == [] {
      j := 0;
    } else {
      var k := NearbyBoundary(s[n..], i - n);
      j := k + n;
    }
  }

  /** `r` is the longest valid prefix of `s` of at most 1024 bytes. */
  predicate IsTruncation(s: Bytes, r: Bytes) {
    && r <= s && |r| <= MAX_ERROR_TEXT_BYTES && Valid(r)
    && forall k :: |r| < k <= Min(|s|, MAX_ERROR_TEXT_BYTES) ==> !Valid(s[..k])
  }

  method TruncateString(s: Bytes) returns (r: Bytes, ghost steps: nat)
    requires Valid(s)
    ensures IsTruncation(s, r)
    ensures |s| > MAX_ERROR_TEXT_BYTES ==> |r| >= MAX_ERROR_TEXT_BYTES - 3
    ensures |s| <= MAX_ERROR_TEXT_BYTES ==> r == s
    ensures steps <= 3
  {
    steps := 0;
    if |s| <= MAX_ERROR_TEXT_BYTES {
      return s, 0;
    }
    var end: nat := MAX_ERROR_TEXT_BYTES;
    ghost var near := NearbyBoundary(s, end);
    ByteTestIsBoundary(s, near);
    while end > 0 && !IsCharBoundary(s, end)
      invariant near <= end && end + steps == MAX_ERROR_TEXT_BYTES
      invariant forall k :: end < k <= MAX_ERROR_TEXT_BYTES ==> !Valid(s[..k])
    {
      ByteTestIsBoundary(s, end);
      PrefixValidIffBoundary(s, end);
      end := end - 1;
      steps := steps + 1;
    }
    ByteTestIsBoundary(s, end);
    PrefixValidIffBoundary(s, end);
    r := s[..end];
  }

  // ---- The reference: a string is a sequence of scalar values (section 3) ----

  type Scalar = c: int | 0 <= c < 0xD800 || 0xE000 <= c < 0x11_0000

  function EncodeScalar(c: Scalar): Bytes {
    if c < 0x80 then [c]
    else if c < 0x800 then [0xC0 + c / 64, 0x80 + c % 64]
    else if c < 0x1_0000 then [0xE0 + c / 64 / 64, 0x80 + c / 64 % 64, 0x80 + c % 64]
    else [0xF0 + c / 64 / 64 / 64, 0x80 + c / 64 / 64 % 64, 0x80 + c / 64 % 64, 0x80 + c % 64]
  }

  function Encode(cs: seq<Scalar>): Bytes {
    if cs == [] then [] else EncodeScalar(cs[0]) + Encode(cs[1..])
  }

  /** `high` followed by the six payload bits of a continuation byte. */
  function Append6(high: int, b: Byte): int {
    high * 64 + (b - 0x80)
  }

  /** The value of the character that starts `s`. */
  function FirstScalar(s: Bytes): Scalar
    requires FirstLen(s) > 0
  {
    match FirstLen(s)
    case 1 => s[0]
    case 2 => Append6(s[0] - 0xC0, s[1])
    case 3 => Append6(Append6(s[0] - 0xE0, s[1]), s[2])
    case _ => Append6(Append6(Append6(s[0] - 0xF0, s[1]), s[2]), s[3])
  }

  lemma EncodedScalarIsFirst(c: Scalar, rest: Bytes)
    ensures FirstLen(EncodeScalar(c) + rest) == |EncodeScalar(c)|
  {
    var e := EncodeScalar(c);
    assert forall i :: 0 <= i < |e| ==> (e + rest)[i] == e[i];
  }

  lemma SplitAppend6(high: int, b: Byte)
    requires Tail(b)
    ensures Append6(high, b) / 64 == high && Append6(high, b) % 64 == b - 0x80
  {
  }

  lemma EncodeFirstScalar(s: Bytes)
    requires FirstLen(s) > 0
    ensures EncodeScalar(FirstScalar(s)) == s[..FirstLen(s)]
  {
    match FirstLen(s)
    case 1 =>
    case 2 =>
      SplitAppend6(s[0] - 0xC0, s[1]);
    case 3 =>
      SplitAppend6(s[0] - 0xE0, s[1]);
      SplitAppend6(Append6(s[0] - 0xE0, s[1]), s[2]);
    case _ =>
      SplitAppend6(s[0] - 0xF0, s[1]);
      SplitAppend6(Append6(s[0] - 0xF0, s[1]), s[2]);
      SplitAppend6(Append6(Append6(s[0] - 0xF0, s[1]), s[2]), s[3]);
  }

  /** The grammar of section 4 accepts exactly the encodings of section 3. */
  lemma {:induction false} ValidIffEncoded(s: Bytes)
    ensures Valid(s) <==> exists cs :: Encode(cs) == s
  {
    if Valid(s) {
      var _ := DecodeValid(s);
    }
    forall cs | Encode(cs) == s
      ensures Valid(s)
    {
      EncodedIsValid(cs);
    }
  }

  lemma {:induction false} EncodedIsValid(cs: seq<Scalar>)
    ensures Valid(Encode(cs))
  {
    if cs != [] {
      EncodedScalarIsFirst(cs[0], Encode(cs[1..]));
      EncodedIsValid(cs[1..]);
      assert Encode(cs)[|EncodeScalar(cs[0])|..] == Encode(cs[1..]);
    }
  }

  lemma {:induction false} DecodeValid(s: Bytes) returns (cs: seq<Scalar>)
    requires Valid(s)
    ensures Encode(cs) == s
    decreases |s|
  {
    if s == [] {
      cs := [];
    } else {
      var n := FirstLen(s);
      var rest := DecodeValid(s[n..]);
      EncodeFirstScalar(s);
      cs := [FirstScalar(s)] + rest;
      assert cs[1..] == rest;
      assert s == s[..n] + s[n..];
    }
  }
}
