/**
 Python's `bytes.decode("utf-8", "surrogateescape")` and its inverse: section 3 of RFC 3629 for
 well-formed sequences, one lone low surrogate for every byte that belongs to none.
 A Python string is a sequence of code points, surrogates included.
 */
module Utf8 {
  import opened Common

  type codepoint = c: int | 0 <= c <= 0x10FFFF

  predicate Continuation(b: byte) { 0x80 <= b <= 0xBF }

  predicate HighSurrogate(c: int) { 0xD800 <= c <= 0xDBFF }

  predicate LowSurrogate(c: int) { 0xDC00 <= c <= 0xDFFF }

  /** Length of the well-formed sequence at the head of `s`, 0 when there is none. */
  function Width(s: seq<byte>): (n: nat)
    ensures n <= |s| && n <= 4
  {
    if s == [] then 0
    else if s[0] < 0x80 then 1
    else if |s| >= 2 && 0xC2 <= s[0] <= 0xDF && Continuation(s[1]) then 2
    else if |s| >= 3 && Continuation(s[2])
            && (|| (s[0] == 0xE0 && 0xA0 <= s[1] <= 0xBF)
                || (0xE1 <= s[0] <= 0xEF && s[0] != 0xED && Continuation(s[1]))
                || (s[0] == 0xED && 0x80 <= s[1] <= 0x9F)) then 3
    else if |s| >= 4 && Continuation(s[2]) && Continuation(s[3])
            && (|| (s[0] == 0xF0 && 0x90 <= s[1] <= 0xBF)
                || (0xF1 <= s[0] <= 0xF3 && Continuation(s[1]))
                || (s[0] == 0xF4 && 0x80 <= s[1] <= 0x8F)) then 4
    else 0
  }

  function Point2(b0: int, b1: int): int { (b0 - 0xC0) * 0x40 + (b1 - 0x80) }

  function Point3(b0: int, b1: int, b2: int): int {
    (b0 - 0xE0) * 0x1000 + (b1 - 0x80) * 0x40 + (b2 - 0x80)
  }

  function Point4(b0: int, b1: int, b2: int, b3: int): int {
    (b0 - 0xF0) * 0x40000 + (b1 - 0x80) * 0x1000 + (b2 - 0x80) * 0x40 + (b3 - 0x80)
  }

  /** Code point at the head of a non-empty `s`, and how many bytes it takes. */
  function DecodeHead(s: seq<byte>): (codepoint, nat)
    requires s != []
  {
    var n := Width(s);
    if n == 0 then (0xDC00 + s[0] as int, 1)
    else if n == 1 then (s[0] as int, 1)
    else if n == 2 then (Point2(s[0], s[1]), 2)
    else if n == 3 then (Point3(s[0], s[1], s[2]), 3)
    else (Point4(s[0], s[1], s[2], s[3]), 4)
  }

  function Decode(s: seq<byte>): seq<codepoint> {
    if s == [] then []
    else
      var (c, n) := DecodeHead(s);
      [c] + Decode(s[n..])
  }

  /** `None` is the `UnicodeEncodeError` of a surrogate that stands for no byte. */
  function EncodePoint(c: codepoint): Option<seq<byte>> {
    if c < 0x80 then Some([c])
    else if c < 0x800 then Some([0xC0 + c / 0x40, 0x80 + c % 0x40])
    else if 0xDC80 <= c <= 0xDCFF then Some([c - 0xDC00])
    else if 0xD800 <= c <= 0xDFFF then None
    else if c < 0x10000 then Some([0xE0 + c / 0x1000, 0x80 + c / 0x40 % 0x40, 0x80 + c % 0x40])
    else Some([0xF0 + c / 0x40000, 0x80 + c / 0x1000 % 0x40, 0x80 + c / 0x40 % 0x40, 0x80 + c % 0x40])
  }

  function Encode(cs: seq<codepoint>): Option<seq<byte>> {
    if cs == [] then Some([])
    else
      var head, tail := EncodePoint(cs[0]), Encode(cs[1..]);
      if head.None? || tail.None? then None else Some(head.value + tail.value)
  }

  lemma ThreeBytes(b0: byte, b1: byte, b2: byte)
    requires 0xE0 <= b0 <= 0xEF && Continuation(b1) && Continuation(b2)
    requires (b0 == 0xE0 ==> b1 >= 0xA0) && (b0 == 0xED ==> b1 <= 0x9F)
    ensures var c := Point3(b0, b1, b2);
            0x800 <= c < 0x10000 && EncodePoint(c) == Some([b0, b1, b2]) && !HighSurrogate(c)
  {
    var c: codepoint := Point3(b0, b1, b2);
    assert c / 0x40 == (b0 as int - 0xE0) * 0x40 + (b1 as int - 0x80);
    assert c / 0x1000 == b0 as int - 0xE0;
  }

  lemma Packed(a: nat, b: nat)
    requires b < 0x40
    ensures (a * 0x40 + b) / 0x40 == a && (a * 0x40 + b) % 0x40 == b
  {}

  lemma NestedDivision(c: nat)
    ensures c / 0x1000 == c / 0x40 / 0x40 && c / 0x40000 == c / 0x40 / 0x40 / 0x40
  {}

  /** The four six-bit digits of a code point, read back by division. */
  lemma FourDigits(top: nat, hi: nat, mid: nat, lo: nat)
    requires hi < 0x40 && mid < 0x40 && lo < 0x40
    ensures var c := top * 0x40000 + hi * 0x1000 + mid * 0x40 + lo;
            c / 0x40000 == top && c / 0x1000 % 0x40 == hi && c / 0x40 % 0x40 == mid && c % 0x40 == lo
  {
    var upper: nat := top * 0x40 + hi;
    var most: nat := upper * 0x40 + mid;
    var c: nat := most * 0x40 + lo;
    Packed(most, lo);
    Packed(upper, mid);
    Packed(top, hi);
    NestedDivision(c);
    assert c / 0x40 == most && most / 0x40 == upper && upper / 0x40 == top;
    assert c == top * 0x40000 + hi * 0x1000 + mid * 0x40 + lo;
  }

  lemma FourBytes(b0: byte, b1: byte, b2: byte, b3: byte)
    requires 0xF0 <= b0 <= 0xF4 && Continuation(b1) && Continuation(b2) && Continuation(b3)
    requires (b0 == 0xF0 ==> b1 >= 0x90) && (b0 == 0xF4 ==> b1 <= 0x8F)
    ensures var c := Point4(b0, b1, b2, b3);
            0x10000 <= c <= 0x10FFFF && EncodePoint(c) == Some([b0, b1, b2, b3])
  {
    FourDigits(b0 as int - 0xF0, b1 as int - 0x80, b2 as int - 0x80, b3 as int - 0x80);
  }

  /** One byte or two, or a byte that belongs to no sequence. */
  lemma ShortRoundTrip(b0: byte, b1: byte)
    ensures b0 < 0x80 ==> EncodePoint(b0 as int) == Some([b0])
    ensures b0 >= 0x80 ==> EncodePoint(0xDC00 + b0 as int) == Some([b0])
    ensures 0xC2 <= b0 <= 0xDF && Continuation(b1) ==>
              0x80 <= Point2(b0, b1) < 0x800 && EncodePoint(Point2(b0, b1)) == Some([b0, b1])
  {}

  /** Encoding the head code point gives back exactly the bytes it was read from. */
  lemma HeadRoundTrip(s: seq<byte>)
    requires s != []
    ensures var (c, n) := DecodeHead(s);
            && 1 <= n <= |s| && EncodePoint(c) == Some(s[..n]) && !HighSurrogate(c)
  {
    hide EncodePoint, Point2, Point3, Point4;
    var n := Width(s);
    ShortRoundTrip(s[0], if n == 2 then s[1] else 0);
    if n <= 1 {
      assert s[..1] == [s[0]];
    } else if n == 2 {
      assert s[..2] == [s[0], s[1]];
    } else if n == 3 {
      ThreeBytes(s[0], s[1], s[2]);
      assert s[..3] == [s[0], s[1], s[2]];
    } else {
      FourBytes(s[0], s[1], s[2], s[3]);
      assert s[..4] == [s[0], s[1], s[2], s[3]];
    }
  }

  /** Any byte string, well-formed or not, survives decoding and encoding, and the decoded text has
      no high surrogate. */
  lemma {:induction false} RoundTrip(s: seq<byte>)
    ensures Encode(Decode(s)) == Some(s)
    ensures forall i :: 0 <= i < |Decode(s)| ==> !HighSurrogate(Decode(s)[i])
  {
    if s != [] {
      var (c, n) := DecodeHead(s);
      HeadRoundTrip(s);
      hide Width, EncodePoint, DecodeHead;
      RoundTrip(s[n..]);
      assert s[..n] + s[n..] == s;
      assert Decode(s)[0] == c && Decode(s)[1..] == Decode(s[n..]);
    }
  }

  /** A scalar value: any code point but a surrogate. */
  predicate Scalar(c: codepoint) { !(0xD800 <= c <= 0xDFFF) }

  lemma TwoByteHead(c: codepoint, rest: seq<byte>)
    requires 0x80 <= c < 0x800
    ensures EncodePoint(c).Some? && |EncodePoint(c).value| == 2 && DecodeHead(EncodePoint(c).value + rest) == (c, 2)
  {
    var s := EncodePoint(c).value + rest;
    assert s[0] == 0xC0 + c / 0x40 && s[1] == 0x80 + c % 0x40;
  }

  lemma ThreeByteHead(c: codepoint, rest: seq<byte>)
    requires 0x800 <= c < 0x10000 && Scalar(c)
    ensures EncodePoint(c).Some? && |EncodePoint(c).value| == 3 && DecodeHead(EncodePoint(c).value + rest) == (c, 3)
  {
    var s := EncodePoint(c).value + rest;
    var hi, mid, lo := c / 0x1000, c / 0x40 % 0x40, c % 0x40;
    assert s[0] == 0xE0 + hi && s[1] == 0x80 + mid && s[2] == 0x80 + lo;
    assert c / 0x40 == hi * 0x40 + mid;
    assert c == hi * 0x1000 + mid * 0x40 + lo;
    assert Width(s) == 3;
  }

  lemma FourByteHead(c: codepoint, rest: seq<byte>)
    requires c >= 0x10000
    ensures EncodePoint(c).Some? && |EncodePoint(c).value| == 4 && DecodeHead(EncodePoint(c).value + rest) == (c, 4)
  {
    var s := EncodePoint(c).value + rest;
    var top, hi, mid, lo := c / 0x40000, c / 0x1000 % 0x40, c / 0x40 % 0x40, c % 0x40;
    assert s[0] == 0xF0 + top && s[1] == 0x80 + hi && s[2] == 0x80 + mid && s[3] == 0x80 + lo;
    assert c / 0x1000 == top * 0x40 + hi;
    assert c / 0x40 == (top * 0x40 + hi) * 0x40 + mid;
    assert c == top * 0x40000 + hi * 0x1000 + mid * 0x40 + lo;
    assert Width(s) == 4;
  }

  /** Well-formed UTF-8 is read as what it stands for: section 3 of RFC 3629. */
  lemma {:induction false} WellFormedIsDecoded(cs: seq<codepoint>)
    requires forall i :: 0 <= i < |cs| ==> Scalar(cs[i])
    ensures Encode(cs).Some? && Decode(Encode(cs).value) == cs
  {
    if cs != [] {
      var c := cs[0];
      WellFormedIsDecoded(cs[1..]);
      var rest := Encode(cs[1..]).value;
      if c < 0x80 {
        assert ([c] + rest)[0] == c;
      } else if c < 0x800 {
        TwoByteHead(c, rest);
      } else if c < 0x10000 {
        ThreeByteHead(c, rest);
      } else {
        FourByteHead(c, rest);
      }
      var head := EncodePoint(c).value;
      assert DecodeHead(head + rest) == (c, |head|);
      hide DecodeHead, EncodePoint;
      assert (head + rest)[|head|..] == rest;
      assert [c] + cs[1..] == cs;
    }
  }
}
