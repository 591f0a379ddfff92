/**
 The self-identifying cursor `<epoch>-<seq>`: printed in front of every block, returned by the
 client as `Last-Event-ID`, and parsed again when it reconnects.

 A header value is a string of Latin-1 characters, which is what an ASGI server hands over; a query
 value is percent-decoded and may hold any character at all.
 */
module CursorCodec {
  import opened Common
  import opened Broker

  const MAX_INT_DIGITS: int := 4300   // CPython refuses to convert longer numerals

  predicate AsciiDigit(c: char) { '0' <= c <= '9' }

  /** `str.isdigit` per character: the ASCII digits and the superscripts 2, 3 and 1 of Latin-1. */
  predicate DigitChar(c: char) { AsciiDigit(c) || c == '\U{B2}' || c == '\U{B3}' || c == '\U{B9}' }

  predicate IsDigit(s: string) { s != "" && forall i :: 0 <= i < |s| ==> DigitChar(s[i]) }

  /** Exactly the `IsDigit` strings that `int()` converts. */
  predicate Convertible(s: string) {
    s != "" && |s| <= MAX_INT_DIGITS && forall i :: 0 <= i < |s| ==> AsciiDigit(s[i])
  }

  function Value(s: string): nat
    requires forall i :: 0 <= i < |s| ==> AsciiDigit(s[i])
  {
    if s == "" then 0
    else
      assert AsciiDigit(s[|s| - 1]);
      Value(s[..|s| - 1]) * 10 + (s[|s| - 1] as int - '0' as int)
  }

  /** Decimal numeral of a counter value. */
  function Decimal(n: nat): (s: string)
    ensures s != "" && forall i :: 0 <= i < |s| ==> AsciiDigit(s[i])
  {
    var last := [('0' as int + n % 10) as char];
    if n < 10 then last else Decimal(n / 10) + last
  }

  lemma {:induction false} DecimalValue(n: nat)
    ensures Value(Decimal(n)) == n
  {
    var s := Decimal(n);
    if n >= 10 {
      DecimalValue(n / 10);
      assert s[..|s| - 1] == Decimal(n / 10);
    } else {
      assert s[..0] == "";
    }
  }

  lemma {:induction false} DecimalLength(n: nat, k: nat, bound: nat)
    requires 1 <= k && bound == Pow10(k) && n < bound
    ensures |Decimal(n)| <= k
    decreases k
  {
    if n >= 10 {
      assert k > 1;
      DecimalLength(n / 10, k - 1, Pow10(k - 1));
    }
  }

  function Pow10(k: nat): nat { if k == 0 then 1 else 10 * Pow10(k - 1) }

  lemma CounterFits(n: nat)
    requires n <= MAX_COUNTER
    ensures |Decimal(n)| <= 19
  {
    assert Pow10(4) == 10_000;
    assert Pow10(8) == 10_000 * Pow10(4);
    assert Pow10(12) == 10_000 * Pow10(8);
    assert Pow10(16) == 10_000 * Pow10(12);
    assert Pow10(19) == 1_000 * Pow10(16);
    DecimalLength(n, 19, Pow10(19));
  }

  function PrintId(epoch: string, num: nat): string { epoch + "-" + Decimal(num) }

  /** Position of the last `-`, or `|s|` when there is none. */
  function LastDash(s: string): (k: nat)
    ensures k <= |s|
    ensures k < |s| ==> s[k] == '-' && forall i :: k < i < |s| ==> s[i] != '-'
    ensures k == |s| ==> forall i :: 0 <= i < |s| ==> s[i] != '-'
  {
    if s == "" then 0
    else if s[|s| - 1] == '-' then |s| - 1
    else
      var k := LastDash(s[..|s| - 1]);
      if k == |s| - 1 then |s| else k
  }

  datatype Outcome = Parsed(cursor: Cursor) | BadRequest | Uncaught

  function ParseHeader(id: string): Outcome {
    var k := LastDash(id);
    if k == |id| || k == 0 || !IsDigit(id[k + 1..]) then Parsed(Cursor(0, None))
    else if !Convertible(id[k + 1..]) then Uncaught
    else Parsed(Cursor(Value(id[k + 1..]), Some(id[..k])))
  }

  /** All that matters of a query character: a decimal digit of some script, which `int()` converts; a
      digit that is none, such as a superscript; or no digit. */
  datatype Glyph = Nd(digit: int) | OtherDigit | NoDigit

  predicate GlyphsAreDigits(q: seq<Glyph>) { q != [] && forall i :: 0 <= i < |q| ==> !q[i].NoDigit? }

  predicate GlyphsConvert(q: seq<Glyph>) {
    q != [] && |q| <= MAX_INT_DIGITS && forall i :: 0 <= i < |q| ==> q[i].Nd? && 0 <= q[i].digit < 10
  }

  function GlyphValue(q: seq<Glyph>): nat
    requires forall i :: 0 <= i < |q| ==> q[i].Nd? && 0 <= q[i].digit < 10
  {
    if q == [] then 0 else GlyphValue(q[..|q| - 1]) * 10 + q[|q| - 1].digit
  }

  /** `Last-Event-ID` wins; an empty header is no header. */
  function ParseCursor(lastEventId: Option<string>, afterSeq: Option<seq<Glyph>>): Outcome {
    if lastEventId.Some? && lastEventId.value != "" then ParseHeader(lastEventId.value)
    else if afterSeq.None? then Parsed(Cursor(0, None))
    else if !GlyphsAreDigits(afterSeq.value) then BadRequest
    else if !GlyphsConvert(afterSeq.value) then Uncaught
    else Parsed(Cursor(GlyphValue(afterSeq.value), None))
  }

  /** The same numeral in any script of decimal digits. */
  function Glyphs(s: string): (q: seq<Glyph>)
    requires forall i :: 0 <= i < |s| ==> AsciiDigit(s[i])
    ensures |q| == |s| && forall i :: 0 <= i < |q| ==> q[i] == Nd(s[i] as int - '0' as int)
  {
    seq(|s|, i requires 0 <= i < |s| => assert AsciiDigit(s[i]); Nd(s[i] as int - '0' as int))
  }

  lemma {:induction false} GlyphsKeepValue(s: string)
    requires forall i :: 0 <= i < |s| ==> AsciiDigit(s[i])
    ensures GlyphValue(Glyphs(s)) == Value(s)
  {
    if s != "" {
      var n := |s| - 1;
      GlyphsKeepValue(s[..n]);
      assert Glyphs(s)[..n] == Glyphs(s[..n]);
    }
  }

  /** `?afterSeq=` of any counter value, in whatever script, is the cursor with that seq and no epoch. */
  lemma AfterSeqRoundTrip(num: nat)
    requires num <= MAX_COUNTER
    ensures ParseCursor(None, Some(Glyphs(Decimal(num)))) == Parsed(Cursor(num, None))
  {
    CounterFits(num);
    GlyphsKeepValue(Decimal(num));
    DecimalValue(num);
  }

  /** Printing an id and parsing it back gives the same cursor, whatever `?afterSeq=` says and
      whatever dashes the epoch holds. */
  lemma IdRoundTrip(epoch: string, num: nat, afterSeq: Option<seq<Glyph>>)
    requires epoch != "" && num <= MAX_COUNTER
    ensures ParseCursor(Some(PrintId(epoch, num)), afterSeq) == Parsed(Cursor(num, Some(epoch)))
  {
    var id := PrintId(epoch, num);
    var digits := Decimal(num);
    CounterFits(num);
    var k := LastDash(id);
    assert id[|epoch|] == '-';
    assert forall i :: |epoch| < i < |id| ==> id[i] == digits[i - |epoch| - 1];
    assert k == |epoch|;
    assert id[k + 1..] == digits && id[..k] == epoch;
    DecimalValue(num);
  }

  /** The header never fails a reconnect, except for exactly this family: an epoch, a dash, and a
      tail of digit characters that `int()` does not convert. */
  lemma HeaderNeverFailsIff(id: string)
    ensures ParseHeader(id) != Uncaught <==>
            !exists k :: 0 < k < |id| && id[k] == '-' && IsDigit(id[k + 1..]) && !Convertible(id[k + 1..])
    ensures ParseHeader(id) != BadRequest
  {
    var last := LastDash(id);
    forall k | 0 < k < |id| && id[k] == '-' && IsDigit(id[k + 1..])
      ensures k == last
    {
      // every character behind `k` is a digit, so none of them is the last dash
      assert forall i :: k < i < |id| ==> id[i] == id[k + 1..][i - k - 1];
    }
  }

  /** A query value is refused with 400 exactly when it is empty or holds a character that is no digit at
      all; one made of digits raises exactly when `int()` does not convert it, for a digit that is not
      decimal or for its length. */
  lemma QueryNeverFailsIff(q: seq<Glyph>)
    requires forall i :: 0 <= i < |q| && q[i].Nd? ==> 0 <= q[i].digit < 10
    ensures ParseCursor(None, Some(q)) == BadRequest <==> q == [] || exists i :: 0 <= i < |q| && q[i].NoDigit?
    ensures ParseCursor(None, Some(q)) == Uncaught <==>
            && q != [] && (forall i :: 0 <= i < |q| ==> !q[i].NoDigit?)
            && (|q| > MAX_INT_DIGITS || exists i :: 0 <= i < |q| && q[i].OtherDigit?)
  {}

  /** `?afterSeq=` with a superscript two. */
  lemma SuperscriptQueryFails()
    ensures ParseCursor(None, Some([OtherDigit])) == Uncaught
  {}

  /** A header gives a cursor with a seq or an epoch only in the printed form: a non-empty epoch, a dash,
      and the digits of that seq; anything else degrades to the empty cursor. */
  lemma OnlyPrintedFormCounts(id: string)
    requires ParseHeader(id).Parsed? && ParseHeader(id).cursor != Cursor(0, None)
    ensures exists epoch, digits :: && epoch != "" && Convertible(digits) && id == epoch + "-" + digits
                                    && ParseHeader(id).cursor == Cursor(Value(digits), Some(epoch))
  {
    var k := LastDash(id);
    assert id == id[..k] + "-" + id[k + 1..];
  }

  /** An empty header is no header. */
  lemma EmptyHeaderIsNone(afterSeq: Option<seq<Glyph>>)
    ensures ParseCursor(Some(""), afterSeq) == ParseCursor(None, afterSeq)
    ensures ParseCursor(None, None) == Parsed(Cursor(0, None))
  {}

  /** A header of the failing family. */
  lemma SuperscriptHeaderFails()
    ensures ParseHeader("e-\U{B2}") == Uncaught
  {
    var id := "e-\U{B2}";
    assert id[2..] == "\U{B2}" && LastDash(id) == 1;
  }
}
