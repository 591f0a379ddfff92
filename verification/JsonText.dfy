/**
 JSON string literals as Python writes them with `ensure_ascii` and reads them back: section 7 of
 RFC 8259, with surrogate pairs for code points beyond the basic plane and lone surrogates kept.
 */
module JsonText {
  import opened Common
  import opened Utf8

  function HexDigit(d: int): char
    requires 0 <= d < 16
  {
    if d < 10 then ('0' as int + d) as char else ('a' as int + d - 10) as char
  }

  function HexValue(c: char): (r: Option<int>)
    ensures r.Some? ==> 0 <= r.value < 16
  {
    if '0' <= c <= '9' then Some(c as int - '0' as int)
    else if 'a' <= c <= 'f' then Some(c as int - 'a' as int + 10)
    else if 'A' <= c <= 'F' then Some(c as int - 'A' as int + 10)
    else None
  }

  function Hex4(n: int): (s: string)
    requires 0 <= n < 0x10000
    ensures |s| == 4
  {
    [HexDigit(n / 0x1000), HexDigit(n / 0x100 % 16), HexDigit(n / 16 % 16), HexDigit(n % 16)]
  }

  /** The value of `\uXXXX` at the head of `s`. */
  function UnicodeEscape(s: string): (r: Option<int>)
    ensures r.Some? ==> |s| >= 6 && 0 <= r.value < 0x10000
  {
    if |s| < 6 || s[0] != '\\' || s[1] != 'u' then None
    else
      var a, b, c, d := HexValue(s[2]), HexValue(s[3]), HexValue(s[4]), HexValue(s[5]);
      if a.None? || b.None? || c.None? || d.None? then None
      else Some(((a.value * 16 + b.value) * 16 + c.value) * 16 + d.value)
  }

  function Escape(c: codepoint): (s: string)
    ensures s != ""
  {
    if c == 0x22 then "\\\""
    else if c == 0x5C then "\\\\"
    else if c == 0x0A then "\\n"
    else if c == 0x0D then "\\r"
    else if c == 0x09 then "\\t"
    else if c == 0x08 then "\\b"
    else if c == 0x0C then "\\f"
    else if 0x20 <= c <= 0x7E then [c as char]
    else if c < 0x10000 then "\\u" + Hex4(c)
    else "\\u" + Hex4(0xD800 + (c - 0x10000) / 0x400) + "\\u" + Hex4(0xDC00 + (c - 0x10000) % 0x400)
  }

  function EscapeAll(cs: seq<codepoint>): string {
    if cs == [] then "" else Escape(cs[0]) + EscapeAll(cs[1..])
  }

  /** `json.dumps` of a string. */
  function Quote(cs: seq<codepoint>): string { "\"" + EscapeAll(cs) + "\"" }

  /** One code point of a literal's body, with the characters it takes; `None` is a parse error. */
  function ScanUnit(s: string): (r: Option<(codepoint, nat)>)
    requires s != ""
    ensures r.Some? ==> 1 <= r.value.1 <= |s|
  {
    if s[0] != '\\' then if s[0] < ' ' then None else Some((s[0] as int, 1))
    else if |s| < 2 then None
    else if s[1] == 'u' then
      var hi := UnicodeEscape(s);
      if hi.None? then None
      else
        var lo := if HighSurrogate(hi.value) then UnicodeEscape(s[6..]) else None;
        if lo.Some? && LowSurrogate(lo.value)
        then Some((0x10000 + (hi.value - 0xD800) * 0x400 + (lo.value - 0xDC00), 12))
        else Some((hi.value, 6))
    else if s[1] == '"' || s[1] == '\\' || s[1] == '/' then Some((s[1] as int, 2))
    else if s[1] == 'n' then Some((0x0A, 2))
    else if s[1] == 'r' then Some((0x0D, 2))
    else if s[1] == 't' then Some((0x09, 2))
    else if s[1] == 'b' then Some((0x08, 2))
    else if s[1] == 'f' then Some((0x0C, 2))
    else None
  }

  /** The rest of a literal after its opening quote: its code points and what follows it. */
  function Scan(s: string): (r: Option<(seq<codepoint>, string)>)
    ensures r.Some? ==> |r.value.1| < |s|
    decreases |s|
  {
    if s == "" then None
    else if s[0] == '"' then Some(([], s[1..]))
    else
      var unit := ScanUnit(s);
      if unit.None? then None
      else
        var rest := Scan(s[unit.value.1..]);
        if rest.None? then None else Some(([unit.value.0] + rest.value.0, rest.value.1))
  }

  lemma DigitRoundTrip(d: int)
    requires 0 <= d < 16
    ensures HexValue(HexDigit(d)) == Some(d)
  {}

  lemma FourDigits(n: int)
    requires 0 <= n < 0x10000
    ensures n / 0x1000 * 0x1000 + n / 0x100 % 16 * 0x100 + n / 16 % 16 * 16 + n % 16 == n
    ensures n / 0x1000 < 16
  {
    assert n / 16 / 16 == n / 0x100 && n / 0x100 / 16 == n / 0x1000;
  }

  lemma HexRoundTrip(n: int, rest: string)
    requires 0 <= n < 0x10000
    ensures UnicodeEscape("\\u" + Hex4(n) + rest) == Some(n)
  {
    hide HexDigit, HexValue;
    var s := "\\u" + Hex4(n) + rest;
    var h := Hex4(n);
    assert s[2] == h[0] && s[3] == h[1] && s[4] == h[2] && s[5] == h[3];
    FourDigits(n);
    DigitRoundTrip(n / 0x1000);
    DigitRoundTrip(n / 0x100 % 16);
    DigitRoundTrip(n / 16 % 16);
    DigitRoundTrip(n % 16);
  }

  lemma PairRoundTrip(c: codepoint, rest: string)
    requires c >= 0x10000
    ensures ScanUnit(Escape(c) + rest) == Some((c, 12)) && |Escape(c)| == 12
    ensures (Escape(c) + rest)[0] != '"'
  {
    hide Hex4, UnicodeEscape;
    var s := Escape(c) + rest;
    var hi, lo := 0xD800 + (c - 0x10000) / 0x400, 0xDC00 + (c - 0x10000) % 0x400;
    var second := "\\u" + Hex4(lo) + rest;
    HexRoundTrip(hi, second);
    HexRoundTrip(lo, rest);
    assert s == "\\u" + Hex4(hi) + second;
    assert s[6..] == second;
  }

  /** Every escape is read back as the code point it was written for. */
  lemma UnitRoundTrip(c: codepoint, rest: string)
    requires !HighSurrogate(c)
    ensures ScanUnit(Escape(c) + rest) == Some((c, |Escape(c)|))
    ensures (Escape(c) + rest)[0] != '"'
  {
    hide Hex4, UnicodeEscape;
    if c >= 0x10000 {
      PairRoundTrip(c, rest);
    } else if c < 0x20 || c > 0x7E {
      HexRoundTrip(c, rest);
    }
  }

  /** A literal is read back whole, and what follows it is left alone. */
  lemma {:induction false} ScanRoundTrip(cs: seq<codepoint>, rest: string)
    requires forall i :: 0 <= i < |cs| ==> !HighSurrogate(cs[i])
    ensures Scan(EscapeAll(cs) + "\"" + rest) == Some((cs, rest))
  {
    var s := EscapeAll(cs) + "\"" + rest;
    if cs == [] {
      assert s == "\"" + rest;
    } else {
      var tail := EscapeAll(cs[1..]) + "\"" + rest;
      assert s == Escape(cs[0]) + tail;
      UnitRoundTrip(cs[0], tail);
      assert s[|Escape(cs[0])|..] == tail;
      ScanRoundTrip(cs[1..], rest);
      assert [cs[0]] + cs[1..] == cs;
    }
  }

  predicate Ascii(s: string) { forall i :: 0 <= i < |s| ==> ' ' <= s[i] <= '~' }

  lemma EscapeIsAscii(c: codepoint)
    ensures Ascii(Escape(c))
  {
    hide Hex4;
    if c >= 0x10000 {
      HexIsAscii(0xD800 + (c - 0x10000) / 0x400);
      HexIsAscii(0xDC00 + (c - 0x10000) % 0x400);
    } else {
      HexIsAscii(c);
    }
  }

  lemma HexIsAscii(n: int)
    requires 0 <= n < 0x10000
    ensures Ascii(Hex4(n))
  {}

  /** The literal of any text is printable ASCII, so its length in characters is its length in bytes. */
  lemma {:induction false} QuoteIsAscii(cs: seq<codepoint>)
    ensures Ascii(Quote(cs)) && Ascii(EscapeAll(cs))
  {
    if cs != [] {
      hide Escape;
      QuoteIsAscii(cs[1..]);
      EscapeIsAscii(cs[0]);
    }
  }
}
