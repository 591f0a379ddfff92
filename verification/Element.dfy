/**
 One element of the replay ring: spliced together inside the publish script and parsed again by
 every reader, from the ring and from the channel alike.
 */
module Element {
  import opened Common
  import opened Utf8
  import opened JsonText
  import opened CursorCodec

  /** `_encode_data`: an ASCII-only JSON literal of the raw block. */
  function EncodeData(raw: seq<byte>): string { Quote(Decode(raw)) }

  const PLAIN_LIMIT: int := 100_000_000_000_000   // 10^14, where `%.14g` turns to exponents

  /** Trailing zeros are not written out. */
  function Stripped(digits: string): string {
    if digits != "" && digits[|digits| - 1] == '0' then Stripped(digits[..|digits| - 1]) else digits
  }

  /** One digit, then a point or an exponent. */
  predicate Scientific(s: string) { |s| >= 2 && AsciiDigit(s[0]) && (s[1] == '.' || s[1] == 'e') }

  /** The digits of the mantissa with their point, and the exponent. */
  function Mantissa(digits: string, exponent: nat): (s: string)
    requires digits != "" && AsciiDigit(digits[0])
    ensures Scientific(s)
  {
    var fraction := Stripped(digits[1..]);
    [digits[0]] + (if fraction == "" then "" else "." + fraction) + "e+" + Decimal(exponent)
  }

  /** `n` in units of `unit`, rounded half to even. */
  function Rounded(n: nat, unit: nat): nat
    requires unit > 0
  {
    var q, r := n / unit, n % unit;
    if 2 * r > unit || (2 * r == unit && q % 2 == 1) then q + 1 else q
  }

  /** A counter as the script prints it: a Lua number, with `%.14g`, that is fourteen significant digits. */
  function LuaNumber(n: nat): (s: string)
    ensures n < PLAIN_LIMIT ==> s == Decimal(n)
    ensures n >= PLAIN_LIMIT ==> Scientific(s)
  {
    if n < PLAIN_LIMIT then Decimal(n)
    else
      DecimalIsLong(n);
      var shift := |Decimal(n)| - 14;
      PowerPositive(shift);
      var digits := Decimal(Rounded(n, Pow10(shift)));
      Mantissa(digits, shift + |digits| - 1)
  }

  lemma DecimalIsLong(n: nat)
    requires n >= PLAIN_LIMIT
    ensures |Decimal(n)| >= 15
  {
    assert Pow10(14) == PLAIN_LIMIT by {
      assert Pow10(4) == 10_000;
      assert Pow10(8) == 10_000 * Pow10(4);
      assert Pow10(12) == 10_000 * Pow10(8);
      assert Pow10(14) == 100 * Pow10(12);
    }
    LengthAtLeast(n, 14);
  }

  lemma {:induction false} LengthAtLeast(n: nat, k: nat)
    requires n >= Pow10(k)
    ensures |Decimal(n)| >= k + 1
    decreases k
  {
    if k > 0 {
      PowerPositive(k - 1);
      LengthAtLeast(n / 10, k - 1);
    }
  }

  lemma {:induction false} PowerPositive(k: nat)
    ensures Pow10(k) >= 1
  {
    if k > 0 {
      PowerPositive(k - 1);
    }
  }

  /** The concatenation the script performs. */
  function Splice(epoch: string, num: nat, dataJson: string): string {
    "{\"epoch\":\"" + epoch + "\",\"seq\":" + LuaNumber(num) + ",\"data\":" + dataJson + "}"
  }

  // ----- the reader ---------------------------------------------------------------------------

  datatype Json = Text(cs: seq<codepoint>) | Number(n: int)

  predicate Space(c: char) { c == ' ' || c == '\t' || c == '\n' || c == '\r' }

  function Skip(s: string): (r: string)
    ensures |r| <= |s|
  {
    if s != "" && Space(s[0]) then Skip(s[1..]) else s
  }

  /** How many ASCII digits `s` starts with. */
  function DigitRun(s: string): (n: nat)
    ensures n <= |s|
    ensures forall i :: 0 <= i < n ==> AsciiDigit(s[i])
    ensures n < |s| ==> !AsciiDigit(s[n])
  {
    if s == "" || !AsciiDigit(s[0]) then 0 else 1 + DigitRun(s[1..])
  }

  /** A JSON integer; a fraction or an exponent makes it something else. */
  function ParseInteger(s: string): (r: Option<(Json, string)>)
    ensures r.Some? ==> |r.value.1| < |s|
  {
    var negative := s != "" && s[0] == '-';
    var t := if negative then s[1..] else s;
    var n := if t != "" && t[0] == '0' then 1 else DigitRun(t);
    if n == 0 || n > MAX_INT_DIGITS || (n < |t| && (t[n] == '.' || t[n] == 'e' || t[n] == 'E')) then None
    else Some((Number(if negative then 0 - Value(t[..n]) else Value(t[..n])), t[n..]))
  }

  function ParseValue(s: string): (r: Option<(Json, string)>)
    ensures r.Some? ==> |r.value.1| < |s|
  {
    if s != "" && s[0] == '"' then
      var scanned := Scan(s[1..]);
      if scanned.None? then None else Some((Text(scanned.value.0), scanned.value.1))
    else ParseInteger(s)
  }

  type Members = map<seq<codepoint>, Json>

  /** Members from a key on, up to the closing brace and the end of the text; a later duplicate of a
      key wins. */
  function ParseMembers(s: string, m: Members): Option<Members>
    decreases |s|
  {
    if Skip(s) == "" || Skip(s)[0] != '"' then None
    else
      var key := Scan(Skip(s)[1..]);
      if key.None? then None
      else
        var colon := Skip(key.value.1);
        if colon == "" || colon[0] != ':' then None
        else
          var value := ParseValue(Skip(colon[1..]));
          if value.None? then None
          else
            var rest := Skip(value.value.1);
            var m' := m[key.value.0 := value.value.0];
            if rest == "" then None
            else if rest[0] == ',' then ParseMembers(rest[1..], m')
            else if rest[0] == '}' && Skip(rest[1..]) == "" then Some(m')
            else None
  }

  function ParseObject(s: string): Option<Members> {
    var t := Skip(s);
    if t == "" || t[0] != '{' then None
    else if Skip(t[1..]) == "}" then Some(map[])
    else ParseMembers(t[1..], map[])
  }

  /** Code points of a plain text. */
  function Points(s: string): (cs: seq<codepoint>)
    ensures |cs| == |s| && forall i :: 0 <= i < |s| ==> cs[i] == s[i] as int
  {
    seq(|s|, i requires 0 <= i < |s| => s[i] as int)
  }

  datatype Parsed =
    | RingEvent(epoch: seq<codepoint>, num: int, data: seq<byte>)
    | NotAnElement
    | Undecodable       // data holds a surrogate that stands for no byte

  function ParseElement(item: string): Parsed {
    var payload := ParseObject(item);
    if payload.None? then NotAnElement
    else
      var m := payload.value;
      var e, n, d := Points("epoch"), Points("seq"), Points("data");
      if e !in m || n !in m || d !in m || !m[e].Text? || !m[n].Number? || !m[d].Text? then NotAnElement
      else
        var bytes := Encode(m[d].cs);
        if bytes.None? then Undecodable else RingEvent(m[e].cs, m[n].n, bytes.value)
  }

  // ----- the round trip -----------------------------------------------------------------------

  /** Text that needs no escaping: what `uuid4().hex` and the member names are made of. */
  predicate Plain(s: string) {
    forall i :: 0 <= i < |s| ==> ' ' <= s[i] <= '~' && s[i] != '"' && s[i] != '\\'
  }

  lemma {:induction false} PlainScan(s: string, rest: string)
    requires Plain(s)
    ensures Scan(s + "\"" + rest) == Some((Points(s), rest))
  {
    var t := s + "\"" + rest;
    if s == "" {
      assert t == "\"" + rest;
    } else {
      PlainScan(s[1..], rest);
      assert t[1..] == s[1..] + "\"" + rest;
      assert [s[0] as int] + Points(s[1..]) == Points(s);
    }
  }

  lemma {:induction false} DigitsStopAt(s: string, rest: string)
    requires forall i :: 0 <= i < |s| ==> AsciiDigit(s[i])
    requires rest != "" && !AsciiDigit(rest[0])
    ensures DigitRun(s + rest) == |s|
  {
    if s == "" {
      assert s + rest == rest;
    } else {
      DigitsStopAt(s[1..], rest);
      assert (s + rest)[1..] == s[1..] + rest;
    }
  }

  lemma {:induction false} NoLeadingZero(n: nat)
    requires n > 0
    ensures Decimal(n)[0] != '0'
  {
    if n >= 10 {
      NoLeadingZero(n / 10);
    }
  }

  lemma IntegerRoundTrip(n: nat, rest: string)
    requires 0 < n <= MAX_COUNTER && rest != "" && rest[0] == ','
    ensures ParseInteger(Decimal(n) + rest) == Some((Number(n), rest))
    ensures (Decimal(n) + rest)[0] != '"' && !Space((Decimal(n) + rest)[0])
  {
    var d := Decimal(n);
    var s := d + rest;
    NoLeadingZero(n);
    DigitsStopAt(d, rest);
    CounterFits(n);
    DecimalValue(n);
    assert AsciiDigit(d[0]) && s[0] == d[0];
    assert s[..|d|] == d && s[|d|..] == rest;
  }

  /** One `"name":value` of the element, whatever value parser gives `v` with `rest` left over. */
  lemma MemberStep(name: string, body: string, v: Json, rest: string, m: Members)
    requires Plain(name)
    requires body != "" && !Space(body[0]) && ParseValue(body) == Some((v, rest))
    requires rest != "" && (rest[0] == ',' || rest == "}")
    ensures var s := "\"" + name + "\":" + body;
            var m' := m[Points(name) := v];
            ParseMembers(s, m) == if rest[0] == ',' then ParseMembers(rest[1..], m') else Some(m')
  {
    var s := "\"" + name + "\":" + body;
    var after := ":" + body;
    assert s[1..] == name + "\"" + after;
    PlainScan(name, after);
    assert after[1..] == body;
    assert Skip(s) == s && Skip(after) == after && Skip(body) == body && Skip(rest) == rest;
    assert rest == "}" ==> Skip(rest[1..]) == "";
  }

  lemma EpochMember(epoch: string, rest: string, m: Members)
    requires Plain(epoch)
    ensures ParseMembers("\"epoch\":" + ("\"" + epoch + "\"" + ("," + rest)), m)
            == ParseMembers(rest, m[Points("epoch") := Text(Points(epoch))])
  {
    hide ParseMembers, Scan;
    var tail := "," + rest;
    var body := "\"" + epoch + "\"" + tail;
    assert body[1..] == epoch + "\"" + tail;
    PlainScan(epoch, tail);
    MemberStep("epoch", body, Text(Points(epoch)), tail, m);
    assert "\"epoch\":" + body == "\"" + "epoch" + "\":" + body;
    assert tail[1..] == rest;
  }

  lemma SeqMember(num: nat, rest: string, m: Members)
    requires 0 < num <= MAX_COUNTER
    ensures ParseMembers("\"seq\":" + (Decimal(num) + ("," + rest)), m) ==
            ParseMembers(rest, m[Points("seq") := Number(num)])
  {
    hide ParseMembers, ParseInteger, Decimal;
    var tail := "," + rest;
    var body := Decimal(num) + tail;
    IntegerRoundTrip(num, tail);
    MemberStep("seq", body, Number(num), tail, m);
    assert "\"seq\":" + body == "\"" + "seq" + "\":" + body;
    assert tail[1..] == rest;
  }

  lemma DataMember(cs: seq<codepoint>, m: Members)
    requires forall i :: 0 <= i < |cs| ==> !HighSurrogate(cs[i])
    ensures ParseMembers("\"data\":" + (Quote(cs) + "}"), m) == Some(m[Points("data") := Text(cs)])
  {
    hide ParseMembers, Scan, EscapeAll;
    var body := Quote(cs) + "}";
    assert body[1..] == EscapeAll(cs) + "\"" + "}";
    ScanRoundTrip(cs, "}");
    MemberStep("data", body, Text(cs), "}", m);
    assert "\"data\":" + body == "\"" + "data" + "\":" + body;
  }

  /** An element whose seq is spelled `numeral`. */
  function Spelled(epoch: string, numeral: string, cs: seq<codepoint>): string {
    "{\"epoch\":\"" + epoch + "\",\"seq\":" + numeral + ",\"data\":" + Quote(cs) + "}"
  }

  /** The reader works through the epoch and stands before the seq. */
  lemma SpelledParses(epoch: string, numeral: string, cs: seq<codepoint>)
    requires Plain(epoch)
    ensures var third := "\"data\":" + (Quote(cs) + "}");
            var m1: Members := map[Points("epoch") := Text(Points(epoch))];
            ParseObject(Spelled(epoch, numeral, cs)) ==
            ParseMembers("\"seq\":" + (numeral + ("," + third)), m1)
  {
    hide ParseMembers, Quote, Plain;
    var third := "\"data\":" + (Quote(cs) + "}");
    var second := "\"seq\":" + (numeral + ("," + third));
    var first := "\"epoch\":" + ("\"" + epoch + "\"" + ("," + second));
    var s := Spelled(epoch, numeral, cs);
    assert s == "{" + first;
    assert s[1..] == first && Skip(s) == s && Skip(first) == first;
    EpochMember(epoch, second, map[]);
  }

  lemma PlainNumeral(epoch: string, num: nat, cs: seq<codepoint>)
    requires Plain(epoch) && 0 < num <= MAX_COUNTER
    requires forall i :: 0 <= i < |cs| ==> !HighSurrogate(cs[i])
    ensures ParseElement(Spelled(epoch, Decimal(num), cs)) ==
            (var bytes := Encode(cs); if bytes.None? then Undecodable else RingEvent(Points(epoch), num, bytes.value))
  {
    hide ParseMembers, Decimal, Quote, Encode, Plain, ParseObject;
    var third := "\"data\":" + (Quote(cs) + "}");
    var m1: Members := map[Points("epoch") := Text(Points(epoch))];
    SpelledParses(epoch, Decimal(num), cs);
    SeqMember(num, third, m1);
    DataMember(cs, m1[Points("seq") := Number(num)]);
    NamesDiffer();
  }

  /** Such a numeral is no integer, so the seq member is rejected. */
  lemma ScientificIsRejected(numeral: string, rest: string, m: Members)
    requires Scientific(numeral)
    ensures ParseMembers("\"seq\":" + (numeral + rest), m) == None
  {
    hide ParseMembers;
    var body := numeral + rest;
    NoInteger(body);
    MemberRejected("seq", body, m);
    assert "\"seq\":" + body == "\"" + "seq" + "\":" + body;
  }

  lemma NoInteger(body: string)
    requires Scientific(body)
    ensures ParseValue(body) == None && !Space(body[0])
  {
    DigitsStopAt(body[..1], body[1..]);
    assert body[..1] + body[1..] == body;
  }

  lemma MemberRejected(name: string, body: string, m: Members)
    requires Plain(name) && body != "" && !Space(body[0]) && ParseValue(body) == None
    ensures ParseMembers("\"" + name + "\":" + body, m) == None
  {
    var s := "\"" + name + "\":" + body;
    var after := ":" + body;
    assert s[1..] == name + "\"" + after;
    PlainScan(name, after);
    assert after[1..] == body;
    assert Skip(s) == s && Skip(after) == after && Skip(body) == body;
  }

  /** Splicing any raw block into an element and parsing it gives back the same epoch, seq and bytes,
      whether or not the bytes are UTF-8, if and only if the counter is below 10^14: from there on the
      script prints an exponent, and the reader takes the element for none at all. */
  lemma ElementRoundTripIff(epoch: string, num: nat, raw: seq<byte>)
    requires Plain(epoch) && 0 < num <= MAX_COUNTER
    ensures var parsed := ParseElement(Splice(epoch, num, EncodeData(raw)));
            if num < PLAIN_LIMIT then parsed == RingEvent(Points(epoch), num, raw) else parsed == NotAnElement
  {
    hide ParseMembers, Decode, Decimal, Quote, Encode, Plain, LuaNumber, ParseObject;
    var cs := Decode(raw);
    Utf8.RoundTrip(raw);
    assert Splice(epoch, num, EncodeData(raw)) == Spelled(epoch, LuaNumber(num), cs);
    if num < PLAIN_LIMIT {
      PlainNumeral(epoch, num, cs);
    } else {
      SpelledParses(epoch, LuaNumber(num), cs);
      ScientificIsRejected(LuaNumber(num), "," + ("\"data\":" + (Quote(cs) + "}")),
                           map[Points("epoch") := Text(Points(epoch))]);
    }
  }

  lemma NamesDiffer()
    ensures Points("epoch") != Points("seq") && Points("epoch") != Points("data") && Points("seq") != Points("data")
  {
    assert |Points("epoch")| == 5 && |Points("seq")| == 3 && |Points("data")| == 4;
  }
}
