/** Tokens to credits: the one price function behind every debit of an agent run. */
module Pricing {
  import opened Common

  datatype Rates = Rates(perInput: real, perOutput: real)   // credits per 1000 tokens

  datatype Usage = Usage(input: int, output: int)

  ghost predicate Sane(r: Rates) { r.perInput >= 0.0 && r.perOutput >= 0.0 }

  function Ceil(x: real): int { -((-x).Floor) }

  function Part(tokens: int, rate: real): real { Max(tokens, 0) as real / 1000.0 * rate }

  function RawCost(u: Usage, r: Rates): real {
    Part(u.input, r.perInput) + Part(u.output, r.perOutput)
  }

  /** Rounded up, at least one credit for any usage at all; negative counts count as zero. */
  function Price(u: Usage, r: Rates): (credits: nat)
    ensures credits == 0 <==> u.input <= 0 && u.output <= 0
  {
    if Max(u.input, 0) == 0 && Max(u.output, 0) == 0 then 0 else Max(Ceil(RawCost(u, r)), 1)
  }

  predicate Dominates(u: Usage, v: Usage) { u.input >= v.input && u.output >= v.output }

  function Join(u: Usage, v: Usage): (w: Usage)
    ensures Dominates(w, u) && Dominates(w, v)
  {
    Usage(Max(u.input, v.input), Max(u.output, v.output))
  }

  lemma JoinIsLeast(u: Usage, v: Usage, w: Usage)
    requires Dominates(w, u) && Dominates(w, v)
    ensures Dominates(w, Join(u, v))
  {}

  lemma PartMonotone(a: int, b: int, rate: real)
    requires a <= b && rate >= 0.0
    ensures Part(a, rate) <= Part(b, rate)
  {
    var x, y := Max(a, 0) as real / 1000.0, Max(b, 0) as real / 1000.0;
    assert y * rate == x * rate + (y - x) * rate;
  }

  /** More tokens never cost less: what makes differences of prices a price. */
  lemma PriceMonotone(u: Usage, v: Usage, r: Rates)
    requires Sane(r) && Dominates(v, u)
    ensures Price(u, r) <= Price(v, r)
  {
    PartMonotone(u.input, v.input, r.perInput);
    PartMonotone(u.output, v.output, r.perOutput);
  }

  /** The price of real usage is the least whole number of credits that covers the raw cost, and
      never nothing. */
  lemma PriceIsLeastCover(u: Usage, r: Rates, c: int)
    requires u.input > 0 || u.output > 0
    ensures Price(u, r) as real >= RawCost(u, r) && Price(u, r) >= 1
    ensures c >= 1 && c as real >= RawCost(u, r) ==> c >= Price(u, r)
  {
    var raw := RawCost(u, r);
    assert (Ceil(raw) - 1) as real < raw <= Ceil(raw) as real;
  }

  /** Said of the tokens and rates themselves: a whole number of credits from one up is enough if and only
      if, a thousand times over, it covers each clamped count at its own rate. */
  lemma PriceCoversIff(input: int, output: int, r: Rates, c: int)
    requires c >= 1
    ensures c >= Price(Usage(input, output), r) <==>
            1000.0 * c as real >= Max(input, 0) as real * r.perInput + Max(output, 0) as real * r.perOutput
  {
    var i, o := Max(input, 0) as real, Max(output, 0) as real;
    var raw := RawCost(Usage(input, output), r);
    InThousands(i, r.perInput);
    InThousands(o, r.perOutput);
    assert 1000.0 * raw == i * r.perInput + o * r.perOutput;
    CeilIsLeast(raw, c);
  }

  lemma InThousands(tokens: real, rate: real)
    ensures 1000.0 * (tokens / 1000.0 * rate) == tokens * rate
  {
    assert 1000.0 * (tokens / 1000.0 * rate) == (1000.0 * (tokens / 1000.0)) * rate;
  }

  lemma CeilIsLeast(x: real, c: int)
    ensures c >= Ceil(x) <==> c as real >= x
  {
    assert (Ceil(x) - 1) as real < x <= Ceil(x) as real;
  }

  /** One side only: a run that only read, or only wrote, pays the rate of that side. */
  lemma OneSidedPrices(tokens: nat, r: Rates, c: int)
    requires c >= 1
    ensures c >= Price(Usage(tokens, 0), r) <==> 1000.0 * c as real >= tokens as real * r.perInput
    ensures c >= Price(Usage(0, tokens), r) <==> 1000.0 * c as real >= tokens as real * r.perOutput
  {
    PriceCoversIff(tokens, 0, r, c);
    PriceCoversIff(0, tokens, r, c);
  }
}
