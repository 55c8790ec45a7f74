/** app/pipeline/tokens.py: the size measure every chunker bound rests on. */
module Tokens {
  import opened Text

  /** An installed token counter; `set_token_counter` may replace the default one. */
  type Counter = string -> nat

  function RealMax(x: real, y: real): real {
    if x >= y then x else y
  }

  function Ceil(x: real): int {
    -((-x).Floor)
  }

  /** `estimate_tokens`, with the two float ratios read as exact rationals. */
  function EstimateTokens(text: string): nat {
    if text == "" then 0
    else
      var byChars := |text| as real / 3.5;
      var byWords := |Words(text)| as real * 1.3;
      var n := Ceil(RealMax(byChars, byWords));
      if n >= 1 then n else 1
  }

  /** What the chunker's bounds need of a counter: concatenation never adds tokens,
      a substring never counts more than the whole, and a word counts something. */
  ghost predicate Lawful(count: Counter) {
    && (forall a: string, b: string {:trigger count(a + b)} :: count(a + b) <= count(a) + count(b))
    && (forall a: string, b: string {:trigger count(a + b)} :: count(a) <= count(a + b) && count(b) <= count(a + b))
    && (forall s: string {:trigger count(s), Words(s)} :: Words(s) != [] ==> count(s) >= 1)
  }

  lemma CeilLaws(x: real, y: real)
    ensures Ceil(x + y) <= Ceil(x) + Ceil(y)
    ensures x <= y ==> Ceil(x) <= Ceil(y)
  {
  }

  lemma EstimateLaws(a: string, b: string)
    ensures EstimateTokens(a + b) <= EstimateTokens(a) + EstimateTokens(b)
    ensures EstimateTokens(a) <= EstimateTokens(a + b)
    ensures EstimateTokens(b) <= EstimateTokens(a + b)
  {
    hide Words;
    if a == "" {
      assert a + b == b;
    } else if b == "" {
      assert a + b == a;
    } else {
      WordCountConcat(a, b);
      var x := RealMax(|a| as real / 3.5, |Words(a)| as real * 1.3);
      var y := RealMax(|b| as real / 3.5, |Words(b)| as real * 1.3);
      var z := RealMax(|a + b| as real / 3.5, |Words(a + b)| as real * 1.3);
      assert z <= x + y && x <= z && y <= z;
      CeilLaws(x, y);
      CeilLaws(z, x + y);
      CeilLaws(x, z);
      CeilLaws(y, z);
    }
  }

  /** The default estimator meets every law, despite its ceiling and its two maxima. */
  lemma EstimateIsLawful()
    ensures Lawful(EstimateTokens)
  {
    forall a: string, b: string
      ensures EstimateTokens(a + b) <= EstimateTokens(a) + EstimateTokens(b)
      ensures EstimateTokens(a) <= EstimateTokens(a + b) && EstimateTokens(b) <= EstimateTokens(a + b)
    {
      EstimateLaws(a, b);
    }
  }

  lemma StripCountsLess(count: Counter, s: string)
    requires Lawful(count)
    ensures count(Strip(s)) <= count(s)
  {
    var l, r := StripParts(s);
    assert count(l + Strip(s)) <= count((l + Strip(s)) + r);
  }
}
