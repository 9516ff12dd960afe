/**
 * How many synthetic samples a split needs so that its mixed list is 70%
 * real and 30% synthetic: `max(0, round(R * 0.30 / 0.70))`.
 */
module MixRatio {

  /** The configured fractions, in hundredths (0.70 and 0.30). */
  const REAL_PERCENT: nat := 70
  const SYN_PERCENT: nat := 30

  function Abs(x: int): nat { if x < 0 then -x else x }

  function Max(a: int, b: int): int { if a < b then b else a }

  /**
   * Python's `round` applied to the exact quotient n / d: the nearest
   * integer, a tie going to the even neighbour.
   */
  function RoundHalfEven(n: int, d: int): (r: int)
    requires d > 0
    ensures 2 * Abs(d * r - n) <= d
  {
    var q, m := n / d, n % d;
    if 2 * m < d then q
    else if 2 * m > d then q + 1
    else if q % 2 == 0 then q
    else q + 1
  }

  /**
   * `synth_needed(R)`. 3R/7 is never halfway between two integers (6R is
   * even, 7(2k+1) is odd), so the exact integer form below is what the
   * float expression rounds to.
   */
  function SynthNeeded(nReal: nat): (s: nat)
    ensures 2 * Abs(7 * s - 3 * nReal) < 7
  {
    (6 * nReal + 7) / 14
  }

  /** The source's expression, on exact rationals, gives the same count. */
  lemma SynthNeededIsPythonRound(nReal: nat)
    ensures SynthNeeded(nReal) == Max(0, RoundHalfEven(nReal * SYN_PERCENT, REAL_PERCENT))
  {
  }

  /** No other integer is as close to 3R/7 as the chosen count. */
  lemma SynthNeededIsNearest(nReal: nat, k: int)
    requires k != SynthNeeded(nReal)
    ensures Abs(7 * k - 3 * nReal) > Abs(7 * SynthNeeded(nReal) - 3 * nReal)
  {
  }

  /**
   * The mixed split of R real and S synthetic samples is 30% synthetic up
   * to half a sample: |S - 0.3 (R + S)| < 0.35.
   */
  lemma MixIsThirtyPercentSynthetic(nReal: nat)
    ensures 20 * Abs(10 * SynthNeeded(nReal) - 3 * (nReal + SynthNeeded(nReal))) < 70
  {
  }

  /** More real samples never call for fewer synthetic ones. */
  lemma SynthNeededMonotonic(a: nat, b: nat)
    requires a <= b
    ensures SynthNeeded(a) <= SynthNeeded(b)
  {
  }

  /** Counts for a few usual split sizes. */
  lemma SynthNeededExamples()
    ensures SynthNeeded(70) == 30 && SynthNeeded(7) == 3 && SynthNeeded(1) == 0
    ensures SynthNeeded(0) == 0 && SynthNeeded(100) == 43
    ensures SynthNeeded(20) == 9 && SynthNeeded(10) == 4
  {
  }
}
