/**
 * `calcClkGenMulDiv` (adc.go): the exhaustive search for the CLKGEN
 * multiplier and divider whose output `(inpFreq * mul) / div` (integer
 * division) is closest to the requested frequency. Multipliers run over
 * [2, 256], dividers over [1, maxDiv) with `maxDiv` limited by the input
 * frequency; on a tie the pair found first, in ascending (mul, div) order, is
 * kept, because the comparison is a strict `<`.
 *
 * The running minimum starts at 1e99 in the source, larger than any error
 * (frequencies are `uint32`s); here "no pair yet" is `None`.
 */
module AdcClock {
  import opened Base

  const MinMul: int := 2
  const MulLimit: int := 257

  /** The divider bound: `inpFreq / 500000` below 52 MHz (integer division), 256 from there on. */
  function MaxDiv(inpFreq: nat): (m: nat)
    ensures inpFreq < 52_000_000 ==> m == inpFreq / 500_000 && m < 104
    ensures inpFreq >= 52_000_000 ==> m == 256
  {
    if inpFreq < 52_000_000 then inpFreq / 500_000 else 256
  }

  /** `|freq - (inpFreq * mul) / div|`, exact in the source's float64 since both terms stay below 2^41. */
  function Distance(freq: nat, inpFreq: nat, mul: nat, div: nat): nat
    requires div > 0
  {
    var out := (inpFreq * mul) / div;
    if freq >= out then freq - out else out - freq
  }

  /** The search's running state: the best pair so far and its error (`None` for the initial 1e99). */
  datatype Best = Best(mul: nat, div: nat, low: Option<nat>)

  /** The loop body: a strictly smaller error replaces the best pair. */
  function Consider(b: Best, freq: nat, inpFreq: nat, mul: nat, div: nat): Best
    requires div > 0
  {
    var e := Distance(freq, inpFreq, mul, div);
    if b.low.None? || e < b.low.value then Best(mul, div, Some(e)) else b
  }

  /** The inner loop from `div` on, for one multiplier. */
  function ScanDivs(b: Best, freq: nat, inpFreq: nat, maxDiv: nat, mul: nat, div: nat): Best
    requires div > 0
    decreases maxDiv - div
  {
    if div >= maxDiv then b
    else ScanDivs(Consider(b, freq, inpFreq, mul, div), freq, inpFreq, maxDiv, mul, div + 1)
  }

  /** The outer loop from `mul` on. */
  function ScanMuls(b: Best, freq: nat, inpFreq: nat, maxDiv: nat, mul: nat): Best
    decreases MulLimit - mul
  {
    if mul >= MulLimit then b
    else ScanMuls(ScanDivs(b, freq, inpFreq, maxDiv, mul, 1), freq, inpFreq, maxDiv, mul + 1)
  }

  /** What `calcClkGenMulDiv(freq, inpFreq)` returns. */
  function ClkGenMulDiv(freq: nat, inpFreq: nat): (nat, nat)
  {
    var b := ScanMuls(Best(0, 0, None), freq, inpFreq, MaxDiv(inpFreq), MinMul);
    (b.mul, b.div)
  }

  /** A pair the search visits. */
  predicate Candidate(maxDiv: nat, mul: int, div: int)
  {
    MinMul <= mul < MulLimit && 1 <= div < maxDiv
  }

  /** (m1, d1) comes strictly before (m2, d2) in the search order. */
  predicate Earlier(m1: int, d1: int, m2: int, d2: int)
  {
    m1 < m2 || (m1 == m2 && d1 < d2)
  }

  /** The candidates visited before the loops reach (mul, div). */
  predicate Visited(maxDiv: nat, mul: int, div: int, m: int, d: int)
  {
    Candidate(maxDiv, m, d) && Earlier(m, d, mul, div)
  }

  /**
   * `b` is the outcome of scanning the candidates before (mul, div): none
   * visited leaves the initial state; otherwise b is a visited pair of least
   * error, and no earlier visited pair has that error.
   */
  ghost predicate BestSoFar(b: Best, freq: nat, inpFreq: nat, maxDiv: nat, mul: int, div: int)
  {
    if b.low.None? then
      b == Best(0, 0, None) && forall m, d :: !Visited(maxDiv, mul, div, m, d)
    else
      && Visited(maxDiv, mul, div, b.mul, b.div)
      && b.low.value == Distance(freq, inpFreq, b.mul, b.div)
      && (forall m, d :: Visited(maxDiv, mul, div, m, d) ==> Distance(freq, inpFreq, m, d) >= b.low.value)
      && (forall m, d :: Visited(maxDiv, mul, div, m, d) && Earlier(m, d, b.mul, b.div) ==>
            Distance(freq, inpFreq, m, d) > b.low.value)
  }

  /** One loop body keeps `BestSoFar`, one candidate further on. */
  lemma ConsiderStep(b: Best, freq: nat, inpFreq: nat, maxDiv: nat, mul: int, div: int)
    requires Candidate(maxDiv, mul, div)
    requires BestSoFar(b, freq, inpFreq, maxDiv, mul, div)
    ensures BestSoFar(Consider(b, freq, inpFreq, mul, div), freq, inpFreq, maxDiv, mul, div + 1)
  {
    var b' := Consider(b, freq, inpFreq, mul, div);
    forall m, d | Visited(maxDiv, mul, div + 1, m, d)
      ensures Visited(maxDiv, mul, div, m, d) || (m == mul && d == div)
    {
    }
    if b'.low.Some? {
      forall m, d | Visited(maxDiv, mul, div + 1, m, d)
        ensures Distance(freq, inpFreq, m, d) >= b'.low.value
      {
        if !(m == mul && d == div) {
          assert Visited(maxDiv, mul, div, m, d);
        }
      }
      forall m, d | Visited(maxDiv, mul, div + 1, m, d) && Earlier(m, d, b'.mul, b'.div)
        ensures Distance(freq, inpFreq, m, d) > b'.low.value
      {
        if !(m == mul && d == div) {
          assert Visited(maxDiv, mul, div, m, d);
        }
      }
    }
  }

  /** Past the last divider, the candidates before (mul, maxDiv) are those before (mul + 1, 1). */
  lemma NextMultiplier(b: Best, freq: nat, inpFreq: nat, maxDiv: nat, mul: int, div: int)
    requires div >= maxDiv && div >= 1
    requires BestSoFar(b, freq, inpFreq, maxDiv, mul, div)
    ensures BestSoFar(b, freq, inpFreq, maxDiv, mul + 1, 1)
  {
    var next := mul + 1;
    forall m, d
      ensures Visited(maxDiv, next, 1, m, d) == Visited(maxDiv, mul, div, m, d)
    {
      if Candidate(maxDiv, m, d) {
        assert Earlier(m, d, next, 1) == Earlier(m, d, mul, div);
      }
    }
    if b.low.Some? {
      assert Visited(maxDiv, next, 1, b.mul, b.div);
    }
    assert BestSoFar(b, freq, inpFreq, maxDiv, next, 1);
  }

  lemma {:induction false} ScanDivsBest(b: Best, freq: nat, inpFreq: nat, maxDiv: nat, mul: int, div: int)
    requires MinMul <= mul < MulLimit && div >= 1
    requires BestSoFar(b, freq, inpFreq, maxDiv, mul, div)
    ensures BestSoFar(ScanDivs(b, freq, inpFreq, maxDiv, mul, div), freq, inpFreq, maxDiv, mul + 1, 1)
    decreases maxDiv - div
  {
    if div >= maxDiv {
      NextMultiplier(b, freq, inpFreq, maxDiv, mul, div);
    } else {
      ConsiderStep(b, freq, inpFreq, maxDiv, mul, div);
      ScanDivsBest(Consider(b, freq, inpFreq, mul, div), freq, inpFreq, maxDiv, mul, div + 1);
    }
  }

  lemma {:induction false} ScanMulsBest(b: Best, freq: nat, inpFreq: nat, maxDiv: nat, mul: int)
    requires MinMul <= mul <= MulLimit
    requires BestSoFar(b, freq, inpFreq, maxDiv, mul, 1)
    ensures BestSoFar(ScanMuls(b, freq, inpFreq, maxDiv, mul), freq, inpFreq, maxDiv, MulLimit, 1)
    decreases MulLimit - mul
  {
    if mul < MulLimit {
      ScanDivsBest(b, freq, inpFreq, maxDiv, mul, 1);
      ScanMulsBest(ScanDivs(b, freq, inpFreq, maxDiv, mul, 1), freq, inpFreq, maxDiv, mul + 1);
    }
  }

  /**
   * The search's result: (0, 0) exactly when no divider is allowed
   * (`maxDiv <= 1`, an input below 1 MHz); otherwise a candidate pair of least
   * error, and the first such pair in ascending (mul, div) order.
   */
  lemma ClkGenMulDivOptimal(freq: nat, inpFreq: nat)
    ensures var (mul, div) := ClkGenMulDiv(freq, inpFreq);
      && ((mul, div) == (0, 0) <==> MaxDiv(inpFreq) <= 1)
      && (MaxDiv(inpFreq) > 1 ==>
            && Candidate(MaxDiv(inpFreq), mul, div)
            && (forall m, d :: Candidate(MaxDiv(inpFreq), m, d) ==>
                  Distance(freq, inpFreq, m, d) >= Distance(freq, inpFreq, mul, div))
            && (forall m, d :: Candidate(MaxDiv(inpFreq), m, d) && Earlier(m, d, mul, div) ==>
                  Distance(freq, inpFreq, m, d) > Distance(freq, inpFreq, mul, div)))
  {
    var maxDiv := MaxDiv(inpFreq);
    var start := Best(0, 0, None);
    forall m, d
      ensures !Visited(maxDiv, MinMul, 1, m, d)
    {
    }
    ScanMulsBest(start, freq, inpFreq, maxDiv, MinMul);
    var b := ScanMuls(start, freq, inpFreq, maxDiv, MinMul);
    forall m, d
      ensures Visited(maxDiv, MulLimit, 1, m, d) == Candidate(maxDiv, m, d)
    {
    }
    if maxDiv > 1 {
      assert Candidate(maxDiv, MinMul, 1);
      assert Visited(maxDiv, MulLimit, 1, MinMul, 1);
    }
  }

  /** Below 1 MHz of input no divider is allowed, and the search returns (0, 0). */
  lemma SlowInputGivesZero(freq: nat, inpFreq: nat)
    requires inpFreq < 1_000_000
    ensures ClkGenMulDiv(freq, inpFreq) == (0, 0)
  {
    ClkGenMulDivOptimal(freq, inpFreq);
  }

  /**
   * Asking for the input frequency itself, from 1.5 MHz up to 52 MHz, gives
   * mul 2, div 2: the first exact pair, since (2, 1) doubles the frequency.
   */
  lemma UnitRatio(f: nat)
    requires 1_500_000 <= f < 52_000_000
    ensures ClkGenMulDiv(f, f) == (2, 2)
  {
    ClkGenMulDivOptimal(f, f);
    var (mul, div) := ClkGenMulDiv(f, f);
    assert Candidate(MaxDiv(f), 2, 2) && Distance(f, f, 2, 2) == 0;
    assert Distance(f, f, mul, div) == 0;
    assert Distance(f, f, 2, 1) == f;
    assert mul == 2 && div <= 2;
  }

  /** `calcClkGenMulDiv`'s nested loops. */
  method CalcClkGenMulDiv(freq: nat, inpFreq: nat) returns (bestMul: nat, bestDiv: nat)
    ensures (bestMul, bestDiv) == ClkGenMulDiv(freq, inpFreq)
  {
    bestMul, bestDiv := 0, 0;
    var lowError: Option<nat> := None;
    var maxDiv: nat;
    if inpFreq < 52_000_000 {
      maxDiv := inpFreq / 500_000;
    } else {
      maxDiv := 256;
    }
    ghost var result := ScanMuls(Best(0, 0, None), freq, inpFreq, maxDiv, MinMul);
    var mul := 2;
    while mul < 257
      invariant MinMul <= mul <= MulLimit
      invariant ScanMuls(Best(bestMul, bestDiv, lowError), freq, inpFreq, maxDiv, mul) == result
    {
      bestMul, bestDiv, lowError := ScanDividers(freq, inpFreq, maxDiv, mul, bestMul, bestDiv, lowError);
      mul := mul + 1;
    }
  }

  /** The inner loop of `calcClkGenMulDiv`: every divider for one multiplier. */
  method ScanDividers(freq: nat, inpFreq: nat, maxDiv: nat, mul: nat, mul0: nat, div0: nat, low0: Option<nat>)
    returns (bestMul: nat, bestDiv: nat, lowError: Option<nat>)
    ensures Best(bestMul, bestDiv, lowError) == ScanDivs(Best(mul0, div0, low0), freq, inpFreq, maxDiv, mul, 1)
  {
    bestMul, bestDiv, lowError := mul0, div0, low0;
    var div := 1;
    while div < maxDiv
      invariant 1 <= div
      invariant ScanDivs(Best(bestMul, bestDiv, lowError), freq, inpFreq, maxDiv, mul, div)
             == ScanDivs(Best(mul0, div0, low0), freq, inpFreq, maxDiv, mul, 1)
      decreases maxDiv - div
    {
      ghost var b := Best(bestMul, bestDiv, lowError);
      var out := (inpFreq * mul) / div;
      var err := if freq >= out then freq - out else out - freq;
      assert err == Distance(freq, inpFreq, mul, div);
      if lowError.None? || err < lowError.value {
        lowError := Some(err);
        bestMul, bestDiv := mul, div;
      }
      assert Best(bestMul, bestDiv, lowError) == Consider(b, freq, inpFreq, mul, div);
      div := div + 1;
    }
  }
}
