/**
 * The difference-of-means attack on the first-round S-box lookup of AES-128
 * (cmd/attack_sbox_dpa.go): for a guessed key byte the traces are split by
 * bit 2 of the predicted S-box output, and the attack compares the mean
 * trace of each half over a window of samples. The means are floating point
 * and not modelled; the selection of the best guess over the differences is
 * `KeyGuess.SelectBest` with the window start as offset.
 */
module Dpa {
  import opened Base
  import opened AesSbox
  import TraceCapture
  import Cpa

  /** `1 << indicatorBit` with `indicatorBit = 2`. */
  const IndicatorMask: byte := 0x04

  /** The trace falls in the second split: the indicator bit of `sbox[pt ^ key]` is set. */
  predicate InSplit1(key: byte, pt: byte)
  {
    SubByte(pt ^ key) & IndicatorMask != 0
  }

  /**
   * `leakModel`: two 0/1 indicator vectors over the traces, complementary
   * entry by entry; the second marks the traces whose predicted indicator bit
   * is one.
   */
  method LeakModel(key: byte, keyIdx: nat, capture: seq<TraceCapture.Trace>) returns (split0: seq<real>, split1: seq<real>)
    requires Cpa.HasByte(capture, keyIdx)
    ensures |split0| == |capture| && |split1| == |capture|
    ensures forall i :: 0 <= i < |capture| ==> split0[i] + split1[i] == 1.0
    ensures forall i :: 0 <= i < |capture| ==> (split1[i] == 1.0 <==> InSplit1(key, capture[i].pt[keyIdx]))
    ensures forall i :: 0 <= i < |capture| ==> (split0[i] == 0.0 || split0[i] == 1.0)
  {
    split0, split1 := [], [];
    var i := 0;
    while i < |capture|
      invariant 0 <= i <= |capture| && |split0| == i && |split1| == i
      invariant forall j :: 0 <= j < i ==> split0[j] + split1[j] == 1.0 && (split0[j] == 0.0 || split0[j] == 1.0)
      invariant forall j :: 0 <= j < i ==> (split1[j] == 1.0 <==> InSplit1(key, capture[j].pt[keyIdx]))
    {
      if InSplit1(key, capture[i].pt[keyIdx]) {
        split0, split1 := split0 + [0.0], split1 + [1.0];
      } else {
        split0, split1 := split0 + [1.0], split1 + [0.0];
      }
      i := i + 1;
    }
  }

  /**
   * Every trace has at least `n` samples: `SamplesMatrix` takes the first
   * trace's length as the width and panics on a shorter later trace.
   */
  predicate AtLeast(capture: seq<TraceCapture.Trace>, n: nat)
  {
    forall r :: 0 <= r < |capture| ==> |capture[r].measurements| >= n
  }

  /**
   * The window `T` of the samples matrix: columns `t1` up to `t2` of every
   * row, where `t2 = 0` (the flag's default) stands for the trace length of
   * the first trace, which is the width of the matrix. `Slice` panics unless
   * `t1 <= t2 <= width`.
   */
  function Window(capture: seq<TraceCapture.Trace>, t1: nat, t2: nat): (w: seq<seq<nat>>)
    requires |capture| > 0 && AtLeast(capture, |capture[0].measurements|)
    requires t1 <= (if t2 == 0 then |capture[0].measurements| else t2) <= |capture[0].measurements|
    ensures |w| == |capture|
    ensures t2 == 0 ==> forall r :: 0 <= r < |w| ==> w[r] == capture[r].measurements[t1..|capture[0].measurements|]
    ensures t2 != 0 ==> forall r :: 0 <= r < |w| ==> w[r] == capture[r].measurements[t1..t2] && |w[r]| == t2 - t1
    ensures forall r, c :: 0 <= r < |w| && 0 <= c < |w[r]| ==> w[r][c] == capture[r].measurements[t1 + c]
  {
    var e := if t2 == 0 then |capture[0].measurements| else t2;
    seq(|capture|, r requires 0 <= r < |capture| => capture[r].measurements[t1..e])
  }
}
