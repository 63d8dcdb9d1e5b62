/**
 * The power model of the correlation attack on the first-round S-box lookup
 * of AES-128 (cmd/attack_sbox_cpa.go): for a guessed key byte, the predicted
 * leakage of each trace is the Hamming weight of the S-box output for that
 * trace's plaintext byte. The correlation of that prediction with the
 * measured samples is floating point and not modelled; the selection of the
 * best guess over the correlations is `KeyGuess.SelectBest` with offset 0.
 */
module Cpa {
  import opened Base
  import opened AesSbox
  import TraceCapture

  /** `bits.OnesCount8`: the number of one bits. */
  function OnesCount8(b: byte): (n: nat)
    ensures n <= 8
    ensures n == 0 <==> b == 0
  {
    (if b & 0x01 != 0 then 1 else 0) + (if b & 0x02 != 0 then 1 else 0)
    + (if b & 0x04 != 0 then 1 else 0) + (if b & 0x08 != 0 then 1 else 0)
    + (if b & 0x10 != 0 then 1 else 0) + (if b & 0x20 != 0 then 1 else 0)
    + (if b & 0x40 != 0 then 1 else 0) + (if b & 0x80 != 0 then 1 else 0)
  }

  /** The predicted leakage of one trace: the weight of `sbox[pt ^ key]`. */
  function Leak(key: byte, pt: byte): (h: nat)
    ensures h <= 8
  {
    OnesCount8(SubByte(pt ^ key))
  }

  /** Different key guesses predict different S-box outputs for the same plaintext byte. */
  lemma GuessesDiffer(pt: byte, k1: byte, k2: byte)
    requires SubByte(pt ^ k1) == SubByte(pt ^ k2)
    ensures k1 == k2
  {
    SubByteInjective(pt ^ k1, pt ^ k2);
    assert k1 == pt ^ (pt ^ k1);
  }

  /** Every trace has a plaintext byte at `keyIdx`; `capture[i].Pt[keyIdx]` panics otherwise. */
  predicate HasByte(capture: seq<TraceCapture.Trace>, keyIdx: nat)
  {
    forall i :: 0 <= i < |capture| ==> keyIdx < |capture[i].pt|
  }

  /** `leakModel`: one predicted leakage per trace, in trace order. */
  method LeakModel(key: byte, keyIdx: nat, capture: seq<TraceCapture.Trace>) returns (hw: seq<nat>)
    requires HasByte(capture, keyIdx)
    ensures |hw| == |capture|
    ensures forall i :: 0 <= i < |capture| ==> hw[i] == Leak(key, capture[i].pt[keyIdx]) && hw[i] <= 8
  {
    var a := new nat[|capture|](_ => 0);
    var i := 0;
    while i < |capture|
      invariant 0 <= i <= |capture|
      invariant forall j :: 0 <= j < i ==> a[j] == Leak(key, capture[j].pt[keyIdx])
    {
      var pt := capture[i].pt[keyIdx];
      var ct := SubByte(pt ^ key);
      a[i] := OnesCount8(ct);
      i := i + 1;
    }
    hw := a[..];
  }
}
