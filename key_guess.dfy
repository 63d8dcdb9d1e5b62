/**
 * The best-guess rule shared by the two S-box attacks (cmd/attack_sbox_cpa.go
 * and cmd/attack_sbox_dpa.go): every key hypothesis gets one score per
 * sample (a correlation, or a difference of means), and the scan keeps the
 * (key, sample) pair whose score has the largest magnitude, replacing the
 * current guess only on a strictly larger one. Row `k` of the score table
 * holds the scores of key hypothesis `k`; the reported location is the
 * column plus a fixed offset (zero for CPA, the window start for DPA).
 */
module KeyGuess {
  /** `keyGuess`: the key byte (the loop counter below 256 that `byte(key)` keeps), the score magnitude and its location. */
  datatype Guess = Guess(key: nat, score: real, location: nat)

  /** The guess before any score is seen: `keyGuess{byte(0), 0, 0}`. */
  const Initial: Guess := Guess(0, 0.0, 0)

  /** `math.Abs`. */
  function Abs(x: real): (a: real)
    ensures a >= 0.0 && (a == x || a == -x)
  {
    if x < 0.0 then -x else x
  }

  /** Entry (k, i) exists in the score table. */
  predicate In(scores: seq<seq<real>>, k: int, i: int)
  {
    0 <= k < |scores| && 0 <= i < |scores[k]|
  }

  /** The scan, key by key and sample by sample, visits (k, i) before (k2, i2). */
  predicate Before(k: int, i: int, k2: int, i2: int)
  {
    k < k2 || (k == k2 && i < i2)
  }

  /**
   * g names an entry of the table whose magnitude is g's score and which is
   * strictly larger than every entry scanned before it: the first maximum.
   */
  ghost predicate Chosen(scores: seq<seq<real>>, offset: nat, g: Guess)
  {
    offset <= g.location && In(scores, g.key, g.location - offset)
    && Abs(scores[g.key][g.location - offset]) == g.score
    && forall k, i :: In(scores, k, i) && Before(k, i, g.key, g.location - offset) ==> Abs(scores[k][i]) < g.score
  }

  /** What the scan knows once it has visited every entry before (k, i). */
  ghost predicate ScannedTo(scores: seq<seq<real>>, offset: nat, g: Guess, k: int, i: int)
  {
    g.score >= 0.0
    && (forall k', i' :: In(scores, k', i') && Before(k', i', k, i) ==> Abs(scores[k'][i']) <= g.score)
    && (g.score == 0.0 ==> g == Initial)
    && (g.score > 0.0 ==> Chosen(scores, offset, g) && Before(g.key, g.location - offset, k, i))
  }

  /**
   * The nested loops over keys and samples. The result bounds every score's
   * magnitude; if some score is non-zero it is the first entry reaching that
   * bound, with its key and offset column; otherwise the initial guess stays.
   */
  method SelectBest(scores: seq<seq<real>>, offset: nat) returns (g: Guess)
    requires |scores| <= 256
    ensures g.key < 256 && g.score >= 0.0
    ensures forall k, i :: In(scores, k, i) ==> Abs(scores[k][i]) <= g.score
    ensures g.score == 0.0 ==> g == Initial
    ensures g.score > 0.0 ==> Chosen(scores, offset, g)
  {
    g := Initial;
    var k := 0;
    while k < |scores|
      invariant 0 <= k <= |scores|
      invariant ScannedTo(scores, offset, g, k, 0)
    {
      var i := 0;
      while i < |scores[k]|
        invariant 0 <= i <= |scores[k]|
        invariant ScannedTo(scores, offset, g, k, i)
      {
        var v := Abs(scores[k][i]);
        if v > g.score {
          g := Guess(k, v, offset + i);
        }
        i := i + 1;
      }
      k := k + 1;
    }
  }
}
