/**
 * The index arithmetic and selection logic of the template attack on the
 * ECDH zero point (cmd/ecdh_zero_point_template_attack.go): the points of
 * interest where the mean zero-point trace and the mean random-point trace
 * differ most, at least 11 samples apart; the 80/20 split of each capture
 * into training and validation rows; and the comparison that classifies a
 * validation trace. The means, the covariance and the multivariate normal
 * log-probabilities are floating point and enter as parameters.
 */
module Template {
  import opened Base
  import KeyGuess

  /** `numPoi`. */
  const NumPoi: nat := 5

  /** Accepted locations lie more than this far apart. */
  const MinGap: int := 10

  /** `pointOfInterest`. */
  datatype Poi = Poi(diff: real, location: nat)

  /** The difference of the two mean traces at sample `l`. */
  function Diff(zeroAvg: seq<real>, randAvg: seq<real>, l: nat): (d: real)
    requires l < |zeroAvg| && l < |randAvg|
    ensures d >= 0.0
  {
    KeyGuess.Abs(zeroAvg[l] - randAvg[l])
  }

  /** The unsorted `poi` array: one candidate per sample, in sample order. */
  function Candidates(zeroAvg: seq<real>, randAvg: seq<real>): (c: seq<Poi>)
    requires |zeroAvg| <= |randAvg|
    ensures |c| == |zeroAvg|
    ensures forall i :: 0 <= i < |c| ==> c[i].location == i && c[i].diff == Diff(zeroAvg, randAvg, i)
  {
    seq(|zeroAvg|, i requires 0 <= i < |zeroAvg| => Poi(Diff(zeroAvg, randAvg, i), i))
  }

  /** Non-increasing diffs: what `sort.Sort(sort.Reverse(ByDiff{poi}))` leaves, in some tie order. */
  predicate ByDiffDesc(s: seq<Poi>)
  {
    forall a, b :: 0 <= a < b < |s| ==> s[a].diff >= s[b].diff
  }

  function Locations(s: seq<Poi>): (l: seq<nat>)
    ensures |l| == |s| && forall j :: 0 <= j < |s| ==> l[j] == s[j].location
  {
    seq(|s|, j requires 0 <= j < |s| => s[j].location)
  }

  /** Some accepted location lies within `MinGap` of `loc` on either side. */
  predicate Near(res: seq<nat>, loc: int)
  {
    exists j :: 0 <= j < |res| && res[j] - MinGap <= loc <= res[j] + MinGap
  }

  /** Any two points are more than `MinGap` samples apart. */
  predicate Separated(s: seq<Poi>)
  {
    forall a, b :: 0 <= a < b < |s| ==> s[b].location < s[a].location - MinGap || s[b].location > s[a].location + MinGap
  }

  /**
   * The peak-picking loop as written: the count is checked at the top of
   * each iteration, so the loop returns only once it sees one more candidate
   * after the fifth acceptance, and running out of candidates is fatal.
   */
  function Pick(cands: seq<Poi>, res: seq<Poi>): (r: Option<seq<Poi>>)
    decreases |cands|
  {
    if cands == [] then None
    else if |res| == NumPoi then Some(res)
    else if Near(Locations(res), cands[0].location) then Pick(cands[1..], res)
    else Pick(cands[1..], res + [cands[0]])
  }

  /** The loop as intended: it stops with five points as soon as it has them. */
  function PickFixed(cands: seq<Poi>, res: seq<Poi>): (r: Option<seq<Poi>>)
    decreases |cands|
  {
    if |res| == NumPoi then Some(res)
    else if cands == [] then None
    else if Near(Locations(res), cands[0].location) then PickFixed(cands[1..], res)
    else PickFixed(cands[1..], res + [cands[0]])
  }

  /** The same scan without any stopping: every candidate not near an earlier acceptance is accepted. */
  function Scan(cands: seq<Poi>, res: seq<Poi>): (r: seq<Poi>)
    decreases |cands|
  {
    if cands == [] then res
    else if Near(Locations(res), cands[0].location) then Scan(cands[1..], res)
    else Scan(cands[1..], res + [cands[0]])
  }

  function LocationsOf(o: Option<seq<Poi>>): (r: Option<seq<nat>>)
    ensures r.Some? <==> o.Some?
    ensures r.Some? ==> r.value == Locations(o.value)
  {
    if o.Some? then Some(Locations(o.value)) else None
  }

  /** Appending a point that is not near any accepted one keeps the points separated. */
  lemma AcceptKeepsSeparated(res: seq<Poi>, p: Poi)
    requires Separated(res) && !Near(Locations(res), p.location)
    ensures Separated(res + [p])
  {
    var s := res + [p];
    forall a, b | 0 <= a < b < |s|
      ensures s[b].location < s[a].location - MinGap || s[b].location > s[a].location + MinGap
    {
      if b == |res| {
        assert Locations(res)[a] == s[a].location;
      }
    }
  }

  /** The state the scan keeps: accepted points separated, in diff order, none below a later candidate. */
  ghost predicate Ahead(cands: seq<Poi>, res: seq<Poi>)
  {
    ByDiffDesc(cands) && Separated(res) && ByDiffDesc(res)
    && forall a, c :: 0 <= a < |res| && 0 <= c < |cands| ==> res[a].diff >= cands[c].diff
  }

  lemma AheadStep(cands: seq<Poi>, res: seq<Poi>)
    requires cands != [] && Ahead(cands, res)
    ensures Ahead(cands[1..], res)
    ensures !Near(Locations(res), cands[0].location) ==> Ahead(cands[1..], res + [cands[0]])
  {
    if !Near(Locations(res), cands[0].location) {
      AcceptKeepsSeparated(res, cands[0]);
      var s := res + [cands[0]];
      assert forall a, c :: 0 <= a < |s| && 0 <= c < |cands[1..]| ==> s[a].diff >= cands[1..][c].diff by {
        forall a, c | 0 <= a < |s| && 0 <= c < |cands[1..]|
          ensures s[a].diff >= cands[1..][c].diff
        {
          assert cands[1..][c] == cands[c + 1];
        }
      }
    }
  }

  /**
   * What a successful intended scan returns: exactly five points extending
   * the accepted ones, pairwise more than `MinGap` apart, in non-increasing
   * diff order, every one of them taken from the candidates.
   */
  lemma {:induction false} PickFixedResult(cands: seq<Poi>, res: seq<Poi>)
    requires Ahead(cands, res) && |res| <= NumPoi
    ensures PickFixed(cands, res).Some? ==>
      var out := PickFixed(cands, res).value;
      |out| == NumPoi && out[..|res|] == res && Separated(out) && ByDiffDesc(out)
      && forall j :: |res| <= j < |out| ==> out[j] in cands
    decreases |cands|
  {
    if |res| < NumPoi && cands != [] {
      AheadStep(cands, res);
      var res' := if Near(Locations(res), cands[0].location) then res else res + [cands[0]];
      PickFixedResult(cands[1..], res');
      if PickFixed(cands, res).Some? {
        var out := PickFixed(cands, res).value;
        assert out[..|res'|] == res';
        assert out[..|res|] == res'[..|res|];
        forall j | |res| <= j < |out|
          ensures out[j] in cands
        {
          if j < |res'| {
            assert out[j] == res'[j] == cands[0];
          } else {
            assert out[j] in cands[1..];
          }
        }
      }
    }
  }

  /** Whenever the code as written returns, it returns what the intended loop returns. */
  lemma {:induction false} PickAgrees(cands: seq<Poi>, res: seq<Poi>)
    requires Pick(cands, res).Some?
    ensures PickFixed(cands, res) == Pick(cands, res)
    decreases |cands|
  {
    if |res| != NumPoi {
      if Near(Locations(res), cands[0].location) {
        PickAgrees(cands[1..], res);
      } else {
        PickAgrees(cands[1..], res + [cands[0]]);
      }
    }
  }

  /** The scan only ever adds to what it has accepted. */
  lemma {:induction false} ScanExtends(cands: seq<Poi>, res: seq<Poi>)
    ensures |Scan(cands, res)| >= |res| && Scan(cands, res)[..|res|] == res
    decreases |cands|
  {
    if cands != [] {
      var res' := if Near(Locations(res), cands[0].location) then res else res + [cands[0]];
      ScanExtends(cands[1..], res');
      assert Scan(cands, res)[..|res'|] == res';
      assert Scan(cands, res)[..|res|] == res'[..|res|];
    }
  }

  /**
   * The intended loop succeeds exactly when the unstopped scan accepts at
   * least five points, and then returns the first five of them.
   */
  lemma {:induction false} PickFixedIsScanPrefix(cands: seq<Poi>, res: seq<Poi>)
    requires |res| <= NumPoi
    ensures PickFixed(cands, res).Some? <==> |Scan(cands, res)| >= NumPoi
    ensures PickFixed(cands, res).Some? ==> PickFixed(cands, res).value == Scan(cands, res)[..NumPoi]
    decreases |cands|
  {
    ScanExtends(cands, res);
    if |res| == NumPoi {
      assert Scan(cands, res)[..NumPoi] == res;
    } else if cands != [] {
      var res' := if Near(Locations(res), cands[0].location) then res else res + [cands[0]];
      PickFixedIsScanPrefix(cands[1..], res');
    }
  }

  /** With fewer than five acceptances over `pre`, both loops carry on from where the scan of `pre` left them. */
  lemma {:induction false} PickAcross(pre: seq<Poi>, rest: seq<Poi>, res: seq<Poi>)
    requires |Scan(pre, res)| < NumPoi
    ensures rest != [] ==> Pick(pre + rest, res) == Pick(rest, Scan(pre, res))
    ensures PickFixed(pre + rest, res) == PickFixed(rest, Scan(pre, res))
    decreases |pre|
  {
    if pre != [] {
      assert (pre + rest)[1..] == pre[1..] + rest;
      var res' := if Near(Locations(res), pre[0].location) then res else res + [pre[0]];
      ScanExtends(pre[1..], res');
      PickAcross(pre[1..], rest, res');
    } else {
      assert pre + rest == rest;
    }
  }

  /**
   * The defect: when the scan has accepted four points and the fifth
   * acceptable candidate is the last one, the code as written falls out of
   * the loop with five points in hand and reports failure, where the
   * intended loop returns them.
   */
  lemma LastPickLost(pre: seq<Poi>, p: Poi)
    requires |Scan(pre, [])| == NumPoi - 1 && !Near(Locations(Scan(pre, [])), p.location)
    ensures Pick(pre + [p], []) == None
    ensures PickFixed(pre + [p], []) == Some(Scan(pre, []) + [p])
  {
    PickAcross(pre, [p], []);
  }

  /** Scanning a concatenation scans the second part from where the first left off. */
  lemma {:induction false} ScanAppend(a: seq<Poi>, b: seq<Poi>, res: seq<Poi>)
    ensures Scan(a + b, res) == Scan(b, Scan(a, res))
    decreases |a|
  {
    if a == [] {
      assert a + b == b;
    } else {
      assert (a + b)[1..] == a[1..] + b;
      var res' := if Near(Locations(res), a[0].location) then res else res + [a[0]];
      ScanAppend(a[1..], b, res');
    }
  }

  /** Candidates each near an accepted point are all skipped. */
  lemma {:induction false} ScanSkips(mid: seq<Poi>, res: seq<Poi>)
    requires forall c :: 0 <= c < |mid| ==> Near(Locations(res), mid[c].location)
    ensures Scan(mid, res) == res
    decreases |mid|
  {
    if mid != [] {
      assert Near(Locations(res), mid[0].location);
      ScanSkips(mid[1..], res);
    }
  }

  /** The four peaks of the defect's input, 11 samples apart. */
  const Peaks: seq<Poi> := [Poi(4.0, 0), Poi(4.0, 11), Poi(4.0, 22), Poi(4.0, 33)]

  /** The other 40 samples below 44 in increasing order: each lies within 10 of a peak. */
  function Between(): (m: seq<Poi>)
    ensures |m| == 40 && forall c :: 0 <= c < 40 ==> m[c] == Poi(1.0, c + c / 10 + 1)
  {
    seq(40, c requires 0 <= c < 40 => Poi(1.0, c + c / 10 + 1))
  }

  /** The scan accepts each of the four peaks. */
  lemma PeaksAccepted()
    ensures Scan(Peaks, []) == Peaks && Locations(Peaks) == [0, 11, 22, 33]
  {
    var p1, p2, p3 := Peaks[..1], Peaks[..2], Peaks[..3];
    assert !Near(Locations([]), 0);
    assert Scan([Peaks[0]], []) == p1;
    assert Locations(p1) == [0];
    assert !Near(Locations(p1), 11);
    assert Scan([Peaks[1]], p1) == p2;
    assert Locations(p2) == [0, 11];
    assert !Near(Locations(p2), 22);
    assert Scan([Peaks[2]], p2) == p3;
    assert Locations(p3) == [0, 11, 22];
    assert !Near(Locations(p3), 33);
    assert Scan([Peaks[3]], p3) == Peaks;
    assert Peaks == [Peaks[0]] + [Peaks[1]] + [Peaks[2]] + [Peaks[3]];
    ScanAppend([Peaks[0]], [Peaks[1]], []);
    ScanAppend([Peaks[0]] + [Peaks[1]], [Peaks[2]], []);
    ScanAppend([Peaks[0]] + [Peaks[1]] + [Peaks[2]], [Peaks[3]], []);
  }

  /** With the peaks accepted, every sample between them is skipped. */
  lemma BetweenSkipped()
    ensures Scan(Between(), Peaks) == Peaks
  {
    PeaksAccepted();
    forall c | 0 <= c < 40
      ensures Near(Locations(Peaks), Between()[c].location)
    {
      var k := c / 10;
      assert Locations(Peaks)[k] == 11 * k;
    }
    ScanSkips(Between(), Peaks);
  }

  /** That order is a valid outcome of the sort. */
  lemma DefectOrderSorted()
    ensures ByDiffDesc(Peaks + Between() + [Poi(0.0, 44)])
  {
    var cands := Peaks + Between() + [Poi(0.0, 44)];
    assert forall c :: 0 <= c < 4 ==> cands[c].diff == 4.0;
    assert forall c :: 4 <= c < 44 ==> cands[c] == Between()[c - 4];
    assert cands[44].diff == 0.0;
  }

  /**
   * The candidate order for 45 samples whose differences are 4.0 at samples
   * 0, 11, 22 and 33, 0.0 at sample 44 and 1.0 everywhere else: the peaks,
   * then the rest, then sample 44. Five points qualify, sample 44 last, and
   * the code as written rejects the input.
   */
  lemma DefectInstance()
    ensures ByDiffDesc(Peaks + Between() + [Poi(0.0, 44)])
    ensures Pick(Peaks + Between() + [Poi(0.0, 44)], []) == None
    ensures PickFixed(Peaks + Between() + [Poi(0.0, 44)], []) == Some(Peaks + [Poi(0.0, 44)])
  {
    DefectOrderSorted();
    PeaksAccepted();
    BetweenSkipped();
    ScanAppend(Peaks, Between(), []);
    assert !Near(Locations(Peaks), 44);
    LastPickLost(Peaks + Between(), Poi(0.0, 44));
  }

  /** The first candidate is always accepted. */
  lemma PickFirst(cands: seq<Poi>)
    requires cands != [] && ByDiffDesc(cands) && PickFixed(cands, []).Some?
    ensures |PickFixed(cands, []).value| == NumPoi && PickFixed(cands, []).value[0] == cands[0]
  {
    assert !Near(Locations([]), cands[0].location);
    assert [] + [cands[0]] == [cands[0]];
    assert PickFixed(cands, []) == PickFixed(cands[1..], [cands[0]]);
    AheadStep(cands, []);
    PickFixedResult(cands[1..], [cands[0]]);
  }

  /** `sorted` is the candidate array after the sort: a reordering with non-increasing diffs. */
  predicate SortedCandidates(zeroAvg: seq<real>, randAvg: seq<real>, sorted: seq<Poi>)
    requires |zeroAvg| <= |randAvg|
  {
    multiset(sorted) == multiset(Candidates(zeroAvg, randAvg)) && ByDiffDesc(sorted)
  }

  /** The points of interest in terms of the sample data: what `findPointsOfInterest` promises. */
  ghost predicate PointsOfInterest(zeroAvg: seq<real>, randAvg: seq<real>, locs: seq<nat>)
    requires |zeroAvg| <= |randAvg|
  {
    |locs| == NumPoi
    && (forall j :: 0 <= j < |locs| ==> locs[j] < |zeroAvg|)
    && (forall a, b :: 0 <= a < b < |locs| ==> locs[b] < locs[a] - MinGap || locs[b] > locs[a] + MinGap)
    && (forall a, b :: 0 <= a < b < |locs| ==> Diff(zeroAvg, randAvg, locs[a]) >= Diff(zeroAvg, randAvg, locs[b]))
    && (forall i :: 0 <= i < |zeroAvg| ==> Diff(zeroAvg, randAvg, locs[0]) >= Diff(zeroAvg, randAvg, i))
  }

  /**
   * Whatever order the unstable sort leaves equal diffs in, a successful
   * selection is five samples more than `MinGap` apart, in non-increasing
   * order of the difference between the mean traces, the first of them at
   * the largest difference of all.
   */
  lemma SelectionProperties(zeroAvg: seq<real>, randAvg: seq<real>, sorted: seq<Poi>)
    requires |zeroAvg| <= |randAvg| && SortedCandidates(zeroAvg, randAvg, sorted)
    requires PickFixed(sorted, []).Some?
    ensures PointsOfInterest(zeroAvg, randAvg, Locations(PickFixed(sorted, []).value))
  {
    var c := Candidates(zeroAvg, randAvg);
    PickFixedResult(sorted, []);
    var out := PickFixed(sorted, []).value;
    var locs := Locations(out);
    // Every sorted entry is a candidate, so its diff is the diff at its location.
    forall j | 0 <= j < |out|
      ensures locs[j] < |zeroAvg| && out[j].diff == Diff(zeroAvg, randAvg, locs[j])
    {
      assert out[j] in multiset(sorted);
      assert out[j] in c;
      var i :| 0 <= i < |c| && c[i] == out[j];
    }
    // The first sorted entry is the first accepted one, and it heads the order.
    assert sorted != [];
    PickFirst(sorted);
    forall i | 0 <= i < |zeroAvg|
      ensures Diff(zeroAvg, randAvg, locs[0]) >= Diff(zeroAvg, randAvg, i)
    {
      assert c[i] in multiset(sorted);
      var k :| 0 <= k < |sorted| && sorted[k] == c[i];
      if k > 0 {
        assert sorted[0].diff >= sorted[k].diff;
      }
    }
  }

  /** The selection as written, when it returns, has the same properties. */
  lemma SelectionPropertiesAsWritten(zeroAvg: seq<real>, randAvg: seq<real>, sorted: seq<Poi>)
    requires |zeroAvg| <= |randAvg| && SortedCandidates(zeroAvg, randAvg, sorted)
    requires Pick(sorted, []).Some?
    ensures PointsOfInterest(zeroAvg, randAvg, Locations(Pick(sorted, []).value))
  {
    PickAgrees(sorted, []);
    SelectionProperties(zeroAvg, randAvg, sorted);
  }

  /** The loop that fills `poi`. */
  method BuildCandidates(zeroAvg: seq<real>, randAvg: seq<real>) returns (poi: seq<Poi>)
    requires |zeroAvg| <= |randAvg|
    ensures poi == Candidates(zeroAvg, randAvg)
  {
    var a := new Poi[|zeroAvg|](_ => Poi(0.0, 0));
    var i := 0;
    while i < |zeroAvg|
      invariant 0 <= i <= |zeroAvg|
      invariant forall j :: 0 <= j < i ==> a[j] == Poi(Diff(zeroAvg, randAvg, j), j)
    {
      a[i] := Poi(KeyGuess.Abs(zeroAvg[i] - randAvg[i]), i);
      i := i + 1;
    }
    poi := a[..];
  }

  /** The inner loop: does some accepted location lie within `MinGap` of `loc`? */
  method TooClose(res: seq<nat>, loc: nat) returns (skip: bool)
    ensures skip <==> Near(res, loc)
  {
    skip := false;
    var j := 0;
    while j < |res|
      invariant 0 <= j <= |res|
      invariant skip <==> Near(res[..j], loc)
    {
      if res[j] - MinGap <= loc && loc <= res[j] + MinGap {
        skip := true;
      }
      assert res[..j + 1] == res[..j] + [res[j]];
      j := j + 1;
    }
    assert res[..j] == res;
  }

  /**
   * `findPointsOfInterest` as written, given the candidates in the order the
   * sort left them; `None` is the fatal "Did not find enough
   * points-of-interest". `poi[:10]` in the log line panics below ten samples.
   */
  method FindPointsOfInterest(zeroAvg: seq<real>, randAvg: seq<real>, sorted: seq<Poi>) returns (r: Option<seq<nat>>)
    requires 10 <= |zeroAvg| <= |randAvg| && SortedCandidates(zeroAvg, randAvg, sorted)
    ensures r == LocationsOf(Pick(sorted, []))
    ensures r.Some? ==> PointsOfInterest(zeroAvg, randAvg, r.value)
  {
    var res: seq<nat> := [];
    ghost var picked: seq<Poi> := [];
    var k := 0;
    while k < |sorted|
      invariant 0 <= k <= |sorted| && res == Locations(picked)
      invariant Pick(sorted[k..], picked) == Pick(sorted, [])
    {
      if |res| == NumPoi {
        SelectionPropertiesAsWritten(zeroAvg, randAvg, sorted);
        return Some(res);
      }
      var p := sorted[k];
      var skip := TooClose(res, p.location);
      if !skip {
        res := res + [p.location];
        picked := picked + [p];
      }
      assert sorted[k..][1..] == sorted[k + 1..];
      k := k + 1;
    }
    return None;
  }

  /** `findPointsOfInterest` with the count also checked once the candidates run out. */
  method FindPointsOfInterestFixed(zeroAvg: seq<real>, randAvg: seq<real>, sorted: seq<Poi>) returns (r: Option<seq<nat>>)
    requires 10 <= |zeroAvg| <= |randAvg| && SortedCandidates(zeroAvg, randAvg, sorted)
    ensures r == LocationsOf(PickFixed(sorted, []))
    ensures r.Some? ==> PointsOfInterest(zeroAvg, randAvg, r.value)
  {
    var res: seq<nat> := [];
    ghost var picked: seq<Poi> := [];
    var k := 0;
    while k < |sorted| && |res| < NumPoi
      invariant 0 <= k <= |sorted| && res == Locations(picked) && |res| <= NumPoi
      invariant PickFixed(sorted[k..], picked) == PickFixed(sorted, [])
    {
      var p := sorted[k];
      var skip := TooClose(res, p.location);
      if !skip {
        res := res + [p.location];
        picked := picked + [p];
      }
      assert sorted[k..][1..] == sorted[k + 1..];
      k := k + 1;
    }
    if |res| == NumPoi {
      SelectionProperties(zeroAvg, randAvg, sorted);
      return Some(res);
    }
    assert sorted[k..] == [];
    return None;
  }

  /** `splitTraces`: the first 80% of the rows (rounded down) for training, the rest for validation. */
  function SplitTraces<T>(m: seq<T>): (r: (seq<T>, seq<T>))
    ensures r.0 + r.1 == m
    ensures 5 * |r.0| <= 4 * |m| < 5 * |r.0| + 5
  {
    var k := |m| * 80 / 100;
    (m[..k], m[k..])
  }

  /** The samples of one trace at the points of interest, in their order. */
  function AtPoints(row: seq<real>, poi: seq<nat>): (x: seq<real>)
    requires forall j :: 0 <= j < |poi| ==> poi[j] < |row|
    ensures |x| == |poi| && forall j :: 0 <= j < |poi| ==> x[j] == row[poi[j]]
  {
    seq(|poi|, j requires 0 <= j < |poi| => row[poi[j]])
  }

  /** Every validation trace has a sample at every point of interest; `At` panics otherwise. */
  predicate Covers(validation: seq<seq<real>>, poi: seq<nat>)
  {
    forall i, j :: 0 <= i < |validation| && 0 <= j < |poi| ==> poi[j] < |validation[i]|
  }

  /**
   * `testValidationSet`: one verdict per validation trace, true for "zero
   * point", false for "rand point"; the two models' log-probabilities are
   * parameters.
   */
  method TestValidationSet(validation: seq<seq<real>>, poi: seq<nat>,
                           zeroLogProb: seq<real> -> real, randLogProb: seq<real> -> real)
    returns (zeroPoint: seq<bool>)
    requires Covers(validation, poi)
    ensures |zeroPoint| == |validation|
    ensures forall i :: 0 <= i < |validation| ==>
      (zeroPoint[i] <==> zeroLogProb(AtPoints(validation[i], poi)) > randLogProb(AtPoints(validation[i], poi)))
  {
    zeroPoint := [];
    var i := 0;
    while i < |validation|
      invariant 0 <= i <= |validation| && |zeroPoint| == i
      invariant forall t :: 0 <= t < i ==>
        (zeroPoint[t] <==> zeroLogProb(AtPoints(validation[t], poi)) > randLogProb(AtPoints(validation[t], poi)))
    {
      var x: seq<real> := [];
      var j := 0;
      while j < |poi|
        invariant 0 <= j <= |poi| && x == AtPoints(validation[i], poi[..j])
      {
        x := x + [validation[i][poi[j]]];
        j := j + 1;
      }
      assert poi[..j] == poi;
      zeroPoint := zeroPoint + [zeroLogProb(x) > randLogProb(x)];
      i := i + 1;
    }
  }
}
