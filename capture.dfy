/**
 * Trace collection (capture.go). `NewCapture` repeats one acquisition until
 * it holds the requested number of traces: check the ADC's sticky error,
 * generate a plaintext, arm, send the plaintext, wait for the trigger, read
 * the ciphertext, read the samples. A trigger timeout or an empty sample read
 * retries; any other failure aborts the whole capture.
 *
 * The ADC, the simple-serial target and the generator are the environment:
 * each acquisition is described by an `Attempt`, what each of those calls
 * answers that time round. A capture draws attempts from a finite list; the
 * driver's loop has no bound, so running out of attempts is reported as
 * `ScriptExhausted`.
 */
module TraceCapture {
  import opened Base

  /** `Trace`, with the samples as the raw 10-bit values the ADC decodes. */
  datatype Trace = Trace(key: seq<byte>, pt: seq<byte>, ct: seq<byte>, measurements: seq<nat>)

  /** What the environment answers during one acquisition. */
  datatype Attempt = Attempt(
    adcError: Option<Error>,          // `adc.Error()`
    plaintext: Result<seq<byte>>,     // `ptGen()`
    sent: Outcome,                    // `ser.WritePlaintext(pt)`
    timedOut: bool,                   // `adc.WaitForTigger()`
    ciphertext: Result<seq<byte>>,    // `ser.Response()`
    measurements: seq<nat>)           // `adc.TraceData()`

  /** The calls an acquisition makes, in order. */
  datatype Step = CheckError | Generate | ArmOn | SendPlaintext(pt: seq<byte>) | WaitTrigger | ReadResponse | ReadTrace

  datatype Verdict = Abort(error: Error) | Retry | Keep(trace: Trace)

  /** A capture's result and every call it made. */
  datatype Run = Run(result: Result<seq<Trace>>, log: seq<Step>)

  /** The calls of an acquisition that gets as far as reading the samples. */
  function FullOrder(pt: seq<byte>): seq<Step>
  {
    [CheckError, Generate, ArmOn, SendPlaintext(pt), WaitTrigger, ReadResponse, ReadTrace]
  }

  /** One pass of `NewCapture`'s loop: its verdict and its calls. */
  function Acquire(key: seq<byte>, a: Attempt): (Verdict, seq<Step>)
  {
    if a.adcError.Some? then (Abort(a.adcError.value), [CheckError])
    else if a.plaintext.Err? then (Abort(a.plaintext.error), [CheckError, Generate])
    else
      var pt := a.plaintext.value;
      if a.sent.Fail? then (Abort(a.sent.error), FullOrder(pt)[..4])
      else if a.timedOut then (Retry, FullOrder(pt)[..5])
      else if a.ciphertext.Err? then (Abort(a.ciphertext.error), FullOrder(pt)[..6])
      else if a.measurements == [] then (Retry, FullOrder(pt))
      else (Keep(Trace(key, pt, a.ciphertext.value, a.measurements)), FullOrder(pt))
  }

  /** `NewCapture`'s loop from the traces `acc` collected so far. */
  function Collect(key: seq<byte>, attempts: seq<Attempt>, numTraces: int, acc: seq<Trace>): Run
    decreases |attempts|
  {
    if |acc| >= numTraces then Run(Ok(acc), [])
    else if attempts == [] then Run(Err(ScriptExhausted), [])
    else
      var (v, steps) := Acquire(key, attempts[0]);
      match v
      case Abort(e) => Run(Err(e), steps)
      case Retry =>
        var r := Collect(key, attempts[1..], numTraces, acc);
        Run(r.result, steps + r.log)
      case Keep(t) =>
        var r := Collect(key, attempts[1..], numTraces, acc + [t]);
        Run(r.result, steps + r.log)
  }

  /** A kept trace carries the key, that pass's plaintext and ciphertext, and a non-empty sample list. */
  predicate FromAttempt(t: Trace, key: seq<byte>, a: Attempt)
  {
    && t.key == key
    && a.plaintext == Ok(t.pt)
    && a.ciphertext == Ok(t.ct)
    && t.measurements == a.measurements
    && t.measurements != []
  }

  /** The verdict of one pass: which answers abort, which retry, and what is kept. */
  lemma AcquireVerdict(key: seq<byte>, a: Attempt)
    ensures var v := Acquire(key, a).0;
      && (v.Abort? <==> a.adcError.Some? || a.plaintext.Err? || a.sent.Fail? || (!a.timedOut && a.ciphertext.Err?))
      && (v.Retry? <==> a.adcError.None? && a.plaintext.Ok? && a.sent.Pass? && (a.timedOut || (a.ciphertext.Ok? && a.measurements == [])))
      && (v.Keep? ==> FromAttempt(v.trace, key, a))
      && (a.adcError.Some? ==> v == Abort(a.adcError.value))
  {
  }

  /**
   * The calls of one pass come in the fixed order generate, arm, send,
   * wait, read ciphertext, read samples, after the error check; a pass stops
   * at the call that fails, and a kept trace made all of them.
   */
  lemma AcquireOrder(key: seq<byte>, a: Attempt)
    ensures var (v, steps) := Acquire(key, a);
      && 1 <= |steps| <= 7
      && (a.plaintext.Ok? ==> steps == FullOrder(a.plaintext.value)[..|steps|])
      && (a.plaintext.Err? ==> steps == [CheckError, Generate][..|steps|])
      && (v.Keep? ==> steps == FullOrder(v.trace.pt))
  {
  }

  /** A capture that succeeds holds exactly `numTraces` traces (or what it started with, if more). */
  lemma {:induction false} CollectCount(key: seq<byte>, attempts: seq<Attempt>, numTraces: int, acc: seq<Trace>)
    ensures var r := Collect(key, attempts, numTraces, acc).result;
      r.Ok? ==> |r.value| == if |acc| >= numTraces then |acc| else numTraces
    decreases |attempts|
  {
    if |acc| < numTraces && attempts != [] {
      var v := Acquire(key, attempts[0]).0;
      if v.Retry? {
        CollectCount(key, attempts[1..], numTraces, acc);
      } else if v.Keep? {
        CollectCount(key, attempts[1..], numTraces, acc + [v.trace]);
      }
    }
  }

  /**
   * Every trace a capture adds was kept by one of its passes: it carries the
   * key and that pass's plaintext, ciphertext and (non-empty) samples.
   */
  lemma {:induction false} CollectTraces(key: seq<byte>, attempts: seq<Attempt>, numTraces: int, acc: seq<Trace>)
    ensures var r := Collect(key, attempts, numTraces, acc).result;
      r.Ok? ==>
        && |acc| <= |r.value| && r.value[..|acc|] == acc
        && forall k :: |acc| <= k < |r.value| ==> exists j :: 0 <= j < |attempts| && FromAttempt(r.value[k], key, attempts[j])
    decreases |attempts|
  {
    if |acc| < numTraces && attempts != [] {
      var v := Acquire(key, attempts[0]).0;
      AcquireVerdict(key, attempts[0]);
      var rest := attempts[1..];
      if v.Retry? {
        CollectTraces(key, rest, numTraces, acc);
        var r := Collect(key, rest, numTraces, acc).result;
        if r.Ok? {
          forall k | |acc| <= k < |r.value|
            ensures exists j :: 0 <= j < |attempts| && FromAttempt(r.value[k], key, attempts[j])
          {
            var j :| 0 <= j < |rest| && FromAttempt(r.value[k], key, rest[j]);
            assert attempts[j + 1] == rest[j];
          }
        }
      } else if v.Keep? {
        var acc' := acc + [v.trace];
        CollectTraces(key, rest, numTraces, acc');
        var r := Collect(key, rest, numTraces, acc').result;
        if r.Ok? {
          assert r.value[..|acc|] == acc by {
            assert r.value[..|acc|] == r.value[..|acc'|][..|acc|];
          }
          forall k | |acc| <= k < |r.value|
            ensures exists j :: 0 <= j < |attempts| && FromAttempt(r.value[k], key, attempts[j])
          {
            if k == |acc| {
              assert r.value[k] == r.value[..|acc'|][k] == v.trace;
              assert FromAttempt(r.value[k], key, attempts[0]);
            } else {
              var j :| 0 <= j < |rest| && FromAttempt(r.value[k], key, rest[j]);
              assert attempts[j + 1] == rest[j];
            }
          }
        }
      }
    }
  }

  /** A pass that aborts ends the capture with its error, whatever attempts follow. */
  lemma AbortEndsCapture(key: seq<byte>, attempts: seq<Attempt>, numTraces: int, acc: seq<Trace>)
    requires |acc| < numTraces && attempts != [] && Acquire(key, attempts[0]).0.Abort?
    ensures Collect(key, attempts, numTraces, acc) == Run(Err(Acquire(key, attempts[0]).0.error), Acquire(key, attempts[0]).1)
  {
  }

  /** One pass of the loop body, with the calls it makes. */
  method AcquireOnce(key: seq<byte>, a: Attempt) returns (v: Verdict, steps: seq<Step>)
    ensures (v, steps) == Acquire(key, a)
  {
    steps := [CheckError];
    if a.adcError.Some? {
      return Abort(a.adcError.value), steps;
    }
    steps := steps + [Generate];
    assert steps == [CheckError, Generate];
    if a.plaintext.Err? {
      return Abort(a.plaintext.error), steps;
    }
    var pt := a.plaintext.value;
    steps := steps + [ArmOn, SendPlaintext(pt)];
    assert steps == FullOrder(pt)[..4];
    if a.sent.Fail? {
      return Abort(a.sent.error), steps;
    }
    steps := steps + [WaitTrigger];
    assert steps == FullOrder(pt)[..5];
    if a.timedOut {
      return Retry, steps;
    }
    steps := steps + [ReadResponse];
    assert steps == FullOrder(pt)[..6];
    if a.ciphertext.Err? {
      return Abort(a.ciphertext.error), steps;
    }
    steps := steps + [ReadTrace];
    assert steps == FullOrder(pt);
    if a.measurements == [] {
      return Retry, steps;
    }
    v := Keep(Trace(key, pt, a.ciphertext.value, a.measurements));
  }

  /** `NewCapture`'s loop, `for len(capture) < numTraces`, drawing one attempt per pass. */
  method NewCapture(key: seq<byte>, attempts: seq<Attempt>, numTraces: int) returns (r: Run)
    ensures r == Collect(key, attempts, numTraces, [])
  {
    var capture: seq<Trace> := [];
    var log: seq<Step> := [];
    var i := 0;
    while |capture| < numTraces
      invariant 0 <= i <= |attempts|
      invariant Collect(key, attempts, numTraces, []) == Run(Collect(key, attempts[i..], numTraces, capture).result,
                                                          log + Collect(key, attempts[i..], numTraces, capture).log)
      decreases |attempts| - i
    {
      if i == |attempts| {
        return Run(Err(ScriptExhausted), log);
      }
      var v, steps := AcquireOnce(key, attempts[i]);
      assert attempts[i..][1..] == attempts[i + 1..];
      ghost var before := log;
      log := log + steps;
      if v.Abort? {
        return Run(Err(v.error), log);
      }
      if v.Keep? {
        capture := capture + [v.trace];
      }
      i := i + 1;
      ghost var rest := Collect(key, attempts[i..], numTraces, capture).log;
      assert before + (steps + rest) == log + rest;
    }
    if i < |attempts| || i == |attempts| {
      assert Collect(key, attempts[i..], numTraces, capture) == Run(Ok(capture), []);
    }
    assert log + [] == log;
    r := Run(Ok(capture), log);
  }

  /** `RandGen(numBytes)`: a fresh `numBytes`-byte plaintext from the entropy source, or its error. */
  function RandGen(numBytes: nat, entropy: Result<seq<byte>>): (r: Result<seq<byte>>)
    ensures r.Ok? ==> |r.value| == numBytes
    ensures r.Ok? <==> entropy.Ok? && |entropy.value| >= numBytes
    ensures r.Ok? ==> r.value == entropy.value[..numBytes]
  {
    if entropy.Err? then Err(EntropyFailed)
    else if |entropy.value| < numBytes then Err(EntropyFailed)
    else Ok(entropy.value[..numBytes])
  }

  /** The matrix `SamplesMatrix` builds: the first `cols` samples of each trace, row after row. */
  function RowMajor(c: seq<Trace>, cols: nat): (r: seq<nat>)
    requires forall i :: 0 <= i < |c| ==> |c[i].measurements| >= cols
    ensures |r| == |c| * cols
  {
    if c == [] then []
    else
      var init := c[..|c| - 1];
      var r := RowMajor(init, cols) + c[|c| - 1].measurements[..cols];
      assert |r| == (|c| - 1) * cols + cols;
      r
  }

  /** Row `i`, column `j` of the matrix is sample `j` of trace `i`, at index `i * cols + j`. */
  lemma {:induction false} RowMajorCell(c: seq<Trace>, cols: nat, i: nat, j: nat)
    requires forall k :: 0 <= k < |c| ==> |c[k].measurements| >= cols
    requires i < |c| && j < cols
    ensures i * cols + j < |c| * cols && RowMajor(c, cols)[i * cols + j] == c[i].measurements[j]
    decreases |c|
  {
    var init := c[..|c| - 1];
    assert |RowMajor(init, cols)| == (|c| - 1) * cols;
    if i < |c| - 1 {
      RowMajorCell(init, cols, i, j);
      assert init[i] == c[i];
    }
  }

  /**
   * `SamplesMatrix`: the samples of every trace, row by row, each row as
   * wide as the first trace; an empty capture, a shorter later trace, or a
   * first trace without samples (`mat.NewDense` refuses zero columns) panics
   * in the driver.
   */
  method SamplesMatrix(c: seq<Trace>) returns (data: array<nat>, rows: nat, cols: nat)
    requires |c| > 0 && |c[0].measurements| > 0
    requires forall i :: 0 <= i < |c| ==> |c[i].measurements| >= |c[0].measurements|
    ensures rows == |c| && cols == |c[0].measurements|
    ensures data[..] == RowMajor(c, cols)
    ensures fresh(data)
  {
    rows := |c|;
    cols := |c[0].measurements|;
    data := new nat[rows * cols];
    var i := 0;
    while i < rows
      invariant 0 <= i <= rows
      invariant data[..i * cols] == RowMajor(c[..i], cols)
    {
      RowMajorPrefix(c, cols, i + 1);
      assert (i + 1) * cols == i * cols + cols;
      CopyRow(data, i * cols, c[i].measurements, cols);
      assert c[..i + 1][..i] == c[..i];
      assert data[..i * cols + cols] == data[..i * cols] + data[i * cols..i * cols + cols];
      i := i + 1;
    }
    assert c[..rows] == c;
  }

  /** The inner loop of `SamplesMatrix`: the first `cols` samples of one trace into the cells from `base` on. */
  method CopyRow(data: array<nat>, base: nat, row: seq<nat>, cols: nat)
    requires base + cols <= data.Length && cols <= |row|
    modifies data
    ensures data[..base] == old(data[..base])
    ensures data[base..base + cols] == row[..cols]
  {
    var j := 0;
    while j < cols
      invariant 0 <= j <= cols
      invariant data[..base] == old(data[..base])
      invariant data[base..base + j] == row[..j]
    {
      data[base + j] := row[j];
      assert data[base..base + j + 1] == data[base..base + j] + [row[j]];
      j := j + 1;
    }
  }

  /** The first `n` rows take up the first `n * cols` cells. */
  lemma {:induction false} RowMajorPrefix(c: seq<Trace>, cols: nat, n: nat)
    requires forall k :: 0 <= k < |c| ==> |c[k].measurements| >= cols
    requires n <= |c|
    ensures n * cols <= |c| * cols
    decreases |c| - n
  {
    if n < |c| {
      RowMajorPrefix(c, cols, n + 1);
      assert (n + 1) * cols == n * cols + cols;
    }
  }
}
