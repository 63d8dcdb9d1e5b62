/**
 * The FPGA loader (fpga.go): read the DONE status bit, and program the
 * bitstream by pulsing PROGRAM (0xA0, 0xA1), streaming the bitstream over the
 * bulk endpoint, polling DONE, and leaving programming mode (0xA2).
 *
 * The poll loop of `Program` counts its attempts downwards from 0 while
 * testing `attempts < 5`, so the five-attempt bound it was meant to enforce
 * never applies: the loop ends only when DONE is seen or a status read fails
 * (or, in principle, when the 64-bit counter wraps round after 2^63 polls).
 * `PollLoop`, `Fpga.Program` and `NewFpga` model that code as written;
 * `PollBounded`, `Fpga.ProgramBounded` and `NewFpgaBounded` model the
 * evidently intended five-attempt loop.
 */
module FpgaLoader {
  import opened Base
  import opened Bytes
  import opened Usb
  import opened ExtMemory

  /** Go's 64-bit `int`, the type of the `attempts` counter. */
  const MinInt: int := -0x8000_0000_0000_0000
  const MaxInt: int := 0x7FFF_FFFF_FFFF_FFFF
  type int64 = x: int | MinInt <= x <= MaxInt

  /** `attempts--` on a 64-bit int: wraps from the least value to the greatest. */
  function Dec(x: int64): (y: int64)
    ensures x > MinInt ==> y == x - 1
    ensures x == MinInt ==> y == MaxInt
  {
    if x == MinInt then MaxInt else x - 1
  }

  /** The buffer size `io.Copy` reads and writes with. */
  const CopyBuffer: nat := 32 * 1024

  /** `ctrlProgram(val)`: a `ReqFpgaProgram` control transfer without data. */
  function ProgramCommand(d: Dev, val: u16): (Outcome, Dev)
  {
    CtrlOut(d, FpgaProgram, val, [])
  }

  /** A `ReqFpgaStatus` reply carrying a status word whose DONE bit is `done`. */
  predicate StatusReply(r: Reply, done: bool)
  {
    r.Deliver? && |r.data| == 4 && (LeWord32(r.data) & 1 == 1) == done
  }

  /** `IsProgrammed`: bit 0 of the 32-bit little-endian `ReqFpgaStatus` word. */
  function StatusExchange(d: Dev): (r: (Result<bool>, Dev))
    ensures r.1 == Answer(d, ControlIn(FpgaStatus, 0, 4))
    ensures r.0 == Ok(true) <==> StatusReply(Next(d), true)
    ensures r.0 == Ok(false) <==> StatusReply(Next(d), false)
    ensures r.0.Err? <==> !(Next(d).Deliver? && |Next(d).data| == 4)
  {
    var (got, d1) := CtrlIn(d, FpgaStatus, 0, 4);
    if got.Err? then (Err(got.error), d1) else (Ok(LeWord32(got.value) & 1 == 1), d1)
  }

  /** What the status reads of the poll loop add to the log. */
  function Polls(n: nat): (ts: seq<Transfer>)
    ensures |ts| == n && forall i :: 0 <= i < n ==> ts[i] == ControlIn(FpgaStatus, 0, 4)
  {
    seq(n, i => ControlIn(FpgaStatus, 0, 4))
  }

  /**
   * The poll loop as written: `for attempts := 0; attempts < 5; attempts--`.
   * Returns whether DONE was seen, or the error of a failed status read.
   */
  function PollLoop(d: Dev, attempts: int64): (Result<bool>, Dev)
    decreases |d.script|
  {
    if !(attempts < 5) then (Ok(false), d)
    else
      var (ready, d1) := StatusExchange(d);
      if ready.Err? || ready.value then (ready, d1)
      else PollLoop(d1, Dec(attempts))
  }

  /** The evidently intended loop, `attempts++`: at most five status reads. */
  function PollBounded(d: Dev, attempts: nat): (Result<bool>, Dev)
    decreases 5 - attempts
  {
    if !(attempts < 5) then (Ok(false), d)
    else
      var (ready, d1) := StatusExchange(d);
      if ready.Err? || ready.value then (ready, d1)
      else PollBounded(d1, attempts + 1)
  }

  /** Bulk writes of `cs`, one after the other, stopping at the first failure. */
  function WriteChunks(d: Dev, cs: seq<seq<byte>>): (Outcome, Dev)
    decreases |cs|
  {
    if cs == [] then (Pass, d)
    else
      var (w, d1) := BulkOut(d, cs[0]);
      if w.Err? then (Fail(w.error), d1)
      else if w.value != |cs[0]| then (Fail(ShortWrite), d1)
      else WriteChunks(d1, cs[1..])
  }

  /** `io.Copy(dev, bitstream)`: the stream in buffer-sized bulk writes. */
  function CopyExchange(d: Dev, bitstream: seq<byte>): (Outcome, Dev)
  {
    WriteChunks(d, Chunks(bitstream, CopyBuffer))
  }

  /** The bulk writes of `cs`, as they appear in the log. */
  function Writes(cs: seq<seq<byte>>): (ts: seq<Transfer>)
    ensures |ts| == |cs|
  {
    if cs == [] then [] else [BulkWrite(cs[0])] + Writes(cs[1..])
  }

  /** `Program` up to the poll loop: erase, enter programming mode, download. */
  function PrepareExchange(d: Dev, bitstream: seq<byte>): (Outcome, Dev)
  {
    var (erase, d1) := ProgramCommand(d, 0xA0);
    if erase.Fail? then (erase, d1)
    else
      var (setup, d2) := ProgramCommand(d1, 0xA1);
      if setup.Fail? then (setup, d2)
      else
        var (copied, d3) := CopyExchange(d2, bitstream);
        if copied.Fail? then (copied, d3) else (Pass, d3)
  }

  /** `Program` after the poll loop: leave programming mode, then judge DONE. */
  function FinishExchange(poll: (Result<bool>, Dev)): (Outcome, Dev)
  {
    var (ready, d) := poll;
    if ready.Err? then (Fail(ready.error), d)
    else
      var (exit, d1) := ProgramCommand(d, 0xA2);
      if exit.Fail? then (exit, d1)
      else if !ready.value then (Fail(FpgaNotReady), d1)
      else (Pass, d1)
  }

  /** `Program` as written. */
  function ProgramExchange(d: Dev, bitstream: seq<byte>): (Outcome, Dev)
  {
    var (prepared, d1) := PrepareExchange(d, bitstream);
    if prepared.Fail? then (prepared, d1) else FinishExchange(PollLoop(d1, 0))
  }

  /** `Program` with the five-attempt poll loop. */
  function ProgramBoundedExchange(d: Dev, bitstream: seq<byte>): (Outcome, Dev)
  {
    var (prepared, d1) := PrepareExchange(d, bitstream);
    if prepared.Fail? then (prepared, d1) else FinishExchange(PollBounded(d1, 0))
  }

  /** `NewFpga`: program the board only when DONE is not already set. */
  function OpenExchange(d: Dev, bitstream: seq<byte>): (Outcome, Dev)
  {
    var (programmed, d1) := StatusExchange(d);
    if programmed.Err? then (Fail(programmed.error), d1)
    else if programmed.value then (Pass, d1)
    else ProgramExchange(d1, bitstream)
  }

  /** `NewFpga` over the five-attempt `Program`. */
  function OpenBoundedExchange(d: Dev, bitstream: seq<byte>): (Outcome, Dev)
  {
    var (programmed, d1) := StatusExchange(d);
    if programmed.Err? then (Fail(programmed.error), d1)
    else if programmed.value then (Pass, d1)
    else ProgramBoundedExchange(d1, bitstream)
  }

  /**
   * The bulk writes of a copy succeed iff the device accepts every chunk in
   * full; they then appear in the log in order, one reply consumed each.
   */
  lemma WriteChunksTranscript(d: Dev, cs: seq<seq<byte>>)
    ensures var (o, d') := WriteChunks(d, cs);
      && (o.Pass? <==> AcceptsAll(d, cs))
      && (o.Pass? ==> d' == Dev(d.log + Writes(cs), d.script[|cs|..]))
  {
    WriteChunksAccepted(d, cs);
    if WriteChunks(d, cs).0.Pass? {
      WriteChunksLogged(d, cs);
    }
  }

  /** The device's next replies accept every chunk in full. */
  ghost predicate AcceptsAll(d: Dev, cs: seq<seq<byte>>)
  {
    |cs| <= |d.script| && forall i :: 0 <= i < |cs| ==> d.script[i].Accept? && d.script[i].count >= |cs[i]|
  }

  lemma {:induction false} WriteChunksAccepted(d: Dev, cs: seq<seq<byte>>)
    ensures WriteChunks(d, cs).0.Pass? <==> AcceptsAll(d, cs)
    decreases |cs|
  {
    if cs != [] {
      var d1 := BulkOut(d, cs[0]).1;
      WriteChunksAccepted(d1, cs[1..]);
      if Next(d).Accept? && Next(d).count >= |cs[0]| {
        assert d.script != [] && d1.script == d.script[1..];
        assert forall i :: 1 <= i < |cs| && i < |d.script| ==> d.script[i] == d1.script[i - 1] && cs[i] == cs[1..][i - 1];
      }
    }
  }

  lemma WriteChunksLogged(d: Dev, cs: seq<seq<byte>>)
    requires WriteChunks(d, cs).0.Pass?
    ensures |cs| <= |d.script| && WriteChunks(d, cs).1 == Dev(d.log + Writes(cs), d.script[|cs|..])
  {
    WriteChunksLog(d, cs);
    WriteChunksScript(d, cs);
  }

  /** A successful first write leaves the rest to the remaining chunks. */
  lemma WriteChunksFirst(d: Dev, cs: seq<seq<byte>>)
    requires cs != [] && WriteChunks(d, cs).0.Pass?
    ensures d.script != [] && Next(d).Accept?
    ensures WriteChunks(d, cs) == WriteChunks(Dev(d.log + [BulkWrite(cs[0])], d.script[1..]), cs[1..])
  {
  }

  lemma {:induction false} WriteChunksLog(d: Dev, cs: seq<seq<byte>>)
    requires WriteChunks(d, cs).0.Pass?
    ensures WriteChunks(d, cs).1.log == d.log + Writes(cs)
    decreases |cs|
  {
    if cs != [] {
      WriteChunksFirst(d, cs);
      var d1 := Dev(d.log + [BulkWrite(cs[0])], d.script[1..]);
      WriteChunksLog(d1, cs[1..]);
      assert d.log + Writes(cs) == d1.log + Writes(cs[1..]);
    }
  }

  lemma {:induction false} WriteChunksScript(d: Dev, cs: seq<seq<byte>>)
    requires WriteChunks(d, cs).0.Pass?
    ensures |cs| <= |d.script| && WriteChunks(d, cs).1.script == d.script[|cs|..]
    decreases |cs|
  {
    if cs == [] {
      assert d.script[0..] == d.script;
    } else {
      WriteChunksFirst(d, cs);
      var d1 := Dev(d.log + [BulkWrite(cs[0])], d.script[1..]);
      WriteChunksScript(d1, cs[1..]);
      assert d.script[|cs|..] == d1.script[|cs| - 1..];
    }
  }

  /** A successful copy sends the whole bitstream, in order, in chunks of at most 32 KiB. */
  lemma CopySendsBitstream(d: Dev, bitstream: seq<byte>)
    ensures var (o, d') := CopyExchange(d, bitstream);
      var cs := Chunks(bitstream, CopyBuffer);
      o.Pass? ==> |cs| <= |d.script| && d' == Dev(d.log + Writes(cs), d.script[|cs|..]) && Flatten(cs) == bitstream
  {
    WriteChunksTranscript(d, Chunks(bitstream, CopyBuffer));
  }

  /**
   * The poll loop reads the status once per not-ready reply and stops at
   * the first reply reporting DONE, however many not-ready replies precede
   * it (as long as the 64-bit counter does not wrap): no five-attempt bound.
   */
  lemma {:induction false} PollStopsAtFirstReady(d: Dev, attempts: int64, k: nat)
    requires attempts < 5 && MinInt + k <= attempts
    requires k < |d.script| && StatusReply(d.script[k], true)
    requires forall i :: 0 <= i < k ==> StatusReply(d.script[i], false)
    ensures PollLoop(d, attempts) == (Ok(true), Dev(d.log + Polls(k + 1), d.script[k + 1..]))
    decreases k
  {
    var d1 := StatusExchange(d).1;
    if k == 0 {
      assert Polls(1) == [ControlIn(FpgaStatus, 0, 4)];
    } else {
      assert StatusReply(d.script[0], false);
      assert d1.script == d.script[1..];
      PollStopsAtFirstReady(d1, Dec(attempts), k - 1);
      assert d1.log + Polls(k) == d.log + Polls(k + 1);
      assert d1.script[k..] == d.script[k + 1..];
    }
  }

  /**
   * A status read that fails ends the poll loop with its error, after the
   * not-ready replies before it; nothing else is sent.
   */
  lemma {:induction false} PollStopsAtError(d: Dev, attempts: int64, k: nat)
    requires attempts < 5 && MinInt + k <= attempts
    requires k <= |d.script| && forall i :: 0 <= i < k ==> StatusReply(d.script[i], false)
    requires var r := if k < |d.script| then d.script[k] else Refuse; !(r.Deliver? && |r.data| == 4)
    ensures PollLoop(d, attempts).0.Err?
    ensures PollLoop(d, attempts).1 == Dev(d.log + Polls(k + 1), if k < |d.script| then d.script[k + 1..] else [])
    decreases k
  {
    var d1 := StatusExchange(d).1;
    if k == 0 {
      assert Polls(1) == [ControlIn(FpgaStatus, 0, 4)];
    } else {
      assert 0 < |d.script| && StatusReply(d.script[0], false);
      assert d1.script == d.script[1..];
      assert forall i :: 0 <= i < k - 1 ==> d1.script[i] == d.script[i + 1];
      assert (k - 1 < |d1.script|) == (k < |d.script|);
      if k < |d.script| {
        assert d1.script[k - 1] == d.script[k];
      }
      PollStopsAtError(d1, Dec(attempts), k - 1);
      assert d1.log + Polls(k) == d.log + Polls(k + 1);
      if k < |d.script| {
        assert d1.script[k - 1] == d.script[k];
        assert d1.script[k..] == d.script[k + 1..];
      }
    }
  }

  /**
   * Starting from 0, the as-written loop cannot end without DONE unless a
   * status read fails: it never gives up on the board for lack of attempts.
   */
  lemma {:induction false} PollNeverGivesUp(d: Dev, attempts: int64)
    requires attempts < 5 && MinInt + |d.script| <= attempts
    ensures PollLoop(d, attempts).0 != Ok(false)
    decreases |d.script|
  {
    var (ready, d1) := StatusExchange(d);
    if ready == Ok(false) {
      PollNeverGivesUp(d1, Dec(attempts));
    }
  }

  /** The intended loop gives up after exactly five not-ready replies. */
  lemma {:induction false} PollBoundedGivesUp(d: Dev, attempts: nat)
    requires attempts <= 5 && 5 - attempts <= |d.script|
    requires forall i :: 0 <= i < 5 - attempts ==> StatusReply(d.script[i], false)
    ensures PollBounded(d, attempts) == (Ok(false), Dev(d.log + Polls(5 - attempts), d.script[5 - attempts..]))
    decreases 5 - attempts
  {
    if attempts < 5 {
      var d1 := StatusExchange(d).1;
      assert StatusReply(d.script[0], false);
      assert d1.script == d.script[1..];
      PollBoundedGivesUp(d1, attempts + 1);
      assert d1.log + Polls(5 - attempts - 1) == d.log + Polls(5 - attempts);
      assert d1.script[5 - attempts - 1..] == d.script[5 - attempts..];
    } else {
      assert d.log + Polls(0) == d.log && d.script[0..] == d.script;
    }
  }

  /** The intended loop makes at most five status reads, each consuming one reply. */
  lemma {:induction false} PollBoundedReads(d: Dev, attempts: nat)
    requires attempts <= 5
    ensures var (_, d') := PollBounded(d, attempts);
      exists n :: 0 <= n <= 5 - attempts && d'.log == d.log + Polls(n)
    decreases 5 - attempts
  {
    if attempts < 5 {
      var (ready, d1) := StatusExchange(d);
      if ready.Err? || ready.value {
        assert d1.log == d.log + Polls(1);
      } else {
        PollBoundedReads(d1, attempts + 1);
        var n :| 0 <= n <= 5 - attempts - 1 && PollBounded(d1, attempts + 1).1.log == d1.log + Polls(n);
        assert d1.log + Polls(n) == d.log + Polls(n + 1);
      }
    } else {
      assert d.log == d.log + Polls(0);
    }
  }

  /**
   * `Program`'s fixed order: 0xA0 then 0xA1 then the bitstream; any failure
   * there ends it before the poll loop; otherwise the poll loop follows.
   */
  lemma ProgramSequence(d: Dev, bitstream: seq<byte>)
    ensures var a0 := ControlOut(FpgaProgram, 0xA0, []);
      var a1 := ControlOut(FpgaProgram, 0xA1, []);
      var (prepared, d1) := PrepareExchange(d, bitstream);
      && (Next(d) != Accept(0) ==> prepared.Fail? && d1.log == d.log + [a0])
      && (Next(d) == Accept(0) && Next(Answer(d, a0)) != Accept(0) ==>
            prepared.Fail? && d1.log == d.log + [a0, a1])
      && (prepared.Pass? ==>
            var cs := Chunks(bitstream, CopyBuffer);
            d1.log == d.log + [a0, a1] + Writes(cs) && Flatten(cs) == bitstream)
      && ProgramExchange(d, bitstream) == (if prepared.Fail? then (prepared, d1) else FinishExchange(PollLoop(d1, 0)))
  {
    var a0 := ControlOut(FpgaProgram, 0xA0, []);
    var a1 := ControlOut(FpgaProgram, 0xA1, []);
    var e1 := Answer(d, a0);
    var e2 := Answer(e1, a1);
    if Next(d) == Accept(0) && Next(e1) == Accept(0) {
      assert ProgramCommand(d, 0xA0) == (Pass, e1);
      assert ProgramCommand(e1, 0xA1) == (Pass, e2);
      CopySendsBitstream(e2, bitstream);
      assert e2.log == d.log + [a0, a1];
      assert PrepareExchange(d, bitstream).1 == CopyExchange(e2, bitstream).1;
    }
  }

  /**
   * After the poll loop: a failed status read returns its error without
   * 0xA2; otherwise 0xA2 goes out, and `Program` then passes iff the exit
   * command was accepted and DONE was seen.
   */
  lemma FinishRules(poll: (Result<bool>, Dev))
    ensures var (o, d') := FinishExchange(poll);
      var a2 := ControlOut(FpgaProgram, 0xA2, []);
      && (poll.0.Err? ==> o == Fail(poll.0.error) && d' == poll.1)
      && (poll.0.Ok? ==> d'.log == poll.1.log + [a2])
      && (o.Pass? <==> poll.0 == Ok(true) && Next(poll.1) == Accept(0))
      && (poll.0 == Ok(false) && Next(poll.1) == Accept(0) ==> o == Fail(FpgaNotReady))
  {
  }

  /** `NewFpga` programs the board iff the first status read reports DONE clear. */
  lemma OpenRules(d: Dev, bitstream: seq<byte>)
    ensures var (o, d') := OpenExchange(d, bitstream);
      var (programmed, d1) := StatusExchange(d);
      && (programmed.Err? ==> o.Fail? && d' == d1)
      && (programmed == Ok(true) ==> o.Pass? && d' == d1 && d'.log == d.log + [ControlIn(FpgaStatus, 0, 4)])
      && (programmed == Ok(false) ==> (o, d') == ProgramExchange(d1, bitstream))
      && OpenBoundedExchange(d, bitstream) == (if programmed == Ok(false) then ProgramBoundedExchange(d1, bitstream) else (o, d'))
  {
  }

  /** An empty bitstream; `Prepare` then sends only the two commands. */
  lemma PrepareEmpty(d: Dev)
    requires |d.script| >= 2 && d.script[0] == Accept(0) && d.script[1] == Accept(0)
    ensures PrepareExchange(d, []) == (Pass, Dev(d.log + [ControlOut(FpgaProgram, 0xA0, []), ControlOut(FpgaProgram, 0xA1, [])], d.script[2..]))
  {
    var d1 := Answer(d, ControlOut(FpgaProgram, 0xA0, []));
    var d2 := Answer(d1, ControlOut(FpgaProgram, 0xA1, []));
    assert ProgramCommand(d, 0xA0) == (Pass, d1);
    assert d1.script == d.script[1..];
    assert ProgramCommand(d1, 0xA1) == (Pass, d2);
    assert d2.script == d.script[2..];
    assert Chunks([], CopyBuffer) == [];
    assert CopyExchange(d2, []) == (Pass, d2);
    assert d2.log == d.log + [ControlOut(FpgaProgram, 0xA0, []), ControlOut(FpgaProgram, 0xA1, [])];
  }

  /**
   * Whatever number k of not-ready replies precede DONE, `Program` as
   * written waits for it and passes once 0xA2 is accepted.
   */
  lemma ProgramWaitsForDone(d: Dev, k: nat)
    requires MinInt + k <= 0
    requires k + 4 <= |d.script| && d.script[0] == Accept(0) && d.script[1] == Accept(0)
    requires forall i :: 2 <= i < k + 2 ==> StatusReply(d.script[i], false)
    requires StatusReply(d.script[k + 2], true) && d.script[k + 3] == Accept(0)
    ensures ProgramExchange(d, []).0 == Pass
  {
    PrepareEmpty(d);
    var d1 := Dev(d.log + [ControlOut(FpgaProgram, 0xA0, []), ControlOut(FpgaProgram, 0xA1, [])], d.script[2..]);
    forall i | 0 <= i < k
      ensures StatusReply(d1.script[i], false)
    {
      assert d1.script[i] == d.script[i + 2];
    }
    assert d1.script[k] == d.script[k + 2];
    PollStopsAtFirstReady(d1, 0, k);
    assert d1.script[k + 1..][0] == Accept(0);
  }

  /**
   * A board that reports DONE only on its seventh status read: the code as
   * written programs it after seven polls, while the intended loop, on the
   * same board, gives up after five polls with the DONE pin error.
   */
  lemma SeventhPollExample(d: Dev, e: Dev)
    requires d.script == [Accept(0), Accept(0)] + seq(6, i => Deliver([0, 0, 0, 0])) + [Deliver([1, 0, 0, 0]), Accept(0)]
    requires e.script == [Accept(0), Accept(0)] + seq(5, i => Deliver([0, 0, 0, 0])) + [Accept(0)]
    ensures ProgramExchange(d, []).0 == Pass
    ensures ProgramBoundedExchange(e, []).0 == Fail(FpgaNotReady)
  {
    assert LeWord32([0, 0, 0, 0]) & 1 == 0;
    assert LeWord32([1, 0, 0, 0]) & 1 == 1;
    ProgramWaitsForDone(d, 6);
    PrepareEmpty(e);
    var e1 := Dev(e.log + [ControlOut(FpgaProgram, 0xA0, []), ControlOut(FpgaProgram, 0xA1, [])], e.script[2..]);
    assert forall i :: 0 <= i < 5 ==> e1.script[i] == Deliver([0, 0, 0, 0]);
    PollBoundedGivesUp(e1, 0);
    assert e1.script[5..][0] == Accept(0);
  }

  /**
   * A board that reports DONE clear when opened and sets it only on the sixth
   * poll: `NewFpga` as written opens it, while the five-attempt opener gives
   * up after five polls and fails.
   */
  lemma SixthPollOpens(d: Dev)
    requires d.script == [Deliver([0, 0, 0, 0]), Accept(0), Accept(0)] + seq(5, i => Deliver([0, 0, 0, 0])) + [Deliver([1, 0, 0, 0]), Accept(0)]
    ensures OpenExchange(d, []).0 == Pass
    ensures OpenBoundedExchange(d, []).0.Fail?
  {
    assert LeWord32([0, 0, 0, 0]) & 1 == 0;
    assert LeWord32([1, 0, 0, 0]) & 1 == 1;
    var d1 := StatusExchange(d).1;
    assert StatusExchange(d).0 == Ok(false);
    assert d1.script == d.script[1..];
    ProgramWaitsForDone(d1, 5);
    PrepareEmpty(d1);
    var e1 := Dev(d1.log + [ControlOut(FpgaProgram, 0xA0, []), ControlOut(FpgaProgram, 0xA1, [])], d1.script[2..]);
    assert forall i :: 0 <= i < 5 ==> e1.script[i] == Deliver([0, 0, 0, 0]);
    PollBoundedGivesUp(e1, 0);
    assert e1.script[5..][0] == Deliver([1, 0, 0, 0]);
  }

  /**
   * `io.Copy` of the bitstream into the device, with its 32 KiB buffer:
   * every chunk must be written in full.
   */
  method Copy(dev: Device, bitstream: seq<byte>) returns (o: Outcome)
    modifies dev
    ensures (o, dev.State()) == CopyExchange(old(dev.State()), bitstream)
  {
    var cs := Chunks(bitstream, CopyBuffer);
    var i := 0;
    while i < |cs|
      invariant 0 <= i <= |cs|
      invariant WriteChunks(old(dev.State()), cs) == WriteChunks(dev.State(), cs[i..])
    {
      assert cs[i..][0] == cs[i] && cs[i..][1..] == cs[i + 1..];
      var w := dev.Write(cs[i]);
      if w.Err? {
        return Fail(w.error);
      }
      if w.value != |cs[i]| {
        return Fail(ShortWrite);
      }
      i := i + 1;
    }
    return Pass;
  }

  /** The driver's handle on the board's FPGA, with the external memory behind it. */
  class Fpga {
    const dev: Device
    const mem: Memory

    constructor (dev: Device)
      ensures this.dev == dev && mem.dev == dev
    {
      this.dev := dev;
      mem := new Memory(dev);
    }

    method IsProgrammed() returns (r: Result<bool>)
      modifies dev
      ensures (r, dev.State()) == StatusExchange(old(dev.State()))
    {
      var status := dev.ControlIn(FpgaStatus, 0, 4);
      if status.Err? {
        return Err(status.error);
      }
      r := Ok(LeWord32(status.value) & 1 == 1);
    }

    method CtrlProgram(val: u16) returns (o: Outcome)
      modifies dev
      ensures (o, dev.State()) == ProgramCommand(old(dev.State()), val)
    {
      o := dev.ControlOut(FpgaProgram, val, []);
    }

    method Prepare(bitstream: seq<byte>) returns (o: Outcome)
      modifies dev
      ensures (o, dev.State()) == PrepareExchange(old(dev.State()), bitstream)
    {
      o := CtrlProgram(0xA0);
      if o.Fail? {
        return;
      }
      o := CtrlProgram(0xA1);
      if o.Fail? {
        return;
      }
      o := Copy(dev, bitstream);
    }

    method Finish(ready: Result<bool>) returns (o: Outcome)
      modifies dev
      ensures (o, dev.State()) == FinishExchange((ready, old(dev.State())))
    {
      if ready.Err? {
        return Fail(ready.error);
      }
      o := CtrlProgram(0xA2);
      if o.Fail? {
        return;
      }
      if !ready.value {
        return Fail(FpgaNotReady);
      }
    }

    /** `Program` as written, with the decrementing attempt counter. */
    method Program(bitstream: seq<byte>) returns (o: Outcome)
      modifies dev
      ensures (o, dev.State()) == ProgramExchange(old(dev.State()), bitstream)
    {
      o := Prepare(bitstream);
      if o.Fail? {
        return;
      }
      ghost var polled := dev.State();
      var ready := Ok(false);
      var attempts: int64 := 0;
      while attempts < 5
        invariant ready == Ok(false)
        invariant PollLoop(polled, 0) == PollLoop(dev.State(), attempts)
        decreases |dev.script|
      {
        ghost var before := dev.State();
        ready := IsProgrammed();
        if ready.Err? || ready.value {
          assert PollLoop(before, attempts) == (ready, dev.State());
          break;
        }
        attempts := Dec(attempts);
      }
      assert PollLoop(polled, 0) == (ready, dev.State());
      o := Finish(ready);
    }

    /** `Program` with the intended five-attempt poll loop. */
    method ProgramBounded(bitstream: seq<byte>) returns (o: Outcome)
      modifies dev
      ensures (o, dev.State()) == ProgramBoundedExchange(old(dev.State()), bitstream)
    {
      o := Prepare(bitstream);
      if o.Fail? {
        return;
      }
      ghost var polled := dev.State();
      var ready := Ok(false);
      var attempts := 0;
      while attempts < 5
        invariant 0 <= attempts <= 5 && ready == Ok(false)
        invariant PollBounded(polled, 0) == PollBounded(dev.State(), attempts)
      {
        ghost var before := dev.State();
        ready := IsProgrammed();
        if ready.Err? || ready.value {
          assert PollBounded(before, attempts) == (ready, dev.State());
          break;
        }
        attempts := attempts + 1;
      }
      assert PollBounded(polled, 0) == (ready, dev.State());
      o := Finish(ready);
    }
  }

  /**
   * `NewFpga`, with the board's bundled bitstream as a parameter: programs
   * the board if DONE is clear, and returns the handle on success.
   */
  method NewFpga(dev: Device, bitstream: seq<byte>) returns (r: Result<Fpga>)
    modifies dev
    ensures (if r.Ok? then Pass else Fail(r.error), dev.State()) == OpenExchange(old(dev.State()), bitstream)
    ensures r.Ok? ==> fresh(r.value) && r.value.dev == dev && r.value.mem.dev == dev
  {
    var f := new Fpga(dev);
    var programmed := f.IsProgrammed();
    if programmed.Err? {
      return Err(programmed.error);
    }
    if !programmed.value {
      var o := f.Program(bitstream);
      if o.Fail? {
        return Err(o.error);
      }
    }
    return Ok(f);
  }

  /** `NewFpga` as intended: the same opening with the five-attempt `Program`. */
  method NewFpgaBounded(dev: Device, bitstream: seq<byte>) returns (r: Result<Fpga>)
    modifies dev
    ensures (if r.Ok? then Pass else Fail(r.error), dev.State()) == OpenBoundedExchange(old(dev.State()), bitstream)
    ensures r.Ok? ==> fresh(r.value) && r.value.dev == dev && r.value.mem.dev == dev
  {
    var f := new Fpga(dev);
    var programmed := f.IsProgrammed();
    if programmed.Err? {
      return Err(programmed.error);
    }
    if !programmed.value {
      var o := f.ProgramBounded(bitstream);
      if o.Fail? {
        return Err(o.error);
      }
    }
    return Ok(f);
  }
}
