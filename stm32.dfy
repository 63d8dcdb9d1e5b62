/**
 * Programming an STM32 through its ROM bootloader over the target USART
 * (programmer/stm32f/programmer.go), following ST's USART bootloader
 * protocol, application note AN3155. The target is put in boot mode with
 * its PDIC line and pulsed through nRST; every command is its code and the
 * code's complement, answered by ACK (0x79) or NACK (0x1F); addresses go as
 * four big-endian bytes and their XOR; data blocks as a length byte, the
 * bytes, and the XOR of all of them.
 *
 * The line and both GPIO pins are one `Serial.Line` transcript. Each command
 * is a function from the line before to its result and the line after; the
 * `Programmer`, `MemWriter` and `MemReader` classes carry the source's
 * mutable state (the set of supported commands, the chip found, the current
 * address) and their methods are proved against those functions.
 */
module Stm32Boot {
  import opened Base
  import opened Bytes
  import opened Serial
  import opened Blocks

  const AckByte: byte := 0x79
  const NackByte: byte := 0x1F
  const SyncByte: byte := 0x7F

  // Bootloader command codes (programmer.go:55-62).
  const GetCommandsCmd: byte := 0x00
  const GetIdCmd: byte := 0x02
  const ReadMemoryCmd: byte := 0x11
  const WriteMemoryCmd: byte := 0x31
  const EraseMemoryCmd: byte := 0x43
  const ExtendedEraseCmd: byte := 0x44

  const SyncTries: nat := 5
  const ResetTries: nat := 2
  /** The read timeout during a mass erase, in milliseconds. */
  const EraseTimeout: nat := 30000
  /** The bytes per read or write command of the memory reader and writer. */
  const BlockSize: nat := 64

  datatype Chip = Chip(name: string, signature: seq<byte>)

  const SupportedChips: seq<Chip> := [Chip("STM32F303cBC", [0x04, 0x22])]

  // ---------------------------------------------------------------------------
  // Pins
  // ---------------------------------------------------------------------------

  /** `setBoot`: PDIC high selects the bootloader. */
  function BootSelect(l: Line, enter: bool): Line
  {
    Drive(l, Pdic, enter)
  }

  /** `reset`: nRST low, then high. */
  function ResetPulse(l: Line): Line
  {
    Drive(Drive(l, Nrst, false), Nrst, true)
  }

  /** The calls that release the chip: boot select off, then a reset pulse. */
  const ReleaseCalls: seq<Call> := [SetPin(Pdic, false), SetPin(Nrst, false), SetPin(Nrst, true)]

  /** `releaseChip`: leave boot mode and reset into the application. */
  function Release(l: Line): (l': Line)
    ensures l'.script == l.script && l'.timeout == l.timeout
    ensures l'.log == l.log + ReleaseCalls
  {
    ResetPulse(BootSelect(l, false))
  }

  /** The last calls on the line released the chip. */
  predicate EndsReleased(l: Line)
  {
    |l.log| >= 3 && l.log[|l.log| - 3..] == ReleaseCalls
  }

  lemma ReleaseEnds(l: Line)
    ensures EndsReleased(Release(l))
  {
    var l' := Release(l);
    assert l'.log[|l'.log| - 3..] == ReleaseCalls;
  }

  // ---------------------------------------------------------------------------
  // Acknowledgements and generic commands
  // ---------------------------------------------------------------------------

  /** `waitForAck`'s reading of a one-byte read. */
  function AckOf(got: Result<seq<byte>>): Outcome
  {
    if got.Err? then Fail(got.error)
    else if got.value == [] then Fail(AckTimeout)
    else if got.value[0] == AckByte then Pass
    else if got.value[0] == NackByte then Fail(Nack)
    else Fail(UnknownAck)
  }

  /** `waitForAck`: read one byte and decode it. */
  function AwaitAck(l: Line): (r: (Outcome, Line))
    ensures r.1 == Answer(l, Read(1))
  {
    var (got, l1) := Receive(l, 1);
    (AckOf(got), l1)
  }

  /** ACK succeeds, NACK and any other byte fail, no byte is a timeout, a read error fails. */
  lemma AckDecoding(l: Line)
    ensures AwaitAck(l).0.Pass? <==> Next(l) == Gave([AckByte])
    ensures Next(l) == Gave([NackByte]) ==> AwaitAck(l).0 == Fail(Nack)
    ensures Next(l) == Gave([]) ==> AwaitAck(l).0 == Fail(AckTimeout)
    ensures Next(l).Gave? && |Next(l).data| == 1 && Next(l).data[0] != AckByte && Next(l).data[0] != NackByte ==>
      AwaitAck(l).0 == Fail(UnknownAck)
    ensures !Next(l).Gave? ==> AwaitAck(l).0 == Fail(PortFailed)
  {
    if Next(l).Gave? && |Next(l).data| == 1 && Next(l).data[0] == AckByte {
      assert Next(l).data == [AckByte];
    }
  }

  // ---------------------------------------------------------------------------
  // Command scripts
  // ---------------------------------------------------------------------------

  /**
   * One step of a bootloader command: a write whose result the programmer
   * ignores, or `waitForAck`, whose failure ends the command.
   */
  datatype Step = Put(data: seq<byte>) | Ack

  /** The serial calls of a script that runs to its end. */
  function Calls(steps: seq<Step>): (cs: seq<Call>)
    ensures |cs| == |steps|
  {
    if steps == [] then [] else [if steps[0].Put? then Write(steps[0].data) else Read(1)] + Calls(steps[1..])
  }

  /** The answers left once `k` are used. */
  function Drop(script: seq<Reply>, k: nat): (r: seq<Reply>)
    ensures |r| == if k <= |script| then |script| - k else 0
  {
    if k <= |script| then script[k..] else []
  }

  /** Running a script: every step uses one answer, and the first ACK step that is not answered by ACK ends it. */
  function Run(l: Line, steps: seq<Step>): (r: (Outcome, Line))
    decreases |steps|
  {
    if steps == [] then (Pass, l)
    else if steps[0].Put? then Run(Send(l, steps[0].data).1, steps[1..])
    else
      var (o, l1) := AwaitAck(l);
      if o.Fail? then (o, l1) else Run(l1, steps[1..])
  }

  /** Step `i` of a script is answered by answer `i`, so a script passes exactly when each of its ACK steps gets an ACK. */
  lemma {:induction false} RunPasses(l: Line, steps: seq<Step>)
    ensures Run(l, steps).0.Pass? <==>
      forall i :: 0 <= i < |steps| && steps[i] == Ack ==> i < |l.script| && l.script[i] == Gave([AckByte])
    decreases |steps|
  {
    if steps != [] {
      var l1 := Answer(l, if steps[0].Put? then Write(steps[0].data) else Read(1));
      RunPasses(l1, steps[1..]);
      assert forall i :: 0 <= i < |steps| - 1 ==> steps[1..][i] == steps[i + 1];
      if l.script != [] {
        assert forall i :: 0 <= i < |l1.script| ==> l1.script[i] == l.script[i + 1];
      }
      if steps[0] == Ack {
        AckDecoding(l);
      }
    }
  }

  /** A script leaves the timeout as it was. */
  lemma {:induction false} RunKeepsTimeout(l: Line, steps: seq<Step>)
    ensures Run(l, steps).1.timeout == l.timeout
    decreases |steps|
  {
    if steps != [] {
      RunKeepsTimeout(Answer(l, if steps[0].Put? then Write(steps[0].data) else Read(1)), steps[1..]);
    }
  }

  /** A script makes the first of its calls, in order, and no others. */
  lemma {:induction false} RunLog(l: Line, steps: seq<Step>)
    ensures l.log <= Run(l, steps).1.log <= l.log + Calls(steps)
    decreases |steps|
  {
    if steps != [] {
      var l1 := Answer(l, if steps[0].Put? then Write(steps[0].data) else Read(1));
      var c := if steps[0].Put? then Write(steps[0].data) else Read(1);
      RunLog(l1, steps[1..]);
      assert Calls(steps) == [c] + Calls(steps[1..]);
      CallsAssoc(l.log, [c], Calls(steps[1..]));
    }
  }

  /** A script that passes has made all of its calls, one answer each. */
  lemma {:induction false} RunShape(l: Line, steps: seq<Step>)
    ensures Run(l, steps).0.Pass? ==> Run(l, steps).1 == Line(l.log + Calls(steps), Drop(l.script, |steps|), l.timeout)
    decreases |steps|
  {
    if steps != [] {
      var l1 := Answer(l, if steps[0].Put? then Write(steps[0].data) else Read(1));
      var c := if steps[0].Put? then Write(steps[0].data) else Read(1);
      RunShape(l1, steps[1..]);
      assert Calls(steps) == [c] + Calls(steps[1..]);
      CallsAssoc(l.log, [c], Calls(steps[1..]));
      DropStep(l.script, |steps| - 1);
    }
  }

  /** Dropping one answer, then `k` more. */
  lemma DropStep(script: seq<Reply>, k: nat)
    ensures Drop(if script == [] then [] else script[1..], k) == Drop(script, k + 1)
  {
    if script != [] && k + 1 <= |script| {
      assert script[1..][k..] == script[k + 1..];
    }
  }

  /** Running two scripts one after the other is running their concatenation. */
  lemma {:induction false} RunAppend(l: Line, a: seq<Step>, b: seq<Step>)
    ensures Run(l, a + b) == if Run(l, a).0.Fail? then Run(l, a) else Run(Run(l, a).1, b)
    decreases |a|
  {
    if a != [] {
      assert (a + b)[0] == a[0] && (a + b)[1..] == a[1..] + b;
      if a[0].Put? {
        RunAppend(Send(l, a[0].data).1, a[1..], b);
      } else {
        RunAppend(AwaitAck(l).1, a[1..], b);
      }
    } else {
      assert a + b == b;
    }
  }

  /** A script that starts with a write: the write, then the rest. */
  lemma RunPut(l: Line, data: seq<byte>, rest: seq<Step>)
    ensures Run(l, [Put(data)] + rest) == Run(Send(l, data).1, rest)
  {
    assert ([Put(data)] + rest)[1..] == rest;
  }

  /** A script that starts with an ACK step: a failed ACK ends it, otherwise the rest follows. */
  lemma RunAck(l: Line, rest: seq<Step>)
    ensures Run(l, [Ack] + rest) == if AwaitAck(l).0.Fail? then AwaitAck(l) else Run(AwaitAck(l).1, rest)
  {
    assert ([Ack] + rest)[1..] == rest;
  }

  /** The script of `cmdGeneric`: the command byte, its complement, then the ACK. */
  function GenericSteps(cmd: byte): seq<Step>
  {
    [Put([cmd]), Put([cmd ^ 0xFF]), Ack]
  }

  /** `cmdGeneric`. */
  function Generic(l: Line, cmd: byte): (r: (Outcome, Line))
  {
    Run(l, GenericSteps(cmd))
  }

  /**
   * A generic command makes its two writes whatever they were answered, and
   * succeeds exactly when the third answer is an ACK.
   */
  lemma GenericAck(l: Line, cmd: byte)
    ensures Generic(l, cmd).0.Pass? <==> |l.script| >= 3 && l.script[2] == Gave([AckByte])
    ensures Generic(l, cmd).1.log == l.log + [Write([cmd]), Write([cmd ^ 0xFF]), Read(1)]
    ensures Generic(l, cmd).1.timeout == l.timeout
  {
    RunPasses(l, GenericSteps(cmd));
    assert GenericSteps(cmd)[2] == Ack;
    var l1 := Send(l, [cmd]).1;
    var l2 := Send(l1, [cmd ^ 0xFF]).1;
    assert GenericSteps(cmd) == [Put([cmd])] + ([Put([cmd ^ 0xFF])] + ([Ack] + []));
    RunPut(l, [cmd], [Put([cmd ^ 0xFF])] + ([Ack] + []));
    RunPut(l1, [cmd ^ 0xFF], [Ack] + []);
    RunAck(l2, []);
    assert Generic(l, cmd) == AwaitAck(l2);
  }

  // ---------------------------------------------------------------------------
  // Synchronisation
  // ---------------------------------------------------------------------------

  /** The calls of sync attempt `fails`: a reset pulse on the first two attempts only, then flush, `0x7F`, the ACK read. */
  function Attempt(fails: nat): seq<Call>
  {
    (if fails < ResetTries then [SetPin(Nrst, false), SetPin(Nrst, true)] else []) + [Flush, Write([SyncByte]), Read(1)]
  }

  /** The calls of attempts `from` up to (not including) `to`, in order. */
  function Attempts(from: nat, to: nat): seq<Call>
    decreases to - from
  {
    if from >= to then [] else Attempt(from) + Attempts(from + 1, to)
  }

  /** The script of a sync attempt after the flush: `0x7F`, then the ACK. */
  const SyncSteps: seq<Step> := [Put([SyncByte]), Ack]

  /** One pass of `initChip`'s loop; the flush and write results are ignored. */
  function SyncOnce(l: Line, fails: nat): (r: (Outcome, Line))
    ensures r.1.log == l.log + Attempt(fails) && r.1.timeout == l.timeout
  {
    var l1 := if fails < ResetTries then ResetPulse(l) else l;
    var l2 := Drain(l1).1;
    RunPut(l2, [SyncByte], [Ack]);
    RunAck(Send(l2, [SyncByte]).1, []);
    Run(l2, SyncSteps)
  }

  /** A sync attempt: the line before and the attempt's number; its outcome and the line after. */
  type Attempter = (Line, nat) -> (Outcome, Line)

  /** An attempter that makes exactly the calls of `Attempt`, as `SyncOnce` does. */
  ghost predicate LogsAttempts(try: Attempter)
  {
    forall l, fails {:trigger try(l, fails)} :: try(l, fails).1.log == l.log + Attempt(fails)
  }

  /** An attempter that leaves the read timeout as it was, as `SyncOnce` does. */
  ghost predicate KeepsTimeout(try: Attempter)
  {
    forall l, fails :: try(l, fails).1.timeout == l.timeout
  }

  /** `initChip`'s loop from attempt `fails` on, `try` making each attempt. */
  function SyncFrom(try: Attempter, l: Line, fails: nat): (r: (Outcome, Line))
    requires fails <= SyncTries
    decreases SyncTries - fails
  {
    if fails == SyncTries then (Fail(ChipNotFound), l)
    else
      var (o, l1) := try(l, fails);
      if o.Pass? then (Pass, l1) else SyncFrom(try, l1, fails + 1)
  }

  /** The line the first `k` attempts leave when each of them fails, `try` making each; `None` once one passes. */
  function Failing(try: Attempter, l: Line, k: nat): Option<Line>
  {
    if k == 0 then Some(l)
    else
      var prior := Failing(try, l, k - 1);
      if prior.None? then None
      else
        var (o, l1) := try(prior.value, k - 1);
        if o.Pass? then None else Some(l1)
  }

  /** After `k` failed attempts, the loop goes on from attempt `k` on the line they left. */
  lemma {:induction false} SyncFromAfter(try: Attempter, l: Line, k: nat)
    requires k <= SyncTries && Failing(try, l, k).Some?
    ensures SyncFrom(try, l, 0) == SyncFrom(try, Failing(try, l, k).value, k)
  {
    if k > 0 {
      SyncFromAfter(try, l, k - 1);
    }
  }

  /** One more attempt, failed: the first `k + 1` attempts failed, on the line it left. */
  lemma AttemptFailed(try: Attempter, l: Line, k: nat, at: Line)
    requires Failing(try, l, k) == Some(at) && try(at, k).0.Fail?
    ensures Failing(try, l, k + 1) == Some(try(at, k).1)
  {
  }

  /** After `k` failed attempts, an attempt that passes ends the loop with its own result. */
  lemma SyncPassesAt(try: Attempter, l: Line, k: nat, at: Line)
    requires k < SyncTries && Failing(try, l, k) == Some(at) && try(at, k).0.Pass?
    ensures SyncFrom(try, l, 0) == try(at, k)
  {
    SyncFromAfter(try, l, k);
  }

  /** After five failed attempts, the loop fails with `ChipNotFound` on the line they left. */
  lemma SyncFailsAll(try: Attempter, l: Line, at: Line)
    requires Failing(try, l, SyncTries) == Some(at)
    ensures SyncFrom(try, l, 0) == (Fail(ChipNotFound), at)
  {
    SyncFromAfter(try, l, SyncTries);
  }

  /** `initChip`: enter boot mode, then up to five sync attempts. */
  function Synchronise(l: Line): (r: (Outcome, Line))
  {
    SyncFrom(SyncOnce, BootSelect(l, true), 0)
  }

  /** Attempt `fails`, then the attempts after it. */
  lemma AttemptsStep(before: seq<Call>, after: seq<Call>, fails: nat, to: nat)
    requires fails < to && after == before + Attempt(fails)
    ensures after + Attempts(fails + 1, to) == before + Attempts(fails, to)
  {
    var a, rest := Attempt(fails), Attempts(fails + 1, to);
    assert Attempts(fails, to) == a + rest;
    CallsAssoc(before, a, rest);
  }

  lemma CallsAssoc(a: seq<Call>, b: seq<Call>, c: seq<Call>)
    ensures (a + b) + c == a + (b + c)
  {
  }

  lemma PrefixOfAppend(a: seq<Call>, b: seq<Call>)
    ensures a <= a + b
  {
    assert (a + b)[..|a|] == a;
  }

  /** Attempts `from` up to `to` are those up to `mid`, then the rest. */
  lemma {:induction false} AttemptsSplit(from: nat, mid: nat, to: nat)
    requires from <= mid <= to
    ensures Attempts(from, to) == Attempts(from, mid) + Attempts(mid, to)
    decreases mid - from
  {
    if from < mid {
      AttemptsSplit(from + 1, mid, to);
      CallsAssoc(Attempt(from), Attempts(from + 1, mid), Attempts(mid, to));
    }
  }

  /**
   * Synchronisation from attempt `fails` makes attempts `fails` up to some
   * `n`, whole and in order: at least one when any is left, and all of them
   * when it fails, which it does only with `ChipNotFound`.
   */
  lemma {:induction false} SyncShape(try: Attempter, l: Line, fails: nat) returns (n: nat)
    requires LogsAttempts(try) && fails <= SyncTries
    ensures fails <= n <= SyncTries && (fails < SyncTries ==> fails < n)
    ensures SyncFrom(try, l, fails).1.log == l.log + Attempts(fails, n)
    ensures SyncFrom(try, l, fails).0.Fail? ==> SyncFrom(try, l, fails).0 == Fail(ChipNotFound) && n == SyncTries
    decreases SyncTries - fails
  {
    if fails == SyncTries {
      assert l.log + Attempts(fails, fails) == l.log;
      return fails;
    }
    var (o, l1) := try(l, fails);
    if o.Pass? {
      n := fails + 1;
      OneAttempt(l.log, l1.log, fails);
    } else {
      n := SyncShape(try, l1, fails + 1);
      AttemptsStep(l.log, l1.log, fails, n);
    }
  }

  lemma OneAttempt(before: seq<Call>, after: seq<Call>, fails: nat)
    requires after == before + Attempt(fails)
    ensures after == before + Attempts(fails, fails + 1)
  {
    assert Attempts(fails, fails + 1) == Attempt(fails) + [];
  }

  /** Synchronisation leaves the read timeout as it was. */
  lemma {:induction false} SyncKeepsTimeout(try: Attempter, l: Line, fails: nat)
    requires KeepsTimeout(try) && fails <= SyncTries
    ensures SyncFrom(try, l, fails).1.timeout == l.timeout
    decreases SyncTries - fails
  {
    if fails < SyncTries {
      var (o, l1) := try(l, fails);
      if o.Fail? {
        SyncKeepsTimeout(try, l1, fails + 1);
      }
    }
  }

  lemma SynchroniseLog(l: Line)
    ensures var r := Synchronise(l);
      var start := l.log + [SetPin(Pdic, true)];
      && start + Attempt(0) <= r.1.log <= start + Attempts(0, SyncTries)
      && r.1.timeout == l.timeout
      && (r.0.Fail? ==> r.0 == Fail(ChipNotFound) && r.1.log == start + Attempts(0, SyncTries))
  {
    var l0 := BootSelect(l, true);
    var n := SyncShape(SyncOnce, l0, 0);
    SyncKeepsTimeout(SyncOnce, l0, 0);
    AttemptsSplit(0, n, SyncTries);
    CallsAssoc(l0.log, Attempts(0, n), Attempts(n, SyncTries));
    PrefixOfAppend(l0.log + Attempts(0, n), Attempts(n, SyncTries));
    AttemptsStep(l0.log, l0.log + Attempt(0), 0, n);
    PrefixOfAppend(l0.log + Attempt(0), Attempts(1, n));
  }

  /** The full sync sequence: two reset pulses, five syncs. */
  lemma SyncAttemptsInOrder()
    ensures Attempts(0, SyncTries) ==
      [SetPin(Nrst, false), SetPin(Nrst, true), Flush, Write([SyncByte]), Read(1),
       SetPin(Nrst, false), SetPin(Nrst, true), Flush, Write([SyncByte]), Read(1),
       Flush, Write([SyncByte]), Read(1),
       Flush, Write([SyncByte]), Read(1),
       Flush, Write([SyncByte]), Read(1)]
  {
    var p := [Flush, Write([SyncByte]), Read(1)];
    var r := [SetPin(Nrst, false), SetPin(Nrst, true)] + p;
    assert Attempt(0) == r && Attempt(1) == r;
    assert Attempt(2) == p && Attempt(3) == p && Attempt(4) == p;
    assert Attempts(4, 5) == p + [];
    assert Attempts(2, 5) == p + (p + (p + []));
    assert Attempts(0, 5) == r + (r + Attempts(2, 5));
  }

  // ---------------------------------------------------------------------------
  // Queries
  // ---------------------------------------------------------------------------

  /** The set a list of command codes adds to `commands`. */
  function Known(cmds: seq<byte>): set<byte>
  {
    set c | c in cmds
  }

  /**
   * `cmdGetAvailableCommands`: after the generic command, the count byte, the
   * version byte, that many command codes, and an ACK. Each read goes into a
   * zeroed buffer whose length does not depend on how much arrived.
   */
  function GetCommands(l: Line): (r: (Result<seq<byte>>, Line))
  {
    var (g, l1) := Generic(l, GetCommandsCmd);
    if g.Fail? then (Err(g.error), l1)
    else
      var (len, l2) := Receive(l1, 1);
      if len.Err? then (Err(len.error), l2)
      else
        var (ver, l3) := Receive(l2, 1);
        if ver.Err? then (Err(ver.error), l3)
        else
          var count := Filled(len.value, 1)[0] as nat;
          var (cmds, l4) := Receive(l3, count);
          if cmds.Err? then (Err(cmds.error), l4)
          else
            var (ack, l5) := AwaitAck(l4);
            if ack.Fail? then (Err(ack.error), l5) else (Ok(Filled(cmds.value, count)), l5)
  }

  /** `l[0]+1` computed on the byte: 0xFF wraps to zero. */
  function IdSize(n: byte): (s: nat)
    ensures s < 256 && s == (n as int + 1) % 256
  {
    if n == 0xFF then 0 else n as nat + 1
  }

  /**
   * `cmdGetId`: after the generic command, a length byte N, then N+1 bytes of
   * ID (the addition is on the byte, so N = 0xFF reads none), then an ACK.
   */
  function GetId(l: Line): (r: (Result<seq<byte>>, Line))
  {
    var (g, l1) := Generic(l, GetIdCmd);
    if g.Fail? then (Err(g.error), l1)
    else
      var (len, l2) := Receive(l1, 1);
      if len.Err? then (Err(len.error), l2)
      else
        var size := IdSize(Filled(len.value, 1)[0]);
        var (id, l3) := Receive(l2, size);
        if id.Err? then (Err(id.error), l3)
        else
          var (ack, l4) := AwaitAck(l3);
          if ack.Fail? then (Err(ack.error), l4) else (Ok(Filled(id.value, size)), l4)
  }

  /**
   * A successful ID query returns one byte more than the length byte
   * announces, except that the announced 0xFF wraps to an empty ID.
   */
  lemma GetIdSize(l: Line)
    requires GetId(l).0.Ok?
    ensures var l1 := Generic(l, GetIdCmd).1;
      && Next(l1).Gave? && |Next(l1).data| <= 1
      && |GetId(l).0.value| == IdSize(Filled(Next(l1).data, 1)[0])
  {
  }

  // ---------------------------------------------------------------------------
  // Erase
  // ---------------------------------------------------------------------------

  /**
   * `cmdExtendedEraseMemory`: global mass erase `0xFF 0xFF` and checksum
   * `0x00`, then the ACK under a 30-second timeout; the previous timeout is
   * restored once the generic command has succeeded, however the ACK goes.
   */
  function ExtendedErase(l: Line): (r: (Outcome, Line))
  {
    var (g, l1) := Generic(l, ExtendedEraseCmd);
    if g.Fail? then (g, l1)
    else
      var l2 := Send(l1, [0xFF, 0xFF]).1;
      var l3 := Send(l2, [0x00]).1;
      var t := l3.timeout;
      var (ack, l4) := AwaitAck(WithTimeout(l3, EraseTimeout));
      (ack, WithTimeout(l4, t))
  }

  /** `cmdEraseMemory`: extended erase when the chip offers it, otherwise global erase `0xFF 0x00`. */
  function EraseMemory(l: Line, commands: set<byte>): (r: (Outcome, Line))
  {
    if ExtendedEraseCmd in commands then ExtendedErase(l)
    else Run(l, GenericSteps(EraseMemoryCmd) + [Put([0xFF, 0x00]), Ack])
  }

  /** Erasing uses the extended command exactly when 0x44 was reported, and leaves the timeout as it was. */
  lemma EraseSelection(l: Line, commands: set<byte>)
    ensures var r := EraseMemory(l, commands);
      && |r.1.log| > |l.log|
      && r.1.log[|l.log|] == Write([if ExtendedEraseCmd in commands then ExtendedEraseCmd else EraseMemoryCmd])
      && r.1.timeout == l.timeout
  {
    var g := if ExtendedEraseCmd in commands then ExtendedEraseCmd else EraseMemoryCmd;
    GenericAck(l, g);
    var l1 := Generic(l, g).1;
    assert l1.log[|l.log|] == Write([g]);
    if g == EraseMemoryCmd {
      RunAppend(l, GenericSteps(g), [Put([0xFF, 0x00]), Ack]);
      RunLog(l1, [Put([0xFF, 0x00]), Ack]);
      var r := EraseMemory(l, commands);
      assert l1.log <= r.1.log;
      assert r.1.log[|l.log|] == l1.log[|l.log|];
    }
  }

  /** An extended erase that gets past the generic command sends the erase code and checksum and reads the ACK under the long timeout. */
  lemma ExtendedEraseCalls(l: Line)
    requires Generic(l, ExtendedEraseCmd).0.Pass?
    ensures ExtendedErase(l).1.log == l.log +
      [Write([ExtendedEraseCmd]), Write([ExtendedEraseCmd ^ 0xFF]), Read(1),
       Write([0xFF, 0xFF]), Write([0x00]), SetTimeout(EraseTimeout), Read(1), SetTimeout(l.timeout)]
    ensures ExtendedErase(l).1.timeout == l.timeout
  {
    GenericAck(l, ExtendedEraseCmd);
  }

  // ---------------------------------------------------------------------------
  // Memory commands
  // ---------------------------------------------------------------------------

  /** `encodeAddr`: the address big-endian, then the XOR of its four bytes. */
  function EncodeAddr(addr: Word32): (r: seq<byte>)
    ensures |r| == 5
  {
    assert Pow256(4) == 0x1_0000_0000;
    var b := BeBytes(addr, 4);
    b + [XorAll(b)]
  }

  /** The five address bytes XOR to zero, and the first four read back as the address. */
  lemma EncodeAddrChecksum(addr: Word32)
    ensures XorAll(EncodeAddr(addr)) == 0
    ensures BeValue(EncodeAddr(addr)[..4]) == addr
  {
    assert Pow256(4) == 0x1_0000_0000;
    var b := BeBytes(addr, 4);
    XorAllAppend(b, XorAll(b));
    assert EncodeAddr(addr)[..4] == b;
    BeRoundTrip(addr, 4);
  }

  /** Go's `byte(k)` of an `int`: the low eight bits, so `byte(-1)` is 0xFF. */
  function LowByte(k: int): (b: byte)
    ensures b as int == k % 256
  {
    ByteOfIs(k % 256);
    ByteOf(k % 256)
  }

  /** `k` bytes of 0xFF. */
  function Ones(k: nat): (r: seq<byte>)
    ensures |r| == k
  {
    if k == 0 then [] else Ones(k - 1) + [0xFF]
  }

  lemma {:induction false} OnesAreFF(k: nat)
    ensures forall i :: 0 <= i < k ==> Ones(k)[i] == 0xFF
  {
    if k > 0 {
      OnesAreFF(k - 1);
      assert Ones(k)[..k - 1] == Ones(k - 1);
    }
  }

  /** The data padded with 0xFF up to a multiple of four bytes. */
  function Pad(data: seq<byte>): (r: seq<byte>)
  {
    data + Ones((4 - |data| % 4) % 4)
  }

  /** Padding keeps the data as a prefix, adds fewer than four 0xFF bytes, and leaves aligned data alone. */
  lemma PadShape(data: seq<byte>)
    ensures |Pad(data)| % 4 == 0 && |data| <= |Pad(data)| < |data| + 4
    ensures Pad(data)[..|data|] == data
    ensures forall i :: |data| <= i < |Pad(data)| ==> Pad(data)[i] == 0xFF
    ensures |data| % 4 == 0 ==> Pad(data) == data
  {
    var k := (4 - |data| % 4) % 4;
    OnesAreFF(k);
    assert forall i :: |data| <= i < |Pad(data)| ==> Pad(data)[i] == Ones(k)[i - |data|];
  }

  /** One write step per byte, in order. */
  function Puts(bs: seq<byte>): (steps: seq<Step>)
    ensures |steps| == |bs|
  {
    if bs == [] then [] else Puts(bs[..|bs| - 1]) + [Put([bs[|bs| - 1]])]
  }

  lemma {:induction false} PutsAreWrites(bs: seq<byte>)
    ensures forall j :: 0 <= j < |bs| ==> Puts(bs)[j] == Put([bs[j]])
  {
    if bs != [] {
      PutsAreWrites(bs[..|bs| - 1]);
    }
  }

  /** Writes never end a script: sending byte by byte always goes on. */
  lemma {:induction false} PutsPass(l: Line, bs: seq<byte>)
    ensures Run(l, Puts(bs)).0 == Pass
  {
    if bs != [] {
      var init := bs[..|bs| - 1];
      RunAppend(l, Puts(init), [Put([bs[|bs| - 1]])]);
      PutsPass(l, init);
    }
  }

  /** Sending one more byte is one more write. */
  lemma PutsStep(l: Line, bs: seq<byte>, b: byte)
    ensures Run(l, Puts(bs + [b])).1 == Send(Run(l, Puts(bs)).1, [b]).1
  {
    assert (bs + [b])[..|bs|] == bs;
    assert Puts(bs + [b]) == Puts(bs) + [Put([b])];
    PutsPass(l, bs);
    RunAppend(l, Puts(bs), [Put([b])]);
  }

  /** The checksum over one more byte. */
  lemma XorStep(n: byte, s: seq<byte>, i: nat)
    requires i < |s|
    ensures XorAll([n] + s[..i + 1]) == XorAll([n] + s[..i]) ^ s[i]
  {
    assert [n] + s[..i + 1] == ([n] + s[..i]) + [s[i]];
    XorAllAppend([n] + s[..i], s[i]);
  }

  /** The address part of a memory command: the encoded address, then its ACK. */
  function AddressSteps(addr: Word32): seq<Step>
  {
    [Put(EncodeAddr(addr)), Ack]
  }

  /** The data part of `cmdWriteMemory`: N = len-1, the bytes one by one, the XOR of N and every byte, then the ACK. */
  function DataSteps(toWrite: seq<byte>): seq<Step>
  {
    var n := LowByte(|toWrite| - 1);
    [Put([n])] + (Puts(toWrite) + [Put([XorAll([n] + toWrite)]), Ack])
  }

  /** The script of `cmdWriteMemory`, over the data padded to whole words. */
  function WriteSteps(addr: Word32, data: seq<byte>): seq<Step>
  {
    GenericSteps(WriteMemoryCmd) + (AddressSteps(addr) + DataSteps(Pad(data)))
  }

  /** `cmdWriteMemory`: the generic command, the address and its ACK, the padded data frame and its ACK. */
  function WriteMemory(l: Line, addr: Word32, data: seq<byte>): (r: (Outcome, Line))
  {
    Run(l, WriteSteps(addr, data))
  }

  /** A write's ACK steps come after the command, after the address, and last. */
  lemma WriteStepsAcks(addr: Word32, data: seq<byte>)
    ensures var k := |Pad(data)|;
      && |WriteSteps(addr, data)| == 8 + k
      && forall i :: 0 <= i < 8 + k ==> (WriteSteps(addr, data)[i] == Ack <==> i == 2 || i == 4 || i == 7 + k)
  {
    var toWrite := Pad(data);
    var k := |toWrite|;
    PutsAreWrites(toWrite);
    var steps := WriteSteps(addr, data);
    var d := DataSteps(toWrite);
    assert forall i :: 5 <= i < 8 + k ==> steps[i] == d[i - 5];
    assert forall j :: 1 <= j < k + 1 ==> d[j] == Puts(toWrite)[j - 1];
  }

  /**
   * A write succeeds exactly when the answers to its three ACK steps are
   * ACKs, and then it has made every call of its script.
   */
  lemma WriteMemoryAcks(l: Line, addr: Word32, data: seq<byte>)
    ensures var k := |Pad(data)|;
      WriteMemory(l, addr, data).0.Pass? <==>
        |l.script| >= 8 + k && l.script[2] == Gave([AckByte]) && l.script[4] == Gave([AckByte]) && l.script[7 + k] == Gave([AckByte])
    ensures WriteMemory(l, addr, data).0.Pass? ==> WriteMemory(l, addr, data).1.log == l.log + Calls(WriteSteps(addr, data))
  {
    var k := |Pad(data)|;
    var steps := WriteSteps(addr, data);
    WriteStepsAcks(addr, data);
    RunPasses(l, steps);
    RunShape(l, steps);
    if |l.script| >= 8 + k && l.script[2] == Gave([AckByte]) && l.script[4] == Gave([AckByte]) && l.script[7 + k] == Gave([AckByte]) {
      assert forall i :: 0 <= i < |steps| && steps[i] == Ack ==> i < |l.script| && l.script[i] == Gave([AckByte]);
    }
    if Run(l, steps).0.Pass? {
      assert steps[2] == Ack && steps[4] == Ack && steps[7 + k] == Ack;
    }
  }

  /**
   * The block frame checks: the length byte, the data and the checksum XOR to
   * zero, and for one to 256 bytes of padded data the length byte is the
   * length minus one.
   */
  lemma WriteMemoryFrame(data: seq<byte>)
    ensures var toWrite := Pad(data);
      var n := LowByte(|toWrite| - 1);
      && XorAll([n] + toWrite + [XorAll([n] + toWrite)]) == 0
      && (0 < |toWrite| <= 256 ==> n as int == |toWrite| - 1)
  {
    var toWrite := Pad(data);
    var n := LowByte(|toWrite| - 1);
    XorAllAppend([n] + toWrite, XorAll([n] + toWrite));
  }

  /** The length part of `cmdReadMemory`: N = len-1 and its complement, then the ACK. */
  function LengthSteps(len: nat): seq<Step>
  {
    var n := LowByte(len - 1);
    [Put([n, n ^ 0xFF]), Ack]
  }

  /** The script of `cmdReadMemory` before the data is read. */
  function ReadSteps(addr: Word32, len: nat): seq<Step>
  {
    GenericSteps(ReadMemoryCmd) + (AddressSteps(addr) + LengthSteps(len))
  }

  /** `cmdReadMemory`: the script, then the read of `len` bytes; the result is the bytes that arrived. */
  function ReadMemory(l: Line, addr: Word32, len: nat): (r: (Result<seq<byte>>, Line))
    ensures r.0.Ok? ==> |r.0.value| <= len
  {
    var (o, l1) := Run(l, ReadSteps(addr, len));
    if o.Fail? then (Err(o.error), l1) else Receive(l1, len)
  }

  /** The length frame of a read: N = len-1 for one to 256 bytes, followed by its complement. */
  lemma ReadMemoryFrame(len: nat)
    requires 0 < len <= 256
    ensures LowByte(len - 1) as int == len - 1 && LowByte(len - 1) ^ (LowByte(len - 1) ^ 0xFF) == 0xFF
  {
  }

  // ---------------------------------------------------------------------------
  // Block-wise writer and reader
  // ---------------------------------------------------------------------------

  /** A write command for one block: the line before, the address, the bytes; its outcome and the line after. */
  type BlockWrite = (Line, Word32, seq<byte>) -> (Outcome, Line)

  /**
   * `memWriter.Write` from byte `n`, with `cmd` writing each block: one
   * command per block of at most 64 bytes at the current address, which
   * advances by each block's size. Returns the bytes written, the outcome,
   * the line and the address.
   */
  function WriteBlocks(cmd: BlockWrite, l: Line, addr: Word32, p: seq<byte>, n: nat): (r: (nat, Outcome, Line, Word32))
    requires n <= |p|
    decreases |p| - n
  {
    if n == |p| then (n, Pass, l, addr)
    else
      var e := BlockEnd(|p|, n);
      var (o, l1) := cmd(l, addr, p[n..e]);
      if o.Fail? then (n, o, l1, addr) else WriteBlocks(cmd, l1, Add32(addr, e - n), p, e)
  }

  /** The first block of a write from `n`, then the rest. */
  lemma WriteBlocksStep(cmd: BlockWrite, l: Line, addr: Word32, p: seq<byte>, n: nat)
    requires n < |p|
    ensures var e := BlockEnd(|p|, n);
      var r := cmd(l, addr, p[n..e]);
      WriteBlocks(cmd, l, addr, p, n) == if r.0.Fail? then (n, r.0, r.1, addr) else WriteBlocks(cmd, r.1, Add32(addr, e - n), p, e)
  {
  }

  /**
   * A write succeeds having written every byte, or fails reporting a whole
   * number of blocks short of the end; the address has advanced by exactly
   * the bytes reported written.
   */
  lemma {:induction false} WriteBlocksProgress(cmd: BlockWrite, l: Line, addr: Word32, p: seq<byte>, n: nat)
    requires n <= |p|
    ensures var r := WriteBlocks(cmd, l, addr, p, n);
      && n <= r.0 <= |p|
      && (r.1.Pass? <==> r.0 == |p|)
      && (r.1.Fail? ==> WholeBlocks(r.0 - n))
      && r.3 == Add32(addr, r.0 - n)
    decreases |p| - n
  {
    if n < |p| {
      var e := BlockEnd(|p|, n);
      var (o, l1) := cmd(l, addr, p[n..e]);
      if o.Pass? {
        WriteBlocksProgress(cmd, l1, Add32(addr, e - n), p, e);
        var r := WriteBlocks(cmd, l1, Add32(addr, e - n), p, e);
        Add32Twice(addr, e - n, r.0 - e);
        if r.1.Fail? {
          assert e - n == BlockSize;
          assert (r.0 - n) - BlockSize == r.0 - e;
        }
      }
    }
  }

  /** `cmdReadMemory` never delivers more bytes than were asked for. */
  lemma ReadMemoryBounded()
    ensures Bounded(ReadMemory)
  {
  }

  /** The first block of a read, by `ReadMemory`, given what that block's command returned. */
  lemma ReadBlockAdvance(l: Line, addr: Word32, buf: seq<byte>, n: nat, got: Result<seq<byte>>, l1: Line)
    requires n < |buf| && (got, l1) == ReadMemory(l, addr, BlockEnd(|buf|, n) - n)
    ensures got.Err? ==> ReadBlocks(ReadMemory, l, addr, buf, n) == (n, Fail(got.error), l1, addr, buf)
    ensures got.Ok? ==> |got.value| <= BlockEnd(|buf|, n) - n
    ensures got.Ok? ==>
      var e := BlockEnd(|buf|, n);
      ReadBlocks(ReadMemory, l, addr, buf, n) == ReadBlocks(ReadMemory, l1, Add32(addr, e - n), Overlay(buf, n, got.value), e)
  {
    ReadBlocksStep(ReadMemory, l, addr, buf, n);
  }

  // ---------------------------------------------------------------------------
  // Finding the chip
  // ---------------------------------------------------------------------------

  /** The first supported chip with signature `id`. */
  function Lookup(chips: seq<Chip>, id: seq<byte>): (c: Option<Chip>)
    ensures c.Some? ==> c.value in chips && c.value.signature == id
    ensures c.None? ==> forall i :: 0 <= i < |chips| ==> chips[i].signature != id
  {
    if chips == [] then None
    else if chips[0].signature == id then Some(chips[0])
    else Lookup(chips[1..], id)
  }

  /**
   * `findChip`: sync, learn the supported commands, read the ID and match it
   * against the supported chips; any failure releases the chip. Returns the
   * chip, the line, and the supported-command set afterwards.
   */
  function Identify(l: Line, commands: set<byte>): (r: (Result<Chip>, Line, set<byte>))
  {
    var (i, l1) := Synchronise(l);
    if i.Fail? then (Err(i.error), Release(l1), commands)
    else
      var (c, l2) := GetCommands(l1);
      if c.Err? then (Err(c.error), Release(l2), commands)
      else
        var commands' := commands + Known(c.value);
        var (id, l3) := GetId(l2);
        if id.Err? then (Err(id.error), Release(l3), commands')
        else
          var found := Lookup(SupportedChips, id.value);
          if found.None? then (Err(UnsupportedChip), Release(l3), commands')
          else (Ok(found.value), l3, commands')
  }

  /** A chip is found only with a supported signature. */
  lemma IdentifySupported(l: Line, commands: set<byte>)
    ensures var r := Identify(l, commands);
      r.0.Ok? ==> r.0.value in SupportedChips
  {
  }

  /** On every failure, releasing the chip are the last calls made. */
  lemma IdentifyReleases(l: Line, commands: set<byte>)
    ensures var r := Identify(l, commands);
      r.0.Err? ==> EndsReleased(r.1)
  {
    var (i, l1) := Synchronise(l);
    if i.Fail? {
      ReleaseEnds(l1);
    } else {
      var (c, l2) := GetCommands(l1);
      if c.Err? {
        ReleaseEnds(l2);
      } else {
        ReleaseEnds(GetId(l2).1);
      }
    }
  }

  /** Finding the chip only adds to the supported-command set. */
  lemma IdentifyCommands(l: Line, commands: set<byte>)
    ensures commands <= Identify(l, commands).2
  {
  }

  // ---------------------------------------------------------------------------
  // The programmer and its memory streams
  // ---------------------------------------------------------------------------

  class Programmer {
    const port: Port
    var commands: set<byte>
    var chip: Option<Chip>

    constructor (port: Port)
      ensures this.port == port && commands == {} && chip == None
    {
      this.port := port;
      commands, chip := {}, None;
    }

    method SetBoot(enter: bool)
      modifies port
      ensures port.State() == BootSelect(old(port.State()), enter)
    {
      port.SetPin(Pdic, enter);
    }

    method Reset()
      modifies port
      ensures port.State() == ResetPulse(old(port.State()))
    {
      port.SetPin(Nrst, false);
      port.SetPin(Nrst, true);
    }

    method WaitForAck() returns (o: Outcome)
      modifies port
      ensures (o, port.State()) == AwaitAck(old(port.State()))
    {
      var got := port.Read(1);
      if got.Err? {
        return Fail(got.error);
      }
      if got.value == [] {
        return Fail(AckTimeout);
      }
      if got.value[0] == AckByte {
        o := Pass;
      } else if got.value[0] == NackByte {
        o := Fail(Nack);
      } else {
        o := Fail(UnknownAck);
      }
    }

    /** One pass of `initChip`'s loop. */
    method Sync(fails: nat) returns (o: Outcome)
      modifies port
      ensures (o, port.State()) == SyncOnce(old(port.State()), fails)
    {
      if fails < ResetTries {
        Reset();
      }
      var _ := port.Flush();
      RunPut(port.State(), [SyncByte], [Ack]);
      var _ := port.Write([SyncByte]);
      RunAck(port.State(), []);
      o := WaitForAck();
    }

    method InitChip() returns (o: Outcome)
      modifies port
      ensures (o, port.State()) == Synchronise(old(port.State()))
    {
      SetBoot(true);
      ghost var start := port.State();
      var fails := 0;
      while fails < SyncTries
        invariant fails <= SyncTries
        invariant Failing(SyncOnce, start, fails) == Some(port.State())
        decreases SyncTries - fails
      {
        o := SyncStep(start, fails);
        if o.Pass? {
          return;
        }
        fails := fails + 1;
      }
      SyncFailsAll(SyncOnce, start, port.State());
      o := Fail(ChipNotFound);
    }

    /** Attempt `fails` of `initChip`'s loop, the earlier ones having failed. */
    method SyncStep(ghost start: Line, fails: nat) returns (o: Outcome)
      requires fails < SyncTries
      requires Failing(SyncOnce, start, fails) == Some(port.State())
      modifies port
      ensures o.Pass? ==> (o, port.State()) == SyncFrom(SyncOnce, start, 0)
      ensures o.Fail? ==> Failing(SyncOnce, start, fails + 1) == Some(port.State())
    {
      ghost var at := port.State();
      o := Sync(fails);
      if o.Pass? {
        SyncPassesAt(SyncOnce, start, fails, at);
      } else {
        AttemptFailed(SyncOnce, start, fails, at);
      }
    }

    method ReleaseChip()
      modifies port
      ensures port.State() == Release(old(port.State()))
    {
      SetBoot(false);
      Reset();
    }

    method CmdGeneric(cmd: byte) returns (o: Outcome)
      modifies port
      ensures (o, port.State()) == Generic(old(port.State()), cmd)
    {
      assert GenericSteps(cmd) == [Put([cmd])] + ([Put([cmd ^ 0xFF])] + ([Ack] + []));
      RunPut(port.State(), [cmd], [Put([cmd ^ 0xFF])] + ([Ack] + []));
      var _ := port.Write([cmd]);
      RunPut(port.State(), [cmd ^ 0xFF], [Ack] + []);
      var _ := port.Write([cmd ^ 0xFF]);
      RunAck(port.State(), []);
      o := WaitForAck();
    }

    method CmdGetAvailableCommands() returns (o: Outcome)
      modifies this, port
      ensures var r := GetCommands(old(port.State()));
        && o == (if r.0.Ok? then Pass else Fail(r.0.error))
        && port.State() == r.1
        && commands == (if r.0.Ok? then old(commands) + Known(r.0.value) else old(commands))
        && chip == old(chip)
    {
      var cmds := QueryCommands();
      if cmds.Err? {
        return Fail(cmds.error);
      }
      AddCommands(cmds.value);
      o := Pass;
    }

    /** The exchange of `cmdGetAvailableCommands`, before the codes are recorded. */
    method QueryCommands() returns (r: Result<seq<byte>>)
      modifies port
      ensures (r, port.State()) == GetCommands(old(port.State()))
    {
      var g := CmdGeneric(GetCommandsCmd);
      if g.Fail? {
        return Err(g.error);
      }
      var len := port.Read(1);
      if len.Err? {
        return Err(len.error);
      }
      var ver := port.Read(1);
      if ver.Err? {
        return Err(ver.error);
      }
      var count := Filled(len.value, 1)[0] as nat;
      var cmds := port.Read(count);
      if cmds.Err? {
        return Err(cmds.error);
      }
      var ack := WaitForAck();
      if ack.Fail? {
        return Err(ack.error);
      }
      r := Ok(Filled(cmds.value, count));
    }

    /** `p.commands[c] = true` for each code, in order. */
    method AddCommands(cmds: seq<byte>)
      modifies this
      ensures commands == old(commands) + Known(cmds) && chip == old(chip)
    {
      var i := 0;
      while i < |cmds|
        invariant i <= |cmds|
        invariant commands == old(commands) + Known(cmds[..i])
        invariant chip == old(chip)
      {
        assert Known(cmds[..i + 1]) == Known(cmds[..i]) + {cmds[i]} by {
          assert cmds[..i + 1] == cmds[..i] + [cmds[i]];
        }
        commands := commands + {cmds[i]};
        i := i + 1;
      }
      assert cmds[..i] == cmds;
    }

    method CmdGetId() returns (r: Result<seq<byte>>)
      modifies port
      ensures (r, port.State()) == GetId(old(port.State()))
    {
      var g := CmdGeneric(GetIdCmd);
      if g.Fail? {
        return Err(g.error);
      }
      var len := port.Read(1);
      if len.Err? {
        return Err(len.error);
      }
      var size := IdSize(Filled(len.value, 1)[0]);
      var id := port.Read(size);
      if id.Err? {
        return Err(id.error);
      }
      var ack := WaitForAck();
      if ack.Fail? {
        return Err(ack.error);
      }
      r := Ok(Filled(id.value, size));
    }

    method CmdExtendedEraseMemory() returns (o: Outcome)
      modifies port
      ensures (o, port.State()) == ExtendedErase(old(port.State()))
    {
      o := CmdGeneric(ExtendedEraseCmd);
      if o.Fail? {
        return;
      }
      var _ := port.Write([0xFF, 0xFF]);
      var _ := port.Write([0x00]);
      var t := port.Timeout();
      port.SetTimeout(EraseTimeout);
      o := WaitForAck();
      port.SetTimeout(t);
    }

    method CmdEraseMemory() returns (o: Outcome)
      modifies port
      ensures (o, port.State()) == EraseMemory(old(port.State()), commands)
    {
      if ExtendedEraseCmd in commands {
        o := CmdExtendedEraseMemory();
        return;
      }
      ghost var l0 := port.State();
      ghost var rest := [Put([0xFF, 0x00])] + ([Ack] + []);
      assert [Put([0xFF, 0x00]), Ack] == rest;
      o := CmdGeneric(EraseMemoryCmd);
      RunAppend(l0, GenericSteps(EraseMemoryCmd), rest);
      if o.Fail? {
        return;
      }
      RunPut(port.State(), [0xFF, 0x00], [Ack] + []);
      var _ := port.Write([0xFF, 0x00]);
      RunAck(port.State(), []);
      o := WaitForAck();
    }

    method Erase() returns (o: Outcome)
      modifies port
      ensures (o, port.State()) == EraseMemory(old(port.State()), commands)
    {
      o := CmdEraseMemory();
    }

    /** `cmdWriteMemory`'s copy of the data, padded with 0xFF to a multiple of four bytes. */
    static method PadToWords(data: seq<byte>) returns (toWrite: seq<byte>)
      ensures toWrite == Pad(data)
    {
      toWrite := data;
      if |data| % 4 > 0 {
        while |toWrite| % 4 > 0
          invariant |data| <= |toWrite| <= |data| + (4 - |data| % 4) % 4
          invariant toWrite == data + Ones(|toWrite| - |data|)
          decreases |data| + 4 - |toWrite|
        {
          assert Ones(|toWrite| + 1 - |data|) == Ones(|toWrite| - |data|) + [0xFF];
          toWrite := toWrite + [0xFF];
        }
      }
    }

    /** The data bytes of a write, one `Write` each, folding the checksum. */
    method SendBytes(n: byte, toWrite: seq<byte>) returns (crc: byte)
      modifies port
      ensures crc == XorAll([n] + toWrite)
      ensures port.State() == Run(old(port.State()), Puts(toWrite)).1
    {
      ghost var l0 := port.State();
      crc := n;
      var i := 0;
      while i < |toWrite|
        invariant i <= |toWrite|
        invariant crc == XorAll([n] + toWrite[..i])
        invariant port.State() == Run(l0, Puts(toWrite[..i])).1
      {
        var b := toWrite[i];
        XorStep(n, toWrite, i);
        PutsStep(l0, toWrite[..i], b);
        assert toWrite[..i + 1] == toWrite[..i] + [b];
        var _ := port.Write([b]);
        crc := crc ^ b;
        i := i + 1;
      }
      assert toWrite[..i] == toWrite;
    }

    /** The data part of `cmdWriteMemory`: the length byte, the bytes, the checksum, the ACK. */
    method SendFrame(toWrite: seq<byte>) returns (o: Outcome)
      modifies port
      ensures (o, port.State()) == Run(old(port.State()), DataSteps(toWrite))
    {
      var n := LowByte(|toWrite| - 1);
      ghost var tail := [Put([XorAll([n] + toWrite)])] + ([Ack] + []);
      assert DataSteps(toWrite) == [Put([n])] + (Puts(toWrite) + tail);
      RunPut(port.State(), [n], Puts(toWrite) + tail);
      var _ := port.Write([n]);
      ghost var l1 := port.State();
      var crc := SendBytes(n, toWrite);
      PutsPass(l1, toWrite);
      RunAppend(l1, Puts(toWrite), tail);
      RunPut(port.State(), [crc], [Ack] + []);
      var _ := port.Write([crc]);
      RunAck(port.State(), []);
      o := WaitForAck();
    }

    method CmdWriteMemory(addr: Word32, data: seq<byte>) returns (o: Outcome)
      modifies port
      ensures (o, port.State()) == WriteMemory(old(port.State()), addr, data)
    {
      ghost var l0 := port.State();
      var toWrite := PadToWords(data);
      o := CmdGeneric(WriteMemoryCmd);
      RunAppend(l0, GenericSteps(WriteMemoryCmd), AddressSteps(addr) + DataSteps(toWrite));
      if o.Fail? {
        return;
      }
      o := SendAddress(addr, DataSteps(toWrite));
      if o.Fail? {
        return;
      }
      o := SendFrame(toWrite);
    }

    method CmdReadMemory(addr: Word32, len: nat) returns (r: Result<seq<byte>>)
      modifies port
      ensures (r, port.State()) == ReadMemory(old(port.State()), addr, len)
    {
      ghost var l0 := port.State();
      var g := CmdGeneric(ReadMemoryCmd);
      RunAppend(l0, GenericSteps(ReadMemoryCmd), AddressSteps(addr) + LengthSteps(len));
      if g.Fail? {
        return Err(g.error);
      }
      g := SendAddress(addr, LengthSteps(len));
      if g.Fail? {
        return Err(g.error);
      }
      g := SendLength(len);
      if g.Fail? {
        return Err(g.error);
      }
      r := port.Read(len);
    }

    /** The length part of `cmdReadMemory`. */
    method SendLength(len: nat) returns (o: Outcome)
      modifies port
      ensures (o, port.State()) == Run(old(port.State()), LengthSteps(len))
    {
      var n := LowByte(len - 1);
      assert LengthSteps(len) == [Put([n, n ^ 0xFF])] + ([Ack] + []);
      RunPut(port.State(), [n, n ^ 0xFF], [Ack] + []);
      var _ := port.Write([n, n ^ 0xFF]);
      RunAck(port.State(), []);
      o := WaitForAck();
    }

    /** The address part of `cmdWriteMemory` and `cmdReadMemory`, before the `rest` of the script. */
    method SendAddress(addr: Word32, ghost rest: seq<Step>) returns (o: Outcome)
      modifies port
      ensures Run(old(port.State()), AddressSteps(addr) + rest) ==
        if o.Fail? then (o, port.State()) else Run(port.State(), rest)
    {
      ghost var l1 := port.State();
      RunAppend(l1, AddressSteps(addr), rest);
      RunPut(l1, EncodeAddr(addr), [Ack] + []);
      var _ := port.Write(EncodeAddr(addr));
      RunAck(port.State(), []);
      o := WaitForAck();
    }

    /** The loop of `findChip` over the supported chips. */
    static method LookupChip(id: seq<byte>) returns (c: Option<Chip>)
      ensures c == Lookup(SupportedChips, id)
    {
      var i := 0;
      while i < |SupportedChips|
        invariant i <= |SupportedChips|
        invariant Lookup(SupportedChips[i..], id) == Lookup(SupportedChips, id)
      {
        if SupportedChips[i].signature == id {
          return Some(SupportedChips[i]);
        }
        assert SupportedChips[i..][1..] == SupportedChips[i + 1..];
        i := i + 1;
      }
      return None;
    }

    method FindChip() returns (r: Result<Chip>)
      modifies this, port
      ensures var f := Identify(old(port.State()), old(commands));
        (r, port.State(), commands) == f && chip == old(chip)
    {
      var o := InitChip();
      if o.Fail? {
        ReleaseChip();
        return Err(o.error);
      }
      o := CmdGetAvailableCommands();
      if o.Fail? {
        ReleaseChip();
        return Err(o.error);
      }
      var id := CmdGetId();
      if id.Err? {
        ReleaseChip();
        return Err(id.error);
      }
      var found := LookupChip(id.value);
      if found.None? {
        ReleaseChip();
        return Err(UnsupportedChip);
      }
      r := Ok(found.value);
    }

    /** `NewProgrammerDeps`: a fresh programmer that has found its chip. */
    static method NewProgrammerDeps(port: Port) returns (r: Result<Programmer>)
      modifies port
      ensures var f := Identify(old(port.State()), {});
        && port.State() == f.1
        && (r.Ok? <==> f.0.Ok?)
        && (r.Err? ==> r.error == f.0.error)
        && (r.Ok? ==> r.value.port == port && r.value.chip == Some(f.0.value) && r.value.commands == f.2)
    {
      var p := new Programmer(port);
      var c := p.FindChip();
      if c.Err? {
        return Err(c.error);
      }
      p.chip := Some(c.value);
      return Ok(p);
    }

    /** `Close`, as far as the target is concerned: a known chip is released. */
    method Close()
      modifies port
      ensures port.State() == if chip.Some? then Release(old(port.State())) else old(port.State())
    {
      if chip.Some? {
        ReleaseChip();
      }
    }

    method NewMemoryWriter(addr: Word32) returns (w: MemWriter)
      ensures fresh(w) && w.prog == this && w.addr == addr
    {
      w := new MemWriter(this, addr);
    }

    method NewMemoryReader(addr: Word32) returns (rd: MemReader)
      ensures fresh(rd) && rd.prog == this && rd.addr == addr
    {
      rd := new MemReader(this, addr);
    }
  }

  /** `memWriter`: writes flash from `addr` on, 64 bytes per command. */
  class MemWriter {
    const prog: Programmer
    var addr: Word32

    constructor (prog: Programmer, addr: Word32)
      ensures this.prog == prog && this.addr == addr
    {
      this.prog, this.addr := prog, addr;
    }

    method Write(p: seq<byte>) returns (n: nat, o: Outcome)
      modifies this, prog.port
      ensures (n, o, prog.port.State(), addr) == WriteBlocks(WriteMemory, old(prog.port.State()), old(addr), p, 0)
    {
      ghost var goal := WriteBlocks(WriteMemory, prog.port.State(), addr, p, 0);
      n := 0;
      while n < |p|
        invariant n <= |p|
        invariant WriteBlocks(WriteMemory, prog.port.State(), addr, p, n) == goal
        decreases |p| - n
      {
        var e;
        o, e := WriteBlock(p, n);
        if o.Fail? {
          return;
        }
        n := e;
      }
      o := Pass;
    }

    /** One pass of `Write`'s loop: the block of `p` from `n` written at `addr`. */
    method WriteBlock(p: seq<byte>, n: nat) returns (o: Outcome, e: nat)
      requires n < |p|
      modifies this, prog.port
      ensures e == BlockEnd(|p|, n)
      ensures var s := WriteBlocks(WriteMemory, old(prog.port.State()), old(addr), p, n);
        o.Fail? ==> (n, o, prog.port.State(), addr) == s
      ensures var s := WriteBlocks(WriteMemory, old(prog.port.State()), old(addr), p, n);
        o.Pass? ==> WriteBlocks(WriteMemory, prog.port.State(), addr, p, e) == s
    {
      e := BlockEnd(|p|, n);
      WriteBlocksStep(WriteMemory, prog.port.State(), addr, p, n);
      o := prog.CmdWriteMemory(addr, p[n..e]);
      if o.Fail? {
        return;
      }
      addr := Add32(addr, e - n);
    }
  }

  /** `memReader`: reads flash from `addr` on, 64 bytes per command. */
  class MemReader {
    const prog: Programmer
    var addr: Word32

    constructor (prog: Programmer, addr: Word32)
      ensures this.prog == prog && this.addr == addr
    {
      this.prog, this.addr := prog, addr;
    }

    method Read(p: array<byte>) returns (n: nat, o: Outcome)
      modifies this, prog.port, p
      ensures (n, o, prog.port.State(), addr, p[..]) == ReadBlocks(ReadMemory, old(prog.port.State()), old(addr), old(p[..]), 0)
    {
      ReadMemoryBounded();
      ghost var goal := ReadBlocks(ReadMemory, prog.port.State(), addr, p[..], 0);
      n := 0;
      while n < p.Length
        invariant n <= p.Length
        invariant ReadBlocks(ReadMemory, prog.port.State(), addr, p[..], n) == goal
        decreases p.Length - n
      {
        var e;
        o, e := ReadBlock(p, n);
        if o.Fail? {
          return;
        }
        n := e;
      }
      o := Pass;
    }

    /** One pass of `Read`'s loop: one block read into `p` at `n`. */
    method ReadBlock(p: array<byte>, n: nat) returns (o: Outcome, e: nat)
      requires n < p.Length
      modifies this, prog.port, p
      ensures e == BlockEnd(p.Length, n)
      ensures var s := ReadBlocks(ReadMemory, old(prog.port.State()), old(addr), old(p[..]), n);
        o.Fail? ==> (n, o, prog.port.State(), addr, p[..]) == s
      ensures var s := ReadBlocks(ReadMemory, old(prog.port.State()), old(addr), old(p[..]), n);
        o.Pass? ==> ReadBlocks(ReadMemory, prog.port.State(), addr, p[..], e) == s
    {
      e := BlockEnd(p.Length, n);
      ghost var l0, a0, b0 := prog.port.State(), addr, p[..];
      ReadMemoryBounded();
      var got := prog.CmdReadMemory(addr, e - n);
      ReadBlockAdvance(l0, a0, b0, n, got, prog.port.State());
      if got.Err? {
        return Fail(got.error), e;
      }
      Accept(p, n, e, got.value);
      o := Pass;
    }

    /** A block that arrived: its bytes are in `p` at `n`, and the address has moved past the block. */
    method Accept(p: array<byte>, n: nat, e: nat, data: seq<byte>)
      requires n + |data| <= p.Length && n <= e
      modifies this, p
      ensures p[..] == Overlay(old(p[..]), n, data) && addr == Add32(old(addr), e - n)
    {
      Place(p, n, data);
      addr := Add32(addr, e - n);
    }
  }
}
