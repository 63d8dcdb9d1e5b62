/**
 * The XMEGA programmer (programmer/xmega/programmer.go), which programs the
 * target's flash over PDI through the ChipWhisperer-Lite's XMEGA-programming
 * vendor request (0x20).
 *
 * Every programmer command is a control transfer out under that request,
 * with the command's code as the value and a packed little-endian parameter
 * block as the data (`binary.Write`, no padding). A command whose outcome is
 * checked is followed by a read of the three-byte status block (command,
 * error, timeout), and fails unless the error byte is zero. Flash moves in
 * chunks of at most 64 bytes through the programmer's RAM buffer.
 */
module Xmega {
  import opened Base
  import opened Bytes
  import opened Usb
  import opened Blocks

  const ParamTimeout: byte := 8
  // Chip erase kinds.
  const EraseChipKind: byte := 1
  const EraseAppKind: byte := 2
  // Write-memory flags: `pageModeWrite` is bit 1.
  const PageModeWrite: byte := 2
  const SignatureAddr: Word32 := 0x0100_0090
  const SignatureSize: nat := 3
  /** The 400 ms timeout `NewProgrammerDeps` sets, at 2500 ticks a second. */
  const StartTicks: Word32 := 1000

  // Memory types.
  const MemTypeApp: byte := 1
  const MemTypeEeprom: byte := 3

  datatype MemRegion = MemRegion(memType: byte, offset: Word32, size: Word32)

  datatype ChipProperties = ChipProperties(name: string, signature: seq<byte>, flash: MemRegion, eeprom: MemRegion)

  const SupportedChips: seq<ChipProperties> := [
    ChipProperties("XMEGA128D4", [0x1e, 0x97, 0x47],
      MemRegion(MemTypeApp, 0x0800000, 0x0002_2000),
      MemRegion(MemTypeEeprom, 0x08c0000, 0x0800))
  ]

  datatype Command =
    | CmdEnterProgmode | CmdLeaveProgmode | CmdErase | CmdWriteMem | CmdReadMem
    | CmdCrc | CmdSetParam | CmdGetStatus | CmdGetRamBuf | CmdSetRamBuf
  {
    function Code(): u16
    {
      match this
      case CmdEnterProgmode => 1
      case CmdLeaveProgmode => 2
      case CmdErase => 3
      case CmdWriteMem => 4
      case CmdReadMem => 5
      case CmdCrc => 6
      case CmdSetParam => 7
      case CmdGetStatus => 0x20
      case CmdGetRamBuf => 0x21
      case CmdSetRamBuf => 0x22
    }
  }

  // ---------------------------------------------------------------------------
  // Parameter blocks
  // ---------------------------------------------------------------------------

  function Le32Bytes(x: Word32): (r: seq<byte>)
    ensures |r| == 4
  {
    assert Pow256(4) == 0x1_0000_0000;
    LeBytes(x, 4)
  }

  /** `uint16(len)`, little-endian. */
  function Le16Bytes(len: nat): (r: seq<byte>)
    ensures |r| == 2
  {
    assert Pow256(2) == 0x1_0000;
    LeBytes(len % 0x1_0000, 2)
  }

  /** The four bytes decode back to the word. */
  lemma Le32Value(x: Word32)
    ensures LeValue(Le32Bytes(x)) == x
  {
    assert Pow256(4) == 0x1_0000_0000;
    LeRoundTrip(x, 4);
  }

  /** The two bytes decode back to the length, truncated to 16 bits. */
  lemma Le16Value(len: nat)
    ensures LeValue(Le16Bytes(len)) == len % 0x1_0000
  {
    assert Pow256(2) == 0x1_0000;
    LeRoundTrip(len % 0x1_0000, 2);
  }

  /** The read command's `infoBlock{typ: 0, addr, dlen}`. */
  function ReadInfo(addr: Word32, len: nat): (info: seq<byte>)
  {
    [0] + Le32Bytes(addr) + Le16Bytes(len)
  }

  /** The write command's `infoBlock{typ, flags: pageModeWrite, addr, dlen}`. */
  function WriteInfo(memType: byte, addr: Word32, len: nat): (info: seq<byte>)
  {
    [memType, PageModeWrite] + Le32Bytes(addr) + Le16Bytes(len)
  }

  /** `setTimeout`'s `paramBlock{paramTimeout, ticks}`. */
  function TimeoutParam(ticks: Word32): (param: seq<byte>)
  {
    [ParamTimeout] + Le32Bytes(ticks)
  }

  /** The erase command's data: the erase kind and four zero bytes. */
  function EraseBlock(kind: byte): (data: seq<byte>)
  {
    [kind, 0, 0, 0, 0]
  }

  /** The read info block is seven bytes that decode back to type 0, the address and the length. */
  lemma ReadInfoFields(addr: Word32, len: nat)
    ensures var info := ReadInfo(addr, len);
      |info| == 7 && info[0] == 0 &&
      LeValue(info[1..5]) == addr && LeValue(info[5..]) == len % 0x1_0000
  {
    var info := ReadInfo(addr, len);
    assert info[1..5] == Le32Bytes(addr);
    assert info[5..] == Le16Bytes(len);
    Le32Value(addr);
    Le16Value(len);
  }

  /** The write info block is eight bytes that decode back to its fields. */
  lemma WriteInfoFields(memType: byte, addr: Word32, len: nat)
    ensures var info := WriteInfo(memType, addr, len);
      |info| == 8 && info[0] == memType && info[1] == PageModeWrite &&
      LeValue(info[2..6]) == addr && LeValue(info[6..]) == len % 0x1_0000
  {
    var info := WriteInfo(memType, addr, len);
    assert info[2..6] == Le32Bytes(addr);
    assert info[6..] == Le16Bytes(len);
    Le32Value(addr);
    Le16Value(len);
  }

  /** The timeout parameter block is five bytes: the parameter number, then the ticks. */
  lemma TimeoutParamFields(ticks: Word32)
    ensures var param := TimeoutParam(ticks);
      |param| == 5 && param[0] == ParamTimeout && LeValue(param[1..]) == ticks
  {
    var param := TimeoutParam(ticks);
    assert param[1..] == Le32Bytes(ticks);
    Le32Value(ticks);
  }

  // ---------------------------------------------------------------------------
  // Commands and the status check
  // ---------------------------------------------------------------------------

  /** The control transfer out that sends `cmd` with `data`. */
  function Sent(cmd: Command, data: seq<byte>): (t: Transfer)
  {
    ControlOut(XmegaProgram, cmd.Code(), data)
  }

  /** The status read that follows a checked command. */
  const StatusQuery: Transfer := ControlIn(XmegaProgram, CmdGetStatus.Code(), 3)

  /** A status block that reports success: three bytes, the error byte zero. */
  predicate StatusGood(rep: Reply)
  {
    rep.Deliver? && |rep.data| == 3 && rep.data[1] == 0
  }

  /** The commands a transcript sent: its control transfers out, in order. */
  function Commands(log: seq<Transfer>): (c: seq<Transfer>)
    ensures |c| <= |log|
  {
    if log == [] then []
    else Commands(log[..|log| - 1]) + if log[|log| - 1].ControlOut? then [log[|log| - 1]] else []
  }

  lemma CommandsSnoc(log: seq<Transfer>, t: Transfer)
    ensures Commands(log + [t]) == Commands(log) + if t.ControlOut? then [t] else []
  {
    assert (log + [t])[..|log|] == log;
  }

  /** `doRead`: a control transfer in of exactly `len` bytes under the command's code. */
  function Query(d: Dev, cmd: Command, len: nat): (r: (Result<seq<byte>>, Dev))
    ensures r.1.log == d.log + [ControlIn(XmegaProgram, cmd.Code(), len)]
    ensures r.0.Ok? ==> |r.0.value| == len
  {
    CtrlIn(d, XmegaProgram, cmd.Code(), len)
  }

  /** `checkStatusOk`: the status block is read, and its error byte must be zero. */
  function StatusOk(d: Dev): (r: (Outcome, Dev))
    ensures r.1 == Answer(d, StatusQuery)
    ensures r.0.Pass? <==> StatusGood(Next(d))
    ensures r.0 != Fail(ShortWrite)
  {
    var (got, d1) := Query(d, CmdGetStatus, 3);
    if got.Err? then (Fail(got.error), d1)
    else if got.value[1] != 0 then (Fail(StatusError), d1)
    else (Pass, d1)
  }

  /** The `k`-th reply still to come: what the device answers `k` transfers from now. */
  function Reply(d: Dev, k: nat): (rep: Reply)
    ensures k == 0 ==> rep == Next(d)
  {
    if k < |d.script| then d.script[k] else Refuse
  }

  /**
   * `doWrite`: the command goes out; if `check`, the status block is read
   * after it. With the check, the command fails if and only if the transfer
   * out fails, the status read fails, or the status reports an error.
   */
  function Issue(d: Dev, cmd: Command, data: seq<byte>, check: bool): (r: (Outcome, Dev))
    ensures check && Reply(d, 0) == Accept(|data|) ==> r.1.log == d.log + [Sent(cmd, data), StatusQuery]
    ensures !(check && Reply(d, 0) == Accept(|data|)) ==> r.1.log == d.log + [Sent(cmd, data)]
    ensures r.0.Pass? <==> Reply(d, 0) == Accept(|data|) && (check ==> StatusGood(Reply(d, 1)))
    ensures r.0 != Fail(ShortWrite)
    decreases check
  {
    if !check then CtrlOut(d, XmegaProgram, cmd.Code(), data)
    else
      var sent := Issue(d, cmd, data, false);
      if sent.0.Fail? then sent else StatusOk(sent.1)
  }

  /** A checked command that succeeds used up exactly two replies. */
  lemma IssuePassed(d: Dev, cmd: Command, data: seq<byte>)
    requires Issue(d, cmd, data, true).0.Pass?
    ensures |d.script| >= 2 && Issue(d, cmd, data, true).1 == Dev(d.log + [Sent(cmd, data), StatusQuery], d.script[2..])
  {
    IssueUnchecked(d, cmd, data);
    assert d.script[1..][1..] == d.script[2..];
  }

  /** What an unchecked command does to the device. */
  lemma IssueUnchecked(d: Dev, cmd: Command, data: seq<byte>)
    ensures Issue(d, cmd, data, false) == CtrlOut(d, XmegaProgram, cmd.Code(), data)
  {
  }

  /** A command adds itself, and only itself, to the commands sent; the status read is not one. */
  lemma IssueCommands(d: Dev, cmd: Command, data: seq<byte>, check: bool)
    ensures Commands(Issue(d, cmd, data, check).1.log) == Commands(d.log) + [Sent(cmd, data)]
  {
    var l1 := d.log + [Sent(cmd, data)];
    CommandsSnoc(d.log, Sent(cmd, data));
    CommandsSnoc(l1, StatusQuery);
    assert l1 + [] == l1;
  }

  /** `setTimeout`, with the tick count already computed. */
  function ProgramTimeout(d: Dev, ticks: Word32): (r: (Outcome, Dev))
  {
    Issue(d, CmdSetParam, TimeoutParam(ticks), true)
  }

  /** `enablePDI`: enter programming mode. */
  function EnterPdi(d: Dev): (r: (Outcome, Dev))
  {
    Issue(d, CmdEnterProgmode, [], true)
  }

  /** `disablePDI`: leave programming mode. */
  function LeavePdi(d: Dev): (r: (Outcome, Dev))
  {
    Issue(d, CmdLeaveProgmode, [], true)
  }

  /** `EraseChip` and `EraseApp`: the erase command of one kind, checked. */
  function EraseWith(d: Dev, kind: byte): (r: (Outcome, Dev))
  {
    Issue(d, CmdErase, EraseBlock(kind), true)
  }

  // ---------------------------------------------------------------------------
  // Erase and Close
  // ---------------------------------------------------------------------------

  /**
   * `Erase`: a chip erase; if that fails, programming mode is left and
   * entered again, whatever those report, and the application section is
   * erased instead.
   */
  function EraseFlow(d: Dev): (r: (Outcome, Dev))
  {
    var chip := EraseWith(d, EraseChipKind);
    if chip.0.Pass? then chip
    else
      var left := LeavePdi(chip.1);
      var entered := EnterPdi(left.1);
      EraseWith(entered.1, EraseAppKind)
  }

  /**
   * A chip erase that succeeds is all `Erase` does. One that fails is followed
   * by exactly three more commands — leave and enter programming mode, then
   * the application erase — and `Erase` fails only if that erase fails too.
   */
  lemma EraseFallback(d: Dev)
    ensures var chip := EraseWith(d, EraseChipKind);
      var r := EraseFlow(d);
      && (chip.0.Pass? ==> r == chip && Commands(r.1.log) == Commands(d.log) + [Sent(CmdErase, EraseBlock(EraseChipKind))])
      && (chip.0.Fail? ==>
            Commands(r.1.log) == Commands(d.log) +
              [Sent(CmdErase, EraseBlock(EraseChipKind)), Sent(CmdLeaveProgmode, []),
               Sent(CmdEnterProgmode, []), Sent(CmdErase, EraseBlock(EraseAppKind))])
      && (r.0.Fail? ==> chip.0.Fail?)
  {
    var chip := EraseWith(d, EraseChipKind);
    IssueCommands(d, CmdErase, EraseBlock(EraseChipKind), true);
    if chip.0.Fail? {
      var left := LeavePdi(chip.1);
      var entered := EnterPdi(left.1);
      var app := EraseWith(entered.1, EraseAppKind);
      assert EraseFlow(d) == app;
      IssueCommands(chip.1, CmdLeaveProgmode, [], true);
      IssueCommands(left.1, CmdEnterProgmode, [], true);
      IssueCommands(entered.1, CmdErase, EraseBlock(EraseAppKind), true);
      SnocFour(Commands(d.log), Sent(CmdErase, EraseBlock(EraseChipKind)), Sent(CmdLeaveProgmode, []),
        Sent(CmdEnterProgmode, []), Sent(CmdErase, EraseBlock(EraseAppKind)));
    }
  }

  lemma SnocFour(c: seq<Transfer>, t1: Transfer, t2: Transfer, t3: Transfer, t4: Transfer)
    ensures c + [t1] + [t2] + [t3] + [t4] == c + [t1, t2, t3, t4]
  {
  }

  /** The transcript's last entry is `t`. */
  predicate EndsWith(log: seq<Transfer>, t: Transfer)
  {
    |log| > 0 && log[|log| - 1] == t
  }

  /**
   * `Close`, on a programmer whose device is still open or already closed:
   * an open one leaves programming mode and closes the device, reporting
   * only how leaving went; a closed one does nothing and reports success.
   */
  function Shutdown(d: Dev, open: bool): (r: (Outcome, Dev))
    ensures !open ==> r == (Pass, d)
    ensures open ==> Commands(r.1.log) == Commands(d.log) + [Sent(CmdLeaveProgmode, [])]
    ensures open ==> |r.1.log| > |d.log| && r.1.log[..|d.log|] == d.log && EndsWith(r.1.log, Close)
  {
    if open then
      var left := LeavePdi(d);
      IssueCommands(d, CmdLeaveProgmode, [], true);
      CommandsSnoc(left.1.log, Close);
      assert Closed(left.1).log[..|d.log|] == d.log;
      (left.0, Closed(left.1))
    else (Pass, d)
  }

  // ---------------------------------------------------------------------------
  // Memory reader and writer, one chunk
  // ---------------------------------------------------------------------------

  /**
   * One chunk of `memReader.Read`: the read command for `len` bytes at
   * `addr`, checked; then exactly `len` bytes fetched from the RAM buffer.
   */
  function ReadChunk(d: Dev, addr: Word32, len: nat): (r: (Result<seq<byte>>, Dev))
    ensures r.0.Ok? ==> |r.0.value| == len
    ensures r.0.Ok? ==> r.1.log == d.log + [Sent(CmdReadMem, ReadInfo(addr, len)), StatusQuery, ControlIn(XmegaProgram, CmdGetRamBuf.Code(), len)]
  {
    var (o, d1) := Issue(d, CmdReadMem, ReadInfo(addr, len), true);
    if o.Fail? then (Err(o.error), d1) else Query(d1, CmdGetRamBuf, len)
  }

  lemma ReadChunkBounded()
    ensures Bounded(ReadChunk)
  {
  }

  /**
   * One chunk of `memWriter.Write`: the bytes are put in the RAM buffer
   * without a status check, then the write command for them, checked.
   */
  function WriteChunk(memType: byte, d: Dev, addr: Word32, data: seq<byte>): (r: (Outcome, Dev))
    ensures r.0 != Fail(ShortWrite)
  {
    var (o, d1) := Issue(d, CmdSetRamBuf, data, false);
    if o.Fail? then (o, d1) else Issue(d1, CmdWriteMem, WriteInfo(memType, addr, |data|), true)
  }

  /**
   * A chunk write sends the data to the RAM buffer and then, if the device
   * took all of it, the write command naming the memory type, the address and
   * the length; it succeeds only if both went through and the status is good.
   */
  lemma WriteChunkCommands(memType: byte, d: Dev, addr: Word32, data: seq<byte>)
    ensures var r := WriteChunk(memType, d, addr, data);
      var staged := Next(d) == Accept(|data|);
      && Commands(r.1.log) == Commands(d.log) + [Sent(CmdSetRamBuf, data)] +
           (if staged then [Sent(CmdWriteMem, WriteInfo(memType, addr, |data|))] else [])
      && (r.0.Pass? ==> staged && r.1.log == d.log + [Sent(CmdSetRamBuf, data), Sent(CmdWriteMem, WriteInfo(memType, addr, |data|)), StatusQuery])
  {
    var s := Issue(d, CmdSetRamBuf, data, false);
    IssueCommands(d, CmdSetRamBuf, data, false);
    if s.0.Pass? {
      IssueCommands(s.1, CmdWriteMem, WriteInfo(memType, addr, |data|), true);
    } else {
      assert Commands(d.log) + [Sent(CmdSetRamBuf, data)] + [] == Commands(d.log) + [Sent(CmdSetRamBuf, data)];
    }
  }

  /** The chunk writer of a memory writer for `memType`. */
  function Staging(memType: byte): (cmd: ChunkWrite)
  {
    (d: Dev, addr: Word32, data: seq<byte>) => WriteChunk(memType, d, addr, data)
  }

  // ---------------------------------------------------------------------------
  // Memory writer, all chunks
  // ---------------------------------------------------------------------------

  /** A write command for one chunk: the device before, the address, the bytes; its outcome and the device after. */
  type ChunkWrite = (Dev, Word32, seq<byte>) -> (Outcome, Dev)

  /** Only the writer's own bound check reports `io.ErrShortWrite`. */
  ghost predicate NeverShort(cmd: ChunkWrite)
  {
    forall d, addr, data :: cmd(d, addr, data).0 != Fail(ShortWrite)
  }

  lemma StagingNeverShort(memType: byte)
    ensures NeverShort(Staging(memType))
  {
  }

  /**
   * `memWriter.Write` from byte `n`, with `cmd` writing each chunk: before
   * each chunk of at most 64 bytes, the address just past it is compared,
   * in 32-bit arithmetic, with `maxAddr`. Returns the bytes written, the
   * outcome, the device and the address.
   */
  function WriteChunks(cmd: ChunkWrite, d: Dev, addr: Word32, maxAddr: Word32, p: seq<byte>, n: nat): (r: (nat, Outcome, Dev, Word32))
    requires n <= |p|
    decreases |p| - n
  {
    if n == |p| then (n, Pass, d, addr)
    else
      var e := BlockEnd(|p|, n);
      if Add32(addr, e - n) > maxAddr then (n, Fail(ShortWrite), d, addr)
      else
        var w := cmd(d, addr, p[n..e]);
        if w.0.Fail? then (n, w.0, w.1, addr) else WriteChunks(cmd, w.1, Add32(addr, e - n), maxAddr, p, e)
  }

  /** The first chunk of a write from `n`, then the rest. */
  lemma WriteChunksStep(cmd: ChunkWrite, d: Dev, addr: Word32, maxAddr: Word32, p: seq<byte>, n: nat)
    requires n < |p|
    ensures var e := BlockEnd(|p|, n);
      var w := cmd(d, addr, p[n..e]);
      WriteChunks(cmd, d, addr, maxAddr, p, n) ==
        if Add32(addr, e - n) > maxAddr then (n, Fail(ShortWrite), d, addr)
        else if w.0.Fail? then (n, w.0, w.1, addr)
        else WriteChunks(cmd, w.1, Add32(addr, e - n), maxAddr, p, e)
  {
  }

  /**
   * A write succeeds having written every byte, or fails a whole number of
   * chunks short of the end; the address has advanced by exactly the bytes
   * reported written.
   */
  lemma {:induction false} WriteChunksProgress(cmd: ChunkWrite, d: Dev, addr: Word32, maxAddr: Word32, p: seq<byte>, n: nat)
    requires n <= |p|
    ensures var r := WriteChunks(cmd, d, addr, maxAddr, p, n);
      && n <= r.0 <= |p|
      && (r.1.Pass? <==> r.0 == |p|)
      && (r.1.Fail? ==> WholeBlocks(r.0 - n))
      && r.3 == Add32(addr, r.0 - n)
    decreases |p| - n
  {
    if n < |p| {
      var e := BlockEnd(|p|, n);
      var w := cmd(d, addr, p[n..e]);
      WriteChunksStep(cmd, d, addr, maxAddr, p, n);
      if Add32(addr, e - n) <= maxAddr && w.0.Pass? {
        var a1 := Add32(addr, e - n);
        WriteChunksProgress(cmd, w.1, a1, maxAddr, p, e);
        var r := WriteChunks(cmd, w.1, a1, maxAddr, p, e);
        assert WriteChunks(cmd, d, addr, maxAddr, p, n) == r;
        Add32Twice(addr, e - n, r.0 - e);
        if r.1.Fail? {
          assert e - n == BlockSize;
        }
      }
    }
  }

  /**
   * The bound check: a write stops with `io.ErrShortWrite` exactly when the
   * chunk it stopped at would end past `maxAddr`, having written every
   * chunk before it.
   */
  lemma {:induction false} WriteChunksStops(cmd: ChunkWrite, d: Dev, addr: Word32, maxAddr: Word32, p: seq<byte>, n: nat)
    requires NeverShort(cmd) && n <= |p|
    ensures var r := WriteChunks(cmd, d, addr, maxAddr, p, n);
      r.1 == Fail(ShortWrite) <==> r.0 < |p| && Add32(r.3, BlockEnd(|p|, r.0) - r.0) > maxAddr
    decreases |p| - n
  {
    if n < |p| {
      var e := BlockEnd(|p|, n);
      var w := cmd(d, addr, p[n..e]);
      WriteChunksStep(cmd, d, addr, maxAddr, p, n);
      if Add32(addr, e - n) <= maxAddr {
        assert w.0 != Fail(ShortWrite);
        if w.0.Pass? {
          WriteChunksStops(cmd, w.1, Add32(addr, e - n), maxAddr, p, e);
        }
      }
    }
  }

  /**
   * Every address the writer moves to passed the bound check, so it never
   * goes past `maxAddr`; a write that fits below `maxAddr` never stops with
   * `io.ErrShortWrite`; and a write of some bytes that succeeds without
   * wrapping around 32 bits fit below `maxAddr`.
   */
  lemma {:induction false} WriteChunksFits(cmd: ChunkWrite, d: Dev, addr: Word32, maxAddr: Word32, p: seq<byte>, n: nat)
    requires n <= |p|
    ensures var r := WriteChunks(cmd, d, addr, maxAddr, p, n);
      && (addr <= maxAddr ==> r.3 <= maxAddr)
      && (NeverShort(cmd) && addr + (|p| - n) <= maxAddr ==> r.1 != Fail(ShortWrite))
      && (r.1.Pass? && n < |p| && addr + (|p| - n) < 0x1_0000_0000 ==> addr + (|p| - n) <= maxAddr)
    decreases |p| - n
  {
    if n < |p| {
      var e := BlockEnd(|p|, n);
      var w := cmd(d, addr, p[n..e]);
      WriteChunksStep(cmd, d, addr, maxAddr, p, n);
      if Add32(addr, e - n) <= maxAddr && w.0.Pass? {
        WriteChunksFits(cmd, w.1, Add32(addr, e - n), maxAddr, p, e);
        if addr + (|p| - n) < 0x1_0000_0000 {
          assert Add32(addr, e - n) == addr + (e - n);
        }
      }
    }
  }

  // ---------------------------------------------------------------------------
  // Finding the chip and opening the programmer
  // ---------------------------------------------------------------------------

  /** Where `NewMemoryReader` starts: the flash once a chip is known, else the address given. */
  function ReaderStart(chip: Option<ChipProperties>, addr: Word32): (a: Word32)
  {
    if chip.Some? then chip.value.flash.offset else addr
  }

  /** The first supported chip with signature `sig`. */
  function Lookup(chips: seq<ChipProperties>, sig: seq<byte>): (c: Option<ChipProperties>)
    ensures c.Some? ==> c.value in chips && c.value.signature == sig
    ensures c.None? ==> forall i :: 0 <= i < |chips| ==> chips[i].signature != sig
  {
    if chips == [] then None
    else if chips[0].signature == sig then Some(chips[0])
    else Lookup(chips[1..], sig)
  }

  /** The three signature bytes read by a reader from `addr`: one chunk. */
  function Signature(d: Dev, addr: Word32): (r: (nat, Outcome, Dev, Word32, seq<byte>))
    ensures |r.4| == SignatureSize
  {
    ReadChunkBounded();
    ReadBlocks(ReadChunk, d, addr, [0, 0, 0], 0)
  }

  /**
   * `findChip`: three signature bytes are read through `NewMemoryReader`,
   * which takes a single chunk for them (`SignatureOneChunk`), and matched
   * against the supported chips.
   */
  function Identify(d: Dev, chip: Option<ChipProperties>): (r: (Result<ChipProperties>, Dev))
    ensures r.0.Ok? ==> r.0.value in SupportedChips
    ensures Extends(d.log, r.1.log)
  {
    var got := ReadChunk(d, ReaderStart(chip, SignatureAddr), SignatureSize);
    ReadChunkExtends(d, ReaderStart(chip, SignatureAddr), SignatureSize);
    if got.0.Err? then (Err(got.0.error), got.1)
    else
      var found := Lookup(SupportedChips, got.0.value);
      if found.None? then (Err(UnsupportedChip), got.1) else (Ok(found.value), got.1)
  }

  /** The three signature bytes take one chunk: the reader's result is that chunk's. */
  lemma SignatureOneChunk(d: Dev, addr: Word32)
    ensures var s := Signature(d, addr);
      var got := ReadChunk(d, addr, SignatureSize);
      && (got.0.Err? ==> s.1 == Fail(got.0.error) && s.2 == got.1)
      && (got.0.Ok? ==> s.1 == Pass && s.2 == got.1 && s.4 == got.0.value)
  {
    ReadChunkBounded();
    var buf: seq<byte> := [0, 0, 0];
    ReadBlocksStep(ReadChunk, d, addr, buf, 0);
    var got := ReadChunk(d, addr, SignatureSize);
    if got.0.Ok? {
      assert Overlay(buf, 0, got.0.value) == got.0.value;
    }
  }

  /**
   * With no chip known yet, `findChip` makes exactly one read command, for
   * the three bytes at the signature address; a chip it reports has the
   * signature the device delivered.
   */
  lemma IdentifyReadsSignature(d: Dev)
    ensures var r := Identify(d, None);
      r.0.Ok? ==>
        && r.1.log == d.log + [Sent(CmdReadMem, ReadInfo(SignatureAddr, SignatureSize)), StatusQuery,
                               ControlIn(XmegaProgram, CmdGetRamBuf.Code(), SignatureSize)]
        && r.0.value.signature == Reply(d, 2).data
  {
    var sent := Issue(d, CmdReadMem, ReadInfo(SignatureAddr, SignatureSize), true);
    var got := ReadChunk(d, SignatureAddr, SignatureSize);
    if got.0.Ok? {
      IssuePassed(d, CmdReadMem, ReadInfo(SignatureAddr, SignatureSize));
      assert Next(sent.1) == Reply(d, 2);
    }
  }

  /** `b` is `a` followed by more transfers, the last of which is not a close. */
  predicate Extends(a: seq<Transfer>, b: seq<Transfer>)
  {
    |a| < |b| && b[..|a|] == a && b[|b| - 1] != Close
  }

  lemma IssueExtends(d: Dev, cmd: Command, data: seq<byte>, check: bool)
    ensures Extends(d.log, Issue(d, cmd, data, check).1.log)
  {
    var r := Issue(d, cmd, data, check);
    assert r.1.log[..|d.log|] == d.log;
  }

  /** A chunk read adds commands and reads to the transcript, never a close. */
  lemma ReadChunkExtends(d: Dev, addr: Word32, len: nat)
    ensures Extends(d.log, ReadChunk(d, addr, len).1.log)
  {
    var sent := Issue(d, CmdReadMem, ReadInfo(addr, len), true);
    IssueExtends(d, CmdReadMem, ReadInfo(addr, len), true);
    if sent.0.Pass? {
      var l := sent.1.log + [ControlIn(XmegaProgram, CmdGetRamBuf.Code(), len)];
      assert l[..|sent.1.log|] == sent.1.log;
      PrefixTrans(d.log, sent.1.log, l);
    }
  }

  lemma PrefixTrans(a: seq<Transfer>, b: seq<Transfer>, c: seq<Transfer>)
    requires |a| <= |b| <= |c| && b[..|a|] == a && c[..|b|] == b
    ensures c[..|a|] == a
  {
    assert c[..|b|][..|a|] == c[..|a|];
  }

  /**
   * `NewProgrammerDeps`: the timeout of 1000 ticks is set first, programming
   * mode entered, and the chip identified. The device ends up closed exactly
   * when the first two went through and the chip could not be identified,
   * and then only after leaving programming mode.
   */
  function Open(d: Dev): (r: (Result<ChipProperties>, Dev))
    ensures r.0.Ok? ==> r.0.value in SupportedChips
    ensures |r.1.log| > |d.log| && r.1.log[..|d.log| + 1] == d.log + [Sent(CmdSetParam, TimeoutParam(StartTicks))]
    ensures var t := ProgramTimeout(d, StartTicks);
      EndsWith(r.1.log, Close) <==> t.0.Pass? && EnterPdi(t.1).0.Pass? && r.0.Err?
    ensures EndsWith(r.1.log, Close) ==> EndsWith(Commands(r.1.log), Sent(CmdLeaveProgmode, []))
  {
    var t := ProgramTimeout(d, StartTicks);
    var first := d.log + [Sent(CmdSetParam, TimeoutParam(StartTicks))];
    assert t.1.log[..|first|] == first;
    IssueExtends(d, CmdSetParam, TimeoutParam(StartTicks), true);
    if t.0.Fail? then (Err(t.0.error), t.1)
    else
      var r := Opened(t.1);
      PrefixTrans(first, t.1.log, r.1.log);
      r
  }

  /** The rest of opening once the timeout is set: programming mode, then `Identified`. */
  function Opened(d: Dev): (r: (Result<ChipProperties>, Dev))
    ensures r.0.Ok? ==> r.0.value in SupportedChips
    ensures |r.1.log| > |d.log| && r.1.log[..|d.log|] == d.log
    ensures EndsWith(r.1.log, Close) <==> EnterPdi(d).0.Pass? && r.0.Err?
    ensures EndsWith(r.1.log, Close) ==> EndsWith(Commands(r.1.log), Sent(CmdLeaveProgmode, []))
  {
    var e := EnterPdi(d);
    IssueExtends(d, CmdEnterProgmode, [], true);
    if e.0.Fail? then (Err(e.0.error), e.1)
    else
      var r := Identified(e.1);
      PrefixTrans(d.log, e.1.log, r.1.log);
      r
  }

  /** The last step of opening: the chip is identified, or the programmer closed. */
  function Identified(d: Dev): (r: (Result<ChipProperties>, Dev))
    ensures r.0.Ok? ==> r.0.value in SupportedChips
    ensures |r.1.log| > |d.log| && r.1.log[..|d.log|] == d.log
    ensures EndsWith(r.1.log, Close) <==> r.0.Err?
    ensures r.0.Err? ==> EndsWith(Commands(r.1.log), Sent(CmdLeaveProgmode, []))
  {
    var c := Identify(d, None);
    if c.0.Err? then
      var s := Shutdown(c.1, true).1;
      PrefixTrans(d.log, c.1.log, s.log);
      (Err(c.0.error), s)
    else c
  }

  // ---------------------------------------------------------------------------
  // The programmer, its memory reader and writer
  // ---------------------------------------------------------------------------

  class Programmer {
    const dev: Device
    /** `dev != nil`: `Close` clears it. */
    var open: bool
    var chip: Option<ChipProperties>

    /** `&Programmer{dev, nil}`. */
    constructor (dev: Device)
      ensures this.dev == dev && open && chip.None?
    {
      this.dev, open, chip := dev, true, None;
    }

    method DoRead(cmd: Command, len: nat) returns (r: Result<seq<byte>>)
      requires open
      modifies dev
      ensures (r, dev.State()) == Query(old(dev.State()), cmd, len)
    {
      r := dev.ControlIn(XmegaProgram, cmd.Code(), len);
    }

    method CheckStatusOk() returns (o: Outcome)
      requires open
      modifies dev
      ensures (o, dev.State()) == StatusOk(old(dev.State()))
    {
      var status := DoRead(CmdGetStatus, 3);
      if status.Err? {
        return Fail(status.error);
      }
      if status.value[1] != 0 {
        return Fail(StatusError);
      }
      o := Pass;
    }

    method DoWrite(cmd: Command, data: seq<byte>, checkStatus: bool) returns (o: Outcome)
      requires open
      modifies dev
      ensures (o, dev.State()) == Issue(old(dev.State()), cmd, data, checkStatus)
    {
      o := dev.ControlOut(XmegaProgram, cmd.Code(), data);
      if o.Fail? || !checkStatus {
        return;
      }
      o := CheckStatusOk();
    }

    method SetTimeout(ticks: Word32) returns (o: Outcome)
      requires open
      modifies dev
      ensures (o, dev.State()) == ProgramTimeout(old(dev.State()), ticks)
    {
      o := DoWrite(CmdSetParam, TimeoutParam(ticks), true);
    }

    method EnablePdi() returns (o: Outcome)
      requires open
      modifies dev
      ensures (o, dev.State()) == EnterPdi(old(dev.State()))
    {
      o := DoWrite(CmdEnterProgmode, [], true);
    }

    method DisablePdi() returns (o: Outcome)
      requires open
      modifies dev
      ensures (o, dev.State()) == LeavePdi(old(dev.State()))
    {
      o := DoWrite(CmdLeaveProgmode, [], true);
    }

    method EraseChip() returns (o: Outcome)
      requires open
      modifies dev
      ensures (o, dev.State()) == EraseWith(old(dev.State()), EraseChipKind)
    {
      o := DoWrite(CmdErase, EraseBlock(EraseChipKind), true);
    }

    method EraseApp() returns (o: Outcome)
      requires open
      modifies dev
      ensures (o, dev.State()) == EraseWith(old(dev.State()), EraseAppKind)
    {
      o := DoWrite(CmdErase, EraseBlock(EraseAppKind), true);
    }

    method Erase() returns (o: Outcome)
      requires open
      modifies dev
      ensures (o, dev.State()) == EraseFlow(old(dev.State()))
    {
      o := EraseChip();
      if o.Fail? {
        var _ := DisablePdi();
        var _ := EnablePdi();
        o := EraseApp();
      }
    }

    /** Afterwards the device is closed, so a second `Close` does nothing and succeeds. */
    method Close() returns (o: Outcome)
      modifies this, dev
      ensures !open && chip == old(chip)
      ensures (o, dev.State()) == Shutdown(old(dev.State()), old(open))
    {
      o := Pass;
      if open {
        o := DisablePdi();
        dev.Close();
        open := false;
      }
    }

    method FindChip() returns (r: Result<ChipProperties>)
      requires open
      modifies dev
      ensures (r, dev.State()) == Identify(old(dev.State()), chip)
    {
      var rd := NewMemoryReader(SignatureAddr);
      var sig := new byte[SignatureSize](_ => 0);
      assert sig[..] == [0, 0, 0];
      ghost var d0 := dev.State();
      SignatureOneChunk(d0, ReaderStart(chip, SignatureAddr));
      var _, o := rd.Read(sig);
      if o.Fail? {
        return Err(o.error);
      }
      var found := Lookup(SupportedChips, sig[..]);
      if found.None? {
        return Err(UnsupportedChip);
      }
      r := Ok(found.value);
    }

    static method NewProgrammerDeps(dev: Device) returns (r: Result<Programmer>)
      modifies dev
      ensures var f := Open(old(dev.State()));
        && dev.State() == f.1
        && (r.Ok? <==> f.0.Ok?)
        && (r.Err? ==> r.error == f.0.error)
        && (r.Ok? ==> fresh(r.value) && r.value.dev == dev && r.value.open && r.value.chip == Some(f.0.value))
    {
      var p := new Programmer(dev);
      var o := p.SetTimeout(StartTicks);
      if o.Fail? {
        return Err(o.error);
      }
      var c := p.EnterAndIdentify();
      if c.Err? {
        return Err(c.error);
      }
      return Ok(p);
    }

    /** `NewProgrammerDeps` once the timeout is set: `Opened`. */
    method EnterAndIdentify() returns (r: Result<ChipProperties>)
      requires open && chip.None?
      modifies this, dev
      ensures (r, dev.State()) == Opened(old(dev.State()))
      ensures r.Ok? ==> open && chip == Some(r.value)
    {
      var o := EnablePdi();
      if o.Fail? {
        return Err(o.error);
      }
      r := IdentifyOrClose();
    }

    /** `Identified`: the chip found and kept, or the programmer closed. */
    method IdentifyOrClose() returns (r: Result<ChipProperties>)
      requires open && chip.None?
      modifies this, dev
      ensures (r, dev.State()) == Identified(old(dev.State()))
      ensures r.Ok? ==> open && chip == Some(r.value)
    {
      var c := FindChip();
      if c.Err? {
        var _ := Close();
        return Err(c.error);
      }
      chip := Some(c.value);
      return Ok(c.value);
    }

    /** A writer over the known chip's flash, whatever `addr` says. */
    method NewMemoryWriter(addr: Word32) returns (w: MemWriter)
      requires chip.Some?
      ensures fresh(w) && w.prog == this && w.memType == chip.value.flash.memType
      ensures w.addr == chip.value.flash.offset && w.maxAddr == Add32(chip.value.flash.offset, chip.value.flash.size)
    {
      var region := chip.value.flash;
      w := new MemWriter(this, region.memType, region.offset, Add32(region.offset, region.size));
    }

    /** A reader from `addr`, or from the flash once a chip is known. */
    method NewMemoryReader(addr: Word32) returns (rd: MemReader)
      ensures fresh(rd) && rd.prog == this
      ensures rd.addr == ReaderStart(chip, addr)
      ensures chip.Some? ==> rd.addr == chip.value.flash.offset
    {
      var start := addr;
      if chip.Some? {
        start := chip.value.flash.offset;
      }
      rd := new MemReader(this, start);
    }
  }

  /** `memWriter`: writes from `addr` up to `maxAddr`, 64 bytes per chunk. */
  class MemWriter {
    const prog: Programmer
    const memType: byte
    var addr: Word32
    const maxAddr: Word32

    constructor (prog: Programmer, memType: byte, addr: Word32, maxAddr: Word32)
      ensures this.prog == prog && this.memType == memType && this.addr == addr && this.maxAddr == maxAddr
    {
      this.prog, this.memType, this.addr, this.maxAddr := prog, memType, addr, maxAddr;
    }

    method Write(p: seq<byte>) returns (n: nat, o: Outcome)
      requires prog.open
      modifies this, prog.dev
      ensures (n, o, prog.dev.State(), addr) == WriteChunks(Staging(memType), old(prog.dev.State()), old(addr), maxAddr, p, 0)
    {
      ghost var goal := WriteChunks(Staging(memType), prog.dev.State(), addr, maxAddr, p, 0);
      n := 0;
      while n < |p|
        invariant n <= |p|
        invariant WriteChunks(Staging(memType), prog.dev.State(), addr, maxAddr, p, n) == goal
        decreases |p| - n
      {
        var e;
        o, e := WriteOne(p, n);
        if o.Fail? {
          return;
        }
        n := e;
      }
      o := Pass;
    }

    /** One pass of `Write`'s loop: the bound check, then the chunk of `p` from `n` written at `addr`. */
    method WriteOne(p: seq<byte>, n: nat) returns (o: Outcome, e: nat)
      requires n < |p| && prog.open
      modifies this, prog.dev
      ensures e == BlockEnd(|p|, n)
      ensures var s := WriteChunks(Staging(memType), old(prog.dev.State()), old(addr), maxAddr, p, n);
        o.Fail? ==> (n, o, prog.dev.State(), addr) == s
      ensures var s := WriteChunks(Staging(memType), old(prog.dev.State()), old(addr), maxAddr, p, n);
        o.Pass? ==> WriteChunks(Staging(memType), prog.dev.State(), addr, maxAddr, p, e) == s
    {
      e := BlockEnd(|p|, n);
      WriteChunksStep(Staging(memType), prog.dev.State(), addr, maxAddr, p, n);
      if Add32(addr, e - n) > maxAddr {
        return Fail(ShortWrite), e;
      }
      o := prog.DoWrite(CmdSetRamBuf, p[n..e], false);
      if o.Fail? {
        return;
      }
      o := prog.DoWrite(CmdWriteMem, WriteInfo(memType, addr, e - n), true);
      if o.Fail? {
        return;
      }
      addr := Add32(addr, e - n);
    }
  }

  /** `ReadBlocks` over the chunk reader stops at a chunk that fails. */
  lemma ReadOneFails(d: Dev, addr: Word32, buf: seq<byte>, n: nat)
    requires n < |buf| && ReadChunk(d, addr, BlockEnd(|buf|, n) - n).0.Err?
    ensures (ReadChunkBounded(); var c := ReadChunk(d, addr, BlockEnd(|buf|, n) - n);
      ReadBlocks(ReadChunk, d, addr, buf, n) == (n, Fail(c.0.error), c.1, addr, buf))
  {
    ReadChunkBounded();
    ReadBlocksStep(ReadChunk, d, addr, buf, n);
  }

  /** `ReadBlocks` over the chunk reader goes on after a chunk that succeeds. */
  lemma ReadOnePasses(d: Dev, addr: Word32, buf: seq<byte>, n: nat)
    requires n < |buf| && ReadChunk(d, addr, BlockEnd(|buf|, n) - n).0.Ok?
    ensures (ReadChunkBounded(); var e := BlockEnd(|buf|, n); var c := ReadChunk(d, addr, e - n);
      ReadBlocks(ReadChunk, d, addr, buf, n) == ReadBlocks(ReadChunk, c.1, Add32(addr, e - n), Overlay(buf, n, c.0.value), e))
  {
    ReadChunkBounded();
    ReadBlocksStep(ReadChunk, d, addr, buf, n);
  }

  /** `memReader`: reads from `addr` on, 64 bytes per chunk. */
  class MemReader {
    const prog: Programmer
    var addr: Word32

    constructor (prog: Programmer, addr: Word32)
      ensures this.prog == prog && this.addr == addr
    {
      this.prog, this.addr := prog, addr;
    }

    method Read(p: array<byte>) returns (n: nat, o: Outcome)
      requires prog.open
      modifies this, prog.dev, p
      ensures (n, o, prog.dev.State(), addr, p[..]) == ReadBlocks(ReadChunk, old(prog.dev.State()), old(addr), old(p[..]), 0)
    {
      ReadChunkBounded();
      ghost var goal := ReadBlocks(ReadChunk, prog.dev.State(), addr, p[..], 0);
      n := 0;
      while n < p.Length
        invariant n <= p.Length
        invariant ReadBlocks(ReadChunk, prog.dev.State(), addr, p[..], n) == goal
        decreases p.Length - n
      {
        var e;
        o, e := ReadOne(p, n);
        if o.Fail? {
          return;
        }
        n := e;
      }
      o := Pass;
    }

    /** One pass of `Read`'s loop: one chunk read into `p` at `n`. */
    method ReadOne(p: array<byte>, n: nat) returns (o: Outcome, e: nat)
      requires n < p.Length && prog.open
      modifies this, prog.dev, p
      ensures e == BlockEnd(p.Length, n)
      ensures var s := ReadBlocks(ReadChunk, old(prog.dev.State()), old(addr), old(p[..]), n);
        o.Fail? ==> (n, o, prog.dev.State(), addr, p[..]) == s
      ensures var s := ReadBlocks(ReadChunk, old(prog.dev.State()), old(addr), old(p[..]), n);
        o.Pass? ==> ReadBlocks(ReadChunk, prog.dev.State(), addr, p[..], e) == s
    {
      ghost var d0, a0, b0 := prog.dev.State(), addr, p[..];
      o, e := ReadChunkAt(p, n);
      if o.Fail? {
        ReadOneFails(d0, a0, b0, n);
      } else {
        ReadOnePasses(d0, a0, b0, n);
      }
    }

    /** The chunk from `n` read at `addr` and stored into `p`. */
    method ReadChunkAt(p: array<byte>, n: nat) returns (o: Outcome, e: nat)
      requires n < p.Length && prog.open
      modifies this, prog.dev, p
      ensures e == BlockEnd(p.Length, n) && n < e <= p.Length
      ensures var c := ReadChunk(old(prog.dev.State()), old(addr), e - n);
        && (o.Pass? <==> c.0.Ok?) && prog.dev.State() == c.1
        && (o.Fail? ==> o == Fail(c.0.error) && addr == old(addr) && p[..] == old(p[..]))
        && (o.Pass? ==> addr == Add32(old(addr), e - n) && p[..] == Overlay(old(p[..]), n, c.0.value))
    {
      e := BlockEnd(p.Length, n);
      ReadChunkBounded();
      ghost var chunk := ReadChunk(prog.dev.State(), addr, e - n);
      o := prog.DoWrite(CmdReadMem, ReadInfo(addr, e - n), true);
      if o.Fail? {
        return;
      }
      var got := prog.DoRead(CmdGetRamBuf, e - n);
      assert chunk == (got, prog.dev.State());
      if got.Err? {
        return Fail(got.error), e;
      }
      Place(p, n, got.value);
      addr := Add32(addr, e - n);
      o := Pass;
    }
  }
}
