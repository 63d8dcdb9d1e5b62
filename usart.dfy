/**
 * The capture board's serial line to the target (usart.go): configuration
 * and data move over vendor control transfers on the USB device, at most 58
 * bytes at a time on the way out, and reads poll the board's count of
 * waiting bytes.
 *
 * `Read`'s deadline is a timer goroutine in the source; here it is a number
 * of polls, the loop iterations that start before the timer fires.
 * `time.Duration` values are nanosecond counts.
 */
module Usart {
  import opened Base
  import opened Bytes
  import opened Usb

  /** `command`: the value field of a `ReqUsart0Config` transfer. */
  const CmdInit: u16 := 0x10
  const CmdEnable: u16 := 0x11
  const CmdDisable: u16 := 0x12
  const CmdNumWait: u16 := 0x14

  /** Largest data transfer `Write` makes. */
  const ChunkSize: nat := 58

  /** `defaultTimeout`: 750 ms. */
  const DefaultTimeout: int := 750_000_000

  /** `UsartConfig`, laid out the way `cmdInit` expects it. */
  datatype Config = Config(baudRate: u32, stopBits: byte, parity: byte, dataBits: byte)

  /** `defaultProperties`: 38400 baud, one stop bit, no parity, 8 data bits. */
  const DefaultConfig := Config(38400, 0, 0, 8)

  /** `binary.Write` of a `UsartConfig`: the baud rate little-endian, then the three bytes. */
  function ConfigBytes(c: Config): (b: seq<byte>)
    ensures |b| == 7
  {
    Le32(c.baudRate) + [c.stopBits, c.parity, c.dataBits]
  }

  /** What the board reads back out of seven configuration bytes. */
  function DecodeConfig(b: seq<byte>): Config
    requires |b| == 7
  {
    Config(LeWord32(b[..4]), b[4], b[5], b[6])
  }

  lemma ConfigRoundTrip(c: Config)
    ensures DecodeConfig(ConfigBytes(c)) == c
  {
    var b := ConfigBytes(c);
    assert b[..4] == Le32(c.baudRate);
    Le32RoundTrip(b[..4]);
  }

  /** The configuration `NewUsart` uses: the caller's, or the defaults for nil. */
  function ConfigOf(conf: Option<Config>): Config
  {
    if conf.Some? then conf.value else DefaultConfig
  }

  /** The transfer `inWaiting` makes. */
  const NumWaitQuery := ControlIn(Usart0Config, CmdNumWait, 4)

  /** The `uint32` four bytes hold in little-endian order, as an `int`. */
  function Count(b: seq<byte>): nat
    requires |b| == 4
  {
    b[0] as nat + 0x100 * b[1] as nat + 0x1_0000 * b[2] as nat + 0x100_0000 * b[3] as nat
  }

  /** `inWaiting`: the board's count of received bytes. */
  function Waiting(d: Dev): (r: (Result<nat>, Dev))
    ensures r.1 == Answer(d, NumWaitQuery)
    ensures r.0.Ok? <==> Next(d).Deliver? && |Next(d).data| == 4
    ensures r.0.Ok? ==> r.0.value == Count(Next(d).data)
  {
    var (got, d1) := CtrlIn(d, Usart0Config, CmdNumWait, 4);
    if got.Err? then (Err(got.error), d1) else (Ok(Count(got.value)), d1)
  }

  /** `NewUsart`'s two transfers: `cmdInit` with the configuration, then `cmdEnable` with no data. */
  function Open(d: Dev, conf: Option<Config>): (Outcome, Dev)
  {
    var (init, d1) := CtrlOut(d, Usart0Config, CmdInit, ConfigBytes(ConfigOf(conf)));
    if init.Fail? then (init, d1)
    else CtrlOut(d1, Usart0Config, CmdEnable, [])
  }

  /** The `dataWrite` transfers of a list of chunks, in order. */
  function DataWrites(cs: seq<seq<byte>>): (ts: seq<Transfer>)
    ensures |ts| == |cs|
  {
    if cs == [] then [] else [ControlOut(Usart0Data, 0, cs[0])] + DataWrites(cs[1..])
  }

  function Min(a: nat, b: nat): nat
  {
    if a < b then a else b
  }

  /** Where the piece `Write` sends from offset `n` ends: 58 bytes on, or the end of `p`. */
  function PieceEnd(p: seq<byte>, n: nat): (e: nat)
    requires n < |p|
    ensures n < e <= |p|
  {
    n + Min(|p| - n, ChunkSize)
  }

  /**
   * `Write` from offset `n` on: the count of bytes sent before it stopped,
   * the outcome, and the device afterwards.
   */
  function WriteFrom(d: Dev, p: seq<byte>, n: nat): (nat, Outcome, Dev)
    requires n <= |p|
    decreases |p| - n
  {
    if n == |p| then (n, Pass, d)
    else
      var e := PieceEnd(p, n);
      var (o, d1) := CtrlOut(d, Usart0Data, 0, p[n..e]);
      if o.Fail? then (n, o, d1) else WriteFrom(d1, p, e)
  }

  /** The transfer of the piece of `p` that `Write` sends from offset `n`. */
  function Piece(p: seq<byte>, n: nat): Transfer
    requires n < |p|
  {
    ControlOut(Usart0Data, 0, p[n..PieceEnd(p, n)])
  }

  /** The transfers of the pieces from offset `n` on that start before `m`. */
  function Pieces(p: seq<byte>, n: nat, m: nat): (ts: seq<Transfer>)
    requires n <= |p| && m <= |p|
    decreases m - n
  {
    if m <= n then [] else [Piece(p, n)] + Pieces(p, PieceEnd(p, n), m)
  }

  /**
   * A successful write sent the pieces of `p[n..]` in order, one transfer
   * each, and reports every byte.
   */
  lemma {:induction false} WriteSendsChunks(d: Dev, p: seq<byte>, n: nat)
    requires n <= |p|
    ensures var r := WriteFrom(d, p, n);
      r.1.Pass? ==> r.0 == |p| && r.2.log == d.log + Pieces(p, n, |p|)
    decreases |p| - n
  {
    if n < |p| {
      var sent := CtrlOut(d, Usart0Data, 0, p[n..PieceEnd(p, n)]);
      if sent.0.Pass? {
        WriteSendsChunks(sent.1, p, PieceEnd(p, n));
      }
    }
  }

  /**
   * A failed write reports fewer bytes than `p` holds; the transfers are
   * the pieces before that offset and then the piece that failed.
   */
  lemma {:induction false} WriteStopsAtFailure(d: Dev, p: seq<byte>, n: nat)
    requires n <= |p|
    ensures var r := WriteFrom(d, p, n);
      r.1.Fail? ==> n <= r.0 < |p| && r.2.log == d.log + Pieces(p, n, r.0) + [Piece(p, r.0)]
    decreases |p| - n
  {
    if n < |p| {
      var sent := CtrlOut(d, Usart0Data, 0, p[n..PieceEnd(p, n)]);
      if sent.0.Pass? {
        WriteStopsAtFailure(sent.1, p, PieceEnd(p, n));
        var r := WriteFrom(sent.1, p, PieceEnd(p, n));
        if r.1.Fail? {
          assert Pieces(p, n, r.0) == [Piece(p, n)] + Pieces(p, PieceEnd(p, n), r.0);
        }
      }
    }
  }

  /** A write fails only at the start of a piece: the bytes it reports are whole pieces. */
  lemma {:induction false} WriteFailsOnBoundary(d: Dev, p: seq<byte>, n: nat)
    requires n <= |p|
    ensures var r := WriteFrom(d, p, n);
      r.1.Fail? ==> (r.0 - n) % ChunkSize == 0
    decreases |p| - n
  {
    if n < |p| {
      var sent := CtrlOut(d, Usart0Data, 0, p[n..PieceEnd(p, n)]);
      if sent.0.Pass? {
        WriteFailsOnBoundary(sent.1, p, PieceEnd(p, n));
      }
    }
  }

  /** The pieces from `n` to `m` are the 58-byte chunks of `p[n..m]`. */
  lemma {:induction false} PiecesAreChunks(p: seq<byte>, n: nat, m: nat)
    requires n <= m <= |p|
    requires (m - n) % ChunkSize == 0 || m == |p|
    ensures Pieces(p, n, m) == DataWrites(Chunks(p[n..m], ChunkSize))
    decreases m - n
  {
    var s := p[n..m];
    if m - n <= ChunkSize {
      if n < m {
        assert PieceEnd(p, n) == m;
        assert Chunks(s, ChunkSize) == [s];
        assert Pieces(p, m, m) == [];
      }
    } else {
      var e := PieceEnd(p, n);
      assert e == n + ChunkSize;
      PiecesAreChunks(p, e, m);
      assert s[..ChunkSize] == p[n..e];
      assert s[ChunkSize..] == p[e..m];
      var cs := Chunks(s, ChunkSize);
      assert cs == [s[..ChunkSize]] + Chunks(s[ChunkSize..], ChunkSize);
      assert cs[1..] == Chunks(s[ChunkSize..], ChunkSize);
    }
  }

  /** Whatever happens, the reported count lies between the start and the end of `p`. */
  lemma {:induction false} WriteCountBounded(d: Dev, p: seq<byte>, n: nat)
    requires n <= |p|
    ensures n <= WriteFrom(d, p, n).0 <= |p|
    decreases |p| - n
  {
    if n < |p| {
      var sent := CtrlOut(d, Usart0Data, 0, p[n..PieceEnd(p, n)]);
      if sent.0.Pass? {
        WriteCountBounded(sent.1, p, PieceEnd(p, n));
      }
    }
  }

  /** The transfer `dataRead` makes for `len` bytes. */
  function DataRead(len: nat): Transfer
  {
    ControlIn(Usart0Data, 0, len)
  }

  /** What one iteration of `Read`'s loop comes to. */
  datatype Poll = PollFailed(error: Error) | Idle | Received(data: seq<byte>)

  /**
   * One iteration with room for `room` more bytes: ask how many bytes are
   * waiting, clamp that to the room, and read them, unless there are none.
   */
  function PollOnce(d: Dev, room: nat): (r: (Poll, Dev))
    ensures r.0.Received? ==> 0 < |r.0.data| <= room
    ensures r.0.Idle? ==> r.1 == Answer(d, NumWaitQuery)
  {
    var waiting := Waiting(d);
    if waiting.0.Err? then (PollFailed(waiting.0.error), waiting.1)
    else
      var toRead := Min(waiting.0.value, room);
      if toRead == 0 then (Idle, waiting.1)
      else
        var data := CtrlIn(waiting.1, Usart0Data, 0, toRead);
        if data.0.Err? then (PollFailed(data.0.error), data.1)
        else (Received(data.0.value), data.1)
  }

  /** Where a read stands: the device, the bytes received, and how it ended, once it has. */
  datatype Reading = Reading(dev: Dev, got: seq<byte>, ended: Option<Outcome>)

  /** What one poll adds to the bytes received so far, and whether the read ends with it. */
  function Advance(len: nat, got: seq<byte>, step: Poll): (r: (seq<byte>, Option<Outcome>))
    requires step.Received? ==> |got| + |step.data| <= len
  {
    match step
    case PollFailed(e) => (got, Some(Fail(e)))
    case Idle => (got, None)
    case Received(data) => (got + data, if |got| + |data| == len then Some(Pass) else None)
  }

  /** One iteration of `Read`'s loop into a buffer of `len` bytes. */
  function ReadStep(len: nat, s: Reading): (r: Reading)
    requires |s.got| <= len
    ensures |r.got| <= len
  {
    var step := PollOnce(s.dev, len - |s.got|);
    var next := Advance(len, s.got, step.0);
    Reading(step.1, next.0, next.1)
  }

  /** `Read`'s loop with `polls` iterations left before the deadline. */
  function ReadLoop(len: nat, s: Reading, polls: nat): (r: Reading)
    requires |s.got| <= len
    ensures |r.got| <= len
    decreases polls
  {
    if polls == 0 || s.ended.Some? then s else ReadLoop(len, ReadStep(len, s), polls - 1)
  }

  /** Bytes once received stay at the front of the buffer, whatever happens next. */
  lemma {:induction false} ReadKeepsPrefix(len: nat, s: Reading, polls: nat)
    requires |s.got| <= len
    ensures var e := ReadLoop(len, s, polls);
      |s.got| <= |e.got| && e.got[..|s.got|] == s.got
    decreases polls
  {
    if polls > 0 && s.ended.None? {
      var s1 := ReadStep(len, s);
      ReadKeepsPrefix(len, s1, polls - 1);
      var e := ReadLoop(len, s1, polls - 1);
      assert s1.got[..|s.got|] == s.got;
      assert e.got[..|s.got|] == e.got[..|s1.got|][..|s.got|];
    }
  }

  /**
   * A read that ends without error has filled the buffer; one the deadline
   * ends is still short of it, unless the buffer is empty.
   */
  lemma {:induction false} ReadEndsFull(len: nat, s: Reading, polls: nat)
    requires |s.got| <= len && s.ended.None?
    ensures var e := ReadLoop(len, s, polls);
      (e.ended == Some(Pass) ==> |e.got| == len) &&
      (|s.got| < len && e.ended.None? ==> |e.got| < len)
    decreases polls
  {
    if polls > 0 {
      var s1 := ReadStep(len, s);
      if s1.ended.None? {
        ReadEndsFull(len, s1, polls - 1);
      }
    }
  }

  /** A read the deadline ends made at least one transfer in every poll it had. */
  lemma {:induction false} ReadShortMeansDeadline(len: nat, s: Reading, polls: nat)
    requires |s.got| <= len && s.ended.None?
    ensures var e := ReadLoop(len, s, polls);
      e.ended.None? ==> |e.dev.log| >= |s.dev.log| + polls
    decreases polls
  {
    if polls > 0 {
      var s1 := ReadStep(len, s);
      if s1.ended.None? {
        ReadShortMeansDeadline(len, s1, polls - 1);
      }
    }
  }

  /** When nothing is waiting a poll is spent and nothing is read. */
  lemma ReadIdles(len: nat, s: Reading, polls: nat)
    requires |s.got| <= len && s.ended.None? && polls > 0
    requires Next(s.dev) == Deliver([0, 0, 0, 0])
    ensures ReadLoop(len, s, polls) == ReadLoop(len, Reading(Answer(s.dev, NumWaitQuery), s.got, None), polls - 1)
  {
  }

  /**
   * A read into `|data|` bytes that finds `|data|` bytes waiting and is
   * handed them returns exactly those bytes after two transfers.
   */
  lemma ReadWaiting(d: Dev, data: seq<byte>, polls: nat)
    requires 0 < |data| && polls > 0 && |d.script| >= 2
    requires d.script[0].Deliver? && |d.script[0].data| == 4 && Count(d.script[0].data) == |data|
    requires d.script[1] == Deliver(data)
    ensures ReadLoop(|data|, Reading(d, [], None), polls) ==
      Reading(Dev(d.log + [NumWaitQuery, DataRead(|data|)], d.script[2..]), data, Some(Pass))
  {
    var d1 := Answer(d, NumWaitQuery);
    assert d1.script == d.script[1..];
    assert Waiting(d) == (Ok(|data|), d1);
    var d2 := Answer(d1, DataRead(|data|));
    assert d2 == Dev(d.log + [NumWaitQuery, DataRead(|data|)], d.script[2..]);
    assert CtrlIn(d1, Usart0Data, 0, |data|) == (Ok(data), d2);
    assert PollOnce(d, |data|) == (Received(data), d2);
    assert [] + data == data;
    assert Advance(|data|, [], Received(data)) == (data, Some(Pass));
    var s1 := ReadStep(|data|, Reading(d, [], None));
    assert s1 == Reading(d2, data, Some(Pass));
    assert ReadLoop(|data|, Reading(d, [], None), polls) == ReadLoop(|data|, s1, polls - 1);
  }

  /** `Flush`: read and discard until the board reports nothing waiting. */
  function FlushAll(d: Dev): (Outcome, Dev)
    decreases |d.script|
  {
    var (waiting, d1) := Waiting(d);
    if waiting.Err? then (Fail(waiting.error), d1)
    else if waiting.value == 0 then (Pass, d1)
    else
      var (data, d2) := CtrlIn(d1, Usart0Data, 0, waiting.value);
      if data.Err? then (Fail(data.error), d2) else FlushAll(d2)
  }

  /** A reply that reports no bytes waiting. */
  predicate ReportsEmpty(r: Reply)
  {
    r.Deliver? && |r.data| == 4 && Count(r.data) == 0
  }

  /**
   * A successful `Flush` consumed some replies, the last of which reported
   * nothing waiting.
   */
  lemma {:induction false} FlushEndsEmpty(d: Dev)
    ensures var (o, d') := FlushAll(d);
      o.Pass? ==> var k := |d.script| - |d'.script|;
        1 <= k <= |d.script| && d'.script == d.script[k..] && ReportsEmpty(d.script[k - 1])
    decreases |d.script|
  {
    var (waiting, d1) := Waiting(d);
    if waiting.Ok? && waiting.value != 0 {
      var (data, d2) := CtrlIn(d1, Usart0Data, 0, waiting.value);
      if data.Ok? {
        FlushEndsEmpty(d2);
        var (o, d') := FlushAll(d2);
        assert d2.script == d.script[2..];
        if o.Pass? {
          var k2 := |d2.script| - |d'.script|;
          assert d.script[k2 + 1] == d2.script[k2 - 1];
          assert d'.script == d.script[k2 + 2..];
        }
      }
    }
  }

  /** `Flush` stops at the first report of nothing waiting. */
  lemma FlushStopsOnEmpty(d: Dev)
    requires d.script != [] && ReportsEmpty(d.script[0])
    ensures FlushAll(d) == (Pass, Answer(d, NumWaitQuery))
  {
  }

  /** The serial line as `NewUsart` returns it. */
  class Usart {
    const dev: Device
    var conf: Config
    var timeout: int

    constructor (dev: Device, conf: Config)
      ensures this.dev == dev && this.conf == conf && timeout == DefaultTimeout
    {
      this.dev, this.conf, timeout := dev, conf, DefaultTimeout;
    }

    /** `NewUsart`: configure and enable the line, or report why it could not be. */
    static method NewUsart(dev: Device, conf: Option<Config>) returns (r: Result<Usart>)
      modifies dev
      ensures var (o, d) := Open(old(dev.State()), conf);
        dev.State() == d && (r.Ok? <==> o.Pass?) && (r.Err? ==> r.error == o.error)
      ensures r.Ok? ==>
                fresh(r.value) && r.value.dev == dev &&
                r.value.conf == ConfigOf(conf) && r.value.timeout == DefaultTimeout
    {
      var c := ConfigOf(conf);
      var o := dev.ControlOut(Usart0Config, CmdInit, ConfigBytes(c));
      if o.Fail? {
        return Err(o.error);
      }
      o := dev.ControlOut(Usart0Config, CmdEnable, []);
      if o.Fail? {
        return Err(o.error);
      }
      var u := new Usart(dev, c);
      r := Ok(u);
    }

    method InWaiting() returns (r: Result<nat>)
      modifies dev
      ensures (r, dev.State()) == Waiting(old(dev.State()))
    {
      var got := dev.ControlIn(Usart0Config, CmdNumWait, 4);
      r := if got.Err? then Err(got.error) else Ok(Count(got.value));
    }

    /** `Write`: `p` in chunks of at most 58 bytes. */
    method Write(p: seq<byte>) returns (n: nat, o: Outcome)
      modifies dev
      ensures (n, o, dev.State()) == WriteFrom(old(dev.State()), p, 0)
    {
      ghost var goal := WriteFrom(dev.State(), p, 0);
      n := 0;
      while n < |p|
        invariant n <= |p|
        invariant WriteFrom(dev.State(), p, n) == goal
        decreases |p| - n
      {
        var toWrite := Min(|p| - n, ChunkSize);
        o := dev.ControlOut(Usart0Data, 0, p[n..n + toWrite]);
        if o.Fail? {
          return;
        }
        n := n + toWrite;
      }
      o := Pass;
    }

    /** One iteration of `Read`'s loop. */
    method Poll(room: nat) returns (step: Poll)
      modifies dev
      ensures (step, dev.State()) == PollOnce(old(dev.State()), room)
    {
      var waiting := InWaiting();
      if waiting.Err? {
        return PollFailed(waiting.error);
      }
      var toRead := Min(waiting.value, room);
      if toRead == 0 {
        return Idle;
      }
      var data := dev.ControlIn(Usart0Data, 0, toRead);
      step := if data.Err? then PollFailed(data.error) else Received(data.value);
    }

    /**
     * `Read` into `p`, with `polls` loop iterations before the deadline: the
     * bytes received land at the front of `p` and the rest is untouched.
     */
    method Read(p: array<byte>, polls: nat) returns (n: nat, o: Outcome)
      modifies p, dev
      ensures var e := ReadLoop(p.Length, Reading(old(dev.State()), [], None), polls);
        n == |e.got| && p[..n] == e.got && p[n..] == old(p[n..]) && dev.State() == e.dev &&
        o == if e.ended.Some? then e.ended.value else Pass
    {
      var got;
      got, o := Receive(p.Length, polls);
      Place(p, 0, got);
      n := |got|;
    }

    /** `Read`'s loop, gathering what arrives for a buffer of `len` bytes. */
    method Receive(len: nat, polls: nat) returns (got: seq<byte>, o: Outcome)
      modifies dev
      ensures var e := ReadLoop(len, Reading(old(dev.State()), [], None), polls);
        got == e.got && dev.State() == e.dev && o == if e.ended.Some? then e.ended.value else Pass
    {
      ghost var goal := ReadLoop(len, Reading(dev.State(), [], None), polls);
      got := [];
      var left := polls;
      while left > 0
        invariant |got| <= len
        invariant ReadLoop(len, Reading(dev.State(), got, None), left) == goal
        decreases left
      {
        ghost var before := Reading(dev.State(), got, None);
        var ended;
        got, ended := Turn(len, got);
        assert ReadLoop(len, before, left) == ReadLoop(len, Reading(dev.State(), got, ended), left - 1);
        if ended.Some? {
          return got, ended.value;
        }
        left := left - 1;
      }
      return got, Pass;
    }

    /** One turn of `Read`'s loop. */
    method Turn(len: nat, got: seq<byte>) returns (got': seq<byte>, ended: Option<Outcome>)
      requires |got| <= len
      modifies dev
      ensures Reading(dev.State(), got', ended) == ReadStep(len, Reading(old(dev.State()), got, None))
    {
      var step := Poll(len - |got|);
      got', ended := Take(len, got, step);
    }

    /** What `Read` does with one poll's result: keep the bytes and decide whether to stop. */
    static method Take(len: nat, got: seq<byte>, step: Poll) returns (got': seq<byte>, ended: Option<Outcome>)
      requires step.Received? ==> |got| + |step.data| <= len
      ensures (got', ended) == Advance(len, got, step)
    {
      match step {
        case PollFailed(e) =>
          return got, Some(Fail(e));
        case Idle =>
          return got, None;
        case Received(data) =>
          got' := got + data;
          ended := if |got'| == len then Some(Pass) else None;
      }
    }

    /** Copies `data` into `p` at `at`, the way `binary.Read` fills `p[n:n+toRead]`. */
    static method Place(p: array<byte>, at: nat, data: seq<byte>)
      requires at + |data| <= p.Length
      modifies p
      ensures p[..at + |data|] == old(p[..at]) + data
      ensures p[at + |data|..] == old(p[at + |data|..])
    {
      var i := 0;
      while i < |data|
        invariant i <= |data|
        invariant forall k :: 0 <= k < at ==> p[k] == old(p[k])
        invariant forall k :: at <= k < at + i ==> p[k] == data[k - at]
        invariant forall k :: at + i <= k < p.Length ==> p[k] == old(p[k])
      {
        p[at + i] := data[i];
        i := i + 1;
      }
      assert p[..at + |data|] == old(p[..at]) + data;
    }

    /** `Flush`: drain whatever the board has received. */
    method Flush() returns (o: Outcome)
      modifies dev
      ensures (o, dev.State()) == FlushAll(old(dev.State()))
    {
      ghost var goal := FlushAll(dev.State());
      while true
        invariant FlushAll(dev.State()) == goal
        decreases |dev.script|
      {
        var waiting := InWaiting();
        if waiting.Err? {
          return Fail(waiting.error);
        }
        if waiting.value == 0 {
          return Pass;
        }
        var data := dev.ControlIn(Usart0Data, 0, waiting.value);
        if data.Err? {
          return Fail(data.error);
        }
      }
    }

    function Timeout(): int
      reads this
    {
      timeout
    }

    method SetTimeout(t: int)
      modifies this
      ensures Timeout() == t && conf == old(conf)
    {
      timeout := t;
    }
  }
}
