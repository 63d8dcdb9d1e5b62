/**
 * A serial line to the target as the simple-serial protocol and the STM32
 * bootloader programmer see it (`UsartInterface`, usart.go:29-37): `Write`,
 * `Read` into a buffer, `Flush`, and the read timeout. The STM32 programmer
 * also drives the target's PDIC and nRST lines through the ADC's GPIO; those
 * calls are recorded in the same transcript so that their order relative to
 * the serial traffic is visible.
 *
 * Like the USB device, the line is a transcript: each call is appended to
 * `log`, and the far end's answer is taken from the front of a script fixed
 * in advance, the way the repository's gomock tests drive the code. Reading a
 * line (`bufio.Reader.ReadString('\n')` over the port) is an abstract source
 * of lines with a call of its own.
 */
module Serial {
  import opened Base

  const NL: byte := 0x0A  // '\n'

  /** The target's boot-select and reset lines (`SetPDIC`, `SetNRST`). */
  datatype Pin = Pdic | Nrst

  /** One call on the line, with what the driver passed to it. */
  datatype Call =
    | Write(data: seq<byte>)
    | Read(len: nat)
    | Flush
    | ReadLine
    | SetTimeout(ms: nat)
    | SetPin(pin: Pin, high: bool)

  /** The far end's answer to one call: an error, plain success, or bytes. */
  datatype Reply = Broken | Done | Gave(data: seq<byte>)

  /** The calls so far, the answers still to come, and the read timeout in milliseconds. */
  datatype Line = Line(log: seq<Call>, script: seq<Reply>, timeout: nat)

  function Next(l: Line): Reply
  {
    if l.script == [] then Broken else l.script[0]
  }

  /** The line after answering `c` with `Next(l)`. */
  function Answer(l: Line, c: Call): (l': Line)
    ensures l'.log == l.log + [c] && l'.timeout == l.timeout
  {
    Line(l.log + [c], if l.script == [] then [] else l.script[1..], l.timeout)
  }

  /** `Write`: the byte count it returns is never used by the callers modelled here. */
  function Send(l: Line, data: seq<byte>): (r: (Outcome, Line))
    ensures r.1 == Answer(l, Write(data))
    ensures r.0.Pass? <==> Next(l) == Done
  {
    (if Next(l) == Done then Pass else Fail(PortFailed), Answer(l, Write(data)))
  }

  /** `Read` into a buffer of `len` bytes: the bytes that arrived, at most `len` of them. */
  function Receive(l: Line, len: nat): (r: (Result<seq<byte>>, Line))
    ensures r.1 == Answer(l, Read(len))
    ensures r.0.Ok? <==> Next(l).Gave? && |Next(l).data| <= len
    ensures r.0.Ok? ==> r.0.value == Next(l).data
  {
    var l' := Answer(l, Read(len));
    match Next(l)
    case Gave(data) => (if |data| <= len then Ok(data) else Err(PortFailed), l')
    case _ => (Err(PortFailed), l')
  }

  /** `Flush`: discards whatever is pending at the far end. */
  function Drain(l: Line): (r: (Outcome, Line))
    ensures r.1 == Answer(l, Flush)
    ensures r.0.Pass? <==> Next(l) == Done
  {
    (if Next(l) == Done then Pass else Fail(PortFailed), Answer(l, Flush))
  }

  /** What `ReadString('\n')` returns without an error: bytes ending in the delimiter. */
  predicate IsLine(s: seq<byte>)
  {
    s != [] && s[|s| - 1] == NL
  }

  /** The next line, delimiter included; a source that ends before a delimiter is an error. */
  function NextLine(l: Line): (r: (Result<seq<byte>>, Line))
    ensures r.1 == Answer(l, ReadLine)
    ensures r.0.Ok? <==> Next(l).Gave? && IsLine(Next(l).data)
    ensures r.0.Ok? ==> r.0.value == Next(l).data
  {
    var l' := Answer(l, ReadLine);
    match Next(l)
    case Gave(data) => (if IsLine(data) then Ok(data) else Err(PortFailed), l')
    case _ => (Err(PortFailed), l')
  }

  /** `SetTimeout`: records the call; consumes no answer. */
  function WithTimeout(l: Line, ms: nat): (l': Line)
    ensures l' == Line(l.log + [SetTimeout(ms)], l.script, ms)
  {
    Line(l.log + [SetTimeout(ms)], l.script, ms)
  }

  /** Driving a GPIO line: records the call; consumes no answer. */
  function Drive(l: Line, pin: Pin, high: bool): (l': Line)
    ensures l' == Line(l.log + [SetPin(pin, high)], l.script, l.timeout)
  {
    Line(l.log + [SetPin(pin, high)], l.script, l.timeout)
  }

  /** A zeroed `make([]byte, len)` after a `Read` delivered `data` into it. */
  function Filled(data: seq<byte>, len: nat): (b: seq<byte>)
    requires |data| <= len
    ensures |b| == len && b[..|data|] == data
    ensures forall i :: |data| <= i < len ==> b[i] == 0
  {
    data + seq(len - |data|, _ => 0)
  }

  class Port {
    var log: seq<Call>
    var script: seq<Reply>
    var timeout: nat

    function State(): Line
      reads this
    {
      Line(log, script, timeout)
    }

    constructor (replies: seq<Reply>, timeout: nat)
      ensures State() == Line([], replies, timeout)
    {
      log, script, this.timeout := [], replies, timeout;
    }

    method Write(data: seq<byte>) returns (o: Outcome)
      modifies this
      ensures (o, State()) == Send(old(State()), data)
    {
      var s := Send(State(), data);
      o, log, script := s.0, s.1.log, s.1.script;
    }

    method Read(len: nat) returns (r: Result<seq<byte>>)
      modifies this
      ensures (r, State()) == Receive(old(State()), len)
    {
      var s := Receive(State(), len);
      r, log, script := s.0, s.1.log, s.1.script;
    }

    method Flush() returns (o: Outcome)
      modifies this
      ensures (o, State()) == Drain(old(State()))
    {
      var s := Drain(State());
      o, log, script := s.0, s.1.log, s.1.script;
    }

    method ReadLine() returns (r: Result<seq<byte>>)
      modifies this
      ensures (r, State()) == NextLine(old(State()))
    {
      var s := NextLine(State());
      r, log, script := s.0, s.1.log, s.1.script;
    }

    method Timeout() returns (ms: nat)
      ensures ms == timeout
    {
      ms := timeout;
    }

    method SetTimeout(ms: nat)
      modifies this
      ensures State() == WithTimeout(old(State()), ms)
    {
      log, timeout := log + [Call.SetTimeout(ms)], ms;
    }

    method SetPin(pin: Pin, high: bool)
      modifies this
      ensures State() == Drive(old(State()), pin, high)
    {
      log := log + [Call.SetPin(pin, high)];
    }
  }
}
