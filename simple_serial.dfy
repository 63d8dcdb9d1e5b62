/**
 * The simple-serial line protocol (simple_serial.go). Commands are one
 * letter, the payload in lowercase hexadecimal, and a newline: `k` loads a
 * key and is acknowledged by a line starting with `z`; `p` sends a plaintext
 * and is not acknowledged; the target answers a plaintext with a line `r`,
 * the ciphertext in hexadecimal, and a newline. Opening the protocol sends a
 * run of `x` characters that returns the target to idle, discards pending
 * input, and probes the protocol version with `v`.
 *
 * Hexadecimal follows Go's `encoding/hex`: encoding is lowercase, decoding
 * accepts either case and rejects an odd length or any other character.
 */
module SimpleSerial {
  import opened Base
  import opened Serial

  const KeyCmd: byte := 0x6B        // 'k'
  const PlaintextCmd: byte := 0x70  // 'p'
  const VersionCmd: byte := 0x76    // 'v'
  const ClearCmd: byte := 0x78      // 'x'
  const AckMark: byte := 0x7A       // 'z'
  const ResponseMark: byte := 0x72  // 'r'

  // ---------------------------------------------------------------------------
  // Hexadecimal
  // ---------------------------------------------------------------------------

  /** The lowercase digit for a nibble. */
  function HexDigit(n: byte): (c: byte)
    requires n < 16
  {
    if n < 10 then 0x30 + n else 0x61 - 10 + n
  }

  /** `hex.EncodeToString`: two lowercase digits per byte, high nibble first. */
  function HexEncode(b: seq<byte>): (h: seq<byte>)
    ensures |h| == 2 * |b|
  {
    if b == [] then [] else [HexDigit(b[0] >> 4), HexDigit(b[0] & 0xF)] + HexEncode(b[1..])
  }

  /** The value of one hexadecimal digit of either case. */
  function DigitValue(c: byte): (v: Option<byte>)
    ensures v.Some? ==> v.value < 16
  {
    if 0x30 <= c <= 0x39 then Some(c - 0x30)
    else if 0x61 <= c <= 0x66 then Some(c - 0x61 + 10)
    else if 0x41 <= c <= 0x46 then Some(c - 0x41 + 10)
    else None
  }

  predicate IsHexDigit(c: byte)
  {
    DigitValue(c).Some?
  }

  /** `hex.DecodeString`: pairs of digits, high nibble first. */
  function HexDecode(s: seq<byte>): (r: Result<seq<byte>>)
    ensures r.Ok? ==> 2 * |r.value| == |s|
  {
    if s == [] then Ok([])
    else if |s| == 1 then Err(BadHex)
    else
      var hi := DigitValue(s[0]);
      var lo := DigitValue(s[1]);
      if hi.None? || lo.None? then Err(BadHex)
      else
        var rest := HexDecode(s[2..]);
        if rest.Err? then rest else Ok([(hi.value << 4) | lo.value] + rest.value)
  }

  /** A byte's two digits decode back to the byte. */
  lemma DigitsOfByte(b: byte)
    ensures DigitValue(HexDigit(b >> 4)) == Some(b >> 4)
    ensures DigitValue(HexDigit(b & 0xF)) == Some(b & 0xF)
    ensures ((b >> 4) << 4) | (b & 0xF) == b
  {
  }

  /** Decoding inverts encoding. */
  lemma {:induction false} HexRoundTrip(b: seq<byte>)
    ensures HexDecode(HexEncode(b)) == Ok(b)
  {
    if b != [] {
      var h := HexEncode(b);
      DigitsOfByte(b[0]);
      HexRoundTrip(b[1..]);
      assert h[0] == HexDigit(b[0] >> 4) && h[1] == HexDigit(b[0] & 0xF);
      assert h[2..] == HexEncode(b[1..]);
      assert [b[0]] + b[1..] == b;
    }
  }

  /** Encoding produces only the digits `0`-`9` and `a`-`f`. */
  lemma {:induction false} HexEncodeLowercase(b: seq<byte>)
    ensures forall i :: 0 <= i < |HexEncode(b)| ==>
      0x30 <= HexEncode(b)[i] <= 0x39 || 0x61 <= HexEncode(b)[i] <= 0x66
  {
    if b != [] {
      HexEncodeLowercase(b[1..]);
      var h := HexEncode(b);
      assert h[2..] == HexEncode(b[1..]);
      forall i | 0 <= i < |h|
        ensures 0x30 <= h[i] <= 0x39 || 0x61 <= h[i] <= 0x66
      {
        if i >= 2 {
          assert h[i] == HexEncode(b[1..])[i - 2];
        }
      }
    }
  }

  /** Decoding succeeds exactly on even-length strings of hexadecimal digits. */
  lemma {:induction false} HexDecodeAccepts(s: seq<byte>)
    ensures HexDecode(s).Ok? <==> |s| % 2 == 0 && forall i :: 0 <= i < |s| ==> IsHexDigit(s[i])
  {
    if |s| >= 2 {
      HexDecodeAccepts(s[2..]);
      if forall i :: 0 <= i < |s| ==> IsHexDigit(s[i]) {
        assert forall i :: 0 <= i < |s| - 2 ==> IsHexDigit(s[2..][i]) by {
          forall i | 0 <= i < |s| - 2 ensures IsHexDigit(s[2..][i]) {
            assert s[2..][i] == s[i + 2];
          }
        }
      }
      if HexDecode(s).Ok? {
        forall i | 0 <= i < |s| ensures IsHexDigit(s[i]) {
          if i >= 2 {
            assert s[i] == s[2..][i - 2];
          }
        }
      }
    }
  }

  // ---------------------------------------------------------------------------
  // Command and response formats
  // ---------------------------------------------------------------------------

  /** A command line: the command letter, the payload in hexadecimal, a newline. */
  function Command(letter: byte, payload: seq<byte>): (c: seq<byte>)
    ensures |c| == 2 * |payload| + 2 && c[0] == letter && IsLine(c)
  {
    [letter] + HexEncode(payload) + [NL]
  }

  /** The line that returns the target to idle: 19 `x` characters and a newline. */
  const ClearLine: seq<byte> :=
    [ClearCmd, ClearCmd, ClearCmd, ClearCmd, ClearCmd, ClearCmd, ClearCmd, ClearCmd, ClearCmd, ClearCmd, ClearCmd, ClearCmd, ClearCmd, ClearCmd, ClearCmd, ClearCmd, ClearCmd, ClearCmd, ClearCmd, NL]

  const VersionLine: seq<byte> := [VersionCmd, NL]

  /** `strings.TrimSuffix(s, "\n")`. */
  function TrimNewline(s: seq<byte>): (t: seq<byte>)
    ensures IsLine(s) ==> t == s[..|s| - 1]
    ensures !IsLine(s) ==> t == s
  {
    if s != [] && s[|s| - 1] == NL then s[..|s| - 1] else s
  }

  /** `Response`'s parse of a line: `r`, then hexadecimal up to the trimmed newline. */
  function ParseResponse(line: seq<byte>): (r: Result<seq<byte>>)
    requires line != []
  {
    if line[0] != ResponseMark then Err(NotAResponse)
    else HexDecode(TrimNewline(line)[1..])
  }

  /** A well-formed response line parses to its payload. */
  lemma ResponseRoundTrip(x: seq<byte>)
    ensures ParseResponse(Command(ResponseMark, x)) == Ok(x)
  {
    var c := Command(ResponseMark, x);
    assert TrimNewline(c)[1..] == HexEncode(x);
    HexRoundTrip(x);
  }

  /** A response line is accepted exactly when it starts with `r` and the rest before the newline is valid hexadecimal. */
  lemma ResponseAccepts(line: seq<byte>)
    requires IsLine(line)
    ensures ParseResponse(line).Ok? <==>
      && line[0] == ResponseMark
      && (|line| - 2) % 2 == 0
      && (forall i :: 1 <= i < |line| - 1 ==> IsHexDigit(line[i]))
  {
    if line[0] == ResponseMark {
      var body := TrimNewline(line)[1..];
      assert |body| == |line| - 2;
      HexDecodeAccepts(body);
      assert forall i :: 1 <= i < |line| - 1 ==> line[i] == body[i - 1];
      if forall i :: 1 <= i < |line| - 1 ==> IsHexDigit(line[i]) {
        assert forall i :: 0 <= i < |body| ==> IsHexDigit(body[i]) by {
          forall i | 0 <= i < |body| ensures IsHexDigit(body[i]) {
            assert body[i] == line[i + 1];
          }
        }
      }
    }
  }

  // ---------------------------------------------------------------------------
  // Exchanges on the line
  // ---------------------------------------------------------------------------

  /** `waitForAck`: the next line must start with `z`. */
  function AwaitAck(l: Line): (r: (Outcome, Line))
    ensures r.1 == Answer(l, ReadLine)
    ensures r.0.Pass? <==> Next(l).Gave? && IsLine(Next(l).data) && Next(l).data[0] == AckMark
  {
    var (line, l1) := NextLine(l);
    if line.Err? then (Fail(line.error), l1)
    else if line.value[0] != AckMark then (Fail(NoAck), l1)
    else (Pass, l1)
  }

  /** `WriteKey`: send the key command, then wait for the acknowledgement. */
  function SendKey(l: Line, k: seq<byte>): (r: (Outcome, Line))
  {
    var (sent, l1) := Send(l, Command(KeyCmd, k));
    if sent.Fail? then (sent, l1) else AwaitAck(l1)
  }

  /** `WritePlaintext`: send the plaintext command; no acknowledgement is read. */
  function SendPlaintext(l: Line, p: seq<byte>): (r: (Outcome, Line))
    ensures r == Send(l, Command(PlaintextCmd, p))
  {
    Send(l, Command(PlaintextCmd, p))
  }

  /** `Response`: read a line and parse it. */
  function ReadResponse(l: Line): (r: (Result<seq<byte>>, Line))
    ensures r.1 == Answer(l, ReadLine)
  {
    var (line, l1) := NextLine(l);
    if line.Err? then (Err(line.error), l1) else (ParseResponse(line.value), l1)
  }

  /** `checkVersion`: flush, send `v`, read four bytes into a zeroed buffer, and require a leading `z`. */
  function ProbeVersion(l: Line): (r: (Outcome, Line))
  {
    var (flushed, l1) := Drain(l);
    if flushed.Fail? then (flushed, l1)
    else
      var (sent, l2) := Send(l1, VersionLine);
      if sent.Fail? then (sent, l2)
      else
        var (got, l3) := Receive(l2, 4);
        if got.Err? then (Fail(got.error), l3)
        else if Filled(got.value, 4)[0] != AckMark then (Fail(UnsupportedVersion), l3)
        else (Pass, l3)
  }

  /** `flush`: send the clear line, then discard pending input. */
  function Clear(l: Line): (r: (Outcome, Line))
  {
    var (sent, l1) := Send(l, ClearLine);
    if sent.Fail? then (sent, l1) else Drain(l1)
  }

  /** `NewSimpleSerial`: clear, then check the version. */
  function Open(l: Line): (r: (Outcome, Line))
  {
    var (cleared, l1) := Clear(l);
    if cleared.Fail? then (cleared, l1) else ProbeVersion(l1)
  }

  /** The calls of a successful `NewSimpleSerial`, in order. */
  const OpenCalls: seq<Call> := [Write(ClearLine), Flush, Flush, Write(VersionLine), Read(4)]

  /** `flush` makes its two calls in order, stopping at the first failure. */
  lemma ClearCalls(l: Line)
    ensures
      var (o, l') := Clear(l);
      && l.log < l'.log <= l.log + OpenCalls[..2]
      && (o.Pass? <==> |l.script| >= 2 && l.script[0] == Done && l.script[1] == Done)
      && (o.Pass? ==> l' == Line(l.log + OpenCalls[..2], l.script[2..], l.timeout))
  {
    var (s, l1) := Send(l, ClearLine);
    var (f, l2) := Drain(l1);
    assert OpenCalls[..2] == [Write(ClearLine), Flush];
    if |l.script| >= 2 {
      assert l1.script == l.script[1..];
      assert l2.script == l.script[2..];
    }
  }

  /**
   * `checkVersion` makes its three calls in order, stopping at the first
   * failure; when all three are answered it passes exactly when the first
   * byte read is `z`.
   */
  lemma ProbeCalls(l: Line)
    ensures
      var (o, l') := ProbeVersion(l);
      && l.log < l'.log <= l.log + OpenCalls[2..]
      && (o.Pass? <==>
            && |l.script| >= 3 && l.script[0] == Done && l.script[1] == Done
            && l.script[2].Gave? && 0 < |l.script[2].data| <= 4 && l.script[2].data[0] == AckMark)
      && (|l.script| >= 3 && l.script[0] == Done && l.script[1] == Done && l.script[2].Gave? && |l.script[2].data| <= 4 ==>
            l' == Line(l.log + OpenCalls[2..], l.script[3..], l.timeout))
  {
    var (f, l1) := Drain(l);
    var (s, l2) := Send(l1, VersionLine);
    var (g, l3) := Receive(l2, 4);
    assert OpenCalls[2..] == [Flush, Write(VersionLine), Read(4)];
    if |l.script| >= 3 {
      assert l1.script == l.script[1..];
      assert l2.script == l.script[2..];
      assert l3.script == l.script[3..];
    }
  }

  /** The answers under which `NewSimpleSerial` succeeds. */
  predicate OpenAnswers(rs: seq<Reply>)
  {
    && |rs| >= 5
    && rs[0] == Done && rs[1] == Done && rs[2] == Done && rs[3] == Done
    && rs[4].Gave? && 0 < |rs[4].data| <= 4 && rs[4].data[0] == AckMark
  }

  /** Opening makes the calls of `OpenCalls` in order, stopping at the first failure. */
  lemma OpenLogPrefix(l: Line)
    ensures Open(l).1.timeout == l.timeout
    ensures l.log < Open(l).1.log <= l.log + OpenCalls
  {
    ClearCalls(l);
    var c := Clear(l);
    assert OpenCalls == OpenCalls[..2] + OpenCalls[2..];
    if c.0.Pass? {
      assert Open(l) == ProbeVersion(c.1);
      ProbeCalls(c.1);
      assert c.1.log + OpenCalls[2..] == l.log + OpenCalls;
    } else {
      assert Open(l) == c;
      assert l.log + OpenCalls[..2] <= l.log + OpenCalls;
    }
  }

  /** Under `OpenAnswers`, opening succeeds after exactly the five calls of `OpenCalls`. */
  lemma OpenPasses(l: Line)
    requires OpenAnswers(l.script)
    ensures Open(l) == (Pass, Line(l.log + OpenCalls, l.script[5..], l.timeout))
  {
    ClearCalls(l);
    var l2 := Line(l.log + OpenCalls[..2], l.script[2..], l.timeout);
    assert Clear(l) == (Pass, l2);
    assert Open(l) == ProbeVersion(l2);
    assert l2.script[0] == l.script[2] && l2.script[1] == l.script[3] && l2.script[2] == l.script[4];
    ProbeCalls(l2);
    assert l2.script[3..] == l.script[5..];
    assert OpenCalls[..2] + OpenCalls[2..] == OpenCalls;
    assert l2.log + OpenCalls[2..] == l.log + OpenCalls;
  }

  /** Opening succeeds only under `OpenAnswers`. */
  lemma OpenNeedsAnswers(l: Line)
    requires Open(l).0.Pass?
    ensures OpenAnswers(l.script)
  {
    ClearCalls(l);
    var l2 := Clear(l).1;
    ProbeCalls(l2);
    assert l2.script == l.script[2..];
  }

  /**
   * The repository's bad-version test: every call succeeds and the version
   * answer is four zero bytes, so opening fails with the unsupported-version
   * error after exactly the five calls of `OpenCalls`.
   */
  lemma OpenRejectsOldVersion(timeout: nat)
    ensures Open(Line([], [Done, Done, Done, Done, Gave([0, 0, 0, 0])], timeout)) ==
      (Fail(UnsupportedVersion), Line(OpenCalls, [], timeout))
  {
    var l := Line([], [Done, Done, Done, Done, Gave([0, 0, 0, 0])], timeout);
    ClearCalls(l);
    var l1 := Clear(l).1;
    assert l1 == Line(OpenCalls[..2], [Done, Done, Gave([0, 0, 0, 0])], timeout);
    assert Open(l) == ProbeVersion(l1);
    ProbeCalls(l1);
    var l2 := Answer(Answer(l1, Flush), Write(VersionLine));
    assert l2.script == [Gave([0, 0, 0, 0])];
    assert Filled([0, 0, 0, 0], 4)[0] == 0;
    assert OpenCalls[..2] + OpenCalls[2..] == OpenCalls;
  }

  /** A key is acknowledged exactly when the write succeeds and the next line starts with `z`; both calls happen only if the write succeeds. */
  lemma SendKeyCalls(l: Line, k: seq<byte>)
    ensures SendKey(l, k).0.Pass? <==>
      && Next(l) == Done
      && var l1 := Answer(l, Write(Command(KeyCmd, k)));
         Next(l1).Gave? && IsLine(Next(l1).data) && Next(l1).data[0] == AckMark
    ensures SendKey(l, k).1.log == l.log + (if Next(l) == Done then [Write(Command(KeyCmd, k)), ReadLine] else [Write(Command(KeyCmd, k))])
  {
    var w := Write(Command(KeyCmd, k));
    var l1 := Send(l, Command(KeyCmd, k)).1;
    if Next(l) == Done {
      assert SendKey(l, k) == AwaitAck(l1);
      assert (l.log + [w]) + [ReadLine] == l.log + [w, ReadLine];
    }
  }

  /** A response carrying `x` in hexadecimal reads back as `x`. */
  lemma ReadResponseRoundTrip(l: Line, x: seq<byte>)
    requires Next(l) == Gave(Command(ResponseMark, x))
    ensures ReadResponse(l).0 == Ok(x)
  {
    ResponseRoundTrip(x);
  }

  /** A line not starting with `r` is refused, whatever follows. */
  lemma ReadResponseRejects(l: Line)
    requires Next(l).Gave? && IsLine(Next(l).data) && Next(l).data[0] != ResponseMark
    ensures ReadResponse(l).0 == Err(NotAResponse)
  {
  }

  // ---------------------------------------------------------------------------
  // The protocol object
  // ---------------------------------------------------------------------------

  class Protocol {
    const port: Port

    constructor (port: Port)
      ensures this.port == port
    {
      this.port := port;
    }

    method WriteKey(k: seq<byte>) returns (o: Outcome)
      modifies port
      ensures (o, port.State()) == SendKey(old(port.State()), k)
    {
      o := port.Write(Command(KeyCmd, k));
      if o.Fail? {
        return;
      }
      o := WaitForAck();
    }

    method WritePlaintext(p: seq<byte>) returns (o: Outcome)
      modifies port
      ensures (o, port.State()) == SendPlaintext(old(port.State()), p)
    {
      o := port.Write(Command(PlaintextCmd, p));
    }

    method WaitForAck() returns (o: Outcome)
      modifies port
      ensures (o, port.State()) == AwaitAck(old(port.State()))
    {
      var line := port.ReadLine();
      if line.Err? {
        return Fail(line.error);
      }
      o := if line.value[0] != AckMark then Fail(NoAck) else Pass;
    }

    method Response() returns (r: Result<seq<byte>>)
      modifies port
      ensures (r, port.State()) == ReadResponse(old(port.State()))
    {
      var line := port.ReadLine();
      if line.Err? {
        return Err(line.error);
      }
      var res := line.value;
      if res[0] != ResponseMark {
        return Err(NotAResponse);
      }
      res := TrimNewline(res);
      r := HexDecode(res[1..]);
    }

    method CheckVersion() returns (o: Outcome)
      modifies port
      ensures (o, port.State()) == ProbeVersion(old(port.State()))
    {
      o := port.Flush();
      if o.Fail? {
        return;
      }
      o := port.Write(VersionLine);
      if o.Fail? {
        return;
      }
      var got := port.Read(4);
      if got.Err? {
        return Fail(got.error);
      }
      var res := Filled(got.value, 4);
      o := if res[0] != AckMark then Fail(UnsupportedVersion) else Pass;
    }

    method Flush() returns (o: Outcome)
      modifies port
      ensures (o, port.State()) == Clear(old(port.State()))
    {
      o := port.Write(ClearLine);
      if o.Fail? {
        return;
      }
      o := port.Flush();
    }

    static method NewSimpleSerial(port: Port) returns (r: Result<Protocol>)
      modifies port
      ensures r.Ok? ==> r.value.port == port
      ensures (if r.Ok? then Pass else Fail(r.error), port.State()) == Open(old(port.State()))
    {
      var s := new Protocol(port);
      var o := s.Flush();
      if o.Fail? {
        return Err(o.error);
      }
      o := s.CheckVersion();
      if o.Fail? {
        return Err(o.error);
      }
      return Ok(s);
    }
  }
}
