/**
 * Writing a firmware image to the target's flash (`ProgramDevice`,
 * util/programmer.go:30-52): erase the chip, write the image at its address,
 * read the same number of bytes back from that address, and compare.
 *
 * The programmer is either of the two flash programmers behind
 * `programmer.ProgrammerInterface`; here it is a recorded transcript like the
 * USB device and the serial line: each call is appended to `log` and its
 * answer is taken from the front of a script fixed in advance, the way the
 * repository's gomock test drives `ProgramDevice`.
 */
module Flash {
  import opened Base

  /** A firmware image: one contiguous block of bytes and its flash address (`util.Segment`). */
  datatype Segment = Segment(address: Word32, data: seq<byte>)

  /** One call on the programmer. */
  datatype Call =
    | Erase
    | Write(addr: Word32, data: seq<byte>)  // `NewMemoryWriter(addr).Write(data)`
    | Read(addr: Word32, len: nat)          // `NewMemoryReader(addr).Read(make([]byte, len))`

  /** The programmer's answer: an error, success, or the bytes a read delivered. */
  datatype Reply = Refuse(error: Error) | Done | Gave(data: seq<byte>)

  datatype Prog = Prog(log: seq<Call>, script: seq<Reply>)

  function Next(p: Prog): Reply
  {
    if p.script == [] then Refuse(ScriptExhausted) else p.script[0]
  }

  function Answer(p: Prog, c: Call): (p': Prog)
    ensures p'.log == p.log + [c]
  {
    Prog(p.log + [c], if p.script == [] then [] else p.script[1..])
  }

  /** `Erase()`. */
  function EraseStep(p: Prog): (r: (Outcome, Prog))
    ensures r.1 == Answer(p, Erase)
    ensures r.0.Pass? <==> Next(p) == Done
  {
    (if Next(p) == Done then Pass else Fail(ErrorOf(Next(p))), Answer(p, Erase))
  }

  /** A writer's `Write`; the byte count it returns is ignored by `ProgramDevice`. */
  function WriteStep(p: Prog, addr: Word32, data: seq<byte>): (r: (Outcome, Prog))
    ensures r.1 == Answer(p, Write(addr, data))
    ensures r.0.Pass? <==> Next(p) == Done
  {
    (if Next(p) == Done then Pass else Fail(ErrorOf(Next(p))), Answer(p, Write(addr, data)))
  }

  /**
   * A reader's `Read` into a zeroed buffer of `len` bytes: the buffer after
   * the bytes that arrived were copied to its front. An `io.Reader` may
   * deliver fewer bytes than asked for without an error; the rest of the
   * buffer then stays zero.
   */
  function ReadStep(p: Prog, addr: Word32, len: nat): (r: (Result<seq<byte>>, Prog))
    ensures r.1 == Answer(p, Read(addr, len))
    ensures r.0.Ok? <==> Next(p).Gave? && |Next(p).data| <= len
    ensures r.0.Ok? ==> |r.0.value| == len && r.0.value[..|Next(p).data|] == Next(p).data
    ensures r.0.Ok? ==> forall i :: |Next(p).data| <= i < len ==> r.0.value[i] == 0
  {
    var p' := Answer(p, Read(addr, len));
    match Next(p)
    case Gave(got) =>
      if |got| <= len then (Ok(got + seq(len - |got|, _ => 0)), p') else (Err(TransferFailed), p')
    case _ => (Err(ErrorOf(Next(p))), p')
  }

  /** The error a reply that is not the expected one stands for. */
  function ErrorOf(r: Reply): Error
  {
    if r.Refuse? then r.error else TransferFailed
  }

  /** Erase, write, read back, compare: the outcome and the programmer afterwards. */
  function Program(p: Prog, fw: Segment): (r: (Outcome, Prog))
  {
    var e := EraseStep(p);
    if e.0.Fail? then (e.0, e.1)
    else
      var w := WriteStep(e.1, fw.address, fw.data);
      if w.0.Fail? then (w.0, w.1)
      else
        var rd := ReadStep(w.1, fw.address, |fw.data|);
        if rd.0.Err? then (Fail(rd.0.error), rd.1)
        else if rd.0.value != fw.data then (Fail(ReadBackMismatch), rd.1)
        else (Pass, rd.1)
  }

  /** A failed erase is reported and nothing is written or read. */
  lemma EraseFailureStops(p: Prog, fw: Segment)
    requires Next(p) != Done
    ensures Program(p, fw).0 == Fail(ErrorOf(Next(p)))
    ensures Program(p, fw).1.log == p.log + [Erase]
  {
  }

  /**
   * The calls always come in the same order and stop at the first failing
   * one: the log grows by a non-empty prefix of erase, write at the image's
   * address, read of the image's length from the same address; a success
   * made all three.
   */
  lemma ProgramCalls(p: Prog, fw: Segment)
    ensures var calls := [Erase, Write(fw.address, fw.data), Read(fw.address, |fw.data|)];
      exists k :: 1 <= k <= 3 && Program(p, fw).1.log == p.log + calls[..k]
    ensures Program(p, fw).0.Pass? ==>
      Program(p, fw).1.log == p.log + [Erase, Write(fw.address, fw.data), Read(fw.address, |fw.data|)]
  {
    var calls := [Erase, Write(fw.address, fw.data), Read(fw.address, |fw.data|)];
    var e := EraseStep(p);
    var w := WriteStep(e.1, fw.address, fw.data);
    var rd := ReadStep(w.1, fw.address, |fw.data|);
    assert e.1.log == p.log + calls[..1];
    assert w.1.log == p.log + calls[..2];
    assert rd.1.log == p.log + calls[..3];
  }

  /**
   * `ProgramDevice` succeeds exactly when the erase and the write succeed and
   * the read delivers bytes that, after zero filling, equal the image.
   */
  lemma ProgramPasses(p: Prog, fw: Segment)
    ensures var p1 := Answer(p, Erase);
      var p2 := Answer(p1, Write(fw.address, fw.data));
      Program(p, fw).0.Pass? <==>
        Next(p) == Done && Next(p1) == Done && Next(p2).Gave? && |Next(p2).data| <= |fw.data|
        && Next(p2).data + seq(|fw.data| - |Next(p2).data|, _ => 0) == fw.data
  {
  }

  /** On success the flash holds the image: every byte read back equals the written one. */
  lemma ProgramVerified(p: Prog, fw: Segment)
    requires Program(p, fw).0.Pass?
    ensures var p2 := Answer(Answer(p, Erase), Write(fw.address, fw.data));
      Next(p2).Gave? && forall i :: 0 <= i < |Next(p2).data| ==> Next(p2).data[i] == fw.data[i]
  {
    var p2 := Answer(Answer(p, Erase), Write(fw.address, fw.data));
    var rd := ReadStep(p2, fw.address, |fw.data|);
    assert rd.0.value == fw.data;
    assert rd.0.value[..|Next(p2).data|] == Next(p2).data;
  }

  /** The programmer behind `programmer.ProgrammerInterface`. */
  class Programmer {
    var log: seq<Call>
    var script: seq<Reply>

    function State(): Prog
      reads this
    {
      Prog(log, script)
    }

    constructor (replies: seq<Reply>)
      ensures State() == Prog([], replies)
    {
      log, script := [], replies;
    }

    method Erase() returns (o: Outcome)
      modifies this
      ensures (o, State()) == EraseStep(old(State()))
    {
      var s := EraseStep(State());
      o, log, script := s.0, s.1.log, s.1.script;
    }

    method Write(addr: Word32, data: seq<byte>) returns (o: Outcome)
      modifies this
      ensures (o, State()) == WriteStep(old(State()), addr, data)
    {
      var s := WriteStep(State(), addr, data);
      o, log, script := s.0, s.1.log, s.1.script;
    }

    method Read(addr: Word32, len: nat) returns (r: Result<seq<byte>>)
      modifies this
      ensures (r, State()) == ReadStep(old(State()), addr, len)
    {
      var s := ReadStep(State(), addr, len);
      r, log, script := s.0, s.1.log, s.1.script;
    }
  }

  /** `ProgramDevice(prog, firmware)`. */
  method ProgramDevice(prog: Programmer, fw: Segment) returns (o: Outcome)
    modifies prog
    ensures (o, prog.State()) == Program(old(prog.State()), fw)
  {
    o := prog.Erase();
    if o.Fail? {
      return;
    }
    o := prog.Write(fw.address, fw.data);
    if o.Fail? {
      return;
    }
    var mem := prog.Read(fw.address, |fw.data|);
    if mem.Err? {
      return Fail(mem.error);
    }
    if mem.value != fw.data {
      return Fail(ReadBackMismatch);
    }
    return Pass;
  }
}
