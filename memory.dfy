/**
 * The capture board's external-memory protocol (memory.go): every access
 * starts with an 8-byte little-endian AddressBlock {Dlen, Addr} sent as a
 * vendor control transfer; short accesses (under 48 bytes) move their data
 * in control transfers, longer ones over the bulk endpoints. A write may be
 * verified by reading the same range back, optionally under a byte mask.
 *
 * `ReadExchange` and `WriteExchange` specify, over the device transcript,
 * what one access sends, what it consumes and what it returns; the `Memory`
 * class performs the access step by step against a `Usb.Device`.
 */
module ExtMemory {
  import opened Base
  import opened Bytes
  import opened Usb

  /** Accesses shorter than this travel in control transfers. */
  const ControlLimit: nat := 48

  function ReadRequest(len: nat): Request
  {
    if len < ControlLimit then MemReadCtrl else MemReadBulk
  }

  function WriteRequest(len: nat): Request
  {
    if len < ControlLimit then MemWriteCtrl else MemWriteBulk
  }

  /** `AddressBlock{Dlen: uint32(len), Addr: addr}` in little-endian order. */
  function AddressBlock(addr: u32, len: nat): (h: seq<byte>)
    ensures |h| == 8
    ensures LeWord32(h[..4]) == U32(len) && LeWord32(h[4..]) == addr
  {
    var dlen, a := Le32(U32(len)), Le32(addr);
    assert (dlen + a)[..4] == dlen && (dlen + a)[4..] == a;
    dlen + a
  }

  /** `doRead`: the header on the chosen request, then the data. */
  function ReadExchange(d: Dev, addr: u32, len: nat): (Result<seq<byte>>, Dev)
  {
    var (sent, d1) := CtrlOut(d, ReadRequest(len), 0, AddressBlock(addr, len));
    if sent.Fail? then (Err(sent.error), d1)
    else if len < ControlLimit then CtrlIn(d1, MemReadCtrl, 0, len)
    else
      var (got, d2) := BulkIn(d1, len);
      if got.Ok? && |got.value| != len then (Err(ShortBulkRead), d2) else (got, d2)
  }

  /** `s[i] & mask[i]` at every position. */
  function Masked(s: seq<byte>, mask: seq<byte>): (r: seq<byte>)
    requires |s| == |mask|
    ensures |r| == |s| && forall i :: 0 <= i < |s| ==> r[i] == s[i] & mask[i]
  {
    seq(|s|, i requires 0 <= i < |s| => s[i] & mask[i])
  }

  /** The comparison that ends a verified write. */
  function Verdict(expected: seq<byte>, actual: seq<byte>, mask: Option<seq<byte>>): (o: Outcome)
    requires |actual| == |expected|
    ensures mask.None? ==> (o.Pass? <==> actual == expected)
    ensures mask.Some? && |mask.value| != |expected| ==> o == Fail(MaskLengthMismatch)
    ensures mask.Some? && |mask.value| == |expected| ==>
      (o.Pass? <==> forall i :: 0 <= i < |expected| ==> actual[i] & mask.value[i] == expected[i] & mask.value[i])
    ensures o.Pass? || o == Fail(MaskLengthMismatch) || o == Fail(VerifyMismatch)
  {
    if mask.None? then
      if actual == expected then Pass else Fail(VerifyMismatch)
    else if |mask.value| != |expected| then Fail(MaskLengthMismatch)
    else
      var m := mask.value;
      var a, e := Masked(actual, m), Masked(expected, m);
      assert a == e <==> forall i :: 0 <= i < |expected| ==> a[i] == e[i];
      if a == e then Pass else Fail(VerifyMismatch)
  }

  /** `doWrite`: header (and short data) by control, long data by bulk, optional read-back. */
  function WriteExchange(d: Dev, addr: u32, data: seq<byte>, validate: bool, mask: Option<seq<byte>>): (Outcome, Dev)
  {
    var control := |data| < ControlLimit;
    var header := AddressBlock(addr, |data|);
    var (sent, d1) := CtrlOut(d, WriteRequest(|data|), 0, if control then header + data else header);
    if sent.Fail? then (sent, d1)
    else
      var (bulk, d2) := if control then (Ok(|data|), d1) else BulkOut(d1, data);
      if bulk.Err? then (Fail(bulk.error), d2)
      else if bulk.value != |data| then (Fail(ShortBulkWrite), d2)
      else if !validate then (Pass, d2)
      else
        var (back, d3) := ReadExchange(d2, addr, |data|);
        if back.Err? then (Fail(back.error), d3)
        else (Verdict(data, back.value, mask), d3)
  }

  /** The read path: header first, then exactly one data transfer; success delivers `len` bytes. */
  lemma ReadTranscript(d: Dev, addr: u32, len: nat)
    ensures var (r, d') := ReadExchange(d, addr, len);
      var header := ControlOut(if len < 48 then MemReadCtrl else MemReadBulk, 0, AddressBlock(addr, len));
      && (Next(d) != Accept(8) ==> r.Err? && d'.log == d.log + [header])
      && (Next(d) == Accept(8) ==>
            d'.log == d.log + [header, if len < 48 then ControlIn(MemReadCtrl, 0, len) else BulkRead(len)])
      && (r.Ok? ==> |r.value| == len)
  {
  }

  /** A bulk read that returns fewer bytes than asked for is an error. */
  lemma ShortBulkReadFails(d: Dev, addr: u32, len: nat)
    requires len >= 48 && Next(d) == Accept(8)
    requires var rest := Answer(d, ControlOut(MemReadBulk, 0, AddressBlock(addr, len)));
      Next(rest).Deliver? && |Next(rest).data| < len
    ensures ReadExchange(d, addr, len).0 == Err(ShortBulkRead)
  {
  }

  /** Without read-back a write is the header transfer and, for long data, one bulk transfer. */
  lemma WriteWithoutReadBack(d: Dev, addr: u32, data: seq<byte>, mask: Option<seq<byte>>)
    ensures var (o, d') := WriteExchange(d, addr, data, false, mask);
      var header := AddressBlock(addr, |data|);
      if |data| < 48 then
        && d'.log == d.log + [ControlOut(MemWriteCtrl, 0, header + data)]
        && (o.Pass? <==> Next(d) == Accept(8 + |data|))
      else
        var rest := Answer(d, ControlOut(MemWriteBulk, 0, header));
        && d'.log == d.log + [ControlOut(MemWriteBulk, 0, header)] + (if Next(d) == Accept(8) then [BulkWrite(data)] else [])
        && (o.Pass? <==> Next(d) == Accept(8) && Next(rest).Accept? && Next(rest).count >= |data|)
  {
  }

  /**
   * Validation adds exactly a read of the same address and length after a
   * write that got through, and the write then passes iff the verdict does;
   * without a mask that means iff the bytes read back equal the bytes written.
   */
  lemma WriteWithReadBack(d: Dev, addr: u32, data: seq<byte>, mask: Option<seq<byte>>)
    ensures var (plain, d1) := WriteExchange(d, addr, data, false, mask);
      var (back, d2) := ReadExchange(d1, addr, |data|);
      && (plain.Fail? ==> WriteExchange(d, addr, data, true, mask) == (plain, d1))
      && (plain.Pass? ==>
            && WriteExchange(d, addr, data, true, mask)
               == (if back.Err? then (Fail(back.error), d2) else (Verdict(data, back.value, mask), d2))
            && (mask.None? ==> (WriteExchange(d, addr, data, true, mask).0.Pass? <==> back == Ok(data))))
  {
  }

  /** A bulk write that the device accepts only in part is an error, whatever `validate` says. */
  lemma ShortBulkWriteFails(d: Dev, addr: u32, data: seq<byte>, validate: bool, mask: Option<seq<byte>>)
    requires |data| >= 48 && Next(d) == Accept(8)
    requires var rest := Answer(d, ControlOut(MemWriteBulk, 0, AddressBlock(addr, |data|)));
      Next(rest).Accept? && Next(rest).count < |data|
    ensures WriteExchange(d, addr, data, validate, mask).0 == Fail(ShortBulkWrite)
  {
  }

  /** The header of a 3-byte access to 0x11223344, as memory_test.go spells it out. */
  lemma HeaderExample()
    ensures AddressBlock(0x11223344, 3) == [3, 0, 0, 0, 0x44, 0x33, 0x22, 0x11]
  {
  }

  /** memory_test.go, TestMemoryRead: a 3-byte read of 0x11223344 over control transfers. */
  lemma ReadExample()
    ensures ReadExchange(Dev([], [Accept(8), Deliver([0xaa, 0xbb, 0xcc])]), 0x11223344, 3)
         == (Ok([0xaa, 0xbb, 0xcc]),
             Dev([ControlOut(MemReadCtrl, 0, [3, 0, 0, 0, 0x44, 0x33, 0x22, 0x11]),
                  ControlIn(MemReadCtrl, 0, 3)], []))
  {
    var d := Dev([], [Accept(8), Deliver([0xaa, 0xbb, 0xcc])]);
    ReadBack(d, [0xaa, 0xbb, 0xcc]);
    assert d.log + [ControlOut(MemReadCtrl, 0, [3, 0, 0, 0, 0x44, 0x33, 0x22, 0x11]), ControlIn(MemReadCtrl, 0, 3)]
        == [ControlOut(MemReadCtrl, 0, [3, 0, 0, 0, 0x44, 0x33, 0x22, 0x11]), ControlIn(MemReadCtrl, 0, 3)];
  }

  /** A 3-byte control read of 0x11223344 answered with `got`. */
  lemma ReadBack(d: Dev, got: seq<byte>)
    requires |got| == 3 && d.script == [Accept(8), Deliver(got)]
    ensures ReadExchange(d, 0x11223344, 3)
         == (Ok(got), Dev(d.log + [ControlOut(MemReadCtrl, 0, [3, 0, 0, 0, 0x44, 0x33, 0x22, 0x11]),
                                  ControlIn(MemReadCtrl, 0, 3)], []))
  {
    HeaderExample();
    var header: seq<byte> := [3, 0, 0, 0, 0x44, 0x33, 0x22, 0x11];
    assert Next(d) == Accept(8) && |header| == 8;
    var d1 := Answer(d, ControlOut(MemReadCtrl, 0, header));
    assert CtrlOut(d, MemReadCtrl, 0, header) == (Pass, d1);
    assert d1 == Dev(d.log + [ControlOut(MemReadCtrl, 0, header)], [Deliver(got)]);
    assert ReadExchange(d, 0x11223344, 3) == CtrlIn(d1, MemReadCtrl, 0, 3);
    assert Next(d1) == Deliver(got);
    var d2 := Answer(d1, ControlIn(MemReadCtrl, 0, 3));
    assert d2.script == [];
    assert d2.log == d.log + [ControlOut(MemReadCtrl, 0, header), ControlIn(MemReadCtrl, 0, 3)];
  }

  /** A 3-byte control write of aa bb cc to 0x11223344 that the device accepts. */
  lemma ShortWriteAccepted(d: Dev, validate: bool, mask: Option<seq<byte>>)
    requires |d.script| > 0 && d.script[0] == Accept(11)
    ensures var framed: seq<byte> := [3, 0, 0, 0, 0x44, 0x33, 0x22, 0x11, 0xaa, 0xbb, 0xcc];
      var d1 := Dev(d.log + [ControlOut(MemWriteCtrl, 0, framed)], d.script[1..]);
      WriteExchange(d, 0x11223344, [0xaa, 0xbb, 0xcc], validate, mask)
      == if !validate then (Pass, d1)
         else var (back, d2) := ReadExchange(d1, 0x11223344, 3);
           if back.Err? then (Fail(back.error), d2) else (Verdict([0xaa, 0xbb, 0xcc], back.value, mask), d2)
  {
    HeaderExample();
    var data: seq<byte> := [0xaa, 0xbb, 0xcc];
    var header: seq<byte> := [3, 0, 0, 0, 0x44, 0x33, 0x22, 0x11];
    var framed := header + data;
    assert framed == [3, 0, 0, 0, 0x44, 0x33, 0x22, 0x11, 0xaa, 0xbb, 0xcc];
    assert Next(d) == Accept(|framed|);
    assert CtrlOut(d, MemWriteCtrl, 0, framed) == (Pass, Dev(d.log + [ControlOut(MemWriteCtrl, 0, framed)], d.script[1..]));
  }

  /** memory_test.go, TestMemoryWrite: header and data in one control transfer, no read-back. */
  lemma WriteExample()
    ensures WriteExchange(Dev([], [Accept(11)]), 0x11223344, [0xaa, 0xbb, 0xcc], false, None)
         == (Pass, Dev([ControlOut(MemWriteCtrl, 0, [3, 0, 0, 0, 0x44, 0x33, 0x22, 0x11, 0xaa, 0xbb, 0xcc])], []))
  {
    var d := Dev([], [Accept(11)]);
    ShortWriteAccepted(d, false, None);
    assert d.script[1..] == [];
    assert d.log + [ControlOut(MemWriteCtrl, 0, [3, 0, 0, 0, 0x44, 0x33, 0x22, 0x11, 0xaa, 0xbb, 0xcc])]
        == [ControlOut(MemWriteCtrl, 0, [3, 0, 0, 0, 0x44, 0x33, 0x22, 0x11, 0xaa, 0xbb, 0xcc])];
  }

  /** memory_test.go, TestMemoryWriteDataVerificationPasses: the read-back matches. */
  lemma VerifiedWriteExample()
    ensures var data: seq<byte> := [0xaa, 0xbb, 0xcc];
      WriteExchange(Dev([], [Accept(11), Accept(8), Deliver(data)]), 0x11223344, data, true, None)
      == (Pass, Dev([ControlOut(MemWriteCtrl, 0, [3, 0, 0, 0, 0x44, 0x33, 0x22, 0x11, 0xaa, 0xbb, 0xcc]),
                     ControlOut(MemReadCtrl, 0, [3, 0, 0, 0, 0x44, 0x33, 0x22, 0x11]),
                     ControlIn(MemReadCtrl, 0, 3)], []))
  {
    var data: seq<byte> := [0xaa, 0xbb, 0xcc];
    var d := Dev([], [Accept(11), Accept(8), Deliver(data)]);
    ShortWriteAccepted(d, true, None);
    var w := ControlOut(MemWriteCtrl, 0, [3, 0, 0, 0, 0x44, 0x33, 0x22, 0x11, 0xaa, 0xbb, 0xcc]);
    assert d.log + [w] == [w];
    ReadBack(Dev([w], d.script[1..]), data);
    assert [w] + [ControlOut(MemReadCtrl, 0, [3, 0, 0, 0, 0x44, 0x33, 0x22, 0x11]), ControlIn(MemReadCtrl, 0, 3)]
        == [w, ControlOut(MemReadCtrl, 0, [3, 0, 0, 0, 0x44, 0x33, 0x22, 0x11]), ControlIn(MemReadCtrl, 0, 3)];
  }

  /**
   * memory_test.go, TestMemoryWriteDataVerificationFails: a read-back that
   * differs in the second byte fails the unmasked verification.
   */
  lemma UnmaskedMismatchExample()
    ensures var d := Dev([], [Accept(11), Accept(8), Deliver([0xaa, 0xdd, 0xcc])]);
      WriteExchange(d, 0x11223344, [0xaa, 0xbb, 0xcc], true, None).0 == Fail(VerifyMismatch)
  {
    var data: seq<byte> := [0xaa, 0xbb, 0xcc];
    var back: seq<byte> := [0xaa, 0xdd, 0xcc];
    var d := Dev([], [Accept(11), Accept(8), Deliver(back)]);
    ShortWriteAccepted(d, true, None);
    ReadBack(Dev([ControlOut(MemWriteCtrl, 0, [3, 0, 0, 0, 0x44, 0x33, 0x22, 0x11, 0xaa, 0xbb, 0xcc])], d.script[1..]), back);
    assert back != data by { assert back[1] != data[1]; }
  }

  /**
   * memory_test.go, TestMemoryWriteReadMaskPasses: the same read-back passes
   * when the mask clears the second byte.
   */
  lemma MaskedMatchExample()
    ensures var d := Dev([], [Accept(11), Accept(8), Deliver([0xaa, 0xdd, 0xcc])]);
      WriteExchange(d, 0x11223344, [0xaa, 0xbb, 0xcc], true, Some([0xff, 0x00, 0xff])).0 == Pass
  {
    var data: seq<byte> := [0xaa, 0xbb, 0xcc];
    var back: seq<byte> := [0xaa, 0xdd, 0xcc];
    var mask: seq<byte> := [0xff, 0x00, 0xff];
    var d := Dev([], [Accept(11), Accept(8), Deliver(back)]);
    ShortWriteAccepted(d, true, Some(mask));
    ReadBack(Dev([ControlOut(MemWriteCtrl, 0, [3, 0, 0, 0, 0x44, 0x33, 0x22, 0x11, 0xaa, 0xbb, 0xcc])], d.script[1..]), back);
    assert Masked(back, mask) == Masked(data, mask);
  }

  /**
   * The comparison at the end of a verified write, done as the driver does
   * it: both buffers are masked in place, then compared.
   */
  method CompareMasked(expected: seq<byte>, actual: seq<byte>, mask: Option<seq<byte>>) returns (o: Outcome)
    requires |actual| == |expected|
    ensures o == Verdict(expected, actual, mask)
  {
    var a := SeqToArray(actual);
    var e := SeqToArray(expected);
    if mask.Some? {
      var m := mask.value;
      if |m| != |expected| {
        return Fail(MaskLengthMismatch);
      }
      MaskInPlace(a, m);
      MaskInPlace(e, m);
    }
    o := if e[..] == a[..] then Pass else Fail(VerifyMismatch);
  }

  /** One buffer ANDed with the mask, byte by byte, in place. */
  method MaskInPlace(b: array<byte>, m: seq<byte>)
    requires b.Length == |m|
    modifies b
    ensures b[..] == Masked(old(b[..]), m)
  {
    ghost var original := b[..];
    var i := 0;
    while i < |m|
      invariant 0 <= i <= |m|
      invariant forall k :: 0 <= k < i ==> b[k] == original[k] & m[k]
      invariant forall k :: i <= k < |m| ==> b[k] == original[k]
    {
      b[i] := b[i] & m[i];
      i := i + 1;
    }
    assert b[..] == Masked(original, m);
  }

  /** The driver's handle on the board's external memory. */
  class Memory {
    const dev: Device

    constructor (dev: Device)
      ensures this.dev == dev
    {
      this.dev := dev;
    }

    method DoRead(addr: u32, len: nat) returns (r: Result<seq<byte>>)
      modifies dev
      ensures (r, dev.State()) == ReadExchange(old(dev.State()), addr, len)
    {
      var sent := dev.ControlOut(ReadRequest(len), 0, AddressBlock(addr, len));
      if sent.Fail? {
        return Err(sent.error);
      }
      if len < ControlLimit {
        r := dev.ControlIn(MemReadCtrl, 0, len);
      } else {
        r := dev.Read(len);
        if r.Ok? && |r.value| != len {
          r := Err(ShortBulkRead);
        }
      }
    }

    /** `Read` of `len` bytes; a caller wanting an integer decodes them with `LeValue`. */
    method Read(addr: u32, len: nat) returns (r: Result<seq<byte>>)
      modifies dev
      ensures (r, dev.State()) == ReadExchange(old(dev.State()), addr, len)
    {
      r := DoRead(addr, len);
    }

    method DoWrite(addr: u32, data: seq<byte>, validate: bool, mask: Option<seq<byte>>) returns (o: Outcome)
      modifies dev
      ensures (o, dev.State()) == WriteExchange(old(dev.State()), addr, data, validate, mask)
    {
      var header := AddressBlock(addr, |data|);
      var control := |data| < ControlLimit;
      o := dev.ControlOut(WriteRequest(|data|), 0, if control then header + data else header);
      if o.Fail? {
        return;
      }
      if !control {
        var written := dev.Write(data);
        if written.Err? {
          return Fail(written.error);
        }
        if written.value != |data| {
          return Fail(ShortBulkWrite);
        }
      }
      if !validate {
        return Pass;
      }
      var back := Read(addr, |data|);
      if back.Err? {
        return Fail(back.error);
      }
      o := CompareMasked(data, back.value, mask);
    }

    method Write(addr: u32, data: seq<byte>, validate: bool, mask: Option<seq<byte>>) returns (o: Outcome)
      modifies dev
      ensures (o, dev.State()) == WriteExchange(old(dev.State()), addr, data, validate, mask)
    {
      o := DoWrite(addr, data, validate, mask);
    }
  }

  /** A fresh buffer holding a copy of s, like Go's `make` followed by `copy`. */
  method SeqToArray(s: seq<byte>) returns (a: array<byte>)
    ensures fresh(a) && a[..] == s
  {
    a := new byte[|s|](i requires 0 <= i < |s| => s[i]);
  }
}
