/**
 * The ChipWhisperer-Lite USB device as the rest of the driver sees it
 * (`UsbDeviceInterface`, usb_device.go): vendor control transfers in and
 * out, and bulk reads and writes on the data endpoints.
 *
 * The device is a recorded transcript: every transfer the driver makes is
 * appended to `log`, and the device's answer is taken from the front of a
 * script of replies fixed in advance, the way the repository's gomock tests
 * drive the code. An exhausted script answers every transfer with a failure.
 * The byte-count checks of `UsbDevice.ControlIn`/`ControlOut` are part of the
 * device's contract.
 */
module Usb {
  import opened Base

  /** Vendor request codes (usb_device.go:44-55). */
  datatype Request =
    | MemReadBulk | MemWriteBulk | MemReadCtrl | MemWriteCtrl
    | FpgaStatus | FpgaProgram | FwVersion
    | Usart0Data | Usart0Config
    | XmegaProgram
  {
    function Code(): byte
    {
      match this
      case MemReadBulk => 0x10
      case MemWriteBulk => 0x11
      case MemReadCtrl => 0x12
      case MemWriteCtrl => 0x13
      case FpgaStatus => 0x15
      case FpgaProgram => 0x16
      case FwVersion => 0x17
      case Usart0Data => 0x1a
      case Usart0Config => 0x1b
      case XmegaProgram => 0x20
    }
  }

  /** One call on the device, with everything the driver passed to it. */
  datatype Transfer =
    | ControlIn(req: Request, value: u16, len: nat)
    | ControlOut(req: Request, value: u16, data: seq<byte>)
    | BulkRead(len: nat)
    | BulkWrite(data: seq<byte>)
    | Close

  /**
   * The device's answer to one transfer: an error, a count of bytes it
   * accepted (transfers out), or the bytes it returned (transfers in).
   */
  datatype Reply = Refuse | Accept(count: nat) | Deliver(data: seq<byte>)

  /** Everything the driver has done so far, and what the device will answer next. */
  datatype Dev = Dev(log: seq<Transfer>, script: seq<Reply>)

  function Next(d: Dev): Reply
  {
    if d.script == [] then Refuse else d.script[0]
  }

  /** The device after answering `t` with `Next(d)`. */
  function Answer(d: Dev, t: Transfer): (d': Dev)
    ensures d'.log == d.log + [t]
    ensures |d'.script| == if d.script == [] then 0 else |d.script| - 1
  {
    Dev(d.log + [t], if d.script == [] then [] else d.script[1..])
  }

  /** `ControlIn`: succeeds only with exactly `len` bytes back. */
  function CtrlIn(d: Dev, req: Request, value: u16, len: nat): (r: (Result<seq<byte>>, Dev))
    ensures r.1 == Answer(d, ControlIn(req, value, len))
    ensures r.0.Ok? <==> Next(d).Deliver? && |Next(d).data| == len
    ensures r.0.Ok? ==> r.0.value == Next(d).data
  {
    var d' := Answer(d, ControlIn(req, value, len));
    match Next(d)
    case Deliver(data) => (if |data| == len then Ok(data) else Err(ShortControlTransfer), d')
    case _ => (Err(TransferFailed), d')
  }

  /** `ControlOut`: succeeds only when the device accepts every byte. */
  function CtrlOut(d: Dev, req: Request, value: u16, data: seq<byte>): (r: (Outcome, Dev))
    ensures r.1 == Answer(d, ControlOut(req, value, data))
    ensures r.0.Pass? <==> Next(d) == Accept(|data|)
  {
    var d' := Answer(d, ControlOut(req, value, data));
    match Next(d)
    case Accept(n) => (if n == |data| then Pass else Fail(ShortControlTransfer), d')
    case _ => (Fail(TransferFailed), d')
  }

  /** Bulk `Read` into a buffer of `len` bytes: delivers at most `len` bytes. */
  function BulkIn(d: Dev, len: nat): (r: (Result<seq<byte>>, Dev))
    ensures r.1 == Answer(d, BulkRead(len))
    ensures r.0.Ok? ==> |r.0.value| <= len
    ensures r.0.Ok? <==> Next(d).Deliver?
  {
    var d' := Answer(d, BulkRead(len));
    match Next(d)
    case Deliver(data) => (Ok(if |data| <= len then data else data[..len]), d')
    case _ => (Err(TransferFailed), d')
  }

  /** Bulk `Write`: reports how many bytes were accepted, at most all of them. */
  function BulkOut(d: Dev, data: seq<byte>): (r: (Result<nat>, Dev))
    ensures r.1 == Answer(d, BulkWrite(data))
    ensures r.0.Ok? ==> r.0.value <= |data|
    ensures r.0.Ok? <==> Next(d).Accept?
  {
    var d' := Answer(d, BulkWrite(data));
    match Next(d)
    case Accept(n) => (Ok(if n <= |data| then n else |data|), d')
    case _ => (Err(TransferFailed), d')
  }

  /** Closing records the call and consumes no reply; it never fails. */
  function Closed(d: Dev): (d': Dev)
    ensures d'.script == d.script && d'.log == d.log + [Close]
  {
    Dev(d.log + [Close], d.script)
  }

  class Device {
    var log: seq<Transfer>
    var script: seq<Reply>

    function State(): Dev
      reads this
    {
      Dev(log, script)
    }

    constructor (replies: seq<Reply>)
      ensures State() == Dev([], replies)
    {
      log, script := [], replies;
    }

    method ControlIn(req: Request, value: u16, len: nat) returns (r: Result<seq<byte>>)
      modifies this
      ensures (r, State()) == CtrlIn(old(State()), req, value, len)
    {
      var d := CtrlIn(State(), req, value, len);
      r, log, script := d.0, d.1.log, d.1.script;
    }

    method ControlOut(req: Request, value: u16, data: seq<byte>) returns (o: Outcome)
      modifies this
      ensures (o, State()) == CtrlOut(old(State()), req, value, data)
    {
      var d := CtrlOut(State(), req, value, data);
      o, log, script := d.0, d.1.log, d.1.script;
    }

    method Read(len: nat) returns (r: Result<seq<byte>>)
      modifies this
      ensures (r, State()) == BulkIn(old(State()), len)
    {
      var d := BulkIn(State(), len);
      r, log, script := d.0, d.1.log, d.1.script;
    }

    method Write(data: seq<byte>) returns (r: Result<nat>)
      modifies this
      ensures (r, State()) == BulkOut(old(State()), data)
    {
      var d := BulkOut(State(), data);
      r, log, script := d.0, d.1.log, d.1.script;
    }

    method Close()
      modifies this
      ensures State() == Closed(old(State()))
    {
      log := log + [Transfer.Close];
    }
  }
}
