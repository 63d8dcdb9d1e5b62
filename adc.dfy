/**
 * The OpenADC controller of adc.go as a function of its state: the sticky
 * error `err`, the sample limit `hwMaxSamples`, the external clock frequency,
 * and the register file behind `Fpga.Mem`.
 *
 * Almost every operation begins with `if c.err != nil { return zero }` and
 * ends with `c.err = <the outcome of its last memory access>`; `Load` and
 * `Store` are those guarded accesses, `Fetch` and `Put` the unguarded ones
 * that some operations use. Each getter returns its value together with the
 * new state; each setter returns the new state. The class in adc_driver.dfy
 * performs the same steps on a mutable register file.
 */
module OpenAdc {
  import opened Base
  import opened Bytes
  import opened AdcBus
  import opened AdcFields
  import TraceDecode
  import AdcClock

  // Register addresses (adc.go).
  const AddrGain: Address := 0
  const AddrSettings: Address := 1
  const AddrStatus: Address := 2
  const AddrAdcData: Address := 3
  const AddrAdvClk: Address := 6
  const AddrSysFreq: Address := 7
  const AddrVersions: Address := 10
  const AddrDecimate: Address := 15
  const AddrSamples: Address := 16
  const AddrPresamples: Address := 17
  const AddrBytesToRx: Address := 18
  const AddrTriggerDur: Address := 20
  const AddrOffset: Address := 26
  const AddrExtClk: Address := 38
  const AddrTrigSrc: Address := 39
  const AddrIoRoute: Address := 55

  /** The largest gain `SetGain` accepts. */
  const MaxGain: byte := 78

  datatype AdcState = AdcState(err: Option<Error>, hwMaxSamples: u32, extClockFreq: u32, regs: Regs)

  function Zeros(n: nat): (z: seq<byte>)
    ensures |z| == n && forall i :: 0 <= i < n ==> z[i] == 0
  {
    seq(n, i => 0)
  }

  /** `c.err = c.fpga.Mem.Read(addr, v)` without a guard: the outcome replaces `err`; a failed read leaves `v` zero. */
  function Fetch(s: AdcState, addr: Address, len: nat): (r: (seq<byte>, AdcState))
    ensures |r.0| == len
    ensures r.1 == s.(err := r.1.err, regs := ReadReg(s.regs, addr, len).1)
    ensures r.1.err.None? <==> Readable(s.regs, addr)
  {
    var (v, regs) := ReadReg(s.regs, addr, len);
    if v.Ok? then (v.value, s.(err := None, regs := regs))
    else (Zeros(len), s.(err := Some(v.error), regs := regs))
  }

  /** The guarded read: with `err` set, no access and a zero value. */
  function Load(s: AdcState, addr: Address, len: nat): (r: (seq<byte>, AdcState))
    ensures |r.0| == len
  {
    if s.err.Some? then (Zeros(len), s) else Fetch(s, addr, len)
  }

  /** `c.err = c.fpga.Mem.Write(addr, v, validate, mask)` without a guard. */
  function Put(s: AdcState, addr: Address, data: seq<byte>, validate: bool, mask: Option<seq<byte>>): AdcState
  {
    var (o, regs) := WriteReg(s.regs, addr, data, validate, mask);
    s.(err := if o.Pass? then None else Some(o.error), regs := regs)
  }

  /** The guarded write: with `err` set, no access. */
  function Store(s: AdcState, addr: Address, data: seq<byte>, validate: bool, mask: Option<seq<byte>>): AdcState
  {
    if s.err.Some? then s else Put(s, addr, data, validate, mask)
  }

  /** `status`. */
  function Status(s: AdcState): (byte, AdcState)
  {
    var (b, s1) := Load(s, AddrStatus, 1);
    (b[0], s1)
  }

  /** `settings`. */
  function Settings(s: AdcState): (byte, AdcState)
  {
    var (b, s1) := Load(s, AddrSettings, 1);
    (b[0], s1)
  }

  /** `setSettings`. */
  function SetSettings(s: AdcState, settings: byte, validate: bool): AdcState
  {
    Store(s, AddrSettings, [settings], validate, None)
  }

  function GainMode(s: AdcState): (GainMode, AdcState)
  {
    var (v, s1) := Settings(s);
    (GainModeOf(v), s1)
  }

  function SetGainMode(s: AdcState, mode: GainMode): AdcState
  {
    var (v, s1) := Settings(s);
    SetSettings(s1, WithGainMode(v, mode), true)
  }

  function Gain(s: AdcState): (byte, AdcState)
  {
    var (b, s1) := Load(s, AddrGain, 1);
    (b[0], s1)
  }

  /** `SetGain`: a gain above 78 is an error and nothing is written. */
  function SetGain(s: AdcState, gain: byte): AdcState
  {
    if s.err.Some? then s
    else if gain > MaxGain then s.(err := Some(GainOutOfRange))
    else Store(s, AddrGain, [gain], true, None)
  }

  function TriggerMode(s: AdcState): (TriggerMode, AdcState)
  {
    var (v, s1) := Settings(s);
    (TriggerModeOf(v), s1)
  }

  function SetTriggerMode(s: AdcState, mode: TriggerMode): AdcState
  {
    var (v, s1) := Settings(s);
    SetSettings(s1, WithTriggerMode(v, mode), true)
  }

  /** `numSamples`, which `TotalSamples` returns. */
  function NumSamples(s: AdcState): (u32, AdcState)
  {
    var (b, s1) := Load(s, AddrSamples, 4);
    (LeWord32(b), s1)
  }

  /** `setNumSamples`. */
  function SetNumSamples(s: AdcState, n: u32): AdcState
  {
    Store(s, AddrSamples, Le32(n), true, None)
  }

  /**
   * `SetTotalSamples`: more than `hwMaxSamples` is an error and nothing is
   * written. The range test has no `err` guard, so it replaces an earlier error.
   */
  function SetTotalSamples(s: AdcState, n: u32): AdcState
  {
    if n > s.hwMaxSamples then s.(err := Some(TooManySamples)) else SetNumSamples(s, n)
  }

  /** `decimate`, which `DownsampleFactor` returns: zero when `err` is set or the read fails. */
  function Decimate(s: AdcState): (u16, AdcState)
  {
    if s.err.Some? then (0, s)
    else
      var (b, s1) := Fetch(s, AddrDecimate, 2);
      if s1.err.Some? then (0, s1) else (DecimateOf(LeWord16(b)), s1)
  }

  /** `setDecimate`, which `SetDownsampleFactor` calls. */
  function SetDecimate(s: AdcState, factor: u16): AdcState
  {
    Store(s, AddrDecimate, Le16(DecimateRaw(factor)), true, None)
  }
  /** `TriggerOffset`. */
  function TriggerOffset(s: AdcState): (u32, AdcState)
  {
    var (b, s1) := Load(s, AddrOffset, 4);
    (LeWord32(b), s1)
  }

  /** `SetTriggerOffset`: written validated. */
  function SetTriggerOffset(s: AdcState, offset: u32): AdcState
  {
    Store(s, AddrOffset, Le32(offset), true, None)
  }

  /**
   * `PreTriggerSamples`: the presample register, then the board version;
   * CW-Lite and CW1200 count in threes, so the value is multiplied by 3 in
   * `uint32`.
   */
  function PreTriggerSamples(s: AdcState): (u32, AdcState)
  {
    if s.err.Some? then (0, s)
    else
      var (b, s1) := Fetch(s, AddrPresamples, 4);
      if s1.err.Some? then (0, s1)
      else
        var (ver, s2) := Version(s1);
        (if CountsPresamplesInThrees(ver.hwType) then LeWord32(b) * 3 else LeWord32(b), s2)
  }

  /**
   * `SetPreTriggerSamples`: on boards other than CW-Lite and CW1200 it is an
   * error and nothing is written; otherwise the count is written as given.
   */
  function SetPreTriggerSamples(s: AdcState, samples: u32): AdcState
  {
    if s.err.Some? then s
    else
      var (ver, s1) := Version(s);
      if s1.err.Some? then s1
      else if !CountsPresamplesInThrees(ver.hwType) then s1.(err := Some(NotReliableOnHardware))
      else Put(s1, AddrPresamples, Le32(samples), true, None)
  }

  /** `ActiveCount`: the trigger-duration register. */
  function ActiveCount(s: AdcState): (u32, AdcState)
  {
    var (b, s1) := Load(s, AddrTriggerDur, 4);
    (LeWord32(b), s1)
  }


  /** `advClock`. */
  function AdvClock(s: AdcState): (AdvClk, AdcState)
  {
    var (b, s1) := Load(s, AddrAdvClk, 4);
    (AdvClkOf(b), s1)
  }

  /** `setAdvClock`: validated through `clkReadMask`. */
  function SetAdvClock(s: AdcState, a: AdvClk, validate: bool): AdcState
  {
    Store(s, AddrAdvClk, AdvClkBytes(a), validate, Some(ClkReadMask))
  }

  /** `AdcClockSource`: the all-zero tuple when `err` is set. */
  function AdcClockSource(s: AdcState): (AdcSrcTuple, AdcState)
  {
    if s.err.Some? then (AdcSrcTuple(0, 0, 0), s)
    else
      var (a, s1) := AdvClock(s);
      (ClockSourceOf(a.srcAndStatus), s1)
  }

  /**
   * `SetAdcClockSource`: a field outside its enumeration is an error (which
   * replaces a failure of the preceding read) and nothing is written;
   * otherwise bits 0-2 of `SrcAndStatus` are set and the ADC is reset.
   */
  function SetAdcClockSource(s: AdcState, src: AdcSrcTuple): AdcState
  {
    if s.err.Some? then s
    else
      var (a, s1) := AdvClock(s);
      match WithClockSource(a.srcAndStatus, src)
      case Err(e) => s1.(err := Some(e))
      case Ok(v) => ResetAdc(SetAdvClock(s1, a.(srcAndStatus := v), true))
  }

  /** `resetAdc`: pulse bit 4 of `SrcAndStatus`, unvalidated. */
  function ResetAdc(s: AdcState): AdcState
  {
    if s.err.Some? then s
    else
      var (a, s1) := AdvClock(s);
      var on := a.(srcAndStatus := a.srcAndStatus | 0x10);
      SetAdvClock(SetAdvClock(s1, on, false), on.(srcAndStatus := on.srcAndStatus & !0x10), false)
  }

  /** `reloadClkGen`: pulse the CLKGEN load flag, validated. */
  function ReloadClkGen(s: AdcState): AdcState
  {
    if s.err.Some? then s
    else
      var (a, s1) := AdvClock(s);
      var on := a.(flags := a.flags | ClkGenLoad);
      SetAdvClock(SetAdvClock(s1, on, true), on.(flags := on.flags & !ClkGenLoad), true)
  }

  /** `resetClkGen`: pulse the CLKGEN reset flag, unvalidated, then reload. */
  function ResetClkGen(s: AdcState): AdcState
  {
    if s.err.Some? then s
    else
      var (a, s1) := AdvClock(s);
      var on := a.(flags := a.flags | ClkGenReset);
      ReloadClkGen(SetAdvClock(SetAdvClock(s1, on, false), on.(flags := on.flags & !ClkGenReset), false))
  }

  /** `setClkGenMul`: below 2 is an error; otherwise store `uint8(mul) - 1` with a load pulse. */
  function SetClkGenMul(s: AdcState, mul: u32): AdcState
  {
    if s.err.Some? then s
    else if mul < 2 then s.(err := Some(ClkGenMulTooSmall))
    else
      var (a, s1) := AdvClock(s);
      var on := a.(mul := ClkGenField(mul), flags := a.flags | ClkGenLoad);
      SetAdvClock(SetAdvClock(s1, on, true), on.(flags := on.flags & !ClkGenLoad), true)
  }

  /** `setClkGenDiv`: below 1 is an error; otherwise store `uint8(div) - 1` with a load pulse. */
  function SetClkGenDiv(s: AdcState, div: u32): AdcState
  {
    if s.err.Some? then s
    else if div < 1 then s.(err := Some(ClkGenDivTooSmall))
    else
      var (a, s1) := AdvClock(s);
      var on := a.(div := ClkGenField(div), flags := a.flags | ClkGenLoad);
      SetAdvClock(SetAdvClock(s1, on, true), on.(flags := on.flags & !ClkGenLoad), true)
  }

  /**
   * `clkGenMul`'s loop from try `tries`: a zero multiplier is re-initialised
   * to 2, a locked DCM (done flag) gives `Mul + 1`, otherwise CLKGEN is
   * reloaded; after two tries the error is set, without a guard.
   */
  function ClkGenMulFrom(s: AdcState, tries: nat): (u32, AdcState)
    decreases 2 - tries
  {
    if tries >= 2 then (0, s.(err := Some(ClkGenNotLocked)))
    else
      var (a, s1) := AdvClock(s);
      if a.mul == 0 then ClkGenMulFrom(SetClkGenMul(s1, 2), tries + 1)
      else if a.flags & ClkGenDone > 0 then (ClkGenValue(a.mul), s1)
      else ClkGenMulFrom(ReloadClkGen(s1), tries + 1)
  }

  function ClkGenMul(s: AdcState): (u32, AdcState)
  {
    if s.err.Some? then (0, s) else ClkGenMulFrom(s, 0)
  }

  /** `clkGenDiv`'s loop: as `clkGenMul` without the zero case; 1 on failure. */
  function ClkGenDivFrom(s: AdcState, tries: nat): (r: (u32, AdcState))
    decreases 2 - tries
    ensures r.0 != 0
  {
    if tries >= 2 then (1, s.(err := Some(ClkGenNotLocked)))
    else
      var (a, s1) := AdvClock(s);
      if a.flags & ClkGenDone > 0 then (ClkGenValue(a.div), s1)
      else ClkGenDivFrom(ReloadClkGen(s1), tries + 1)
  }

  /** `clkGenDiv`: never zero, so `ClkGenOutputFreq` never divides by zero. */
  function ClkGenDiv(s: AdcState): (r: (u32, AdcState))
    ensures r.0 != 0
  {
    if s.err.Some? then (1, s) else ClkGenDivFrom(s, 0)
  }

  function SysFreq(s: AdcState): (u32, AdcState)
  {
    var (b, s1) := Load(s, AddrSysFreq, 4);
    (LeWord32(b), s1)
  }
  /** `Version`: six bytes of the version register; `unknownHwVersion` when `err` is set or the read fails. */
  function Version(s: AdcState): (HwVersion, AdcState)
  {
    if s.err.Some? then (UnknownHwVersion, s)
    else
      var (b, s1) := Fetch(s, AddrVersions, 6);
      if s1.err.Some? then (UnknownHwVersion, s1) else (HwVersionOf(b), s1)
  }


  function ClkGenInputSource(s: AdcState): (ClkGenInputSrc, AdcState)
  {
    var (a, s1) := AdvClock(s);
    (ClkGenInputOf(a.srcAndStatus), s1)
  }

  function SetExtClockFreq(s: AdcState, freq: u32): AdcState
  {
    if s.err.Some? then s else s.(extClockFreq := freq)
  }

  /** The CLKGEN input frequency: the external clock or the system clock. */
  function InputFreq(s: AdcState): (u32, AdcState)
  {
    var (src, s1) := ClkGenInputSource(s);
    if src == ClkGenInputExtClk then (s1.extClockFreq, s1) else SysFreq(s1)
  }

  /** `SetClkGenOutputFreq`: the searched multiplier and divider, then CLKGEN and ADC resets. */
  function SetClkGenOutputFreq(s: AdcState, freq: u32): AdcState
  {
    if s.err.Some? then s
    else
      var (inp, s1) := InputFreq(s);
      var (mul, div) := AdcClock.ClkGenMulDiv(freq as nat, inp as nat);
      ResetAdc(ResetClkGen(SetClkGenDiv(SetClkGenMul(s1, U32(mul)), U32(div))))
  }
  /**
   * `ClkGenOutputFreq`: the input frequency times the multiplier over the
   * divider, the product taken in `uint32`.
   */
  function ClkGenOutputFreq(s: AdcState): (u32, AdcState)
  {
    if s.err.Some? then (0, s)
    else
      var (inp, s1) := InputFreq(s);
      var (mul, s2) := ClkGenMul(s1);
      var (div, s3) := ClkGenDiv(s2);
      (ScaleFreq(inp, mul, div), s3)
  }

  /** `(inpFreq * mul) / div` in `uint32`: the product wraps before the division. */
  function ScaleFreq(inp: u32, mul: u32, div: u32): u32
    requires div != 0
  {
    (inp * mul) / div
  }

  /** `FreqCounterSource`: bit 3 of the CLKGEN flags. */
  function FreqCounterSource(s: AdcState): (FreqCounterSrc, AdcState)
  {
    var (a, s1) := AdvClock(s);
    (FreqCounterOf(a.flags), s1)
  }

  /** `SetFreqCounterSource`: store the flag validated, then reset CLKGEN and the ADC. */
  function SetFreqCounterSource(s: AdcState, src: FreqCounterSrc): AdcState
  {
    if s.err.Some? then s
    else
      var (a, s1) := AdvClock(s);
      ResetAdc(ResetClkGen(SetAdvClock(s1, a.(flags := WithFreqCounter(a.flags, src)), true)))
  }

  /** `SetClkGenInputSource`: store bit 3 of `SrcAndStatus` validated. */
  function SetClkGenInputSource(s: AdcState, src: ClkGenInputSrc): AdcState
  {
    if s.err.Some? then s
    else
      var (a, s1) := AdvClock(s);
      SetAdvClock(s1, a.(srcAndStatus := WithClkGenInput(a.srcAndStatus, src)), true)
  }

  /** `ClkGenDcmLocked`: bit 5 of `SrcAndStatus`. */
  function ClkGenDcmLocked(s: AdcState): (bool, AdcState)
  {
    var (a, s1) := AdvClock(s);
    (a.srcAndStatus & ClkGenDcmLockedBit > 0, s1)
  }

  /** `DcmLocked`: bit 6 of `SrcAndStatus`. */
  function DcmLocked(s: AdcState): (bool, AdcState)
  {
    var (a, s1) := AdvClock(s);
    (a.srcAndStatus & AdcDcmLockedBit > 0, s1)
  }

  /** `TriggerPinState`: the external trigger bit of the status register. */
  function TriggerPinState(s: AdcState): (bool, AdcState)
  {
    var (b, s1) := Status(s);
    (b & StatusExtMask > 0, s1)
  }


  /** `targetClkOut`: bits 5-6 of the external-clock register. */
  function TargetClkOut(s: AdcState): (byte, AdcState)
  {
    var (b, s1) := Load(s, AddrExtClk, 1);
    (ClkOutOf(b[0]), s1)
  }

  /** `setTargetClkOut`: read, replace bits 5-6, write back validated. */
  function SetTargetClkOut(s: AdcState, clkout: byte): AdcState
  {
    if s.err.Some? then s
    else
      var (b, s1) := Fetch(s, AddrExtClk, 1);
      if s1.err.Some? then s1 else Put(s1, AddrExtClk, [WithClkOut(b[0], clkout)], true, None)
  }

  /** `Hs2`: an unknown clock-out field sets the error (unguarded) and reports mode 0. */
  function Hs2(s: AdcState): (Hs2Mode, AdcState)
  {
    var (f, s1) := TargetClkOut(s);
    match Hs2Of(f)
    case Ok(m) => (m, s1)
    case Err(e) => (Hs2ModeDisabled, s1.(err := Some(e)))
  }

  function SetHs2(s: AdcState, mode: Hs2Mode): AdcState
  {
    if s.err.Some? then s else SetTargetClkOut(s, Hs2Field(mode))
  }

  /** `specialGpio`: byte 6 of the IO-route register; mode 0 (`GpioLow`) when `err` is set or the read fails. */
  function SpecialGpio(s: AdcState, pin: SpecialPin): (GpioMode, AdcState)
  {
    if s.err.Some? then (GpioLow, s)
    else
      var (buf, s1) := Fetch(s, AddrIoRoute, 8);
      if s1.err.Some? then (GpioLow, s1) else (SpecialGpioOf(buf[6], pin), s1)
  }

  /** `setSpecialGpio`: read the eight IO-route bytes, change byte 6, write them back validated. */
  function SetSpecialGpio(s: AdcState, pin: SpecialPin, mode: GpioMode): AdcState
  {
    if s.err.Some? then s
    else
      var (buf, s1) := Fetch(s, AddrIoRoute, 8);
      if s1.err.Some? then s1
      else Put(s1, AddrIoRoute, buf[6 := WithSpecialGpio(buf[6], pin, mode)], true, None)
  }
  /** `TriggerTargetIoPins`: the pins whose bit is set in the trigger-source register. */
  function TriggerTargetIoPins(s: AdcState): (seq<int>, AdcState)
  {
    if s.err.Some? then ([], s)
    else
      var (b, s1) := Fetch(s, AddrTrigSrc, 1);
      if s1.err.Some? then ([], s1) else (TriggerPinsOf(b[0]), s1)
  }

  /** `SetTriggerTargetIoPin`: an invalid pin is an error and nothing is written. */
  function SetTriggerTargetIoPin(s: AdcState, pin: int): AdcState
  {
    if s.err.Some? then s
    else
      match TriggerPinByte(pin)
      case Err(e) => s.(err := Some(e))
      case Ok(b) => Put(s, AddrTrigSrc, [b], true, None)
  }

  /** `tio`: the route byte of target IO pin `pin`; an unknown mode sets the error and reports 0. */
  function Tio(s: AdcState, pin: nat): (byte, AdcState)
    requires pin < 8
  {
    if s.err.Some? then (0, s)
    else
      var (buf, s1) := Fetch(s, AddrIoRoute, 8);
      if s1.err.Some? then (0, s1)
      else
        match TioModeOf(buf[pin])
        case Ok(mode) => (mode, s1)
        case Err(e) => (0, s1.(err := Some(e)))
  }

  /** `setTio`: read the eight IO-route bytes, replace byte `pin`, write them back validated. */
  function SetTio(s: AdcState, pin: nat, mode: byte): AdcState
    requires pin < 8
  {
    if s.err.Some? then s
    else
      var (buf, s1) := Fetch(s, AddrIoRoute, 8);
      if s1.err.Some? then s1 else Put(s1, AddrIoRoute, buf[pin := mode], true, None)
  }

  /** `gpio`: mode 0 (`GpioLow`) when `err` is set or the read fails. */
  function Gpio(s: AdcState, pin: nat): (GpioMode, AdcState)
    requires pin < 8
  {
    if s.err.Some? then (GpioLow, s)
    else
      var (buf, s1) := Fetch(s, AddrIoRoute, 8);
      if s1.err.Some? then (GpioLow, s1) else (GpioOf(buf[pin]), s1)
  }

  /** `setGpio`: a pin not routed to GPIO is an error and nothing is written. */
  function SetGpio(s: AdcState, pin: nat, mode: GpioMode): AdcState
    requires pin < 8
  {
    if s.err.Some? then s
    else
      var (buf, s1) := Fetch(s, AddrIoRoute, 8);
      if s1.err.Some? then s1
      else if buf[pin] & IoRouteGpioE == 0 then s1.(err := Some(NotInGpioMode))
      else Put(s1, AddrIoRoute, buf[pin := WithGpio(buf[pin], mode)], true, None)
  }

  /**
   * `targetIo`: a GPIO route reports its level; the serial routes report
   * themselves; any other route, the high-impedance one included (and the 0
   * of a failed `tio`), sets "unsupported" and reports mode 0, `SerialRx`.
   */
  function TargetIo(s: AdcState, pin: nat): (TargetIoMode, AdcState)
    requires pin < 8
  {
    if s.err.Some? then (TargetIoModeSerialRx, s)
    else
      var (t, s1) := Tio(s, pin);
      if t == IoRouteGpioE then
        var (g, s2) := Gpio(s1, pin);
        (match g
         case GpioLow => TargetIoModeGpioLow
         case GpioHigh => TargetIoModeGpioHigh
         case GpioDisabled => TargetIoModeGpioDisabled, s2)
      else if t == IoRouteStx then (TargetIoModeSerialTx, s1)
      else if t == IoRouteSrx then (TargetIoModeSerialRx, s1)
      else (TargetIoModeSerialRx, s1.(err := Some(UnsupportedTioMode)))
  }

  /**
   * `setTargetIo`: the serial modes set the route; the GPIO levels route the
   * pin to GPIO, then set the level; high impedance and "GPIO disabled" are
   * unsupported.
   */
  function SetTargetIo(s: AdcState, pin: nat, mode: TargetIoMode): AdcState
    requires pin < 8
  {
    if s.err.Some? then s
    else
      match mode
      case TargetIoModeSerialRx => SetTio(s, pin, IoRouteSrx)
      case TargetIoModeSerialTx => SetTio(s, pin, IoRouteStx)
      case TargetIoModeGpioLow => SetGpio(SetTio(s, pin, IoRouteGpioE), pin, GpioLow)
      case TargetIoModeGpioHigh => SetGpio(SetTio(s, pin, IoRouteGpioE), pin, GpioHigh)
      case _ => s.(err := Some(UnsupportedTioMode))
  }


  function SetArmOn(s: AdcState): AdcState
  {
    var (v, s1) := Settings(s);
    SetSettings(s1, v | SettingsArm, true)
  }

  function SetArmOff(s: AdcState): AdcState
  {
    var (v, s1) := Settings(s);
    SetSettings(s1, v & !SettingsArm, true)
  }

  /** `setTriggerNow`: pulse the trigger-now bit. */
  function SetTriggerNow(s: AdcState): AdcState
  {
    if s.err.Some? then s
    else
      var (v, s1) := Settings(s);
      SetSettings(SetSettings(s1, v | SettingsTrigNow, true), v & !SettingsTrigNow, true)
  }

  /** Triggered: the arm bit has dropped and the FIFO holds data. */
  predicate Triggered(status: byte)
  {
    status & StatusArmMask != StatusArmMask && status & StatusFifoMask != 0
  }

  /**
   * The polling goroutine of `WaitForTigger` with `polls` status reads left
   * before the two-second timer fires; when it fires, the trigger is forced
   * and the result is true.
   */
  function PollTrigger(s: AdcState, polls: nat): (bool, AdcState)
    decreases polls
  {
    if polls == 0 then (true, SetTriggerNow(s))
    else
      var (status, s1) := Status(s);
      if Triggered(status) then (false, s1) else PollTrigger(s1, polls - 1)
  }

  /** `WaitForTigger`: poll, then disarm; true when it timed out and forced the trigger. */
  function WaitForTrigger(s: AdcState, polls: nat): (bool, AdcState)
  {
    var (forced, s1) := PollTrigger(s, polls);
    (forced, SetArmOff(s1))
  }

  /**
   * `ProcessTraceData` as a method of the controller: a framing error sets
   * `err`; otherwise each decoded word's `binary.Read` assigns nil to `err`,
   * so a trace of at least one word clears an earlier error.
   */
  function ProcessTraceData(s: AdcState, data: seq<byte>): (seq<nat>, AdcState)
  {
    match TraceDecode.Decode(data)
    case Err(e) => ([], s.(err := Some(e)))
    case Ok(v) => (v, if |data| >= 8 then s.(err := None) else s)
  }

  /**
   * `TraceData`'s wanted byte count: the sample count rounded up to a
   * multiple of three, times 4/3, plus 256 — in `uint32`, so the rounding and
   * the product wrap around.
   */
  function WantedBytes(samples: u32): nat
  {
    WantedCount(samples as nat)
  }

  /** `WantedBytes` on the sample count as a number below 2^32. */
  function WantedCount(n: nat): nat
  {
    var rounded := if n % 3 != 0 then (n + 3 - n % 3) % 0x1_0000_0000 else n;
    ((rounded * 4) % 0x1_0000_0000) / 3 + 256
  }

  /** `TraceData`'s read length: the wanted bytes, capped at what is pending. */
  function ReadLength(samples: u32, pending: u32): nat
  {
    var want := WantedBytes(samples);
    if (pending as nat) < want then pending as nat else want
  }

  /**
   * `TraceData`: the pending byte count is read without a guard, so it
   * replaces an earlier error; nothing is pending gives no samples; the data
   * read is unguarded as well; the decoded samples are cut to `numSamples`.
   */
  function TraceData(s: AdcState): (seq<nat>, AdcState)
  {
    var (p, s1) := Fetch(s, AddrBytesToRx, 4);
    if s1.err.Some? then ([], s1)
    else
      var pending := LeWord32(p);
      if pending == 0 then ([], s1)
      else
        var (n, s2) := NumSamples(s1);
        var (data, s3) := Fetch(s2, AddrAdcData, ReadLength(n, pending));
        if s3.err.Some? then ([], s3)
        else
          var (ms, s4) := ProcessTraceData(s3, data);
          if s4.err.Some? then ([], s4)
          else (if |ms| > n as nat then ms[..n as nat] else ms, s4)
  }

  /**
   * `setResetOn`: set the reset bit unvalidated, then lower the sample limit
   * to `numSamples() - 45` in `uint32` and write it back.
   */
  function SetResetOn(s: AdcState): AdcState
  {
    var (v, s1) := Settings(s);
    var (n, s3) := NumSamples(SetSettings(s1, v | SettingsReset, false));
    LowerSampleLimit(s3, n)
  }

  /** `c.hwMaxSamples = n - 45` in `uint32`, then `setNumSamples(c.hwMaxSamples)`. */
  function LowerSampleLimit(s: AdcState, n: u32): AdcState
  {
    var s4 := s.(hwMaxSamples := n - 45);
    SetNumSamples(s4, s4.hwMaxSamples)
  }

  function SetResetOff(s: AdcState): AdcState
  {
    var (v, s1) := Settings(s);
    SetSettings(s1, v & !SettingsReset, true)
  }

  /** `refreshParams`: read each setting and write it back, in the order of adc.go. */
  function RefreshParams(s: AdcState): AdcState
  {
    var (gm, s1) := GainMode(s);
    var (g, s2) := Gain(SetGainMode(s1, gm));
    var (tm, s3) := TriggerMode(SetGain(s2, g));
    var (off, s4) := TriggerOffset(SetTriggerMode(s3, tm));
    var (pre, s5) := PreTriggerSamples(SetTriggerOffset(s4, off));
    var (n, s6) := NumSamples(SetPreTriggerSamples(s5, pre));
    var (f, s7) := Decimate(SetTotalSamples(s6, n));
    var (src, s8) := AdcClockSource(SetDecimate(s7, f));
    var (fc, s9) := FreqCounterSource(SetAdcClockSource(s8, src));
    var (inp, s10) := ClkGenInputSource(SetFreqCounterSource(s9, fc));
    var s11 := SetClkGenInputSource(s10, inp);
    var s12 := SetExtClockFreq(s11, s11.extClockFreq);
    var (out, s13) := ClkGenOutputFreq(s12);
    SetClkGenOutputFreq(s13, out)
  }

  /** `defaultSetup`: on a CW-Lite, the defaults of adc.go; on any other board, only the version read. */
  function DefaultSetup(s: AdcState): AdcState
  {
    var (ver, s1) := Version(s);
    if ver.hwType != HwChipWhispererLite then s1
    else
      var s2 := SetTriggerMode(SetTriggerOffset(SetTotalSamples(SetGain(s1, 45), 3000), 0), TriggerModeRisingEdge);
      var s3 := SetTriggerTargetIoPin(SetAdcClockSource(SetClkGenOutputFreq(s2, 7_370_000), AdcSrcClkGenX4ViaDcm), 3);
      SetHs2(SetTargetIo(SetTargetIo(s3, 0, TargetIoModeSerialRx), 1, TargetIoModeSerialTx), Hs2ModeClkGen)
  }

  /** The state `NewAdc` leaves behind: reset on, reset off, `refreshParams`, `defaultSetup`. */
  function Setup(regs: Regs): AdcState
  {
    DefaultSetup(RefreshParams(SetResetOff(SetResetOn(AdcState(None, 0, 10_000_000, regs)))))
  }
}
