/**
 * The enumerations of the ADC interface (adc_interface.go) and the bit
 * layouts adc.go uses to pack them into OpenADC registers: the settings
 * register (gain mode, trigger edge and wait), the advanced clock register
 * (clock source, CLKGEN multiplier and divider, CLKGEN flags), the special
 * GPIO byte of the IO-route register, the target clock-out field of the
 * external-clock register, and the decimation register.
 *
 * Each decoder is a pure function of the register bits; each encoder says
 * which bits it changes, and that the decoder recovers what it encoded.
 */
module AdcFields {
  import opened Base

  datatype GainMode = GainModeHigh | GainModeLow

  datatype TriggerMode = TriggerModeRisingEdge | TriggerModeFallingEdge | TriggerModeLow | TriggerModeHigh

  datatype GpioMode = GpioLow | GpioHigh | GpioDisabled

  datatype Hs2Mode = Hs2ModeDisabled | Hs2ModeClkGen | Hs2ModeGlitch

  datatype ClkGenInputSrc = ClkGenInputSystem | ClkGenInputExtClk

  /** The three special target pins nRST, PDID and PDIC (pin numbers 100-102). */
  datatype SpecialPin = Nrst | Pdid | Pdic

  /**
   * `AdcSrcTuple`. Its fields are Go `int`s, so values outside the
   * enumerations can be passed, and `SetAdcClockSource` rejects them.
   */
  datatype AdcSrcTuple = AdcSrcTuple(adcSrc: int, dcmOut: int, dcmInput: int)

  const AdcSrcDcm: int := 0
  const AdcSrcExtClk: int := 1
  const DcmInputClkGen: int := 0
  const DcmInputExtClk: int := 1

  /** `AdcSrcClkGenX4ViaDcm`, the source of the default setup. */
  const AdcSrcClkGenX4ViaDcm := AdcSrcTuple(AdcSrcDcm, 4, DcmInputClkGen)

  // Settings register bits.
  const SettingsReset: byte := 0x01
  const SettingsGainHigh: byte := 0x02
  const SettingsTrigHigh: byte := 0x04
  const SettingsArm: byte := 0x08
  const SettingsWaitYes: byte := 0x20
  const SettingsTrigNow: byte := 0x40

  // Status register bits.
  const StatusArmMask: byte := 0x01
  const StatusFifoMask: byte := 0x02
  /** `statusExtMask`: the level of the external trigger pin. */
  const StatusExtMask: byte := 0x04

  /** The other bits of a byte, as `^mask`. */
  predicate SameOutside(a: byte, b: byte, mask: byte)
  {
    a & !mask == b & !mask
  }

  function GainModeOf(settings: byte): GainMode
  {
    if settings & SettingsGainHigh > 0 then GainModeHigh else GainModeLow
  }

  /** Writing back the gain mode just read leaves the settings byte as it was. */
  lemma GainModeFixpoint(settings: byte)
    ensures WithGainMode(settings, GainModeOf(settings)) == settings
  {
  }

  /** `SetGainMode`'s new settings byte. */
  function WithGainMode(settings: byte, mode: GainMode): (r: byte)
    ensures GainModeOf(r) == mode
    ensures SameOutside(r, settings, SettingsGainHigh)
  {
    if mode == GainModeHigh then settings | SettingsGainHigh
    else
      var r := settings & !SettingsGainHigh;
      assert r & SettingsGainHigh == 0;
      assert GainModeOf(r) == GainModeLow;
      assert SameOutside(r, settings, SettingsGainHigh);
      r
  }

  /** `TriggerMode`: the trigger-level and wait bits of the settings register. */
  function TriggerModeOf(settings: byte): TriggerMode
  {
    var c := settings & (SettingsTrigHigh | SettingsWaitYes);
    if c == SettingsTrigHigh | SettingsWaitYes then TriggerModeRisingEdge
    else if c == SettingsWaitYes then TriggerModeFallingEdge
    else if c == SettingsTrigHigh then TriggerModeHigh
    else TriggerModeLow
  }

  /** `SetTriggerMode`'s new settings byte: only bits 0x04 and 0x20 change. */
  function WithTriggerMode(settings: byte, mode: TriggerMode): (r: byte)
    ensures TriggerModeOf(r) == mode
    ensures SameOutside(r, settings, SettingsTrigHigh | SettingsWaitYes)
  {
    var cleared := settings & !(SettingsTrigHigh | SettingsWaitYes);
    match mode
    case TriggerModeRisingEdge => cleared | SettingsTrigHigh | SettingsWaitYes
    case TriggerModeFallingEdge => cleared | SettingsWaitYes
    case TriggerModeHigh => cleared | SettingsTrigHigh
    case TriggerModeLow => cleared
  }

  /** Writing back the mode just read leaves the settings byte as it was. */
  lemma TriggerModeFixpoint(settings: byte)
    ensures WithTriggerMode(settings, TriggerModeOf(settings)) == settings
  {
  }

  /** The modes that `AdcClockSource` can report and `SetAdcClockSource` accepts. */
  predicate ValidClockSource(src: AdcSrcTuple)
  {
    && (src.dcmInput == DcmInputClkGen || src.dcmInput == DcmInputExtClk)
    && (src.dcmOut == 4 || src.dcmOut == 1)
    && (src.adcSrc == AdcSrcDcm || src.adcSrc == AdcSrcExtClk)
  }

  /** `AdcClockSource`: bits 0-2 of `SrcAndStatus`. */
  function ClockSourceOf(srcAndStatus: byte): (src: AdcSrcTuple)
    ensures ValidClockSource(src)
  {
    var bits := srcAndStatus & 0x07;
    AdcSrcTuple(if bits & 0x01 > 0 then AdcSrcExtClk else AdcSrcDcm,
                if bits & 0x02 > 0 then 1 else 4,
                if bits & 0x04 > 0 then DcmInputExtClk else DcmInputClkGen)
  }

  /**
   * `SetAdcClockSource`'s new `SrcAndStatus`: an error for a field outside
   * its enumeration, otherwise only bits 0-2 replaced.
   */
  function WithClockSource(srcAndStatus: byte, src: AdcSrcTuple): (r: Result<byte>)
    ensures r.Ok? <==> ValidClockSource(src)
    ensures r.Err? ==> r.error == InvalidClockSource
    ensures r.Ok? ==> ClockSourceOf(r.value) == src && SameOutside(r.value, srcAndStatus, 0x07)
  {
    var cleared := srcAndStatus & !0x07;
    if src.dcmInput != DcmInputClkGen && src.dcmInput != DcmInputExtClk then Err(InvalidClockSource)
    else if src.dcmOut != 4 && src.dcmOut != 1 then Err(InvalidClockSource)
    else if src.adcSrc != AdcSrcDcm && src.adcSrc != AdcSrcExtClk then Err(InvalidClockSource)
    else
      var low := SourceBits(src);
      var r := cleared | low;
      assert r & 0x07 == low & 0x07 && r & !0x07 == srcAndStatus & !0x07;
      ClockSourceLowBits(r, low);
      Ok(r)
  }

  /** Bits 0-2 of `SrcAndStatus` for a valid clock source, nothing above them. */
  function SourceBits(src: AdcSrcTuple): (b: byte)
    requires ValidClockSource(src)
    ensures b & !0x07 == 0 && ClockSourceOf(b) == src
  {
    (if src.dcmInput == DcmInputExtClk then 0x04 else 0)
    | (if src.dcmOut == 1 then 0x02 else 0)
    | (if src.adcSrc == AdcSrcExtClk then 0x01 else 0)
  }

  /** `AdcClockSource` looks at bits 0-2 only. */
  lemma ClockSourceLowBits(a: byte, b: byte)
    requires a & 0x07 == b & 0x07
    ensures ClockSourceOf(a) == ClockSourceOf(b)
  {
  }

  /** Setting the clock source just read leaves `SrcAndStatus` as it was. */
  lemma ClockSourceFixpoint(srcAndStatus: byte)
    ensures WithClockSource(srcAndStatus, ClockSourceOf(srcAndStatus)) == Ok(srcAndStatus)
  {
  }

  /** `ClkGenInputSource`: bit 3 of `SrcAndStatus`. */
  function ClkGenInputOf(srcAndStatus: byte): ClkGenInputSrc
  {
    if srcAndStatus & 0x08 > 0 then ClkGenInputExtClk else ClkGenInputSystem
  }

  /** The enable bit of a special pin in byte 6 of the IO-route register; the level is the next bit. */
  function SpecialBit(pin: SpecialPin): (b: bv8)
    ensures b == 0 || b == 2 || b == 4
  {
    match pin
    case Nrst => 0
    case Pdid => 2
    case Pdic => 4
  }

  /** The two bits of byte 6 that belong to `pin`. */
  function SpecialMask(pin: SpecialPin): byte
  {
    (1 << SpecialBit(pin)) | (1 << (SpecialBit(pin) + 1))
  }

  /** `specialGpio`: disabled unless the enable bit is set, then the level bit. */
  function SpecialGpioOf(b: byte, pin: SpecialPin): GpioMode
  {
    var bit := SpecialBit(pin);
    if b & (1 << bit) == 0 then GpioDisabled
    else if b & (1 << (bit + 1)) > 0 then GpioHigh
    else GpioLow
  }

  /** `setSpecialGpio`'s new byte 6: only the pin's two bits change. */
  function WithSpecialGpio(b: byte, pin: SpecialPin, mode: GpioMode): (r: byte)
    ensures SpecialGpioOf(r, pin) == mode
    ensures SameOutside(r, b, SpecialMask(pin))
  {
    var bit := SpecialBit(pin);
    match mode
    case GpioDisabled => b & !(1 << bit)
    case GpioHigh => (b | (1 << bit)) | (1 << (bit + 1))
    case GpioLow => (b | (1 << bit)) & !(1 << (bit + 1))
  }

  /** Each special pin's bits are disjoint from the others', so setting one leaves the others' modes. */
  lemma SpecialGpioIndependent(b: byte, pin: SpecialPin, other: SpecialPin, mode: GpioMode)
    requires other != pin
    ensures SpecialGpioOf(WithSpecialGpio(b, pin, mode), other) == SpecialGpioOf(b, other)
  {
  }

  /** `targetClkOut`: bits 5-6 of the external-clock register. */
  function ClkOutOf(data: byte): (r: byte)
    ensures r < 4
  {
    (data & (3 << 5)) >> 5
  }

  /** `setTargetClkOut`'s new external-clock byte. */
  function WithClkOut(data: byte, clkout: byte): (r: byte)
    ensures clkout < 4 ==> ClkOutOf(r) == clkout && SameOutside(r, data, 3 << 5)
  {
    (data & !(3 << 5)) | (clkout << 5)
  }

  /** `Hs2`: the clock-out field 0, 2 or 3; any other value is an error. */
  function Hs2Of(field: byte): (r: Result<Hs2Mode>)
    ensures r.Err? <==> field != 0 && field != 2 && field != 3
  {
    if field == 0 then Ok(Hs2ModeDisabled)
    else if field == 2 then Ok(Hs2ModeClkGen)
    else if field == 3 then Ok(Hs2ModeGlitch)
    else Err(UnknownClockOut)
  }

  /** `SetHs2`'s clock-out field. */
  function Hs2Field(mode: Hs2Mode): (f: byte)
    ensures f < 4 && Hs2Of(f) == Ok(mode)
  {
    match mode
    case Hs2ModeDisabled => 0
    case Hs2ModeClkGen => 2
    case Hs2ModeGlitch => 3
  }

  /** Every field `Hs2` accepts is the encoding of the mode it reports. */
  lemma Hs2FieldOnto(field: byte)
    requires Hs2Of(field).Ok?
    ensures Hs2Field(Hs2Of(field).value) == field
  {
  }

  /** `decimate`: the register holds the factor minus one (16-bit wrap-around). */
  function DecimateOf(raw: u16): u16
  {
    raw + 1
  }

  /** `setDecimate`'s register value. */
  function DecimateRaw(factor: u16): (raw: u16)
    ensures DecimateOf(raw) == factor
    ensures factor == 0 ==> raw == 0xFFFF
  {
    factor - 1
  }

  /** Every register value is the encoding of the factor it decodes to. */
  lemma DecimateRawOnto(raw: u16)
    ensures DecimateRaw(DecimateOf(raw)) == raw
  {
  }

  /** The four bytes of the advanced clock register, `AdvClkSettings`. */
  datatype AdvClk = AdvClk(srcAndStatus: byte, mul: byte, div: byte, flags: byte)

  function AdvClkBytes(a: AdvClk): (b: seq<byte>)
    ensures |b| == 4 && AdvClkOf(b) == a
  {
    [a.srcAndStatus, a.mul, a.div, a.flags]
  }

  function AdvClkOf(b: seq<byte>): AdvClk
    requires |b| == 4
  {
    AdvClk(b[0], b[1], b[2], b[3])
  }

  /** `clkReadMask`: the bits of the advanced clock register that read back what was written. */
  const ClkReadMask: seq<byte> := [0x1f, 0xff, 0xff, 0xfd]

  /** CLKGEN flag bits. */
  const ClkGenLoad: byte := 0x01
  const ClkGenDone: byte := 0x02
  const ClkGenReset: byte := 0x04

  /** `uint8(m) - 1`: the register value of a CLKGEN multiplier or divider m. */
  function ClkGenField(m: u32): byte
  {
    (m & 0xFF) as byte - 1
  }

  /** `uint32(field) + 1`: the multiplier or divider a register value stands for. */
  function ClkGenValue(field: byte): (m: u32)
    ensures 1 <= m <= 256
  {
    field as u32 + 1
  }

  /** Multipliers in [2, 256] and dividers in [1, 256] survive the 8-bit register. */
  lemma ClkGenRoundTrip(m: u32)
    requires 1 <= m <= 256
    ensures ClkGenValue(ClkGenField(m)) == m
  {
  }

  /** Above 256 the register keeps only the low eight bits: 257 reads back as 1. */
  lemma ClkGenTruncates()
    ensures ClkGenValue(ClkGenField(257)) == 1
  {
  }

  /** `HwVersion`: the register version, the board type and the board revision. */
  datatype HwVersion = HwVersion(regVersion: byte, hwType: byte, hwVersion: byte)

  // The `HwType` values (adc_interface.go) that adc.go tests.
  const HwUnknown: byte := 0
  const HwChipWhispererLite: byte := 8
  const HwChipWhispererCw1200: byte := 9

  /** `unknownHwVersion`, what `Version` reports when it cannot read. */
  const UnknownHwVersion := HwVersion(0, HwUnknown, 0)

  /** The version register: the board type in bits 3-7 and the revision in bits 0-2 of the second byte. */
  function HwVersionOf(b: seq<byte>): (v: HwVersion)
    requires |b| >= 2
    ensures v.regVersion == b[0] && v.hwType < 32 && v.hwVersion < 8
    ensures (v.hwType << 3) | v.hwVersion == b[1]
  {
    HwVersion(b[0], b[1] >> 3, b[1] & 0x07)
  }

  /** The boards whose presample register counts in units of three samples. */
  predicate CountsPresamplesInThrees(hwType: byte)
  {
    hwType == HwChipWhispererLite || hwType == HwChipWhispererCw1200
  }

  datatype FreqCounterSrc = FreqCounterExtClkInput | FreqCounterClkGenOutput

  /** Bit 3 of the CLKGEN flags: the frequency counter counts the CLKGEN output. */
  const FreqCounterBit: byte := 0x08

  function FreqCounterOf(flags: byte): FreqCounterSrc
  {
    if flags & FreqCounterBit > 0 then FreqCounterClkGenOutput else FreqCounterExtClkInput
  }

  /** `SetFreqCounterSource`'s flags: bit 3 cleared, then set for the CLKGEN output. */
  function WithFreqCounter(flags: byte, src: FreqCounterSrc): (r: byte)
    ensures FreqCounterOf(r) == src && SameOutside(r, flags, FreqCounterBit)
  {
    var cleared := flags & !FreqCounterBit;
    match src
    case FreqCounterClkGenOutput => cleared | FreqCounterBit
    case FreqCounterExtClkInput => cleared
  }

  /** Writing back the frequency-counter source just read leaves the flags as they were. */
  lemma FreqCounterFixpoint(flags: byte)
    ensures WithFreqCounter(flags, FreqCounterOf(flags)) == flags
  {
  }

  /** Bit 3 of `SrcAndStatus`: CLKGEN runs from the external clock. */
  const ClkGenInputBit: byte := 0x08

  /** `SetClkGenInputSource`'s `SrcAndStatus`: bit 3 cleared, then set for the external clock. */
  function WithClkGenInput(srcAndStatus: byte, src: ClkGenInputSrc): (r: byte)
    ensures ClkGenInputOf(r) == src && SameOutside(r, srcAndStatus, ClkGenInputBit)
  {
    var cleared := srcAndStatus & !ClkGenInputBit;
    match src
    case ClkGenInputExtClk => cleared | ClkGenInputBit
    case ClkGenInputSystem => cleared
  }

  /** Writing back the CLKGEN input just read leaves `SrcAndStatus` as it was. */
  lemma ClkGenInputFixpoint(srcAndStatus: byte)
    ensures WithClkGenInput(srcAndStatus, ClkGenInputOf(srcAndStatus)) == srcAndStatus
  {
  }

  /** `DcmLocked`-style status bit 5 of `SrcAndStatus`, which `ClkGenDcmLocked` reports. */
  const ClkGenDcmLockedBit: byte := 0x20

  /** Bit 6 of `SrcAndStatus`, which `DcmLocked` reports. */
  const AdcDcmLockedBit: byte := 0x40

  // Trigger-source bits `pinRtio1` to `pinRtio4`, and the combining mode `modeOr`.
  const PinRtio1: byte := 0x04
  const PinRtio2: byte := 0x08
  const PinRtio3: byte := 0x10
  const PinRtio4: byte := 0x20
  const ModeOr: byte := 0x00

  /**
   * The trigger-source bit of `TriggerTargetIoPin1` to `TriggerTargetIoPin4`,
   * which are the Go `int`s 0 to 3.
   */
  function PinRtio(pin: int): byte
    requires 0 <= pin < 4
  {
    if pin == 0 then PinRtio1 else if pin == 1 then PinRtio2 else if pin == 2 then PinRtio3 else PinRtio4
  }

  /** `TriggerTargetIoPins`' decoding: the pins whose bit is set, in increasing order. */
  function TriggerPinsOf(b: byte): (pins: seq<int>)
    ensures forall p :: p in pins <==> 0 <= p < 4 && b & PinRtio(p) != 0
    ensures forall i, j :: 0 <= i < j < |pins| ==> pins[i] < pins[j]
  {
    (if b & PinRtio1 > 0 then [0] else [])
      + (if b & PinRtio2 > 0 then [1] else [])
      + (if b & PinRtio3 > 0 then [2] else [])
      + (if b & PinRtio4 > 0 then [3] else [])
  }

  /**
   * `SetTriggerTargetIoPin`'s register byte: the one pin's bit, combined in
   * mode OR; any other value of the pin is an error.
   */
  function TriggerPinByte(pin: int): (r: Result<byte>)
    ensures r.Ok? <==> 0 <= pin < 4
    ensures r.Ok? ==> TriggerPinsOf(r.value) == [pin]
    ensures r.Err? ==> r.error == InvalidTriggerPin
  {
    if 0 <= pin < 4 then Ok(PinRtio(pin) | (ModeOr << 6)) else Err(InvalidTriggerPin)
  }

  datatype TargetIoMode =
    | TargetIoModeSerialRx | TargetIoModeSerialTx | TargetIoModeHighZ
    | TargetIoModeGpioLow | TargetIoModeGpioHigh | TargetIoModeGpioDisabled

  // The IO-route byte of each target IO pin (`ioRoute...`).
  const IoRouteHighZ: byte := 0x00
  const IoRouteStx: byte := 0x01
  const IoRouteSrx: byte := 0x02
  const IoRouteUsio: byte := 0x04
  const IoRouteUsii: byte := 0x08
  const IoRouteGpio: byte := 0x40
  const IoRouteGpioE: byte := 0x80

  /** The route modes `tio` accepts. */
  predicate KnownTio(mode: byte)
  {
    mode == IoRouteStx || mode == IoRouteSrx || mode == IoRouteUsio || mode == IoRouteUsii
    || mode == IoRouteGpioE || mode == IoRouteHighZ
  }

  /** `tio`'s decoding: the route byte without its GPIO level bit, when that is a known mode. */
  function TioModeOf(b: byte): (r: Result<byte>)
    ensures r.Ok? <==> KnownTio(b & !IoRouteGpio)
    ensures r.Ok? ==> r.value & IoRouteGpio == 0 && SameOutside(r.value, b, IoRouteGpio)
    ensures r.Err? ==> r.error == UnknownTioMode
  {
    var mode := b & !IoRouteGpio;
    if KnownTio(mode) then Ok(mode) else Err(UnknownTioMode)
  }

  /** `gpio`'s decoding: disabled unless the GPIO-enable bit is set, then the level bit. */
  function GpioOf(b: byte): (m: GpioMode)
    ensures m == GpioDisabled <==> b & IoRouteGpioE == 0
  {
    if b & IoRouteGpioE == 0 then GpioDisabled else if b & IoRouteGpio > 0 then GpioHigh else GpioLow
  }

  /** `setGpio`'s byte: the level bit set or cleared; `GpioDisabled` changes nothing. */
  function WithGpio(b: byte, mode: GpioMode): (r: byte)
    ensures SameOutside(r, b, IoRouteGpio)
    ensures mode == GpioDisabled ==> r == b
    ensures mode != GpioDisabled && b & IoRouteGpioE != 0 ==> GpioOf(r) == mode
  {
    match mode
    case GpioHigh => b | IoRouteGpio
    case GpioLow => b & !IoRouteGpio
    case GpioDisabled => b
  }
}
