/**
 * What the OpenADC controller promises, stated over the state functions of
 * `OpenAdc`: the sticky error, the range checks that write nothing, the
 * register round trips, and the rules of `TraceData`.
 */
module AdcLemmas {
  import opened Base
  import opened Bytes
  import opened AdcBus
  import opened AdcFields
  import opened OpenAdc
  import TraceDecode
  import AdcClock
  import ByteCast

  /** With `err` set, the guarded getters make no access and return their zero values. */
  lemma StickyGetters(s: AdcState, pin: SpecialPin)
    requires s.err.Some?
    ensures Status(s) == (0, s) && Settings(s) == (0, s) && Gain(s) == (0, s)
    ensures OpenAdc.GainMode(s) == (GainModeLow, s) && OpenAdc.TriggerMode(s) == (TriggerModeLow, s)
    ensures NumSamples(s) == (0, s) && Decimate(s) == (0, s) && SysFreq(s) == (0, s)
    ensures AdvClock(s) == (AdvClk(0, 0, 0, 0), s) && AdcClockSource(s) == (AdcSrcTuple(0, 0, 0), s)
    ensures ClkGenMul(s) == (0, s) && ClkGenDiv(s) == (1, s)
    ensures TargetClkOut(s) == (0, s) && Hs2(s) == (Hs2ModeDisabled, s)
    ensures SpecialGpio(s, pin) == (GpioLow, s)
    ensures Version(s) == (UnknownHwVersion, s) && TriggerOffset(s) == (0, s) && PreTriggerSamples(s) == (0, s)
    ensures ActiveCount(s) == (0, s) && ClkGenOutputFreq(s) == (0, s) && TriggerTargetIoPins(s) == ([], s)
    ensures FreqCounterSource(s) == (FreqCounterExtClkInput, s) && ClkGenDcmLocked(s) == (false, s)
    ensures OpenAdc.DcmLocked(s) == (false, s) && OpenAdc.TriggerPinState(s) == (false, s)
    ensures forall io :: 0 <= io < 8 ==> Tio(s, io) == (0, s) && Gpio(s, io) == (GpioLow, s) && TargetIo(s, io) == (TargetIoModeSerialRx, s)
  {
  }

  /** With `err` set, the setters make no access and change nothing. */
  lemma StickySetters(s: AdcState, b: byte, n: u32, f: u16, src: AdcSrcTuple, freq: u32, pin: SpecialPin, mode: GpioMode,
                      tm: TriggerMode, gm: GainMode, hs: Hs2Mode, tp: int, fc: FreqCounterSrc, ci: ClkGenInputSrc,
                      tio: TargetIoMode)
    requires s.err.Some?
    ensures SetSettings(s, b, true) == s && SetGain(s, b) == s && SetGainMode(s, gm) == s
    ensures SetTriggerMode(s, tm) == s && SetNumSamples(s, n) == s && SetDecimate(s, f) == s
    ensures SetAdcClockSource(s, src) == s && SetClkGenMul(s, n) == s && SetClkGenDiv(s, n) == s
    ensures ResetAdc(s) == s && ResetClkGen(s) == s && ReloadClkGen(s) == s
    ensures SetClkGenOutputFreq(s, freq) == s && SetExtClockFreq(s, freq) == s
    ensures SetTargetClkOut(s, b) == s && SetHs2(s, hs) == s && SetSpecialGpio(s, pin, mode) == s
    ensures SetArmOn(s) == s && SetArmOff(s) == s && SetTriggerNow(s) == s
    ensures SetTriggerOffset(s, n) == s && SetPreTriggerSamples(s, n) == s && SetTriggerTargetIoPin(s, tp) == s
    ensures SetFreqCounterSource(s, fc) == s && SetClkGenInputSource(s, ci) == s
    ensures forall io :: 0 <= io < 8 ==> SetTio(s, io, b) == s && SetGpio(s, io, mode) == s && SetTargetIo(s, io, tio) == s
  {
  }

  /**
   * `SetTotalSamples` has no guard: above the limit it replaces any earlier
   * error and writes nothing.
   */
  lemma TotalSamplesOverLimit(s: AdcState, n: u32)
    requires n > s.hwMaxSamples
    ensures SetTotalSamples(s, n) == s.(err := Some(TooManySamples))
  {
  }

  /** A gain above 78 is an error and nothing is written. */
  lemma GainOverLimit(s: AdcState, gain: byte)
    requires s.err.None? && gain > 78
    ensures SetGain(s, gain) == s.(err := Some(GainOutOfRange))
  {
  }

  /**
   * An invalid clock source is an error after the one read of the
   * advanced-clock register, and nothing is written.
   */
  lemma InvalidClockSourceWritesNothing(s: AdcState, src: AdcSrcTuple)
    requires s.err.None? && !ValidClockSource(src)
    ensures var r := SetAdcClockSource(s, src);
      && r.err == Some(InvalidClockSource)
      && r.regs == ReadReg(s.regs, AddrAdvClk, 4).1
      && r.regs.log == s.regs.log + [Load(AddrAdvClk, 4)]
      && (Steady(s.regs, AddrAdvClk) ==> r.regs.contents == s.regs.contents)
  {
  }

  /** A register written and read back in four bytes returns the stored value. */
  lemma Fit4(data: seq<byte>)
    requires |data| == 4
    ensures Fit(data, 4) == data
  {
  }

  /**
   * `r` differs from `s` only in register `addr` and the log: the same
   * limits, and no register fails or changes on its own that did not before.
   */
  ghost predicate OnlyAt(r: AdcState, s: AdcState, addr: Address)
  {
    && r.hwMaxSamples == s.hwMaxSamples && r.extClockFreq == s.extClockFreq
    && r.regs.faulty == s.regs.faulty && r.regs.updates == s.regs.updates
    && forall x :: x != addr ==> Value(r.regs, x) == Value(s.regs, x)
  }

  /** The trigger mode set is the mode read back, and only bits 0x04 and 0x20 of the settings change. */
  lemma TriggerModeRoundTrip(s: AdcState, mode: TriggerMode)
    requires s.err.None? && Steady(s.regs, AddrSettings)
    ensures var s1 := SetTriggerMode(s, mode);
      && s1.err.None?
      && OpenAdc.TriggerMode(s1).0 == mode
      && AddrSettings in s1.regs.contents && |s1.regs.contents[AddrSettings]| == 1
      && SameOutside(s1.regs.contents[AddrSettings][0], Settings(s).0, SettingsTrigHigh | SettingsWaitYes)
      && (forall a :: a != AddrSettings ==> Value(s1.regs, a) == Value(s.regs, a))
  {
    var (v, s0) := Settings(s);
    var s1 := SetTriggerMode(s, mode);
    assert s1.regs.contents == s.regs.contents[AddrSettings := [WithTriggerMode(v, mode)]];
    assert Fit([WithTriggerMode(v, mode)], 1) == [WithTriggerMode(v, mode)];
  }

  /** A gain in range reads back as set. */
  lemma GainRoundTrip(s: AdcState, gain: byte)
    requires s.err.None? && Steady(s.regs, AddrGain) && gain <= 78
    ensures SetGain(s, gain).err.None? && Gain(SetGain(s, gain)).0 == gain
  {
    assert Fit([gain], 1) == [gain];
  }

  /** A sample count within the limit reads back as set. */
  lemma TotalSamplesRoundTrip(s: AdcState, n: u32)
    requires s.err.None? && Steady(s.regs, AddrSamples) && n <= s.hwMaxSamples
    ensures SetTotalSamples(s, n).err.None? && NumSamples(SetTotalSamples(s, n)).0 == n
  {
    Fit4(Le32(n));
  }

  /** `SetDownsampleFactor` then `DownsampleFactor` gives the factor back, 0 included (stored as 0xFFFF). */
  lemma DecimateRoundTrip(s: AdcState, factor: u16)
    requires s.err.None? && Steady(s.regs, AddrDecimate)
    ensures SetDecimate(s, factor).err.None? && Decimate(SetDecimate(s, factor)).0 == factor
  {
    var raw := Le16(DecimateRaw(factor));
    assert Fit(raw, 2) == raw;
  }

  /**
   * A multiplier in [2, 256] set while the DCM reports lock is what
   * `clkGenMul` reads back on its first try.
   */
  lemma ClkGenMulRoundTrip(s: AdcState, mul: u32)
    requires s.err.None? && Steady(s.regs, AddrAdvClk) && 2 <= mul <= 256
    requires AdvClock(s).0.flags & ClkGenDone != 0
    ensures var s1 := SetClkGenMul(s, mul); s1.err.None? && ClkGenMul(s1).0 == mul
  {
    var a := AdvClock(s).0;
    SetClkGenMulStores(s, mul);
    ClkGenRoundTrip(mul);
    assert ((a.flags | ClkGenLoad) & !ClkGenLoad) & ClkGenDone != 0;
  }

  /** `setClkGenMul` leaves the new multiplier field and the old flags, load flag cleared, in the register. */
  lemma SetClkGenMulStores(s: AdcState, mul: u32)
    requires s.err.None? && Steady(s.regs, AddrAdvClk) && 2 <= mul
    ensures var a := AdvClock(s).0; var s1 := SetClkGenMul(s, mul);
      s1.err.None? && OnlyAt(s1, s, AddrAdvClk) && AdvClock(s1).0 == a.(mul := ClkGenField(mul), flags := (a.flags | ClkGenLoad) & !ClkGenLoad)
  {
    AdvClockSteady(s);
    var (a, s0) := AdvClock(s);
    var on := a.(mul := ClkGenField(mul), flags := a.flags | ClkGenLoad);
    PulseStores(s0, on, on.(flags := on.flags & !ClkGenLoad), true);
    SameRegsOnlyAt(s0, s, AddrAdvClk);
    OnlyAtTrans(SetClkGenMul(s, mul), s0, s, AddrAdvClk);
  }

  /** A store to a register that does not fail, with a well-formed mask: the register now holds the data. */
  lemma PutPasses(s: AdcState, addr: Address, data: seq<byte>, validate: bool, mask: Option<seq<byte>>)
    requires addr !in s.regs.faulty && (mask.None? || |mask.value| == |data|)
    ensures Put(s, addr, data, validate, mask) ==
      s.(err := None, regs := s.regs.(contents := s.regs.contents[addr := data], log := s.regs.log + [Store(addr, data, validate, mask)]))
  {
  }

  /** A steady advanced-clock register reads as the four bytes it holds. */
  lemma AdvClockSteady(s: AdcState)
    requires s.err.None? && Steady(s.regs, AddrAdvClk)
    ensures AdvClock(s) == (AdvClkOf(Fit(Value(s.regs, AddrAdvClk), 4)), s.(regs := s.regs.(log := s.regs.log + [Load(AddrAdvClk, 4)])))
  {
    FetchSteady(s, AddrAdvClk, 4);
  }

  /** Two stores in a row to a steady advanced-clock register: the second value is what stays. */
  lemma PulseStores(s: AdcState, on: AdvClk, off: AdvClk, validate: bool)
    requires s.err.None? && Steady(s.regs, AddrAdvClk)
    ensures var r := SetAdvClock(SetAdvClock(s, on, validate), off, validate);
      r.err.None? && OnlyAt(r, s, AddrAdvClk) && AdvClock(r).0 == off
  {
    SetAdvClockReadsBack(s, on, validate);
    var s1 := SetAdvClock(s, on, validate);
    SetAdvClockReadsBack(s1, off, validate);
    OnlyAtTrans(SetAdvClock(s1, off, validate), s1, s, AddrAdvClk);
  }

  /** An advanced clock value stored without error is what the next read returns. */
  lemma SetAdvClockReadsBack(s: AdcState, a: AdvClk, validate: bool)
    requires s.err.None? && Steady(s.regs, AddrAdvClk)
    ensures var s1 := SetAdvClock(s, a, validate);
      s1.err.None? && OnlyAt(s1, s, AddrAdvClk) && AdvClock(s1).0 == a
  {
    PutPasses(s, AddrAdvClk, AdvClkBytes(a), validate, Some(ClkReadMask));
    AdvClockSteady(SetAdvClock(s, a, validate));
    Fit4(AdvClkBytes(a));
  }

  /** `resetAdc` on a steady register: only bit 4 of `SrcAndStatus` is pulsed. */
  lemma ResetAdcStores(s: AdcState)
    requires s.err.None? && Steady(s.regs, AddrAdvClk)
    ensures var a := AdvClock(s).0; var r := ResetAdc(s);
      r.err.None? && OnlyAt(r, s, AddrAdvClk) && AdvClock(r).0 == a.(srcAndStatus := (a.srcAndStatus | 0x10) & !0x10)
  {
    AdvClockSteady(s);
    var (a, s1) := AdvClock(s);
    var on := a.(srcAndStatus := a.srcAndStatus | 0x10);
    PulseStores(s1, on, on.(srcAndStatus := on.srcAndStatus & !0x10), false);
    SameRegsOnlyAt(s1, s, AddrAdvClk);
    OnlyAtTrans(ResetAdc(s), s1, s, AddrAdvClk);
  }

  /** The ADC reset leaves bits 0-2 of `SrcAndStatus`, and no error, behind. */
  lemma ResetAdcKeepsSource(s: AdcState)
    requires s.err.None? && Steady(s.regs, AddrAdvClk)
    ensures var r := ResetAdc(s);
      && r.err.None? && OnlyAt(r, s, AddrAdvClk)
      && AdvClock(r).0.srcAndStatus & 0x07 == AdvClock(s).0.srcAndStatus & 0x07
      && AdvClock(r).0 == AdvClock(s).0.(srcAndStatus := (AdvClock(s).0.srcAndStatus | 0x10) & !0x10)
      && AdcClockSource(r).0 == AdcClockSource(s).0
  {
    var a := AdvClock(s).0;
    ResetAdcStores(s);
    ClockSourceLowBits((a.srcAndStatus | 0x10) & !0x10, a.srcAndStatus);
  }

  /** The clock source set is the one read back: the ADC reset pulses only bit 4. */
  lemma ClockSourceRoundTrip(s: AdcState, src: AdcSrcTuple)
    requires s.err.None? && Steady(s.regs, AddrAdvClk) && ValidClockSource(src)
    ensures var s1 := SetAdcClockSource(s, src); s1.err.None? && AdcClockSource(s1).0 == src
  {
    var (a, s0) := AdvClock(s);
    var v := WithClockSource(a.srcAndStatus, src).value;
    var s1 := SetAdvClock(s0, a.(srcAndStatus := v), true);
    SetAdcClockSourceSteps(s, src);
    SetAdvClockReadsBack(s0, a.(srcAndStatus := v), true);
    assert AdcClockSource(s1).0 == src;
    ResetAdcKeepsSource(s1);
  }

  /** A valid clock source is stored with validation, then the ADC is reset. */
  lemma SetAdcClockSourceSteps(s: AdcState, src: AdcSrcTuple)
    requires s.err.None? && ValidClockSource(src)
    ensures var (a, s0) := AdvClock(s);
      SetAdcClockSource(s, src) == ResetAdc(SetAdvClock(s0, a.(srcAndStatus := WithClockSource(a.srcAndStatus, src).value), true))
  {
  }

  /** `SetHs2` then `Hs2` gives the mode back without an error. */
  lemma Hs2RoundTrip(s: AdcState, mode: Hs2Mode)
    requires s.err.None? && Steady(s.regs, AddrExtClk)
    ensures var s1 := SetHs2(s, mode); s1.err.None? && Hs2(s1) == (mode, TargetClkOut(s1).1)
  {
    var (b, s0) := Fetch(s, AddrExtClk, 1);
    var w := WithClkOut(b[0], Hs2Field(mode));
    assert Fit([w], 1) == [w];
  }

  /**
   * `setSpecialGpio` then `specialGpio` gives the mode back; the other two
   * special pins keep their modes, and the other seven IO-route bytes are
   * written back unchanged.
   */
  lemma SpecialGpioRoundTrip(s: AdcState, pin: SpecialPin, mode: GpioMode, other: SpecialPin)
    requires s.err.None? && Steady(s.regs, AddrIoRoute)
    ensures var s1 := SetSpecialGpio(s, pin, mode);
      var before := Fetch(s, AddrIoRoute, 8).0;
      && s1.err.None?
      && SpecialGpio(s1, pin).0 == mode
      && (other != pin ==> SpecialGpio(s1, other).0 == SpecialGpio(s, other).0)
      && |Value(s1.regs, AddrIoRoute)| == 8
      && (forall i :: 0 <= i < 8 && i != 6 ==> Value(s1.regs, AddrIoRoute)[i] == before[i])
      && SameOutside(Value(s1.regs, AddrIoRoute)[6], before[6], SpecialMask(pin))
  {
    var buf := Fetch(s, AddrIoRoute, 8).0;
    var w := buf[6 := WithSpecialGpio(buf[6], pin, mode)];
    SetSpecialGpioStores(s, pin, mode);
    var s1 := SetSpecialGpio(s, pin, mode);
    assert Fit(w, 8) == w;
    assert Fetch(s1, AddrIoRoute, 8).0 == w;
    if other != pin {
      SpecialGpioIndependent(buf[6], pin, other, mode);
    }
  }

  /** `setSpecialGpio` stores the eight bytes read with byte 6 changed, without error. */
  lemma SetSpecialGpioStores(s: AdcState, pin: SpecialPin, mode: GpioMode)
    requires s.err.None? && Steady(s.regs, AddrIoRoute)
    ensures var buf := Fetch(s, AddrIoRoute, 8).0; var s1 := SetSpecialGpio(s, pin, mode);
      s1.err.None? && s1.regs.faulty == s.regs.faulty && s1.regs.updates == s.regs.updates && Value(s1.regs, AddrIoRoute) == buf[6 := WithSpecialGpio(buf[6], pin, mode)]
  {
  }

  /**
   * The search finds no pair for an input clock below 1 MHz, and the
   * multiplier 0 it returns is rejected: `SetClkGenOutputFreq` then fails.
   */
  lemma SlowClockInputFails(s: AdcState, freq: u32)
    requires s.err.None? && Steady(s.regs, AddrAdvClk)
    requires ClkGenInputOf(AdvClock(s).0.srcAndStatus) == ClkGenInputExtClk && s.extClockFreq < 1_000_000
    ensures SetClkGenOutputFreq(s, freq).err == Some(ClkGenMulTooSmall)
  {
    var (inp, s1) := InputFreq(s);
    assert inp == s.extClockFreq;
    AdcClock.SlowInputGivesZero(freq as nat, inp as nat);
  }

  /**
   * `TraceData` does not look at an earlier error: its first read assigns
   * `err` unconditionally, so a set error can be cleared by it.
   */
  lemma TraceDataIgnoresError(s: AdcState)
    ensures TraceData(s) == TraceData(s.(err := None))
  {
  }

  /** A successful `TraceData` after an error has cleared that error. */
  lemma TraceDataClearsError(s: AdcState)
    requires s.err.Some?
    requires TraceData(s).0 != []
    ensures TraceData(s).1.err.None?
  {
  }

  /** `TraceData`: nothing pending, or the count unreadable, gives no samples and touches nothing else. */
  lemma TraceDataNothingPending(s: AdcState)
    ensures var r := Fetch(s, AddrBytesToRx, 4);
      r.1.err.Some? || LeWord32(r.0) == 0 ==> TraceData(s) == ([], r.1)
  {
  }

  /** `TraceData` never returns more than `numSamples` samples. */
  lemma TraceDataAtMostSamples(s: AdcState)
    ensures |TraceData(s).0| <= NumSamples(Fetch(s, AddrBytesToRx, 4).1).0 as nat
  {
  }

  /** With data pending, the next access after reading `numSamples` fetches `ReadLength(numSamples, pending)` bytes. */
  lemma TraceDataReadLength(s: AdcState)
    ensures var r := Fetch(s, AddrBytesToRx, 4);
      var s2 := NumSamples(r.1).1;
      var want := ReadLength(NumSamples(r.1).0, LeWord32(r.0));
      r.1.err.None? && LeWord32(r.0) != 0 ==>
        |TraceData(s).1.regs.log| > |s2.regs.log| &&
        TraceData(s).1.regs.log[..|s2.regs.log| + 1] == s2.regs.log + [Load(AddrAdcData, want)]
  {
    var r := Fetch(s, AddrBytesToRx, 4);
    var (n, s2) := NumSamples(r.1);
    if r.1.err.None? && LeWord32(r.0) != 0 {
      var s3 := Fetch(s2, AddrAdcData, ReadLength(n, LeWord32(r.0))).1;
      assert s3.regs.log == s2.regs.log + [Load(AddrAdcData, ReadLength(n, LeWord32(r.0)))];
      assert TraceData(s).1.regs.log == s3.regs.log;
    }
  }

  /** Rounding up to a multiple of three, without wrap-around. */
  lemma RoundUpToThree(n: nat)
    ensures (if n % 3 != 0 then n + 3 - n % 3 else n) == 3 * ((n + 2) / 3)
  {
  }

  /** Without wrap-around the wanted byte count is `ceil(samples / 3) * 4 + 256`. */
  lemma WantedBytesRule(samples: u32)
    requires samples as nat < 0x3FFF_FFFE
    ensures WantedBytes(samples) == 4 * ((samples as nat + 2) / 3) + 256
  {
    WantedCountRule(samples as nat);
  }

  lemma WantedCountRule(n: nat)
    requires n < 0x3FFF_FFFE
    ensures WantedCount(n) == 4 * ((n + 2) / 3) + 256
  {
    var q := (n + 2) / 3;
    RoundUpToThree(n);
    var rounded := if n % 3 != 0 then (n + 3 - n % 3) % 0x1_0000_0000 else n;
    if n % 3 != 0 {
      SmallMod(n + 3 - n % 3, 0x1_0000_0000);
    }
    assert rounded == 3 * q;
    SmallMod(12 * q, 0x1_0000_0000);
    assert (rounded * 4) % 0x1_0000_0000 == 12 * q;
    assert (12 * q) / 3 == 4 * q;
  }

  /**
   * Without wrap-around (fewer than 2^30 - 2 samples) the read length is
   * `min(pending, ceil(samples / 3) * 4 + 256)`.
   */
  lemma ReadLengthRule(samples: u32, pending: u32)
    requires samples as nat < 0x3FFF_FFFE
    ensures var want := 4 * ((samples as nat + 2) / 3) + 256;
      ReadLength(samples, pending) == if (pending as nat) < want then pending as nat else want
  {
    WantedBytesRule(samples);
  }

  /** Past 2^30 samples the product wraps: 2^30 samples ask for only 258 bytes. */
  lemma WantedBytesWraps()
    ensures WantedBytes(0x4000_0000) == 258
  {
    var n := 0x4000_0000;
    assert n % 3 == 1;
    assert (n + 3 - n % 3) % 0x1_0000_0000 == 0x4000_0002;
    assert (0x4000_0002 * 4) % 0x1_0000_0000 == 8;
  }

  lemma SmallMod(x: nat, m: nat)
    requires x < m
    ensures x % m == x
  {
  }

  /** With `err` set, status reads as zero, so the wait always runs into the timeout. */
  lemma {:induction false} WaitTimesOutAfterError(s: AdcState, polls: nat)
    requires s.err.Some?
    ensures PollTrigger(s, polls) == (true, s)
    decreases polls
  {
    if polls > 0 {
      WaitTimesOutAfterError(s, polls - 1);
    }
  }

  /** The wait stops at the first status read that shows the trigger, with no forced trigger. */
  lemma {:induction false} WaitStopsWhenTriggered(s: AdcState, polls: nat, k: nat)
    requires k < polls
    requires Triggered(Status(Nth(s, k)).0)
    requires forall j :: 0 <= j < k ==> !Triggered(Status(Nth(s, j)).0)
    ensures PollTrigger(s, polls) == (false, Nth(s, k + 1))
    decreases k
  {
    if k > 0 {
      var s1 := Status(s).1;
      assert !Triggered(Status(Nth(s, 0)).0);
      forall j | 0 <= j < k - 1
        ensures !Triggered(Status(Nth(s1, j)).0)
      {
        NthShift(s, j);
        assert !Triggered(Status(Nth(s, j + 1)).0);
      }
      NthShift(s, k - 1);
      NthShift(s, k);
      WaitStopsWhenTriggered(s1, polls - 1, k - 1);
    }
  }

  /** The state after `k` status reads. */
  function Nth(s: AdcState, k: nat): AdcState
    decreases k
  {
    if k == 0 then s else Nth(Status(s).1, k - 1)
  }

  lemma NthShift(s: AdcState, k: nat)
    ensures Nth(Status(s).1, k) == Nth(s, k + 1)
  {
  }

  /**
   * `setResetOn` after an error: `numSamples` reads 0 and the limit wraps to
   * 2^32 - 45, which no later `SetTotalSamples` exceeds.
   */
  lemma ResetOnAfterError(s: AdcState)
    requires s.err.Some?
    ensures SetResetOn(s) == s.(hwMaxSamples := 0xFFFF_FFD3)
  {
  }

  /** A framed trace of at least one word clears the error; a framing error sets it. */
  lemma ProcessTraceDataError(s: AdcState, data: seq<byte>)
    ensures ProcessTraceData(s, data).1.err.Some? <==>
      !TraceDecode.WellFramed(data) || data[0] != TraceDecode.SyncByte || (|data| == 4 && s.err.Some?)
  {
  }

  /** `SetTriggerOffset` then `TriggerOffset` gives the offset back. */
  lemma TriggerOffsetRoundTrip(s: AdcState, offset: u32)
    requires s.err.None? && Steady(s.regs, AddrOffset)
    ensures SetTriggerOffset(s, offset).err.None? && TriggerOffset(SetTriggerOffset(s, offset)).0 == offset
  {
    Fit4(Le32(offset));
  }

  /** The board version as `Version` decodes it from a readable register. */
  function BoardType(s: AdcState): byte
  {
    HwVersionOf(Fetch(s, AddrVersions, 6).0).hwType
  }

  /**
   * On a CW-Lite or CW1200 the count set is written as given, but read back
   * tripled: `PreTriggerSamples` after `SetPreTriggerSamples(n)` is `3n` in
   * `uint32`, so every `refreshParams` triples the register.
   */
  lemma PreTriggerSamplesTripled(s: AdcState, n: u32)
    requires s.err.None? && Steady(s.regs, AddrVersions) && Steady(s.regs, AddrPresamples)
    requires CountsPresamplesInThrees(BoardType(s))
    ensures var s1 := SetPreTriggerSamples(s, n); s1.err.None? && PreTriggerSamples(s1).0 == n * 3
  {
    var s0 := Version(s).1;
    var s1 := SetPreTriggerSamples(s, n);
    assert s1 == Put(s0, AddrPresamples, Le32(n), true, None);
    Fit4(Le32(n));
    assert Fetch(s1, AddrPresamples, 4).0 == Le32(n);
    assert Fetch(s1, AddrVersions, 6).0 == Fetch(s, AddrVersions, 6).0;
  }

  /** On any other board, setting the pre-trigger count is an error and nothing is written. */
  lemma PreTriggerSamplesUnreliable(s: AdcState, n: u32)
    requires s.err.None? && Steady(s.regs, AddrVersions)
    requires !CountsPresamplesInThrees(BoardType(s))
    ensures var s1 := SetPreTriggerSamples(s, n);
      s1.err == Some(NotReliableOnHardware) && s1.regs.contents == s.regs.contents
  {
  }

  /** `resetClkGen` pulses the reset and load flags only: the other flags, and `SrcAndStatus`, stay. */
  lemma ResetClkGenKeepsFlags(s: AdcState)
    requires s.err.None? && Steady(s.regs, AddrAdvClk)
    ensures var r := ResetClkGen(s); var a := AdvClock(s).0;
      && r.err.None? && OnlyAt(r, s, AddrAdvClk)
      && AdvClock(r).0.srcAndStatus == a.srcAndStatus && AdvClock(r).0.mul == a.mul && AdvClock(r).0.div == a.div
      && SameOutside(AdvClock(r).0.flags, a.flags, ClkGenLoad | ClkGenReset)
  {
    AdvClockSteady(s);
    var (a, s1) := AdvClock(s);
    var on := a.(flags := a.flags | ClkGenReset);
    var off := on.(flags := on.flags & !ClkGenReset);
    PulseStores(s1, on, off, false);
    var s3 := SetAdvClock(SetAdvClock(s1, on, false), off, false);
    ReloadClkGenStores(s3);
    SameRegsOnlyAt(s1, s, AddrAdvClk);
    OnlyAtTrans(s3, s1, s, AddrAdvClk);
    OnlyAtTrans(ResetClkGen(s), s3, s, AddrAdvClk);
    assert SameOutside(((((a.flags | ClkGenReset) & !ClkGenReset) | ClkGenLoad) & !ClkGenLoad), a.flags, ClkGenLoad | ClkGenReset);
  }

  /** The frequency-counter source set is the one read back: the resets leave bit 3 of the flags alone. */
  lemma FreqCounterRoundTrip(s: AdcState, src: FreqCounterSrc)
    requires s.err.None? && Steady(s.regs, AddrAdvClk)
    ensures var s1 := SetFreqCounterSource(s, src); s1.err.None? && FreqCounterSource(s1).0 == src
  {
    var (a, s0) := AdvClock(s);
    var stored := a.(flags := WithFreqCounter(a.flags, src));
    SetAdvClockReadsBack(s0, stored, true);
    var s1 := SetAdvClock(s0, stored, true);
    ResetClkGenKeepsFlags(s1);
    var s2 := ResetClkGen(s1);
    ResetAdcKeepsSource(s2);
    var f := AdvClock(ResetAdc(s2)).0.flags;
    assert SameOutside(f, stored.flags, ClkGenLoad | ClkGenReset);
    assert f & FreqCounterBit == stored.flags & FreqCounterBit;
  }

  /** The CLKGEN input source set is the one read back. */
  lemma ClkGenInputRoundTrip(s: AdcState, src: ClkGenInputSrc)
    requires s.err.None? && Steady(s.regs, AddrAdvClk)
    ensures var s1 := SetClkGenInputSource(s, src); s1.err.None? && ClkGenInputSource(s1).0 == src
  {
    var (a, s0) := AdvClock(s);
    SetAdvClockReadsBack(s0, a.(srcAndStatus := WithClkGenInput(a.srcAndStatus, src)), true);
  }

  /** A valid trigger pin set is the only pin read back. */
  lemma TriggerPinRoundTrip(s: AdcState, pin: int)
    requires s.err.None? && Steady(s.regs, AddrTrigSrc) && 0 <= pin < 4
    ensures var s1 := SetTriggerTargetIoPin(s, pin); s1.err.None? && TriggerTargetIoPins(s1).0 == [pin]
  {
    var b := TriggerPinByte(pin).value;
    assert Fit([b], 1) == [b];
  }

  /** Any other pin value is an error, with no access at all. */
  lemma InvalidTriggerPinWritesNothing(s: AdcState, pin: int)
    requires s.err.None? && !(0 <= pin < 4)
    ensures SetTriggerTargetIoPin(s, pin) == s.(err := Some(InvalidTriggerPin))
  {
  }

  /** `setTio` stores the eight bytes read with byte `pin` replaced, without error. */
  lemma SetTioStores(s: AdcState, pin: nat, mode: byte)
    requires s.err.None? && Steady(s.regs, AddrIoRoute) && pin < 8
    ensures var buf := Fetch(s, AddrIoRoute, 8).0; var s1 := SetTio(s, pin, mode);
      s1.err.None? && s1.regs.faulty == s.regs.faulty && s1.regs.updates == s.regs.updates && Value(s1.regs, AddrIoRoute) == buf[pin := mode]
  {
  }

  /** The eight IO-route bytes just stored are the next eight read. */
  lemma IoRouteReadsBack(s: AdcState, w: seq<byte>)
    requires |w| == 8 && Value(s.regs, AddrIoRoute) == w
    ensures Steady(s.regs, AddrIoRoute) ==> Fetch(s, AddrIoRoute, 8).0 == w
  {
    assert Fit(w, 8) == w;
  }

  /** `setGpio` on a pin routed to GPIO changes only its level bit. */
  lemma SetGpioStores(s: AdcState, pin: nat, mode: GpioMode)
    requires s.err.None? && Steady(s.regs, AddrIoRoute) && pin < 8
    requires Fetch(s, AddrIoRoute, 8).0[pin] & IoRouteGpioE != 0
    ensures var buf := Fetch(s, AddrIoRoute, 8).0; var s1 := SetGpio(s, pin, mode);
      s1.err.None? && s1.regs.faulty == s.regs.faulty && s1.regs.updates == s.regs.updates && Value(s1.regs, AddrIoRoute) == buf[pin := WithGpio(buf[pin], mode)]
  {
  }

  /** `setGpio` on a pin not routed to GPIO is an error and writes nothing. */
  lemma SetGpioNotRouted(s: AdcState, pin: nat, mode: GpioMode)
    requires s.err.None? && Steady(s.regs, AddrIoRoute) && pin < 8
    requires Fetch(s, AddrIoRoute, 8).0[pin] & IoRouteGpioE == 0
    ensures var s1 := SetGpio(s, pin, mode); s1.err == Some(NotInGpioMode) && s1.regs.contents == s.regs.contents
  {
  }

  /** The mode `SetTargetIo` leaves in the route byte, for the four modes it supports. */
  function RouteByte(mode: TargetIoMode): byte
  {
    match mode
    case TargetIoModeSerialRx => IoRouteSrx
    case TargetIoModeSerialTx => IoRouteStx
    case TargetIoModeGpioLow => IoRouteGpioE
    case TargetIoModeGpioHigh => IoRouteGpioE | IoRouteGpio
    case _ => 0
  }

  predicate Settable(mode: TargetIoMode)
  {
    mode.TargetIoModeSerialRx? || mode.TargetIoModeSerialTx? || mode.TargetIoModeGpioLow? || mode.TargetIoModeGpioHigh?
  }

  /** A supported mode is stored as its route byte, and only byte `pin` of the IO-route register changes. */
  lemma SetTargetIoStores(s: AdcState, pin: nat, mode: TargetIoMode)
    requires s.err.None? && Steady(s.regs, AddrIoRoute) && pin < 8 && Settable(mode)
    ensures var buf := Fetch(s, AddrIoRoute, 8).0; var s1 := SetTargetIo(s, pin, mode);
      s1.err.None? && s1.regs.faulty == s.regs.faulty && s1.regs.updates == s.regs.updates && Value(s1.regs, AddrIoRoute) == buf[pin := RouteByte(mode)]
  {
    var buf := Fetch(s, AddrIoRoute, 8).0;
    if mode.TargetIoModeSerialRx? || mode.TargetIoModeSerialTx? {
      SetTioStores(s, pin, RouteByte(mode));
    } else {
      SetTioStores(s, pin, IoRouteGpioE);
      var s1 := SetTio(s, pin, IoRouteGpioE);
      IoRouteReadsBack(s1, buf[pin := IoRouteGpioE]);
      var g := if mode.TargetIoModeGpioLow? then GpioLow else GpioHigh;
      SetGpioStores(s1, pin, g);
      assert buf[pin := IoRouteGpioE][pin := WithGpio(IoRouteGpioE, g)] == buf[pin := RouteByte(mode)];
    }
  }

  /**
   * `setTargetIo` then `targetIo` gives each supported mode back without an
   * error, and the other seven route bytes are written back unchanged.
   */
  lemma TargetIoRoundTrip(s: AdcState, pin: nat, mode: TargetIoMode, other: nat)
    requires s.err.None? && Steady(s.regs, AddrIoRoute) && pin < 8 && other < 8 && Settable(mode)
    ensures var s1 := SetTargetIo(s, pin, mode); var r := TargetIo(s1, pin);
      && r.0 == mode && r.1.err.None?
      && (other != pin ==> Value(s1.regs, AddrIoRoute)[other] == Fetch(s, AddrIoRoute, 8).0[other])
  {
    var buf := Fetch(s, AddrIoRoute, 8).0;
    SetTargetIoStores(s, pin, mode);
    var s1 := SetTargetIo(s, pin, mode);
    IoRouteReadsBack(s1, buf[pin := RouteByte(mode)]);
    var s2 := Tio(s1, pin).1;
    assert s2.regs.contents == s1.regs.contents;
    IoRouteReadsBack(s2, buf[pin := RouteByte(mode)]);
  }

  /** High impedance and "GPIO disabled" are unsupported: an error, with no access at all. */
  lemma SetTargetIoUnsupported(s: AdcState, pin: nat, mode: TargetIoMode)
    requires s.err.None? && pin < 8 && !Settable(mode)
    ensures SetTargetIo(s, pin, mode) == s.(err := Some(UnsupportedTioMode))
  {
  }

  /**
   * `targetIo` never reports high impedance: a pin routed to neither serial
   * line nor GPIO, high impedance included, is an unsupported mode.
   */
  lemma TargetIoNeverHighZ(s: AdcState, pin: nat)
    requires pin < 8
    ensures TargetIo(s, pin).0 != TargetIoModeHighZ
    ensures s.err.None? && Steady(s.regs, AddrIoRoute) && Fetch(s, AddrIoRoute, 8).0[pin] == IoRouteHighZ ==>
      TargetIo(s, pin) == (TargetIoModeSerialRx, Fetch(s, AddrIoRoute, 8).1.(err := Some(UnsupportedTioMode)))
  {
  }

  /** With `err` set, `refreshParams` makes no access and changes nothing. */
  lemma RefreshAfterError(s: AdcState)
    requires s.err.Some?
    ensures RefreshParams(s) == s
  {
    StickyGetters(s, Nrst);
    StickySetters(s, 0, 0, 0, AdcSrcTuple(0, 0, 0), 0, Nrst, GpioLow, TriggerModeLow, GainModeLow, Hs2ModeDisabled,
                  0, FreqCounterExtClkInput, ClkGenInputSystem, TargetIoModeSerialRx);
    assert SetTotalSamples(s, 0) == s;
  }

  /** With `err` set, `defaultSetup` finds no CW-Lite and changes nothing. */
  lemma DefaultSetupAfterError(s: AdcState)
    requires s.err.Some?
    ensures DefaultSetup(s) == s
  {
  }

  /**
   * A settings register that cannot be read makes `NewAdc` fail with that
   * error: the first read sets it, and every later step keeps it.
   */
  lemma NewAdcFailsOnSettings(regs: Regs)
    requires !Readable(regs, AddrSettings)
    ensures Setup(regs).err == Some(RegisterAccessFailed)
  {
    var s0 := AdcState(None, 0, 10_000_000, regs);
    var s1 := SetResetOn(s0);
    assert s1.err == Some(RegisterAccessFailed);
    var s2 := SetResetOff(s1);
    assert s2 == s1;
    RefreshAfterError(s2);
    DefaultSetupAfterError(s2);
  }

  /** Status readings the hardware has in store: one byte per read. */
  function StatusReadings(bs: seq<byte>): (r: seq<Reading>)
    ensures |r| == |bs| && forall i :: 0 <= i < |bs| ==> r[i] == Some([bs[i]])
  {
    seq(|bs|, i requires 0 <= i < |bs| => Some([bs[i]]))
  }

  /** `n` reads of the status register. */
  function StatusPolls(n: nat): (r: seq<Access>)
    ensures |r| == n && forall i :: 0 <= i < n ==> r[i] == Load(AddrStatus, 1)
  {
    seq(n, i => Load(AddrStatus, 1))
  }

  /** One status read takes the next reading the hardware has in store. */
  lemma StatusTakesReading(s: AdcState, bs: seq<byte>)
    requires s.err.None? && Due(s.regs, AddrStatus) == StatusReadings(bs) && |bs| > 0
    ensures var (b, s1) := Status(s);
      && b == bs[0] && s1.err.None? && s1.hwMaxSamples == s.hwMaxSamples && s1.extClockFreq == s.extClockFreq
      && Due(s1.regs, AddrStatus) == StatusReadings(bs[1..])
      && Value(s1.regs, AddrStatus) == [bs[0]]
      && s1.regs.log == s.regs.log + [Load(AddrStatus, 1)]
      && s1.regs.faulty == s.regs.faulty
      && (forall a :: a != AddrStatus ==> Value(s1.regs, a) == Value(s.regs, a) && Due(s1.regs, a) == Due(s.regs, a))
  {
    assert StatusReadings(bs) == [Some([bs[0]])] + StatusReadings(bs[1..]);
    ReadSeesChange(s.regs, AddrStatus, [bs[0]], StatusReadings(bs[1..]));
  }

  /**
   * The status register shows the trigger first at poll `k`, within the
   * polls left before the timer fires: the wait stops after exactly `k + 1`
   * status reads, without forcing the trigger, and leaves the later
   * readings in store.
   */
  lemma {:induction false} WaitSeesTriggerAtPoll(s: AdcState, polls: nat, bs: seq<byte>, k: nat)
    requires s.err.None? && Due(s.regs, AddrStatus) == StatusReadings(bs)
    requires k < polls && k < |bs| && Triggered(bs[k])
    requires forall j :: 0 <= j < k ==> !Triggered(bs[j])
    ensures var r := PollTrigger(s, polls);
      && !r.0 && r.1.err.None?
      && r.1.regs.log == s.regs.log + StatusPolls(k + 1)
      && Value(r.1.regs, AddrStatus) == [bs[k]]
      && Due(r.1.regs, AddrStatus) == StatusReadings(bs[k + 1..])
      && r.1.regs.faulty == s.regs.faulty
      && (forall a :: a != AddrStatus ==> Value(r.1.regs, a) == Value(s.regs, a) && Due(r.1.regs, a) == Due(s.regs, a))
    decreases k
  {
    StatusTakesReading(s, bs);
    var s1 := Status(s).1;
    if k > 0 {
      forall j | 0 <= j < k - 1
        ensures !Triggered(bs[1..][j])
      {
        assert bs[1..][j] == bs[j + 1];
      }
      WaitSeesTriggerAtPoll(s1, polls - 1, bs[1..], k - 1);
      assert bs[1..][k - 1] == bs[k];
      assert bs[1..][k..] == bs[k + 1..];
      assert [Load(AddrStatus, 1)] + StatusPolls(k) == StatusPolls(k + 1);
    } else {
      assert StatusPolls(1) == [Load(AddrStatus, 1)];
    }
  }

  /**
   * No reading shows the trigger before the timer fires: the wait forces
   * the trigger after `polls` status reads.
   */
  lemma {:induction false} WaitTimesOutWithoutTrigger(s: AdcState, polls: nat, bs: seq<byte>)
    requires s.err.None? && Due(s.regs, AddrStatus) == StatusReadings(bs)
    requires polls <= |bs| && forall j :: 0 <= j < polls ==> !Triggered(bs[j])
    ensures PollTrigger(s, polls) == (true, SetTriggerNow(Nth(s, polls)))
    ensures Nth(s, polls).regs.log == s.regs.log + StatusPolls(polls)
    decreases polls
  {
    if polls == 0 {
      assert StatusPolls(0) == [];
    } else {
      StatusTakesReading(s, bs);
      var s1 := Status(s).1;
      forall j | 0 <= j < polls - 1
        ensures !Triggered(bs[1..][j])
      {
        assert bs[1..][j] == bs[j + 1];
      }
      WaitTimesOutWithoutTrigger(s1, polls - 1, bs[1..]);
      NthShift(s, polls - 1);
      assert [Load(AddrStatus, 1)] + StatusPolls(polls - 1) == StatusPolls(polls);
    }
  }

  /** A settings byte stored without error is what the next read returns, and no other register changes. */
  lemma SetSettingsReadsBack(s: AdcState, b: byte, validate: bool)
    requires s.err.None? && Steady(s.regs, AddrSettings)
    ensures var s1 := SetSettings(s, b, validate);
      && s1.err.None? && s1.regs.faulty == s.regs.faulty && s1.regs.updates == s.regs.updates
      && s1.hwMaxSamples == s.hwMaxSamples && s1.extClockFreq == s.extClockFreq
      && Value(s1.regs, AddrSettings) == [b] && Settings(s1).0 == b
      && (forall a :: a != AddrSettings ==> Value(s1.regs, a) == Value(s.regs, a))
  {
    assert Fit([b], 1) == [b];
  }

  /** A steady settings register reads as the byte it holds. */
  lemma SettingsSteady(s: AdcState)
    requires s.err.None? && Steady(s.regs, AddrSettings)
    ensures Settings(s) == (Fit(Value(s.regs, AddrSettings), 1)[0], s.(regs := s.regs.(log := s.regs.log + [Load(AddrSettings, 1)])))
  {
    FetchSteady(s, AddrSettings, 1);
  }

  /** A settings store to a working register passes and the register holds the byte. */
  lemma SetSettingsStores(s: AdcState, b: byte, validate: bool)
    requires s.err.None? && AddrSettings !in s.regs.faulty
    ensures SetSettings(s, b, validate) ==
      s.(regs := s.regs.(contents := s.regs.contents[AddrSettings := [b]], log := s.regs.log + [Store(AddrSettings, [b], validate, None)]))
  {
    PutPasses(s, AddrSettings, [b], validate, None);
  }

  /**
   * A settings read followed by a validated store of `b`: the register then
   * reads `b`, and no other register changes.
   */
  lemma RewriteSettings(s: AdcState, b: byte, validate: bool)
    requires s.err.None? && Steady(s.regs, AddrSettings)
    ensures var r := SetSettings(Settings(s).1, b, validate);
      && r.err.None? && OnlyAt(r, s, AddrSettings) && Settings(r).0 == b
      && r.regs.log == s.regs.log + [Load(AddrSettings, 1), Store(AddrSettings, [b], validate, None)]
  {
    SettingsSteady(s);
    var s1 := Settings(s).1;
    SetSettingsStores(s1, b, validate);
    var r := SetSettings(s1, b, validate);
    SettingsSteady(r);
    assert Fit([b], 1) == [b];
  }

  /**
   * `SetArmOn`: the settings byte is read, and written back validated with
   * the arm bit set and every other bit as it was; no other register changes.
   */
  lemma SetArmOnSetsBit(s: AdcState)
    requires s.err.None? && Steady(s.regs, AddrSettings)
    ensures var v := Settings(s).0; var r := SetArmOn(s);
      && r.err.None? && OnlyAt(r, s, AddrSettings)
      && Settings(r).0 == v | SettingsArm
      && Settings(r).0 & SettingsArm != 0 && SameOutside(Settings(r).0, v, SettingsArm)
      && r.regs.log == s.regs.log + [Load(AddrSettings, 1), Store(AddrSettings, [v | SettingsArm], true, None)]
  {
    RewriteSettings(s, Settings(s).0 | SettingsArm, true);
  }

  /** `SetArmOff`: as `SetArmOn`, with the arm bit cleared. */
  lemma SetArmOffClearsBit(s: AdcState)
    requires s.err.None? && Steady(s.regs, AddrSettings)
    ensures var v := Settings(s).0; var r := SetArmOff(s);
      && r.err.None? && OnlyAt(r, s, AddrSettings)
      && Settings(r).0 == v & !SettingsArm
      && Settings(r).0 & SettingsArm == 0 && SameOutside(Settings(r).0, v, SettingsArm)
      && r.regs.log == s.regs.log + [Load(AddrSettings, 1), Store(AddrSettings, [v & !SettingsArm], true, None)]
  {
    RewriteSettings(s, Settings(s).0 & !SettingsArm, true);
  }

  /**
   * `SetTriggerNow`: the trigger-now bit is raised and dropped again in two
   * validated stores; the settings end with that bit clear and every other
   * bit as read, so settings without it end as they began.
   */
  lemma SetTriggerNowPulses(s: AdcState)
    requires s.err.None? && Steady(s.regs, AddrSettings)
    ensures var v := Settings(s).0; var r := SetTriggerNow(s);
      && r.err.None? && OnlyAt(r, s, AddrSettings)
      && Settings(r).0 == v & !SettingsTrigNow
      && (v & SettingsTrigNow == 0 ==> Settings(r).0 == v)
      && r.regs.log == s.regs.log + [Load(AddrSettings, 1),
           Store(AddrSettings, [v | SettingsTrigNow], true, None), Store(AddrSettings, [v & !SettingsTrigNow], true, None)]
  {
    var v := Settings(s).0;
    PulseSettings(s, v | SettingsTrigNow, v & !SettingsTrigNow);
  }

  /** A settings read followed by two validated stores: the second byte stays. */
  lemma PulseSettings(s: AdcState, hi: byte, lo: byte)
    requires s.err.None? && Steady(s.regs, AddrSettings)
    ensures var r := SetSettings(SetSettings(Settings(s).1, hi, true), lo, true);
      && r.err.None? && OnlyAt(r, s, AddrSettings) && Settings(r).0 == lo
      && r.regs.log == s.regs.log + [Load(AddrSettings, 1), Store(AddrSettings, [hi], true, None), Store(AddrSettings, [lo], true, None)]
  {
    RewriteSettings(s, hi, true);
    var s2 := SetSettings(Settings(s).1, hi, true);
    StoreSettingsAgain(s2, s, lo);
    assert (s.regs.log + [Load(AddrSettings, 1), Store(AddrSettings, [hi], true, None)]) + [Store(AddrSettings, [lo], true, None)]
        == s.regs.log + [Load(AddrSettings, 1), Store(AddrSettings, [hi], true, None), Store(AddrSettings, [lo], true, None)];
  }

  /** A further validated settings store after `RewriteSettings`. */
  lemma StoreSettingsAgain(s2: AdcState, s: AdcState, b: byte)
    requires s2.err.None? && OnlyAt(s2, s, AddrSettings) && Steady(s.regs, AddrSettings)
    ensures var r := SetSettings(s2, b, true);
      && r.err.None? && OnlyAt(r, s, AddrSettings) && Settings(r).0 == b
      && r.regs.log == s2.regs.log + [Store(AddrSettings, [b], true, None)]
  {
    SetSettingsStores(s2, b, true);
    var r := SetSettings(s2, b, true);
    SettingsSteady(r);
    assert Fit([b], 1) == [b];
    OnlyAtTrans(r, s2, s, AddrSettings);
  }

  /** `r` differs from `s` at most in registers `a` and `b` and in the sample limit. */
  ghost predicate OnlyAtTwo(r: AdcState, s: AdcState, a: Address, b: Address)
  {
    && r.extClockFreq == s.extClockFreq && r.regs.faulty == s.regs.faulty && r.regs.updates == s.regs.updates
    && forall x :: x != a && x != b ==> Value(r.regs, x) == Value(s.regs, x)
  }

  /** A steady sample-count register reads as the little-endian word it holds. */
  lemma NumSamplesSteady(s: AdcState)
    requires s.err.None? && Steady(s.regs, AddrSamples)
    ensures NumSamples(s) == (LeWord32(Fit(Value(s.regs, AddrSamples), 4)), s.(regs := s.regs.(log := s.regs.log + [Load(AddrSamples, 4)])))
  {
    FetchSteady(s, AddrSamples, 4);
  }

  /** A sample-count store to a working register passes and reads back. */
  lemma SetNumSamplesReadsBack(s: AdcState, n: u32)
    requires s.err.None? && Steady(s.regs, AddrSamples)
    ensures var r := SetNumSamples(s, n);
      && r == s.(regs := s.regs.(contents := s.regs.contents[AddrSamples := Le32(n)], log := s.regs.log + [Store(AddrSamples, Le32(n), true, None)]))
      && NumSamples(r).0 == n
  {
    PutPasses(s, AddrSamples, Le32(n), true, None);
    var r := SetNumSamples(s, n);
    NumSamplesSteady(r);
    assert Fit(Le32(n), 4) == Le32(n);
  }

  /**
   * `setResetOn`: the reset bit is stored unvalidated with the other settings
   * as read, the sample limit becomes the sample count read minus 45 (in
   * `uint32`), and that limit is written back as the sample count.
   */
  lemma SetResetOnLimit(s: AdcState)
    requires s.err.None? && Steady(s.regs, AddrSettings) && Steady(s.regs, AddrSamples)
    ensures var v := Settings(s).0; var n := NumSamples(s).0; var r := SetResetOn(s);
      && r.err.None? && OnlyAtTwo(r, s, AddrSettings, AddrSamples)
      && r.hwMaxSamples == n - 45 && r.hwMaxSamples + 45 == n
      && Settings(r).0 == v | SettingsReset
      && NumSamples(r).0 == r.hwMaxSamples
  {
    var v := Settings(s).0;
    RewriteSettings(s, v | SettingsReset, false);
    LowerLimitAfterSettings(SetSettings(Settings(s).1, v | SettingsReset, false), s);
  }

  /** The second half of `setResetOn`, after a settings store that changed only that register. */
  lemma LowerLimitAfterSettings(s2: AdcState, s: AdcState)
    requires s.err.None? && s2.err.None? && OnlyAt(s2, s, AddrSettings) && Steady(s.regs, AddrSamples) && Steady(s.regs, AddrSettings)
    ensures var n := NumSamples(s).0; var r := LowerSampleLimit(NumSamples(s2).1, NumSamples(s2).0);
      && r.err.None? && OnlyAtTwo(r, s, AddrSettings, AddrSamples)
      && r.hwMaxSamples == n - 45 && Settings(r).0 == Settings(s2).0
      && NumSamples(r).0 == r.hwMaxSamples
  {
    var n := NumSamples(s2).0;
    var s3 := NumSamples(s2).1;
    assert n == NumSamples(s).0 && SameRegs(s3, s2) by {
      NumSamplesSteady(s);
      NumSamplesSteady(s2);
      assert Value(s2.regs, AddrSamples) == Value(s.regs, AddrSamples);
    }
    LowerLimitStores(s3, n);
    var r := LowerSampleLimit(s3, n);
    assert Settings(r).0 == Settings(s2).0 by {
      assert Value(r.regs, AddrSettings) == Value(s2.regs, AddrSettings);
      SettingsSteady(s2);
      SettingsSteady(r);
    }
    assert forall x | x != AddrSamples :: Value(r.regs, x) == Value(s2.regs, x);
  }

  /** `c.hwMaxSamples = n - 45` and its store: the limit reads back as the sample count. */
  lemma LowerLimitStores(s: AdcState, n: u32)
    requires s.err.None? && Steady(s.regs, AddrSamples)
    ensures var r := LowerSampleLimit(s, n);
      && r.err.None? && r.hwMaxSamples == n - 45 && NumSamples(r).0 == r.hwMaxSamples
      && r.regs.contents == s.regs.contents[AddrSamples := Le32(n - 45)]
      && r.regs.faulty == s.regs.faulty && r.regs.updates == s.regs.updates && r.extClockFreq == s.extClockFreq
  {
    SetNumSamplesReadsBack(s.(hwMaxSamples := n - 45), n - 45);
  }

  /** `setResetOff`: the reset bit is cleared, validated, and every other bit kept. */
  lemma SetResetOffClears(s: AdcState)
    requires s.err.None? && Steady(s.regs, AddrSettings)
    ensures var v := Settings(s).0; var r := SetResetOff(s);
      && r.err.None? && OnlyAt(r, s, AddrSettings)
      && Settings(r).0 == v & !SettingsReset
      && Settings(r).0 & SettingsReset == 0 && SameOutside(Settings(r).0, v, SettingsReset)
  {
    RewriteSettings(s, Settings(s).0 & !SettingsReset, true);
  }

  /**
   * After `WaitForTigger` sees the trigger at poll `k`, the settings are
   * read and written back with the arm bit cleared.
   */
  lemma WaitForTriggerDisarms(s: AdcState, polls: nat, bs: seq<byte>, k: nat)
    requires s.err.None? && Due(s.regs, AddrStatus) == StatusReadings(bs) && Steady(s.regs, AddrSettings)
    requires k < polls && k < |bs| && Triggered(bs[k])
    requires forall j :: 0 <= j < k ==> !Triggered(bs[j])
    ensures var r := WaitForTrigger(s, polls);
      && !r.0 && r.1.err.None?
      && Settings(r.1).0 == Settings(s).0 & !SettingsArm
      && |r.1.regs.log| == |s.regs.log| + k + 3
  {
    WaitSeesTriggerAtPoll(s, polls, bs, k);
    var s1 := PollTrigger(s, polls).1;
    SettingsSteady(s);
    SettingsSteady(s1);
    SetArmOffClearsBit(s1);
  }

  /** An advanced-clock read that takes a reading returns the value the hardware put there. */
  lemma AdvClockTakesReading(s: AdcState, a: AdvClk, later: seq<Reading>)
    requires s.err.None? && Due(s.regs, AddrAdvClk) == [Some(AdvClkBytes(a))] + later
    ensures var (b, s1) := AdvClock(s);
      && b == a && s1.err.None? && Due(s1.regs, AddrAdvClk) == later && Value(s1.regs, AddrAdvClk) == AdvClkBytes(a)
      && s1.regs.faulty == s.regs.faulty && s1.hwMaxSamples == s.hwMaxSamples && s1.extClockFreq == s.extClockFreq
  {
    ReadSeesChange(s.regs, AddrAdvClk, AdvClkBytes(a), later);
  }

  /** A store to a working advanced-clock register passes and leaves the readings in store alone. */
  lemma SetAdvClockPasses(s: AdcState, a: AdvClk, validate: bool)
    requires s.err.None? && AddrAdvClk !in s.regs.faulty
    ensures var s1 := SetAdvClock(s, a, validate);
      && s1.err.None? && s1.regs.faulty == s.regs.faulty && s1.regs.updates == s.regs.updates
      && Value(s1.regs, AddrAdvClk) == AdvClkBytes(a) && s1.hwMaxSamples == s.hwMaxSamples && s1.extClockFreq == s.extClockFreq
  {
  }

  /** `reloadClkGen` whose read takes a reading: both stores pass and the later readings stay in store. */
  lemma ReloadTakesReading(s: AdcState, a: AdvClk, later: seq<Reading>)
    requires s.err.None? && AddrAdvClk !in s.regs.faulty && Due(s.regs, AddrAdvClk) == [Some(AdvClkBytes(a))] + later
    ensures var r := ReloadClkGen(s);
      r.err.None? && r.regs.faulty == s.regs.faulty && Due(r.regs, AddrAdvClk) == later
  {
    AdvClockTakesReading(s, a, later);
    var (b, s1) := AdvClock(s);
    var on := b.(flags := b.flags | ClkGenLoad);
    SetAdvClockPasses(s1, on, true);
    SetAdvClockPasses(SetAdvClock(s1, on, true), on.(flags := on.flags & !ClkGenLoad), true);
  }

  /**
   * The DCM reports lock only at the third advanced-clock reading: the first
   * try of `clkGenMul` sees DONE clear and reloads CLKGEN, whose own read
   * takes the second reading, and the second try reads the multiplier.
   */
  lemma ClkGenMulSecondTry(s: AdcState, a1: AdvClk, a2: AdvClk, a3: AdvClk)
    requires s.err.None? && AddrAdvClk !in s.regs.faulty
    requires Due(s.regs, AddrAdvClk) == [Some(AdvClkBytes(a1)), Some(AdvClkBytes(a2)), Some(AdvClkBytes(a3))]
    requires a1.mul != 0 && a1.flags & ClkGenDone == 0 && a3.mul != 0 && a3.flags & ClkGenDone != 0
    ensures var r := ClkGenMul(s); r.0 == ClkGenValue(a3.mul) && r.1.err.None?
  {
    var rest := [Some(AdvClkBytes(a2)), Some(AdvClkBytes(a3))];
    assert Due(s.regs, AddrAdvClk) == [Some(AdvClkBytes(a1))] + rest;
    AdvClockTakesReading(s, a1, rest);
    var s1 := AdvClock(s).1;
    assert rest == [Some(AdvClkBytes(a2))] + [Some(AdvClkBytes(a3))];
    ReloadTakesReading(s1, a2, [Some(AdvClkBytes(a3))]);
    var s2 := ReloadClkGen(s1);
    assert Due(s2.regs, AddrAdvClk) == [Some(AdvClkBytes(a3))] + [];
    AdvClockTakesReading(s2, a3, []);
  }

  /** As `ClkGenMulSecondTry`, for `clkGenDiv`. */
  lemma ClkGenDivSecondTry(s: AdcState, a1: AdvClk, a2: AdvClk, a3: AdvClk)
    requires s.err.None? && AddrAdvClk !in s.regs.faulty
    requires Due(s.regs, AddrAdvClk) == [Some(AdvClkBytes(a1)), Some(AdvClkBytes(a2)), Some(AdvClkBytes(a3))]
    requires a1.flags & ClkGenDone == 0 && a3.flags & ClkGenDone != 0
    ensures var r := ClkGenDiv(s); r.0 == ClkGenValue(a3.div) && r.1.err.None?
  {
    var rest := [Some(AdvClkBytes(a2)), Some(AdvClkBytes(a3))];
    assert Due(s.regs, AddrAdvClk) == [Some(AdvClkBytes(a1))] + rest;
    AdvClockTakesReading(s, a1, rest);
    var s1 := AdvClock(s).1;
    assert rest == [Some(AdvClkBytes(a2))] + [Some(AdvClkBytes(a3))];
    ReloadTakesReading(s1, a2, [Some(AdvClkBytes(a3))]);
    var s2 := ReloadClkGen(s1);
    assert Due(s2.regs, AddrAdvClk) == [Some(AdvClkBytes(a3))] + [];
    AdvClockTakesReading(s2, a3, []);
  }

  /** `reloadClkGen` on a steady register: only the load flag is pulsed. */
  lemma ReloadClkGenStores(s: AdcState)
    requires s.err.None? && Steady(s.regs, AddrAdvClk)
    ensures var a := AdvClock(s).0; var r := ReloadClkGen(s);
      r.err.None? && OnlyAt(r, s, AddrAdvClk) && AdvClock(r).0 == a.(flags := (a.flags | ClkGenLoad) & !ClkGenLoad)
  {
    AdvClockSteady(s);
    var (a, s1) := AdvClock(s);
    var on := a.(flags := a.flags | ClkGenLoad);
    PulseStores(s1, on, on.(flags := on.flags & !ClkGenLoad), true);
    SameRegsOnlyAt(s1, s, AddrAdvClk);
    OnlyAtTrans(ReloadClkGen(s), s1, s, AddrAdvClk);
  }

  /**
   * A DCM that never reports lock on a register that does not change on its
   * own: the reloads leave DONE clear, and `clkGenMul` fails after two tries.
   */
  lemma ClkGenMulNotLocked(s: AdcState)
    requires s.err.None? && Steady(s.regs, AddrAdvClk)
    requires AdvClock(s).0.mul != 0 && AdvClock(s).0.flags & ClkGenDone == 0
    ensures var r := ClkGenMul(s); r.0 == 0 && r.1.err == Some(ClkGenNotLocked)
  {
    var (a, s1) := AdvClock(s);
    ReloadClkGenStores(s1);
    assert ((a.flags | ClkGenLoad) & !ClkGenLoad) & ClkGenDone == 0;
  }

  /** As `ClkGenMulNotLocked`, for `clkGenDiv`, which reports 1. */
  lemma ClkGenDivNotLocked(s: AdcState)
    requires s.err.None? && Steady(s.regs, AddrAdvClk)
    requires AdvClock(s).0.flags & ClkGenDone == 0
    ensures var r := ClkGenDiv(s); r.0 == 1 && r.1.err == Some(ClkGenNotLocked)
  {
    var (a, s1) := AdvClock(s);
    ReloadClkGenStores(s1);
    assert ((a.flags | ClkGenLoad) & !ClkGenLoad) & ClkGenDone == 0;
  }

  /** Multipliers below 2 and the divider 0 are errors, and nothing is read or written. */
  lemma ClkGenFactorsTooSmall(s: AdcState, mul: u32, div: u32)
    requires s.err.None?
    ensures mul < 2 ==> SetClkGenMul(s, mul) == s.(err := Some(ClkGenMulTooSmall))
    ensures div == 0 ==> SetClkGenDiv(s, div) == s.(err := Some(ClkGenDivTooSmall))
  {
  }

  /** `setClkGenDiv` leaves the new divider field and the old flags, load flag cleared, in the register. */
  lemma SetClkGenDivStores(s: AdcState, div: u32)
    requires s.err.None? && Steady(s.regs, AddrAdvClk) && 1 <= div
    ensures var a := AdvClock(s).0; var s1 := SetClkGenDiv(s, div);
      s1.err.None? && OnlyAt(s1, s, AddrAdvClk) && AdvClock(s1).0 == a.(div := ClkGenField(div), flags := (a.flags | ClkGenLoad) & !ClkGenLoad)
  {
    AdvClockSteady(s);
    var (a, s0) := AdvClock(s);
    var on := a.(div := ClkGenField(div), flags := a.flags | ClkGenLoad);
    PulseStores(s0, on, on.(flags := on.flags & !ClkGenLoad), true);
    SameRegsOnlyAt(s0, s, AddrAdvClk);
    OnlyAtTrans(SetClkGenDiv(s, div), s0, s, AddrAdvClk);
  }

  /**
   * A divider in [1, 256] set while the DCM reports lock is what
   * `clkGenDiv` reads back on its first try.
   */
  lemma ClkGenDivRoundTrip(s: AdcState, div: u32)
    requires s.err.None? && Steady(s.regs, AddrAdvClk) && 1 <= div <= 256
    requires AdvClock(s).0.flags & ClkGenDone != 0
    ensures var s1 := SetClkGenDiv(s, div); s1.err.None? && ClkGenDiv(s1).0 == div
  {
    var a := AdvClock(s).0;
    SetClkGenDivStores(s, div);
    ClkGenRoundTrip(div);
    assert ((a.flags | ClkGenLoad) & !ClkGenLoad) & ClkGenDone != 0;
  }

  lemma OnlyAtTrans(a: AdcState, b: AdcState, c: AdcState, addr: Address)
    requires OnlyAt(a, b, addr) && OnlyAt(b, c, addr)
    ensures OnlyAt(a, c, addr)
  {
  }

  /**
   * On steady registers the CLKGEN input frequency is the external clock
   * frequency or the system-frequency register, as bit 3 of `SrcAndStatus`
   * says, and reading it changes only the log.
   */
  lemma InputFreqReads(s: AdcState)
    requires s.err.None? && Steady(s.regs, AddrAdvClk) && Steady(s.regs, AddrSysFreq)
    ensures var (f, s1) := InputFreq(s);
      && SameRegs(s1, s)
      && f == if ClkGenInputOf(AdvClock(s).0.srcAndStatus) == ClkGenInputExtClk then s.extClockFreq
              else LeWord32(Fit(Value(s.regs, AddrSysFreq), 4))
  {
    FetchSteady(s, AddrAdvClk, 4);
    var s1 := Fetch(s, AddrAdvClk, 4).1;
    FetchSteady(s1, AddrSysFreq, 4);
  }

  /** A read of a steady register returns what it holds and changes only the log. */
  lemma FetchSteady(s: AdcState, addr: Address, len: nat)
    requires Steady(s.regs, addr)
    ensures Fetch(s, addr, len) == (Fit(Value(s.regs, addr), len), s.(err := None, regs := s.regs.(log := s.regs.log + [Load(addr, len)])))
  {
    ReadSteady(s.regs, addr, len);
  }

  /** `r` is `s` with a longer log at most: the same error, limits and registers. */
  predicate SameRegs(r: AdcState, s: AdcState)
  {
    && r.err == s.err && r.hwMaxSamples == s.hwMaxSamples && r.extClockFreq == s.extClockFreq
    && r.regs.contents == s.regs.contents && r.regs.faulty == s.regs.faulty && r.regs.updates == s.regs.updates
  }

  lemma SameRegsOnlyAt(r: AdcState, s: AdcState, addr: Address)
    requires SameRegs(r, s)
    ensures OnlyAt(r, s, addr)
  {
  }

  /**
   * With the DCM locked and a non-zero multiplier field, the frequency read
   * is the input frequency times the multiplier over the divider that the
   * register holds.
   */
  lemma ClkGenOutputFreqRule(s: AdcState)
    requires s.err.None? && Steady(s.regs, AddrAdvClk) && Steady(s.regs, AddrSysFreq)
    requires AdvClock(s).0.mul != 0 && AdvClock(s).0.flags & ClkGenDone != 0
    ensures var a := AdvClock(s).0; var r := ClkGenOutputFreq(s);
      r.1.err.None? && r.0 == ScaleFreq(InputFreq(s).0, ClkGenValue(a.mul), ClkGenValue(a.div))
  {
    InputFreqReads(s);
    var (inp, s1) := InputFreq(s);
    assert AdvClock(s1).0 == AdvClock(s).0;
    var (mul, s2) := ClkGenMul(s1);
    assert s2.regs.contents == s.regs.contents && s2.err.None?;
    assert AdvClock(s2).0 == AdvClock(s).0;
  }

  /** The search's pair is in range when a divider is allowed, and (0, 0) otherwise. */
  lemma SearchRange(freq: nat, inp: nat)
    ensures var p := AdcClock.ClkGenMulDiv(freq, inp);
      && (AdcClock.MaxDiv(inp) > 1 ==> 2 <= p.0 <= 256 && 1 <= p.1 <= 256)
      && (AdcClock.MaxDiv(inp) <= 1 ==> p == (0, 0))
  {
    AdcClock.ClkGenMulDivOptimal(freq, inp);
  }

  /**
   * `setClkGenMul`, `setClkGenDiv`, `resetClkGen` and `resetAdc` in a row:
   * the new fields are stored, DONE and the CLKGEN input bit are kept.
   */
  lemma StoreMulDiv(s: AdcState, mul: u32, div: u32)
    requires s.err.None? && Steady(s.regs, AddrAdvClk) && 2 <= mul && 1 <= div
    ensures var a := AdvClock(s).0; var r := ResetAdc(ResetClkGen(SetClkGenDiv(SetClkGenMul(s, mul), div)));
      && r.err.None? && OnlyAt(r, s, AddrAdvClk)
      && AdvClock(r).0.mul == ClkGenField(mul) && AdvClock(r).0.div == ClkGenField(div)
      && AdvClock(r).0.flags & ClkGenDone == a.flags & ClkGenDone
      && AdvClock(r).0.srcAndStatus & ClkGenInputBit == a.srcAndStatus & ClkGenInputBit
  {
    var a := AdvClock(s).0;
    SetClkGenMulStores(s, mul);
    var s2 := SetClkGenMul(s, mul);
    SetClkGenDivStores(s2, div);
    var s3 := SetClkGenDiv(s2, div);
    ResetClkGenKeepsFlags(s3);
    var s4 := ResetClkGen(s3);
    ResetAdcStores(s4);
    OnlyAtTrans(s3, s2, s, AddrAdvClk);
    OnlyAtTrans(s4, s3, s, AddrAdvClk);
    OnlyAtTrans(ResetAdc(s4), s4, s, AddrAdvClk);
    var f4 := AdvClock(s4).0.flags;
    assert SameOutside(f4, (((a.flags | ClkGenLoad) & !ClkGenLoad) | ClkGenLoad) & !ClkGenLoad, ClkGenLoad | ClkGenReset);
    assert f4 & ClkGenDone == a.flags & ClkGenDone;
    var x := AdvClock(s4).0.srcAndStatus;
    assert ((x | 0x10) & !0x10) & 0x08 == x & 0x08;
  }

  /**
   * An input too slow for any divider makes the search return the
   * multiplier 0, which `SetClkGenOutputFreq` refuses.
   */
  lemma SetClkGenOutputFreqRefuses(s: AdcState, freq: u32)
    requires s.err.None? && Steady(s.regs, AddrAdvClk) && Steady(s.regs, AddrSysFreq)
    requires AdcClock.MaxDiv(InputFreq(s).0 as nat) <= 1
    ensures SetClkGenOutputFreq(s, freq).err == Some(ClkGenMulTooSmall)
  {
    InputFreqReads(s);
    var (inp, s1) := InputFreq(s);
    SearchRange(freq as nat, inp as nat);
    assert U32(0) == 0;
  }

  /**
   * `SetClkGenOutputFreq` stores the pair the search returns for the input
   * frequency read: the multiplier and divider fields, DONE and the CLKGEN
   * input left as they were, no other register changed.
   */
  lemma SetClkGenOutputFreqStores(s: AdcState, freq: u32)
    requires s.err.None? && Steady(s.regs, AddrAdvClk) && Steady(s.regs, AddrSysFreq)
    requires AdcClock.MaxDiv(InputFreq(s).0 as nat) > 1
    ensures var inp := InputFreq(s).0; var p := AdcClock.ClkGenMulDiv(freq as nat, inp as nat);
      var a := AdvClock(s).0; var r := SetClkGenOutputFreq(s, freq);
      && 2 <= p.0 <= 256 && 1 <= p.1 <= 256
      && r.err.None? && OnlyAt(r, s, AddrAdvClk)
      && AdvClock(r).0.mul == ClkGenField(U32(p.0)) && AdvClock(r).0.div == ClkGenField(U32(p.1))
      && AdvClock(r).0.flags & ClkGenDone == a.flags & ClkGenDone
      && ClkGenInputOf(AdvClock(r).0.srcAndStatus) == ClkGenInputOf(a.srcAndStatus)
  {
    InputFreqReads(s);
    var (inp, s1) := InputFreq(s);
    var (mul, div) := AdcClock.ClkGenMulDiv(freq as nat, inp as nat);
    SearchRange(freq as nat, inp as nat);
    ByteCast.U32Small(mul);
    ByteCast.U32Small(div);
    StoreMulDivAfterRead(s1, s, U32(mul), U32(div));
  }

  /** `StoreMulDiv` after a read that changed only the log. */
  lemma StoreMulDivAfterRead(s1: AdcState, s: AdcState, mul: u32, div: u32)
    requires SameRegs(s1, s) && s.err.None? && Steady(s.regs, AddrAdvClk) && 2 <= mul && 1 <= div
    ensures var a := AdvClock(s).0; var r := ResetAdc(ResetClkGen(SetClkGenDiv(SetClkGenMul(s1, mul), div)));
      && r.err.None? && OnlyAt(r, s, AddrAdvClk)
      && AdvClock(r).0.mul == ClkGenField(mul) && AdvClock(r).0.div == ClkGenField(div)
      && AdvClock(r).0.flags & ClkGenDone == a.flags & ClkGenDone
      && AdvClock(r).0.srcAndStatus & ClkGenInputBit == a.srcAndStatus & ClkGenInputBit
  {
    AdvClockSteady(s);
    AdvClockSteady(s1);
    StoreMulDiv(s1, mul, div);
    SameRegsOnlyAt(s1, s, AddrAdvClk);
    OnlyAtTrans(ResetAdc(ResetClkGen(SetClkGenDiv(SetClkGenMul(s1, mul), div))), s1, s, AddrAdvClk);
  }

  /**
   * After a successful `SetClkGenOutputFreq` with the DCM locked, the
   * multiplier and divider read back are the searched pair, the input
   * frequency is unchanged, and the frequency read is the input times the
   * multiplier over the divider.
   */
  lemma ClkGenOutputFreqReadsBack(s: AdcState, freq: u32)
    requires s.err.None? && Steady(s.regs, AddrAdvClk) && Steady(s.regs, AddrSysFreq)
    requires AdvClock(s).0.flags & ClkGenDone != 0
    requires AdcClock.MaxDiv(InputFreq(s).0 as nat) > 1
    ensures var inp := InputFreq(s).0; var p := AdcClock.ClkGenMulDiv(freq as nat, inp as nat);
      var r := SetClkGenOutputFreq(s, freq);
      && r.err.None?
      && ClkGenMul(r).0 == U32(p.0) && ClkGenDiv(r).0 == U32(p.1)
      && InputFreq(r).0 == inp
      && ClkGenOutputFreq(r).0 == ScaleFreq(inp, U32(p.0), U32(p.1))
  {
    var inp := InputFreq(s).0;
    var (mul, div) := AdcClock.ClkGenMulDiv(freq as nat, inp as nat);
    SetClkGenOutputFreqStores(s, freq);
    ByteCast.U32Small(mul);
    ByteCast.U32Small(div);
    ReadBackAfterStore(SetClkGenOutputFreq(s, freq), s, U32(mul), U32(div));
  }

  /** A locked CLKGEN with a non-zero multiplier field reads back on the first try. */
  lemma ClkGenMulSteady(s: AdcState)
    requires s.err.None? && Steady(s.regs, AddrAdvClk)
    requires AdvClock(s).0.mul != 0 && AdvClock(s).0.flags & ClkGenDone != 0
    ensures ClkGenMul(s) == (ClkGenValue(AdvClock(s).0.mul), AdvClock(s).1)
  {
  }

  lemma ClkGenDivSteady(s: AdcState)
    requires s.err.None? && Steady(s.regs, AddrAdvClk)
    requires AdvClock(s).0.flags & ClkGenDone != 0
    ensures ClkGenDiv(s) == (ClkGenValue(AdvClock(s).0.div), AdvClock(s).1)
  {
  }

  /**
   * A state that differs from `s` only in the advanced-clock register, whose
   * multiplier and divider fields hold `mul` and `div` and whose DONE flag and
   * CLKGEN input are those of `s`, reads back `mul`, `div`, the input frequency
   * of `s` and their scaled frequency.
   */
  lemma ReadBackAfterStore(r: AdcState, s: AdcState, mul: u32, div: u32)
    requires s.err.None? && Steady(s.regs, AddrAdvClk) && Steady(s.regs, AddrSysFreq)
    requires AdvClock(s).0.flags & ClkGenDone != 0
    requires 2 <= mul <= 256 && 1 <= div <= 256
    requires r.err.None? && OnlyAt(r, s, AddrAdvClk)
    requires AdvClock(r).0.mul == ClkGenField(mul) && AdvClock(r).0.div == ClkGenField(div)
    requires AdvClock(r).0.flags & ClkGenDone == AdvClock(s).0.flags & ClkGenDone
    requires ClkGenInputOf(AdvClock(r).0.srcAndStatus) == ClkGenInputOf(AdvClock(s).0.srcAndStatus)
    ensures ClkGenMul(r).0 == mul && ClkGenDiv(r).0 == div
    ensures InputFreq(r).0 == InputFreq(s).0
    ensures ClkGenOutputFreq(r).0 == ScaleFreq(InputFreq(s).0, mul, div)
  {
    assert Steady(r.regs, AddrAdvClk) && Steady(r.regs, AddrSysFreq);
    assert Value(r.regs, AddrSysFreq) == Value(s.regs, AddrSysFreq);
    ClkGenRoundTrip(mul);
    ClkGenRoundTrip(div);
    ClkGenMulSteady(r);
    ClkGenDivSteady(r);
    InputFreqReads(s);
    InputFreqReads(r);
    ClkGenOutputFreqRule(r);
  }

}
