/**
 * The `Adc` controller of adc.go as the driver runs it: a sticky error, the
 * sample limit and the external clock frequency as fields, and a register
 * file that the memory accesses change in place. Every method performs the
 * steps of its Go counterpart and is proved to end in the state, and with the
 * result, that the function of the same name in `OpenAdc` describes; the
 * properties proved about those functions (in `AdcLemmas`) thus hold of the
 * driver.
 */
module AdcDriver {
  import opened Base
  import opened Bytes
  import opened AdcBus
  import opened AdcFields
  import OpenAdc
  import TraceDecode
  import AdcClock

  class Adc {
    var err: Option<Error>
    var hwMaxSamples: u32
    var extClockFreq: u32
    const regs: RegisterFile

    /** The controller's state as `OpenAdc` describes it. */
    function State(): OpenAdc.AdcState
      reads this, regs
    {
      OpenAdc.AdcState(err, hwMaxSamples, extClockFreq, regs.State())
    }

    /** `&Adc{fpga, nil, 0, 10e6}`: no error, no sample limit yet, a 10 MHz external clock. */
    constructor (regs: RegisterFile)
      ensures this.regs == regs && State() == OpenAdc.AdcState(None, 0, 10_000_000, regs.State())
    {
      this.regs := regs;
      err, hwMaxSamples, extClockFreq := None, 0, 10_000_000;
    }

    /** `Error`. */
    function Error(): (e: Option<Error>)
      reads this
      ensures e == State().err
    {
      err
    }

    /** `c.err = c.fpga.Mem.Read(addr, v)`. */
    method Fetch(addr: Address, len: nat) returns (v: seq<byte>)
      modifies this, regs
      ensures (v, State()) == OpenAdc.Fetch(old(State()), addr, len)
    {
      var r := regs.Read(addr, len);
      if r.Ok? {
        v, err := r.value, None;
      } else {
        v, err := OpenAdc.Zeros(len), Some(r.error);
      }
    }

    method Load(addr: Address, len: nat) returns (v: seq<byte>)
      modifies this, regs
      ensures (v, State()) == OpenAdc.Load(old(State()), addr, len)
    {
      if err.Some? {
        return OpenAdc.Zeros(len);
      }
      v := Fetch(addr, len);
    }

    /** `c.err = c.fpga.Mem.Write(addr, v, validate, mask)`. */
    method Put(addr: Address, data: seq<byte>, validate: bool, mask: Option<seq<byte>>)
      modifies this, regs
      ensures State() == OpenAdc.Put(old(State()), addr, data, validate, mask)
    {
      var o := regs.Write(addr, data, validate, mask);
      err := if o.Pass? then None else Some(o.error);
    }

    method Store(addr: Address, data: seq<byte>, validate: bool, mask: Option<seq<byte>>)
      modifies this, regs
      ensures State() == OpenAdc.Store(old(State()), addr, data, validate, mask)
    {
      if err.None? {
        Put(addr, data, validate, mask);
      }
    }

    method Status() returns (status: byte)
      modifies this, regs
      ensures (status, State()) == OpenAdc.Status(old(State()))
    {
      var b := Load(OpenAdc.AddrStatus, 1);
      status := b[0];
    }

    method Settings() returns (settings: byte)
      modifies this, regs
      ensures (settings, State()) == OpenAdc.Settings(old(State()))
    {
      var b := Load(OpenAdc.AddrSettings, 1);
      settings := b[0];
    }

    method SetSettings(settings: byte, validate: bool)
      modifies this, regs
      ensures State() == OpenAdc.SetSettings(old(State()), settings, validate)
    {
      Store(OpenAdc.AddrSettings, [settings], validate, None);
    }

    method GainMode() returns (mode: AdcFields.GainMode)
      modifies this, regs
      ensures (mode, State()) == OpenAdc.GainMode(old(State()))
    {
      var v := Settings();
      mode := GainModeOf(v);
    }

    method SetGainMode(mode: AdcFields.GainMode)
      modifies this, regs
      ensures State() == OpenAdc.SetGainMode(old(State()), mode)
    {
      var v := Settings();
      SetSettings(WithGainMode(v, mode), true);
    }

    method Gain() returns (gain: byte)
      modifies this, regs
      ensures (gain, State()) == OpenAdc.Gain(old(State()))
    {
      var b := Load(OpenAdc.AddrGain, 1);
      gain := b[0];
    }

    method SetGain(gain: byte)
      modifies this, regs
      ensures State() == OpenAdc.SetGain(old(State()), gain)
    {
      if err.Some? {
        return;
      }
      if gain > OpenAdc.MaxGain {
        err := Some(GainOutOfRange);
        return;
      }
      Store(OpenAdc.AddrGain, [gain], true, None);
    }

    method TriggerMode() returns (mode: AdcFields.TriggerMode)
      modifies this, regs
      ensures (mode, State()) == OpenAdc.TriggerMode(old(State()))
    {
      var v := Settings();
      mode := TriggerModeOf(v);
    }

    method SetTriggerMode(mode: AdcFields.TriggerMode)
      modifies this, regs
      ensures State() == OpenAdc.SetTriggerMode(old(State()), mode)
    {
      var v := Settings();
      SetSettings(WithTriggerMode(v, mode), true);
    }

    /** `numSamples`, which `TotalSamples` returns. */
    method NumSamples() returns (n: u32)
      modifies this, regs
      ensures (n, State()) == OpenAdc.NumSamples(old(State()))
    {
      var b := Load(OpenAdc.AddrSamples, 4);
      n := LeWord32(b);
    }

    method SetNumSamples(n: u32)
      modifies this, regs
      ensures State() == OpenAdc.SetNumSamples(old(State()), n)
    {
      Store(OpenAdc.AddrSamples, Le32(n), true, None);
    }

    method SetTotalSamples(n: u32)
      modifies this, regs
      ensures State() == OpenAdc.SetTotalSamples(old(State()), n)
    {
      ghost var s := State();
      if n > hwMaxSamples {
        err := Some(TooManySamples);
        assert State() == s.(err := Some(TooManySamples));
        return;
      }
      SetNumSamples(n);
      assert State() == OpenAdc.SetNumSamples(s, n);
    }

    /** `decimate`, which `DownsampleFactor` returns. */
    method Decimate() returns (factor: u16)
      modifies this, regs
      ensures (factor, State()) == OpenAdc.Decimate(old(State()))
    {
      if err.Some? {
        return 0;
      }
      var b := Fetch(OpenAdc.AddrDecimate, 2);
      if err.Some? {
        return 0;
      }
      factor := DecimateOf(LeWord16(b));
    }

    /** `setDecimate`, which `SetDownsampleFactor` calls. */
    method SetDecimate(factor: u16)
      modifies this, regs
      ensures State() == OpenAdc.SetDecimate(old(State()), factor)
    {
      Store(OpenAdc.AddrDecimate, Le16(DecimateRaw(factor)), true, None);
    }

    method AdvClock() returns (a: AdvClk)
      modifies this, regs
      ensures (a, State()) == OpenAdc.AdvClock(old(State()))
    {
      var b := Load(OpenAdc.AddrAdvClk, 4);
      a := AdvClkOf(b);
    }

    method SetAdvClock(a: AdvClk, validate: bool)
      modifies this, regs
      ensures State() == OpenAdc.SetAdvClock(old(State()), a, validate)
    {
      Store(OpenAdc.AddrAdvClk, AdvClkBytes(a), validate, Some(ClkReadMask));
    }

    method AdcClockSource() returns (src: AdcSrcTuple)
      modifies this, regs
      ensures (src, State()) == OpenAdc.AdcClockSource(old(State()))
    {
      if err.Some? {
        return AdcSrcTuple(0, 0, 0);
      }
      var a := AdvClock();
      src := ClockSourceOf(a.srcAndStatus);
    }

    method SetAdcClockSource(src: AdcSrcTuple)
      modifies this, regs
      ensures State() == OpenAdc.SetAdcClockSource(old(State()), src)
    {
      if err.Some? {
        return;
      }
      var a := AdvClock();
      var r := WithClockSource(a.srcAndStatus, src);
      if r.Err? {
        err := Some(r.error);
        return;
      }
      SetAdvClock(a.(srcAndStatus := r.value), true);
      ResetAdc();
    }

    method ResetAdc()
      modifies this, regs
      ensures State() == OpenAdc.ResetAdc(old(State()))
    {
      if err.Some? {
        return;
      }
      var a := AdvClock();
      var on := a.(srcAndStatus := a.srcAndStatus | 0x10);
      SetAdvClock(on, false);
      SetAdvClock(on.(srcAndStatus := on.srcAndStatus & !0x10), false);
    }

    method ReloadClkGen()
      modifies this, regs
      ensures State() == OpenAdc.ReloadClkGen(old(State()))
    {
      if err.Some? {
        return;
      }
      var a := AdvClock();
      var on := a.(flags := a.flags | ClkGenLoad);
      SetAdvClock(on, true);
      SetAdvClock(on.(flags := on.flags & !ClkGenLoad), true);
    }

    method ResetClkGen()
      modifies this, regs
      ensures State() == OpenAdc.ResetClkGen(old(State()))
    {
      if err.Some? {
        return;
      }
      var a := AdvClock();
      var on := a.(flags := a.flags | ClkGenReset);
      SetAdvClock(on, false);
      SetAdvClock(on.(flags := on.flags & !ClkGenReset), false);
      ReloadClkGen();
    }

    method SetClkGenMul(mul: u32)
      modifies this, regs
      ensures State() == OpenAdc.SetClkGenMul(old(State()), mul)
    {
      if err.Some? {
        return;
      }
      if mul < 2 {
        err := Some(ClkGenMulTooSmall);
        return;
      }
      var a := AdvClock();
      var on := a.(mul := ClkGenField(mul), flags := a.flags | ClkGenLoad);
      SetAdvClock(on, true);
      SetAdvClock(on.(flags := on.flags & !ClkGenLoad), true);
    }

    method SetClkGenDiv(div: u32)
      modifies this, regs
      ensures State() == OpenAdc.SetClkGenDiv(old(State()), div)
    {
      if err.Some? {
        return;
      }
      if div < 1 {
        err := Some(ClkGenDivTooSmall);
        return;
      }
      var a := AdvClock();
      var on := a.(div := ClkGenField(div), flags := a.flags | ClkGenLoad);
      SetAdvClock(on, true);
      SetAdvClock(on.(flags := on.flags & !ClkGenLoad), true);
    }

    /** `clkGenMul`: two tries to read a locked multiplier. */
    method ClkGenMul() returns (mul: u32)
      modifies this, regs
      ensures (mul, State()) == OpenAdc.ClkGenMul(old(State()))
    {
      if err.Some? {
        return 0;
      }
      var tries := 0;
      while tries < 2
        invariant 0 <= tries <= 2
        invariant OpenAdc.ClkGenMulFrom(State(), tries) == OpenAdc.ClkGenMul(old(State()))
      {
        var a := AdvClock();
        if a.mul == 0 {
          SetClkGenMul(2);
          tries := tries + 1;
          continue;
        }
        if a.flags & ClkGenDone > 0 {
          return ClkGenValue(a.mul);
        }
        ReloadClkGen();
        tries := tries + 1;
      }
      err := Some(ClkGenNotLocked);
      mul := 0;
    }

    /** `clkGenDiv`: two tries to read a locked divider. */
    method ClkGenDiv() returns (div: u32)
      modifies this, regs
      ensures (div, State()) == OpenAdc.ClkGenDiv(old(State()))
    {
      if err.Some? {
        return 1;
      }
      var tries := 0;
      while tries < 2
        invariant 0 <= tries <= 2
        invariant OpenAdc.ClkGenDivFrom(State(), tries) == OpenAdc.ClkGenDiv(old(State()))
      {
        var a := AdvClock();
        if a.flags & ClkGenDone > 0 {
          return ClkGenValue(a.div);
        }
        ReloadClkGen();
        tries := tries + 1;
      }
      err := Some(ClkGenNotLocked);
      div := 1;
    }

    method SysFreq() returns (freq: u32)
      modifies this, regs
      ensures (freq, State()) == OpenAdc.SysFreq(old(State()))
    {
      var b := Load(OpenAdc.AddrSysFreq, 4);
      freq := LeWord32(b);
    }

    method ClkGenInputSource() returns (src: ClkGenInputSrc)
      modifies this, regs
      ensures (src, State()) == OpenAdc.ClkGenInputSource(old(State()))
    {
      var a := AdvClock();
      src := ClkGenInputOf(a.srcAndStatus);
    }

    method SetExtClockFreq(freq: u32)
      modifies this
      ensures State() == OpenAdc.SetExtClockFreq(old(State()), freq)
    {
      if err.None? {
        extClockFreq := freq;
      }
    }

    method InputFreq() returns (freq: u32)
      modifies this, regs
      ensures (freq, State()) == OpenAdc.InputFreq(old(State()))
    {
      var src := ClkGenInputSource();
      if src == ClkGenInputExtClk {
        return extClockFreq;
      }
      freq := SysFreq();
    }

    /** `SetClkGenOutputFreq`: search the multiplier and divider, program them, reset CLKGEN and the ADC. */
    method SetClkGenOutputFreq(freq: u32)
      modifies this, regs
      ensures State() == OpenAdc.SetClkGenOutputFreq(old(State()), freq)
    {
      if err.Some? {
        return;
      }
      var inp := InputFreq();
      var mul, div := AdcClock.CalcClkGenMulDiv(freq as nat, inp as nat);
      SetClkGenMul(U32(mul));
      SetClkGenDiv(U32(div));
      ResetClkGen();
      ResetAdc();
    }

    method TargetClkOut() returns (clkout: byte)
      modifies this, regs
      ensures (clkout, State()) == OpenAdc.TargetClkOut(old(State()))
    {
      var b := Load(OpenAdc.AddrExtClk, 1);
      clkout := ClkOutOf(b[0]);
    }

    method SetTargetClkOut(clkout: byte)
      modifies this, regs
      ensures State() == OpenAdc.SetTargetClkOut(old(State()), clkout)
    {
      if err.Some? {
        return;
      }
      var b := Fetch(OpenAdc.AddrExtClk, 1);
      if err.Some? {
        return;
      }
      Put(OpenAdc.AddrExtClk, [WithClkOut(b[0], clkout)], true, None);
    }

    method Hs2() returns (mode: Hs2Mode)
      modifies this, regs
      ensures (mode, State()) == OpenAdc.Hs2(old(State()))
    {
      var f := TargetClkOut();
      var r := Hs2Of(f);
      if r.Ok? {
        return r.value;
      }
      err := Some(r.error);
      mode := Hs2ModeDisabled;
    }

    method SetHs2(mode: Hs2Mode)
      modifies this, regs
      ensures State() == OpenAdc.SetHs2(old(State()), mode)
    {
      if err.None? {
        SetTargetClkOut(Hs2Field(mode));
      }
    }

    method SpecialGpio(pin: SpecialPin) returns (mode: GpioMode)
      modifies this, regs
      ensures (mode, State()) == OpenAdc.SpecialGpio(old(State()), pin)
    {
      if err.Some? {
        return GpioLow;
      }
      var buf := Fetch(OpenAdc.AddrIoRoute, 8);
      if err.Some? {
        return GpioLow;
      }
      mode := SpecialGpioOf(buf[6], pin);
    }

    method SetSpecialGpio(pin: SpecialPin, mode: GpioMode)
      modifies this, regs
      ensures State() == OpenAdc.SetSpecialGpio(old(State()), pin, mode)
    {
      if err.Some? {
        return;
      }
      var buf := Fetch(OpenAdc.AddrIoRoute, 8);
      if err.Some? {
        return;
      }
      Put(OpenAdc.AddrIoRoute, buf[6 := WithSpecialGpio(buf[6], pin, mode)], true, None);
    }

    method SetArmOn()
      modifies this, regs
      ensures State() == OpenAdc.SetArmOn(old(State()))
    {
      var v := Settings();
      SetSettings(v | SettingsArm, true);
    }

    method SetArmOff()
      modifies this, regs
      ensures State() == OpenAdc.SetArmOff(old(State()))
    {
      var v := Settings();
      SetSettings(v & !SettingsArm, true);
    }

    method SetTriggerNow()
      modifies this, regs
      ensures State() == OpenAdc.SetTriggerNow(old(State()))
    {
      if err.Some? {
        return;
      }
      var v := Settings();
      SetSettings(v | SettingsTrigNow, true);
      SetSettings(v & !SettingsTrigNow, true);
    }

    /**
     * `WaitForTigger`: read the status until it shows the trigger, for at
     * most `polls` reads (the two-second timer); when the timer wins, force
     * the trigger. Then disarm. True when the trigger was forced.
     */
    method WaitForTrigger(polls: nat) returns (forced: bool)
      modifies this, regs
      ensures (forced, State()) == OpenAdc.WaitForTrigger(old(State()), polls)
    {
      ghost var goal := OpenAdc.PollTrigger(State(), polls);
      var left := polls;
      forced := true;
      while left > 0
        invariant OpenAdc.PollTrigger(State(), left) == goal
        decreases left
      {
        var status := Status();
        if OpenAdc.Triggered(status) {
          forced := false;
          break;
        }
        left := left - 1;
      }
      if forced {
        SetTriggerNow();
      }
      assert (forced, State()) == goal;
      SetArmOff();
    }

    /** `ProcessTraceData`, decoding with the loop of `TraceDecode.DecodeTrace`. */
    method ProcessTraceData(data: seq<byte>) returns (samples: seq<nat>)
      modifies this
      ensures (samples, State()) == OpenAdc.ProcessTraceData(old(State()), data)
    {
      var r := TraceDecode.DecodeTrace(data);
      if r.Err? {
        err := Some(r.error);
        return [];
      }
      if |data| >= 8 {
        err := None;
      }
      samples := r.value;
    }

    /** `TraceData`: read the pending count, then at most the wanted bytes, decode, cut to `numSamples`. */
    method TraceData() returns (samples: seq<nat>)
      modifies this, regs
      ensures (samples, State()) == OpenAdc.TraceData(old(State()))
    {
      var p := Fetch(OpenAdc.AddrBytesToRx, 4);
      if err.Some? {
        return [];
      }
      var pending := LeWord32(p);
      if pending == 0 {
        return [];
      }
      var n := NumSamples();
      var data := Fetch(OpenAdc.AddrAdcData, OpenAdc.ReadLength(n, pending));
      if err.Some? {
        return [];
      }
      samples := ProcessTraceData(data);
      if err.Some? {
        return [];
      }
      if |samples| > n as nat {
        samples := samples[..n as nat];
      }
    }

    /** `setResetOn`: lower `hwMaxSamples` to `numSamples() - 45` and write it back. */
    method SetResetOn()
      modifies this, regs
      ensures State() == OpenAdc.SetResetOn(old(State()))
    {
      var v := Settings();
      SetSettings(v | SettingsReset, false);
      var n := NumSamples();
      ghost var s3 := State();
      hwMaxSamples := n - 45;
      SetNumSamples(hwMaxSamples);
      assert State() == OpenAdc.LowerSampleLimit(s3, n);
    }

    method SetResetOff()
      modifies this, regs
      ensures State() == OpenAdc.SetResetOff(old(State()))
    {
      var v := Settings();
      SetSettings(v & !SettingsReset, true);
    }
  

    /** `Version`. */
    method Version() returns (ver: HwVersion)
      modifies this, regs
      ensures (ver, State()) == OpenAdc.Version(old(State()))
    {
      if err.Some? {
        return UnknownHwVersion;
      }
      var b := Fetch(OpenAdc.AddrVersions, 6);
      if err.Some? {
        return UnknownHwVersion;
      }
      ver := HwVersionOf(b);
    }

    method TriggerOffset() returns (offset: u32)
      modifies this, regs
      ensures (offset, State()) == OpenAdc.TriggerOffset(old(State()))
    {
      var b := Load(OpenAdc.AddrOffset, 4);
      offset := LeWord32(b);
    }

    method SetTriggerOffset(offset: u32)
      modifies this, regs
      ensures State() == OpenAdc.SetTriggerOffset(old(State()), offset)
    {
      Store(OpenAdc.AddrOffset, Le32(offset), true, None);
    }

    /** `PreTriggerSamples`: tripled on CW-Lite and CW1200. */
    method PreTriggerSamples() returns (samples: u32)
      modifies this, regs
      ensures (samples, State()) == OpenAdc.PreTriggerSamples(old(State()))
    {
      if err.Some? {
        return 0;
      }
      var b := Fetch(OpenAdc.AddrPresamples, 4);
      if err.Some? {
        return 0;
      }
      var ver := Version();
      samples := LeWord32(b);
      if CountsPresamplesInThrees(ver.hwType) {
        samples := samples * 3;
      }
    }

    method SetPreTriggerSamples(samples: u32)
      modifies this, regs
      ensures State() == OpenAdc.SetPreTriggerSamples(old(State()), samples)
    {
      if err.Some? {
        return;
      }
      var ver := Version();
      if err.Some? {
        return;
      }
      if !CountsPresamplesInThrees(ver.hwType) {
        err := Some(NotReliableOnHardware);
        return;
      }
      Put(OpenAdc.AddrPresamples, Le32(samples), true, None);
    }

    method ActiveCount() returns (count: u32)
      modifies this, regs
      ensures (count, State()) == OpenAdc.ActiveCount(old(State()))
    {
      var b := Load(OpenAdc.AddrTriggerDur, 4);
      count := LeWord32(b);
    }

    /** `ClkGenOutputFreq`: input frequency times multiplier over divider, in `uint32`. */
    method ClkGenOutputFreq() returns (freq: u32)
      modifies this, regs
      ensures (freq, State()) == OpenAdc.ClkGenOutputFreq(old(State()))
    {
      if err.Some? {
        return 0;
      }
      var inp := InputFreq();
      var mul := ClkGenMul();
      var div := ClkGenDiv();
      freq := OpenAdc.ScaleFreq(inp, mul, div);
    }

    method FreqCounterSource() returns (src: FreqCounterSrc)
      modifies this, regs
      ensures (src, State()) == OpenAdc.FreqCounterSource(old(State()))
    {
      var a := AdvClock();
      src := FreqCounterOf(a.flags);
    }

    method SetFreqCounterSource(src: FreqCounterSrc)
      modifies this, regs
      ensures State() == OpenAdc.SetFreqCounterSource(old(State()), src)
    {
      if err.Some? {
        return;
      }
      var a := AdvClock();
      SetAdvClock(a.(flags := WithFreqCounter(a.flags, src)), true);
      ResetClkGen();
      ResetAdc();
    }

    method SetClkGenInputSource(src: ClkGenInputSrc)
      modifies this, regs
      ensures State() == OpenAdc.SetClkGenInputSource(old(State()), src)
    {
      if err.Some? {
        return;
      }
      var a := AdvClock();
      SetAdvClock(a.(srcAndStatus := WithClkGenInput(a.srcAndStatus, src)), true);
    }

    method ClkGenDcmLocked() returns (locked: bool)
      modifies this, regs
      ensures (locked, State()) == OpenAdc.ClkGenDcmLocked(old(State()))
    {
      var a := AdvClock();
      locked := a.srcAndStatus & ClkGenDcmLockedBit > 0;
    }

    method DcmLocked() returns (locked: bool)
      modifies this, regs
      ensures (locked, State()) == OpenAdc.DcmLocked(old(State()))
    {
      var a := AdvClock();
      locked := a.srcAndStatus & AdcDcmLockedBit > 0;
    }

    method TriggerPinState() returns (high: bool)
      modifies this, regs
      ensures (high, State()) == OpenAdc.TriggerPinState(old(State()))
    {
      var b := Status();
      high := b & StatusExtMask > 0;
    }

    /** `MaxSamples`: the sample limit found at reset, with no register access. */
    method MaxSamples() returns (n: u32)
      ensures n == hwMaxSamples
    {
      n := hwMaxSamples;
    }

    method TriggerTargetIoPins() returns (pins: seq<int>)
      modifies this, regs
      ensures (pins, State()) == OpenAdc.TriggerTargetIoPins(old(State()))
    {
      if err.Some? {
        return [];
      }
      var b := Fetch(OpenAdc.AddrTrigSrc, 1);
      if err.Some? {
        return [];
      }
      pins := TriggerPinsOf(b[0]);
    }

    method SetTriggerTargetIoPin(pin: int)
      modifies this, regs
      ensures State() == OpenAdc.SetTriggerTargetIoPin(old(State()), pin)
    {
      if err.Some? {
        return;
      }
      var r := TriggerPinByte(pin);
      if r.Err? {
        err := Some(r.error);
        return;
      }
      Put(OpenAdc.AddrTrigSrc, [r.value], true, None);
    }

    method Tio(pin: nat) returns (mode: byte)
      requires pin < 8
      modifies this, regs
      ensures (mode, State()) == OpenAdc.Tio(old(State()), pin)
    {
      if err.Some? {
        return 0;
      }
      var buf := Fetch(OpenAdc.AddrIoRoute, 8);
      if err.Some? {
        return 0;
      }
      var r := TioModeOf(buf[pin]);
      if r.Err? {
        err := Some(r.error);
        return 0;
      }
      mode := r.value;
    }

    method SetTio(pin: nat, mode: byte)
      requires pin < 8
      modifies this, regs
      ensures State() == OpenAdc.SetTio(old(State()), pin, mode)
    {
      if err.Some? {
        return;
      }
      var buf := Fetch(OpenAdc.AddrIoRoute, 8);
      if err.Some? {
        return;
      }
      Put(OpenAdc.AddrIoRoute, buf[pin := mode], true, None);
    }

    method Gpio(pin: nat) returns (mode: GpioMode)
      requires pin < 8
      modifies this, regs
      ensures (mode, State()) == OpenAdc.Gpio(old(State()), pin)
    {
      if err.Some? {
        return GpioLow;
      }
      var buf := Fetch(OpenAdc.AddrIoRoute, 8);
      if err.Some? {
        return GpioLow;
      }
      mode := GpioOf(buf[pin]);
    }

    method SetGpio(pin: nat, mode: GpioMode)
      requires pin < 8
      modifies this, regs
      ensures State() == OpenAdc.SetGpio(old(State()), pin, mode)
    {
      if err.Some? {
        return;
      }
      var buf := Fetch(OpenAdc.AddrIoRoute, 8);
      if err.Some? {
        return;
      }
      if buf[pin] & IoRouteGpioE == 0 {
        err := Some(NotInGpioMode);
        return;
      }
      Put(OpenAdc.AddrIoRoute, buf[pin := WithGpio(buf[pin], mode)], true, None);
    }

    method TargetIo(pin: nat) returns (mode: TargetIoMode)
      requires pin < 8
      modifies this, regs
      ensures (mode, State()) == OpenAdc.TargetIo(old(State()), pin)
    {
      if err.Some? {
        return TargetIoModeSerialRx;
      }
      var t := Tio(pin);
      if t == IoRouteGpioE {
        var g := Gpio(pin);
        mode := match g
          case GpioLow => TargetIoModeGpioLow
          case GpioHigh => TargetIoModeGpioHigh
          case GpioDisabled => TargetIoModeGpioDisabled;
        return;
      }
      if t == IoRouteStx {
        return TargetIoModeSerialTx;
      }
      if t == IoRouteSrx {
        return TargetIoModeSerialRx;
      }
      err := Some(UnsupportedTioMode);
      mode := TargetIoModeSerialRx;
    }

    method SetTargetIo(pin: nat, mode: TargetIoMode)
      requires pin < 8
      modifies this, regs
      ensures State() == OpenAdc.SetTargetIo(old(State()), pin, mode)
    {
      if err.Some? {
        return;
      }
      match mode {
        case TargetIoModeSerialRx => SetTio(pin, IoRouteSrx);
        case TargetIoModeSerialTx => SetTio(pin, IoRouteStx);
        case TargetIoModeGpioLow =>
          SetTio(pin, IoRouteGpioE);
          SetGpio(pin, GpioLow);
        case TargetIoModeGpioHigh =>
          SetTio(pin, IoRouteGpioE);
          SetGpio(pin, GpioHigh);
        case _ => err := Some(UnsupportedTioMode);
      }
    }

    /** `TargetIo1` and `TargetIo2` are target IO pins 0 and 1. */
    method TargetIo1() returns (mode: TargetIoMode)
      modifies this, regs
      ensures (mode, State()) == OpenAdc.TargetIo(old(State()), 0)
    {
      mode := TargetIo(0);
    }

    method SetTargetIo1(mode: TargetIoMode)
      modifies this, regs
      ensures State() == OpenAdc.SetTargetIo(old(State()), 0, mode)
    {
      SetTargetIo(0, mode);
    }

    method TargetIo2() returns (mode: TargetIoMode)
      modifies this, regs
      ensures (mode, State()) == OpenAdc.TargetIo(old(State()), 1)
    {
      mode := TargetIo(1);
    }

    method SetTargetIo2(mode: TargetIoMode)
      modifies this, regs
      ensures State() == OpenAdc.SetTargetIo(old(State()), 1, mode)
    {
      SetTargetIo(1, mode);
    }

    /** `NRST`, `PDIC` and `PDID` and their setters: the special GPIO pins. */
    method Nrst() returns (mode: GpioMode)
      modifies this, regs
      ensures (mode, State()) == OpenAdc.SpecialGpio(old(State()), SpecialPin.Nrst)
    {
      mode := SpecialGpio(SpecialPin.Nrst);
    }

    method SetNrst(mode: GpioMode)
      modifies this, regs
      ensures State() == OpenAdc.SetSpecialGpio(old(State()), SpecialPin.Nrst, mode)
    {
      SetSpecialGpio(SpecialPin.Nrst, mode);
    }

    method Pdic() returns (mode: GpioMode)
      modifies this, regs
      ensures (mode, State()) == OpenAdc.SpecialGpio(old(State()), SpecialPin.Pdic)
    {
      mode := SpecialGpio(SpecialPin.Pdic);
    }

    method SetPdic(mode: GpioMode)
      modifies this, regs
      ensures State() == OpenAdc.SetSpecialGpio(old(State()), SpecialPin.Pdic, mode)
    {
      SetSpecialGpio(SpecialPin.Pdic, mode);
    }

    method Pdid() returns (mode: GpioMode)
      modifies this, regs
      ensures (mode, State()) == OpenAdc.SpecialGpio(old(State()), SpecialPin.Pdid)
    {
      mode := SpecialGpio(SpecialPin.Pdid);
    }

    method SetPdid(mode: GpioMode)
      modifies this, regs
      ensures State() == OpenAdc.SetSpecialGpio(old(State()), SpecialPin.Pdid, mode)
    {
      SetSpecialGpio(SpecialPin.Pdid, mode);
    }

    /** `refreshParams`: each setting read and written back. */
    method RefreshParams()
      modifies this, regs
      ensures State() == OpenAdc.RefreshParams(old(State()))
    {
      var gm := GainMode();
      SetGainMode(gm);
      var g := Gain();
      SetGain(g);
      var tm := TriggerMode();
      SetTriggerMode(tm);
      var off := TriggerOffset();
      SetTriggerOffset(off);
      var pre := PreTriggerSamples();
      SetPreTriggerSamples(pre);
      var n := NumSamples();
      SetTotalSamples(n);
      var f := Decimate();
      SetDecimate(f);
      var src := AdcClockSource();
      SetAdcClockSource(src);
      var fc := FreqCounterSource();
      SetFreqCounterSource(fc);
      var inp := ClkGenInputSource();
      SetClkGenInputSource(inp);
      SetExtClockFreq(extClockFreq);
      var out := ClkGenOutputFreq();
      SetClkGenOutputFreq(out);
    }

    /** `defaultSetup`: the CW-Lite defaults. */
    method DefaultSetup()
      modifies this, regs
      ensures State() == OpenAdc.DefaultSetup(old(State()))
    {
      var ver := Version();
      if ver.hwType != HwChipWhispererLite {
        return;
      }
      SetGain(45);
      SetTotalSamples(3000);
      SetTriggerOffset(0);
      SetTriggerMode(TriggerModeRisingEdge);
      SetClkGenOutputFreq(7_370_000);
      SetAdcClockSource(AdcSrcClkGenX4ViaDcm);
      SetTriggerTargetIoPin(3);
      SetTargetIo1(TargetIoModeSerialRx);
      SetTargetIo2(TargetIoModeSerialTx);
      SetHs2(Hs2ModeClkGen);
    }
  }

  /**
   * `NewAdc`: the controller after reset, `refreshParams` and
   * `defaultSetup`, or nil and the first error; the registers are changed
   * either way.
   */
  method NewAdc(regs: RegisterFile) returns (c: Adc?, e: Option<Error>)
    modifies regs
    ensures e == OpenAdc.Setup(old(regs.State())).err
    ensures regs.State() == OpenAdc.Setup(old(regs.State())).regs
    ensures c != null <==> e.None?
    ensures c != null ==> fresh(c) && c.regs == regs && c.State() == OpenAdc.Setup(old(regs.State()))
  {
    var a := new Adc(regs);
    a.SetResetOn();
    a.SetResetOff();
    a.RefreshParams();
    a.DefaultSetup();
    if a.err.Some? {
      return null, a.err;
    }
    return a, None;
  }
}
