/**
 * The healthy path of `refreshParams` (adc.go): on a register file in which
 * no register fails or changes on its own, every setting is read and written
 * back unchanged, except that the presample count triples, bit 4 of
 * `SrcAndStatus` and the CLKGEN reset and load flags end clear, and CLKGEN's
 * multiplier and divider become the pair the search picks for the output
 * frequency just read.
 */
module AdcRefresh {
  import opened Base
  import opened Bytes
  import opened AdcBus
  import opened AdcFields
  import opened OpenAdc
  import opened AdcLemmas
  import opened AdcSetup
  import AdcClock
  import ByteCast

  /** `SrcAndStatus` after a `resetAdc` pulse. */
  function AdcResetDone(srcAndStatus: byte): byte
  {
    srcAndStatus & !0x10
  }

  /** The CLKGEN flags after a `resetClkGen` pulse and its reload. */
  function ClkGenResetDone(flags: byte): byte
  {
    flags & !(ClkGenReset | ClkGenLoad)
  }

  lemma AdcResetBits(x: byte)
    ensures (x | 0x10) & !0x10 == AdcResetDone(x)
  {
  }

  lemma ClkGenResetBits(f: byte)
    ensures ((f | ClkGenReset) & !ClkGenReset) & !ClkGenLoad == ClkGenResetDone(f)
  {
  }

  lemma LoadClearedTwice(f: byte)
    ensures ClkGenResetDone((f & !ClkGenLoad) & !ClkGenLoad) == ClkGenResetDone(f)
  {
  }

  /** Both pulses are idempotent. */
  lemma ResetsIdempotent(x: byte, f: byte)
    ensures AdcResetDone(AdcResetDone(x)) == AdcResetDone(x)
    ensures ClkGenResetDone(ClkGenResetDone(f)) == ClkGenResetDone(f)
  {
  }

  /** `3n` in `uint32`, written as a sum so that composed proofs need no bit-vector product. */
  function Thrice(n: u32): u32
  {
    n + n + n
  }

  lemma ThriceTimesThree(n: u32)
    ensures Thrice(n) == n * 3
  {
  }

  /** Neither pulse touches a bit any getter reads. */
  lemma ResetsKeepReadBits(x: byte, f: byte)
    ensures ClkGenInputOf(AdcResetDone(x)) == ClkGenInputOf(x) && ClockSourceOf(AdcResetDone(x)) == ClockSourceOf(x)
    ensures ClkGenResetDone(f) & ClkGenDone == f & ClkGenDone && FreqCounterOf(ClkGenResetDone(f)) == FreqCounterOf(f)
  {
    ClockSourceLowBits(AdcResetDone(x), x);
  }

  // ---------------------------------------------------------------------
  // The advanced-clock register on a healthy state.

  /** A read returns the fields the register holds and changes only the log. */
  lemma AdvClockRead(s: AdcState)
    requires Healthy(s)
    ensures var (a, s1) := AdvClock(s);
      a == ClkOf(s) && Healthy(s1) && Within(s1, s, {}) && ClkOf(s1) == ClkOf(s) && InputOf(s1) == InputOf(s)
  {
    AdvClockSteady(s);
  }

  /** A store passes and the register then holds the fields stored. */
  lemma AdvClockWrite(s: AdcState, a: AdvClk, validate: bool)
    requires Healthy(s)
    ensures var r := SetAdvClock(s, a, validate);
      Healthy(r) && Within(r, s, {AddrAdvClk}) && ClkOf(r) == a
  {
    PutPasses(s, AddrAdvClk, AdvClkBytes(a), validate, Some(ClkReadMask));
  }

  /** Two stores in a row: the second stays. */
  lemma AdvClockPulse(s: AdcState, on: AdvClk, off: AdvClk, validate: bool)
    requires Healthy(s)
    ensures var r := SetAdvClock(SetAdvClock(s, on, validate), off, validate);
      Healthy(r) && Within(r, s, {AddrAdvClk}) && ClkOf(r) == off
  {
    AdvClockWrite(s, on, validate);
    AdvClockWrite(SetAdvClock(s, on, validate), off, validate);
    WithinTrans(SetAdvClock(SetAdvClock(s, on, validate), off, validate), SetAdvClock(s, on, validate), s, {AddrAdvClk}, {AddrAdvClk});
  }

  /** A read, then a pulse of two stores. */
  lemma ReadThenPulse(s: AdcState, on: AdvClk, off: AdvClk, validate: bool)
    requires Healthy(s)
    ensures var r := SetAdvClock(SetAdvClock(AdvClock(s).1, on, validate), off, validate);
      Healthy(r) && Within(r, s, {AddrAdvClk}) && ClkOf(r) == off
  {
    AdvClockRead(s);
    AdvClockPulse(AdvClock(s).1, on, off, validate);
    WithinTrans(SetAdvClock(SetAdvClock(AdvClock(s).1, on, validate), off, validate), AdvClock(s).1, s, {AddrAdvClk}, {});
  }

  /** `resetAdc` clears bit 4 of `SrcAndStatus` and changes nothing else. */
  lemma ResetAdcStep(s: AdcState)
    requires Healthy(s)
    ensures var a := ClkOf(s); var r := ResetAdc(s);
      Healthy(r) && Within(r, s, {AddrAdvClk}) && ClkOf(r) == a.(srcAndStatus := AdcResetDone(a.srcAndStatus))
  {
    AdvClockRead(s);
    var a := ClkOf(s);
    var on := a.(srcAndStatus := a.srcAndStatus | 0x10);
    ReadThenPulse(s, on, on.(srcAndStatus := on.srcAndStatus & !0x10), false);
    AdcResetBits(a.srcAndStatus);
  }

  /** `reloadClkGen` clears the load flag and changes nothing else. */
  lemma ReloadClkGenStep(s: AdcState)
    requires Healthy(s)
    ensures var a := ClkOf(s); var r := ReloadClkGen(s);
      Healthy(r) && Within(r, s, {AddrAdvClk}) && ClkOf(r) == a.(flags := a.flags & !ClkGenLoad)
  {
    AdvClockRead(s);
    var a := ClkOf(s);
    var on := a.(flags := a.flags | ClkGenLoad);
    ReadThenPulse(s, on, on.(flags := on.flags & !ClkGenLoad), true);
  }

  /** The reload that ends `resetClkGen`, on a state whose reset flag was just pulsed. */
  lemma ReloadAfterReset(s2: AdcState, s: AdcState, a: AdvClk)
    requires Healthy(s2) && Within(s2, s, {AddrAdvClk})
    requires ClkOf(s2) == a.(flags := (a.flags | ClkGenReset) & !ClkGenReset)
    ensures var r := ReloadClkGen(s2);
      Healthy(r) && Within(r, s, {AddrAdvClk}) && ClkOf(r) == a.(flags := ClkGenResetDone(a.flags))
  {
    ReloadClkGenStep(s2);
    WithinTrans(ReloadClkGen(s2), s2, s, {AddrAdvClk}, {AddrAdvClk});
    ClkGenResetBits(a.flags);
  }

  /** `resetClkGen` clears the reset and load flags and changes nothing else. */
  lemma ResetClkGenStep(s: AdcState)
    requires Healthy(s)
    ensures var a := ClkOf(s); var r := ResetClkGen(s);
      Healthy(r) && Within(r, s, {AddrAdvClk}) && ClkOf(r) == a.(flags := ClkGenResetDone(a.flags))
  {
    AdvClockRead(s);
    var a := ClkOf(s);
    var on := a.(flags := a.flags | ClkGenReset);
    var s2 := SetAdvClock(SetAdvClock(AdvClock(s).1, on, false), on.(flags := on.flags & !ClkGenReset), false);
    ReadThenPulse(s, on, on.(flags := on.flags & !ClkGenReset), false);
    ReloadAfterReset(s2, s, a);
  }

  /** `setClkGenMul` of at least 2 stores its field and leaves the load flag clear. */
  lemma SetClkGenMulStep(s: AdcState, mul: u32)
    requires Healthy(s) && 2 <= mul
    ensures var a := ClkOf(s); var r := SetClkGenMul(s, mul);
      Healthy(r) && Within(r, s, {AddrAdvClk}) && ClkOf(r) == a.(mul := ClkGenField(mul), flags := a.flags & !ClkGenLoad)
  {
    AdvClockRead(s);
    var a := ClkOf(s);
    var on := a.(mul := ClkGenField(mul), flags := a.flags | ClkGenLoad);
    ReadThenPulse(s, on, on.(flags := on.flags & !ClkGenLoad), true);
  }

  /** `setClkGenDiv` of at least 1 stores its field and leaves the load flag clear. */
  lemma SetClkGenDivStep(s: AdcState, div: u32)
    requires Healthy(s) && 1 <= div
    ensures var a := ClkOf(s); var r := SetClkGenDiv(s, div);
      Healthy(r) && Within(r, s, {AddrAdvClk}) && ClkOf(r) == a.(div := ClkGenField(div), flags := a.flags & !ClkGenLoad)
  {
    AdvClockRead(s);
    var a := ClkOf(s);
    var on := a.(div := ClkGenField(div), flags := a.flags | ClkGenLoad);
    ReadThenPulse(s, on, on.(flags := on.flags & !ClkGenLoad), true);
  }

  // ---------------------------------------------------------------------
  // `refreshParams` as eleven read-and-write-back pairs.

  function RefreshGainMode(s: AdcState): AdcState
  {
    var (gm, s1) := OpenAdc.GainMode(s);
    SetGainMode(s1, gm)
  }

  function RefreshGain(s: AdcState): AdcState
  {
    var (g, s1) := Gain(s);
    SetGain(s1, g)
  }

  function RefreshTriggerMode(s: AdcState): AdcState
  {
    var (tm, s1) := OpenAdc.TriggerMode(s);
    SetTriggerMode(s1, tm)
  }

  function RefreshOffset(s: AdcState): AdcState
  {
    var (off, s1) := TriggerOffset(s);
    SetTriggerOffset(s1, off)
  }

  function RefreshPresamples(s: AdcState): AdcState
  {
    var (pre, s1) := PreTriggerSamples(s);
    SetPreTriggerSamples(s1, pre)
  }

  function RefreshSamples(s: AdcState): AdcState
  {
    var (n, s1) := NumSamples(s);
    SetTotalSamples(s1, n)
  }

  function RefreshDecimate(s: AdcState): AdcState
  {
    var (f, s1) := Decimate(s);
    SetDecimate(s1, f)
  }

  function RefreshClockSource(s: AdcState): AdcState
  {
    var (src, s1) := AdcClockSource(s);
    SetAdcClockSource(s1, src)
  }

  function RefreshFreqCounter(s: AdcState): AdcState
  {
    var (fc, s1) := FreqCounterSource(s);
    SetFreqCounterSource(s1, fc)
  }

  /** The CLKGEN input source, then the external clock frequency, each written back. */
  function RefreshClkGenInput(s: AdcState): AdcState
  {
    var (inp, s1) := ClkGenInputSource(s);
    var s2 := SetClkGenInputSource(s1, inp);
    SetExtClockFreq(s2, s2.extClockFreq)
  }

  function RefreshOutputFreq(s: AdcState): AdcState
  {
    var (out, s1) := ClkGenOutputFreq(s);
    SetClkGenOutputFreq(s1, out)
  }

  function SettingsPass(s: AdcState): AdcState
  {
    RefreshTriggerMode(RefreshGain(RefreshGainMode(s)))
  }

  function CountsPass(s: AdcState): AdcState
  {
    RefreshDecimate(RefreshSamples(RefreshPresamples(RefreshOffset(s))))
  }

  function ClockPass(s: AdcState): AdcState
  {
    RefreshClkGenInput(RefreshFreqCounter(RefreshClockSource(s)))
  }

  /** `refreshParams` is the eleven pairs in the order of adc.go. */
  lemma RefreshParamsPasses(s: AdcState)
    ensures RefreshParams(s) == RefreshOutputFreq(ClockPass(CountsPass(SettingsPass(s))))
  {
  }

  // ---------------------------------------------------------------------
  // Each pair on a healthy state.

  /** A read of a healthy register returns what it holds and changes only the log. */
  lemma ReadStep(s: AdcState, addr: Address, len: nat)
    requires Healthy(s)
    ensures var (v, s1) := Fetch(s, addr, len); v == Fit(Value(s.regs, addr), len) && Healthy(s1) && Within(s1, s, {})
  {
    FetchSteady(s, addr, len);
  }

  /** The settings byte read is written back as it was. */
  lemma GainModeRefreshStep(s: AdcState)
    requires Healthy(s)
    ensures var r := RefreshGainMode(s);
      Healthy(r) && Within(r, s, {AddrSettings}) && Value(r.regs, AddrSettings) == [Fit(Value(s.regs, AddrSettings), 1)[0]]
  {
    SettingsSteady(s);
    var (v, s1) := Settings(s);
    SettingsSteady(s1);
    var s2 := Settings(s1).1;
    GainModeFixpoint(v);
    SetSettingsStores(s2, v, true);
  }

  lemma TriggerModeRefreshStep(s: AdcState)
    requires Healthy(s)
    ensures var r := RefreshTriggerMode(s);
      Healthy(r) && Within(r, s, {AddrSettings}) && Value(r.regs, AddrSettings) == [Fit(Value(s.regs, AddrSettings), 1)[0]]
  {
    SettingsSteady(s);
    var (v, s1) := Settings(s);
    SettingsSteady(s1);
    var s2 := Settings(s1).1;
    TriggerModeFixpoint(v);
    SetSettingsStores(s2, v, true);
  }

  /** A gain of at most 78 is written back; a larger one would be refused. */
  lemma GainRefreshStep(s: AdcState)
    requires Healthy(s) && Fit(Value(s.regs, AddrGain), 1)[0] <= MaxGain
    ensures var r := RefreshGain(s);
      Healthy(r) && Within(r, s, {AddrGain}) && Value(r.regs, AddrGain) == [Fit(Value(s.regs, AddrGain), 1)[0]]
  {
    ReadStep(s, AddrGain, 1);
    var (b, s1) := Fetch(s, AddrGain, 1);
    PutPasses(s1, AddrGain, [b[0]], true, None);
  }

  lemma OffsetRefreshStep(s: AdcState)
    requires Healthy(s)
    ensures var r := RefreshOffset(s);
      Healthy(r) && Within(r, s, {AddrOffset}) && Value(r.regs, AddrOffset) == Le32(LeWord32(Fit(Value(s.regs, AddrOffset), 4)))
  {
    ReadStep(s, AddrOffset, 4);
    var (b, s1) := Fetch(s, AddrOffset, 4);
    PutPasses(s1, AddrOffset, Le32(LeWord32(b)), true, None);
  }

  /** A sample count within the limit is written back. */
  lemma SamplesRefreshStep(s: AdcState)
    requires Healthy(s) && LeWord32(Fit(Value(s.regs, AddrSamples), 4)) <= s.hwMaxSamples
    ensures var r := RefreshSamples(s);
      Healthy(r) && Within(r, s, {AddrSamples}) && Value(r.regs, AddrSamples) == Le32(LeWord32(Fit(Value(s.regs, AddrSamples), 4)))
  {
    ReadStep(s, AddrSamples, 4);
    var (b, s1) := Fetch(s, AddrSamples, 4);
    PutPasses(s1, AddrSamples, Le32(LeWord32(b)), true, None);
  }

  /** The decimation register is written back as the factor it decodes to. */
  lemma DecimateRefreshStep(s: AdcState)
    requires Healthy(s)
    ensures var r := RefreshDecimate(s);
      Healthy(r) && Within(r, s, {AddrDecimate}) && Value(r.regs, AddrDecimate) == Le16(LeWord16(Fit(Value(s.regs, AddrDecimate), 2)))
  {
    ReadStep(s, AddrDecimate, 2);
    var (b, s1) := Fetch(s, AddrDecimate, 2);
    DecimateRawOnto(LeWord16(b));
    PutPasses(s1, AddrDecimate, Le16(LeWord16(b)), true, None);
  }

  /** The board type a healthy state's version register holds. */
  function BoardOf(s: AdcState): byte
  {
    HwVersionOf(Fit(Value(s.regs, AddrVersions), 6)).hwType
  }

  /** The board version read on a healthy state changes only the log. */
  lemma VersionStep(s: AdcState)
    requires Healthy(s)
    ensures var (ver, s1) := Version(s);
      ver.hwType == BoardOf(s) && BoardType(s) == BoardOf(s) && Healthy(s1) && Within(s1, s, {})
  {
    ReadStep(s, AddrVersions, 6);
  }

  /** On a board that counts presamples in threes the count read is three times the register. */
  lemma PresamplesRead(s: AdcState)
    requires Healthy(s) && CountsPresamplesInThrees(BoardOf(s))
    ensures var (n, s1) := PreTriggerSamples(s);
      && n == Thrice(LeWord32(Fit(Value(s.regs, AddrPresamples), 4)))
      && Healthy(s1) && Within(s1, s, {})
  {
    ReadStep(s, AddrPresamples, 4);
    var s1 := Fetch(s, AddrPresamples, 4).1;
    VersionStep(s1);
    ThriceTimesThree(LeWord32(Fit(Value(s.regs, AddrPresamples), 4)));
  }

  /** On such a board the count is written as given. */
  lemma PresamplesWrite(s: AdcState, n: u32)
    requires Healthy(s) && CountsPresamplesInThrees(BoardOf(s))
    ensures var r := SetPreTriggerSamples(s, n);
      Healthy(r) && Within(r, s, {AddrPresamples}) && Value(r.regs, AddrPresamples) == Le32(n)
  {
    VersionStep(s);
    PutPasses(Version(s).1, AddrPresamples, Le32(n), true, None);
  }

  /**
   * On a board that counts presamples in threes the count read is three
   * times the register, and that is what is written back.
   */
  lemma PresamplesRefreshStep(s: AdcState)
    requires Healthy(s) && CountsPresamplesInThrees(BoardOf(s))
    ensures var r := RefreshPresamples(s);
      && Healthy(r) && Within(r, s, {AddrPresamples})
      && Value(r.regs, AddrPresamples) == Le32(Thrice(LeWord32(Fit(Value(s.regs, AddrPresamples), 4))))
  {
    PresamplesRead(s);
    var (n, s1) := PreTriggerSamples(s);
    PresamplesWrite(s1, n);
    WithinTrans(SetPreTriggerSamples(s1, n), s1, s, {AddrPresamples}, {});
  }

  /** The clock source read is written back, then the ADC reset pulses bit 4. */
  lemma ClockSourceRefreshStep(s: AdcState)
    requires Healthy(s)
    ensures var a := ClkOf(s); var r := RefreshClockSource(s);
      Healthy(r) && Within(r, s, {AddrAdvClk}) && ClkOf(r) == a.(srcAndStatus := AdcResetDone(a.srcAndStatus))
  {
    var a := ClkOf(s);
    AdvClockRead(s);
    var s1 := AdvClock(s).1;
    AdvClockRead(s1);
    var s2 := AdvClock(s1).1;
    ClockSourceFixpoint(a.srcAndStatus);
    assert RefreshClockSource(s) == ResetAdc(SetAdvClock(s2, a, true));
    AdvClockWrite(s2, a, true);
    var s3 := SetAdvClock(s2, a, true);
    ResetAdcStep(s3);
    WithinTrans(s2, s1, s, {}, {});
    WithinTrans(s3, s2, s, {AddrAdvClk}, {});
    WithinTrans(ResetAdc(s3), s3, s, {AddrAdvClk}, {AddrAdvClk});
  }

  /** The frequency-counter flag read is written back, then CLKGEN and the ADC are reset. */
  lemma FreqCounterRefreshStep(s: AdcState)
    requires Healthy(s)
    ensures var a := ClkOf(s); var r := RefreshFreqCounter(s);
      && Healthy(r) && Within(r, s, {AddrAdvClk})
      && ClkOf(r) == a.(flags := ClkGenResetDone(a.flags), srcAndStatus := AdcResetDone(a.srcAndStatus))
  {
    var a := ClkOf(s);
    AdvClockRead(s);
    var s1 := AdvClock(s).1;
    AdvClockRead(s1);
    var s2 := AdvClock(s1).1;
    FreqCounterFixpoint(a.flags);
    assert RefreshFreqCounter(s) == ResetAdc(ResetClkGen(SetAdvClock(s2, a, true)));
    AdvClockWrite(s2, a, true);
    var s3 := SetAdvClock(s2, a, true);
    ResetClkGenStep(s3);
    var s4 := ResetClkGen(s3);
    ResetAdcStep(s4);
    WithinTrans(s2, s1, s, {}, {});
    WithinTrans(s3, s2, s, {AddrAdvClk}, {});
    WithinTrans(s4, s3, s, {AddrAdvClk}, {AddrAdvClk});
    WithinTrans(ResetAdc(s4), s4, s, {AddrAdvClk}, {AddrAdvClk});
  }

  /** The CLKGEN input read is written back and the external frequency kept: nothing changes but the log. */
  lemma ClkGenInputRefreshStep(s: AdcState)
    requires Healthy(s)
    ensures var r := RefreshClkGenInput(s);
      Healthy(r) && Within(r, s, {AddrAdvClk}) && ClkOf(r) == ClkOf(s)
  {
    var a := ClkOf(s);
    AdvClockRead(s);
    var s1 := AdvClock(s).1;
    AdvClockRead(s1);
    var s2 := AdvClock(s1).1;
    ClkGenInputFixpoint(a.srcAndStatus);
    AdvClockWrite(s2, a, true);
    var s3 := SetAdvClock(s2, a, true);
    assert RefreshClkGenInput(s) == s3;
    WithinTrans(s2, s1, s, {}, {});
    WithinTrans(s3, s2, s, {AddrAdvClk}, {});
  }

  /** The frequency a healthy state's CLKGEN reports: input times multiplier over divider. */
  function OutputOf(s: AdcState): u32
  {
    ScaleFreq(InputOf(s), ClkGenValue(ClkOf(s).mul), ClkGenValue(ClkOf(s).div))
  }

  /**
   * With a non-zero multiplier field and DONE set, the output frequency read
   * is the input times the multiplier over the divider the register holds.
   */
  lemma OutputFreqRead(s: AdcState)
    requires Healthy(s) && ClkOf(s).mul != 0 && ClkOf(s).flags & ClkGenDone != 0
    ensures ClkGenOutputFreq(s).0 == OutputOf(s)
    ensures Healthy(ClkGenOutputFreq(s).1) && Within(ClkGenOutputFreq(s).1, s, {})
  {
    ClockReads(s);
    InputFreqReads(s);
    var s1 := InputFreq(s).1;
    assert Within(s1, s, {});
    AdvClockRead(s1);
    var s2 := AdvClock(s1).1;
    AdvClockSteady(s1);
    ClkGenMulSteady(s1);
    AdvClockRead(s2);
    AdvClockSteady(s2);
    ClkGenDivSteady(s2);
    WithinTrans(s2, s1, s, {}, {});
    WithinTrans(AdvClock(s2).1, s2, s, {}, {});
  }

  /** `setClkGenMul`, `setClkGenDiv`, `resetClkGen` and `resetAdc` in a row, as `SetClkGenOutputFreq` ends. */
  lemma StoreSearched(s: AdcState, mul: u32, div: u32)
    requires Healthy(s) && 2 <= mul && 1 <= div
    ensures var a := ClkOf(s); var r := ResetAdc(ResetClkGen(SetClkGenDiv(SetClkGenMul(s, mul), div)));
      && Healthy(r) && Within(r, s, {AddrAdvClk})
      && ClkOf(r) == a.(mul := ClkGenField(mul), div := ClkGenField(div),
                        flags := ClkGenResetDone(a.flags), srcAndStatus := AdcResetDone(a.srcAndStatus))
  {
    var a := ClkOf(s);
    SetClkGenMulStep(s, mul);
    var s1 := SetClkGenMul(s, mul);
    SetClkGenDivStep(s1, div);
    var s2 := SetClkGenDiv(s1, div);
    ResetClkGenStep(s2);
    var s3 := ResetClkGen(s2);
    ResetAdcStep(s3);
    WithinTrans(s2, s1, s, {AddrAdvClk}, {AddrAdvClk});
    WithinTrans(s3, s2, s, {AddrAdvClk}, {AddrAdvClk});
    WithinTrans(ResetAdc(s3), s3, s, {AddrAdvClk}, {AddrAdvClk});
    LoadClearedTwice(a.flags);
  }

  /** The fields `SetClkGenOutputFreq` leaves: the searched pair for `freq`, both resets done. */
  function Retuned(a: AdvClk, freq: u32, inp: u32): AdvClk
  {
    var p := AdcClock.ClkGenMulDiv(freq as nat, inp as nat);
    a.(mul := ClkGenField(U32(p.0)), div := ClkGenField(U32(p.1)),
       flags := ClkGenResetDone(a.flags), srcAndStatus := AdcResetDone(a.srcAndStatus))
  }

  /**
   * `SetClkGenOutputFreq` on a healthy state whose input allows a divider:
   * the searched pair is stored, and the reset and load flags and bit 4 end
   * clear.
   */
  lemma SetClkGenOutputFreqStep(s: AdcState, freq: u32)
    requires Healthy(s) && AdcClock.MaxDiv(InputOf(s) as nat) > 1
    ensures var p := AdcClock.ClkGenMulDiv(freq as nat, InputOf(s) as nat); var r := SetClkGenOutputFreq(s, freq);
      && 2 <= p.0 <= 256 && 1 <= p.1 <= 256
      && Healthy(r) && Within(r, s, {AddrAdvClk}) && ClkOf(r) == Retuned(ClkOf(s), freq, InputOf(s))
  {
    ClockReads(s);
    InputFreqReads(s);
    var s1 := InputFreq(s).1;
    assert Within(s1, s, {}) && ClkOf(s1) == ClkOf(s);
    var p := AdcClock.ClkGenMulDiv(freq as nat, InputOf(s) as nat);
    SearchRange(freq as nat, InputOf(s) as nat);
    ByteCast.U32Small(p.0);
    ByteCast.U32Small(p.1);
    StoreSearched(s1, U32(p.0), U32(p.1));
    WithinTrans(SetClkGenOutputFreq(s, freq), s1, s, {AddrAdvClk}, {});
  }

  /** `SetClkGenOutputFreq` after a read that changed only the log. */
  lemma RetunedAfterRead(s1: AdcState, s: AdcState, freq: u32)
    requires Healthy(s1) && Within(s1, s, {}) && AdcClock.MaxDiv(InputOf(s) as nat) > 1
    ensures var r := SetClkGenOutputFreq(s1, freq);
      Healthy(r) && Within(r, s, {AddrAdvClk}) && ClkOf(r) == Retuned(ClkOf(s), freq, InputOf(s))
  {
    assert ClkOf(s1) == ClkOf(s) && InputOf(s1) == InputOf(s);
    SetClkGenOutputFreqStep(s1, freq);
    WithinTrans(SetClkGenOutputFreq(s1, freq), s1, s, {AddrAdvClk}, {});
  }

  /** The output frequency read is searched again and its pair stored. */
  lemma OutputFreqRefreshStep(s: AdcState)
    requires Healthy(s) && ClkOf(s).mul != 0 && ClkOf(s).flags & ClkGenDone != 0
    requires AdcClock.MaxDiv(InputOf(s) as nat) > 1
    ensures var r := RefreshOutputFreq(s);
      Healthy(r) && Within(r, s, {AddrAdvClk}) && ClkOf(r) == Retuned(ClkOf(s), OutputOf(s), InputOf(s))
  {
    OutputFreqRead(s);
    RetunedAfterRead(ClkGenOutputFreq(s).1, s, OutputOf(s));
  }

  // ---------------------------------------------------------------------
  // The passes, composed.

  /** What the settings pass leaves in `r`, starting from `s`. */
  ghost predicate SettingsRefreshed(r: AdcState, s: AdcState)
  {
    && Within(r, s, {AddrSettings, AddrGain})
    && Value(r.regs, AddrSettings) == [Fit(Value(s.regs, AddrSettings), 1)[0]]
    && Value(r.regs, AddrGain) == [Fit(Value(s.regs, AddrGain), 1)[0]]
  }

  /** What the counts pass leaves: the offset, samples and decimation as read, the presamples tripled. */
  ghost predicate CountsRefreshed(r: AdcState, s: AdcState)
  {
    && Within(r, s, {AddrOffset, AddrPresamples, AddrSamples, AddrDecimate})
    && Value(r.regs, AddrOffset) == Le32(LeWord32(Fit(Value(s.regs, AddrOffset), 4)))
    && Value(r.regs, AddrPresamples) == Le32(Thrice(LeWord32(Fit(Value(s.regs, AddrPresamples), 4))))
    && Value(r.regs, AddrSamples) == Le32(LeWord32(Fit(Value(s.regs, AddrSamples), 4)))
    && Value(r.regs, AddrDecimate) == Le16(LeWord16(Fit(Value(s.regs, AddrDecimate), 2)))
  }

  /** The two passes together. */
  ghost predicate FieldsRefreshed(r: AdcState, s: AdcState)
  {
    && Within(r, s, {AddrSettings, AddrGain, AddrOffset, AddrPresamples, AddrSamples, AddrDecimate})
    && Value(r.regs, AddrSettings) == [Fit(Value(s.regs, AddrSettings), 1)[0]]
    && Value(r.regs, AddrGain) == [Fit(Value(s.regs, AddrGain), 1)[0]]
    && Value(r.regs, AddrOffset) == Le32(LeWord32(Fit(Value(s.regs, AddrOffset), 4)))
    && Value(r.regs, AddrPresamples) == Le32(Thrice(LeWord32(Fit(Value(s.regs, AddrPresamples), 4))))
    && Value(r.regs, AddrSamples) == Le32(LeWord32(Fit(Value(s.regs, AddrSamples), 4)))
    && Value(r.regs, AddrDecimate) == Le16(LeWord16(Fit(Value(s.regs, AddrDecimate), 2)))
  }

  /** What the clock pass leaves: the fields as read, both resets done. */
  ghost predicate ClockRefreshed(r: AdcState, s: AdcState)
  {
    && Within(r, s, {AddrAdvClk})
    && ClkOf(r) == ClkOf(s).(flags := ClkGenResetDone(ClkOf(s).flags), srcAndStatus := AdcResetDone(ClkOf(s).srcAndStatus))
  }

  /** What the output-frequency pair leaves: CLKGEN retuned to the frequency it reported. */
  ghost predicate ClockRetuned(r: AdcState, s: AdcState)
  {
    Within(r, s, {AddrAdvClk}) && ClkOf(r) == Retuned(ClkOf(s), OutputOf(s), InputOf(s))
  }

  /** Everything `refreshParams` leaves, from `s`. */
  ghost predicate Refreshed(r: AdcState, s: AdcState)
  {
    && Within(r, s, {AddrSettings, AddrGain, AddrOffset, AddrPresamples, AddrSamples, AddrDecimate, AddrAdvClk})
    && Value(r.regs, AddrSettings) == [Fit(Value(s.regs, AddrSettings), 1)[0]]
    && Value(r.regs, AddrGain) == [Fit(Value(s.regs, AddrGain), 1)[0]]
    && Value(r.regs, AddrOffset) == Le32(LeWord32(Fit(Value(s.regs, AddrOffset), 4)))
    && Value(r.regs, AddrPresamples) == Le32(Thrice(LeWord32(Fit(Value(s.regs, AddrPresamples), 4))))
    && Value(r.regs, AddrSamples) == Le32(LeWord32(Fit(Value(s.regs, AddrSamples), 4)))
    && Value(r.regs, AddrDecimate) == Le16(LeWord16(Fit(Value(s.regs, AddrDecimate), 2)))
    && ClkOf(r) == Retuned(ClkOf(s), OutputOf(s), InputOf(s))
  }

  /**
   * The healthy states `refreshParams` runs through without an error: a gain
   * `SetGain` accepts, a sample count within the limit, a board that counts
   * presamples in threes, a locked CLKGEN with a non-zero multiplier field,
   * and an input frequency that allows a divider.
   */
  ghost predicate Refreshable(s: AdcState)
  {
    && Healthy(s)
    && Fit(Value(s.regs, AddrGain), 1)[0] <= MaxGain
    && LeWord32(Fit(Value(s.regs, AddrSamples), 4)) <= s.hwMaxSamples
    && CountsPresamplesInThrees(BoardOf(s))
    && ClkOf(s).mul != 0 && ClkOf(s).flags & ClkGenDone != 0
    && AdcClock.MaxDiv(InputOf(s) as nat) > 1
  }

  lemma SettingsPassStep(s: AdcState)
    requires Healthy(s) && Fit(Value(s.regs, AddrGain), 1)[0] <= MaxGain
    ensures Healthy(SettingsPass(s)) && SettingsRefreshed(SettingsPass(s), s)
  {
    GainModeRefreshStep(s);
    var t1 := RefreshGainMode(s);
    GainRefreshStep(t1);
    var t2 := RefreshGain(t1);
    TriggerModeRefreshStep(t2);
    var r := RefreshTriggerMode(t2);
    WithinTrans(t2, t1, s, {AddrGain}, {AddrSettings});
    WithinTrans(r, t2, s, {AddrSettings}, {AddrGain, AddrSettings});
    assert Value(t2.regs, AddrSettings) == Value(t1.regs, AddrSettings);
    assert Value(r.regs, AddrGain) == Value(t2.regs, AddrGain);
  }

  /** What the offset and presample pairs leave. */
  ghost predicate OffsetPresamplesRefreshed(r: AdcState, s: AdcState)
  {
    && Within(r, s, {AddrOffset, AddrPresamples})
    && Value(r.regs, AddrOffset) == Le32(LeWord32(Fit(Value(s.regs, AddrOffset), 4)))
    && Value(r.regs, AddrPresamples) == Le32(Thrice(LeWord32(Fit(Value(s.regs, AddrPresamples), 4))))
  }

  /** What the sample-count and decimation pairs leave. */
  ghost predicate SamplesDecimateRefreshed(r: AdcState, s: AdcState)
  {
    && Within(r, s, {AddrSamples, AddrDecimate})
    && Value(r.regs, AddrSamples) == Le32(LeWord32(Fit(Value(s.regs, AddrSamples), 4)))
    && Value(r.regs, AddrDecimate) == Le16(LeWord16(Fit(Value(s.regs, AddrDecimate), 2)))
  }

  /** The trigger offset and the presample count. */
  lemma OffsetPresamplesStep(s: AdcState)
    requires Healthy(s) && CountsPresamplesInThrees(BoardOf(s))
    ensures var r := RefreshPresamples(RefreshOffset(s)); Healthy(r) && OffsetPresamplesRefreshed(r, s)
  {
    OffsetRefreshStep(s);
    var t1 := RefreshOffset(s);
    PresamplesRefreshStep(t1);
    var r := RefreshPresamples(t1);
    WithinTrans(r, t1, s, {AddrPresamples}, {AddrOffset});
    assert Value(r.regs, AddrOffset) == Value(t1.regs, AddrOffset);
    assert Value(t1.regs, AddrPresamples) == Value(s.regs, AddrPresamples);
  }

  /** The sample count and the decimation factor. */
  lemma SamplesDecimateStep(s: AdcState)
    requires Healthy(s) && LeWord32(Fit(Value(s.regs, AddrSamples), 4)) <= s.hwMaxSamples
    ensures var r := RefreshDecimate(RefreshSamples(s)); Healthy(r) && SamplesDecimateRefreshed(r, s)
  {
    SamplesRefreshStep(s);
    var t1 := RefreshSamples(s);
    DecimateRefreshStep(t1);
    var r := RefreshDecimate(t1);
    WithinTrans(r, t1, s, {AddrDecimate}, {AddrSamples});
    assert Value(r.regs, AddrSamples) == Value(t1.regs, AddrSamples);
    assert Value(t1.regs, AddrDecimate) == Value(s.regs, AddrDecimate);
  }

  lemma OffsetPresamplesKeep(t: AdcState, s: AdcState)
    requires OffsetPresamplesRefreshed(t, s)
    ensures Value(t.regs, AddrSamples) == Value(s.regs, AddrSamples) && t.hwMaxSamples == s.hwMaxSamples
  {
  }

  lemma ComposeCounts(s: AdcState, t: AdcState, r: AdcState)
    requires OffsetPresamplesRefreshed(t, s) && SamplesDecimateRefreshed(r, t)
    ensures CountsRefreshed(r, s)
  {
    assert Value(r.regs, AddrOffset) == Value(t.regs, AddrOffset);
    assert Value(r.regs, AddrPresamples) == Value(t.regs, AddrPresamples);
    assert Value(t.regs, AddrSamples) == Value(s.regs, AddrSamples);
    assert Value(t.regs, AddrDecimate) == Value(s.regs, AddrDecimate);
  }

  lemma CountsPassStep(s: AdcState)
    requires Healthy(s) && CountsPresamplesInThrees(BoardOf(s))
    requires LeWord32(Fit(Value(s.regs, AddrSamples), 4)) <= s.hwMaxSamples
    ensures Healthy(CountsPass(s)) && CountsRefreshed(CountsPass(s), s)
  {
    OffsetPresamplesStep(s);
    var t := RefreshPresamples(RefreshOffset(s));
    OffsetPresamplesKeep(t, s);
    SamplesDecimateStep(t);
    ComposeCounts(s, t, CountsPass(s));
  }

  lemma ClockPassStep(s: AdcState)
    requires Healthy(s)
    ensures Healthy(ClockPass(s)) && ClockRefreshed(ClockPass(s), s)
  {
    var a := ClkOf(s);
    ClockSourceRefreshStep(s);
    var t1 := RefreshClockSource(s);
    FreqCounterRefreshStep(t1);
    var t2 := RefreshFreqCounter(t1);
    ClkGenInputRefreshStep(t2);
    WithinTrans(t2, t1, s, {AddrAdvClk}, {AddrAdvClk});
    WithinTrans(ClockPass(s), t2, s, {AddrAdvClk}, {AddrAdvClk});
    ResetsIdempotent(a.srcAndStatus, a.flags);
  }

  /** The settings pass leaves the sample count and the board version alone. */
  lemma SettingsKeep(t: AdcState, s: AdcState)
    requires SettingsRefreshed(t, s)
    ensures Value(t.regs, AddrSamples) == Value(s.regs, AddrSamples) && BoardOf(t) == BoardOf(s)
  {
    assert Value(t.regs, AddrVersions) == Value(s.regs, AddrVersions);
  }

  lemma ComposeFields(s: AdcState, t: AdcState, r: AdcState)
    requires SettingsRefreshed(t, s) && CountsRefreshed(r, t)
    ensures FieldsRefreshed(r, s)
  {
    assert Value(r.regs, AddrSettings) == Value(t.regs, AddrSettings);
    assert Value(r.regs, AddrGain) == Value(t.regs, AddrGain);
    assert Value(t.regs, AddrOffset) == Value(s.regs, AddrOffset);
    assert Value(t.regs, AddrPresamples) == Value(s.regs, AddrPresamples);
    assert Value(t.regs, AddrSamples) == Value(s.regs, AddrSamples);
    assert Value(t.regs, AddrDecimate) == Value(s.regs, AddrDecimate);
  }

  /** The settings and counts passes. */
  lemma FieldPassesStep(s: AdcState)
    requires Healthy(s) && Fit(Value(s.regs, AddrGain), 1)[0] <= MaxGain
    requires LeWord32(Fit(Value(s.regs, AddrSamples), 4)) <= s.hwMaxSamples && CountsPresamplesInThrees(BoardOf(s))
    ensures Healthy(CountsPass(SettingsPass(s))) && FieldsRefreshed(CountsPass(SettingsPass(s)), s)
  {
    SettingsPassStep(s);
    var t := SettingsPass(s);
    SettingsKeep(t, s);
    CountsPassStep(t);
    ComposeFields(s, t, CountsPass(t));
  }

  /** The field passes leave the clock registers alone. */
  lemma FieldsKeepClock(t: AdcState, s: AdcState)
    requires FieldsRefreshed(t, s)
    ensures ClkOf(t) == ClkOf(s) && InputOf(t) == InputOf(s) && OutputOf(t) == OutputOf(s)
  {
    assert Value(t.regs, AddrAdvClk) == Value(s.regs, AddrAdvClk);
    assert Value(t.regs, AddrSysFreq) == Value(s.regs, AddrSysFreq);
  }

  /** The clock pass keeps every field the output frequency is computed from. */
  lemma ClockKeepsOutput(t: AdcState, s: AdcState)
    requires ClockRefreshed(t, s)
    ensures InputOf(t) == InputOf(s) && OutputOf(t) == OutputOf(s)
    ensures ClkOf(t).mul == ClkOf(s).mul && ClkOf(t).flags & ClkGenDone == ClkOf(s).flags & ClkGenDone
  {
    var a := ClkOf(s);
    ResetsKeepReadBits(a.srcAndStatus, a.flags);
    assert Value(t.regs, AddrSysFreq) == Value(s.regs, AddrSysFreq);
  }

  lemma ComposeClock(s: AdcState, t: AdcState, r: AdcState)
    requires ClockRefreshed(t, s) && ClockRetuned(r, t)
    ensures ClockRetuned(r, s)
  {
    var a := ClkOf(s);
    ClockKeepsOutput(t, s);
    ResetsIdempotent(a.srcAndStatus, a.flags);
  }

  /** The clock pass and the output-frequency pair. */
  lemma ClockPassesStep(s: AdcState)
    requires Healthy(s) && ClkOf(s).mul != 0 && ClkOf(s).flags & ClkGenDone != 0
    requires AdcClock.MaxDiv(InputOf(s) as nat) > 1
    ensures Healthy(RefreshOutputFreq(ClockPass(s))) && ClockRetuned(RefreshOutputFreq(ClockPass(s)), s)
  {
    ClockPassStep(s);
    var t := ClockPass(s);
    ClockKeepsOutput(t, s);
    OutputFreqRefreshStep(t);
    ComposeClock(s, t, RefreshOutputFreq(t));
  }

  lemma ComposeRefreshed(s: AdcState, t: AdcState, r: AdcState)
    requires FieldsRefreshed(t, s) && ClockRetuned(r, t)
    ensures Refreshed(r, s)
  {
    FieldsKeepClock(t, s);
    assert Value(r.regs, AddrSettings) == Value(t.regs, AddrSettings);
    assert Value(r.regs, AddrGain) == Value(t.regs, AddrGain);
    assert Value(r.regs, AddrOffset) == Value(t.regs, AddrOffset);
    assert Value(r.regs, AddrPresamples) == Value(t.regs, AddrPresamples);
    assert Value(r.regs, AddrSamples) == Value(t.regs, AddrSamples);
    assert Value(r.regs, AddrDecimate) == Value(t.regs, AddrDecimate);
  }

  /** `refreshParams` on a refreshable state runs every pair without an error. */
  lemma RefreshParamsStores(s: AdcState)
    requires Refreshable(s)
    ensures Healthy(RefreshParams(s)) && Refreshed(RefreshParams(s), s)
  {
    RefreshParamsPasses(s);
    FieldPassesStep(s);
    var t := CountsPass(SettingsPass(s));
    FieldsKeepClock(t, s);
    ClockPassesStep(t);
    ComposeRefreshed(s, t, RefreshOutputFreq(ClockPass(t)));
  }

  // ---------------------------------------------------------------------
  // What the getters report after `refreshParams`.

  /** A register written with its own encoding reads back as it read before. */
  lemma RewrittenFieldsRead(r: AdcState, s: AdcState)
    requires Healthy(r) && Healthy(s) && Refreshed(r, s)
    ensures OpenAdc.GainMode(r).0 == OpenAdc.GainMode(s).0 && OpenAdc.TriggerMode(r).0 == OpenAdc.TriggerMode(s).0
    ensures Gain(r).0 == Gain(s).0 && TriggerOffset(r).0 == TriggerOffset(s).0 && NumSamples(r).0 == NumSamples(s).0
  {
    WordsRead(r);
    WordsRead(s);
    Fit4(Le32(TriggerOffset(s).0));
    Fit4(Le32(NumSamples(s).0));
  }

  lemma RewrittenDecimateRead(r: AdcState, s: AdcState)
    requires Healthy(r) && Healthy(s) && Refreshed(r, s)
    ensures Decimate(r).0 == Decimate(s).0
  {
    var b := Fit(Value(s.regs, AddrDecimate), 2);
    ReadStep(r, AddrDecimate, 2);
    ReadStep(s, AddrDecimate, 2);
    Le16RoundTrip(b);
    assert Fit(b, 2) == b;
  }

  /** The presample register, written back as the tripled count it read, reads three times larger again. */
  lemma TripledPresamplesRead(r: AdcState, s: AdcState)
    requires Healthy(r) && Healthy(s) && Refreshed(r, s) && CountsPresamplesInThrees(BoardOf(s))
    ensures PreTriggerSamples(r).0 == PreTriggerSamples(s).0 * 3
  {
    var w := LeWord32(Fit(Value(s.regs, AddrPresamples), 4));
    assert Value(r.regs, AddrVersions) == Value(s.regs, AddrVersions);
    PresamplesRead(r);
    PresamplesRead(s);
    Fit4(Le32(Thrice(w)));
    ThriceTimesThree(Thrice(w));
  }

  /** The advanced-clock fields of `s` with CLKGEN set to `mul` and `div` and both resets done. */
  function Tuned(a: AdvClk, mul: u32, div: u32): AdvClk
  {
    a.(mul := ClkGenField(mul), div := ClkGenField(div),
       flags := ClkGenResetDone(a.flags), srcAndStatus := AdcResetDone(a.srcAndStatus))
  }

  /** `Retuned` is `Tuned` to the searched pair, which is in range when a divider is allowed. */
  lemma RetunedIsTuned(a: AdvClk, freq: u32, inp: u32)
    requires AdcClock.MaxDiv(inp as nat) > 1
    ensures var p := AdcClock.ClkGenMulDiv(freq as nat, inp as nat);
      && 2 <= U32(p.0) <= 256 && 1 <= U32(p.1) <= 256
      && Retuned(a, freq, inp) == Tuned(a, U32(p.0), U32(p.1))
  {
    var p := AdcClock.ClkGenMulDiv(freq as nat, inp as nat);
    SearchRange(freq as nat, inp as nat);
    ByteCast.U32Small(p.0);
    ByteCast.U32Small(p.1);
  }

  /**
   * A state whose CLKGEN is tuned to `mul` and `div` from `s`: the clock
   * source, the frequency counter and the CLKGEN input read as in `s`, the
   * multiplier and divider as `mul` and `div`.
   */
  lemma TunedClockRead(r: AdcState, s: AdcState, changed: set<Address>, mul: u32, div: u32)
    requires Healthy(r) && Healthy(s) && Within(r, s, changed) && ClkOf(r) == Tuned(ClkOf(s), mul, div)
    requires 2 <= mul <= 256 && 1 <= div <= 256 && ClkOf(s).flags & ClkGenDone != 0
    ensures AdcClockSource(r).0 == AdcClockSource(s).0 && FreqCounterSource(r).0 == FreqCounterSource(s).0
    ensures ClkGenInputSource(r).0 == ClkGenInputSource(s).0
    ensures ClkGenMul(r).0 == mul && ClkGenDiv(r).0 == div
  {
    var a := ClkOf(s);
    ClkGenRoundTrip(mul);
    ClkGenRoundTrip(div);
    ResetsKeepReadBits(a.srcAndStatus, a.flags);
    ClockReads(r);
    ClockReads(s);
    ClkGenMulSteady(r);
    ClkGenDivSteady(r);
  }

  /** Such a state's CLKGEN output reads as the input of `s` times `mul` over `div`. */
  lemma TunedFreqRead(r: AdcState, s: AdcState, changed: set<Address>, mul: u32, div: u32)
    requires Healthy(r) && Healthy(s) && Within(r, s, changed) && ClkOf(r) == Tuned(ClkOf(s), mul, div)
    requires Value(r.regs, AddrSysFreq) == Value(s.regs, AddrSysFreq)
    requires 2 <= mul <= 256 && 1 <= div <= 256 && ClkOf(s).flags & ClkGenDone != 0
    ensures ClkGenOutputFreq(r).0 == ScaleFreq(InputOf(s), mul, div)
  {
    var a := ClkOf(s);
    ClkGenRoundTrip(mul);
    ClkGenRoundTrip(div);
    ResetsKeepReadBits(a.srcAndStatus, a.flags);
    OutputFreqRead(r);
  }

  /**
   * The states on which `refreshParams` writes every setting back, in the
   * getters' own terms: no error and no register that fails or changes on
   * its own, a gain `SetGain` accepts, a sample count `SetTotalSamples`
   * accepts, a board that counts presamples in threes, a locked CLKGEN with
   * a non-zero multiplier field (so `clkGenMul` reads it on the first try),
   * and an input frequency that allows a divider.
   */
  predicate RefreshReady(s: AdcState)
  {
    && Healthy(s)
    && Gain(s).0 <= MaxGain && NumSamples(s).0 <= s.hwMaxSamples
    && CountsPresamplesInThrees(BoardType(s))
    && AdvClock(s).0.mul != 0 && AdvClock(s).0.flags & ClkGenDone != 0
    && AdcClock.MaxDiv(InputFreq(s).0 as nat) > 1
  }

  lemma ReadyIsRefreshable(s: AdcState)
    requires RefreshReady(s)
    ensures Refreshable(s) && ClkGenOutputFreq(s).0 == OutputOf(s) && InputFreq(s).0 == InputOf(s)
  {
    WordsRead(s);
    ClockReads(s);
    VersionStep(s);
    OutputFreqRead(s);
  }

  /**
   * After `refreshParams` on such a state the gain mode, the gain, the
   * trigger mode, the trigger offset, the sample count and the decimation
   * factor read as they did before, and no error is set.
   */
  lemma RefreshParamsKeeps(s: AdcState)
    requires RefreshReady(s)
    ensures var r := RefreshParams(s);
      && r.err.None?
      && OpenAdc.GainMode(r).0 == OpenAdc.GainMode(s).0 && Gain(r).0 == Gain(s).0
      && OpenAdc.TriggerMode(r).0 == OpenAdc.TriggerMode(s).0 && TriggerOffset(r).0 == TriggerOffset(s).0
      && NumSamples(r).0 == NumSamples(s).0 && Decimate(r).0 == Decimate(s).0
  {
    ReadyIsRefreshable(s);
    RefreshParamsStores(s);
    RewrittenFieldsRead(RefreshParams(s), s);
    RewrittenDecimateRead(RefreshParams(s), s);
  }

  /**
   * The pre-trigger count after `refreshParams` is three times the count
   * before, in `uint32`: the count read is written back as given and read
   * tripled again.
   */
  lemma RefreshParamsTriplesPresamples(s: AdcState)
    requires RefreshReady(s)
    ensures PreTriggerSamples(RefreshParams(s)).0 == PreTriggerSamples(s).0 * 3
  {
    ReadyIsRefreshable(s);
    RefreshParamsStores(s);
    VersionStep(s);
    TripledPresamplesRead(RefreshParams(s), s);
  }

  /** A refreshed state's CLKGEN is tuned to the searched pair for the output frequency of `s`. */
  lemma RefreshedTuned(r: AdcState, s: AdcState)
    requires Refreshed(r, s) && AdcClock.MaxDiv(InputOf(s) as nat) > 1
    ensures var p := AdcClock.ClkGenMulDiv(OutputOf(s) as nat, InputOf(s) as nat);
      && 2 <= U32(p.0) <= 256 && 1 <= U32(p.1) <= 256 && ClkOf(r) == Tuned(ClkOf(s), U32(p.0), U32(p.1))
  {
    RetunedIsTuned(ClkOf(s), OutputOf(s), InputOf(s));
  }

  /** Only the seven registers `refreshParams` writes differ. */
  lemma RefreshedWithin(r: AdcState, s: AdcState)
    requires Refreshed(r, s)
    ensures Within(r, s, {AddrSettings, AddrGain, AddrOffset, AddrPresamples, AddrSamples, AddrDecimate, AddrAdvClk})
    ensures Value(r.regs, AddrSysFreq) == Value(s.regs, AddrSysFreq) && Value(r.regs, AddrVersions) == Value(s.regs, AddrVersions)
  {
  }

  /** After `refreshParams` the clock source, the frequency counter and the CLKGEN input read as before. */
  lemma RefreshParamsKeepsClock(s: AdcState)
    requires RefreshReady(s)
    ensures var r := RefreshParams(s);
      && AdcClockSource(r).0 == AdcClockSource(s).0 && FreqCounterSource(r).0 == FreqCounterSource(s).0
      && ClkGenInputSource(r).0 == ClkGenInputSource(s).0
  {
    ReadyIsRefreshable(s);
    RefreshParamsStores(s);
    var r := RefreshParams(s);
    RefreshedTuned(r, s);
    RefreshedWithin(r, s);
    var p := AdcClock.ClkGenMulDiv(OutputOf(s) as nat, InputOf(s) as nat);
    TunedClockRead(r, s, {AddrSettings, AddrGain, AddrOffset, AddrPresamples, AddrSamples, AddrDecimate, AddrAdvClk}, U32(p.0), U32(p.1));
  }

  /**
   * After `refreshParams` CLKGEN runs at the pair the search picks for the
   * output frequency read before: the multiplier, the divider and the
   * frequency read back are that pair and the input times it.
   */
  lemma RefreshParamsRetunes(s: AdcState)
    requires RefreshReady(s)
    ensures var p := AdcClock.ClkGenMulDiv(ClkGenOutputFreq(s).0 as nat, InputFreq(s).0 as nat); var r := RefreshParams(s);
      && ClkGenMul(r).0 == U32(p.0) && ClkGenDiv(r).0 == U32(p.1)
      && ClkGenOutputFreq(r).0 == ScaleFreq(InputFreq(s).0, U32(p.0), U32(p.1))
  {
    ReadyIsRefreshable(s);
    RefreshParamsStores(s);
    var r := RefreshParams(s);
    RefreshedTuned(r, s);
    RefreshedWithin(r, s);
    var p := AdcClock.ClkGenMulDiv(OutputOf(s) as nat, InputOf(s) as nat);
    var changed := {AddrSettings, AddrGain, AddrOffset, AddrPresamples, AddrSamples, AddrDecimate, AddrAdvClk};
    TunedClockRead(r, s, changed, U32(p.0), U32(p.1));
    TunedFreqRead(r, s, changed, U32(p.0), U32(p.1));
  }
}
