/**
 * The healthy path of `NewAdc` (adc.go): on a register file in which no
 * register fails or changes on its own, `defaultSetup`, `refreshParams` and
 * the whole opening sequence leave behind the settings adc.go chooses.
 *
 * Each step is stated as what it stores and which registers it leaves
 * alone (`Within`); the getters then decode what the registers hold.
 */
module AdcSetup {
  import opened Base
  import opened Bytes
  import opened AdcBus
  import opened AdcFields
  import opened OpenAdc
  import opened AdcLemmas
  import AdcClock
  import ByteCast

  /** No error, and no register that fails or changes on its own. */
  predicate Healthy(s: AdcState)
  {
    s.err.None? && Quiet(s.regs)
  }

  /** `r` differs from `s` at most in the registers `changed` and in the log. */
  ghost predicate Within(r: AdcState, s: AdcState, changed: set<Address>)
  {
    && r.hwMaxSamples == s.hwMaxSamples && r.extClockFreq == s.extClockFreq
    && r.regs.faulty == s.regs.faulty && r.regs.updates == s.regs.updates
    && forall x :: x !in changed ==> Value(r.regs, x) == Value(s.regs, x)
  }

  lemma WithinTrans(a: AdcState, b: AdcState, c: AdcState, ab: set<Address>, bc: set<Address>)
    requires Within(a, b, ab) && Within(b, c, bc)
    ensures Within(a, c, ab + bc)
  {
  }

  lemma OnlyAtWithin(r: AdcState, s: AdcState, addr: Address)
    requires OnlyAt(r, s, addr)
    ensures Within(r, s, {addr})
  {
  }

  // ---------------------------------------------------------------------
  // The getters on a healthy state.

  /** A healthy state's one-byte and four-byte registers read as what they hold. */
  lemma WordsRead(r: AdcState)
    requires Healthy(r)
    ensures Gain(r).0 == Fit(Value(r.regs, AddrGain), 1)[0]
    ensures NumSamples(r).0 == LeWord32(Fit(Value(r.regs, AddrSamples), 4))
    ensures TriggerOffset(r).0 == LeWord32(Fit(Value(r.regs, AddrOffset), 4))
    ensures Settings(r).0 == Fit(Value(r.regs, AddrSettings), 1)[0]
  {
    FetchSteady(r, AddrGain, 1);
    FetchSteady(r, AddrSamples, 4);
    FetchSteady(r, AddrOffset, 4);
    FetchSteady(r, AddrSettings, 1);
  }

  /** The trigger pins, the clock-out mode and TargetIO pins routed to a serial line. */
  lemma RoutesRead(r: AdcState, pin: nat)
    requires Healthy(r) && pin < 8
    ensures TriggerTargetIoPins(r).0 == TriggerPinsOf(Fit(Value(r.regs, AddrTrigSrc), 1)[0])
    ensures var f := ClkOutOf(Fit(Value(r.regs, AddrExtClk), 1)[0]);
      Hs2Of(f).Ok? ==> Hs2(r) == (Hs2Of(f).value, TargetClkOut(r).1) && TargetClkOut(r).1.err.None?
    ensures Fit(Value(r.regs, AddrIoRoute), 8)[pin] == IoRouteSrx ==> TargetIo(r, pin) == (TargetIoModeSerialRx, Tio(r, pin).1) && Tio(r, pin).1.err.None?
    ensures Fit(Value(r.regs, AddrIoRoute), 8)[pin] == IoRouteStx ==> TargetIo(r, pin) == (TargetIoModeSerialTx, Tio(r, pin).1) && Tio(r, pin).1.err.None?
  {
    FetchSteady(r, AddrTrigSrc, 1);
    FetchSteady(r, AddrExtClk, 1);
    FetchSteady(r, AddrIoRoute, 8);
  }

  // ---------------------------------------------------------------------
  // The steps of `defaultSetup`, each on a healthy state.

  lemma SetGainStep(s: AdcState, g: byte)
    requires Healthy(s) && g <= MaxGain
    ensures var r := SetGain(s, g); Healthy(r) && Within(r, s, {AddrGain}) && Value(r.regs, AddrGain) == [g]
  {
    PutPasses(s, AddrGain, [g], true, None);
  }

  lemma SetTotalSamplesStep(s: AdcState, n: u32)
    requires Healthy(s) && n <= s.hwMaxSamples
    ensures var r := SetTotalSamples(s, n); Healthy(r) && Within(r, s, {AddrSamples}) && Value(r.regs, AddrSamples) == Le32(n)
  {
    PutPasses(s, AddrSamples, Le32(n), true, None);
  }

  lemma SetTriggerOffsetStep(s: AdcState, offset: u32)
    requires Healthy(s)
    ensures var r := SetTriggerOffset(s, offset); Healthy(r) && Within(r, s, {AddrOffset}) && Value(r.regs, AddrOffset) == Le32(offset)
  {
    PutPasses(s, AddrOffset, Le32(offset), true, None);
  }

  /** The trigger mode is stored into the settings byte as read; no other register changes. */
  lemma SetTriggerModeStep(s: AdcState, mode: TriggerMode)
    requires Healthy(s)
    ensures var r := SetTriggerMode(s, mode);
      && Healthy(r) && Within(r, s, {AddrSettings})
      && Value(r.regs, AddrSettings) == [WithTriggerMode(Fit(Value(s.regs, AddrSettings), 1)[0], mode)]
  {
    SettingsSteady(s);
    var (v, s1) := Settings(s);
    SetSettingsStores(s1, WithTriggerMode(v, mode), true);
  }

  /**
   * A valid clock source: bits 0-2 of `SrcAndStatus` are replaced and bit 4
   * pulsed; the multiplier, the divider and the flags stay.
   */
  lemma SetAdcClockSourceStep(s: AdcState, src: AdcSrcTuple)
    requires Healthy(s) && ValidClockSource(src)
    ensures var a := AdvClock(s).0; var r := SetAdcClockSource(s, src);
      && Healthy(r) && Within(r, s, {AddrAdvClk})
      && AdvClock(r).0 == a.(srcAndStatus := (WithClockSource(a.srcAndStatus, src).value | 0x10) & !0x10)
  {
    AdvClockSteady(s);
    var (a, s0) := AdvClock(s);
    var st := a.(srcAndStatus := WithClockSource(a.srcAndStatus, src).value);
    SetAdcClockSourceSteps(s, src);
    SetAdvClockReadsBack(s0, st, true);
    var s1 := SetAdvClock(s0, st, true);
    ResetAdcStores(s1);
    SameRegsOnlyAt(s0, s, AddrAdvClk);
    OnlyAtTrans(s1, s0, s, AddrAdvClk);
    OnlyAtTrans(ResetAdc(s1), s1, s, AddrAdvClk);
  }

  lemma SetTriggerPinStep(s: AdcState, pin: int)
    requires Healthy(s) && 0 <= pin < 4
    ensures var r := SetTriggerTargetIoPin(s, pin);
      Healthy(r) && Within(r, s, {AddrTrigSrc}) && Value(r.regs, AddrTrigSrc) == [TriggerPinByte(pin).value]
  {
    PutPasses(s, AddrTrigSrc, [TriggerPinByte(pin).value], true, None);
  }

  /** A serial route: byte `pin` of the eight IO-route bytes read is replaced, and written back. */
  lemma SetSerialStep(s: AdcState, pin: nat, mode: TargetIoMode)
    requires Healthy(s) && pin < 8 && (mode.TargetIoModeSerialRx? || mode.TargetIoModeSerialTx?)
    ensures var r := SetTargetIo(s, pin, mode);
      && Healthy(r) && Within(r, s, {AddrIoRoute})
      && Value(r.regs, AddrIoRoute) == Fit(Value(s.regs, AddrIoRoute), 8)[pin := RouteByte(mode)]
  {
    FetchSteady(s, AddrIoRoute, 8);
    var (buf, s1) := Fetch(s, AddrIoRoute, 8);
    PutPasses(s1, AddrIoRoute, buf[pin := RouteByte(mode)], true, None);
  }

  /** The clock-out field of the external-clock byte read is replaced, and written back. */
  lemma SetHs2Step(s: AdcState, mode: Hs2Mode)
    requires Healthy(s)
    ensures var r := SetHs2(s, mode);
      && Healthy(r) && Within(r, s, {AddrExtClk})
      && Value(r.regs, AddrExtClk) == [WithClkOut(Fit(Value(s.regs, AddrExtClk), 1)[0], Hs2Field(mode))]
  {
    FetchSteady(s, AddrExtClk, 1);
    var (b, s1) := Fetch(s, AddrExtClk, 1);
    PutPasses(s1, AddrExtClk, [WithClkOut(b[0], Hs2Field(mode))], true, None);
  }

  // ---------------------------------------------------------------------
  // `defaultSetup` in three stages.

  /** The advanced-clock register's fields, as a healthy state holds them. */
  function ClkOf(s: AdcState): AdvClk
  {
    AdvClkOf(Fit(Value(s.regs, AddrAdvClk), 4))
  }

  /** The CLKGEN input frequency a healthy state reports: the external clock or the system clock word. */
  function InputOf(s: AdcState): u32
  {
    if ClkGenInputOf(ClkOf(s).srcAndStatus) == ClkGenInputExtClk then s.extClockFreq
    else LeWord32(Fit(Value(s.regs, AddrSysFreq), 4))
  }

  /** On a healthy state `AdvClock` and `InputFreq` read what the registers hold. */
  lemma ClockReads(s: AdcState)
    requires Healthy(s)
    ensures AdvClock(s).0 == ClkOf(s) && InputFreq(s).0 == InputOf(s)
  {
    AdvClockSteady(s);
    InputFreqReads(s);
  }

  /** What the first stage of `defaultSetup` leaves in `r`, starting from `s`. */
  ghost predicate FieldsDefaulted(r: AdcState, s: AdcState)
  {
    && Within(r, s, {AddrGain, AddrSamples, AddrOffset, AddrSettings})
    && Value(r.regs, AddrGain) == [45] && Value(r.regs, AddrSamples) == Le32(3000) && Value(r.regs, AddrOffset) == Le32(0)
    && Value(r.regs, AddrSettings) == [WithTriggerMode(Fit(Value(s.regs, AddrSettings), 1)[0], TriggerModeRisingEdge)]
  }

  /** What the second stage leaves: CLKGEN factors `mul` and `div`, the ADC clock source, the trigger pin. */
  ghost predicate ClockDefaulted(r: AdcState, s: AdcState, mul: u32, div: u32)
  {
    && Within(r, s, {AddrAdvClk, AddrTrigSrc})
    && Value(r.regs, AddrTrigSrc) == [TriggerPinByte(3).value]
    && ClkOf(r).mul == ClkGenField(mul) && ClkOf(r).div == ClkGenField(div)
    && ClkOf(r).flags & ClkGenDone == ClkOf(s).flags & ClkGenDone
    && ClkGenInputOf(ClkOf(r).srcAndStatus) == ClkGenInputOf(ClkOf(s).srcAndStatus)
    && ClockSourceOf(ClkOf(r).srcAndStatus) == AdcSrcClkGenX4ViaDcm
  }

  /** What the third stage leaves: the two serial routes and the HS2 clock-out field. */
  ghost predicate IoDefaulted(r: AdcState, s: AdcState)
  {
    && Within(r, s, {AddrIoRoute, AddrExtClk})
    && |Value(r.regs, AddrIoRoute)| == 8
    && Value(r.regs, AddrIoRoute)[0] == IoRouteSrx && Value(r.regs, AddrIoRoute)[1] == IoRouteStx
    && Value(r.regs, AddrExtClk) == [WithClkOut(Fit(Value(s.regs, AddrExtClk), 1)[0], Hs2Field(Hs2ModeClkGen))]
  }

  /** The three stages together, from `s`. */
  ghost predicate Defaulted(r: AdcState, s: AdcState, mul: u32, div: u32)
  {
    && Within(r, s, {AddrGain, AddrSamples, AddrOffset, AddrSettings, AddrAdvClk, AddrTrigSrc, AddrIoRoute, AddrExtClk})
    && Value(r.regs, AddrGain) == [45] && Value(r.regs, AddrSamples) == Le32(3000) && Value(r.regs, AddrOffset) == Le32(0)
    && Value(r.regs, AddrSettings) == [WithTriggerMode(Fit(Value(s.regs, AddrSettings), 1)[0], TriggerModeRisingEdge)]
    && Value(r.regs, AddrTrigSrc) == [TriggerPinByte(3).value]
    && |Value(r.regs, AddrIoRoute)| == 8
    && Value(r.regs, AddrIoRoute)[0] == IoRouteSrx && Value(r.regs, AddrIoRoute)[1] == IoRouteStx
    && Value(r.regs, AddrExtClk) == [WithClkOut(Fit(Value(s.regs, AddrExtClk), 1)[0], Hs2Field(Hs2ModeClkGen))]
    && ClkOf(r).mul == ClkGenField(mul) && ClkOf(r).div == ClkGenField(div)
    && ClkOf(r).flags & ClkGenDone == ClkOf(s).flags & ClkGenDone
    && ClkGenInputOf(ClkOf(r).srcAndStatus) == ClkGenInputOf(ClkOf(s).srcAndStatus)
    && ClockSourceOf(ClkOf(r).srcAndStatus) == AdcSrcClkGenX4ViaDcm
  }

  /** The clock and routing stages together, from `s`. */
  ghost predicate ClockIoDefaulted(r: AdcState, s: AdcState, mul: u32, div: u32)
  {
    && Within(r, s, {AddrAdvClk, AddrTrigSrc, AddrIoRoute, AddrExtClk})
    && Value(r.regs, AddrTrigSrc) == [TriggerPinByte(3).value]
    && |Value(r.regs, AddrIoRoute)| == 8
    && Value(r.regs, AddrIoRoute)[0] == IoRouteSrx && Value(r.regs, AddrIoRoute)[1] == IoRouteStx
    && Value(r.regs, AddrExtClk) == [WithClkOut(Fit(Value(s.regs, AddrExtClk), 1)[0], Hs2Field(Hs2ModeClkGen))]
    && ClkOf(r).mul == ClkGenField(mul) && ClkOf(r).div == ClkGenField(div)
    && ClkOf(r).flags & ClkGenDone == ClkOf(s).flags & ClkGenDone
    && ClkGenInputOf(ClkOf(r).srcAndStatus) == ClkGenInputOf(ClkOf(s).srcAndStatus)
    && ClockSourceOf(ClkOf(r).srcAndStatus) == AdcSrcClkGenX4ViaDcm
  }

  /** The first four setters of `defaultSetup`. */
  function FieldsStage(s: AdcState): AdcState
  {
    SetTriggerMode(SetTriggerOffset(SetTotalSamples(SetGain(s, 45), 3000), 0), TriggerModeRisingEdge)
  }

  /** The clock setters of `defaultSetup` and the trigger pin. */
  function ClockStage(s: AdcState): AdcState
  {
    SetTriggerTargetIoPin(SetAdcClockSource(SetClkGenOutputFreq(s, 7_370_000), AdcSrcClkGenX4ViaDcm), 3)
  }

  /** The routing setters that end `defaultSetup`. */
  function IoStage(s: AdcState): AdcState
  {
    SetHs2(SetTargetIo(SetTargetIo(s, 0, TargetIoModeSerialRx), 1, TargetIoModeSerialTx), Hs2ModeClkGen)
  }

  /** The gain, the sample count, the trigger offset and the trigger mode. */
  lemma DefaultFieldsStage(s: AdcState)
    requires Healthy(s) && 3000 <= s.hwMaxSamples
    ensures Healthy(FieldsStage(s)) && FieldsDefaulted(FieldsStage(s), s) && InputOf(FieldsStage(s)) == InputOf(s)
  {
    SetGainStep(s, 45);
    var a1 := SetGain(s, 45);
    SetTotalSamplesStep(a1, 3000);
    var a2 := SetTotalSamples(a1, 3000);
    SetTriggerOffsetStep(a2, 0);
    var a3 := SetTriggerOffset(a2, 0);
    SetTriggerModeStep(a3, TriggerModeRisingEdge);
    var r := SetTriggerMode(a3, TriggerModeRisingEdge);
    WithinTrans(a2, a1, s, {AddrSamples}, {AddrGain});
    WithinTrans(a3, a2, s, {AddrOffset}, {AddrSamples, AddrGain});
    WithinTrans(r, a3, s, {AddrSettings}, {AddrOffset, AddrSamples, AddrGain});
    assert Value(r.regs, AddrGain) == Value(a1.regs, AddrGain);
    assert Value(r.regs, AddrSamples) == Value(a2.regs, AddrSamples);
    assert Value(r.regs, AddrOffset) == Value(a3.regs, AddrOffset);
    assert Value(a3.regs, AddrSettings) == Value(s.regs, AddrSettings);
    assert Value(r.regs, AddrAdvClk) == Value(s.regs, AddrAdvClk);
    assert Value(r.regs, AddrSysFreq) == Value(s.regs, AddrSysFreq);
  }

  /**
   * CLKGEN at 7.37 MHz, the ADC clocked from it through the DCM, and the
   * trigger on TargetIO pin 4 (index 3).
   */
  lemma DefaultClockStage(s: AdcState)
    requires Healthy(s) && AdcClock.MaxDiv(InputOf(s) as nat) > 1
    ensures var p := AdcClock.ClkGenMulDiv(7_370_000, InputOf(s) as nat);
      && 2 <= p.0 <= 256 && 1 <= p.1 <= 256
      && Healthy(ClockStage(s)) && ClockDefaulted(ClockStage(s), s, U32(p.0), U32(p.1))
  {
    ClockReads(s);
    SetClkGenOutputFreqStores(s, 7_370_000);
    var b1 := SetClkGenOutputFreq(s, 7_370_000);
    OnlyAtWithin(b1, s, AddrAdvClk);
    SetAdcClockSourceStep(b1, AdcSrcClkGenX4ViaDcm);
    var b2 := SetAdcClockSource(b1, AdcSrcClkGenX4ViaDcm);
    SetTriggerPinStep(b2, 3);
    var r := SetTriggerTargetIoPin(b2, 3);
    WithinTrans(b2, b1, s, {AddrAdvClk}, {AddrAdvClk});
    WithinTrans(r, b2, s, {AddrTrigSrc}, {AddrAdvClk});
    ClockReads(b1);
    ClockReads(b2);
    assert ClkOf(r) == ClkOf(b2) by {
      assert Value(r.regs, AddrAdvClk) == Value(b2.regs, AddrAdvClk);
    }
    var x := ClkOf(b1).srcAndStatus;
    var v := WithClockSource(x, AdcSrcClkGenX4ViaDcm).value;
    assert ClkGenInputOf((v | 0x10) & !0x10) == ClkGenInputOf(x);
    ClockSourceLowBits((v | 0x10) & !0x10, v);
  }

  /** TargetIO pin 1 receives, pin 2 transmits, and HS2 carries the CLKGEN output. */
  lemma DefaultIoStage(s: AdcState)
    requires Healthy(s)
    ensures Healthy(IoStage(s)) && IoDefaulted(IoStage(s), s)
  {
    SetSerialStep(s, 0, TargetIoModeSerialRx);
    var c1 := SetTargetIo(s, 0, TargetIoModeSerialRx);
    SetSerialStep(c1, 1, TargetIoModeSerialTx);
    var c2 := SetTargetIo(c1, 1, TargetIoModeSerialTx);
    SetHs2Step(c2, Hs2ModeClkGen);
    var r := SetHs2(c2, Hs2ModeClkGen);
    WithinTrans(c2, c1, s, {AddrIoRoute}, {AddrIoRoute});
    WithinTrans(r, c2, s, {AddrExtClk}, {AddrIoRoute});
    assert Value(r.regs, AddrIoRoute) == Value(c2.regs, AddrIoRoute);
    assert Value(c2.regs, AddrExtClk) == Value(s.regs, AddrExtClk);
  }

  lemma ComposeClockIo(s: AdcState, s3: AdcState, r: AdcState, mul: u32, div: u32)
    requires ClockDefaulted(s3, s, mul, div) && IoDefaulted(r, s3)
    ensures ClockIoDefaulted(r, s, mul, div)
  {
    assert Value(r.regs, AddrAdvClk) == Value(s3.regs, AddrAdvClk);
    assert Value(s3.regs, AddrExtClk) == Value(s.regs, AddrExtClk);
  }

  /** The clock stage, then the routing stage. */
  lemma ClockIoStage(s: AdcState)
    requires Healthy(s) && AdcClock.MaxDiv(InputOf(s) as nat) > 1
    ensures var p := AdcClock.ClkGenMulDiv(7_370_000, InputOf(s) as nat);
      && 2 <= p.0 <= 256 && 1 <= p.1 <= 256
      && Healthy(IoStage(ClockStage(s))) && ClockIoDefaulted(IoStage(ClockStage(s)), s, U32(p.0), U32(p.1))
  {
    DefaultClockStage(s);
    DefaultIoStage(ClockStage(s));
    var p := AdcClock.ClkGenMulDiv(7_370_000, InputOf(s) as nat);
    ComposeClockIo(s, ClockStage(s), IoStage(ClockStage(s)), U32(p.0), U32(p.1));
  }

  lemma ComposeDefaults(s: AdcState, s2: AdcState, r: AdcState, mul: u32, div: u32)
    requires FieldsDefaulted(s2, s) && ClockIoDefaulted(r, s2, mul, div)
    ensures Defaulted(r, s, mul, div)
  {
    assert Value(s2.regs, AddrAdvClk) == Value(s.regs, AddrAdvClk);
    assert Value(s2.regs, AddrExtClk) == Value(s.regs, AddrExtClk);
    assert Value(r.regs, AddrSettings) == Value(s2.regs, AddrSettings);
  }

  /**
   * The three stages in order, from the state `s1` the version read leaves;
   * `s1` holds the registers of `s`.
   */
  lemma AllStages(s1: AdcState, s: AdcState)
    requires Healthy(s1) && SameRegs(s1, s) && 3000 <= s.hwMaxSamples && AdcClock.MaxDiv(InputOf(s) as nat) > 1
    ensures var p := AdcClock.ClkGenMulDiv(7_370_000, InputOf(s) as nat);
      var r := IoStage(ClockStage(FieldsStage(s1)));
      && 2 <= p.0 <= 256 && 1 <= p.1 <= 256
      && Healthy(r) && Defaulted(r, s, U32(p.0), U32(p.1))
  {
    assert InputOf(s1) == InputOf(s) by {
      assert Value(s1.regs, AddrAdvClk) == Value(s.regs, AddrAdvClk);
      assert Value(s1.regs, AddrSysFreq) == Value(s.regs, AddrSysFreq);
    }
    DefaultFieldsStage(s1);
    ClockIoStage(FieldsStage(s1));
    var p := AdcClock.ClkGenMulDiv(7_370_000, InputOf(s) as nat);
    var r := IoStage(ClockStage(FieldsStage(s1)));
    ComposeDefaults(s1, FieldsStage(s1), r, U32(p.0), U32(p.1));
    DefaultedSameRegs(r, s1, s, U32(p.0), U32(p.1));
  }

  /** On a CW-Lite `defaultSetup` is the version read followed by the three stages. */
  lemma DefaultSetupStages(s: AdcState)
    requires Healthy(s) && BoardType(s) == HwChipWhispererLite
    ensures Healthy(Version(s).1) && SameRegs(Version(s).1, s)
    ensures DefaultSetup(s) == IoStage(ClockStage(FieldsStage(Version(s).1)))
  {
    FetchSteady(s, AddrVersions, 6);
  }

  /** Defaulted from `s1` is defaulted from any `s` with the same registers. */
  lemma DefaultedSameRegs(r: AdcState, s1: AdcState, s: AdcState, mul: u32, div: u32)
    requires SameRegs(s1, s) && Defaulted(r, s1, mul, div)
    ensures Defaulted(r, s, mul, div)
  {
    assert Value(s1.regs, AddrAdvClk) == Value(s.regs, AddrAdvClk);
    assert Value(s1.regs, AddrExtClk) == Value(s.regs, AddrExtClk);
    assert Value(s1.regs, AddrSettings) == Value(s.regs, AddrSettings);
  }

  /** `defaultSetup` on a healthy CW-Lite runs all three stages without an error. */
  lemma DefaultSetupStores(s: AdcState)
    requires Healthy(s) && BoardType(s) == HwChipWhispererLite && 3000 <= s.hwMaxSamples
    requires AdcClock.MaxDiv(InputFreq(s).0 as nat) > 1
    ensures var p := AdcClock.ClkGenMulDiv(7_370_000, InputFreq(s).0 as nat);
      && 2 <= p.0 <= 256 && 1 <= p.1 <= 256
      && Healthy(DefaultSetup(s)) && Defaulted(DefaultSetup(s), s, U32(p.0), U32(p.1))
  {
    ClockReads(s);
    DefaultSetupStages(s);
    AllStages(Version(s).1, s);
  }

  // ---------------------------------------------------------------------
  // What the getters report after `defaultSetup`.

  /** Gain 45, 3000 samples, trigger offset 0, rising-edge trigger. */
  lemma DefaultedSettingsRead(r: AdcState, s: AdcState, mul: u32, div: u32)
    requires Healthy(r) && Defaulted(r, s, mul, div)
    ensures Gain(r).0 == 45 && NumSamples(r).0 == 3000 && TriggerOffset(r).0 == 0
    ensures OpenAdc.TriggerMode(r).0 == TriggerModeRisingEdge
  {
    WordsRead(r);
  }

  /** The ADC runs from CLKGEN x4 through the DCM, and CLKGEN from `inp * mul / div`. */
  lemma DefaultedClockRead(r: AdcState, s: AdcState, mul: u32, div: u32)
    requires Healthy(r) && Defaulted(r, s, mul, div)
    requires 2 <= mul <= 256 && 1 <= div <= 256 && ClkOf(s).flags & ClkGenDone != 0
    ensures AdcClockSource(r).0 == AdcSrcClkGenX4ViaDcm
    ensures ClkGenMul(r).0 == mul && ClkGenDiv(r).0 == div
  {
    ClockReads(r);
    ClkGenRoundTrip(mul);
    ClkGenRoundTrip(div);
    ClkGenMulSteady(r);
    ClkGenDivSteady(r);
  }

  /** CLKGEN's output reads as its input times `mul` over `div`, in `uint32`. */
  lemma DefaultedFreqRead(r: AdcState, s: AdcState, mul: u32, div: u32)
    requires Healthy(r) && Defaulted(r, s, mul, div)
    requires 2 <= mul <= 256 && 1 <= div <= 256 && ClkOf(s).flags & ClkGenDone != 0
    ensures ClkGenOutputFreq(r).0 == ScaleFreq(InputOf(s), mul, div)
  {
    ClockReads(r);
    assert Value(r.regs, AddrSysFreq) == Value(s.regs, AddrSysFreq);
    ClkGenRoundTrip(mul);
    ClkGenRoundTrip(div);
    ClkGenOutputFreqRule(r);
  }

  /** The trigger on pin index 3, TargetIO1 receiving, TargetIO2 transmitting, HS2 from CLKGEN. */
  lemma DefaultedRoutesRead(r: AdcState, s: AdcState, mul: u32, div: u32)
    requires Healthy(r) && Defaulted(r, s, mul, div)
    ensures TriggerTargetIoPins(r).0 == [3]
    ensures TargetIo(r, 0).0 == TargetIoModeSerialRx && TargetIo(r, 1).0 == TargetIoModeSerialTx
    ensures Hs2(r).0 == Hs2ModeClkGen
  {
    RoutesRead(r, 0);
    RoutesRead(r, 1);
  }

  /** After `defaultSetup` on a healthy CW-Lite: gain 45, 3000 samples, offset 0, rising edge. */
  lemma DefaultSetupSettings(s: AdcState)
    requires Healthy(s) && BoardType(s) == HwChipWhispererLite && 3000 <= s.hwMaxSamples
    requires AdcClock.MaxDiv(InputFreq(s).0 as nat) > 1
    ensures var r := DefaultSetup(s);
      && r.err.None? && r.hwMaxSamples == s.hwMaxSamples
      && Gain(r).0 == 45 && NumSamples(r).0 == 3000 && TriggerOffset(r).0 == 0
      && OpenAdc.TriggerMode(r).0 == TriggerModeRisingEdge
  {
    DefaultSetupStores(s);
    var p := AdcClock.ClkGenMulDiv(7_370_000, InputFreq(s).0 as nat);
    DefaultedSettingsRead(DefaultSetup(s), s, U32(p.0), U32(p.1));
  }

  /**
   * After `defaultSetup` on a healthy CW-Lite whose CLKGEN reports DONE: the
   * ADC clock is CLKGEN x4 through the DCM, and CLKGEN runs at the searched
   * multiplier and divider for 7.37 MHz.
   */
  lemma DefaultSetupClock(s: AdcState)
    requires Healthy(s) && BoardType(s) == HwChipWhispererLite && 3000 <= s.hwMaxSamples
    requires AdcClock.MaxDiv(InputFreq(s).0 as nat) > 1 && AdvClock(s).0.flags & ClkGenDone != 0
    ensures var p := AdcClock.ClkGenMulDiv(7_370_000, InputFreq(s).0 as nat); var r := DefaultSetup(s);
      && AdcClockSource(r).0 == AdcSrcClkGenX4ViaDcm
      && ClkGenMul(r).0 == U32(p.0) && ClkGenDiv(r).0 == U32(p.1)
      && ClkGenOutputFreq(r).0 == ScaleFreq(InputFreq(s).0, U32(p.0), U32(p.1))
  {
    DefaultSetupStores(s);
    ClockReads(s);
    var p := AdcClock.ClkGenMulDiv(7_370_000, InputFreq(s).0 as nat);
    ByteCast.U32Small(p.0);
    ByteCast.U32Small(p.1);
    DefaultedClockRead(DefaultSetup(s), s, U32(p.0), U32(p.1));
    DefaultedFreqRead(DefaultSetup(s), s, U32(p.0), U32(p.1));
  }

  /** After `defaultSetup` on a healthy CW-Lite: trigger on pin index 3, TargetIO1 RX, TargetIO2 TX, HS2 from CLKGEN. */
  lemma DefaultSetupRoutes(s: AdcState)
    requires Healthy(s) && BoardType(s) == HwChipWhispererLite && 3000 <= s.hwMaxSamples
    requires AdcClock.MaxDiv(InputFreq(s).0 as nat) > 1
    ensures var r := DefaultSetup(s);
      && TriggerTargetIoPins(r).0 == [3]
      && TargetIo(r, 0).0 == TargetIoModeSerialRx && TargetIo(r, 1).0 == TargetIoModeSerialTx
      && Hs2(r).0 == Hs2ModeClkGen
  {
    DefaultSetupStores(s);
    var p := AdcClock.ClkGenMulDiv(7_370_000, InputFreq(s).0 as nat);
    DefaultedRoutesRead(DefaultSetup(s), s, U32(p.0), U32(p.1));
  }
}
