/**
 * The healthy path of `NewAdc` (adc.go): the reset pulse, `refreshParams`
 * and `defaultSetup` in turn, on a CW-Lite whose register file has no
 * register that fails or changes on its own.
 */
module AdcOpen {
  import opened Base
  import opened Bytes
  import opened AdcBus
  import opened AdcFields
  import opened OpenAdc
  import opened AdcLemmas
  import opened AdcSetup
  import opened AdcRefresh
  import AdcClock

  /** The controller `NewAdc` builds before its first register access. */
  function Fresh(regs: Regs): AdcState
  {
    AdcState(None, 0, 10_000_000, regs)
  }

  /** `setResetOn` followed by `setResetOff`. */
  function ResetPulse(s: AdcState): AdcState
  {
    SetResetOff(SetResetOn(s))
  }

  /**
   * The reset pulse on a healthy state: the reset bit ends clear with the
   * other settings bits as read, and the sample limit is the sample count
   * read minus 45, which is also the sample count written back.
   */
  lemma ResetPulseStores(s: AdcState)
    requires Healthy(s)
    ensures var r := ResetPulse(s);
      && Healthy(r) && OnlyAtTwo(r, s, AddrSettings, AddrSamples)
      && r.hwMaxSamples == NumSamples(s).0 - 45 && NumSamples(r).0 == r.hwMaxSamples
      && Settings(r).0 == Settings(s).0 & !SettingsReset
  {
    SetResetOnLimit(s);
    var s1 := SetResetOn(s);
    SetResetOffClears(s1);
    WordsRead(s1);
    WordsRead(ResetPulse(s));
  }

  /** `ResetPulseStores` in terms of what the registers hold. */
  lemma ResetPulseStep(s: AdcState)
    requires Healthy(s)
    ensures var r := ResetPulse(s);
      && Healthy(r) && OnlyAtTwo(r, s, AddrSettings, AddrSamples)
      && r.hwMaxSamples == LeWord32(Fit(Value(s.regs, AddrSamples), 4)) - 45
      && LeWord32(Fit(Value(r.regs, AddrSamples), 4)) == r.hwMaxSamples
  {
    ResetPulseStores(s);
    WordsRead(s);
    WordsRead(ResetPulse(s));
  }

  /**
   * The controllers from which `NewAdc` takes its healthy path: no error,
   * no register that fails or changes on its own, a CW-Lite board, a gain
   * `SetGain` accepts, a sample count that leaves room for 3000 samples once
   * 45 are taken off, and CLKGEN reporting DONE with a nonzero multiplier
   * and an input fast enough for a divider.
   */
  predicate ReadyToOpen(s: AdcState)
  {
    && Healthy(s) && BoardType(s) == HwChipWhispererLite
    && Gain(s).0 <= MaxGain && 3045 <= NumSamples(s).0
    && AdvClock(s).0.mul != 0 && AdvClock(s).0.flags & ClkGenDone != 0
    && AdcClock.MaxDiv(InputFreq(s).0 as nat) > 1
  }

  /** The register files on which `NewAdc` takes its healthy path. */
  predicate OpenReady(regs: Regs)
  {
    ReadyToOpen(Fresh(regs))
  }

  /** `ReadyToOpen` in terms of what the registers hold. */
  ghost predicate Openable(s: AdcState)
  {
    && Healthy(s) && BoardOf(s) == HwChipWhispererLite
    && Fit(Value(s.regs, AddrGain), 1)[0] <= MaxGain && 3045 <= LeWord32(Fit(Value(s.regs, AddrSamples), 4))
    && ClkOf(s).mul != 0 && ClkOf(s).flags & ClkGenDone != 0
    && AdcClock.MaxDiv(InputOf(s) as nat) > 1
  }

  lemma ReadyIsOpenable(s: AdcState)
    requires ReadyToOpen(s)
    ensures Openable(s)
  {
    WordsRead(s);
    VersionStep(s);
    ClockReads(s);
  }

  /** A state the reset pulse left, from an openable one, can be refreshed. */
  lemma PulsedRefreshable(r: AdcState, s: AdcState)
    requires Openable(s) && Healthy(r) && OnlyAtTwo(r, s, AddrSettings, AddrSamples)
    requires r.hwMaxSamples == LeWord32(Fit(Value(s.regs, AddrSamples), 4)) - 45
    requires LeWord32(Fit(Value(r.regs, AddrSamples), 4)) == r.hwMaxSamples
    ensures Refreshable(r)
  {
    assert Value(r.regs, AddrGain) == Value(s.regs, AddrGain);
    assert Value(r.regs, AddrVersions) == Value(s.regs, AddrVersions);
    assert Value(r.regs, AddrAdvClk) == Value(s.regs, AddrAdvClk);
    assert Value(r.regs, AddrSysFreq) == Value(s.regs, AddrSysFreq);
  }

  /** The reset pulse keeps the board and the CLKGEN input, and leaves room for 3000 samples. */
  lemma PulsedKeeps(r: AdcState, s: AdcState)
    requires Openable(s) && OnlyAtTwo(r, s, AddrSettings, AddrSamples)
    requires r.hwMaxSamples == LeWord32(Fit(Value(s.regs, AddrSamples), 4)) - 45
    ensures BoardOf(r) == HwChipWhispererLite && 3000 <= r.hwMaxSamples && InputOf(r) == InputOf(s)
  {
    assert Value(r.regs, AddrVersions) == Value(s.regs, AddrVersions);
    assert Value(r.regs, AddrAdvClk) == Value(s.regs, AddrAdvClk);
    assert Value(r.regs, AddrSysFreq) == Value(s.regs, AddrSysFreq);
  }

  /** The reset pulse on an openable state leaves one that can be refreshed. */
  lemma PulseStep(s: AdcState)
    requires Openable(s)
    ensures var r := ResetPulse(s);
      && Refreshable(r) && BoardOf(r) == HwChipWhispererLite && InputOf(r) == InputOf(s)
      && r.hwMaxSamples == LeWord32(Fit(Value(s.regs, AddrSamples), 4)) - 45 && 3000 <= r.hwMaxSamples
  {
    ResetPulseStep(s);
    PulsedRefreshable(ResetPulse(s), s);
    PulsedKeeps(ResetPulse(s), s);
  }

  /** What `refreshParams` keeps that `defaultSetup` relies on. */
  lemma RefreshedKeeps(r: AdcState, s: AdcState)
    requires Within(r, s, {AddrSettings, AddrGain, AddrOffset, AddrPresamples, AddrSamples, AddrDecimate, AddrAdvClk})
    requires Value(r.regs, AddrSysFreq) == Value(s.regs, AddrSysFreq) && Value(r.regs, AddrVersions) == Value(s.regs, AddrVersions)
    requires ClkOf(r) == Retuned(ClkOf(s), OutputOf(s), InputOf(s))
    ensures BoardOf(r) == BoardOf(s) && r.hwMaxSamples == s.hwMaxSamples
    ensures InputOf(r) == InputOf(s) && ClkOf(r).flags & ClkGenDone == ClkOf(s).flags & ClkGenDone
  {
    ResetsKeepReadBits(ClkOf(s).srcAndStatus, ClkOf(s).flags);
  }

  /** `refreshParams` keeps the board, the sample limit, the CLKGEN input and DONE. */
  lemma RefreshStep(s: AdcState)
    requires Refreshable(s)
    ensures var r := RefreshParams(s);
      && Healthy(r) && BoardOf(r) == BoardOf(s) && r.hwMaxSamples == s.hwMaxSamples
      && InputOf(r) == InputOf(s) && ClkOf(r).flags & ClkGenDone != 0
  {
    RefreshParamsStores(s);
    RefreshedWithin(RefreshParams(s), s);
    RefreshedKeeps(RefreshParams(s), s);
  }

  /** The reset pulse and `refreshParams` from an openable state lead to the CW-Lite path of `defaultSetup`. */
  lemma OpenStages(s: AdcState)
    requires Openable(s)
    ensures var r := RefreshParams(ResetPulse(s));
      && Healthy(r) && BoardOf(r) == HwChipWhispererLite
      && r.hwMaxSamples == LeWord32(Fit(Value(s.regs, AddrSamples), 4)) - 45 && 3000 <= r.hwMaxSamples
      && InputOf(r) == InputOf(s) && ClkOf(r).flags & ClkGenDone != 0
  {
    PulseStep(s);
    RefreshStep(ResetPulse(s));
  }

  /** What the getters report of a state `OpenStages` describes. */
  lemma OpenedReads(r: AdcState, s: AdcState)
    requires Healthy(r) && Healthy(s) && BoardOf(r) == HwChipWhispererLite
    requires r.hwMaxSamples == LeWord32(Fit(Value(s.regs, AddrSamples), 4)) - 45
    requires InputOf(r) == InputOf(s) && ClkOf(r).flags & ClkGenDone != 0
    ensures BoardType(r) == HwChipWhispererLite && r.hwMaxSamples == NumSamples(s).0 - 45
    ensures InputFreq(r).0 == InputFreq(s).0 && AdvClock(r).0.flags & ClkGenDone != 0
  {
    VersionStep(r);
    ClockReads(r);
    ClockReads(s);
    WordsRead(s);
  }

  /** `NewAdc`'s state is `defaultSetup` after `refreshParams` after the reset pulse. */
  lemma SetupIs(regs: Regs)
    ensures Setup(regs) == DefaultSetup(RefreshParams(ResetPulse(Fresh(regs))))
  {
  }

  /** From a controller ready to open, the reset pulse and `refreshParams` lead to the CW-Lite path of `defaultSetup`. */
  lemma PathStages(s: AdcState)
    requires ReadyToOpen(s)
    ensures var r := RefreshParams(ResetPulse(s));
      && Healthy(r) && BoardType(r) == HwChipWhispererLite
      && r.hwMaxSamples == NumSamples(s).0 - 45 && 3000 <= r.hwMaxSamples
      && InputFreq(r).0 == InputFreq(s).0 && AdvClock(r).0.flags & ClkGenDone != 0
  {
    ReadyIsOpenable(s);
    OpenStages(s);
    OpenedReads(RefreshParams(ResetPulse(s)), s);
  }

  /** The opening sequence on a controller ready to open: the settings of `defaultSetup` and the lowered sample limit. */
  lemma PathSettings(s: AdcState)
    requires ReadyToOpen(s)
    ensures var r := DefaultSetup(RefreshParams(ResetPulse(s)));
      && r.err.None? && r.hwMaxSamples == NumSamples(s).0 - 45
      && Gain(r).0 == 45 && NumSamples(r).0 == 3000 && TriggerOffset(r).0 == 0
      && OpenAdc.TriggerMode(r).0 == TriggerModeRisingEdge
  {
    PathStages(s);
    DefaultSetupSettings(RefreshParams(ResetPulse(s)));
  }

  /** The opening sequence on a controller ready to open: the clock of `defaultSetup`. */
  lemma PathClock(s: AdcState)
    requires ReadyToOpen(s)
    ensures var p := AdcClock.ClkGenMulDiv(7_370_000, InputFreq(s).0 as nat); var r := DefaultSetup(RefreshParams(ResetPulse(s)));
      && AdcClockSource(r).0 == AdcSrcClkGenX4ViaDcm
      && ClkGenMul(r).0 == U32(p.0) && ClkGenDiv(r).0 == U32(p.1)
      && ClkGenOutputFreq(r).0 == ScaleFreq(InputFreq(s).0, U32(p.0), U32(p.1))
  {
    PathStages(s);
    DefaultSetupClock(RefreshParams(ResetPulse(s)));
  }

  /** The opening sequence on a controller ready to open: the routes of `defaultSetup`. */
  lemma PathRoutes(s: AdcState)
    requires ReadyToOpen(s)
    ensures var r := DefaultSetup(RefreshParams(ResetPulse(s)));
      && TriggerTargetIoPins(r).0 == [3]
      && TargetIo(r, 0).0 == TargetIoModeSerialRx && TargetIo(r, 1).0 == TargetIoModeSerialTx
      && Hs2(r).0 == Hs2ModeClkGen
  {
    PathStages(s);
    DefaultSetupRoutes(RefreshParams(ResetPulse(s)));
  }

  /**
   * A healthy `NewAdc` returns a controller without error whose sample limit
   * is the sample count found minus 45, with gain 45, 3000 samples, trigger
   * offset 0 and a rising-edge trigger.
   */
  lemma SetupSettings(regs: Regs)
    requires OpenReady(regs)
    ensures var r := Setup(regs);
      && r.err.None? && r.hwMaxSamples == NumSamples(Fresh(regs)).0 - 45
      && Gain(r).0 == 45 && NumSamples(r).0 == 3000 && TriggerOffset(r).0 == 0
      && OpenAdc.TriggerMode(r).0 == TriggerModeRisingEdge
  {
    SetupIs(regs);
    PathSettings(Fresh(regs));
  }

  /**
   * A healthy `NewAdc` leaves the ADC clocked from CLKGEN x4 through the
   * DCM, and CLKGEN at the searched multiplier and divider for 7.37 MHz from
   * the input frequency found on opening.
   */
  lemma SetupClock(regs: Regs)
    requires OpenReady(regs)
    ensures var p := AdcClock.ClkGenMulDiv(7_370_000, InputFreq(Fresh(regs)).0 as nat); var r := Setup(regs);
      && AdcClockSource(r).0 == AdcSrcClkGenX4ViaDcm
      && ClkGenMul(r).0 == U32(p.0) && ClkGenDiv(r).0 == U32(p.1)
      && ClkGenOutputFreq(r).0 == ScaleFreq(InputFreq(Fresh(regs)).0, U32(p.0), U32(p.1))
  {
    SetupIs(regs);
    PathClock(Fresh(regs));
  }

  /** A healthy `NewAdc` triggers on pin index 3, routes TargetIO1 to RX and TargetIO2 to TX, and drives HS2 from CLKGEN. */
  lemma SetupRoutes(regs: Regs)
    requires OpenReady(regs)
    ensures var r := Setup(regs);
      && TriggerTargetIoPins(r).0 == [3]
      && TargetIo(r, 0).0 == TargetIoModeSerialRx && TargetIo(r, 1).0 == TargetIoModeSerialTx
      && Hs2(r).0 == Hs2ModeClkGen
  {
    SetupIs(regs);
    PathRoutes(Fresh(regs));
  }
}
