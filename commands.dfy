/**
 * Panel configuration and the initialisation command stream built from it.
 * Initialisation sends one write: a command control byte followed by every
 * setup command with its arguments. A configuration is checked range by
 * range; any field out of range rejects it before anything is sent.
 */
module Commands {
  import opened Ssd1306Def

  /** The settings applied at initialisation. */
  datatype Config = Config(
    contrast: bv8,
    inverse: bool,
    memoryAddressingMode: bv8,
    segmentReMapInverse: bool,
    muxRatio: bv8,
    comOutputScanDirectionRemapped: bool,
    comAltPinConfig: bool,
    comDisableLeftRightRemap: bool,
    divideRatio: bv8,
    oscillatorFrequency: bv8,
    preChargePeriodPhase1: bv8,
    preChargePeriodPhase2: bv8,
    vcomhDeselectLevel: bv8,
    fadeOutBlinkingMode: bv8,
    fadeOutTimeInterval: bv8,
    zoom: bool,
    chargePump: bool)

  /** The recommended settings: remapped 128-column panel, charge pump on. */
  function DefaultConfig(): Config
  {
    Config(
      contrast := CONTRAST_DEFAULT,
      inverse := false,
      memoryAddressingMode := MEMORY_ADDRESSING_MODE_HORIZONTAL,
      segmentReMapInverse := true,
      muxRatio := MUX_RATIO_MAX,
      comOutputScanDirectionRemapped := true,
      comAltPinConfig := true,
      comDisableLeftRightRemap := true,
      divideRatio := DISPLAY_CLOCK_DIVIDE_RATIO_MIN,
      oscillatorFrequency := DISPLAY_CLOCK_OSCILLATOR_FREQUENCY_MAX,
      preChargePeriodPhase1 := PRE_CHARGE_PERIOD_PHASE1_DEFAULT,
      preChargePeriodPhase2 := PRE_CHARGE_PERIOD_PHASE2_DEFAULT,
      vcomhDeselectLevel := VCOMH_DESELECT_LEVEL1,
      fadeOutBlinkingMode := FADE_OUT_BLINKING_DISABLE,
      fadeOutTimeInterval := FADE_OUT_BLINKING_TIME_INTERVAL_MIN,
      zoom := false,
      chargePump := true)
  }

  // ---- Range checks, in the order initialisation applies them ------------

  predicate MuxRatioInRange(c: Config)
  {
    MUX_RATIO_MIN <= c.muxRatio <= MUX_RATIO_MAX
  }

  predicate ClockInRange(c: Config)
  {
    DISPLAY_CLOCK_DIVIDE_RATIO_MIN <= c.divideRatio <= DISPLAY_CLOCK_DIVIDE_RATIO_MAX &&
    DISPLAY_CLOCK_OSCILLATOR_FREQUENCY_MIN <= c.oscillatorFrequency <= DISPLAY_CLOCK_OSCILLATOR_FREQUENCY_MAX
  }

  predicate FadeInRange(c: Config)
  {
    (c.fadeOutBlinkingMode == FADE_OUT_BLINKING_DISABLE ||
     c.fadeOutBlinkingMode == FADE_OUT_MODE ||
     c.fadeOutBlinkingMode == BLINKING_MODE) &&
    FADE_OUT_BLINKING_TIME_INTERVAL_MIN <= c.fadeOutTimeInterval <= FADE_OUT_BLINKING_TIME_INTERVAL_MAX
  }

  predicate PreChargeInRange(c: Config)
  {
    PRE_CHARGE_PERIOD_PHASE_MIN <= c.preChargePeriodPhase1 <= PRE_CHARGE_PERIOD_PHASE_MAX &&
    PRE_CHARGE_PERIOD_PHASE_MIN <= c.preChargePeriodPhase2 <= PRE_CHARGE_PERIOD_PHASE_MAX
  }

  predicate VcomhInRange(c: Config)
  {
    c.vcomhDeselectLevel == VCOMH_DESELECT_LEVEL0 ||
    c.vcomhDeselectLevel == VCOMH_DESELECT_LEVEL1 ||
    c.vcomhDeselectLevel == VCOMH_DESELECT_LEVEL2
  }

  /** Initialisation accepts the configuration. */
  predicate ConfigValid(c: Config)
  {
    MuxRatioInRange(c) && ClockInRange(c) && FadeInRange(c) && PreChargeInRange(c) && VcomhInRange(c)
  }

  // ---- The command stream -------------------------------------------------

  /** The clock byte: divide ratio in the low nibble, oscillator frequency in the high one. */
  function ClockByte(c: Config): bv8
  {
    c.divideRatio | (c.oscillatorFrequency << 4)
  }

  /** The pre-charge byte: phase 1 in the high nibble, phase 2 in the low one. */
  function PreChargeByte(c: Config): bv8
  {
    (c.preChargePeriodPhase1 << 4) | c.preChargePeriodPhase2
  }

  /** The fade byte: the mode bits together with the time interval. */
  function FadeByte(c: Config): bv8
  {
    c.fadeOutBlinkingMode | c.fadeOutTimeInterval
  }

  /** The COM pins argument: the pin layout value or-ed with the left/right remap value. */
  function ComPinsValue(alternative: bool, disableRemap: bool): bv8
  {
    (if alternative then COM_PINS_HARDWARE_CONFIG_ALTERNATIVE_COM_PIN
     else COM_PINS_HARDWARE_CONFIG_SEQUENTIAL_COM_PIN) |
    (if disableRemap then COM_PINS_HARDWARE_CONFIG_DISABLE_REMAP
     else COM_PINS_HARDWARE_CONFIG_ENABLE_REMAP)
  }

  /** The COM pins byte of a configuration. */
  function ComPinsByte(c: Config): bv8
  {
    ComPinsValue(c.comAltPinConfig, c.comDisableLeftRightRemap)
  }

  /** Room the driver reserves for the initialisation write. */
  const COMMAND_CAPACITY: nat := 31

  /** The COM output scan direction command the flag selects. */
  function ScanByte(c: Config): bv8
  {
    if c.comOutputScanDirectionRemapped then COM_OUTPUT_SCAN_DIRECTION_REMAPPED_COMMAND
    else COM_OUTPUT_SCAN_DIRECTION_NORMAL_COMMAND
  }

  /** The normal or inverse display command the flag selects. */
  function InverseByte(c: Config): bv8
  {
    if c.inverse then DISPLAY_INVERSE_COMMAND else DISPLAY_NORMAL_COMMAND
  }

  /** The zoom argument the flag selects. */
  function ZoomByte(c: Config): bv8
  {
    if c.zoom then ZOOM_IN_ENABLE else ZOOM_IN_DISABLE
  }

  /** The segment remap command the flag selects. */
  function SegmentByte(c: Config): bv8
  {
    if c.segmentReMapInverse then SEGMENT_RE_MAP_INVERSE_COMMAND else SEGMENT_RE_MAP_NORMAL_COMMAND
  }

  /** The charge pump argument the flag selects. */
  function ChargePumpByte(c: Config): bv8
  {
    if c.chargePump then CHARGE_PUMP_ENABLE else CHARGE_PUMP_DISABLE
  }

  /** Number of bytes in the initialisation write. */
  const INIT_LENGTH: nat := 27

  /**
   * Byte `k` of the initialisation write: the command control byte, then
   * scan direction, multiplex ratio, clock, inversion, contrast, fade,
   * zoom, display offset, addressing mode, pre-charge, VCOMH level, COM
   * pins, segment remap, charge pump and finally display on.
   */
  function InitByte(c: Config, k: nat): bv8
    requires k < INIT_LENGTH
  {
    if k < 4 then
      match k
      case 0 => SEND_COMMAND
      case 1 => ScanByte(c)
      case 2 => MUX_RATIO_COMMAND
      case _ => c.muxRatio
    else if k < 9 then
      match k
      case 4 => DISPLAY_CLOCK_DIVIDE_COMMAND
      case 5 => ClockByte(c)
      case 6 => InverseByte(c)
      case 7 => CONTRAST_COMMAND
      case _ => c.contrast
    else if k < 15 then
      match k
      case 9 => FADE_OUT_BLINKING_COMMAND
      case 10 => FadeByte(c)
      case 11 => ZOOM_IN_COMMAND
      case 12 => ZoomByte(c)
      case 13 => DISPLAY_OFFSET_COMMAND
      case _ => DISPLAY_OFFSET_MIN
    else if k < 21 then
      match k
      case 15 => MEMORY_ADDRESSING_MODE_COMMAND
      case 16 => c.memoryAddressingMode
      case 17 => PRE_CHARGE_PERIOD_COMMAND
      case 18 => PreChargeByte(c)
      case 19 => VCOMH_DESELECT_LEVEL_COMMAND
      case _ => c.vcomhDeselectLevel
    else
      match k
      case 21 => COM_PINS_HARDWARE_CONFIG_COMMAND
      case 22 => ComPinsByte(c)
      case 23 => SegmentByte(c)
      case 24 => CHARGE_PUMP_COMMAND
      case 25 => ChargePumpByte(c)
      case _ => DISPLAY_ON_COMMAND
  }

  /** The initialisation write. */
  function InitCommands(c: Config): seq<bv8>
  {
    seq(INIT_LENGTH, k requires 0 <= k < INIT_LENGTH => InitByte(c, k))
  }

  /** `s` holds the first `|s|` bytes of the initialisation write. */
  ghost predicate IsInitPrefix(c: Config, s: seq<bv8>)
  {
    |s| <= INIT_LENGTH && forall k :: 0 <= k < |s| ==> s[k] == InitByte(c, k)
  }

  /** Appending the next byte of the stream keeps a prefix of it. */
  lemma InitPrefixStep(c: Config, s: seq<bv8>, k: nat, v: bv8)
    requires IsInitPrefix(c, s) && |s| == k < INIT_LENGTH && v == InitByte(c, k)
    ensures IsInitPrefix(c, s + [v]) && |s + [v]| == k + 1
  {
  }

  /** A prefix of full length is the whole stream. */
  lemma InitPrefixDone(c: Config, s: seq<bv8>)
    requires IsInitPrefix(c, s) && |s| == INIT_LENGTH
    ensures s == InitCommands(c)
  {
  }

  // The bytes of the stream one by one, as the driver writes them, in
  // five groups: each group is a small proof, one lemma for all 27 is not.

  lemma InitBytesScan(c: Config)
    ensures InitByte(c, 0) == SEND_COMMAND && InitByte(c, 1) == ScanByte(c)
    ensures InitByte(c, 2) == MUX_RATIO_COMMAND && InitByte(c, 3) == c.muxRatio
  {
  }

  lemma InitBytesClock(c: Config)
    ensures InitByte(c, 4) == DISPLAY_CLOCK_DIVIDE_COMMAND && InitByte(c, 5) == ClockByte(c)
    ensures InitByte(c, 6) == InverseByte(c)
    ensures InitByte(c, 7) == CONTRAST_COMMAND && InitByte(c, 8) == c.contrast
  {
  }

  lemma InitBytesFade(c: Config)
    ensures InitByte(c, 9) == FADE_OUT_BLINKING_COMMAND && InitByte(c, 10) == FadeByte(c)
    ensures InitByte(c, 11) == ZOOM_IN_COMMAND && InitByte(c, 12) == ZoomByte(c)
    ensures InitByte(c, 13) == DISPLAY_OFFSET_COMMAND && InitByte(c, 14) == DISPLAY_OFFSET_MIN
  {
  }

  lemma InitBytesPreCharge(c: Config)
    ensures InitByte(c, 15) == MEMORY_ADDRESSING_MODE_COMMAND && InitByte(c, 16) == c.memoryAddressingMode
    ensures InitByte(c, 17) == PRE_CHARGE_PERIOD_COMMAND && InitByte(c, 18) == PreChargeByte(c)
    ensures InitByte(c, 19) == VCOMH_DESELECT_LEVEL_COMMAND && InitByte(c, 20) == c.vcomhDeselectLevel
  {
  }

  lemma InitBytesPins(c: Config)
    ensures InitByte(c, 21) == COM_PINS_HARDWARE_CONFIG_COMMAND && InitByte(c, 22) == ComPinsByte(c)
    ensures InitByte(c, 23) == SegmentByte(c)
    ensures InitByte(c, 24) == CHARGE_PUMP_COMMAND && InitByte(c, 25) == ChargePumpByte(c)
    ensures InitByte(c, 26) == DISPLAY_ON_COMMAND
  {
  }

  /**
   * The stream fits the driver's command buffer, is a command write from
   * its first byte and switches the display on as its last command.
   */
  lemma InitCommandsFrame(c: Config)
    ensures |InitCommands(c)| <= COMMAND_CAPACITY
    ensures InitCommands(c)[0] == SEND_COMMAND
    ensures InitCommands(c)[|InitCommands(c)| - 1] == DISPLAY_ON_COMMAND
  {
    assert InitCommands(c)[0] == InitByte(c, 0);
    assert InitCommands(c)[INIT_LENGTH - 1] == InitByte(c, INIT_LENGTH - 1);
  }

  // ---- Assumptions on the controller's values ----------------------------

  /** The opcodes chosen by each boolean setting differ from each other. */
  predicate DistinctChoices()
  {
    COM_OUTPUT_SCAN_DIRECTION_REMAPPED_COMMAND != COM_OUTPUT_SCAN_DIRECTION_NORMAL_COMMAND &&
    DISPLAY_INVERSE_COMMAND != DISPLAY_NORMAL_COMMAND &&
    ZOOM_IN_ENABLE != ZOOM_IN_DISABLE &&
    SEGMENT_RE_MAP_INVERSE_COMMAND != SEGMENT_RE_MAP_NORMAL_COMMAND &&
    CHARGE_PUMP_ENABLE != CHARGE_PUMP_DISABLE
  }

  /** The clock and pre-charge fields are nibbles. */
  predicate NibbleFields()
  {
    DISPLAY_CLOCK_DIVIDE_RATIO_MAX <= 0x0F &&
    DISPLAY_CLOCK_OSCILLATOR_FREQUENCY_MAX <= 0x0F &&
    PRE_CHARGE_PERIOD_PHASE_MAX <= 0x0F
  }

  /** The fade modes lie in the high nibble, above the time interval. */
  predicate FadeFieldsDisjoint()
  {
    FADE_OUT_BLINKING_TIME_INTERVAL_MAX <= 0x0F &&
    FADE_OUT_BLINKING_DISABLE & 0x0F == 0 && FADE_OUT_MODE & 0x0F == 0 && BLINKING_MODE & 0x0F == 0
  }

  /** The four COM pins bytes the two choices can produce differ from each other. */
  predicate ComPinsFieldsDisjoint()
  {
    var tt, tf, ft, ff := ComPinsValue(true, true), ComPinsValue(true, false),
                          ComPinsValue(false, true), ComPinsValue(false, false);
    tt != tf && tt != ft && tt != ff && tf != ft && tf != ff && ft != ff
  }

  /** Every field packed into a shared byte can be told apart from its neighbour. */
  predicate PackedFieldsDisjoint()
  {
    NibbleFields() && FadeFieldsDisjoint() && ComPinsFieldsDisjoint()
  }

  // ---- Decoding the packed bytes ------------------------------------------

  /** Two nibbles packed `lo | hi << 4` come back out of their byte. */
  lemma {:induction false} LowHighUnpack(lo: bv8, hi: bv8)
    requires lo <= 0x0F && hi <= 0x0F
    ensures (lo | (hi << 4)) & 0x0F == lo && (lo | (hi << 4)) >> 4 == hi
  {
  }

  /** Two nibbles packed `hi << 4 | lo` come back out of their byte. */
  lemma {:induction false} HighLowUnpack(hi: bv8, lo: bv8)
    requires hi <= 0x0F && lo <= 0x0F
    ensures ((hi << 4) | lo) >> 4 == hi && ((hi << 4) | lo) & 0x0F == lo
  {
  }

  /** A value in the high nibble or-ed with one in the low nibble comes back out of the byte. */
  lemma {:induction false} SplitNibbles(hi: bv8, lo: bv8)
    requires hi & 0x0F == 0 && lo <= 0x0F
    ensures (hi | lo) & 0xF0 == hi && (hi | lo) & 0x0F == lo
  {
  }

  /** The clock byte holds the divide ratio and the oscillator frequency. */
  lemma {:induction false} ClockByteDecodes(c: Config, d: Config)
    requires ClockInRange(c) && ClockInRange(d) && NibbleFields()
    requires ClockByte(c) == ClockByte(d)
    ensures c.divideRatio == d.divideRatio && c.oscillatorFrequency == d.oscillatorFrequency
  {
    LowHighUnpack(c.divideRatio, c.oscillatorFrequency);
    LowHighUnpack(d.divideRatio, d.oscillatorFrequency);
  }

  /** The pre-charge byte holds phase 1 and phase 2. */
  lemma {:induction false} PreChargeByteDecodes(c: Config, d: Config)
    requires PreChargeInRange(c) && PreChargeInRange(d) && NibbleFields()
    requires PreChargeByte(c) == PreChargeByte(d)
    ensures c.preChargePeriodPhase1 == d.preChargePeriodPhase1
    ensures c.preChargePeriodPhase2 == d.preChargePeriodPhase2
  {
    HighLowUnpack(c.preChargePeriodPhase1, c.preChargePeriodPhase2);
    HighLowUnpack(d.preChargePeriodPhase1, d.preChargePeriodPhase2);
  }

  /** The fade byte holds the mode and the time interval. */
  lemma {:induction false} FadeByteDecodes(c: Config, d: Config)
    requires FadeInRange(c) && FadeInRange(d) && FadeFieldsDisjoint()
    requires FadeByte(c) == FadeByte(d)
    ensures c.fadeOutBlinkingMode == d.fadeOutBlinkingMode && c.fadeOutTimeInterval == d.fadeOutTimeInterval
  {
    SplitNibbles(c.fadeOutBlinkingMode, c.fadeOutTimeInterval);
    SplitNibbles(d.fadeOutBlinkingMode, d.fadeOutTimeInterval);
  }

  /** The COM pins byte tells both boolean choices apart. */
  lemma {:induction false} ComPinsByteDecodes(c: Config, d: Config)
    requires ComPinsFieldsDisjoint()
    requires ComPinsByte(c) == ComPinsByte(d)
    ensures c.comAltPinConfig == d.comAltPinConfig
    ensures c.comDisableLeftRightRemap == d.comDisableLeftRightRemap
  {
    hide ComPinsValue;
  }

  /** Equal streams agree byte by byte. */
  lemma {:induction false} InitBytesAgree(c: Config, d: Config)
    requires InitCommands(c) == InitCommands(d)
    ensures forall k :: 0 <= k < INIT_LENGTH ==> InitByte(c, k) == InitByte(d, k)
  {
    forall k | 0 <= k < INIT_LENGTH
      ensures InitByte(c, k) == InitByte(d, k)
    {
      assert InitCommands(c)[k] == InitByte(c, k) && InitCommands(d)[k] == InitByte(d, k);
    }
  }

  /** The opcodes chosen by the boolean settings give those settings back. */
  lemma {:induction false} ChoicesAgree(c: Config, d: Config)
    requires DistinctChoices()
    requires forall k :: 0 <= k < INIT_LENGTH ==> InitByte(c, k) == InitByte(d, k)
    ensures c.comOutputScanDirectionRemapped == d.comOutputScanDirectionRemapped
    ensures c.inverse == d.inverse && c.zoom == d.zoom
    ensures c.segmentReMapInverse == d.segmentReMapInverse && c.chargePump == d.chargePump
  {
    assert InitByte(c, 1) == InitByte(d, 1) && InitByte(c, 6) == InitByte(d, 6);
    assert InitByte(c, 12) == InitByte(d, 12) && InitByte(c, 23) == InitByte(d, 23);
    assert InitByte(c, 25) == InitByte(d, 25);
  }

  /** The arguments sent as they are give their fields back. */
  lemma {:induction false} PlainArgumentsAgree(c: Config, d: Config)
    requires forall k :: 0 <= k < INIT_LENGTH ==> InitByte(c, k) == InitByte(d, k)
    ensures c.muxRatio == d.muxRatio && c.contrast == d.contrast
    ensures c.memoryAddressingMode == d.memoryAddressingMode && c.vcomhDeselectLevel == d.vcomhDeselectLevel
  {
    hide ClockByte, PreChargeByte, FadeByte, ComPinsByte;
    assert InitByte(c, 3) == InitByte(d, 3) && InitByte(c, 8) == InitByte(d, 8);
    assert InitByte(c, 16) == InitByte(d, 16) && InitByte(c, 20) == InitByte(d, 20);
  }

  /** The packed arguments give their fields back. */
  lemma {:induction false} PackedArgumentsAgree(c: Config, d: Config)
    requires PackedFieldsDisjoint() && ConfigValid(c) && ConfigValid(d)
    requires forall k :: 0 <= k < INIT_LENGTH ==> InitByte(c, k) == InitByte(d, k)
    ensures c.divideRatio == d.divideRatio && c.oscillatorFrequency == d.oscillatorFrequency
    ensures c.preChargePeriodPhase1 == d.preChargePeriodPhase1
    ensures c.preChargePeriodPhase2 == d.preChargePeriodPhase2
    ensures c.fadeOutBlinkingMode == d.fadeOutBlinkingMode && c.fadeOutTimeInterval == d.fadeOutTimeInterval
    ensures c.comAltPinConfig == d.comAltPinConfig
    ensures c.comDisableLeftRightRemap == d.comDisableLeftRightRemap
  {
    hide ClockByte, PreChargeByte, FadeByte, ComPinsByte, ComPinsValue;
    hide NibbleFields, FadeFieldsDisjoint, ComPinsFieldsDisjoint;
    hide MuxRatioInRange, ClockInRange, FadeInRange, PreChargeInRange, VcomhInRange;
    assert InitByte(c, 5) == InitByte(d, 5) && InitByte(c, 10) == InitByte(d, 10);
    assert InitByte(c, 18) == InitByte(d, 18) && InitByte(c, 22) == InitByte(d, 22);
    ClockByteDecodes(c, d);
    PreChargeByteDecodes(c, d);
    FadeByteDecodes(c, d);
    ComPinsByteDecodes(c, d);
  }

  /**
   * The initialisation stream determines the configuration it was built
   * from: two accepted configurations that produce the same bytes are the
   * same configuration, so no setting is lost on the way to the panel.
   */
  lemma {:induction false} InitCommandsInjective(c: Config, d: Config)
    requires DistinctChoices() && PackedFieldsDisjoint()
    requires ConfigValid(c) && ConfigValid(d)
    requires InitCommands(c) == InitCommands(d)
    ensures c == d
  {
    InitBytesAgree(c, d);
    hide InitCommands, InitByte;
    ChoicesAgree(c, d);
    PlainArgumentsAgree(c, d);
    PackedArgumentsAgree(c, d);
  }

  /**
   * The default configuration is accepted whenever the controller's ranges
   * are consistent: each range is non-empty, the phase defaults lie in the
   * phase range, and the fade interval range is non-empty.
   */
  lemma {:induction false} DefaultConfigValid()
    requires MUX_RATIO_MIN <= MUX_RATIO_MAX
    requires DISPLAY_CLOCK_DIVIDE_RATIO_MIN <= DISPLAY_CLOCK_DIVIDE_RATIO_MAX
    requires DISPLAY_CLOCK_OSCILLATOR_FREQUENCY_MIN <= DISPLAY_CLOCK_OSCILLATOR_FREQUENCY_MAX
    requires PRE_CHARGE_PERIOD_PHASE_MIN <= PRE_CHARGE_PERIOD_PHASE1_DEFAULT <= PRE_CHARGE_PERIOD_PHASE_MAX
    requires PRE_CHARGE_PERIOD_PHASE_MIN <= PRE_CHARGE_PERIOD_PHASE2_DEFAULT <= PRE_CHARGE_PERIOD_PHASE_MAX
    requires FADE_OUT_BLINKING_TIME_INTERVAL_MIN <= FADE_OUT_BLINKING_TIME_INTERVAL_MAX
    ensures ConfigValid(DefaultConfig())
  {
    var c := DefaultConfig();
    assert c.muxRatio == MUX_RATIO_MAX && c.vcomhDeselectLevel == VCOMH_DESELECT_LEVEL1;
    assert c.divideRatio == DISPLAY_CLOCK_DIVIDE_RATIO_MIN;
    assert c.oscillatorFrequency == DISPLAY_CLOCK_OSCILLATOR_FREQUENCY_MAX;
    assert c.preChargePeriodPhase1 == PRE_CHARGE_PERIOD_PHASE1_DEFAULT;
    assert c.preChargePeriodPhase2 == PRE_CHARGE_PERIOD_PHASE2_DEFAULT;
    assert c.fadeOutBlinkingMode == FADE_OUT_BLINKING_DISABLE;
    assert c.fadeOutTimeInterval == FADE_OUT_BLINKING_TIME_INTERVAL_MIN;
    hide DefaultConfig;
    DefaultMuxRatio(c);
    DefaultClock(c);
    DefaultFade(c);
    DefaultPreCharge(c);
    DefaultVcomh(c);
  }

  // The range checks one by one, for a configuration holding the default values.

  lemma DefaultMuxRatio(c: Config)
    requires c.muxRatio == MUX_RATIO_MAX && MUX_RATIO_MIN <= MUX_RATIO_MAX
    ensures MuxRatioInRange(c)
  {
  }

  lemma DefaultClock(c: Config)
    requires c.divideRatio == DISPLAY_CLOCK_DIVIDE_RATIO_MIN
    requires c.oscillatorFrequency == DISPLAY_CLOCK_OSCILLATOR_FREQUENCY_MAX
    requires DISPLAY_CLOCK_DIVIDE_RATIO_MIN <= DISPLAY_CLOCK_DIVIDE_RATIO_MAX
    requires DISPLAY_CLOCK_OSCILLATOR_FREQUENCY_MIN <= DISPLAY_CLOCK_OSCILLATOR_FREQUENCY_MAX
    ensures ClockInRange(c)
  {
  }

  lemma DefaultFade(c: Config)
    requires c.fadeOutBlinkingMode == FADE_OUT_BLINKING_DISABLE
    requires c.fadeOutTimeInterval == FADE_OUT_BLINKING_TIME_INTERVAL_MIN
    requires FADE_OUT_BLINKING_TIME_INTERVAL_MIN <= FADE_OUT_BLINKING_TIME_INTERVAL_MAX
    ensures FadeInRange(c)
  {
  }

  lemma DefaultPreCharge(c: Config)
    requires c.preChargePeriodPhase1 == PRE_CHARGE_PERIOD_PHASE1_DEFAULT
    requires c.preChargePeriodPhase2 == PRE_CHARGE_PERIOD_PHASE2_DEFAULT
    requires PRE_CHARGE_PERIOD_PHASE_MIN <= PRE_CHARGE_PERIOD_PHASE1_DEFAULT <= PRE_CHARGE_PERIOD_PHASE_MAX
    requires PRE_CHARGE_PERIOD_PHASE_MIN <= PRE_CHARGE_PERIOD_PHASE2_DEFAULT <= PRE_CHARGE_PERIOD_PHASE_MAX
    ensures PreChargeInRange(c)
  {
  }

  lemma DefaultVcomh(c: Config)
    requires c.vcomhDeselectLevel == VCOMH_DESELECT_LEVEL1
    ensures VcomhInRange(c)
  {
  }
}
