/**
 * The controller constants of the driver. The header that defines their
 * literal values is not part of this model, so every opcode, marker and
 * range bound is an abstract constant. The geometry is pinned down: 128
 * columns addressed 0..127 and pages 0..7, as the driver's range checks
 * document them, and a height of 32 or 64 rows, which is this model's own
 * assumption about the panels it drives.
 */
module Ssd1306Def {

  /** Unsigned C integer widths, as unbounded naturals with their range. */
  type U8 = n: nat | n < 0x100
  type U16 = n: nat | n < 0x1_0000
  type U32 = n: nat | n < 0x1_0000_0000

  /** A `uint8_t` sum truncated back into a `uint8_t` (C wrap-around). */
  function Wrap8(n: nat): (r: U8)
    ensures r < 0x100 && (r - n) % 0x100 == 0
  {
    n % 0x100
  }

  // ---- Geometry -----------------------------------------------------------

  type PanelHeight = h: nat | h == 32 || h == 64 witness 64

  const WIDTH: nat := 128
  const HEIGHT: PanelHeight
  /** Number of 8-row pages. */
  const PAGES: nat := HEIGHT / 8
  /** Pixel bytes of the framebuffer (one byte per column per page). */
  const DISPLAY_BYTES: nat := WIDTH * PAGES
  /** The driver's buffer: one data-control marker byte, then the pixel bytes. */
  const FRAME_BYTES: nat := DISPLAY_BYTES + 1

  const PAGE_START_ADDRESS: bv8 := 0
  const PAGE_END_ADDRESS: bv8 := 7
  const COLUMN_START_ADDRESS: bv8 := 0
  const COLUMN_END_ADDRESS: bv8 := 127

  // ---- Control bytes ------------------------------------------------------

  const SEND_COMMAND: bv8
  const SEND_DATA: bv8

  // ---- Fundamental commands -----------------------------------------------

  const CONTRAST_COMMAND: bv8
  const CONTRAST_DEFAULT: bv8
  const DISPLAY_NORMAL_COMMAND: bv8
  const DISPLAY_INVERSE_COMMAND: bv8
  const DISPLAY_ON_COMMAND: bv8
  const DISPLAY_OFF_COMMAND: bv8

  // ---- Addressing commands ------------------------------------------------

  const MEMORY_ADDRESSING_MODE_COMMAND: bv8
  const MEMORY_ADDRESSING_MODE_HORIZONTAL: bv8
  const COLUMN_START_END_ADDRESS_COMMAND: bv8
  const PAGE_START_END_ADDRESS_COMMAND: bv8

  // ---- Hardware configuration commands ------------------------------------

  const SEGMENT_RE_MAP_NORMAL_COMMAND: bv8
  const SEGMENT_RE_MAP_INVERSE_COMMAND: bv8
  const MUX_RATIO_COMMAND: bv8
  const MUX_RATIO_MIN: bv8
  const MUX_RATIO_MAX: bv8
  const COM_OUTPUT_SCAN_DIRECTION_NORMAL_COMMAND: bv8
  const COM_OUTPUT_SCAN_DIRECTION_REMAPPED_COMMAND: bv8
  const DISPLAY_OFFSET_COMMAND: bv8
  const DISPLAY_OFFSET_MIN: bv8
  const COM_PINS_HARDWARE_CONFIG_COMMAND: bv8
  const COM_PINS_HARDWARE_CONFIG_SEQUENTIAL_COM_PIN: bv8
  const COM_PINS_HARDWARE_CONFIG_ALTERNATIVE_COM_PIN: bv8
  const COM_PINS_HARDWARE_CONFIG_DISABLE_REMAP: bv8
  const COM_PINS_HARDWARE_CONFIG_ENABLE_REMAP: bv8

  // ---- Timing and driving scheme commands ---------------------------------

  const DISPLAY_CLOCK_DIVIDE_COMMAND: bv8
  const DISPLAY_CLOCK_DIVIDE_RATIO_MIN: bv8
  const DISPLAY_CLOCK_DIVIDE_RATIO_MAX: bv8
  const DISPLAY_CLOCK_OSCILLATOR_FREQUENCY_MIN: bv8
  const DISPLAY_CLOCK_OSCILLATOR_FREQUENCY_MAX: bv8
  const PRE_CHARGE_PERIOD_COMMAND: bv8
  const PRE_CHARGE_PERIOD_PHASE_MIN: bv8
  const PRE_CHARGE_PERIOD_PHASE_MAX: bv8
  const PRE_CHARGE_PERIOD_PHASE1_DEFAULT: bv8
  const PRE_CHARGE_PERIOD_PHASE2_DEFAULT: bv8
  const VCOMH_DESELECT_LEVEL_COMMAND: bv8
  const VCOMH_DESELECT_LEVEL0: bv8
  const VCOMH_DESELECT_LEVEL1: bv8
  const VCOMH_DESELECT_LEVEL2: bv8

  // ---- Advanced graphic commands ------------------------------------------

  const FADE_OUT_BLINKING_COMMAND: bv8
  const FADE_OUT_BLINKING_DISABLE: bv8
  const FADE_OUT_MODE: bv8
  const BLINKING_MODE: bv8
  const FADE_OUT_BLINKING_TIME_INTERVAL_MIN: bv8
  const FADE_OUT_BLINKING_TIME_INTERVAL_MAX: bv8
  const ZOOM_IN_COMMAND: bv8
  const ZOOM_IN_ENABLE: bv8
  const ZOOM_IN_DISABLE: bv8

  // ---- Charge pump command ------------------------------------------------

  const CHARGE_PUMP_COMMAND: bv8
  const CHARGE_PUMP_ENABLE: bv8
  const CHARGE_PUMP_DISABLE: bv8

  /** The geometry relations the rest of the driver relies on. */
  lemma GeometryFacts()
    ensures HEIGHT % 8 == 0 && PAGES * 8 == HEIGHT && 1 <= PAGES <= 8
    ensures DISPLAY_BYTES == WIDTH * HEIGHT / 8
  {
  }
}
