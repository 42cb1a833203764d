/**
 * The driver object: the I2C bus and device address it talks to, its
 * framebuffer (a data-control marker byte followed by the pixel bytes)
 * and the current font. Every operation reports success as a boolean;
 * commands go to the bus immediately, drawing only changes the buffer,
 * and showing sends the buffer.
 */
module Device {
  import opened Wrappers
  import opened Ssd1306Def
  import opened Framebuffer
  import opened BlitSteps
  import opened Blitter
  import opened Utf8
  import opened Text
  import opened Commands
  import opened I2c

  /** A bitmap as callers pass it: its size and its data, which may be missing. */
  datatype Bitmap = Bitmap(width: U8, height: U8, data: Option<seq<bv8>>)

  // ---- Frames sent to the controller --------------------------------------

  /** A one-byte command. */
  function CommandFrame(command: bv8): seq<bv8>
  {
    [SEND_COMMAND, command]
  }

  /** A command with one argument byte. */
  function CommandValueFrame(command: bv8, value: bv8): seq<bv8>
  {
    [SEND_COMMAND, command, value]
  }

  /** A command with two argument bytes. */
  function Command2ValuesFrame(command: bv8, value1: bv8, value2: bv8): seq<bv8>
  {
    [SEND_COMMAND, command, value1, value2]
  }

  predicate IsValidPage(page: bv8)
  {
    PAGE_START_ADDRESS <= page <= PAGE_END_ADDRESS
  }

  predicate IsValidColumn(column: bv8)
  {
    COLUMN_START_ADDRESS <= column <= COLUMN_END_ADDRESS
  }

  /** The drawing area is accepted: both pages and both columns are addresses of the controller. */
  predicate AreaValid(startPage: bv8, endPage: bv8, startColumn: bv8, endColumn: bv8)
  {
    IsValidPage(startPage) && IsValidPage(endPage) && IsValidColumn(startColumn) && IsValidColumn(endColumn)
  }

  /** Setting the drawing area: the page range, then the column range. */
  function AreaFrames(startPage: bv8, endPage: bv8, startColumn: bv8, endColumn: bv8): seq<seq<bv8>>
  {
    [Command2ValuesFrame(PAGE_START_END_ADDRESS_COMMAND, startPage, endPage),
     Command2ValuesFrame(COLUMN_START_END_ADDRESS_COMMAND, startColumn, endColumn)]
  }

  /** Showing the framebuffer: the whole screen as drawing area, then the buffer itself. */
  function ShowFrames(frame: seq<bv8>): seq<seq<bv8>>
  {
    AreaFrames(PAGE_START_ADDRESS, PAGE_END_ADDRESS, COLUMN_START_ADDRESS, COLUMN_END_ADDRESS) + [frame]
  }

  /** Pages and columns are accepted exactly up to 7 and 127. */
  lemma AreaValidRange(startPage: bv8, endPage: bv8, startColumn: bv8, endColumn: bv8)
    ensures AreaValid(startPage, endPage, startColumn, endColumn) <==>
      startPage < 8 && endPage < 8 && startColumn < 128 && endColumn < 128
  {
  }

  /** Showing always asks for the whole screen, which is a valid area. */
  lemma ShowAreaValid()
    ensures AreaValid(PAGE_START_ADDRESS, PAGE_END_ADDRESS, COLUMN_START_ADDRESS, COLUMN_END_ADDRESS)
  {
  }

  /**
   * Stores `value` at `commands[i]` and returns the next index. When the
   * first `i` bytes are those of the initialisation stream for `config`
   * and `value` is its next byte, the first `i + 1` bytes are.
   */
  method PutCommand(commands: array<bv8>, i: nat, value: bv8, ghost config: Config, ghost k: nat)
    returns (next: nat)
    requires i == k && i < commands.Length && i < INIT_LENGTH
    requires IsInitPrefix(config, commands[..i]) && value == InitByte(config, k)
    modifies commands
    ensures next == i + 1 && IsInitPrefix(config, commands[..next])
  {
    commands[i] := value;
    next := i + 1;
    assert commands[..next] == old(commands[..i]) + [value];
    InitPrefixStep(config, old(commands[..i]), i, value);
  }

  /**
   * The initialisation stream assembled in the driver's local command
   * array: each configuration group is checked just before its bytes are
   * stored, and a group out of range stops the assembly.
   */
  method InitCommandBuffer(config: Config) returns (valid: bool, commands: array<bv8>, length: nat)
    ensures fresh(commands) && commands.Length == COMMAND_CAPACITY
    ensures valid == ConfigValid(config)
    ensures valid ==> length == INIT_LENGTH && commands[..length] == InitCommands(config)
  {
    hide ClockByte, FadeByte, PreChargeByte, InitCommands;
    hide MuxRatioInRange, ClockInRange, FadeInRange, PreChargeInRange, VcomhInRange;
    commands := new bv8[COMMAND_CAPACITY];
    var i: nat := 0;
    assert IsInitPrefix(config, commands[..0]);
    InitBytesScan(config);
    InitBytesClock(config);
    InitBytesFade(config);
    InitBytesPreCharge(config);
    InitBytesPins(config);
    hide InitByte, IsInitPrefix, ScanByte, InverseByte, ZoomByte, SegmentByte, ChargePumpByte, ComPinsByte;
    i := PutCommand(commands, i, SEND_COMMAND, config, 0);
    i := PutCommand(commands, i, ScanByte(config), config, 1);
    if !MuxRatioInRange(config) {
      return false, commands, i;
    }
    i := PutCommand(commands, i, MUX_RATIO_COMMAND, config, 2);
    i := PutCommand(commands, i, config.muxRatio, config, 3);
    if !ClockInRange(config) {
      return false, commands, i;
    }
    i := PutCommand(commands, i, DISPLAY_CLOCK_DIVIDE_COMMAND, config, 4);
    i := PutCommand(commands, i, ClockByte(config), config, 5);
    i := PutCommand(commands, i, InverseByte(config), config, 6);
    i := PutCommand(commands, i, CONTRAST_COMMAND, config, 7);
    i := PutCommand(commands, i, config.contrast, config, 8);
    if !FadeInRange(config) {
      return false, commands, i;
    }
    i := PutCommand(commands, i, FADE_OUT_BLINKING_COMMAND, config, 9);
    i := PutCommand(commands, i, FadeByte(config), config, 10);
    i := PutCommand(commands, i, ZOOM_IN_COMMAND, config, 11);
    i := PutCommand(commands, i, ZoomByte(config), config, 12);
    i := PutCommand(commands, i, DISPLAY_OFFSET_COMMAND, config, 13);
    i := PutCommand(commands, i, DISPLAY_OFFSET_MIN, config, 14);
    i := PutCommand(commands, i, MEMORY_ADDRESSING_MODE_COMMAND, config, 15);
    i := PutCommand(commands, i, config.memoryAddressingMode, config, 16);
    if !PreChargeInRange(config) {
      return false, commands, i;
    }
    i := PutCommand(commands, i, PRE_CHARGE_PERIOD_COMMAND, config, 17);
    i := PutCommand(commands, i, PreChargeByte(config), config, 18);
    if !VcomhInRange(config) {
      return false, commands, i;
    }
    i := PutCommand(commands, i, VCOMH_DESELECT_LEVEL_COMMAND, config, 19);
    i := PutCommand(commands, i, config.vcomhDeselectLevel, config, 20);
    i := PutCommand(commands, i, COM_PINS_HARDWARE_CONFIG_COMMAND, config, 21);
    i := PutCommand(commands, i, ComPinsByte(config), config, 22);
    i := PutCommand(commands, i, SegmentByte(config), config, 23);
    i := PutCommand(commands, i, CHARGE_PUMP_COMMAND, config, 24);
    i := PutCommand(commands, i, ChargePumpByte(config), config, 25);
    i := PutCommand(commands, i, DISPLAY_ON_COMMAND, config, 26);

    InitPrefixDone(config, commands[..i]);
    valid, length := true, i;
  }

  /** The driver state. */
  class Ssd1306 {
    const bus: Bus
    const address: bv8
    const buffer: array<bv8>
    var font: Option<Font>

    /** The buffer has the driver's size and a selected font is well formed. */
    ghost predicate Valid()
      reads this
    {
      buffer.Length == FRAME_BYTES && (font.Some? ==> font.value.WellFormed())
    }

    /** A driver for the device at `address` on `bus`, with a zeroed buffer and no font. */
    constructor (bus: Bus, address: bv8)
      ensures Valid() && fresh(buffer)
      ensures this.bus == bus && this.address == address && font == None
      ensures buffer[..] == seq(FRAME_BYTES, _ => 0)
    {
      this.bus := bus;
      this.address := address;
      buffer := new bv8[FRAME_BYTES](_ => 0);
      font := None;
    }

    /** One blocking write of `frame`; succeeds when the transport reports no error. */
    method Write(frame: seq<bv8>) returns (ok: bool)
      modifies bus
      ensures bus.log == old(bus.log) + [Transfer(address, frame)]
      ensures ok == Succeeded(bus.reply(|old(bus.log)|))
    {
      var result := bus.WriteBlocking(address, frame);
      ok := Succeeded(result);
    }

    method SendCommand(command: bv8) returns (ok: bool)
      modifies bus
      ensures bus.log == old(bus.log) + [Transfer(address, CommandFrame(command))]
      ensures ok == Succeeded(bus.reply(|old(bus.log)|))
    {
      ok := Write([SEND_COMMAND, command]);
    }

    method SendCommandValue(command: bv8, value: bv8) returns (ok: bool)
      modifies bus
      ensures bus.log == old(bus.log) + [Transfer(address, CommandValueFrame(command, value))]
      ensures ok == Succeeded(bus.reply(|old(bus.log)|))
    {
      ok := Write([SEND_COMMAND, command, value]);
    }

    method SendCommand2Values(command: bv8, value1: bv8, value2: bv8) returns (ok: bool)
      modifies bus
      ensures bus.log == old(bus.log) + [Transfer(address, Command2ValuesFrame(command, value1, value2))]
      ensures ok == Succeeded(bus.reply(|old(bus.log)|))
    {
      ok := Write([SEND_COMMAND, command, value1, value2]);
    }

    method SetContrast(contrast: bv8) returns (ok: bool)
      modifies bus
      ensures bus.log == old(bus.log) + [Transfer(address, CommandValueFrame(CONTRAST_COMMAND, contrast))]
      ensures ok == Succeeded(bus.reply(|old(bus.log)|))
    {
      ok := SendCommandValue(CONTRAST_COMMAND, contrast);
    }

    method SetInverse(enabled: bool) returns (ok: bool)
      modifies bus
      ensures bus.log == old(bus.log) +
        [Transfer(address, CommandFrame(if enabled then DISPLAY_INVERSE_COMMAND else DISPLAY_NORMAL_COMMAND))]
      ensures ok == Succeeded(bus.reply(|old(bus.log)|))
    {
      ok := SendCommand(if enabled then DISPLAY_INVERSE_COMMAND else DISPLAY_NORMAL_COMMAND);
    }

    method DisplayOn() returns (ok: bool)
      modifies bus
      ensures bus.log == old(bus.log) + [Transfer(address, CommandFrame(DISPLAY_ON_COMMAND))]
      ensures ok == Succeeded(bus.reply(|old(bus.log)|))
    {
      ok := SendCommand(DISPLAY_ON_COMMAND);
    }

    method DisplayOff() returns (ok: bool)
      modifies bus
      ensures bus.log == old(bus.log) + [Transfer(address, CommandFrame(DISPLAY_OFF_COMMAND))]
      ensures ok == Succeeded(bus.reply(|old(bus.log)|))
    {
      ok := SendCommand(DISPLAY_OFF_COMMAND);
    }

    /**
     * Sets the drawing area. An address out of range fails without any
     * write; otherwise the page range is sent, and the column range only
     * if that succeeded.
     */
    method SetArea(startPage: bv8, endPage: bv8, startColumn: bv8, endColumn: bv8) returns (ok: bool)
      modifies bus
      ensures !AreaValid(startPage, endPage, startColumn, endColumn) ==> !ok && bus.log == old(bus.log)
      ensures AreaValid(startPage, endPage, startColumn, endColumn) ==>
        var r := Chain(address, AreaFrames(startPage, endPage, startColumn, endColumn), bus.reply, |old(bus.log)|);
        ok == r.0 && bus.log == old(bus.log) + r.1
    {
      if !IsValidPage(startPage) || !IsValidPage(endPage) || !IsValidColumn(startColumn) || !IsValidColumn(endColumn) {
        return false;
      }
      ghost var sent := |bus.log|;
      ghost var pages := Command2ValuesFrame(PAGE_START_END_ADDRESS_COMMAND, startPage, endPage);
      ghost var columns := Command2ValuesFrame(COLUMN_START_END_ADDRESS_COMMAND, startColumn, endColumn);
      assert AreaFrames(startPage, endPage, startColumn, endColumn) == [pages] + [columns];
      ChainOne(address, pages, bus.reply, sent);
      ChainSnoc(address, [pages], columns, bus.reply, sent);
      hide Chain;
      ok := SendCommand2Values(PAGE_START_END_ADDRESS_COMMAND, startPage, endPage);
      if ok {
        ok := SendCommand2Values(COLUMN_START_END_ADDRESS_COMMAND, startColumn, endColumn);
      }
    }

    /** Zeroes every pixel byte; the marker byte is kept. */
    method ClearDisplay() returns (ok: bool)
      requires Valid()
      modifies buffer
      ensures ok && buffer[..] == Cleared(old(buffer[..]))
    {
      ClearedBytes(buffer[..]);
      hide Cleared;
      forall k | 1 <= k < buffer.Length {
        buffer[k] := 0;
      }
      assert buffer[..] == [old(buffer[..])[0]] + seq(DISPLAY_BYTES, _ => 0);
      ok := true;
    }

    /**
     * Initialises the display: the buffer becomes a blank data frame, then
     * the configuration is checked field group by field group while the
     * command stream is assembled, and the stream is sent in one write. A
     * rejected configuration fails before anything is sent.
     */
    method Init(config: Config) returns (ok: bool)
      requires Valid()
      modifies buffer, bus
      ensures buffer[..] == Cleared(old(buffer[..])[0 := SEND_DATA])
      ensures !ConfigValid(config) ==> !ok && bus.log == old(bus.log)
      ensures ConfigValid(config) ==>
        bus.log == old(bus.log) + [Transfer(address, InitCommands(config))] &&
        ok == Succeeded(bus.reply(|old(bus.log)|))
    {
      ClearedBytes(old(buffer[..])[0 := SEND_DATA]);
      hide Cleared, InitCommands;
      buffer[0] := SEND_DATA;
      forall k | 1 <= k < buffer.Length {
        buffer[k] := 0;
      }
      assert buffer[..] == [SEND_DATA] + seq(DISPLAY_BYTES, _ => 0);

      var valid, commands, length := InitCommandBuffer(config);
      if !valid {
        return false;
      }
      ok := Write(commands[..length]);
    }

    /**
     * Draws `height` rows of `width` pixels of `bitmap`, read from byte
     * `offset`, with their top-left corner at (x, y). Pixels that land
     * off the screen are skipped. An empty bitmap fails and draws nothing.
     */
    method DrawBitmapInternal(bitmap: seq<bv8>, offset: U32, width: U8, height: U8, x: U8, y: U8) returns (ok: bool)
      requires Valid() && Blit(bitmap, offset, width, height, x, y).Fits()
      modifies buffer
      ensures ok == (width != 0 && height != 0)
      ensures buffer[..] == if ok then Blitted(old(buffer[..]), Blit(bitmap, offset, width, height, x, y))
                            else old(buffer[..])
    {
      if width == 0 || height == 0 {
        return false;
      }
      ghost var a := Blit(bitmap, offset, width, height, x, y);
      ghost var f := buffer[..];
      BlittedRows(f, a);
      hide Blitted, DrawRows, DrawRow;
      var bytesPerRow: nat := (width + 7) / 8;
      var yb: nat := 0;
      DrawStart(f, a, 0);
      while yb < height
        invariant yb <= height
        invariant buffer[..] == DrawRows(f, a, yb)
      {
        DrawBitmapRow(bitmap, offset, offset + yb * bytesPerRow, width, height, x, y, yb);
        DrawRowsNext(f, a, yb);
        yb := yb + 1;
      }
      ok := true;
    }

    /**
     * The inner loop of `DrawBitmapInternal`: the pixels of source row `yb`
     * from left to right, each on-screen one copied into its framebuffer
     * bit, the others skipped.
     */
    method DrawBitmapRow(bitmap: seq<bv8>, offset: U32, rowStart: nat, width: U8, height: U8, x: U8, y: U8, yb: nat)
      requires Valid() && Blit(bitmap, offset, width, height, x, y).Fits()
      requires yb < height && rowStart == offset + yb * ((width + 7) / 8)
      modifies buffer
      ensures buffer[..] == DrawRow(old(buffer[..]), Blit(bitmap, offset, width, height, x, y), yb, width)
    {
      ghost var a := Blit(bitmap, offset, width, height, x, y);
      ghost var rows := buffer[..];
      assert buffer.Length == FRAME_BYTES;
      hide Valid, DrawRow, PlotSource;
      var xb: nat := 0;
      DrawStart(rows, a, yb);
      while xb < width
        invariant xb <= width
        invariant buffer[..] == DrawRow(rows, a, yb, xb)
      {
        DrawRowNext(rows, a, yb, xb);
        DrawBitmapPixel(bitmap, offset, rowStart, width, height, x, y, xb, yb);
        xb := xb + 1;
      }
    }

    /** Copies source pixel (xb, yb) to the screen when it lands on it; otherwise does nothing. */
    method DrawBitmapPixel(bitmap: seq<bv8>, offset: U32, rowStart: nat, width: U8, height: U8, x: U8, y: U8,
                           xb: nat, yb: nat)
      requires Valid() && Blit(bitmap, offset, width, height, x, y).Fits()
      requires xb < width && yb < height && rowStart == offset + yb * ((width + 7) / 8)
      modifies buffer
      ensures buffer[..] == PlotSource(old(buffer[..]), Blit(bitmap, offset, width, height, x, y), xb, yb)
    {
      ghost var g := buffer[..];
      assert buffer.Length == FRAME_BYTES;
      hide Valid, PlotSource, ShiftBit, ShiftSetBit;
      var vx: nat := x + xb;
      var vy: nat := y + yb;
      if vx < WIDTH && vy < HEIGHT {
        RowStartInBounds(bitmap, offset, width, height, x, y, xb, yb, rowStart);
        var src := bitmap[rowStart + xb / 8];
        var on := ShiftBit(src, xb % 8);
        var bufferIndex: nat := (vy / 8) * WIDTH + vx;
        var bit: nat := vy % 8;
        PlotSourceBytes(g, bitmap, offset, width, height, x, y, xb, yb, rowStart, bufferIndex, bit, on);
        buffer[bufferIndex + 1] := ShiftSetBit(buffer[bufferIndex + 1], bit, on);
        assert buffer[..] == g[bufferIndex + 1 := ShiftSetBit(g[bufferIndex + 1], bit, on)];
      } else {
        PlotSourceSkipped(g, Blit(bitmap, offset, width, height, x, y), xb, yb);
      }
    }

    /** Draws a whole bitmap with its top-left corner at (x, y); a missing bitmap or missing data fails. */
    method DrawBitmap(bitmap: Option<Bitmap>, x: U8, y: U8) returns (ok: bool)
      requires Valid()
      requires bitmap.Some? && bitmap.value.data.Some? ==>
        Blit(bitmap.value.data.value, 0, bitmap.value.width, bitmap.value.height, x, y).Fits()
      modifies buffer
      ensures bitmap.None? || bitmap.value.data.None? ==> !ok && buffer[..] == old(buffer[..])
      ensures bitmap.Some? && bitmap.value.data.Some? ==>
        var a := Blit(bitmap.value.data.value, 0, bitmap.value.width, bitmap.value.height, x, y);
        ok == (a.width != 0 && a.height != 0) &&
        buffer[..] == if ok then Blitted(old(buffer[..]), a) else old(buffer[..])
    {
      if bitmap.None? || bitmap.value.data.None? {
        return false;
      }
      ok := DrawBitmapInternal(bitmap.value.data.value, 0, bitmap.value.width, bitmap.value.height, x, y);
    }

    /** Selects the font used by `Print`. */
    method SetFont(font: Option<Font>)
      requires font.Some? ==> font.value.WellFormed()
      requires Valid()
      modifies this
      ensures Valid() && this.font == font
    {
      this.font := font;
    }

    /**
     * Prints `text` along the line whose top row is `y`, starting at column
     * `x`, with the current font. Without a font or without text it fails
     * and draws nothing; otherwise the outcome is `Render`'s.
     */
    method Print(text: Option<seq<bv8>>, x: U8, y: U8) returns (ok: bool)
      requires Valid()
      modifies buffer
      ensures font.None? || text.None? ==> !ok && buffer[..] == old(buffer[..])
      ensures font.Some? && text.Some? ==> (ok, buffer[..]) == Render(old(buffer[..]), font.value, text.value, 0, x, y)
    {
      if font.None? || text.None? {
        return false;
      }
      var fnt := font.value;
      var t := text.value;
      ghost var f0 := buffer[..];
      hide Render, PrintChar, Blitted;
      var cx: U8 := x;
      var p: nat := 0;
      while ByteAt(t, p) != 0
        invariant p <= |t|
        invariant IsFrame(buffer[..])
        invariant Render(buffer[..], fnt, t, p, cx, y) == Render(f0, fnt, t, 0, x, y)
        decreases |t| - p
      {
        if cx >= WIDTH {
          RenderDone(buffer[..], fnt, t, p, cx, y);
          break;
        }
        var step := Decode(t, p);
        if step.Stop? {
          RenderDone(buffer[..], fnt, t, p, cx, y);
          break;
        }
        ghost var fb := buffer[..];
        ghost var d := PrintChar(fb, fnt, step.cp, cx, y);
        RenderChar(fb, fnt, t, p, cx, y);
        p := p + step.advance;
        var cp := step.cp;
        if cp == SPACE {
          PrintCharSpace(fb, fnt, cx, y);
          cx := Wrap8(cx + fnt.wordSpacing);
          continue;
        }
        var drawn, width := DrawCodepoint(fnt, cp, cx, y);
        if !drawn {
          return false;
        }
        cx := Wrap8(cx + width + fnt.letterSpacing);
        assert d == Drawn(true, buffer[..], cx);
      }
      RenderDone(buffer[..], fnt, t, p, cx, y);
      ok := true;
    }

    /**
     * The inner loop of `Print`: the subsets of `fnt` are searched in order
     * for the first one whose range holds `cp`; its glyph, if it has one,
     * is drawn at cursor `cx`. Returns whether drawing succeeded and the
     * width the cursor then advances by before the letter spacing.
     */
    method DrawCodepoint(fnt: Font, cp: nat, cx: U8, y: U8) returns (ok: bool, width: U8)
      requires Valid() && fnt.WellFormed() && cp != SPACE
      modifies buffer
      ensures var d := PrintChar(old(buffer[..]), fnt, cp, cx, y);
        ok == d.ok && (ok ==> buffer[..] == d.frame && Wrap8(cx + width + fnt.letterSpacing) == d.cursor)
      ensures !ok ==> buffer[..] == old(buffer[..])
    {
      ghost var fb := buffer[..];
      assert IsFrame(fb);
      hide PrintChar, DrawGlyph, Blitted, Valid, Font.WellFormed;
      width := fnt.width;
      var i := 0;
      while i < |fnt.subsets|
        invariant i <= |fnt.subsets|
        invariant forall k :: 0 <= k < i ==> !fnt.subsets[k].Contains(cp)
        invariant width == fnt.width && buffer[..] == fb
      {
        var subset := fnt.subsets[i];
        if subset.start <= cp <= subset.end {
          PrintCharFound(fb, fnt, cp, cx, y, i);
          var charIndex := cp - subset.start;
          if charIndex < subset.symbolsCount {
            DrawGlyphFields(fb, fnt, subset, charIndex, cx, y);
            var offset := subset.offsets[charIndex];
            if subset.widths.Some? {
              width := subset.widths.value[charIndex];
            }
            assert width == fnt.GlyphWidth(subset, charIndex);
            ghost var blit := fnt.GlyphBlit(subset, charIndex, cx, y);
            assert blit == Blit(subset.symbols, offset, width, fnt.height, cx, y);
            ok := DrawBitmapInternal(subset.symbols, offset, width, fnt.height, cx, y);
            if !ok {
              return;
            }
          }
          return true, width;
        }
        i := i + 1;
      }
      PrintCharNotFound(fb, fnt, cp, cx, y);
      ok := true;
    }

    /** Sends the whole framebuffer: the full-screen area first, then the buffer if that succeeded. */
    method Show() returns (ok: bool)
      requires Valid()
      modifies bus
      ensures var r := Chain(address, ShowFrames(buffer[..]), bus.reply, |old(bus.log)|);
        ok == r.0 && bus.log == old(bus.log) + r.1
    {
      ghost var sent := |bus.log|;
      ok := SetArea(PAGE_START_ADDRESS, PAGE_END_ADDRESS, COLUMN_START_ADDRESS, COLUMN_END_ADDRESS);
      ChainSnoc(address, AreaFrames(PAGE_START_ADDRESS, PAGE_END_ADDRESS, COLUMN_START_ADDRESS, COLUMN_END_ADDRESS),
        buffer[..], bus.reply, sent);
      if ok {
        ok := Write(buffer[..]);
      }
    }
  }
}
