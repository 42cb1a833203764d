# SSD1306 OLED driver, modelled in Dafny

This project models `src/ssd1306.c`, a Raspberry Pi Pico driver for the
SSD1306 OLED controller, and proves what it does.

The driver object holds four things:

- an I2C bus;
- a 7-bit device address;
- a framebuffer: one data-control marker byte, then the pixel bytes in the
  controller's page-major layout (pixel (x, y) is bit y % 8 of byte
  1 + (y / 8) * 128 + x);
- the current font.

The modules follow the parts of the driver:

- `Ssd1306Def` holds the integer widths, the panel geometry (128 columns;
  32 or 64 rows) and the controller's constants.
- `Framebuffer` holds the buffer layout, bit reads and writes, pixels, and
  clearing.
- `BlitSteps` and `Blitter` hold the bitmap blitter. `BlitSteps` is its walk
  over the source rows and pixels, written as functions. `Blitter` proves
  that the walk overwrites exactly the on-screen pixels under the bitmap
  with the source pixels.
- `Utf8` is the text printer's decoding step: one character from a
  NUL-terminated byte string, with the driver's lopsided error recovery.
- `Text` holds fonts, the first-match subset lookup, and one character
  printed (`PrintChar`). It also holds `Render`, the whole printing of a
  string as a recursive function. The cursor is a byte and wraps mod 256.
- `Commands` holds the configuration, its default value, the range checks
  of initialisation, and the 27-byte initialisation stream. It also proves
  that the stream determines the configuration it was built from.
- `I2c` is the transport: a `Bus` class whose log records every write, plus
  `Chain`, the semantics of writes joined by a short-circuit "and".
- `Device` is the driver object, the class `Ssd1306` with the driver's
  public and static functions as methods.

Each method is proved against a specification function:

- `DrawBitmapInternal` against `Blitted`;
- `Print` against `Render`;
- `Init` against `InitCommands` and `Cleared`;
- `SetArea` and `Show` against `Chain`.

Properties of those functions are proved as separate lemmas.

Nested loops are split into one method per loop level:

- `DrawBitmapRow` is the blitter's inner `for`.
- `DrawBitmapPixel` is its body.
- `DrawCodepoint` is `print`'s subset search.
- `InitCommandBuffer` and `PutCommand` are the assembly of `init`'s command
  array with its running index `i++`.

The model follows these details of the code as written:

- `init` takes the multiplex ratio and both COM pin choices from the
  configuration (src/ssd1306.c:159, 206-209).
- Its stream starts with the scan direction and ends with display on
  (src/ssd1306.c:155-216).
- `set_area` checks each page and column against its range, but not that
  start is at most end (src/ssd1306.c:85-90).
- `show` sends the full-screen area and then the whole buffer, marker
  byte included, in one write (src/ssd1306.c:361-364).

Nothing in the model reads a clock or does I/O. The transport's answer to
the n-th write is a parameter of the bus (`Bus.reply`). A write succeeds
when that answer is non-negative, as `i2c_check` decides.

## Model

| member | source | states |
|---|---|---|
| Ssd1306Def.Wrap8 | src/ssd1306.c:355 | a `uint8_t` sum is truncated to a byte congruent to it mod 256 |
| Framebuffer.ShiftMask | src/ssd1306.c:248 | `1 << b` on a byte is the single-bit mask of bit b |
| Framebuffer.ShiftBit | src/ssd1306.c:242 | the driver's read `(v >> b) & 1 == 1` of bit b; `Framebuffer.ShiftRead` proves it is the bit |
| Framebuffer.ShiftSetBit | src/ssd1306.c:247-250 | the driver's in-place update of bit b; `Framebuffer.ShiftSetBitIsSetBit` and `Framebuffer.SetBitAt` prove what it does |
| Framebuffer.ShiftRead | src/ssd1306.c:242 | `(v >> b) & 1` is 1 exactly when bit b of v is set |
| Framebuffer.ShiftSetBitIsSetBit | src/ssd1306.c:247-250 | the driver's in-place or-with-`1 << b` and and-with-`~(1 << b)` updates set and clear bit b |
| Framebuffer.SetBitAt | src/ssd1306.c:247-250 | setting or clearing bit b makes it `on` and keeps every other bit of the byte |
| Framebuffer.BitsDetermineByte | src/ssd1306.c:247-250 | two bytes with the same eight bits are equal |
| Framebuffer.PixelIndex | src/ssd1306.c:244 | an on-screen pixel's byte lies among the pixel bytes, never the marker byte 0 |
| Framebuffer.Pixel | src/ssd1306.c:244-245 | pixel (x, y) is bit `y % 8` of its buffer byte; `Framebuffer.PixelsDetermineFrame` proves the pixels and the marker byte make up the whole buffer |
| Framebuffer.ByteBitIsPixel | src/ssd1306.c:244-245 | every bit of every pixel byte is exactly one on-screen pixel |
| Framebuffer.PixelIndexInjective | src/ssd1306.c:244-245 | two pixels at the same byte and bit are the same pixel |
| Framebuffer.PixelsDetermineFrame | src/ssd1306.c:244-245 | two buffers with the same marker byte and the same pixels are equal |
| Framebuffer.PlotPixel | src/ssd1306.c:244-250 | one pixel's read-modify-write keeps the buffer size and the marker byte |
| Framebuffer.PlotPixelPixel | src/ssd1306.c:244-250 | plotting (x, y) sets that pixel to `on` and leaves every other pixel as it was |
| Framebuffer.Cleared | src/ssd1306.c:98-101 | clearing keeps the marker byte and turns every on-screen pixel off |
| Framebuffer.ClearedBytes | src/ssd1306.c:99 | definition bridge (unfolds the definition for use where it is hidden): the cleared buffer is the marker byte followed by `DISPLAY_BYTES` zeros |
| BlitSteps.Blit.SourceIndex | src/ssd1306.c:239 | the source byte of pixel (i, j), at `j * ceil(w/8) + i/8` past the offset, lies inside the data |
| BlitSteps.Blit.SourceBit | src/ssd1306.c:239-242 | source pixel (i, j) is bit `i % 8` of its row byte; `Blitter.SourceBitRead` ties it to the driver's read |
| BlitSteps.RowInBounds | src/ssd1306.c:239 | the byte index of a pixel inside the bitmap is below `height * ceil(w/8)` |
| BlitSteps.PlotSource | src/ssd1306.c:232-251 | one source pixel changes neither the buffer size nor the marker byte |
| BlitSteps.DrawRow | src/ssd1306.c:230-252 | a row walked pixel by pixel keeps the buffer size and the marker byte |
| BlitSteps.DrawRows | src/ssd1306.c:229-253 | the rows walked one by one keep the buffer size and the marker byte |
| BlitSteps.PlotSourceSkipped | src/ssd1306.c:235-237 | definition bridge (unfolds the definition for use where it is hidden): a source pixel landing off the screen leaves the buffer unchanged |
| Blitter.PlotSourcePixel | src/ssd1306.c:232-251 | one source pixel changes only the screen pixel under it, to the source bit |
| Blitter.DrawRowPixel | src/ssd1306.c:230-252 | after i pixels of row j, exactly the screen pixels under those i pixels hold source bits |
| Blitter.DrawRowsPixel | src/ssd1306.c:229-253 | after j rows, exactly the screen pixels under those rows hold source bits |
| Blitter.Blitted | src/ssd1306.c:229-254 | after the blit, every on-screen pixel under the bitmap equals its source pixel (set or cleared, not or-ed); every other pixel and the marker byte are unchanged |
| Blitter.BlittedBits | src/ssd1306.c:244-250 | the same at byte level: bit b of byte k takes the covering source bit, or keeps its value when no source pixel covers it |
| Blitter.BlittedOffScreen | src/ssd1306.c:235-237 | a bitmap placed entirely right of or below the screen leaves the buffer unchanged |
| Blitter.BlittedRows | src/ssd1306.c:229-253 | definition bridge (unfolds the definition for use where it is hidden): the blit is the row-by-row walk over all `height` rows |
| Blitter.PlotSourceBytes | src/ssd1306.c:239-250 | for an on-screen pixel, the driver's byte operations (read bit i%8 of source byte `row + i/8`, then update bit `vy % 8` of buffer byte `(vy/8)*128 + vx + 1`) are exactly that pixel's plot |
| Blitter.SourceBitRead | src/ssd1306.c:239-242 | the driver's shift-and-mask read of the row byte yields the source pixel |
| Blitter.RowStartInBounds | src/ssd1306.c:239-241 | the source byte read for a pixel inside the bitmap exists |
| Utf8.Decode | src/ssd1306.c:282-320 | a byte below 0x80 is itself and advances 1; a bad continuation byte gives '?' and advances 1; a 0xF0-0xF7 lead gives '?' and advances 4 unchecked; a lead 0x80-0xBF or 0xF8-0xFF gives '?' and advances 1; a NUL inside a sequence stops printing, and only that; any character is below 0x10000 and advances 1 to 4 |
| Utf8.DecodeBytes | src/ssd1306.c:285-320 | the decoding branches on the lead byte and the three bytes after it; `Utf8.Decode` states its cases and `Utf8.DecodeEncode` its round trip |
| Utf8.DecodeIgnoresAfterNul | src/ssd1306.c:288-312 | bytes after a NUL in the lookahead never affect the decoded character |
| Utf8.DecodeEncode | src/ssd1306.c:285-309 | every 16-bit code point, encoded as UTF-8, decodes back to itself and consumes exactly its encoding |
| Utf8.BadContinuationSkipsLead | src/ssd1306.c:292-305 | a two- or three-byte lead before a non-continuation byte yields '?' and skips only the lead |
| Utf8.OverlongNul | src/ssd1306.c:287-297 | the overlong form 0xC0 0x80 is accepted and decodes to code point 0 in two bytes |
| Text.FindSubset | src/ssd1306.c:333-335 | the result is the first subset whose range holds the code point, and none means no subset holds it |
| Text.Lookup | src/ssd1306.c:333-341 | a glyph found lies in a subset of the font whose range holds the code point, at index `cp - start`, below that subset's `symbols_count` |
| Text.Font.GlyphWidth | src/ssd1306.c:330-341 | a glyph is as wide as its subset's width table says, or the font width when the subset has none; `Text.DrawGlyphFields` proves the cursor advances by it |
| Text.Font.GlyphBlit | src/ssd1306.c:338-343 | a glyph is drawn from its offset in the subset's symbols, with its width and the font height; `Text.GlyphFits` proves it fits the data |
| Text.GlyphFits | src/ssd1306.c:338-343 | a glyph of a well-formed font fits its symbol data wherever it is drawn |
| Text.DrawGlyph | src/ssd1306.c:337-345 | drawing a glyph keeps the buffer size and the marker byte |
| Text.DrawGlyphFields | src/ssd1306.c:337-355 | definition bridge (unfolds the definition for use where it is hidden): a glyph draw fails, changing nothing, exactly when its width or the font height is 0; otherwise it blits the glyph and moves the cursor by width plus letter spacing, mod 256 |
| Text.PrintChar | src/ssd1306.c:325-355 | printing one character keeps the buffer size and the marker byte |
| Text.Render | src/ssd1306.c:277-358 | printing a string keeps the buffer size and the marker byte |
| Text.RenderChar | src/ssd1306.c:282-356 | definition bridge (unfolds the definition for use where it is hidden): one step of the loop: the character at `pos` is printed; a failure stops with what was drawn before, and otherwise printing continues after it |
| Text.RenderDone | src/ssd1306.c:277-314 | the terminator, a cursor at or past column 128, and an incomplete sequence each end printing successfully with nothing more drawn |
| Text.PrintCharSpace | src/ssd1306.c:325-328 | definition bridge (unfolds the definition for use where it is hidden): a space draws nothing and adds the word spacing to the cursor, mod 256 |
| Text.PrintCharFound | src/ssd1306.c:333-349 | only the first subset whose range holds the code point decides: its glyph is drawn if the index is below `symbols_count`; otherwise nothing is drawn and the cursor moves by the default width |
| Text.PrintCharNotFound | src/ssd1306.c:330-355 | a code point no subset holds draws nothing and moves the cursor by the default width plus letter spacing |
| Text.PrintCharStaysOnLine | src/ssd1306.c:343 | printing one character changes no pixel above or below its line |
| Text.RenderStaysOnLine | src/ssd1306.c:277-356 | printing a string changes no pixel above or below its line |
| Text.PrintCharSucceeds | src/ssd1306.c:337-345 | with no zero-sized glyph in the font, every character prints |
| Text.RenderSucceeds | src/ssd1306.c:268-359 | with no zero-sized glyph in the font, printing always succeeds |
| Text.RenderSpaces | src/ssd1306.c:325-328 | text made only of spaces draws nothing and succeeds |
| Text.DecodeBeforeTerminator | src/ssd1306.c:288-312 | a character starting before the terminator decodes the same whatever follows the terminator |
| Text.RenderStopsAtTerminator | src/ssd1306.c:277-323 | bytes after the first NUL never change what is printed |
| Commands.DefaultConfig | src/ssd1306.c:103-139 | the default configuration, field for field: default contrast, not inverted, horizontal addressing, inverse segment remap, the maximum multiplex ratio, remapped scan, alternative COM pins with the remap disabled, the minimum divide ratio, the maximum oscillator frequency, the default pre-charge phases, VCOMH level 1, fade disabled at the minimum interval, no zoom, charge pump on; `Commands.DefaultConfigValid` proves init accepts it |
| Commands.MuxRatioInRange | src/ssd1306.c:157 | the multiplex ratio lies between its minimum and maximum |
| Commands.ClockInRange | src/ssd1306.c:161-164 | the divide ratio and the oscillator frequency each lie in their range |
| Commands.FadeInRange | src/ssd1306.c:175-176 | the fade mode is disabled, fade-out or blinking, and the interval lies in its range |
| Commands.PreChargeInRange | src/ssd1306.c:191-194 | both pre-charge phases lie in the phase range |
| Commands.VcomhInRange | src/ssd1306.c:200 | the VCOMH level is one of the three levels |
| Commands.ConfigValid | src/ssd1306.c:157-202 | all five checks of init hold; `Device.InitCommandBuffer` and `Device.Ssd1306.Init` prove that init rejects, with no write, exactly the configurations failing it |
| Commands.ClockByte | src/ssd1306.c:168 | divide ratio or-ed with the oscillator frequency shifted left by 4; `Commands.ClockByteDecodes` proves both fields come back |
| Commands.FadeByte | src/ssd1306.c:180 | fade mode or-ed with the interval; `Commands.FadeByteDecodes` proves both fields come back |
| Commands.PreChargeByte | src/ssd1306.c:198 | phase 1 shifted left by 4 or-ed with phase 2; `Commands.PreChargeByteDecodes` proves both phases come back |
| Commands.ComPinsValue | src/ssd1306.c:206-209 | the pin layout value or-ed with the remap value; `Commands.ComPinsByteDecodes` proves both choices come back |
| Commands.ScanByte | src/ssd1306.c:155 | the remapped or normal scan direction command, by flag |
| Commands.InverseByte | src/ssd1306.c:170 | the inverse or normal display command, by flag |
| Commands.ZoomByte | src/ssd1306.c:183 | the zoom enable or disable argument, by flag |
| Commands.SegmentByte | src/ssd1306.c:211 | the inverse or normal segment remap command, by flag |
| Commands.ChargePumpByte | src/ssd1306.c:214 | the charge pump enable or disable argument, by flag |
| Commands.InitByte | src/ssd1306.c:153-216 | byte k of the stream, in the order the driver stores them; the `Commands.InitBytes*` rows list them |
| Commands.InitCommands | src/ssd1306.c:151-216 | the 27-byte stream sent by init; `Commands.InitCommandsFrame` bounds it and `Commands.InitCommandsInjective` proves it determines the configuration |
| Commands.InitBytesScan | src/ssd1306.c:153-159 | definition bridge (unfolds the definition for use where it is hidden): bytes 0-3 of the stream: command marker, scan direction, multiplex command and ratio |
| Commands.InitBytesClock | src/ssd1306.c:167-173 | definition bridge (unfolds the definition for use where it is hidden): bytes 4-8: clock command, clock byte, normal/inverse, contrast command and value |
| Commands.InitBytesFade | src/ssd1306.c:179-186 | definition bridge (unfolds the definition for use where it is hidden): bytes 9-14: fade command and byte, zoom command and choice, display offset command and minimum |
| Commands.InitBytesPreCharge | src/ssd1306.c:188-204 | definition bridge (unfolds the definition for use where it is hidden): bytes 15-20: addressing mode, pre-charge command and byte, VCOMH command and level |
| Commands.InitBytesPins | src/ssd1306.c:206-216 | definition bridge (unfolds the definition for use where it is hidden): bytes 21-26: COM pins command and byte, segment remap, charge pump command and choice, display on |
| Commands.InitPrefixStep | src/ssd1306.c:153-216 | storing the next stream byte at index i extends a prefix of the stream by one |
| Commands.InitPrefixDone | src/ssd1306.c:216-218 | a prefix of full length is the whole stream that is sent |
| Commands.InitCommandsFrame | src/ssd1306.c:151-216 | the stream fits the 31-byte array, starts with the command marker and ends with display on |
| Commands.ClockByteDecodes | src/ssd1306.c:168 | the clock byte determines the divide ratio and the oscillator frequency |
| Commands.PreChargeByteDecodes | src/ssd1306.c:198 | the pre-charge byte determines both phases |
| Commands.FadeByteDecodes | src/ssd1306.c:180 | the fade byte determines the mode and the time interval |
| Commands.ComPinsByteDecodes | src/ssd1306.c:206-209 | the COM pins byte determines both pin choices |
| Commands.InitBytesAgree | src/ssd1306.c:153-216 | equal streams agree byte by byte |
| Commands.ChoicesAgree | src/ssd1306.c:155-214 | the opcodes chosen by the five boolean settings give those settings back |
| Commands.PlainArgumentsAgree | src/ssd1306.c:159-204 | multiplex ratio, contrast, addressing mode and VCOMH level are sent as they are and come back |
| Commands.PackedArgumentsAgree | src/ssd1306.c:168-209 | the packed clock, pre-charge, fade and COM pins bytes give their fields back |
| Commands.InitCommandsInjective | src/ssd1306.c:153-216 | two accepted configurations producing the same stream are equal: no setting is lost |
| Commands.DefaultConfigValid | src/ssd1306.c:103-139 | the default configuration passes every range check of initialisation |
| I2c.Bus.WriteBlocking | src/ssd1306.c:18 | a blocking write appends exactly one transfer to the log and returns the transport's answer for it |
| I2c.Succeeded | src/ssd1306.c:13-15 | a transport result counts as success when it is non-negative |
| I2c.Chain | src/ssd1306.c:92-93 | a short-circuit chain makes its writes in order, all of them when it succeeds |
| I2c.ChainSucceeds | src/ssd1306.c:92-95 | the chain succeeds exactly when every write is answered with success |
| I2c.ChainStopsAtFirstFailure | src/ssd1306.c:92-93 | the chain fails and makes exactly the writes up to and including the first failed one |
| I2c.ChainAllSent | src/ssd1306.c:92-95 | when every write succeeds the chain makes all of them |
| I2c.ChainOne | src/ssd1306.c:92 | a one-frame chain is one write, and its answer decides |
| I2c.ChainSnoc | src/ssd1306.c:363 | a frame after a chain is sent only if the chain succeeded, and then it alone decides |
| Device.IsValidPage | src/ssd1306.c:64-66 | a page lies between the first and the last page address; `Device.AreaValidRange` proves that means below 8 |
| Device.IsValidColumn | src/ssd1306.c:72-74 | a column lies between the first and the last column address; `Device.AreaValidRange` proves that means below 128 |
| Device.AreaValid | src/ssd1306.c:85-88 | both pages and both columns are valid |
| Device.CommandFrame | src/ssd1306.c:18 | the two bytes of a one-byte command write |
| Device.CommandValueFrame | src/ssd1306.c:22 | the three bytes of a command write with one argument |
| Device.Command2ValuesFrame | src/ssd1306.c:26 | the four bytes of a command write with two arguments |
| Device.AreaFrames | src/ssd1306.c:92-93 | the page range write, then the column range write |
| Device.ShowFrames | src/ssd1306.c:362-363 | the full-screen area writes, then the whole buffer |
| Device.AreaValidRange | src/ssd1306.c:64-74 | an area is accepted exactly when both pages are below 8 and both columns below 128 |
| Device.ShowAreaValid | src/ssd1306.c:362 | the full-screen area used by `show` is accepted |
| Device.PutCommand | src/ssd1306.c:153 | `commands[i++] = v` with the next stream byte extends the stored prefix by one and returns i + 1 |
| Device.InitCommandBuffer | src/ssd1306.c:151-216 | the command array is filled with the exact initialisation stream when the configuration passes every range check, and the assembly stops otherwise |
| Device.Ssd1306.constructor | src/ssd1306.c:141-144 | a new driver has the given bus and address, no font, and a zeroed buffer |
| Device.Ssd1306.Write | src/ssd1306.c:13-15 | one write is logged; success is a non-negative answer from the transport |
| Device.Ssd1306.SendCommand | src/ssd1306.c:17-19 | sends `[SEND_COMMAND, command]` as one write |
| Device.Ssd1306.SendCommandValue | src/ssd1306.c:21-23 | sends `[SEND_COMMAND, command, value]` as one write |
| Device.Ssd1306.SendCommand2Values | src/ssd1306.c:25-27 | sends `[SEND_COMMAND, command, value1, value2]` as one write |
| Device.Ssd1306.SetContrast | src/ssd1306.c:33-35 | sends the contrast command with its value as one write |
| Device.Ssd1306.SetInverse | src/ssd1306.c:42-44 | sends the inverse command when enabled and the normal command otherwise |
| Device.Ssd1306.DisplayOn | src/ssd1306.c:49-51 | sends the display-on command |
| Device.Ssd1306.DisplayOff | src/ssd1306.c:56-58 | sends the display-off command |
| Device.Ssd1306.SetArea | src/ssd1306.c:84-96 | an out-of-range page or column fails with no write; otherwise the page range is sent, then the column range only if that succeeded |
| Device.Ssd1306.ClearDisplay | src/ssd1306.c:98-101 | zeroes every pixel byte, keeps the marker byte, and returns true |
| Device.Ssd1306.Init | src/ssd1306.c:146-219 | the buffer always becomes a blank data frame; a rejected configuration fails with no write; an accepted one is sent as the 27-byte stream in one write, whose answer decides |
| Device.Ssd1306.DrawBitmapInternal | src/ssd1306.c:221-255 | a zero width or height fails with the buffer unchanged; otherwise it returns true and the buffer is the blit |
| Device.Ssd1306.DrawBitmapRow | src/ssd1306.c:230-252 | the inner loop leaves the buffer as the walk of one source row |
| Device.Ssd1306.DrawBitmapPixel | src/ssd1306.c:232-251 | the loop body plots one source pixel, or skips it when it lands off the screen |
| Device.Ssd1306.DrawBitmap | src/ssd1306.c:257-262 | a missing bitmap or missing data fails with the buffer unchanged; otherwise it is the blit of the whole bitmap at offset 0 |
| Device.Ssd1306.SetFont | src/ssd1306.c:264-266 | the given font becomes the current font |
| Device.Ssd1306.Print | src/ssd1306.c:268-359 | without a font or a text it fails with the buffer unchanged; otherwise its outcome and buffer are `Render`'s |
| Device.Ssd1306.DrawCodepoint | src/ssd1306.c:330-355 | the subset search prints the non-space character as `PrintChar` does, and returns the width the cursor then advances by |
| Device.Ssd1306.Show | src/ssd1306.c:361-364 | sends the page range, the column range, then the whole buffer (marker byte included), each only if everything before it succeeded |

## Left out

- The transport `i2c_write_blocking` and the `i2c_inst` handle are not part of
  this model. A bus object stands in for both. Its answers are a parameter,
  and partial writes and timeouts show only through that answer.
- The literal values of the controller constants come from a header that is
  not part of this model, so they are abstract. Three results therefore
  carry hypotheses about those values:
  - `Commands.InitCommandsInjective` assumes that the two opcodes of each
    boolean setting differ (`DistinctChoices`).
  - It also assumes that the fields sharing a packed byte are disjoint
    nibbles or bits (`PackedFieldsDisjoint`).
  - `Commands.DefaultConfigValid` assumes that the controller's ranges are
    consistent (each minimum is at most its maximum, and the phase defaults
    lie in the phase range).
- `symbol_found` in `print` is written but never read, so it is not modelled.
- Device.Ssd1306.DrawBitmapInternal: requires that the bitmap data holds every
  row it declares. The C code does not check this, and reading past the data
  is undefined behaviour.
- Device.Ssd1306.SetFont: requires a font whose glyph tables cover its
  symbols, and `Print` relies on that. It is the same undefined behaviour
  for a malformed font.
- The `uint16_t` intermediates of the blitter (`visual_x`, `byte_index`,
  `buffer_index`) are unbounded naturals. For 8-bit sizes and coordinates
  they stay below 8200 and never wrap.
- Text is a byte sequence rather than a pointer. A byte past the end of the
  sequence reads as the terminator.
- The example programs are not part of this model. Their GPIO setup, delays
  and output are I/O.
- Ssd1306Def: the model fixes some geometry values itself rather than
  reading them from the constants header:
  - `WIDTH` is 128.
  - Pages are 0 to 7 and columns 0 to 127. These come from the range
    comments at src/ssd1306.c:62 and 70.
  - `HEIGHT` is 32 or 64. This is the model's own assumption; the driver's
    files show only a 128x64 panel. Every other value in the header is
    abstract.
