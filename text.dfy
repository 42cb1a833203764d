/**
 * Fonts and text. A font is a list of subsets, each covering a range of
 * code points with glyph bitmaps stored back to back; monospaced subsets
 * use the font's width, proportional ones carry a width per glyph. Text
 * is printed along one line: each character's glyph is drawn at the
 * cursor, which then moves right by the glyph's width plus the letter
 * spacing, or by the word spacing for a space. The cursor is a byte and
 * wraps around.
 */
module Text {
  import opened Wrappers
  import opened Ssd1306Def
  import opened Framebuffer
  import opened BlitSteps
  import opened Blitter
  import opened Utf8

  /** The code point that advances by the word spacing instead of drawing. */
  const SPACE: nat := 0x20

  /** Glyphs for the code points `start..end`; only the first `symbolsCount` have a bitmap. */
  datatype FontSubset = FontSubset(
    start: U16,
    end: U16,
    symbolsCount: U16,
    symbols: seq<bv8>,
    offsets: seq<U32>,
    widths: Option<seq<U8>>)
  {
    /** The subset's code point range holds `cp`. */
    predicate Contains(cp: nat)
    {
      start <= cp <= end
    }

    /** Offsets and widths exist for every glyph. */
    predicate TablesCover()
    {
      |offsets| >= symbolsCount && (widths.Some? ==> |widths.value| >= symbolsCount)
    }
  }

  /** A font: default glyph size, spacing, and its subsets in lookup order. */
  datatype Font = Font(width: U8, height: U8, letterSpacing: U8, wordSpacing: U8, subsets: seq<FontSubset>)
  {
    /** Width of glyph `k` of subset `s`: its own width if the subset is proportional. */
    function GlyphWidth(s: FontSubset, k: nat): U8
      requires s.TablesCover() && k < s.symbolsCount
    {
      if s.widths.Some? then s.widths.value[k] else width
    }

    /** Drawing glyph `k` of subset `s` with its top-left corner at (x, y). */
    function GlyphBlit(s: FontSubset, k: nat, x: U8, y: U8): Blit
      requires s.TablesCover() && k < s.symbolsCount
    {
      Blit(s.symbols, s.offsets[k], GlyphWidth(s, k), height, x, y)
    }

    /** Every glyph's bitmap lies inside its subset's symbol data. */
    predicate WellFormed()
    {
      |subsets| < 0x1_0000 &&
      forall s :: s in subsets ==>
        s.TablesCover() && forall k :: 0 <= k < s.symbolsCount ==> GlyphBlit(s, k, 0, 0).Fits()
    }

    /** No glyph is zero pixels wide or high, so every draw succeeds. */
    predicate NoEmptyGlyph()
      requires WellFormed()
    {
      height != 0 && forall s :: s in subsets ==> forall k :: 0 <= k < s.symbolsCount ==> GlyphWidth(s, k) != 0
    }
  }

  /** Where a glyph was found: its subset and its index there. */
  datatype Glyph = Glyph(subset: FontSubset, index: nat)

  /** The first subset, in order, whose range holds `cp`. */
  function FindSubset(subsets: seq<FontSubset>, cp: nat): (r: Option<nat>)
    ensures r.Some? ==> r.value < |subsets| && subsets[r.value].Contains(cp)
    ensures r.Some? ==> forall k :: 0 <= k < r.value ==> !subsets[k].Contains(cp)
    ensures r.None? <==> forall k :: 0 <= k < |subsets| ==> !subsets[k].Contains(cp)
    decreases |subsets|
  {
    if subsets == [] then None
    else if subsets[0].Contains(cp) then Some(0)
    else match FindSubset(subsets[1..], cp)
      case None => None
      case Some(i) => Some(i + 1)
  }

  /**
   * The glyph drawn for `cp`: the first subset whose range holds it decides,
   * and it has a glyph only if `cp` falls among that subset's first
   * `symbolsCount` code points. Later subsets are not consulted.
   */
  function Lookup(font: Font, cp: nat): (r: Option<Glyph>)
    requires font.WellFormed()
    ensures r.Some? ==> r.value.subset in font.subsets && r.value.subset.TablesCover()
    ensures r.Some? ==> r.value.subset.Contains(cp) && r.value.index == cp - r.value.subset.start
    ensures r.Some? ==> r.value.index < r.value.subset.symbolsCount
  {
    match FindSubset(font.subsets, cp)
    case None => None
    case Some(i) =>
      var s := font.subsets[i];
      if cp - s.start < s.symbolsCount then Some(Glyph(s, cp - s.start)) else None
  }

  /** A glyph of a well-formed font fits its data wherever it is drawn. */
  lemma {:induction false} GlyphFits(font: Font, s: FontSubset, k: nat, x: U8, y: U8)
    requires font.WellFormed() && s in font.subsets && k < s.symbolsCount
    ensures s.TablesCover() && font.GlyphBlit(s, k, x, y).Fits()
  {
    assert font.GlyphBlit(s, k, 0, 0).Fits();
  }

  /** The outcome of printing one character: success, the framebuffer, and the new cursor. */
  datatype Drawn = Drawn(ok: bool, frame: seq<bv8>, cursor: U8)

  /**
   * Draws glyph `g` at cursor `cx` on the line whose top row is `sy` and
   * advances the cursor by its width plus the letter spacing. A glyph of
   * zero width, or a font of zero height, fails and draws nothing.
   */
  function DrawGlyph(f: seq<bv8>, font: Font, g: Glyph, cx: U8, sy: U8): (d: Drawn)
    requires IsFrame(f) && font.WellFormed()
    requires g.subset in font.subsets && g.index < g.subset.symbolsCount
    ensures IsFrame(d.frame) && d.frame[0] == f[0]
  {
    GlyphFits(font, g.subset, g.index, cx, sy);
    var w := font.GlyphWidth(g.subset, g.index);
    if w == 0 || font.height == 0 then Drawn(false, f, cx)
    else Drawn(true, Blitted(f, font.GlyphBlit(g.subset, g.index, cx, sy)), Wrap8(cx + w + font.letterSpacing))
  }

  /** The outcome of drawing a glyph, field by field. */
  lemma DrawGlyphFields(f: seq<bv8>, font: Font, s: FontSubset, k: nat, cx: U8, sy: U8)
    requires IsFrame(f) && font.WellFormed() && s in font.subsets && k < s.symbolsCount
    ensures s.TablesCover() && font.GlyphBlit(s, k, cx, sy).Fits()
    ensures var d := DrawGlyph(f, font, Glyph(s, k), cx, sy);
      var w := font.GlyphWidth(s, k);
      d.ok == (w != 0 && font.height != 0) &&
      (d.ok ==> d.frame == Blitted(f, font.GlyphBlit(s, k, cx, sy)) && d.cursor == Wrap8(cx + w + font.letterSpacing)) &&
      (!d.ok ==> d.frame == f)
  {
    GlyphFits(font, s, k, cx, sy);
  }

  /**
   * Prints the code point `cp` at cursor `cx` on the line whose top row is
   * `sy`. A space only advances by the word spacing; a code point without
   * a glyph advances by the default width plus the letter spacing without
   * drawing; otherwise its glyph is drawn.
   */
  function PrintChar(f: seq<bv8>, font: Font, cp: nat, cx: U8, sy: U8): (d: Drawn)
    requires IsFrame(f) && font.WellFormed()
    ensures IsFrame(d.frame) && d.frame[0] == f[0]
  {
    if cp == SPACE then Drawn(true, f, Wrap8(cx + font.wordSpacing))
    else match Lookup(font, cp)
      case None => Drawn(true, f, Wrap8(cx + font.width + font.letterSpacing))
      case Some(g) => DrawGlyph(f, font, g, cx, sy)
  }

  /**
   * The result of printing `text` from byte `pos` with the cursor at `cx`
   * on the line whose top row is `sy`: whether printing succeeded, and the
   * framebuffer afterwards. Printing ends at the terminator, once the
   * cursor has left the screen, or at an incomplete UTF-8 sequence; it
   * fails, keeping what was drawn before that character, when a glyph has
   * zero width or the font zero height.
   */
  function Render(f: seq<bv8>, font: Font, text: seq<bv8>, pos: nat, cx: U8, sy: U8): (r: (bool, seq<bv8>))
    requires IsFrame(f) && font.WellFormed()
    ensures IsFrame(r.1) && r.1[0] == f[0]
    decreases |text| - pos
  {
    if ByteAt(text, pos) == 0 || cx >= WIDTH then (true, f)
    else match Decode(text, pos)
      case Stop => (true, f)
      case Char(cp, advance) =>
        var d := PrintChar(f, font, cp, cx, sy);
        if !d.ok then (false, f) else Render(d.frame, font, text, pos + advance, d.cursor, sy)
  }

  /** One step of printing: the character at `pos` is printed and printing goes on after it. */
  lemma RenderChar(f: seq<bv8>, font: Font, text: seq<bv8>, pos: nat, cx: U8, sy: U8)
    requires IsFrame(f) && font.WellFormed() && pos < |text| && text[pos] != 0 && cx < WIDTH
    requires Decode(text, pos).Char?
    ensures var c := Decode(text, pos);
      var d := PrintChar(f, font, c.cp, cx, sy);
      Render(f, font, text, pos, cx, sy) ==
        if !d.ok then (false, f) else Render(d.frame, font, text, pos + c.advance, d.cursor, sy)
  {
  }

  /** Printing ends, successfully and drawing nothing more, at the terminator, past the right edge, or at an incomplete sequence. */
  lemma RenderDone(f: seq<bv8>, font: Font, text: seq<bv8>, pos: nat, cx: U8, sy: U8)
    requires IsFrame(f) && font.WellFormed()
    requires ByteAt(text, pos) == 0 || cx >= WIDTH || (pos < |text| && Decode(text, pos).Stop?)
    ensures Render(f, font, text, pos, cx, sy) == (true, f)
  {
  }

  /** A space draws nothing and moves the cursor by the word spacing. */
  lemma PrintCharSpace(f: seq<bv8>, font: Font, cx: U8, sy: U8)
    requires IsFrame(f) && font.WellFormed()
    ensures PrintChar(f, font, SPACE, cx, sy) == Drawn(true, f, Wrap8(cx + font.wordSpacing))
  {
  }

  /**
   * The first subset whose range holds a (non-space) code point decides
   * how it prints: its glyph is drawn if the subset has one for it, and
   * otherwise only the cursor moves by the default width.
   */
  lemma {:induction false} PrintCharFound(f: seq<bv8>, font: Font, cp: nat, cx: U8, sy: U8, i: nat)
    requires IsFrame(f) && font.WellFormed() && cp != SPACE
    requires i < |font.subsets| && font.subsets[i].Contains(cp)
    requires forall k :: 0 <= k < i ==> !font.subsets[k].Contains(cp)
    ensures var s := font.subsets[i];
      PrintChar(f, font, cp, cx, sy) ==
        if cp - s.start < s.symbolsCount then DrawGlyph(f, font, Glyph(s, cp - s.start), cx, sy)
        else Drawn(true, f, Wrap8(cx + font.width + font.letterSpacing))
  {
    hide DrawGlyph, Blitted, Font.WellFormed;
    assert FindSubset(font.subsets, cp) == Some(i);
  }

  /** A (non-space) code point that no subset's range holds moves the cursor by the default width. */
  lemma {:induction false} PrintCharNotFound(f: seq<bv8>, font: Font, cp: nat, cx: U8, sy: U8)
    requires IsFrame(f) && font.WellFormed() && cp != SPACE
    requires forall k :: 0 <= k < |font.subsets| ==> !font.subsets[k].Contains(cp)
    ensures PrintChar(f, font, cp, cx, sy) == Drawn(true, f, Wrap8(cx + font.width + font.letterSpacing))
  {
    assert FindSubset(font.subsets, cp) == None;
  }

  /** Printing one character changes no pixel outside the rows of its line. */
  lemma {:induction false} PrintCharStaysOnLine(f: seq<bv8>, font: Font, cp: nat, cx: U8, sy: U8, x: nat, y: nat)
    requires IsFrame(f) && font.WellFormed() && OnScreen(x, y)
    requires y < sy || sy + font.height <= y
    ensures Pixel(PrintChar(f, font, cp, cx, sy).frame, x, y) == Pixel(f, x, y)
  {
    if cp != SPACE {
      match Lookup(font, cp)
      case None =>
      case Some(g) =>
        GlyphFits(font, g.subset, g.index, cx, sy);
        if font.GlyphWidth(g.subset, g.index) != 0 && font.height != 0 {
          assert !font.GlyphBlit(g.subset, g.index, cx, sy).Covers(x, y);
        }
    }
  }

  /** Printing changes no pixel outside the rows of its line. */
  lemma {:induction false} RenderStaysOnLine(f: seq<bv8>, font: Font, text: seq<bv8>, pos: nat, cx: U8, sy: U8, x: nat, y: nat)
    requires IsFrame(f) && font.WellFormed() && OnScreen(x, y)
    requires y < sy || sy + font.height <= y
    ensures Pixel(Render(f, font, text, pos, cx, sy).1, x, y) == Pixel(f, x, y)
    decreases |text| - pos
  {
    hide PrintChar, Pixel;
    if ByteAt(text, pos) != 0 && cx < WIDTH {
      match Decode(text, pos)
      case Stop =>
      case Char(cp, advance) =>
        var d := PrintChar(f, font, cp, cx, sy);
        if d.ok {
          PrintCharStaysOnLine(f, font, cp, cx, sy, x, y);
          RenderStaysOnLine(d.frame, font, text, pos + advance, d.cursor, sy, x, y);
        }
    }
  }

  /** With no zero-sized glyph in the font, every character prints. */
  lemma {:induction false} PrintCharSucceeds(f: seq<bv8>, font: Font, cp: nat, cx: U8, sy: U8)
    requires IsFrame(f) && font.WellFormed() && font.NoEmptyGlyph()
    ensures PrintChar(f, font, cp, cx, sy).ok
  {
    if cp != SPACE {
      match Lookup(font, cp)
      case None =>
      case Some(g) =>
        GlyphFits(font, g.subset, g.index, cx, sy);
        assert font.GlyphWidth(g.subset, g.index) != 0;
    }
  }

  /** With no zero-sized glyph in the font, printing always succeeds. */
  lemma {:induction false} RenderSucceeds(f: seq<bv8>, font: Font, text: seq<bv8>, pos: nat, cx: U8, sy: U8)
    requires IsFrame(f) && font.WellFormed() && font.NoEmptyGlyph()
    ensures Render(f, font, text, pos, cx, sy).0
    decreases |text| - pos
  {
    if ByteAt(text, pos) != 0 && cx < WIDTH {
      match Decode(text, pos)
      case Stop =>
      case Char(cp, advance) =>
        PrintCharSucceeds(f, font, cp, cx, sy);
        var d := PrintChar(f, font, cp, cx, sy);
        RenderSucceeds(d.frame, font, text, pos + advance, d.cursor, sy);
    }
  }

  /** Text made only of spaces moves the cursor and draws nothing. */
  lemma {:induction false} RenderSpaces(f: seq<bv8>, font: Font, text: seq<bv8>, pos: nat, cx: U8, sy: U8)
    requires IsFrame(f) && font.WellFormed()
    requires forall k :: pos <= k < |text| ==> text[k] == 0x20
    ensures Render(f, font, text, pos, cx, sy) == (true, f)
    decreases |text| - pos
  {
    if ByteAt(text, pos) != 0 && cx < WIDTH {
      assert text[pos] == 0x20;
      RenderSpaces(f, font, text, pos + 1, Wrap8(cx + font.wordSpacing), sy);
    }
  }

  /**
   * Decoding looks no further than the terminator: a character that starts
   * before it decodes the same whatever follows the terminator.
   */
  lemma {:induction false} DecodeBeforeTerminator(text: seq<bv8>, rest: seq<bv8>, pos: nat)
    requires pos < |text|
    ensures Decode(text + [0] + rest, pos) == Decode(text, pos)
  {
    var s := text + [0] + rest;
    assert s[pos] == text[pos];
    assert pos + 1 <= |text| ==> ByteAt(s, pos + 1) == ByteAt(text, pos + 1);
    assert pos + 2 <= |text| ==> ByteAt(s, pos + 2) == ByteAt(text, pos + 2);
    assert pos + 3 <= |text| ==> ByteAt(s, pos + 3) == ByteAt(text, pos + 3);
    DecodeIgnoresAfterNul(text[pos], ByteAt(text, pos + 1), ByteAt(text, pos + 2), ByteAt(text, pos + 3),
                          ByteAt(s, pos + 1), ByteAt(s, pos + 2), ByteAt(s, pos + 3));
  }

  /**
   * Printing reads the string only up to its terminator: bytes after the
   * first NUL never change what is drawn.
   */
  lemma {:induction false} RenderStopsAtTerminator(f: seq<bv8>, font: Font, text: seq<bv8>, rest: seq<bv8>, pos: nat, cx: U8, sy: U8)
    requires IsFrame(f) && font.WellFormed() && pos <= |text|
    ensures Render(f, font, text + [0] + rest, pos, cx, sy) == Render(f, font, text, pos, cx, sy)
    decreases |text| - pos
  {
    var s := text + [0] + rest;
    if pos == |text| {
      assert ByteAt(s, pos) == 0;
    } else {
      assert ByteAt(s, pos) == ByteAt(text, pos);
      if ByteAt(text, pos) != 0 && cx < WIDTH {
        DecodeBeforeTerminator(text, rest, pos);
        match Decode(text, pos)
        case Stop =>
        case Char(cp, advance) =>
          var d := PrintChar(f, font, cp, cx, sy);
          if d.ok {
            RenderStopsAtTerminator(d.frame, font, text, rest, pos + advance, d.cursor, sy);
          }
      }
    }
  }
}
