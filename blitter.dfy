/**
 * What the blitter's walk does to the screen: every on-screen pixel under
 * the bitmap takes the source pixel's value, everything else is kept.
 */
module Blitter {
  import opened Ssd1306Def
  import opened Framebuffer
  import opened BlitSteps

  /** One source pixel: only the screen pixel under it can change. */
  lemma {:induction false} PlotSourcePixel(f: seq<bv8>, a: Blit, i: nat, j: nat, x: nat, y: nat)
    requires IsFrame(f) && a.Fits() && i < a.width && j < a.height && OnScreen(x, y)
    ensures Pixel(PlotSource(f, a, i, j), x, y) ==
      if x == a.x + i && y == a.y + j then a.SourceBit(x - a.x, y - a.y) else Pixel(f, x, y)
  {
    if a.x + i < WIDTH && a.y + j < HEIGHT {
      var on := a.SourceBit(i, j);
      PlotPixelPixel(f, a.x + i, a.y + j, on, x, y);
    }
  }

  lemma {:induction false} DrawRowPixel(f: seq<bv8>, a: Blit, j: nat, i: nat, x: nat, y: nat)
    requires IsFrame(f) && a.Fits() && j < a.height && i <= a.width && OnScreen(x, y)
    ensures Pixel(DrawRow(f, a, j, i), x, y) ==
      if y == a.y + j && a.x <= x < a.x + i then a.SourceBit(x - a.x, y - a.y) else Pixel(f, x, y)
  {
    hide Blit.SourceBit, PlotSource, Pixel;
    if i > 0 {
      var g := DrawRow(f, a, j, i - 1);
      assert DrawRow(f, a, j, i) == PlotSource(g, a, i - 1, j);
      DrawRowPixel(f, a, j, i - 1, x, y);
      PlotSourcePixel(g, a, i - 1, j, x, y);
    }
  }

  lemma {:induction false} DrawRowsPixel(f: seq<bv8>, a: Blit, j: nat, x: nat, y: nat)
    requires IsFrame(f) && a.Fits() && j <= a.height && OnScreen(x, y)
    ensures Pixel(DrawRows(f, a, j), x, y) ==
      if a.y <= y < a.y + j && a.Covers(x, y) then a.SourceBit(x - a.x, y - a.y) else Pixel(f, x, y)
  {
    hide Blit.SourceBit, PlotSource, Pixel;
    if j > 0 {
      var g := DrawRows(f, a, j - 1);
      assert DrawRows(f, a, j) == DrawRow(g, a, j - 1, a.width);
      DrawRowsPixel(f, a, j - 1, x, y);
      DrawRowPixel(g, a, j - 1, a.width, x, y);
    }
  }

  /**
   * The buffer after the whole bitmap was blitted: every on-screen pixel
   * under the bitmap takes the source pixel's value (set or cleared, an
   * opaque overwrite), every other pixel and the marker byte keep theirs.
   */
  function Blitted(f: seq<bv8>, a: Blit): (r: seq<bv8>)
    requires IsFrame(f) && a.Fits()
    ensures IsFrame(r) && r[0] == f[0]
    ensures forall x: nat, y: nat :: OnScreen(x, y) ==>
      Pixel(r, x, y) == if a.Covers(x, y) then a.SourceBit(x - a.x, y - a.y) else Pixel(f, x, y)
  {
    var r := DrawRows(f, a, a.height);
    forall x: nat, y: nat | OnScreen(x, y)
      ensures Pixel(r, x, y) == if a.Covers(x, y) then a.SourceBit(x - a.x, y - a.y) else Pixel(f, x, y)
    {
      DrawRowsPixel(f, a, a.height, x, y);
    }
    r
  }

  /**
   * The blit byte by byte: bit `b` of framebuffer byte `k` takes the source
   * pixel over it when the bitmap covers that screen pixel, and keeps its
   * value otherwise.
   */
  lemma {:induction false} BlittedBits(f: seq<bv8>, a: Blit, k: nat, b: nat)
    requires IsFrame(f) && a.Fits() && 1 <= k < FRAME_BYTES && b < 8
    ensures var x, y := ColumnOf(k), RowOf(k, b);
      Bit(Blitted(f, a)[k], b) == if a.Covers(x, y) then a.SourceBit(x - a.x, y - a.y) else Bit(f[k], b)
  {
    ByteBitIsPixel(k, b);
    var x, y := ColumnOf(k), RowOf(k, b);
    assert Pixel(Blitted(f, a), x, y) == Bit(Blitted(f, a)[k], b);
  }

  /** A bitmap placed entirely right of or below the screen leaves the buffer as it was. */
  lemma {:induction false} BlittedOffScreen(f: seq<bv8>, a: Blit)
    requires IsFrame(f) && a.Fits() && (a.x >= WIDTH || a.y >= HEIGHT)
    ensures Blitted(f, a) == f
  {
    var r := Blitted(f, a);
    forall x: nat, y: nat | OnScreen(x, y)
      ensures Pixel(r, x, y) == Pixel(f, x, y)
    {
      assert !a.Covers(x, y);
    }
    PixelsDetermineFrame(r, f);
  }

  /** The blitted buffer is the walk over all rows. */
  lemma BlittedRows(f: seq<bv8>, a: Blit)
    requires IsFrame(f) && a.Fits()
    ensures Blitted(f, a) == DrawRows(f, a, a.height)
  {
  }

  /**
   * The blitter's byte operations for one on-screen source pixel: read bit
   * i % 8 of the source row byte, then set or clear bit (y % 8) of the
   * framebuffer byte of that screen pixel. They plot exactly that pixel.
   */
  lemma {:induction false} PlotSourceBytes(g: seq<bv8>, data: seq<bv8>, offset: nat, width: U8, height: U8,
                                           x: U8, y: U8, i: nat, j: nat, rowStart: nat,
                                           bufferIndex: nat, bit: nat, on: bool)
    requires IsFrame(g) && Blit(data, offset, width, height, x, y).Fits() && i < width && j < height
    requires x + i < WIDTH && y + j < HEIGHT && rowStart == offset + j * ((width + 7) / 8)
    requires bufferIndex == ((y + j) / 8) * WIDTH + (x + i) && bit == (y + j) % 8
    requires rowStart + i / 8 < |data| && on == ShiftBit(data[rowStart + i / 8], i % 8)
    ensures bufferIndex + 1 < |g| && bit < 8
    ensures PlotSource(g, Blit(data, offset, width, height, x, y), i, j)
      == g[bufferIndex + 1 := ShiftSetBit(g[bufferIndex + 1], bit, on)]
  {
    var a := Blit(data, offset, width, height, x, y);
    SourceBitRead(data, offset, width, height, x, y, i, j, rowStart);
    var k := PixelIndex(x + i, y + j);
    assert k == bufferIndex + 1;
    ShiftSetBitIsSetBit(g[k], bit, on);
    hide ShiftBit, ShiftSetBit, SetBit, Bit, Blit.SourceBit;
    assert PlotSource(g, a, i, j) == PlotPixel(g, x + i, y + j, on);
  }

  /** The driver's shift-and-mask read of a row byte yields the source pixel. */
  lemma {:induction false} SourceBitRead(data: seq<bv8>, offset: nat, width: U8, height: U8, x: U8, y: U8,
                                         i: nat, j: nat, rowStart: nat)
    requires Blit(data, offset, width, height, x, y).Fits() && i < width && j < height
    requires rowStart == offset + j * ((width + 7) / 8)
    ensures rowStart + i / 8 < |data|
    ensures Blit(data, offset, width, height, x, y).SourceBit(i, j) == ShiftBit(data[rowStart + i / 8], i % 8)
  {
    var a := Blit(data, offset, width, height, x, y);
    assert a.SourceIndex(i, j) == rowStart + i / 8;
    ShiftRead(data[rowStart + i / 8], i % 8);
  }

  /** The source byte the blitter reads for pixel (i, j) lies in the source. */
  lemma RowStartInBounds(data: seq<bv8>, offset: nat, width: U8, height: U8, x: U8, y: U8,
                         i: nat, j: nat, rowStart: nat)
    requires Blit(data, offset, width, height, x, y).Fits() && i < width && j < height
    requires rowStart == offset + j * ((width + 7) / 8)
    ensures rowStart + i / 8 < |data|
  {
    RowInBounds(width, height, i, j);
  }
}
