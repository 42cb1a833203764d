/**
 * The bitmap blitter's specification. Source bitmaps are row-major,
 * (width + 7) / 8 bytes per row, and bit i % 8 of a row byte holds column i.
 * The blitter walks the source row by row and pixel by pixel, skipping
 * destinations off the screen; these functions are that walk, step by step.
 */
module BlitSteps {
  import opened Ssd1306Def
  import opened Framebuffer

  /** Source bytes per bitmap row. */
  function BytesPerRow(width: nat): nat
  {
    (width + 7) / 8
  }

  /**
   * One call of the blitter: `height` rows of `width` pixels, read from
   * `data` starting at byte `offset`, drawn with their top-left corner at
   * screen position (x, y).
   */
  datatype Blit = Blit(data: seq<bv8>, offset: nat, width: U8, height: U8, x: U8, y: U8)
  {
    /** The source holds all the rows it declares. */
    predicate Fits()
    {
      offset + height * BytesPerRow(width) <= |data|
    }

    /** Index in `data` of the byte holding source pixel (i, j). */
    function SourceIndex(i: nat, j: nat): (k: nat)
      requires Fits() && i < width && j < height
      ensures k < |data|
    {
      RowInBounds(width, height, i, j);
      offset + j * BytesPerRow(width) + i / 8
    }

    /** Source pixel (i, j): bit i % 8 of its row byte. */
    predicate SourceBit(i: nat, j: nat)
      requires Fits() && i < width && j < height
    {
      Bit(data[SourceIndex(i, j)], i % 8)
    }

    /** Screen pixel (sx, sy) lies under the bitmap. */
    predicate Covers(sx: nat, sy: nat)
    {
      x <= sx < x + width && y <= sy < y + height
    }
  }

  lemma {:induction false} RowInBounds(width: nat, height: nat, i: nat, j: nat)
    requires i < width && j < height
    ensures j * BytesPerRow(width) + i / 8 < height * BytesPerRow(width)
  {
    var n := BytesPerRow(width);
    assert i / 8 < n;
    calc {
      j * n + i / 8;
    <  j * n + n;
    == (j + 1) * n;
    <= height * n;
    }
  }

  /** Source pixel (i, j) drawn if it lands on screen, skipped otherwise. */
  function PlotSource(f: seq<bv8>, a: Blit, i: nat, j: nat): (r: seq<bv8>)
    requires IsFrame(f) && a.Fits() && i < a.width && j < a.height
    ensures IsFrame(r) && r[0] == f[0]
  {
    if a.x + i >= WIDTH || a.y + j >= HEIGHT then f
    else PlotPixel(f, a.x + i, a.y + j, a.SourceBit(i, j))
  }

  /** Row `j` of the bitmap after its first `i` pixels were processed. */
  function DrawRow(f: seq<bv8>, a: Blit, j: nat, i: nat): (r: seq<bv8>)
    requires IsFrame(f) && a.Fits() && j < a.height && i <= a.width
    ensures IsFrame(r) && r[0] == f[0]
    decreases i
  {
    if i == 0 then f else PlotSource(DrawRow(f, a, j, i - 1), a, i - 1, j)
  }

  /** The buffer after the first `j` rows of the bitmap were processed. */
  function DrawRows(f: seq<bv8>, a: Blit, j: nat): (r: seq<bv8>)
    requires IsFrame(f) && a.Fits() && j <= a.height
    ensures IsFrame(r) && r[0] == f[0]
    decreases j
  {
    if j == 0 then f else DrawRow(DrawRows(f, a, j - 1), a, j - 1, a.width)
  }

  /** Before the first row, and before the first pixel of a row, nothing is drawn. */
  lemma DrawStart(f: seq<bv8>, a: Blit, j: nat)
    requires IsFrame(f) && a.Fits() && j < a.height
    ensures DrawRows(f, a, 0) == f && DrawRow(f, a, j, 0) == f
  {
  }

  /** One more pixel of a row: the row so far, then that pixel. */
  lemma DrawRowNext(f: seq<bv8>, a: Blit, j: nat, i: nat)
    requires IsFrame(f) && a.Fits() && j < a.height && i < a.width
    ensures DrawRow(f, a, j, i + 1) == PlotSource(DrawRow(f, a, j, i), a, i, j)
  {
  }

  /** One more row: the rows so far, then that whole row. */
  lemma DrawRowsNext(f: seq<bv8>, a: Blit, j: nat)
    requires IsFrame(f) && a.Fits() && j < a.height
    ensures DrawRows(f, a, j + 1) == DrawRow(DrawRows(f, a, j), a, j, a.width)
  {
  }

  /** A source pixel that lands off the screen changes nothing. */
  lemma PlotSourceSkipped(f: seq<bv8>, a: Blit, i: nat, j: nat)
    requires IsFrame(f) && a.Fits() && i < a.width && j < a.height
    requires a.x + i >= WIDTH || a.y + j >= HEIGHT
    ensures PlotSource(f, a, i, j) == f
  {
  }
}
