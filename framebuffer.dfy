/**
 * The framebuffer layout and the bitmap blitter.
 *
 * The driver's buffer holds a data-control marker at index 0 followed by
 * the pixel bytes in the controller's page-major layout: pixel (x, y) is
 * bit y % 8 of byte 1 + (y / 8) * WIDTH + x.
 */
module Framebuffer {
  import opened Ssd1306Def

  // ---- Bits of a byte -----------------------------------------------------

  /** The single-bit mask `1 << b`: one bit doubled `b` times. */
  function Mask(b: nat): bv8
    requires b < 8
    decreases b
  {
    if b == 0 then 1 else Mask(b - 1) << 1
  }

  /** Bit `b` of `v` is set: the low bit of `v` halved `b` times. */
  predicate Bit(v: bv8, b: nat)
    requires b < 8
    decreases b
  {
    if b == 0 then v & 1 == 1 else Bit(v >> 1, b - 1)
  }

  /** Bit `b` is the bit the mask of `b` selects. */
  lemma {:induction false} BitMask(v: bv8, b: nat)
    requires b < 8
    ensures Bit(v, b) == (v & Mask(b) != 0)
    decreases b
  {
    if b > 0 {
      BitMask(v >> 1, b - 1);
      // one case per bit index, so each shift is by a literal
      match b
      case 1 => case 2 => case 3 => case 4 => case 5 => case 6 => case _ =>
    }
  }

  /** The driver's `1 << b` is the mask of bit `b`. */
  lemma {:induction false} ShiftMask(b: nat)
    requires b < 8
    ensures (1 as bv8) << b == Mask(b)
  {
    // one case per bit index, so each shift is by a literal
    match b
    case 0 => case 1 => case 2 => case 3 => case 4 => case 5 => case 6 => case _ =>
  }

  /** The driver's `(v >> b) & 1` reads bit `b`. */
  lemma {:induction false} ShiftRead(v: bv8, b: nat)
    requires b < 8
    ensures ((v >> b) & 1 == 1) == Bit(v, b)
  {
    BitMask(v, b);
    // one case per bit index, so each shift is by a literal
    match b
    case 0 => assert (v >> 0) & 1 == v & 1;
    case 1 => case 2 => case 3 => case 4 => case 5 => case 6 => case _ =>
  }

  /** `v | (1 << b)` when `on`, `v & ~(1 << b)` otherwise. */
  function SetBit(v: bv8, b: nat, on: bool): bv8
    requires b < 8
  {
    if on then v | Mask(b) else v & !Mask(b)
  }

  /** The driver's read of bit `b`: `(v >> b) & 1`. */
  predicate ShiftBit(v: bv8, b: nat)
    requires b < 8
  {
    (v >> b) & 1 == 1
  }

  /** The driver's in-place update: `v | (1 << b)` to set the bit, `v & ~(1 << b)` to clear it. */
  function ShiftSetBit(v: bv8, b: nat, on: bool): bv8
    requires b < 8
  {
    if on then v | ((1 as bv8) << b) else v & !((1 as bv8) << b)
  }

  /** The shift form and the mask form of setting a bit agree. */
  lemma {:induction false} ShiftSetBitIsSetBit(v: bv8, b: nat, on: bool)
    requires b < 8
    ensures ShiftSetBit(v, b, on) == SetBit(v, b, on)
  {
    ShiftMask(b);
  }

  /** Setting or clearing bit `b` makes it `on` and keeps every other bit. */
  lemma {:induction false} SetBitAt(v: bv8, b: nat, on: bool, c: nat)
    requires b < 8 && c < 8
    ensures Bit(SetBit(v, b, on), c) == if c == b then on else Bit(v, c)
  {
    BitMask(SetBit(v, b, on), c);
    BitMask(v, c);
    if b != c {
      MasksDisjoint(b, c);
    } else {
      ShiftMask(b);
    }
  }

  /** Masks of different bits share no bit. */
  lemma {:induction false} MasksDisjoint(b: nat, c: nat)
    requires b < 8 && c < 8 && b != c
    ensures Mask(b) & Mask(c) == 0
  {
    ShiftMask(b);
    ShiftMask(c);
  }

  /** A byte is determined by its eight bits. */
  lemma {:induction false} BitsDetermineByte(u: bv8, v: bv8)
    requires forall c: nat :: 0 <= c < 8 ==> Bit(u, c) == Bit(v, c)
    ensures u == v
  {
    forall c: nat | c < 8 ensures (u & Mask(c) != 0) == (v & Mask(c) != 0) {
      BitMask(u, c);
      BitMask(v, c);
    }
    assert (u & Mask(0) != 0) == (v & Mask(0) != 0) && (u & Mask(1) != 0) == (v & Mask(1) != 0);
    assert (u & Mask(2) != 0) == (v & Mask(2) != 0) && (u & Mask(3) != 0) == (v & Mask(3) != 0);
    assert (u & Mask(4) != 0) == (v & Mask(4) != 0) && (u & Mask(5) != 0) == (v & Mask(5) != 0);
    assert (u & Mask(6) != 0) == (v & Mask(6) != 0) && (u & Mask(7) != 0) == (v & Mask(7) != 0);
  }

  // ---- Page-major layout --------------------------------------------------

  /** A buffer of the driver's size. */
  predicate IsFrame(f: seq<bv8>)
  {
    |f| == FRAME_BYTES
  }

  predicate OnScreen(x: nat, y: nat)
  {
    x < WIDTH && y < HEIGHT
  }

  /** Buffer index of the byte holding pixel (x, y). */
  function PixelIndex(x: nat, y: nat): (k: nat)
    requires OnScreen(x, y)
    ensures 1 <= k < FRAME_BYTES
  {
    1 + (y / 8) * WIDTH + x
  }

  /** Screen column of buffer byte `k`. */
  function ColumnOf(k: nat): nat
    requires 1 <= k
  {
    (k - 1) % WIDTH
  }

  /** Screen row of bit `b` of buffer byte `k`. */
  function RowOf(k: nat, b: nat): nat
    requires 1 <= k
  {
    ((k - 1) / WIDTH) * 8 + b
  }

  /** Every bit of every pixel byte is exactly one on-screen pixel. */
  lemma {:induction false} ByteBitIsPixel(k: nat, b: nat)
    requires 1 <= k < FRAME_BYTES && b < 8
    ensures OnScreen(ColumnOf(k), RowOf(k, b))
    ensures PixelIndex(ColumnOf(k), RowOf(k, b)) == k && RowOf(k, b) % 8 == b
  {
    GeometryFacts();
  }

  /** Two pixels stored at the same bit of the same byte are the same pixel. */
  lemma {:induction false} PixelIndexInjective(x: nat, y: nat, x': nat, y': nat)
    requires OnScreen(x, y) && OnScreen(x', y')
    requires PixelIndex(x, y) == PixelIndex(x', y') && y % 8 == y' % 8
    ensures x == x' && y == y'
  {
  }

  /** The state of pixel (x, y). */
  predicate Pixel(f: seq<bv8>, x: nat, y: nat)
    requires IsFrame(f) && OnScreen(x, y)
  {
    Bit(f[PixelIndex(x, y)], y % 8)
  }

  /** Two buffers with the same marker byte and the same pixels are equal. */
  lemma {:induction false} PixelsDetermineFrame(f: seq<bv8>, g: seq<bv8>)
    requires IsFrame(f) && IsFrame(g) && f[0] == g[0]
    requires forall x: nat, y: nat :: OnScreen(x, y) ==> Pixel(f, x, y) == Pixel(g, x, y)
    ensures f == g
  {
    forall k | 1 <= k < FRAME_BYTES
      ensures f[k] == g[k]
    {
      forall b: nat | 0 <= b < 8
        ensures Bit(f[k], b) == Bit(g[k], b)
      {
        ByteBitIsPixel(k, b);
        assert Pixel(f, ColumnOf(k), RowOf(k, b)) == Pixel(g, ColumnOf(k), RowOf(k, b));
      }
      BitsDetermineByte(f[k], g[k]);
    }
  }

  /** The read-modify-write of one pixel. */
  function PlotPixel(f: seq<bv8>, x: nat, y: nat, on: bool): (r: seq<bv8>)
    requires IsFrame(f) && OnScreen(x, y)
    ensures IsFrame(r) && r[0] == f[0]
  {
    var k := PixelIndex(x, y);
    f[k := SetBit(f[k], y % 8, on)]
  }

  /** Plotting (x, y) sets that pixel to `on` and leaves every other pixel as it was. */
  lemma {:induction false} PlotPixelPixel(f: seq<bv8>, x: nat, y: nat, on: bool, x': nat, y': nat)
    requires IsFrame(f) && OnScreen(x, y) && OnScreen(x', y')
    ensures Pixel(PlotPixel(f, x, y, on), x', y') == if x' == x && y' == y then on else Pixel(f, x', y')
  {
    SetBitAt(f[PixelIndex(x, y)], y % 8, on, y' % 8);
    if PixelIndex(x', y') == PixelIndex(x, y) && y' % 8 == y % 8 {
      PixelIndexInjective(x, y, x', y');
    }
  }

  // ---- Clearing -----------------------------------------------------------

  /** The buffer after its pixel bytes are zeroed. */
  function Cleared(f: seq<bv8>): (r: seq<bv8>)
    requires IsFrame(f)
    ensures IsFrame(r) && r[0] == f[0]
    ensures forall x: nat, y: nat :: OnScreen(x, y) ==> !Pixel(r, x, y)
  {
    var r := [f[0]] + seq(DISPLAY_BYTES, _ => 0);
    forall x: nat, y: nat | OnScreen(x, y) ensures !Pixel(r, x, y) {
      BitMask(0, y % 8);
    }
    r
  }

  /** The cleared buffer byte by byte: the marker byte, then zeros. */
  lemma ClearedBytes(f: seq<bv8>)
    requires IsFrame(f)
    ensures Cleared(f) == [f[0]] + seq(DISPLAY_BYTES, _ => 0)
  {
  }
}
