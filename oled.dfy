/*
 * The SSD1306 frame buffers and the drawing primitives that write them.
 *
 * oled_buffer is OLED_MAXBUFS buffers of OLED_BUFSZ bytes, stored one
 * after the other; pixel (x, y) of buffer b is bit y % 8 of byte
 * x + (y / 8) * OLED_W of that buffer.  The functions below are the
 * effect of each primitive on a snapshot of the whole store (a
 * seq<bv8>); class FrameBuffers holds the store as an array and its
 * methods update it in place, each proved to leave exactly the snapshot
 * the matching function describes.  Coordinates and sizes are the
 * uint8_t parameters of the C code.
 */
module Oled {
  import opened Font

  /** OLED_W and OLED_H: a 128 x 32 panel. */
  const Width := 128
  const Height := 32
  /** OLED_BUFSZ: one byte per eight-pixel column of a page. */
  const BufSz := 512
  /** OLED_MAXBUFS. */
  const MaxBufs := 2
  /**
   * MaxBufs * BufSz, the size of oled_buffer.  Products below write
   * BufSz and Width as the literals 512 and 128, which keeps the
   * arithmetic linear for the verifier.
   */
  const StoreSz := 1024

  type u8 = v: int | 0 <= v < 0x100

  predicate IsStore(s: seq<bv8>) { |s| == StoreSz }
  predicate IsBuf(b: int) { 0 <= b < MaxBufs }

  /** The clipping test of drawPixel, xorPixel and getPixel. */
  predicate OnScreen(x: int, y: int) { 0 <= x < Width && 0 <= y < Height }

  /** Index of the byte holding pixel (x, y) of buffer b. */
  function Offset(b: int, x: int, y: int): int
  {
    b * 512 + x + (y / 8) * 128
  }

  lemma OffsetInBuffer(b: int, x: int, y: int)
    requires IsBuf(b) && OnScreen(x, y)
    ensures b * 512 <= Offset(b, x, y) < b * 512 + BufSz
  {
  }

  /** 1 << r for a bit number r of a byte. */
  function BitMask(r: int): bv8
    requires 0 <= r < 8
  {
    if r == 0 then 0x01 else if r == 1 then 0x02 else if r == 2 then 0x04 else if r == 3 then 0x08
    else if r == 4 then 0x10 else if r == 5 then 0x20 else if r == 6 then 0x40 else 0x80
  }

  predicate Lit(v: bv8, r: int)
    requires 0 <= r < 8
  {
    v & BitMask(r) != 0
  }

  /** Bit q of 1 << r is set exactly when q is r. */
  lemma MaskBits(r: int, q: int)
    requires 0 <= r < 8 && 0 <= q < 8
    ensures Lit(BitMask(r), q) == (r == q)
  {
  }

  /** Or-ing, and-ing with the complement of, or xor-ing a mask m acts bit by bit. */
  lemma OrBit(v: bv8, m: bv8, q: int)
    requires 0 <= q < 8
    ensures Lit(v | m, q) == (Lit(m, q) || Lit(v, q))
  {
  }

  lemma AndNotBit(v: bv8, m: bv8, q: int)
    requires 0 <= q < 8
    ensures Lit(v & (m ^ 0xFF), q) == (!Lit(m, q) && Lit(v, q))
  {
  }

  lemma XorBit(v: bv8, m: bv8, q: int)
    requires 0 <= q < 8
    ensures Lit(v ^ m, q) == (Lit(m, q) != Lit(v, q))
  {
    var mq := BitMask(q);
    assert (v ^ m) & mq == (v & mq) ^ (m & mq);
    assert mq != 0;
    SingleBit(v, q);
    SingleBit(m, q);
    assert mq ^ mq == 0 && mq ^ 0 == mq && 0 ^ mq == mq;
  }

  /** A byte masked with 1 << q is 0 or the mask itself. */
  lemma SingleBit(v: bv8, q: int)
    requires 0 <= q < 8
    ensures v & BitMask(q) == 0 || v & BitMask(q) == BitMask(q)
  {
  }

  /** Two on-screen pixels share a byte and a bit only when they are the same pixel. */
  lemma PixelPlace(b: int, x: int, y: int, b': int, x': int, y': int)
    requires IsBuf(b) && OnScreen(x, y) && IsBuf(b') && OnScreen(x', y')
    requires Offset(b, x, y) == Offset(b', x', y')
    ensures b == b' && x == x' && y / 8 == y' / 8
    ensures y % 8 == y' % 8 ==> y == y'
  {
  }

  /** 1 for colour 1, 0 for anything else: what drawPixel leaves in the pixel. */
  function Ink(color: bv8): bv8
  {
    if color == 1 then 1 else 0
  }

  /** oled_getPixel on a snapshot: 0 off the screen, else the pixel's bit. */
  function GetPixel(s: seq<bv8>, b: int, x: int, y: int): (r: bv8)
    requires IsStore(s) && IsBuf(b)
  {
    if !OnScreen(x, y) then 0
    else if Lit(s[Offset(b, x, y)], y % 8) then 1 else 0
  }

  /** The byte drawPixel writes: bit r set for colour 1, cleared for any other. */
  function PlotByte(d: bv8, r: int, color: bv8): bv8
    requires 0 <= r < 8
  {
    if color == 1 then d | BitMask(r) else d & (BitMask(r) ^ 0xFF)
  }

  /** The byte xorPixel writes: bit r toggled. */
  function FlipByte(d: bv8, r: int): bv8
    requires 0 <= r < 8
  {
    d ^ BitMask(r)
  }

  /** oled_drawPixel: off the screen nothing; else set the bit for colour 1, clear it for any other. */
  function Plot(s: seq<bv8>, b: int, x: int, y: int, color: bv8): (t: seq<bv8>)
    requires IsStore(s) && IsBuf(b)
    ensures IsStore(t)
  {
    if !OnScreen(x, y) then s
    else
      var k := Offset(b, x, y);
      s[k := PlotByte(s[k], y % 8, color)]
  }

  /** oled_xorPixel: off the screen nothing; else toggle the bit. */
  function Flip(s: seq<bv8>, b: int, x: int, y: int): (t: seq<bv8>)
    requires IsStore(s) && IsBuf(b)
    ensures IsStore(t)
  {
    if !OnScreen(x, y) then s
    else
      var k := Offset(b, x, y);
      s[k := FlipByte(s[k], y % 8)]
  }

  /** A pixel reads as 0 or 1. */
  lemma GetPixelBit(s: seq<bv8>, b: int, x: int, y: int)
    requires IsStore(s) && IsBuf(b)
    ensures GetPixel(s, b, x, y) == 0 || GetPixel(s, b, x, y) == 1
    ensures Ink(GetPixel(s, b, x, y)) == GetPixel(s, b, x, y)
  {
  }

  /** Off the screen drawPixel and xorPixel leave the store as it was and getPixel reads 0. */
  lemma ClipPixel(s: seq<bv8>, b: int, x: int, y: int, color: bv8)
    requires IsStore(s) && IsBuf(b) && !OnScreen(x, y)
    ensures Plot(s, b, x, y, color) == s && Flip(s, b, x, y) == s
    ensures GetPixel(s, b, x, y) == 0
  {
  }

  /**
   * After drawPixel the plotted pixel reads back as its colour (1 for
   * colour 1, 0 otherwise) and every other pixel of every buffer reads
   * as before.
   */
  lemma PlotPixel(s: seq<bv8>, b: int, x: int, y: int, color: bv8, b': int, x': int, y': int)
    requires IsStore(s) && IsBuf(b) && IsBuf(b') && OnScreen(x', y')
    ensures GetPixel(Plot(s, b, x, y, color), b', x', y')
         == if b' == b && x' == x && y' == y then Ink(color) else GetPixel(s, b', x', y')
  {
    if OnScreen(x, y) {
      var k := Offset(b, x, y);
      var k' := Offset(b', x', y');
      OffsetInBuffer(b, x, y);
      OffsetInBuffer(b', x', y');
      if k == k' {
        PixelPlace(b, x, y, b', x', y');
        PlotByteBit(s[k], y % 8, color, y' % 8);
      } else {
        assert Plot(s, b, x, y, color)[k'] == s[k'];
      }
    }
  }

  /** drawPixel's byte: bit r becomes 1 exactly for colour 1, the other bits stay. */
  lemma PlotByteBit(d: bv8, r: int, color: bv8, q: int)
    requires 0 <= r < 8 && 0 <= q < 8
    ensures Lit(PlotByte(d, r, color), q) == if q == r then color == 1 else Lit(d, q)
  {
    if color == 1 {
      SetBit(d, r, q);
    } else {
      ClearBit(d, r, q);
    }
  }

  lemma SetBit(d: bv8, r: int, q: int)
    requires 0 <= r < 8 && 0 <= q < 8
    ensures Lit(d | BitMask(r), q) == (q == r || Lit(d, q))
  {
    MaskBits(r, q);
    OrBit(d, BitMask(r), q);
  }

  lemma ClearBit(d: bv8, r: int, q: int)
    requires 0 <= r < 8 && 0 <= q < 8
    ensures Lit(d & (BitMask(r) ^ 0xFF), q) == (q != r && Lit(d, q))
  {
    MaskBits(r, q);
    AndNotBit(d, BitMask(r), q);
  }

  /** After xorPixel the toggled pixel reads inverted and every other pixel reads as before. */
  lemma FlipPixel(s: seq<bv8>, b: int, x: int, y: int, b': int, x': int, y': int)
    requires IsStore(s) && IsBuf(b) && IsBuf(b') && OnScreen(x', y')
    ensures GetPixel(Flip(s, b, x, y), b', x', y')
         == if b' == b && x' == x && y' == y then GetPixel(s, b', x', y') ^ 1 else GetPixel(s, b', x', y')
  {
    if OnScreen(x, y) {
      var k := Offset(b, x, y);
      var k' := Offset(b', x', y');
      OffsetInBuffer(b, x, y);
      OffsetInBuffer(b', x', y');
      if k == k' {
        PixelPlace(b, x, y, b', x', y');
        FlipByteBit(s[k], y % 8, y' % 8);
      } else {
        assert Flip(s, b, x, y)[k'] == s[k'];
      }
    }
  }

  /** xorPixel's byte: bit r inverted, the other bits stay. */
  lemma FlipByteBit(d: bv8, r: int, q: int)
    requires 0 <= r < 8 && 0 <= q < 8
    ensures Lit(FlipByte(d, r), q) == if q == r then !Lit(d, q) else Lit(d, q)
  {
    MaskBits(r, q);
    XorBit(d, BitMask(r), q);
  }

  /** xorPixel twice on the same pixel restores the store byte for byte. */
  lemma FlipTwice(s: seq<bv8>, b: int, x: int, y: int)
    requires IsStore(s) && IsBuf(b)
    ensures Flip(Flip(s, b, x, y), b, x, y) == s
  {
    if OnScreen(x, y) {
      var k := Offset(b, x, y);
      OffsetInBuffer(b, x, y);
      assert (s[k] ^ BitMask(y % 8)) ^ BitMask(y % 8) == s[k];
      assert Flip(Flip(s, b, x, y), b, x, y)[k] == s[k];
    }
  }

  // ------------------------------------------------------------ whole buffers

  /** oled_clear: every byte of buffer b becomes 0xFF for colour 1, 0x00 for any other. */
  function Fill(s: seq<bv8>, b: int, color: bv8): (t: seq<bv8>)
    requires IsStore(s) && IsBuf(b)
    ensures IsStore(t)
  {
    seq(|s|, k requires 0 <= k < |s| => if b * 512 <= k < b * 512 + BufSz then (if color == 1 then 0xFF else 0x00) else s[k])
  }

  /** After oled_clear every pixel of buffer b reads as the colour; other buffers read as before. */
  lemma FillPixels(s: seq<bv8>, b: int, color: bv8, b': int, x: int, y: int)
    requires IsStore(s) && IsBuf(b) && IsBuf(b') && OnScreen(x, y)
    ensures GetPixel(Fill(s, b, color), b', x, y) == if b' == b then Ink(color) else GetPixel(s, b', x, y)
  {
    OffsetInBuffer(b', x, y);
    var v: bv8 := if color == 1 then 0xFF else 0x00;
    if b' == b {
      assert Lit(0xFF, y % 8) && !Lit(0x00, y % 8);
    }
  }

  /** oled_cpy_buf: buffer dst becomes a copy of buffer src. */
  function Copy(s: seq<bv8>, dst: int, src: int): (t: seq<bv8>)
    requires IsStore(s) && IsBuf(dst) && IsBuf(src)
    ensures IsStore(t)
  {
    seq(|s|, k requires 0 <= k < |s| => if dst * 512 <= k < dst * 512 + BufSz then s[src * 512 + (k - dst * 512)] else s[k])
  }

  /** After oled_cpy_buf each pixel of dst reads as the same pixel of src did; other buffers are unchanged. */
  lemma CopyPixels(s: seq<bv8>, dst: int, src: int, b': int, x: int, y: int)
    requires IsStore(s) && IsBuf(dst) && IsBuf(src) && IsBuf(b') && OnScreen(x, y)
    ensures GetPixel(Copy(s, dst, src), b', x, y) == if b' == dst then GetPixel(s, src, x, y) else GetPixel(s, b', x, y)
  {
    OffsetInBuffer(b', x, y);
    OffsetInBuffer(src, x, y);
  }

  // ------------------------------------------------------------ point sets

  datatype Point = Point(x: int, y: int)

  /** k steps of a uint8_t counter from x. */
  function Step(x: int, k: int): int
  {
    if x + k < 256 then x + k else x + k - 256
  }

  /** A uint8_t counter one step further. */
  lemma StepNext(x: int, k: int)
    requires 0 <= x < 256 && 0 <= k < 256
    ensures Step(x, k + 1) == (Step(x, k) + 1) % 256
  {
  }

  /** k steps from x is the uint8_t sum x + k. */
  lemma StepMod(x: int, k: int)
    requires 0 <= x < 256 && 0 <= k < 256
    ensures Step(x, k) == (x + k) % 256
  {
  }

  /** The number of steps a uint8_t counter takes from x to a. */
  function Dist(a: int, x: int): int
  {
    if a >= x then a - x else a + 256 - x
  }

  /** w points from column x along line yy, the column a uint8_t counter that wraps. */
  function RowPts(x: int, yy: int, w: nat): (r: seq<Point>)
    ensures |r| == w
    ensures forall k :: 0 <= k < w ==> r[k] == Point(Step(x, k), yy)
  {
    seq(w, k requires 0 <= k < w => Point(Step(x, k), yy))
  }

  /**
   * The h lines of w points that a row-major scan from (x, y) visits
   * with uint8_t coordinates: line after line, each left to right.
   */
  function Grid(x: int, y: int, w: nat, h: nat): (g: seq<Point>)
    ensures |g| == h * w
    decreases h
  {
    if h == 0 then []
    else
      var g := Grid(x, y, w, h - 1) + RowPts(x, Step(y, h - 1), w);
      assert |g| == (h - 1) * w + w == h * w;
      g
  }

  /** Membership in a grid without a witness: the uint8_t distance from the corner is inside it. */
  predicate InGrid(p: Point, x: int, y: int, w: int, h: int)
  {
    0 <= p.x < 256 && 0 <= p.y < 256 && Dist(p.x, x) < w && Dist(p.y, y) < h
  }

  predicate Distinct(pts: seq<Point>)
  {
    forall i, j :: 0 <= i < j < |pts| ==> pts[i] != pts[j]
  }

  lemma {:induction false} RowMember(x: u8, yy: int, w: nat, p: Point)
    requires w <= 256
    ensures p in RowPts(x, yy, w) <==> 0 <= p.x < 256 && Dist(p.x, x) < w && p.y == yy
  {
    if 0 <= p.x < 256 && Dist(p.x, x) < w && p.y == yy {
      assert RowPts(x, yy, w)[Dist(p.x, x)] == p;
    }
  }

  /** A point is in the grid exactly when it is in its range. */
  lemma {:induction false} GridMember(x: u8, y: u8, w: nat, h: nat, p: Point)
    requires w <= 256 && h <= 256
    ensures p in Grid(x, y, w, h) <==> InGrid(p, x, y, w, h)
    decreases h
  {
    if h > 0 {
      GridMember(x, y, w, h - 1, p);
      RowMember(x, Step(y, h - 1), w, p);
    }
  }

  lemma RowDistinct(x: u8, yy: int, w: nat)
    requires w <= 256
    ensures Distinct(RowPts(x, yy, w))
  {
  }

  /** With sides up to 256 a scan never visits a pixel twice. */
  lemma {:induction false} GridDistinct(x: u8, y: u8, w: nat, h: nat)
    requires w <= 256 && h <= 256
    ensures Distinct(Grid(x, y, w, h))
    decreases h
  {
    if h > 0 {
      var a := Grid(x, y, w, h - 1);
      var r := RowPts(x, Step(y, h - 1), w);
      GridDistinct(x, y, w, h - 1);
      RowDistinct(x, Step(y, h - 1), w);
      forall i, j | 0 <= i < |a| && 0 <= j < |r|
        ensures a[i] != r[j]
      {
        GridMember(x, y, w, h - 1, a[i]);
      }
      assert Grid(x, y, w, h) == a + r;
    }
  }

  /** Entry r*w + k of the grid is column k of line r. */
  lemma {:induction false} GridAt(x: int, y: int, w: nat, h: nat, r: int, k: int)
    requires 0 <= r < h && 0 <= k < w
    ensures 0 <= r * w + k < h * w
    ensures Grid(x, y, w, h)[r * w + k] == Point(Step(x, k), Step(y, r))
    decreases h
  {
    assert r * w + k < (r + 1) * w <= h * w;
    if r < h - 1 {
      GridAt(x, y, w, h - 1, r, k);
      assert r * w + k < (h - 1) * w;
    } else {
      assert r * w + k == (h - 1) * w + k;
    }
  }

  // ------------------------------------------------------------ painting

  /** drawPixel at each point in turn, point i in colour cols[i]. */
  function Paint(s: seq<bv8>, b: int, pts: seq<Point>, cols: seq<bv8>): (t: seq<bv8>)
    requires IsStore(s) && IsBuf(b) && |cols| == |pts|
    ensures IsStore(t)
    decreases |pts|
  {
    if |pts| == 0 then s
    else
      var n := |pts| - 1;
      Plot(Paint(s, b, pts[..n], cols[..n]), b, pts[n].x, pts[n].y, cols[n])
  }

  /** n copies of one colour. */
  function Solid(n: nat, c: bv8): (cs: seq<bv8>)
    ensures |cs| == n
  {
    seq(n, _ => c)
  }

  lemma SolidNext(n: nat, c: bv8)
    ensures Solid(n, c) + [c] == Solid(n + 1, c)
  {
  }

  /** xorPixel at each point in turn. */
  function FlipAll(s: seq<bv8>, b: int, pts: seq<Point>): (t: seq<bv8>)
    requires IsStore(s) && IsBuf(b)
    ensures IsStore(t)
    decreases |pts|
  {
    if |pts| == 0 then s
    else
      var n := |pts| - 1;
      Flip(FlipAll(s, b, pts[..n]), b, pts[n].x, pts[n].y)
  }

  lemma PaintSnoc(s: seq<bv8>, b: int, pts: seq<Point>, cols: seq<bv8>, p: Point, c: bv8)
    requires IsStore(s) && IsBuf(b) && |cols| == |pts|
    ensures Paint(s, b, pts + [p], cols + [c]) == Plot(Paint(s, b, pts, cols), b, p.x, p.y, c)
  {
    assert (pts + [p])[..|pts|] == pts;
    assert (cols + [c])[..|pts|] == cols;
  }

  lemma FlipAllSnoc(s: seq<bv8>, b: int, pts: seq<Point>, p: Point)
    requires IsStore(s) && IsBuf(b)
    ensures FlipAll(s, b, pts + [p]) == Flip(FlipAll(s, b, pts), b, p.x, p.y)
  {
    assert (pts + [p])[..|pts|] == pts;
  }

  /**
   * Painting in one colour: a pixel at one of the points reads as the
   * colour, any other pixel reads as before, whatever the order and
   * however often a point repeats.
   */
  lemma {:induction false} PaintSolid(s: seq<bv8>, b: int, pts: seq<Point>, c: bv8, b': int, px: int, py: int)
    requires IsStore(s) && IsBuf(b) && IsBuf(b') && OnScreen(px, py)
    ensures GetPixel(Paint(s, b, pts, Solid(|pts|, c)), b', px, py)
         == if b' == b && Point(px, py) in pts then Ink(c) else GetPixel(s, b', px, py)
    decreases |pts|
  {
    if |pts| > 0 {
      var n := |pts| - 1;
      assert Solid(|pts|, c)[..n] == Solid(n, c);
      PaintSolid(s, b, pts[..n], c, b', px, py);
      PlotPixel(Paint(s, b, pts[..n], Solid(n, c)), b, pts[n].x, pts[n].y, c, b', px, py);
      assert pts == pts[..n] + [pts[n]];
    }
  }

  /** A pixel none of the points names reads as before. */
  lemma {:induction false} PaintElsewhere(s: seq<bv8>, b: int, pts: seq<Point>, cols: seq<bv8>, b': int, px: int, py: int)
    requires IsStore(s) && IsBuf(b) && |cols| == |pts| && IsBuf(b') && OnScreen(px, py)
    requires b' != b || Point(px, py) !in pts
    ensures GetPixel(Paint(s, b, pts, cols), b', px, py) == GetPixel(s, b', px, py)
    decreases |pts|
  {
    if |pts| > 0 {
      var n := |pts| - 1;
      assert pts == pts[..n] + [pts[n]];
      PaintElsewhere(s, b, pts[..n], cols[..n], b', px, py);
      PlotPixel(Paint(s, b, pts[..n], cols[..n]), b, pts[n].x, pts[n].y, cols[n], b', px, py);
    }
  }

  /** With no point repeated, the pixel at point i reads as colour i. */
  lemma {:induction false} PaintAt(s: seq<bv8>, b: int, pts: seq<Point>, cols: seq<bv8>, i: int)
    requires IsStore(s) && IsBuf(b) && |cols| == |pts| && Distinct(pts)
    requires 0 <= i < |pts| && OnScreen(pts[i].x, pts[i].y)
    ensures GetPixel(Paint(s, b, pts, cols), b, pts[i].x, pts[i].y) == Ink(cols[i])
    decreases |pts|
  {
    var n := |pts| - 1;
    var t := Paint(s, b, pts[..n], cols[..n]);
    PlotPixel(t, b, pts[n].x, pts[n].y, cols[n], b, pts[i].x, pts[i].y);
    if i < n {
      PaintAt(s, b, pts[..n], cols[..n], i);
    }
  }

  /** With no point repeated, xorPixel over the points inverts exactly those pixels. */
  lemma {:induction false} FlipAllPixel(s: seq<bv8>, b: int, pts: seq<Point>, b': int, px: int, py: int)
    requires IsStore(s) && IsBuf(b) && Distinct(pts) && IsBuf(b') && OnScreen(px, py)
    ensures GetPixel(FlipAll(s, b, pts), b', px, py)
         == if b' == b && Point(px, py) in pts then GetPixel(s, b', px, py) ^ 1 else GetPixel(s, b', px, py)
    decreases |pts|
  {
    if |pts| > 0 {
      var n := |pts| - 1;
      assert pts == pts[..n] + [pts[n]];
      FlipAllPixel(s, b, pts[..n], b', px, py);
      FlipPixel(FlipAll(s, b, pts[..n]), b, pts[n].x, pts[n].y, b', px, py);
      if b' == b && Point(px, py) == pts[n] {
        assert Point(px, py) !in pts[..n];
      }
    }
  }

  /** Two xorPixels commute. */
  lemma FlipCommute(s: seq<bv8>, b: int, p: Point, q: Point)
    requires IsStore(s) && IsBuf(b)
    ensures Flip(Flip(s, b, p.x, p.y), b, q.x, q.y) == Flip(Flip(s, b, q.x, q.y), b, p.x, p.y)
  {
    if OnScreen(p.x, p.y) && OnScreen(q.x, q.y) {
      FlipBoth(s, b, p, q);
    } else if OnScreen(p.x, p.y) {
      assert Flip(s, b, q.x, q.y) == s;
      assert Flip(Flip(s, b, p.x, p.y), b, q.x, q.y) == Flip(s, b, p.x, p.y);
    } else {
      assert Flip(s, b, p.x, p.y) == s;
      assert Flip(Flip(s, b, q.x, q.y), b, p.x, p.y) == Flip(s, b, q.x, q.y);
    }
  }

  lemma FlipBoth(s: seq<bv8>, b: int, p: Point, q: Point)
    requires IsStore(s) && IsBuf(b) && OnScreen(p.x, p.y) && OnScreen(q.x, q.y)
    ensures Flip(Flip(s, b, p.x, p.y), b, q.x, q.y) == Flip(Flip(s, b, q.x, q.y), b, p.x, p.y)
  {
    var sp := Flip(s, b, p.x, p.y);
    var sq := Flip(s, b, q.x, q.y);
    FlipAt(s, b, p.x, p.y);
    FlipAt(s, b, q.x, q.y);
    FlipAt(sp, b, q.x, q.y);
    FlipAt(sq, b, p.x, p.y);
    XorCommute(s, Offset(b, p.x, p.y), p.y % 8, Offset(b, q.x, q.y), q.y % 8, sp, sq);
  }

  /** xorPixel on an on-screen pixel inverts one bit of its byte. */
  lemma FlipAt(s: seq<bv8>, b: int, x: int, y: int)
    requires IsStore(s) && IsBuf(b) && OnScreen(x, y)
    ensures 0 <= Offset(b, x, y) < |s|
    ensures Flip(s, b, x, y) == s[Offset(b, x, y) := FlipByte(s[Offset(b, x, y)], y % 8)]
  {
    OffsetInBuffer(b, x, y);
  }

  /** Inverting bit r of byte k and bit r' of byte k' gives the same store in either order. */
  lemma XorCommute(s: seq<bv8>, k: int, r: int, k': int, r': int, sp: seq<bv8>, sq: seq<bv8>)
    requires 0 <= k < |s| && 0 <= k' < |s| && 0 <= r < 8 && 0 <= r' < 8
    requires sp == s[k := FlipByte(s[k], r)] && sq == s[k' := FlipByte(s[k'], r')]
    ensures sp[k' := FlipByte(sp[k'], r')] == sq[k := FlipByte(sq[k], r)]
  {
    if k == k' {
      XorSwap(s[k], r, r');
    } else {
      UpdateSwap(s, k, FlipByte(s[k], r), k', FlipByte(s[k'], r'));
    }
  }

  lemma XorSwap(v: bv8, r: int, r': int)
    requires 0 <= r < 8 && 0 <= r' < 8
    ensures FlipByte(FlipByte(v, r), r') == FlipByte(FlipByte(v, r'), r)
  {
  }

  lemma UpdateSwap(s: seq<bv8>, k: int, v: bv8, k': int, v': bv8)
    requires 0 <= k < |s| && 0 <= k' < |s| && k != k'
    ensures s[k := v][k' := v'] == s[k' := v'][k := v]
  {
  }

  /** An xorPixel can be moved from before a run of xorPixels to after it. */
  lemma {:induction false} FlipThrough(s: seq<bv8>, b: int, p: Point, pts: seq<Point>)
    requires IsStore(s) && IsBuf(b)
    ensures FlipAll(Flip(s, b, p.x, p.y), b, pts) == Flip(FlipAll(s, b, pts), b, p.x, p.y)
    decreases |pts|
  {
    if |pts| > 0 {
      var n := |pts| - 1;
      FlipThrough(s, b, p, pts[..n]);
      FlipCommute(FlipAll(s, b, pts[..n]), b, p, pts[n]);
    }
  }

  /** The same run of xorPixels twice restores the store byte for byte. */
  lemma {:induction false} FlipAllTwice(s: seq<bv8>, b: int, pts: seq<Point>)
    requires IsStore(s) && IsBuf(b)
    ensures FlipAll(FlipAll(s, b, pts), b, pts) == s
    decreases |pts|
  {
    if |pts| > 0 {
      var n := |pts| - 1;
      var p := pts[n];
      var once := FlipAll(s, b, pts[..n]);
      calc {
        FlipAll(FlipAll(s, b, pts), b, pts);
        Flip(FlipAll(Flip(once, b, p.x, p.y), b, pts[..n]), b, p.x, p.y);
        { FlipThrough(once, b, p, pts[..n]); }
        Flip(Flip(FlipAll(once, b, pts[..n]), b, p.x, p.y), b, p.x, p.y);
        { FlipTwice(FlipAll(once, b, pts[..n]), b, p.x, p.y); }
        FlipAll(once, b, pts[..n]);
        { FlipAllTwice(s, b, pts[..n]); }
        s;
      }
    }
  }

  /** The append form of Paint: a run of points then another. */
  lemma {:induction false} PaintAppend(s: seq<bv8>, b: int, pa: seq<Point>, ca: seq<bv8>, pb: seq<Point>, cb: seq<bv8>)
    requires IsStore(s) && IsBuf(b) && |ca| == |pa| && |cb| == |pb|
    ensures Paint(s, b, pa + pb, ca + cb) == Paint(Paint(s, b, pa, ca), b, pb, cb)
    decreases |pb|
  {
    if |pb| == 0 {
      assert pa + pb == pa && ca + cb == ca;
    } else {
      var n := |pb| - 1;
      PaintAppend(s, b, pa, ca, pb[..n], cb[..n]);
      assert (pa + pb)[..|pa| + n] == pa + pb[..n];
      assert (ca + cb)[..|pa| + n] == ca + cb[..n];
      assert (pa + pb)[|pa| + n] == pb[n] && (ca + cb)[|pa| + n] == cb[n];
    }
  }

  // ------------------------------------------------------------ lines and boxes

  /** The clipped length of a line: cut at the edge when start + len - 1 reaches it. */
  function ClipLen(start: int, len: int, edge: int): int
  {
    if start + len - 1 >= edge then edge - start else len
  }

  /** The pixels drawFastVLine plots, top to bottom. */
  function VLinePts(x: u8, y: u8, h: u8): seq<Point>
  {
    if !OnScreen(x, y) then [] else Grid(x, y, 1, ClipLen(y, h, Height))
  }

  /** The pixels drawFastHLine plots, left to right. */
  function HLinePts(x: u8, y: u8, w: u8): seq<Point>
  {
    if !OnScreen(x, y) then [] else Grid(x, y, ClipLen(x, w, Width), 1)
  }

  /** Pixel (px, py) is on the vertical line of h pixels down from an on-screen (x, y). */
  predicate OnVLine(px: int, py: int, x: int, y: int, h: int)
  {
    OnScreen(x, y) && px == x && y <= py < y + h
  }

  predicate OnHLine(px: int, py: int, x: int, y: int, w: int)
  {
    OnScreen(x, y) && py == y && x <= px < x + w
  }

  /** drawFastVLine from an on-screen origin paints the grid one column wide. */
  lemma VLineGrid(s: seq<bv8>, b: int, x: u8, y: u8, h: u8, c: bv8)
    requires IsStore(s) && IsBuf(b) && OnScreen(x, y)
    ensures var n := ClipLen(y, h, Height); var pts := VLinePts(x, y, h);
      0 <= n && Paint(s, b, Grid(x, y, 1, n), Solid(n, c)) == Paint(s, b, pts, Solid(|pts|, c))
  {
  }

  /** drawFastHLine from an on-screen origin paints the grid one line high. */
  lemma HLineGrid(s: seq<bv8>, b: int, x: u8, y: u8, w: u8, c: bv8)
    requires IsStore(s) && IsBuf(b) && OnScreen(x, y)
    ensures var n := ClipLen(x, w, Width); var pts := HLinePts(x, y, w);
      0 <= n && Paint(s, b, Grid(x, y, n, 1), Solid(n, c)) == Paint(s, b, pts, Solid(|pts|, c))
  {
  }

  /** drawFastVLine plots exactly the on-screen part of its line, at most Height - y pixels. */
  lemma VLineMember(x: u8, y: u8, h: u8, px: int, py: int)
    requires OnScreen(px, py)
    ensures OnScreen(x, y) ==> |VLinePts(x, y, h)| <= Height - y
    ensures Point(px, py) in VLinePts(x, y, h) <==> OnVLine(px, py, x, y, h)
  {
    if OnScreen(x, y) {
      GridMember(x, y, 1, ClipLen(y, h, Height), Point(px, py));
    }
  }

  /** drawFastHLine plots exactly the on-screen part of its line, at most Width - x pixels. */
  lemma HLineMember(x: u8, y: u8, w: u8, px: int, py: int)
    requires OnScreen(px, py)
    ensures OnScreen(x, y) ==> |HLinePts(x, y, w)| <= Width - x
    ensures Point(px, py) in HLinePts(x, y, w) <==> OnHLine(px, py, x, y, w)
  {
    if OnScreen(x, y) {
      GridMember(x, y, ClipLen(x, w, Width), 1, Point(px, py));
    }
  }

  /** oled_Box: two vertical and two horizontal lines, the far ones at uint8_t x+w-1 and y+h-1. */
  function BoxPts(x: u8, y: u8, w: u8, h: u8): seq<Point>
  {
    VLinePts(x, y, h) + VLinePts((x + w - 1) % 256, y, h) + HLinePts(x, y, w) + HLinePts(x, (y + h - 1) % 256, w)
  }

  /** After drawFastVLine the line's pixels read as the colour and all others as before. */
  lemma VLinePixels(s: seq<bv8>, b: int, x: u8, y: u8, h: u8, color: bv8, b': int, px: int, py: int)
    requires IsStore(s) && IsBuf(b) && IsBuf(b') && OnScreen(px, py)
    ensures var pts := VLinePts(x, y, h);
      GetPixel(Paint(s, b, pts, Solid(|pts|, color)), b', px, py)
        == if b' == b && OnVLine(px, py, x, y, h) then Ink(color) else GetPixel(s, b', px, py)
  {
    PaintSolid(s, b, VLinePts(x, y, h), color, b', px, py);
    VLineMember(x, y, h, px, py);
  }

  /** After drawFastHLine the line's pixels read as the colour and all others as before. */
  lemma HLinePixels(s: seq<bv8>, b: int, x: u8, y: u8, w: u8, color: bv8, b': int, px: int, py: int)
    requires IsStore(s) && IsBuf(b) && IsBuf(b') && OnScreen(px, py)
    ensures var pts := HLinePts(x, y, w);
      GetPixel(Paint(s, b, pts, Solid(|pts|, color)), b', px, py)
        == if b' == b && OnHLine(px, py, x, y, w) then Ink(color) else GetPixel(s, b', px, py)
  {
    PaintSolid(s, b, HLinePts(x, y, w), color, b', px, py);
    HLineMember(x, y, w, px, py);
  }

  /** After oled_Box the pixels of its four sides read as the colour and all others as before. */
  lemma BoxPixels(s: seq<bv8>, b: int, x: u8, y: u8, w: u8, h: u8, color: bv8, b': int, px: int, py: int)
    requires IsStore(s) && IsBuf(b) && IsBuf(b') && OnScreen(px, py)
    ensures var pts := BoxPts(x, y, w, h);
      GetPixel(Paint(s, b, pts, Solid(|pts|, color)), b', px, py)
        == if b' == b && (OnVLine(px, py, x, y, h) || OnVLine(px, py, (x + w - 1) % 256, y, h)
                          || OnHLine(px, py, x, y, w) || OnHLine(px, py, x, (y + h - 1) % 256, w))
           then Ink(color) else GetPixel(s, b', px, py)
  {
    PaintSolid(s, b, BoxPts(x, y, w, h), color, b', px, py);
    VLineMember(x, y, h, px, py);
    VLineMember((x + w - 1) % 256, y, h, px, py);
    HLineMember(x, y, w, px, py);
    HLineMember(x, (y + h - 1) % 256, w, px, py);
  }

  // ------------------------------------------------------------ rectangles

  /** After oled_drawrect the pixels of the wrapped w by h block read as the colour, all others as before. */
  lemma DrawRectPixels(s: seq<bv8>, b: int, x: u8, y: u8, w: u8, h: u8, color: bv8, b': int, px: int, py: int)
    requires IsStore(s) && IsBuf(b) && IsBuf(b') && OnScreen(px, py)
    ensures GetPixel(Paint(s, b, Grid(x, y, w, h), Solid(h * w, color)), b', px, py)
         == if b' == b && InGrid(Point(px, py), x, y, w, h) then Ink(color) else GetPixel(s, b', px, py)
  {
    PaintSolid(s, b, Grid(x, y, w, h), color, b', px, py);
    GridMember(x, y, w, h, Point(px, py));
  }

  /** After oled_xorrect the pixels of the block read inverted, all others as before. */
  lemma XorRectPixels(s: seq<bv8>, b: int, x: u8, y: u8, w: u8, h: u8, b': int, px: int, py: int)
    requires IsStore(s) && IsBuf(b) && IsBuf(b') && OnScreen(px, py)
    ensures GetPixel(FlipAll(s, b, Grid(x, y, w, h)), b', px, py)
         == if b' == b && InGrid(Point(px, py), x, y, w, h) then GetPixel(s, b', px, py) ^ 1 else GetPixel(s, b', px, py)
  {
    GridDistinct(x, y, w, h);
    FlipAllPixel(s, b, Grid(x, y, w, h), b', px, py);
    GridMember(x, y, w, h, Point(px, py));
  }

  /** oled_xorrect twice with the same arguments restores the store. */
  lemma XorRectTwice(s: seq<bv8>, b: int, x: u8, y: u8, w: u8, h: u8)
    requires IsStore(s) && IsBuf(b)
    ensures FlipAll(FlipAll(s, b, Grid(x, y, w, h)), b, Grid(x, y, w, h)) == s
  {
    FlipAllTwice(s, b, Grid(x, y, w, h));
  }

  // ------------------------------------------------------------ scans in progress

  /** The points a row-major scan from (x, y) has visited after r full lines and k points of line r. */
  function ScanPts(x: int, y: int, w: nat, r: nat, k: nat): (pts: seq<Point>)
  {
    Grid(x, y, w, r) + RowPts(x, Step(y, r), k)
  }

  /** The scan's next point is column k of line r, both uint8_t counters. */
  lemma ScanNext(x: int, y: int, w: nat, r: nat, k: nat)
    ensures ScanPts(x, y, w, r, k + 1) == ScanPts(x, y, w, r, k) + [Point(Step(x, k), Step(y, r))]
  {
    assert RowPts(x, Step(y, r), k + 1) == RowPts(x, Step(y, r), k) + [Point(Step(x, k), Step(y, r))];
  }

  /** A line starts with the grid of the lines above it and ends with the grid one line taller. */
  lemma ScanLine(x: int, y: int, w: nat, r: nat)
    ensures ScanPts(x, y, w, r, 0) == Grid(x, y, w, r)
    ensures ScanPts(x, y, w, r, w) == Grid(x, y, w, r + 1)
  {
    assert RowPts(x, Step(y, r), 0) == [];
  }

  /** One more pixel of a scan painted in per-point colours. */
  lemma PaintScanNext(s: seq<bv8>, b: int, x: int, y: int, w: nat, r: nat, k: nat, cs: seq<bv8>, c: bv8)
    requires IsStore(s) && IsBuf(b) && |cs| == r * w + k
    ensures Paint(s, b, ScanPts(x, y, w, r, k + 1), cs + [c])
         == Plot(Paint(s, b, ScanPts(x, y, w, r, k), cs), b, Step(x, k), Step(y, r), c)
  {
    ScanNext(x, y, w, r, k);
    PaintSnoc(s, b, ScanPts(x, y, w, r, k), cs, Point(Step(x, k), Step(y, r)), c);
  }

  /** One more pixel of a scan inverted. */
  lemma FlipScanNext(s: seq<bv8>, b: int, x: int, y: int, w: nat, r: nat, k: nat)
    requires IsStore(s) && IsBuf(b)
    ensures FlipAll(s, b, ScanPts(x, y, w, r, k + 1)) == Flip(FlipAll(s, b, ScanPts(x, y, w, r, k)), b, Step(x, k), Step(y, r))
  {
    ScanNext(x, y, w, r, k);
    FlipAllSnoc(s, b, ScanPts(x, y, w, r, k), Point(Step(x, k), Step(y, r)));
  }

  /** A scan inverted to the end of line r has inverted the grid of r + 1 lines. */
  lemma FlipLine(s: seq<bv8>, b: int, x: int, y: int, w: nat, r: nat)
    requires IsStore(s) && IsBuf(b)
    ensures FlipAll(s, b, ScanPts(x, y, w, r, w)) == FlipAll(s, b, Grid(x, y, w, r + 1))
  {
    ScanLine(x, y, w, r);
  }

  /** A scan painted to the end of line r has painted the grid of r + 1 lines. */
  lemma PaintLine(s: seq<bv8>, b: int, x: int, y: int, w: nat, r: nat, cs: seq<bv8>)
    requires IsStore(s) && IsBuf(b) && |cs| == r * w + w
    ensures |Grid(x, y, w, r + 1)| == |cs|
    ensures Paint(s, b, ScanPts(x, y, w, r, w), cs) == Paint(s, b, Grid(x, y, w, r + 1), cs)
  {
    ScanLine(x, y, w, r);
  }

  /** A one-colour scan that has finished line r is the one-colour grid of r + 1 lines. */
  lemma PaintSolidLine(s: seq<bv8>, b: int, x: int, y: int, w: nat, r: nat, q: nat, c: bv8)
    requires IsStore(s) && IsBuf(b) && q == |ScanPts(x, y, w, r, w)|
    ensures Paint(s, b, ScanPts(x, y, w, r, w), Solid(q, c)) == Paint(s, b, Grid(x, y, w, r + 1), Solid(|Grid(x, y, w, r + 1)|, c))
  {
    ScanLine(x, y, w, r);
  }

  /** Painting two runs of points in one colour is painting them joined. */
  lemma PaintSolidAppend(s: seq<bv8>, b: int, pa: seq<Point>, pb: seq<Point>, c: bv8)
    requires IsStore(s) && IsBuf(b)
    ensures Paint(s, b, pa + pb, Solid(|pa + pb|, c)) == Paint(Paint(s, b, pa, Solid(|pa|, c)), b, pb, Solid(|pb|, c))
  {
    assert Solid(|pa + pb|, c) == Solid(|pa|, c) + Solid(|pb|, c);
    PaintAppend(s, b, pa, Solid(|pa|, c), pb, Solid(|pb|, c));
  }

  // ------------------------------------------------------------ characters and bitmaps

  /** The colour oled_drawchar plots for column j of a row: the colour for a set bit, (~color) & 1 for a clear one. */
  function CharInk(d: bv8, j: int, color: bv8): bv8
    requires 0 <= j < 8
  {
    if FontBit(d, j) then color else Unset(color)
  }

  /** (~color) & 1, the colour oled_drawchar gives a clear font bit. */
  function Unset(color: bv8): bv8
  {
    (color ^ 0xFF) & 1
  }

  /** The first n colours of one character row. */
  function CharRow(d: bv8, n: int, color: bv8): (r: seq<bv8>)
    requires 0 <= n <= 8
    ensures |r| == n && forall j :: 0 <= j < n ==> r[j] == CharInk(d, j, color)
  {
    seq(n, j requires 0 <= j < n => CharInk(d, j, color))
  }

  /** One more column of a character row, after the rows above it. */
  lemma CharRowNext(above: seq<bv8>, d: bv8, j: int, color: bv8)
    requires 0 <= j < 8
    ensures above + CharRow(d, j, color) + [CharInk(d, j, color)] == above + CharRow(d, j + 1, color)
  {
    assert CharRow(d, j, color) + [CharInk(d, j, color)] == CharRow(d, j + 1, color);
  }

  /** The colours of rows 0..n-1 of character chr, row after row. */
  function CharCols(font: seq<bv8>, chr: u8, color: bv8, n: int): (cs: seq<bv8>)
    requires |font| == FontSize && 0 <= n <= 8
    ensures |cs| == n * 8
    decreases n
  {
    if n == 0 then [] else CharCols(font, chr, color, n - 1) + CharRow(font[chr * 8 + n - 1], 8, color)
  }

  /** Row i of the character follows the rows above it. */
  lemma CharColsNext(font: seq<bv8>, chr: u8, color: bv8, i: int)
    requires |font| == FontSize && 0 <= i < 8
    ensures CharCols(font, chr, color, i + 1) == CharCols(font, chr, color, i) + CharRow(font[chr * 8 + i], 8, color)
  {
  }

  lemma {:induction false} CharColsAt(font: seq<bv8>, chr: u8, color: bv8, n: int, i: int, j: int)
    requires |font| == FontSize && 0 <= i < n <= 8 && 0 <= j < 8
    ensures CharCols(font, chr, color, n)[i * 8 + j] == CharInk(font[chr * 8 + i], j, color)
    decreases n
  {
    if i < n - 1 {
      CharColsAt(font, chr, color, n - 1, i, j);
    }
  }

  /**
   * After oled_drawchar the on-screen pixel at column j, line i of the
   * character (uint8_t wrapped) reads as that font bit rendered in the
   * colour.
   */
  lemma DrawCharAt(s: seq<bv8>, b: int, x: u8, y: u8, chr: u8, color: bv8, font: seq<bv8>, i: int, j: int)
    requires IsStore(s) && IsBuf(b) && |font| == FontSize
    requires 0 <= i < 8 && 0 <= j < 8 && OnScreen(Step(x, j), Step(y, i))
    ensures GetPixel(Paint(s, b, Grid(x, y, 8, 8), CharCols(font, chr, color, 8)), b, Step(x, j), Step(y, i))
         == Ink(CharInk(font[chr * 8 + i], j, color))
  {
    var cs := CharCols(font, chr, color, 8);
    GridPixelAt(s, b, x, y, 8, 8, cs, i, j);
    CharColsAt(font, chr, color, 8, i, j);
  }

  /** oled_drawchar leaves every pixel outside its 8 x 8 block as it was. */
  lemma DrawCharElsewhere(s: seq<bv8>, b: int, x: u8, y: u8, chr: u8, color: bv8, font: seq<bv8>, b': int, px: int, py: int)
    requires IsStore(s) && IsBuf(b) && IsBuf(b') && OnScreen(px, py) && |font| == FontSize
    requires b' != b || !InGrid(Point(px, py), x, y, 8, 8)
    ensures GetPixel(Paint(s, b, Grid(x, y, 8, 8), CharCols(font, chr, color, 8)), b', px, py) == GetPixel(s, b', px, py)
  {
    GridMember(x, y, 8, 8, Point(px, py));
    PaintElsewhere(s, b, Grid(x, y, 8, 8), CharCols(font, chr, color, 8), b', px, py);
  }

  /** Painting a grid in per-point colours leaves the pixel at column j, line i in colour i*w + j. */
  lemma GridPixelAt(s: seq<bv8>, b: int, x: u8, y: u8, w: nat, h: nat, cs: seq<bv8>, i: int, j: int)
    requires IsStore(s) && IsBuf(b) && w <= 256 && h <= 256 && |cs| == h * w
    requires 0 <= i < h && 0 <= j < w && OnScreen(Step(x, j), Step(y, i))
    ensures 0 <= i * w + j < h * w
    ensures GetPixel(Paint(s, b, Grid(x, y, w, h), cs), b, Step(x, j), Step(y, i)) == Ink(cs[i * w + j])
  {
    GridAt(x, y, w, h, i, j);
    GridDistinct(x, y, w, h);
    PaintAt(s, b, Grid(x, y, w, h), cs, i * w + j);
  }

  /** oled_gray_slice's colours: 1 where the grey byte exceeds the threshold, else 0. */
  function Thresh(v: seq<bv8>, t: bv8): (cs: seq<bv8>)
    ensures |cs| == |v|
  {
    seq(|v|, k requires 0 <= k < |v| => if v[k] > t then 1 else 0)
  }

  /** Entry k of the thresholded bytes is 1 exactly when byte k exceeds t. */
  lemma ThreshAt(v: seq<bv8>, t: bv8, k: int)
    requires 0 <= k < |v|
    ensures Thresh(v, t)[k] == if v[k] > t then 1 else 0
  {
  }

  /** One more grey byte thresholded. */
  lemma ThreshNext(v: seq<bv8>, p: int, t: bv8)
    requires 0 <= p < |v|
    ensures Thresh(v[..p], t) + [if v[p] > t then 1 else 0] == Thresh(v[..p + 1], t)
  {
    assert v[..p + 1] == v[..p] + [v[p]];
  }

  /** Line dy of a block w wide ends within the first h lines. */
  lemma LineEnd(x: int, y: int, w: nat, dy: nat, h: nat)
    requires dy < h
    ensures |Grid(x, y, w, dy)| + w <= h * w
  {
    assert dy * w + w == (dy + 1) * w <= h * w;
  }

  /** The grid of h lines of w points has h * w points. */
  lemma GridLen(x: int, y: int, w: nat, h: nat)
    ensures |Grid(x, y, w, h)| == h * w
  {
  }

  /** Cell (i, j) of an h x w row-major block lies inside the block. */
  lemma CellIndex(w: nat, h: nat, i: int, j: int)
    requires 0 <= i < h && 0 <= j < w
    ensures 0 <= i * w + j < h * w
  {
    assert i * w + j < i * w + w == (i + 1) * w <= h * w;
  }

  /**
   * After oled_gray_slice the on-screen pixel at column dx, line dy of
   * the block (uint8_t wrapped) reads 1 exactly when grey byte dy*w + dx
   * exceeds the threshold.
   */
  lemma GraySliceAt(s: seq<bv8>, b: int, x: u8, y: u8, w: u8, h: u8, bmp: seq<bv8>, t: bv8, dx: int, dy: int)
    requires IsStore(s) && IsBuf(b) && h * w <= |bmp|
    requires 0 <= dx < w && 0 <= dy < h && OnScreen(Step(x, dx), Step(y, dy))
    ensures 0 <= dy * w + dx < h * w
    ensures GetPixel(Paint(s, b, Grid(x, y, w, h), Thresh(bmp[..h * w], t)), b, Step(x, dx), Step(y, dy))
         == if bmp[dy * w + dx] > t then 1 else 0
  {
    var v := bmp[..h * w];
    ThreshPixel(s, b, x, y, w, h, v, t, dx, dy);
    assert v[dy * w + dx] == bmp[dy * w + dx];
  }

  /** The same for any h*w grey bytes v painted over the grid. */
  lemma ThreshPixel(s: seq<bv8>, b: int, x: u8, y: u8, w: u8, h: u8, v: seq<bv8>, t: bv8, dx: int, dy: int)
    requires IsStore(s) && IsBuf(b) && |v| == h * w
    requires 0 <= dx < w && 0 <= dy < h && OnScreen(Step(x, dx), Step(y, dy))
    ensures 0 <= dy * w + dx < |v|
    ensures GetPixel(Paint(s, b, Grid(x, y, w, h), Thresh(v, t)), b, Step(x, dx), Step(y, dy))
         == if v[dy * w + dx] > t then 1 else 0
  {
    CellIndex(w, h, dy, dx);
    ThreshInk(v, t, dy * w + dx);
    InkPixel(s, b, x, y, w, h, Thresh(v, t), dx, dy, if v[dy * w + dx] > t then 1 else 0);
  }

  /** A grid pixel whose colour inks to c reads as c. */
  lemma InkPixel(s: seq<bv8>, b: int, x: u8, y: u8, w: u8, h: u8, cs: seq<bv8>, dx: int, dy: int, c: bv8)
    requires IsStore(s) && IsBuf(b) && |cs| == h * w
    requires 0 <= dx < w && 0 <= dy < h && OnScreen(Step(x, dx), Step(y, dy))
    requires 0 <= dy * w + dx < |cs| && Ink(cs[dy * w + dx]) == c
    ensures GetPixel(Paint(s, b, Grid(x, y, w, h), cs), b, Step(x, dx), Step(y, dy)) == c
  {
    GridPixelAt(s, b, x, y, w, h, cs, dy, dx);
  }

  /** A thresholded byte reads as 1 exactly when the grey byte exceeds t. */
  lemma ThreshInk(v: seq<bv8>, t: bv8, k: int)
    requires 0 <= k < |v|
    ensures Ink(Thresh(v, t)[k]) == if v[k] > t then 1 else 0
  {
    ThreshAt(v, t, k);
  }

  /** oled_gray_slice leaves every pixel outside its block as it was. */
  lemma GraySliceElsewhere(s: seq<bv8>, b: int, x: u8, y: u8, w: u8, h: u8, bmp: seq<bv8>, t: bv8, b': int, px: int, py: int)
    requires IsStore(s) && IsBuf(b) && IsBuf(b') && OnScreen(px, py) && h * w <= |bmp|
    requires b' != b || !InGrid(Point(px, py), x, y, w, h)
    ensures GetPixel(Paint(s, b, Grid(x, y, w, h), Thresh(bmp[..h * w], t)), b', px, py) == GetPixel(s, b', px, py)
  {
    GridMember(x, y, w, h, Point(px, py));
    PaintElsewhere(s, b, Grid(x, y, w, h), Thresh(bmp[..h * w], t), b', px, py);
  }

  // ------------------------------------------------------------ blit

  /** The extent blit keeps along one axis: cut at the source edge, then at the destination edge. */
  function BlitLen(src: int, dst: int, len: int, edge: int): int
  {
    var a := if src + len - 1 >= edge then edge - src else len;
    if dst + a - 1 >= edge then edge - dst else a
  }

  /** The kept extent is not empty, no longer than asked, and fits the screen at both origins. */
  lemma BlitLenBounds(src: int, dst: int, len: int, edge: int)
    requires 0 <= src < edge && 0 <= dst < edge && 0 < len
    ensures 0 < BlitLen(src, dst, len, edge) <= len
    ensures src + BlitLen(src, dst, len, edge) <= edge && dst + BlitLen(src, dst, len, edge) <= edge
  {
  }

  /** The buffers and origins of a blit. */
  datatype BlitArgs = BlitArgs(src: int, sx: int, sy: int, dst: int, dx: int, dy: int)

  predicate BlitOk(bl: BlitArgs)
  {
    IsBuf(bl.src) && IsBuf(bl.dst)
  }

  /** Whether oled_blit copies anything: both origins on the screen and both sides non-zero. */
  predicate BlitGo(bl: BlitArgs, w: int, h: int)
  {
    OnScreen(bl.sx, bl.sy) && OnScreen(bl.dx, bl.dy) && w != 0 && h != 0
  }

  /** The columns and lines oled_blit copies after clipping (none when it returns early). */
  function BlitW(bl: BlitArgs, w: int, h: int): int
  {
    if BlitGo(bl, w, h) then BlitLen(bl.sx, bl.dx, w, Width) else 0
  }

  function BlitH(bl: BlitArgs, w: int, h: int): int
  {
    if BlitGo(bl, w, h) then BlitLen(bl.sy, bl.dy, h, Height) else 0
  }

  /**
   * Pixel (b', px, py) is written by the copy loops before step (i, j):
   * columns 0..i-1 in full and lines 0..j-1 of column i, each h lines high.
   */
  predicate Done(bl: BlitArgs, h: int, i: int, j: int, b': int, px: int, py: int)
  {
    b' == bl.dst && bl.dy <= py < bl.dy + h && bl.dx <= px
      && (px < bl.dx + i || (px == bl.dx + i && py < bl.dy + j))
  }

  /**
   * No pixel read is written before it is read: the buffers differ or
   * the w x h source and destination rectangles do not meet.
   */
  predicate Apart(bl: BlitArgs, w: int, h: int)
  {
    bl.src != bl.dst
      || bl.sx + w <= bl.dx || bl.dx + w <= bl.sx || bl.sy + h <= bl.dy || bl.dy + h <= bl.sy
  }

  /**
   * Store t after step (i, j) of a blit from store o: pixels not yet
   * written read as in o, and, when the rectangles are apart, each
   * written pixel reads as its source pixel read in o.
   */
  ghost predicate Progress(o: seq<bv8>, t: seq<bv8>, bl: BlitArgs, w: int, h: int, i: int, j: int)
    requires IsStore(o) && IsStore(t) && BlitOk(bl)
  {
    forall b', px, py :: IsBuf(b') && OnScreen(px, py) ==> ProgressAt(o, t, bl, w, h, i, j, b', px, py)
  }

  /** Progress at one pixel. */
  ghost predicate ProgressAt(o: seq<bv8>, t: seq<bv8>, bl: BlitArgs, w: int, h: int, i: int, j: int, b': int, px: int, py: int)
    requires IsStore(o) && IsStore(t) && BlitOk(bl) && IsBuf(b')
  {
    if Done(bl, h, i, j, b', px, py)
    then Apart(bl, w, h) ==> GetPixel(t, b', px, py) == GetPixel(o, bl.src, bl.sx + (px - bl.dx), bl.sy + (py - bl.dy))
    else GetPixel(t, b', px, py) == GetPixel(o, b', px, py)
  }

  /** Copying one pixel: the destination pixel takes the source pixel's reading, nothing else changes. */
  lemma CopyPixelStep(t: seq<bv8>, t2: seq<bv8>, src: int, sx: int, sy: int, dst: int, dx: int, dy: int, b': int, px: int, py: int)
    requires IsStore(t) && IsBuf(src) && IsBuf(dst) && IsBuf(b') && OnScreen(px, py)
    requires t2 == Plot(t, dst, dx, dy, GetPixel(t, src, sx, sy))
    ensures GetPixel(t2, b', px, py)
         == if b' == dst && px == dx && py == dy then GetPixel(t, src, sx, sy) else GetPixel(t, b', px, py)
  {
    PlotPixel(t, dst, dx, dy, GetPixel(t, src, sx, sy), b', px, py);
    GetPixelBit(t, src, sx, sy);
  }

  /**
   * One step of the copy loops of oled_blit, drawPixel of the pixel
   * getPixel reads, takes the progress from (i, j) to (i, j + 1).
   */
  lemma BlitStep(o: seq<bv8>, t: seq<bv8>, t2: seq<bv8>, bl: BlitArgs, w: int, h: int, i: int, j: int)
    requires IsStore(o) && IsStore(t) && BlitOk(bl)
    requires 0 <= i < w && 0 <= j < h
    requires Progress(o, t, bl, w, h, i, j)
    requires t2 == Plot(t, bl.dst, bl.dx + i, bl.dy + j, GetPixel(t, bl.src, bl.sx + i, bl.sy + j))
    ensures IsStore(t2) && Progress(o, t2, bl, w, h, i, j + 1)
  {
    var sx, sy := bl.sx + i, bl.sy + j;
    assert Apart(bl, w, h) ==> GetPixel(t, bl.src, sx, sy) == GetPixel(o, bl.src, sx, sy) by {
      if Apart(bl, w, h) && OnScreen(sx, sy) {
        assert !Done(bl, h, i, j, bl.src, sx, sy);
        assert ProgressAt(o, t, bl, w, h, i, j, bl.src, sx, sy);
      }
    }
    forall b', px, py | IsBuf(b') && OnScreen(px, py)
      ensures ProgressAt(o, t2, bl, w, h, i, j + 1, b', px, py)
    {
      BlitStepAt(o, t, t2, bl, w, h, i, j, b', px, py);
    }
  }

  /** BlitStep at one pixel. */
  lemma BlitStepAt(o: seq<bv8>, t: seq<bv8>, t2: seq<bv8>, bl: BlitArgs, w: int, h: int, i: int, j: int, b': int, px: int, py: int)
    requires IsStore(o) && IsStore(t) && BlitOk(bl) && IsBuf(b') && OnScreen(px, py)
    requires 0 <= i < w && 0 <= j < h
    requires ProgressAt(o, t, bl, w, h, i, j, b', px, py)
    requires Apart(bl, w, h) ==> GetPixel(t, bl.src, bl.sx + i, bl.sy + j) == GetPixel(o, bl.src, bl.sx + i, bl.sy + j)
    requires t2 == Plot(t, bl.dst, bl.dx + i, bl.dy + j, GetPixel(t, bl.src, bl.sx + i, bl.sy + j))
    ensures IsStore(t2) && ProgressAt(o, t2, bl, w, h, i, j + 1, b', px, py)
  {
    CopyPixelStep(t, t2, bl.src, bl.sx + i, bl.sy + j, bl.dst, bl.dx + i, bl.dy + j, b', px, py);
    DoneNext(bl, h, i, j, b', px, py);
  }

  /** Step (i, j) adds exactly destination pixel (dx + i, dy + j) to the written ones. */
  lemma DoneNext(bl: BlitArgs, h: int, i: int, j: int, b': int, px: int, py: int)
    requires 0 <= i && 0 <= j < h
    ensures Done(bl, h, i, j + 1, b', px, py)
        == (Done(bl, h, i, j, b', px, py) || (b' == bl.dst && px == bl.dx + i && py == bl.dy + j))
  {
  }

  /** Before the first step nothing is written and the store is the one the blit started from. */
  lemma BlitStart(o: seq<bv8>, bl: BlitArgs, w: int, h: int)
    requires IsStore(o) && BlitOk(bl)
    ensures Progress(o, o, bl, w, h, 0, 0)
  {
    forall b', px, py | IsBuf(b') && OnScreen(px, py)
      ensures ProgressAt(o, o, bl, w, h, 0, 0, b', px, py)
    {
    }
  }

  /** After the last line of column i the progress is that of the top of column i + 1. */
  lemma BlitNextColumn(o: seq<bv8>, t: seq<bv8>, bl: BlitArgs, w: int, h: int, i: int)
    requires IsStore(o) && IsStore(t) && BlitOk(bl)
    requires Progress(o, t, bl, w, h, i, h)
    ensures Progress(o, t, bl, w, h, i + 1, 0)
  {
    forall b', px, py | IsBuf(b') && OnScreen(px, py)
      ensures ProgressAt(o, t, bl, w, h, i + 1, 0, b', px, py)
    {
      assert ProgressAt(o, t, bl, w, h, i, h, b', px, py);
      assert Done(bl, h, i, h, b', px, py) == Done(bl, h, i + 1, 0, b', px, py);
    }
  }

  /**
   * What oled_blit promises: after it, pixels outside the clipped
   * destination rectangle read as before, and when nothing is read after
   * it is written, each pixel of that rectangle reads as the matching
   * source pixel read before.
   */
  ghost predicate Blitted(o: seq<bv8>, t: seq<bv8>, bl: BlitArgs, w: int, h: int)
    requires IsStore(o) && IsStore(t) && BlitOk(bl)
  {
    Progress(o, t, bl, BlitW(bl, w, h), BlitH(bl, w, h), BlitW(bl, w, h), 0)
  }

  /** Spelled out for one pixel. */
  lemma BlittedPixel(o: seq<bv8>, t: seq<bv8>, bl: BlitArgs, w: u8, h: u8, b': int, px: int, py: int)
    requires IsStore(o) && IsStore(t) && BlitOk(bl) && Blitted(o, t, bl, w, h)
    requires IsBuf(b') && OnScreen(px, py)
    ensures var ww, hh := BlitW(bl, w, h), BlitH(bl, w, h);
      if b' == bl.dst && bl.dx <= px < bl.dx + ww && bl.dy <= py < bl.dy + hh
      then Apart(bl, ww, hh) ==> GetPixel(t, b', px, py) == GetPixel(o, bl.src, bl.sx + (px - bl.dx), bl.sy + (py - bl.dy))
      else GetPixel(t, b', px, py) == GetPixel(o, b', px, py)
  {
    CopiedPixel(o, t, bl, BlitW(bl, w, h), BlitH(bl, w, h), b', px, py);
  }

  /** After the last column of a ww x hh copy, the written pixels are exactly the destination rectangle. */
  lemma CopiedPixel(o: seq<bv8>, t: seq<bv8>, bl: BlitArgs, ww: int, hh: int, b': int, px: int, py: int)
    requires IsStore(o) && IsStore(t) && BlitOk(bl) && Progress(o, t, bl, ww, hh, ww, 0)
    requires IsBuf(b') && OnScreen(px, py)
    ensures if b' == bl.dst && bl.dx <= px < bl.dx + ww && bl.dy <= py < bl.dy + hh
      then Apart(bl, ww, hh) ==> GetPixel(t, b', px, py) == GetPixel(o, bl.src, bl.sx + (px - bl.dx), bl.sy + (py - bl.dy))
      else GetPixel(t, b', px, py) == GetPixel(o, b', px, py)
  {
    assert ProgressAt(o, t, bl, ww, hh, ww, 0, b', px, py);
    assert Done(bl, hh, ww, 0, b', px, py) <==> (b' == bl.dst && bl.dx <= px < bl.dx + ww && bl.dy <= py < bl.dy + hh);
  }

  // ------------------------------------------------------------ the buffers in place

  /** oled_buffer and the primitives that write it. */
  class FrameBuffers {
    /** The MaxBufs buffers, buffer b at offsets b*BufSz .. b*BufSz + BufSz - 1. */
    const fb: array<bv8>

    predicate Valid()
    {
      fb.Length == StoreSz
    }

    /** Static storage starts zeroed. */
    constructor ()
      ensures Valid() && fresh(fb)
      ensures forall k :: 0 <= k < fb.Length ==> fb[k] == 0
    {
      fb := new bv8[StoreSz](_ => 0);
    }

    /** oled_clear. */
    method Clear(b: int, color: u8)
      requires Valid() && IsBuf(b)
      modifies fb
      ensures fb[..] == Fill(old(fb[..]), b, color as bv8)
    {
      var v: bv8 := if color == 1 then 0xFF else 0x00;
      var base := b * 512;
      var i := 0;
      while i < BufSz
        invariant 0 <= i <= BufSz
        invariant forall k :: 0 <= k < fb.Length ==>
          fb[k] == if base <= k < base + i then v else old(fb[k])
      {
        fb[base + i] := v;
        i := i + 1;
      }
      assert fb[..] == Fill(old(fb[..]), b, color as bv8);
    }

    /** oled_cpy_buf: the memcpy of one whole buffer over another. */
    method CpyBuf(dst: int, src: int)
      requires Valid() && IsBuf(dst) && IsBuf(src)
      modifies fb
      ensures fb[..] == Copy(old(fb[..]), dst, src)
    {
      var to, from := dst * 512, src * 512;
      assert to == from || to + 512 <= from || from + 512 <= to;
      var i := 0;
      while i < BufSz
        invariant 0 <= i <= BufSz
        invariant forall k :: 0 <= k < fb.Length ==>
          fb[k] == if to <= k < to + i then old(fb[from + (k - to)]) else old(fb[k])
      {
        fb[to + i] := fb[from + i];
        i := i + 1;
      }
      assert fb[..] == Copy(old(fb[..]), dst, src);
    }

    /** oled_drawPixel. */
    method DrawPixel(b: int, x: u8, y: u8, color: bv8)
      requires Valid() && IsBuf(b)
      modifies fb
      ensures fb[..] == Plot(old(fb[..]), b, x, y, color)
    {
      if x >= Width || y >= Height {
        return;
      }
      var k := b * 512 + x + (y / 8) * 128;
      fb[k] := PlotByte(fb[k], y % 8, color);
    }

    /** oled_xorPixel. */
    method XorPixel(b: int, x: u8, y: u8)
      requires Valid() && IsBuf(b)
      modifies fb
      ensures fb[..] == Flip(old(fb[..]), b, x, y)
    {
      if x >= Width || y >= Height {
        return;
      }
      var k := b * 512 + x + (y / 8) * 128;
      fb[k] := FlipByte(fb[k], y % 8);
    }

    /** oled_getPixel: a read of the store, nothing changes. */
    method ReadPixel(b: int, x: u8, y: u8) returns (r: bv8)
      requires Valid() && IsBuf(b)
      ensures r == GetPixel(fb[..], b, x, y)
    {
      if x >= Width || y >= Height {
        return 0;
      }
      var d := fb[b * 512 + x + (y / 8) * 128];
      r := if Lit(d, y % 8) then 1 else 0;
    }

    /** The body of oled_blit's copy loops: drawPixel of the pixel getPixel reads, one step of the progress. */
    method CopyPixel(bl: BlitArgs, i: int, j: int, ghost o: seq<bv8>, ghost w: int, ghost h: int)
      requires Valid() && BlitOk(bl) && IsStore(o)
      requires 0 <= i < w && 0 <= j < h
      requires OnScreen(bl.sx + i, bl.sy + j) && OnScreen(bl.dx + i, bl.dy + j)
      requires Progress(o, fb[..], bl, w, h, i, j)
      modifies fb
      ensures Progress(o, fb[..], bl, w, h, i, j + 1)
    {
      ghost var t := fb[..];
      var v := ReadPixel(bl.src, bl.sx + i, bl.sy + j);
      DrawPixel(bl.dst, bl.dx + i, bl.dy + j, v);
      BlitStep(o, t, fb[..], bl, w, h, i, j);
    }

    /** oled_blit: clip, then copy column by column, top to bottom, through getPixel and drawPixel. */
    method Blit(src: int, sx: u8, sy: u8, w: u8, h: u8, dst: int, dx: u8, dy: u8)
      requires Valid() && IsBuf(src) && IsBuf(dst)
      modifies fb
      ensures Blitted(old(fb[..]), fb[..], BlitArgs(src, sx, sy, dst, dx, dy), w, h)
    {
      ghost var o := fb[..];
      var bl := BlitArgs(src, sx, sy, dst, dx, dy);
      if sx >= Width || sy >= Height || dx >= Width || dy >= Height || w == 0 || h == 0 {
        BlitStart(o, bl, 0, 0);
        return;
      }
      var ww, hh := w as int, h as int;
      if sy + hh - 1 >= Height {
        hh := Height - sy;
      }
      if sx + ww - 1 >= Width {
        ww := Width - sx;
      }
      if dy + hh - 1 >= Height {
        hh := Height - dy;
      }
      if dx + ww - 1 >= Width {
        ww := Width - dx;
      }
      assert ww == BlitW(bl, w, h) && hh == BlitH(bl, w, h);
      BlitLenBounds(sx, dx, w, Width);
      BlitLenBounds(sy, dy, h, Height);
      CopyRect(bl, ww, hh);
    }

    /** The copy loops of oled_blit over the clipped ww x hh rectangle. */
    method CopyRect(bl: BlitArgs, ww: int, hh: int)
      requires Valid() && BlitOk(bl) && 0 <= ww && 0 <= hh
      requires 0 <= bl.sx && bl.sx + ww <= Width && 0 <= bl.sy && bl.sy + hh <= Height
      requires 0 <= bl.dx && bl.dx + ww <= Width && 0 <= bl.dy && bl.dy + hh <= Height
      modifies fb
      ensures Progress(old(fb[..]), fb[..], bl, ww, hh, ww, 0)
    {
      ghost var o := fb[..];
      BlitStart(o, bl, ww, hh);
      var i := 0;
      while i < ww
        invariant 0 <= i <= ww
        invariant Progress(o, fb[..], bl, ww, hh, i, 0)
      {
        var j := 0;
        while j < hh
          invariant 0 <= j <= hh
          invariant Progress(o, fb[..], bl, ww, hh, i, j)
        {
          CopyPixel(bl, i, j, o, ww, hh);
          j := j + 1;
        }
        BlitNextColumn(o, fb[..], bl, ww, hh, i);
        i := i + 1;
      }
    }

    /** The drawPixel of one point of a scan: the painted scan grows by that point. */
    method PaintNext(b: int, ghost x: int, ghost y: int, ghost w: nat, ghost r: nat, ghost k: nat, m: u8, n: u8, c: bv8, ghost o: seq<bv8>, ghost cs: seq<bv8>)
      requires Valid() && IsBuf(b) && IsStore(o) && |cs| == |ScanPts(x, y, w, r, k)|
      requires m == Step(x, k) && n == Step(y, r)
      requires fb[..] == Paint(o, b, ScanPts(x, y, w, r, k), cs)
      modifies fb
      ensures fb[..] == Paint(o, b, ScanPts(x, y, w, r, k + 1), cs + [c])
    {
      DrawPixel(b, m, n, c);
      PaintScanNext(o, b, x, y, w, r, k, cs, c);
    }

    /** The xorPixel of one point of a scan: the inverted scan grows by that point. */
    method FlipNext(b: int, ghost x: int, ghost y: int, ghost w: nat, ghost r: nat, ghost k: nat, m: u8, n: u8, ghost o: seq<bv8>) returns (m': u8)
      requires Valid() && IsBuf(b) && IsStore(o) && 0 <= x < 256 && 0 <= k < 256
      requires m == Step(x, k) && n == Step(y, r)
      requires fb[..] == FlipAll(o, b, ScanPts(x, y, w, r, k))
      modifies fb
      ensures m' == Step(x, k + 1)
      ensures fb[..] == FlipAll(o, b, ScanPts(x, y, w, r, k + 1))
    {
      StepNext(x, k);
      m' := (m + 1) % 256;
      XorPixel(b, m, n);
      FlipScanNext(o, b, x, y, w, r, k);
    }

    /** oled_drawFastVLine: clip to the panel, then h pixels downwards. */
    method VLine(b: int, x: u8, y: u8, h: u8, color: bv8)
      requires Valid() && IsBuf(b)
      modifies fb
      ensures var pts := VLinePts(x, y, h); fb[..] == Paint(old(fb[..]), b, pts, Solid(|pts|, color))
    {
      ghost var o := fb[..];
      if x >= Width || y >= Height {
        return;
      }
      var n := h as int;
      if y + n - 1 >= Height {
        n := Height - y;
      }
      assert n == ClipLen(y, h, Height) && y + n <= Height;
      var yy: u8 := y;
      var c := n;
      ghost var r: nat := 0;
      while c > 0
        invariant 0 <= r <= n && c == n - r && yy == y + r
        invariant fb[..] == Paint(o, b, Grid(x, y, 1, r), Solid(r, color))
      {
        c := c - 1;
        VLineNext(b, x, y, r, yy, color, o);
        yy := yy + 1;
        r := r + 1;
      }
      ghost var cl := ClipLen(y, h, Height);
      assert r == cl;
      assert fb[..] == Paint(o, b, Grid(x, y, 1, r), Solid(r, color));
      assert fb[..] == Paint(o, b, Grid(x, y, 1, cl), Solid(cl, color));
      VLineGrid(o, b, x, y, h, color);
    }

    /** The loop body of oled_drawFastVLine: the pixel on line yy, the line's pixel r. */
    method VLineNext(b: int, x: u8, ghost y: u8, ghost r: nat, yy: u8, color: bv8, ghost o: seq<bv8>)
      requires Valid() && IsBuf(b) && IsStore(o) && yy == Step(y, r)
      requires fb[..] == Paint(o, b, Grid(x, y, 1, r), Solid(r, color))
      modifies fb
      ensures fb[..] == Paint(o, b, Grid(x, y, 1, r + 1), Solid(r + 1, color))
    {
      ScanLine(x, y, 1, r);
      PaintNext(b, x, y, 1, r, 0, x, yy, color, o, Solid(r, color));
      PaintLine(o, b, x, y, 1, r, Solid(r, color) + [color]);
      SolidNext(r, color);
    }

    /** oled_drawFastHLine: clip to the panel, then w pixels rightwards. */
    method HLine(b: int, x: u8, y: u8, w: u8, color: bv8)
      requires Valid() && IsBuf(b)
      modifies fb
      ensures var pts := HLinePts(x, y, w); fb[..] == Paint(old(fb[..]), b, pts, Solid(|pts|, color))
    {
      ghost var o := fb[..];
      if x >= Width || y >= Height {
        return;
      }
      var n := w as int;
      if x + n - 1 >= Width {
        n := Width - x;
      }
      assert n == ClipLen(x, w, Width) && x + n <= Width;
      var xx: u8 := x;
      var c := n;
      ghost var k: nat := 0;
      ScanLine(x, y, n, 0);
      while c > 0
        invariant 0 <= k <= n && c == n - k && xx == Step(x, k) && k == |ScanPts(x, y, n, 0, k)|
        invariant fb[..] == Paint(o, b, ScanPts(x, y, n, 0, k), Solid(k, color))
      {
        c := c - 1;
        xx := PaintSolidNext(b, x, y, n, 0, k, k, xx, y, color, o);
        k := k + 1;
      }
      ghost var cl := ClipLen(x, w, Width);
      assert k == n == cl;
      assert fb[..] == Paint(o, b, ScanPts(x, y, cl, 0, cl), Solid(cl, color));
      ScanLine(x, y, cl, 0);
      HLineGrid(o, b, x, y, w, color);
    }

    /** One drawPixel of a one-colour scan: the painted scan, q points long, grows by the point (m, n). */
    method PaintSolidNext(b: int, ghost x: int, ghost y: int, ghost w: nat, ghost r: nat, ghost k: nat, ghost q: nat, m: u8, n: u8, color: bv8, ghost o: seq<bv8>) returns (m': u8)
      requires Valid() && IsBuf(b) && IsStore(o) && 0 <= x < 256 && 0 <= k < 256
      requires m == Step(x, k) && n == Step(y, r) && q == |ScanPts(x, y, w, r, k)|
      requires fb[..] == Paint(o, b, ScanPts(x, y, w, r, k), Solid(q, color))
      modifies fb
      ensures m' == Step(x, k + 1) && q + 1 == |ScanPts(x, y, w, r, k + 1)|
      ensures fb[..] == Paint(o, b, ScanPts(x, y, w, r, k + 1), Solid(q + 1, color))
    {
      PaintNext(b, x, y, w, r, k, m, n, color, o, Solid(q, color));
      SolidNext(q, color);
      ScanNext(x, y, w, r, k);
      StepNext(x, k);
      m' := (m + 1) % 256;
    }

    /** oled_Box: the four sides as two vertical and two horizontal lines. */
    method Box(b: int, x: u8, y: u8, w: u8, h: u8, color: bv8)
      requires Valid() && IsBuf(b)
      modifies fb
      ensures var pts := BoxPts(x, y, w, h); fb[..] == Paint(old(fb[..]), b, pts, Solid(|pts|, color))
    {
      ghost var o := fb[..];
      ghost var v1, v2 := VLinePts(x, y, h), VLinePts((x + w - 1) % 256, y, h);
      ghost var h1, h2 := HLinePts(x, y, w), HLinePts(x, (y + h - 1) % 256, w);
      VLine(b, x, y, h, color);
      VLine(b, (x + w - 1) % 256, y, h, color);
      PaintSolidAppend(o, b, v1, v2, color);
      HLine(b, x, y, w, color);
      PaintSolidAppend(o, b, v1 + v2, h1, color);
      HLine(b, x, (y + h - 1) % 256, w, color);
      PaintSolidAppend(o, b, v1 + v2 + h1, h2, color);
    }

    /** oled_drawrect: line after line, each left to right, on uint8_t counters that wrap. */
    method DrawRect(b: int, x: u8, y: u8, w: u8, h: u8, color: bv8)
      requires Valid() && IsBuf(b)
      modifies fb
      ensures fb[..] == Paint(old(fb[..]), b, Grid(x, y, w, h), Solid(h * w, color))
    {
      ghost var o := fb[..];
      var n: u8 := y;
      var hc := h;
      ghost var r: nat := 0;
      while hc > 0
        invariant 0 <= r <= h && hc == h - r && n == Step(y, r)
        invariant fb[..] == Paint(o, b, Grid(x, y, w, r), Solid(|Grid(x, y, w, r)|, color))
      {
        hc := hc - 1;
        n := RectStep(b, x, y, w, color, r, n, o);
        r := r + 1;
      }
      GridLen(x, y, w, h);
    }

    /** The outer loop body of oled_drawrect: line r, then the uint8_t line counter steps on. */
    method RectStep(b: int, x: u8, ghost y: u8, w: u8, color: bv8, ghost r: nat, n: u8, ghost o: seq<bv8>) returns (n': u8)
      requires Valid() && IsBuf(b) && IsStore(o) && n == Step(y, r) && r < 256
      requires fb[..] == Paint(o, b, Grid(x, y, w, r), Solid(|Grid(x, y, w, r)|, color))
      modifies fb
      ensures n' == Step(y, r + 1)
      ensures fb[..] == Paint(o, b, Grid(x, y, w, r + 1), Solid(|Grid(x, y, w, r + 1)|, color))
    {
      StepNext(y, r);
      n' := (n + 1) % 256;
      RectLine(b, x, y, w, color, r, n, o);
    }

    /** The inner loop of oled_drawrect: line r of the scan, w pixels along line n. */
    method RectLine(b: int, x: u8, ghost y: u8, w: u8, color: bv8, ghost r: nat, n: u8, ghost o: seq<bv8>)
      requires Valid() && IsBuf(b) && IsStore(o) && n == Step(y, r)
      requires fb[..] == Paint(o, b, Grid(x, y, w, r), Solid(|Grid(x, y, w, r)|, color))
      modifies fb
      ensures fb[..] == Paint(o, b, Grid(x, y, w, r + 1), Solid(|Grid(x, y, w, r + 1)|, color))
    {
      ScanLine(x, y, w, r);
      var m: u8 := x;
      var wc := w;
      ghost var k: nat := 0;
      ghost var q: nat := |Grid(x, y, w, r)|;
      while wc > 0
        invariant 0 <= k <= w && wc == w - k && m == Step(x, k) && q == |ScanPts(x, y, w, r, k)|
        invariant fb[..] == Paint(o, b, ScanPts(x, y, w, r, k), Solid(q, color))
      {
        wc := wc - 1;
        m := PaintSolidNext(b, x, y, w, r, k, q, m, n, color, o);
        k := k + 1;
        q := q + 1;
      }
      assert k == w;
      assert fb[..] == Paint(o, b, ScanPts(x, y, w, r, w), Solid(q, color));
      PaintSolidLine(o, b, x, y, w, r, q, color);
    }

    /** oled_xorrect: oled_drawrect's scan, inverting each pixel. */
    method XorRect(b: int, x: u8, y: u8, w: u8, h: u8)
      requires Valid() && IsBuf(b)
      modifies fb
      ensures fb[..] == FlipAll(old(fb[..]), b, Grid(x, y, w, h))
    {
      ghost var o := fb[..];
      var n: u8 := y;
      var hc := h;
      ghost var r: nat := 0;
      while hc > 0
        invariant 0 <= r <= h && hc == h - r && n == Step(y, r)
        invariant fb[..] == FlipAll(o, b, Grid(x, y, w, r))
      {
        hc := hc - 1;
        n := XorStep(b, x, y, w, r, n, o);
        r := r + 1;
      }
      assert r == h;
      assert fb[..] == FlipAll(o, b, Grid(x, y, w, h));
    }

    /** The outer loop body of oled_xorrect: line r, then the uint8_t line counter steps on. */
    method XorStep(b: int, x: u8, ghost y: u8, w: u8, ghost r: nat, n: u8, ghost o: seq<bv8>) returns (n': u8)
      requires Valid() && IsBuf(b) && IsStore(o) && n == Step(y, r) && r < 256
      requires fb[..] == FlipAll(o, b, Grid(x, y, w, r))
      modifies fb
      ensures n' == Step(y, r + 1)
      ensures fb[..] == FlipAll(o, b, Grid(x, y, w, r + 1))
    {
      StepNext(y, r);
      n' := (n + 1) % 256;
      XorLine(b, x, y, w, r, n, o);
    }

    /** The inner loop of oled_xorrect: line r of the scan, w pixels along line n. */
    method XorLine(b: int, x: u8, ghost y: u8, w: u8, ghost r: nat, n: u8, ghost o: seq<bv8>)
      requires Valid() && IsBuf(b) && IsStore(o) && n == Step(y, r)
      requires fb[..] == FlipAll(o, b, Grid(x, y, w, r))
      modifies fb
      ensures fb[..] == FlipAll(o, b, Grid(x, y, w, r + 1))
    {
      ScanLine(x, y, w, r);
      var m: u8 := x;
      var wc := w;
      ghost var k: nat := 0;
      while wc > 0
        invariant 0 <= k <= w && wc == w - k && m == Step(x, k)
        invariant fb[..] == FlipAll(o, b, ScanPts(x, y, w, r, k))
      {
        wc := wc - 1;
        m := FlipNext(b, x, y, w, r, k, m, n, o);
        k := k + 1;
      }
      assert k == w;
      assert fb[..] == FlipAll(o, b, ScanPts(x, y, w, r, w));
      FlipLine(o, b, x, y, w, r);
    }

    /**
     * oled_drawchar: eight lines of eight pixels, each the font row's top
     * bit before it shifts left, in the colour or in (~color) & 1.
     */
    method DrawChar(b: int, x: u8, y: u8, chr: u8, color: bv8, font: seq<bv8>)
      requires Valid() && IsBuf(b) && |font| == FontSize
      modifies fb
      ensures fb[..] == Paint(old(fb[..]), b, Grid(x, y, 8, 8), CharCols(font, chr, color, 8))
    {
      ghost var o := fb[..];
      var i := 0;
      while i < 8
        invariant 0 <= i <= 8
        invariant fb[..] == Paint(o, b, Grid(x, y, 8, i), CharCols(font, chr, color, i))
      {
        CharLine(b, x, y, chr, i, color, font, o);
        i := i + 1;
      }
      assert i == 8;
      assert fb[..] == Paint(o, b, Grid(x, y, 8, 8), CharCols(font, chr, color, 8));
    }

    /** The inner loop of oled_drawchar: font row i, most significant bit first. */
    method CharLine(b: int, x: u8, y: u8, chr: u8, i: int, color: bv8, font: seq<bv8>, ghost o: seq<bv8>)
      requires Valid() && IsBuf(b) && IsStore(o) && |font| == FontSize && 0 <= i < 8
      requires fb[..] == Paint(o, b, Grid(x, y, 8, i), CharCols(font, chr, color, i))
      modifies fb
      ensures fb[..] == Paint(o, b, Grid(x, y, 8, i + 1), CharCols(font, chr, color, i + 1))
    {
      var d := font[chr * 8 + i];
      ghost var d0 := d;
      ghost var above := CharCols(font, chr, color, i);
      ScanLine(x, y, 8, i);
      assert above + CharRow(d0, 0, color) == above;
      var j := 0;
      while j < 8
        invariant 0 <= j <= 8 && d == Shifted(d0, j)
        invariant |above + CharRow(d0, j, color)| == |ScanPts(x, y, 8, i, j)|
        invariant fb[..] == Paint(o, b, ScanPts(x, y, 8, i, j), above + CharRow(d0, j, color))
      {
        d := CharPixel(b, x, y, i, j, d, color, d0, above, o);
        j := j + 1;
      }
      assert j == 8;
      assert fb[..] == Paint(o, b, ScanPts(x, y, 8, i, 8), above + CharRow(d0, 8, color));
      PaintLine(o, b, x, y, 8, i, above + CharRow(d0, 8, color));
      CharColsNext(font, chr, color, i);
    }

    /** The inner loop body of oled_drawchar: test the top bit, plot column j of line i, shift. */
    method CharPixel(b: int, x: u8, y: u8, i: int, j: int, d: bv8, color: bv8, ghost d0: bv8, ghost above: seq<bv8>, ghost o: seq<bv8>)
      returns (d': bv8)
      requires Valid() && IsBuf(b) && IsStore(o) && 0 <= i < 8 && 0 <= j < 8
      requires d == Shifted(d0, j) && |above + CharRow(d0, j, color)| == |ScanPts(x, y, 8, i, j)|
      requires fb[..] == Paint(o, b, ScanPts(x, y, 8, i, j), above + CharRow(d0, j, color))
      modifies fb
      ensures d' == Shifted(d0, j + 1) && |above + CharRow(d0, j + 1, color)| == |ScanPts(x, y, 8, i, j + 1)|
      ensures fb[..] == Paint(o, b, ScanPts(x, y, 8, i, j + 1), above + CharRow(d0, j + 1, color))
    {
      ShiftStep(d0, j);
      StepMod(x, j);
      StepMod(y, i);
      var col: bv8 := if TopBit(d) then color else Unset(color);
      PaintNext(b, x, y, 8, i, j, (x + j) % 256, (y + i) % 256, col, o, above + CharRow(d0, j, color));
      CharRowNext(above, d0, j, color);
      d' := Shl1(d);
    }

    /** oled_gray_slice: the scan of oled_drawrect, each pixel 1 when its grey byte exceeds t. */
    method GraySlice(b: int, x: u8, y: u8, w: u8, h: u8, bmp: seq<bv8>, t: bv8)
      requires Valid() && IsBuf(b) && h * w <= |bmp|
      modifies fb
      ensures fb[..] == Paint(old(fb[..]), b, Grid(x, y, w, h), Thresh(bmp[..h * w], t))
    {
      ghost var o := fb[..];
      var p := 0;
      var dy := 0;
      while dy < h
        invariant 0 <= dy <= h && p <= |bmp| && p == |Grid(x, y, w, dy)|
        invariant fb[..] == Paint(o, b, Grid(x, y, w, dy), Thresh(bmp[..p], t))
      {
        LineEnd(x, y, w, dy, h);
        p := GrayLine(b, x, y, w, dy, p, bmp, t, o);
        dy := dy + 1;
      }
      assert dy == h;
      assert p == h * w;
      assert fb[..] == Paint(o, b, Grid(x, y, w, h), Thresh(bmp[..h * w], t));
    }

    /** The inner loop of oled_gray_slice: line dy, reading grey bytes from p on. */
    method GrayLine(b: int, x: u8, y: u8, w: u8, dy: int, p0: int, bmp: seq<bv8>, t: bv8, ghost o: seq<bv8>) returns (p: int)
      requires Valid() && IsBuf(b) && IsStore(o) && 0 <= dy < 256
      requires p0 == |Grid(x, y, w, dy)| && p0 + w <= |bmp|
      requires fb[..] == Paint(o, b, Grid(x, y, w, dy), Thresh(bmp[..p0], t))
      modifies fb
      ensures p == p0 + w && p == |Grid(x, y, w, dy + 1)|
      ensures fb[..] == Paint(o, b, Grid(x, y, w, dy + 1), Thresh(bmp[..p], t))
    {
      ScanLine(x, y, w, dy);
      p := p0;
      var dx := 0;
      while dx < w
        invariant 0 <= dx <= w && p == p0 + dx && p == |ScanPts(x, y, w, dy, dx)|
        invariant fb[..] == Paint(o, b, ScanPts(x, y, w, dy, dx), Thresh(bmp[..p], t))
      {
        p := GrayPixel(b, x, y, w, dy, dx, p, bmp, t, o);
        dx := dx + 1;
      }
      assert dx == w;
      assert fb[..] == Paint(o, b, ScanPts(x, y, w, dy, w), Thresh(bmp[..p], t));
      PaintLine(o, b, x, y, w, dy, Thresh(bmp[..p], t));
    }

    /** The inner loop body of oled_gray_slice: grey byte p against t, plotted at column dx of line dy. */
    method GrayPixel(b: int, x: u8, y: u8, w: u8, dy: int, dx: int, p: int, bmp: seq<bv8>, t: bv8, ghost o: seq<bv8>) returns (p': int)
      requires Valid() && IsBuf(b) && IsStore(o) && 0 <= dy < 256 && 0 <= dx < w
      requires p == |ScanPts(x, y, w, dy, dx)| && p < |bmp|
      requires fb[..] == Paint(o, b, ScanPts(x, y, w, dy, dx), Thresh(bmp[..p], t))
      modifies fb
      ensures p' == p + 1 && p' == |ScanPts(x, y, w, dy, dx + 1)|
      ensures fb[..] == Paint(o, b, ScanPts(x, y, w, dy, dx + 1), Thresh(bmp[..p'], t))
    {
      StepMod(x, dx);
      StepMod(y, dy);
      var v: bv8 := if bmp[p] > t then 1 else 0;
      PaintNext(b, x, y, w, dy, dx, (x + dx) % 256, (y + dy) % 256, v, o, Thresh(bmp[..p], t));
      ThreshNext(bmp, p, t);
      ScanNext(x, y, w, dy, dx);
      p' := p + 1;
    }
  }
}
