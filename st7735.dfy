/*
 * The command level of the ST7735 display driver: the initialisation
 * list and its walker, RGB565 packing, rotation, the address window,
 * rectangle fills, vertical scroll and glyph rendering through the
 * 64-entry graphics buffer.
 *
 * The SPI link is seen as a trace of what reaches the controller: a
 * command byte (DC low), a data byte (DC high), a run of identical
 * colour words, a block of pixels, a delay, or a call into the TFT Wing
 * driver (its reset pin, its backlight).
 */
module St7735 {
  import opened Font

  type u16 = x: int | 0 <= x < 0x1_0000
  type u8 = x: int | 0 <= x < 0x100

  /** Panel size on the TFT Wing (portrait). */
  const TftWidth := 80
  const TftHeight := 160

  /** Init-list word flags. */
  const StCmd := 0x100
  const StCmdDelay := 0x200
  const StCmdEnd: u16 := 0x400

  /** Controller commands used outside the list. */
  const Caset := 0x2A
  const Raset := 0x2B
  const Ramwr := 0x2C
  const Madctl := 0x36
  const Vscsad := 0x37

  /** MADCTL bits. */
  const MadctlMy := 0x80
  const MadctlMx := 0x40
  const MadctlMv := 0x20

  /** What the driver sends. */
  datatype Spi =
    | Cmd(b: u8)                            // a byte with DC low
    | Data(b: u8)                           // a byte with DC high
    | Words(color: bv16, count: int)        // Shared_SPI_Blocking_PIO_WriteWord
    | Pixels(buf: seq<bv16>)                // a block of the graphics buffer
    | DelayMs(ms: int)                      // HAL_Delay
    | WingReset(level: int)                 // tftwing_tftReset
    | Backlight(level: int)                 // tftwing_setBacklight

  // ------------------------------------------------------------ init list

  /** ST7735_write_byte: bit 8 selects command, the low byte is sent. */
  function ByteEvent(w: u16): Spi
  {
    if (w / StCmd) % 2 == 1 then Cmd(w % 0x100) else Data(w % 0x100)
  }

  /** One list word: bit 9 makes it a delay of its low nine bits, otherwise it is sent. */
  function WordEvent(w: u16): Spi
  {
    if (w / StCmdDelay) % 2 == 1 then DelayMs(w % 0x200) else ByteEvent(w)
  }

  /** What a run of list words sends, with no terminator in it. */
  function Events(ws: seq<u16>): (t: seq<Spi>)
    ensures |t| == |ws|
    ensures forall k :: 0 <= k < |ws| ==> t[k] == WordEvent(ws[k])
  {
    if ws == [] then [] else [WordEvent(ws[0])] + Events(ws[1..])
  }

  /** What the walker in ST7735_init sends: the words before the first terminator. */
  function Walk(ws: seq<u16>): seq<Spi>
  {
    if ws == [] || ws[0] == StCmdEnd then [] else [WordEvent(ws[0])] + Walk(ws[1..])
  }

  /** The ST7735R ("mini") initialisation list. */
  const InitList: seq<u16> := [
    0x101, 0x20F,                                   // SWRESET, 15 ms
    0x111, 0x232,                                   // SLPOUT, 50 ms
    0x1B1, 0x01, 0x2C, 0x2D,                        // FRMCTR1
    0x1B2, 0x01, 0x2C, 0x2D,                        // FRMCTR2
    0x1B3, 0x01, 0x2C, 0x2D, 0x01, 0x2C, 0x2D,      // FRMCTR3
    0x1B4, 0x07,                                    // INVCTR
    0x1C0, 0xA2, 0x02, 0x84,                        // PWCTR1
    0x1C1, 0xC5,                                    // PWCTR2
    0x1C2, 0x0A, 0x00,                              // PWCTR3
    0x1C3, 0x8A, 0x2A,                              // PWCTR4
    0x1C4, 0x8A, 0xEE,                              // PWCTR5
    0x1C5, 0x0E,                                    // VMCTR1
    0x120,                                          // INVOFF
    0x136, 0xC8,                                    // MADCTL
    0x13A, 0x05,                                    // COLMOD
    0x12A, 0x00, 0x00, 0x00, 0x7F,                  // CASET 0..127
    0x12B, 0x00, 0x00, 0x00, 0x9F,                  // RASET 0..159
    0x1E0, 0x02, 0x1c, 0x07, 0x12, 0x37, 0x32, 0x29, 0x2d,
           0x29, 0x25, 0x2B, 0x39, 0x00, 0x01, 0x03, 0x10,   // GMCTRP1
    0x1E1, 0x03, 0x1d, 0x07, 0x06, 0x2E, 0x2C, 0x29, 0x2D,
           0x2E, 0x2E, 0x37, 0x3F, 0x00, 0x00, 0x02, 0x10,   // GMCTRN1
    0x113, 0x20A,                                   // NORON, 10 ms
    0x129, 0x20A,                                   // DISPON, 10 ms
    0x400                                           // end of list
  ]

  /** The walker sends exactly the words before the first terminator, one event each. */
  lemma {:induction false} WalkPrefix(ws: seq<u16>, a: nat)
    requires a < |ws| && ws[a] == StCmdEnd
    requires forall k :: 0 <= k < a ==> ws[k] != StCmdEnd
    ensures Walk(ws) == Events(ws[..a])
  {
    if a == 0 {
    } else {
      WalkPrefix(ws[1..], a - 1);
      assert ws[1..][..a - 1] == ws[..a][1..];
    }
  }

  /** One more word read: its event follows the earlier ones, and the terminator is still ahead. */
  lemma EventsSnoc(ws: seq<u16>, a: int)
    requires 0 <= a < |ws| && StCmdEnd in ws[a..] && ws[a] != StCmdEnd
    ensures Events(ws[..a + 1]) == Events(ws[..a]) + [WordEvent(ws[a])]
    ensures a + 1 < |ws| && StCmdEnd in ws[a + 1..]
  {
    assert ws[..a + 1] == ws[..a] + [ws[a]];
    assert ws[a..] == [ws[a]] + ws[a + 1..];
  }

  /** Nothing after the first terminator is read. */
  lemma WalkStopsAtEnd(w1: seq<u16>, w2: seq<u16>)
    requires forall k :: 0 <= k < |w1| ==> w1[k] != StCmdEnd
    ensures Walk(w1 + [StCmdEnd] + w2) == Walk(w1 + [StCmdEnd]) == Events(w1)
  {
    WalkPrefix(w1 + [StCmdEnd] + w2, |w1|);
    WalkPrefix(w1 + [StCmdEnd], |w1|);
    assert (w1 + [StCmdEnd] + w2)[..|w1|] == w1;
    assert (w1 + [StCmdEnd])[..|w1|] == w1;
  }

  /**
   * A list word is a delay of its low nine bits when bit 9 is set;
   * otherwise it sends exactly its low byte, as a command iff bit 8 is set.
   */
  lemma WordDecode(w: u16)
    ensures WordEvent(w).DelayMs? <==> (w / StCmdDelay) % 2 == 1
    ensures WordEvent(w).DelayMs? ==> WordEvent(w).ms == w % 0x200 && WordEvent(w).ms < 0x200
    ensures !WordEvent(w).DelayMs? ==> WordEvent(w) == (if (w / StCmd) % 2 == 1 then Cmd(w % 0x100) else Data(w % 0x100))
    ensures WordEvent(w).Cmd? || WordEvent(w).Data? || WordEvent(w).DelayMs?
  {
  }

  /** The ST7735R list ends with a terminator, so the walker stops inside it. */
  lemma InitListEnds()
    ensures |InitList| == 92 && InitList[91] == StCmdEnd && StCmdEnd in InitList
  {
  }

  // ------------------------------------------------------------- colours

  /** ST7735_Color565: 5 bits of red, 6 of green, 5 of blue. */
  function Color565(r: bv8, g: bv8, b: bv8): bv16
  {
    (((r & 0xF8) as bv16) << 8) | (((g & 0xFC) as bv16) << 3) | ((b >> 3) as bv16)
  }

  /** The three fields of a packed colour. */
  function Red5(c: bv16): bv16 { c >> 11 }
  function Green6(c: bv16): bv16 { (c >> 5) & 0x3F }
  function Blue5(c: bv16): bv16 { c & 0x1F }

  /** Unpacking a packed colour gives back the truncated channels. */
  lemma Color565Fields(r: bv8, g: bv8, b: bv8)
    ensures Red5(Color565(r, g, b)) == (r >> 3) as bv16
    ensures Green6(Color565(r, g, b)) == (g >> 2) as bv16
    ensures Blue5(Color565(r, g, b)) == (b >> 3) as bv16
  {
  }

  /** Every 16-bit colour is the packing of its own fields: the packing loses nothing else. */
  lemma Color565Onto(c: bv16)
    ensures Color565(((Red5(c) << 3) & 0xFF) as bv8, ((Green6(c) << 2) & 0xFF) as bv8, ((Blue5(c) << 3) & 0xFF) as bv8) == c
  {
  }

  /** __REVSH on a colour kept in a uint16: the two bytes swapped. */
  function Swap16(v: bv16): (s: bv16)
  {
    (v << 8) | (v >> 8)
  }

  lemma Swap16Twice(v: bv16)
    ensures Swap16(Swap16(v)) == v
    ensures Swap16(v) & 0xFF == v >> 8
  {
  }

  // -------------------------------------------------------------- geometry

  /** What setRotation selects for a rotation. */
  datatype Geometry = Geometry(madctl: u8, width: int, height: int, rowstart: int, colstart: int)

  function Orientation(r: int): (o: Geometry)
    requires 0 <= r < 4
    ensures o.width * o.height == TftWidth * TftHeight
    ensures o.width == (if r % 2 == 0 then TftWidth else TftHeight)
    ensures o.height == (if r % 2 == 0 then TftHeight else TftWidth)
    ensures o.rowstart + o.colstart == 24
    ensures o.colstart == 24 <==> o.width == TftWidth
    ensures (o.madctl / MadctlMv) % 2 == 1 <==> r % 2 == 1
  {
    if r == 0 then Geometry(MadctlMx + MadctlMy, TftWidth, TftHeight, 0, 24)
    else if r == 1 then Geometry(MadctlMy + MadctlMv, TftHeight, TftWidth, 24, 0)
    else if r == 2 then Geometry(0, TftWidth, TftHeight, 0, 24)
    else Geometry(MadctlMx + MadctlMv, TftHeight, TftWidth, 24, 0)
  }

  /** A 16-bit address as two data bytes, high first. */
  function Be16(v: int): (t: seq<Spi>)
    requires 0 <= v < 0x1_0000
    ensures |t| == 2 && t[0].Data? && t[1].Data? && t[0].b * 0x100 + t[1].b == v
  {
    [Data(v / 0x100), Data(v % 0x100)]
  }

  /** One address range: the command, then the first and the last address. */
  function Range(cmd: u8, a: int, b: int): (t: seq<Spi>)
    requires 0 <= a < 0x1_0000 && 0 <= b < 0x1_0000
    ensures |t| == 5
  {
    [Cmd(cmd)] + Be16(a) + Be16(b)
  }

  /** ST7735_setAddrWindow: column range, row range, then memory write. */
  function AddrWindow(c0: int, c1: int, r0: int, r1: int): (t: seq<Spi>)
    requires 0 <= c0 < 0x1_0000 && 0 <= c1 < 0x1_0000 && 0 <= r0 < 0x1_0000 && 0 <= r1 < 0x1_0000
    ensures |t| == 11
  {
    Range(Caset, c0, c1) + Range(Raset, r0, r1) + [Cmd(Ramwr)]
  }

  /**
   * The window for a w by h block at (x, y) on a panel whose visible
   * area starts at column colstart and line rowstart: the corners are
   * cut to uint8_t before the offsets are added.
   */
  function WindowAt(colstart: int, rowstart: int, x: int, y: int, w: int, h: int): seq<Spi>
    requires 0 <= colstart < 0x100 && 0 <= rowstart < 0x100
  {
    AddrWindow(Trunc8(x) + colstart, Trunc8(x + w - 1) + colstart, Trunc8(y) + rowstart, Trunc8(y + h - 1) + rowstart)
  }

  /** A command byte with the ST_CMD flag set goes out with DC low. */
  lemma CommandWord(c: int)
    requires 0 <= c < 0x100
    ensures ByteEvent(c + StCmd) == Cmd(c)
  {
  }

  /** What follows a prefix of a trace is the part appended after it. */
  lemma DropPrefix(t0: seq<Spi>, a: seq<Spi>, t: seq<Spi>)
    requires t == t0 + a
    ensures t[|t0|..] == a && t[..|t0|] == t0
  {
  }

  /** Appending three runs one after another is appending them joined. */
  lemma AppendAssoc(t: seq<Spi>, a: seq<Spi>, b: seq<Spi>, c: seq<Spi>)
    ensures t + a + b + c == t + (a + b + c)
  {
  }

  /** The addresses sent by a window can be read back off the data bytes. */
  lemma AddrWindowDecode(c0: int, c1: int, r0: int, r1: int)
    requires 0 <= c0 < 0x1_0000 && 0 <= c1 < 0x1_0000 && 0 <= r0 < 0x1_0000 && 0 <= r1 < 0x1_0000
    ensures var t := AddrWindow(c0, c1, r0, r1);
      && t[0] == Cmd(Caset) && t[5] == Cmd(Raset) && t[10] == Cmd(Ramwr)
      && t[1].b * 0x100 + t[2].b == c0 && t[3].b * 0x100 + t[4].b == c1
      && t[6].b * 0x100 + t[7].b == r0 && t[8].b * 0x100 + t[9].b == r1
  {
    var t := AddrWindow(c0, c1, r0, r1);
    assert t[..5] == Range(Caset, c0, c1) && t[5..10] == Range(Raset, r0, r1);
    assert t[1..3] == Be16(c0) && t[3..5] == Be16(c1) && t[6..8] == Be16(r0) && t[8..10] == Be16(r1);
  }

  /** A C conversion of an int to uint8 or int16. */
  function Trunc8(v: int): u8 { v % 0x100 }
  function Wrap16(v: int): (w: int)
    ensures -0x8000 <= w < 0x8000 && (w - v) % 0x1_0000 == 0
  {
    (v + 0x8000) % 0x1_0000 - 0x8000
  }

  predicate IsInt16(v: int) { -0x8000 <= v < 0x8000 }

  /**
   * fillRect's clipping of one extent: when start + len would pass the
   * edge, len becomes edge - start (stored back into an int16).
   */
  function Clip(start: int, len: int, edge: int): int
  {
    if start + len - 1 >= edge then Wrap16(edge - start) else len
  }

  /** On screen, clipping keeps the extent inside the edge and cuts only what lies beyond it. */
  lemma ClipFits(start: int, len: int, edge: int)
    requires 0 <= start < edge < 0x8000 && 0 <= len
    ensures 0 <= Clip(start, len, edge) <= len
    ensures start + Clip(start, len, edge) <= edge
    ensures Clip(start, len, edge) == len || start + Clip(start, len, edge) == edge
  {
  }

  // ---------------------------------------------------------------- glyphs

  /** The buffer entry for row r, column c of character chr. */
  function GlyphPixel(font: seq<bv8>, chr: u8, fg: bv16, bg: bv16, r: int, c: int): bv16
    requires |font| == FontSize && 0 <= r < 8 && 0 <= c < 8
  {
    if FontBit(font[chr * 8 + r], c) then Swap16(fg) else Swap16(bg)
  }

  /** The first n entries a font row byte expands to: on for a set bit, off for a clear one, leftmost first. */
  function RowOf(d: bv8, n: int, on: bv16, off: bv16): (s: seq<bv16>)
    requires 0 <= n <= 8
    ensures |s| == n
    ensures forall c :: 0 <= c < n ==> s[c] == Ink(d, c, on, off)
  {
    seq(n, c requires 0 <= c < n => Ink(d, c, on, off))
  }

  /** The entry for column c of font row d: on for a set bit, off for a clear one. */
  function Ink(d: bv8, c: int, on: bv16, off: bv16): bv16
    requires 0 <= c < 8
  {
    if FontBit(d, c) then on else off
  }

  /** Columns 0..cw-1 of row r. */
  function GlyphRow(font: seq<bv8>, chr: u8, fg: bv16, bg: bv16, r: int, cw: int): (s: seq<bv16>)
    requires |font| == FontSize && 0 <= r < 8 && 0 <= cw <= 8
    ensures |s| == cw
    ensures forall c :: 0 <= c < cw ==> s[c] == GlyphPixel(font, chr, fg, bg, r, c)
  {
    RowOf(font[chr * 8 + r], cw, Swap16(fg), Swap16(bg))
  }

  /** Rows 0..rh-1 of the glyph, each cw wide, row after row. */
  function Glyph(font: seq<bv8>, chr: u8, fg: bv16, bg: bv16, cw: int, rh: int): (s: seq<bv16>)
    requires |font| == FontSize && 0 <= cw <= 8 && 0 <= rh <= 8
    ensures |s| == rh * cw
    decreases rh
  {
    if rh == 0 then []
    else
      var s := Glyph(font, chr, fg, bg, cw, rh - 1) + GlyphRow(font, chr, fg, bg, rh - 1, cw);
      assert |s| == (rh - 1) * cw + cw == rh * cw;
      s
  }

  /** The glyph is row-major: entry r*cw + c is row r, column c. */
  lemma {:induction false} GlyphAt(font: seq<bv8>, chr: u8, fg: bv16, bg: bv16, cw: int, rh: int, r: int, c: int)
    requires |font| == FontSize && 0 <= cw <= 8 && 0 <= rh <= 8
    requires 0 <= r < rh && 0 <= c < cw
    ensures 0 <= r * cw + c < rh * cw
    ensures Glyph(font, chr, fg, bg, cw, rh)[r * cw + c] == GlyphPixel(font, chr, fg, bg, r, c)
    decreases rh
  {
    assert r * cw + c < (r + 1) * cw <= rh * cw;
    if r < rh - 1 {
      GlyphAt(font, chr, fg, bg, cw, rh - 1, r, c);
      assert r * cw + c < (rh - 1) * cw;
    } else {
      assert r * cw + c == (rh - 1) * cw + c;
    }
  }

  /**
   * The number of entries one loop of ST7735_drawchar writes from start:
   * it stops after the entry that reaches limit - 1, or after 8.
   */
  function Span(start: int, limit: int): (n: int)
    ensures 1 <= n <= 8
  {
    if limit - start >= 8 then 8 else if limit - start >= 1 then limit - start else 1
  }

  /** From an on-screen start the glyph is cut at the edge and never passes it. */
  lemma SpanOnScreen(start: int, limit: int)
    requires start < limit
    ensures start + Span(start, limit) <= limit
    ensures Span(start, limit) == 8 || start + Span(start, limit) == limit
  {
  }

  /** Line i of a glyph ends it exactly when it reaches the last line. */
  lemma SpanStep(start: int, limit: int, i: int)
    requires 0 <= i < Span(start, limit)
    ensures start + i + 1 > limit - 1 ==> i + 1 == Span(start, limit)
    ensures start + i + 1 <= limit - 1 ==> i + 1 < Span(start, limit) || i + 1 == 8
  {
  }

  /** A buffer written with row at g0 and nowhere else. */
  lemma RowWritten(before: seq<bv16>, after: seq<bv16>, g0: int, row: seq<bv16>)
    requires |before| == |after| && 0 <= g0 && g0 + |row| <= |after|
    requires forall k :: 0 <= k < g0 ==> after[k] == before[k]
    requires forall c :: 0 <= c < |row| ==> after[g0 + c] == row[c]
    requires forall k :: g0 + |row| <= k < |after| ==> after[k] == before[k]
    ensures after[..g0] == before[..g0]
    ensures after[g0..g0 + |row|] == row
    ensures after[g0 + |row|..] == before[g0 + |row|..]
  {
  }

  lemma MulBound(i: int, n: int, j: int)
    requires 0 <= i < 8 && 1 <= n <= 8 && 0 <= j < n
    ensures i * n + j < 64 && i * n + j < (i + 1) * n
  {
    assert i * n <= 7 * n;
  }

  /**
   * The display state of st7735.c: the globals rowstart, colstart,
   * _width, _height, rotation, the graphics buffer and what has been sent.
   */
  class Lcd {
    var rowstart: int
    var colstart: int
    var width: int
    var height: int
    var rotation: int
    var trace: seq<Spi>
    const grBuff: array<bv16>

    /** The ranges of the globals' C types. */
    predicate Valid()
      reads this
    {
      && 0 <= rowstart < 0x100 && 0 <= colstart < 0x100
      && 0 <= width < 0x8000 && 0 <= height < 0x8000 && 0 <= rotation < 0x1_0000
      && grBuff.Length == 64
    }

    /** Static storage starts zeroed. */
    constructor ()
      ensures Valid() && trace == [] && width == 0 && height == 0
      ensures rowstart == 0 && colstart == 0 && rotation == 0
      ensures fresh(grBuff)
    {
      rowstart, colstart, width, height, rotation := 0, 0, 0, 0, 0;
      trace := [];
      grBuff := new bv16[64];
    }

    /** ST7735_write_byte. */
    method WriteByte(dat: u16)
      modifies this`trace
      ensures trace == old(trace) + [ByteEvent(dat)]
    {
      if (dat / StCmd) % 2 == 1 {
        trace := trace + [Cmd(dat % 0x100)];
      } else {
        trace := trace + [Data(dat % 0x100)];
      }
    }

    /** The list walker of ST7735_init: it reads up to the first terminator. */
    method SendList(ws: seq<u16>)
      requires StCmdEnd in ws
      modifies this`trace
      ensures trace == old(trace) + Walk(ws)
    {
      var a := 0;
      while ws[a] != StCmdEnd
        invariant 0 <= a < |ws| && StCmdEnd in ws[a..]
        invariant forall k :: 0 <= k < a ==> ws[k] != StCmdEnd
        invariant trace == old(trace) + Events(ws[..a])
        decreases |ws| - a
      {
        EventsSnoc(ws, a);
        SendWord(ws[a]);
        a := a + 1;
      }
      WalkPrefix(ws, a);
    }

    /** One list word: a delay of its low nine bits if bit 9 is set, otherwise a byte. */
    method SendWord(w: u16)
      modifies this`trace
      ensures trace == old(trace) + [WordEvent(w)]
    {
      if (w / StCmdDelay) % 2 != 1 {
        WriteByte(w);
      } else {
        var ms := w % 0x200;
        trace := trace + [DelayMs(ms)];
      }
    }

    /**
     * ST7735_init: portrait defaults, a reset pulse through the Wing with
     * 10 ms after each edge, the ST7735R list, then the backlight on.
     */
    method Init()
      requires Valid()
      modifies this
      ensures Valid()
      ensures colstart == 24 && rowstart == 0 && width == TftWidth && height == TftHeight && rotation == 0
      ensures trace == old(trace) + [WingReset(0), DelayMs(10), WingReset(1), DelayMs(10)]
                       + Walk(InitList) + [Backlight(0)]
    {
      colstart := 24;
      rowstart := 0;
      width := TftWidth;
      height := TftHeight;
      rotation := 0;
      trace := trace + [WingReset(0), DelayMs(10), WingReset(1), DelayMs(10)];
      InitListEnds();
      SendList(InitList);
      trace := trace + [Backlight(0)];
    }

    /** ST7735_setAddrWindow: coordinates are offset by colstart and rowstart. */
    method SetAddrWindow(x0: u8, y0: u8, x1: u8, y1: u8)
      requires Valid()
      modifies this`trace
      ensures trace == old(trace) + AddrWindow(x0 + colstart, x1 + colstart, y0 + rowstart, y1 + rowstart)
    {
      ghost var t0 := trace;
      SendRange(Caset, x0 + colstart, x1 + colstart);
      SendRange(Raset, y0 + rowstart, y1 + rowstart);
      WriteByte(Ramwr + StCmd);
      CommandWord(Ramwr);
      AppendAssoc(t0, Range(Caset, x0 + colstart, x1 + colstart), Range(Raset, y0 + rowstart, y1 + rowstart), [Cmd(Ramwr)]);
    }

    /** One half of ST7735_setAddrWindow: the command, then both sums as 16-bit big-endian data. */
    method SendRange(cmd: u8, sum: u16, sum1: u16)
      modifies this`trace
      ensures trace == old(trace) + Range(cmd, sum, sum1)
    {
      WriteByte(cmd + StCmd);
      CommandWord(cmd);
      trace := trace + Be16(sum) + Be16(sum1);
      assert trace == old(trace) + ([Cmd(cmd)] + Be16(sum) + Be16(sum1));
    }

    /**
     * ST7735_fillRect: nothing when the origin is right of or below the
     * screen; otherwise clip the extents, open the window and send h*w
     * copies of the colour (the count is a uint32).
     */
    method FillRect(x: int, y: int, w: int, h: int, color: bv16)
      requires Valid() && IsInt16(x) && IsInt16(y) && IsInt16(w) && IsInt16(h)
      modifies this`trace
      ensures x >= width || y >= height ==> trace == old(trace)
      ensures x < width && y < height ==>
        var wc := Clip(x, w, width);
        var hc := Clip(y, h, height);
        trace == old(trace) + Window(x, y, wc, hc)
                            + [Words(color, (hc * wc) % 0x1_0000_0000)]
    {
      if x >= width || y >= height {
        return;
      }
      var wc := w;
      var hc := h;
      if x + wc - 1 >= width {
        wc := Wrap16(width - x);
      }
      if y + hc - 1 >= height {
        hc := Wrap16(height - y);
      }
      FillWindow(x, y, wc, hc, color);
    }

    /** The tail of ST7735_fillRect: open the window and stream the colour. */
    method FillWindow(x: int, y: int, wc: int, hc: int, color: bv16)
      requires Valid()
      modifies this`trace
      ensures trace == old(trace) + Window(x, y, wc, hc) + [Words(color, (hc * wc) % 0x1_0000_0000)]
    {
      SetAddrWindow(Trunc8(x), Trunc8(y), Trunc8(x + wc - 1), Trunc8(y + hc - 1));
      trace := trace + [Words(color, (hc * wc) % 0x1_0000_0000)];
    }

    /** The window bitblt, fillRect and drawchar open for a w by h block at (x, y). */
    function Window(x: int, y: int, w: int, h: int): seq<Spi>
      requires 0 <= colstart < 0x100 && 0 <= rowstart < 0x100
      reads this`colstart, this`rowstart
    {
      WindowAt(colstart, rowstart, x, y, w, h)
    }

    /** ST7735_bitblt: open the window and send the w*h buffered pixels. */
    method Bitblt(x: int, y: int, w: int, h: int, px: seq<bv16>)
      requires Valid() && |px| == w * h
      modifies this`trace
      ensures trace == old(trace) + Window(x, y, w, h) + [Pixels(px)]
    {
      SetAddrWindow(Trunc8(x), Trunc8(y), Trunc8(x + w - 1), Trunc8(y + h - 1));
      trace := trace + [Pixels(px)];
    }

    /**
     * ST7735_drawchar as written: return when the origin is beyond the
     * right or bottom edge; otherwise expand the character's eight font
     * rows into the graphics buffer, byte-swapped fg for a set bit and
     * bg for a clear one, cutting each row after the entry that reaches
     * the last column and the glyph after the row that reaches the last
     * line, and blit the block.
     */
    method DrawChar(x: int, y: int, chr: u8, fg: bv16, bg: bv16, font: seq<bv8>)
      requires Valid() && IsInt16(x) && IsInt16(y) && |font| == FontSize
      modifies this`trace, grBuff
      ensures x > width || y > height ==> trace == old(trace) && grBuff[..] == old(grBuff[..])
      ensures !(x > width || y > height) ==>
        var cw := Span(x, width);
        var rh := Span(y, height);
        var glyph := Glyph(font, chr, fg, bg, cw, rh);
        && grBuff[..rh * cw] == glyph
        && grBuff[rh * cw..] == old(grBuff[rh * cw..])
        && trace == old(trace) + Window(x, y, cw, rh) + [Pixels(glyph)]
    {
      if x > width || y > height {
        return;
      }
      var wd, ht, g := ExpandGlyph(x, y, chr, fg, bg, font);
      assert g == wd * ht;
      Bitblt(x, y, wd, ht, grBuff[..g]);
    }

    /**
     * The outer loop of ST7735_drawchar: font rows into the graphics
     * buffer, each Span(x, width) entries, until the row on the last line
     * or the eighth; wd and ht are the block's width and height.
     */
    method ExpandGlyph(x: int, y: int, chr: u8, fg: bv16, bg: bv16, font: seq<bv8>) returns (wd: int, ht: int, g: int)
      requires Valid() && |font| == FontSize
      modifies grBuff
      ensures wd == Span(x, width) && ht == Span(y, height) && g == |Glyph(font, chr, fg, bg, wd, ht)|
      ensures grBuff[..g] == Glyph(font, chr, fg, bg, wd, ht)
      ensures grBuff[g..] == old(grBuff[g..])
    {
      ghost var cw := Span(x, width);
      ghost var rh := Span(y, height);
      ghost var orig := grBuff[..];
      g := 0;
      var yt := y;
      var xt := x;
      var i := 0;
      while i < 8
        invariant 0 <= i <= rh && (i == rh ==> i == 8)
        invariant yt == y + i && (i > 0 ==> xt == x + cw)
        invariant g == |Glyph(font, chr, fg, bg, cw, i)|
        invariant grBuff[..g] == Glyph(font, chr, fg, bg, cw, i)
        invariant grBuff[g..] == orig[g..]
      {
        var n := PutGlyphRow(g, i, x, chr, fg, bg, font, orig);
        SpanStep(y, height, i);
        g := g + n;
        xt := x + n;
        yt := yt + 1;
        if yt > height - 1 {
          break;
        }
        i := i + 1;
      }
      assert i < 8 ==> i + 1 == rh;
      wd := xt - x;
      ht := yt - y;
    }

    /** One pass of ST7735_drawchar's outer loop: row i of the glyph goes in after rows 0..i-1. */
    method PutGlyphRow(g: int, i: int, x: int, chr: u8, fg: bv16, bg: bv16, font: seq<bv8>, ghost orig: seq<bv16>) returns (n: int)
      requires grBuff.Length == 64 && |font| == FontSize && 0 <= i < 8 && |orig| == 64
      requires g == |Glyph(font, chr, fg, bg, Span(x, width), i)|
      requires grBuff[..g] == Glyph(font, chr, fg, bg, Span(x, width), i)
      requires grBuff[g..] == orig[g..]
      modifies grBuff
      ensures n == Span(x, width) && g + n == |Glyph(font, chr, fg, bg, n, i + 1)|
      ensures grBuff[..g + n] == Glyph(font, chr, fg, bg, n, i + 1)
      ensures grBuff[g + n..] == orig[g + n..]
    {
      MulBound(i, Span(x, width), Span(x, width) - 1);
      ghost var before := grBuff[..];
      n := ExpandRow(g, font[chr * 8 + i], x, Swap16(fg), Swap16(bg));
      ghost var row := GlyphRow(font, chr, fg, bg, i, n);
      RowWritten(before, grBuff[..], g, row);
      assert grBuff[..g + n] == grBuff[..g] + grBuff[g..g + n];
    }

    /**
     * The inner loop of ST7735_drawchar: from entry g0, one entry per
     * font bit, most significant first, until the entry that reaches
     * the last column or the eighth.
     */
    method ExpandRow(g0: int, d0: bv8, x: int, fgs: bv16, bgs: bv16) returns (n: int)
      requires 0 <= g0 && g0 + Span(x, width) <= grBuff.Length
      modifies grBuff
      ensures n == Span(x, width)
      ensures forall k :: 0 <= k < grBuff.Length && !(g0 <= k < g0 + n) ==> grBuff[k] == old(grBuff[k])
      ensures forall c :: 0 <= c < n ==> grBuff[g0 + c] == Ink(d0, c, fgs, bgs)
    {
      ghost var cw := Span(x, width);
      ghost var before := grBuff[..];
      var d := d0;
      var xt := x;
      var j := 0;
      var g := g0;
      while j < 8
        invariant 0 <= j <= cw && (j == cw ==> j == 8)
        invariant xt == x + j && g == g0 + j
        invariant d == Shifted(d0, j)
        invariant Expanded(before, g0, j, d0, fgs, bgs)
      {
        d := PutInk(g0, j, d0, d, fgs, bgs, before);
        g := g + 1;
        xt := xt + 1;
        if xt > width - 1 {
          break;
        }
        j := j + 1;
      }
      n := xt - x;
    }

    /** Entries g0..g0+j-1 hold the first j inks of font row d0; the rest of the buffer is as before. */
    ghost predicate Expanded(before: seq<bv16>, g0: int, j: int, d0: bv8, fgs: bv16, bgs: bv16)
      reads grBuff
    {
      && |before| == grBuff.Length && 0 <= g0 && 0 <= j <= 8 && g0 + j <= grBuff.Length
      && (forall k :: 0 <= k < grBuff.Length && !(g0 <= k < g0 + j) ==> grBuff[k] == before[k])
      && (forall c :: 0 <= c < j ==> grBuff[g0 + c] == Ink(d0, c, fgs, bgs))
    }

    /** The inner loop body of ST7735_drawchar: test the top bit, store fg or bg, shift. */
    method PutInk(g0: int, j: int, d0: bv8, d: bv8, fgs: bv16, bgs: bv16, ghost before: seq<bv16>) returns (d': bv8)
      requires 0 <= j < 8 && g0 + j < grBuff.Length && d == Shifted(d0, j)
      requires Expanded(before, g0, j, d0, fgs, bgs)
      modifies grBuff
      ensures d' == Shifted(d0, j + 1)
      ensures Expanded(before, g0, j + 1, d0, fgs, bgs)
    {
      ShiftStep(d0, j);
      if TopBit(d) {
        grBuff[g0 + j] := fgs;
      } else {
        grBuff[g0 + j] := bgs;
      }
      d' := Shl1(d);
    }

    /**
     * ST7735_drawchar with the origin test at the edges rather than one
     * past them: nothing is drawn from column width or line height.
     */
    method DrawCharClipped(x: int, y: int, chr: u8, fg: bv16, bg: bv16, font: seq<bv8>)
      requires Valid() && IsInt16(x) && IsInt16(y) && |font| == FontSize
      modifies this`trace, grBuff
      ensures x >= width || y >= height ==> trace == old(trace) && grBuff[..] == old(grBuff[..])
      ensures x < width && y < height ==>
        && x + Span(x, width) <= width && y + Span(y, height) <= height
        && trace == old(trace) + Window(x, y, Span(x, width), Span(y, height))
                                + [Pixels(Glyph(font, chr, fg, bg, Span(x, width), Span(y, height)))]
    {
      if x >= width || y >= height {
        return;
      }
      SpanOnScreen(x, width);
      SpanOnScreen(y, height);
      DrawChar(x, y, chr, fg, bg, font);
    }

    /**
     * ST7735_drawchar as written, with the origin on the right edge
     * itself: the origin test lets it through, and the window it opens
     * starts and ends at panel column width + colstart, one past the
     * last visible column width - 1 + colstart; a one-column block of
     * the glyph follows.
     */
    method DrawCharEdgeColumn(y: int, chr: u8, fg: bv16, bg: bv16, font: seq<bv8>)
      requires Valid() && width < 0x100 && 0 <= y < height && |font| == FontSize
      modifies this`trace, grBuff
      ensures Span(width, width) == 1
      ensures EdgeDrawn(old(trace), trace, width + colstart, Glyph(font, chr, fg, bg, Span(width, width), Span(y, height)))
    {
      ghost var t0 := trace;
      DrawChar(width, y, chr, fg, bg, font);
      EdgeTrace(t0, trace, width, colstart, y, rowstart, Span(y, height),
                Glyph(font, chr, fg, bg, Span(width, width), Span(y, height)));
    }

    /** ST7735_setRotation: MADCTL and the geometry of rotation m mod 4. */
    method SetRotation(m: u8)
      requires Valid()
      modifies this`trace, this`rotation, this`width, this`height, this`rowstart, this`colstart
      ensures Valid()
      ensures rotation == m % 4
      ensures var o := Orientation(m % 4);
        && width == o.width && height == o.height && rowstart == o.rowstart && colstart == o.colstart
        && trace == old(trace) + [Cmd(Madctl), Data(o.madctl)]
    {
      WriteByte(Madctl + StCmd);
      rotation := m % 4;
      if rotation == 0 {
        WriteByte(MadctlMx + MadctlMy);
        width, height, rowstart, colstart := TftWidth, TftHeight, 0, 24;
      } else if rotation == 1 {
        WriteByte(MadctlMy + MadctlMv);
        width, height, rowstart, colstart := TftHeight, TftWidth, 24, 0;
      } else if rotation == 2 {
        WriteByte(0);
        width, height, rowstart, colstart := TftWidth, TftHeight, 0, 24;
      } else {
        WriteByte(MadctlMx + MadctlMv);
        width, height, rowstart, colstart := TftHeight, TftWidth, 24, 0;
      }
    }

    /** ST7735_setVScroll: VSCSAD, 0, then the start line modulo the panel height. */
    method SetVScroll(s: u8)
      modifies this`trace
      ensures trace == old(trace) + [Cmd(Vscsad), Data(0), Data(s % TftHeight)]
      ensures s % TftHeight < TftHeight
    {
      WriteByte(Vscsad + StCmd);
      WriteByte(0);
      WriteByte(s % TftHeight);
    }
  }

  /**
   * A block one column wide at panel column col: the column range of
   * its window starts and ends at col, and the pixels follow it.
   */
  ghost predicate EdgeBlock(t: seq<Spi>, col: int, px: seq<bv16>)
  {
    && |t| == 12 && t[0] == Cmd(Caset)
    && t[1].Data? && t[2].Data? && t[3].Data? && t[4].Data?
    && t[1].b * 0x100 + t[2].b == col && t[3].b * 0x100 + t[4].b == col
    && t[11] == Pixels(px)
  }

  /** The trace t is t0 followed by a one-column block at panel column col. */
  ghost predicate EdgeDrawn(t0: seq<Spi>, t: seq<Spi>, col: int, px: seq<bv16>)
  {
    |t| == |t0| + 12 && t[..|t0|] == t0 && EdgeBlock(t[|t0|..], col, px)
  }

  /** The window a one-column block opens decodes to that column at both ends. */
  lemma EdgeWindow(t: seq<Spi>, col: int, r0: int, r1: int, px: seq<bv16>)
    requires 0 <= col < 0x1_0000 && 0 <= r0 < 0x1_0000 && 0 <= r1 < 0x1_0000
    requires t == AddrWindow(col, col, r0, r1) + [Pixels(px)]
    ensures EdgeBlock(t, col, px)
  {
    AddrWindowDecode(col, col, r0, r1);
  }

  /**
   * A trace that appends the window of a glyph block drawn from column
   * width, and then the block, holds a one-column block at panel column
   * width + colstart.
   */
  lemma EdgeTrace(t0: seq<Spi>, t: seq<Spi>, width: int, colstart: int, y: int, rowstart: int, rh: int, px: seq<bv16>)
    requires 0 <= width < 0x100 && 0 <= colstart < 0x100 && 0 <= rowstart < 0x100
    requires t == t0 + WindowAt(colstart, rowstart, width, y, Span(width, width), rh) + [Pixels(px)]
    ensures Span(width, width) == 1
    ensures EdgeDrawn(t0, t, width + colstart, px)
  {
    var a := AddrWindow(width + colstart, width + colstart, Trunc8(y) + rowstart, Trunc8(y + rh - 1) + rowstart);
    DropPrefix(t0, a + [Pixels(px)], t);
    EdgeWindow(t[|t0|..], width + colstart, Trunc8(y) + rowstart, Trunc8(y + rh - 1) + rowstart, px);
  }
}
