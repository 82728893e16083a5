/*
 * The 8x8 font as both display drivers read it: each character is eight
 * row bytes (fontdata[chr * 8 + row]), the leftmost column in the most
 * significant bit, and the drawing loops walk a row by testing bit 7
 * and shifting the byte left once per column.
 */
module Font {

  /** fontdata: 256 characters of eight row bytes. */
  const FontSize := 2048

  /** Bit c of a font row byte, counted from the left (most significant) end. */
  function FontBit(d: bv8, c: int): bool
    requires 0 <= c < 8
  {
    d & ColumnMask(c) != 0
  }

  /** The mask of column c: 0x80 for the leftmost column, 0x01 for the rightmost. */
  function ColumnMask(c: int): bv8
    requires 0 <= c < 8
  {
    if c == 0 then 0x80 else if c == 1 then 0x40 else if c == 2 then 0x20 else if c == 3 then 0x10
    else if c == 4 then 0x08 else if c == 5 then 0x04 else if c == 6 then 0x02 else 0x01
  }

  /** The bit the drawing loops test, and its shift to the next one. */
  function TopBit(d: bv8): bool { d & 0x80 != 0 }
  function Shl1(d: bv8): bv8 { d << 1 }

  /** A font row byte after j of the drawing loops' left shifts. */
  function Shifted(b: bv8, j: int): bv8
    requires 0 <= j <= 8
  {
    if j == 0 then b else if j == 1 then b << 1 else if j == 2 then b << 2 else if j == 3 then b << 3
    else if j == 4 then b << 4 else if j == 5 then b << 5 else if j == 6 then b << 6
    else if j == 7 then b << 7 else 0
  }

  lemma ShiftStep(b: bv8, j: int)
    requires 0 <= j < 8
    ensures Shl1(Shifted(b, j)) == Shifted(b, j + 1)
    ensures TopBit(Shifted(b, j)) == FontBit(b, j)
  {
  }
}
