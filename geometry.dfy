/** The display's fixed dimensions and the pure arithmetic the driver does on
    them: the cursor Y transform, the row/column to pixel maps and the table
    of supported baud rates. */
module Geometry {
  import opened Wire

  /** Glyph and screen sizes in pixels, fixed when the display is created. */
  datatype Dimensions = Dimensions(
    lineHeight: int, letterSpacing: int,
    charWidth: int, charHeight: int,
    width: int, height: int)

  /** The sizes the driver assumes unless told otherwise. */
  const DefaultDimensions := Dimensions(1, 1, 5, 7, 160, 128)

  /** The Y value the cursor command sends for a caller's Y. The device counts
      Y from the bottom, so the caller's Y is inverted; a Y too close to the
      bottom edge for a whole character is clamped to one character height. */
  function YByte(d: Dimensions, y: int): (r: int)
    ensures r >= d.charHeight
    ensures y <= d.height - d.charHeight ==> d.height - r == y
    ensures y > d.height - d.charHeight ==> r == d.charHeight
    ensures 0 <= y && d.charHeight <= d.height ==> r <= d.height
  {
    if y > d.height - d.charHeight then d.charHeight else d.height - y
  }

  /** Lower on the screen never means a larger device Y. */
  lemma YByteAntitone(d: Dimensions, y1: int, y2: int)
    requires y1 <= y2
    ensures YByte(d, y1) >= YByte(d, y2)
  {
  }

  /** With the default sizes every non-negative Y gives a sendable byte. */
  lemma DefaultYByteFits(y: int)
    requires 0 <= y
    ensures 7 <= YByte(DefaultDimensions, y) <= 128
  {
  }

  function RowPitch(d: Dimensions): int {
    d.charHeight + d.lineHeight
  }

  function ColPitch(d: Dimensions): int {
    d.charWidth + d.letterSpacing
  }

  /** The pixel Y of the top of text row `row`, one pixel below the row's
      boundary. The row can be read back from the pixel Y. */
  function RowToY(d: Dimensions, row: int): (r: int)
    ensures RowPitch(d) > 0 ==> (r - 1) % RowPitch(d) == 0 && (r - 1) / RowPitch(d) == row
  {
    MulDivMod(row, RowPitch(d));
    row * RowPitch(d) + 1
  }

  /** The pixel X of the left of text column `col`, one pixel right of the
      column's boundary. The column can be read back from the pixel X. */
  function ColToX(d: Dimensions, col: int): (r: int)
    ensures ColPitch(d) > 0 ==> (r - 1) % ColPitch(d) == 0 && (r - 1) / ColPitch(d) == col
  {
    MulDivMod(col, ColPitch(d));
    col * ColPitch(d) + 1
  }

  /** Consecutive rows and columns lie exactly one pitch apart. */
  lemma NextRowAndCol(d: Dimensions, row: int, col: int)
    ensures RowToY(d, row + 1) - RowToY(d, row) == RowPitch(d)
    ensures ColToX(d, col + 1) - ColToX(d, col) == ColPitch(d)
  {
  }

  /** Multiplying by a positive pitch and dividing by it again is the identity. */
  lemma MulDivMod(a: int, p: int)
    ensures p > 0 ==> (a * p) % p == 0 && (a * p) / p == a
  {
    if p > 0 {
      var q, m := (a * p) / p, (a * p) % p;
      assert (a - q) * p == m;
      MulOutside(a - q, p);
    }
  }

  /** A non-zero multiple of a positive number is at least that number away
      from zero. */
  lemma MulOutside(k: int, p: int)
    requires p > 0
    ensures k >= 1 ==> k * p >= p
    ensures k <= -1 ==> k * p <= -p
  {
    if k >= 1 {
      assert k * p == (k - 1) * p + p;
    } else if k <= -1 {
      assert k * p == (k + 1) * p - p;
    }
  }

  /** The baud rates the display supports, slowest first. */
  const Rates: seq<int> := [4800, 9600, 19200, 38400, 57600, 115200]

  /** The key byte that selects a baud rate: 0x31 for the slowest rate up to
      0x36 for the fastest; None for a rate the display does not support. */
  function BaudKey(rate: int): (r: Option<byte>)
    ensures r.Some? <==> rate in Rates
    ensures r.Some? ==> 0x31 <= r.value <= 0x36 && Rates[r.value - 0x31] == rate
  {
    if rate == 4800 then Some(0x31)
    else if rate == 9600 then Some(0x32)
    else if rate == 19200 then Some(0x33)
    else if rate == 38400 then Some(0x34)
    else if rate == 57600 then Some(0x35)
    else if rate == 115200 then Some(0x36)
    else None
  }

  /** A faster rate always has a larger key. */
  lemma BaudKeyIncreasing(r1: int, r2: int)
    requires r1 in Rates && r2 in Rates && r1 < r2
    ensures BaudKey(r1).value < BaudKey(r2).value
  {
  }
}
