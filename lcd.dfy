/** The display driver object. It owns a serial link; every public method
    builds one or more command frames (or passes text through) and writes
    them to the link. The link is modelled by `out`, the log of every byte
    written so far, and `baud`, the host side's current line speed. */
module Display {
  import opened Wire
  import opened Geometry

  class LCD {
    /** Glyph and screen sizes given at construction and never changed. */
    const dims: Dimensions

    /** Every byte written to the serial link, oldest first. */
    var out: seq<byte>
    /** The host side's baud rate. */
    var baud: int

    /** The writes that produced `out`, one entry per serial write. */
    ghost var history: seq<Write>
    /** How many one-second settle delays the baud-rate command has waited. */
    ghost var settleDelays: nat

    ghost predicate Valid()
      reads this
    {
      out == Stream(history)
    }

    /** Opens the display with the given sizes at the given baud rate; nothing
        has been written yet. */
    constructor (baudrate: int, lineHeight: int, letterSpacing: int,
                 charWidth: int, charHeight: int, width: int, height: int)
      ensures Valid()
      ensures dims == Dimensions(lineHeight, letterSpacing, charWidth, charHeight, width, height)
      ensures out == [] && history == [] && baud == baudrate && settleDelays == 0
    {
      dims := Dimensions(lineHeight, letterSpacing, charWidth, charHeight, width, height);
      out := [];
      history := [];
      baud := baudrate;
      settleDelays := 0;
    }

    /** One serial write of a command frame. */
    method Send(c: Command)
      requires Valid()
      modifies this`out, this`history
      ensures Valid()
      ensures out == old(out) + Encode(c)
      ensures history == old(history) + [Frame(c)]
    {
      StreamAppend(history, Frame(c));
      out := out + Encode(c);
      history := history + [Frame(c)];
    }

    method Clear()
      requires Valid()
      modifies this`out, this`history
      ensures Valid()
      ensures out == old(out) + [0x7C, 0x00]
      ensures history == old(history) + [Frame(ClearScreen)]
    {
      Send(ClearScreen);
    }

    /** Text goes out as it is, with no framing and no escaping. */
    method Write(text: seq<byte>)
      requires Valid()
      modifies this`out, this`history
      ensures Valid()
      ensures out == old(out) + text
      ensures history == old(history) + [Text(text)]
    {
      StreamAppend(history, Text(text));
      out := out + text;
      history := history + [Text(text)];
    }

    /** The text and the two bytes 0x10 0x13 go out in one write. */
    method Writeln(text: seq<byte>)
      requires Valid()
      modifies this`out, this`history
      ensures Valid()
      ensures out == old(out) + text + [0x10, 0x13]
      ensures history == old(history) + [Text(text + [0x10, 0x13])]
    {
      Write(text + [0x10, 0x13]);
    }

    method Reverse()
      requires Valid()
      modifies this`out, this`history
      ensures Valid()
      ensures out == old(out) + [0x7C, 0x12]
      ensures history == old(history) + [Frame(ReverseMode)]
    {
      Send(ReverseMode);
    }

    method Splash()
      requires Valid()
      modifies this`out, this`history
      ensures Valid()
      ensures out == old(out) + [0x7C, 0x13]
      ensures history == old(history) + [Frame(SplashScreen)]
    {
      Send(SplashScreen);
    }

    method Backlight(duty: byte)
      requires Valid()
      modifies this`out, this`history
      ensures Valid()
      ensures out == old(out) + [0x7C, 0x02, duty]
      ensures history == old(history) + [Frame(Command.Backlight(duty))]
    {
      Send(Command.Backlight(duty));
    }

    /** Selects one of the six supported rates: sends its key, switches the
        host side to the new rate and waits for the display to settle. Any
        other rate is refused before anything is written. */
    method Baudrate(rate: int) returns (ok: bool)
      requires Valid()
      modifies this`out, this`history, this`baud, this`settleDelays
      ensures Valid()
      ensures ok <==> BaudKey(rate).Some?
      ensures ok ==> (out == old(out) + [0x7C, 0x07, BaudKey(rate).value]
                      && history == old(history) + [Frame(SetBaud(BaudKey(rate).value))]
                      && baud == rate && settleDelays == old(settleDelays) + 1)
      ensures !ok ==> (out == old(out) && history == old(history)
                       && baud == old(baud) && settleDelays == old(settleDelays))
    {
      var key := BaudKey(rate);
      if key.None? {
        return false;
      }
      Send(SetBaud(key.value));
      baud := rate;
      settleDelays := settleDelays + 1;
      ok := true;
    }

    /** Steps through every supported rate, slowest first, so that a display
        at an unknown rate is brought to the fastest one. */
    method RestoreBaudrate()
      requires Valid()
      modifies this`out, this`history, this`baud, this`settleDelays
      ensures Valid()
      ensures out == old(out) + [0x7C, 0x07, 0x31] + [0x7C, 0x07, 0x32] + [0x7C, 0x07, 0x33]
                              + [0x7C, 0x07, 0x34] + [0x7C, 0x07, 0x35] + [0x7C, 0x07, 0x36]
      ensures history == old(history) + [Frame(SetBaud(0x31)), Frame(SetBaud(0x32)),
                                         Frame(SetBaud(0x33)), Frame(SetBaud(0x34)),
                                         Frame(SetBaud(0x35)), Frame(SetBaud(0x36))]
      ensures baud == 115200
      ensures settleDelays == old(settleDelays) + 6
    {
      ghost var history0 := history;
      var ok := Baudrate(4800);
      assert history == history0 + [Frame(SetBaud(0x31))];
      ok := Baudrate(9600);
      assert history == history0 + [Frame(SetBaud(0x31)), Frame(SetBaud(0x32))];
      ok := Baudrate(19200);
      assert history == history0 + [Frame(SetBaud(0x31)), Frame(SetBaud(0x32)), Frame(SetBaud(0x33))];
      ok := Baudrate(38400);
      assert history == history0 + [Frame(SetBaud(0x31)), Frame(SetBaud(0x32)), Frame(SetBaud(0x33))]
                                 + [Frame(SetBaud(0x34))];
      ok := Baudrate(57600);
      assert history == history0 + [Frame(SetBaud(0x31)), Frame(SetBaud(0x32)), Frame(SetBaud(0x33))]
                                 + [Frame(SetBaud(0x34)), Frame(SetBaud(0x35))];
      ok := Baudrate(115200);
      assert history == history0 + [Frame(SetBaud(0x31)), Frame(SetBaud(0x32)), Frame(SetBaud(0x33))]
                                 + [Frame(SetBaud(0x34)), Frame(SetBaud(0x35)), Frame(SetBaud(0x36))];
    }

    method Demo()
      requires Valid()
      modifies this`out, this`history
      ensures Valid()
      ensures out == old(out) + [0x7C, 0x04]
      ensures history == old(history) + [Frame(DemoMode)]
    {
      Send(DemoMode);
    }

    /** Moves the cursor to pixel column `x`, sent as given. */
    method X(x: byte)
      requires Valid()
      modifies this`out, this`history
      ensures Valid()
      ensures out == old(out) + [0x7C, 0x18, x]
      ensures history == old(history) + [Frame(SetX(x))]
    {
      Send(SetX(x));
    }

    /** Moves the cursor to pixel row `y`, inverted and clamped by YByte. */
    method Y(y: int)
      requires Valid()
      requires 0 <= YByte(dims, y) < 0x100
      modifies this`out, this`history
      ensures Valid()
      ensures out == old(out) + [0x7C, 0x19, YByte(dims, y)]
      ensures history == old(history) + [Frame(SetY(YByte(dims, y)))]
    {
      Send(SetY(YByte(dims, y)));
    }

    /** The X frame, then the Y frame. */
    method Position(x: byte, y: int)
      requires Valid()
      requires 0 <= YByte(dims, y) < 0x100
      modifies this`out, this`history
      ensures Valid()
      ensures out == old(out) + [0x7C, 0x18, x] + [0x7C, 0x19, YByte(dims, y)]
      ensures history == old(history) + [Frame(SetX(x)), Frame(SetY(YByte(dims, y)))]
    {
      X(x);
      Y(y);
    }

    /** Same effect as Y at the first pixel row of text row `row`. */
    method Row(row: int)
      requires Valid()
      requires 0 <= YByte(dims, RowToY(dims, row)) < 0x100
      modifies this`out, this`history
      ensures Valid()
      ensures out == old(out) + [0x7C, 0x19, YByte(dims, RowToY(dims, row))]
      ensures history == old(history) + [Frame(SetY(YByte(dims, RowToY(dims, row))))]
    {
      Y(RowToY(dims, row));
    }

    /** Same effect as X at the first pixel column of text column `col`. */
    method Col(col: int)
      requires Valid()
      requires 0 <= ColToX(dims, col) < 0x100
      modifies this`out, this`history
      ensures Valid()
      ensures out == old(out) + [0x7C, 0x18, ColToX(dims, col)]
      ensures history == old(history) + [Frame(SetX(ColToX(dims, col)))]
    {
      X(ColToX(dims, col));
    }

    /** The row's Y frame, then the column's X frame (the opposite order to
        Position). */
    method RowCol(row: int, col: int)
      requires Valid()
      requires 0 <= YByte(dims, RowToY(dims, row)) < 0x100
      requires 0 <= ColToX(dims, col) < 0x100
      modifies this`out, this`history
      ensures Valid()
      ensures out == old(out) + [0x7C, 0x19, YByte(dims, RowToY(dims, row))]
                              + [0x7C, 0x18, ColToX(dims, col)]
      ensures history == old(history) + [Frame(SetY(YByte(dims, RowToY(dims, row)))),
                                         Frame(SetX(ColToX(dims, col)))]
    {
      Row(row);
      Col(col);
    }

    /** X 0, then Y 0 (which the Y transform turns into the top of the
        screen, or the clamp value on a screen shorter than a character). */
    method Home()
      requires Valid()
      requires 0 <= YByte(dims, 0) < 0x100
      modifies this`out, this`history
      ensures Valid()
      ensures out == old(out) + [0x7C, 0x18, 0x00] + [0x7C, 0x19, YByte(dims, 0)]
      ensures history == old(history) + [Frame(SetX(0)), Frame(SetY(YByte(dims, 0)))]
    {
      X(0);
      Y(0);
    }

    // The drawing commands send every coordinate as given: unlike the cursor
    // Y, no drawing Y is inverted or clamped.

    method Pixel(x: byte, y: byte)
      requires Valid()
      modifies this`out, this`history
      ensures Valid()
      ensures out == old(out) + [0x7C, 0x10, x, y, 0x01]
      ensures history == old(history) + [Frame(Command.Pixel(x, y, true))]
    {
      Send(Command.Pixel(x, y, true));
    }

    method ClearPixel(x: byte, y: byte)
      requires Valid()
      modifies this`out, this`history
      ensures Valid()
      ensures out == old(out) + [0x7C, 0x10, x, y, 0x00]
      ensures history == old(history) + [Frame(Command.Pixel(x, y, false))]
    {
      Send(Command.Pixel(x, y, false));
    }

    method Line(x1: byte, y1: byte, x2: byte, y2: byte)
      requires Valid()
      modifies this`out, this`history
      ensures Valid()
      ensures out == old(out) + [0x7C, 0x0C, x1, y1, x2, y2, 0x01]
      ensures history == old(history) + [Frame(Command.Line(x1, y1, x2, y2, true))]
    {
      Send(Command.Line(x1, y1, x2, y2, true));
    }

    method ClearLine(x1: byte, y1: byte, x2: byte, y2: byte)
      requires Valid()
      modifies this`out, this`history
      ensures Valid()
      ensures out == old(out) + [0x7C, 0x0C, x1, y1, x2, y2, 0x00]
      ensures history == old(history) + [Frame(Command.Line(x1, y1, x2, y2, false))]
    {
      Send(Command.Line(x1, y1, x2, y2, false));
    }

    method Box(x1: byte, y1: byte, x2: byte, y2: byte)
      requires Valid()
      modifies this`out, this`history
      ensures Valid()
      ensures out == old(out) + [0x7C, 0x0F, x1, y1, x2, y2, 0x01]
      ensures history == old(history) + [Frame(Command.Box(x1, y1, x2, y2, true))]
    {
      Send(Command.Box(x1, y1, x2, y2, true));
    }

    method ClearBox(x1: byte, y1: byte, x2: byte, y2: byte)
      requires Valid()
      modifies this`out, this`history
      ensures Valid()
      ensures out == old(out) + [0x7C, 0x0F, x1, y1, x2, y2, 0x00]
      ensures history == old(history) + [Frame(Command.Box(x1, y1, x2, y2, false))]
    {
      Send(Command.Box(x1, y1, x2, y2, false));
    }

    method Circle(x: byte, y: byte, rad: byte)
      requires Valid()
      modifies this`out, this`history
      ensures Valid()
      ensures out == old(out) + [0x7C, 0x03, x, y, rad, 0x01]
      ensures history == old(history) + [Frame(Command.Circle(x, y, rad, true))]
    {
      Send(Command.Circle(x, y, rad, true));
    }

    method ClearCircle(x: byte, y: byte, rad: byte)
      requires Valid()
      modifies this`out, this`history
      ensures Valid()
      ensures out == old(out) + [0x7C, 0x03, x, y, rad, 0x00]
      ensures history == old(history) + [Frame(Command.Circle(x, y, rad, false))]
    {
      Send(Command.Circle(x, y, rad, false));
    }

    /** Clears a rectangle; the frame carries no set/clear flag. */
    method ClearBlock(x1: byte, y1: byte, x2: byte, y2: byte)
      requires Valid()
      modifies this`out, this`history
      ensures Valid()
      ensures out == old(out) + [0x7C, 0x05, x1, y1, x2, y2]
      ensures history == old(history) + [Frame(Command.ClearBlock(x1, y1, x2, y2))]
    {
      Send(Command.ClearBlock(x1, y1, x2, y2));
    }

    /** As long as only commands (no text) have been written, the display can
        split the log back into exactly the commands that were sent. */
    lemma LogDecodes()
      requires Valid() && AllFrames(history)
      ensures DecodeAll(out) == Some(history)
    {
      DecodeStream(history);
    }
  }
}
