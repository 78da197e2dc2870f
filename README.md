# SparkFun serial graphic LCD driver — command encoder model

This project models the `LCD` class of the SparkFun serial graphic LCD driver.
The class turns drawing, cursor, text and configuration calls into the
display's serial command frames. Each frame is the escape byte `0x7C`, a
one-byte opcode, one-byte parameters and, for the set/clear drawing commands
(pixel, line, box, circle), a trailing set (`0x01`) or clear (`0x00`) flag.
The class writes each frame to the serial link. The display sends nothing back.

Modules:

- `Wire` (`wire.dfy`) holds the protocol. `Command` has one constructor per
  opcode, and `Encode` is the frame builder. `Stream` gives the bytes of a
  sequence of serial writes. `DecodeFrame` and `DecodeAll` read a byte log back
  into commands. They serve as the encoder's inverse: the lemmas show that the
  framing is unambiguous.
- `Geometry` (`geometry.dfy`) holds the pure arithmetic on the display's fixed
  sizes:
  - the cursor Y transform `YByte`, which inverts Y and clamps it near the
    bottom edge;
  - the text row/column to pixel maps `RowToY` and `ColToX`;
  - the baud-rate key table `BaudKey`.
- `Display` (`lcd.dfy`) holds the class `LCD`.
  - `out` is the log of every byte written to the serial link.
  - `baud` is the host side's line speed.
  - The ghost field `history` lists the writes that produced `out`. The
    invariant `Valid()` is `out == Stream(history)`.
  - The ghost counter `settleDelays` counts the one-second waits after each
    baud-rate change.
  - Every method states exactly which bytes it appends to `out`. The
    `modifies` frames show that nothing else changes.

The Python `chr(...)` raises outside `0..255`. Parameters passed straight to
`chr` therefore have the type `byte` (`0..255`). Parameters passed through a
computation carry a `requires` that the computed value lies in `0..255`. An
unsupported baud rate is an error path: `Baudrate` returns `false` and changes
nothing.

The pixel, line, box, circle and block commands send their Y values as given
(`SparkFunSerialGraphicLCD/LCD.py:224`, `:236`, `:248`, `:260`, `:272`). Only
the cursor command `y` inverts Y.

## Model

| member | source | states |
|---|---|---|
| Wire.Encode | SparkFunSerialGraphicLCD/LCD.py:60-272 | every frame starts with `0x7C` then its opcode, and its length depends on the opcode alone |
| Wire.DecodeFrame | SparkFunSerialGraphicLCD/LCD.py:60-272 | inverse of the frames written at these lines (the code has no decoder): a frame read from the front of a log re-encodes to exactly the bytes it consumed |
| Wire.DecodeAll | SparkFunSerialGraphicLCD/LCD.py:60-272 | inverse of the frames written at these lines (the code has no decoder): a log that decodes is exactly the concatenation of the decoded command frames |
| Wire.DecodeFrameEncode | SparkFunSerialGraphicLCD/LCD.py:60-272 | round trip between the frames written at these lines and their decoder: each command's frame reads back as that command, whatever bytes follow it |
| Wire.DecodeStream | SparkFunSerialGraphicLCD/LCD.py:60-272 | round trip between the frames written at these lines and their decoder: a log made only of command frames decodes to exactly the commands sent, in order |
| Wire.SetClearDifferOnlyInFlag | SparkFunSerialGraphicLCD/LCD.py:220-266 | pixel, line, box and circle frames for set and for clear are identical except for the last byte, `0x01` for set and `0x00` for clear |
| Geometry.YByte | SparkFunSerialGraphicLCD/LCD.py:159-163 | the cursor Y byte is never below `char_height`; on the printable range it is `height - y`, so `y` can be recovered; beyond it, it is clamped to `char_height`; for `y >= 0` and `char_height <= height` it never exceeds `height` |
| Geometry.YByteAntitone | SparkFunSerialGraphicLCD/LCD.py:154-163 | the device Y axis runs opposite to the caller's: a larger `y` never gives a larger byte |
| Geometry.DefaultYByteFits | SparkFunSerialGraphicLCD/LCD.py:12-21 | with the default sizes, every `y >= 0` gives a cursor byte in `7..128` |
| Geometry.RowToY | SparkFunSerialGraphicLCD/LCD.py:196 | for a positive row pitch `char_height + line_height`, the pixel Y of a text row, minus one, is a multiple of the pitch, and the row can be recovered from it |
| Geometry.ColToX | SparkFunSerialGraphicLCD/LCD.py:202 | for a positive column pitch `char_width + letter_spacing`, the pixel X of a text column, minus one, is a multiple of the pitch, and the column can be recovered from it |
| Geometry.NextRowAndCol | SparkFunSerialGraphicLCD/LCD.py:192-202 | consecutive rows and columns lie exactly one pitch apart |
| Geometry.BaudKey | SparkFunSerialGraphicLCD/LCD.py:111-124 | a key exists exactly for the six supported rates; it lies in `0x31..0x36`, and the key minus `0x31` is the rate's position in the ascending rate list |
| Geometry.BaudKeyIncreasing | SparkFunSerialGraphicLCD/LCD.py:99-122 | a faster supported rate always has a strictly larger key |
| Display.LCD.constructor | SparkFunSerialGraphicLCD/LCD.py:12-43 | the sizes are stored, nothing has been written, and the baud rate is the one given |
| Display.LCD.Clear | SparkFunSerialGraphicLCD/LCD.py:60-62 | appends exactly `7C 00` |
| Display.LCD.Write | SparkFunSerialGraphicLCD/LCD.py:64-69 | appends the text bytes unchanged, with no framing |
| Display.LCD.Writeln | SparkFunSerialGraphicLCD/LCD.py:71-77 | appends the text followed by `10 13`, in one write |
| Display.LCD.Reverse | SparkFunSerialGraphicLCD/LCD.py:79-83 | appends exactly `7C 12` |
| Display.LCD.Splash | SparkFunSerialGraphicLCD/LCD.py:85-90 | appends exactly `7C 13` |
| Display.LCD.Backlight | SparkFunSerialGraphicLCD/LCD.py:92-97 | appends exactly `7C 02 duty` |
| Display.LCD.Baudrate | SparkFunSerialGraphicLCD/LCD.py:99-127 | a supported rate appends `7C 07 key`, sets the link baud to the rate and counts one settle delay; any other rate fails and leaves the log, the baud rate and the delay count unchanged |
| Display.LCD.RestoreBaudrate | SparkFunSerialGraphicLCD/LCD.py:130-139 | appends six baud frames with keys `0x31` to `0x36` in ascending order, ends at 115200 and counts six settle delays |
| Display.LCD.Demo | SparkFunSerialGraphicLCD/LCD.py:141-146 | appends exactly `7C 04` |
| Display.LCD.X | SparkFunSerialGraphicLCD/LCD.py:148-152 | appends exactly `7C 18 x` |
| Display.LCD.Y | SparkFunSerialGraphicLCD/LCD.py:154-163 | appends `7C 19` followed by the clamped, inverted cursor byte |
| Display.LCD.Position | SparkFunSerialGraphicLCD/LCD.py:165-190 | appends the X frame, then the Y frame |
| Display.LCD.Row | SparkFunSerialGraphicLCD/LCD.py:192-196 | has the same effect as `Y` at the row's first pixel line, `row*(char_height+line_height)+1` |
| Display.LCD.Col | SparkFunSerialGraphicLCD/LCD.py:198-202 | has the same effect as `X` at the column's first pixel, `col*(char_width+letter_spacing)+1` |
| Display.LCD.RowCol | SparkFunSerialGraphicLCD/LCD.py:204-209 | appends the row's Y frame, then the column's X frame |
| Display.LCD.Home | SparkFunSerialGraphicLCD/LCD.py:213-218 | appends the frame for X 0, then the frame for Y 0 |
| Display.LCD.Pixel | SparkFunSerialGraphicLCD/LCD.py:220-224 | appends `7C 10 x y 01`, with the coordinates as given |
| Display.LCD.ClearPixel | SparkFunSerialGraphicLCD/LCD.py:226-230 | appends `7C 10 x y 00`, with the coordinates as given |
| Display.LCD.Line | SparkFunSerialGraphicLCD/LCD.py:232-236 | appends `7C 0C x1 y1 x2 y2 01` |
| Display.LCD.ClearLine | SparkFunSerialGraphicLCD/LCD.py:238-242 | appends `7C 0C x1 y1 x2 y2 00` |
| Display.LCD.Box | SparkFunSerialGraphicLCD/LCD.py:244-248 | appends `7C 0F x1 y1 x2 y2 01` |
| Display.LCD.ClearBox | SparkFunSerialGraphicLCD/LCD.py:250-254 | appends `7C 0F x1 y1 x2 y2 00` |
| Display.LCD.Circle | SparkFunSerialGraphicLCD/LCD.py:256-260 | appends `7C 03 x y rad 01` |
| Display.LCD.ClearCircle | SparkFunSerialGraphicLCD/LCD.py:262-266 | appends `7C 03 x y rad 00` |
| Display.LCD.ClearBlock | SparkFunSerialGraphicLCD/LCD.py:268-272 | appends the six bytes `7C 05 x1 y1 x2 y2`, with no flag byte |
| Display.LCD.LogDecodes | SparkFunSerialGraphicLCD/LCD.py:60-272 | while only commands (no text) have been written, the byte log splits back into exactly the commands sent |

## Left out

- Opening and closing the serial link (`LCD.py:36-58`: `serial.Serial()`, `open`, `close`, `__enter__`, `__exit__`) is left out. It is I/O through a library that is not part of this model. The port name is therefore not a constructor parameter. Note that `__enter__` returns the raw serial port, not the `LCD` object.
- The one-second `time.sleep` in `baudrate` is real time. It is recorded only as the ghost counter `settleDelays`.
- Baudrate: the failure models only "raises, writes nothing, changes nothing". The exception's type is not modelled. The message formats an undefined name `baud`, so the call raises a `NameError` rather than the intended `ValueError`.
- The argument checks of `chr` are preconditions, not error paths. Each method requires that every byte it sends lies in `0..255`. The model does not cover the raise that the code performs otherwise.
- Position, RowCol, Home: their preconditions cover both frames. The model therefore does not capture the code's partial write, where the first frame goes out and the second `chr` then raises.
- Write, Writeln: text is taken as an already-encoded byte sequence. Python 2 string/character encoding is not modelled.
- Arguments of the wrong Python type are not modelled, for example a float passed to `chr`.
- The constructor's keyword defaults are not Dafny defaults. `Geometry.DefaultDimensions` records the default sizes. The default baud rate is 115200.
- `SparkFunSerialGraphicLCD/__init__.py` holds only package metadata constants and is not part of this model.
- The code has no text alignment/padding and no image rasterisation, so neither is modelled.
