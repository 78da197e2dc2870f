/** The serial graphic LCD's wire protocol: every command is an escape byte 0x7C,
    a one-byte opcode, one-byte parameters and, for the set/clear drawing
    commands (pixel, line, box, circle), a trailing set/clear flag. Text is
    written raw, without any framing.

    `Encode` is the host's command builder; `DecodeFrame` and `DecodeAll` read a
    byte log back into commands, and the lemmas show that the framing is
    unambiguous: a log made only of command frames decodes to exactly the
    commands that produced it. */
module Wire {

  datatype Option<+T> = None | Some(value: T)

  /** One byte on the serial line (what `chr` accepts). */
  type byte = b: int | 0 <= b < 0x100

  const Esc: byte := 0x7C

  const OpClear: byte := 0x00
  const OpBacklight: byte := 0x02
  const OpCircle: byte := 0x03
  const OpDemo: byte := 0x04
  const OpClearBlock: byte := 0x05
  const OpBaud: byte := 0x07
  const OpLine: byte := 0x0C
  const OpBox: byte := 0x0F
  const OpPixel: byte := 0x10
  const OpReverse: byte := 0x12
  const OpSplash: byte := 0x13
  const OpSetX: byte := 0x18
  const OpSetY: byte := 0x19

  /** The commands the driver sends, one constructor per opcode. `on` is the
      set (true) / clear (false) flag of the drawing commands. */
  datatype Command =
    | ClearScreen
    | ReverseMode
    | SplashScreen
    | DemoMode
    | Backlight(duty: byte)
    | SetBaud(key: byte)
    | SetX(x: byte)
    | SetY(y: byte)
    | Pixel(x: byte, y: byte, on: bool)
    | Line(x1: byte, y1: byte, x2: byte, y2: byte, on: bool)
    | Box(x1: byte, y1: byte, x2: byte, y2: byte, on: bool)
    | Circle(x: byte, y: byte, rad: byte, on: bool)
    | ClearBlock(x1: byte, y1: byte, x2: byte, y2: byte)

  /** What one serial write carries: a command frame or raw text bytes. */
  datatype Write = Frame(cmd: Command) | Text(bytes: seq<byte>)

  function Opcode(c: Command): byte {
    match c
    case ClearScreen => OpClear
    case ReverseMode => OpReverse
    case SplashScreen => OpSplash
    case DemoMode => OpDemo
    case Backlight(_) => OpBacklight
    case SetBaud(_) => OpBaud
    case SetX(_) => OpSetX
    case SetY(_) => OpSetY
    case Pixel(_, _, _) => OpPixel
    case Line(_, _, _, _, _) => OpLine
    case Box(_, _, _, _, _) => OpBox
    case Circle(_, _, _, _) => OpCircle
    case ClearBlock(_, _, _, _) => OpClearBlock
  }

  /** Length of the frame an opcode introduces, escape byte included;
      0 for a byte that is not an opcode. */
  function FrameLength(op: byte): nat {
    if op in {OpClear, OpReverse, OpSplash, OpDemo} then 2
    else if op in {OpBacklight, OpBaud, OpSetX, OpSetY} then 3
    else if op == OpPixel then 5
    else if op in {OpCircle, OpClearBlock} then 6
    else if op in {OpLine, OpBox} then 7
    else 0
  }

  function Flag(on: bool): byte {
    if on then 0x01 else 0x00
  }

  /** The frame the driver sends for a command. Its length is fixed by its
      opcode alone, which is what lets a reader split a log into frames. */
  function Encode(c: Command): (r: seq<byte>)
    ensures |r| == FrameLength(Opcode(c)) >= 2
    ensures r[0] == Esc && r[1] == Opcode(c)
  {
    match c
    case ClearScreen => [Esc, OpClear]
    case ReverseMode => [Esc, OpReverse]
    case SplashScreen => [Esc, OpSplash]
    case DemoMode => [Esc, OpDemo]
    case Backlight(d) => [Esc, OpBacklight, d]
    case SetBaud(k) => [Esc, OpBaud, k]
    case SetX(x) => [Esc, OpSetX, x]
    case SetY(y) => [Esc, OpSetY, y]
    case Pixel(x, y, on) => [Esc, OpPixel, x, y, Flag(on)]
    case Line(x1, y1, x2, y2, on) => [Esc, OpLine, x1, y1, x2, y2, Flag(on)]
    case Box(x1, y1, x2, y2, on) => [Esc, OpBox, x1, y1, x2, y2, Flag(on)]
    case Circle(x, y, rad, on) => [Esc, OpCircle, x, y, rad, Flag(on)]
    case ClearBlock(x1, y1, x2, y2) => [Esc, OpClearBlock, x1, y1, x2, y2]
  }

  /** The bytes one write puts on the line. */
  function Bytes(w: Write): seq<byte> {
    match w
    case Frame(c) => Encode(c)
    case Text(s) => s
  }

  /** The byte stream produced by a sequence of writes, in order. */
  function Stream(ws: seq<Write>): seq<byte> {
    if ws == [] then [] else Bytes(ws[0]) + Stream(ws[1..])
  }

  ghost predicate AllFrames(ws: seq<Write>) {
    forall i :: 0 <= i < |ws| ==> ws[i].Frame?
  }

  function FlagOf(b: byte): Option<bool> {
    if b == 0x01 then Some(true) else if b == 0x00 then Some(false) else None
  }

  /** Reads one frame from the front of `s`: the command and the number of
      bytes it takes, or None when `s` does not start with a whole frame. */
  function DecodeFrame(s: seq<byte>): (r: Option<(Command, nat)>)
    ensures r.Some? ==> r.value.1 <= |s| && Encode(r.value.0) == s[..r.value.1]
  {
    if |s| < 2 || s[0] != Esc || FrameLength(s[1]) == 0 || |s| < FrameLength(s[1]) then None
    else
      var op := s[1];
      if op == OpClear then Some((ClearScreen, 2))
      else if op == OpReverse then Some((ReverseMode, 2))
      else if op == OpSplash then Some((SplashScreen, 2))
      else if op == OpDemo then Some((DemoMode, 2))
      else if op == OpBacklight then Some((Backlight(s[2]), 3))
      else if op == OpBaud then Some((SetBaud(s[2]), 3))
      else if op == OpSetX then Some((SetX(s[2]), 3))
      else if op == OpSetY then Some((SetY(s[2]), 3))
      else if op == OpClearBlock then Some((ClearBlock(s[2], s[3], s[4], s[5]), 6))
      else if op == OpPixel then
        (match FlagOf(s[4])
         case None => None
         case Some(on) => Some((Pixel(s[2], s[3], on), 5)))
      else if op == OpCircle then
        (match FlagOf(s[5])
         case None => None
         case Some(on) => Some((Circle(s[2], s[3], s[4], on), 6)))
      else if op == OpLine then
        (match FlagOf(s[6])
         case None => None
         case Some(on) => Some((Line(s[2], s[3], s[4], s[5], on), 7)))
      else
        (match FlagOf(s[6])
         case None => None
         case Some(on) => Some((Box(s[2], s[3], s[4], s[5], on), 7)))
  }

  /** Splits a whole byte log into command frames; None when some part of it
      is not a frame. */
  function DecodeAll(s: seq<byte>): (r: Option<seq<Write>>)
    ensures r.Some? ==> Stream(r.value) == s && AllFrames(r.value)
    decreases |s|
  {
    if s == [] then Some([])
    else
      match DecodeFrame(s)
      case None => None
      case Some((c, n)) =>
        match DecodeAll(s[n..])
        case None => None
        case Some(ws) =>
          StreamCons(c, ws, s, n);
          Some([Frame(c)] + ws)
  }

  /** Putting a frame in front of a stream puts its bytes in front. */
  lemma StreamCons(c: Command, ws: seq<Write>, s: seq<byte>, n: nat)
    requires n <= |s| && Encode(c) == s[..n] && Stream(ws) == s[n..]
    ensures Stream([Frame(c)] + ws) == s
  {
    assert ([Frame(c)] + ws)[1..] == ws;
    assert s == s[..n] + s[n..];
  }

  /** A command's frame is read back as that command, whatever follows it. */
  lemma DecodeFrameEncode(c: Command, rest: seq<byte>)
    ensures DecodeFrame(Encode(c) + rest) == Some((c, |Encode(c)|))
  {
    var s := Encode(c) + rest;
    assert s[..|Encode(c)|] == Encode(c);
    match c
    case Pixel(_, _, on) => assert FlagOf(s[4]) == Some(on);
    case Line(_, _, _, _, on) => assert FlagOf(s[6]) == Some(on);
    case Box(_, _, _, _, on) => assert FlagOf(s[6]) == Some(on);
    case Circle(_, _, _, on) => assert FlagOf(s[5]) == Some(on);
    case _ =>
  }

  /** The framing is unambiguous: a log made only of command frames decodes to
      exactly the commands that were sent, in order. */
  lemma {:induction false} DecodeStream(ws: seq<Write>)
    requires AllFrames(ws)
    ensures DecodeAll(Stream(ws)) == Some(ws)
  {
    if ws != [] {
      var c := ws[0].cmd;
      var rest := Stream(ws[1..]);
      assert Stream(ws) == Encode(c) + rest;
      DecodeFrameEncode(c, rest);
      assert (Encode(c) + rest)[|Encode(c)|..] == rest;
      DecodeStream(ws[1..]);
      assert ws == [Frame(c)] + ws[1..];
    }
  }

  /** Appending one write appends its bytes to the stream. */
  lemma {:induction false} StreamAppend(ws: seq<Write>, w: Write)
    ensures Stream(ws + [w]) == Stream(ws) + Bytes(w)
  {
    if ws == [] {
      assert [w][1..] == [];
    } else {
      assert (ws + [w])[1..] == ws[1..] + [w];
      StreamAppend(ws[1..], w);
    }
  }

  /** The drawing commands that come in set/clear pairs. */
  predicate HasFlag(c: Command) {
    c.Pixel? || c.Line? || c.Box? || c.Circle?
  }

  /** The two members of a set/clear pair send the same frame except for its
      last byte, which is 0x01 for set and 0x00 for clear. */
  lemma SetClearDifferOnlyInFlag(c: Command)
    requires HasFlag(c)
    ensures var s, t := Encode(c.(on := true)), Encode(c.(on := false));
      |s| == |t| && s[..|s| - 1] == t[..|t| - 1] && s[|s| - 1] == 0x01 && t[|t| - 1] == 0x00
  {
  }
}
