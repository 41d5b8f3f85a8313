/** The streaming ESC/POS interpreter of the receipt emulator. */
module EscPosPrinter {
  import opened Images
  import opened BitmapRender

  const ESC: byte := 27
  const DLE: byte := 16
  const LF: byte := 10
  const STATUS_OK: seq<byte> := [18]

  datatype Align = Left | Center | Right

  datatype Style = Style(bold: bool, align: Align, doubleHeight: bool, doubleWidth: bool)

  const PLAIN := Style(false, Left, false, false)

  datatype Codec = Cp437 | Cp866 | Cp1251 | Cp1125 | Cp855 | Iso8859

  /** What a receipt is made of; a text line is kept as its code-page bytes. */
  datatype Op = Raster(img: Image) | Text(chars: seq<byte>, codec: Codec, style: Style) | Gap(dots: nat)

  datatype Receipt = Receipt(ops: seq<Op>, width: nat)

  /** Everything one connection's interpreter remembers; widths are in bytes. */
  datatype Interp = Interp(
    buf: seq<byte>, ops: seq<Op>, text: seq<byte>, style: Style, observed: nat, codec: Codec,
    defaultWidth: nat, receipts: seq<Receipt>)

  function Fresh(defaultWidth: nat): Interp {
    Interp([], [], [], PLAIN, 0, Cp866, defaultWidth, [])
  }

  // ----- how long the command at the front is (0: not all there) ---------

  function Enough(b: seq<byte>, n: nat): nat {
    if n <= |b| then n else 0
  }

  function EscLength(cmd: byte): nat {
    if cmd == 0x70 then 5
    else if cmd in {0x61, 0x45, 0x21, 0x74, 0x64, 0x4A} then 3
    else if cmd in {0x33, 0x4D, 0x47, 0x2D, 0x7B, 0x52, 0x56, 0x20, 0x63} then 3
    else 2
  }

  function GsLength(cmd: byte): nat {
    if cmd == 0x4C || cmd == 0x57 then 4
    else if cmd in {0x21, 0x42, 0x68, 0x77, 0x48, 0x66, 0x72, 0x61} then 3
    else 2
  }

  function Word(low: byte, high: byte): nat {
    low + high * 256
  }

  function RasterLength(b: seq<byte>): nat {
    if |b| < 8 then 0 else Enough(b, 8 + Area(Word(b[4], b[5]), Word(b[6], b[7])))
  }

  function CommandLength(b: seq<byte>): (n: nat)
    requires b != []
    ensures n <= |b|
  {
    if b[0] == ESC then
      if |b| < 2 then 0 else Enough(b, EscLength(b[1]))
    else if b[0] == GS then
      if |b| < 2 then 0
      else if b[1] == 0x76 then RasterLength(b)
      else if b[1] == 0x56 then
        if |b| < 3 then 0 else Enough(b, if b[2] == 65 || b[2] == 66 then 4 else 3)
      else Enough(b, GsLength(b[1]))
    else if b[0] == DLE then
      if |b| < 2 then 0
      else if b[1] == 0x04 then Enough(b, 3)
      else if b[1] == 0x14 then Enough(b, 5)
      else 1
    else 1
  }

  // ----- what it does ---------------------------------------------------

  /** `_flush_text_line`: an empty line is kept only when `blank`. */
  function FlushLine(s: Interp, blank: bool): Interp {
    if s.text == [] && !blank then s
    else s.(text := [], ops := s.ops + [Text(s.text, s.codec, s.style)])
  }

  function TrimBlank(ops: seq<Op>): (r: seq<Op>)
    ensures r <= ops
  {
    if ops != [] && ops[|ops| - 1].Text? && ops[|ops| - 1].chars == [] then TrimBlank(ops[..|ops| - 1]) else ops
  }

  /** `_finalize`: trailing blank lines are dropped; nothing left means nothing printed. */
  function Finalize(s: Interp): Interp {
    var flushed := FlushLine(s, false);
    var ops := TrimBlank(flushed.ops);
    if ops == [] then flushed.(ops := [])
    else
      var width := if s.observed > 0 then s.observed else s.defaultWidth;
      flushed.(ops := [], observed := 0, receipts := s.receipts + [Receipt(ops, width)])
  }

  function Table(n: byte, current: Codec): Codec {
    if n == 0 then Cp437 else if n == 17 then Cp866 else if n == 33 || n == 46 then Cp1251
    else if n == 44 then Cp1125 else if n == 34 then Cp855 else if n == 38 then Iso8859 else current
  }

  function Bit(b: byte, weight: nat): bool
    requires weight > 0
  {
    (b / weight) % 2 == 1
  }

  function FeedDots(lines: byte): nat {
    if lines < 1 then 6 else lines * 6
  }

  function EscEffect(s: Interp, cmd: byte, arg: byte): Interp {
    if cmd == 0x40 then s.(style := PLAIN)
    else if cmd == 0x61 then
      var t := FlushLine(s, false);
      t.(style := t.style.(align := if arg == 1 then Center else if arg == 2 then Right else Left))
    else if cmd == 0x45 then
      var t := FlushLine(s, false);
      t.(style := t.style.(bold := arg != 0))
    else if cmd == 0x21 then
      var t := FlushLine(s, false);
      t.(style := t.style.(bold := Bit(arg, 8), doubleHeight := Bit(arg, 16), doubleWidth := Bit(arg, 32)))
    else if cmd == 0x74 then s.(codec := Table(arg, s.codec))
    else if cmd == 0x64 then
      var t := FlushLine(s, false);
      t.(ops := t.ops + [Gap(FeedDots(arg))])
    else if cmd == 0x4A then s.(ops := s.ops + [Gap(arg)])
    else s
  }

  function RasterEffect(s: Interp, bytesPerRow: nat, height: nat, data: seq<byte>): Interp
    requires |data| == Area(bytesPerRow, height)
  {
    var img := Image(bytesPerRow, RowsOf(bytesPerRow, height, Invert(data)));
    s.(observed := if bytesPerRow > s.observed then bytesPerRow else s.observed, ops := s.ops + [Raster(img)])
  }

  function GsEffect(s: Interp, cmd: byte, arg: byte): Interp {
    if cmd == 0x56 then Finalize(s)
    else if cmd == 0x21 then
      var t := FlushLine(s, false);
      t.(style := t.style.(doubleWidth := arg / 16 != 0, doubleHeight := arg % 16 != 0))
    else s
  }

  function ByteEffect(s: Interp, b: byte): Interp {
    if b == LF then
      if s.text == [] && s.ops != [] && s.ops[|s.ops| - 1].Raster? then s else FlushLine(s, true)
    else if b == 0x0D || b == 0x00 then s
    else if b == 0x09 then s.(text := s.text + [32, 32, 32, 32])
    else s.(text := s.text + [b])
  }

  function Arg(cmd: seq<byte>): byte {
    if |cmd| > 2 then cmd[2] else 0
  }

  /** The bytes of one command; a lone DLE is known for one only by the byte after it. */
  ghost predicate Whole(cmd: seq<byte>) {
    cmd != [] && (CommandLength(cmd) == |cmd| || cmd == [DLE])
  }

  /** The effect of one complete command on everything but the buffer. */
  function Effect(s: Interp, cmd: seq<byte>): Interp
    requires Whole(cmd)
  {
    if cmd[0] == ESC then EscEffect(s, cmd[1], Arg(cmd))
    else if cmd[0] == GS then
      if cmd[1] == 0x76 then RasterEffect(s, Word(cmd[4], cmd[5]), Word(cmd[6], cmd[7]), cmd[8..])
      else GsEffect(s, cmd[1], Arg(cmd))
    else if cmd[0] == DLE then s
    else ByteEffect(s, cmd[0])
  }

  function Reply(cmd: seq<byte>): seq<byte> {
    if |cmd| == 3 && cmd[0] == DLE && cmd[1] == 0x04 then STATUS_OK else []
  }

  lemma LengthOfPrefix(b: seq<byte>, more: seq<byte>)
    requires b != [] && CommandLength(b) > 0
    ensures CommandLength(b + more) == CommandLength(b)
  {
  }

  lemma CommandIsWhole(b: seq<byte>)
    requires b != [] && CommandLength(b) > 0
    ensures Whole(b[..CommandLength(b)])
  {
    if b[0] == GS && b[1] == 0x76 {
      RasterIsWhole(b);
    } else {
      var n := CommandLength(b);
      var p := b[..n];
      assert p[0] == b[0] && (n > 1 ==> p[1] == b[1]) && (n > 2 ==> p[2] == b[2]);
    }
  }

  lemma RasterIsWhole(b: seq<byte>)
    requires RasterLength(b) > 0
    ensures var n := RasterLength(b); 8 <= n <= |b| && RasterLength(b[..n]) == n
  {
    var size := Area(Word(b[4], b[5]), Word(b[6], b[7]));
    var p := b[..8 + size];
    assert p[4] == b[4] && p[5] == b[5] && p[6] == b[6] && p[7] == b[7];
  }

  lemma EscIgnoresBuffer(s: Interp, buf: seq<byte>, cmd: byte, arg: byte)
    ensures EscEffect(s.(buf := buf), cmd, arg) == EscEffect(s, cmd, arg).(buf := buf)
  {
  }

  lemma GsIgnoresBuffer(s: Interp, buf: seq<byte>, cmd: byte, arg: byte)
    ensures GsEffect(s.(buf := buf), cmd, arg) == GsEffect(s, cmd, arg).(buf := buf)
  {
  }

  lemma EffectIgnoresBuffer(s: Interp, buf: seq<byte>, cmd: seq<byte>)
    requires Whole(cmd)
    ensures Effect(s.(buf := buf), cmd) == Effect(s, cmd).(buf := buf)
  {
    if cmd[0] == ESC {
      EscIgnoresBuffer(s, buf, cmd[1], Arg(cmd));
    } else if cmd[0] == GS && cmd[1] != 0x76 {
      GsIgnoresBuffer(s, buf, cmd[1], Arg(cmd));
    }
  }

  lemma StepOf(s: Interp, after: Interp, buf: seq<byte>, n: nat, reply: seq<byte>)
    requires buf != [] && n == CommandLength(buf) > 0 && Whole(buf[..n])
    requires after == Effect(s, buf[..n]) && reply == Reply(buf[..n])
    ensures Step(s.(buf := buf)) == Advance(after.(buf := buf[n..]), reply)
  {
    EffectIgnoresBuffer(s, buf, buf[..n]);
  }

  datatype Progress = Wait | Advance(next: Interp, reply: seq<byte>)

  function Step(s: Interp): Progress {
    if s.buf == [] then Wait
    else
      var n := CommandLength(s.buf);
      if n == 0 then Wait
      else
        var cmd := s.buf[..n];
        CommandIsWhole(s.buf);
        Advance(Effect(s, cmd).(buf := s.buf[n..]), Reply(cmd))
  }

  function Drain(s: Interp): (Interp, seq<byte>)
    decreases |s.buf|
  {
    match Step(s)
    case Wait => (s, [])
    case Advance(next, reply) => var (last, more) := Drain(next); (last, reply + more)
  }

  lemma DrainUnfolds(s: Interp, next: Interp, reply: seq<byte>)
    requires Step(s) == Advance(next, reply)
    ensures Drain(s) == (Drain(next).0, reply + Drain(next).1)
  {
  }

  datatype Fed = Fed(state: Interp, reply: seq<byte>)

  function FeedBytes(s: Interp, data: seq<byte>): Fed {
    var (last, reply) := Drain(s.(buf := s.buf + data));
    Fed(last, reply)
  }

  function FeedAll(s: Interp, chunks: seq<seq<byte>>): Fed
    decreases |chunks|
  {
    if chunks == [] then Fed(s, [])
    else
      var first := FeedBytes(s, chunks[0]);
      var rest := FeedAll(first.state, chunks[1..]);
      Fed(rest.state, first.reply + rest.reply)
  }

  class EscPosInterpreter {
    const defaultWidth: nat
    var buf: seq<byte>
    var ops: seq<Op>
    var text: seq<byte>
    var style: Style
    var observed: nat
    var codec: Codec
    var receipts: seq<Receipt>

    /** The interpreter with the bytes it still has to look at. */
    ghost function View(rest: seq<byte>): Interp
      reads this
    {
      Interp(rest, ops, text, style, observed, codec, defaultWidth, receipts)
    }

    constructor (defaultWidth: nat)
      ensures this.defaultWidth == defaultWidth && buf == [] && View(buf) == Fresh(defaultWidth)
    {
      this.defaultWidth := defaultWidth;
      buf, ops, text, style, observed, codec, receipts := [], [], [], PLAIN, 0, Cp866, [];
    }

    method Feed(data: seq<byte>) returns (responses: seq<byte>)
      modifies this
      ensures Fed(View(buf), responses) == FeedBytes(old(View(buf)), data)
    {
      buf := buf + data;
      responses := [];
      ghost var at := View(buf);
      ghost var whole := Drain(at);
      assert [] + whole.1 == whole.1;
      var i: nat := 0;
      var waiting := false;
      while i < |buf| && !waiting
        invariant i <= |buf| && at == View(buf[i..])
        invariant whole == (Drain(at).0, responses + Drain(at).1)
        invariant waiting ==> Step(at) == Wait
        decreases !waiting, |buf| - i
      {
        var consumed, reply := Dispatch(i);
        if consumed == 0 {
          waiting := true;
        } else {
          ghost var after := View(buf[i + consumed..]);
          DrainUnfolds(at, after, reply);
          Associative(responses, reply, Drain(after).1);
          at := after;
          responses := responses + reply;
          i := i + consumed;
        }
      }
      assert Step(at) == Wait && Drain(at) == (at, []);
      buf := buf[i..];
    }

    /** One command at index `i`; 0 consumed when it has not fully arrived. */
    method Dispatch(i: nat) returns (consumed: nat, reply: seq<byte>)
      requires i < |buf|
      modifies this
      ensures buf == old(buf) && consumed <= |buf| - i
      ensures consumed == 0 ==> reply == [] && View([]) == old(View([])) && Step(View(buf[i..])) == Wait
      ensures consumed > 0 ==> Step(old(View(buf[i..]))) == Advance(View(buf[i + consumed..]), reply)
    {
      ghost var rest, before := buf[i..], View([]);
      var b := buf[i];
      reply := [];
      if b == ESC {
        consumed := HandleEsc(i);
      } else if b == GS {
        consumed := HandleGs(i);
      } else if b == DLE {
        consumed, reply := HandleDle(i);
      } else {
        consumed := 1;
        HandleByte(b);
      }
      if consumed > 0 {
        CommandIsWhole(rest);
        assert buf[i..i + consumed] == rest[..consumed] && buf[i + consumed..] == rest[consumed..];
        StepOf(before, View([]), rest, consumed, reply);
      }
    }

    method HandleByte(b: byte)
      modifies this
      ensures buf == old(buf) && View([]) == ByteEffect(old(View([])), b)
    {
      if b == LF {
        if !(text == [] && ops != [] && ops[|ops| - 1].Raster?) {
          FlushTextLine(true);
        }
      } else if b == 0x09 {
        text := text + [32, 32, 32, 32];
      } else if b != 0x0D && b != 0x00 {
        text := text + [b];
      }
    }

    method HandleEsc(i: nat) returns (consumed: nat)
      requires i < |buf| && buf[i] == ESC
      modifies this
      ensures buf == old(buf) && consumed == CommandLength(buf[i..])
      ensures consumed == 0 ==> View([]) == old(View([]))
      ensures consumed > 0 ==> View([]) == EscEffect(old(View([])), buf[i + 1], Arg(buf[i..i + consumed]))
    {
      if i + 1 >= |buf| { return 0; }
      var cmd := buf[i + 1];
      consumed := EscLength(cmd);
      if i + consumed > |buf| { return 0; }
      var arg := if consumed > 2 then buf[i + 2] else 0;
      assert arg == Arg(buf[i..i + consumed]);
      if cmd == 0x40 {
        style := PLAIN;
      } else if cmd == 0x61 {
        FlushTextLine(false);
        style := style.(align := if arg == 1 then Center else if arg == 2 then Right else Left);
      } else if cmd == 0x45 {
        FlushTextLine(false);
        style := style.(bold := arg != 0);
      } else if cmd == 0x21 {
        FlushTextLine(false);
        style := style.(bold := Bit(arg, 8), doubleHeight := Bit(arg, 16), doubleWidth := Bit(arg, 32));
      } else if cmd == 0x74 {
        codec := Table(arg, codec);
      } else if cmd == 0x64 {
        FlushTextLine(false);
        ops := ops + [Gap(FeedDots(arg))];
      } else if cmd == 0x4A {
        ops := ops + [Gap(arg)];
      }
    }

    method HandleGs(i: nat) returns (consumed: nat)
      requires i < |buf| && buf[i] == GS
      modifies this
      ensures buf == old(buf) && consumed == CommandLength(buf[i..])
      ensures consumed == 0 ==> View([]) == old(View([]))
      ensures consumed > 0 ==> Whole(buf[i..i + consumed])
      ensures consumed > 0 ==> View([]) == Effect(old(View([])), buf[i..i + consumed])
    {
      if i + 1 >= |buf| { return 0; }
      var cmd := buf[i + 1];
      ghost var rest := buf[i..];
      if cmd == 0x76 {
        consumed := HandleRaster(i);
        return;
      }
      if cmd == 0x56 {
        if i + 2 >= |buf| { return 0; }
        consumed := if buf[i + 2] == 65 || buf[i + 2] == 66 then 4 else 3;
      } else {
        consumed := GsLength(cmd);
      }
      if i + consumed > |buf| { return 0; }
      var arg := if consumed > 2 then buf[i + 2] else 0;
      CommandIsWhole(rest);
      assert buf[i..i + consumed] == rest[..consumed];
      if cmd == 0x56 {
        FinalizeReceipt();
      } else if cmd == 0x21 {
        FlushTextLine(false);
        style := style.(doubleWidth := arg / 16 != 0, doubleHeight := arg % 16 != 0);
      }
    }

    method HandleRaster(i: nat) returns (consumed: nat)
      requires i + 1 < |buf| && buf[i] == GS && buf[i + 1] == 0x76
      modifies this
      ensures buf == old(buf) && consumed == CommandLength(buf[i..])
      ensures consumed == 0 ==> View([]) == old(View([]))
      ensures consumed > 0 ==> Whole(buf[i..i + consumed])
      ensures consumed > 0 ==> View([]) == Effect(old(View([])), buf[i..i + consumed])
    {
      if i + 8 > |buf| { return 0; }
      var bytesPerRow := Word(buf[i + 4], buf[i + 5]);
      var height := Word(buf[i + 6], buf[i + 7]);
      AreaIsProduct(bytesPerRow, height);
      var dataLen := bytesPerRow * height;
      var end := i + 8 + dataLen;
      ghost var rest, before := buf[i..], View([]);
      assert RasterLength(rest) == Enough(rest, 8 + dataLen);
      if end > |buf| { return 0; }
      var data := buf[i + 8..end];
      ghost var cmd := buf[i..end];
      assert cmd == rest[..8 + dataLen] && cmd[8..] == data;
      RasterIsWhole(rest);
      AppendRaster(bytesPerRow, height, data);
      assert View([]) == RasterEffect(before, Word(cmd[4], cmd[5]), Word(cmd[6], cmd[7]), cmd[8..]);
      return 8 + dataLen;
    }

    method AppendRaster(bytesPerRow: nat, height: nat, data: seq<byte>)
      requires |data| == Area(bytesPerRow, height)
      modifies this
      ensures buf == old(buf) && View([]) == RasterEffect(old(View([])), bytesPerRow, height, data)
    {
      var img := Image(bytesPerRow, RowsOf(bytesPerRow, height, Invert(data)));
      observed := if bytesPerRow > observed then bytesPerRow else observed;
      ops := ops + [Raster(img)];
    }

    method HandleDle(i: nat) returns (consumed: nat, reply: seq<byte>)
      requires i < |buf| && buf[i] == DLE
      ensures consumed == CommandLength(buf[i..])
      ensures reply == if consumed == 0 then [] else Reply(buf[i..i + consumed])
    {
      reply := [];
      if i + 1 >= |buf| { return 0, []; }
      var cmd := buf[i + 1];
      if cmd == 0x04 {
        if i + 2 >= |buf| { return 0, []; }
        return 3, STATUS_OK;
      }
      if cmd == 0x14 {
        if i + 4 >= |buf| { return 0, []; }
        return 5, [];
      }
      return 1, [];
    }

    method FlushTextLine(blank: bool)
      modifies this
      ensures buf == old(buf) && View([]) == FlushLine(old(View([])), blank)
    {
      if text == [] && !blank { return; }
      ops := ops + [Text(text, codec, style)];
      text := [];
    }

    method FinalizeReceipt()
      modifies this
      ensures buf == old(buf) && View([]) == Finalize(old(View([])))
    {
      FlushTextLine(false);
      var kept := ops;
      while kept != [] && kept[|kept| - 1].Text? && kept[|kept| - 1].chars == []
        invariant TrimBlank(kept) == TrimBlank(ops)
        decreases |kept|
      {
        kept := kept[..|kept| - 1];
      }
      ops := [];
      if kept == [] { return; }
      var width := if observed > 0 then observed else defaultWidth;
      observed := 0;
      receipts := receipts + [Receipt(kept, width)];
    }

    /** The connection ended: what was printed and never cut is still a receipt. */
    method Close()
      modifies this
      ensures buf == old(buf) && View([]) == Finalize(old(View([])))
    {
      FinalizeReceipt();
    }
  }
}
