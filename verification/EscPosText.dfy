/** Styled text on the wire: every line of a text receipt comes out with its own characters and
    the style that was set for it. */
module EscPosText {
  import opened Images
  import opened Options
  import opened BitmapRender
  import opened EscPosPrinter
  import opened EscPosStream
  import opened EscPosQueries

  /** A line and its style; `modes` tells which of the two ways the style is sent. */
  datatype Line = Line(chars: seq<byte>, bold: bool, high: bool, wide: bool, align: Align, modes: bool)

  /** Any byte that is no command, no line end and no filler. */
  predicate Printable(b: byte) {
    b != 0x1B && b != 0x1D && b != 0x10 && b != 0x0A && b != 0x0D && b != 0x09 && b != 0x00
  }

  function AlignCode(align: Align): byte {
    match align
    case Left => 0
    case Center => 1
    case Right => 2
  }

  /** `ESC ! n`: 8 for bold, 16 for double height, 32 for double width. */
  function Modes(l: Line): byte {
    (if l.bold then 8 else 0) + (if l.high then 16 else 0) + (if l.wide then 32 else 0)
  }

  /** `GS ! n`: the width in the high half, the height in the low half. */
  function Size(l: Line): byte {
    (if l.wide then 0x10 else 0) + if l.high then 0x01 else 0
  }

  function StyleBytes(l: Line): seq<byte> {
    if l.modes then [0x1B, 0x21, Modes(l)] else [0x1B, 0x45, if l.bold then 1 else 0] + [0x1D, 0x21, Size(l)]
  }

  function LineBytes(l: Line): seq<byte> {
    [0x1B, 0x61, AlignCode(l.align)] + (StyleBytes(l) + (l.chars + [0x0A]))
  }

  function LinesBytes(lines: seq<Line>): seq<byte> {
    if lines == [] then [] else LineBytes(lines[0]) + LinesBytes(lines[1..])
  }

  ghost predicate LineOk(l: Line) {
    forall i :: 0 <= i < |l.chars| ==> Printable(l.chars[i])
  }

  function StyleOf(l: Line): Style {
    Style(l.bold, l.align, l.high, l.wide)
  }

  function TextOf(lines: seq<Line>, codec: Codec): seq<Op> {
    seq(|lines|, i requires 0 <= i < |lines| => Text(lines[i].chars, codec, StyleOf(lines[i])))
  }

  /** Between two lines: nothing pending, no picture last. */
  predicate BetweenLines(s: Interp) {
    s.text == [] && (s.ops == [] || !s.ops[|s.ops| - 1].Raster?)
  }

  lemma ThreeBytes(s: Interp, a: byte, b: byte, c: byte, rest: seq<byte>)
    requires OneCommand([a, b, c]) && s.buf == [a, b, c] + rest
    ensures Whole([a, b, c]) && Drain(s) == Drain(Effect(s, [a, b, c]).(buf := rest))
  {
    CommandTurn(s, [a, b, c], rest);
  }

  lemma AlignTurn(s: Interp, align: Align, rest: seq<byte>)
    requires s.text == [] && s.buf == [0x1B, 0x61, AlignCode(align)] + rest
    ensures Drain(s) == Drain(s.(buf := rest, style := s.style.(align := align)))
  {
    ThreeBytes(s, 0x1B, 0x61, AlignCode(align), rest);
  }

  lemma ModeBits(l: Line)
    ensures Bit(Modes(l), 8) == l.bold && Bit(Modes(l), 16) == l.high && Bit(Modes(l), 32) == l.wide
  {
  }

  lemma ModesTurn(s: Interp, l: Line, rest: seq<byte>)
    requires s.text == [] && s.buf == [0x1B, 0x21, Modes(l)] + rest
    ensures Drain(s) == Drain(s.(buf := rest, style := Style(l.bold, s.style.align, l.high, l.wide)))
  {
    ModeBits(l);
    ThreeBytes(s, 0x1B, 0x21, Modes(l), rest);
  }

  lemma BoldTurn(s: Interp, bold: bool, rest: seq<byte>)
    requires s.text == [] && s.buf == [0x1B, 0x45, if bold then 1 else 0] + rest
    ensures Drain(s) == Drain(s.(buf := rest, style := s.style.(bold := bold)))
  {
    ThreeBytes(s, 0x1B, 0x45, if bold then 1 else 0, rest);
  }

  lemma SizeTurn(s: Interp, l: Line, rest: seq<byte>)
    requires s.text == [] && s.buf == [0x1D, 0x21, Size(l)] + rest
    ensures Drain(s) == Drain(s.(buf := rest, style := s.style.(doubleHeight := l.high, doubleWidth := l.wide)))
  {
    ThreeBytes(s, 0x1D, 0x21, Size(l), rest);
  }

  lemma StyleTurns(s: Interp, l: Line, rest: seq<byte>)
    requires s.text == [] && s.buf == StyleBytes(l) + rest
    ensures Drain(s) == Drain(s.(buf := rest, style := Style(l.bold, s.style.align, l.high, l.wide)))
  {
    if l.modes {
      ModesTurn(s, l, rest);
    } else {
      var sized := [0x1D, 0x21, Size(l)] + rest;
      assert s.buf == [0x1B, 0x45, if l.bold then 1 else 0] + sized;
      BoldTurn(s, l.bold, sized);
      SizeTurn(s.(buf := sized, style := s.style.(bold := l.bold)), l, rest);
    }
  }

  lemma {:induction false} CharsTurn(s: Interp, chars: seq<byte>, rest: seq<byte>)
    requires s.buf == chars + rest && forall i :: 0 <= i < |chars| ==> Printable(chars[i])
    ensures Drain(s) == Drain(s.(buf := rest, text := s.text + chars))
    decreases |chars|
  {
    if chars == [] {
      assert s.buf == rest && s.text + [] == s.text;
    } else {
      var more := chars[1..] + rest;
      assert s.buf == [chars[0]] + more;
      CommandTurn(s, [chars[0]], more);
      CharsTurn(s.(buf := more, text := s.text + [chars[0]]), chars[1..], rest);
      assert s.text + [chars[0]] + chars[1..] == s.text + chars;
    }
  }

  lemma LineEndTurn(s: Interp, rest: seq<byte>)
    requires s.buf == [0x0A] + rest && (s.text != [] || BetweenLines(s))
    ensures Drain(s) == Drain(s.(buf := rest, text := [], ops := s.ops + [Text(s.text, s.codec, s.style)]))
  {
    CommandTurn(s, [0x0A], rest);
  }

  lemma LineTurns(s: Interp, l: Line, rest: seq<byte>)
    requires BetweenLines(s) && LineOk(l) && s.buf == LineBytes(l) + rest
    ensures Drain(s) == Drain(s.(buf := rest, style := StyleOf(l), ops := s.ops + [Text(l.chars, s.codec, StyleOf(l))]))
  {
    var ended := [0x0A] + rest;
    var chars := l.chars + ended;
    var styled := StyleBytes(l) + chars;
    assert s.buf == [0x1B, 0x61, AlignCode(l.align)] + styled;
    AlignTurn(s, l.align, styled);
    var aligned := s.(buf := styled, style := s.style.(align := l.align));
    StyleTurns(aligned, l, chars);
    var ready := s.(buf := chars, style := StyleOf(l));
    CharsTurn(ready, l.chars, ended);
    assert [] + l.chars == l.chars;
    LineEndTurn(ready.(buf := ended, text := l.chars), rest);
  }

  /** The style that is left set after these lines. */
  function StyleLeft(style: Style, lines: seq<Line>): Style
    decreases |lines|
  {
    if lines == [] then style else StyleLeft(StyleOf(lines[0]), lines[1..])
  }

  lemma TextOfFirst(ops: seq<Op>, lines: seq<Line>, codec: Codec)
    requires lines != []
    ensures ops + TextOf(lines, codec)
         == ops + [Text(lines[0].chars, codec, StyleOf(lines[0]))] + TextOf(lines[1..], codec)
  {
    assert TextOf(lines, codec) == [Text(lines[0].chars, codec, StyleOf(lines[0]))] + TextOf(lines[1..], codec);
  }

  lemma {:induction false} LinesTurn(s: Interp, lines: seq<Line>, rest: seq<byte>)
    requires BetweenLines(s) && (forall i :: 0 <= i < |lines| ==> LineOk(lines[i])) && s.buf == LinesBytes(lines) + rest
    ensures Drain(s) == Drain(s.(buf := rest, style := StyleLeft(s.style, lines), ops := s.ops + TextOf(lines, s.codec)))
    decreases |lines|
  {
    if lines == [] {
      assert s.buf == rest && s.ops + [] == s.ops;
    } else {
      var l, more := lines[0], LinesBytes(lines[1..]) + rest;
      assert s.buf == LineBytes(l) + more;
      LineTurns(s, l, more);
      TextOfFirst(s.ops, lines, s.codec);
      LinesTurn(s.(buf := more, style := StyleOf(l), ops := s.ops + [Text(l.chars, s.codec, StyleOf(l))]), lines[1..], rest);
    }
  }

  lemma TextCutTurn(s: Interp, cut: Cut)
    requires s.text == [] && s.buf == CutCommand(cut) && s.observed == 0
    requires s.ops != [] && s.ops[|s.ops| - 1].Text? && s.ops[|s.ops| - 1].chars != []
    ensures Drain(s) == (s.(buf := [], ops := [], receipts := s.receipts + [Receipt(s.ops, s.defaultWidth)]), [])
  {
    var piece := CutCommand(cut);
    assert s.buf == piece + [];
    CommandTurn(s, piece, []);
  }

  lemma LastText(lines: seq<Line>, codec: Codec)
    requires lines != []
    ensures var ops := TextOf(lines, codec);
            ops != [] && ops[|ops| - 1].Text? && ops[|ops| - 1].chars == lines[|lines| - 1].chars
  {
  }

  lemma {:induction false} TextDrained(s: Interp, lines: seq<Line>, cut: Cut, last: Interp)
    requires BetweenLines(s) && s.observed == 0 && s.ops == [] && s.buf == LinesBytes(lines) + CutCommand(cut)
    requires lines != [] && (forall i :: 0 <= i < |lines| ==> LineOk(lines[i])) && lines[|lines| - 1].chars != []
    requires last == s.(buf := CutCommand(cut), style := StyleLeft(s.style, lines), ops := TextOf(lines, s.codec))
    ensures Drain(s) == (last.(buf := [], ops := [], receipts := s.receipts + [Receipt(last.ops, s.defaultWidth)]), [])
  {
    LinesTurn(s, lines, CutCommand(cut));
    assert s.ops + last.ops == last.ops;
    LastText(lines, s.codec);
    TextCutTurn(last, cut);
  }

  lemma {:induction false} TextReceipt(s: Interp, lines: seq<Line>, cut: Cut)
    requires s == Fresh(s.defaultWidth)
    requires lines != [] && (forall i :: 0 <= i < |lines| ==> LineOk(lines[i])) && lines[|lines| - 1].chars != []
    ensures FeedBytes(s, LinesBytes(lines) + CutCommand(cut)) ==
              Fed(s.(style := StyleLeft(s.style, lines), receipts := [Receipt(TextOf(lines, Cp866), s.defaultWidth)]), [])
  {
    var data := LinesBytes(lines) + CutCommand(cut);
    assert s.buf + data == data;
    TextDrained(s.(buf := data), lines, cut,
      s.(buf := CutCommand(cut), style := StyleLeft(s.style, lines), ops := TextOf(lines, Cp866)));
    assert [] + [Receipt(TextOf(lines, Cp866), s.defaultWidth)] == [Receipt(TextOf(lines, Cp866), s.defaultWidth)];
  }

  /** A text receipt, in whatever chunks: one receipt on the default width, line for line the
      characters that were sent, each in the style that was set for it; nothing is answered. */
  lemma {:induction false} StyledLinesArrive(defaultWidth: nat, lines: seq<Line>, cut: Cut, chunks: seq<seq<byte>>, i: nat)
    requires lines != [] && (forall i :: 0 <= i < |lines| ==> LineOk(lines[i])) && lines[|lines| - 1].chars != []
    requires Concat(chunks) == LinesBytes(lines) + CutCommand(cut)
    ensures var fed := FeedAll(Fresh(defaultWidth), chunks);
            && fed.reply == [] && fed.state.buf == [] && |fed.state.receipts| == 1
            && fed.state.receipts[0].width == defaultWidth && |fed.state.receipts[0].ops| == |lines|
            && (i < |lines| ==>
                  fed.state.receipts[0].ops[i] ==
                    Text(lines[i].chars, Cp866, Style(lines[i].bold, lines[i].align, lines[i].high, lines[i].wide)))
  {
    AnyChunks(Fresh(defaultWidth), chunks);
    TextReceipt(Fresh(defaultWidth), lines, cut);
  }

  /** Blank lines before a cut are dropped, and nothing else is. */
  lemma {:induction false} OnlyTrailingBlanksGo(ops: seq<Op>)
    ensures var kept := TrimBlank(ops);
            && kept <= ops
            && (forall i :: |kept| <= i < |ops| ==> ops[i].Text? && ops[i].chars == [])
            && (kept != [] ==> !(kept[|kept| - 1].Text? && kept[|kept| - 1].chars == []))
  {
    if ops != [] && ops[|ops| - 1].Text? && ops[|ops| - 1].chars == [] {
      OnlyTrailingBlanksGo(ops[..|ops| - 1]);
    }
  }

  /** `ESC t n` chooses the code page of what follows; a table it does not know changes nothing. */
  lemma CodePageChosen(s: Interp, n: byte)
    requires s.buf == []
    ensures var t := FeedBytes(s, [0x1B, 0x74, n]).state;
            && t == s.(codec := t.codec)
            && (n == 0 ==> t.codec == Cp437) && (n == 17 ==> t.codec == Cp866)
            && (n == 33 || n == 46 ==> t.codec == Cp1251) && (n == 44 ==> t.codec == Cp1125)
            && (n == 34 ==> t.codec == Cp855) && (n == 38 ==> t.codec == Iso8859)
            && (n !in {0, 17, 33, 46, 44, 34, 38} ==> t.codec == s.codec)
  {
    var cmd: seq<byte> := [0x1B, 0x74, n];
    assert s.buf + cmd == cmd && cmd == cmd + [];
    ThreeBytes(s.(buf := cmd), 0x1B, 0x74, n, []);
  }
}
