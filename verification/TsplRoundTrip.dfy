/** From the collected lines of a receipt to the labels the emulator shows, over the wire. */
module TsplRoundTrip {
  import opened Images
  import opened Options
  import opened Numerals
  import opened TsplRender
  import opened TsplPrinter
  import opened TsplPages
  import opened TsplStream

  // ----- one command line -----------------------------------------------

  ghost predicate NoLineEnd(line: seq<byte>) {
    forall i :: 0 <= i < |line| ==> line[i] != LF
  }

  lemma PlainLine(s: Interp, line: seq<byte>, rest: seq<byte>)
    requires !s.dead && s.mode.Commands? && s.buf == line + [LF] + rest
    requires line != [] && NoLineEnd(line) && 67 <= line[0] <= 90
    ensures Step(s) == Advance(HandleLine(s.(buf := rest), line), [])
  {
    var at := |line|;
    assert s.buf[0] == line[0] && s.buf[at] == LF;
    assert forall i :: 0 <= i < at ==> s.buf[i] == line[i];
    FindFirst(s.buf, LF, 0, at);
    assert s.buf[..at] == line && s.buf[at + 1..] == rest;
    assert Upper(s.buf[0]) != BITMAP[0];
  }

  /** A line that begins with a plain letter other than B is handed over whole. */
  lemma LineTurn(s: Interp, line: seq<byte>, rest: seq<byte>)
    requires !s.dead && s.mode.Commands? && s.buf == line + CRLF + rest
    requires line != [] && NoLineEnd(line) && 67 <= line[0] <= 90
    ensures Step(s) == Advance(HandleLine(s.(buf := rest), line + [13]), [])
  {
    assert line + CRLF == line + [13] + [LF];
    PlainLine(s, line + [13], rest);
  }

  lemma StripCarriage(line: seq<byte>)
    requires line != [] && !IsSpace(line[0]) && !IsSpace(line[|line| - 1])
    ensures Strip(line + [13]) == line
  {
    var s := line + [13];
    assert StripLeft(s) == s;
    assert s[..|s| - 1] == line;
    assert StripRight(line) == line;
  }

  ghost predicate Ignored(line: seq<byte>) {
    line != [] && NoLineEnd(line) && 67 <= line[0] <= 79
  }

  /** Lines of a job between the size and the picture are read and forgotten. */
  lemma IgnoredTurn(s: Interp, line: seq<byte>, rest: seq<byte>)
    requires !s.dead && s.mode.Commands? && s.buf == line + CRLF + rest
    requires Ignored(line)
    ensures Drain(s) == Drain(s.(buf := rest))
  {
    LineTurn(s, line, rest);
    var text := Strip(line + [13]);
    StripKeepsHead(line + [13]);
    assert !StartsWith(text, SIZE) && !StartsWith(text, PRINT);
    assert [] + Drain(s.(buf := rest)).1 == Drain(s.(buf := rest)).1;
  }

  lemma {:induction false} StripRightKeepsHead(s: seq<byte>)
    requires s != [] && !IsSpace(s[0])
    ensures StripRight(s) != [] && StripRight(s)[0] == s[0]
    decreases |s|
  {
    if IsSpace(s[|s| - 1]) {
      StripRightKeepsHead(s[..|s| - 1]);
    }
  }

  lemma StripKeepsHead(s: seq<byte>)
    requires s != [] && !IsSpace(s[0])
    ensures Strip(s) != [] && Strip(s)[0] == s[0]
  {
    StripRightKeepsHead(s);
  }

  lemma WordStarts(s: seq<byte>, word: seq<byte>)
    requires word <= s && forall i :: 0 <= i < |word| ==> 65 <= word[i] <= 90
    ensures StartsWith(s, word)
  {
    assert forall i :: 0 <= i < |word| ==> s[i] == word[i];
  }

  lemma SizeTurn(s: Interp, w: nat, h: nat, rest: seq<byte>)
    requires !s.dead && s.mode.Commands? && s.buf == SizeLine(w, h) + CRLF + rest
    requires IsFinite(w) && IsFinite(h)
    ensures Drain(s) == Drain(s.(buf := rest, size := SizeLine(w, h)))
  {
    var line := SizeLine(w, h);
    SizeShape(w, h);
    LineTurn(s, line, rest);
    StripCarriage(line);
    SizeIsCalm(w, h);
    var next := s.(buf := rest, size := line);
    assert [] + Drain(next).1 == Drain(next).1;
  }

  lemma SizeShape(w: nat, h: nat)
    ensures var line := SizeLine(w, h);
            && line != [] && NoLineEnd(line) && line[0] == 83 && !IsSpace(line[|line| - 1])
            && StartsWith(line, SIZE)
  {
    var line := SizeLine(w, h);
    assert line[|line| - 1] == MM[2] && line[0] == SIZE[0];
    assert line == SIZE + line[4..];
    WordStarts(line, SIZE);
  }

  /** A printed number with blanks around it, as the size line has it once its millimetres are
      blanked out. */
  function Spaced(n: nat): seq<byte> {
    [32] + Decimal(n) + [32, 32]
  }

  lemma SpacedIsRead(n: nat)
    requires IsFinite(n)
    ensures ReadFloat(Strip(Spaced(n))) == Finite
  {
    var d := Decimal(n);
    var s := d + [32, 32];
    assert Spaced(n)[1..] == s && IsDigit(s[0]);
    assert StripLeft(Spaced(n)) == StripLeft(s) == s;
    assert s[..|s| - 1] == d + [32] && (d + [32])[..|d|] == d;
    assert StripRight(s) == StripRight(d + [32]) == StripRight(d) == d;
    FloatOfDecimal(n);
  }

  lemma BlankedPair(rest: seq<byte>, letter: byte)
    ensures Blanked([letter, letter] + rest, letter) == [32] + Blanked(rest, letter)
  {
    assert ([letter, letter] + rest)[2..] == rest;
  }

  lemma MillimetresBlanked(front: seq<byte>, back: seq<byte>)
    requires forall i :: 0 <= i < |front| ==> front[i] != 109
    ensures Blanked(front + ([109, 109] + back), 109) == front + ([32] + Blanked(back, 109))
  {
    BlankedKeeps(front, [109, 109] + back, 109);
    BlankedPair(back, 109);
  }

  lemma SizeBodyOf(w: nat, h: nat)
    ensures SizeBody(SizeLine(w, h)) == Spaced(w) + [COMMA] + Spaced(h)
  {
    var a, b := [32] + Decimal(w) + [32], [44, 32] + Decimal(h) + [32];
    var second := b + ([109, 109] + []);
    assert SizeLine(w, h)[4..] == a + ([109, 109] + second);
    MillimetresBlanked(a, second);
    MillimetresBlanked(b, []);
    var body := Spaced(w) + [COMMA] + Spaced(h);
    assert a + ([32] + (b + ([32] + []))) == body;
    BlankedKeeps(body, [], 77);
    assert body + [] == body;
  }

  lemma PairIsCalm(w: nat, h: nat, body: seq<byte>)
    requires body == Spaced(w) + [COMMA] + Spaced(h) && IsFinite(w) && IsFinite(h)
    ensures !PairOverflows(body)
  {
    var comma := |Spaced(w)|;
    FindFirst(body, COMMA, 0, comma);
    assert body[..comma] == Spaced(w) && body[comma + 1..] == Spaced(h);
    SpacedIsRead(w);
    SpacedIsRead(h);
  }

  lemma SizeIsCalm(w: nat, h: nat)
    requires IsFinite(w) && IsFinite(h)
    ensures !SizeOverflows(SizeLine(w, h))
  {
    SizeBodyOf(w, h);
    PairIsCalm(w, h, SizeBody(SizeLine(w, h)));
  }

  lemma PrintTurn(s: Interp, copies: nat, rest: seq<byte>)
    requires !s.dead && s.mode.Commands? && s.buf == PrintLine(copies) + CRLF + rest && Short(copies)
    requires s.current.Some? && s.current.value.bytesPerRow > 0 && |s.current.value.rows| > 0
    ensures Drain(s) == Drain(s.(buf := rest, current := None, labels := s.labels + [s.current.value]))
  {
    var line := PrintLine(copies);
    PrintShape(copies);
    LineTurn(s, line, rest);
    StripCarriage(line);
    PrintIsCalm(copies);
    var next := s.(buf := rest, current := None, labels := s.labels + [s.current.value]);
    assert [] + Drain(next).1 == Drain(next).1;
  }

  lemma PrintShape(copies: nat)
    ensures var line := PrintLine(copies);
            && line != [] && NoLineEnd(line) && line[0] == 80 && !IsSpace(line[|line| - 1])
            && StartsWith(line, PRINT) && !StartsWith(line, SIZE)
  {
    var line, digits := PrintLine(copies), Decimal(copies);
    assert line == PRINT + [32] + digits;
    assert line[|line| - 1] == digits[|digits| - 1] && line[0] == PRINT[0];
    WordStarts(line, PRINT);
    assert Upper(line[0]) != SIZE[0];
  }

  lemma PrintIsCalm(copies: nat)
    requires Short(copies)
    ensures !CountOverflows(PrintLine(copies))
  {
    var d := Decimal(copies);
    var text := PrintLine(copies)[5..];
    assert text == [32] + d && text[1..] == d;
    assert IsDigit(d[0]) && IsDigit(d[|d| - 1]);
    assert Strip(d) == d && Strip(text) == d;
    NotFound(d, COMMA, 0);
    assert d[..|d|] == d;
  }

  lemma CrlfTurns(s: Interp, rest: seq<byte>)
    requires !s.dead && s.mode.Commands? && s.buf == CRLF + rest
    ensures Drain(s) == Drain(s.(buf := rest))
  {
    var mid := s.(buf := [LF] + rest);
    var last := s.(buf := rest);
    assert s.buf[1..] == [LF] + rest && mid.buf[1..] == rest;
    assert Step(s) == Advance(mid, []) && Step(mid) == Advance(last, []);
    assert [] + Drain(last).1 == Drain(last).1;
    assert [] + Drain(mid).1 == Drain(mid).1;
  }

  // ----- the picture ----------------------------------------------------

  lemma {:induction false} CommaAt(s: seq<byte>, from: nat, at: nat, limit: nat)
    requires from <= at < |s| && s[at] == COMMA && limit > 0
    requires forall i :: from <= i < at ==> s[i] != COMMA
    ensures Commas(s, from, limit) == [at] + Commas(s, at + 1, limit - 1)
    decreases at - from
  {
    if from < at {
      CommaAt(s, from + 1, at, limit);
    }
  }

  lemma HeaderReads(bpr: nat, h: nat, rest: seq<byte>)
    requires Short(bpr) && Short(h)
    ensures var s := BitmapHeader(bpr, h) + [COMMA] + rest;
            ReadHeader(s) == Numbers(|BitmapHeader(bpr, h)| + 1, bpr, h)
  {
    var s := BitmapHeader(bpr, h) + [COMMA] + rest;
    var p2 := 11 + |Decimal(bpr)|;
    var p3 := p2 + 1 + |Decimal(h)|;
    HeaderBytes(bpr, h, rest);
    HeaderParsed(s, p2, p3, bpr, h);
  }

  lemma HeaderParsed(s: seq<byte>, p2: nat, p3: nat, bpr: nat, h: nat)
    requires Short(bpr) && Short(h)
    requires HeaderShape(s, p2, p3) && s[11..p2] == Decimal(bpr) && s[p2 + 1..p3] == Decimal(h)
    ensures ReadHeader(s) == Numbers(p3 + 3, bpr, h)
  {
    IntOfDecimal(bpr);
    IntOfDecimal(h);
    var at := FiveCommas(s, p2, p3);
    HeaderFrom(s, at, bpr, h);
  }

  lemma HeaderFrom(s: seq<byte>, at: seq<nat>, bpr: nat, h: nat)
    requires |at| == 5 && Commas(s, 0, 5) == at
    requires IntValue(s[at[1] + 1..at[2]]) == Some(bpr) && IntValue(s[at[2] + 1..at[3]]) == Some(h)
    ensures ReadHeader(s) == Numbers(at[4] + 1, bpr, h)
  {
    assert HeaderAt(s, at) == Numbers(at[4] + 1, bpr, h);
  }

  /** Where the commas of a header stand, the second number ending at `p2`, the third at `p3`. */
  ghost predicate HeaderShape(s: seq<byte>, p2: nat, p3: nat) {
    && 11 <= p2 < p3 && p3 + 2 < |s|
    && s[8] == COMMA && s[10] == COMMA && s[p2] == COMMA && s[p3] == COMMA && s[p3 + 2] == COMMA
    && s[9] != COMMA && s[p3 + 1] != COMMA
    && Commaless(s, 0, 8) && Commaless(s, 11, p2) && Commaless(s, p2 + 1, p3)
  }

  lemma FiveCommas(s: seq<byte>, p2: nat, p3: nat) returns (at: seq<nat>)
    requires HeaderShape(s, p2, p3)
    ensures |at| == 5 && at == Commas(s, 0, 5)
    ensures at[1] == 10 && at[2] == p2 && at[3] == p3 && at[4] == p3 + 2
  {
    var last3 := ThreeCommas(s, p2, p3);
    CommaAt(s, 9, 10, 4);
    CommaAt(s, 0, 8, 5);
    at := [8] + ([10] + last3);
  }

  lemma ThreeCommas(s: seq<byte>, p2: nat, p3: nat) returns (at: seq<nat>)
    requires HeaderShape(s, p2, p3)
    ensures at == [p2, p3, p3 + 2] == Commas(s, 11, 3)
  {
    CommaAt(s, p3 + 1, p3 + 2, 1);
    CommaAt(s, p2 + 1, p3, 2);
    CommaAt(s, 11, p2, 3);
    at := [p2] + ([p3] + [p3 + 2]);
  }

  const HEADER_FRONT: seq<byte> := [66, 73, 84, 77, 65, 80, 32, 48, 44, 48, 44]
  const HEADER_BACK: seq<byte> := [44, 48, 44]

  lemma HeaderText(bpr: nat, h: nat)
    ensures BitmapHeader(bpr, h) + [COMMA] == HEADER_FRONT + Decimal(bpr) + [COMMA] + Decimal(h) + HEADER_BACK
  {
    assert BITMAP + [32, 48] + [COMMA] + [48] + [COMMA] == HEADER_FRONT;
    assert [COMMA] + [48] + [COMMA] == HEADER_BACK;
  }

  predicate Commaless(s: seq<byte>, from: nat, to: nat)
    requires from <= to <= |s|
  {
    forall i :: from <= i < to ==> s[i] != COMMA
  }

  lemma ShapeFront(d1: seq<byte>, tail: seq<byte>, s: seq<byte>)
    requires s == HEADER_FRONT + d1 + tail
    requires forall i :: 0 <= i < |d1| ==> IsDigit(d1[i])
    ensures s[11..11 + |d1|] == d1 && Commaless(s, 11, 11 + |d1|)
    ensures Commaless(s, 0, 8) && s[8] == COMMA && s[9] != COMMA && s[10] == COMMA
  {
    assert forall i :: 0 <= i < |HEADER_FRONT| ==> s[i] == HEADER_FRONT[i];
    assert forall i :: 11 <= i < 11 + |d1| ==> s[i] == d1[i - 11];
  }

  lemma ShapeBack(front: seq<byte>, d2: seq<byte>, back: seq<byte>, s: seq<byte>)
    requires s == front + [COMMA] + d2 + back && HEADER_BACK <= back
    requires forall i :: 0 <= i < |d2| ==> IsDigit(d2[i])
    ensures var p2, p3 := |front|, |front| + 1 + |d2|;
            && p3 + 2 < |s| && s[p2] == COMMA && s[p2 + 1..p3] == d2 && Commaless(s, p2 + 1, p3)
            && s[p3] == COMMA && s[p3 + 1] != COMMA && s[p3 + 2] == COMMA
  {
    var p2, p3 := |front|, |front| + 1 + |d2|;
    assert forall i :: p2 + 1 <= i < p3 ==> s[i] == d2[i - p2 - 1];
    assert s[p3] == back[0] == HEADER_BACK[0];
    assert s[p3 + 1] == back[1] == HEADER_BACK[1];
    assert s[p3 + 2] == back[2] == HEADER_BACK[2];
  }

  lemma HeaderShaped(d1: seq<byte>, d2: seq<byte>, back: seq<byte>, s: seq<byte>)
    requires s == HEADER_FRONT + d1 + [COMMA] + d2 + back && HEADER_BACK <= back && d2 != []
    requires forall i :: 0 <= i < |d1| ==> IsDigit(d1[i])
    requires forall i :: 0 <= i < |d2| ==> IsDigit(d2[i])
    ensures HeaderShape(s, 11 + |d1|, 12 + |d1| + |d2|)
    ensures s[11..11 + |d1|] == d1 && s[12 + |d1|..12 + |d1| + |d2|] == d2
  {
    assert s == HEADER_FRONT + d1 + ([COMMA] + d2 + back);
    ShapeFront(d1, [COMMA] + d2 + back, s);
    ShapeBack(HEADER_FRONT + d1, d2, back, s);
  }

  lemma HeaderBytes(bpr: nat, h: nat, rest: seq<byte>)
    ensures var d1, d2 := Decimal(bpr), Decimal(h);
            var s := BitmapHeader(bpr, h) + [COMMA] + rest;
            var p2 := 11 + |d1|;
            var p3 := p2 + 1 + |d2|;
            && HeaderShape(s, p2, p3) && p3 + 2 == |BitmapHeader(bpr, h)|
            && s[11..p2] == d1 && s[p2 + 1..p3] == d2
  {
    var d1, d2 := Decimal(bpr), Decimal(h);
    HeaderText(bpr, h);
    Associative(HEADER_FRONT + d1 + [COMMA] + d2, HEADER_BACK, rest);
    HeaderShaped(d1, d2, HEADER_BACK + rest, BitmapHeader(bpr, h) + [COMMA] + rest);
  }

  /** The picture arrives bit for bit, whatever command bytes it contains. */
  lemma PictureTurns(s: Interp, img: Image, rest: seq<byte>)
    requires !s.dead && s.mode.Commands? && WellFormed(img) && !Refused(img.bytesPerRow, |img.rows|)
    requires s.buf == BitmapHeader(img.bytesPerRow, |img.rows|) + [COMMA] + (Pixels(img) + rest)
    ensures Drain(s) == Drain(AfterPicture(s, img, rest))
  {
    var bpr, h := img.bytesPerRow, |img.rows|;
    var body := Pixels(img) + rest;
    var header := BitmapHeader(bpr, h);
    IntsAreFine(bpr);
    IntsAreFine(h);
    HeaderReads(bpr, h, body);
    var begun := s.(buf := body, bytesPerRow := bpr, height := h, need := bpr * h, mode := Bitmap);
    CutAt(header + [COMMA], body);
    HeaderStarts(bpr, h, body);
    HeaderTurn(s, begun, |header| + 1);
    PayloadTurn(begun, img, rest);
  }

  lemma CutAt(head: seq<byte>, tail: seq<byte>)
    ensures (head + tail)[|head|..] == tail
  {
  }

  lemma HeaderStarts(bpr: nat, h: nat, rest: seq<byte>)
    ensures BITMAP <= BitmapHeader(bpr, h) + [COMMA] + rest
  {
  }

  lemma HeaderTurn(s: Interp, begun: Interp, used: nat)
    requires !s.dead && s.mode.Commands? && BITMAP <= s.buf
    requires ReadHeader(s.buf) == Numbers(used, begun.bytesPerRow, begun.height)
    requires begun == s.(buf := s.buf[used..], bytesPerRow := begun.bytesPerRow, height := begun.height,
                          need := begun.bytesPerRow * begun.height, mode := Bitmap)
    ensures Drain(s) == Drain(begun)
  {
    BitmapPrefix(s.buf);
    assert s.buf[0] == BITMAP[0] == 66;
    assert Step(s) == Advance(begun, []);
    assert [] + Drain(begun).1 == Drain(begun).1;
  }

  lemma PayloadTurn(s: Interp, img: Image, rest: seq<byte>)
    requires !s.dead && s.mode.Bitmap? && WellFormed(img) && !Refused(img.bytesPerRow, |img.rows|)
    requires s.buf == Pixels(img) + rest
    requires s.bytesPerRow == img.bytesPerRow && s.height == |img.rows|
    ensures Drain(s) == Drain(AfterPicture(s, img, rest))
  {
    UnpackPacked(img.bytesPerRow, img.rows);
    PayloadSize(s.bytesPerRow, s.height);
    assert s.buf[..s.need] == Pixels(img) && s.buf[s.need..] == rest;
    var after := AfterPicture(s, img, rest);
    assert Step(s) == Advance(after, []);
    assert [] + Drain(after).1 == Drain(after).1;
  }

  function AfterPicture(s: Interp, img: Image, rest: seq<byte>): Interp {
    var bpr, h := img.bytesPerRow, |img.rows|;
    s.(buf := rest, bytesPerRow := bpr, height := h, need := bpr * h, current := Some(img), mode := Commands)
  }

  // ----- one job, many jobs ---------------------------------------------

  function AfterJob(s: Interp, img: Image, w: nat, h: nat, rest: seq<byte>): Interp {
    AfterPicture(s, img, rest).(size := SizeLine(w, h), current := None, labels := s.labels + [img])
  }

  /** One job is one finished label, the very picture that was encoded, and no reply. */
  lemma JobTurns(s: Interp, img: Image, w: nat, h: nat, gap: seq<byte>, copies: nat, rest: seq<byte>)
    requires !s.dead && s.mode.Commands? && Printable(img) && NoLineEnd(gap)
    requires IsFinite(w) && IsFinite(h) && Short(copies)
    requires s.buf == Job(img, w, h, gap, copies) + rest
    ensures Drain(s) == Drain(AfterJob(s, img, w, h, rest))
  {
    var labelPart, size := Label(img, gap, copies), SizeLine(w, h);
    Associative(size + CRLF, labelPart, rest);
    SizeTurn(s, w, h, labelPart + rest);
    LabelTurns(s.(buf := labelPart + rest, size := size), img, gap, copies, rest);
  }

  lemma LabelTurns(s: Interp, img: Image, gap: seq<byte>, copies: nat, rest: seq<byte>)
    requires !s.dead && s.mode.Commands? && Printable(img) && NoLineEnd(gap) && Short(copies)
    requires s.buf == Label(img, gap, copies) + rest
    ensures Drain(s) == Drain(AfterPicture(s, img, rest).(current := None, labels := s.labels + [img]))
  {
    IgnoredLines(gap);
    SkipLines(s, GapLine(gap), DIRECTION, CLS, Picture(img, copies), rest);
    FinishTurns(s.(buf := Picture(img, copies) + rest), img, copies, rest);
  }

  lemma IgnoredLines(gap: seq<byte>)
    requires NoLineEnd(gap)
    ensures Ignored(GapLine(gap)) && Ignored(DIRECTION) && Ignored(CLS)
  {
    assert GapLine(gap)[0] == GAP[0];
  }

  lemma SkipLines(s: Interp, a: seq<byte>, b: seq<byte>, c: seq<byte>, tail: seq<byte>, rest: seq<byte>)
    requires !s.dead && s.mode.Commands? && Ignored(a) && Ignored(b) && Ignored(c)
    requires s.buf == (a + CRLF + (b + CRLF + (c + CRLF + tail))) + rest
    ensures Drain(s) == Drain(s.(buf := tail + rest))
  {
    var third := c + CRLF + tail;
    var second := b + CRLF + third;
    SkipLine(s, a, second, rest);
    SkipLine(s.(buf := second + rest), b, third, rest);
    SkipLine(s.(buf := third + rest), c, tail, rest);
  }

  lemma SkipLine(s: Interp, line: seq<byte>, tail: seq<byte>, rest: seq<byte>)
    requires !s.dead && s.mode.Commands? && s.buf == (line + CRLF + tail) + rest && Ignored(line)
    ensures Drain(s) == Drain(s.(buf := tail + rest))
  {
    Associative(line + CRLF, tail, rest);
    IgnoredTurn(s, line, tail + rest);
  }

  lemma FinishTurns(s: Interp, img: Image, copies: nat, rest: seq<byte>)
    requires !s.dead && s.mode.Commands? && Printable(img) && Short(copies)
    requires s.buf == Picture(img, copies) + rest
    ensures Drain(s) == Drain(AfterPicture(s, img, rest).(current := None, labels := s.labels + [img]))
  {
    var header := BitmapHeader(img.bytesPerRow, |img.rows|) + [COMMA];
    var footer := PrintLine(copies) + CRLF;
    Associative(header, Pixels(img) + (CRLF + footer), rest);
    Associative(Pixels(img), CRLF + footer, rest);
    Associative(CRLF, footer, rest);
    PictureTurns(s, img, CRLF + (footer + rest));
    var shown := AfterPicture(s, img, CRLF + (footer + rest));
    CrlfTurns(shown, footer + rest);
    PrintTurn(shown.(buf := footer + rest), copies, rest);
  }

  /** What `_finalize_tspl` writes: one ribbon job for every group of lines. */
  function Canvas(group: seq<Image>, width: nat): Image {
    Image(width, Stack(group, width))
  }

  function Jobs(groups: seq<seq<Image>>, width: nat, paperMm: nat): seq<byte> {
    if groups == [] then []
    else RibbonJob(Canvas(groups[0], width), paperMm) + Jobs(groups[1..], width, paperMm)
  }

  method FinalizeTspl(pages: seq<Image>, paperMm: nat, printerGone: bool) returns (raw: seq<byte>)
    ensures raw == if pages == [] || printerGone then []
                   else Jobs(GroupsFrom([], 0, pages), Widest(pages), paperMm)
  {
    raw := [];
    if pages == [] || printerGone { return; }
    var width := Widest(pages);
    var groups := GroupPages(pages);
    for i := 0 to |groups|
      invariant Jobs(groups, width, paperMm) == raw + Jobs(groups[i..], width, paperMm)
    {
      var canvas := Compose(groups[i], width);
      var job := RibbonJob(Image(width, canvas), paperMm);
      assert groups[i..][1..] == groups[i + 1..];
      Associative(raw, job, Jobs(groups[i + 1..], width, paperMm));
      raw := raw + job;
    }
  }

  function Canvases(groups: seq<seq<Image>>, width: nat): seq<Image> {
    seq(|groups|, i requires 0 <= i < |groups| => Canvas(groups[i], width))
  }

  lemma {:induction false} StackHeight(images: seq<Image>, width: nat)
    ensures |Stack(images, width)| == Height(images)
  {
    if images != [] {
      StackHeight(images[1..], width);
    }
  }

  function AfterRibbon(s: Interp, canvas: Image, paperMm: nat, rest: seq<byte>): Interp {
    AfterJob(s, canvas, paperMm, RibbonMm(canvas), rest)
  }

  /** One ribbon job is one label, the canvas itself. */
  lemma RibbonTurns(s: Interp, canvas: Image, paperMm: nat, rest: seq<byte>)
    requires !s.dead && s.mode.Commands? && IsFinite(paperMm) && Printable(canvas)
    requires s.buf == RibbonJob(canvas, paperMm) + rest
    ensures Drain(s) == Drain(AfterRibbon(s, canvas, paperMm, rest))
  {
    IntsAreFine(RibbonMm(canvas));
    IntsAreFine(1);
    JobTurns(s, canvas, paperMm, RibbonMm(canvas), [48], 1, rest);
  }

  lemma CanvasesFirst(groups: seq<seq<Image>>, width: nat)
    requires groups != []
    ensures Canvases(groups, width) == [Canvas(groups[0], width)] + Canvases(groups[1..], width)
  {
  }

  lemma CanvasPrintable(group: seq<Image>, width: nat)
    requires Possible(width, |Stack(group, width)|)
    ensures Printable(Canvas(group, width))
  {
  }

  lemma {:induction false} JobsTurns(s: Interp, groups: seq<seq<Image>>, width: nat, paperMm: nat)
    requires !s.dead && s.mode.Commands? && s.current.None? && IsFinite(paperMm)
    requires forall i :: 0 <= i < |groups| ==> Possible(width, |Stack(groups[i], width)|)
    requires s.buf == Jobs(groups, width, paperMm)
    ensures var (last, reply) := Drain(s);
            && !last.dead && last.mode.Commands? && last.buf == [] && last.current.None? && reply == []
            && last.labels == s.labels + Canvases(groups, width)
    decreases |groups|
  {
    if groups != [] {
      var canvas := Canvas(groups[0], width);
      var rest := Jobs(groups[1..], width, paperMm);
      CanvasPrintable(groups[0], width);
      RibbonTurns(s, canvas, paperMm, rest);
      JobsTurns(AfterRibbon(s, canvas, paperMm, rest), groups[1..], width, paperMm);
      CanvasesFirst(groups, width);
      Associative(s.labels, [canvas], Canvases(groups[1..], width));
    }
  }

  lemma {:induction false} CanvasesStack(groups: seq<seq<Image>>, width: nat)
    ensures Concat(RowsOfAll(Canvases(groups, width))) == Stack(Concat(groups), width)
    decreases |groups|
  {
    if groups != [] {
      var rest := groups[1..];
      CanvasesStack(rest, width);
      StackAppend(groups[0], Concat(rest), width);
      var all, more := RowsOfAll(Canvases(groups, width)), RowsOfAll(Canvases(rest, width));
      assert all[0] == Stack(groups[0], width) && all[1..] == more;
    }
  }

  function RowsOfAll(labels: seq<Image>): seq<seq<Row>> {
    seq(|labels|, i requires 0 <= i < |labels| => labels[i].rows)
  }

  /** End to end: whatever chunks the network makes of the printed receipt, the labels the
      emulator shows, one below the other, are the lines of the receipt in their order,
      white-padded to the widest; nothing is left in the buffer and nothing is answered. */
  lemma ReceiptArrives(pages: seq<Image>, paperMm: nat, chunks: seq<seq<byte>>)
    requires pages != [] && forall i :: 0 <= i < |pages| ==> Printable(pages[i])
    requires IsFinite(paperMm)
    requires Concat(chunks) == Jobs(GroupsFrom([], 0, pages), Widest(pages), paperMm)
    ensures var fed := FeedAll(FRESH, chunks);
            && !fed.state.dead && fed.state.buf == [] && fed.state.current.None? && fed.reply == []
            && Shows(fed.state.labels, pages)
  {
    var groups, width := GroupsFrom([], 0, pages), Widest(pages);
    GroupsSound(pages);
    var stream := Jobs(groups, width, paperMm);
    JobsTurns(FRESH.(buf := stream), groups, width, paperMm);
    Delivered(stream, chunks);
    assert FRESH.labels + Canvases(groups, width) == Canvases(groups, width);
    CanvasesStack(groups, width);
  }

  /** The labels, one below the other, are the pages in order, padded to the widest. */
  ghost predicate Shows(labels: seq<Image>, pages: seq<Image>) {
    && (forall i :: 0 <= i < |labels| ==> labels[i].bytesPerRow == Widest(pages))
    && Concat(RowsOfAll(labels)) == Stack(pages, Widest(pages))
  }

  lemma Delivered(bytes: seq<byte>, chunks: seq<seq<byte>>)
    requires Concat(chunks) == bytes && !Drain(FRESH.(buf := bytes)).0.dead
    ensures var (last, reply) := Drain(FRESH.(buf := bytes));
            FeedAll(FRESH, chunks) == Fed(last, reply)
  {
    assert FRESH.buf + bytes == bytes;
    DeliveredTo(FRESH, bytes, chunks);
  }

  lemma DeliveredTo(s: Interp, bytes: seq<byte>, chunks: seq<seq<byte>>)
    requires !s.dead && Drain(s) == (s, []) && Concat(chunks) == bytes && !FeedBytes(s, bytes).state.dead
    ensures FeedAll(s, chunks) == FeedBytes(s, bytes)
  {
    DiesExactly(s, bytes);
    AnyChunks(s, chunks);
  }

  /** Every canvas is one Pillow can make: a group is 2540 dots high at most or a single page. */
  lemma GroupsSound(pages: seq<Image>)
    requires pages != [] && forall i :: 0 <= i < |pages| ==> Printable(pages[i])
    ensures var groups, width := GroupsFrom([], 0, pages), Widest(pages);
            && Concat(groups) == pages
            && forall i :: 0 <= i < |groups| ==> Possible(width, |Stack(groups[i], width)|)
  {
    var groups, width := GroupsFrom([], 0, pages), Widest(pages);
    GroupsLoseNothing([], 0, pages);
    assert [] + pages == pages;
    GroupsFit([], pages);
    WidestPossible(pages);
    forall i | 0 <= i < |groups|
      ensures Possible(width, |Stack(groups[i], width)|)
    {
      MembersOfGroups(groups, i);
      assert Fits(groups[i]);
      GroupPossible(groups[i], width);
    }
  }

  lemma {:induction false} MembersOfGroups(groups: seq<seq<Image>>, i: nat)
    requires i < |groups|
    ensures forall p :: p in groups[i] ==> p in Concat(groups)
  {
    if i > 0 {
      MembersOfGroups(groups[1..], i - 1);
    }
  }

  lemma GroupPossible(group: seq<Image>, width: nat)
    requires Fits(group) && 0 < width < ROW_LIMIT && forall p :: p in group ==> Printable(p)
    ensures Possible(width, |Stack(group, width)|)
  {
    StackHeight(group, width);
    assert Printable(group[0]) && Height(group) >= |group[0].rows|;
    if |group| == 1 {
      assert group == [group[0]];
      HeightOne(group[0]);
    }
  }

  lemma {:induction false} WidestPossible(pages: seq<Image>)
    requires pages != [] && forall i :: 0 <= i < |pages| ==> Printable(pages[i])
    ensures 0 < Widest(pages) < ROW_LIMIT
  {
    if |pages| > 1 {
      WidestPossible(pages[1..]);
    }
  }
}
