/** The bytes of a printed receipt, read line by line: how often each group is printed, on what
    size, and what stands before its picture. */
module TsplBytes {
  import opened Images
  import opened Options
  import opened Numerals
  import opened TsplRender
  import opened TsplPrinter
  import opened TsplPages
  import opened TsplStream
  import opened TsplRoundTrip

  // ----- a reader of lines ---------------------------------------------------------------

  predicate HasLine(b: seq<byte>) {
    Find(b, 10, 0) < |b|
  }

  function FirstLine(b: seq<byte>): seq<byte>
    requires HasLine(b)
  {
    Strip(b[..Find(b, 10, 0)])
  }

  function AfterLine(b: seq<byte>): seq<byte>
    requires HasLine(b)
  {
    b[Find(b, 10, 0) + 1..]
  }

  /** The two whole numbers around the only comma, with their millimetres blanked out. */
  predicate ReadsPair(body: seq<byte>, first: nat, second: nat) {
    var blank := Blanked(body, 109);
    var comma := Find(blank, 44, 0);
    && comma < |blank| && Find(blank, 44, comma + 1) == |blank|
    && IntValue(blank[..comma]) == Some(first) && IntValue(blank[comma + 1..]) == Some(second)
  }

  /** SIZE, GAP 0, DIRECTION 1 and CLS, in this order; `picture` is what follows. */
  predicate Opens(job: seq<byte>, widthMm: nat, heightMm: nat, picture: seq<byte>) {
    && HasLine(job)
    && var size, gapped := FirstLine(job), AfterLine(job);
       && |size| >= 4 && size[..4] == [83, 73, 90, 69] && ReadsPair(size[4..], widthMm, heightMm)
       && HasLine(gapped)
       && var gap, directed := FirstLine(gapped), AfterLine(gapped);
          && |gap| >= 3 && gap[..3] == [71, 65, 80] && ReadsPair(gap[3..], 0, 0)
          && HasLine(directed) && FirstLine(directed) == [68, 73, 82, 69, 67, 84, 73, 79, 78, 32, 49]
          && var cleared := AfterLine(directed);
             HasLine(cleared) && FirstLine(cleared) == [67, 76, 83] && AfterLine(cleared) == picture
  }

  /** The picture at the corner of the label, in overwriting mode and with its sizes, then a PRINT
      line that asks for so many copies, and nothing else. */
  ghost predicate Prints(picture: seq<byte>, canvas: Image, copies: nat) {
    && ReadHeader(picture).Numbers?
    && var Numbers(used, width, height) := ReadHeader(picture);
       var payload, need := picture[used..], |Pixels(canvas)|;
       && used >= 14 && picture[..11] == [66, 73, 84, 77, 65, 80, 32, 48, 44, 48, 44] && picture[used - 3..used] == [44, 48, 44]
       && width == canvas.bytesPerRow && height == |canvas.rows|
       && Pixels(canvas) <= payload && HasLine(payload[need..]) && FirstLine(payload[need..]) == []
       && var last := AfterLine(payload[need..]);
          && HasLine(last) && AfterLine(last) == []
          && var asked := FirstLine(last);
             |asked| >= 5 && asked[..5] == [80, 82, 73, 78, 84] && IntValue(asked[5..]) == Some(copies)
  }

  /** A height in millimetres of eight dots each that covers so many dots, and none to spare. */
  predicate Covers(mm: nat, dots: nat) {
    8 * mm >= dots && 8 * (mm - 1) < dots
  }

  // ----- what the manager writes ------------------------------------------------------------

  lemma Lined(line: seq<byte>, rest: seq<byte>)
    requires NoLineEnd(line) && Strip(line + [13]) == line
    ensures var b := line + CRLF + rest; HasLine(b) && FirstLine(b) == line && AfterLine(b) == rest
  {
    var b := line + CRLF + rest;
    assert b[|line| + 1] == LF;
    assert forall i :: 0 <= i < |line| ==> b[i] == line[i];
    FindFirst(b, 10, 0, |line| + 1);
    assert b[..|line| + 1] == line + [13] && b[|line| + 2..] == rest;
  }

  lemma {:induction false} TrimmedBack(d: seq<byte>, blanks: seq<byte>)
    requires d != [] && IsDigit(d[0]) && IsDigit(d[|d| - 1]) && forall i :: 0 <= i < |blanks| ==> blanks[i] == 32
    ensures Trimmed(d + blanks) == d
    decreases |blanks|
  {
    var s := d + blanks;
    if blanks == [] {
      assert s == d;
    } else {
      assert s[..|s| - 1] == d + blanks[..|blanks| - 1];
      TrimmedBack(d, blanks[..|blanks| - 1]);
    }
  }

  lemma BlankedNumber(n: nat, front: seq<byte>, back: seq<byte>)
    requires Short(n) && (front == [] || front == [32]) && forall i :: 0 <= i < |back| ==> back[i] == 32
    ensures IntValue(front + Decimal(n) + back) == Some(n)
  {
    var d := Decimal(n);
    var s := front + d + back;
    TrimmedBack(d, back);
    if front != [] {
      assert s[1..] == d + back;
    } else {
      assert s == d + back;
    }
    assert Trimmed(s) == d;
    IntOfDecimal(n);
    assert Trimmed(d) == d;
  }

  /** ` w mm, h mm`, as the SIZE and GAP lines have it behind their word. */
  lemma PairIsRead(w: seq<byte>, h: seq<byte>, a: nat, b: nat, body: seq<byte>)
    requires body == [32] + w + MM + COMMA_SPACE + h + MM && w == Decimal(a) && h == Decimal(b) && Short(a) && Short(b)
    ensures ReadsPair(body, a, b)
  {
    var front, back := [32] + w + [32], [44, 32] + h + [32];
    var second := back + ([109, 109] + []);
    assert body == front + ([109, 109] + second);
    MillimetresBlanked(front, second);
    MillimetresBlanked(back, []);
    var left, right := [32] + w + [32, 32], [32] + h + [32, 32];
    var blank := Blanked(body, 109);
    assert blank == left + [44] + right;
    FindFirst(blank, 44, 0, |left|);
    NotFound(blank, 44, |left| + 1);
    assert blank[..|left|] == left && blank[|left| + 1..] == right;
    BlankedNumber(a, [32], [32, 32]);
    BlankedNumber(b, [32], [32, 32]);
  }

  lemma SizeLined(w: nat, h: nat, rest: seq<byte>)
    requires Short(w) && Short(h)
    ensures var b := SizeLine(w, h) + CRLF + rest;
            && HasLine(b) && AfterLine(b) == rest && |FirstLine(b)| >= 4
            && FirstLine(b)[..4] == [83, 73, 90, 69] && ReadsPair(FirstLine(b)[4..], w, h)
  {
    var line := SizeLine(w, h);
    SizeShape(w, h);
    StripCarriage(line);
    Lined(line, rest);
    assert line[..4] == SIZE && line[4..] == [32] + Decimal(w) + MM + COMMA_SPACE + Decimal(h) + MM;
    PairIsRead(Decimal(w), Decimal(h), w, h, line[4..]);
  }

  lemma GapLined(rest: seq<byte>)
    ensures var b := GapLine([48]) + CRLF + rest;
            && HasLine(b) && AfterLine(b) == rest && |FirstLine(b)| >= 3
            && FirstLine(b)[..3] == [71, 65, 80] && ReadsPair(FirstLine(b)[3..], 0, 0)
  {
    var line := GapLine([48]);
    assert line[0] == GAP[0] && line[|line| - 1] == MM[2];
    StripCarriage(line);
    Lined(line, rest);
    assert Decimal(0) == [48];
    IntsAreFine(0);
    assert line[..3] == GAP && line[3..] == [32] + Decimal(0) + MM + COMMA_SPACE + Decimal(0) + MM;
    PairIsRead([48], [48], 0, 0, line[3..]);
  }

  lemma WordLined(line: seq<byte>, rest: seq<byte>)
    requires line == DIRECTION || line == CLS
    ensures var b := line + CRLF + rest; HasLine(b) && FirstLine(b) == line && AfterLine(b) == rest
  {
    StripCarriage(line);
    Lined(line, rest);
  }

  lemma LabelOpens(w: nat, h: nat, picture: seq<byte>)
    requires Short(w) && Short(h)
    ensures Opens(SizeLine(w, h) + CRLF + (GapLine([48]) + CRLF + (DIRECTION + CRLF + (CLS + CRLF + picture))), w, h, picture)
  {
    var cleared := CLS + CRLF + picture;
    var directed := DIRECTION + CRLF + cleared;
    WordLined(CLS, picture);
    WordLined(DIRECTION, cleared);
    GapLined(directed);
    SizeLined(w, h, GapLine([48]) + CRLF + directed);
  }

  lemma PrintLined(copies: nat)
    requires Short(copies)
    ensures var b := PrintLine(copies) + CRLF + [];
            && HasLine(b) && AfterLine(b) == [] && |FirstLine(b)| >= 5
            && FirstLine(b)[..5] == [80, 82, 73, 78, 84] && IntValue(FirstLine(b)[5..]) == Some(copies)
  {
    var line := PrintLine(copies);
    PrintShape(copies);
    StripCarriage(line);
    Lined(line, []);
    assert line[..5] == PRINT && line[5..] == [32] + Decimal(copies) + [];
    BlankedNumber(copies, [32], []);
  }

  lemma PicturePrints(canvas: Image, copies: nat)
    requires Printable(canvas) && Short(copies)
    ensures Prints(Picture(canvas, copies), canvas, copies)
  {
    var width, height, pixels := canvas.bytesPerRow, |canvas.rows|, Pixels(canvas);
    var last := PrintLine(copies) + CRLF;
    var payload := pixels + (CRLF + last);
    IntsAreFine(width);
    IntsAreFine(height);
    HeaderReads(width, height, payload);
    CutAt(BitmapHeader(width, height) + [COMMA], payload);
    assert Picture(canvas, copies) == BitmapHeader(width, height) + [COMMA] + payload;
    HeaderEnds(width, height, payload);
    assert payload[|pixels|..] == CRLF + last;
    EmptyLined(last);
    assert last == PrintLine(copies) + CRLF + [];
    PrintLined(copies);
  }

  lemma HeaderEnds(width: nat, height: nat, payload: seq<byte>)
    ensures var header := BitmapHeader(width, height) + [COMMA]; var b := header + payload;
            && |header| >= 14 && b[..11] == [66, 73, 84, 77, 65, 80, 32, 48, 44, 48, 44]
            && b[|header| - 3..|header|] == [44, 48, 44]
  {
    var header := BitmapHeader(width, height) + [COMMA];
    var b := header + payload;
    HeaderText(width, height);
    var middle := Decimal(width) + [COMMA] + Decimal(height);
    assert header == HEADER_FRONT + middle + HEADER_BACK;
    assert b[..|header|] == header;
    assert header[..11] == HEADER_FRONT && header[11 + |middle|..] == HEADER_BACK;
    assert b[..11] == header[..11] && b[|header| - 3..|header|] == header[|header| - 3..];
  }

  /** The picture goes over the wire dot for dot, row after row, a set bit being white. */
  lemma {:induction false} PixelsAt(width: nat, rows: seq<Row>, r: nat, k: nat)
    requires (forall i :: 0 <= i < |rows| ==> |rows[i]| == width) && r < |rows| && k < width
    ensures var at := Area(width, r) + k;
            at < |Pixels(Image(width, rows))| && Pixels(Image(width, rows))[at] == rows[r][k]
    decreases |rows|
  {
    if r > 0 {
      PixelsAt(width, rows[1..], r - 1, k);
      AreaIsProduct(width, r);
      AreaIsProduct(width, r - 1);
    }
  }

  lemma EmptyLined(rest: seq<byte>)
    ensures var b := CRLF + rest; HasLine(b) && FirstLine(b) == [] && AfterLine(b) == rest
  {
    var b := CRLF + rest;
    FindFirst(b, 10, 0, 1);
    assert b[..1] == [13] && b[2..] == rest;
  }

  // ----- the whole receipt ---------------------------------------------------------------------

  /** The print job of one group: its size is the paper's width and as many millimetres as cover
      the canvas; there is no gap; it is printed once. */
  ghost predicate OneRibbon(job: seq<byte>, canvas: Image, paperMm: nat) {
    exists heightMm: nat, picture: seq<byte> ::
      Covers(heightMm, |canvas.rows|) && Opens(job, paperMm, heightMm, picture) && Prints(picture, canvas, 1)
  }

  lemma RibbonIsOne(canvas: Image, paperMm: nat)
    requires Printable(canvas) && Short(paperMm)
    ensures OneRibbon(RibbonJob(canvas, paperMm), canvas, paperMm)
  {
    var h, picture := RibbonMm(canvas), Picture(canvas, 1);
    IntsAreFine(h);
    LabelOpens(paperMm, h, picture);
    IntsAreFine(1);
    PicturePrints(canvas, 1);
    assert Covers(h, |canvas.rows|);
  }

  function Ribbons(groups: seq<seq<Image>>, width: nat, paperMm: nat): seq<seq<byte>> {
    seq(|groups|, i requires 0 <= i < |groups| => RibbonJob(Canvas(groups[i], width), paperMm))
  }

  lemma {:induction false} RibbonsAreJobs(groups: seq<seq<Image>>, width: nat, paperMm: nat)
    ensures Concat(Ribbons(groups, width, paperMm)) == Jobs(groups, width, paperMm)
  {
    if groups != [] {
      RibbonsAreJobs(groups[1..], width, paperMm);
      assert Ribbons(groups, width, paperMm)[1..] == Ribbons(groups[1..], width, paperMm);
    }
  }

  /** The bytes of a receipt are one print job for each group of its pages and nothing else, each
      group's pages one below the other on the width of the widest page, each printed once. */
  lemma ReceiptIsPrintedOnce(pages: seq<Image>, paperMm: nat) returns (groups: seq<seq<Image>>, jobs: seq<seq<byte>>)
    requires pages != [] && (forall i :: 0 <= i < |pages| ==> Printable(pages[i])) && Short(paperMm)
    ensures Concat(groups) == pages && |jobs| == |groups|
    ensures Concat(jobs) == Jobs(GroupsFrom([], 0, pages), Widest(pages), paperMm)
    ensures forall i :: 0 <= i < |jobs| ==> OneRibbon(jobs[i], Image(Widest(pages), Stack(groups[i], Widest(pages))), paperMm)
  {
    groups := GroupsFrom([], 0, pages);
    var width := Widest(pages);
    GroupsSound(pages);
    RibbonsAreJobs(groups, width, paperMm);
    jobs := Ribbons(groups, width, paperMm);
    forall i | 0 <= i < |jobs|
      ensures OneRibbon(jobs[i], Image(width, Stack(groups[i], width)), paperMm)
    {
      CanvasPrintable(groups[i], width);
      RibbonIsOne(Canvas(groups[i], width), paperMm);
    }
  }
}
