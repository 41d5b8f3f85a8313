/** The receipt interpreter: independent of how the network cuts the stream, never losing a
    dot of a raster, and showing exactly the pictures the manager encoded. */
module EscPosStream {
  import opened Images
  import opened Options
  import opened BitmapRender
  import opened EscPosPrinter

  // ----- chunking -------------------------------------------------------

  function More(s: Interp, data: seq<byte>): Interp {
    s.(buf := s.buf + data)
  }

  lemma StepStable(s: Interp, data: seq<byte>)
    requires Step(s).Advance?
    ensures Step(More(s, data)) == Advance(More(Step(s).next, data), Step(s).reply)
  {
    var n := CommandLength(s.buf);
    var cmd := s.buf[..n];
    LengthOfPrefix(s.buf, data);
    CommandIsWhole(s.buf);
    assert (s.buf + data)[..n] == cmd && (s.buf + data)[n..] == s.buf[n..] + data;
    EffectIgnoresBuffer(s, s.buf + data, cmd);
  }

  lemma {:induction false} DrainMore(s: Interp, data: seq<byte>)
    ensures var (mid, r1) := Drain(s);
            var (last, r2) := Drain(More(mid, data));
            Drain(More(s, data)) == (last, r1 + r2)
    decreases |s.buf|
  {
    match Step(s)
    case Wait =>
      assert [] + Drain(More(s, data)).1 == Drain(More(s, data)).1;
    case Advance(next, reply) =>
      StepStable(s, data);
      DrainMore(next, data);
      DrainUnfolds(More(s, data), More(next, data), reply);
      var (mid, r1) := Drain(next);
      Associative(reply, r1, Drain(More(mid, data)).1);
  }

  /** Two deliveries or one: the same receipts, the same replies, the same final state. */
  lemma ChunkingInvariance(s: Interp, a: seq<byte>, b: seq<byte>)
    ensures var first := FeedBytes(s, a);
            var second := FeedBytes(first.state, b);
            FeedBytes(s, a + b) == Fed(second.state, first.reply + second.reply)
  {
    var fed := s.(buf := s.buf + a);
    assert fed.buf + b == s.buf + (a + b);
    DrainMore(fed, b);
  }

  lemma {:induction false} DrainWaits(s: Interp)
    ensures Step(Drain(s).0) == Wait
    decreases |s.buf|
  {
    if Step(s).Advance? {
      DrainWaits(Step(s).next);
    }
  }

  /** Any number of deliveries. */
  lemma {:induction false} AnyChunks(s: Interp, chunks: seq<seq<byte>>)
    requires Step(s) == Wait
    ensures FeedAll(s, chunks) == FeedBytes(s, Concat(chunks))
    decreases |chunks|
  {
    if chunks == [] {
      assert s.buf + [] == s.buf;
    } else {
      var first, rest := FeedBytes(s, chunks[0]), Concat(chunks[1..]);
      ChunkingInvariance(s, chunks[0], rest);
      DrainWaits(s.(buf := s.buf + chunks[0]));
      AnyChunks(first.state, chunks[1..]);
      assert FeedAll(s, chunks).state == FeedBytes(first.state, rest).state;
    }
  }

  // ----- nothing is cropped ---------------------------------------------

  ghost predicate OpFits(op: Op, width: nat) {
    op.Raster? ==> WellFormed(op.img) && op.img.bytesPerRow <= width
  }

  ghost predicate OpsFit(ops: seq<Op>, width: nat) {
    forall i :: 0 <= i < |ops| ==> OpFits(ops[i], width)
  }

  /** Every raster waiting for the cut fits the width noted so far, every raster of a
      finished receipt fits the receipt. */
  ghost predicate NothingCropped(s: Interp) {
    && OpsFit(s.ops, s.observed)
    && forall i :: 0 <= i < |s.receipts| ==> OpsFit(s.receipts[i].ops, s.receipts[i].width)
  }

  lemma RasterFits(s: Interp, bytesPerRow: nat, height: nat, data: seq<byte>)
    requires NothingCropped(s) && |data| == Area(bytesPerRow, height)
    ensures NothingCropped(RasterEffect(s, bytesPerRow, height, data))
  {
  }

  lemma FinalizeFits(s: Interp)
    requires NothingCropped(s)
    ensures NothingCropped(Finalize(s))
  {
    var flushed := FlushLine(s, false);
    assert OpsFit(flushed.ops, s.observed);
    var ops := TrimBlank(flushed.ops);
    assert forall i :: 0 <= i < |ops| ==> ops[i] == flushed.ops[i];
    if s.observed == 0 {
      assert OpsFit(ops, s.defaultWidth);
    }
  }

  lemma EscFits(s: Interp, cmd: byte, arg: byte)
    requires NothingCropped(s)
    ensures NothingCropped(EscEffect(s, cmd, arg))
  {
    assert NothingCropped(FlushLine(s, false));
  }

  lemma EffectFits(s: Interp, cmd: seq<byte>)
    requires NothingCropped(s) && Whole(cmd)
    ensures NothingCropped(Effect(s, cmd))
  {
    if cmd[0] == ESC {
      EscFits(s, cmd[1], Arg(cmd));
    } else if cmd[0] == GS && cmd[1] == 0x76 {
      RasterFits(s, Word(cmd[4], cmd[5]), Word(cmd[6], cmd[7]), cmd[8..]);
    } else if cmd[0] == GS && cmd[1] == 0x56 {
      FinalizeFits(s);
    } else {
      assert NothingCropped(FlushLine(s, false)) && NothingCropped(FlushLine(s, true));
    }
  }

  lemma {:induction false} DrainCropsNothing(s: Interp)
    requires NothingCropped(s)
    ensures NothingCropped(Drain(s).0)
    decreases |s.buf|
  {
    if Step(s).Advance? {
      var n := CommandLength(s.buf);
      CommandIsWhole(s.buf);
      EffectFits(s, s.buf[..n]);
      DrainCropsNothing(Step(s).next);
    }
  }

  /** Whatever bytes arrive, `_fit` never has to crop. */
  lemma CropsNothing(defaultWidth: nat, data: seq<byte>)
    ensures NothingCropped(FeedBytes(Fresh(defaultWidth), data).state)
  {
    DrainCropsNothing(Fresh(defaultWidth).(buf := [] + data));
  }

  // ----- the encoder meets the decoder ----------------------------------

  ghost predicate Encodable(img: Image) {
    WellFormed(img) && img.bytesPerRow < 65536 && |img.rows| < 65536
  }

  lemma WordOf(n: nat)
    ensures Word(Low(n), High(n)) == n % 65536
  {
    var q, r := n / 65536, n % 65536;
    assert n / 256 == q * 256 + r / 256;
  }

  lemma WordFits(n: nat)
    requires n < 65536
    ensures Word(Low(n), High(n)) == n
  {
    WordOf(n);
  }

  function Shown(s: Interp, img: Image, rest: seq<byte>): Interp {
    s.(buf := rest, ops := s.ops + [Raster(img)],
       observed := if img.bytesPerRow > s.observed then img.bytesPerRow else s.observed)
  }

  lemma HeaderFields(a: byte, b: byte, c: byte, d: byte, tail: seq<byte>)
    ensures var s := [GS, 118, 48, 0, a, b, c, d] + tail;
            s[0] == GS && s[1] == 0x76 && s[4] == a && s[5] == b && s[6] == c && s[7] == d
  {
  }

  /** The length and the fields of an encoded picture, as the interpreter reads them. */
  lemma EncodedCommand(img: Image, rest: seq<byte>)
    requires WellFormed(img)
    ensures var b, w, h := Encode(img) + rest, img.bytesPerRow, |img.rows|;
            && |Encode(img)| == 8 + Area(w, h)
            && b[0] == GS && b[1] == 0x76
            && b[4] == Low(w) && b[5] == High(w) && b[6] == Low(h) && b[7] == High(h)
  {
    var w, h := img.bytesPerRow, |img.rows|;
    PixelsLength(w, img.rows);
    Associative(Header(w, h), Invert(Pixels(img)), rest);
    HeaderFields(Low(w), High(w), Low(h), High(h), Invert(Pixels(img)) + rest);
  }

  lemma EncodedBody(img: Image, rest: seq<byte>)
    requires WellFormed(img)
    ensures var n := |Encode(img)|;
            var b := Encode(img) + rest;
            b[..n] == Encode(img) && b[n..] == rest && Encode(img)[8..] == Invert(Pixels(img))
  {
  }

  lemma DecodedRows(img: Image)
    requires WellFormed(img)
    ensures |Invert(Pixels(img))| == Area(img.bytesPerRow, |img.rows|)
    ensures RowsOf(img.bytesPerRow, |img.rows|, Invert(Invert(Pixels(img)))) == img.rows
  {
    InvertTwice(Pixels(img));
    UnpackPacked(img.bytesPerRow, img.rows);
  }

  /** A picture that fits the header comes back bit for bit, whatever stands behind it. */
  lemma RasterTurn(s: Interp, img: Image, rest: seq<byte>)
    requires Encodable(img) && s.buf == Encode(img) + rest
    ensures Step(s) == Advance(Shown(s, img, rest), [])
  {
    EncodedCommand(img, rest);
    EncodedBody(img, rest);
    WordFits(img.bytesPerRow);
    WordFits(|img.rows|);
    RasterStep(s, Encode(img), rest, img);
  }

  lemma RasterStep(s: Interp, cmd: seq<byte>, rest: seq<byte>, img: Image)
    requires WellFormed(img) && s.buf == cmd + rest && |cmd| == 8 + Area(img.bytesPerRow, |img.rows|)
    requires s.buf[0] == GS && s.buf[1] == 0x76
    requires Word(s.buf[4], s.buf[5]) == img.bytesPerRow && Word(s.buf[6], s.buf[7]) == |img.rows|
    requires s.buf[..|cmd|] == cmd && s.buf[|cmd|..] == rest && cmd[8..] == Invert(Pixels(img))
    ensures Step(s) == Advance(Shown(s, img, rest), [])
  {
    assert CommandLength(s.buf) == |cmd|;
    CommandIsWhole(s.buf);
    assert cmd[0] == GS && cmd[1] == 0x76;
    assert cmd[4] == s.buf[4] && cmd[5] == s.buf[5] && cmd[6] == s.buf[6] && cmd[7] == s.buf[7];
    RasterCommand(s, cmd, img.bytesPerRow, |img.rows|);
    DecodedRaster(s, img);
  }

  lemma RasterCommand(s: Interp, cmd: seq<byte>, width: nat, height: nat)
    requires Whole(cmd) && |cmd| >= 8 && cmd[0] == GS && cmd[1] == 0x76
    requires Word(cmd[4], cmd[5]) == width && Word(cmd[6], cmd[7]) == height
    requires |cmd[8..]| == Area(width, height)
    ensures Effect(s, cmd) == RasterEffect(s, width, height, cmd[8..])
  {
  }

  lemma DecodedRaster(s: Interp, img: Image)
    requires WellFormed(img)
    ensures |Invert(Pixels(img))| == Area(img.bytesPerRow, |img.rows|)
    ensures RasterEffect(s, img.bytesPerRow, |img.rows|, Invert(Pixels(img))) == Shown(s, img, s.buf)
  {
    DecodedRows(img);
  }

  /** The 16-bit header fields decide it: the first command decoded is the picture if and
      only if neither its row bytes nor its height need a seventeenth bit. */
  lemma EncodableExactly(s: Interp, img: Image)
    requires WellFormed(img) && s.buf == Encode(img)
    ensures Step(s) == Advance(Shown(s, img, []), []) <==> Encodable(img)
  {
    if Encodable(img) {
      assert Encode(img) + [] == Encode(img);
      RasterTurn(s, img, []);
    } else {
      EncodedCommand(img, []);
      WordOf(img.bytesPerRow);
      WordOf(|img.rows|);
      assert Encode(img) + [] == Encode(img);
      if Step(s).Advance? {
        var n := CommandLength(s.buf);
        CommandIsWhole(s.buf);
        var cmd := s.buf[..n];
        assert cmd[4] == s.buf[4] && cmd[5] == s.buf[5] && cmd[6] == s.buf[6] && cmd[7] == s.buf[7];
        var last := Step(s).next.ops[|s.ops|].img;
        assert last.bytesPerRow == img.bytesPerRow % 65536 && |last.rows| == |img.rows| % 65536;
      }
    }
  }

  // ----- whole receipts -------------------------------------------------

  /** A printed picture and whether the driver sends a line feed after it. */
  datatype Strip = Strip(img: Image, lineFeed: bool)

  function Pictures(strips: seq<Strip>): (images: seq<Image>)
    ensures |images| == |strips|
  {
    if strips == [] then [] else [strips[0].img] + Pictures(strips[1..])
  }

  function StripBytes(strips: seq<Strip>): seq<byte> {
    if strips == [] then []
    else Encode(strips[0].img) + ((if strips[0].lineFeed then [LF] else []) + StripBytes(strips[1..]))
  }

  /** The cut: optionally fed first (`ESC d n`), then `GS V m`, with a parameter for 65 and 66. */
  datatype Cut = Cut(feed: Option<byte>, mode: byte, parameter: byte)

  function FeedCommand(cut: Cut): seq<byte> {
    match cut.feed
    case None => []
    case Some(n) => [ESC, 0x64, n]
  }

  function CutCommand(cut: Cut): seq<byte> {
    if cut.mode == 65 || cut.mode == 66 then [GS, 0x56, cut.mode, cut.parameter] else [GS, 0x56, cut.mode]
  }

  datatype Print = Print(strips: seq<Strip>, cut: Cut)

  function PrintBytes(p: Print): seq<byte> {
    StripBytes(p.strips) + (FeedCommand(p.cut) + CutCommand(p.cut))
  }

  function AllBytes(prints: seq<Print>): seq<byte> {
    if prints == [] then [] else PrintBytes(prints[0]) + AllBytes(prints[1..])
  }

  function Rasters(images: seq<Image>): seq<Op> {
    if images == [] then [] else [Raster(images[0])] + Rasters(images[1..])
  }

  function FeedGap(cut: Cut): seq<Op> {
    match cut.feed
    case None => []
    case Some(n) => [Gap(FeedDots(n))]
  }

  function ReceiptOf(p: Print): Receipt {
    Receipt(Rasters(Pictures(p.strips)) + FeedGap(p.cut), Widest(Pictures(p.strips)))
  }

  function ReceiptsOf(prints: seq<Print>): seq<Receipt> {
    if prints == [] then [] else [ReceiptOf(prints[0])] + ReceiptsOf(prints[1..])
  }

  ghost predicate PrintOk(p: Print) {
    && p.strips != []
    && forall i :: 0 <= i < |p.strips| ==> Encodable(p.strips[i].img) && p.strips[i].img.bytesPerRow > 0
  }

  ghost predicate Clean(s: Interp) {
    s.ops == [] && s.text == [] && s.observed == 0
  }

  lemma SilentStep(s: Interp, next: Interp)
    requires Step(s) == Advance(next, [])
    ensures Drain(s) == Drain(next)
  {
    assert [] + Drain(next).1 == Drain(next).1;
  }

  lemma LineFeedTurn(s: Interp, rest: seq<byte>)
    requires s.buf == [LF] + rest && s.text == [] && s.ops != [] && s.ops[|s.ops| - 1].Raster?
    ensures Drain(s) == Drain(s.(buf := rest))
  {
    assert s.buf[..1] == [LF] && s.buf[1..] == rest;
    assert Whole([LF]);
    SilentStep(s, s.(buf := rest));
  }

  function Wider(a: nat, b: nat): nat {
    if a > b then a else b
  }

  lemma {:induction false} StripTurns(s: Interp, strips: seq<Strip>, rest: seq<byte>)
    requires s.text == [] && s.buf == StripBytes(strips) + rest
    requires forall i :: 0 <= i < |strips| ==> Encodable(strips[i].img)
    ensures var images := Pictures(strips);
            Drain(s) == Drain(s.(buf := rest, ops := s.ops + Rasters(images), observed := Wider(Widest(images), s.observed)))
    decreases |strips|
  {
    if strips == [] {
      assert [] + rest == rest && s.ops + [] == s.ops;
    } else {
      var img, tail := strips[0].img, StripBytes(strips[1..]);
      var lf: seq<byte> := if strips[0].lineFeed then [LF] else [];
      Associative(Encode(img), lf + tail, rest);
      Associative(lf, tail, rest);
      RasterTurn(s, img, lf + (tail + rest));
      var shown := Shown(s, img, lf + (tail + rest));
      SilentStep(s, shown);
      if strips[0].lineFeed {
        LineFeedTurn(shown, tail + rest);
      } else {
        assert [] + (tail + rest) == tail + rest;
      }
      StripTurns(shown.(buf := tail + rest), strips[1..], rest);
      Associative(s.ops, [Raster(img)], Rasters(Pictures(strips[1..])));
    }
  }

  lemma FeedTurn(s: Interp, cut: Cut, rest: seq<byte>)
    requires s.text == [] && s.buf == FeedCommand(cut) + rest
    ensures Drain(s) == Drain(s.(buf := rest, ops := s.ops + FeedGap(cut)))
  {
    match cut.feed
    case None =>
      assert [] + rest == rest && s.ops + [] == s.ops;
    case Some(n) =>
      var cmd: seq<byte> := [ESC, 0x64, n];
      assert s.buf[..3] == cmd && s.buf[3..] == rest;
      assert s.buf[0] == ESC && s.buf[1] == 0x64;
      assert CommandLength(s.buf) == 3;
      SilentStep(s, s.(buf := rest, ops := s.ops + FeedGap(cut)));
  }

  lemma CutTurn(s: Interp, cut: Cut, rest: seq<byte>)
    requires s.buf == CutCommand(cut) + rest && s.text == [] && s.observed > 0
    requires s.ops != [] && !s.ops[|s.ops| - 1].Text?
    ensures Drain(s) == Drain(s.(buf := rest, ops := [], observed := 0, receipts := s.receipts + [Receipt(s.ops, s.observed)]))
  {
    var cmd := CutCommand(cut);
    var n := |cmd|;
    assert s.buf[..n] == cmd && s.buf[n..] == rest;
    assert s.buf[0] == GS && s.buf[1] == 0x56 && s.buf[2] == cut.mode;
    assert CommandLength(s.buf) == n;
    SilentStep(s, s.(buf := rest, ops := [], observed := 0, receipts := s.receipts + [Receipt(s.ops, s.observed)]));
  }

  lemma {:induction false} RastersEnd(images: seq<Image>)
    requires images != []
    ensures Rasters(images) != [] && Rasters(images)[|Rasters(images)| - 1].Raster?
  {
    if |images| > 1 {
      RastersEnd(images[1..]);
    }
  }

  lemma PrintTurns(s: Interp, p: Print, rest: seq<byte>)
    requires Clean(s) && PrintOk(p) && s.buf == PrintBytes(p) + rest
    ensures Drain(s) == Drain(s.(buf := rest, receipts := s.receipts + [ReceiptOf(p)]))
  {
    var images := Pictures(p.strips);
    var feed, cut := FeedCommand(p.cut), CutCommand(p.cut);
    Associative(StripBytes(p.strips), feed + cut, rest);
    Associative(feed, cut, rest);
    StripTurns(s, p.strips, feed + (cut + rest));
    var ops := Rasters(images);
    assert [] + ops == ops;
    WidestBounds(images, 0);
    assert images[0] == p.strips[0].img;
    var stripped := s.(buf := feed + (cut + rest), ops := ops, observed := Widest(images));
    FeedTurn(stripped, p.cut, cut + rest);
    RastersEnd(images);
    CutTurn(stripped.(buf := cut + rest, ops := ops + FeedGap(p.cut)), p.cut, rest);
  }

  lemma {:induction false} AllTurns(s: Interp, prints: seq<Print>)
    requires Clean(s) && s.buf == AllBytes(prints)
    requires forall i :: 0 <= i < |prints| ==> PrintOk(prints[i])
    ensures Drain(s) == (s.(buf := [], receipts := s.receipts + ReceiptsOf(prints)), [])
    decreases |prints|
  {
    if prints == [] {
      assert s.receipts + [] == s.receipts;
    } else {
      PrintTurns(s, prints[0], AllBytes(prints[1..]));
      var next := s.(buf := AllBytes(prints[1..]), receipts := s.receipts + [ReceiptOf(prints[0])]);
      AllTurns(next, prints[1..]);
      Associative(s.receipts, [ReceiptOf(prints[0])], ReceiptsOf(prints[1..]));
    }
  }

  // ----- what the viewer is shown ---------------------------------------

  /** The opaque part: a line of code-page text drawn on a canvas of the given width. */
  type Glyphs = (seq<byte>, Codec, Style, nat) -> seq<Row>

  const MARGIN: nat := 16

  function Blank(height: nat, width: nat): seq<Row> {
    seq(height, i => Whites(width))
  }

  function StripRows(op: Op, width: nat, glyphs: Glyphs): seq<Row> {
    match op
    case Raster(img) => FitRows(img.rows, width)
    case Gap(dots) => Blank(if dots < 1 then 1 else dots, width)
    case Text(chars, codec, style) => glyphs(chars, codec, style, width)
  }

  function Body(ops: seq<Op>, width: nat, glyphs: Glyphs): seq<Row> {
    if ops == [] then [] else StripRows(ops[0], width, glyphs) + Body(ops[1..], width, glyphs)
  }

  /** `_render`: the strips of a receipt between two margins. */
  method Render(receipt: Receipt, glyphs: Glyphs) returns (canvas: seq<Row>)
    ensures var width := receipt.width;
            canvas == Blank(16, width) + Body(receipt.ops, width, glyphs) + Blank(16, width)
  {
    var strips := Strips(receipt.ops, receipt.width, glyphs);
    var top := Blank(MARGIN, receipt.width);
    canvas := top;
    for i := 0 to |strips|
      invariant top + Concat(strips) == canvas + Concat(strips[i..])
    {
      assert strips[i..][1..] == strips[i + 1..];
      Associative(canvas, strips[i], Concat(strips[i + 1..]));
      canvas := canvas + strips[i];
    }
    assert canvas + [] == canvas;
    canvas := canvas + Blank(MARGIN, receipt.width);
  }

  method Strips(ops: seq<Op>, width: nat, glyphs: Glyphs) returns (strips: seq<seq<Row>>)
    ensures Concat(strips) == Body(ops, width, glyphs)
  {
    strips := [];
    assert [] + Body(ops, width, glyphs) == Body(ops, width, glyphs);
    for i := 0 to |ops|
      invariant Body(ops, width, glyphs) == Concat(strips) + Body(ops[i..], width, glyphs)
    {
      var strip := StripRows(ops[i], width, glyphs);
      ConcatAppend(strips, [strip]);
      ConcatOne(strip);
      assert ops[i..][1..] == ops[i + 1..];
      Associative(Concat(strips), strip, Body(ops[i + 1..], width, glyphs));
      strips := strips + [strip];
    }
    assert Concat(strips) + [] == Concat(strips);
  }

  lemma {:induction false} RasterBody(images: seq<Image>, tail: seq<Op>, width: nat, glyphs: Glyphs)
    ensures Body(Rasters(images) + tail, width, glyphs) == Stack(images, width) + Body(tail, width, glyphs)
    decreases |images|
  {
    if images == [] {
      assert [] + tail == tail;
      assert [] + Body(tail, width, glyphs) == Body(tail, width, glyphs);
    } else {
      var rest := Rasters(images[1..]) + tail;
      RasterBody(images[1..], tail, width, glyphs);
      Associative([Raster(images[0])], Rasters(images[1..]), tail);
      BodyCons(Raster(images[0]), rest, width, glyphs);
      Associative(FitRows(images[0].rows, width), Stack(images[1..], width), Body(tail, width, glyphs));
    }
  }

  lemma BodyCons(op: Op, rest: seq<Op>, width: nat, glyphs: Glyphs)
    ensures Body([op] + rest, width, glyphs) == StripRows(op, width, glyphs) + Body(rest, width, glyphs)
  {
    assert ([op] + rest)[1..] == rest;
  }

  function FeedRows(cut: Cut, width: nat): seq<Row> {
    match cut.feed
    case None => []
    case Some(n) => Blank(FeedDots(n), width)
  }

  /** End to end: any number of receipts, each a list of pictures with or without line feeds
      after them and a cut, in whatever chunks the network delivers them, come out as that
      many receipts, in order, each the stack of its pictures padded to its widest (plus the
      paper fed before the cut); nothing is answered and nothing stays buffered. */
  lemma ReceiptsArrive(defaultWidth: nat, prints: seq<Print>, chunks: seq<seq<byte>>, k: nat, glyphs: Glyphs)
    requires forall i :: 0 <= i < |prints| ==> PrintOk(prints[i])
    requires Concat(chunks) == AllBytes(prints)
    ensures var fed := FeedAll(Fresh(defaultWidth), chunks);
            && fed.reply == [] && fed.state == Fresh(defaultWidth).(receipts := fed.state.receipts)
            && |fed.state.receipts| == |prints|
            && (k < |prints| ==>
                  var r, images := fed.state.receipts[k], Pictures(prints[k].strips);
                  && r.width == Widest(images)
                  && Body(r.ops, r.width, glyphs) == Stack(images, r.width) + FeedRows(prints[k].cut, r.width))
  {
    var s := Fresh(defaultWidth);
    AnyChunks(s, chunks);
    assert s.buf + AllBytes(prints) == AllBytes(prints);
    AllTurns(s.(buf := AllBytes(prints)), prints);
    assert [] + ReceiptsOf(prints) == ReceiptsOf(prints);
    ReceiptsAt(prints, k);
    if k < |prints| {
      var p := prints[k];
      var images := Pictures(p.strips);
      RasterBody(images, FeedGap(p.cut), Widest(images), glyphs);
      GapBody(p.cut, Widest(images), glyphs);
    }
  }

  lemma GapBody(cut: Cut, width: nat, glyphs: Glyphs)
    ensures Body(FeedGap(cut), width, glyphs) == FeedRows(cut, width)
  {
    if cut.feed.Some? {
      var ops := FeedGap(cut);
      assert ops[1..] == [];
      assert FeedRows(cut, width) + [] == FeedRows(cut, width);
    }
  }

  lemma {:induction false} ReceiptsAt(prints: seq<Print>, k: nat)
    ensures |ReceiptsOf(prints)| == |prints|
    ensures k < |prints| ==> ReceiptsOf(prints)[k] == ReceiptOf(prints[k])
  {
    if prints != [] {
      ReceiptsAt(prints[1..], if k > 0 then k - 1 else 0);
    }
  }
}
