/** Status queries in the middle of everything: each is answered with its byte, in order, and
    changes nothing of what is printed. */
module EscPosQueries {
  import opened Images
  import opened Options
  import opened BitmapRender
  import opened EscPosPrinter
  import opened EscPosStream

  /** The bytes of exactly one command, not a status query. */
  predicate OneCommand(piece: seq<byte>) {
    piece != [] && CommandLength(piece) == |piece| && piece[0] != 0x10
  }

  /** `DLE EOT n` for each argument. */
  function Asking(arguments: seq<byte>): seq<byte> {
    if arguments == [] then [] else [0x10, 0x04, arguments[0]] + Asking(arguments[1..])
  }

  /** The pieces in their order, with the queries of `asked[i]` before the piece with that number
      and the last ones behind them all. */
  function Interleaved(pieces: seq<seq<byte>>, asked: seq<seq<byte>>): seq<byte>
    requires |asked| == |pieces| + 1
  {
    Asking(asked[0]) + if pieces == [] then [] else pieces[0] + Interleaved(pieces[1..], asked[1..])
  }

  function Count(asked: seq<seq<byte>>): nat {
    if asked == [] then 0 else |asked[0]| + Count(asked[1..])
  }

  /** So many bytes 18: online, paper adequate. */
  function Answers(n: nat): (r: seq<byte>)
    ensures |r| == n && forall i :: 0 <= i < n ==> r[i] == 18
  {
    seq(n, i => 18)
  }

  lemma AnswersAdd(a: nat, b: nat)
    ensures Answers(a) + Answers(b) == Answers(a + b)
  {
  }

  lemma QueryTurn(s: Interp, n: byte, rest: seq<byte>)
    requires s.buf == [0x10, 0x04, n] + rest
    ensures Drain(s) == (Drain(s.(buf := rest)).0, [18] + Drain(s.(buf := rest)).1)
  {
    var cmd: seq<byte> := [0x10, 0x04, n];
    assert s.buf[..3] == cmd && s.buf[3..] == rest;
    assert s.buf[0] == 0x10 && s.buf[1] == 0x04 && CommandLength(s.buf) == 3;
    assert Whole(cmd);
    DrainUnfolds(s, s.(buf := rest), [18]);
  }

  lemma {:induction false} QueriesTurn(s: Interp, arguments: seq<byte>, rest: seq<byte>)
    requires s.buf == Asking(arguments) + rest
    ensures Drain(s) == (Drain(s.(buf := rest)).0, Answers(|arguments|) + Drain(s.(buf := rest)).1)
    decreases |arguments|
  {
    if arguments == [] {
      assert [] + rest == rest;
      assert Answers(0) + Drain(s.(buf := rest)).1 == Drain(s.(buf := rest)).1;
    } else {
      var more := Asking(arguments[1..]) + rest;
      assert s.buf == [0x10, 0x04, arguments[0]] + more;
      QueryTurn(s, arguments[0], more);
      QueriesTurn(s.(buf := more), arguments[1..], rest);
      AnswersAdd(1, |arguments| - 1);
      assert Answers(1) == [18];
      Associative([18], Answers(|arguments| - 1), Drain(s.(buf := rest)).1);
    }
  }

  lemma CommandTurn(s: Interp, piece: seq<byte>, rest: seq<byte>)
    requires OneCommand(piece) && s.buf == piece + rest
    ensures Whole(piece) && Drain(s) == Drain(Effect(s, piece).(buf := rest))
  {
    LengthOfPrefix(piece, rest);
    assert s.buf[..|piece|] == piece && s.buf[|piece|..] == rest;
    SilentStep(s, Effect(s, piece).(buf := rest));
  }

  /** What a command does is the same whatever follows it. */
  lemma CommandBefore(s: Interp, piece: seq<byte>, more: seq<byte>, others: seq<byte>) returns (next: Interp)
    requires OneCommand(piece)
    ensures Drain(s.(buf := piece + more)) == Drain(next.(buf := more))
    ensures Drain(s.(buf := piece + others)) == Drain(next.(buf := others))
  {
    CommandTurn(s.(buf := piece + more), piece, more);
    CommandTurn(s.(buf := piece + others), piece, others);
    EffectIgnoresBuffer(s, piece + more, piece);
    EffectIgnoresBuffer(s, piece + others, piece);
    next := Effect(s, piece);
  }

  lemma CountFirst(asked: seq<seq<byte>>)
    requires asked != []
    ensures Answers(|asked[0]|) + Answers(Count(asked[1..])) == Answers(Count(asked))
    ensures |asked| == 1 ==> Count(asked[1..]) == 0
  {
    AnswersAdd(|asked[0]|, Count(asked[1..]));
  }

  /** Without queries the pieces are commands one after the other. */
  lemma {:induction false} QueriesOnlyAnswer(s: Interp, pieces: seq<seq<byte>>, asked: seq<seq<byte>>)
    requires |asked| == |pieces| + 1 && forall i :: 0 <= i < |pieces| ==> OneCommand(pieces[i])
    requires s.buf == Interleaved(pieces, asked)
    ensures Drain(s) == (Drain(s.(buf := Concat(pieces))).0, Answers(Count(asked)))
    ensures Drain(s.(buf := Concat(pieces))).1 == []
    decreases |pieces|
  {
    CountFirst(asked);
    if pieces == [] {
      QueriesTurn(s, asked[0], []);
    } else {
      var more, others := Interleaved(pieces[1..], asked[1..]), Concat(pieces[1..]);
      QueriesTurn(s, asked[0], pieces[0] + more);
      var next := CommandBefore(s, pieces[0], more, others);
      QueriesOnlyAnswer(next.(buf := more), pieces[1..], asked[1..]);
    }
  }

  // ----- receipts with queries in them --------------------------------------------------------

  function StripPieces(strips: seq<Strip>): seq<seq<byte>> {
    if strips == [] then []
    else [Encode(strips[0].img)] + ((if strips[0].lineFeed then [[LF]] else []) + StripPieces(strips[1..]))
  }

  function CutPieces(cut: Cut): seq<seq<byte>> {
    (if cut.feed.Some? then [FeedCommand(cut)] else []) + [CutCommand(cut)]
  }

  /** The commands receipts are printed with, one by one. */
  function Pieces(prints: seq<Print>): seq<seq<byte>> {
    if prints == [] then [] else (StripPieces(prints[0].strips) + CutPieces(prints[0].cut)) + Pieces(prints[1..])
  }

  predicate Commands(pieces: seq<seq<byte>>) {
    forall i :: 0 <= i < |pieces| ==> OneCommand(pieces[i])
  }

  lemma CommandsJoin(a: seq<seq<byte>>, b: seq<seq<byte>>)
    requires Commands(a) && Commands(b)
    ensures Commands(a + b)
  {
  }

  lemma EncodedIsOne(img: Image)
    requires Encodable(img)
    ensures OneCommand(Encode(img))
  {
    EncodedCommand(img, []);
    assert Encode(img) + [] == Encode(img);
    WordFits(img.bytesPerRow);
    WordFits(|img.rows|);
  }

  lemma {:induction false} StripsInPieces(strips: seq<Strip>)
    requires forall i :: 0 <= i < |strips| ==> Encodable(strips[i].img)
    ensures Concat(StripPieces(strips)) == StripBytes(strips) && Commands(StripPieces(strips))
  {
    if strips != [] {
      var rest := StripPieces(strips[1..]);
      var lf: seq<seq<byte>> := if strips[0].lineFeed then [[LF]] else [];
      StripsInPieces(strips[1..]);
      EncodedIsOne(strips[0].img);
      ConcatAppend([Encode(strips[0].img)], lf + rest);
      ConcatAppend(lf, rest);
      ConcatOne(Encode(strips[0].img));
      assert Concat(lf) == if strips[0].lineFeed then [LF] else [] by {
        if strips[0].lineFeed {
          ConcatOne([LF]);
        }
      }
    }
  }

  lemma CutInPieces(cut: Cut)
    ensures Concat(CutPieces(cut)) == FeedCommand(cut) + CutCommand(cut) && Commands(CutPieces(cut))
  {
    ConcatOne(CutCommand(cut));
    if cut.feed.Some? {
      ConcatOne(FeedCommand(cut));
      ConcatAppend([FeedCommand(cut)], [CutCommand(cut)]);
    } else {
      assert [] + [CutCommand(cut)] == [CutCommand(cut)] && [] + CutCommand(cut) == CutCommand(cut);
    }
  }

  lemma {:induction false} PrintsInPieces(prints: seq<Print>)
    requires forall i :: 0 <= i < |prints| ==> PrintOk(prints[i])
    ensures Concat(Pieces(prints)) == AllBytes(prints) && Commands(Pieces(prints))
  {
    if prints != [] {
      var strips, cut := StripPieces(prints[0].strips), CutPieces(prints[0].cut);
      StripsInPieces(prints[0].strips);
      CutInPieces(prints[0].cut);
      PrintsInPieces(prints[1..]);
      ConcatAppend(strips, cut);
      ConcatAppend(strips + cut, Pieces(prints[1..]));
      CommandsJoin(strips, cut);
      CommandsJoin(strips + cut, Pieces(prints[1..]));
    }
  }

  /** Whatever status queries stand before, between and inside the receipts, and however the
      network cuts the stream: each query is answered with a byte 18, nothing else is, and the
      receipts are those of the stream without them. */
  lemma QueriesAreAnswered(
    defaultWidth: nat, prints: seq<Print>, asked: seq<seq<byte>>, chunks: seq<seq<byte>>, k: nat, glyphs: Glyphs)
    requires forall i :: 0 <= i < |prints| ==> PrintOk(prints[i])
    requires |asked| == |Pieces(prints)| + 1 && Concat(chunks) == Interleaved(Pieces(prints), asked)
    ensures var fed := FeedAll(Fresh(defaultWidth), chunks);
            && |fed.reply| == Count(asked) && (forall i :: 0 <= i < |fed.reply| ==> fed.reply[i] == 18)
            && fed.state == Fresh(defaultWidth).(receipts := fed.state.receipts)
            && |fed.state.receipts| == |prints|
            && (k < |prints| ==>
                  var r, images := fed.state.receipts[k], Pictures(prints[k].strips);
                  && r.width == Widest(images)
                  && Body(r.ops, r.width, glyphs) == Stack(images, r.width) + FeedRows(prints[k].cut, r.width))
  {
    var s, data := Fresh(defaultWidth), Interleaved(Pieces(prints), asked);
    PrintsInPieces(prints);
    AnyChunks(s, chunks);
    assert s.buf + data == data;
    QueriesOnlyAnswer(s.(buf := data), Pieces(prints), asked);
    ReceiptsArrive(defaultWidth, prints, [AllBytes(prints)], k, glyphs);
    ConcatOne(AllBytes(prints));
    AnyChunks(s, [AllBytes(prints)]);
    assert s.buf + AllBytes(prints) == AllBytes(prints);
  }

  // ----- bytes as they are -----------------------------------------------------------------------

  /** A picture on the wire: `GS v 0`, its two sizes with the low byte first, then its rows with
      every bit turned over, black being a set bit there. */
  lemma EncodedBytes(img: Image, k: nat)
    requires WellFormed(img) && k < |Pixels(img)|
    ensures var b, w, h := Encode(img), img.bytesPerRow, |img.rows|;
            && |b| == 8 + |Pixels(img)|
            && b[..8] == [29, 118, 48, 0, w % 256, w / 256 % 256, h % 256, h / 256 % 256]
            && b[8 + k] == 255 - Pixels(img)[k]
  {
  }

  /** Paper fed before a cut: six dots a line and at least one line. */
  lemma FeedIsWhite(cut: Cut, width: nat)
    ensures cut.feed.None? ==> FeedRows(cut, width) == []
    ensures cut.feed.Some? ==>
              var n: int := cut.feed.value;
              && |FeedRows(cut, width)| == 6 * (if n < 1 then 1 else n)
              && forall i, j :: 0 <= i < |FeedRows(cut, width)| && 0 <= j < width ==> FeedRows(cut, width)[i][j] == 255
  {
  }
}
