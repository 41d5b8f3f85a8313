/** Status queries between the print jobs of a label printer: each is answered with its byte, and
    the labels are those of the jobs. */
module TsplQueries {
  import opened Images
  import opened Options
  import opened Numerals
  import opened TsplRender
  import opened TsplPrinter
  import opened TsplStream
  import opened TsplRoundTrip

  /** What a manager sends: `DLE EOT n`, or the job of one canvas on paper of that width. */
  datatype Part = Query(n: byte) | Ribbon(canvas: Image, paperMm: nat)

  function Bytes(parts: seq<Part>): seq<byte> {
    if parts == [] then []
    else
      (match parts[0]
       case Query(n) => [0x10, 0x04, n]
       case Ribbon(canvas, paperMm) => RibbonJob(canvas, paperMm)) + Bytes(parts[1..])
  }

  function CanvasesOf(parts: seq<Part>): seq<Image> {
    if parts == [] then []
    else (if parts[0].Ribbon? then [parts[0].canvas] else []) + CanvasesOf(parts[1..])
  }

  function QueriesIn(parts: seq<Part>): nat {
    if parts == [] then 0 else (if parts[0].Query? then 1 else 0) + QueriesIn(parts[1..])
  }

  ghost predicate PartsOk(parts: seq<Part>) {
    forall i :: 0 <= i < |parts| && parts[i].Ribbon? ==> Printable(parts[i].canvas) && IsFinite(parts[i].paperMm)
  }

  /** All of them bytes 18. */
  ghost predicate Online(reply: seq<byte>) {
    forall i :: 0 <= i < |reply| ==> reply[i] == 18
  }

  lemma QueryTurn(s: Interp, n: byte, rest: seq<byte>)
    requires !s.dead && s.mode.Commands? && s.buf == [0x10, 0x04, n] + rest
    ensures Drain(s).0 == Drain(s.(buf := rest)).0 && Drain(s).1 == [18] + Drain(s.(buf := rest)).1
  {
    assert s.buf[0] == 0x10 && s.buf[1] == 0x04 && s.buf[3..] == rest;
    assert Step(s) == Advance(s.(buf := rest), [18]);
  }

  lemma OneMoreReply(reply: seq<byte>)
    requires Online(reply)
    ensures Online([18] + reply)
  {
  }

  ghost predicate Ready(s: Interp) {
    !s.dead && s.mode.Commands? && s.current.None?
  }

  lemma {:induction false} PartsTurn(s: Interp, parts: seq<Part>)
    requires Ready(s) && PartsOk(parts) && s.buf == Bytes(parts)
    ensures var (last, reply) := Drain(s);
            && Ready(last) && last.buf == [] && last.labels == s.labels + CanvasesOf(parts)
            && |reply| == QueriesIn(parts) && Online(reply)
    decreases |parts|
  {
    if parts != [] {
      var rest := Bytes(parts[1..]);
      if parts[0].Query? {
        QueryTurn(s, parts[0].n, rest);
        PartsTurn(s.(buf := rest), parts[1..]);
        OneMoreReply(Drain(s.(buf := rest)).1);
        assert [] + CanvasesOf(parts[1..]) == CanvasesOf(parts[1..]);
      } else {
        var canvas := parts[0].canvas;
        RibbonTurns(s, canvas, parts[0].paperMm, rest);
        PartsTurn(AfterRibbon(s, canvas, parts[0].paperMm, rest), parts[1..]);
        Associative(s.labels, [canvas], CanvasesOf(parts[1..]));
      }
    }
  }

  /** However the network cuts the stream: one label for each job, in their order, and one byte 18
      for each query. */
  lemma QueriesAreAnswered(parts: seq<Part>, chunks: seq<seq<byte>>)
    requires PartsOk(parts) && Concat(chunks) == Bytes(parts)
    ensures var fed := FeedAll(FRESH, chunks);
            && !fed.state.dead && fed.state.buf == [] && fed.state.current.None?
            && fed.state.labels == CanvasesOf(parts)
            && |fed.reply| == QueriesIn(parts) && forall i :: 0 <= i < |fed.reply| ==> fed.reply[i] == 18
  {
    var data := Bytes(parts);
    PartsTurn(FRESH.(buf := data), parts);
    Delivered(data, chunks);
    assert FRESH.labels + CanvasesOf(parts) == CanvasesOf(parts);
  }

  /** Whatever bytes come, from whatever state, nothing is ever answered but bytes 18. */
  lemma {:induction false} NothingElseIsAnswered(s: Interp)
    ensures Online(Drain(s).1)
    decreases Rank(s)
  {
    StepShrinks(s);
    if Step(s).Advance? {
      NothingElseIsAnswered(Step(s).next);
      var reply, more := Step(s).reply, Drain(Step(s).next).1;
      assert Drain(s).1 == reply + more;
      assert reply == [] || reply == [18];
    }
  }
}
