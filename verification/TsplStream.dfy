/** What the label interpreter makes of a byte stream does not depend on how the network
    cut it, and what the manager prints is what the interpreter shows. */
module TsplStream {
  import opened Images
  import opened Options
  import opened Numerals
  import opened TsplRender
  import opened TsplPrinter
  import opened TsplPages

  // ----- chunking -------------------------------------------------------

  function More(s: Interp, data: seq<byte>): Interp {
    if s.dead then s else s.(buf := s.buf + data)
  }

  lemma {:induction false} FindStable(s: seq<byte>, b: byte, from: nat, data: seq<byte>)
    requires from <= |s| && Find(s, b, from) < |s|
    ensures Find(s + data, b, from) == Find(s, b, from)
    decreases |s| - from
  {
    if s[from] != b {
      FindStable(s, b, from + 1, data);
    }
  }

  lemma {:induction false} CommasStable(s: seq<byte>, from: nat, limit: nat, data: seq<byte>)
    requires from <= |s| && |Commas(s, from, limit)| == limit
    ensures Commas(s + data, from, limit) == Commas(s, from, limit)
    decreases |s| - from
  {
    if limit > 0 {
      CommasStable(s, from + 1, if s[from] == COMMA then limit - 1 else limit, data);
    }
  }

  lemma SliceStable(s: seq<byte>, i: nat, j: nat, data: seq<byte>)
    requires i <= j <= |s|
    ensures (s + data)[i..j] == s[i..j]
  {
  }

  lemma HeaderStable(s: seq<byte>, data: seq<byte>)
    requires !ReadHeader(s).Partial?
    ensures ReadHeader(s + data) == ReadHeader(s)
  {
    CommasStable(s, 0, 5, data);
    HeaderAtStable(s, Commas(s, 0, 5), data);
  }

  lemma HeaderAtStable(s: seq<byte>, at: seq<nat>, data: seq<byte>)
    requires |at| == 5 && at[1] < at[2] < at[3] < at[4] < |s|
    ensures HeaderAt(s + data, at) == HeaderAt(s, at)
  {
    SliceStable(s, at[1] + 1, at[2], data);
    SliceStable(s, at[2] + 1, at[3], data);
  }

  lemma DropStable(s: seq<byte>, n: nat, data: seq<byte>)
    requires n <= |s|
    ensures (s + data)[n..] == s[n..] + data && (s + data)[..n] == s[..n]
  {
  }

  lemma BitmapStable(s: Interp, data: seq<byte>)
    requires !s.dead && s.mode.Bitmap? && TakeBitmap(s).Advance?
    ensures TakeBitmap(More(s, data)) == Advance(More(TakeBitmap(s).next, data), [])
  {
    PayloadSize(s.bytesPerRow, s.height);
    if 0 <= s.need {
      DropStable(s.buf, s.need, data);
    }
  }

  lemma HeadStable(s: Interp, data: seq<byte>)
    requires !s.dead && StartBitmap(s).Advance?
    ensures StartBitmap(More(s, data)) == Advance(More(StartBitmap(s).next, data), [])
  {
    HeaderStable(s.buf, data);
    DropStable(s.buf, ReadHeader(s.buf).used, data);
  }

  lemma ControlStable(s: Interp, data: seq<byte>)
    requires s.mode.Commands? && Step(s).Advance?
    requires s.buf[0] == DLE || s.buf[0] == 13 || s.buf[0] == LF
    ensures Step(More(s, data)) == Advance(More(Step(s).next, data), Step(s).reply)
  {
    DropStable(s.buf, 1, data);
    if |s.buf| >= 3 {
      DropStable(s.buf, 3, data);
    }
  }

  lemma TextStable(s: Interp, data: seq<byte>)
    requires s.mode.Commands? && Step(s).Advance?
    requires s.buf[0] != DLE && s.buf[0] != 13 && s.buf[0] != LF
    requires !StartsWith(s.buf, BITMAP) && !StartsWith(s.buf + data, BITMAP)
    ensures Step(More(s, data)) == Advance(More(Step(s).next, data), Step(s).reply)
  {
    FindStable(s.buf, LF, 0, data);
    var i := Find(s.buf, LF, 0);
    DropStable(s.buf, i, data);
    DropStable(s.buf, i + 1, data);
    LineStable(s.(buf := s.buf[i + 1..]), s.buf[..i], data);
  }

  lemma LineStable(s: Interp, line: seq<byte>, data: seq<byte>)
    ensures HandleLine(More(s, data), line) == More(HandleLine(s, line), data)
  {
  }

  /** A command that is all there is read the same way whatever follows it. */
  lemma StepStable(s: Interp, data: seq<byte>)
    requires Step(s).Advance?
    ensures Step(More(s, data)) == Advance(More(Step(s).next, data), Step(s).reply)
  {
    if s.mode.Bitmap? {
      BitmapStable(s, data);
    } else if s.buf[0] == DLE || s.buf[0] == 13 || s.buf[0] == LF {
      ControlStable(s, data);
    } else {
      PrefixStable(s.buf, data);
      if StartsWith(s.buf, BITMAP) {
        HeadStable(s, data);
      } else {
        TextStable(s, data);
      }
    }
  }

  /** With a line end in the buffer, or six bytes, it is settled whether BITMAP stands there. */
  lemma PrefixStable(buf: seq<byte>, data: seq<byte>)
    requires StartsWith(buf, BITMAP) || Find(buf, LF, 0) < |buf|
    ensures StartsWith(buf + data, BITMAP) <==> StartsWith(buf, BITMAP)
  {
    var both := buf + data;
    assert forall k :: 0 <= k < |buf| ==> both[k] == buf[k];
    var i := Find(buf, LF, 0);
    if |buf| < |BITMAP| && i < |buf| {
      assert Upper(both[i]) == LF != BITMAP[i];
    }
  }

  lemma {:induction false} DrainMore(s: Interp, data: seq<byte>)
    ensures var (mid, r1) := Drain(s);
            var (last, r2) := Drain(More(mid, data));
            Drain(More(s, data)) == (last, r1 + r2)
    decreases Rank(s)
  {
    StepShrinks(s);
    match Step(s)
    case Wait =>
      assert [] + Drain(More(s, data)).1 == Drain(More(s, data)).1;
    case Advance(next, reply) =>
      StepStable(s, data);
      StepShrinks(More(s, data));
      DrainMore(next, data);
      var (mid, r1) := Drain(next);
      Associative(reply, r1, Drain(More(mid, data)).1);
  }

  lemma DrainDead(s: Interp)
    requires s.dead
    ensures Drain(s) == (s, [])
  {
  }

  // ----- when a connection dies -------------------------------------------

  /** Where a reader of the raw bytes stands: between commands, with or without an empty
      picture waiting for its PRINT, or before the payload of a header with these sizes. */
  datatype Where = Between(empty: bool) | Before(width: int, height: int)

  /** What the bytes to come hold for the connection: whether they kill it, and how many
      status queries are met until then. */
  datatype Outlook = Outlook(dies: bool, queries: nat)

  predicate IsPrint(line: seq<byte>) {
    !StartsWith(Strip(line), SIZE) && StartsWith(Strip(line), PRINT)
  }

  /** Reads the bytes without building a picture, a label or a reply. */
  function Foretell(w: Where, b: seq<byte>): Outlook
    decreases |b|, if w.Before? then 1 else 0
  {
    if w.Before? then
      PayloadSize(w.width, w.height);
      if |b| < w.width * w.height then Outlook(false, 0)
      else if Refused(w.width, w.height) then Outlook(true, 0)
      else Foretell(Between(w.width == 0 || w.height == 0), b[w.width * w.height..])
    else if b == [] then Outlook(false, 0)
    else if b[0] == DLE then
      if |b| < 3 then Outlook(false, 0)
      else if b[1] == EOT then
        var rest := Foretell(w, b[3..]);
        Outlook(rest.dies, rest.queries + 1)
      else Foretell(w, b[1..])
    else if b[0] == 13 || b[0] == LF then Foretell(w, b[1..])
    else if StartsWith(b, BITMAP) then
      match ReadHeader(b)
      case Partial => Outlook(false, 0)
      case Malformed(used) => Foretell(w, b[used..])
      case Numbers(used, width, height) => Foretell(Before(width, height), b[used..])
    else
      var i := Find(b, LF, 0);
      if i == |b| then Outlook(false, 0)
      else if Chokes(b[..i]) then Outlook(true, 0)
      else if !IsPrint(b[..i]) then Foretell(w, b[i + 1..])
      else if w.empty then Outlook(true, 0)
      else Foretell(w, b[i + 1..])
  }

  predicate EmptyPicture(current: Option<Image>) {
    current.Some? && (current.value.bytesPerRow == 0 || |current.value.rows| == 0)
  }

  function WhereOf(s: Interp): Where {
    if s.mode.Bitmap? then Before(s.bytesPerRow, s.height) else Between(EmptyPicture(s.current))
  }

  /** What feeding these bytes to the interpreter will do to its connection. */
  function Fate(s: Interp, data: seq<byte>): Outlook {
    Foretell(WhereOf(s), s.buf + data)
  }

  /** A whole text line stands next. */
  predicate LineNext(s: Interp) {
    && s.mode.Commands? && s.buf != [] && s.buf[0] != DLE && s.buf[0] != 13 && s.buf[0] != LF
    && !StartsWith(s.buf, BITMAP) && Find(s.buf, LF, 0) < |s.buf|
  }

  /** The turns that kill: a payload has arrived of sizes no picture can have, a SIZE line holds
      an infinite number or a PRINT line too long a count, or a PRINT finds an empty picture. */
  predicate FatalTurn(s: Interp) {
    if s.mode.Bitmap? then |s.buf| >= s.need && Refused(s.bytesPerRow, s.height)
    else
      && LineNext(s)
      && var line := s.buf[..Find(s.buf, LF, 0)];
         Chokes(line) || (IsPrint(line) && EmptyPicture(s.current))
  }

  lemma TurnKillsExactly(s: Interp)
    requires !s.dead
    ensures Step(s).Advance? && Step(s).next.dead <==> FatalTurn(s)
  {
    PayloadSize(s.bytesPerRow, s.height);
  }

  /** One turn of a live connection, as the reader of raw bytes sees it. */
  lemma ForetellTurn(s: Interp)
    requires !s.dead && Step(s).Advance? && !FatalTurn(s)
    ensures var rest := Foretell(WhereOf(Step(s).next), Step(s).next.buf);
            Foretell(WhereOf(s), s.buf) == Outlook(rest.dies, |Step(s).reply| + rest.queries)
  {
    if s.mode.Bitmap? {
      ForetellPayload(s);
    } else if s.buf[0] == DLE || s.buf[0] == 13 || s.buf[0] == LF {
    } else if StartsWith(s.buf, BITMAP) {
      ForetellHeader(s);
    } else {
      ForetellLine(s);
    }
  }

  lemma ForetellPayload(s: Interp)
    requires !s.dead && s.mode.Bitmap? && Step(s).Advance? && !FatalTurn(s)
    ensures var next := Step(s).next; Step(s).reply == [] && Foretell(WhereOf(s), s.buf) == Foretell(WhereOf(next), next.buf)
  {
    PayloadSize(s.bytesPerRow, s.height);
  }

  lemma ForetellHeader(s: Interp)
    requires !s.dead && s.mode.Commands? && StartsWith(s.buf, BITMAP) && Step(s).Advance?
    requires s.buf[0] != DLE && s.buf[0] != 13 && s.buf[0] != LF
    ensures var next := Step(s).next; Step(s).reply == [] && Foretell(WhereOf(s), s.buf) == Foretell(WhereOf(next), next.buf)
  {
  }

  lemma ForetellLine(s: Interp)
    requires !s.dead && s.mode.Commands? && Step(s).Advance? && !FatalTurn(s) && !StartsWith(s.buf, BITMAP)
    requires s.buf[0] != DLE && s.buf[0] != 13 && s.buf[0] != LF
    ensures var next := Step(s).next; Step(s).reply == [] && Foretell(WhereOf(s), s.buf) == Foretell(WhereOf(next), next.buf)
  {
  }

  /** The bytes tell beforehand whether the connection dies on them, and how much is answered. */
  lemma {:induction false} ForetoldExactly(s: Interp)
    requires !s.dead
    ensures var o := Foretell(WhereOf(s), s.buf); Drain(s).0.dead == o.dies && |Drain(s).1| == o.queries
    decreases Rank(s)
  {
    StepShrinks(s);
    TurnKillsExactly(s);
    if FatalTurn(s) {
      ForetellFatal(s);
    } else if Step(s).Advance? {
      ForetellTurn(s);
      ForetoldExactly(Step(s).next);
    } else {
      ForetellWait(s);
    }
  }

  lemma ForetellFatal(s: Interp)
    requires !s.dead && FatalTurn(s)
    ensures Foretell(WhereOf(s), s.buf) == Outlook(true, 0)
    ensures Drain(s).0.dead && Drain(s).1 == []
  {
    TurnKillsExactly(s);
    DrainDead(Step(s).next);
  }

  lemma ForetellWait(s: Interp)
    requires !s.dead && Step(s) == Wait
    ensures Foretell(WhereOf(s), s.buf) == Outlook(false, 0)
  {
  }

  /** A delivery kills a live connection exactly when its bytes say so, and is answered exactly
      when they do not and hold a query. */
  lemma DiesExactly(s: Interp, data: seq<byte>)
    requires !s.dead
    ensures FeedBytes(s, data).state.dead <==> Fate(s, data).dies
    ensures FeedBytes(s, data).reply != [] <==> !Fate(s, data).dies && Fate(s, data).queries > 0
  {
    ForetoldExactly(s.(buf := s.buf + data));
  }

  // ----- streams without impossible sizes -----------------------------------

  /** Wherever a BITMAP header stands in the bytes, both its sizes are positive and possible. */
  predicate PositiveSizes(b: seq<byte>) {
    forall i :: 0 <= i <= |b| ==> PositiveHeader(b[i..])
  }

  predicate PositiveHeader(b: seq<byte>) {
    StartsWith(b, BITMAP) && ReadHeader(b).Numbers? ==> Possible(ReadHeader(b).bytesPerRow, ReadHeader(b).height)
  }

  /** Nowhere in the bytes does a text start that, read up to its line end, is a SIZE line with
      an infinite number or a PRINT line with too long a count. */
  predicate CalmLines(b: seq<byte>) {
    forall i :: 0 <= i <= |b| ==> CalmLine(b[i..])
  }

  predicate CalmLine(b: seq<byte>) {
    Find(b, LF, 0) < |b| ==> !Chokes(b[..Find(b, LF, 0)])
  }

  /** Nothing impossible is under way. */
  predicate SoundWhere(w: Where) {
    if w.Before? then Possible(w.width, w.height) else !w.empty
  }

  lemma PositiveTail(b: seq<byte>, n: nat)
    requires PositiveSizes(b) && CalmLines(b) && n <= |b|
    ensures PositiveSizes(b[n..]) && CalmLines(b[n..])
  {
    forall i | 0 <= i <= |b[n..]|
      ensures PositiveHeader(b[n..][i..]) && CalmLine(b[n..][i..])
    {
      assert b[n..][i..] == b[n + i..];
    }
  }

  /** Such streams kill no connection. */
  lemma {:induction false} PositiveSizesLive(w: Where, b: seq<byte>)
    requires PositiveSizes(b) && CalmLines(b) && SoundWhere(w)
    ensures !Foretell(w, b).dies
    decreases |b|, if w.Before? then 2 else 1
  {
    if w.Before? {
      PayloadSize(w.width, w.height);
      var n := w.width * w.height;
      if n <= |b| {
        PositiveTail(b, n);
        PositiveSizesLive(Between(false), b[n..]);
      }
    } else if b != [] {
      PositiveStep(w, b);
    }
  }

  lemma {:induction false} PositiveStep(w: Where, b: seq<byte>)
    requires PositiveSizes(b) && CalmLines(b) && SoundWhere(w) && w.Between? && b != []
    ensures !Foretell(w, b).dies
    decreases |b|, 0
  {
    if b[0] == DLE || b[0] == 13 || b[0] == LF {
      PositiveTail(b, 1);
      PositiveSizesLive(w, b[1..]);
      if |b| >= 3 {
        PositiveTail(b, 3);
        PositiveSizesLive(w, b[3..]);
      }
    } else if StartsWith(b, BITMAP) {
      var header := ReadHeader(b);
      assert b[0..] == b && PositiveHeader(b[0..]);
      if !header.Partial? {
        PositiveTail(b, header.used);
        PositiveSizesLive(if header.Numbers? then Before(header.bytesPerRow, header.height) else w, b[header.used..]);
      }
    } else {
      var i := Find(b, LF, 0);
      assert b[0..] == b && CalmLine(b[0..]);
      if i < |b| {
        PositiveTail(b, i + 1);
        PositiveSizesLive(w, b[i + 1..]);
      }
    }
  }

  // ----- two deliveries against one ---------------------------------------------

  /** The finished labels and the whole final state are the same for every stream and every
      cut. The replies are the same too, unless the bytes together kill the connection while
      the first delivery alone would not and holds a query: the exception takes the replies
      of its own `feed` call with it, so it matters what had been sent before. */
  lemma ChunkingInvariance(s: Interp, a: seq<byte>, b: seq<byte>)
    ensures var first := FeedBytes(s, a);
            var second := FeedBytes(first.state, b);
            var whole := FeedBytes(s, a + b);
            && second.state == whole.state
            && (first.reply + second.reply == whole.reply
                <==> s.dead || !(Fate(s, a + b).dies && !Fate(s, a).dies && Fate(s, a).queries > 0))
  {
    if !s.dead {
      var fed := s.(buf := s.buf + a);
      assert fed.buf + b == s.buf + (a + b);
      DrainMore(fed, b);
      var mid := Drain(fed).0;
      if mid.dead { DrainDead(mid); }
      DiesExactly(s, a);
      DiesExactly(s, a + b);
    }
  }

  /** For every byte string with possible raster sizes and no such line, two deliveries are as
      good as one. */
  lemma PositiveSizesInvariance(s: Interp, a: seq<byte>, b: seq<byte>)
    requires SoundWhere(WhereOf(s)) && PositiveSizes(s.buf + (a + b)) && CalmLines(s.buf + (a + b))
    ensures var first := FeedBytes(s, a);
            var second := FeedBytes(first.state, b);
            FeedBytes(s, a + b) == Fed(second.state, first.reply + second.reply)
    ensures !s.dead ==> !FeedBytes(s, a + b).state.dead
  {
    PositiveSizesLive(WhereOf(s), s.buf + (a + b));
    ChunkingInvariance(s, a, b);
    if !s.dead {
      DiesExactly(s, a + b);
    }
  }

  /** A status query in a delivery of its own is answered; in one delivery with bytes that
      kill the connection it is not. */
  lemma LostWithWhatFollows(b: seq<byte>)
    requires Drain(FRESH.(buf := b)).0.dead
    ensures FeedBytes(FRESH, QUERY) == Fed(FRESH, STATUS_OK)
    ensures FeedBytes(FRESH, QUERY + b).state.dead && FeedBytes(FRESH, QUERY + b).reply == []
  {
    var queried := FRESH.(buf := QUERY);
    assert [] + QUERY == QUERY && QUERY[3..] == [];
    assert Step(queried) == Advance(FRESH, STATUS_OK);
    assert Drain(FRESH) == (FRESH, []);
    assert FRESH.buf + b == b;
    ChunkingInvariance(FRESH, QUERY, b);
  }

  /** The reply that is lost, with a negative picture width. */
  lemma LostReply()
    ensures FeedBytes(FRESH, QUERY) == Fed(FRESH, STATUS_OK)
    ensures FeedBytes(FRESH, QUERY + NEGATIVE).state.dead && FeedBytes(FRESH, QUERY + NEGATIVE).reply == []
  {
    NegativeDies(NEGATIVE);
    LostWithWhatFollows(NEGATIVE);
  }

  const QUERY: seq<byte> := [DLE, EOT, 1]
  const NEGATIVE: seq<byte> := [66, 73, 84, 77, 65, 80, 44, 44, 45, 49, 44, 49, 44, 44]

  lemma NegativeDies(b: seq<byte>)
    requires b == NEGATIVE
    ensures Drain(FRESH.(buf := b)).0.dead
  {
    NegativeHeader(b);
    BitmapPrefix(b);
    NegativeWidthDies(FRESH.(buf := b), 14);
  }

  lemma BitmapPrefix(b: seq<byte>)
    requires BITMAP <= b
    ensures StartsWith(b, BITMAP)
  {
    assert b == BITMAP + b[6..];
    assert b[0] == 66 && b[1] == 73 && b[2] == 84 && b[3] == 77 && b[4] == 65 && b[5] == 80;
  }

  lemma NegativeWidthDies(s: Interp, used: nat)
    requires !s.dead && s.mode.Commands? && StartsWith(s.buf, BITMAP)
    requires ReadHeader(s.buf) == Numbers(used, -1, 1)
    ensures Drain(s).0.dead
  {
    var header := StartBitmap(s).next;
    assert s.buf[0] == 66 || s.buf[0] == 98;
    assert Step(s) == Advance(header, []);
    assert Step(header) == Advance(Die(header), []);
    DrainDead(Die(header));
  }

  lemma NegativeHeader(b: seq<byte>)
    requires b == NEGATIVE
    ensures ReadHeader(b) == Numbers(14, -1, 1)
  {
    LastCommas(b);
    NegativeCommas(b);
    MinusOne(b[8..10]);
    One(b[11..12]);
  }

  lemma LastCommas(b: seq<byte>)
    requires b == NEGATIVE
    ensures Commas(b, 10, 3) == [10, 12, 13]
  {
    assert Commas(b, 13, 1) == [13];
    assert Commas(b, 12, 2) == [12] + [13];
    assert Commas(b, 11, 2) == [12, 13];
    assert Commas(b, 10, 3) == [10] + [12, 13];
  }

  lemma NegativeCommas(b: seq<byte>)
    requires b == NEGATIVE && Commas(b, 10, 3) == [10, 12, 13]
    ensures Commas(b, 0, 5) == [6, 7, 10, 12, 13]
  {
    assert Commas(b, 9, 3) == Commas(b, 8, 3) == [10, 12, 13];
    assert Commas(b, 7, 4) == [7] + [10, 12, 13];
    assert Commas(b, 6, 5) == [6] + [7, 10, 12, 13];
    assert Commas(b, 5, 5) == Commas(b, 4, 5) == Commas(b, 3, 5);
    assert Commas(b, 2, 5) == Commas(b, 1, 5) == Commas(b, 0, 5);
  }

  lemma One(t: seq<byte>)
    requires t == [49]
    ensures IntValue(t) == Some(1)
  {
    assert Trimmed(t) == t && Unsigned(t) == t;
    CountOfDigits(t);
  }

  lemma MinusOne(t: seq<byte>)
    requires t == [45, 49]
    ensures IntValue(t) == Some(-1)
  {
    assert Trimmed(t) == t;
    assert t[1..] == [49] == Unsigned(t);
    CountOfDigits([49]);
    assert DigitsValue(t[1..]) == Some(1);
  }

  const INFINITE: seq<byte> := [83, 73, 90, 69, 32, 105, 110, 102, 44, 49, 10]

  /** No header is needed for it: `SIZE inf,1` takes the reply with it just as well. */
  lemma LostReplyBySize(b: seq<byte>)
    requires b == INFINITE
    ensures FeedBytes(FRESH, QUERY).reply == STATUS_OK
    ensures FeedBytes(FRESH, QUERY + b).state.dead && FeedBytes(FRESH, QUERY + b).reply == []
  {
    InfiniteSizeDies(b);
    LostWithWhatFollows(b);
  }

  lemma NoHeaderBeforeIt(b: seq<byte>)
    requires b == QUERY + INFINITE
    ensures PositiveSizes(b)
  {
    NoHeader(b);
  }

  lemma NoHeader(b: seq<byte>)
    requires forall i :: 0 <= i < |b| ==> Upper(b[i]) != BITMAP[0]
    ensures PositiveSizes(b)
  {
    forall i | 0 <= i <= |b|
      ensures PositiveHeader(b[i..])
    {
      if i < |b| {
        assert b[i..][0] == b[i];
      }
    }
  }

  lemma InfiniteSizeDies(b: seq<byte>)
    requires b == INFINITE
    ensures Drain(FRESH.(buf := b)).0.dead
  {
    var s, line := FRESH.(buf := b), b[..10];
    FindFirst(b, LF, 0, 10);
    InfiniteSize(line);
    assert Upper(b[0]) != BITMAP[0];
    assert Step(s) == Advance(Die(s.(buf := b[11..])), []);
    DrainDead(Die(s.(buf := b[11..])));
  }

  lemma InfiniteSize(line: seq<byte>)
    requires line == INFINITE[..10]
    ensures Chokes(line)
  {
    assert StripLeft(line) == line && StripRight(line) == line;
    assert StartsWith(line, SIZE);
    var body := line[4..];
    assert body == [32, 105, 110, 102, 44, 49];
    BlankedKeeps(body, [], 109);
    BlankedKeeps(body, [], 77);
    assert body + [] == body && Blanked([], 109) == [] && Blanked([], 77) == [];
    FindFirst(body, COMMA, 0, 4);
    NotFound(body, COMMA, 5);
    InfiniteWord(body[..4]);
  }

  lemma InfiniteWord(word: seq<byte>)
    requires word == [32, 105, 110, 102]
    ensures ReadFloat(Strip(word)) == Infinite
  {
    assert word[1..] == INF;
    assert StripLeft(word) == StripLeft(INF) == INF && StripRight(INF) == INF;
    assert IsWord(Unsigned(INF), INF);
  }

  /** A number need not be written as infinity to be read as it. */
  lemma LargeIsInfinite(t: seq<byte>)
    requires t == [49, 101, 57, 57, 57]
    ensures ReadFloat(t) == Infinite
  {
    FindFirst(t, 101, 0, 1);
    NotFound(t, 69, 0);
    var one, nines := t[..1], t[2..];
    assert one == [49] && nines == [57, 57, 57] && Unsigned(t) == t;
    NotFound(one, 46, 0);
    assert ReadMantissa(one) == Some(Mantissa(1, 0));
    NineNineNine(nines);
    LargePower(999, DOUBLE_BITS);
    assert ReadDecimal(t, DOUBLE_BITS) == Infinite;
  }

  lemma NineNineNine(s: seq<byte>)
    requires s == [57, 57, 57]
    ensures SignedValue(s) == Some(999)
  {
    assert s[..2] == [57, 57] && s[..2][..1] == [57];
    assert DigitsValue([57]) == Some(9);
    assert DigitsValue(s[..2]) == Some(99);
  }

  lemma LargePower(n: nat, bits: nat)
    requires 54 <= bits <= 3 * n
    ensures Overflows(1, n, bits)
  {
    TenBeatsEight(n);
    PowersGrow(2, bits, 3 * n);
    PowerPositive(2, bits - 54);
    assert 1 * Power(10, n) == Power(10, n);
  }

  lemma {:induction false} TenBeatsEight(n: nat)
    ensures Power(2, 3 * n) <= Power(10, n)
  {
    if n > 0 {
      TenBeatsEight(n - 1);
      assert Power(2, 3 * n) == 2 * Power(2, 3 * n - 1) && Power(2, 3 * n - 1) == 2 * Power(2, 3 * n - 2);
      assert Power(2, 3 * n - 2) == 2 * Power(2, 3 * (n - 1));
    }
  }

  lemma {:induction false} BlankedKeeps(s: seq<byte>, rest: seq<byte>, letter: byte)
    requires forall i :: 0 <= i < |s| ==> s[i] != letter
    ensures Blanked(s + rest, letter) == s + Blanked(rest, letter)
  {
    if s == [] {
      assert s + rest == rest;
    } else {
      assert (s + rest)[1..] == s[1..] + rest;
      BlankedKeeps(s[1..], rest, letter);
      assert [s[0]] + (s[1..] + Blanked(rest, letter)) == s + Blanked(rest, letter);
    }
  }

  /** Any number of deliveries: always the same state, and the same replies unless the bytes
      together kill the connection. */
  lemma {:induction false} AnyChunks(s: Interp, chunks: seq<seq<byte>>)
    requires s.dead || Drain(s) == (s, [])
    ensures FeedAll(s, chunks).state == FeedBytes(s, Concat(chunks)).state
    ensures s.dead || !Fate(s, Concat(chunks)).dies ==> FeedAll(s, chunks) == FeedBytes(s, Concat(chunks))
    decreases |chunks|
  {
    if chunks == [] {
      assert s.buf + [] == s.buf;
    } else {
      var rest := Concat(chunks[1..]);
      ChunkingInvariance(s, chunks[0], rest);
      var first := FeedBytes(s, chunks[0]);
      DrainedStays(s, chunks[0]);
      AnyChunks(first.state, chunks[1..]);
      if !s.dead {
        DiesExactly(s, chunks[0] + rest);
        if !first.state.dead {
          DiesExactly(first.state, rest);
        }
      }
    }
  }

  // ----- which deliveries are answered --------------------------------------

  /** The bytes hold a query and do not kill the connection. */
  predicate Answered(s: Interp, data: seq<byte>) {
    !Fate(s, data).dies && Fate(s, data).queries > 0
  }

  /** What a live connection has read and what it will read add up. */
  lemma FateSplits(s: Interp, a: seq<byte>, b: seq<byte>)
    requires !s.dead
    ensures Fate(s, a).dies ==> Fate(s, a + b).dies
    ensures !Fate(s, a).dies ==>
              var o := Fate(FeedBytes(s, a).state, b);
              Fate(s, a + b) == Outlook(o.dies, Fate(s, a).queries + o.queries)
  {
    var fed := s.(buf := s.buf + a);
    assert fed.buf + b == s.buf + (a + b);
    DrainMore(fed, b);
    ForetoldExactly(fed);
    ForetoldExactly(s.(buf := s.buf + (a + b)));
    var mid := Drain(fed).0;
    if mid.dead {
      DrainDead(mid);
    } else {
      ForetoldExactly(mid.(buf := mid.buf + b));
    }
  }

  lemma AnsweredLater(s: Interp, a: seq<byte>, b: seq<byte>)
    requires !s.dead
    ensures Answered(s, a + b) <==>
              !Fate(s, a).dies && !Fate(FeedBytes(s, a).state, b).dies
              && (Answered(s, a) || Answered(FeedBytes(s, a).state, b))
  {
    FateSplits(s, a, b);
  }

  predicate SomePrefixAnswered(s: Interp, chunks: seq<seq<byte>>) {
    exists k :: 0 <= k <= |chunks| && Answered(s, Concat(chunks[..k]))
  }

  lemma PrefixOfRest(chunks: seq<seq<byte>>, k: nat)
    requires k < |chunks|
    ensures Concat(chunks[..k + 1]) == chunks[0] + Concat(chunks[1..][..k])
  {
    assert chunks[..k + 1][1..] == chunks[1..][..k];
  }

  /** A series of deliveries is answered exactly when some first ones of it, put together,
      hold a query and leave the connection alive. */
  lemma {:induction false} AnsweredExactly(s: Interp, chunks: seq<seq<byte>>)
    requires !s.dead && Drain(s) == (s, [])
    ensures FeedAll(s, chunks).reply != [] <==> SomePrefixAnswered(s, chunks)
    decreases |chunks|
  {
    NothingAnswersNothing(s);
    assert chunks[..0] == [];
    if chunks != [] {
      var first, rest := FeedBytes(s, chunks[0]), chunks[1..];
      DiesExactly(s, chunks[0]);
      PrefixOfRest(chunks, 0);
      assert chunks[0] + [] == chunks[0];
      if first.state.dead {
        DeadAnswersNothing(first.state, rest);
        forall k | 0 <= k <= |chunks|
          ensures !Answered(s, Concat(chunks[..k]))
        {
          if k > 0 {
            PrefixOfRest(chunks, k - 1);
            FateSplits(s, chunks[0], Concat(rest[..k - 1]));
          }
        }
      } else {
        DrainedStays(s, chunks[0]);
        AnsweredExactly(first.state, rest);
        AnsweredFirstOrLater(s, chunks);
      }
    }
  }

  lemma AnsweredFirstOrLater(s: Interp, chunks: seq<seq<byte>>)
    requires !s.dead && Drain(s) == (s, []) && chunks != [] && !FeedBytes(s, chunks[0]).state.dead
    ensures SomePrefixAnswered(s, chunks) <==>
              Answered(s, chunks[0]) || SomePrefixAnswered(FeedBytes(s, chunks[0]).state, chunks[1..])
  {
    var first, rest := FeedBytes(s, chunks[0]).state, chunks[1..];
    DiesExactly(s, chunks[0]);
    NothingAnswersNothing(s);
    if Answered(s, chunks[0]) {
      PrefixOfRest(chunks, 0);
      assert chunks[0] + [] == chunks[0];
      assert Answered(s, Concat(chunks[..1]));
    } else if SomePrefixAnswered(first, rest) {
      var k :| 0 <= k <= |rest| && Answered(first, Concat(rest[..k]));
      PrefixOfRest(chunks, k);
      AnsweredLater(s, chunks[0], Concat(rest[..k]));
      assert Answered(s, Concat(chunks[..k + 1]));
    }
    if SomePrefixAnswered(s, chunks) {
      var k :| 0 <= k <= |chunks| && Answered(s, Concat(chunks[..k]));
      assert chunks[..0] == [];
      var j := if k == 0 then 0 else k - 1;
      assert k > 0;
      PrefixOfRest(chunks, j);
      AnsweredLater(s, chunks[0], Concat(rest[..j]));
      assert Answered(s, chunks[0]) || Answered(first, Concat(rest[..j]));
    }
  }

  lemma NothingAnswersNothing(s: Interp)
    requires !s.dead && Drain(s) == (s, [])
    ensures !Answered(s, [])
  {
    assert s.buf + [] == s.buf;
    ForetoldExactly(s);
  }

  lemma {:induction false} DeadAnswersNothing(s: Interp, chunks: seq<seq<byte>>)
    requires s.dead
    ensures FeedAll(s, chunks).reply == []
    decreases |chunks|
  {
    if chunks != [] {
      DeadAnswersNothing(s, chunks[1..]);
    }
  }

  /** The replies of any series of deliveries are those of one exactly when the bytes do not
      kill the connection, or no first deliveries were answered before they did. */
  lemma AnyChunksExactly(s: Interp, chunks: seq<seq<byte>>)
    requires !s.dead && Drain(s) == (s, [])
    ensures FeedAll(s, chunks).reply == FeedBytes(s, Concat(chunks)).reply
            <==> !(Fate(s, Concat(chunks)).dies && SomePrefixAnswered(s, chunks))
  {
    AnyChunks(s, chunks);
    DiesExactly(s, Concat(chunks));
    AnsweredExactly(s, chunks);
  }

  lemma {:induction false} DrainTwice(s: Interp)
    ensures Drain(Drain(s).0) == (Drain(s).0, [])
    decreases Rank(s)
  {
    StepShrinks(s);
    if Step(s).Advance? {
      DrainTwice(Step(s).next);
    }
  }

  lemma DrainedStays(s: Interp, a: seq<byte>)
    ensures FeedBytes(s, a).state.dead || Drain(FeedBytes(s, a).state) == (FeedBytes(s, a).state, [])
  {
    if !s.dead {
      DrainTwice(s.(buf := s.buf + a));
    }
  }
}
