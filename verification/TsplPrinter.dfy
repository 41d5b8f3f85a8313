/** The streaming TSPL interpreter of the label emulator. */
module TsplPrinter {
  import opened Images
  import opened Options
  import opened Numerals
  import opened TsplRender

  const DLE: byte := 16
  const EOT: byte := 4
  const STATUS_OK: seq<byte> := [18]

  datatype Mode = Commands | Bitmap

  /** Everything one connection's interpreter remembers. `dead` is set by an exception that
      leaves `feed`: on an impossible picture, on a size that is infinite, on a count too long
      to convert. The connection is closed on it, so nothing is fed any more and what was still
      buffered is dropped. */
  datatype Registers = Interp(
    buf: seq<byte>, mode: Mode, need: int, bytesPerRow: int, height: int,
    size: seq<byte>, current: Option<Image>, labels: seq<Image>, dead: bool)

  /** In binary mode the bytes still wanted are the whole picture. */
  type Interp = s: Registers | s.mode.Bitmap? ==> s.need == s.bytesPerRow * s.height witness FRESH

  const FRESH: Registers := Interp([], Commands, 0, 0, 0, [], None, [], false)

  datatype Progress = Wait | Advance(next: Interp, reply: seq<byte>)

  /** Positions of the first `limit` commas at or after `from`. */
  function Commas(s: seq<byte>, from: nat, limit: nat): (at: seq<nat>)
    requires from <= |s|
    ensures |at| <= limit
    ensures forall i :: 0 <= i < |at| ==> from <= at[i] < |s| && s[at[i]] == COMMA
    ensures forall i :: 1 <= i < |at| ==> at[i - 1] < at[i]
    decreases |s| - from
  {
    if limit == 0 || from == |s| then []
    else if s[from] == COMMA then [from] + Commas(s, from + 1, limit - 1)
    else Commas(s, from + 1, limit)
  }

  function Upper(b: byte): byte {
    if 97 <= b <= 122 then b - 32 else b
  }

  predicate StartsWith(s: seq<byte>, word: seq<byte>) {
    |word| <= |s| && forall i :: 0 <= i < |word| ==> Upper(s[i]) == word[i]
  }

  function Die(s: Interp): Interp {
    s.(dead := true, buf := [])
  }

  /** `_finalize`: hand the pending picture over. An empty one cannot be saved as a PNG. */
  function Finalize(s: Interp): Interp {
    match s.current
    case None => s
    case Some(img) =>
      var taken := s.(current := None);
      if img.bytesPerRow == 0 || |img.rows| == 0 then Die(taken)
      else taken.(labels := s.labels + [img])
  }

  /** `text.replace(pair, " ")` for a pair of equal letters. */
  function Blanked(s: seq<byte>, letter: byte): seq<byte> {
    if s == [] then []
    else if |s| >= 2 && s[0] == letter && s[1] == letter then [32] + Blanked(s[2..], letter)
    else [s[0]] + Blanked(s[1..], letter)
  }

  /** `_parse_size` catches a ValueError, which a NaN raises too, but not the OverflowError that
      rounding an infinite number raises. The first number is rounded before the second is
      read. */
  predicate PairOverflows(body: seq<byte>) {
    var comma := Find(body, COMMA, 0);
    && comma < |body| && Find(body, COMMA, comma + 1) == |body|
    && RoundingOverflows(ReadFloat(Strip(body[..comma])), ReadFloat(Strip(body[comma + 1..])))
  }

  predicate RoundingOverflows(width: FloatRead, height: FloatRead) {
    width.Infinite? || (width.Finite? && height.Infinite?)
  }

  /** What `_parse_size` splits at its comma. */
  function SizeBody(text: seq<byte>): seq<byte>
    requires |text| >= 4
  {
    Blanked(Blanked(text[4..], 109), 77)
  }

  predicate SizeOverflows(text: seq<byte>)
    requires |text| >= 4
  {
    PairOverflows(SizeBody(text))
  }

  /** The copies are converted, with nothing catching the ValueError, whenever they are digits. */
  predicate CountOverflows(text: seq<byte>)
    requires |text| >= 5
  {
    var rest := Strip(text[5..]);
    var count := Strip(rest[..Find(rest, COMMA, 0)]);
    |count| > DIGIT_LIMIT && forall i :: 0 <= i < |count| ==> IsDigit(count[i])
  }

  /** A SIZE or PRINT line whose numbers raise out of `feed`. */
  predicate Chokes(line: seq<byte>) {
    var text := Strip(line);
    if StartsWith(text, SIZE) then SizeOverflows(text) else StartsWith(text, PRINT) && CountOverflows(text)
  }

  function HandleLine(s: Interp, line: seq<byte>): Interp {
    var text := Strip(line);
    if Chokes(line) then Die(s)
    else if StartsWith(text, SIZE) then s.(size := text)
    else if StartsWith(text, PRINT) then Finalize(s)
    else s
  }

  lemma PayloadSize(bytesPerRow: int, height: int)
    ensures bytesPerRow >= 0 && height >= 0 ==> bytesPerRow * height == Area(bytesPerRow, height)
  {
    if bytesPerRow >= 0 && height >= 0 {
      AreaIsProduct(bytesPerRow, height);
    }
  }

  function TakeBitmap(s: Interp): Progress
    requires s.mode.Bitmap?
  {
    PayloadSize(s.bytesPerRow, s.height);
    if |s.buf| < s.need then Wait
    else if Refused(s.bytesPerRow, s.height) then
      Advance(Die(s), [])
    else
      var img := Image(s.bytesPerRow, RowsOf(s.bytesPerRow, s.height, s.buf[..s.need]));
      Advance(s.(buf := s.buf[s.need..], current := Some(img), mode := Commands), [])
  }

  /** A BITMAP header: not all there yet, or `used` bytes long with its two numbers, if it
      holds numbers at all. */
  datatype Header = Partial | Malformed(used: nat) | Numbers(used: nat, bytesPerRow: int, height: int)

  function ReadHeader(s: seq<byte>): (h: Header)
    ensures !h.Partial? ==> 0 < h.used <= |s|
  {
    var at := Commas(s, 0, 5);
    if |at| < 5 then Partial else HeaderAt(s, at)
  }

  function HeaderAt(s: seq<byte>, at: seq<nat>): (h: Header)
    requires |at| == 5 && at[1] < at[2] < at[3] < at[4] < |s|
    ensures !h.Partial? && h.used == at[4] + 1
  {
    match (IntValue(s[at[1] + 1..at[2]]), IntValue(s[at[2] + 1..at[3]]))
    case (Some(bpr), Some(h)) => Numbers(at[4] + 1, bpr, h)
    case _ => Malformed(at[4] + 1)
  }

  /** `_start_bitmap`: the header runs up to the fifth comma; one without numbers is skipped. */
  function StartBitmap(s: Interp): Progress {
    match ReadHeader(s.buf)
    case Partial => Wait
    case Malformed(used) => Advance(s.(buf := s.buf[used..]), [])
    case Numbers(used, bpr, h) =>
      Advance(s.(buf := s.buf[used..], bytesPerRow := bpr, height := h, need := bpr * h, mode := Bitmap), [])
  }

  /** One turn of the loop in `feed`. */
  function Step(s: Interp): Progress {
    if s.dead then Wait
    else if s.mode.Bitmap? then TakeBitmap(s)
    else if s.buf == [] then Wait
    else if s.buf[0] == DLE then
      if |s.buf| < 3 then Wait
      else if s.buf[1] == EOT then Advance(s.(buf := s.buf[3..]), STATUS_OK)
      else Advance(s.(buf := s.buf[1..]), [])
    else if s.buf[0] == 13 || s.buf[0] == LF then Advance(s.(buf := s.buf[1..]), [])
    else if StartsWith(s.buf, BITMAP) then StartBitmap(s)
    else
      var i := Find(s.buf, LF, 0);
      if i == |s.buf| then Wait
      else Advance(HandleLine(s.(buf := s.buf[i + 1..]), s.buf[..i]), [])
  }

  function Rank(s: Interp): nat {
    if s.dead then 0 else 1 + 2 * |s.buf| + if s.mode.Bitmap? then 1 else 0
  }

  lemma PayloadShrinks(s: Interp)
    requires s.mode.Bitmap? && !s.dead && TakeBitmap(s).Advance?
    ensures Rank(TakeBitmap(s).next) < Rank(s)
  {
  }

  lemma HeaderShrinks(s: Interp)
    requires s.mode.Commands? && !s.dead && StartBitmap(s).Advance?
    ensures Rank(StartBitmap(s).next) < Rank(s)
  {
  }

  lemma LineShrinks(s: Interp, i: nat)
    requires i < |s.buf| && !s.dead && s.mode.Commands?
    ensures Rank(HandleLine(s.(buf := s.buf[i + 1..]), s.buf[..i])) < Rank(s)
  {
  }

  lemma StepShrinks(s: Interp)
    ensures Step(s).Advance? ==> Rank(Step(s).next) < Rank(s)
  {
    if Step(s).Advance? {
      if s.mode.Bitmap? {
        PayloadShrinks(s);
      } else if s.buf[0] == DLE || s.buf[0] == 13 || s.buf[0] == LF {
        assert |Step(s).next.buf| < |s.buf|;
      } else if StartsWith(s.buf, BITMAP) {
        HeaderShrinks(s);
      } else {
        LineShrinks(s, Find(s.buf, LF, 0));
      }
    }
  }

  /** Turns of the loop until more bytes are needed, with the replies written on the way. */
  function Drain(s: Interp): (Interp, seq<byte>)
    decreases Rank(s)
  {
    StepShrinks(s);
    match Step(s)
    case Wait => (s, [])
    case Advance(next, reply) => var (last, more) := Drain(next); (last, reply + more)
  }

  datatype Fed = Fed(state: Interp, reply: seq<byte>)

  /** `feed`: an exception loses the replies collected in the same call. */
  function FeedBytes(s: Interp, data: seq<byte>): Fed {
    if s.dead then Fed(s, [])
    else
      var (last, reply) := Drain(s.(buf := s.buf + data));
      Fed(last, if last.dead then [] else reply)
  }

  function FeedAll(s: Interp, chunks: seq<seq<byte>>): Fed
    decreases |chunks|
  {
    if chunks == [] then Fed(s, [])
    else
      var first := FeedBytes(s, chunks[0]);
      var rest := FeedAll(first.state, chunks[1..]);
      Fed(rest.state, first.reply + rest.reply)
  }

  class TsplInterpreter {
    var buf: seq<byte>
    var mode: Mode
    var need: int
    var bytesPerRow: int
    var height: int
    var size: seq<byte>
    var current: Option<Image>
    var labels: seq<Image>
    var dead: bool

    ghost predicate Valid()
      reads this
    {
      mode.Bitmap? ==> need == bytesPerRow * height
    }

    ghost function View(): Interp
      requires Valid()
      reads this
    {
      Interp(buf, mode, need, bytesPerRow, height, size, current, labels, dead)
    }

    constructor ()
      ensures Valid() && View() == FRESH
    {
      buf, mode, need, bytesPerRow, height := [], Commands, 0, 0, 0;
      size, current, labels, dead := [], None, [], false;
    }

    method Feed(data: seq<byte>) returns (resp: seq<byte>)
      requires Valid() && !dead
      modifies this
      ensures Valid()
      ensures Fed(View(), resp) == FeedBytes(old(View()), data)
    {
      buf := buf + data;
      resp := [];
      ghost var whole := Drain(View());
      var more := true;
      while more
        invariant Valid() && whole.0 == Drain(View()).0
        invariant if more then !dead && whole.1 == resp + Drain(View()).1
                  else Drain(View()) == (View(), []) && resp == if dead then [] else whole.1
        decreases more, Rank(View())
      {
        StepShrinks(View());
        var reply;
        more, reply := Turn();
        resp := resp + reply;
        if dead {
          more, resp := false, [];
        }
      }
    }

    /** One command, or one binary payload, off the front of the buffer; false when it has
        not fully arrived. */
    method Turn() returns (advanced: bool, reply: seq<byte>)
      requires Valid() && !dead
      modifies this
      ensures Valid()
      ensures advanced ==> Step(old(View())) == Advance(View(), reply)
      ensures !advanced ==> View() == old(View()) && reply == [] && Step(View()) == Wait
    {
      reply := [];
      advanced := true;
      if mode.Bitmap? {
        if |buf| < need { return false, []; }
        PayloadSize(bytesPerRow, height);
        if Refused(bytesPerRow, height) {
          dead, buf := true, [];
          return;
        }
        current := Some(Image(bytesPerRow, RowsOf(bytesPerRow, height, buf[..need])));
        buf := buf[need..];
        mode := Commands;
      } else if buf == [] {
        advanced := false;
      } else if buf[0] == DLE {
        if |buf| < 3 { return false, []; }
        if buf[1] == EOT {
          reply := STATUS_OK;
          buf := buf[3..];
        } else {
          buf := buf[1..];
        }
      } else if buf[0] == 13 || buf[0] == LF {
        buf := buf[1..];
      } else if StartsWith(buf, BITMAP) {
        advanced := StartHeader();
      } else {
        var idx := Find(buf, LF, 0);
        if idx == |buf| { return false, []; }
        var line := buf[..idx];
        buf := buf[idx + 1..];
        TakeLine(line);
      }
    }

    static method ScanCommas(s: seq<byte>, limit: nat) returns (commas: seq<nat>)
      ensures commas == Commas(s, 0, limit)
    {
      commas := [];
      var i := 0;
      ghost var rest := Commas(s, 0, limit);
      while i < |s| && |commas| < limit
        invariant i <= |s| && |commas| <= limit
        invariant rest == Commas(s, i, limit - |commas|)
        invariant Commas(s, 0, limit) == commas + rest
      {
        if s[i] == COMMA {
          Associative(commas, [i], rest[1..]);
          commas, rest := commas + [i], rest[1..];
        }
        i := i + 1;
      }
    }

    static method ParseHeader(s: seq<byte>) returns (header: Header)
      ensures header == ReadHeader(s)
    {
      var commas := ScanCommas(s, 5);
      if |commas| < 5 { return Partial; }
      header := ParseNumbers(s, commas);
    }

    static method ParseNumbers(s: seq<byte>, commas: seq<nat>) returns (header: Header)
      requires |commas| == 5 && commas[1] < commas[2] < commas[3] < commas[4] < |s|
      ensures header == HeaderAt(s, commas)
    {
      var bpr := IntValue(s[commas[1] + 1..commas[2]]);
      var h := IntValue(s[commas[2] + 1..commas[3]]);
      return if bpr.Some? && h.Some? then Numbers(commas[4] + 1, bpr.value, h.value)
             else Malformed(commas[4] + 1);
    }

    method StartHeader() returns (arrived: bool)
      requires Valid() && !dead && mode.Commands?
      modifies this
      ensures Valid()
      ensures !arrived ==> View() == old(View()) && StartBitmap(View()) == Wait
      ensures arrived ==> StartBitmap(old(View())) == Advance(View(), [])
    {
      var header := ParseHeader(buf);
      if header.Partial? { return false; }
      buf := buf[header.used..];
      if header.Numbers? {
        bytesPerRow, height := header.bytesPerRow, header.height;
        need := bytesPerRow * height;
        mode := Bitmap;
      }
      return true;
    }

    /** The numbers of a SIZE line, as far as they raise; false is the OverflowError. */
    static method ParseSize(body: seq<byte>) returns (returned: bool)
      ensures returned == !PairOverflows(body)
    {
      var comma := Find(body, COMMA, 0);
      if comma == |body| || Find(body, COMMA, comma + 1) < |body| { return true; }
      var width := ReadFloat(Strip(body[..comma]));
      if !width.Finite? { return width.NoNumber?; }
      var height := ReadFloat(Strip(body[comma + 1..]));
      return !height.Infinite?;
    }

    method TakeLine(line: seq<byte>)
      requires Valid() && !dead
      modifies this
      ensures Valid()
      ensures View() == HandleLine(old(View()), line)
    {
      var text := Strip(line);
      if StartsWith(text, SIZE) {
        var returned := ParseSize(SizeBody(text));
        if returned {
          size := text;
        } else {
          dead, buf := true, [];
        }
      } else if StartsWith(text, PRINT) {
        if CountOverflows(text) {
          dead, buf := true, [];
        } else {
          FinishLabel();
        }
      }
    }

    /** The connection ends: a bitmap that never got its PRINT becomes a label all the same. */
    method Close()
      requires Valid()
      modifies this
      ensures Valid()
      ensures View() == Finalize(old(View()))
    {
      if current.Some? {
        FinishLabel();
      }
    }

    method FinishLabel()
      requires Valid()
      modifies this
      ensures Valid()
      ensures View() == Finalize(old(View()))
    {
      if current.Some? {
        var img := current.value;
        current := None;
        if img.bytesPerRow == 0 || |img.rows| == 0 {
          dead, buf := true, [];
        } else {
          labels := labels + [img];
        }
      }
    }
  }
}
