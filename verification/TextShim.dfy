/** The shim that turns `text()` calls into raster lines: text is held back until a newline
    ends a call, or until a change of style, a cut or an image forces it out. */
module TextShim {
  import opened Options
  import opened Images

  datatype Style = Style(bold: bool, align: string, doubleHeight: bool, doubleWidth: bool)

  const DEFAULT_STYLE := Style(false, "left", false, false)

  /** The keywords of one `set()` call; those not given change nothing. */
  datatype Change = Change(bold: Option<bool>, align: Option<string>, doubleHeight: Option<bool>, doubleWidth: Option<bool>)

  datatype Call = Say(text: string) | Restyle(change: Change) | CutPaper | Show(image: Image)

  /** A line to be rendered in a style, a ready image, a cut. */
  datatype Output = Line(text: string, style: Style) | Picture(image: Image) | Cut

  function Restyled(style: Style, c: Change): Style {
    Style(if c.bold.Some? then c.bold.value else style.bold,
          if c.align.Some? then c.align.value else style.align,
          if c.doubleHeight.Some? then c.doubleHeight.value else style.doubleHeight,
          if c.doubleWidth.Some? then c.doubleWidth.value else style.doubleWidth)
  }

  // ----- what a run of text comes to ------------------------------------------------

  /** `started` is the line being read; a last line without its newline counts if there is
      anything in it. */
  function LinesAfter(started: string, text: string): seq<string>
    decreases |text|
  {
    if text == "" then (if started == "" then [] else [started])
    else if text[0] == '\n' then [started] + LinesAfter("", text[1..])
    else LinesAfter(started + [text[0]], text[1..])
  }

  function Styled(lines: seq<string>, style: Style): seq<Output> {
    seq(|lines|, i requires 0 <= i < |lines| => Line(lines[i], style))
  }

  function Rendered(text: string, style: Style): seq<Output> {
    Styled(LinesAfter("", text), style)
  }

  predicate EndsLine(text: string) {
    text != "" && text[|text| - 1] == '\n'
  }

  lemma {:induction false} LinesSplit(started: string, a: string, b: string)
    requires EndsLine(a)
    ensures LinesAfter(started, a + b) == LinesAfter(started, a) + LinesAfter("", b)
    decreases |a|
  {
    assert (a + b)[0] == a[0] && (a + b)[1..] == a[1..] + b;
    if |a| == 1 {
      assert a[1..] == "" && "" + b == b;
    } else if a[0] == '\n' {
      LinesSplit("", a[1..], b);
      assert [started] + (LinesAfter("", a[1..]) + LinesAfter("", b)) == [started] + LinesAfter("", a[1..]) + LinesAfter("", b);
    } else {
      LinesSplit(started + [a[0]], a[1..], b);
    }
  }

  /** Where a line ends, text can be rendered in two goes. */
  lemma RenderedSplit(a: string, b: string, style: Style)
    requires a == "" || EndsLine(a)
    ensures Rendered(a + b, style) == Rendered(a, style) + Rendered(b, style)
  {
    if a == "" {
      assert a + b == b;
    } else {
      LinesSplit("", a, b);
    }
  }

  // ----- the shim --------------------------------------------------------------------

  datatype State = State(buffer: seq<string>, style: Style, out: seq<Output>)

  const FRESH := State([], DEFAULT_STYLE, [])

  function Joined(parts: seq<string>): string {
    if parts == [] then "" else Joined(parts[..|parts| - 1]) + parts[|parts| - 1]
  }

  function Flush(s: State): State {
    State([], s.style, s.out + Rendered(Joined(s.buffer), s.style))
  }

  /** `tspl` printers have no knife: a cut only forces the text out. */
  function Do(s: State, call: Call, tspl: bool): State {
    match call
    case Say(text) =>
      if text == "" then s
      else
        var longer := s.(buffer := s.buffer + [text]);
        if EndsLine(text) then Flush(longer) else longer
    case Restyle(change) => Flush(s).(style := Restyled(s.style, change))
    case CutPaper =>
      var flushed := Flush(s);
      if tspl then flushed else flushed.(out := flushed.out + [Cut])
    case Show(image) =>
      var flushed := Flush(s);
      flushed.(out := flushed.out + [Picture(image)])
  }

  function DoAll(s: State, calls: seq<Call>, tspl: bool): State
    decreases |calls|
  {
    if calls == [] then s else DoAll(Do(s, calls[0], tspl), calls[1..], tspl)
  }

  // ----- what the calls mean, however the text is divided --------------------------------

  /** The output a job stands for: the text between two forcing calls is one text; what is
      left of it at the end is rendered too. */
  function Meaning(text: string, style: Style, calls: seq<Call>, tspl: bool): seq<Output>
    decreases |calls|
  {
    if calls == [] then Rendered(text, style)
    else
      var rest := calls[1..];
      match calls[0]
      case Say(more) => Meaning(text + more, style, rest, tspl)
      case Restyle(change) => Rendered(text, style) + Meaning("", Restyled(style, change), rest, tspl)
      case CutPaper => Rendered(text, style) + ((if tspl then [] else [Cut]) + Meaning("", style, rest, tspl))
      case Show(image) => Rendered(text, style) + ([Picture(image)] + Meaning("", style, rest, tspl))
  }

  // ----- what is left when neighbouring texts are joined ----------------------------------

  /** The calls that force text out, in order, each with the text that ran up to it. */
  function Forced(text: string, calls: seq<Call>): seq<(string, Call)>
    decreases |calls|
  {
    if calls == [] then []
    else if calls[0].Say? then Forced(text + calls[0].text, calls[1..])
    else [(text, calls[0])] + Forced("", calls[1..])
  }

  /** The text after the last of them. */
  function TailAfter(text: string, calls: seq<Call>): string
    decreases |calls|
  {
    if calls == [] then text
    else if calls[0].Say? then TailAfter(text + calls[0].text, calls[1..])
    else TailAfter("", calls[1..])
  }

  datatype Runs = Runs(forced: seq<(string, Call)>, tail: string)

  /** A job without the division of its texts into calls. */
  function RunsOf(calls: seq<Call>): Runs {
    Runs(Forced("", calls), TailAfter("", calls))
  }

  function NextStyle(style: Style, call: Call): Style {
    if call.Restyle? then Restyled(style, call.change) else style
  }

  function StyleAfter(style: Style, forced: seq<(string, Call)>): Style
    decreases |forced|
  {
    if forced == [] then style
    else StyleAfter(NextStyle(style, forced[0].1), forced[1..])
  }

  /** What has gone out once the last of them did. */
  function ForcedOut(style: Style, forced: seq<(string, Call)>, tspl: bool): seq<Output>
    decreases |forced|
  {
    if forced == [] then []
    else
      var (text, call) := forced[0];
      Rendered(text, style) + Mark(call, tspl) + ForcedOut(NextStyle(style, call), forced[1..], tspl)
  }

  function Mark(call: Call, tspl: bool): seq<Output> {
    match call
    case CutPaper => if tspl then [] else [Cut]
    case Show(image) => [Picture(image)]
    case _ => []
  }

  /** The meaning sees only the runs: jobs that divide them differently mean the same. */
  lemma {:induction false} MeaningSeesOnlyRuns(text: string, style: Style, calls: seq<Call>, tspl: bool)
    ensures var forced := Forced(text, calls);
            Meaning(text, style, calls, tspl)
            == ForcedOut(style, forced, tspl) + Rendered(TailAfter(text, calls), StyleAfter(style, forced))
    decreases |calls|
  {
    if calls != [] {
      var rest := calls[1..];
      if calls[0].Say? {
        MeaningSeesOnlyRuns(text + calls[0].text, style, rest, tspl);
      } else {
        assert ([(text, calls[0])] + Forced("", rest))[1..] == Forced("", rest);
        MeaningSeesOnlyRuns("", NextStyle(style, calls[0]), rest, tspl);
        ForcedFirst(text, style, calls, tspl);
      }
    }
  }

  lemma ForcedFirst(text: string, style: Style, calls: seq<Call>, tspl: bool)
    requires calls != [] && !calls[0].Say?
    ensures Meaning(text, style, calls, tspl)
         == Rendered(text, style) + Mark(calls[0], tspl) + Meaning("", NextStyle(style, calls[0]), calls[1..], tspl)
  {
  }

  lemma {:induction false} MeaningStarts(done: string, text: string, style: Style, calls: seq<Call>, tspl: bool)
    requires done == "" || EndsLine(done)
    ensures Meaning(done + text, style, calls, tspl) == Rendered(done, style) + Meaning(text, style, calls, tspl)
    decreases |calls|
  {
    if calls == [] {
      RenderedSplit(done, text, style);
    } else {
      match calls[0]
      case Say(more) =>
        MeaningStarts(done, text + more, style, calls[1..], tspl);
        assert done + text + more == done + (text + more);
      case _ => RenderedSplit(done, text, style);
    }
  }

  lemma JoinedMore(parts: seq<string>, last: string)
    ensures Joined(parts + [last]) == Joined(parts) + last
  {
    assert (parts + [last])[..|parts|] == parts;
  }

  lemma FlushMeans(s: State, calls: seq<Call>, tspl: bool)
    ensures Joined([]) == "" && Flush(s).buffer == []
    ensures Flush(s).out + Meaning("", s.style, calls, tspl)
         == s.out + (Rendered(Joined(s.buffer), s.style) + Meaning("", s.style, calls, tspl))
  {
  }

  lemma SayMeans(s: State, text: string, rest: seq<Call>, tspl: bool)
    ensures var t := Do(s, Say(text), tspl);
            && t.style == s.style
            && t.out + Meaning(Joined(t.buffer), t.style, rest, tspl)
               == s.out + Meaning(Joined(s.buffer) + text, s.style, rest, tspl)
  {
    if text == "" {
      assert Joined(s.buffer) + text == Joined(s.buffer);
    } else {
      JoinedMore(s.buffer, text);
      if EndsLine(text) {
        var all := Joined(s.buffer) + text;
        FlushMeans(s.(buffer := s.buffer + [text]), rest, tspl);
        MeaningStarts(all, "", s.style, rest, tspl);
        assert all + "" == all;
      }
    }
  }

  lemma ForcedMeans(s: State, call: Call, rest: seq<Call>, tspl: bool)
    requires !call.Say?
    ensures var t := Do(s, call, tspl);
            && t.buffer == []
            && t.out + Meaning("", t.style, rest, tspl) == s.out + Meaning(Joined(s.buffer), s.style, [call] + rest, tspl)
  {
    assert ([call] + rest)[1..] == rest;
    var t, r := Do(s, call, tspl), Rendered(Joined(s.buffer), s.style);
    var tail := Meaning("", t.style, rest, tspl);
    var mark: seq<Output> := if call.Show? then [Picture(call.image)] else if call.CutPaper? && !tspl then [Cut] else [];
    assert t.out == s.out + r + mark;
    assert s.out + r + mark + tail == s.out + (r + (mark + tail));
    assert mark == [] ==> mark + tail == tail;
  }

  /** What was put out, followed by what is still held back, is what the calls mean. */
  lemma {:induction false} ShimRefinesMeaning(s: State, calls: seq<Call>, tspl: bool)
    ensures var t := DoAll(s, calls, tspl);
            t.out + Rendered(Joined(t.buffer), t.style) == s.out + Meaning(Joined(s.buffer), s.style, calls, tspl)
    decreases |calls|
  {
    if calls != [] {
      var t, rest := Do(s, calls[0], tspl), calls[1..];
      assert calls == [calls[0]] + rest;
      ShimRefinesMeaning(t, rest, tspl);
      if calls[0].Say? {
        SayMeans(s, calls[0].text, rest, tspl);
      } else {
        ForcedMeans(s, calls[0], rest, tspl);
      }
    }
  }

  // ----- what a job puts out -------------------------------------------------------------

  /** A job begins with nothing held back and ends with a reset, whatever came of it. */
  function Job(calls: seq<Call>, tspl: bool): seq<Output> {
    DoAll(FRESH, calls, tspl).out
  }

  function HeldBack(calls: seq<Call>, tspl: bool): string {
    Joined(DoAll(FRESH, calls, tspl).buffer)
  }

  /** The last text that is not empty, among those after the last forcing call. */
  function LastText(calls: seq<Call>): string
    decreases |calls|
  {
    if calls == [] then ""
    else
      var last := calls[|calls| - 1];
      if !last.Say? then "" else if last.text != "" then last.text else LastText(calls[..|calls| - 1])
  }

  lemma {:induction false} DoAllLast(s: State, calls: seq<Call>, last: Call, tspl: bool)
    ensures DoAll(s, calls + [last], tspl) == Do(DoAll(s, calls, tspl), last, tspl)
    decreases |calls|
  {
    if calls == [] {
      assert calls + [last] == [last] && [last][1..] == [];
    } else {
      assert (calls + [last])[1..] == calls[1..] + [last];
      DoAllLast(Do(s, calls[0], tspl), calls[1..], last, tspl);
    }
  }

  lemma {:induction false} HeldBackExactly(calls: seq<Call>, tspl: bool)
    ensures DoAll(FRESH, calls, tspl).buffer == [] <==> LastText(calls) == "" || EndsLine(LastText(calls))
    ensures HeldBack(calls, tspl) == "" <==> DoAll(FRESH, calls, tspl).buffer == []
    decreases |calls|
  {
    if calls != [] {
      var front, last := calls[..|calls| - 1], calls[|calls| - 1];
      assert calls == front + [last];
      HeldBackExactly(front, tspl);
      DoAllLast(FRESH, front, last, tspl);
      if last.Say? && last.text != "" {
        JoinedMore(DoAll(FRESH, front, tspl).buffer, last.text);
      }
    }
  }

  /** A job puts out all that its calls mean exactly when its last text ended a line or was
      forced out. */
  lemma JobMeansItsCalls(calls: seq<Call>, tspl: bool)
    ensures Job(calls, tspl) + Rendered(HeldBack(calls, tspl), DoAll(FRESH, calls, tspl).style)
         == Meaning("", DEFAULT_STYLE, calls, tspl)
    ensures Job(calls, tspl) == Meaning("", DEFAULT_STYLE, calls, tspl) <==>
              LastText(calls) == "" || EndsLine(LastText(calls))
  {
    ShimRefinesMeaning(FRESH, calls, tspl);
    HeldBackExactly(calls, tspl);
    var held, style := HeldBack(calls, tspl), DoAll(FRESH, calls, tspl).style;
    SomethingIsRendered(held, style);
    assert FRESH.out + Meaning("", DEFAULT_STYLE, calls, tspl) == Meaning("", DEFAULT_STYLE, calls, tspl);
    assert |Job(calls, tspl) + Rendered(held, style)| == |Job(calls, tspl)| + |Rendered(held, style)|;
    if held == "" {
      assert Job(calls, tspl) + [] == Job(calls, tspl);
    }
  }

  lemma {:induction false} SomeLine(started: string, text: string)
    ensures LinesAfter(started, text) == [] <==> started == "" && text == ""
    decreases |text|
  {
    if text != "" && text[0] != '\n' {
      SomeLine(started + [text[0]], text[1..]);
    }
  }

  lemma SomethingIsRendered(text: string, style: Style)
    ensures Rendered(text, style) == [] <==> text == ""
  {
    SomeLine("", text);
  }

  lemma TwoCalls(s: State, first: Call, second: Call, tspl: bool)
    ensures DoAll(s, [first], tspl) == Do(s, first, tspl)
    ensures DoAll(s, [first, second], tspl) == Do(Do(s, first, tspl), second, tspl)
  {
    assert [first][1..] == [] && [first, second][1..] == [second] && [second][1..] == [];
    var t := Do(s, first, tspl);
    assert DoAll(t, [second], tspl) == DoAll(Do(t, second, tspl), [], tspl);
  }

  lemma OneLine()
    ensures Rendered("a\n", DEFAULT_STYLE) == [Line("a", DEFAULT_STYLE)]
  {
    assert "a\n"[0] == 'a' && "a\n"[1..] == "\n" && "\n"[0] == '\n' && "\n"[1..] == "" && "" + ['a'] == "a";
    assert LinesAfter("a", "\n") == ["a"] + LinesAfter("", "");
  }

  /** Without the newline the division does matter: the same text in one call prints nothing,
      in two it prints its first line. */
  lemma UnfinishedTextDependsOnItsDivision()
    ensures Job([Say("a\nb")], true) == []
    ensures Job([Say("a\n"), Say("b")], true) == [Line("a", DEFAULT_STYLE)]
  {
    TwoCalls(FRESH, Say("a\nb"), Say("b"), true);
    TwoCalls(FRESH, Say("a\n"), Say("b"), true);
    JoinedMore([], "a\n");
    assert [] + ["a\n"] == ["a\n"] && "" + "a\n" == "a\n";
    OneLine();
  }

  // ----- when the division of a text into calls shows -------------------------------------

  lemma {:induction false} RunsJoin(text: string, a: seq<Call>, b: seq<Call>)
    ensures Forced(text, a + b) == Forced(text, a) + Forced(TailAfter(text, a), b)
    ensures TailAfter(text, a + b) == TailAfter(TailAfter(text, a), b)
    decreases |a|
  {
    if a == [] {
      assert a + b == b;
    } else {
      assert (a + b)[0] == a[0] && (a + b)[1..] == a[1..] + b;
      RunsJoin(if a[0].Say? then text + a[0].text else "", a[1..], b);
    }
  }

  lemma {:induction false} DoAllJoin(s: State, a: seq<Call>, b: seq<Call>, tspl: bool)
    ensures DoAll(s, a + b, tspl) == DoAll(DoAll(s, a, tspl), b, tspl)
    decreases |a|
  {
    if a == [] {
      assert a + b == b;
    } else {
      assert (a + b)[0] == a[0] && (a + b)[1..] == a[1..] + b;
      DoAllJoin(Do(s, a[0], tspl), a[1..], b, tspl);
    }
  }

  lemma {:induction false} StyleIsForced(s: State, text: string, calls: seq<Call>, tspl: bool)
    ensures DoAll(s, calls, tspl).style == StyleAfter(s.style, Forced(text, calls))
    decreases |calls|
  {
    if calls != [] {
      var rest := calls[1..];
      if calls[0].Say? {
        StyleIsForced(Do(s, calls[0], tspl), text + calls[0].text, rest, tspl);
      } else {
        assert ([(text, calls[0])] + Forced("", rest))[1..] == Forced("", rest);
        StyleIsForced(Do(s, calls[0], tspl), "", rest, tspl);
      }
    }
  }

  lemma SaidMore(calls: seq<Call>, text: string, tspl: bool)
    ensures TailAfter("", calls + [Say(text)]) == TailAfter("", calls) + text
    ensures HeldBack(calls + [Say(text)], tspl) == if EndsLine(text) then "" else HeldBack(calls, tspl) + text
  {
    DoAllLast(FRESH, calls, Say(text), tspl);
    RunsJoin("", calls, [Say(text)]);
    assert [Say(text)][1..] == [];
    JoinedMore(DoAll(FRESH, calls, tspl).buffer, text);
  }

  lemma ThreeJoin(done: string, held: string, text: string)
    ensures done + held + text == done + (held + text) + ""
    ensures EndsLine(text) ==> EndsLine(done + (held + text))
  {
  }

  /** What is held back is the end of the tail, cut where a line ended. */
  lemma {:induction false} HeldIsTheEnd(calls: seq<Call>, tspl: bool) returns (done: string)
    ensures TailAfter("", calls) == done + HeldBack(calls, tspl)
    ensures done == "" || EndsLine(done)
    decreases |calls|
  {
    done := "";
    if calls != [] {
      var front, last := calls[..|calls| - 1], calls[|calls| - 1];
      assert calls == front + [last];
      if last.Say? {
        done := HeldIsTheEnd(front, tspl);
        SaidMore(front, last.text, tspl);
        if EndsLine(last.text) {
          ThreeJoin(done, HeldBack(front, tspl), last.text);
          done := done + (HeldBack(front, tspl) + last.text);
        }
      } else {
        DoAllLast(FRESH, front, last, tspl);
        RunsJoin("", front, [last]);
      }
    }
  }

  /** A job puts out what was forced out and the tail up to a place where a call ended a line. */
  lemma JobOfRuns(calls: seq<Call>, tspl: bool) returns (done: string)
    ensures TailAfter("", calls) == done + HeldBack(calls, tspl)
    ensures done == "" || EndsLine(done)
    ensures Job(calls, tspl) == JobUpTo(RunsOf(calls).forced, done, tspl)
  {
    done := HeldIsTheEnd(calls, tspl);
    var held, style := HeldBack(calls, tspl), DoAll(FRESH, calls, tspl).style;
    JobMeansItsCalls(calls, tspl);
    MeaningSeesOnlyRuns("", DEFAULT_STYLE, calls, tspl);
    StyleIsForced(FRESH, "", calls, tspl);
    RenderedSplit(done, held, style);
    var before, shown, rest := ForcedOut(DEFAULT_STYLE, Forced("", calls), tspl), Rendered(done, style), Rendered(held, style);
    assert Job(calls, tspl) + rest == before + (shown + rest);
    SameFront(Job(calls, tspl), before, shown, rest);
  }

  function JobUpTo(forced: seq<(string, Call)>, done: string, tspl: bool): seq<Output> {
    ForcedOut(DEFAULT_STYLE, forced, tspl) + Rendered(done, StyleAfter(DEFAULT_STYLE, forced))
  }

  lemma SameFront(job: seq<Output>, before: seq<Output>, shown: seq<Output>, rest: seq<Output>)
    requires job + rest == before + (shown + rest)
    ensures job == before + shown
  {
    assert before + (shown + rest) == (before + shown) + rest;
    assert (job + rest)[..|job|] == job && ((before + shown) + rest)[..|before + shown|] == before + shown;
  }

  lemma LastTextOfTail(calls: seq<Call>)
    ensures EndsLine(TailAfter("", calls)) ==> EndsLine(LastText(calls))
    decreases |calls|
  {
    if calls != [] {
      var front, last := calls[..|calls| - 1], calls[|calls| - 1];
      assert calls == front + [last] && [last][1..] == [];
      RunsJoin("", front, [last]);
      if last.Say? && last.text == "" {
        LastTextOfTail(front);
      }
    }
  }

  /** No line ends within the tail, or one ends it. */
  predicate NothingToCut(tail: string) {
    '\n' !in tail || EndsLine(tail)
  }

  lemma EndsWithin(done: string, more: string)
    ensures EndsLine(done) ==> '\n' in done + more
  {
    if EndsLine(done) {
      assert (done + more)[|done| - 1] == '\n';
    }
  }

  lemma SettledJob(calls: seq<Call>, tspl: bool)
    requires NothingToCut(TailAfter("", calls))
    ensures Job(calls, tspl) == JobUpTo(RunsOf(calls).forced,
              if EndsLine(TailAfter("", calls)) then TailAfter("", calls) else "", tspl)
  {
    var done := JobOfRuns(calls, tspl);
    var tail := TailAfter("", calls);
    if EndsLine(tail) {
      LastTextOfTail(calls);
      HeldBackExactly(calls, tspl);
      assert done + "" == done;
    } else {
      EndsWithin(done, HeldBack(calls, tspl));
    }
  }

  /** The calls up to the last forcing one. */
  function FrontOf(calls: seq<Call>): seq<Call>
    decreases |calls|
  {
    if calls == [] || !calls[|calls| - 1].Say? then calls else FrontOf(calls[..|calls| - 1])
  }

  lemma {:induction false} FrontHoldsNothing(calls: seq<Call>, tspl: bool)
    ensures RunsOf(FrontOf(calls)) == Runs(RunsOf(calls).forced, "")
    ensures DoAll(FRESH, FrontOf(calls), tspl).buffer == []
    decreases |calls|
  {
    if calls != [] {
      var front, last := calls[..|calls| - 1], calls[|calls| - 1];
      assert calls == front + [last] && [last][1..] == [];
      RunsJoin("", front, [last]);
      if last.Say? {
        FrontHoldsNothing(front, tspl);
        assert Forced("", calls) == Forced("", front) + [];
      } else {
        DoAllLast(FRESH, front, last, tspl);
      }
    }
  }

  /** Where a line ends within the tail, the tail in one call and cut after that line put out
      different things. */
  lemma CutShows(calls: seq<Call>, k: nat, tspl: bool) returns (one: seq<Call>, two: seq<Call>)
    requires k + 1 < |TailAfter("", calls)| && TailAfter("", calls)[k] == '\n' && !EndsLine(TailAfter("", calls))
    ensures RunsOf(one) == RunsOf(calls) == RunsOf(two)
    ensures Job(one, tspl) != Job(two, tspl)
  {
    var tail, front := TailAfter("", calls), FrontOf(calls);
    var head, end := tail[..k + 1], tail[k + 1..];
    assert head + end == tail;
    one, two := front + [Say(tail)], front + [Say(head), Say(end)];
    FrontHoldsNothing(calls, tspl);
    SaidAfter(front, tail, tspl);
    SaidTwiceAfter(front, head, end, tspl);
    SomethingIsRendered(head, DoAll(FRESH, front, tspl).style);
    assert |Job(two, tspl)| > |Job(one, tspl)|;
  }

  lemma SaidAfter(front: seq<Call>, tail: string, tspl: bool)
    requires TailAfter("", front) == "" && DoAll(FRESH, front, tspl).buffer == []
    requires tail != "" && !EndsLine(tail)
    ensures RunsOf(front + [Say(tail)]) == Runs(RunsOf(front).forced, tail)
    ensures Job(front + [Say(tail)], tspl) == DoAll(FRESH, front, tspl).out
  {
    RunsJoin("", front, [Say(tail)]);
    assert [Say(tail)][1..] == [] && "" + tail == tail;
    assert Forced("", front) + [] == Forced("", front);
    DoAllLast(FRESH, front, Say(tail), tspl);
  }

  lemma TwoTexts(head: string, end: string)
    ensures Forced("", [Say(head), Say(end)]) == [] && TailAfter("", [Say(head), Say(end)]) == head + end
  {
    var says := [Say(head), Say(end)];
    assert says[1..] == [Say(end)] && [Say(end)][1..] == [] && "" + head == head;
    assert Forced(head, says[1..]) == Forced(head + end, []);
    assert TailAfter(head, says[1..]) == TailAfter(head + end, []);
  }

  lemma SaidTwiceAfter(front: seq<Call>, head: string, end: string, tspl: bool)
    requires TailAfter("", front) == "" && DoAll(FRESH, front, tspl).buffer == []
    requires EndsLine(head) && end != "" && !EndsLine(end)
    ensures RunsOf(front + [Say(head), Say(end)]) == Runs(RunsOf(front).forced, head + end)
    ensures Job(front + [Say(head), Say(end)], tspl)
         == DoAll(FRESH, front, tspl).out + Rendered(head, DoAll(FRESH, front, tspl).style)
  {
    var says := [Say(head), Say(end)];
    RunsJoin("", front, says);
    TwoTexts(head, end);
    assert Forced("", front) + [] == Forced("", front);
    DoAllJoin(FRESH, front, says, tspl);
    TwoTextsOut(DoAll(FRESH, front, tspl), head, end, tspl);
  }

  lemma TwoTextsOut(s: State, head: string, end: string, tspl: bool)
    requires s.buffer == [] && EndsLine(head) && end != "" && !EndsLine(end)
    ensures DoAll(s, [Say(head), Say(end)], tspl).out == s.out + Rendered(head, s.style)
  {
    TwoCalls(s, Say(head), Say(end), tspl);
    JoinedMore([], head);
    assert [] + [head] == [head] && "" + head == head;
  }

  /** All jobs with the same runs put out the same, exactly when no line ends within the text
      after the last forcing call, or one ends it. */
  lemma DivisionMattersExactly(calls: seq<Call>, tspl: bool)
    ensures (forall other :: RunsOf(other) == RunsOf(calls) ==> Job(other, tspl) == Job(calls, tspl))
            <==> NothingToCut(RunsOf(calls).tail)
  {
    var tail := TailAfter("", calls);
    if NothingToCut(tail) {
      SettledJob(calls, tspl);
      forall other | RunsOf(other) == RunsOf(calls)
        ensures Job(other, tspl) == Job(calls, tspl)
      {
        SettledJob(other, tspl);
      }
    } else {
      var k :| 0 <= k < |tail| && tail[k] == '\n';
      var one, two := CutShows(calls, k, tspl);
    }
  }

  // ----- the shim itself ------------------------------------------------------------------------

  /** The closure of the source: its buffer, its style, and what has gone out in this job. */
  class Shim {
    const tspl: bool
    var buffer: seq<string>
    var style: Style
    var out: seq<Output>

    function View(): State
      reads this
    {
      State(buffer, style, out)
    }

    constructor (tspl: bool)
      ensures View() == FRESH && this.tspl == tspl
    {
      this.tspl := tspl;
      buffer, style, out := [], DEFAULT_STYLE, [];
    }

    method FlushText()
      modifies `buffer, `out
      ensures View() == Flush(old(View()))
    {
      var chunk := Joined(buffer);
      buffer := [];
      var lines, started := [], "";
      assert chunk[0..] == chunk;
      for i := 0 to |chunk|
        invariant lines + LinesAfter(started, chunk[i..]) == LinesAfter("", chunk)
      {
        ghost var rest := chunk[i + 1..];
        assert chunk[i..] == [chunk[i]] + rest;
        if chunk[i] == '\n' {
          assert lines + ([started] + LinesAfter("", rest)) == (lines + [started]) + LinesAfter("", rest);
          lines, started := lines + [started], "";
        } else {
          started := started + [chunk[i]];
        }
      }
      if started != "" {
        lines := lines + [started];
      }
      assert lines == LinesAfter("", chunk);
      out := out + Styled(lines, style);
    }

    method Text(text: string)
      modifies `buffer, `out
      ensures View() == Do(old(View()), Say(text), tspl)
    {
      if text == "" {
        return;
      }
      buffer := buffer + [text];
      if text[|text| - 1] == '\n' {
        FlushText();
      }
    }

    method Set(change: Change)
      modifies `buffer, `out, `style
      ensures View() == Do(old(View()), Restyle(change), tspl)
    {
      FlushText();
      if change.align.Some? {
        style := style.(align := change.align.value);
      }
      if change.bold.Some? {
        style := style.(bold := change.bold.value);
      }
      if change.doubleHeight.Some? {
        style := style.(doubleHeight := change.doubleHeight.value);
      }
      if change.doubleWidth.Some? {
        style := style.(doubleWidth := change.doubleWidth.value);
      }
    }

    method CutOff()
      modifies `buffer, `out
      ensures View() == Do(old(View()), CutPaper, tspl)
    {
      FlushText();
      if !tspl {
        out := out + [Cut];
      }
    }

    method EmitImage(image: Image)
      modifies `buffer, `out
      ensures View() == Do(old(View()), Show(image), tspl)
    {
      FlushText();
      out := out + [Picture(image)];
    }

    /** `reset`: an unfinished line is thrown away and the style is the default again. */
    method ResetState()
      modifies `buffer, `style
      ensures View() == FRESH.(out := old(out))
    {
      buffer, style := [], DEFAULT_STYLE;
    }
  }
}
