/** The lines a job puts out: their style keyword by keyword, their text letter by letter, and
    the cuts and images between them. */
module TextLines {
  import opened Options
  import opened TextShim

  // ----- the style of a line --------------------------------------------------------

  /** What the calls said of each keyword, where they gave it. */
  function Bolds(calls: seq<Call>): seq<Option<bool>> {
    seq(|calls|, i requires 0 <= i < |calls| => if calls[i].Restyle? then calls[i].change.bold else None)
  }

  function Aligns(calls: seq<Call>): seq<Option<string>> {
    seq(|calls|, i requires 0 <= i < |calls| => if calls[i].Restyle? then calls[i].change.align else None)
  }

  function DoubleHeights(calls: seq<Call>): seq<Option<bool>> {
    seq(|calls|, i requires 0 <= i < |calls| => if calls[i].Restyle? then calls[i].change.doubleHeight else None)
  }

  function DoubleWidths(calls: seq<Call>): seq<Option<bool>> {
    seq(|calls|, i requires 0 <= i < |calls| => if calls[i].Restyle? then calls[i].change.doubleWidth else None)
  }

  /** The value is what was given last, or, where nothing ever was, the one to begin with. */
  ghost predicate LastGiven<T(!new)>(given: seq<Option<T>>, first: T, value: T) {
    || (value == first && forall i :: 0 <= i < |given| ==> given[i].None?)
    || (exists i :: 0 <= i < |given| && given[i] == Some(value) && forall j :: i < j < |given| ==> given[j].None?)
  }

  /** Each keyword of the style is what the last call that gave it said, whatever the others
      gave since; one never given is plain, left and of single size. */
  ghost predicate InForce(calls: seq<Call>, style: Style) {
    && LastGiven(Bolds(calls), false, style.bold)
    && LastGiven(Aligns(calls), "left", style.align)
    && LastGiven(DoubleHeights(calls), false, style.doubleHeight)
    && LastGiven(DoubleWidths(calls), false, style.doubleWidth)
  }

  lemma LastGivenMore<T(!new)>(given: seq<Option<T>>, last: Option<T>, all: seq<Option<T>>, first: T, value: T)
    requires LastGiven(given, first, value) && all == given + [last]
    ensures LastGiven(all, first, if last.Some? then last.value else value)
  {
    if last.Some? {
      assert all[|given|] == Some(last.value);
    } else if exists i :: 0 <= i < |given| && given[i] == Some(value) && forall j :: i < j < |given| ==> given[j].None? {
      var i :| 0 <= i < |given| && given[i] == Some(value) && forall j :: i < j < |given| ==> given[j].None?;
      assert all[i] == Some(value);
    }
  }

  lemma SizesWithOneMore(calls: seq<Call>, last: Call, before: Style, after: Style, tspl: bool)
    requires InForce(calls, before) && after == Do(FRESH.(style := before), last, tspl).style
    ensures LastGiven(DoubleHeights(calls + [last]), false, after.doubleHeight)
    ensures LastGiven(DoubleWidths(calls + [last]), false, after.doubleWidth)
  {
    var c := if last.Restyle? then last.change else Change(None, None, None, None);
    LastGivenMore(DoubleHeights(calls), c.doubleHeight, DoubleHeights(calls + [last]), false, before.doubleHeight);
    LastGivenMore(DoubleWidths(calls), c.doubleWidth, DoubleWidths(calls + [last]), false, before.doubleWidth);
  }

  lemma StyleWithOneMore(calls: seq<Call>, last: Call, before: Style, after: Style, tspl: bool)
    requires InForce(calls, before) && after == Do(FRESH.(style := before), last, tspl).style
    ensures InForce(calls + [last], after)
  {
    var c := if last.Restyle? then last.change else Change(None, None, None, None);
    LastGivenMore(Bolds(calls), c.bold, Bolds(calls + [last]), false, before.bold);
    LastGivenMore(Aligns(calls), c.align, Aligns(calls + [last]), "left", before.align);
    SizesWithOneMore(calls, last, before, after, tspl);
  }

  lemma {:induction false} StyleAfterCalls(calls: seq<Call>, tspl: bool)
    ensures InForce(calls, DoAll(FRESH, calls, tspl).style)
    decreases |calls|
  {
    if calls != [] {
      var front, last := calls[..|calls| - 1], calls[|calls| - 1];
      assert calls == front + [last];
      StyleAfterCalls(front, tspl);
      DoAllLast(FRESH, front, last, tspl);
      StyleWithOneMore(front, last, DoAll(FRESH, front, tspl).style, DoAll(FRESH, calls, tspl).style, tspl);
    }
  }

  /** What has gone out stays, and every line a call puts out has the style the calls before it
      set: one that changes the style does not change the line it forces out. */
  lemma LinesGoOutInTheStyleInForce(calls: seq<Call>, call: Call, tspl: bool)
    ensures var before, after := Job(calls, tspl), Job(calls + [call], tspl);
            && before <= after
            && forall k :: |before| <= k < |after| && after[k].Line? ==> InForce(calls, after[k].style)
  {
    StyleAfterCalls(calls, tspl);
    DoAllLast(FRESH, calls, call, tspl);
    var s := DoAll(FRESH, calls, tspl);
    var t := Do(s, call, tspl);
    assert forall k :: |s.out| <= k < |t.out| && t.out[k].Line? ==> t.out[k].style == s.style;
  }

  // ----- the text of the lines ----------------------------------------------------------

  function WithEnds(lines: seq<string>): string {
    if lines == [] then "" else lines[0] + "\n" + WithEnds(lines[1..])
  }

  /** Written one below the other the lines give the text back, with an end for its last line
      if that had none; none of them has a line end within. */
  lemma {:induction false} LinesGiveTheTextBack(started: string, text: string)
    requires '\n' !in started
    ensures WithEnds(LinesAfter(started, text))
         == started + text + (if started + text == "" || EndsLine(started + text) then "" else "\n")
    ensures forall line :: line in LinesAfter(started, text) ==> '\n' !in line
    decreases |text|
  {
    if text == "" {
      assert started + text == started;
      assert started != "" ==> !EndsLine(started);
      assert [started][1..] == [];
    } else {
      var rest := text[1..];
      assert text == [text[0]] + rest;
      if text[0] == '\n' {
        LinesGiveTheTextBack("", rest);
        FirstLineBack(started, rest);
      } else {
        LinesGiveTheTextBack(started + [text[0]], rest);
        assert started + [text[0]] + rest == started + text;
      }
    }
  }

  lemma FirstLineBack(started: string, rest: string)
    ensures WithEnds([started] + LinesAfter("", rest)) == started + "\n" + WithEnds(LinesAfter("", rest))
    ensures var end := (if rest == "" || EndsLine(rest) then "" else "\n"); var text := "\n" + rest;
            && started + "\n" + (rest + end) == started + text + end
            && (EndsLine(started + text) <==> rest == "" || EndsLine(rest))
    ensures "" + rest == rest
  {
    assert ([started] + LinesAfter("", rest))[1..] == LinesAfter("", rest);
    var all := started + ("\n" + rest);
    assert all[|all| - 1] == if rest == "" then '\n' else rest[|rest| - 1];
  }

  /** The letters of a text, without its line ends. */
  function Letters(text: string): string {
    if text == "" then ""
    else Letters(text[..|text| - 1]) + (if text[|text| - 1] == '\n' then "" else [text[|text| - 1]])
  }

  function LettersOut(out: seq<Output>): string {
    if out == [] then ""
    else
      var last := out[|out| - 1];
      LettersOut(out[..|out| - 1]) + (if last.Line? then last.text else "")
  }

  function LettersSaid(calls: seq<Call>): string {
    if calls == [] then ""
    else
      var last := calls[|calls| - 1];
      LettersSaid(calls[..|calls| - 1]) + (if last.Say? then Letters(last.text) else "")
  }

  lemma {:induction false} LettersJoin(a: string, b: string)
    ensures Letters(a + b) == Letters(a) + Letters(b)
    decreases |b|
  {
    if b == "" {
      assert a + b == a;
    } else {
      assert (a + b)[..|a + b| - 1] == a + b[..|b| - 1];
      LettersJoin(a, b[..|b| - 1]);
    }
  }

  lemma {:induction false} LettersOutJoin(a: seq<Output>, b: seq<Output>)
    ensures LettersOut(a + b) == LettersOut(a) + LettersOut(b)
    decreases |b|
  {
    if b == [] {
      assert a + b == a;
    } else {
      assert (a + b)[..|a + b| - 1] == a + b[..|b| - 1];
      LettersOutJoin(a, b[..|b| - 1]);
    }
  }

  lemma StyledFirst(first: string, lines: seq<string>, style: Style)
    ensures Styled([first] + lines, style) == [Line(first, style)] + Styled(lines, style)
    ensures LettersOut(Styled([first] + lines, style)) == first + LettersOut(Styled(lines, style))
  {
    LettersOutJoin([Line(first, style)], Styled(lines, style));
    assert [Line(first, style)][..0] == [];
    assert LettersOut([Line(first, style)]) == first;
  }

  lemma {:induction false} LettersOfLines(started: string, text: string, style: Style)
    ensures LettersOut(Styled(LinesAfter(started, text), style)) == started + Letters(text)
    decreases |text|
  {
    if text == "" {
      if started != "" {
        StyledFirst(started, [], style);
        assert [started] + [] == [started] && LettersOut(Styled([], style)) == "";
      }
    } else {
      var rest := text[1..];
      assert text == [text[0]] + rest;
      LettersJoin([text[0]], rest);
      assert [text[0]][..0] == "";
      if text[0] == '\n' {
        LettersOfLines("", rest, style);
        StyledFirst(started, LinesAfter("", rest), style);
        assert "" + Letters(rest) == Letters(rest);
      } else {
        LettersOfLines(started + [text[0]], rest, style);
      }
    }
  }

  lemma LettersOfFlush(s: State)
    ensures LettersOut(Flush(s).out) == LettersOut(s.out) + Letters(Joined(s.buffer))
  {
    LettersOutJoin(s.out, Rendered(Joined(s.buffer), s.style));
    LettersOfLines("", Joined(s.buffer), s.style);
  }

  /** Letters gone out and held back. */
  function LettersOf(s: State): string {
    LettersOut(s.out) + Letters(Joined(s.buffer))
  }

  lemma FlushMovesLetters(s: State)
    ensures LettersOf(Flush(s)) == LettersOf(s)
  {
    LettersOfFlush(s);
    assert LettersOut(Flush(s).out) + "" == LettersOut(Flush(s).out);
  }

  lemma LettersOfSay(s: State, text: string, tspl: bool)
    ensures LettersOf(Do(s, Say(text), tspl)) == LettersOf(s) + Letters(text)
  {
    if text == "" {
      assert LettersOf(s) + "" == LettersOf(s);
    } else {
      var longer := s.(buffer := s.buffer + [text]);
      JoinedMore(s.buffer, text);
      LettersJoin(Joined(s.buffer), text);
      assert LettersOf(longer) == LettersOf(s) + Letters(text);
      FlushMovesLetters(longer);
      assert Do(s, Say(text), tspl) == if EndsLine(text) then Flush(longer) else longer;
    }
  }

  lemma LettersOfMark(s: State, call: Call, tspl: bool)
    requires !call.Say?
    ensures LettersOf(Do(s, call, tspl)) == LettersOf(s)
  {
    FlushMovesLetters(s);
    var out := Flush(s).out;
    if call.CutPaper? {
      assert (out + [Cut])[..|out|] == out;
    } else if call.Show? {
      assert (out + [Picture(call.image)])[..|out|] == out;
    }
  }

  /** No letter is lost, doubled or moved: those put out and those held back are those said. */
  lemma {:induction false} NoLetterIsLost(calls: seq<Call>, tspl: bool)
    ensures LettersOut(Job(calls, tspl)) + Letters(HeldBack(calls, tspl)) == LettersSaid(calls)
    decreases |calls|
  {
    if calls != [] {
      var front, last := calls[..|calls| - 1], calls[|calls| - 1];
      assert calls == front + [last];
      NoLetterIsLost(front, tspl);
      DoAllLast(FRESH, front, last, tspl);
      if last.Say? {
        LettersOfSay(DoAll(FRESH, front, tspl), last.text, tspl);
      } else {
        LettersOfMark(DoAll(FRESH, front, tspl), last, tspl);
      }
    }
  }

  // ----- cuts and images ---------------------------------------------------------------------

  function MarksOut(out: seq<Output>): seq<Output> {
    if out == [] then []
    else
      var last := out[|out| - 1];
      MarksOut(out[..|out| - 1]) + (if last.Line? then [] else [last])
  }

  function MarksCalled(calls: seq<Call>, tspl: bool): seq<Output> {
    if calls == [] then []
    else
      MarksCalled(calls[..|calls| - 1], tspl)
      + match calls[|calls| - 1]
        case CutPaper => if tspl then [] else [Cut]
        case Show(image) => [Picture(image)]
        case Say(_) => []
        case Restyle(_) => []
  }

  lemma {:induction false} MarksJoin(a: seq<Output>, b: seq<Output>)
    ensures MarksOut(a + b) == MarksOut(a) + MarksOut(b)
    decreases |b|
  {
    if b == [] {
      assert a + b == a;
    } else {
      assert (a + b)[..|a + b| - 1] == a + b[..|b| - 1];
      MarksJoin(a, b[..|b| - 1]);
    }
  }

  lemma {:induction false} LinesHaveNoMarks(lines: seq<string>, style: Style)
    ensures MarksOut(Styled(lines, style)) == []
    decreases |lines|
  {
    if lines != [] {
      assert Styled(lines, style)[..|lines| - 1] == Styled(lines[..|lines| - 1], style);
      LinesHaveNoMarks(lines[..|lines| - 1], style);
    }
  }

  lemma MarksOfFlush(s: State)
    ensures MarksOut(Flush(s).out) == MarksOut(s.out)
  {
    MarksJoin(s.out, Rendered(Joined(s.buffer), s.style));
    LinesHaveNoMarks(LinesAfter("", Joined(s.buffer)), s.style);
  }

  lemma OneMark(out: seq<Output>, mark: Output)
    requires !mark.Line?
    ensures MarksOut(out + [mark]) == MarksOut(out) + [mark]
  {
    assert (out + [mark])[..|out|] == out;
  }

  lemma MarksOfStep(s: State, call: Call, tspl: bool)
    ensures var marks := MarksOut(Do(s, call, tspl).out);
            match call
            case CutPaper => marks == MarksOut(s.out) + (if tspl then [] else [Cut])
            case Show(image) => marks == MarksOut(s.out) + [Picture(image)]
            case Say(_) => marks == MarksOut(s.out)
            case Restyle(_) => marks == MarksOut(s.out)
  {
    MarksOfFlush(s);
    if call.Say? {
      MarksOfFlush(s.(buffer := s.buffer + [call.text]));
    } else if call.CutPaper? {
      OneMark(Flush(s).out, Cut);
    } else if call.Show? {
      OneMark(Flush(s).out, Picture(call.image));
    }
  }

  /** Every cut and image called for goes out once, in their order; on a label printer, which
      has no knife, the images alone. */
  lemma {:induction false} MarksArrive(calls: seq<Call>, tspl: bool)
    ensures MarksOut(Job(calls, tspl)) == MarksCalled(calls, tspl)
    decreases |calls|
  {
    if calls != [] {
      var front, last := calls[..|calls| - 1], calls[|calls| - 1];
      assert calls == front + [last];
      MarksArrive(front, tspl);
      DoAllLast(FRESH, front, last, tspl);
      MarksOfStep(DoAll(FRESH, front, tspl), last, tspl);
    }
  }
}
