/** The lines of the label language as they are read: which begin a command, what a PRINT does, and
    where the numbers of a BITMAP header stand. */
module TsplCommands {
  import opened Images
  import opened Options
  import opened Numerals
  import opened TsplRender
  import opened TsplPrinter
  import opened TsplStream

  /** A capital letter, or the small one in its place. */
  predicate EitherCase(b: byte, capital: byte) {
    b == capital || b == capital + 32
  }

  predicate Begins(line: seq<byte>, word: seq<byte>)
    requires forall i :: 0 <= i < |word| ==> 65 <= word[i] <= 90
  {
    |word| <= |line| && forall i :: 0 <= i < |word| ==> EitherCase(line[i], word[i])
  }

  lemma BeginsInEitherCase(line: seq<byte>, word: seq<byte>)
    requires forall i :: 0 <= i < |word| ==> 65 <= word[i] <= 90
    ensures Begins(line, word) <==> StartsWith(line, word)
  {
    forall i | 0 <= i < |word| && i < |line|
      ensures EitherCase(line[i], word[i]) <==> Upper(line[i]) == word[i]
    {
    }
  }

  /** Only a line that begins with SIZE or PRINT, in capitals or small letters, is more than
      skipped. A PRINT hands the picture over that came before it, and where none did, nothing. */
  lemma LineMeans(s: Interp, line: seq<byte>)
    requires !Chokes(line)
    ensures var text, t := Strip(line), HandleLine(s, line);
            var sizes, prints := Begins(text, [83, 73, 90, 69]), Begins(text, [80, 82, 73, 78, 84]);
            && (sizes ==> t == s.(size := text))
            && (!sizes && !prints ==> t == s)
            && (prints && s.current.None? ==> t == s)
            && (prints && s.current.Some? && s.current.value.bytesPerRow > 0 && s.current.value.rows != [] ==>
                  t == s.(current := None, labels := s.labels + [s.current.value]))
  {
    var text := Strip(line);
    BeginsInEitherCase(text, SIZE);
    BeginsInEitherCase(text, PRINT);
    assert StartsWith(text, SIZE) ==> Upper(text[0]) == SIZE[0];
    assert StartsWith(text, PRINT) ==> Upper(text[0]) == PRINT[0];
  }

  // ----- the header of a picture ------------------------------------------------------

  predicate NoComma(field: seq<byte>) {
    forall i :: 0 <= i < |field| ==> field[i] != 44
  }

  lemma {:induction false} FirstComma(s: seq<byte>, from: nat, at: nat, limit: nat)
    requires from <= at < |s| && s[at] == COMMA && limit > 0 && forall i :: from <= i < at ==> s[i] != COMMA
    ensures Commas(s, from, limit) == [at] + Commas(s, at + 1, limit - 1)
    decreases at - from
  {
    if from < at {
      FirstComma(s, from + 1, at, limit);
    }
  }

  /** From there on stand these fields, each without a comma and with one behind it. */
  predicate Listed(s: seq<byte>, from: nat, fields: seq<seq<byte>>)
    decreases |fields|
  {
    || fields == []
    || (var end := from + |fields[0]|;
        && end < |s| && s[from..end] == fields[0] && NoComma(fields[0]) && s[end] == 44
        && Listed(s, end + 1, fields[1..]))
  }

  /** Where their commas stand. */
  function Ends(from: nat, fields: seq<seq<byte>>): (at: seq<nat>)
    ensures |at| == |fields|
    decreases |fields|
  {
    if fields == [] then [] else [from + |fields[0]|] + Ends(from + |fields[0]| + 1, fields[1..])
  }

  lemma FieldEnds(s: seq<byte>, from: nat, end: nat, limit: nat)
    requires from <= end < |s| && NoComma(s[from..end]) && s[end] == 44 && limit > 0
    ensures Commas(s, from, limit) == [end] + Commas(s, end + 1, limit - 1)
  {
    assert forall i :: from <= i < end ==> s[i] == s[from..end][i - from];
    FirstComma(s, from, end, limit);
  }

  lemma {:induction false} CommasOfFields(s: seq<byte>, from: nat, fields: seq<seq<byte>>)
    requires Listed(s, from, fields) && from <= |s|
    ensures Commas(s, from, |fields|) == Ends(from, fields)
    decreases |fields|
  {
    if fields != [] {
      var end := from + |fields[0]|;
      FieldEnds(s, from, end, |fields|);
      CommasOfFields(s, end + 1, fields[1..]);
    }
  }

  lemma {:induction false} FieldAt(s: seq<byte>, from: nat, fields: seq<seq<byte>>, i: nat)
    requires Listed(s, from, fields) && 0 < i < |fields|
    ensures var at := Ends(from, fields); at[i - 1] < at[i] < |s| && s[at[i - 1] + 1..at[i]] == fields[i]
    decreases |fields|
  {
    var end, later := from + |fields[0]|, fields[1..];
    assert Listed(s, end + 1, later) && later[i - 1] == fields[i];
    assert Ends(end + 1, later)[i - 1] == Ends(from, fields)[i];
    if i > 1 {
      FieldAt(s, end + 1, later, i - 1);
      assert Ends(end + 1, later)[i - 2] == Ends(from, fields)[i - 1];
    }
  }

  /** Of the five fields a header has, each ended by a comma, the third and the fourth are the
      bytes to the row and the rows; without two numbers there the header is only skipped. */
  lemma HeaderFields(s: seq<byte>, fields: seq<seq<byte>>)
    requires |fields| == 5 && Listed(s, 0, fields)
    ensures var used, width, height := Ends(0, fields)[4] + 1, IntValue(fields[2]), IntValue(fields[3]);
            ReadHeader(s) == if width.Some? && height.Some? then Numbers(used, width.value, height.value) else Malformed(used)
  {
    CommasOfFields(s, 0, fields);
    FieldAt(s, 0, fields, 2);
    FieldAt(s, 0, fields, 3);
    HeaderFrom(s, Ends(0, fields), fields[2], fields[3]);
  }

  lemma HeaderFrom(s: seq<byte>, at: seq<nat>, c: seq<byte>, d: seq<byte>)
    requires |at| == 5 && Commas(s, 0, 5) == at
    requires at[1] < at[2] < at[3] < |s| && s[at[1] + 1..at[2]] == c && s[at[2] + 1..at[3]] == d
    ensures ReadHeader(s) == if IntValue(c).Some? && IntValue(d).Some?
                             then Numbers(at[4] + 1, IntValue(c).value, IntValue(d).value) else Malformed(at[4] + 1)
  {
    assert ReadHeader(s) == HeaderAt(s, at);
  }

  // ----- what stands between lines -----------------------------------------------------

  /** Line ends with no line before them are skipped, and so is a DLE that begins no query. */
  lemma StrayBytes(s: Interp, b: byte, c: byte, rest: seq<byte>)
    requires !s.dead && s.mode.Commands?
    ensures Drain(s.(buf := [13] + rest)) == Drain(s.(buf := rest)) && Drain(s.(buf := [10] + rest)) == Drain(s.(buf := rest))
    ensures b != 4 ==> Drain(s.(buf := [16, b, c] + rest)) == Drain(s.(buf := [b, c] + rest))
  {
    assert ([13] + rest)[1..] == rest && ([10] + rest)[1..] == rest && ([16, b, c] + rest)[1..] == [b, c] + rest;
    assert Step(s.(buf := [13] + rest)) == Advance(s.(buf := rest), []);
    assert Step(s.(buf := [10] + rest)) == Advance(s.(buf := rest), []);
    assert b != 4 ==> Step(s.(buf := [16, b, c] + rest)) == Advance(s.(buf := [b, c] + rest), []);
    assert [] + Drain(s.(buf := rest)).1 == Drain(s.(buf := rest)).1;
    assert [] + Drain(s.(buf := [b, c] + rest)).1 == Drain(s.(buf := [b, c] + rest)).1;
  }
}
