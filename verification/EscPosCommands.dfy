/** The commands that only set the printer up, which a receipt does not show, and the bytes that
    feed paper or stand for others. */
module EscPosCommands {
  import opened Images
  import opened Options
  import opened BitmapRender
  import opened EscPosPrinter
  import opened EscPosStream
  import opened EscPosQueries

  /** Spacing, font, underline, double strike, rotation and the like, with one argument. */
  predicate SetsUp(c: byte) {
    c in {0x33, 0x4D, 0x47, 0x2D, 0x7B, 0x52, 0x56, 0x20, 0x63}
  }

  /** Reverse and barcode setup, with one argument; margins, with two. */
  predicate SetsUpCodes(c: byte) {
    c in {0x42, 0x68, 0x77, 0x48, 0x66, 0x72, 0x61}
  }

  /** All of a command that nothing shows: setup, the cash drawer, a real-time request, a filler,
      and any ESC or GS command that is not known at all. */
  predicate Unseen(cmd: seq<byte>) {
    || (|cmd| == 3 && cmd[0] == 0x1B && SetsUp(cmd[1]))
    || (|cmd| == 5 && cmd[0] == 0x1B && cmd[1] == 0x70)
    || (|cmd| == 2 && cmd[0] == 0x1B && !SetsUp(cmd[1]) && cmd[1] !in {0x40, 0x61, 0x45, 0x21, 0x74, 0x64, 0x4A, 0x70})
    || (|cmd| == 3 && cmd[0] == 0x1D && SetsUpCodes(cmd[1]))
    || (|cmd| == 4 && cmd[0] == 0x1D && cmd[1] in {0x4C, 0x57})
    || (|cmd| == 2 && cmd[0] == 0x1D && !SetsUpCodes(cmd[1]) && cmd[1] !in {0x4C, 0x57, 0x76, 0x56, 0x21})
    || (|cmd| == 5 && cmd[0] == 0x10 && cmd[1] == 0x14)
    || cmd == [0x0D] || cmd == [0x00]
  }

  lemma UnseenIsWhole(cmd: seq<byte>, rest: seq<byte>)
    requires Unseen(cmd)
    ensures CommandLength(cmd) == |cmd| == CommandLength(cmd + rest)
  {
    LengthOfPrefix(cmd, rest);
  }

  lemma UnseenDoesNothing(s: Interp, cmd: seq<byte>)
    requires Unseen(cmd) && Whole(cmd)
    ensures Effect(s, cmd) == s && Reply(cmd) == []
  {
  }

  lemma UnseenTurn(s: Interp, cmd: seq<byte>, rest: seq<byte>)
    requires Unseen(cmd) && s.buf == cmd + rest
    ensures Drain(s) == Drain(s.(buf := rest))
  {
    UnseenIsWhole(cmd, rest);
    UnseenDoesNothing(s, cmd);
    assert s.buf[..|cmd|] == cmd && s.buf[|cmd|..] == rest;
    DrainUnfolds(s, s.(buf := rest), []);
    assert [] + Drain(s.(buf := rest)).1 == Drain(s.(buf := rest)).1;
  }

  /** Wherever a command may stand, any number of these change nothing of what is printed or
      answered. */
  lemma {:induction false} SetupIsNotSeen(s: Interp, setup: seq<seq<byte>>, rest: seq<byte>)
    requires (forall i :: 0 <= i < |setup| ==> Unseen(setup[i])) && s.buf == Concat(setup) + rest
    ensures Drain(s) == Drain(s.(buf := rest))
    decreases |setup|
  {
    if setup == [] {
      assert s.buf == rest;
    } else {
      var more := Concat(setup[1..]) + rest;
      Associative(setup[0], Concat(setup[1..]), rest);
      UnseenTurn(s, setup[0], more);
      SetupIsNotSeen(s.(buf := more), setup[1..], rest);
    }
  }

  // ----- paper and blanks -------------------------------------------------------------

  /** The text that is pending becomes a line of its own. */
  function Ended(s: Interp): seq<Op> {
    if s.text == [] then s.ops else s.ops + [Text(s.text, s.codec, s.style)]
  }

  /** `ESC J n` feeds n dots, `ESC d n` six dots a line and at least one line, behind the text
      that is pending; `ESC @` takes the style back. */
  lemma PaperIsFed(s: Interp, n: byte, rest: seq<byte>)
    ensures Drain(s.(buf := [0x1B, 0x4A, n] + rest)) == Drain(s.(buf := rest, ops := s.ops + [Gap(n)]))
    ensures Drain(s.(buf := [0x1B, 0x64, n] + rest))
         == Drain(s.(buf := rest, text := [], ops := Ended(s) + [Gap(if n < 1 then 6 else 6 * n)]))
    ensures Drain(s.(buf := [0x1B, 0x40] + rest)) == Drain(s.(buf := rest, style := Style(false, Left, false, false)))
  {
    CommandTurn(s.(buf := [0x1B, 0x4A, n] + rest), [0x1B, 0x4A, n], rest);
    CommandTurn(s.(buf := [0x1B, 0x64, n] + rest), [0x1B, 0x64, n], rest);
    CommandTurn(s.(buf := [0x1B, 0x40] + rest), [0x1B, 0x40], rest);
  }

  /** A tab is four blanks. A line feed ends the pending text; with none pending it is a blank line,
      but not straight after a picture. */
  lemma BlanksAndLines(s: Interp, rest: seq<byte>)
    ensures Drain(s.(buf := [0x09] + rest)) == Drain(s.(buf := rest, text := s.text + [0x20, 0x20, 0x20, 0x20]))
    ensures s.text != [] ==> Drain(s.(buf := [0x0A] + rest)) == Drain(s.(buf := rest, text := [], ops := Ended(s)))
    ensures s.text == [] && (s.ops == [] || !s.ops[|s.ops| - 1].Raster?) ==>
              Drain(s.(buf := [0x0A] + rest)) == Drain(s.(buf := rest, ops := s.ops + [Text([], s.codec, s.style)]))
    ensures s.text == [] && s.ops != [] && s.ops[|s.ops| - 1].Raster? ==>
              Drain(s.(buf := [0x0A] + rest)) == Drain(s.(buf := rest))
  {
    CommandTurn(s.(buf := [0x09] + rest), [0x09], rest);
    CommandTurn(s.(buf := [0x0A] + rest), [0x0A], rest);
  }
}
