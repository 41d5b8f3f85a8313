/** Numbers on the wire: what an f-string prints for a non-negative integer, what Python's
    `int()` accepts when it reads one back, and what `float()` makes of a text. */
module Numerals {
  import opened Images
  import opened Options

  predicate IsDigit(b: byte) {
    48 <= b <= 57
  }

  /** White space as C has it. */
  predicate IsBlank(b: byte) {
    9 <= b <= 13 || b == 32
  }

  /** ASCII white space as `str.strip()` sees it: four separators count as well. */
  predicate IsSpace(b: byte) {
    IsBlank(b) || 28 <= b <= 31
  }

  function StripLeft(s: seq<byte>): (r: seq<byte>)
    ensures |r| <= |s|
  {
    if s != [] && IsSpace(s[0]) then StripLeft(s[1..]) else s
  }

  function StripRight(s: seq<byte>): (r: seq<byte>)
    ensures |r| <= |s|
  {
    if s != [] && IsSpace(s[|s| - 1]) then StripRight(s[..|s| - 1]) else s
  }

  function Strip(s: seq<byte>): seq<byte> {
    StripRight(StripLeft(s))
  }

  /** What `int()` skips before and behind a number: blanks only. */
  function Trimmed(s: seq<byte>): seq<byte>
    decreases |s|
  {
    if s != [] && IsBlank(s[0]) then Trimmed(s[1..])
    else if s != [] && IsBlank(s[|s| - 1]) then Trimmed(s[..|s| - 1])
    else s
  }

  /** Digits, single underscores allowed between two of them. */
  function DigitsValue(s: seq<byte>): Option<nat>
    decreases |s|
  {
    if s == [] || !IsDigit(s[|s| - 1]) then None
    else
      var last := s[|s| - 1] - 48;
      if |s| == 1 then Some(last)
      else
        var front := if s[|s| - 2] == 95 then s[..|s| - 2] else s[..|s| - 1];
        match DigitsValue(front)
        case None => None
        case Some(v) => Some(v * 10 + last)
  }

  /** Digits and underscores, a digit first and last, and no two underscores side by side. */
  predicate Grouped(s: seq<byte>) {
    && s != [] && IsDigit(s[0]) && IsDigit(s[|s| - 1])
    && (forall i :: 0 <= i < |s| ==> IsDigit(s[i]) || s[i] == 95)
    && (forall i :: 0 < i < |s| ==> IsDigit(s[i]) || IsDigit(s[i - 1]))
  }

  lemma GroupedOneLess(s: seq<byte>, n: nat)
    requires |s| >= 2 && IsDigit(s[|s| - 1]) && n == if s[|s| - 2] == 95 then |s| - 2 else |s| - 1
    ensures Grouped(s) <==> Grouped(s[..n])
  {
    var front := s[..n];
    if Grouped(front) {
      assert front[n - 1] == s[n - 1] && front[0] == s[0];
      forall i | 0 <= i < |s|
        ensures (IsDigit(s[i]) || s[i] == 95) && (i > 0 ==> IsDigit(s[i]) || IsDigit(s[i - 1]))
      {
        assert i < n ==> front[i] == s[i];
      }
    }
    if Grouped(s) {
      assert n > 0 && IsDigit(s[n - 1]) && front[n - 1] == s[n - 1] && front[0] == s[0];
    }
  }

  /** These and no others are read as digits. */
  lemma {:induction false} DigitsAccepted(s: seq<byte>)
    ensures DigitsValue(s).Some? <==> Grouped(s)
    decreases |s|
  {
    if |s| >= 2 && IsDigit(s[|s| - 1]) {
      var n := if s[|s| - 2] == 95 then |s| - 2 else |s| - 1;
      GroupedOneLess(s, n);
      DigitsAccepted(s[..n]);
    }
  }

  lemma SignStays(sign: byte, digits: seq<byte>)
    requires Grouped(digits) && (sign == 43 || sign == 45)
    ensures Trimmed([sign] + digits) == [sign] + digits && ([sign] + digits)[1..] == digits
  {
    var s := [sign] + digits;
    assert s[|s| - 1] == digits[|digits| - 1];
  }

  /** A minus takes the number away from nought, a plus changes nothing, and neither counts towards
      the digits there may be. */
  lemma SignsAreRead(sign: byte, digits: seq<byte>)
    requires Grouped(digits) && CountDigits(digits) <= 4300 && (sign == 43 || sign == 45)
    ensures DigitsValue(digits).Some?
    ensures IntValue(digits) == Some(DigitsValue(digits).value)
    ensures IntValue([sign] + digits) == Some(if sign == 45 then 0 - DigitsValue(digits).value else DigitsValue(digits).value)
  {
    DigitsAccepted(digits);
    SignStays(sign, digits);
    assert Trimmed(digits) == digits && Unsigned(digits) == digits && Unsigned([sign] + digits) == digits;
  }

  /** How many digits stand among single underscores. */
  function CountDigits(s: seq<byte>): nat {
    if s == [] then 0 else CountDigits(s[1..]) + if s[0] == 95 then 0 else 1
  }

  /** The longest text of digits that `int()` converts. */
  const DIGIT_LIMIT: nat := 4300

  /** One sign, if any, and digits. */
  function SignedValue(t: seq<byte>): Option<int> {
    if t != [] && (t[0] == 45 || t[0] == 43) then
      match DigitsValue(t[1..])
      case None => None
      case Some(v) => if t[0] == 45 then Some(0 - v as int) else Some(v)
    else
      match DigitsValue(t)
      case None => None
      case Some(v) => Some(v)
  }

  function Unsigned(t: seq<byte>): seq<byte> {
    if t != [] && (t[0] == 45 || t[0] == 43) then t[1..] else t
  }

  /** `int(text)`: blanks around, one sign, then digits, not too many; None is the ValueError. */
  function IntValue(text: seq<byte>): Option<int> {
    var t := Trimmed(text);
    if CountDigits(Unsigned(t)) > DIGIT_LIMIT then None else SignedValue(t)
  }

  function Decimal(n: nat): (s: seq<byte>)
    ensures |s| > 0
    ensures forall i :: 0 <= i < |s| ==> IsDigit(s[i])
  {
    if n < 10 then [48 + n] else Decimal(n / 10) + [48 + n % 10]
  }

  lemma {:induction false} DigitsOfDecimal(n: nat)
    ensures DigitsValue(Decimal(n)) == Some(n)
  {
    if n >= 10 {
      DigitsOfDecimal(n / 10);
      var s := Decimal(n);
      assert s[..|s| - 1] == Decimal(n / 10);
    }
  }

  lemma {:induction false} CountOfDigits(s: seq<byte>)
    requires forall i :: 0 <= i < |s| ==> IsDigit(s[i])
    ensures CountDigits(s) == |s|
  {
    if s != [] {
      CountOfDigits(s[1..]);
    }
  }

  /** A number that can be printed at all; `str()` has the same limit as `int()`. */
  predicate Short(n: nat) {
    |Decimal(n)| <= DIGIT_LIMIT
  }

  /** A printed number reads back as itself. */
  lemma IntOfDecimal(n: nat)
    ensures IntValue(Decimal(n)) == if Short(n) then Some(n) else None
  {
    var s := Decimal(n);
    assert IsDigit(s[0]) && IsDigit(s[|s| - 1]);
    CountOfDigits(s);
    DigitsOfDecimal(n);
  }

  function Power(base: nat, n: nat): nat {
    if n == 0 then 1 else base * Power(base, n - 1)
  }

  lemma {:induction false} LengthOfDecimal(n: nat, k: nat)
    requires n < Power(10, k) && k > 0
    ensures |Decimal(n)| <= k
  {
    assert Power(10, 1) == 10 * Power(10, 0);
    if n >= 10 {
      LengthOfDecimal(n / 10, k - 1);
    }
  }

  /** Without its last digits. */
  function Shifted(n: nat, digits: nat): nat {
    if digits == 0 then n else Shifted(n / 10, digits - 1)
  }

  /** Digit by digit, from the right; the first is a nought in nought alone. */
  lemma {:induction false} DecimalAt(n: nat, k: nat)
    requires k < |Decimal(n)|
    ensures Decimal(n)[|Decimal(n)| - 1 - k] == 48 + Shifted(n, k) % 10
    ensures Shifted(n, |Decimal(n)|) == 0 && (n > 0 ==> Decimal(n)[0] != 48)
    decreases n
  {
    if n >= 10 {
      assert Decimal(n) == Decimal(n / 10) + [48 + n % 10];
      DecimalAt(n / 10, if k > 0 then k - 1 else 0);
    }
  }

  // ----- texts as floating-point numbers ----------------------------------------------

  /** What `float()` makes of a text: NaN and a ValueError are no number. */
  datatype FloatRead = Finite | Infinite | NoNumber

  const INF: seq<byte> := [105, 110, 102]
  const INFINITY: seq<byte> := [105, 110, 102, 105, 110, 105, 116, 121]

  function Lower(b: byte): byte {
    if 65 <= b <= 90 then b + 32 else b
  }

  predicate IsWord(s: seq<byte>, word: seq<byte>) {
    |s| == |word| && forall i :: 0 <= i < |word| ==> Lower(s[i]) == word[i]
  }

  /** Index of the first `b` at or after `from`, or `|s|`. */
  function Find(s: seq<byte>, b: byte, from: nat): (i: nat)
    requires from <= |s|
    ensures from <= i <= |s|
    ensures i < |s| ==> s[i] == b
    ensures forall k :: from <= k < i ==> s[k] != b
    decreases |s| - from
  {
    if from == |s| || s[from] == b then from else Find(s, b, from + 1)
  }

  /** Digits with at most one point among them, as a whole number of which so many digits
      stand behind the point. */
  datatype Mantissa = Mantissa(value: nat, behind: nat)

  function ReadMantissa(s: seq<byte>): Option<Mantissa> {
    var dot := Find(s, 46, 0);
    if dot == |s| then
      match DigitsValue(s)
      case None => None
      case Some(v) => Some(Mantissa(v, 0))
    else
      var whole, part := s[..dot], s[dot + 1..];
      var w, p := DigitsValue(whole), DigitsValue(part);
      if (whole != [] && w.None?) || (part != [] && p.None?) || (whole == [] && part == []) then None
      else
        var count := CountDigits(part);
        Some(Mantissa((if w.Some? then w.value * Power(10, count) else 0) + if p.Some? then p.value else 0, count))
  }

  /** Halfway from the largest finite double, whose significand has 53 bits, to 2 to the
      power of `bits`: from here on decimals round to infinity. */
  function OverflowFrom(bits: nat): (limit: nat)
    requires bits >= 54
  {
    PowersGrow(2, bits - 54, bits);
    Power(2, bits) - Power(2, bits - 54)
  }

  lemma TimesGrows(base: nat, x: nat)
    requires base > 0
    ensures x <= base * x
  {
  }

  lemma {:induction false} PowerPositive(base: nat, n: nat)
    requires base > 0
    ensures Power(base, n) > 0
  {
    if n > 0 {
      PowerPositive(base, n - 1);
      TimesGrows(base, Power(base, n - 1));
    }
  }

  lemma {:induction false} PowersGrow(base: nat, a: nat, b: nat)
    requires base > 0 && a <= b
    ensures 0 < Power(base, a) <= Power(base, b)
    decreases b - a
  {
    PowerPositive(base, a);
    if a < b {
      PowersGrow(base, a, b - 1);
      TimesGrows(base, Power(base, b - 1));
    }
  }

  const DOUBLE_BITS: nat := 1024

  predicate Overflows(value: nat, exponent: int, bits: nat)
    requires bits >= 54
  {
    if exponent >= 0 then value * Power(10, exponent) >= OverflowFrom(bits)
    else value >= OverflowFrom(bits) * Power(10, -exponent)
  }

  /** `float(t)` of a text without white space around it. */
  function ReadFloat(t: seq<byte>): FloatRead {
    var u := Unsigned(t);
    if IsWord(u, INF) || IsWord(u, INFINITY) then Infinite else ReadDecimal(u, DOUBLE_BITS)
  }

  function ReadDecimal(u: seq<byte>, bits: nat): FloatRead
    requires bits >= 54
  {
    var small, capital := Find(u, 101, 0), Find(u, 69, 0);
    var e := if small < capital then small else capital;
    match (ReadMantissa(u[..e]), if e == |u| then Some(0) else SignedValue(u[e + 1..]))
    case (Some(m), Some(x)) => if Overflows(m.value, x - m.behind, bits) then Infinite else Finite
    case _ => NoNumber
  }

  lemma {:induction false} NotFound(s: seq<byte>, b: byte, from: nat)
    requires from <= |s| && forall i :: from <= i < |s| ==> s[i] != b
    ensures Find(s, b, from) == |s|
    decreases |s| - from
  {
    if from < |s| {
      NotFound(s, b, from + 1);
    }
  }

  lemma {:induction false} FindFirst(s: seq<byte>, b: byte, from: nat, at: nat)
    requires from <= at < |s| && s[at] == b
    requires forall i :: from <= i < at ==> s[i] != b
    ensures Find(s, b, from) == at
    decreases at - from
  {
    if from < at {
      FindFirst(s, b, from + 1, at);
    }
  }

  lemma DecimalIsRead(n: nat, bits: nat)
    requires bits >= 54
    ensures ReadDecimal(Decimal(n), bits) == if n < OverflowFrom(bits) then Finite else Infinite
  {
    var s := Decimal(n);
    NotFound(s, 101, 0);
    NotFound(s, 69, 0);
    NotFound(s, 46, 0);
    DigitsOfDecimal(n);
    assert s[..|s|] == s;
    assert n * Power(10, 0) == n;
  }

  /** A printed whole number that `float()` does not make infinite. */
  predicate IsFinite(n: nat) {
    n < OverflowFrom(DOUBLE_BITS)
  }

  lemma OverflowIsFar(bits: nat)
    requires bits >= 85
    ensures OverflowFrom(bits) >= 0x8000_0000
  {
    var low := bits - 54;
    assert Power(2, low + 1) == 2 * Power(2, low);
    PowersGrow(2, low + 1, bits);
    PowersGrow(2, 31, low);
    TwoTo31();
  }

  lemma TwoTo31()
    ensures Power(2, 31) == 0x8000_0000
  {
    assert Power(2, 8) == 256;
    assert Power(2, 16) == 0x1_0000;
    assert Power(2, 24) == 0x100_0000;
  }

  lemma TenTo10()
    ensures Power(10, 10) == 10000000000
  {
    assert Power(10, 5) == 100000;
  }

  /** Any number a C int holds is short and finite. */
  lemma IntsAreFine(n: nat)
    requires n < 0x8000_0000
    ensures Short(n) && IsFinite(n)
  {
    TenTo10();
    LengthOfDecimal(n, 10);
    OverflowIsFar(DOUBLE_BITS);
  }

  /** A printed number is finite up to where doubles overflow, and infinite from there on. */
  lemma FloatOfDecimal(n: nat)
    ensures ReadFloat(Decimal(n)) == if IsFinite(n) then Finite else Infinite
  {
    DecimalIsRead(n, DOUBLE_BITS);
    assert IsDigit(Decimal(n)[0]);
  }
}
