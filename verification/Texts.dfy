/** Text as the till sees it: what counts as blank, and numbers written out. */
module Texts {
  import opened Options
  import Numerals

  /** `str.isspace` of one character. */
  predicate Space(c: char) {
    var n := c as int;
    || 9 <= n <= 13 || 28 <= n <= 32 || n == 0x85 || n == 0xA0 || n == 0x1680 || 0x2000 <= n <= 0x200A
    || n == 0x2028 || n == 0x2029 || n == 0x202F || n == 0x205F || n == 0x3000
  }

  /** `not text.strip()`. */
  predicate Blank(text: string) {
    forall i :: 0 <= i < |text| ==> Space(text[i])
  }

  function Strip(text: string): string
    decreases |text|
  {
    if text == [] then []
    else if Space(text[0]) then Strip(text[1..])
    else if Space(text[|text| - 1]) then Strip(text[..|text| - 1])
    else text
  }

  /** `str.lower` where it matters here: no other letter becomes one of a plain Latin name
      without a `k`. */
  function Lower(text: string): string {
    seq(|text|, i requires 0 <= i < |text| => if 'A' <= text[i] <= 'Z' then text[i] - 'A' + 'a' else text[i])
  }

  // ----- numbers ----------------------------------------------------------------

  function Digit(n: nat): char
    requires n < 10
  {
    '0' + n as char
  }

  predicate IsDigit(c: char) {
    '0' <= c <= '9'
  }

  function Digits(n: nat): (text: string)
    ensures |text| >= 1 && forall i :: 0 <= i < |text| ==> IsDigit(text[i])
  {
    if n < 10 then [Digit(n)] else Digits(n / 10) + [Digit(n % 10)]
  }

  predicate AllDigits(text: string) {
    forall i :: 0 <= i < |text| ==> IsDigit(text[i])
  }

  function Value(text: string): nat
    requires AllDigits(text)
  {
    if text == [] then 0 else 10 * Value(text[..|text| - 1]) + (text[|text| - 1] - '0') as nat
  }

  lemma ValueAppend(text: string, n: nat)
    requires AllDigits(text) && n < 10
    ensures Value(text + [Digit(n)]) == 10 * Value(text) + n
  {
    assert (text + [Digit(n)])[..|text|] == text;
  }

  lemma LastDigit(n: nat)
    ensures n == 10 * (n / 10) + n % 10
  {
  }

  lemma ValueOfDigit(n: nat)
    requires n < 10
    ensures Value([Digit(n)]) == n
  {
    ValueAppend("", n);
    assert "" + [Digit(n)] == [Digit(n)];
  }

  lemma {:induction false} ValueOfDigits(n: nat)
    ensures Value(Digits(n)) == n
  {
    if n < 10 {
      ValueOfDigit(n);
    } else {
      var high, low := n / 10, n % 10;
      LastDigit(n);
      ValueOfDigits(high);
      ValueAppend(Digits(high), low);
    }
  }

  /** Digit by digit, from the right; the first is a nought in nought alone. */
  lemma {:induction false} DigitAt(n: nat, k: nat)
    requires k < |Digits(n)|
    ensures Digits(n)[|Digits(n)| - 1 - k] == '0' + (Numerals.Shifted(n, k) % 10) as char
    ensures Numerals.Shifted(n, |Digits(n)|) == 0 && (n > 0 ==> Digits(n)[0] != '0')
    decreases n
  {
    if n >= 10 {
      assert Digits(n) == Digits(n / 10) + [Digit(n % 10)];
      DigitAt(n / 10, if k > 0 then k - 1 else 0);
    }
  }

  function PrintInt(n: int): string {
    if n < 0 then "-" + Digits(-n) else Digits(n)
  }

  // ----- money: cents, written with two decimals ----------------------------------

  function PrintUnsigned(n: nat): (text: string)
    ensures text != [] && IsDigit(text[0])
  {
    Digits(n / 100) + "." + [Digit(n / 10 % 10), Digit(n % 10)]
  }

  /** `f"{value:.2f}"` of an amount in cents. */
  function PrintCents(cents: int): string {
    if cents < 0 then "-" + PrintUnsigned(-cents) else PrintUnsigned(cents)
  }

  /** The sign, if there is one, the whole euros, a point and two digits. */
  lemma CentsAreWritten(n: nat)
    ensures PrintCents(n) == Digits(n / 100) + "." + ['0' + (n / 10 % 10) as char, '0' + (n % 10) as char]
    ensures n > 0 ==> PrintCents(0 - n) == "-" + PrintCents(n)
  {
  }

  function ParseUnsigned(body: string): Option<nat> {
    if |body| < 4 || body[|body| - 3] != '.' then None
    else
      var digits := body[..|body| - 3] + body[|body| - 2..];
      if AllDigits(digits) then Some(Value(digits)) else None
  }

  /** Reading back an amount with two decimals. */
  function ParseCents(text: string): Option<int> {
    var negative := text != [] && text[0] == '-';
    var cents := ParseUnsigned(if negative then text[1..] else text);
    if cents.None? then None else Some(if negative then 0 - cents.value else cents.value as int)
  }

  lemma TwoMore(high: string, a: nat, b: nat)
    requires AllDigits(high) && a < 10 && b < 10
    ensures Value(high + [Digit(a), Digit(b)]) == 100 * Value(high) + 10 * a + b
  {
    ValueAppend(high, a);
    ValueAppend(high + [Digit(a)], b);
    assert high + [Digit(a), Digit(b)] == high + [Digit(a)] + [Digit(b)];
  }

  lemma ParseDigits(high: string, low: string)
    requires AllDigits(high) && high != [] && AllDigits(low) && |low| == 2
    ensures AllDigits(high + low) && ParseUnsigned(high + "." + low) == Some(Value(high + low))
  {
    var body := high + "." + low;
    assert body[|high|] == '.' && body[..|high|] == high && body[|high| + 1..] == low;
  }

  lemma TenTwice(n: nat)
    ensures n / 10 / 10 == n / 100
  {
  }

  lemma ThreeParts(n: nat)
    ensures 100 * (n / 100) + 10 * (n / 10 % 10) + n % 10 == n
  {
    LastDigit(n);
    LastDigit(n / 10);
    TenTwice(n);
  }

  lemma UnsignedRoundTrip(n: nat)
    ensures ParseUnsigned(PrintUnsigned(n)) == Some(n)
  {
    var high, a, b := Digits(n / 100), n / 10 % 10, n % 10;
    ThreeParts(n);
    ValueOfDigits(n / 100);
    TwoMore(high, a, b);
    ParseDigits(high, [Digit(a), Digit(b)]);
  }

  /** What is printed is read back to the cent. */
  lemma CentsRoundTrip(cents: int)
    ensures ParseCents(PrintCents(cents)) == Some(cents)
  {
    var n := if cents < 0 then -cents else cents;
    UnsignedRoundTrip(n);
    assert ("-" + PrintUnsigned(n))[1..] == PrintUnsigned(n);
  }
}
