/**
  The decimal text of an integer, as the host language writes it when a
  whole number is concatenated to a string (`"A".concat(4)` is `"A4"`,
  `"A".concat(-1)` is `"A-1"`), together with the parser that undoes it.
  Only integers are modelled: no exponent notation, no fractions.
 */
module Decimal {

  datatype Option<T> = None | Some(value: T)

  predicate IsDigit(c: char) {
    '0' <= c <= '9'
  }

  function DigitChar(d: nat): (c: char)
    requires d < 10
    ensures IsDigit(c)
    ensures c as int - '0' as int == d
  {
    ['0', '1', '2', '3', '4', '5', '6', '7', '8', '9'][d]
  }

  function DigitValue(c: char): (d: nat)
    requires IsDigit(c)
    ensures d < 10 && DigitChar(d) == c
  {
    c as int - '0' as int
  }

  /** The digits of a natural number, most significant first, without leading zeros. */
  function Digits(k: nat): (s: string)
    ensures |s| > 0
    ensures forall i :: 0 <= i < |s| ==> IsDigit(s[i])
    ensures s[0] == '0' ==> k == 0
  {
    if k < 10 then [DigitChar(k)] else Digits(k / 10) + [DigitChar(k % 10)]
  }

  /** The text of an integer: a minus sign before the digits of its magnitude when negative. */
  function IntText(k: int): (s: string)
    ensures |s| > 0
    ensures s[0] == '-' <==> k < 0
    ensures s[0] == '-' || IsDigit(s[0])
  {
    if k < 0 then "-" + Digits(-k) else Digits(k)
  }

  /** Reads a non-empty run of decimal digits, least significant digit last. */
  function ParseDigits(s: string): (r: Option<nat>)
    ensures r.Some? ==> |s| > 0 && forall i :: 0 <= i < |s| ==> IsDigit(s[i])
  {
    if |s| == 0 || !IsDigit(s[|s| - 1]) then None
    else if |s| == 1 then Some(DigitValue(s[0]))
    else match ParseDigits(s[..|s| - 1])
      case None => None
      case Some(v) => Some(10 * v + DigitValue(s[|s| - 1]))
  }

  /** Reads the text of an integer: an optional minus sign and then digits. */
  function ParseInt(s: string): Option<int> {
    if |s| > 0 && s[0] == '-' then
      match ParseDigits(s[1..])
      case None => None
      case Some(v) => Some(-(v as int))
    else
      match ParseDigits(s)
      case None => None
      case Some(v) => Some(v as int)
  }

  lemma {:induction false} DigitsRoundTrip(k: nat)
    ensures ParseDigits(Digits(k)) == Some(k)
  {
    if k >= 10 {
      DigitsRoundTrip(k / 10);
      var s := Digits(k);
      assert s[..|s| - 1] == Digits(k / 10);
    }
  }

  /** Reading back the text of any integer gives that integer. */
  lemma IntTextRoundTrip(k: int)
    ensures ParseInt(IntText(k)) == Some(k)
  {
    var s := IntText(k);
    if k < 0 {
      var digits := Digits(-k);
      assert s == "-" + digits;
      assert s[1..] == digits;
      DigitsRoundTrip(-k);
    } else {
      assert s == Digits(k);
      assert IsDigit(s[0]);
      DigitsRoundTrip(k);
    }
  }

  /** Different integers have different texts. */
  lemma IntTextInjective(a: int, b: int)
    ensures IntText(a) == IntText(b) <==> a == b
  {
    IntTextRoundTrip(a);
    IntTextRoundTrip(b);
  }
}
