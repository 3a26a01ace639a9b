/**
 * Decimal text of integers, as a template literal renders a whole number,
 * and the parse back that shows the rendering loses nothing.
 */
module Decimal {
  import opened Wrappers

  predicate IsDigit(c: char) {
    '0' <= c <= '9'
  }

  predicate AllDigits(s: string) {
    forall i :: 0 <= i < |s| ==> IsDigit(s[i])
  }

  function DigitChar(d: nat): (c: char)
    requires d < 10
    ensures IsDigit(c)
  {
    ('0' as int + d) as char
  }

  function DigitValue(c: char): (d: nat)
    requires IsDigit(c)
    ensures d < 10 && DigitChar(d) == c
  {
    c as int - '0' as int
  }

  /** The decimal digits of `n`, most significant first, with no leading zero. */
  function NatText(n: nat): (s: string)
    ensures |s| >= 1 && AllDigits(s)
    ensures s[0] == '0' ==> n == 0
    decreases n
  {
    if n < 10 then [DigitChar(n)] else NatText(n / 10) + [DigitChar(n % 10)]
  }

  /** The number a string of digits denotes. */
  function DigitsValue(s: string): nat
    requires AllDigits(s)
    decreases |s|
  {
    if s == [] then 0 else DigitsValue(s[..|s| - 1]) * 10 + DigitValue(s[|s| - 1])
  }

  /** The text of a whole number: a minus sign before the digits of a negative one. */
  function IntText(n: int): (s: string)
    ensures |s| >= 1 && ' ' !in s
  {
    if n < 0 then "-" + NatText(-n) else NatText(n)
  }

  /** Reads back an optional minus sign followed by one or more digits. */
  function ParseInt(s: string): Option<int> {
    if |s| > 1 && s[0] == '-' && AllDigits(s[1..]) then Some(-(DigitsValue(s[1..]) as int))
    else if |s| > 0 && AllDigits(s) then Some(DigitsValue(s) as int)
    else None
  }

  lemma {:induction false} NatTextRoundTrip(n: nat)
    ensures DigitsValue(NatText(n)) == n
    decreases n
  {
    var s := NatText(n);
    if n >= 10 {
      NatTextRoundTrip(n / 10);
      assert s[..|s| - 1] == NatText(n / 10);
    }
  }

  /** Rendering a whole number and reading it back gives the number. */
  lemma IntTextRoundTrip(n: int)
    ensures ParseInt(IntText(n)) == Some(n)
  {
    if n < 0 {
      NatTextRoundTrip(-n);
      assert IntText(n)[1..] == NatText(-n);
    } else {
      NatTextRoundTrip(n);
    }
  }

  /** The text of a one- or two-digit number. */
  lemma TwoDigitText(tens: nat, units: nat)
    requires tens < 10 && units < 10
    ensures IntText(tens * 10 + units)
         == if tens == 0 then [DigitChar(units)] else [DigitChar(tens), DigitChar(units)]
  {
    if tens > 0 {
      assert NatText(tens * 10 + units) == NatText(tens) + [DigitChar(units)];
    }
  }

  /** The texts of the default durations and cycle count. */
  lemma DefaultTexts()
    ensures IntText(25) == "25" && IntText(5) == "5" && IntText(15) == "15" && IntText(4) == "4"
  {
    TwoDigitText(2, 5);
    TwoDigitText(0, 5);
    TwoDigitText(1, 5);
    TwoDigitText(0, 4);
  }
}
