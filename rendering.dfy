/**
 * Rendering of numbers into text, as the two pipelines interpolate them into
 * messages and reports. Money is a whole number of cents.
 */
module Rendering {

  /** The character of a decimal digit. */
  function DigitChar(d: nat): (c: char)
    requires d < 10
    ensures '0' <= c <= '9'
    ensures c as int - '0' as int == d
  {
    ('0' as int + d) as char
  }

  /** The decimal digits of `n`, most significant first, without leading zeros: Python's `str(n)`. */
  function NatText(n: nat): (s: string)
    ensures |s| > 0
    ensures forall i :: 0 <= i < |s| ==> '0' <= s[i] <= '9'
    decreases n
  {
    if n < 10 then [DigitChar(n)] else NatText(n / 10) + [DigitChar(n % 10)]
  }

  /** The number a string of decimal digits denotes. */
  function DigitsValue(s: string): nat
    requires forall i :: 0 <= i < |s| ==> '0' <= s[i] <= '9'
  {
    if s == [] then 0
    else DigitsValue(s[..|s| - 1]) * 10 + (s[|s| - 1] as int - '0' as int)
  }

  /** Reading back the digits of `NatText(n)` gives `n`: the rendering loses nothing. */
  lemma {:induction false} NatTextRoundTrip(n: nat)
    ensures DigitsValue(NatText(n)) == n
    decreases n
  {
    if n >= 10 {
      var s := NatText(n);
      assert s[..|s| - 1] == NatText(n / 10);
      NatTextRoundTrip(n / 10);
    }
  }

  /** Python's `str(n)` for an integer. */
  function IntText(n: int): (s: string)
    ensures |s| > 0
    ensures (s[0] == '-') <==> n < 0
  {
    if n < 0 then "-" + NatText(-n) else NatText(n)
  }

  /** The magnitude of an amount of cents. */
  function Magnitude(cents: int): nat
  {
    if cents < 0 then -cents else cents
  }

  /** Python's `f"{x:.2f}"` for the amount `x = cents / 100`. */
  function FixedText(cents: int): (s: string)
    ensures |s| >= 4 && s[|s| - 3] == '.'
    ensures '0' <= s[|s| - 2] <= '9' && '0' <= s[|s| - 1] <= '9'
    ensures (s[0] == '-') <==> cents < 0
    ensures forall i :: SignWidth(cents) <= i < |s| && i != |s| - 3 ==> '0' <= s[i] <= '9'
  {
    var a := Magnitude(cents);
    (if cents < 0 then "-" else "") + NatText(a / 100) + "." + [DigitChar(a % 100 / 10), DigitChar(a % 10)]
  }

  /** The number of characters the minus sign takes in front of an amount. */
  function SignWidth(cents: int): nat
  {
    if cents < 0 then 1 else 0
  }

  /**
   * Reading the digits of `FixedText(cents)` with the sign and the point
   * dropped gives back the magnitude in cents: the two decimals lose nothing.
   */
  lemma {:induction false} FixedTextValue(cents: int)
    ensures var s := FixedText(cents);
      DigitsValue(s[SignWidth(cents)..|s| - 3] + s[|s| - 2..]) == Magnitude(cents)
  {
    var a := Magnitude(cents);
    var s := FixedText(cents);
    var whole, d1, d2 := NatText(a / 100), DigitChar(a % 100 / 10), DigitChar(a % 10);
    var sign := if cents < 0 then "-" else "";
    assert s == sign + whole + "." + [d1, d2];
    assert s[SignWidth(cents)..|s| - 3] == whole;
    assert s[|s| - 2..] == [d1, d2];
    TwoDigitsValue(whole, d1, d2);
    NatTextRoundTrip(a / 100);
    CentsSplit(a);
  }

  /** An amount of cents is its whole part, its tenths and its hundredths. */
  lemma CentsSplit(a: nat)
    ensures a / 100 * 100 + a % 100 / 10 * 10 + a % 10 == a
  {
    var q, r := a / 100, a % 100;
    var t, u := r / 10, r % 10;
    assert a == (q * 10 + t) * 10 + u;
    LastDigit(a, q * 10 + t, u);
  }

  /** The last decimal digit of `k * 10 + u` is `u`. */
  lemma LastDigit(a: nat, k: nat, u: nat)
    requires u < 10 && a == k * 10 + u
    ensures a % 10 == u
  {
  }

  /** Appending two digits multiplies the value by a hundred and adds theirs. */
  lemma TwoDigitsValue(s: string, d1: char, d2: char)
    requires forall i :: 0 <= i < |s| ==> '0' <= s[i] <= '9'
    requires '0' <= d1 <= '9' && '0' <= d2 <= '9'
    ensures DigitsValue(s + [d1, d2])
      == DigitsValue(s) * 100 + (d1 as int - '0' as int) * 10 + (d2 as int - '0' as int)
  {
    var t := s + [d1, d2];
    assert t[..|t| - 1] == s + [d1];
    assert (s + [d1])[..|s|] == s;
  }


  /**
   * Python's `str(x)` for a float `x = cents / 100`: the shortest decimal,
   * with one digit after the point when the amount is whole.
   */
  function ReprText(cents: int): (s: string)
    ensures |s| >= 3
    ensures (s[0] == '-') <==> cents < 0
  {
    var a := Magnitude(cents);
    var fraction :=
      if a % 10 == 0 then [DigitChar(a % 100 / 10)]
      else [DigitChar(a % 100 / 10), DigitChar(a % 10)];
    (if cents < 0 then "-" else "") + NatText(a / 100) + "." + fraction
  }

  /** `part` occurs in `s`: Python's `part in s`. */
  ghost predicate Contains(s: string, part: string)
  {
    exists before, after :: s == before + part + after
  }

  lemma ContainsBetween(before: string, part: string, after: string)
    ensures Contains(before + part + after, part)
  {
  }
}
