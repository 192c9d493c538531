/** Decimal rendering of integers as Python's `str(n)` and `f"{n:02d}"` produce it,
    together with a reader for decimal digit strings, so that rendered text can be
    checked against the number it came from. */
module Text {

  predicate IsDigit(c: char) {
    '0' <= c <= '9'
  }

  predicate AllDigits(s: string) {
    forall i :: 0 <= i < |s| ==> IsDigit(s[i])
  }

  function DigitChar(d: int): (c: char)
    requires 0 <= d < 10
    ensures IsDigit(c)
    ensures c as int - '0' as int == d
  {
    (('0' as int) + d) as char
  }

  /** The decimal digits of `n`, most significant first, with no leading zero. */
  function Digits(n: nat): (s: string)
    ensures 1 <= |s|
    ensures AllDigits(s)
    ensures |s| == 1 <==> n < 10
    ensures |s| > 1 ==> s[0] != '0'
    decreases n
  {
    if n < 10 then [DigitChar(n)] else Digits(n / 10) + [DigitChar(n % 10)]
  }

  /** The number a string of decimal digits denotes (the empty string denotes 0). */
  function DigitsValue(s: string): nat
    requires AllDigits(s)
  {
    if |s| == 0 then 0
    else DigitsValue(s[..|s| - 1]) * 10 + (s[|s| - 1] as int - '0' as int)
  }

  /** Reading back the digits of `n` gives `n`. */
  lemma {:induction false} DigitsRoundTrip(n: nat)
    ensures DigitsValue(Digits(n)) == n
    decreases n
  {
    if n >= 10 {
      DigitsRoundTrip(n / 10);
      var s := Digits(n);
      assert s[..|s| - 1] == Digits(n / 10);
    }
  }

  /** A leading '0' does not change the value of a digit string. */
  lemma {:induction false} LeadingZero(s: string)
    requires AllDigits(s)
    ensures AllDigits("0" + s)
    ensures DigitsValue("0" + s) == DigitsValue(s)
    decreases |s|
  {
    var z := "0" + s;
    assert AllDigits(z) by {
      forall i | 0 <= i < |z|
        ensures IsDigit(z[i])
      {
        if i > 0 {
          assert z[i] == s[i - 1];
        }
      }
    }
    if |s| > 0 {
      var init := s[..|s| - 1];
      assert z[..|z| - 1] == "0" + init;
      LeadingZero(init);
    }
  }

  /** Python's `f"{n:02d}"`: zero-padded to at least two characters; a negative
      number keeps its sign, which already makes the width two. */
  function Pad2(n: int): (s: string)
    ensures 2 <= |s|
    ensures n >= 0 ==> AllDigits(s) && DigitsValue(s) == n
    ensures 0 <= n < 100 ==> |s| == 2
    ensures n < 0 ==> s[0] == '-' && s[1..] == Digits(-n)
    ensures 0 <= n < 10 ==> s == "0" + Digits(n)
    ensures n >= 10 ==> s == Digits(n)
  {
    if n < 0 then
      "-" + Digits(-n)
    else if n < 10 then
      DigitsRoundTrip(n);
      LeadingZero(Digits(n));
      "0" + Digits(n)
    else
      DigitsRoundTrip(n);
      Digits(n)
  }
}
