/**
 * Decimal rendering and parsing of natural numbers: JavaScript's `String(n)`
 * for a non-negative integer id and `Number(text)` for a text made only of
 * the digits 0-9.
 */
module Decimal {

  predicate IsDigit(c: char) {
    '0' <= c <= '9'
  }

  /** Every character is a decimal digit (the empty text qualifies). */
  predicate AllDigits(s: string) {
    forall i | 0 <= i < |s| :: IsDigit(s[i])
  }

  /** A non-empty decimal digit string, possibly with leading zeros. */
  predicate IsDecimal(s: string) {
    |s| > 0 && AllDigits(s)
  }

  /** The form `String(n)` produces: decimal, and no leading zero unless the number is 0. */
  predicate IsCanonical(s: string) {
    IsDecimal(s) && (s[0] == '0' ==> |s| == 1)
  }

  function DigitChar(d: nat): (c: char)
    requires d < 10
    ensures IsDigit(c)
  {
    (('0' as int) + d) as char
  }

  function DigitValue(c: char): (d: nat)
    requires IsDigit(c)
    ensures d < 10 && DigitChar(d) == c
  {
    (c as int) - ('0' as int)
  }

  /** `String(n)` for a natural number n. */
  function Show(n: nat): (s: string)
    ensures IsCanonical(s)
    ensures n < 10 <==> |s| == 1
    decreases n
  {
    if n < 10 then [DigitChar(n)] else Show(n / 10) + [DigitChar(n % 10)]
  }

  /** `Number(s)` for a text of decimal digits; leading zeros are accepted and ignored. */
  function Parse(s: string): (n: nat)
    requires AllDigits(s)
    ensures n == 0 <==> forall i | 0 <= i < |s| :: s[i] == '0'
    decreases |s|
  {
    if |s| == 0 then 0
    else
      var prefix := s[..|s| - 1];
      assert forall i | 0 <= i < |prefix| :: prefix[i] == s[i];
      Parse(prefix) * 10 + DigitValue(s[|s| - 1])
  }

  /** Parsing the rendering of a number gives the number back. */
  lemma {:induction false} ParseShow(n: nat)
    ensures Parse(Show(n)) == n
    decreases n
  {
    var s := Show(n);
    if n >= 10 {
      assert s[..|s| - 1] == Show(n / 10);
      ParseShow(n / 10);
    }
  }

  /** A canonical digit string is the rendering of its own value. */
  lemma {:induction false} ShowParse(s: string)
    requires IsCanonical(s)
    ensures Show(Parse(s)) == s
    decreases |s|
  {
    if |s| > 1 {
      var prefix := s[..|s| - 1];
      var d := DigitValue(s[|s| - 1]);
      assert prefix[0] == s[0];
      ShowParse(prefix);
      ParsePositive(prefix);
      DivModDigit(Parse(prefix), d);
      assert s == prefix + [s[|s| - 1]];
    }
  }

  /** A digit string that does not start with 0 has a positive value. */
  lemma {:induction false} ParsePositive(s: string)
    requires IsDecimal(s) && s[0] != '0'
    ensures Parse(s) >= 1
    decreases |s|
  {
    if |s| > 1 {
      var prefix := s[..|s| - 1];
      assert prefix[0] == s[0];
      ParsePositive(prefix);
    }
  }

  lemma DivModDigit(p: nat, d: nat)
    requires d < 10
    ensures (p * 10 + d) / 10 == p && (p * 10 + d) % 10 == d
  {
  }

  /** A leading zero does not change the value: `Number("0" + s) == Number(s)`. */
  lemma {:induction false} ParseLeadingZero(s: string)
    requires AllDigits(s)
    ensures Parse("0" + s) == Parse(s)
    decreases |s|
  {
    if |s| > 0 {
      var prefix := s[..|s| - 1];
      assert ("0" + s)[..|"0" + s| - 1] == "0" + prefix;
      ParseLeadingZero(prefix);
    }
  }
}
