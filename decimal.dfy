/**
 * Canonical decimal numerals. The model writes identifiers (ObjectIds in the
 * source) and the identity inside a session token in this form.
 */
module Decimal {

  predicate IsDigit(c: char)
  {
    '0' <= c <= '9'
  }

  predicate AllDigits(s: string)
  {
    forall i :: 0 <= i < |s| ==> IsDigit(s[i])
  }

  /** A non-empty digit string without a leading zero (except "0" itself). */
  predicate Canonical(s: string)
  {
    |s| >= 1 && AllDigits(s) && (s[0] == '0' ==> |s| == 1)
  }

  function DigitValue(c: char): (d: nat)
    requires IsDigit(c)
    ensures d < 10
  {
    c as int - '0' as int
  }

  function DigitChar(d: nat): (c: char)
    requires d < 10
    ensures IsDigit(c) && DigitValue(c) == d
  {
    ('0' as int + d) as char
  }

  /** The decimal numeral of `n`. */
  function Show(n: nat): (s: string)
    ensures |s| >= 1 && AllDigits(s)
    ensures s[0] == '0' <==> n == 0
  {
    if n < 10 then [DigitChar(n)]
    else Show(n / 10) + [DigitChar(n % 10)]
  }

  /** The value of a digit string. */
  function Parse(s: string): nat
    requires AllDigits(s)
  {
    if s == [] then 0
    else Parse(s[..|s| - 1]) * 10 + DigitValue(s[|s| - 1])
  }

  lemma {:induction false} ParseShow(n: nat)
    ensures Canonical(Show(n))
    ensures Parse(Show(n)) == n
  {
    if n >= 10 {
      ParseShow(n / 10);
      var s := Show(n);
      assert s[..|s| - 1] == Show(n / 10);
    }
  }

  /** A digit string that starts with a non-zero digit has a positive value. */
  lemma {:induction false} ParsePositive(s: string)
    requires |s| >= 1 && AllDigits(s) && s[0] != '0'
    ensures Parse(s) >= 1
  {
    if |s| > 1 {
      ParsePositive(s[..|s| - 1]);
    }
  }

  lemma {:induction false} ShowParse(s: string)
    requires Canonical(s)
    ensures Show(Parse(s)) == s
  {
    var k := |s| - 1;
    if k == 0 {
      assert s == [s[0]];
      assert DigitChar(DigitValue(s[0])) == s[0];
    } else {
      var p := s[..k];
      ParsePositive(p);
      ShowParse(p);
      var n := Parse(s);
      assert n == Parse(p) * 10 + DigitValue(s[k]);
      assert n / 10 == Parse(p) && n % 10 == DigitValue(s[k]);
      assert DigitChar(DigitValue(s[k])) == s[k];
      assert s == p + [s[k]];
    }
  }

  /** Canonical numerals and naturals are in one-to-one correspondence. */
  lemma ShowIff(s: string, n: nat)
    ensures (Canonical(s) && Parse(s) == n) <==> s == Show(n)
  {
    ParseShow(n);
    if Canonical(s) {
      ShowParse(s);
    }
  }
}
