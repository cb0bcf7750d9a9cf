/**
 * Decimal rendering of integers as Python's `str(int)` / f-string `{n}` produces it:
 * an optional leading '-', then the digits without leading zeros.
 * `ParseInt` is the inverse used to state what a rendered number means.
 */
module Decimal {
  import opened Wrappers

  function DigitChar(d: nat): (c: char)
    requires d < 10
    ensures '0' <= c <= '9' && c as int - '0' as int == d
  {
    ('0' as int + d) as char
  }

  function DigitValue(c: char): (d: nat)
    requires '0' <= c <= '9'
    ensures d < 10 && DigitChar(d) == c
  {
    c as int - '0' as int
  }

  predicate IsDigits(s: string) {
    forall i :: 0 <= i < |s| ==> '0' <= s[i] <= '9'
  }

  /** A non-empty digit string with no superfluous leading zero. */
  predicate Canonical(s: string) {
    |s| >= 1 && IsDigits(s) && (|s| > 1 ==> s[0] != '0')
  }

  /** The decimal digits of a natural number, most significant first. */
  function NatDigits(n: nat): (r: string)
    ensures Canonical(r)
    ensures r[0] == '0' <==> n == 0
    decreases n
  {
    if n < 10 then [DigitChar(n)] else NatDigits(n / 10) + [DigitChar(n % 10)]
  }

  /** The value of a digit string, read most significant digit first. */
  function ParseNat(s: string): (n: nat)
    requires IsDigits(s)
    decreases |s|
  {
    if s == [] then 0 else ParseNat(s[..|s| - 1]) * 10 + DigitValue(s[|s| - 1])
  }

  /** Python's `str(n)` for an `int` n. */
  function DecimalString(n: int): (r: string)
    ensures |r| >= 1
    ensures r[0] == '-' <==> n < 0
  {
    if n < 0 then "-" + NatDigits(-n) else NatDigits(n)
  }

  /** Reads back exactly the strings `DecimalString` can produce. */
  function ParseInt(s: string): (r: Option<int>) {
    if |s| >= 2 && s[0] == '-' && Canonical(s[1..]) && s[1] != '0' then Some(0 - ParseNat(s[1..]) as int)
    else if Canonical(s) then Some(ParseNat(s))
    else None
  }

  lemma {:induction false} NatDigitsRoundTrip(n: nat)
    ensures ParseNat(NatDigits(n)) == n
    decreases n
  {
    var s := NatDigits(n);
    if n >= 10 {
      NatDigitsRoundTrip(n / 10);
      assert s[..|s| - 1] == NatDigits(n / 10);
    } else {
      assert s[..|s| - 1] == [];
    }
  }

  lemma {:induction false} ParseNatRoundTrip(s: string)
    requires Canonical(s)
    ensures NatDigits(ParseNat(s)) == s
    decreases |s|
  {
    var p := s[..|s| - 1];
    if |s| == 1 {
      assert p == [];
      assert s == [s[0]];
    } else {
      ParseNatRoundTrip(p);
      var n := ParseNat(s);
      var d := DigitValue(s[|s| - 1]);
      assert ParseNat(p) != 0 by {
        assert p[0] == s[0] != '0';
      }
      assert n / 10 == ParseNat(p) && n % 10 == d;
      assert s == p + [s[|s| - 1]];
    }
  }

  /** Rendering and reading back agree in both directions. */
  lemma DecimalStringParse(n: int, s: string)
    ensures ParseInt(s) == Some(n) <==> s == DecimalString(n)
  {
    if s == DecimalString(n) {
      if n < 0 {
        NatDigitsRoundTrip(-n);
        assert s[1..] == NatDigits(-n);
      } else {
        NatDigitsRoundTrip(n);
      }
    }
    if ParseInt(s) == Some(n) {
      if |s| >= 2 && s[0] == '-' && Canonical(s[1..]) && s[1] != '0' {
        ParseNatRoundTrip(s[1..]);
        assert s == "-" + s[1..];
      } else {
        ParseNatRoundTrip(s);
      }
    }
  }

  /** Distinct integers render as distinct strings. */
  lemma DecimalStringInjective(m: int, n: int)
    ensures DecimalString(m) == DecimalString(n) <==> m == n
  {
    DecimalStringParse(m, DecimalString(m));
    DecimalStringParse(n, DecimalString(m));
  }
}
