/**
  Decimal numerals, as they appear in generated ids, rotated file names and
  page cursors, and the Python int() that reads a cursor back.
 */
module Decimals {
  const DIGITS := "0123456789"

  function Numeral(n: nat): string {
    if n < 10 then [DIGITS[n]] else Numeral(n / 10) + [DIGITS[n % 10]]
  }

  predicate IsDigit(c: char) {
    '0' <= c <= '9'
  }

  predicate AllDigits(s: string) {
    forall i :: 0 <= i < |s| ==> IsDigit(s[i])
  }

  /** The number a string of digits denotes. */
  function Value(s: string): nat
    requires AllDigits(s)
  {
    if s == "" then 0 else Value(s[..|s| - 1]) * 10 + (s[|s| - 1] as int - '0' as int)
  }

  lemma {:induction false} RoundTrip(n: nat)
    ensures Numeral(n) != "" && AllDigits(Numeral(n)) && Value(Numeral(n)) == n
  {
    if n < 10 {
      assert Numeral(n)[..0] == "" && Value("") == 0;
    } else {
      RoundTrip(n / 10);
      var s := Numeral(n);
      assert s[..|s| - 1] == Numeral(n / 10);
    }
  }

  /** Two numerals after one prefix are the same string only for the same number. */
  lemma PrefixedInjective(prefix: string, m: nat, n: nat)
    ensures prefix + Numeral(m) == prefix + Numeral(n) <==> m == n
  {
    RoundTrip(m);
    RoundTrip(n);
    assert (prefix + Numeral(m))[|prefix|..] == Numeral(m);
    assert (prefix + Numeral(n))[|prefix|..] == Numeral(n);
  }
}
