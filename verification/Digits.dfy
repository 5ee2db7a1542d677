/** Decimal digits: what `std::to_string` prints for an integer, and the number a run of digits denotes. */
module Digits {

  predicate IsDigit(c: char) {
    '0' <= c <= '9'
  }

  predicate AllDigits(s: string) {
    forall i :: 0 <= i < |s| ==> IsDigit(s[i])
  }

  function DigitChar(d: nat): char
    requires d < 10
  {
    (('0' as int) + d) as char
  }

  function DigitValue(c: char): (d: nat)
    requires IsDigit(c)
    ensures d < 10 && DigitChar(d) == c
  {
    (c as int) - ('0' as int)
  }

  /** The number a run of digits denotes; the empty run denotes zero. */
  function DigitsValue(s: string): nat
    requires AllDigits(s)
  {
    if s == [] then 0 else DigitsValue(s[..|s| - 1]) * 10 + DigitValue(s[|s| - 1])
  }

  /** The shortest decimal numeral of `n`. */
  function Print(n: nat): (s: string)
    ensures s != [] && AllDigits(s) && DigitsValue(s) == n
  {
    if n < 10 then
      var s := [DigitChar(n)];
      assert s[..0] == [];
      s
    else
      var s := Print(n / 10) + [DigitChar(n % 10)];
      assert s[..|s| - 1] == Print(n / 10);
      s
  }

  /** No leading zeros. */
  lemma {:induction false} PrintIsShortest(n: nat)
    ensures n == 0 ==> Print(n) == "0"
    ensures n > 0 ==> Print(n)[0] != '0'
  {
    if n >= 10 { PrintIsShortest(n / 10); }
  }

  function PrintInt(n: int): string {
    if n < 0 then "-" + Print(-n) else Print(n)
  }

  /** `std::to_string` on integers never gives two integers the same text, and never prints a bar. */
  lemma PrintIntInjective(m: int, n: int)
    ensures '|' !in PrintInt(m)
    ensures PrintInt(m) == PrintInt(n) ==> m == n
  {
    assert m < 0 ==> PrintInt(m)[0] == '-' && PrintInt(m)[1..] == Print(-m);
    assert n < 0 ==> PrintInt(n)[0] == '-' && PrintInt(n)[1..] == Print(-n);
    assert m >= 0 ==> IsDigit(PrintInt(m)[0]);
    assert n >= 0 ==> IsDigit(PrintInt(n)[0]);
  }
}
