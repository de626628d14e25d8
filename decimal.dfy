/**
 * Decimal rendering of non-negative counters, as done by C++ `std::to_string`
 * and by Python f-string interpolation of an `int`, together with the inverse
 * reading used to state that a rendered number can be recovered.
 */
module Decimal {

  predicate IsDigit(c: char) {
    '0' <= c <= '9'
  }

  /** The character of the decimal digit `d`. */
  function Digit(d: nat): (c: char)
    requires d < 10
    ensures IsDigit(c)
    ensures c as int - '0' as int == d
  {
    ('0' as int + d) as char
  }

  /** The value of a digit character (0 for anything else). */
  function DigitValue(c: char): (d: nat)
    ensures d < 10
    ensures IsDigit(c) ==> Digit(d) == c
  {
    if IsDigit(c) then c as int - '0' as int else 0
  }

  /** Shortest decimal form of `n`: digits only, no leading zero. */
  function NatToString(n: nat): (s: string)
    ensures |s| >= 1
    ensures forall i :: 0 <= i < |s| ==> IsDigit(s[i])
    ensures s[0] == '0' ==> n == 0 && s == "0"
    decreases n
  {
    if n < 10 then [Digit(n)] else NatToString(n / 10) + [Digit(n % 10)]
  }

  /** Reads a string of digits back as a number, most significant digit first. */
  function ParseNat(s: string): nat
    decreases |s|
  {
    if s == [] then 0 else ParseNat(s[..|s| - 1]) * 10 + DigitValue(s[|s| - 1])
  }

  /** Reading back what `NatToString` wrote gives the number again. */
  lemma {:induction false} ParseNatToString(n: nat)
    ensures ParseNat(NatToString(n)) == n
    decreases n
  {
    var s := NatToString(n);
    if n < 10 {
      assert s[..|s| - 1] == [];
    } else {
      ParseNatToString(n / 10);
      assert s[..|s| - 1] == NatToString(n / 10);
    }
  }

  /** Distinct numbers render as distinct strings. */
  lemma NatToStringInjective(m: nat, n: nat)
    requires NatToString(m) == NatToString(n)
    ensures m == n
  {
    ParseNatToString(m);
    ParseNatToString(n);
  }

  /** A fixed text followed by the decimal form of `n`; the number can be read back after the prefix. */
  function Numerado(prefijo: string, n: nat): (r: string)
    ensures |r| > |prefijo| && r[..|prefijo|] == prefijo
    ensures ParseNat(r[|prefijo|..]) == n
    ensures forall i :: |prefijo| <= i < |r| ==> IsDigit(r[i])
    ensures r[|prefijo|] == '0' ==> n == 0 && r == prefijo + "0"
  {
    var r := prefijo + NatToString(n);
    assert r[|prefijo|..] == NatToString(n);
    assert forall i :: |prefijo| <= i < |r| ==> r[i] == NatToString(n)[i - |prefijo|];
    ParseNatToString(n);
    r
  }

  /** Prepending a fixed prefix keeps the number recoverable. */
  lemma PrefixedNumberInjective(prefix: string, m: nat, n: nat)
    requires prefix + NatToString(m) == prefix + NatToString(n)
    ensures m == n
  {
    var a, b := prefix + NatToString(m), prefix + NatToString(n);
    assert a[|prefix|..] == NatToString(m);
    assert b[|prefix|..] == NatToString(n);
    NatToStringInjective(m, n);
  }
}
