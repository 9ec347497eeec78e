/** Decimal digits: reading them, writing them, and why the two agree. */
module Decimal {
  import opened Streams

  predicate IsDigit(c: Octet) {
    '0' <= c <= '9'
  }

  predicate IsDecimal(s: Octets) {
    s != [] && forall i | 0 <= i < |s| :: IsDigit(s[i])
  }

  function DigitValue(c: Octet): nat
    requires IsDigit(c)
  {
    (c as int) - ('0' as int)
  }

  function ShowDigit(d: nat): (c: Octet)
    requires d < 10
    ensures IsDigit(c) && DigitValue(c) == d
  {
    (('0' as int) + d) as char
  }

  function DecimalValue(s: Octets): nat
    requires forall i | 0 <= i < |s| :: IsDigit(s[i])
  {
    if s == [] then 0 else 10 * DecimalValue(s[..|s| - 1]) + DigitValue(s[|s| - 1])
  }

  function ShowDecimal(n: nat): Octets {
    if n < 10 then [ShowDigit(n)] else ShowDecimal(n / 10) + [ShowDigit(n % 10)]
  }

  lemma {:induction false} DecimalAppend(s: Octets, c: Octet)
    requires IsDecimal(s) && IsDigit(c)
    ensures IsDecimal(s + [c]) && DecimalValue(s + [c]) == 10 * DecimalValue(s) + DigitValue(c)
  {
    assert (s + [c])[..|s|] == s;
  }

  lemma {:induction false} DecimalRoundTrip(n: nat)
    ensures IsDecimal(ShowDecimal(n)) && DecimalValue(ShowDecimal(n)) == n
  {
    if n < 10 {
      var s := [ShowDigit(n)];
      assert DecimalValue(s[..0]) == 0;
    } else {
      DecimalRoundTrip(n / 10);
      DecimalAppend(ShowDecimal(n / 10), ShowDigit(n % 10));
    }
  }

  /** Leading zeros do not count. */
  lemma {:induction false} DecimalIgnoresZeros(s: Octets)
    requires forall i | 0 <= i < |s| :: IsDigit(s[i])
    ensures DecimalValue(['0'] + s) == DecimalValue(s)
  {
    var t := ['0'] + s;
    if s == [] {
      assert t[..0] == [];
      assert DecimalValue(t[..0]) == 0;
    } else {
      assert t[..|t| - 1] == ['0'] + s[..|s| - 1];
      DecimalIgnoresZeros(s[..|s| - 1]);
    }
  }
}
