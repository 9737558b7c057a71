/** Natural numbers as decimal digits. */
module Decimals {
  function Digit(d: nat): char
    requires d < 10
  {
    '0' + d as char
  }

  function Decimal(n: nat): string {
    if n < 10 then [Digit(n)] else Decimal(n / 10) + [Digit(n % 10)]
  }

  predicate IsDigit(c: char) { '0' <= c <= '9' }

  function DigitValue(c: char): nat
    requires IsDigit(c)
  {
    c as int - '0' as int
  }

  predicate AllDigits(s: string) { forall i :: 0 <= i < |s| ==> IsDigit(s[i]) }

  lemma {:induction false} DecimalDigits(n: nat)
    ensures Decimal(n) != "" && AllDigits(Decimal(n))
  {
    if n >= 10 { DecimalDigits(n / 10); }
  }

  function ValueOf(s: string, value: nat): nat
    requires AllDigits(s)
  {
    if s == "" then value else ValueOf(s[1..], value * 10 + DigitValue(s[0]))
  }

  lemma {:induction false} ValueOfMore(s: string, d: char, value: nat)
    requires AllDigits(s) && IsDigit(d)
    ensures AllDigits(s + [d]) && ValueOf(s + [d], value) == ValueOf(s, value) * 10 + DigitValue(d)
    decreases |s|
  {
    if s == "" {
      assert ([d])[1..] == "";
      assert s + [d] == [d];
    } else {
      ValueOfMore(s[1..], d, value * 10 + DigitValue(s[0]));
      assert (s + [d])[1..] == s[1..] + [d];
    }
  }

  lemma {:induction false} ValueOfDecimal(n: nat)
    ensures AllDigits(Decimal(n)) && ValueOf(Decimal(n), 0) == n
  {
    DecimalDigits(n);
    if n < 10 {
      assert Decimal(n)[1..] == "";
    } else {
      ValueOfDecimal(n / 10);
      ValueOfMore(Decimal(n / 10), Digit(n % 10), 0);
    }
  }

  // ---------------------------------------------------------------- powers of ten

  function Pow10(k: nat): (p: nat)
    ensures p >= 1
  {
    if k == 0 then 1 else 10 * Pow10(k - 1)
  }

  lemma {:induction false} Pow10Sum(a: nat, b: nat)
    ensures Pow10(a) * Pow10(b) == Pow10(a + b)
  {
    if a > 0 {
      Pow10Sum(a - 1, b);
      assert Pow10(a) * Pow10(b) == 10 * (Pow10(a - 1) * Pow10(b));
    }
  }

  lemma {:induction false} ValueOfFrom(s: string, value: nat)
    requires AllDigits(s)
    ensures ValueOf(s, value) == value * Pow10(|s|) + ValueOf(s, 0)
    decreases |s|
  {
    if s != "" {
      var d := DigitValue(s[0]);
      ValueOfFrom(s[1..], value * 10 + d);
      ValueOfFrom(s[1..], d);
      var p := Pow10(|s| - 1);
      assert (value * 10 + d) * p == value * (10 * p) + d * p;
    }
  }

  lemma {:induction false} ValueOfConcat(a: string, b: string, value: nat)
    requires AllDigits(a) && AllDigits(b)
    ensures AllDigits(a + b) && ValueOf(a + b, value) == ValueOf(b, ValueOf(a, value))
    decreases |a|
  {
    if a == "" {
      assert a + b == b;
    } else {
      ValueOfConcat(a[1..], b, value * 10 + DigitValue(a[0]));
      assert (a + b)[1..] == a[1..] + b;
    }
  }

  lemma {:induction false} DecimalLength(n: nat, k: nat)
    requires n < Pow10(k) && k >= 1
    ensures |Decimal(n)| <= k
  {
    if n >= 10 {
      assert Pow10(1) == 10;
      assert n / 10 < Pow10(k - 1);
      DecimalLength(n / 10, k - 1);
    }
  }
}
