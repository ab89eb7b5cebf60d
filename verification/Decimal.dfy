/** Decimal digit strings and their values. */
module Decimal {
  predicate IsDigit(c: char) { '0' <= c <= '9' }

  predicate AllDigits(s: string) { forall i :: 0 <= i < |s| ==> IsDigit(s[i]) }

  function DigitValue(c: char): (d: nat)
    requires IsDigit(c)
    ensures d <= 9
  {
    c as int - '0' as int
  }

  function Pow10(n: nat): (p: nat)
    ensures p >= 1
  {
    if n == 0 then 1 else 10 * Pow10(n - 1)
  }

  function Value(s: string): nat
    requires AllDigits(s)
  {
    if s == "" then 0 else 10 * Value(s[..|s| - 1]) + DigitValue(s[|s| - 1])
  }

  /** The shortest decimal text of a number. */
  function Text(n: nat): (s: string)
    ensures AllDigits(s) && s != ""
    ensures Value(s) == n
    ensures n > 0 ==> s[0] != '0'
    ensures n == 0 ==> s == "0"
  {
    var last := ('0' as int + n % 10) as char;
    if n < 10 then
      assert [last][..0] == "";
      [last]
    else
      var s := Text(n / 10) + [last];
      assert s[..|s| - 1] == Text(n / 10);
      s
  }

  lemma {:induction false} PowAdd(a: nat, b: nat)
    ensures Pow10(a + b) == Pow10(a) * Pow10(b)
  {
    if b > 0 {
      PowAdd(a, b - 1);
      assert Pow10(a + b) == 10 * Pow10(a + (b - 1));
    }
  }

  lemma {:induction false} PowMonotone(a: nat, b: nat)
    requires a <= b
    ensures Pow10(a) <= Pow10(b)
  {
    PowAdd(a, b - a);
    ScaleUp(Pow10(a), Pow10(b - a));
  }

  lemma {:induction false} ScaleUp(a: nat, b: nat)
    requires b >= 1
    ensures a <= a * b
  {}

  lemma {:induction false} ValueConcat(a: string, b: string)
    requires AllDigits(a) && AllDigits(b)
    ensures Value(a + b) == Value(a) * Pow10(|b|) + Value(b)
  {
    if b == "" {
      assert a + b == a;
    } else {
      var front := b[..|b| - 1];
      ValueConcat(a, front);
      assert (a + b)[..|a + b| - 1] == a + front;
      assert Pow10(|b|) == 10 * Pow10(|front|);
      assert 10 * (Value(a) * Pow10(|front|)) == Value(a) * Pow10(|b|);
    }
  }

  lemma {:induction false} ValueBound(s: string)
    requires AllDigits(s)
    ensures Value(s) < Pow10(|s|)
  {
    if s != "" {
      ValueBound(s[..|s| - 1]);
    }
  }

  /** A digit string that does not start with zero is at least the power of its length. */
  lemma {:induction false} LeadingDigitBound(s: string)
    requires AllDigits(s) && s != "" && s[0] != '0'
    ensures Value(s) >= Pow10(|s| - 1)
  {
    assert s == s[..1] + s[1..];
    ValueConcat(s[..1], s[1..]);
    assert s[..1][..0] == "";
    assert Value(s[..1]) == DigitValue(s[0]) >= 1;
    ScaleUp(Pow10(|s| - 1), Value(s[..1]));
  }

  lemma {:induction false} ZerosHaveNoValue(s: string)
    requires forall i :: 0 <= i < |s| ==> s[i] == '0'
    ensures Value(s) == 0
  {
    if s != "" {
      ZerosHaveNoValue(s[..|s| - 1]);
    }
  }

  lemma {:induction false} NonzeroDigitHasValue(s: string, k: nat)
    requires AllDigits(s) && k < |s| && s[k] != '0'
    ensures Value(s) > 0
  {
    if k < |s| - 1 {
      NonzeroDigitHasValue(s[..|s| - 1], k);
    }
  }

  lemma {:induction false} Pow10Twenty()
    ensures Pow10(18) == 1_000_000_000_000_000_000
    ensures Pow10(20) == 100_000_000_000_000_000_000
  {
    assert Pow10(6) == 1_000_000;
    PowAdd(6, 6);
    PowAdd(12, 6);
    PowAdd(18, 2);
  }
}
