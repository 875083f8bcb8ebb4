/** Decimal digit strings, their values and the one canonical numeral of each integer. */
module Decimals {
  const MAX_SAFE_INTEGER := 9_007_199_254_740_991

  /** An integer every runtime holds exactly. */
  predicate Safe(n: int) {
    -MAX_SAFE_INTEGER <= n <= MAX_SAFE_INTEGER
  }

  predicate IsDigit(c: char) {
    '0' <= c <= '9'
  }

  predicate AllDigits(s: string) {
    forall i :: 0 <= i < |s| ==> IsDigit(s[i])
  }

  function DigitValue(c: char): (d: nat)
    requires IsDigit(c)
    ensures d < 10
  {
    c as int - '0' as int
  }

  function DigitChar(d: nat): (c: char)
    requires d < 10
    ensures IsDigit(c) && DigitValue(c) == d
  {
    ('0' as int + d) as char
  }

  /** The number a digit string spells, most significant digit first. */
  function Value(s: string): nat
    requires AllDigits(s)
  {
    if |s| == 0 then 0 else 10 * Value(s[..|s| - 1]) + DigitValue(s[|s| - 1])
  }

  function Power10(n: nat): (p: nat)
    ensures p > 0
  {
    if n == 0 then 1 else 10 * Power10(n - 1)
  }

  /** The canonical numeral: no leading zero except in "0" itself. */
  function Numeral(n: nat): (s: string)
    ensures |s| > 0 && AllDigits(s)
  {
    if n < 10 then [DigitChar(n)] else Numeral(n / 10) + [DigitChar(n % 10)]
  }

  function Decimal(n: int): string {
    if n < 0 then "-" + Numeral(-n) else Numeral(n)
  }

  predicate IsCanonical(s: string) {
    |s| > 0 && AllDigits(s) && (s[0] == '0' ==> |s| == 1)
  }

  lemma {:induction false} NumeralValue(n: nat)
    ensures Value(Numeral(n)) == n
    ensures IsCanonical(Numeral(n)) && (Numeral(n)[0] == '0' <==> n == 0)
  {
    var s := Numeral(n);
    if n >= 10 {
      NumeralValue(n / 10);
      assert s[..|s| - 1] == Numeral(n / 10);
    } else {
      assert s[..0] == "";
    }
  }

  lemma {:induction false} PowerAdd(a: nat, b: nat)
    ensures Power10(a + b) == Power10(a) * Power10(b)
  {
    if a > 0 {
      PowerAdd(a - 1, b);
      assert Power10(a + b) == 10 * (Power10(a - 1) * Power10(b));
      assert Power10(a) * Power10(b) == 10 * (Power10(a - 1) * Power10(b));
    }
  }

  lemma {:induction false} PowerMonotone(a: nat, b: nat)
    requires a <= b
    ensures Power10(a) <= Power10(b)
  {
    if a < b { PowerMonotone(a, b - 1); }
  }

  lemma {:induction false} ValueConcat(a: string, b: string)
    requires AllDigits(a) && AllDigits(b)
    ensures AllDigits(a + b)
    ensures Value(a + b) == Value(a) * Power10(|b|) + Value(b)
  {
    if |b| == 0 {
      assert a + b == a;
    } else {
      var init, last := b[..|b| - 1], b[|b| - 1];
      ValueConcat(a, init);
      assert (a + b)[..|a + b| - 1] == a + init && (a + b)[|a + b| - 1] == last;
      assert Value(a + b) == 10 * Value(a + init) + DigitValue(last);
      OneMoreDigit(Value(a), Power10(|init|), Value(init), DigitValue(last));
    }
  }

  lemma OneMoreDigit(v: nat, power: nat, w: nat, d: nat)
    ensures 10 * (v * power + w) + d == v * (10 * power) + (10 * w + d)
  {}

  lemma {:induction false} ValueBelowPower(s: string)
    requires AllDigits(s)
    ensures Value(s) < Power10(|s|)
  {
    if |s| > 0 { ValueBelowPower(s[..|s| - 1]); }
  }

  /** A leading nonzero digit pins the magnitude from below as well. */
  lemma {:induction false} ValueAbovePower(s: string)
    requires |s| > 0 && AllDigits(s) && s[0] != '0'
    ensures Power10(|s| - 1) <= Value(s)
  {
    if |s| > 1 { ValueAbovePower(s[..|s| - 1]); }
  }

  lemma {:induction false} ZeroDigits(s: string)
    requires AllDigits(s)
    ensures Value(s) == 0 <==> forall i :: 0 <= i < |s| ==> s[i] == '0'
  {
    if |s| > 0 {
      ZeroDigits(s[..|s| - 1]);
      assert forall i :: 0 <= i < |s| - 1 ==> s[i] == s[..|s| - 1][i];
    }
  }

  /** Canonical digit strings are exactly the numerals of their values. */
  lemma {:induction false} CanonicalIsNumeral(s: string)
    requires IsCanonical(s)
    ensures Numeral(Value(s)) == s
  {
    if |s| == 1 {
      assert s[..0] == "";
    } else {
      var init := s[..|s| - 1];
      CanonicalIsNumeral(init);
      ValueAbovePower(init);
      assert Value(s) / 10 == Value(init) && Value(s) % 10 == DigitValue(s[|s| - 1]);
      assert s == init + [s[|s| - 1]];
    }
  }
}
