/** Decimal notation, as the C library writes and compares it. */
module Decimals {
  predicate AllDigits(s: string) {
    forall i :: 0 <= i < |s| ==> '0' <= s[i] <= '9'
  }

  function Digit(c: char): int {
    c as int - '0' as int
  }

  function Pow10(n: nat): nat {
    if n == 0 then 1 else 10 * Pow10(n - 1)
  }

  function Value(s: string): int {
    if s == "" then 0 else Digit(s[0]) * Pow10(|s| - 1) + Value(s[1..])
  }

  /** A number as `sprintf` with "%ld" writes it. */
  function Decimal(n: nat): (s: string)
    ensures s != ""
  {
    if n < 10 then ['0' + n as char] else Decimal(n / 10) + ['0' + (n % 10) as char]
  }

  lemma {:induction false} ValueBound(s: string)
    requires AllDigits(s)
    ensures 0 <= Value(s) < Pow10(|s|)
  {
    if s != "" {
      ValueBound(s[1..]);
      assert 0 <= Digit(s[0]) * Pow10(|s| - 1) <= 9 * Pow10(|s| - 1);
    }
  }

  lemma {:induction false} ValueSnoc(s: string, c: char)
    ensures Value(s + [c]) == 10 * Value(s) + Digit(c)
  {
    if s == "" {
      assert s + [c] == [c] && [c][1..] == "";
    } else {
      assert (s + [c])[1..] == s[1..] + [c];
      ValueSnoc(s[1..], c);
      assert Digit(s[0]) * Pow10(|s|) == 10 * (Digit(s[0]) * Pow10(|s| - 1));
    }
  }

  lemma {:induction false} DecimalIsValue(n: nat)
    ensures AllDigits(Decimal(n)) && Value(Decimal(n)) == n
  {
    if n < 10 {
      assert Decimal(n)[1..] == "";
    } else {
      DecimalIsValue(n / 10);
      ValueSnoc(Decimal(n / 10), '0' + (n % 10) as char);
    }
  }

  /** How many digits a number has. */
  function DigitCount(n: nat): (d: nat)
    ensures d > 0
  {
    if n < 10 then 1 else 1 + DigitCount(n / 10)
  }

  lemma {:induction false} DecimalLength(n: nat)
    ensures |Decimal(n)| == DigitCount(n)
  {
    if n >= 10 {
      DecimalLength(n / 10);
    }
  }

  /** A number written without superfluous zeros. */
  predicate Canonical(s: string) {
    AllDigits(s) && s != "" && (|s| > 1 ==> s[0] != '0')
  }

  lemma {:induction false} DecimalIsCanonical(n: nat)
    ensures Canonical(Decimal(n)) && (n > 0 ==> Decimal(n)[0] != '0')
  {
    DecimalIsValue(n);
    if n >= 10 {
      DecimalIsCanonical(n / 10);
    }
  }

  /** Of two canonical numbers the one with more digits is greater. */
  lemma LongerIsGreater(a: string, b: string)
    requires Canonical(a) && Canonical(b) && |a| > |b|
    ensures Value(a) > Value(b)
  {
    ValueBound(a[1..]);
    ValueBound(b);
    LeadingDigitCounts(Digit(a[0]), Pow10(|a| - 1));
    Pow10Grows(|b|, |a| - 1);
  }

  lemma LeadingDigitCounts(d: int, p: nat)
    requires d >= 1
    ensures d * p >= p
  {
  }

  lemma {:induction false} Pow10Grows(m: nat, n: nat)
    requires m <= n
    ensures 1 <= Pow10(m) <= Pow10(n)
    decreases n
  {
    if m < n {
      Pow10Grows(m, n - 1);
    } else if n > 0 {
      Pow10Grows(m - 1, n - 1);
    }
  }

  /** A number with its sign, as `sprintf` writes it. */
  function Printed(n: int): string {
    if n >= 0 then Decimal(n) else "-" + Decimal(-n)
  }

  /** What is printed has one character exactly for the numbers from 0 to 9. */
  lemma OneCharacter(n: int)
    ensures |Printed(n)| == 1 <==> 0 <= n <= 9
    ensures |Printed(n)| == 2 <==> (10 <= n <= 99 || -9 <= n <= -1)
  {
    if n >= 0 {
      DecimalLength(n);
      assert n < 100 ==> n / 10 < 10;
    } else {
      DecimalLength(-n);
    }
  }
}
