/** Timestamps as decimal strings, and what comparing them with `strncmp` says of the numbers. */
module Timestamps {
  import opened Decimals

  function CharAt(s: string): int {
    if s == "" then 0 else s[0] as int
  }

  /** `strncmp`, a string ending in a NUL that is not part of it. */
  function StrNCmp(a: string, b: string, n: nat): int
    decreases n
  {
    if n == 0 then 0
    else if CharAt(a) != CharAt(b) then CharAt(a) - CharAt(b)
    else if CharAt(a) == 0 then 0
    else StrNCmp(a[1..], b[1..], n - 1)
  }

  /** A character of a string, or the NUL behind it. */
  function CharOrNul(s: string, i: nat): int {
    if i < |s| then s[i] as int else 0
  }

  /** The first difference within the bound decides, the end of a string counting as a NUL. */
  lemma {:induction false} FirstDifferenceDecides(a: string, b: string, n: nat, i: nat)
    requires i < n && i <= |a| && i <= |b| && a[..i] == b[..i] && CharOrNul(a, i) != CharOrNul(b, i)
    requires forall j :: 0 <= j < i ==> a[j] as int != 0
    ensures StrNCmp(a, b, n) == CharOrNul(a, i) - CharOrNul(b, i)
    decreases n
  {
    if i > 0 {
      assert a[0] == a[..i][0] && b[0] == b[..i][0];
      assert a[1..][..i - 1] == a[..i][1..] && b[1..][..i - 1] == b[..i][1..];
      FirstDifferenceDecides(a[1..], b[1..], n - 1, i - 1);
    }
  }

  /** Without one the strings compare equal, whatever stands behind the bound. */
  lemma {:induction false} NoDifference(a: string, b: string, n: nat)
    requires n <= |a| && n <= |b| && a[..n] == b[..n]
    ensures StrNCmp(a, b, n) == 0
    decreases n
  {
    if n > 0 {
      assert a[0] == a[..n][0] && b[0] == b[..n][0];
      assert a[1..][..n - 1] == a[..n][1..] && b[1..][..n - 1] == b[..n][1..];
      NoDifference(a[1..], b[1..], n - 1);
    }
  }

  /** `get_timeout_timestamp`, given the time of day. */
  function TimeoutTimestamp(now: int, timeout: int): string {
    Printed(now - timeout)
  }

  /** Of equally many digits: the strings compare as the numbers do. */
  lemma {:induction false} ComparesAsNumbers(a: string, b: string)
    requires AllDigits(a) && AllDigits(b) && |a| == |b|
    ensures StrNCmp(a, b, |b|) >= 0 <==> Value(a) >= Value(b)
    ensures StrNCmp(a, b, |b|) == 0 <==> Value(a) == Value(b)
  {
    if a != "" {
      ComparesAsNumbers(a[1..], b[1..]);
      ValueBound(a[1..]);
      ValueBound(b[1..]);
      var x, y := Digit(a[0]), Digit(b[0]);
      if x != y {
        LeadingDigitDecides(x, y, Value(a[1..]), Value(b[1..]), Pow10(|a| - 1));
      }
    }
  }

  lemma LeadingDigitDecides(x: int, y: int, u: int, v: int, p: nat)
    requires 0 <= u < p && 0 <= v < p && x != y
    ensures x > y <==> x * p + u >= y * p + v
    ensures x * p + u != y * p + v
  {
    if x > y {
      assert x * p >= (y + 1) * p;
    } else {
      assert y * p >= (x + 1) * p;
    }
  }

  /** The comparison looks at no more of the first string than the second has. */
  lemma {:induction false} ComparesPrefix(a: string, b: string)
    requires AllDigits(a) && AllDigits(b) && |a| > |b|
    ensures StrNCmp(a, b, |b|) == StrNCmp(a[..|b|], b, |b|)
    decreases |b|
  {
    if b != "" {
      ComparesPrefix(a[1..], b[1..]);
      assert a[..|b|][1..] == a[1..][..|b| - 1] && a[..|b|][0] == a[0];
    }
  }

  /** A string that runs out first is the smaller one, unless it was already the greater one. */
  lemma {:induction false} ComparesShorter(a: string, b: string)
    requires AllDigits(a) && AllDigits(b) && |a| < |b|
    ensures StrNCmp(a, b, |b|) >= 0 <==> StrNCmp(a, b[..|a|], |a|) > 0
    decreases |a|
  {
    if a != "" {
      ComparesShorter(a[1..], b[1..]);
      assert b[..|a|][1..] == b[1..][..|a| - 1] && b[..|a|][0] == b[0];
    } else {
      assert '0' <= b[0];
    }
  }

  /** The digits that both numbers have decide as the numbers do. */
  predicate SharedDigitsDecide(a: string, b: string) {
    || |a| == |b|
    || (|a| > |b| && Value(a[..|b|]) >= Value(b))
    || (|a| < |b| && Value(a) <= Value(b[..|a|]))
  }

  /** The strings compare as the numbers do exactly when the digits that both have decide so. */
  lemma ComparesAsNumbersIff(a: string, b: string)
    requires Canonical(a) && Canonical(b)
    ensures (StrNCmp(a, b, |b|) >= 0 <==> Value(a) >= Value(b)) <==> SharedDigitsDecide(a, b)
  {
    if |a| == |b| {
      ComparesAsNumbers(a, b);
    } else if |a| > |b| {
      LongerIsGreater(a, b);
      ComparesPrefix(a, b);
      ComparesAsNumbers(a[..|b|], b);
    } else {
      LongerIsGreater(b, a);
      ComparesShorter(a, b);
      ComparesAsNumbers(a, b[..|a|]);
    }
  }

  /** A heartbeat at 9 does not count as expired at 10; one at 1 does at 20. */
  lemma DigitCountMatters()
    ensures StrNCmp("10", "9", |"9"|) < 0 && Value("10") > Value("9") && !SharedDigitsDecide("10", "9")
    ensures StrNCmp("20", "1", |"1"|) >= 0 && Value("20") > Value("1") && SharedDigitsDecide("20", "1")
  {
    LongerIsGreater("10", "9");
    LongerIsGreater("20", "1");
    assert Value("10"[..1]) == 1 * Pow10(0) + Value("10"[..1][1..]) && Value("9") == 9 * Pow10(0) + Value("9"[1..]);
    assert Value("20"[..1]) == 2 * Pow10(0) + Value("20"[..1][1..]) && Value("1") == 1 * Pow10(0) + Value("1"[1..]);
  }
}
