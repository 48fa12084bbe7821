/**
 Path names as the directory cuts them: `split_name` takes the last component off, and a
 `strtok` loop breaks what is left into components.
 */
module Paths {
  import opened Wrappers

  const SEPARATOR: char := '/'

  /** What `split_name` hands back; None stands for a NULL pointer. */
  datatype Split = Split(head: Option<string>, tail: Option<string>)

  ghost predicate HasSeparator(s: string) {
    SEPARATOR in s
  }

  predicate EndsInSeparator(s: string) {
    s != "" && s[|s| - 1] == SEPARATOR
  }

  /** A name that a `strtok` loop can produce. */
  ghost predicate CleanName(s: string) {
    s != "" && !HasSeparator(s)
  }

  /** A name that `split_name` can leave as a last component: only its last character may be a separator. */
  ghost predicate LastName(s: string) {
    s != "" && !HasSeparator(s[..|s| - 1])
  }

  // ---------- split_name ----------

  /** `f` is where the backward scan stops: the rightmost separator that is not the last character, else 0. */
  ghost predicate IsSplitPos(s: string, f: nat) {
    if |s| < 2 then f == 0
    else
      && f <= |s| - 2
      && (s[f] == SEPARATOR || f == 0)
      && forall j :: f < j <= |s| - 2 ==> s[j] != SEPARATOR
  }

  function ScanBack(s: string, i: nat): (f: nat)
    requires i < |s|
    ensures f <= i && (s[f] == SEPARATOR || f == 0)
    ensures forall j :: f < j <= i ==> s[j] != SEPARATOR
  {
    if s[i] == SEPARATOR || i == 0 then i else ScanBack(s, i - 1)
  }

  function SplitPos(s: string): (f: nat)
    ensures IsSplitPos(s, f)
  {
    if |s| < 2 then 0 else ScanBack(s, |s| - 2)
  }

  /** The scan's stopping place is the only one with its property. */
  lemma SplitPosUnique(s: string, f: nat)
    requires IsSplitPos(s, f)
    ensures f == SplitPos(s)
  {
    var g := SplitPos(s);
    assert |s| >= 2 ==> (s[f] == SEPARATOR || f == 0) && (s[g] == SEPARATOR || g == 0);
  }

  function SplitName(s: string): Split {
    var f := SplitPos(s);
    if f == 0 then
      if s != "" && s[0] == SEPARATOR then
        Split(None, if |s| > 1 then Some(s[1..]) else None)
      else
        Split(None, Some(s))
    else
      Split(Some(s[..f]), Some(s[f + 1..]))
  }

  method ScanForSplit(source: string) returns (f: nat)
    ensures f == SplitPos(source)
  {
    if |source| < 2 {
      f := 0;
    } else {
      f := |source| - 2;
      while source[f] != SEPARATOR && f != 0
        invariant f <= |source| - 2
        invariant forall j :: f < j <= |source| - 2 ==> source[j] != SEPARATOR
        decreases f
      {
        f := f - 1;
      }
      SplitPosUnique(source, f);
    }
  }

  method SplitNameInto(source: string) returns (head: Option<string>, tail: Option<string>)
    ensures Split(head, tail) == SplitName(source)
  {
    var f := ScanForSplit(source);
    if f == 0 {
      head := None;
      if source != "" && source[0] == SEPARATOR {
        if |source| > 1 {
          tail := Some(source[1..]);
        } else {
          tail := None;
        }
      } else {
        tail := Some(source);
      }
    } else {
      var g := f;
      head := Some(source[..f]);
      g := g + 1;
      tail := Some(source[g..]);
    }
  }

  /** The two parts, put back around a separator, are the name again; the tail is a last name; only "/" has no tail. */
  lemma SplitNameMeaning(s: string)
    ensures var p := SplitName(s);
            && (p.tail.None? <==> s == [SEPARATOR])
            && (p.tail.Some? && p.tail.value == "" <==> s == "")
            && (p.tail.Some? && s != "" ==> LastName(p.tail.value))
            && (p.head.Some? ==> p.tail.Some? && s == p.head.value + [SEPARATOR] + p.tail.value && p.head.value != "")
            && (p.head.None? && p.tail.Some? ==> s == p.tail.value || s == [SEPARATOR] + p.tail.value)
  {
    var f := SplitPos(s);
    if f != 0 {
      assert s == s[..f] + [s[f]] + s[f + 1..];
    } else if |s| >= 2 && s[0] == SEPARATOR {
      assert s == [s[0]] + s[1..];
    }
  }

  /** Splitting a name rebuilt from a head and a last name gives the two parts back. */
  lemma SplitNameOfJoin(head: string, last: string)
    requires LastName(last)
    ensures SplitName(head + [SEPARATOR] + last) == Split(if head == "" then None else Some(head), Some(last))
  {
    var s := head + [SEPARATOR] + last;
    forall j | |head| < j <= |s| - 2
      ensures s[j] != SEPARATOR
    {
      assert s[j] == last[..|last| - 1][j - |head| - 1];
    }
    SplitPosUnique(s, |head|);
    assert s[..|head|] == head;
    assert s[|head| + 1..] == last;
  }

  /** A longer prefix moves the split with it, once the name after it starts with a separator. */
  lemma SplitNameShift(h: string, t: string)
    requires h != "" && |t| >= 2 && t[0] == SEPARATOR
    ensures var p := SplitName(t);
            SplitName(h + t) == Split(Some(h + (if p.head.Some? then p.head.value else "")), p.tail)
  {
    var f := SplitPos(t);
    var s := h + t;
    assert forall j :: |h| <= j < |s| ==> s[j] == t[j - |h|];
    SplitPosUnique(s, |h| + f);
    assert s[..|h| + f] == h + t[..f];
    assert s[|h| + f + 1..] == t[f + 1..];
  }

  // ---------- strtok ----------

  function TokenLength(s: string): (k: nat)
    ensures k <= |s| && (k == |s| || s[k] == SEPARATOR)
    ensures forall j :: 0 <= j < k ==> s[j] != SEPARATOR
    ensures s != "" && s[0] != SEPARATOR ==> k > 0
  {
    if s == "" || s[0] == SEPARATOR then 0 else 1 + TokenLength(s[1..])
  }

  function Tokens(s: string): (toks: seq<string>)
    ensures forall i :: 0 <= i < |toks| ==> CleanName(toks[i])
    decreases |s|
  {
    if s == "" then []
    else if s[0] == SEPARATOR then Tokens(s[1..])
    else
      var k := TokenLength(s);
      [s[..k]] + Tokens(s[k..])
  }

  /** One `strtok` call: skips separators, then takes everything up to the next one. */
  method NextToken(s: string, pos: nat) returns (token: Option<string>, next: nat)
    requires pos <= |s|
    ensures pos <= next <= |s|
    ensures token.None? ==> Tokens(s[pos..]) == []
    ensures token.Some? ==> pos < next && Tokens(s[pos..]) == [token.value] + Tokens(s[next..])
  {
    var start := pos;
    while start < |s| && s[start] == SEPARATOR
      invariant pos <= start <= |s|
      invariant Tokens(s[pos..]) == Tokens(s[start..])
    {
      assert s[start..][1..] == s[start + 1..];
      start := start + 1;
    }
    if start == |s| {
      return None, start;
    }
    next := start;
    while next < |s| && s[next] != SEPARATOR
      invariant start <= next <= |s|
      invariant forall j :: start <= j < next ==> s[j] != SEPARATOR
    {
      next := next + 1;
    }
    TokenEnds(s, start, next);
    token := Some(s[start..next]);
  }

  lemma TokenEnds(s: string, start: nat, next: nat)
    requires start < next <= |s| && (next == |s| || s[next] == SEPARATOR)
    requires forall j :: start <= j < next ==> s[j] != SEPARATOR
    ensures Tokens(s[start..]) == [s[start..next]] + Tokens(s[next..])
  {
    var rest := s[start..];
    assert forall j :: 0 <= j < next - start ==> rest[j] == s[start + j];
    assert next < |s| ==> rest[next - start] == SEPARATOR;
    assert TokenLength(rest) == next - start;
    assert rest[..next - start] == s[start..next] && rest[next - start..] == s[next..];
  }

  lemma {:induction false} TokensOfConcat(a: string, b: string)
    requires b == "" || b[0] == SEPARATOR || EndsInSeparator(a) || a == ""
    ensures Tokens(a + b) == Tokens(a) + Tokens(b)
    decreases |a|
  {
    if a == "" {
      assert a + b == b;
    } else if a[0] == SEPARATOR {
      assert (a + b)[1..] == a[1..] + b;
      if a[1..] != "" { assert a[1..][|a[1..]| - 1] == a[|a| - 1]; }
      TokensOfConcat(a[1..], b);
    } else {
      var k := TokenLength(a);
      FirstTokenOfConcat(a, b);
      if a[k..] != "" { assert a[k..][|a[k..]| - 1] == a[|a| - 1]; }
      TokensOfConcat(a[k..], b);
      HeadFirst(a[..k], Tokens(a[k..]), Tokens(b));
    }
  }

  lemma HeadFirst(t: string, front: seq<string>, back: seq<string>)
    ensures [t] + (front + back) == ([t] + front) + back
  {
  }

  lemma TokenLengthOfConcat(a: string, b: string)
    requires a != "" && a[0] != SEPARATOR
    requires b == "" || b[0] == SEPARATOR || EndsInSeparator(a)
    ensures TokenLength(a + b) == TokenLength(a)
  {
    var k, m := TokenLength(a), TokenLength(a + b);
    assert forall j :: 0 <= j < |a| ==> (a + b)[j] == a[j];
    if k == |a| {
      assert a[|a| - 1] != SEPARATOR;
      if b != "" { assert (a + b)[|a|] == SEPARATOR; }
      assert m == |a|;
    }
  }

  /** The first token of a concatenation is the first token of its first part, if nothing is glued to that. */
  lemma FirstTokenOfConcat(a: string, b: string)
    requires a != "" && a[0] != SEPARATOR
    requires b == "" || b[0] == SEPARATOR || EndsInSeparator(a)
    ensures Tokens(a + b) == [a[..TokenLength(a)]] + Tokens(a[TokenLength(a)..] + b)
  {
    var k := TokenLength(a);
    TokenLengthOfConcat(a, b);
    assert (a + b)[..k] == a[..k];
    assert (a + b)[k..] == a[k..] + b;
  }

  lemma TokensOfName(s: string)
    requires CleanName(s)
    ensures Tokens(s) == [s]
  {
    var k := TokenLength(s);
    assert s[0] != SEPARATOR;
    assert forall j :: 0 <= j < |s| ==> s[j] != SEPARATOR;
    assert s[..k] == s && s[k..] == "";
  }

  /** Doubling a separator changes no component. */
  lemma TokensOfDoubled(a: string, b: string)
    ensures Tokens(a + [SEPARATOR, SEPARATOR] + b) == Tokens(a + [SEPARATOR] + b)
  {
    var one, two := a + [SEPARATOR], a + [SEPARATOR, SEPARATOR];
    TokensOfConcat(one, b);
    TokensOfConcat(two, b);
    TokensOfConcat(a, [SEPARATOR]);
    TokensOfConcat(a, [SEPARATOR, SEPARATOR]);
    assert [SEPARATOR, SEPARATOR][1..] == [SEPARATOR];
  }

  // ---------- components ----------

  function HeadTokens(name: string): seq<string> {
    var p := SplitName(name);
    if p.head.Some? then Tokens(p.head.value) else []
  }

  /** The names that resolution looks up, in order. */
  function Components(name: string): seq<string> {
    var p := SplitName(name);
    HeadTokens(name) + if p.tail.Some? then [p.tail.value] else []
  }
}
