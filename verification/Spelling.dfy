/** How concatenation and repeated separators change the components of a name. */
module Spelling {
  import opened Wrappers
  import opened Paths

  // ---------- repeated separators ----------

  /** Doubling a separator changes nothing, except where it begins the last component of the name. */
  lemma DoubledSeparator(a: string, b: string)
    ensures Components(a + [SEPARATOR] + b) == Components(a + [SEPARATOR, SEPARATOR] + b)
       <==> b != "" || EndsInSeparator(a)
  {
    if b == "" {
      assert a + [SEPARATOR] + b == a + [SEPARATOR];
      assert a + [SEPARATOR, SEPARATOR] + b == a + [SEPARATOR, SEPARATOR];
      TrailingSeparators(a);
    } else if LastName(b) {
      DoubledBeforeLast(a, b);
    } else {
      DoubledInside(a, b);
    }
  }

  lemma DoubledBeforeLast(a: string, b: string)
    requires LastName(b)
    ensures Components(a + [SEPARATOR] + b) == Components(a + [SEPARATOR, SEPARATOR] + b)
  {
    SplitNameOfJoin(a, b);
    SplitNameOfJoin(a + [SEPARATOR], b);
    SlashedTwice(a, b);
    TokensOfTrailing(a);
  }

  lemma SlashedTwice(a: string, b: string)
    ensures a + [SEPARATOR, SEPARATOR] + b == a + [SEPARATOR] + [SEPARATOR] + b
  {
  }

  lemma TokensOfTrailing(a: string)
    ensures Tokens(a + [SEPARATOR]) == Tokens(a)
  {
    TokensOfConcat(a, [SEPARATOR]);
    assert [SEPARATOR][1..] == "";
  }

  lemma DoubledInside(a: string, b: string)
    requires b != "" && !LastName(b)
    ensures Components(a + [SEPARATOR] + b) == Components(a + [SEPARATOR, SEPARATOR] + b)
  {
    SeparatorInside(b);
    var i: nat :| i < |b| - 1 && b[i] == SEPARATOR;
    LastSeparatorSplits(a + [SEPARATOR], b, i);
    LastSeparatorSplits(a + [SEPARATOR, SEPARATOR], b, i);
    TokensOfDoubled(a, b[..LastInside(b)]);
  }

  lemma SeparatorInside(b: string)
    requires b != "" && !LastName(b)
    ensures exists i: nat :: i < |b| - 1 && b[i] == SEPARATOR
  {
    var i: nat :| i < |b[..|b| - 1]| && b[..|b| - 1][i] == SEPARATOR;
    assert b[i] == SEPARATOR;
  }

  /** The rightmost separator of a name that is not its last character. */
  function LastInside(b: string): (f: nat)
    requires |b| >= 2
    ensures f <= |b| - 2
    ensures forall j :: f < j <= |b| - 2 ==> b[j] != SEPARATOR
    ensures b[f] == SEPARATOR || f == 0
  {
    SplitPos(b)
  }

  lemma LastSeparatorSplits(a: string, b: string, i: nat)
    requires i < |b| - 1 && b[i] == SEPARATOR && a != ""
    ensures var f := LastInside(b);
            SplitName(a + b) == Split(Some(a + b[..f]), Some(b[f + 1..]))
  {
    var f := LastInside(b);
    var s := a + b;
    assert b[f] == SEPARATOR;
    assert forall j :: |a| <= j < |s| ==> s[j] == b[j - |a|];
    SplitPosUnique(s, |a| + f);
    assert s[..|a| + f] == a + b[..f];
    assert s[|a| + f + 1..] == b[f + 1..];
  }

  lemma TrailingSeparators(a: string)
    ensures Components(a + [SEPARATOR]) == Components(a + [SEPARATOR, SEPARATOR]) <==> EndsInSeparator(a)
  {
    var one, two := a + [SEPARATOR], a + [SEPARATOR, SEPARATOR];
    assert two == a + [SEPARATOR] + [SEPARATOR];
    SplitNameOfJoin(a, [SEPARATOR]);
    if EndsInSeparator(a) {
      var a' := a[..|a| - 1];
      assert one == a' + [SEPARATOR] + [SEPARATOR];
      SplitNameOfJoin(a', [SEPARATOR]);
      assert a == a' + [SEPARATOR];
      TokensOfConcat(a', [SEPARATOR]);
      assert Tokens([SEPARATOR]) == [];
    } else {
      if a == "" {
        SplitNameMeaning([SEPARATOR]);
        assert Components([SEPARATOR]) == [];
      } else {
        TailOfTrailing(a);
      }
      assert Components(two)[|Components(two)| - 1] == [SEPARATOR];
      assert a != "" ==> Components(one)[|Components(one)| - 1] == SplitName(one).tail.value;
    }
  }

  lemma TailOfTrailing(a: string)
    requires a != "" && !EndsInSeparator(a)
    ensures SplitName(a + [SEPARATOR]).tail.Some? && |SplitName(a + [SEPARATOR]).tail.value| >= 2
  {
    var s := a + [SEPARATOR];
    var f := SplitPos(s);
    assert s[|s| - 2] == a[|a| - 1];
    assert f == 0 || f < |s| - 2;
  }

  // ---------- a head followed by a tail ----------

  /** The pairs of names for which relative naming is the same as absolute naming. */
  predicate JoinsUp(head: string, tail: string) {
    if head == [SEPARATOR] then
      tail != "" && tail != [SEPARATOR]
    else if tail == [SEPARATOR] then
      |head| >= 2 && EndsInSeparator(head) && EndsInSeparator(head[..|head| - 1])
    else
      head != "" && !EndsInSeparator(head) && tail != "" && tail[0] == SEPARATOR
  }

  lemma JoinsUpIffComponentsJoin(head: string, tail: string)
    ensures JoinsUp(head, tail) <==> Components(head + tail) == Components(head) + Components(tail)
  {
    if head == [SEPARATOR] {
      RootHead(tail);
    } else if tail == [SEPARATOR] {
      RootTail(head);
    } else if tail == "" || head == "" {
      EmptyPart(head, tail);
    } else if EndsInSeparator(head) {
      DirtyHead(head, tail);
    } else if tail[0] == SEPARATOR {
      CleanJoin(head, tail);
    } else {
      MergedJoin(head, tail);
    }
  }

  lemma RootHead(tail: string)
    ensures Components([SEPARATOR] + tail) == Components(tail) <==> tail != "" && tail != [SEPARATOR]
    ensures Components([SEPARATOR]) == []
  {
    SplitNameMeaning([SEPARATOR]);
    var s := [SEPARATOR] + tail;
    if tail == "" {
      assert s == [SEPARATOR];
    } else if tail == [SEPARATOR] {
      SplitNameOfJoin("", tail);
      assert s == "" + [SEPARATOR] + tail;
    } else if LastName(tail) {
      SplitNameOfJoin("", tail);
      assert s == "" + [SEPARATOR] + tail;
      SplitOfLastName(tail);
    } else {
      SeparatorInside(tail);
      var i: nat :| i < |tail| - 1 && tail[i] == SEPARATOR;
      LastSeparatorSplits([SEPARATOR], tail, i);
      var f := LastInside(tail);
      TokensOfConcat([SEPARATOR], tail[..f]);
      assert Tokens([SEPARATOR]) == [];
      assert Components(s) == Tokens(tail[..f]) + [tail[f + 1..]];
      assert tail[f] == SEPARATOR;
      if f == 0 {
        assert tail[..f] == "";
        assert SplitName(tail) == Split(None, Some(tail[1..]));
      } else {
        assert SplitName(tail) == Split(Some(tail[..f]), Some(tail[f + 1..]));
      }
    }
  }

  lemma SplitOfLastName(s: string)
    requires LastName(s) && s != [SEPARATOR]
    ensures SplitName(s) == Split(None, Some(s))
  {
    assert forall j :: 0 <= j <= |s| - 2 ==> s[j] == s[..|s| - 1][j];
    SplitPosUnique(s, 0);
    assert s[0] != SEPARATOR;
  }

  lemma RootTail(head: string)
    requires head != [SEPARATOR]
    ensures Components(head + [SEPARATOR]) == Components(head)
       <==> |head| >= 2 && EndsInSeparator(head) && EndsInSeparator(head[..|head| - 1])
    ensures Components([SEPARATOR]) == []
  {
    SplitNameMeaning([SEPARATOR]);
    var s := head + [SEPARATOR];
    if head == "" {
      assert s == [SEPARATOR];
    } else if EndsInSeparator(head) {
      var a := head[..|head| - 1];
      assert head == a + [SEPARATOR];
      TrailingSeparators(a);
      assert s == a + [SEPARATOR, SEPARATOR];
    } else {
      FirstTrailing(head);
    }
  }

  /** A first trailing separator stays in the last component. */
  lemma FirstTrailing(head: string)
    requires head != "" && !EndsInSeparator(head)
    ensures Components(head + [SEPARATOR]) != Components(head)
  {
    var s := head + [SEPARATOR];
    TailOfTrailing(head);
    LastCharacterOfTail(head);
    LastCharacterOfTail(s);
    LastComponent(head);
    LastComponent(s);
  }

  lemma LastComponent(s: string)
    requires s != "" && s != [SEPARATOR]
    ensures SplitName(s).tail.Some? && Components(s) != []
    ensures Components(s)[|Components(s)| - 1] == SplitName(s).tail.value
  {
    SplitNameMeaning(s);
  }

  lemma LastCharacterOfTail(s: string)
    requires s != "" && s != [SEPARATOR]
    ensures SplitName(s).tail.Some? && SplitName(s).tail.value != ""
    ensures SplitName(s).tail.value[|SplitName(s).tail.value| - 1] == s[|s| - 1]
  {
    SplitNameMeaning(s);
  }

  lemma EmptyPart(head: string, tail: string)
    requires head == "" || tail == ""
    requires head != [SEPARATOR] && tail != [SEPARATOR]
    ensures Components(head + tail) != Components(head) + Components(tail)
  {
    SplitNameMeaning(head);
    SplitNameMeaning(tail);
    assert head + tail == if head == "" then tail else head;
    assert |Components(head) + Components(tail)| == |Components(head)| + |Components(tail)|;
    assert |Components("")| > 0;
  }

  lemma CleanJoin(head: string, tail: string)
    requires head != "" && !EndsInSeparator(head) && |tail| >= 2 && tail[0] == SEPARATOR
    ensures Components(head + tail) == Components(head) + Components(tail)
  {
    SplitNameShift(head, tail);
    var p := SplitName(tail);
    var middle := if p.head.Some? then p.head.value else "";
    if p.head.Some? {
      SplitNameMeaning(tail);
      assert middle[0] == tail[0];
    }
    TokensOfConcat(head, middle);
    ComponentsOfClean(head);
    SplitNameMeaning(tail);
  }

  lemma LastIsClean(last: string)
    requires LastName(last) && !EndsInSeparator(last)
    ensures CleanName(last)
  {
    assert last == last[..|last| - 1] + [last[|last| - 1]];
  }

  lemma TokensBeforeLast(front: string, last: string)
    requires CleanName(last)
    ensures Tokens(front + [SEPARATOR] + last) == Tokens(front) + [last]
  {
    TokensOfName(last);
    TokensOfConcat(front + [SEPARATOR], last);
    TokensOfTrailing(front);
  }

  /** A name that does not end in a separator has its tokens for components. */
  lemma ComponentsOfClean(s: string)
    requires s != "" && !EndsInSeparator(s)
    ensures Components(s) == Tokens(s)
  {
    SplitNameMeaning(s);
    LastCharacterOfTail(s);
    var p := SplitName(s);
    var last := p.tail.value;
    LastIsClean(last);
    if p.head.Some? {
      TokensBeforeLast(p.head.value, last);
    } else if s == last {
      TokensOfName(last);
    } else {
      TokensBeforeLast("", last);
      assert s == "" + [SEPARATOR] + last;
    }
  }

  lemma DirtyHead(head: string, tail: string)
    requires EndsInSeparator(head) && head != [SEPARATOR]
    requires tail != "" && tail != [SEPARATOR]
    ensures Components(head + tail) != Components(head) + Components(tail)
  {
    SplitNameMeaning(tail);
    SplitNameMeaning(head + tail);
    LastCharacterOfTail(head);
    var whole, sum := Components(head + tail), Components(head) + Components(tail);
    var k := |HeadTokens(head)|;
    assert sum[k] == SplitName(head).tail.value;
    assert SEPARATOR in sum[k];
    assert |sum| > k + 1;
    assert k < |HeadTokens(head + tail)| ==> CleanName(whole[k]);
  }

  lemma MergedJoin(head: string, tail: string)
    requires head != "" && !EndsInSeparator(head) && tail != "" && tail[0] != SEPARATOR
    ensures Components(head + tail) != Components(head) + Components(tail)
  {
    ComponentsOfClean(head);
    if LastName(tail) {
      SplitOfLastName(tail);
      MergedLast(head, tail);
    } else {
      SeparatorInside(tail);
      var i: nat :| i < |tail| - 1 && tail[i] == SEPARATOR;
      LastSeparatorSplits(head, tail, i);
      var f := LastInside(tail);
      assert tail[f] == SEPARATOR && f != 0;
      assert SplitName(tail) == Split(Some(tail[..f]), Some(tail[f + 1..]));
      MergedTokens(head, tail[..f]);
    }
  }

  lemma MergedLast(head: string, tail: string)
    requires head != "" && !EndsInSeparator(head) && LastName(tail) && tail[0] != SEPARATOR
    ensures |Components(head + tail)| <= |Components(head)|
  {
    var s := head + tail;
    var f := SplitPos(head);
    assert s[|head|] == tail[0] && s[|head| - 1] == head[|head| - 1];
    assert forall j :: |head| <= j <= |s| - 2 ==> s[j] == tail[..|tail| - 1][j - |head|];
    assert forall j :: 0 <= j < |head| ==> s[j] == head[j];
    SplitPosUnique(s, f);
    assert s[..f] == head[..f];
    LastCharacterOfTail(head);
  }

  lemma {:induction false} MergedTokens(a: string, b: string)
    requires a != "" && !EndsInSeparator(a) && b != "" && b[0] != SEPARATOR
    ensures |Tokens(a + b)| == |Tokens(a)| + |Tokens(b)| - 1
    decreases |a|
  {
    if a[0] == SEPARATOR {
      assert (a + b)[1..] == a[1..] + b;
      assert a[1..][|a[1..]| - 1] == a[|a| - 1];
      MergedTokens(a[1..], b);
    } else if TokenLength(a) < |a| {
      var k := TokenLength(a);
      FirstTokenOfBoth(a, b);
      assert a[k..][|a[k..]| - 1] == a[|a| - 1];
      MergedTokens(a[k..], b);
    } else {
      OneToken(a, b);
    }
  }

  lemma FirstTokenOfBoth(a: string, b: string)
    requires a != "" && a[0] != SEPARATOR && TokenLength(a) < |a|
    ensures var k := TokenLength(a); TokenLength(a + b) == k && (a + b)[..k] == a[..k] && (a + b)[k..] == a[k..] + b
  {
    var s, k := a + b, TokenLength(a);
    assert forall j :: 0 <= j < |a| ==> s[j] == a[j];
    assert s[k] == SEPARATOR && forall j :: 0 <= j < k ==> s[j] != SEPARATOR;
  }

  lemma OneToken(a: string, b: string)
    requires a != "" && TokenLength(a) == |a| && b != "" && b[0] != SEPARATOR
    ensures |Tokens(a + b)| == |Tokens(a)| + |Tokens(b)| - 1
  {
    var s, kb := a + b, TokenLength(b);
    assert forall j :: 0 <= j < |a| ==> s[j] == a[j];
    assert forall j :: |a| <= j < |s| ==> s[j] == b[j - |a|];
    assert kb < |b| ==> s[|a| + kb] == b[kb];
    assert TokenLength(s) == |a| + kb;
    assert s[|a| + kb..] == b[kb..] && a[|a|..] == "";
  }

  // ---------- written out ----------

  /** Names, each after a separator. */
  function Slashed(names: seq<string>): string {
    if names == [] then "" else "/" + names[0] + Slashed(names[1..])
  }

  lemma {:induction false} TokensOfSlashed(names: seq<string>)
    requires forall i :: 0 <= i < |names| ==> CleanName(names[i])
    ensures Tokens(Slashed(names)) == names
  {
    if names != [] {
      var rest := Slashed(names[1..]);
      TokensOfSlashed(names[1..]);
      FirstSlashed(names[0], rest);
      assert names == [names[0]] + names[1..];
    }
  }

  lemma FirstSlashed(name: string, rest: string)
    requires CleanName(name) && (rest == "" || rest[0] == SEPARATOR)
    ensures Tokens("/" + name + rest) == [name] + Tokens(rest)
  {
    assert ("/" + name + rest)[1..] == name + rest;
    TokensOfConcat(name, rest);
    TokensOfName(name);
  }

  lemma CleanIsLast(name: string)
    requires CleanName(name)
    ensures LastName(name)
  {
    assert name[..|name| - 1] + [name[|name| - 1]] == name;
  }

  /** A path from the root has the names between the separators for components. */
  lemma ComponentsOfPath(names: seq<string>, last: string)
    requires forall i :: 0 <= i < |names| ==> CleanName(names[i])
    requires CleanName(last)
    ensures Components(Slashed(names) + "/" + last) == names + [last]
  {
    CleanIsLast(last);
    SplitNameOfJoin(Slashed(names), last);
    TokensOfSlashed(names);
  }
}
