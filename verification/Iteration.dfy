/** Iterating over a name map: a hash map yields its keys once each, in an order that is not specified. */
module Iteration {
  import opened NameGraph

  ghost predicate Enumerates(order: seq<string>, keys: set<string>) {
    && (forall i, j :: 0 <= i < j < |order| ==> order[i] != order[j])
    && (forall k :: k in keys <==> k in order)
  }

  /** The bindings met in the first `i` rounds. */
  function Met(names: map<string, Binding>, order: seq<string>, i: nat): map<string, Binding>
    requires i <= |order|
  {
    map n | n in names && n in order[..i] :: names[n]
  }

  /** Some order of the keys, any one. */
  method HashOrder(names: map<string, Binding>) returns (order: seq<string>)
    ensures Enumerates(order, names.Keys)
  {
    order := [];
    var left := names.Keys;
    while left != {}
      invariant left <= names.Keys
      invariant Enumerates(order, names.Keys - left)
      decreases |left|
    {
      var n :| n in left;
      order := order + [n];
      left := left - {n};
    }
  }

  lemma MetNothing(names: map<string, Binding>, order: seq<string>)
    ensures Met(names, order, 0) == map[]
  {
  }

  lemma MetOneMore(names: map<string, Binding>, order: seq<string>, i: nat)
    requires Enumerates(order, names.Keys) && i < |order|
    ensures order[i] in names && order[i] !in Met(names, order, i)
    ensures Met(names, order, i + 1) == Met(names, order, i)[order[i] := names[order[i]]]
  {
    assert order[..i + 1] == order[..i] + [order[i]];
    assert order[i] in order;
  }

  lemma MetAll(names: map<string, Binding>, order: seq<string>)
    requires Enumerates(order, names.Keys)
    ensures Met(names, order, |order|) == names
  {
    assert order[..|order|] == order;
  }

  lemma {:induction false} SubsetSize<T>(a: set<T>, b: set<T>)
    requires a <= b
    ensures |a| <= |b|
  {
    assert b == a + (b - a);
  }

  ghost predicate NoRepeats<T>(s: seq<T>) {
    forall i, j :: 0 <= i < j < |s| ==> s[i] != s[j]
  }

  lemma {:induction false} DistinctSize<T>(s: seq<T>)
    requires NoRepeats(s)
    ensures |set x | x in s| == |s|
  {
    if s == [] {
      assert (set x | x in s) == {};
    } else {
      var before := s[..|s| - 1];
      DistinctSize(before);
      assert s == before + [s[|s| - 1]];
      assert (set x | x in s) == (set x | x in before) + {s[|s| - 1]};
    }
  }
}
