/** A domain that clients reach and that a dump does not bring back. */
module ReachableDump {
  import opened Wrappers
  import opened Paths
  import opened NameGraph
  import opened Operations
  import opened ResolutionLaws
  import opened NamingLaws
  import opened TreeTraverse
  import opened Load
  import opened ReachableNames

  /**
   A context "b" in a context created as "/a/": the dump writes the path with both separators, and the copy that a
   load makes of it does not have the paths of the original, whatever the iteration orders.
   */
  lemma UnspelledIsReachable() returns (st: State)
    ensures Reachable(st) && WF(st) && NoCycle(st.objs, st.root) && !AllSpelled(st)
    ensures forall orders, first :: OrdersOk(st.objs, orders) ==>
              !SamePaths(LoadAll(NewDomain(first), DumpOrder(st, orders)), st)
  {
    st := TrailingIsReachable(ContextKind);
    ReachableFacts(st);
    TrailingTree(st);
    forall orders, first | OrdersOk(st.objs, orders)
      ensures !SamePaths(LoadAll(NewDomain(first), DumpOrder(st, orders)), st)
    {
      DumpLoadRoundTrip(st, orders, first);
    }
  }

  lemma TrailingTree(st: State)
    requires InTrailing(st, ContextKind)
    ensures NoCycle(st.objs, st.root) && !AllSpelled(st)
  {
    var p := [['a', SEPARATOR], "b"];
    assert RealContextAt(st.objs, 0, p[0]) && RealContextAt(st.objs, 1, p[1]);
    assert p[1..] == ["b"] && p[1..][1..] == [] && RealFollow(st.objs, 2, []) == Some(2);
    assert RealFollow(st.objs, 1, p[1..]) == Some(2) && RealFollow(st.objs, 0, p) == Some(2);
    assert p[..1][0] == ['a', SEPARATOR] && ['a', SEPARATOR][1] == SEPARATOR;
    assert Ranked(st.objs, map[0 := 2, 1 := 1, 2 := 0]);
    forall q | RealFollow(st.objs, 0, q).Some?
      ensures |q| <= 2
    {
      RankFalls(st.objs, map[0 := 2, 1 := 1, 2 := 0], 0, q);
    }
    assert NoLonger(st.objs, 0, 2);
    NoCycleIffBounded(st.objs, 0);
  }
}
