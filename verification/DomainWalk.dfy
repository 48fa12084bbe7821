/** The walk as the engine starts it: over a domain, from its root. */
module DomainWalk {
  import opened Paths
  import opened NameGraph
  import opened Directory
  import opened TreeTraverse

  /**
   The walk over a domain in which the root reaches no cycle, for any iteration orders: exactly the calls
   of the unfolding of its root.
   */
  method TraverseDomain(d: Domain, orders: Orders) returns (visits: seq<Visit>)
    requires d.Valid() && WF(d.View()) && OrdersOk(d.View().objs, orders) && NoCycle(d.View().objs, d.View().root)
    ensures var objs, root := d.View().objs, d.View().root;
            && Ranked(objs, ReachRank(objs, root)) && root in ReachRank(objs, root)
            && visits == Events(Unfold(objs, orders, ReachRank(objs, root), "", root, [SEPARATOR]))
  {
    AllNamesLive(d.View());
    var st := d.View();
    NoCycleIsRanked(st.objs, st.root);
    visits := Traverse(st.objs, st.root, orders, ReachRank(st.objs, st.root));
    assert d.View() == st;
  }
}
