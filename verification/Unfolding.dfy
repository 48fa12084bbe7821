/** What the unfolding of a domain is: one node for every path of real context bindings from the root. */
module Unfolding {
  import opened Wrappers
  import opened Paths
  import opened NameGraph
  import opened Iteration
  import opened TreeTraverse

  /** The path string that the walk reports for a path below `base`. */
  function PathString(base: string, p: seq<string>): string
    decreases |p|
  {
    if p == [] then base else PathString(ChildPath(base, p[0]), p[1..])
  }

  function Named(f: Forest, n: string): Option<Node> {
    match f
    case Nil => None
    case Cons(first, rest) => if first.name == n then Some(first) else Named(rest, n)
  }

  function At(t: Node, p: seq<string>): Option<Node>
    decreases |p|
  {
    if p == [] then Some(t)
    else match Named(t.children, p[0])
      case None => None
      case Some(u) => At(u, p[1..])
  }

  // ---------- the node at a path ----------

  lemma {:induction false} NamedChild(objs: Objects, orders: Orders, rank: map<Id, nat>,
                                      c: Id, path: string, names: seq<string>, n: string)
    requires Ranked(objs, rank) && c in rank
    requires forall m :: m in names ==> RealContextAt(objs, c, m)
    ensures Named(UnfoldAll(objs, orders, rank, c, path, names), n)
         == if n in names then Some(Unfold(objs, orders, rank, n, NamesOf(objs, c)[n].target, ChildPath(path, n)))
            else None
    decreases |names|
  {
    if names != [] {
      var front, last := names[..|names| - 1], names[|names| - 1];
      assert names == front + [last];
      NamedChild(objs, orders, rank, c, path, front, n);
    }
  }

  /** The node that the path leads to stands for the context that the path leads to, under the path's own string. */
  lemma {:induction false} NodeAtPath(objs: Objects, orders: Orders, rank: map<Id, nat>,
                                      name: string, c: Id, path: string, p: seq<string>)
    requires Ranked(objs, rank) && c in rank && OrdersOk(objs, orders) && c in objs
    ensures var u := At(Unfold(objs, orders, rank, name, c, path), p);
            && (u.Some? <==> RealFollow(objs, c, p).Some?)
            && (u.Some? ==> u.value.context == RealFollow(objs, c, p).value && u.value.path == PathString(path, p))
    decreases |p|
  {
    if p != [] {
      NamedChild(objs, orders, rank, c, path, ContextNames(objs, c, orders[c]), p[0]);
      assert p[0] in ContextNames(objs, c, orders[c]) <==> RealContextAt(objs, c, p[0]);
      if RealContextAt(objs, c, p[0]) {
        NodeAtPath(objs, orders, rank, p[0], NamesOf(objs, c)[p[0]].target, ChildPath(path, p[0]), p[1..]);
      }
    }
  }

  // ---------- every node is at one path ----------

  ghost predicate NameIn(f: Forest, n: string) {
    f.Cons? && (f.first.name == n || NameIn(f.rest, n))
  }

  /** No two siblings anywhere have the same name. */
  ghost predicate Distinct(t: Node) {
    DistinctAll(t.children)
  }

  ghost predicate DistinctAll(f: Forest) {
    f.Cons? ==> !NameIn(f.rest, f.first.name) && Distinct(f.first) && DistinctAll(f.rest)
  }

  lemma {:induction false} ContextNamesDistinct(objs: Objects, c: Id, order: seq<string>)
    requires NoRepeats(order)
    ensures NoRepeats(ContextNames(objs, c, order))
  {
    if order != [] {
      var front := order[..|order| - 1];
      ContextNamesDistinct(objs, c, front);
      assert order[|order| - 1] !in front;
      assert order[|order| - 1] !in ContextNames(objs, c, front);
    }
  }

  lemma {:induction false} UnfoldDistinct(objs: Objects, orders: Orders, rank: map<Id, nat>, name: string, c: Id,
                                          path: string)
    requires Ranked(objs, rank) && c in rank && OrdersOk(objs, orders) && c in objs
    ensures Distinct(Unfold(objs, orders, rank, name, c, path))
    decreases RankOf(rank, c), 1, 0
  {
    assert NoRepeats(orders[c]);
    ContextNamesDistinct(objs, c, orders[c]);
    UnfoldAllDistinct(objs, orders, rank, c, path, ContextNames(objs, c, orders[c]));
  }

  lemma {:induction false} UnfoldAllDistinct(objs: Objects, orders: Orders, rank: map<Id, nat>,
                                             c: Id, path: string, names: seq<string>)
    requires Ranked(objs, rank) && c in rank && OrdersOk(objs, orders)
    requires forall n :: n in names ==> RealContextAt(objs, c, n)
    requires NoRepeats(names)
    ensures DistinctAll(UnfoldAll(objs, orders, rank, c, path, names))
    decreases RankOf(rank, c), 0, |names|
  {
    if names != [] {
      var front, n := names[..|names| - 1], names[|names| - 1];
      assert n in names && RealContextAt(objs, c, n);
      assert n !in front;
      UnfoldDistinct(objs, orders, rank, n, NamesOf(objs, c)[n].target, ChildPath(path, n));
      UnfoldAllDistinct(objs, orders, rank, c, path, front);
      NameInUnfolding(objs, orders, rank, c, path, front, n);
    }
  }

  lemma {:induction false} NameInUnfolding(objs: Objects, orders: Orders, rank: map<Id, nat>,
                                           c: Id, path: string, names: seq<string>, n: string)
    requires Ranked(objs, rank) && c in rank
    requires forall m :: m in names ==> RealContextAt(objs, c, m)
    ensures NameIn(UnfoldAll(objs, orders, rank, c, path, names), n) <==> n in names
    decreases |names|
  {
    if names != [] {
      var front, last := names[..|names| - 1], names[|names| - 1];
      assert names == front + [last];
      NameInUnfolding(objs, orders, rank, c, path, front, n);
    }
  }

  /** The paths of a tree's nodes in visiting order. */
  function Trails(t: Node, trail: seq<string>): seq<seq<string>> {
    [trail] + TrailsAll(t.children, trail)
  }

  function TrailsAll(f: Forest, trail: seq<string>): seq<seq<string>> {
    match f
    case Nil => []
    case Cons(first, rest) => Trails(first, trail + [first.name]) + TrailsAll(rest, trail)
  }

  lemma {:induction false} TrailsExtend(t: Node, trail: seq<string>)
    ensures forall q :: q in Trails(t, trail) ==> trail <= q
  {
    TrailsAllExtend(t.children, trail);
  }

  lemma {:induction false} TrailsAllExtend(f: Forest, trail: seq<string>)
    ensures forall q :: q in TrailsAll(f, trail) ==> |q| > |trail| && trail <= q && NameIn(f, q[|trail|])
  {
    if f.Cons? {
      TrailsExtend(f.first, trail + [f.first.name]);
      TrailsAllExtend(f.rest, trail);
    }
  }

  lemma {:induction false} TrailsAreDistinct(t: Node, trail: seq<string>)
    requires Distinct(t)
    ensures NoRepeats(Trails(t, trail))
  {
    TrailsAllAreDistinct(t.children, trail);
    TrailsAllExtend(t.children, trail);
    assert trail !in TrailsAll(t.children, trail);
  }

  lemma {:induction false} TrailsAllAreDistinct(f: Forest, trail: seq<string>)
    requires DistinctAll(f)
    ensures NoRepeats(TrailsAll(f, trail))
  {
    if f.Cons? {
      var a, b := Trails(f.first, trail + [f.first.name]), TrailsAll(f.rest, trail);
      TrailsAreDistinct(f.first, trail + [f.first.name]);
      TrailsAllAreDistinct(f.rest, trail);
      TrailsExtend(f.first, trail + [f.first.name]);
      TrailsAllExtend(f.rest, trail);
      forall i, j | 0 <= i < |a| && 0 <= j < |b|
        ensures a[i] != b[j]
      {
        assert a[i] in a && b[j] in b;
        assert a[i][|trail|] == f.first.name;
      }
    }
  }

  lemma {:induction false} TrailsAreNodes(t: Node, trail: seq<string>, p: seq<string>)
    requires Distinct(t)
    ensures trail + p in Trails(t, trail) <==> At(t, p).Some?
  {
    TrailsAllAreNodes(t.children, trail, p);
    TrailsAllExtend(t.children, trail);
    if p == [] {
      assert trail + p == trail;
      assert Trails(t, trail)[0] == trail;
    } else {
      assert trail + p != trail;
    }
  }

  lemma {:induction false} TrailsAllAreNodes(f: Forest, trail: seq<string>, p: seq<string>)
    requires DistinctAll(f)
    ensures trail + p in TrailsAll(f, trail)
        <==> p != [] && Named(f, p[0]).Some? && At(Named(f, p[0]).value, p[1..]).Some?
  {
    if f.Cons? {
      TrailsAllAreNodes(f.rest, trail, p);
      NamedIsIn(f.rest, f.first.name);
      TrailsExtend(f.first, trail + [f.first.name]);
      if p != [] && f.first.name == p[0] {
        assert trail + p == (trail + [f.first.name]) + p[1..];
        TrailsAreNodes(f.first, trail + [f.first.name], p[1..]);
      } else {
        assert p != [] ==> (trail + p)[|trail|] == p[0];
        forall q | q in Trails(f.first, trail + [f.first.name])
          ensures |q| > |trail| && q[|trail|] == f.first.name
        {
        }
      }
    }
  }

  lemma {:induction false} NamedIsIn(f: Forest, n: string)
    ensures Named(f, n).Some? <==> NameIn(f, n)
  {
    if f.Cons? {
      NamedIsIn(f.rest, n);
    }
  }

  // ---------- what the visitor sees ----------

  /** The contexts that are visited, with the paths reported for them. */
  function Starts(events: seq<Visit>): seq<(Id, string)> {
    if events == [] then []
    else (if events[0].StartContext? then [(events[0].context, events[0].path)] else []) + Starts(events[1..])
  }

  lemma {:induction false} StartsOfConcat(a: seq<Visit>, b: seq<Visit>)
    ensures Starts(a + b) == Starts(a) + Starts(b)
  {
    if a == [] {
      assert a + b == b;
    } else {
      assert (a + b)[1..] == a[1..] + b;
      StartsOfConcat(a[1..], b);
    }
  }

  lemma {:induction false} NoStarts(c: Id, path: string, entities: seq<Id>)
    ensures Starts(EntityEvents(c, path, entities)) == []
  {
    if entities != [] {
      var e := entities[|entities| - 1];
      var pair := [StartEntity(c, e, path), EndEntity(c, e, path)];
      NoStarts(c, path, entities[..|entities| - 1]);
      StartsOfConcat(EntityEvents(c, path, entities[..|entities| - 1]), pair);
      assert pair[1..] == [EndEntity(c, e, path)];
      assert Starts(pair[1..]) == [] + Starts([]);
    }
  }

  /** The nodes of a tree in visiting order. */
  function Nodes(t: Node): seq<Node> {
    [t] + ForestNodes(t.children)
  }

  function ForestNodes(f: Forest): seq<Node> {
    match f
    case Nil => []
    case Cons(first, rest) => Nodes(first) + ForestNodes(rest)
  }

  ghost predicate StartsAre(starts: seq<(Id, string)>, nodes: seq<Node>) {
    |starts| == |nodes| && forall i :: 0 <= i < |nodes| ==> starts[i] == (nodes[i].context, nodes[i].path)
  }

  lemma {:induction false} StartsOfEvents(t: Node)
    ensures StartsAre(Starts(Events(t)), Nodes(t))
  {
    var start, entities, end := [StartContext(t.context, t.path)], EntityEvents(t.context, t.path, t.entities),
                                [EndContext(t.context, t.path)];
    StartsOfForest(t.children);
    NoStarts(t.context, t.path, t.entities);
    StartsOfConcat(start, entities);
    StartsOfConcat(start + entities, EventsAll(t.children));
    StartsOfConcat(start + entities + EventsAll(t.children), end);
    assert Starts(Events(t)) == [(t.context, t.path)] + Starts(EventsAll(t.children));
  }

  lemma {:induction false} StartsOfForest(f: Forest)
    ensures StartsAre(Starts(EventsAll(f)), ForestNodes(f))
  {
    if f.Cons? {
      StartsOfEvents(f.first);
      StartsOfForest(f.rest);
      StartsOfConcat(Events(f.first), EventsAll(f.rest));
    }
  }

  /** The `i`-th visit is that of the node at the `i`-th path. */
  lemma {:induction false} NodesAreAtTrails(t: Node, trail: seq<string>, i: nat)
    requires Distinct(t)
    ensures |Nodes(t)| == |Trails(t, trail)|
    ensures i < |Nodes(t)| ==>
      var q := Trails(t, trail)[i];
      trail <= q && At(t, q[|trail|..]) == Some(Nodes(t)[i])
  {
    ForestNodesAreAtTrails(t.children, trail, if i > 0 then i - 1 else 0);
    if 0 < i < |Nodes(t)| {
      assert Nodes(t)[i] == ForestNodes(t.children)[i - 1];
      assert Trails(t, trail)[i] == TrailsAll(t.children, trail)[i - 1];
    }
  }

  lemma {:induction false} ForestNodesAreAtTrails(f: Forest, trail: seq<string>, i: nat)
    requires DistinctAll(f)
    ensures |ForestNodes(f)| == |TrailsAll(f, trail)|
    ensures i < |ForestNodes(f)| ==>
      var q := TrailsAll(f, trail)[i];
      && trail <= q && |q| > |trail| && Named(f, q[|trail|]).Some?
      && At(Named(f, q[|trail|]).value, q[|trail| + 1..]) == Some(ForestNodes(f)[i])
  {
    if f.Cons? {
      var below := trail + [f.first.name];
      var k := |Nodes(f.first)|;
      NodesAreAtTrails(f.first, below, i);
      ForestNodesAreAtTrails(f.rest, trail, if i >= k then i - k else 0);
      NamedIsIn(f.rest, f.first.name);
      if i < k {
        var q := TrailsAll(f, trail)[i];
        assert q == Trails(f.first, below)[i];
        assert q[|trail|] == f.first.name && q[|below|..] == q[|trail| + 1..];
      } else if i < |ForestNodes(f)| {
        var q := TrailsAll(f, trail)[i];
        assert q == TrailsAll(f.rest, trail)[i - k];
        NamedIsIn(f.rest, q[|trail|]);
      }
    }
  }

  /** The node stands for the context that the path leads to. */
  ghost predicate NodeOf(objs: Objects, root: Id, p: seq<string>, u: Node) {
    RealFollow(objs, root, p) == Some(u.context) && u.path == PathString([SEPARATOR], p)
  }

  /** The paths of real bindings from the root, none twice, and the nodes of the unfolding that they lead to. */
  lemma NodesOfWalk(objs: Objects, orders: Orders, rank: map<Id, nat>, root: Id)
    returns (trails: seq<seq<string>>, nodes: seq<Node>)
    requires OrdersOk(objs, orders) && root in objs && Ranked(objs, rank) && root in rank
    ensures NoRepeats(trails) && forall p :: p in trails <==> RealFollow(objs, root, p).Some?
    ensures nodes == Nodes(Unfold(objs, orders, rank, "", root, [SEPARATOR])) && |nodes| == |trails|
    ensures forall i :: 0 <= i < |nodes| ==> NodeOf(objs, root, trails[i], nodes[i])
  {
    var t := Unfold(objs, orders, rank, "", root, [SEPARATOR]);
    trails, nodes := Trails(t, []), Nodes(t);
    UnfoldDistinct(objs, orders, rank, "", root, [SEPARATOR]);
    TrailsAreDistinct(t, []);
    NodesAreAtTrails(t, [], 0);
    forall p
      ensures p in trails <==> RealFollow(objs, root, p).Some?
    {
      assert [] + p == p;
      TrailsAreNodes(t, [], p);
      NodeAtPath(objs, orders, rank, "", root, [SEPARATOR], p);
    }
    forall i | 0 <= i < |nodes|
      ensures NodeOf(objs, root, trails[i], nodes[i])
    {
      NodesAreAtTrails(t, [], i);
      assert trails[i][0..] == trails[i];
      NodeAtPath(objs, orders, rank, "", root, [SEPARATOR], trails[i]);
    }
  }

  /**
   The walk visits every real context once for every path of real bindings that leads to it, and
   reports that path: `trails` lists all such paths, none twice, in the order of the visits.
   */
  lemma VisitedOncePerPath(objs: Objects, orders: Orders, root: Id) returns (trails: seq<seq<string>>)
    requires OrdersOk(objs, orders) && root in objs && NoCycle(objs, root)
    ensures NoRepeats(trails)
    ensures forall p :: p in trails <==> RealFollow(objs, root, p).Some?
    ensures var rank := ReachRank(objs, root);
            && Ranked(objs, rank) && root in rank
            && var starts := Starts(Events(Unfold(objs, orders, rank, "", root, [SEPARATOR])));
               && |starts| == |trails|
               && forall i :: 0 <= i < |trails| ==>
                    starts[i] == (RealFollow(objs, root, trails[i]).value, PathString([SEPARATOR], trails[i]))
  {
    NoCycleIsRanked(objs, root);
    var rank := ReachRank(objs, root);
    var nodes;
    trails, nodes := NodesOfWalk(objs, orders, rank, root);
    StartsOfEvents(Unfold(objs, orders, rank, "", root, [SEPARATOR]));
    forall i | 0 <= i < |trails|
      ensures Starts(Events(Unfold(objs, orders, rank, "", root, [SEPARATOR])))[i]
           == (RealFollow(objs, root, trails[i]).value, PathString([SEPARATOR], trails[i]))
    {
      assert NodeOf(objs, root, trails[i], nodes[i]);
    }
  }

  // ---------- the entities ----------

  ghost predicate RealEntityAt(objs: Objects, c: Id, n: string) {
    && n in NamesOf(objs, c) && IsReal(objs, NamesOf(objs, c)[n].target)
    && NamesOf(objs, c)[n].tag == EntityBinding
  }

  /** The names are those of the real entities in a context, each once. */
  ghost predicate NamesEntities(objs: Objects, c: Id, names: seq<string>) {
    NoRepeats(names) && forall n :: n in names <==> RealEntityAt(objs, c, n)
  }

  /** The start calls for entities: the context that binds it, the entity, and the path of the context. */
  function EntityStarts(events: seq<Visit>): seq<(Id, Id, string)> {
    if events == [] then []
    else (if events[0].StartEntity? then [(events[0].holder, events[0].entity, events[0].path)] else [])
         + EntityStarts(events[1..])
  }

  lemma {:induction false} EntityStartsOfConcat(a: seq<Visit>, b: seq<Visit>)
    ensures EntityStarts(a + b) == EntityStarts(a) + EntityStarts(b)
  {
    if a == [] {
      assert a + b == b;
    } else {
      assert (a + b)[1..] == a[1..] + b;
      EntityStartsOfConcat(a[1..], b);
    }
  }

  function EntityCalls(c: Id, entities: seq<Id>, path: string): seq<(Id, Id, string)> {
    seq(|entities|, i requires 0 <= i < |entities| => (c, entities[i], path))
  }

  lemma {:induction false} EntityStartsOfContext(c: Id, path: string, entities: seq<Id>)
    ensures EntityStarts(EntityEvents(c, path, entities)) == EntityCalls(c, entities, path)
  {
    if entities != [] {
      var front, e := entities[..|entities| - 1], entities[|entities| - 1];
      var pair := [StartEntity(c, e, path), EndEntity(c, e, path)];
      EntityStartsOfContext(c, path, front);
      EntityStartsOfConcat(EntityEvents(c, path, front), pair);
      assert pair[1..] == [EndEntity(c, e, path)];
      assert EntityStarts(pair[1..]) == [] + EntityStarts([]);
      assert EntityCalls(c, entities, path) == EntityCalls(c, front, path) + [(c, e, path)];
    }
  }

  function CallsOfNodes(nodes: seq<Node>): seq<(Id, Id, string)> {
    if nodes == [] then []
    else EntityCalls(nodes[0].context, nodes[0].entities, nodes[0].path) + CallsOfNodes(nodes[1..])
  }

  lemma {:induction false} CallsOfConcat(a: seq<Node>, b: seq<Node>)
    ensures CallsOfNodes(a + b) == CallsOfNodes(a) + CallsOfNodes(b)
  {
    if a == [] {
      assert a + b == b;
    } else {
      assert (a + b)[1..] == a[1..] + b;
      CallsOfConcat(a[1..], b);
    }
  }

  lemma {:induction false} EntityStartsOfEvents(t: Node)
    ensures EntityStarts(Events(t)) == CallsOfNodes(Nodes(t))
  {
    var start, entities, end := [StartContext(t.context, t.path)], EntityEvents(t.context, t.path, t.entities),
                                [EndContext(t.context, t.path)];
    EntityStartsOfForest(t.children);
    EntityStartsOfContext(t.context, t.path, t.entities);
    EntityStartsOfConcat(start, entities);
    EntityStartsOfConcat(start + entities, EventsAll(t.children));
    EntityStartsOfConcat(start + entities + EventsAll(t.children), end);
    assert Nodes(t)[1..] == ForestNodes(t.children);
  }

  lemma {:induction false} EntityStartsOfForest(f: Forest)
    ensures EntityStarts(EventsAll(f)) == CallsOfNodes(ForestNodes(f))
  {
    if f.Cons? {
      EntityStartsOfEvents(f.first);
      EntityStartsOfForest(f.rest);
      EntityStartsOfConcat(Events(f.first), EventsAll(f.rest));
      CallsOfConcat(Nodes(f.first), ForestNodes(f.rest));
    }
  }

  /** The entities of a context, in the order of its iteration: one for each binding. */
  lemma {:induction false} EntitiesAreBound(objs: Objects, c: Id, order: seq<string>) returns (names: seq<string>)
    requires NoRepeats(order)
    ensures NoRepeats(names) && forall n :: n in names <==> n in order && RealEntityAt(objs, c, n)
    ensures BoundUnder(objs, c, names, EntitiesIn(objs, c, order))
  {
    names := [];
    if order != [] {
      var front, n := order[..|order| - 1], order[|order| - 1];
      assert order == front + [n] && n !in front;
      names := EntitiesAreBound(objs, c, front);
      if RealEntityAt(objs, c, n) {
        names := names + [n];
      }
    }
  }

  ghost predicate BoundUnder(objs: Objects, c: Id, names: seq<string>, entities: seq<Id>) {
    && |entities| == |names|
    && forall i :: 0 <= i < |names| ==> names[i] in NamesOf(objs, c) && entities[i] == NamesOf(objs, c)[names[i]].target
  }

  /** Every node of the unfolding lists the entities of its own context. */
  lemma {:induction false} NodesListTheirOwn(objs: Objects, orders: Orders, rank: map<Id, nat>,
                                             name: string, c: Id, path: string, p: seq<string>)
    requires Ranked(objs, rank) && c in rank && OrdersOk(objs, orders) && c in objs
    requires At(Unfold(objs, orders, rank, name, c, path), p).Some?
    ensures var u := At(Unfold(objs, orders, rank, name, c, path), p).value;
            u.entities == EntitiesIn(objs, u.context, OrderOf(orders, u.context)) && u.context in objs
    decreases |p|
  {
    if p != [] {
      NamedChild(objs, orders, rank, c, path, ContextNames(objs, c, orders[c]), p[0]);
      assert p[0] in ContextNames(objs, c, orders[c]) <==> RealContextAt(objs, c, p[0]);
      NodesListTheirOwn(objs, orders, rank, p[0], NamesOf(objs, c)[p[0]].target, ChildPath(path, p[0]), p[1..]);
    }
  }

  ghost predicate EntitiesOf(objs: Objects, u: Node, names: seq<string>) {
    NamesEntities(objs, u.context, names) && BoundUnder(objs, u.context, names, u.entities)
  }

  lemma EntitiesAt(objs: Objects, orders: Orders, rank: map<Id, nat>, root: Id, i: nat) returns (names: seq<string>)
    requires OrdersOk(objs, orders) && root in objs && Ranked(objs, rank) && root in rank
    requires i < |Nodes(Unfold(objs, orders, rank, "", root, [SEPARATOR]))|
    ensures EntitiesOf(objs, Nodes(Unfold(objs, orders, rank, "", root, [SEPARATOR]))[i], names)
  {
    var t := Unfold(objs, orders, rank, "", root, [SEPARATOR]);
    UnfoldDistinct(objs, orders, rank, "", root, [SEPARATOR]);
    NodesAreAtTrails(t, [], i);
    var p := Trails(t, [])[i];
    assert p[0..] == p;
    NodesListTheirOwn(objs, orders, rank, "", root, [SEPARATOR], p);
    var c := Nodes(t)[i].context;
    names := EntitiesAreBound(objs, c, orders[c]);
  }

  lemma EntitiesOfAll(objs: Objects, orders: Orders, rank: map<Id, nat>, root: Id, nodes: seq<Node>)
    returns (names: seq<seq<string>>)
    requires OrdersOk(objs, orders) && root in objs && Ranked(objs, rank) && root in rank
    requires nodes == Nodes(Unfold(objs, orders, rank, "", root, [SEPARATOR]))
    ensures |names| == |nodes| && forall i :: 0 <= i < |names| ==> EntitiesOf(objs, nodes[i], names[i])
  {
    names := [];
    while |names| < |nodes|
      invariant |names| <= |nodes| && forall i :: 0 <= i < |names| ==> EntitiesOf(objs, nodes[i], names[i])
    {
      var more := EntitiesAt(objs, orders, rank, root, |names|);
      names := names + [more];
    }
  }

  /**
   The walk visits every real entity once for every binding of it in a context and every path of real bindings to that
   context: context by context in the order of `trails`, and in each as `names` lists its entities.
   */
  lemma EntitiesOncePerBinding(objs: Objects, orders: Orders, root: Id)
    returns (trails: seq<seq<string>>, nodes: seq<Node>, names: seq<seq<string>>)
    requires OrdersOk(objs, orders) && root in objs && NoCycle(objs, root)
    ensures NoRepeats(trails) && forall p :: p in trails <==> RealFollow(objs, root, p).Some?
    ensures var rank := ReachRank(objs, root);
            && Ranked(objs, rank) && root in rank
            && EntityStarts(Events(Unfold(objs, orders, rank, "", root, [SEPARATOR]))) == CallsOfNodes(nodes)
    ensures |nodes| == |trails| == |names|
    ensures forall i :: 0 <= i < |trails| ==>
              NodeOf(objs, root, trails[i], nodes[i]) && EntitiesOf(objs, nodes[i], names[i])
  {
    NoCycleIsRanked(objs, root);
    var rank := ReachRank(objs, root);
    trails, nodes := NodesOfWalk(objs, orders, rank, root);
    EntityStartsOfEvents(Unfold(objs, orders, rank, "", root, [SEPARATOR]));
    names := EntitiesOfAll(objs, orders, rank, root, nodes);
  }
}
