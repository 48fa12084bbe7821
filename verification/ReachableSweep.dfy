/**
 Sweeps of domains that clients reach: what a sweep leaves is a state like any other, and each condition that a
 sweep asks for is one that clients can violate.
 */
module ReachableSweep {
  import opened Wrappers
  import opened Paths
  import opened NameGraph
  import opened Resolution
  import opened NamingLaws
  import opened FullNames
  import opened Operations
  import opened TreeTraverse
  import opened Timestamps
  import opened Expiry
  import opened Sweep
  import opened SweepEnds
  import opened SweepSafety
  import opened CleaningThread
  import opened ReachableNames

  // ---------- after a sweep ----------

  /** The deletions of a sweep are calls like any other: what they leave is reachable, and so the laws of names hold. */
  lemma {:induction false} SweptIsReachable(st: State, timeout: string, removed: seq<Id>)
    requires Reachable(st) && !Trouble(Graph(st.objs, timeout, st.root), removed)
    ensures Reachable(RemoveAll(st, removed))
    decreases |removed|
  {
    if removed != [] {
      var front, x := removed[..|removed| - 1], removed[|removed| - 1];
      assert removed == front + [x];
      FrontIsSafe(Graph(st.objs, timeout, st.root), front, x);
      SweptIsReachable(st, timeout, front);
      ReachableFacts(st);
      NextIsDeletable(st, timeout, removed, |front|);
      RemoveAllErases(st, front);
      ReachableStep(RemoveAll(st, front), Delete(x));
    }
  }

  lemma FrontIsSafe(g: Graph, front: seq<Id>, x: Id)
    requires !Trouble(g, front + [x])
    ensures !Trouble(g, front) && !TroubleAt(g, front + [x], |front|)
  {
    forall j | 0 <= j < |front|
      ensures !TroubleAt(g, front, j)
    {
      EarlierTrouble(g, front, [x], j);
    }
  }

  /** After any sweep of a reachable domain, names resolve by their components, and full names as before. */
  lemma NamesAfterSweep(st: State, timeout: string, after: State, removed: seq<Id>, x: Id)
    requires Reachable(st) && Cleaned(st, timeout, after, removed)
    requires IsReal(after.objs, x) && Standing(after.objs, x) && WellNamed(after.objs, x)
    ensures Reachable(after) && Resolve(after, FullName(after.objs, x), None).1 == Some(x)
  {
    SweptIsReachable(st, timeout, removed);
    FullNameResolves(after, x);
  }

  // ---------- making domains ----------

  const BEAT := "5"

  /** The objects with data stored in an entity. */
  function Stored(objs: Objects, e: Id): Objects
    requires e in objs
  {
    objs[e := objs[e].(charData := Some(BEAT))]
  }

  /** A context with a heartbeat, created in the context `c`. */
  lemma WithHeartbeat(st: State, name: string, c: Id, x: Id, e: Id) returns (st': State)
    requires Reachable(st) && IsContext(st.objs, c) && name !in NamesOf(st.objs, c) && CleanName(name)
    requires x == st.next && e == x + 1 && ChainAlive(st.objs, c)
    ensures Reachable(st') && st'.next == x + 2 && st'.root == st.root
    ensures x !in st.objs && e !in st.objs && c < x
    ensures st'.objs
         == st.objs[c := st.objs[c].(names := st.objs[c].names[name := Binding(ContextBinding, x)])]
                   [x := Obj(ContextKind, name, Some(c), [c, c],
                             map["gs_heartbeat" := Binding(EntityBinding, e)], false, true, None)]
                   [e := Obj(EntityKind, "gs_heartbeat", Some(x), [x, x], map[], false, true, Some(BEAT))]
  {
    HeartbeatNameIsClean();
    var st1 := NewIn(st, ContextKind, name, c, x);
    var st2 := NewIn(st1, EntityKind, "gs_heartbeat", x, e);
    st' := Beating(st2, e);
  }

  lemma Beating(st: State, e: Id) returns (st': State)
    requires Reachable(st) && e in st.objs
    ensures Reachable(st') && st'.next == st.next && st'.root == st.root
    ensures st'.objs == Stored(st.objs, e)
  {
    ReachableStep(st, SetData(e, BEAT));
    st' := SetCharData(st, e, BEAT);
  }

  lemma HeartbeatNameIsClean()
    ensures CleanName("gs_heartbeat")
  {
  }

  lemma LinkedToRoot(st: State, x: Id, name: string) returns (st': State)
    requires Reachable(st) && IsContext(st.objs, x) && st.root != x
    requires st.root in st.objs && "y" !in NamesOf(st.objs, st.root)
    requires name == "//y"
    ensures Reachable(st') && st'.next == st.next && st'.root == st.root
    ensures var root := st.objs[st.root];
            st'.objs == st.objs[st.root := root.(names := root.names["y" := Binding(ContextBinding, x)])]
                               [x := st.objs[x].(referrers := st.objs[x].referrers + [st.root])]
  {
    st' := BoundInRoot(st, x, name);
  }

  /** `bind_context` under a name in the root. */
  lemma BoundInRoot(st: State, x: Id, name: string) returns (st': State)
    requires Reachable(st) && IsContext(st.objs, x) && "y" !in NamesOf(st.objs, st.root) && name == "//y"
    ensures Reachable(st') && st' == Bind(st, st.root, "y", Binding(ContextBinding, x), "y")
  {
    ReachableFacts(st);
    SplitPosUnique(name, 1);
    assert name[..1] == [SEPARATOR] && name[2..] == "y";
    ReachableStep(st, LinkContext(x, name));
    st' := BindContext(st, x, name).0;
  }

  // ---------- a freed referrer ----------

  /**
   "a" with a heartbeat, "x" created in it with a heartbeat of its own, then bound in the root as "y" and
   unbound from "a". Nothing is linked twice, and at the time 9 both have expired: "y" still has "a" on its
   referrer list, and a sweep that comes to "a" first has freed it when "y" is removed.
   */
  lemma MovedOutOfAnExpiredContext() returns (st: State, rounds: seq<Round>)
    ensures var g := Graph(st.objs, "9", st.root);
      && Reachable(st) && NoLiveCycle(g) && HasData(g) && !Doomed(g, st.root) && BoundOnce(g)
      && !FollowedStay(g) && IsSweep(g, rounds) && Trouble(g, Removed(g, rounds))
  {
    st := MovedState();
    ReachableFacts(st);
    var g := Graph(st.objs, "9", st.root);
    OnlyTheRootBinds(g);
    BothExpire(st);
    rounds := UnsafeSweep(g);
  }

  /** Two contexts with heartbeats, the second in the first. */
  lemma TwoBeating() returns (st: State)
    ensures Reachable(st) && st.root == 0 && st.objs.Keys == {0, 1, 2, 3, 4}
    ensures forall x :: x in st.objs ==> !st.objs[x].placeholder
    ensures st.objs[0].names == map["a" := Binding(ContextBinding, 1)] && st.objs[3].referrers == [1, 1]
    ensures st.objs[1].names
        == map["gs_heartbeat" := Binding(EntityBinding, 2), "x" := Binding(ContextBinding, 3)]
    ensures st.objs[3].names == map["gs_heartbeat" := Binding(EntityBinding, 4)]
    ensures st.objs[2].names == map[] && st.objs[4].names == map[]
    ensures st.objs[2].charData == Some(BEAT) && st.objs[4].charData == Some(BEAT)
    ensures IsContext(st.objs, 1) && IsContext(st.objs, 3)
  {
    NewDomainIsReachable();
    var st1 := WithHeartbeat(NewDomain(0), "a", 0, 1, 2);
    st := WithHeartbeat(st1, "x", 1, 3, 4);
  }

  lemma MovedState() returns (st: State)
    ensures Reachable(st) && Final(st)
  {
    var st2 := TwoBeating();
    var st3 := LinkedToRoot(st2, 3, "//y");
    st := TakenOut(st3, 1, "x");
    assert RemoveFirst([1, 1, 0], 1) == [1, 0];
    assert st3.objs[3].referrers == [1, 1, 0];
  }

  /** The state that the calls come to. */
  ghost predicate Final(st: State) {
    && st.root == 0 && st.objs.Keys == {0, 1, 2, 3, 4}
    && st.objs[0].names == map["a" := Binding(ContextBinding, 1), "y" := Binding(ContextBinding, 3)]
    && st.objs[1].names == map["gs_heartbeat" := Binding(EntityBinding, 2)]
    && st.objs[2].names == map[] && st.objs[4].names == map[]
    && st.objs[3].names == map["gs_heartbeat" := Binding(EntityBinding, 4)]
    && st.objs[3].referrers == [1, 0]
    && st.objs[2].charData == Some(BEAT) && st.objs[4].charData == Some(BEAT)
    && (forall x :: x in st.objs ==> !st.objs[x].placeholder)
  }

  // ---------- one that goes well ----------

  /**
   "a" in the root with an entity "gs_heartbeat" that holds "5": a sweep at the timeout "9" ends without "a" and leaves
   the root and the entity; one at the timeout "4" leaves everything as it was.
   */
  lemma OldBeatIsSwept() returns (st: State)
    ensures Reachable(st) && st.objs.Keys == {0, 1, 2} && st.objs[0].names == map["a" := Binding(ContextBinding, 1)]
    ensures st.objs[1].names == map["gs_heartbeat" := Binding(EntityBinding, 2)] && st.objs[2].charData == Some("5")
    ensures Cleanable(Graph(st.objs, "9", 0)) && Cleanable(Graph(st.objs, "4", 0))
    ensures forall after, removed :: Cleaned(st, "9", after, removed) ==>
              removed == [1] && after.objs.Keys == {0, 2} && after.objs[0].names == map[]
    ensures forall after, removed :: Cleaned(st, "4", after, removed) ==> removed == [] && after == st
  {
    NewDomainIsReachable();
    st := WithHeartbeat(NewDomain(0), "a", 0, 1, 2);
    ReachableFacts(st);
    OneChild(Graph(st.objs, "9", 0));
    OneChild(Graph(st.objs, "4", 0));
    HomeIsSweepable(Graph(st.objs, "9", 0));
    HomeIsSweepable(Graph(st.objs, "4", 0));
    forall after, removed | Cleaned(st, "9", after, removed)
      ensures removed == [1] && after.objs.Keys == {0, 2} && after.objs[0].names == map[]
    {
      OneIsGone(st, after, removed);
    }
    forall after, removed | Cleaned(st, "4", after, removed)
      ensures removed == [] && after == st
    {
      NoneIsGone(st, after, removed);
    }
  }

  lemma OneIsGone(st: State, after: State, removed: seq<Id>)
    requires Single(Graph(st.objs, "9", 0)) && st.root == 0 && Cleaned(st, "9", after, removed)
    ensures removed == [1] && after.objs.Keys == {0, 2} && after.objs[0].names == map[]
  {
    OneChild(Graph(st.objs, "9", 0));
    OneRemoved(Graph(st.objs, "9", 0), removed);
  }

  lemma NoneIsGone(st: State, after: State, removed: seq<Id>)
    requires Single(Graph(st.objs, "4", 0)) && st.root == 0 && Cleaned(st, "4", after, removed)
    ensures removed == [] && after == st
  {
    OneChild(Graph(st.objs, "4", 0));
    FirstIsIn(removed);
  }

  lemma FirstIsIn(s: seq<Id>)
    ensures s != [] ==> s[0] in SetOf(s)
  {
  }

  ghost predicate Single(g: Graph) {
    && g.root == 0 && g.objs.Keys == {0, 1, 2} && (forall x :: x in g.objs ==> !g.objs[x].placeholder)
    && g.objs[0].names == map["a" := Binding(ContextBinding, 1)] && g.objs[0].parent.None?
    && g.objs[1].names == map["gs_heartbeat" := Binding(EntityBinding, 2)] && g.objs[2].names == map[]
    && g.objs[1].parent == Some(0) && g.objs[1].name == "a" && g.objs[1].referrers == [0, 0]
    && g.objs[2].charData == Some("5")
  }

  lemma OneChild(g: Graph)
    requires Single(g) && (g.timeout == "9" || g.timeout == "4")
    ensures AtHome(g.objs, 0) && HasData(g) && 0 !in AllDoomed(g)
    ensures AllDoomed(g) == if g.timeout == "9" then {1} else {}
  {
    assert StrNCmp("9", "5", 1) >= 0 && StrNCmp("4", "5", 1) < 0;
    assert forall c, n :: RealContextAt(g.objs, c, n) <==> c == 0 && n == "a";
    assert LiveFollow(g, 0, []) == Some(0);
    if g.timeout == "9" {
      assert DoomedAt(g, [], "a", 1);
    }
  }

  lemma OneRemoved(g: Graph, removed: seq<Id>)
    requires SetOf(removed) == {1} && !Trouble(g, removed)
    ensures removed == [1]
  {
    assert removed != [] by {
      assert 1 in SetOf(removed);
    }
    assert removed[0] in SetOf(removed);
    if |removed| > 1 {
      assert removed[1] in SetOf(removed) && removed[0] in removed[..1];
      assert TroubleAt(g, removed, 1);
    }
  }

  /** Only the root binds real contexts, and they have all expired. */
  ghost predicate BindsOnlyInRoot(g: Graph) {
    && g.root in g.objs
    && forall c, n {:trigger RealContextAt(g.objs, c, n)} :: RealContextAt(g.objs, c, n) ==>
         c == g.root && DyingAt(g, c, n) && TargetOf(g.objs, c, n) != g.root
  }

  lemma OnlyRootIsLive(g: Graph)
    requires BindsOnlyInRoot(g)
    ensures forall p :: LiveFollow(g, g.root, p).Some? ==> p == []
    ensures NoLiveCycle(g) && !Doomed(g, g.root)
  {
    forall p | p != []
      ensures LiveFollow(g, g.root, p).None?
    {
      assert !LiveAt(g, g.root, p[0]);
    }
    CycleCircles(g);
  }

  lemma OnlyTheRootBinds(g: Graph)
    requires Final(State(g.objs, g.root, 0, [])) && g.timeout == "9"
    ensures NoLiveCycle(g) && HasData(g) && !Doomed(g, g.root) && BoundOnce(g)
  {
    assert StrNCmp("9", BEAT, |BEAT|) >= 0;
    forall c, n | RealContextAt(g.objs, c, n)
      ensures c == 0 && (n == "a" || n == "y")
    {
      assert c in {0, 1, 2, 3, 4};
    }
    OnlyRootIsLive(g);
  }

  lemma BothExpire(st: State)
    requires Final(st)
    ensures !FollowedStay(Graph(st.objs, "9", st.root))
  {
    var g := Graph(st.objs, "9", st.root);
    assert StrNCmp("9", BEAT, |BEAT|) >= 0;
    assert LiveFollow(g, 0, []) == Some(0);
    assert DyingAt(g, 0, "a") && DyingAt(g, 0, "y");
    assert DoomedAt(g, [], "a", 1) && DoomedAt(g, [], "y", 3);
    assert DoomedBelow(g, 1, 0) && !MetAbove(g, 3, 0);
    assert 1 in g.objs[3].referrers && !Stays(g, 3, 1);
  }

  // ---------- a freed ancestor ----------

  /**
   "b" in "a" and "c" in "b", where "a" and "c" have a heartbeat, and "b" bound in the root as "y" as well. At the time
   9 a sweep removes "a" and then comes to "c" through "y". All referrers stay, but the full name of "c", read for
   its deletion event, leads through "a".
   */
  lemma BelowAnExpiredContext() returns (st: State, rounds: seq<Round>)
    ensures var g := Graph(st.objs, "9", st.root);
      && Reachable(st) && NoLiveCycle(g) && HasData(g) && !Doomed(g, st.root) && BoundOnce(g)
      && (forall x, r :: Doomed(g, x) && x in st.objs && r in st.objs[x].referrers ==> Stays(g, x, r))
      && !FollowedStay(g) && IsSweep(g, rounds) && Trouble(g, Removed(g, rounds))
  {
    st := ThreeDeep();
    ReachableFacts(st);
    var g := Graph(st.objs, "9", st.root);
    OuterExpires(g);
    rounds := UnsafeSweep(g);
  }

  /** "a" with its heartbeat, and "b" in it. */
  ghost predicate Shallow(objs: Objects) {
    && objs.Keys == {0, 1, 2, 3} && (forall x :: x in objs ==> !objs[x].placeholder)
    && objs[0].names == map["a" := Binding(ContextBinding, 1)]
    && objs[1].names == map["gs_heartbeat" := Binding(EntityBinding, 2), "b" := Binding(ContextBinding, 3)]
    && objs[2].names == map[] && objs[3].names == map[] && objs[2].charData == Some(BEAT)
    && objs[1].referrers == [0, 0] && objs[3].kind == ContextKind
    && objs[0].parent == None && objs[1].parent == Some(0) && objs[3].parent == Some(1)
  }

  /** The same with "c" and its heartbeat in "b", and "b" bound in the root. */
  ghost predicate Nested(objs: Objects) {
    && objs.Keys == {0, 1, 2, 3, 4, 5} && (forall x :: x in objs ==> !objs[x].placeholder)
    && objs[0].names == map["a" := Binding(ContextBinding, 1), "y" := Binding(ContextBinding, 3)]
    && objs[1].names == map["gs_heartbeat" := Binding(EntityBinding, 2), "b" := Binding(ContextBinding, 3)]
    && objs[3].names == map["c" := Binding(ContextBinding, 4)]
    && objs[4].names == map["gs_heartbeat" := Binding(EntityBinding, 5)]
    && objs[2].names == map[] && objs[5].names == map[]
    && objs[2].charData == Some(BEAT) && objs[5].charData == Some(BEAT)
    && objs[1].referrers == [0, 0] && objs[4].referrers == [3, 3]
    && objs[3].parent == Some(1) && objs[4].parent == Some(3)
  }

  lemma ThreeDeep() returns (st: State)
    ensures Reachable(st) && st.root == 0 && Nested(st.objs)
  {
    var st2 := OneDeep();
    assert HasParent(st2.objs, 3) && HasParent(st2.objs, 1) && ChainAlive(st2.objs, 0) && ChainAlive(st2.objs, 1);
    var st3 := WithHeartbeat(st2, "c", 3, 4, 5);
    st := LinkedToRoot(st3, 3, "//y");
    NestedIs(st2.objs, st3.objs, st.objs);
  }

  lemma OneDeep() returns (st: State)
    ensures Reachable(st) && st.root == 0 && st.next == 4 && Shallow(st.objs)
  {
    NewDomainIsReachable();
    var st1 := WithHeartbeat(NewDomain(0), "a", 0, 1, 2);
    assert HasParent(st1.objs, 1) && ChainAlive(st1.objs, 0);
    st := NewIn(st1, ContextKind, "b", 1, 3);
  }

  lemma NestedIs(before: Objects, inner: Objects, after: Objects)
    requires Shallow(before)
    requires inner == before[3 := before[3].(names := map["c" := Binding(ContextBinding, 4)])]
                            [4 := Obj(ContextKind, "c", Some(3), [3, 3],
                                      map["gs_heartbeat" := Binding(EntityBinding, 5)], false, true, None)]
                            [5 := Obj(EntityKind, "gs_heartbeat", Some(4), [4, 4],
                                      map[], false, true, Some(BEAT))]
    requires after == inner[0 := inner[0].(names := inner[0].names["y" := Binding(ContextBinding, 3)])]
                           [3 := inner[3].(referrers := inner[3].referrers + [0])]
    ensures Nested(after)
  {
  }

  /** What the paths of the state lead to. */
  lemma NestedPaths(g: Graph, p: seq<string>)
    requires g.root == 0 && Nested(g.objs) && g.timeout == "9" && LiveFollow(g, 0, p).Some?
    ensures p == [] || p == ["y"]
    ensures LiveFollow(g, 0, []) == Some(0) && LiveFollow(g, 0, ["y"]) == Some(3)
  {
    assert StrNCmp("9", BEAT, |BEAT|) >= 0;
    assert ["y"][1..] == [] && LiveAt(g, 0, "y") && TargetOf(g.objs, 0, "y") == 3;
    assert forall n :: LiveAt(g, 0, n) ==> n == "y";
    assert forall n :: !LiveAt(g, 3, n);
    if p != [] {
      assert p[1..] == [];
      assert p == [p[0]];
    }
  }

  /** "a" is doomed on the first level, "c" on the next, and nothing else is. */
  lemma NestedDoom(g: Graph, p: seq<string>, n: string, x: Id)
    requires g.root == 0 && Nested(g.objs) && g.timeout == "9"
    ensures DoomedAt(g, p, n, x) <==> (p == [] && n == "a" && x == 1) || (p == ["y"] && n == "c" && x == 4)
  {
    assert StrNCmp("9", BEAT, |BEAT|) >= 0;
    assert LiveFollow(g, 0, []) == Some(0);
    NestedPaths(g, []);
    if LiveFollow(g, 0, p).Some? {
      NestedPaths(g, p);
    }
  }

  lemma OuterExpires(g: Graph)
    requires g.root == 0 && Nested(g.objs) && g.timeout == "9"
    ensures NoLiveCycle(g) && HasData(g) && !Doomed(g, g.root) && BoundOnce(g) && !FollowedStay(g)
    ensures forall x, r :: Doomed(g, x) && x in g.objs && r in g.objs[x].referrers ==> Stays(g, x, r)
  {
    forall p, n, x
      ensures DoomedAt(g, p, n, x) <==> (p == [] && n == "a" && x == 1) || (p == ["y"] && n == "c" && x == 4)
    {
      NestedDoom(g, p, n, x);
    }
    NestedEnds(g);
    assert DoomedAt(g, [], "a", 1) && DoomedAt(g, ["y"], "c", 4) && DoomedBelow(g, 1, 0);
    assert !MetAbove(g, 4, 0);
    assert Above(g.objs, 4) == [3] + Above(g.objs, 3) && Above(g.objs, 3) == [1] + Above(g.objs, 1);
    assert 1 in Above(g.objs, 3) && 1 in Above(g.objs, 4) && 1 in Followed(g.objs, 4);
    assert !Stays(g, 4, 1);
  }

  lemma NestedEnds(g: Graph)
    requires g.root == 0 && Nested(g.objs) && g.timeout == "9"
    ensures NoLiveCycle(g) && HasData(g)
  {
    CycleCircles(g);
    forall p, q | CirclesAlong(g, 0, p, q)
      ensures false
    {
      LiveOn(g, 0, p, q);
      NestedPaths(g, p);
      NestedPaths(g, p + q);
    }
    forall p, n | LiveFollow(g, 0, p).Some?
      ensures !DatalessAt(g, LiveFollow(g, 0, p).value, n)
    {
      NestedPaths(g, p);
    }
  }

  // ---------- a removal twice ----------

  /** A context with a heartbeat, bound in the root under two names: when it has expired a sweep deletes it twice. */
  lemma LinkedTwice() returns (st: State, rounds: seq<Round>)
    ensures var g := Graph(st.objs, "9", st.root);
      && Reachable(st) && NoLiveCycle(g) && HasData(g) && !BoundOnce(g)
      && IsSweep(g, rounds) && Trouble(g, Removed(g, rounds))
  {
    st := TwiceBound();
    var g := Graph(st.objs, "9", st.root);
    assert StrNCmp("9", BEAT, |BEAT|) >= 0;
    forall c, n | RealContextAt(g.objs, c, n)
      ensures c == 0 && (n == "a" || n == "y")
    {
      assert c in {0, 1, 2};
    }
    assert LiveFollow(g, 0, []) == Some(0) && DyingAt(g, 0, "a") && DyingAt(g, 0, "y");
    OnlyRootIsLive(g);
    assert DoomedAt(g, [], "a", 1) && DoomedAt(g, [], "y", 1) && !MetAbove(g, 1, 0);
    rounds := RemovedTwice(g, [], "a", "y", 1);
  }

  lemma TwiceBound() returns (st: State)
    ensures Reachable(st) && st.root == 0 && st.objs.Keys == {0, 1, 2}
    ensures forall x :: x in st.objs ==> !st.objs[x].placeholder
    ensures st.objs[0].names == map["a" := Binding(ContextBinding, 1), "y" := Binding(ContextBinding, 1)]
    ensures st.objs[1].names == map["gs_heartbeat" := Binding(EntityBinding, 2)] && st.objs[2].names == map[]
    ensures st.objs[2].charData == Some(BEAT)
  {
    NewDomainIsReachable();
    var st1 := WithHeartbeat(NewDomain(0), "a", 0, 1, 2);
    st := LinkedToRoot(st1, 1, "//y");
  }

  // ---------- a heartbeat without data ----------

  /** A context with a heartbeat entity to which no data has been given: a sweep at any time follows a null pointer. */
  lemma HeartbeatWithoutData(timeout: string) returns (st: State, rounds: seq<Round>)
    ensures var g := Graph(st.objs, timeout, st.root);
      Reachable(st) && !HasData(g) && IsSweep(g, rounds) && FollowsNull(g, rounds)
  {
    NewDomainIsReachable();
    HeartbeatNameIsClean();
    var st1 := NewIn(NewDomain(0), ContextKind, "a", 0, 1);
    st := NewIn(st1, EntityKind, "gs_heartbeat", 1, 2);
    var g := Graph(st.objs, timeout, st.root);
    assert LiveFollow(g, g.root, []) == Some(0) && DatalessAt(g, 0, "a");
    rounds := NullFollowed(g, [], "a");
  }

  // ---------- a cycle ----------

  /** The root bound in itself: no sweep, at any time, comes to an end. */
  lemma RootInItself(timeout: string) returns (st: State)
    ensures var g := Graph(st.objs, timeout, st.root);
      Reachable(st) && forall rounds :: IsSweep(g, rounds) ==> QueueAfter(g, rounds) != []
  {
    NewDomainIsReachable();
    NewDomainIsWF(0);
    st := BoundInRoot(NewDomain(0), 0, "//y");
    var g := Graph(st.objs, timeout, st.root);
    assert LiveAt(g, 0, "y") && TargetOf(g.objs, 0, "y") == 0;
    assert ["y"][1..] == [] && LiveFollow(g, 0, ["y"]) == Some(0) && LiveFollow(g, 0, []) == Some(0);
    assert CirclesAlong(g, 0, [], ["y"]);
    CycleCircles(g);
    EndsIffNoLiveCycle(g);
  }
}
