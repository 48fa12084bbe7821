/**
 The laws of names over the states that clients reach: every counterexample is a run of operations on a new
 domain.
 */
module ReachableNames {
  import opened Wrappers
  import opened Paths
  import opened Spelling
  import opened NameGraph
  import opened Resolution
  import opened NamingLaws
  import opened FullNames
  import opened Operations
  import opened Announcing

  /** Some run of operations on a new domain comes to this state. */
  ghost predicate Reachable(st: State) {
    exists ops :: Runnable(NewDomain(0), ops) && Run(NewDomain(0), ops) == st
  }

  lemma {:induction false} RunOfConcat(st: State, a: seq<Op>, b: seq<Op>)
    requires Runnable(st, a) && Runnable(Run(st, a), b)
    ensures Runnable(st, a + b) && Run(st, a + b) == Run(Run(st, a), b)
    decreases |a|
  {
    if a == [] {
      assert a + b == b;
    } else {
      assert (a + b)[1..] == a[1..] + b;
      RunOfConcat(Apply(st, a[0]), a[1..], b);
    }
  }

  lemma ReachableStep(st: State, op: Op)
    requires Reachable(st) && Enabled(st, op)
    ensures Reachable(Apply(st, op))
  {
    var ops :| Runnable(NewDomain(0), ops) && Run(NewDomain(0), ops) == st;
    assert [op][1..] == [] && Runnable(Apply(st, op), []) && Run(Apply(st, op), []) == Apply(st, op);
    assert Runnable(st, [op]) && Run(st, [op]) == Apply(st, op);
    RunOfConcat(NewDomain(0), ops, [op]);
  }

  lemma NewDomainIsReachable()
    ensures Reachable(NewDomain(0))
  {
    assert Runnable(NewDomain(0), []) && Run(NewDomain(0), []) == NewDomain(0);
  }

  lemma ReachableFacts(st: State)
    requires Reachable(st)
    ensures WF(st)
  {
    var ops :| Runnable(NewDomain(0), ops) && Run(NewDomain(0), ops) == st;
    ReachableIsWF(0, ops);
  }

  /** A creation that returns an object leads from one reachable state to another. */
  lemma CreationIsReachable(st: State, name: string, kind: Kind, initial: Option<Id>, placeholder: bool)
    requires Reachable(st) && InitialOk(st, initial)
    requires ResolveOrCreate(st, name, kind, initial, placeholder).1.Some?
    requires Announceable(st, name, kind, initial, placeholder)
    ensures Reachable(ResolveOrCreate(st, name, kind, initial, placeholder).0)
  {
    ReachableFacts(st);
    CreatableIffCreated(st, name, kind, initial, placeholder);
    ReachableStep(st, CreateName(name, kind, initial, placeholder));
  }

  // ---------- spelling ----------

  /** Two names resolve alike in every reachable state exactly if they have the same components. */
  lemma SameInReachableIffSameComponents(a: string, b: string)
    ensures Components(a) == Components(b) <==>
              forall st, initial :: Reachable(st) && InitialOk(st, initial)
                  ==> Resolve(st, a, initial) == Resolve(st, b, initial)
  {
    if Components(a) == Components(b) {
      forall st, initial | Reachable(st) && InitialOk(st, initial)
        ensures Resolve(st, a, initial) == Resolve(st, b, initial)
      {
        ResolveByComponents(st, a, initial);
        ResolveByComponents(st, b, initial);
      }
    } else {
      var st := SpellingCounterexample(a, b);
      NewDomainIsReachable();
      NewDomainIsWF(0);
      AllAliveIsAnnounceable(NewDomain(0), a, ContextKind, Some(0), false);
      CreationIsReachable(NewDomain(0), a, ContextKind, Some(0), false);
    }
  }

  /** Head, then tail: both creations of the witness are calls that a client may make. */
  lemma WitnessIsReachable(head: string, tail: string)
    ensures Reachable(Witness(head, tail))
  {
    NewDomainIsReachable();
    NewDomainIsWF(0);
    CreationSucceeds(NewDomain(0), head, 0);
    AllAliveIsAnnounceable(NewDomain(0), head, ContextKind, Some(0), false);
    CreationKeepsAllAlive(NewDomain(0), head, ContextKind, Some(0), false);
    CreationIsReachable(NewDomain(0), head, ContextKind, Some(0), false);
    CreatedIsEmpty(NewDomain(0), head, 0);
    var (mid, c) := ResolveOrCreate(NewDomain(0), head, ContextKind, Some(0), false);
    ReachableFacts(mid);
    CreationSucceeds(mid, tail, c.value);
    AllAliveIsAnnounceable(mid, tail, ContextKind, c, false);
    CreationIsReachable(mid, tail, ContextKind, c, false);
  }

  /**
   The promise of relative naming, exactly: for a head and a tail it holds in every reachable state, from every
   initial context, if and only if the two strings join up.
   */
  lemma RelativeNamingIffJoinsUp(head: string, tail: string)
    ensures JoinsUp(head, tail) <==>
              forall st, initial :: Reachable(st) && InitialOk(st, initial) ==> AgreesAt(st, initial, head, tail)
  {
    JoinsUpIffComponentsJoin(head, tail);
    RelativeAgreesIffComponentsJoin(head, tail);
    if JoinsUp(head, tail) {
      forall st, initial | Reachable(st) && InitialOk(st, initial)
        ensures AgreesAt(st, initial, head, tail)
      {
        ReachableFacts(st);
      }
    } else {
      var st := RelativeCounterexample(head, tail);
      WitnessIsReachable(head, tail);
    }
  }

  // ---------- single steps ----------

  /** What creating a name of one component comes to, where the name is free. */
  function Made(st: State, kind: Kind, last: string, c: Id, shown: string): State {
    MakeReal(Create(st, kind, last, c, shown), st.next)
  }

  lemma MadeHere(st: State, kind: Kind, name: string, last: string, c: Id)
    requires Reachable(st) && IsContext(st.objs, c) && last !in NamesOf(st.objs, c)
    requires SplitName(name) == Split(None, Some(last)) && name != [SEPARATOR]
    requires kind == ContextKind ==> ChainAlive(st.objs, c)
    ensures Reachable(Made(st, kind, last, c, name)) && st.next !in st.objs && c < st.next
    ensures ResolveOrCreate(st, name, kind, Some(c), false) == (Made(st, kind, last, c, name), Some(st.next))
  {
    ReachableFacts(st);
    CreateFacts(st, kind, last, c, name);
    assert Walk(st, Some(c), [], Flags(true, false)) == (st, Some(c));
    CreationIsReachable(st, name, kind, Some(c), false);
  }

  lemma MadeObject(st: State, kind: Kind, last: string, c: Id, shown: string)
    requires c in st.objs && st.next !in st.objs && c < st.next && last !in NamesOf(st.objs, c)
    ensures var st' := Made(st, kind, last, c, shown);
            && st'.next == st.next + 1 && st'.root == st.root
            && st'.objs == st.objs[c := st.objs[c].(names := st.objs[c].names[last := Binding(TagOf(kind), st.next)])]
                                  [st.next := Obj(kind, last, Some(c), [c, c], map[], false, true, None)]
  {
    CreateFacts(st, kind, last, c, shown);
  }

  /** The objects with a new one made in `c`. */
  function WithNew(objs: Objects, kind: Kind, name: string, c: Id, x: Id): Objects
    requires c in objs
  {
    objs[c := objs[c].(names := objs[c].names[name := Binding(TagOf(kind), x)])]
        [x := Obj(kind, name, Some(c), [c, c], map[], false, true, None)]
  }

  lemma NewIn(st: State, kind: Kind, name: string, c: Id, x: Id) returns (st': State)
    requires Reachable(st) && IsContext(st.objs, c) && name !in NamesOf(st.objs, c) && CleanName(name) && x == st.next
    requires kind == ContextKind ==> ChainAlive(st.objs, c)
    ensures Reachable(st') && st'.next == x + 1 && st'.root == st.root
    ensures x !in st.objs && x + 1 !in st.objs && c < x
    ensures st'.objs == WithNew(st.objs, kind, name, c, x)
  {
    ReachableFacts(st);
    SplitOfClean(name);
    MadeHere(st, kind, name, name, c);
    MadeObject(st, kind, name, c, name);
    st' := Made(st, kind, name, c, name);
  }

  lemma SplitOfClean(name: string)
    requires CleanName(name)
    ensures SplitName(name) == Split(None, Some(name)) && name != [SEPARATOR]
  {
    SplitPosUnique(name, 0);
    assert name[0] in name;
  }

  /** `remove_binding` of a name of one component. */
  lemma TakenOut(st: State, c: Id, name: string) returns (st': State)
    requires Reachable(st) && IsContext(st.objs, c) && name in NamesOf(st.objs, c) && CleanName(name)
    requires NamesOf(st.objs, c)[name].target in st.objs && NamesOf(st.objs, c)[name].target != c
    ensures Reachable(st') && st'.next == st.next && st'.root == st.root
    ensures var x := NamesOf(st.objs, c)[name].target;
            st'.objs == st.objs[x := st.objs[x].(referrers := RemoveFirst(st.objs[x].referrers, c))]
                               [c := st.objs[c].(names := st.objs[c].names - {name})]
  {
    SplitOfClean(name);
    assert Walk(st, Some(c), [], READ) == (st, Some(c));
    ReachableStep(st, UnbindName(name, Some(c)));
    st' := RemoveBinding(st, name, Some(c)).0;
  }

  // ---------- full names ----------

  /** An object "b" in a context that was created as "/a/" and kept the separator. */
  ghost predicate InTrailing(st: State, kind: Kind) {
    && st.root == 0 && st.objs.Keys == {0, 1, 2} && (forall x :: x in st.objs ==> !st.objs[x].placeholder)
    && st.objs[0].parent.None? && st.objs[1].parent == Some(0) && st.objs[2].parent == Some(1)
    && st.objs[1].name == ['a', SEPARATOR] && st.objs[2].name == "b"
    && st.objs[0].names == map[['a', SEPARATOR] := Binding(ContextBinding, 1)]
    && st.objs[1].names == map["b" := Binding(TagOf(kind), 2)] && st.objs[2].names == map[]
  }

  lemma TrailingIsReachable(kind: Kind) returns (st: State)
    ensures Reachable(st) && OwnNames(st.objs) && InTrailing(st, kind)
  {
    var st1 := TrailingParent();
    assert HasParent(st1.objs, 1) && ChainAlive(st1.objs, 0);
    st := TrailingChild(st1, kind);
  }

  lemma TrailingParent() returns (st: State)
    ensures Reachable(st) && OwnNames(st.objs) && st.root == 0 && st.next == 2
    ensures st.objs == WithNew(NewDomain(0).objs, ContextKind, ['a', SEPARATOR], 0, 1)
  {
    NewDomainIsReachable();
    NewDomainIsWF(0);
    var st0 := NewDomain(0);
    var name := [SEPARATOR, 'a', SEPARATOR];
    SplitPosUnique(name, 0);
    assert name[1..] == ['a', SEPARATOR];
    MadeHere(st0, ContextKind, name, ['a', SEPARATOR], 0);
    MadeObject(st0, ContextKind, ['a', SEPARATOR], 0, name);
    CreationKeepsOwnNames(st0, name, ContextKind, Some(0), false);
    st := Made(st0, ContextKind, ['a', SEPARATOR], 0, name);
  }

  lemma TrailingChild(st1: State, kind: Kind) returns (st: State)
    requires Reachable(st1) && OwnNames(st1.objs) && st1.next == 2 && st1.root == 0 && IsContext(st1.objs, 1)
    requires ChainAlive(st1.objs, 1)
    requires st1.objs.Keys == {0, 1} && st1.objs[1].names == map[]
    ensures Reachable(st) && OwnNames(st.objs) && st.root == 0
    ensures st.objs == st1.objs[1 := st1.objs[1].(names := map["b" := Binding(TagOf(kind), 2)])]
                              [2 := Obj(kind, "b", Some(1), [1, 1], map[], false, true, None)]
  {
    SplitPosUnique("b", 0);
    ReachableFacts(st1);
    MadeHere(st1, kind, "b", "b", 1);
    MadeObject(st1, kind, "b", 1, "b");
    CreationKeepsOwnNames(st1, "b", kind, Some(1), false);
    st := Made(st1, kind, "b", 1, "b");
  }

  /** A client reaches a real object whose full name does not resolve to it: an entity in such a context. */
  lemma IllNamedIsReachable() returns (st: State)
    ensures Reachable(st) && OwnNames(st.objs)
    ensures IsReal(st.objs, 2) && Standing(st.objs, 2) && !WellNamed(st.objs, 2)
    ensures Resolve(st, FullName(st.objs, 2), None).1 != Some(2)
  {
    st := TrailingIsReachable(EntityKind);
    ReachableFacts(st);
    assert HasParent(st.objs, 2) && HasParent(st.objs, 1) && !HasParent(st.objs, 0);
    assert Standing(st.objs, 0) && Standing(st.objs, 1);
    assert ['a', SEPARATOR][1] == SEPARATOR;
    FullNameResolvesIffWellNamed(st, 2);
  }

  // ---------- below a deleted context ----------

  /**
   "b" in "a", and then "a" deleted. A client that still holds "b" may ask for a context in it that no entity is in the
   way of, and the engine would follow the freed parent to name it in the creation event.
   */
  lemma OrphanIsReachable() returns (st: State)
    ensures Reachable(st) && IsContext(st.objs, 2) && IsReal(st.objs, 2) && !ChainAlive(st.objs, 2)
    ensures Creatable(st, "c", Some(2)) && !Announceable(st, "c", ContextKind, Some(2), false)
  {
    NewDomainIsReachable();
    var st1 := NewIn(NewDomain(0), ContextKind, "a", 0, 1);
    assert HasParent(st1.objs, 1) && ChainAlive(st1.objs, 0);
    var st2 := NewIn(st1, ContextKind, "b", 1, 2);
    assert HasParent(st2.objs, 1) && ChainAlive(st2.objs, 0);
    ReachableStep(st2, Delete(1));
    st := Remove(st2, 1);
    SplitOfClean("c");
    assert st.objs[2].parent == Some(1) && 1 !in st.objs && NamesOf(st.objs, 2) == map[];
  }
}
