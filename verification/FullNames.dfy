/**
 Full names, read off the parent chain. They exist in every reachable state for every object whose ancestors
 are alive, also when links make the name graph cyclic, and they lead back to the object as long as its
 creation bindings stand.
 */
module FullNames {
  import opened Wrappers
  import opened Paths
  import opened NameGraph
  import opened Resolution
  import opened NamingLaws

  function NameChain(objs: Objects, x: Id): seq<string>
    decreases x
  {
    if HasParent(objs, x) then NameChain(objs, ParentOf(objs, x)) + [objs[x].name] else []
  }

  /** The bindings made when `x` and its ancestors were created are still there. */
  predicate Standing(objs: Objects, x: Id)
    decreases x
  {
    && x in objs
    && (objs[x].parent.Some? ==>
          HasParent(objs, x) && StandingIn(objs, x) && Standing(objs, ParentOf(objs, x)))
  }

  predicate StandingIn(objs: Objects, x: Id)
    requires HasParent(objs, x)
  {
    var names := NamesOf(objs, ParentOf(objs, x));
    objs[x].name in names && names[objs[x].name].target == x
  }

  lemma {:induction false} StandingIsAlive(objs: Objects, x: Id)
    requires Standing(objs, x)
    ensures ChainAlive(objs, x)
    decreases x
  {
    if objs[x].parent.Some? {
      StandingIsAlive(objs, ParentOf(objs, x));
    }
  }

  ghost predicate CleanChain(objs: Objects, x: Id)
    decreases x
  {
    HasParent(objs, x) ==> CleanName(objs[x].name) && CleanChain(objs, ParentOf(objs, x))
  }

  /** No ancestor's name is empty or ends in a separator, and the object's own name is not empty. */
  ghost predicate WellNamed(objs: Objects, x: Id) {
    HasParent(objs, x) ==> objs[x].name != "" && CleanChain(objs, ParentOf(objs, x))
  }

  lemma ParentFacts(st: State, x: Id)
    requires WF(st) && x in st.objs
    ensures ChainAlive(st.objs, x) ==> (HasParent(st.objs, x) <==> x != st.root)
    ensures st.objs[x].parent.Some? <==> x != st.root
    ensures HasParent(st.objs, x) ==> IsContext(st.objs, ParentOf(st.objs, x))
    ensures x != st.root ==> st.objs[x].name == "" || LastName(st.objs[x].name)
  {
    assert ObjOk(st.objs, st.root, x);
  }

  lemma {:induction false} TokensOfCleanChain(objs: Objects, x: Id)
    requires x in objs && CleanChain(objs, x)
    ensures CleanTokens(NameChain(objs, x))
    ensures Tokens(HeadName(objs, x)) == NameChain(objs, x)
    decreases x
  {
    if HasParent(objs, x) {
      var p := ParentOf(objs, x);
      TokensOfCleanChain(objs, p);
      var h := HeadName(objs, p);
      TokensOfConcat(h + [SEPARATOR], objs[x].name);
      TokensOfConcat(h, [SEPARATOR]);
      assert Tokens([SEPARATOR]) == [];
      TokensOfName(objs[x].name);
    }
  }

  lemma {:induction false} ChainNames(objs: Objects, x: Id)
    requires CleanTokens(NameChain(objs, x))
    ensures CleanChain(objs, x)
    decreases x
  {
    if HasParent(objs, x) {
      var chain := NameChain(objs, ParentOf(objs, x));
      assert NameChain(objs, x) == chain + [objs[x].name];
      assert forall i :: 0 <= i < |chain| ==> chain[i] == NameChain(objs, x)[i];
      assert objs[x].name == NameChain(objs, x)[|chain|];
      ChainNames(objs, ParentOf(objs, x));
    }
  }

  lemma ComponentsOfWellNamed(st: State, x: Id)
    requires WF(st) && ChainAlive(st.objs, x) && x != st.root && WellNamed(st.objs, x)
    ensures Components(FullName(st.objs, x)) == NameChain(st.objs, x)
  {
    ParentFacts(st, x);
    var p := ParentOf(st.objs, x);
    TokensOfCleanChain(st.objs, p);
    SplitNameOfJoin(HeadName(st.objs, p), st.objs[x].name);
  }

  lemma ChainIsWellNamed(objs: Objects, x: Id)
    requires HasParent(objs, x)
    requires Components(FullName(objs, x)) == NameChain(objs, x)
    ensures WellNamed(objs, x)
  {
    var full := FullName(objs, x);
    var front := NameChain(objs, ParentOf(objs, x));
    SplitNameMeaning(full);
    assert NameChain(objs, x) == front + [objs[x].name];
    assert Components(full)[|front|] == objs[x].name;
    assert forall i :: 0 <= i < |front| ==>
             front[i] == Components(full)[i] && Components(full)[i] == HeadTokens(full)[i];
    ChainNames(objs, ParentOf(objs, x));
  }

  /** The components of a full name are the names along the parent chain, exactly for well-named objects. */
  lemma ComponentsOfFullName(st: State, x: Id)
    requires WF(st) && ChainAlive(st.objs, x)
    ensures Components(FullName(st.objs, x)) == NameChain(st.objs, x) <==> WellNamed(st.objs, x)
  {
    ParentFacts(st, x);
    if x == st.root {
      SplitNameMeaning(FullName(st.objs, x));
    } else if WellNamed(st.objs, x) {
      ComponentsOfWellNamed(st, x);
    } else if Components(FullName(st.objs, x)) == NameChain(st.objs, x) {
      ChainIsWellNamed(st.objs, x);
    }
  }

  lemma {:induction false} FollowStanding(st: State, x: Id)
    requires WF(st) && IsContext(st.objs, x) && Standing(st.objs, x)
    ensures Follow(st.objs, st.root, NameChain(st.objs, x)) == Some(x)
    decreases x
  {
    StandingIsAlive(st.objs, x);
    ParentFacts(st, x);
    if x != st.root {
      var p := ParentOf(st.objs, x);
      FollowStanding(st, p);
      FollowConcat(st.objs, st.root, NameChain(st.objs, p), [st.objs[x].name]);
      assert [st.objs[x].name][1..] == [];
    }
  }

  /** A well-named, real object whose creation bindings stand is found again under its full name. */
  lemma FullNameResolves(st: State, x: Id)
    requires WF(st) && IsReal(st.objs, x) && Standing(st.objs, x) && WellNamed(st.objs, x)
    ensures Resolve(st, FullName(st.objs, x), None).1 == Some(x)
  {
    StandingIsAlive(st.objs, x);
    ComponentsOfFullName(st, x);
    ResolveByComponents(st, FullName(st.objs, x), None);
    ParentFacts(st, x);
    if x != st.root {
      var p := ParentOf(st.objs, x);
      var chain := NameChain(st.objs, x);
      assert chain[..|chain| - 1] == NameChain(st.objs, p);
      FollowStanding(st, p);
      TokensOfCleanChain(st.objs, p);
      WalkReads(st, st.root, NameChain(st.objs, p));
      WalkFacts(st, st.root, NameChain(st.objs, p), READ);
      assert x in Walk(st, Some(st.root), NameChain(st.objs, p), READ).0.objs;
    }
  }

  /** Without links, what a name resolves to tells its components. */
  lemma ResolvedNameIsChain(st: State, comps: seq<string>, x: Id)
    requires WF(st) && OwnNames(st.objs) && x in st.objs && x != st.root && Standing(st.objs, x)
    requires ResolveComponents(st, st.root, comps).1 == Some(x)
    ensures comps == NameChain(st.objs, x)
  {
    var front, last := comps[..|comps| - 1], comps[|comps| - 1];
    assert comps == front + [last];
    WalkReads(st, st.root, front);
    var holder := Follow(st.objs, st.root, front).value;
    assert IsOwn(st.objs, holder, last, NamesOf(st.objs, holder)[last].target);
    StandingIsAlive(st.objs, x);
    ParentFacts(st, x);
    ParentFacts(st, st.root);
    assert ObjOk(st.objs, st.root, st.root);
    FollowStanding(st, holder);
    PathIsDetermined(st.objs, st.root, front, NameChain(st.objs, holder));
  }

  /** In a domain without links the full name leads back to the object exactly when it is well-named. */
  lemma FullNameResolvesIffWellNamed(st: State, x: Id)
    requires WF(st) && OwnNames(st.objs) && IsReal(st.objs, x) && Standing(st.objs, x)
    ensures Resolve(st, FullName(st.objs, x), None).1 == Some(x) <==> WellNamed(st.objs, x)
  {
    StandingIsAlive(st.objs, x);
    if WellNamed(st.objs, x) {
      FullNameResolves(st, x);
    } else if Resolve(st, FullName(st.objs, x), None).1 == Some(x) {
      ParentFacts(st, x);
      ResolveByComponents(st, FullName(st.objs, x), None);
      ResolvedNameIsChain(st, Components(FullName(st.objs, x)), x);
      ComponentsOfFullName(st, x);
    }
  }
}
