/**
 When two spellings of a name mean the same thing. A name matters only through its components;
 two names resolve alike in every state exactly when their components are the same, and this
 decides when relative naming agrees with absolute naming and when separators may be doubled.
 */
module NamingLaws {
  import opened Wrappers
  import opened Paths
  import opened NameGraph
  import opened Resolution
  import opened ResolutionLaws

  function ResolveComponents(st: State, c: Id, comps: seq<string>): (State, Option<Id>) {
    if comps == [] then (st, Some(c))
    else
      var (st1, parent) := Walk(st, Some(c), comps[..|comps| - 1], READ);
      if parent.None? then (st1, None)
      else
        var names := NamesOf(st1.objs, parent.value);
        var last := comps[|comps| - 1];
        (st1, if last in names && IsReal(st1.objs, names[last].target) then Some(names[last].target) else None)
  }

  lemma ResolveByComponents(st: State, name: string, initial: Option<Id>)
    ensures Resolve(st, name, initial) == ResolveComponents(st, Start(st, initial), Components(name))
  {
    ComponentsApart(name);
  }

  lemma ComponentsApart(name: string)
    ensures if SplitName(name).tail.None? then Components(name) == [] && HeadTokens(name) == []
            else Components(name) != [] && Components(name)[..|Components(name)| - 1] == HeadTokens(name)
                 && Components(name)[|Components(name)| - 1] == SplitName(name).tail.value
  {
    SplitNameMeaning(name);
  }

  // ---------- walks ----------

  lemma {:induction false} WalkConcat(st: State, c: Option<Id>, a: seq<string>, b: seq<string>, fl: Flags)
    ensures var (st1, c1) := Walk(st, c, a, fl);
            Walk(st, c, a + b, fl) == Walk(st1, c1, b, fl)
    decreases |a|
  {
    if a == [] {
      assert a + b == b;
    } else if c.Some? {
      var (st1, c1) := Step(st, c.value, a[0], fl);
      assert (a + b)[1..] == a[1..] + b;
      WalkConcat(st1, c1, a[1..], b, fl);
    }
  }

  lemma {:induction false} FollowConcat(objs: Objects, c: Id, a: seq<string>, b: seq<string>)
    ensures Follow(objs, c, a + b)
         == if Follow(objs, c, a).Some? then Follow(objs, Follow(objs, c, a).value, b) else None
    decreases |a|
  {
    if a == [] {
      assert a + b == b;
    } else {
      assert (a + b)[1..] == a[1..] + b;
      if a[0] in NamesOf(objs, c) {
        FollowConcat(objs, NamesOf(objs, c)[a[0]].target, a[1..], b);
      }
    }
  }

  ghost predicate SameNames(s: Objects, t: Objects) {
    forall x :: NamesOf(s, x) == NamesOf(t, x) && IsContext(s, x) == IsContext(t, x)
  }

  lemma {:induction false} FollowIgnoresPromotion(s: Objects, t: Objects, c: Id, tokens: seq<string>)
    requires SameNames(s, t)
    ensures Follow(s, c, tokens) == Follow(t, c, tokens)
    decreases |tokens|
  {
    if tokens != [] && tokens[0] in NamesOf(s, c) {
      FollowIgnoresPromotion(s, t, NamesOf(s, c)[tokens[0]].target, tokens[1..]);
    }
  }

  /** A reading walk finds what the graph says, and changes no name. */
  lemma {:induction false} WalkReads(st: State, c: Id, tokens: seq<string>)
    ensures var (st', r) := Walk(st, Some(c), tokens, READ);
            r == Follow(st.objs, c, tokens) && SameNames(st.objs, st'.objs)
    decreases |tokens|
  {
    if tokens != [] {
      var (st1, c1) := Step(st, c, tokens[0], READ);
      assert SameNames(st.objs, st1.objs);
      if c1.Some? {
        WalkReads(st1, c1.value, tokens[1..]);
        FollowIgnoresPromotion(st.objs, st1.objs, c1.value, tokens[1..]);
      }
    }
  }

  lemma ResolvedContextIsFollowed(st: State, c: Id, comps: seq<string>)
    requires var (st', r) := ResolveComponents(st, c, comps); r.Some? && IsContext(st'.objs, r.value)
    ensures Follow(st.objs, c, comps) == ResolveComponents(st, c, comps).1
  {
    if comps != [] {
      var front, last := comps[..|comps| - 1], comps[|comps| - 1];
      assert comps == front + [last];
      WalkReads(st, c, front);
      FollowConcat(st.objs, c, front, [last]);
    }
  }

  /** Resolving in two stages, the second from the context that the first found. */
  lemma ResolveInStages(st: State, c: Id, a: seq<string>, b: seq<string>)
    requires var (st', r) := ResolveComponents(st, c, a); r.Some? && IsContext(st'.objs, r.value)
    ensures var (st', r) := ResolveComponents(st, c, a);
            ResolveComponents(st, c, a + b) == ResolveComponents(st', r.value, b)
  {
    if a == [] {
      assert a + b == b;
    } else if b == [] {
      assert a + b == a;
    } else {
      var front, last := a[..|a| - 1], a[|a| - 1];
      var (st1, parent) := Walk(st, Some(c), front, READ);
      var (st', r) := ResolveComponents(st, c, a);
      assert Step(st1, parent.value, last, READ) == (st', r);
      assert [last][1..] == [];
      assert Walk(st1, parent, [last], READ) == Walk(st', r, [], READ);
      var rest := b[..|b| - 1];
      assert (a + b)[..|a + b| - 1] == front + ([last] + rest);
      WalkConcat(st, Some(c), front, [last] + rest, READ);
      WalkConcat(st1, parent, [last], rest, READ);
      assert (a + b)[|a + b| - 1] == b[|b| - 1];
    }
  }

  // ---------- states without links, where a path is determined by where it leads ----------

  /** Every binding is the one that creation made: the holder is the parent, the name the object's own. */
  ghost predicate OwnNames(objs: Objects) {
    forall c, n {:trigger NamesOf(objs, c)[n]} :: n in NamesOf(objs, c)
        ==> IsOwn(objs, c, n, NamesOf(objs, c)[n].target)
  }

  ghost predicate IsOwn(objs: Objects, c: Id, n: string, x: Id) {
    x in objs && objs[x].parent == Some(c) && objs[x].name == n
  }

  lemma {:induction false} PathIsDetermined(objs: Objects, root: Id, a: seq<string>, b: seq<string>)
    requires OwnNames(objs) && root in objs && objs[root].parent.None?
    requires Follow(objs, root, a).Some? && Follow(objs, root, a) == Follow(objs, root, b)
    ensures a == b
    decreases |a|
  {
    var x := Follow(objs, root, a).value;
    if a != [] { LastStep(objs, root, a); }
    if b != [] { LastStep(objs, root, b); }
    if a != [] && b != [] {
      PathIsDetermined(objs, root, a[..|a| - 1], b[..|b| - 1]);
      assert a == a[..|a| - 1] + [a[|a| - 1]] && b == b[..|b| - 1] + [b[|b| - 1]];
    }
  }

  lemma LastStep(objs: Objects, c: Id, a: seq<string>)
    requires a != [] && Follow(objs, c, a).Some? && OwnNames(objs)
    ensures var p := Follow(objs, c, a[..|a| - 1]);
            var x := Follow(objs, c, a).value;
            p.Some? && x in objs && objs[x].parent == p && objs[x].name == a[|a| - 1]
  {
    var front, last := a[..|a| - 1], a[|a| - 1];
    assert a == front + [last];
    FollowConcat(objs, c, front, [last]);
    assert [last][1..] == [];
    var p := Follow(objs, c, front);
    assert p.Some?;
    assert Follow(objs, p.value, [last]) == Follow(objs, c, a);
    assert IsOwn(objs, p.value, last, NamesOf(objs, p.value)[last].target);
  }

  lemma CreateKeepsOwnNames(st: State, kind: Kind, name: string, c: Id, shown: string)
    requires OwnNames(st.objs) && c in st.objs && st.next !in st.objs && name !in NamesOf(st.objs, c)
    ensures OwnNames(Create(st, kind, name, c, shown).objs)
  {
    CreateFacts(st, kind, name, c, shown);
    var after := Create(st, kind, name, c, shown).objs;
    forall d, n | n in NamesOf(after, d)
      ensures IsOwn(after, d, n, NamesOf(after, d)[n].target)
    {
      if n in NamesOf(st.objs, d) {
        assert IsOwn(st.objs, d, n, NamesOf(st.objs, d)[n].target);
      }
    }
  }

  lemma PromoteKeepsOwnNames(st: State, t: Id, fl: Flags)
    requires OwnNames(st.objs)
    ensures OwnNames(Promote(st, t, fl).objs)
  {
    var after := Promote(st, t, fl).objs;
    forall d, n | n in NamesOf(after, d)
      ensures IsOwn(after, d, n, NamesOf(after, d)[n].target)
    {
      assert IsOwn(st.objs, d, n, NamesOf(st.objs, d)[n].target);
    }
  }

  lemma {:induction false} WalkKeepsOwnNames(st: State, c: Id, tokens: seq<string>, fl: Flags)
    requires WF(st) && IsContext(st.objs, c) && CleanTokens(tokens) && OwnNames(st.objs)
    ensures OwnNames(Walk(st, Some(c), tokens, fl).0.objs)
    decreases |tokens|
  {
    if tokens != [] {
      StepKeepsWF(st, c, tokens[0], fl);
      StepFacts(st, c, tokens[0], fl);
      var (st1, c1) := Step(st, c, tokens[0], fl);
      if tokens[0] in NamesOf(st.objs, c) {
        PromoteKeepsOwnNames(st, NamesOf(st.objs, c)[tokens[0]].target, fl);
      } else if fl.makeNamePath {
        CreateKeepsOwnNames(st, ContextKind, tokens[0], c, tokens[0]);
        PromoteKeepsOwnNames(Create(st, ContextKind, tokens[0], c, tokens[0]), st.next, fl);
      }
      if c1.Some? {
        WalkKeepsOwnNames(st1, c1.value, tokens[1..], fl);
      }
    }
  }

  lemma CreationKeepsOwnNames(st: State, name: string, kind: Kind, initial: Option<Id>, placeholder: bool)
    requires WF(st) && InitialOk(st, initial) && OwnNames(st.objs)
    ensures OwnNames(ResolveOrCreate(st, name, kind, initial, placeholder).0.objs)
  {
    if name != [SEPARATOR] {
      var fl := Flags(true, placeholder);
      SplitNameMeaning(name);
      WalkKeepsOwnNames(st, Start(st, initial), HeadTokens(name), fl);
      ContextOfNameFacts(st, name, initial, fl);
      var (st1, parent) := ContextOfName(st, name, initial, fl);
      var last := SplitName(name).tail.value;
      if parent.Some? {
        LastKeepsOwnNames(st1, parent.value, last, kind, name, fl);
      }
    }
  }

  lemma LastKeepsOwnNames(st: State, c: Id, last: string, kind: Kind, name: string, fl: Flags)
    requires WF(st) && IsContext(st.objs, c) && OwnNames(st.objs)
    ensures var (st', x) := LookupOrConstruct(st, c, last, kind, name); OwnNames(Promote(st', x, fl).objs)
  {
    if last !in NamesOf(st.objs, c) {
      CreateKeepsOwnNames(st, kind, last, c, name);
    }
    var (st', x) := LookupOrConstruct(st, c, last, kind, name);
    PromoteKeepsOwnNames(st', x, fl);
  }

  // ---------- a new domain ----------

  /** `Domain::Domain`: a root context, real from the start. */
  function NewDomain(counter: Id): State {
    var root := Obj(ContextKind, [SEPARATOR], None, [], map[], false, true, None);
    State(map[counter := root], counter, counter + 1, [Created(counter, Some([SEPARATOR]))])
  }

  /** The constructor's two steps: the root is constructed, then made real. */
  lemma NewDomainSteps(counter: Id)
    ensures var built := Construct(State(map[], 0, counter, []), ContextKind, [SEPARATOR], None);
            MakeReal(built.(root := counter), counter) == NewDomain(counter)
  {
    var built := Construct(State(map[], 0, counter, []), ContextKind, [SEPARATOR], None);
    assert MakeReal(built.(root := counter), counter).objs == NewDomain(counter).objs;
  }

  lemma NewDomainIsWF(counter: Id)
    ensures WF(NewDomain(counter)) && OwnNames(NewDomain(counter).objs)
  {
    var st := NewDomain(counter);
    forall x, c | x in st.objs ensures RefCount(st.objs, x, c) == Expected(st.objs, x, c) {
      assert BoundNames(NamesOf(st.objs, c), x) == {};
    }
    forall x | x in st.objs ensures ObjOk(st.objs, st.root, x) {
    }
  }

  lemma {:induction false} CreationSucceeds(st: State, name: string, c: Id)
    requires WF(st) && IsContext(st.objs, c) && NamesOf(st.objs, c) == map[]
    ensures ResolveOrCreate(st, name, ContextKind, Some(c), false).1.Some?
  {
    HeadTokensClean(name);
    SplitNameMeaning(name);
    WalkArrivesIffPassable(st, c, HeadTokens(name), false);
  }

  /** A context created under another: where the components lead afterwards. */
  lemma CreatedContext(st: State, name: string, c: Id) returns (st': State, x: Id)
    requires WF(st) && OwnNames(st.objs) && IsContext(st.objs, c) && NamesOf(st.objs, c) == map[]
    requires name == [SEPARATOR] ==> c == st.root
    ensures WF(st') && OwnNames(st'.objs) && Grows(st, st')
    ensures Resolve(st', name, Some(c)) == (st', Some(x)) && IsContext(st'.objs, x)
    ensures Follow(st'.objs, c, Components(name)) == Some(x)
    ensures NamesOf(st'.objs, x) == map[]
    ensures (st', Some(x)) == ResolveOrCreate(st, name, ContextKind, Some(c), false)
  {
    CreationSucceeds(st, name, c);
    var (s, r) := ResolveOrCreate(st, name, ContextKind, Some(c), false);
    st', x := s, r.value;
    ResolveOrCreateFacts(st, name, ContextKind, Some(c), false);
    CreationKeepsOwnNames(st, name, ContextKind, Some(c), false);
    CreatedNameResolves(st, name, ContextKind, Some(c));
    ResolveByComponents(st', name, Some(c));
    CreatedIsEmpty(st, name, c);
    ResolvedContextIsFollowed(st', c, Components(name));
  }

  lemma CreatedIsEmpty(st: State, name: string, c: Id)
    requires WF(st) && IsContext(st.objs, c) && NamesOf(st.objs, c) == map[]
    requires ResolveOrCreate(st, name, ContextKind, Some(c), false).1.Some?
    requires name == [SEPARATOR] ==> c == st.root
    ensures var (st', r) := ResolveOrCreate(st, name, ContextKind, Some(c), false);
            IsContext(st'.objs, r.value) && NamesOf(st'.objs, r.value) == map[]
  {
    if name != [SEPARATOR] {
      var fl := Flags(true, false);
      HeadTokensClean(name);
      SplitNameMeaning(name);
      ContextOfNameFacts(st, name, Some(c), fl);
      WalkEndsEmpty(st, c, HeadTokens(name));
      var (st1, parent) := ContextOfName(st, name, Some(c), fl);
      ConstructedIsEmpty(st1, SplitName(name).tail.value, parent.value, name);
    }
  }

  lemma ConstructedIsEmpty(st: State, last: string, c: Id, name: string)
    requires WF(st) && IsContext(st.objs, c) && NamesOf(st.objs, c) == map[]
    ensures var (st', x) := LookupOrConstruct(st, c, last, ContextKind, name);
            var st'' := Promote(st', x, Flags(true, false));
            IsContext(st''.objs, x) && NamesOf(st''.objs, x) == map[]
  {
    assert st.next !in st.objs;
    CreateFacts(st, ContextKind, last, c, name);
  }

  lemma {:induction false} WalkEndsEmpty(st: State, c: Id, tokens: seq<string>)
    requires WF(st) && IsContext(st.objs, c) && CleanTokens(tokens) && NamesOf(st.objs, c) == map[]
    ensures var (st', r) := Walk(st, Some(c), tokens, Flags(true, false));
            r.Some? && NamesOf(st'.objs, r.value) == map[]
    decreases |tokens|
  {
    var fl := Flags(true, false);
    if tokens != [] {
      StepKeepsWF(st, c, tokens[0], fl);
      StepFacts(st, c, tokens[0], fl);
      CreateFacts(st, ContextKind, tokens[0], c, tokens[0]);
      var (st1, c1) := Step(st, c, tokens[0], fl);
      assert NamesOf(st1.objs, c1.value) == map[];
      WalkEndsEmpty(st1, c1.value, tokens[1..]);
    }
  }

  // ---------- the laws ----------

  /** Both names resolve to the same result and leave the same state, whatever the graph. */
  ghost predicate SameEverywhere(a: string, b: string) {
    forall st: State, initial: Option<Id> :: WF(st) && InitialOk(st, initial) ==>
      Resolve(st, a, initial) == Resolve(st, b, initial)
  }

  lemma SameEverywhereIffSameComponents(a: string, b: string)
    ensures SameEverywhere(a, b) <==> Components(a) == Components(b)
  {
    if Components(a) == Components(b) {
      forall st: State, initial: Option<Id> | WF(st) && InitialOk(st, initial)
        ensures Resolve(st, a, initial) == Resolve(st, b, initial)
      {
        ResolveByComponents(st, a, initial);
        ResolveByComponents(st, b, initial);
      }
    } else {
      var st := SpellingCounterexample(a, b);
    }
  }

  /** Where the components differ: a new domain in which the first name was created. */
  lemma SpellingCounterexample(a: string, b: string) returns (st: State)
    requires Components(a) != Components(b)
    ensures WF(st) && InitialOk(st, Some(0)) && Resolve(st, a, Some(0)) != Resolve(st, b, Some(0))
    ensures st == ResolveOrCreate(NewDomain(0), a, ContextKind, Some(0), false).0
    ensures ResolveOrCreate(NewDomain(0), a, ContextKind, Some(0), false).1.Some?
  {
    NewDomainIsWF(0);
    var x;
    st, x := CreatedContext(NewDomain(0), a, 0);
    assert x in st.objs && ObjOk(st.objs, 0, 0);
    if Resolve(st, b, Some(0)) == Resolve(st, a, Some(0)) {
      ResolveByComponents(st, b, Some(0));
      ResolvedContextIsFollowed(st, 0, Components(b));
      PathIsDetermined(st.objs, 0, Components(a), Components(b));
    }
  }

  /**
   Relative naming agrees with absolute naming for this head and tail: whenever the head resolves
   to a context, the whole name resolves as the tail does from that context, the state included.
   */
  ghost predicate RelativeAgrees(head: string, tail: string) {
    forall st: State, initial: Option<Id> :: WF(st) && InitialOk(st, initial) ==> AgreesAt(st, initial, head, tail)
  }

  ghost predicate AgreesAt(st: State, initial: Option<Id>, head: string, tail: string) {
    var (st', c) := Resolve(st, head, initial);
    c.Some? && IsContext(st'.objs, c.value) ==> Resolve(st, head + tail, initial) == Resolve(st', tail, c)
  }

  lemma RelativeAgreesIffComponentsJoin(head: string, tail: string)
    ensures RelativeAgrees(head, tail) <==> Components(head + tail) == Components(head) + Components(tail)
  {
    if Components(head + tail) == Components(head) + Components(tail) {
      forall st: State, initial: Option<Id> | WF(st) && InitialOk(st, initial)
        ensures AgreesAt(st, initial, head, tail)
      {
        var (st', c) := Resolve(st, head, initial);
        ResolveByComponents(st, head, initial);
        ResolveByComponents(st, head + tail, initial);
        if c.Some? && IsContext(st'.objs, c.value) {
          ResolveByComponents(st', tail, c);
          ResolveInStages(st, Start(st, initial), Components(head), Components(tail));
        }
      }
    } else {
      var st := RelativeCounterexample(head, tail);
    }
  }

  /** A new domain, then the head created in the root, then the tail in what that returned. */
  function Witness(head: string, tail: string): State {
    var (mid, c) := ResolveOrCreate(NewDomain(0), head, ContextKind, Some(0), false);
    ResolveOrCreate(mid, tail, ContextKind, c, false).0
  }

  /** A domain in which the head names a context and the tail, from there, another one. */
  lemma RelativeWitness(head: string, tail: string) returns (st: State, c: Id, x: Id)
    ensures WF(st) && OwnNames(st.objs) && IsContext(st.objs, 0) && st.objs[0].parent.None?
    ensures Resolve(st, head, Some(0)).1 == Some(c) && Follow(st.objs, 0, Components(head)) == Some(c)
    ensures Resolve(st, tail, Some(c)) == (st, Some(x)) && IsContext(st.objs, x)
    ensures Follow(st.objs, c, Components(tail)) == Some(x)
    ensures st == Witness(head, tail)
  {
    NewDomainIsWF(0);
    st, c := CreatedContext(NewDomain(0), head, 0);
    x := c;
    if tail != [SEPARATOR] {
      var st1 := st;
      st, x := CreatedContext(st1, tail, c);
      assert 0 in st1.objs && c in st1.objs;
      ResolveSurvivesGrowth(st1, st, head, Some(0));
      ResolveByComponents(st, head, Some(0));
      ResolveFacts(st, head, Some(0));
      ResolvedContextIsFollowed(st, 0, Components(head));
    } else {
      SplitNameMeaning(tail);
    }
    assert 0 in st.objs && ObjOk(st.objs, st.root, 0);
  }

  /** Without links, a name that resolves to a context has the components that lead there. */
  lemma ResolvedComponentsAreDetermined(st: State, root: Id, name: string, q: seq<string>, x: Id)
    requires WF(st) && OwnNames(st.objs) && IsContext(st.objs, root) && st.objs[root].parent.None?
    requires Resolve(st, name, Some(root)).1 == Some(x) && IsContext(st.objs, x)
    requires Follow(st.objs, root, q) == Some(x)
    ensures Components(name) == q
  {
    ResolveByComponents(st, name, Some(root));
    ResolveFacts(st, name, Some(root));
    assert x in Resolve(st, name, Some(root)).0.objs;
    ResolvedContextIsFollowed(st, root, Components(name));
    PathIsDetermined(st.objs, root, Components(name), q);
  }

  lemma RelativeCounterexample(head: string, tail: string) returns (st: State)
    requires Components(head + tail) != Components(head) + Components(tail)
    ensures WF(st) && InitialOk(st, Some(0)) && !AgreesAt(st, Some(0), head, tail)
    ensures st == Witness(head, tail)
  {
    var c, x;
    st, c, x := RelativeWitness(head, tail);
    var s := Resolve(st, head, Some(0)).0;
    assert Resolve(s, tail, Some(c)).1 == Some(x) && IsContext(s.objs, c) by {
      ResolveFacts(st, head, Some(0));
      FollowedIsContext(st.objs, 0, Components(head));
      ResolveSurvivesGrowth(st, s, tail, Some(c));
    }
    FollowConcat(st.objs, 0, Components(head), Components(tail));
    if Resolve(st, head + tail, Some(0)).1 == Some(x) {
      ResolvedComponentsAreDetermined(st, 0, head + tail, Components(head) + Components(tail), x);
    }
  }

  lemma {:induction false} FollowedIsContext(objs: Objects, c: Id, tokens: seq<string>)
    requires IsContext(objs, c) && Follow(objs, c, tokens).Some?
    ensures IsContext(objs, Follow(objs, c, tokens).value)
    decreases |tokens|
  {
    if tokens != [] {
      FollowedIsContext(objs, NamesOf(objs, c)[tokens[0]].target, tokens[1..]);
    }
  }
}
