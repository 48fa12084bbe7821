/**
 Under which names what has been linked is found, over the states that clients reach. The head of a linked name is
 created, which keeps a trailing separator in the last component, and resolved, which does not.
 */
module ReachableLinks {
  import opened Wrappers
  import opened Paths
  import opened NameGraph
  import opened Resolution
  import opened ResolutionLaws
  import opened NamingLaws
  import opened Operations
  import opened Lookups
  import opened Linking
  import opened ReachableNames
  import Announcing

  /** Root 0, an entity 1 and a context 2, all real, and nothing bound. */
  ghost predicate Loose(st: State) {
    && st.root == 0 && st.next == 3 && st.objs.Keys == {0, 1, 2}
    && (forall x :: x in st.objs ==> st.objs[x].names == map[] && !st.objs[x].placeholder)
    && st.objs[0].kind == ContextKind && st.objs[1].kind == EntityKind && st.objs[2].kind == ContextKind
    && st.objs[0].parent == None && st.objs[1].parent == Some(0) && st.objs[2].parent == Some(0)
  }

  lemma LooseIsReachable() returns (st: State)
    ensures Reachable(st) && Loose(st)
  {
    NewDomainIsReachable();
    var st1 := NewIn(NewDomain(0), EntityKind, "e", 0, 1);
    assert ChainAlive(st1.objs, 0);
    var st2 := NewIn(st1, ContextKind, "c", 0, 2);
    var st3 := TakenOut(st2, 0, "e");
    st := TakenOut(st3, 0, "c");
    assert st.objs[0].names == map["e" := Binding(EntityBinding, 1), "c" := Binding(ContextBinding, 2)] - {"e"} - {"c"};
  }

  lemma LooseIsFree(st: State, initial: Option<Id>, head: string, last: string)
    requires Loose(st)
    ensures OwnNames(st.objs) && Free(st, initial, head, last)
    ensures Passable(st.objs, Start(st, initial), Components(head)) && forall x :: NamesOf(st.objs, x) == map[]
  {
    assert forall x :: NamesOf(st.objs, x) == map[];
  }

  lemma LooseIsAnnounceable(st: State, initial: Option<Id>, head: string)
    requires Reachable(st) && Loose(st) && (initial == None || initial == Some(2))
    ensures WF(st) && Announceable(st, head, ContextKind, initial, false)
  {
    ReachableFacts(st);
    assert ChainAlive(st.objs, 0) && ChainAlive(st.objs, 1) && ChainAlive(st.objs, 2);
    Announcing.AllAliveIsAnnounceable(st, head, ContextKind, initial, false);
  }

  lemma LooseIsEnabled(st: State, initial: Option<Id>, head: string, last: string)
    requires Reachable(st) && Loose(st) && head != "" && LastName(last) && (initial == None || initial == Some(2))
    ensures WF(st) && Enabled(st, LinkEntity(1, initial, head + "/" + last))
  {
    SplitNameOfJoin(head, last);
    LooseIsAnnounceable(st, initial, head);
    LooseIsFree(st, initial, head, last);
  }

  /** Under "/" from a context that is not the root: the name is bound in the root, and looked for in that context. */
  lemma NotFoundUnderSeparator(st: State, last: string)
    requires Reachable(st) && Loose(st) && LastName(last)
    ensures Resolve(Apply(st, LinkEntity(1, Some(2), "/" + "/" + last)), "/" + "/" + last, Some(2)).1 == None
  {
    LooseIsEnabled(st, Some(2), "/", last);
    EntityIsLinked(st, 1, Some(2), "/", last);
    SplitNameOfJoin("/", last);
    assert Tokens("/") == [];
    assert NamesOf(Apply(st, LinkEntity(1, Some(2), "/" + "/" + last)).objs, 2) == map[];
  }

  /** A link to something that binds nothing leads no further than there. */
  lemma {:induction false} LinkLeadsNoFurther(s: State, t: State, p: Id, last: string, b: Binding, told: seq<Event>,
                                              c: Id, tokens: seq<string>)
    requires OneLink(s, t, p, last, b, told) && last !in NamesOf(s.objs, p)
    requires NamesOf(s.objs, b.target) == map[] && b.target != p
    ensures Follow(t.objs, c, tokens) in {Follow(s.objs, c, tokens), None, Some(b.target)}
    decreases |tokens|
  {
    if tokens != [] && tokens[0] in NamesOf(t.objs, c) {
      if tokens[0] in NamesOf(s.objs, c) {
        LinkLeadsNoFurther(s, t, p, last, b, told, NamesOf(s.objs, c)[tokens[0]].target, tokens[1..]);
      } else {
        assert NamesOf(t.objs, b.target) == map[];
      }
    }
  }

  /** The last component of a head that ends in a separator ends in it too, so no path of clean names leads there. */
  lemma TrailingHead(head: string)
    requires EndsInSeparator(head) && head != "/"
    ensures Tokens(head) != Components(head)
  {
    SplitNameMeaning(head);
    var last := SplitName(head).tail.value;
    assert last[|last| - 1] == head[|head| - 1];
    assert SEPARATOR in last && Components(head)[|Components(head)| - 1] == last;
    assert Tokens(head) != [] ==> CleanName(Tokens(head)[|Tokens(head)| - 1]);
  }

  lemma FreshStep(st: State, c: Id, tokens: seq<string>) returns (st1: State, d: Id)
    requires WF(st) && IsContext(st.objs, c) && CleanTokens(tokens) && NamesOf(st.objs, c) == map[] && tokens != []
    // compared with true: taken as one fact, not conjunct by conjunct
    ensures WF(st1) == true && CleanTokens(tokens[1..]) && IsContext(st1.objs, d)
    ensures Walk(st, Some(c), tokens, Flags(true, false)) == Walk(st1, Some(d), tokens[1..], Flags(true, false))
    ensures d !in st.objs && NamesOf(st1.objs, d) == map[]
    ensures forall x :: x in st.objs ==> x in st1.objs && (x != c ==> NamesOf(st1.objs, x) == NamesOf(st.objs, x))
  {
    var r;
    st1, r := StepOnAdds(st, c, tokens, false);
    CreateFacts(st, ContextKind, tokens[0], c, tokens[0]);
    d := r.value;
  }

  /** A walk from a context that binds nothing changes the names of that one only. */
  lemma {:induction false} FreshWalk(st: State, c: Id, tokens: seq<string>)
    requires WF(st) && IsContext(st.objs, c) && CleanTokens(tokens) && NamesOf(st.objs, c) == map[]
    ensures var (t, r) := Walk(st, Some(c), tokens, Flags(true, false));
            && r.Some? && (r.value == c || r.value !in st.objs)
            && forall x :: x in st.objs && x != c ==> NamesOf(t.objs, x) == NamesOf(st.objs, x)
    decreases |tokens|
  {
    if tokens != [] {
      var st1, d := FreshStep(st, c, tokens);
      FreshWalk(st1, d, tokens[1..]);
    }
  }

  lemma FreshCreation(st: State, head: string)
    requires WF(st) && Loose(st) && head != "" && head != "/"
    requires ResolveOrCreate(st, head, ContextKind, None, false).1.Some?
    ensures var (s1, p) := ResolveOrCreate(st, head, ContextKind, None, false);
            NamesOf(s1.objs, 1) == map[] && NamesOf(s1.objs, 2) == map[] && p.value !in st.objs
  {
    HeadTokensClean(head);
    SplitNameMeaning(head);
    FreshWalk(st, 0, HeadTokens(head));
    WalkEndsEmpty(st, 0, HeadTokens(head));
    var last := SplitName(head).tail.value;
    var st1, q := WalkEndsAt(st, 0, HeadTokens(head), false);
    CreateFacts(st1, ContextKind, last, q, head);
  }

  lemma FreshHead(st: State, head: string, last: string) returns (s1: State, p: Id)
    requires Reachable(st) && Loose(st) && LastName(last) && EndsInSeparator(head) && head != "/"
    ensures (s1, Some(p)) == ResolveOrCreate(st, head, ContextKind, None, false)
    ensures AddsOnly(st, s1, false) && OwnNames(s1.objs) && WF(s1) && IsContext(s1.objs, p)
    ensures HeadLeads(s1.objs, 0, 0, head) == Some(p) && last !in NamesOf(s1.objs, p) && p !in st.objs
    ensures NamesOf(s1.objs, 1) == map[] && NamesOf(s1.objs, 2) == map[]
  {
    ReachableFacts(st);
    LooseIsFree(st, None, head, last);
    PassableToTheEnd(st, head, None);
    s1, p := HeadIsMade(st, head, None);
    CreationKeepsOwnNames(st, head, ContextKind, None, false);
    FreshCreation(st, head);
  }

  /** Under a head that ends in a separator: the name is bound in a context that the same name does not lead to. */
  lemma NotFoundUnderTrailing(st: State, head: string, last: string)
    requires Reachable(st) && Loose(st) && LastName(last) && EndsInSeparator(head) && head != "/"
    ensures Resolve(Apply(st, LinkEntity(1, None, head + "/" + last)), head + "/" + last, None).1 != Some(1)
  {
    LooseIsEnabled(st, None, head, last);
    EntityIsLinked(st, 1, None, head, last);
    var s1, p := FreshHead(st, head, last);
    LinkedOnlyThere(st, s1, head, last, Apply(st, LinkEntity(1, None, head + "/" + last)), p,
                    Binding(EntityBinding, 1), [EntityBound(1)]);
  }

  lemma ContextIsEnabled(st: State, head: string, last: string)
    requires Reachable(st) && Loose(st) && LastName(last) && head != ""
    ensures WF(st) && Enabled(st, LinkContext(2, head + "/" + last)) && Free(st, None, head, last)
  {
    SplitNameOfJoin(head, last);
    LooseIsFree(st, None, head, last);
    LooseIsAnnounceable(st, None, head);
    PassableToTheEnd(st, head, None);
  }

  lemma ContextNotFound(st: State, head: string, last: string)
    requires Reachable(st) && Loose(st) && LastName(last) && EndsInSeparator(head) && head != "/"
    ensures Resolve(Apply(st, LinkContext(2, head + "/" + last)), head + "/" + last, None).1 != Some(2)
    ensures BindContext(st, 2, head + "/" + last).1 == 1
  {
    ContextIsEnabled(st, head, last);
    ContextIsLinked(st, 2, head, last);
    var s1, p := FreshHead(st, head, last);
    LinkedOnlyThere(st, s1, head, last, Apply(st, LinkContext(2, head + "/" + last)), p,
                    Binding(ContextBinding, 2), []);
  }

  lemma NoneBindsIt(st: State, s1: State, x: Id)
    requires Loose(st) && AddsOnly(st, s1, false) && OwnNames(s1.objs) && (x == 1 || x == 2)
    ensures s1.objs[0].parent == None
    ensures forall y, n :: n in NamesOf(s1.objs, y) ==> NamesOf(s1.objs, y)[n].target != x
  {
    assert AddsTo(st.objs[0], s1.objs[0], 3, false) && AddsTo(st.objs[x], s1.objs[x], 3, false);
    forall y, n | n in NamesOf(s1.objs, y)
      ensures NamesOf(s1.objs, y)[n].target != x
    {
      assert IsOwn(s1.objs, y, n, NamesOf(s1.objs, y)[n].target);
    }
  }

  lemma LinkedOnlyThere(st: State, s1: State, head: string, last: string, t: State, p: Id, b: Binding, told: seq<Event>)
    requires Loose(st) && AddsOnly(st, s1, false) && OwnNames(s1.objs) && (b.target == 1 || b.target == 2)
    requires LastName(last) && EndsInSeparator(head) && head != "/" && WF(s1) && IsContext(s1.objs, p)
    requires HeadLeads(s1.objs, 0, 0, head) == Some(p) && last !in NamesOf(s1.objs, p)
    requires NamesOf(s1.objs, b.target) == map[] && p != b.target
    requires OneLink(s1, t, p, last, b, told)
    ensures Resolve(t, head + "/" + last, None).1 != Some(b.target)
  {
    SplitNameOfJoin(head, last);
    TrailingHead(head);
    if Resolve(t, head + "/" + last, None).1 == Some(b.target) {
      ResolveFollows(t, head + "/" + last, None, Tokens(head), last);
      var q := Follow(t.objs, 0, Tokens(head)).value;
      NoneBindsIt(st, s1, b.target);
      LinkLeadsNoFurther(s1, t, p, last, b, told, 0, Tokens(head));
      assert q != p ==> NamesOf(t.objs, q) == NamesOf(s1.objs, q);
      PathIsDetermined(s1.objs, 0, Tokens(head), Components(head));
    }
  }

  /** An entity that is linked under a free name is what the name resolves to then. */
  ghost predicate IsFound(st: State, entity: Id, initial: Option<Id>, head: string, last: string) {
    var name := head + "/" + last;
    Resolve(Apply(st, LinkEntity(entity, initial, name)), name, initial).1 == Some(entity)
  }

  ghost predicate MayLink(st: State, entity: Id, initial: Option<Id>, head: string, last: string) {
    && Reachable(st) && Enabled(st, LinkEntity(entity, initial, head + "/" + last))
    && IsReal(st.objs, entity) && Free(st, initial, head, last)
  }

  /**
   Linking promises no more than this: in every reachable state and from every initial context an entity is found under
   the free name it has been linked under, if and only if what stands before the last separator does not end in one.
   */
  lemma LinkedIsFoundIff(head: string, last: string)
    requires head != "" && LastName(last)
    ensures !EndsInSeparator(head) <==>
              forall st, entity, initial :: MayLink(st, entity, initial, head, last) ==>
                IsFound(st, entity, initial, head, last)
  {
    if !EndsInSeparator(head) {
      forall st, entity, initial | MayLink(st, entity, initial, head, last)
        ensures IsFound(st, entity, initial, head, last)
      {
        ReachableFacts(st);
        EntityIsFound(st, entity, initial, head, last);
      }
    } else {
      var st := LooseIsReachable();
      var initial := if head == "/" then Some(2) else None;
      LooseIsEnabled(st, initial, head, last);
      LooseIsFree(st, initial, head, last);
      assert MayLink(st, 1, initial, head, last);
      if head == "/" {
        NotFoundUnderSeparator(st, last);
      } else {
        NotFoundUnderTrailing(st, head, last);
      }
      assert !IsFound(st, 1, initial, head, last);
    }
  }

  ghost predicate ContextFound(st: State, source: Id, head: string, last: string) {
    var name := head + "/" + last;
    Resolve(Apply(st, LinkContext(source, name)), name, None).1 == Some(source)
  }

  /** Linking the context is asked for, and the head leads to no entity. */
  ghost predicate MayLinkContext(st: State, source: Id, head: string, last: string) {
    && Reachable(st) && Enabled(st, LinkContext(source, head + "/" + last)) && IsReal(st.objs, source)
    && Free(st, None, head, last) && BindContext(st, source, head + "/" + last).1 == 1
  }

  /** The same of contexts, which are linked from the root only: there "/" before the last separator does no harm. */
  lemma LinkedContextIsFoundIff(head: string, last: string)
    requires head != "" && LastName(last)
    ensures !EndsInSeparator(head) || head == "/" <==>
              forall st, source :: MayLinkContext(st, source, head, last) ==> ContextFound(st, source, head, last)
  {
    if !EndsInSeparator(head) || head == "/" {
      forall st, source | MayLinkContext(st, source, head, last)
        ensures ContextFound(st, source, head, last)
      {
        ReachableFacts(st);
        ContextIsFound(st, source, head, last);
      }
    } else {
      var st := LooseIsReachable();
      ContextIsEnabled(st, head, last);
      ContextNotFound(st, head, last);
      assert MayLinkContext(st, 2, head, last) && !ContextFound(st, 2, head, last);
    }
  }
}
