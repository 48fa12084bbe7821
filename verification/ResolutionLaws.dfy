/**
 What the directory promises about names, for every reachable graph, with links, aliases and cycles:
 creating a path disturbs no other path, creating it twice is creating it once, and relative
 names agree with absolute ones.
 */
module ResolutionLaws {
  import opened Wrappers
  import opened Paths
  import opened NameGraph
  import opened Resolution

  // ---------- every operation keeps the invariant and loses nothing ----------

  lemma HeadTokensClean(name: string)
    ensures CleanTokens(HeadTokens(name))
  {
  }

  lemma ContextOfNameFacts(st: State, name: string, initial: Option<Id>, fl: Flags)
    requires WF(st) && InitialOk(st, initial)
    ensures var (st', r) := ContextOfName(st, name, initial, fl);
            WF(st') && Grows(st, st') && (r.Some? ==> IsContext(st'.objs, r.value))
  {
    WalkFacts(st, Start(st, initial), HeadTokens(name), fl);
  }

  lemma BoundObject(st: State, c: Id, n: string)
    requires WF(st) && n in NamesOf(st.objs, c)
    ensures BindingOk(st.objs, NamesOf(st.objs, c)[n])
  {
    assert ObjOk(st.objs, st.root, c);
  }

  lemma ResolveFacts(st: State, name: string, initial: Option<Id>)
    requires WF(st) && InitialOk(st, initial)
    ensures var (st', r) := Resolve(st, name, initial);
            WF(st') && Grows(st, st') && (r.Some? ==> r.value in st'.objs)
  {
    ContextOfNameFacts(st, name, initial, READ);
    var (st1, parent) := ContextOfName(st, name, initial, READ);
    var last := SplitName(name).tail;
    if parent.Some? && last.Some? && last.value in NamesOf(st1.objs, parent.value) {
      BoundObject(st1, parent.value, last.value);
    }
  }

  lemma LookupOrConstructFacts(st: State, c: Id, last: string, kind: Kind, name: string)
    requires WF(st) && IsContext(st.objs, c) && (last == "" || LastName(last))
    ensures var (st', x) := LookupOrConstruct(st, c, last, kind, name);
            && WF(st') && Grows(st, st')
            && x in st'.objs && last in NamesOf(st'.objs, c) && NamesOf(st'.objs, c)[last].target == x
  {
    if last in NamesOf(st.objs, c) {
      BoundObject(st, c, last);
    } else {
      CreateKeepsWF(st, kind, last, c, name);
      CreateFacts(st, kind, last, c, name);
    }
  }

  /** The last component looked up or created, and promoted unless a placeholder is wanted. */
  lemma LastFacts(st: State, c: Id, last: string, kind: Kind, name: string, fl: Flags) returns (st': State, x: Id)
    requires WF(st) && IsContext(st.objs, c) && (last == "" || LastName(last))
    ensures x == LookupOrConstruct(st, c, last, kind, name).1
    ensures st' == Promote(LookupOrConstruct(st, c, last, kind, name).0, x, fl)
    ensures WF(st') && Grows(st, st') && x in st'.objs && (!fl.makePlaceholders ==> IsReal(st'.objs, x))
  {
    LookupOrConstructFacts(st, c, last, kind, name);
    var (mid, y) := LookupOrConstruct(st, c, last, kind, name);
    x := y;
    PromoteFacts(mid, x, fl);
    st' := Promote(mid, x, fl);
    GrowsTransitive(st, mid, st');
  }

  lemma ResolveOrCreateFacts(st: State, name: string, kind: Kind, initial: Option<Id>, placeholder: bool)
    requires WF(st) && InitialOk(st, initial)
    ensures var (st', r) := ResolveOrCreate(st, name, kind, initial, placeholder);
            && WF(st') && Grows(st, st')
            && (r.Some? ==> r.value in st'.objs && (!placeholder ==> IsReal(st'.objs, r.value)))
  {
    if name != [SEPARATOR] {
      var fl := Flags(true, placeholder);
      ContextOfNameFacts(st, name, initial, fl);
      SplitNameMeaning(name);
      var (st1, parent) := ContextOfName(st, name, initial, fl);
      if parent.Some? {
        var st', x := LastFacts(st1, parent.value, SplitName(name).tail.value, kind, name, fl);
        GrowsTransitive(st, st1, st');
        assert ResolveOrCreate(st, name, kind, initial, placeholder) == (st', Some(x));
      }
    }
  }

  lemma StepPassable(st: State, c: Id, tokens: seq<string>, fl: Flags)
    requires st.next !in st.objs && IsContext(st.objs, c) && tokens != []
    requires Step(st, c, tokens[0], fl).1.Some?
    ensures var (st1, c1) := Step(st, c, tokens[0], fl);
            Passable(st.objs, c, tokens) == Passable(st1.objs, c1.value, tokens[1..])
  {
    var (st1, c1) := Step(st, c, tokens[0], fl);
    if tokens[0] in NamesOf(st.objs, c) {
      PassableIgnoresPromotion(st.objs, st1.objs, c1.value, tokens[1..]);
    } else {
      CreateFacts(st, ContextKind, tokens[0], c, tokens[0]);
      assert NamesOf(st1.objs, c1.value) == map[];
    }
  }

  /** Creation meets a NULL parent exactly when a component before the last is bound to an entity. */
  lemma {:induction false} WalkArrivesIffPassable(st: State, c: Id, tokens: seq<string>, placeholders: bool)
    requires WF(st) && IsContext(st.objs, c) && CleanTokens(tokens)
    ensures Walk(st, Some(c), tokens, Flags(true, placeholders)).1.Some? <==> Passable(st.objs, c, tokens)
    decreases |tokens|
  {
    if tokens != [] {
      var st1, c1 := StepOn(st, c, tokens, Flags(true, placeholders));
      if c1.Some? {
        WalkArrivesIffPassable(st1, c1.value, tokens[1..], placeholders);
      }
    }
  }

  lemma StepOn(st: State, c: Id, tokens: seq<string>, fl: Flags) returns (st1: State, c1: Option<Id>)
    requires WF(st) && IsContext(st.objs, c) && CleanTokens(tokens) && tokens != [] && fl.makeNamePath
    // compared with true: taken as one fact, not conjunct by conjunct
    ensures WF(st1) == true && CleanTokens(tokens[1..])
    ensures Walk(st, Some(c), tokens, fl) == Walk(st1, c1, tokens[1..], fl)
    ensures c1.Some? ==> IsContext(st1.objs, c1.value)
    ensures Passable(st.objs, c, tokens) == (c1.Some? && Passable(st1.objs, c1.value, tokens[1..]))
  {
    StepKeepsWF(st, c, tokens[0], fl);
    StepFacts(st, c, tokens[0], fl);
    st1, c1 := Step(st, c, tokens[0], fl).0, Step(st, c, tokens[0], fl).1;
    if c1.Some? {
      StepPassable(st, c, tokens, fl);
    }
  }

  lemma {:induction false} PassableIgnoresPromotion(s: Objects, t: Objects, c: Id, tokens: seq<string>)
    requires forall x :: NamesOf(s, x) == NamesOf(t, x) && IsContext(s, x) == IsContext(t, x)
    ensures Passable(s, c, tokens) == Passable(t, c, tokens)
    decreases |tokens|
  {
    if tokens != [] && tokens[0] in NamesOf(s, c) {
      PassableIgnoresPromotion(s, t, NamesOf(s, c)[tokens[0]].target, tokens[1..]);
    }
  }

  // ---------- walking in a grown graph ----------

  lemma StepSimulates(s: State, t: State, c: Id, token: string)
    requires WF(s) && WF(t) && GrowsObjects(s.objs, t.objs) && IsContext(s.objs, c)
    requires Step(s, c, token, READ).1.Some?
    ensures Step(t, c, token, READ).1 == Step(s, c, token, READ).1
    ensures GrowsObjects(Step(s, c, token, READ).0.objs, Step(t, c, token, READ).0.objs)
  {
    assert c in t.objs && GrowsObj(s.objs[c], t.objs[c]);
    var r := s.objs[c].names[token].target;
    assert r in t.objs && GrowsObj(s.objs[r], t.objs[r]);
  }

  lemma {:induction false} WalkSimulates(s: State, t: State, c: Id, tokens: seq<string>)
    requires WF(s) && WF(t) && GrowsObjects(s.objs, t.objs) && IsContext(s.objs, c)
    requires Walk(s, Some(c), tokens, READ).1.Some?
    ensures Walk(t, Some(c), tokens, READ).1 == Walk(s, Some(c), tokens, READ).1
    ensures GrowsObjects(Walk(s, Some(c), tokens, READ).0.objs, Walk(t, Some(c), tokens, READ).0.objs)
    decreases |tokens|
  {
    if tokens != [] {
      StepSimulates(s, t, c, tokens[0]);
      assert c in t.objs && GrowsObj(s.objs[c], t.objs[c]);
      StepKeepsWF(s, c, tokens[0], READ);
      StepKeepsWF(t, c, tokens[0], READ);
      StepFacts(s, c, tokens[0], READ);
      var (s1, c1) := Step(s, c, tokens[0], READ);
      WalkSimulates(s1, Step(t, c, tokens[0], READ).0, c1.value, tokens[1..]);
    }
  }

  /** Whatever a name resolved to, it still resolves to in every grown state. */
  lemma ResolveSurvivesGrowth(s: State, t: State, name: string, initial: Option<Id>)
    requires WF(s) && WF(t) && Grows(s, t) && InitialOk(s, initial)
    requires Resolve(s, name, initial).1.Some?
    ensures Resolve(t, name, initial).1 == Resolve(s, name, initial).1
  {
    var c := Start(s, initial);
    WalkSimulates(s, t, c, HeadTokens(name));
    HeadTokensClean(name);
    WalkFacts(s, c, HeadTokens(name), READ);
    var (s1, parent) := Walk(s, Some(c), HeadTokens(name), READ);
    var t1 := Walk(t, Some(c), HeadTokens(name), READ).0;
    var last := SplitName(name).tail;
    if last.Some? {
      RealStays(s1.objs, t1.objs, parent.value, last.value);
    }
  }

  /** A real object that is bound stays so where nothing is lost. */
  lemma RealStays(s: Objects, t: Objects, c: Id, n: string)
    requires GrowsObjects(s, t) && c in s && n in NamesOf(s, c) && IsReal(s, NamesOf(s, c)[n].target)
    ensures n in NamesOf(t, c) && NamesOf(t, c)[n] == NamesOf(s, c)[n] && IsReal(t, NamesOf(s, c)[n].target)
  {
    assert c in t && GrowsObj(s[c], t[c]);
    var x := NamesOf(s, c)[n].target;
    assert x in t && GrowsObj(s[x], t[x]);
  }

  /**
   Creation is conservative: whatever is created, as a placeholder or not, every name that
   resolved before, from whichever context, resolves to the same object afterwards.
   */
  lemma CreationIsConservative(st: State, name: string, kind: Kind, initial: Option<Id>, placeholder: bool,
                               other: string, from: Option<Id>)
    requires WF(st) && InitialOk(st, initial) && InitialOk(st, from)
    requires Resolve(st, other, from).1.Some?
    ensures Resolve(ResolveOrCreate(st, name, kind, initial, placeholder).0, other, from).1
        == Resolve(st, other, from).1
  {
    ResolveOrCreateFacts(st, name, kind, initial, placeholder);
    ResolveSurvivesGrowth(st, ResolveOrCreate(st, name, kind, initial, placeholder).0, other, from);
  }

  // ---------- creating, then looking ----------

  lemma {:induction false} OpenGrows(s: Objects, t: Objects, c: Id, tokens: seq<string>)
    requires GrowsObjects(s, t) && Open(s, c, tokens)
    ensures Open(t, c, tokens) && Follow(t, c, tokens) == Follow(s, c, tokens)
    decreases |tokens|
  {
    if tokens != [] {
      assert c in t && GrowsObj(s[c], t[c]);
      var r := NamesOf(s, c)[tokens[0]].target;
      assert r in t && GrowsObj(s[r], t[r]);
      OpenGrows(s, t, r, tokens[1..]);
    }
  }

  /** A walk that does not stop at placeholders leaves its whole path open. */
  lemma {:induction false} WalkOpens(st: State, c: Id, tokens: seq<string>, make: bool)
    requires WF(st) && IsContext(st.objs, c) && CleanTokens(tokens)
    requires Walk(st, Some(c), tokens, Flags(make, false)).1.Some?
    ensures var (st', r) := Walk(st, Some(c), tokens, Flags(make, false));
            Open(st'.objs, c, tokens) && Follow(st'.objs, c, tokens) == r
    decreases |tokens|
  {
    var fl := Flags(make, false);
    if tokens != [] {
      StepKeepsWF(st, c, tokens[0], fl);
      StepFacts(st, c, tokens[0], fl);
      var (st1, c1) := Step(st, c, tokens[0], fl);
      WalkOpens(st1, c1.value, tokens[1..], make);
      WalkFacts(st1, c1.value, tokens[1..], fl);
      var t := Walk(st1, c1, tokens[1..], fl).0;
      assert c in t.objs && GrowsObj(st1.objs[c], t.objs[c]);
      assert c1.value in t.objs && GrowsObj(st1.objs[c1.value], t.objs[c1.value]);
    }
  }

  /** On an open path every walk, reading or creating, is a plain lookup that changes nothing. */
  lemma {:induction false} WalkOnOpenPath(st: State, c: Id, tokens: seq<string>, fl: Flags)
    requires Open(st.objs, c, tokens)
    ensures Walk(st, Some(c), tokens, fl) == (st, Follow(st.objs, c, tokens)) && Follow(st.objs, c, tokens).Some?
    decreases |tokens|
  {
    if tokens != [] {
      WalkOnOpenPath(st, NamesOf(st.objs, c)[tokens[0]].target, tokens[1..], fl);
    }
  }

  /** What stands in the graph after a creation that is not of a placeholder. */
  lemma CreatedPathIsOpen(st: State, name: string, kind: Kind, initial: Option<Id>)
    requires WF(st) && InitialOk(st, initial) && name != [SEPARATOR]
    requires ResolveOrCreate(st, name, kind, initial, false).1.Some?
    ensures var (st', x) := ResolveOrCreate(st, name, kind, initial, false);
            var c := Start(st, initial);
            && Open(st'.objs, c, HeadTokens(name))
            && SplitName(name).tail.Some?
            && var p := Follow(st'.objs, c, HeadTokens(name));
            && p.Some? && SplitName(name).tail.value in NamesOf(st'.objs, p.value)
            && NamesOf(st'.objs, p.value)[SplitName(name).tail.value].target == x.value
            && IsReal(st'.objs, x.value)
  {
    var fl := Flags(true, false);
    var c := Start(st, initial);
    HeadTokensClean(name);
    ContextOfNameFacts(st, name, initial, fl);
    SplitNameMeaning(name);
    WalkOpens(st, c, HeadTokens(name), true);
    var (st1, parent) := ContextOfName(st, name, initial, fl);
    var last := SplitName(name).tail.value;
    LookupOrConstructFacts(st1, parent.value, last, kind, name);
    var (st2, x) := LookupOrConstruct(st1, parent.value, last, kind, name);
    PromoteFacts(st2, x, fl);
    var st3 := Promote(st2, x, fl);
    GrowsTransitive(st1, st2, st3);
    OpenGrows(st1.objs, st3.objs, c, HeadTokens(name));
    assert NamesOf(st3.objs, parent.value) == NamesOf(st2.objs, parent.value);
  }

  /**
   The name just created resolves to what was created, without changing anything more: unless
   it is "/" read from a context other than the root, which creation takes for the root and
   resolution for that context.
   */
  lemma CreatedNameResolves(st: State, name: string, kind: Kind, initial: Option<Id>)
    requires WF(st) && InitialOk(st, initial)
    requires ResolveOrCreate(st, name, kind, initial, false).1.Some?
    ensures var (st', x) := ResolveOrCreate(st, name, kind, initial, false);
            Resolve(st', name, initial) == (st', x) <==> name != [SEPARATOR] || Start(st, initial) == st.root
  {
    var (st', x) := ResolveOrCreate(st, name, kind, initial, false);
    if name != [SEPARATOR] {
      CreatedPathIsOpen(st, name, kind, initial);
      ResolveOrCreateFacts(st, name, kind, initial, false);
      assert Start(st', initial) == Start(st, initial);
      WalkOnOpenPath(st', Start(st, initial), HeadTokens(name), READ);
    } else {
      SplitNameMeaning(name);
    }
  }

  /** Creating again, as a context or an entity, as a placeholder or not, creates and changes nothing. */
  lemma RepeatedCreationDoesNothing(st: State, name: string, kind: Kind, initial: Option<Id>,
                                    again: Kind, placeholder: bool)
    requires WF(st) && InitialOk(st, initial)
    requires ResolveOrCreate(st, name, kind, initial, false).1.Some?
    ensures var (st', x) := ResolveOrCreate(st, name, kind, initial, false);
            ResolveOrCreate(st', name, again, initial, placeholder) == (st', x)
  {
    var (st', x) := ResolveOrCreate(st, name, kind, initial, false);
    if name != [SEPARATOR] {
      CreatedPathIsOpen(st, name, kind, initial);
      ResolveOrCreateFacts(st, name, kind, initial, false);
      assert Start(st', initial) == Start(st, initial);
      WalkOnOpenPath(st', Start(st, initial), HeadTokens(name), Flags(true, placeholder));
      assert ContextOfName(st', name, initial, Flags(true, placeholder)).0 == st';
    }
  }
}
