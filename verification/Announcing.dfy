/**
 What the change channel tells of contexts: a creation and a deletion event carry the full name, which is read along
 the parent chain. When that can be done, what it comes to after any growth of the graph, and that the names told
 of one context agree.
 */
module Announcing {
  import opened Wrappers
  import opened Paths
  import opened NameGraph
  import opened Resolution
  import opened ResolutionLaws
  import opened Operations

  // ---------- chains under growth ----------

  lemma {:induction false} AliveGrows(s: Objects, t: Objects, x: Id)
    requires GrowsObjects(s, t) && ChainAlive(s, x)
    ensures ChainAlive(t, x)
    decreases x
  {
    assert x in t && GrowsObj(s[x], t[x]);
    if s[x].parent.Some? {
      AliveGrows(s, t, ParentOf(s, x));
    }
  }

  /** In a state that has only grown, with new IDs for what is new, the chains of what was there are as they were. */
  lemma AliveAsBefore(s: State, t: State, x: Id)
    requires Grows(s, t) && Numbered(s, t) && x in s.objs && x < s.next
    ensures ChainAlive(t.objs, x) <==> ChainAlive(s.objs, x)
  {
    if ChainAlive(s.objs, x) {
      AliveGrows(s.objs, t.objs, x);
    }
    if ChainAlive(t.objs, x) {
      forall y | y in t.objs && y <= x
        ensures y in s.objs && SameIdentity(s.objs[y], t.objs[y])
      {
        assert GrowsObj(s.objs[y], t.objs[y]);
      }
      SameChain(s.objs, t.objs, x);
    }
  }

  /** Nothing has changed but that placeholders have become real. */
  ghost predicate OnlyPromoted(s: Objects, t: Objects) {
    && s.Keys == t.Keys
    && forall x {:trigger t[x]} {:trigger x in s} :: x in s ==>
         SameIdentity(s[x], t[x]) && t[x].names == s[x].names && (t[x].placeholder ==> s[x].placeholder)
  }

  lemma {:induction false} SameAlive(s: Objects, t: Objects, x: Id)
    requires OnlyPromoted(s, t)
    ensures ChainAlive(t, x) <==> ChainAlive(s, x)
    decreases x
  {
    if x in s && HasParent(s, x) {
      SameAlive(s, t, ParentOf(s, x));
    }
  }

  // ---------- one step ----------

  /** Promoting what can be announced makes no difference to what can be announced further on. */
  lemma {:induction false} TellableIgnoresPromotion(s: Objects, t: Objects, c: Id, tokens: seq<string>, fl: Flags)
    requires OnlyPromoted(s, t) && forall x :: x in s && s[x].placeholder != t[x].placeholder ==> Nameable(s, x)
    ensures Tellable(t, c, tokens, fl) == Tellable(s, c, tokens, fl)
    decreases |tokens|
  {
    if tokens != [] {
      SameAlive(s, t, c);
      if tokens[0] in NamesOf(s, c) {
        var x := NamesOf(s, c)[tokens[0]].target;
        SameAlive(s, t, x);
        if IsContext(s, x) {
          TellableIgnoresPromotion(s, t, x, tokens[1..], fl);
        }
      }
    }
  }

  lemma PromotedOnly(st: State, x: Id, fl: Flags)
    ensures OnlyPromoted(st.objs, Promote(st, x, fl).objs)
    ensures forall y :: y in st.objs && st.objs[y].placeholder != Promote(st, x, fl).objs[y].placeholder ==>
              y == x && st.objs[x].placeholder && !fl.makePlaceholders
  {
  }

  /** An object just created, and promoted unless placeholders are wanted: nothing is bound in it. */
  lemma NewChild(st: State, kind: Kind, last: string, c: Id, shown: string, fl: Flags) returns (t: State, x: Id)
    requires WF(st) && IsContext(st.objs, c) && last !in NamesOf(st.objs, c)
    ensures x == st.next && t == Promote(Create(st, kind, last, c, shown), x, fl)
    ensures Grows(st, t) && Numbered(st, t) && t.objs.Keys == st.objs.Keys + {x} && x !in st.objs
    ensures forall y :: y in st.objs ==> t.objs[y].placeholder == st.objs[y].placeholder
    ensures NamesOf(t.objs, x) == map[] && t.objs[x].placeholder == fl.makePlaceholders && t.objs[x].kind == kind
    ensures ChainAlive(t.objs, x) <==> ChainAlive(st.objs, c)
  {
    CreateFacts(st, kind, last, c, shown);
    t, x := Promote(Create(st, kind, last, c, shown), st.next, fl), st.next;
    assert GrowsObjects(st.objs, t.objs);
    AliveAsBefore(st, t, c);
    assert HasParent(t.objs, x) && ParentOf(t.objs, x) == c;
  }

  /** Whether a walk can be told is whether its first step can, and then the rest. */
  lemma StepThenRest(st: State, c: Id, tokens: seq<string>, fl: Flags)
    requires WF(st) && IsContext(st.objs, c) && tokens != []
    ensures var (st1, r) := Step(st, c, tokens[0], fl);
            Tellable(st.objs, c, tokens, fl) <==>
              StepTellable(st.objs, c, tokens[0], ContextKind, fl)
              && (r.Some? ==> Tellable(st1.objs, r.value, tokens[1..], fl))
  {
    var (st1, r) := Step(st, c, tokens[0], fl);
    if StepTellable(st.objs, c, tokens[0], ContextKind, fl) && r.Some? {
      if tokens[0] in NamesOf(st.objs, c) {
        PromotedOnly(st, r.value, fl);
        TellableIgnoresPromotion(st.objs, st1.objs, r.value, tokens[1..], fl);
      } else {
        var t, x := NewChild(st, ContextKind, tokens[0], c, tokens[0], fl);
      }
    }
  }

  // ---------- exactly ----------

  /** Every context that has become real can be announced: its ancestors are alive. */
  ghost predicate NewlyNameable(s: State, t: State) {
    forall x :: IsContext(t.objs, x) && IsReal(t.objs, x) && !IsReal(s.objs, x) ==> ChainAlive(t.objs, x)
  }

  lemma NewlyTransitive(s: State, t: State, u: State)
    requires Grows(s, t) && Grows(t, u) && Numbered(t, u) && forall x :: x in t.objs ==> x < t.next
    ensures NewlyNameable(s, u) <==> NewlyNameable(s, t) && NewlyNameable(t, u)
  {
    forall x | x in t.objs
      ensures x in u.objs && GrowsObj(t.objs[x], u.objs[x])
      ensures ChainAlive(u.objs, x) <==> ChainAlive(t.objs, x)
    {
      AliveAsBefore(t, u, x);
    }
    forall x | x in s.objs
      ensures x in t.objs && GrowsObj(s.objs[x], t.objs[x])
    {
    }
  }

  lemma PromotionIsNameable(st: State, x: Id, fl: Flags)
    requires x in st.objs
    ensures Promotable(st.objs, x, fl) <==> NewlyNameable(st, Promote(st, x, fl))
  {
    var t := Promote(st, x, fl);
    PromotedOnly(st, x, fl);
    forall y
      ensures ChainAlive(t.objs, y) <==> ChainAlive(st.objs, y)
    {
      SameAlive(st.objs, t.objs, y);
    }
    if !Promotable(st.objs, x, fl) {
      assert IsContext(t.objs, x) && IsReal(t.objs, x) && !IsReal(st.objs, x);
    }
  }

  /** The last component, or one on the way: found and promoted, or created. */
  lemma LastIsNameable(st: State, c: Id, last: string, kind: Kind, name: string, fl: Flags)
    requires WF(st) && IsContext(st.objs, c) && fl.makeNamePath
    ensures var (mid, x) := LookupOrConstruct(st, c, last, kind, name);
            StepTellable(st.objs, c, last, kind, fl) <==> NewlyNameable(st, Promote(mid, x, fl))
  {
    if last in NamesOf(st.objs, c) {
      BoundObject(st, c, last);
      PromotionIsNameable(st, NamesOf(st.objs, c)[last].target, fl);
    } else {
      var t, x := NewChild(st, kind, last, c, name, fl);
      if kind == ContextKind && !fl.makePlaceholders {
        assert IsContext(t.objs, x) && IsReal(t.objs, x) && !IsReal(st.objs, x);
      }
    }
  }

  lemma StepIsNameable(st: State, c: Id, token: string, fl: Flags)
    requires WF(st) && IsContext(st.objs, c)
    ensures StepTellable(st.objs, c, token, ContextKind, fl) <==> NewlyNameable(st, Step(st, c, token, fl).0)
  {
    if token in NamesOf(st.objs, c) {
      BoundObject(st, c, token);
      PromotionIsNameable(st, NamesOf(st.objs, c)[token].target, fl);
    } else if fl.makeNamePath {
      LastIsNameable(st, c, token, ContextKind, token, fl);
    }
  }

  /** Exactly: a walk can be announced if and only if every context it makes real has live ancestors. */
  lemma {:induction false} TellableIffNameable(st: State, c: Id, tokens: seq<string>, fl: Flags)
    requires WF(st) && IsContext(st.objs, c) && CleanTokens(tokens)
    ensures Tellable(st.objs, c, tokens, fl) <==> NewlyNameable(st, Walk(st, Some(c), tokens, fl).0)
    decreases |tokens|
  {
    if tokens != [] {
      StepThenRest(st, c, tokens, fl);
      StepIsNameable(st, c, tokens[0], fl);
      StepKeepsWF(st, c, tokens[0], fl);
      StepFacts(st, c, tokens[0], fl);
      var (st1, r) := Step(st, c, tokens[0], fl);
      if r.Some? {
        RestIsLater(st1, r.value, tokens[1..], fl);
        TellableIffNameable(st1, r.value, tokens[1..], fl);
        NewlyTransitive(st, st1, Walk(st1, r, tokens[1..], fl).0);
      }
    }
  }

  lemma RestIsLater(st: State, c: Id, tokens: seq<string>, fl: Flags)
    requires WF(st) && IsContext(st.objs, c) && CleanTokens(tokens)
    ensures var t := Walk(st, Some(c), tokens, fl).0; Grows(st, t) && Numbered(st, t)
  {
    WalkFacts(st, c, tokens, fl);
    WalkNumbers(st, st, c, tokens, fl);
  }

  /** A walk ends where the graph leads, having promoted at most; or at a context it has created. */
  lemma {:induction false} WalkEnds(st: State, c: Id, tokens: seq<string>, fl: Flags)
    requires WF(st) && IsContext(st.objs, c) && CleanTokens(tokens)
    ensures var (t, r) := Walk(st, Some(c), tokens, fl);
            if Follow(st.objs, c, tokens).Some? then r == Follow(st.objs, c, tokens) && OnlyPromoted(st.objs, t.objs)
            else r.Some? ==> IsNew(st.objs, t.objs, r.value, fl)
    decreases |tokens|
  {
    if tokens != [] {
      var (st1, r) := Step(st, c, tokens[0], fl);
      StepKeepsWF(st, c, tokens[0], fl);
      StepFacts(st, c, tokens[0], fl);
      if r.Some? {
        WalkEnds(st1, r.value, tokens[1..], fl);
        if tokens[0] in NamesOf(st.objs, c) {
          PromotedOnly(st, r.value, fl);
          FollowIgnoresPromotion(st.objs, st1.objs, r.value, tokens[1..]);
        } else {
          CreatedEnds(st, c, tokens, fl);
        }
      }
    }
  }

  /** From a context just created a path leads on only to contexts created after it. */
  lemma CreatedEnds(st: State, c: Id, tokens: seq<string>, fl: Flags)
    requires WF(st) && IsContext(st.objs, c) && tokens != [] && tokens[0] !in NamesOf(st.objs, c) && fl.makeNamePath
    ensures var (st1, x) := Step(st, c, tokens[0], fl);
            && x.Some? && IsNew(st.objs, st1.objs, x.value, fl) && Follow(st.objs, c, tokens).None?
            && (Follow(st1.objs, x.value, tokens[1..]).Some? ==> tokens[1..] == [])
            && forall y :: y in st.objs ==> y in st1.objs
  {
    var t, x := NewChild(st, ContextKind, tokens[0], c, tokens[0], fl);
  }

  /** A context without names that was not there before. */
  ghost predicate IsNew(s: Objects, t: Objects, x: Id, fl: Flags) {
    x !in s && IsContext(t, x) && t[x].names == map[] && t[x].placeholder == fl.makePlaceholders
  }

  lemma {:induction false} FollowIgnoresPromotion(s: Objects, t: Objects, c: Id, tokens: seq<string>)
    requires OnlyPromoted(s, t)
    ensures Follow(t, c, tokens) == Follow(s, c, tokens)
    decreases |tokens|
  {
    if tokens != [] && tokens[0] in NamesOf(s, c) && IsContext(s, NamesOf(s, c)[tokens[0]].target) {
      FollowIgnoresPromotion(s, t, NamesOf(s, c)[tokens[0]].target, tokens[1..]);
    }
  }

  lemma SameStepTellable(s: Objects, t: Objects, c: Id, last: string, kind: Kind, fl: Flags)
    requires OnlyPromoted(s, t) && forall x :: x in s && s[x].placeholder != t[x].placeholder ==> Nameable(s, x)
    ensures StepTellable(t, c, last, kind, fl) == StepTellable(s, c, last, kind, fl)
  {
    SameAlive(s, t, c);
    if last in NamesOf(s, c) {
      SameAlive(s, t, NamesOf(s, c)[last].target);
    }
  }

  /** A creation whose walk can be announced: whether the last component can is the same before and after the walk. */
  lemma LastIsTellable(st: State, c: Id, name: string, kind: Kind, fl: Flags)
    requires WF(st) && IsContext(st.objs, c) && Tellable(st.objs, c, HeadTokens(name), fl)
    requires Walk(st, Some(c), HeadTokens(name), fl).1.Some? && SplitName(name).tail.Some? && fl.makeNamePath
    ensures var (st1, parent) := Walk(st, Some(c), HeadTokens(name), fl);
            CreationTellable(st.objs, c, name, kind, fl) <==>
              StepTellable(st1.objs, parent.value, SplitName(name).tail.value, kind, fl)
  {
    var (st1, parent) := Walk(st, Some(c), HeadTokens(name), fl);
    HeadTokensClean(name);
    WalkEnds(st, c, HeadTokens(name), fl);
    TellableIffNameable(st, c, HeadTokens(name), fl);
    if Follow(st.objs, c, HeadTokens(name)).Some? {
      forall x | x in st.objs && st.objs[x].placeholder != st1.objs[x].placeholder
        ensures Nameable(st.objs, x)
      {
        SameAlive(st.objs, st1.objs, x);
      }
      SameStepTellable(st.objs, st1.objs, parent.value, SplitName(name).tail.value, kind, fl);
    }
  }

  lemma LastIsLater(st: State, c: Id, last: string, kind: Kind, name: string, fl: Flags)
    requires WF(st) && IsContext(st.objs, c) && (last == "" || LastName(last))
    ensures var (mid, x) := LookupOrConstruct(st, c, last, kind, name);
            Grows(st, Promote(mid, x, fl)) && Numbered(st, Promote(mid, x, fl))
  {
    var t, x := LastFacts(st, c, last, kind, name, fl);
    LookupNumbers(st, st, c, last, kind, name);
  }

  /** What the walk of a creation comes to. */
  lemma WalkOfCreation(st: State, c: Id, tokens: seq<string>, fl: Flags) returns (st1: State, parent: Option<Id>)
    requires WF(st) && IsContext(st.objs, c) && CleanTokens(tokens)
    ensures (st1, parent) == Walk(st, Some(c), tokens, fl) && (parent.None? ==> Follow(st.objs, c, tokens).None?)
    // compared with true: each taken as one fact, not conjunct by conjunct
    ensures WF(st1) == true && Grows(st, st1) == true && (parent.Some? ==> IsContext(st1.objs, parent.value))
    ensures Tellable(st.objs, c, tokens, fl) == NewlyNameable(st, st1)
  {
    WalkFacts(st, c, tokens, fl);
    WalkEnds(st, c, tokens, fl);
    TellableIffNameable(st, c, tokens, fl);
    st1, parent := Walk(st, Some(c), tokens, fl).0, Walk(st, Some(c), tokens, fl).1;
  }

  /** What creating a name with a last component leaves. */
  function AfterCreation(st: State, c: Id, name: string, kind: Kind, fl: Flags): State
    requires SplitName(name).tail.Some?
  {
    var (st1, parent) := Walk(st, Some(c), HeadTokens(name), fl);
    if parent.None? then st1
    else
      var (mid, x) := LookupOrConstruct(st1, parent.value, SplitName(name).tail.value, kind, name);
      Promote(mid, x, fl)
  }

  lemma CreationLeaves(st: State, name: string, kind: Kind, initial: Option<Id>, placeholder: bool)
    requires name != [SEPARATOR] && SplitName(name).tail.Some?
    ensures ResolveOrCreate(st, name, kind, initial, placeholder).0
         == AfterCreation(st, Start(st, initial), name, kind, Flags(true, placeholder))
  {
  }

  lemma CreationIffNameable(st: State, c: Id, name: string, kind: Kind, fl: Flags)
    requires WF(st) && IsContext(st.objs, c) && fl.makeNamePath && SplitName(name).tail.Some?
    requires SplitName(name).tail.value == "" || LastName(SplitName(name).tail.value)
    ensures CreationTellable(st.objs, c, name, kind, fl) <==> NewlyNameable(st, AfterCreation(st, c, name, kind, fl))
  {
    HeadTokensClean(name);
    var st1, parent := WalkOfCreation(st, c, HeadTokens(name), fl);
    if parent.Some? {
      LastThenAll(st, st1, parent.value, SplitName(name).tail.value, kind, name, fl);
      if Tellable(st.objs, c, HeadTokens(name), fl) {
        LastIsTellable(st, c, name, kind, fl);
      }
    }
  }

  /** Exactly: a creation can be announced if and only if every context it makes real has live ancestors. */
  lemma AnnounceableIffNameable(st: State, name: string, kind: Kind, initial: Option<Id>, placeholder: bool)
    requires WF(st) && InitialOk(st, initial)
    ensures Announceable(st, name, kind, initial, placeholder) <==>
              NewlyNameable(st, ResolveOrCreate(st, name, kind, initial, placeholder).0)
  {
    if name != [SEPARATOR] {
      SplitNameMeaning(name);
      CreationLeaves(st, name, kind, initial, placeholder);
      CreationIffNameable(st, Start(st, initial), name, kind, Flags(true, placeholder));
    }
  }

  /** A walk and the last component. */
  lemma LastThenAll(st: State, st1: State, c: Id, last: string, kind: Kind, name: string, fl: Flags)
    requires WF(st1) && IsContext(st1.objs, c) && Grows(st, st1) && fl.makeNamePath && (last == "" || LastName(last))
    ensures var (mid, x) := LookupOrConstruct(st1, c, last, kind, name);
            NewlyNameable(st, Promote(mid, x, fl)) <==>
              NewlyNameable(st, st1) && StepTellable(st1.objs, c, last, kind, fl)
  {
    LastIsLater(st1, c, last, kind, name, fl);
    LastIsNameable(st1, c, last, kind, name, fl);
    var (mid, x) := LookupOrConstruct(st1, c, last, kind, name);
    NewlyTransitive(st, st1, Promote(mid, x, fl));
  }

  /** The same of a name that is looked up. */
  lemma ReadableIffNameable(st: State, name: string, initial: Option<Id>)
    requires WF(st) && InitialOk(st, initial)
    ensures Readable(st, name, initial) <==> NewlyNameable(st, Resolve(st, name, initial).0)
  {
    HeadTokensClean(name);
    TellableIffNameable(st, Start(st, initial), HeadTokens(name), READ);
  }

  // ---------- where nothing has been deleted ----------

  ghost predicate AllAlive(objs: Objects) {
    forall x :: x in objs ==> ChainAlive(objs, x)
  }

  lemma LaterAllAlive(s: State, t: State, c: Id, x: Id)
    requires AllAlive(s.objs) && Grows(s, t) && t.objs.Keys == s.objs.Keys + {x}
    requires c in s.objs && ChainAlive(t.objs, x) == ChainAlive(s.objs, c)
    ensures AllAlive(t.objs)
  {
    forall y | y in t.objs
      ensures ChainAlive(t.objs, y)
    {
      if y in s.objs {
        AliveGrows(s.objs, t.objs, y);
      }
    }
  }

  lemma LastKeepsAllAlive(st: State, c: Id, last: string, kind: Kind, name: string, fl: Flags)
    requires WF(st) && IsContext(st.objs, c) && AllAlive(st.objs)
    ensures var (mid, x) := LookupOrConstruct(st, c, last, kind, name); AllAlive(Promote(mid, x, fl).objs)
  {
    if last in NamesOf(st.objs, c) {
      PromotionKeepsAllAlive(st, NamesOf(st.objs, c)[last].target, fl);
    } else {
      var t, x := NewChild(st, kind, last, c, name, fl);
      LaterAllAlive(st, t, c, x);
    }
  }

  lemma PromotionKeepsAllAlive(st: State, x: Id, fl: Flags)
    requires AllAlive(st.objs)
    ensures AllAlive(Promote(st, x, fl).objs)
  {
    PromotedOnly(st, x, fl);
    forall y | y in st.objs
      ensures ChainAlive(Promote(st, x, fl).objs, y)
    {
      SameAlive(st.objs, Promote(st, x, fl).objs, y);
    }
  }

  lemma {:induction false} WalkKeepsAllAlive(st: State, c: Id, tokens: seq<string>, fl: Flags)
    requires WF(st) && IsContext(st.objs, c) && CleanTokens(tokens) && AllAlive(st.objs)
    ensures AllAlive(Walk(st, Some(c), tokens, fl).0.objs)
    decreases |tokens|
  {
    if tokens != [] {
      StepKeepsWF(st, c, tokens[0], fl);
      StepFacts(st, c, tokens[0], fl);
      if tokens[0] in NamesOf(st.objs, c) || fl.makeNamePath {
        LastKeepsAllAlive(st, c, tokens[0], ContextKind, tokens[0], fl);
      }
      var (st1, r) := Step(st, c, tokens[0], fl);
      if r.Some? {
        WalkKeepsAllAlive(st1, r.value, tokens[1..], fl);
      }
    }
  }

  lemma CreationKeepsAllAlive(st: State, name: string, kind: Kind, initial: Option<Id>, placeholder: bool)
    requires WF(st) && InitialOk(st, initial) && AllAlive(st.objs)
    ensures AllAlive(ResolveOrCreate(st, name, kind, initial, placeholder).0.objs)
  {
    var fl := Flags(true, placeholder);
    HeadTokensClean(name);
    WalkKeepsAllAlive(st, Start(st, initial), HeadTokens(name), fl);
    ContextOfNameFacts(st, name, initial, fl);
    SplitNameMeaning(name);
    var (st1, parent) := ContextOfName(st, name, initial, fl);
    if name != [SEPARATOR] && parent.Some? {
      LastKeepsAllAlive(st1, parent.value, SplitName(name).tail.value, kind, name, fl);
    }
  }

  /** Where every object's ancestors are alive, every creation can be announced. */
  lemma AllAliveIsAnnounceable(st: State, name: string, kind: Kind, initial: Option<Id>, placeholder: bool)
    requires WF(st) && InitialOk(st, initial) && AllAlive(st.objs)
    ensures Announceable(st, name, kind, initial, placeholder)
  {
    CreationKeepsAllAlive(st, name, kind, initial, placeholder);
    AnnounceableIffNameable(st, name, kind, initial, placeholder);
  }

  // ---------- one name per context ----------

  lemma {:induction false} OneCreation(log: seq<Event>, x: Id, d: Event, e: Event)
    requires CreatedCount(log, x) <= 1 && d in log && e in log && CreationOf(d, x) && CreationOf(e, x)
    ensures d == e
    decreases |log|
  {
    var front, last := log[..|log| - 1], log[|log| - 1];
    assert log == front + [last];
    if d in front && e in front {
      OneCreation(front, x, d, e);
    } else if d in front {
      CreationCounts(front, x, d);
    } else if e in front {
      CreationCounts(front, x, e);
    }
  }

  lemma {:induction false} CreationCounts(log: seq<Event>, x: Id, e: Event)
    requires e in log && CreationOf(e, x)
    ensures CreatedCount(log, x) > 0
    decreases |log|
  {
    assert log == log[..|log| - 1] + [log[|log| - 1]];
    if e != log[|log| - 1] {
      CreationCounts(log[..|log| - 1], x, e);
    }
  }

  /**
   Over any run: a real object that is deleted while its name can be read is deleted under the name it was announced
   under, whatever has been linked, unbound, created and deleted between the two.
   */
  lemma DeletedUnderItsName(st: State, ops: seq<Op>, x: Id)
    requires WF(st) && Runnable(st, ops) && IsReal(Run(st, ops).objs, x) && Enabled(Run(st, ops), Delete(x))
    ensures var before, after := Run(st, ops), Apply(Run(st, ops), Delete(x));
            && CreatedCount(before.log, x) == 1
            && exists name :: Created(x, name) in before.log && after.log == before.log + [Deleted(x, name)]
  {
    RunKeepsWF(st, ops);
    var before := Run(st, ops);
    assert ToldAt(before, x);
    assert Created(x, ToldName(before.objs, x)) in before.log;
  }

  /** Over any run: whenever the name of a real object can be read, it is the one name it was announced under. */
  lemma NameIsForGood(st: State, ops: seq<Op>, x: Id)
    requires WF(st) && Runnable(st, ops)
    requires IsReal(st.objs, x) && Nameable(st.objs, x)
    requires x in Run(st, ops).objs && Nameable(Run(st, ops).objs, x)
    ensures ToldName(Run(st, ops).objs, x) == ToldName(st.objs, x)
    ensures forall e :: e in Run(st, ops).log && CreationOf(e, x) ==> e == Created(x, ToldName(st.objs, x))
  {
    RunKeepsWF(st, ops);
    var t := Run(st, ops);
    assert EvolvesObj(st.objs[x], t.objs[x]);
    assert ToldAt(st, x) && ToldAt(t, x);
    var d := Created(x, ToldName(st.objs, x));
    assert d in t.log;
    forall e | e in t.log && CreationOf(e, x)
      ensures e == d
    {
      OneCreation(t.log, x, d, e);
    }
  }
}
