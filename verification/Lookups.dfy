/**
 What a name does to a domain, told of the graph alone: where it leads, which contexts looking it up makes real, and
 what creating it adds.
 */
module Lookups {
  import opened Wrappers
  import opened Paths
  import opened NameGraph
  import opened Resolution
  import opened ResolutionLaws
  import opened NamingLaws
  import Announcing

  // ---------- looking up ----------

  /** A context that the walk goes into, the last one included. */
  ghost predicate OnTheWay(objs: Objects, c: Id, tokens: seq<string>, x: Id) {
    exists k :: 0 < k <= |tokens| && Follow(objs, c, tokens[..k]) == Some(x)
  }

  /** An object that a walk along these components makes real. */
  ghost predicate Passed(objs: Objects, c: Id, tokens: seq<string>, x: Id) {
    OnTheWay(objs, c, tokens, x) && x in objs && objs[x].placeholder
  }

  /** The objects are what they were, but for the placeholders on the way: they are real and have attributes. */
  ghost predicate RealOnTheWay(s: Objects, t: Objects, c: Id, tokens: seq<string>) {
    && t.Keys == s.Keys
    && forall x :: x in s ==>
         t[x] == if Passed(s, c, tokens, x) then s[x].(placeholder := false, hasAttributes := true) else s[x]
  }

  /** Nothing is sent but creation events of those. */
  ghost predicate AnnouncedOnTheWay(s: State, t: State, c: Id, tokens: seq<string>) {
    && s.log <= t.log
    && forall e :: e in t.log[|s.log|..] ==>
         e.Created? && Passed(s.objs, c, tokens, e.id) && e.fullName == Some(FullName(s.objs, e.id))
  }

  lemma WayBegins(objs: Objects, c: Id, tokens: seq<string>, x: Id)
    requires tokens != []
    ensures OnTheWay(objs, c, tokens, x) <==>
              && tokens[0] in NamesOf(objs, c) && IsContext(objs, NamesOf(objs, c)[tokens[0]].target)
              && var t := NamesOf(objs, c)[tokens[0]].target; x == t || OnTheWay(objs, t, tokens[1..], x)
  {
    if tokens[0] in NamesOf(objs, c) && IsContext(objs, NamesOf(objs, c)[tokens[0]].target) {
      var t := NamesOf(objs, c)[tokens[0]].target;
      forall k | 0 < k <= |tokens|
        ensures Follow(objs, c, tokens[..k]) == Follow(objs, t, tokens[1..][..k - 1])
      {
        assert tokens[..k][1..] == tokens[1..][..k - 1];
      }
      assert Follow(objs, t, tokens[1..][..0]) == Some(t);
      if OnTheWay(objs, t, tokens[1..], x) {
        var k :| 0 < k <= |tokens[1..]| && Follow(objs, t, tokens[1..][..k]) == Some(x);
        assert Follow(objs, c, tokens[..k + 1]) == Some(x);
      }
      if x == t {
        assert Follow(objs, c, tokens[..1]) == Some(x);
      }
    }
  }

  lemma SameWay(s: Objects, t: Objects, c: Id, tokens: seq<string>, x: Id)
    requires SameNames(s, t)
    ensures OnTheWay(s, c, tokens, x) == OnTheWay(t, c, tokens, x)
  {
    forall k | 0 < k <= |tokens|
      ensures Follow(s, c, tokens[..k]) == Follow(t, c, tokens[..k])
    {
      FollowIgnoresPromotion(s, t, c, tokens[..k]);
    }
  }

  lemma {:induction false} SameFullName(s: Objects, t: Objects, x: Id)
    requires x in s && s.Keys == t.Keys && forall y :: y in s ==> t[y].parent == s[y].parent && t[y].name == s[y].name
    ensures FullName(s, x) == FullName(t, x) && HeadName(s, x) == HeadName(t, x)
    decreases x
  {
    if HasParent(s, x) {
      SameFullName(s, t, ParentOf(s, x));
    }
  }

  /** Looking along a path makes exactly the placeholders on the way real, and changes nothing else. */
  lemma {:induction false} LookupPromotes(st: State, c: Id, tokens: seq<string>)
    ensures var (t, r) := Walk(st, Some(c), tokens, READ);
            && r == Follow(st.objs, c, tokens) && t.root == st.root && t.next == st.next
            && RealOnTheWay(st.objs, t.objs, c, tokens) && AnnouncedOnTheWay(st, t, c, tokens)
    decreases |tokens|
  {
    WalkReads(st, c, tokens);
    if tokens != [] {
      forall x ensures OnTheWay(st.objs, c, tokens, x) <==>
              && tokens[0] in NamesOf(st.objs, c) && IsContext(st.objs, NamesOf(st.objs, c)[tokens[0]].target)
              && var t := NamesOf(st.objs, c)[tokens[0]].target; x == t || OnTheWay(st.objs, t, tokens[1..], x)
      {
        WayBegins(st.objs, c, tokens, x);
      }
      var (st1, c1) := Step(st, c, tokens[0], READ);
      if c1.Some? {
        LookupPromotes(st1, c1.value, tokens[1..]);
        FirstThenRest(st, st1, c, tokens, Walk(st1, c1, tokens[1..], READ).0);
      }
    }
  }

  lemma PassedFirst(s: State, mid: State, c: Id, tokens: seq<string>, x: Id)
    requires tokens != [] && tokens[0] in NamesOf(s.objs, c)
    requires var d := NamesOf(s.objs, c)[tokens[0]].target; IsContext(s.objs, d) && mid == Promote(s, d, READ)
    ensures var d := NamesOf(s.objs, c)[tokens[0]].target;
            Passed(s.objs, c, tokens, x) <==>
              Passed(mid.objs, d, tokens[1..], x) || (x == d && s.objs[d].placeholder)
  {
    var d := NamesOf(s.objs, c)[tokens[0]].target;
    assert SameNames(s.objs, mid.objs);
    WayBegins(s.objs, c, tokens, x);
    SameWay(s.objs, mid.objs, d, tokens[1..], x);
  }

  lemma FirstThenRest(s: State, mid: State, c: Id, tokens: seq<string>, t: State)
    requires tokens != [] && tokens[0] in NamesOf(s.objs, c)
    requires var d := NamesOf(s.objs, c)[tokens[0]].target;
             && IsContext(s.objs, d) && mid == Promote(s, d, READ)
             && RealOnTheWay(mid.objs, t.objs, d, tokens[1..]) && AnnouncedOnTheWay(mid, t, d, tokens[1..])
    ensures RealOnTheWay(s.objs, t.objs, c, tokens) && AnnouncedOnTheWay(s, t, c, tokens)
  {
    forall x | x in s.objs
      ensures t.objs[x] == if Passed(s.objs, c, tokens, x) then s.objs[x].(placeholder := false, hasAttributes := true)
                           else s.objs[x]
    {
      PassedFirst(s, mid, c, tokens, x);
    }
    FirstIsAnnounced(s, mid, c, tokens, t);
  }

  lemma FirstIsAnnounced(s: State, mid: State, c: Id, tokens: seq<string>, t: State)
    requires tokens != [] && tokens[0] in NamesOf(s.objs, c)
    requires var d := NamesOf(s.objs, c)[tokens[0]].target;
             IsContext(s.objs, d) && mid == Promote(s, d, READ) && AnnouncedOnTheWay(mid, t, d, tokens[1..])
    ensures AnnouncedOnTheWay(s, t, c, tokens)
  {
    var d := NamesOf(s.objs, c)[tokens[0]].target;
    var first := mid.log[|s.log|..];
    assert t.log[|s.log|..] == first + t.log[|mid.log|..];
    forall e | e in t.log[|s.log|..]
      ensures e.Created? && Passed(s.objs, c, tokens, e.id) && e.fullName == Some(FullName(s.objs, e.id))
    {
      if e in t.log[|mid.log|..] {
        SameFullName(s.objs, mid.objs, e.id);
      } else {
        FirstAnnounced(s, mid, d, e);
      }
      PassedFirst(s, mid, c, tokens, e.id);
    }
  }

  lemma FirstAnnounced(s: State, mid: State, d: Id, e: Event)
    requires IsContext(s.objs, d) && mid == Promote(s, d, READ) && e in mid.log[|s.log|..]
    ensures s.objs[d].placeholder && e == Created(d, Some(FullName(s.objs, d)))
  {
  }

  /**
   What a name resolves to: its components but the last lead to a context, in which the last one is bound to an object
   that is real, or that the lookup has made so on the way there. "/" is the context where resolution starts.
   */
  lemma ResolveFollows(st: State, name: string, initial: Option<Id>, front: seq<string>, last: string)
    requires Components(name) == front + [last]
    ensures var (t, r) := Resolve(st, name, initial);
            var c := Start(st, initial);
            var q := Follow(st.objs, c, front);
            && t.root == st.root && t.next == st.next
            && RealOnTheWay(st.objs, t.objs, c, front) && AnnouncedOnTheWay(st, t, c, front)
            && (r.Some? <==> && q.Some? && last in NamesOf(st.objs, q.value)
                             && var x := NamesOf(st.objs, q.value)[last].target;
                                IsReal(st.objs, x) || Passed(st.objs, c, front, x))
            && (r.Some? ==> r.value == NamesOf(st.objs, q.value)[last].target)
  {
    ResolveByComponents(st, name, initial);
    assert (front + [last])[..|front + [last]| - 1] == front;
    LookupPromotes(st, Start(st, initial), front);
    WalkReads(st, Start(st, initial), front);
  }

  lemma ResolveSeparator(st: State, initial: Option<Id>)
    ensures Resolve(st, "/", initial) == (st, Some(if initial.Some? then initial.value else st.root))
  {
    SplitNameMeaning("/");
  }

  // ---------- creating ----------

  /** Of an object that was there: it may become real and bind new objects, and nothing else about it changes. */
  ghost predicate AddsTo(o: Obj, p: Obj, next: Id, placeholders: bool) {
    && GrowsObj(o, p) && p.referrers == o.referrers && p.charData == o.charData
    && (placeholders ==> p.placeholder == o.placeholder)
    && (forall n :: n in p.names ==> n in o.names || p.names[n].target >= next)
  }

  /** Nothing is lost, and what was there binds new objects at most; creating placeholders makes nothing real. */
  ghost predicate AddsOnly(s: State, t: State, placeholders: bool) {
    && t.root == s.root && s.log <= t.log && s.next <= t.next
    && (forall x :: x in s.objs ==> x in t.objs && AddsTo(s.objs[x], t.objs[x], s.next, placeholders))
    && (forall x :: x in t.objs ==> x in s.objs || x >= s.next)
  }

  lemma AddsTransitive(s: State, t: State, u: State, placeholders: bool)
    requires AddsOnly(s, t, placeholders) && AddsOnly(t, u, placeholders)
    ensures AddsOnly(s, u, placeholders)
  {
    forall x | x in s.objs
      ensures x in u.objs && AddsTo(s.objs[x], u.objs[x], s.next, placeholders)
    {
      assert x in t.objs && AddsTo(s.objs[x], t.objs[x], s.next, placeholders);
      assert AddsTo(t.objs[x], u.objs[x], t.next, placeholders);
    }
  }

  lemma CreateAdds(st: State, kind: Kind, name: string, c: Id, shown: string, placeholders: bool)
    requires st.next !in st.objs && c in st.objs && name !in NamesOf(st.objs, c)
    ensures AddsOnly(st, Create(st, kind, name, c, shown), placeholders)
  {
    CreateFacts(st, kind, name, c, shown);
  }

  lemma PromoteAdds(st: State, x: Id, make: bool, placeholders: bool)
    ensures AddsOnly(st, Promote(st, x, Flags(make, placeholders)), placeholders)
  {
  }

  lemma StepAdds(st: State, c: Id, token: string, placeholders: bool)
    requires st.next !in st.objs && c in st.objs
    ensures AddsOnly(st, Step(st, c, token, Flags(true, placeholders)).0, placeholders)
  {
    if token in NamesOf(st.objs, c) {
      PromoteAdds(st, NamesOf(st.objs, c)[token].target, true, placeholders);
    } else {
      CreateAdds(st, ContextKind, token, c, token, placeholders);
      PromoteAdds(Create(st, ContextKind, token, c, token), st.next, true, placeholders);
      AddsTransitive(st, Create(st, ContextKind, token, c, token),
                     Step(st, c, token, Flags(true, placeholders)).0, placeholders);
    }
  }

  lemma StepOnAdds(st: State, c: Id, tokens: seq<string>, placeholders: bool) returns (st1: State, c1: Option<Id>)
    requires WF(st) && IsContext(st.objs, c) && CleanTokens(tokens) && tokens != []
    ensures (st1, c1) == Step(st, c, tokens[0], Flags(true, placeholders)) && AddsOnly(st, st1, placeholders)
    // compared with true: taken as one fact, not conjunct by conjunct
    ensures WF(st1) == true && CleanTokens(tokens[1..]) && (c1.Some? ==> IsContext(st1.objs, c1.value))
  {
    var fl := Flags(true, placeholders);
    StepAdds(st, c, tokens[0], placeholders);
    StepKeepsWF(st, c, tokens[0], fl);
    StepFacts(st, c, tokens[0], fl);
    st1, c1 := Step(st, c, tokens[0], fl).0, Step(st, c, tokens[0], fl).1;
  }

  lemma {:induction false} WalkAdds(st: State, c: Id, tokens: seq<string>, placeholders: bool)
    requires WF(st) && IsContext(st.objs, c) && CleanTokens(tokens)
    ensures AddsOnly(st, Walk(st, Some(c), tokens, Flags(true, placeholders)).0, placeholders)
    decreases |tokens|
  {
    if tokens != [] {
      var st1, c1 := StepOnAdds(st, c, tokens, placeholders);
      if c1.Some? {
        WalkAdds(st1, c1.value, tokens[1..], placeholders);
        AddsTransitive(st, st1, Walk(st1, c1, tokens[1..], Flags(true, placeholders)).0, placeholders);
      }
    }
  }

  lemma LastAdds(st: State, c: Id, last: string, kind: Kind, name: string, placeholders: bool)
    requires st.next !in st.objs && c in st.objs
    ensures var (st1, x) := LookupOrConstruct(st, c, last, kind, name);
            AddsOnly(st, Promote(st1, x, Flags(true, placeholders)), placeholders)
  {
    var (st1, x) := LookupOrConstruct(st, c, last, kind, name);
    PromoteAdds(st1, x, true, placeholders);
    if last !in NamesOf(st.objs, c) {
      CreateAdds(st, kind, last, c, name, placeholders);
      AddsTransitive(st, st1, Promote(st1, x, Flags(true, placeholders)), placeholders);
    }
  }

  /** A creation adds objects, binds them, and makes placeholders on the way real, and that is all it does. */
  lemma CreationAddsOnly(st: State, name: string, kind: Kind, initial: Option<Id>, placeholder: bool)
    requires WF(st) && InitialOk(st, initial)
    ensures AddsOnly(st, ResolveOrCreate(st, name, kind, initial, placeholder).0, placeholder)
  {
    var st1, parent := WayOfCreation(st, name, initial, placeholder);
    SplitNameMeaning(name);
    if name != [SEPARATOR] && parent.Some? {
      LastAdds(st1, parent.value, SplitName(name).tail.value, kind, name, placeholder);
      AddsTransitive(st, st1, ResolveOrCreate(st, name, kind, initial, placeholder).0, placeholder);
    }
  }

  lemma WayOfCreation(st: State, name: string, initial: Option<Id>, placeholder: bool)
    returns (st1: State, parent: Option<Id>)
    requires WF(st) && InitialOk(st, initial)
    ensures (st1, parent) == ContextOfName(st, name, initial, Flags(true, placeholder))
    ensures AddsOnly(st, st1, placeholder) && st1.next !in st1.objs && (parent.Some? ==> parent.value in st1.objs)
  {
    var fl := Flags(true, placeholder);
    WalkAdds(st, Start(st, initial), HeadTokens(name), placeholder);
    ContextOfNameFacts(st, name, initial, fl);
    st1, parent := ContextOfName(st, name, initial, fl).0, ContextOfName(st, name, initial, fl).1;
  }

  /** An object as creation leaves it: its parent counts twice, for being that and for binding it. */
  ghost predicate IsNew(o: Obj, kind: Kind, name: string, parent: Id, placeholder: bool) {
    && o.kind == kind && o.name == name && o.parent == Some(parent) && o.referrers == [parent, parent]
    && o.placeholder == placeholder && o.charData == None
  }

  /** What has been made of the `k`-th component: where it was not bound, a new context. */
  ghost predicate MadeAt(s: State, t: State, c: Id, tokens: seq<string>, k: nat, placeholder: bool)
    requires k < |tokens|
  {
    var p, x := Follow(t.objs, c, tokens[..k]), Follow(t.objs, c, tokens[..k + 1]);
    && p.Some? && x.Some? && Bound(t.objs, p.value, tokens[k], x.value)
    && (tokens[k] !in NamesOf(s.objs, p.value) ==>
          && x.value !in s.objs && IsNew(t.objs[x.value], ContextKind, tokens[k], p.value, placeholder)
          && BoundIn(p.value, tokens[k]) in t.log)
  }

  ghost predicate Bound(objs: Objects, c: Id, name: string, x: Id) {
    x in objs && name in NamesOf(objs, c) && NamesOf(objs, c)[name].target == x
  }

  ghost predicate PathIsMade(s: State, t: State, c: Id, tokens: seq<string>, placeholder: bool) {
    forall k :: 0 <= k < |tokens| ==> MadeAt(s, t, c, tokens, k, placeholder)
  }

  lemma FollowFirst(objs: Objects, c: Id, tokens: seq<string>, d: Id, k: nat)
    requires 0 < k <= |tokens| && Bound(objs, c, tokens[0], d) && IsContext(objs, d)
    ensures Follow(objs, c, tokens[..k]) == Follow(objs, d, tokens[1..][..k - 1])
  {
    assert tokens[..k][1..] == tokens[1..][..k - 1];
  }

  /** One step of a creating walk: a component that was not bound is bound now, to a new context, and no other is. */
  lemma StepMakes(st: State, c: Id, token: string, placeholder: bool)
    requires st.next !in st.objs && IsContext(st.objs, c)
    requires Step(st, c, token, Flags(true, placeholder)).1.Some?
    ensures var (st1, d) := Step(st, c, token, Flags(true, placeholder));
            && Bound(st1.objs, c, token, d.value) && IsContext(st1.objs, d.value)
            && (token in NamesOf(st.objs, c) ==> d.value in st.objs)
            && (token !in NamesOf(st.objs, c) ==>
                  && d.value !in st.objs && IsNew(st1.objs[d.value], ContextKind, token, c, placeholder)
                  && BoundIn(c, token) in st1.log)
            && (forall p, n :: n in NamesOf(st1.objs, p) && n !in NamesOf(st.objs, p) ==> p == c && n == token)
  {
    if token !in NamesOf(st.objs, c) {
      CreateFacts(st, ContextKind, token, c, token);
    }
  }

  lemma NewStaysNew(s: State, t: State, x: Id, kind: Kind, name: string, parent: Id, placeholder: bool)
    requires AddsOnly(s, t, placeholder) && x in s.objs && IsNew(s.objs[x], kind, name, parent, placeholder)
    ensures x in t.objs && IsNew(t.objs[x], kind, name, parent, placeholder)
  {
    assert AddsTo(s.objs[x], t.objs[x], s.next, placeholder);
  }

  lemma BoundStays(s: State, t: State, c: Id, name: string, x: Id, placeholder: bool)
    requires AddsOnly(s, t, placeholder) && Bound(s.objs, c, name, x)
    ensures Bound(t.objs, c, name, x) && (IsContext(s.objs, x) ==> IsContext(t.objs, x))
  {
    assert c in s.objs;
    assert AddsTo(s.objs[c], t.objs[c], s.next, placeholder) && AddsTo(s.objs[x], t.objs[x], s.next, placeholder);
  }

  /** What the first step made stays, and what the others make is made at the same places. */
  lemma FirstIsMade(st: State, c: Id, tokens: seq<string>, placeholder: bool, t: State)
    requires tokens != [] && st.next !in st.objs && IsContext(st.objs, c)
    requires Step(st, c, tokens[0], Flags(true, placeholder)).1.Some?
    requires var (st1, d) := Step(st, c, tokens[0], Flags(true, placeholder));
             AddsOnly(st1, t, placeholder) && PathIsMade(st1, t, d.value, tokens[1..], placeholder)
    requires AddsOnly(st, Step(st, c, tokens[0], Flags(true, placeholder)).0, placeholder)
    ensures PathIsMade(st, t, c, tokens, placeholder)
  {
    var (st1, r) := Step(st, c, tokens[0], Flags(true, placeholder));
    var d := r.value;
    StepMakes(st, c, tokens[0], placeholder);
    BoundStays(st1, t, c, tokens[0], d, placeholder);
    if tokens[0] !in NamesOf(st.objs, c) {
      NewStaysNew(st1, t, d, ContextKind, tokens[0], c, placeholder);
    }
    forall k | 0 <= k < |tokens|
      ensures MadeAt(st, t, c, tokens, k, placeholder)
    {
      FollowFirst(t.objs, c, tokens, d, k + 1);
      if k > 0 {
        FollowFirst(t.objs, c, tokens, d, k);
        assert MadeAt(st1, t, d, tokens[1..], k - 1, placeholder);
      }
    }
  }

  /** A creating walk that arrives has made its path: what was not there is new, and a placeholder if that was asked. */
  lemma {:induction false} WalkMakesPath(st: State, c: Id, tokens: seq<string>, placeholder: bool)
    requires WF(st) && IsContext(st.objs, c) && CleanTokens(tokens)
    requires Walk(st, Some(c), tokens, Flags(true, placeholder)).1.Some?
    ensures var (t, r) := Walk(st, Some(c), tokens, Flags(true, placeholder));
            PathIsMade(st, t, c, tokens, placeholder) && Follow(t.objs, c, tokens) == r
    decreases |tokens|
  {
    var fl := Flags(true, placeholder);
    if tokens != [] {
      StepAdds(st, c, tokens[0], placeholder);
      StepKeepsWF(st, c, tokens[0], fl);
      StepFacts(st, c, tokens[0], fl);
      var (st1, c1) := Step(st, c, tokens[0], fl);
      WalkMakesPath(st1, c1.value, tokens[1..], placeholder);
      WalkAdds(st1, c1.value, tokens[1..], placeholder);
      var t := Walk(st1, c1, tokens[1..], fl).0;
      FirstIsMade(st, c, tokens, placeholder, t);
      StepMakes(st, c, tokens[0], placeholder);
      BoundStays(st1, t, c, tokens[0], c1.value, placeholder);
    }
  }

  lemma {:induction false} FollowStays(s: State, t: State, c: Id, tokens: seq<string>, placeholder: bool)
    requires AddsOnly(s, t, placeholder) && Follow(s.objs, c, tokens).Some?
    requires forall x, n :: n in NamesOf(s.objs, x) ==> NamesOf(s.objs, x)[n].target in s.objs
    ensures Follow(t.objs, c, tokens) == Follow(s.objs, c, tokens)
    decreases |tokens|
  {
    if tokens != [] {
      BoundStays(s, t, c, tokens[0], NamesOf(s.objs, c)[tokens[0]].target, placeholder);
      FollowStays(s, t, NamesOf(s.objs, c)[tokens[0]].target, tokens[1..], placeholder);
    }
  }

  lemma TargetsLive(st: State)
    requires WF(st)
    ensures forall x, n :: n in NamesOf(st.objs, x) ==> NamesOf(st.objs, x)[n].target in st.objs
  {
    forall x, n | n in NamesOf(st.objs, x)
      ensures NamesOf(st.objs, x)[n].target in st.objs
    {
      BoundObject(st, x, n);
    }
  }

  lemma PathStays(s: State, mid: State, t: State, c: Id, tokens: seq<string>, placeholder: bool)
    requires WF(mid) && AddsOnly(mid, t, placeholder) && PathIsMade(s, mid, c, tokens, placeholder)
    ensures PathIsMade(s, t, c, tokens, placeholder)
  {
    TargetsLive(mid);
    forall k | 0 <= k < |tokens|
      ensures MadeAt(s, t, c, tokens, k, placeholder)
    {
      assert MadeAt(s, mid, c, tokens, k, placeholder);
      FollowStays(mid, t, c, tokens[..k], placeholder);
      FollowStays(mid, t, c, tokens[..k + 1], placeholder);
      var p, x := Follow(mid.objs, c, tokens[..k]).value, Follow(mid.objs, c, tokens[..k + 1]).value;
      BoundStays(mid, t, p, tokens[k], x, placeholder);
      if tokens[k] !in NamesOf(s.objs, p) {
        NewStaysNew(mid, t, x, ContextKind, tokens[k], p, placeholder);
      }
    }
  }

  ghost predicate BindsTheSame(s: State, t: State) {
    forall x :: NamesOf(t.objs, x) == NamesOf(s.objs, x)
  }

  /** Where a creating walk ends: where the graph leads, or at a new context; and it binds nothing there. */
  lemma WalkEndsAt(st: State, c: Id, tokens: seq<string>, placeholder: bool) returns (st1: State, p: Id)
    requires WF(st) && IsContext(st.objs, c) && CleanTokens(tokens)
    requires Walk(st, Some(c), tokens, Flags(true, placeholder)).1.Some?
    ensures Walk(st, Some(c), tokens, Flags(true, placeholder)) == (st1, Some(p))
    ensures WF(st1) && AddsOnly(st, st1, placeholder) && IsContext(st1.objs, p)
    ensures PathIsMade(st, st1, c, tokens, placeholder) && Follow(st1.objs, c, tokens) == Some(p)
    ensures NamesOf(st1.objs, p) == NamesOf(st.objs, p)
    ensures if Follow(st.objs, c, tokens).Some? then Follow(st.objs, c, tokens) == Some(p) && BindsTheSame(st, st1)
            else p !in st.objs
  {
    var fl := Flags(true, placeholder);
    WalkMakesPath(st, c, tokens, placeholder);
    WalkAdds(st, c, tokens, placeholder);
    WalkFacts(st, c, tokens, fl);
    Announcing.WalkEnds(st, c, tokens, fl);
    st1, p := Walk(st, Some(c), tokens, fl).0, Walk(st, Some(c), tokens, fl).1.value;
  }

  /** What the last component of a creation comes to. */
  ghost predicate LastIsMade(s: State, t: State, p: Id, name: string, last: string, kind: Kind, placeholder: bool,
                             x: Id)
  {
    && Bound(t.objs, p, last, x) && (!placeholder ==> IsReal(t.objs, x))
    && if last in NamesOf(s.objs, p) then x == NamesOf(s.objs, p)[last].target
       else
         && x !in s.objs && IsNew(t.objs[x], kind, last, p, placeholder) && t.objs[x].names == map[]
         && BoundIn(p, name) in t.log
  }

  /**
   A creation makes the path of all components but the last, and the last in the context that those lead to: a new
   object of the class asked for if the component was free there, and else what it is bound to.
   */
  lemma CreationMakes(st: State, name: string, kind: Kind, initial: Option<Id>, placeholder: bool,
                      front: seq<string>, last: string)
    returns (p: Id)
    requires WF(st) && InitialOk(st, initial) && Components(name) == front + [last]
    requires ResolveOrCreate(st, name, kind, initial, placeholder).1.Some?
    ensures var (t, r) := ResolveOrCreate(st, name, kind, initial, placeholder);
            var c := Start(st, initial);
            && AddsOnly(st, t, placeholder) && PathIsMade(st, t, c, front, placeholder)
            && Follow(t.objs, c, front) == Some(p) && LastIsMade(st, t, p, name, last, kind, placeholder, r.value)
            && (last in NamesOf(st.objs, p) ==> BindsTheSame(st, t))
            && if Follow(st.objs, c, front).Some? then Follow(st.objs, c, front) == Some(p) else p !in st.objs
  {
    ComponentsApart(name);
    HeadTokensClean(name);
    SplitNameMeaning(name);
    assert (front + [last])[..|front + [last]| - 1] == front;
    var st1;
    st1, p := WalkEndsAt(st, Start(st, initial), front, placeholder);
    var t := ResolveOrCreate(st, name, kind, initial, placeholder).0;
    var x := LookupOrConstruct(st1, p, last, kind, name).1;
    LastIs(st1, p, last, kind, name, placeholder);
    AddsTransitive(st, st1, t, placeholder);
    PathStays(st, st1, t, Start(st, initial), front, placeholder);
    TargetsLive(st1);
    FollowStays(st1, t, Start(st, initial), front, placeholder);
  }

  lemma LastIs(st: State, c: Id, last: string, kind: Kind, name: string, placeholder: bool)
    requires WF(st) && IsContext(st.objs, c) && (last == "" || LastName(last))
    ensures var (mid, x) := LookupOrConstruct(st, c, last, kind, name);
            var t := Promote(mid, x, Flags(true, placeholder));
            && AddsOnly(st, t, placeholder) && LastIsMade(st, t, c, name, last, kind, placeholder, x)
            && (last in NamesOf(st.objs, c) ==> BindsTheSame(st, t))
  {
    var (mid, x) := LookupOrConstruct(st, c, last, kind, name);
    LastAdds(st, c, last, kind, name, placeholder);
    LookupOrConstructFacts(st, c, last, kind, name);
    PromoteFacts(mid, x, Flags(true, placeholder));
    if last !in NamesOf(st.objs, c) {
      CreateFacts(st, kind, last, c, name);
    }
  }
}
