/**
 What linking and unbinding by name come to, told of names, classes and paths: which binding appears or goes, what the
 name resolves to afterwards, and what is sent.
 */
module Linking {
  import opened Wrappers
  import opened Paths
  import opened Spelling
  import opened NameGraph
  import opened Resolution
  import opened ResolutionLaws
  import opened NamingLaws
  import opened Operations
  import opened Lookups

  // ---------- where the head of a name leads ----------

  /** The context in which a name binds its last component; "/" is always the root. */
  function HeadLeads(objs: Objects, root: Id, c: Id, head: string): Option<Id> {
    if head == "/" then Some(root) else Follow(objs, c, Components(head))
  }

  lemma HeadOfComponents(objs: Objects, c: Id, front: seq<string>, last: string, p: Id, x: Id)
    requires Follow(objs, c, front) == Some(p)
    ensures Follow(objs, c, front + [last])
         == if last in NamesOf(objs, p) && IsContext(objs, NamesOf(objs, p)[last].target)
            then Some(NamesOf(objs, p)[last].target) else None
  {
    FollowConcat(objs, c, front, [last]);
    assert [last][1..] == [];
  }

  /** What creating the head of a name leaves, and where it leads: to a context that binds what it did before. */
  lemma HeadIsMade(st: State, head: string, initial: Option<Id>) returns (s1: State, p: Id)
    requires WF(st) && InitialOk(st, initial) && head != "" && Creatable(st, head, initial)
    ensures (s1, Some(p)) == ResolveOrCreate(st, head, ContextKind, initial, false)
    ensures WF(s1) && AddsOnly(st, s1, false) && IsReal(s1.objs, p)
    ensures var c := Start(st, initial);
            if IsContext(s1.objs, p) then
              && HeadLeads(s1.objs, s1.root, c, head) == Some(p) && NamesOf(s1.objs, p) == NamesOf(st.objs, p)
              && if HeadLeads(st.objs, st.root, c, head).Some? then HeadLeads(st.objs, st.root, c, head) == Some(p)
                 else p !in st.objs
            else p in st.objs && !IsContext(st.objs, p) && HeadLeads(st.objs, st.root, c, head).None?
  {
    CreatableIffCreated(st, head, ContextKind, initial, false);
    ResolveOrCreateFacts(st, head, ContextKind, initial, false);
    CreationAddsOnly(st, head, ContextKind, initial, false);
    var (s, r) := ResolveOrCreate(st, head, ContextKind, initial, false);
    s1, p := s, r.value;
    if head != "/" {
      ComponentsApart(head);
      SplitNameMeaning(head);
      var front, last := HeadTokens(head), SplitName(head).tail.value;
      assert Components(head) == front + [last];
      var q := CreationMakes(st, head, ContextKind, initial, false, front, last);
      LastOfHead(st, s1, Start(st, initial), head, front, last, q, p);
    }
  }

  lemma LastOfHead(st: State, s1: State, c: Id, head: string, front: seq<string>, last: string, q: Id, p: Id)
    requires WF(st) && AddsOnly(st, s1, false) && Follow(s1.objs, c, front) == Some(q)
    requires LastIsMade(st, s1, q, head, last, ContextKind, false, p)
    requires last in NamesOf(st.objs, q) ==> BindsTheSame(st, s1)
    requires if Follow(st.objs, c, front).Some? then Follow(st.objs, c, front) == Some(q) else q !in st.objs
    ensures var path := front + [last];
            if IsContext(s1.objs, p) then
              && Follow(s1.objs, c, path) == Some(p) && NamesOf(s1.objs, p) == NamesOf(st.objs, p)
              && if Follow(st.objs, c, path).Some? then Follow(st.objs, c, path) == Some(p) else p !in st.objs
            else p in st.objs && !IsContext(st.objs, p) && Follow(st.objs, c, path).None?
  {
    HeadOfComponents(s1.objs, c, front, last, q, p);
    FollowConcat(st.objs, c, front, [last]);
    assert [last][1..] == [];
    if last in NamesOf(st.objs, q) {
      BoundObject(st, q, last);
      assert AddsTo(st.objs[p], s1.objs[p], st.next, false);
    }
  }

  // ---------- linking ----------

  /** One more binding, one more referrer of what it binds, and the events of that; everything else is as it was. */
  ghost predicate OneLink(s: State, t: State, p: Id, last: string, b: Binding, told: seq<Event>) {
    && t.root == s.root && t.next == s.next && t.log == s.log + [BoundIn(p, last)] + told
    && t.objs.Keys == s.objs.Keys
    && forall x :: x in s.objs ==>
         t.objs[x] == s.objs[x].(names := if x == p then s.objs[x].names[last := b] else s.objs[x].names,
                                 referrers := s.objs[x].referrers + if x == b.target then [p] else [])
  }

  /**
   A link under a name: first the head is created like any context. If that is a context and the last component is free
   there, it is linked; if it is taken it stays what it was; and in an entity nothing is bound.
   */
  ghost predicate Linked(st: State, head: string, initial: Option<Id>, last: string, b: Binding, told: seq<Event>,
                         t: State, status: int)
  {
    var (s1, r) := ResolveOrCreate(st, head, ContextKind, initial, false);
    && r.Some? && (status == 1 <==> IsContext(s1.objs, r.value)) && (status != 1 ==> status == 0)
    && if status == 1 && last !in NamesOf(s1.objs, r.value) then OneLink(s1, t, r.value, last, b, told)
       else t == s1.(log := s1.log + told)
  }

  lemma BindIsOneLink(st: State, p: Id, last: string, b: Binding)
    requires p in st.objs && b.target in st.objs && last !in NamesOf(st.objs, p)
    ensures OneLink(st, Bind(st, p, last, b, last), p, last, b, [])
  {
  }

  lemma UnderIsLinked(st: State, head: string, initial: Option<Id>, last: string, b: Binding)
    requires WF(st) && InitialOk(st, initial) && head != "" && Creatable(st, head, initial) && b.target in st.objs
    ensures var (t, status) := BindUnder(st, head, initial, last, b); Linked(st, head, initial, last, b, [], t, status)
  {
    var s1, p := HeadIsMade(st, head, initial);
    assert AddsTo(st.objs[b.target], s1.objs[b.target], st.next, false);
    if IsContext(s1.objs, p) && last !in NamesOf(s1.objs, p) {
      BindIsOneLink(s1, p, last, b);
    } else {
      assert s1.log + [] == s1.log;
    }
  }

  lemma MoreIsTold(st: State, head: string, initial: Option<Id>, last: string, b: Binding, t: State, status: int,
                   told: seq<Event>)
    requires Linked(st, head, initial, last, b, [], t, status)
    ensures Linked(st, head, initial, last, b, told, t.(log := t.log + told), status)
  {
  }

  /** `bind_context`: a name with a head. Status 1 exactly if the head leads to a context, or nowhere so far. */
  lemma ContextIsLinked(st: State, source: Id, head: string, last: string)
    requires WF(st) && LastName(last) && Enabled(st, LinkContext(source, head + "/" + last))
    ensures var (t, status) := BindContext(st, source, head + "/" + last);
            && head != "" && t == Apply(st, LinkContext(source, head + "/" + last))
            && Linked(st, head, None, last, Binding(ContextBinding, source), [], t, status)
  {
    SplitNameOfJoin(head, last);
    UnderIsLinked(st, head, None, last, Binding(ContextBinding, source));
  }

  /** `bind_entity`, by pointer: status 1, and the bind event of the entity ends the log, also if the name was taken. */
  lemma EntityIsLinked(st: State, entity: Id, initial: Option<Id>, head: string, last: string)
    requires WF(st) && LastName(last) && Enabled(st, LinkEntity(entity, initial, head + "/" + last))
    ensures var (t, status) := BindEntity(st, entity, initial, head + "/" + last);
            && head != "" && t == Apply(st, LinkEntity(entity, initial, head + "/" + last)) && status == 1
            && Linked(st, head, initial, last, Binding(EntityBinding, entity), [EntityBound(entity)], t, status)
  {
    SplitNameOfJoin(head, last);
    var b := Binding(EntityBinding, entity);
    PassableToTheEnd(st, head, initial);
    UnderIsLinked(st, head, initial, last, b);
    var (t, status) := BindUnder(st, head, initial, last, b);
    HeadIsContext(st, head, initial);
    MoreIsTold(st, head, initial, last, b, t, status, [EntityBound(entity)]);
  }

  lemma {:induction false} PassableLeadsToContexts(objs: Objects, c: Id, front: seq<string>, last: string)
    requires Passable(objs, c, front + [last]) && Follow(objs, c, front).Some?
    ensures var p := Follow(objs, c, front).value;
            last in NamesOf(objs, p) ==> IsContext(objs, NamesOf(objs, p)[last].target)
    decreases |front|
  {
    if front == [] {
      assert front + [last] == [last];
    } else {
      assert (front + [last])[1..] == front[1..] + [last];
      PassableLeadsToContexts(objs, NamesOf(objs, c)[front[0]].target, front[1..], last);
    }
  }

  /** Where no component of the head is bound to an entity, creating it makes or finds a context. */
  lemma HeadIsContext(st: State, head: string, initial: Option<Id>)
    requires WF(st) && InitialOk(st, initial) && head != "" && Passable(st.objs, Start(st, initial), Components(head))
    requires ResolveOrCreate(st, head, ContextKind, initial, false).1.Some?
    ensures var (s1, r) := ResolveOrCreate(st, head, ContextKind, initial, false); IsContext(s1.objs, r.value)
  {
    if head != "/" {
      ComponentsApart(head);
      SplitNameMeaning(head);
      var c, front, last := Start(st, initial), HeadTokens(head), SplitName(head).tail.value;
      assert Components(head) == front + [last];
      var q := CreationMakes(st, head, ContextKind, initial, false, front, last);
      if last in NamesOf(st.objs, q) {
        PassableLeadsToContexts(st.objs, c, front, last);
        BoundObject(st, q, last);
        var (s1, r) := ResolveOrCreate(st, head, ContextKind, initial, false);
        assert AddsTo(st.objs[r.value], s1.objs[r.value], st.next, false);
      }
    }
  }

  lemma OneLinkGrows(s: State, t: State, p: Id, last: string, b: Binding, told: seq<Event>)
    requires OneLink(s, t, p, last, b, told) && last !in NamesOf(s.objs, p)
    ensures Grows(s, t)
  {
    forall x | x in s.objs
      ensures x in t.objs && GrowsObj(s.objs[x], t.objs[x])
    {
    }
  }

  lemma AddsGrows(s: State, t: State)
    requires AddsOnly(s, t, false)
    ensures Grows(s, t)
  {
    forall x | x in s.objs
      ensures x in t.objs && GrowsObj(s.objs[x], t.objs[x])
    {
      assert AddsTo(s.objs[x], t.objs[x], s.next, false);
    }
  }

  lemma LinkedGrows(st: State, head: string, initial: Option<Id>, last: string, b: Binding, told: seq<Event>, t: State,
                    status: int)
    requires WF(st) && InitialOk(st, initial) && Linked(st, head, initial, last, b, told, t, status)
    ensures Grows(st, t)
  {
    var (s1, r) := ResolveOrCreate(st, head, ContextKind, initial, false);
    ResolveOrCreateFacts(st, head, ContextKind, initial, false);
    if status == 1 && last !in NamesOf(s1.objs, r.value) {
      OneLinkGrows(s1, t, r.value, last, b, told);
      GrowsTransitive(st, s1, t);
    }
  }

  /** Linking loses nothing: not a binding, not an object, not a promotion. */
  lemma LinkGrows(st: State, op: Op)
    requires WF(st) && Enabled(st, op) && (op.LinkContext? || op.LinkEntity?)
    ensures Grows(st, Apply(st, op)) && WF(Apply(st, op))
  {
    ApplyKeepsWF(st, op);
    var name := if op.LinkContext? then op.fullName else op.newName;
    SplitNameMeaning(name);
    var head, last := SplitName(name).head.value, SplitName(name).tail.value;
    assert name == head + "/" + last;
    if op.LinkContext? {
      ContextIsLinked(st, op.source, head, last);
      LinkedGrows(st, head, None, last, Binding(ContextBinding, op.source), [], Apply(st, op),
                  BindContext(st, op.source, name).1);
    } else {
      EntityIsLinked(st, op.entity, op.initial, head, last);
      LinkedGrows(st, head, op.initial, last, Binding(EntityBinding, op.entity), [EntityBound(op.entity)],
                  Apply(st, op), 1);
    }
  }

  /** Every name that resolved, from whichever context, resolves to the same object when something has been linked. */
  lemma LinkIsConservative(st: State, op: Op, other: string, from: Option<Id>)
    requires WF(st) && Enabled(st, op) && (op.LinkContext? || op.LinkEntity?) && InitialOk(st, from)
    requires Resolve(st, other, from).1.Some?
    ensures Resolve(Apply(st, op), other, from).1 == Resolve(st, other, from).1
  {
    LinkGrows(st, op);
    ResolveSurvivesGrowth(st, Apply(st, op), other, from);
  }

  // ---------- what a linked name resolves to ----------

  lemma LinkedAt(st: State, s1: State, head: string, initial: Option<Id>, last: string, b: Binding, told: seq<Event>,
                 t: State, p: Id)
    requires ResolveOrCreate(st, head, ContextKind, initial, false) == (s1, Some(p)) && IsContext(s1.objs, p)
    requires NamesOf(s1.objs, p) == NamesOf(st.objs, p)
    requires Linked(st, head, initial, last, b, told, t, 1)
    ensures Grows(s1, t) && IsContext(t.objs, p) && last in NamesOf(t.objs, p)
    ensures NamesOf(t.objs, p)[last] == if last in NamesOf(st.objs, p) then NamesOf(st.objs, p)[last] else b
  {
    if last !in NamesOf(s1.objs, p) {
      OneLinkGrows(s1, t, p, last, b, told);
    } else {
      assert s1.log <= t.log;
    }
  }

  lemma OpenNameResolves(t: State, head: string, initial: Option<Id>, last: string, p: Id)
    requires LastName(last) && head != "" && last in NamesOf(t.objs, p)
    requires head == "/" ==> Start(t, initial) == p
    requires head != "/" ==>
      && !EndsInSeparator(head) && Open(t.objs, Start(t, initial), Components(head))
      && Follow(t.objs, Start(t, initial), Components(head)) == Some(p)
    ensures var found := NamesOf(t.objs, p)[last].target;
            Resolve(t, head + "/" + last, initial) == (t, if IsReal(t.objs, found) then Some(found) else None)
  {
    SplitNameOfJoin(head, last);
    if head == "/" {
      assert Tokens("/") == [];
    } else {
      ComponentsOfClean(head);
      WalkOnOpenPath(t, Start(t, initial), Components(head), READ);
    }
  }

  /**
   Linked under a name whose head does not end in a separator, or under "/" in the root: the name resolves to what is
   bound there, if that is real, and resolving it changes nothing more. What is bound there is what was, or else what
   has been linked.
   */
  lemma LinkedNameResolves(st: State, head: string, initial: Option<Id>, last: string, b: Binding, told: seq<Event>,
                           t: State)
    returns (p: Id)
    requires WF(st) && InitialOk(st, initial) && LastName(last) && head != "" && Creatable(st, head, initial)
    requires Linked(st, head, initial, last, b, told, t, 1)
    ensures ResolveOrCreate(st, head, ContextKind, initial, false).1 == Some(p)
    ensures HeadLeads(t.objs, st.root, Start(st, initial), head) == Some(p) && last in NamesOf(t.objs, p)
    ensures NamesOf(t.objs, p)[last] == if last in NamesOf(st.objs, p) then NamesOf(st.objs, p)[last] else b
    ensures var found := NamesOf(t.objs, p)[last].target;
            !EndsInSeparator(head) || (head == "/" && Start(st, initial) == st.root) ==>
              Resolve(t, head + "/" + last, initial) == (t, if IsReal(t.objs, found) then Some(found) else None)
  {
    var s1;
    s1, p := HeadIsMade(st, head, initial);
    LinkedAt(st, s1, head, initial, last, b, told, t, p);
    assert Start(t, initial) == Start(st, initial);
    if head != "/" {
      OpenToHead(st, head, initial, s1, p);
      OpenGrows(s1.objs, t.objs, Start(st, initial), Components(head));
    }
    if !EndsInSeparator(head) || (head == "/" && Start(st, initial) == st.root) {
      OpenNameResolves(t, head, initial, last, p);
    }
  }

  /** The last component is free where the head leads, or that is still to be made. */
  predicate Free(st: State, initial: Option<Id>, head: string, last: string) {
    var p := HeadLeads(st.objs, st.root, Start(st, initial), head);
    p.None? || last !in NamesOf(st.objs, p.value)
  }

  lemma FreeWhereMade(st: State, head: string, initial: Option<Id>, last: string, p: Id)
    requires WF(st) && InitialOk(st, initial) && head != "" && Creatable(st, head, initial)
    requires var (s1, r) := ResolveOrCreate(st, head, ContextKind, initial, false);
             r == Some(p) && IsContext(s1.objs, p)
    ensures Free(st, initial, head, last) <==> last !in NamesOf(st.objs, p)
  {
    var s1, q := HeadIsMade(st, head, initial);
  }

  /** An entity that is linked where the name was free is what the name resolves to. */
  lemma EntityIsFound(st: State, entity: Id, initial: Option<Id>, head: string, last: string)
    requires WF(st) && LastName(last) && Enabled(st, LinkEntity(entity, initial, head + "/" + last))
    requires IsReal(st.objs, entity) && Free(st, initial, head, last)
    requires !EndsInSeparator(head) || (head == "/" && Start(st, initial) == st.root)
    ensures var t := Apply(st, LinkEntity(entity, initial, head + "/" + last));
            Resolve(t, head + "/" + last, initial) == (t, Some(entity))
  {
    EntityIsLinked(st, entity, initial, head, last);
    LinkGrows(st, LinkEntity(entity, initial, head + "/" + last));
    SplitNameOfJoin(head, last);
    PassableToTheEnd(st, head, initial);
    var t := Apply(st, LinkEntity(entity, initial, head + "/" + last));
    FoundIsLinked(st, head, initial, last, Binding(EntityBinding, entity), [EntityBound(entity)], t);
  }

  lemma FoundIsLinked(st: State, head: string, initial: Option<Id>, last: string, b: Binding, told: seq<Event>,
                      t: State)
    requires WF(st) && InitialOk(st, initial) && LastName(last) && head != "" && Creatable(st, head, initial)
    requires Linked(st, head, initial, last, b, told, t, 1) && Free(st, initial, head, last)
    requires Grows(st, t) && IsReal(st.objs, b.target)
    requires !EndsInSeparator(head) || (head == "/" && Start(st, initial) == st.root)
    ensures Resolve(t, head + "/" + last, initial) == (t, Some(b.target))
  {
    var p := LinkedNameResolves(st, head, initial, last, b, told, t);
    FreeWhereMade(st, head, initial, last, p);
    assert b.target in t.objs && GrowsObj(st.objs[b.target], t.objs[b.target]);
  }

  /** The same of a context, if the head leads to a context. */
  lemma ContextIsFound(st: State, source: Id, head: string, last: string)
    requires WF(st) && LastName(last) && Enabled(st, LinkContext(source, head + "/" + last))
    requires IsReal(st.objs, source) && Free(st, None, head, last)
    requires BindContext(st, source, head + "/" + last).1 == 1 && (!EndsInSeparator(head) || head == "/")
    ensures var t := Apply(st, LinkContext(source, head + "/" + last));
            Resolve(t, head + "/" + last, None) == (t, Some(source))
  {
    ContextIsLinked(st, source, head, last);
    LinkGrows(st, LinkContext(source, head + "/" + last));
    SplitNameOfJoin(head, last);
    var t := Apply(st, LinkContext(source, head + "/" + last));
    FoundIsLinked(st, head, None, last, Binding(ContextBinding, source), [], t);
  }

  lemma OpenToHead(st: State, head: string, initial: Option<Id>, s1: State, p: Id)
    requires WF(st) && InitialOk(st, initial) && head != "" && head != "/"
    requires ResolveOrCreate(st, head, ContextKind, initial, false) == (s1, Some(p)) && IsContext(s1.objs, p)
    ensures Open(s1.objs, Start(st, initial), Components(head))
    ensures Follow(s1.objs, Start(st, initial), Components(head)) == Some(p)
  {
    CreatedPathIsOpen(st, head, ContextKind, initial);
    ComponentsApart(head);
    var c, front, last := Start(st, initial), HeadTokens(head), SplitName(head).tail.value;
    assert Components(head) == front + [last];
    var q := Follow(s1.objs, c, front).value;
    OpenConcat(s1.objs, c, front, last);
    HeadOfComponents(s1.objs, c, front, last, q, p);
  }

  lemma {:induction false} OpenConcat(objs: Objects, c: Id, front: seq<string>, last: string)
    requires Open(objs, c, front) && Follow(objs, c, front).Some?
    requires var p := Follow(objs, c, front).value;
             && last in NamesOf(objs, p) && IsContext(objs, NamesOf(objs, p)[last].target)
             && IsReal(objs, NamesOf(objs, p)[last].target)
    ensures Open(objs, c, front + [last])
    decreases |front|
  {
    if front == [] {
      assert front + [last] == [last] && [last][1..] == [];
    } else {
      assert (front + [last])[1..] == front[1..] + [last];
      OpenConcat(objs, NamesOf(objs, c)[front[0]].target, front[1..], last);
    }
  }

  /**
   `bind_entity` by the name of the entity: status -1 exactly if that name resolves to no entity, and then the lookup is
   all that happens; else what it resolves to is linked in the state that the lookup leaves.
   */
  lemma NamedEntityIsLinked(st: State, sourceName: string, other: Option<Id>, initial: Option<Id>, head: string,
                            last: string)
    requires WF(st) && LastName(last)
    requires var (s1, r) := Resolve(st, sourceName, None);
             r.Some? && r.value in s1.objs && s1.objs[r.value].kind == EntityKind ==>
               Enabled(s1, LinkEntity(r.value, initial, head + "/" + last))
    ensures var (s1, r) := Resolve(st, sourceName, None);
            var (t, status) := BindEntityFrom(st, Some(sourceName), other, initial, head + "/" + last);
            if r.Some? && s1.objs[r.value].kind == EntityKind then
              && status == 1
              && Linked(s1, head, initial, last, Binding(EntityBinding, r.value), [EntityBound(r.value)], t, status)
            else t == s1 && status == -1
  {
    ResolveFacts(st, sourceName, None);
    var (s1, r) := Resolve(st, sourceName, None);
    if r.Some? && s1.objs[r.value].kind == EntityKind {
      EntityIsLinked(s1, r.value, initial, head, last);
    }
  }

  /** By pointer: a null pointer gives -1 and does nothing, and an entity is linked as it is. */
  lemma GivenEntityIsLinked(st: State, entity: Option<Id>, initial: Option<Id>, head: string, last: string)
    requires WF(st) && LastName(last)
    requires entity.Some? ==> Enabled(st, LinkEntity(entity.value, initial, head + "/" + last))
    ensures var (t, status) := BindEntityFrom(st, None, entity, initial, head + "/" + last);
            match entity
            case None => t == st && status == -1
            case Some(e) =>
              status == 1 && Linked(st, head, initial, last, Binding(EntityBinding, e), [EntityBound(e)], t, status)
  {
    if entity.Some? {
      EntityIsLinked(st, entity.value, initial, head, last);
    }
  }

  // ---------- unbinding ----------

  /** One binding less, one referrer less of what it bound, and one event; everything else is as it was. */
  ghost predicate OneUnlink(s: State, t: State, q: Id, last: string, x: Id, e: Event) {
    && t.root == s.root && t.next == s.next && t.log == s.log + [e] && t.objs.Keys == s.objs.Keys
    && forall y :: y in s.objs ==>
         && t.objs[y] == s.objs[y].(names := if y == q then s.objs[y].names - {last} else s.objs[y].names,
                                    referrers := t.objs[y].referrers)
         && if y == x then multiset(t.objs[y].referrers) == multiset(s.objs[y].referrers) - multiset{q}
            else t.objs[y].referrers == s.objs[y].referrers
  }

  /** The event that tells of it: an entity's, or a context's with the name that was asked for. */
  function TellsUnbound(o: Obj, x: Id, name: string): Event {
    match o.kind
    case EntityKind => EntityUnbound(x)
    case ContextKind => ContextUnbound(x, name)
  }

  lemma UnbindIsOneUnlink(s: State, q: Id, last: string, name: string)
    requires WF(s) && last in NamesOf(s.objs, q)
    ensures var (t, status) := UnbindAndTell(s, q, last, name);
            var x := NamesOf(s.objs, q)[last].target;
            status == 1 && x in s.objs && OneUnlink(s, t, q, last, x, TellsUnbound(s.objs[x], x, name))
  {
    BoundObject(s, q, last);
    ReferrerIsFound(s.objs, q, last);
    RemoveFirstCounts(s.objs[NamesOf(s.objs, q)[last].target].referrers, q);
  }

  /** What looking a name up leaves, and where all components but the last lead. */
  lemma LookedUp(st: State, name: string, initial: Option<Id>, front: seq<string>, last: string)
    returns (s1: State, q: Option<Id>)
    requires WF(st) && InitialOk(st, initial) && Components(name) == front + [last]
    // compared with true: taken as one fact, not conjunct by conjunct
    ensures WF(s1) == true && (s1, q) == ContextOfName(st, name, initial, READ) && SplitName(name).tail == Some(last)
    ensures s1 == Resolve(st, name, initial).0 && q == Follow(st.objs, Start(st, initial), front)
    ensures BindsTheSame(st, s1) && SameKinds(st.objs, s1.objs)
  {
    ComponentsApart(name);
    assert (front + [last])[..|front + [last]| - 1] == front;
    WalkReads(st, Start(st, initial), front);
    LookupPromotes(st, Start(st, initial), front);
    ContextOfNameFacts(st, name, initial, READ);
    s1, q := ContextOfName(st, name, initial, READ).0, ContextOfName(st, name, initial, READ).1;
  }

  ghost predicate SameKinds(s: Objects, t: Objects) {
    t.Keys == s.Keys && forall x :: x in s ==> t[x].kind == s[x].kind
  }

  /**
   `remove_binding`: status 1 exactly if the last component is bound where the others lead; then that binding goes, and
   the event is that of what it bound. Otherwise the status is -1, and nothing happens that a lookup would not do.
   */
  lemma UnboundByName(st: State, name: string, initial: Option<Id>, front: seq<string>, last: string)
    requires WF(st) && InitialOk(st, initial) && Components(name) == front + [last]
    ensures var (t, status) := RemoveBinding(st, name, initial);
            var (s1, q) := (Resolve(st, name, initial).0, Follow(st.objs, Start(st, initial), front));
            if q.Some? && last in NamesOf(st.objs, q.value) then
              var x := NamesOf(st.objs, q.value)[last].target;
              && status == 1 && x in st.objs
              && OneUnlink(s1, t, q.value, last, x, TellsUnbound(st.objs[x], x, name))
            else t == s1 && status == -1
  {
    var s1, q := LookedUp(st, name, initial, front, last);
    if q.Some? && last in NamesOf(s1.objs, q.value) {
      UnbindIsOneUnlink(s1, q.value, last, name);
    }
  }

  lemma {:induction false} FollowLess(s: Objects, t: Objects, c: Id, tokens: seq<string>)
    requires forall x, n :: n in NamesOf(t, x) ==> n in NamesOf(s, x) && NamesOf(t, x)[n] == NamesOf(s, x)[n]
    requires forall x :: IsContext(t, x) == IsContext(s, x)
    ensures Follow(t, c, tokens).None? || Follow(t, c, tokens) == Follow(s, c, tokens)
    decreases |tokens|
  {
    if tokens != [] && tokens[0] in NamesOf(t, c) {
      FollowLess(s, t, NamesOf(t, c)[tokens[0]].target, tokens[1..]);
    }
  }

  lemma LessIsBound(st: State, s1: State, t: State, q: Id, last: string, x: Id, e: Event)
    requires BindsTheSame(st, s1) && SameKinds(st.objs, s1.objs) && OneUnlink(s1, t, q, last, x, e)
    ensures forall y, n :: n in NamesOf(t.objs, y) ==>
              n in NamesOf(st.objs, y) && NamesOf(t.objs, y)[n] == NamesOf(st.objs, y)[n] && !(y == q && n == last)
    ensures forall y :: IsContext(t.objs, y) == IsContext(st.objs, y)
  {
    forall y, n | n in NamesOf(t.objs, y)
      ensures n in NamesOf(st.objs, y) && NamesOf(t.objs, y)[n] == NamesOf(st.objs, y)[n] && !(y == q && n == last)
    {
      assert y in s1.objs && NamesOf(s1.objs, y) == NamesOf(st.objs, y);
    }
  }

  /** A name that has been unbound resolves to nothing, also where its own path led through that binding. */
  lemma UnboundNameIsGone(st: State, name: string, initial: Option<Id>, front: seq<string>, last: string)
    requires WF(st) && InitialOk(st, initial) && Components(name) == front + [last]
    requires RemoveBinding(st, name, initial).1 == 1
    ensures Resolve(RemoveBinding(st, name, initial).0, name, initial).1 == None
  {
    var t := RemoveBinding(st, name, initial).0;
    UnboundByName(st, name, initial, front, last);
    var s1, q := LookedUp(st, name, initial, front, last);
    var x := NamesOf(st.objs, q.value)[last].target;
    LessIsBound(st, s1, t, q.value, last, x, TellsUnbound(st.objs[x], x, name));
    FollowLess(st.objs, t.objs, Start(st, initial), front);
    assert s1.root == st.root by {
      ResolveFollows(st, name, initial, front, last);
    }
    ResolveFollows(t, name, initial, front, last);
  }

  // ---------- deleting ----------

  /** All bindings of the object are gone, and no other. */
  ghost predicate LosesTarget(o: Obj, p: Obj, x: Id) {
    && p == o.(names := p.names)
    && (forall n :: n in p.names ==> n in o.names && p.names[n] == o.names[n])
    && (forall n :: n in o.names ==> (n in p.names <==> o.names[n].target != x))
  }

  lemma ErasedLoses(objs: Objects, x: Id, y: Id)
    requires y in objs && y != x
    ensures LosesTarget(objs[y], EraseObject(objs, x)[y], x)
  {
  }

  lemma ErasedObjects(objs: Objects, x: Id, after: Objects)
    requires after == EraseObject(objs, x)
    ensures after.Keys == objs.Keys - {x}
    ensures forall y :: y in after ==> LosesTarget(objs[y], after[y], x)
  {
    forall y | y in after
      ensures LosesTarget(objs[y], after[y], x)
    {
      ErasedLoses(objs, x, y);
    }
  }

  /** A deleted object is gone, with all its bindings and no other; the event of a context tells its full name. */
  lemma DeletedIsGone(st: State, x: Id)
    requires x in st.objs
    ensures var t := Apply(st, Delete(x));
            && t.root == st.root && t.next == st.next && t.objs.Keys == st.objs.Keys - {x}
            && t.log == st.log + [Deleted(x, match st.objs[x].kind
                                             case ContextKind => Some(FullName(st.objs, x))
                                             case EntityKind => None)]
            && forall y :: y in t.objs ==> LosesTarget(st.objs[y], t.objs[y], x)
  {
    ErasedObjects(st.objs, x, Remove(st, x).objs);
  }

  /**
   A context whose bindings have been killed binds nothing, and is a referrer of its children only; the other bindings
   and referrers are what they were, and nothing is sent.
   */
  lemma KilledBindsNothing(st: State, c: Id)
    requires WF(st) && c in st.objs
    ensures var t := Apply(st, KillAll(c));
            && t.root == st.root && t.next == st.next && t.log == st.log && t.objs.Keys == st.objs.Keys
            && forall y :: y in st.objs ==>
                 && t.objs[y] == st.objs[y].(names := if y == c then map[] else st.objs[y].names,
                                             referrers := t.objs[y].referrers)
                 && forall d :: RefCount(t.objs, y, d) ==
                      if d == c then if st.objs[y].parent == Some(c) then 1 else 0 else RefCount(st.objs, y, d)
  {
    var t := Apply(st, KillAll(c));
    forall y, d | y in st.objs
      ensures RefCount(t.objs, y, d)
           == if d == c then if st.objs[y].parent == Some(c) then 1 else 0 else RefCount(st.objs, y, d)
    {
      KilledRefersToChildren(st, c, y, d);
    }
  }

  lemma KilledRefersToChildren(st: State, c: Id, y: Id, d: Id)
    requires Balanced(st.objs) && c in st.objs && y in st.objs
    ensures RefCount(KillBindings(st, c).objs, y, d)
         == if d == c then if st.objs[y].parent == Some(c) then 1 else 0 else RefCount(st.objs, y, d)
  {
    assert RefCount(st.objs, y, c) == Expected(st.objs, y, c);
    RemoveManyCounts(st.objs[y].referrers, c, |BoundNames(NamesOf(st.objs, c), y)|);
  }
}
