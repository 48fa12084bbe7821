/**
 The domain's operations as changes of its state, and what holds in every state that a run of
 them reaches from a new domain.
 */
module Operations {
  import opened Wrappers
  import opened Paths
  import opened NameGraph
  import opened Resolution
  import opened ResolutionLaws
  import opened NamingLaws

  /**
   `Domain::bind_context`: the context that the head names, created if need be, binds `source` as the last
   component.
   */
  function BindContext(st: State, source: Id, fullName: string): (State, int) {
    var p := SplitName(fullName);
    if p.head.None? || p.tail.None? then (st, 0)
    else BindUnder(st, p.head.value, None, p.tail.value, Binding(ContextBinding, source))
  }

  function BindUnder(st: State, head: string, initial: Option<Id>, last: string, b: Binding): (State, int) {
    var (st1, parent) := ResolveOrCreate(st, head, ContextKind, initial, false);
    if parent.None? then (st1, 0) else BindAt(st1, parent.value, last, b)
  }

  function BindAt(st: State, target: Id, last: string, b: Binding): (State, int) {
    if !IsContext(st.objs, target) then (st, 0) else (Bind(st, target, last, b, last), 1)
  }

  /** `Domain::bind_entity`, by pointer. The bind event of the entity follows even if the name was taken. */
  function BindEntity(st: State, entity: Id, initial: Option<Id>, newName: string): (State, int) {
    var p := SplitName(newName);
    if p.head.None? || p.tail.None? then (st, 0)
    else
      var (st1, r) := BindUnder(st, p.head.value, initial, p.tail.value, Binding(EntityBinding, entity));
      (st1.(log := st1.log + [EntityBound(entity)]), r)
  }

  /** `dynamic_cast` to an entity. */
  function EntityOnly(st: State, x: Option<Id>): Option<Id> {
    if x.Some? && x.value in st.objs && st.objs[x.value].kind == EntityKind then x else None
  }

  /** The entity to bind: the one that the source name resolves to, or without a name the one given. */
  function SourceEntity(st: State, sourceName: Option<string>, entity: Option<Id>): (State, Option<Id>) {
    if sourceName.None? then (st, entity)
    else
      var (st1, r) := Resolve(st, sourceName.value, None);
      (st1, EntityOnly(st1, r))
  }

  function BindEntityFrom(st: State, sourceName: Option<string>, entity: Option<Id>, initial: Option<Id>,
                          newName: string)
    : (State, int)
  {
    var (st1, e) := SourceEntity(st, sourceName, entity);
    if e.None? then (st1, -1) else BindEntity(st1, e.value, initial, newName)
  }

  /** `Domain::remove_binding`. */
  function RemoveBinding(st: State, name: string, initial: Option<Id>): (State, int) {
    var (st1, target) := ContextOfName(st, name, initial, READ);
    var last := SplitName(name).tail;
    if target.None? || last.None? then (st1, -1) else UnbindAndTell(st1, target.value, last.value, name)
  }

  function UnbindAndTell(st: State, c: Id, last: string, name: string): (State, int) {
    if last !in NamesOf(st.objs, c) then (st, -1)
    else
      var st' := Unbind(st, c, last);
      (st'.(log := st'.log + [UnboundEvent(NamesOf(st.objs, c)[last], name)]), 1)
  }

  function UnboundEvent(b: Binding, name: string): Event {
    if b.tag == EntityBinding then EntityUnbound(b.target) else ContextUnbound(b.target, name)
  }

  datatype Op =
    | ResolveName(name: string, initial: Option<Id>)
    | CreateName(name: string, kind: Kind, initial: Option<Id>, placeholder: bool)
    | LinkContext(source: Id, fullName: string)
    | LinkEntity(entity: Id, initial: Option<Id>, newName: string)
    | UnbindName(name: string, initial: Option<Id>)
    | KillAll(context: Id)
    | Delete(target: Id)
    | SetData(entity: Id, data: string)

  /** No component before the last is bound to an entity: creation never follows a NULL parent. */
  predicate Creatable(st: State, name: string, initial: Option<Id>) {
    name == [SEPARATOR] || Passable(st.objs, Start(st, initial), HeadTokens(name))
  }

  /** Every context that the creation makes real can be announced: no name read for an event follows a freed parent. */
  predicate Announceable(st: State, name: string, kind: Kind, initial: Option<Id>, placeholder: bool) {
    name == [SEPARATOR] || CreationTellable(st.objs, Start(st, initial), name, kind, Flags(true, placeholder))
  }

  /** The same of a name that is only looked up, up to its last component. */
  predicate Readable(st: State, name: string, initial: Option<Id>) {
    Tellable(st.objs, Start(st, initial), HeadTokens(name), READ)
  }

  /**
   What the engine demands of a caller: pointers to live objects of the right class, a name with
   something before its last component where one is linked, no entity in the middle of a path
   that is to be created, live ancestors for every context that becomes real or is deleted, since
   the event tells its full name, and deletions whose destructor meets live referrers.
   */
  ghost predicate Enabled(st: State, op: Op) {
    match op
    case ResolveName(name, initial) => InitialOk(st, initial) && Readable(st, name, initial)
    case CreateName(name, kind, initial, placeholder) =>
      InitialOk(st, initial) && Creatable(st, name, initial) && Announceable(st, name, kind, initial, placeholder)
    case LinkContext(source, fullName) =>
      var head := SplitName(fullName).head;
      && IsContext(st.objs, source) && head.Some?
      && Creatable(st, head.value, None) && Announceable(st, head.value, ContextKind, None, false)
    case LinkEntity(entity, initial, newName) =>
      var head := SplitName(newName).head;
      && InitialOk(st, initial) && entity in st.objs && st.objs[entity].kind == EntityKind && head.Some?
      && Passable(st.objs, Start(st, initial), Components(head.value))
      && Announceable(st, head.value, ContextKind, initial, false)
    case UnbindName(name, initial) => InitialOk(st, initial) && name != [SEPARATOR] && Readable(st, name, initial)
    case KillAll(context) => IsContext(st.objs, context)
    case Delete(target) => Deletable(st, target)
    case SetData(entity, _) => entity in st.objs
  }

  function Apply(st: State, op: Op): State {
    match op
    case ResolveName(name, initial) => Resolve(st, name, initial).0
    case CreateName(name, kind, initial, placeholder) => ResolveOrCreate(st, name, kind, initial, placeholder).0
    case LinkContext(source, fullName) => BindContext(st, source, fullName).0
    case LinkEntity(entity, initial, newName) => BindEntity(st, entity, initial, newName).0
    case UnbindName(name, initial) => RemoveBinding(st, name, initial).0
    case KillAll(context) => KillBindings(st, context)
    case Delete(target) => Remove(st, target)
    case SetData(entity, data) => SetCharData(st, entity, data)
  }

  ghost predicate Runnable(st: State, ops: seq<Op>)
    decreases |ops|
  {
    ops != [] ==> Enabled(st, ops[0]) && Runnable(Apply(st, ops[0]), ops[1..])
  }

  function Run(st: State, ops: seq<Op>): State
    decreases |ops|
  {
    if ops == [] then st else Run(Apply(st, ops[0]), ops[1..])
  }

  // ---------- one operation ----------

  /** Identity never changes: class, name and parent stay, promotion is for good, events are only added. */
  ghost predicate Evolves(s: State, t: State) {
    && t.root == s.root && s.next <= t.next && s.log <= t.log
    && (forall x :: x in t.objs && x < s.next ==> x in s.objs)
    && (forall x {:trigger s.objs[x], t.objs[x]} :: x in s.objs && x in t.objs ==> EvolvesObj(s.objs[x], t.objs[x]))
  }

  ghost predicate EvolvesObj(o: Obj, p: Obj) {
    && p.kind == o.kind && p.name == o.name && p.parent == o.parent
    && (!o.placeholder ==> !p.placeholder)
  }

  lemma AddOtherEvent(st: State, e: Event)
    requires WF(st) && !e.Created?
    ensures WF(st.(log := st.log + [e]))
  {
    OtherEventsKeepAnnounced(st, st.(log := st.log + [e]), e);
    ToldStays(st, st.(log := st.log + [e]));
    forall x | x in st.objs ensures ObjOk(st.objs, st.root, x) {
    }
  }

  lemma BindUnderKeepsWF(st: State, head: string, initial: Option<Id>, last: string, b: Binding)
    requires WF(st) && InitialOk(st, initial) && BindingOk(st.objs, b)
    ensures WF(BindUnder(st, head, initial, last, b).0)
  {
    ResolveOrCreateFacts(st, head, ContextKind, initial, false);
    var (st1, parent) := ResolveOrCreate(st, head, ContextKind, initial, false);
    assert b.target in st1.objs;
    if parent.Some? && IsContext(st1.objs, parent.value) {
      BindKeepsWF(st1, parent.value, last, b, last);
    }
  }

  lemma ApplyKeepsWF(st: State, op: Op)
    requires WF(st) && Enabled(st, op)
    ensures WF(Apply(st, op))
  {
    match op
    case ResolveName(name, initial) => ResolveFacts(st, name, initial);
    case CreateName(name, kind, initial, placeholder) => ResolveOrCreateFacts(st, name, kind, initial, placeholder);
    case LinkContext(source, fullName) =>
      var p := SplitName(fullName);
      if p.tail.Some? {
        BindUnderKeepsWF(st, p.head.value, None, p.tail.value, Binding(ContextBinding, source));
      }
    case LinkEntity(entity, initial, newName) =>
      var p := SplitName(newName);
      if p.tail.Some? {
        BindUnderKeepsWF(st, p.head.value, initial, p.tail.value, Binding(EntityBinding, entity));
        AddOtherEvent(BindUnder(st, p.head.value, initial, p.tail.value, Binding(EntityBinding, entity)).0,
                      EntityBound(entity));
      }
    case UnbindName(name, initial) => RemoveBindingKeepsWF(st, name, initial);
    case KillAll(context) => KillBindingsKeepsWF(st, context);
    case Delete(target) => RemoveKeepsWF(st, target);
    case SetData(entity, data) => SetCharDataKeepsWF(st, entity, data);
  }

  lemma RemoveBindingKeepsWF(st: State, name: string, initial: Option<Id>)
    requires WF(st) && InitialOk(st, initial)
    ensures WF(RemoveBinding(st, name, initial).0)
  {
    ContextOfNameFacts(st, name, initial, READ);
    var (st1, target) := ContextOfName(st, name, initial, READ);
    var last := SplitName(name).tail;
    if target.Some? && last.Some? {
      UnbindAndTellKeepsWF(st1, target.value, last.value, name);
    }
  }

  lemma UnbindAndTellKeepsWF(st: State, c: Id, last: string, name: string)
    requires WF(st)
    ensures WF(UnbindAndTell(st, c, last, name).0)
  {
    if last in NamesOf(st.objs, c) {
      UnbindKeepsWF(st, c, last);
      AddOtherEvent(Unbind(st, c, last), UnboundEvent(NamesOf(st.objs, c)[last], name));
    }
  }

  /** Nothing that appears in a later state took the place of something: IDs are not used again. */
  ghost predicate Numbered(s: State, t: State) {
    forall x :: x in t.objs && x < s.next ==> x in s.objs
  }

  lemma PromoteNumbers(s: State, st: State, t: Id, fl: Flags)
    requires Numbered(s, st)
    ensures Numbered(s, Promote(st, t, fl))
  {
  }

  lemma CreateNumbers(s: State, st: State, kind: Kind, name: string, c: Id, shown: string)
    requires Numbered(s, st) && s.next <= st.next && WF(st) && c in st.objs && name !in NamesOf(st.objs, c)
    ensures Numbered(s, Create(st, kind, name, c, shown))
  {
    CreateFacts(st, kind, name, c, shown);
  }

  lemma {:induction false} WalkNumbers(s: State, st: State, c: Id, tokens: seq<string>, fl: Flags)
    requires WF(st) && IsContext(st.objs, c) && CleanTokens(tokens)
    requires Numbered(s, st) && s.next <= st.next
    ensures Numbered(s, Walk(st, Some(c), tokens, fl).0)
    decreases |tokens|
  {
    if tokens != [] {
      StepKeepsWF(st, c, tokens[0], fl);
      StepFacts(st, c, tokens[0], fl);
      var (st1, c1) := Step(st, c, tokens[0], fl);
      if tokens[0] !in NamesOf(st.objs, c) && fl.makeNamePath {
        CreateNumbers(s, st, ContextKind, tokens[0], c, tokens[0]);
      }
      if c1.Some? {
        WalkNumbers(s, st1, c1.value, tokens[1..], fl);
      }
    }
  }

  lemma LookupNumbers(s: State, st: State, c: Id, last: string, kind: Kind, name: string)
    requires Numbered(s, st) && s.next <= st.next && WF(st) && c in st.objs
    ensures Numbered(s, LookupOrConstruct(st, c, last, kind, name).0)
  {
    if last !in NamesOf(st.objs, c) {
      CreateNumbers(s, st, kind, last, c, name);
    }
  }

  lemma GrowthEvolves(s: State, t: State)
    requires Grows(s, t) && Numbered(s, t)
    ensures Evolves(s, t)
  {
  }

  lemma ContextOfNameEvolves(st: State, name: string, initial: Option<Id>, fl: Flags)
    requires WF(st) && InitialOk(st, initial)
    ensures Evolves(st, ContextOfName(st, name, initial, fl).0)
  {
    ContextOfNameFacts(st, name, initial, fl);
    WalkNumbers(st, st, Start(st, initial), HeadTokens(name), fl);
    GrowthEvolves(st, ContextOfName(st, name, initial, fl).0);
  }

  lemma CreationEvolves(st: State, name: string, kind: Kind, initial: Option<Id>, placeholder: bool)
    requires WF(st) && InitialOk(st, initial)
    ensures Evolves(st, ResolveOrCreate(st, name, kind, initial, placeholder).0)
  {
    var fl := Flags(true, placeholder);
    ContextOfNameFacts(st, name, initial, fl);
    WalkNumbers(st, st, Start(st, initial), HeadTokens(name), fl);
    SplitNameMeaning(name);
    ResolveOrCreateFacts(st, name, kind, initial, placeholder);
    var (st1, parent) := ContextOfName(st, name, initial, fl);
    var last := SplitName(name).tail;
    if name != [SEPARATOR] && parent.Some? {
      LookupNumbers(st, st1, parent.value, last.value, kind, name);
      var (st2, x) := LookupOrConstruct(st1, parent.value, last.value, kind, name);
      PromoteNumbers(st, st2, x, fl);
    }
    GrowthEvolves(st, ResolveOrCreate(st, name, kind, initial, placeholder).0);
  }

  lemma BindEvolves(s: State, st: State, c: Id, name: string, b: Binding, shown: string)
    requires Evolves(s, st)
    ensures Evolves(s, Bind(st, c, name, b, shown))
  {
    var t := Bind(st, c, name, b, shown);
    forall x | x in s.objs && x in t.objs
      ensures EvolvesObj(s.objs[x], t.objs[x])
    {
      assert EvolvesObj(s.objs[x], st.objs[x]);
    }
  }

  lemma BindUnderEvolves(st: State, head: string, initial: Option<Id>, last: string, b: Binding)
    requires WF(st) && InitialOk(st, initial)
    ensures Evolves(st, BindUnder(st, head, initial, last, b).0)
  {
    CreationEvolves(st, head, ContextKind, initial, false);
    var (st1, parent) := ResolveOrCreate(st, head, ContextKind, initial, false);
    if parent.Some? {
      BindEvolves(st, st1, parent.value, last, b, last);
    }
  }

  lemma RemoveBindingEvolves(st: State, name: string, initial: Option<Id>)
    requires WF(st) && InitialOk(st, initial)
    ensures Evolves(st, RemoveBinding(st, name, initial).0)
  {
    ContextOfNameEvolves(st, name, initial, READ);
    var (st1, target) := ContextOfName(st, name, initial, READ);
    var last := SplitName(name).tail;
    if target.Some? && last.Some? {
      UnbindEvolves(st, st1, target.value, last.value, name);
    }
  }

  lemma UnbindEvolves(s: State, st: State, c: Id, last: string, name: string)
    requires Evolves(s, st)
    ensures Evolves(s, UnbindAndTell(st, c, last, name).0)
  {
    var t := UnbindAndTell(st, c, last, name).0;
    forall x | x in s.objs && x in t.objs
      ensures EvolvesObj(s.objs[x], t.objs[x])
    {
      assert EvolvesObj(s.objs[x], st.objs[x]);
    }
  }

  lemma KillingEvolves(st: State, c: Id)
    ensures Evolves(st, KillBindings(st, c))
  {
  }

  lemma DeletionEvolves(st: State, x: Id)
    ensures Evolves(st, Remove(st, x))
  {
  }

  lemma ApplyEvolves(st: State, op: Op)
    requires WF(st) && Enabled(st, op)
    ensures Evolves(st, Apply(st, op))
  {
    match op
    case ResolveName(name, initial) => ContextOfNameEvolves(st, name, initial, READ);
    case CreateName(name, kind, initial, placeholder) => CreationEvolves(st, name, kind, initial, placeholder);
    case LinkContext(source, fullName) =>
      var p := SplitName(fullName);
      if p.tail.Some? {
        BindUnderEvolves(st, p.head.value, None, p.tail.value, Binding(ContextBinding, source));
      }
    case LinkEntity(entity, initial, newName) =>
      var p := SplitName(newName);
      if p.tail.Some? {
        BindUnderEvolves(st, p.head.value, initial, p.tail.value, Binding(EntityBinding, entity));
      }
    case UnbindName(name, initial) => RemoveBindingEvolves(st, name, initial);
    case KillAll(context) => KillingEvolves(st, context);
    case Delete(target) => DeletionEvolves(st, target);
    case SetData(entity, data) =>
  }

  /** Creation returns an object exactly where it may be asked for. */
  lemma CreatableIffCreated(st: State, name: string, kind: Kind, initial: Option<Id>, placeholder: bool)
    requires WF(st) && InitialOk(st, initial)
    ensures ResolveOrCreate(st, name, kind, initial, placeholder).1.Some? <==> Creatable(st, name, initial)
  {
    SplitNameMeaning(name);
    WalkArrivesIffPassable(st, Start(st, initial), HeadTokens(name), placeholder);
  }

  lemma {:induction false} PassablePrefix(objs: Objects, c: Id, a: seq<string>, b: seq<string>)
    requires Passable(objs, c, a + b)
    ensures Passable(objs, c, a)
    decreases |a|
  {
    if a != [] {
      assert (a + b)[1..] == a[1..] + b;
      if a[0] in NamesOf(objs, c) {
        PassablePrefix(objs, NamesOf(objs, c)[a[0]].target, a[1..], b);
      }
    }
  }

  lemma SourceEntityFacts(st: State, sourceName: Option<string>, entity: Option<Id>)
    requires WF(st)
    ensures WF(SourceEntity(st, sourceName, entity).0)
  {
    if sourceName.Some? {
      ResolveFacts(st, sourceName.value, None);
    }
  }

  lemma PassableToTheEnd(st: State, name: string, initial: Option<Id>)
    requires Passable(st.objs, Start(st, initial), Components(name))
    ensures Creatable(st, name, initial)
  {
    PassablePrefix(st.objs, Start(st, initial), HeadTokens(name), Components(name)[|HeadTokens(name)|..]);
    assert Components(name) == HeadTokens(name) + Components(name)[|HeadTokens(name)|..];
  }

  // ---------- every run ----------

  lemma {:induction false} RunKeepsWF(st: State, ops: seq<Op>)
    requires WF(st) && Runnable(st, ops)
    ensures WF(Run(st, ops)) && Evolves(st, Run(st, ops))
    decreases |ops|
  {
    if ops != [] {
      var mid := Apply(st, ops[0]);
      ApplyKeepsWF(st, ops[0]);
      ApplyEvolves(st, ops[0]);
      RunKeepsWF(mid, ops[1..]);
      EvolvesTransitive(st, mid, Run(st, ops));
    }
  }

  lemma EvolvesTransitive(s: State, t: State, u: State)
    requires Evolves(s, t) && Evolves(t, u)
    requires forall x :: x in s.objs ==> x < s.next
    ensures Evolves(s, u)
  {
    forall x | x in s.objs && x in u.objs
      ensures EvolvesObj(s.objs[x], u.objs[x])
    {
      assert x in t.objs;
      assert EvolvesObj(s.objs[x], t.objs[x]) && EvolvesObj(t.objs[x], u.objs[x]);
    }
  }

  /** The invariant holds in every state that any run reaches from a new domain. */
  lemma ReachableIsWF(counter: Id, ops: seq<Op>)
    requires Runnable(NewDomain(counter), ops)
    ensures WF(Run(NewDomain(counter), ops))
  {
    NewDomainIsWF(counter);
    RunKeepsWF(NewDomain(counter), ops);
  }

  /**
   Over any run an object becomes real at most once, never goes back, and becoming real is announced
   by exactly one creation event among those the run added.
   */
  lemma PromotedOnce(st: State, ops: seq<Op>, x: Id)
    requires WF(st) && Runnable(st, ops)
    requires x in st.objs && x in Run(st, ops).objs
    ensures var t := Run(st, ops);
            && st.log <= t.log
            && (IsReal(st.objs, x) ==> IsReal(t.objs, x))
            && CreatedCount(t.log[|st.log|..], x) == if IsReal(t.objs, x) && !IsReal(st.objs, x) then 1 else 0
  {
    var t := Run(st, ops);
    RunKeepsWF(st, ops);
    assert EvolvesObj(st.objs[x], t.objs[x]);
    AddedCount(st.log, t.log, x);
  }

  lemma AddedCount(log: seq<Event>, more: seq<Event>, x: Id)
    requires log <= more
    ensures CreatedCount(more[|log|..], x) == CreatedCount(more, x) - CreatedCount(log, x)
  {
    assert more == log + more[|log|..];
    CountOfConcat(log, more[|log|..], x);
  }

  lemma {:induction false} CountOfConcat(a: seq<Event>, b: seq<Event>, x: Id)
    ensures CreatedCount(a + b, x) == CreatedCount(a, x) + CreatedCount(b, x)
    decreases |b|
  {
    if b == [] {
      assert a + b == a;
    } else {
      var front, e := b[..|b| - 1], b[|b| - 1];
      assert a + b == (a + front) + [e] && b == front + [e];
      OneMoreEvent(a + front, e, x);
      OneMoreEvent(front, e, x);
      CountOfConcat(a, front, x);
    }
  }
}
