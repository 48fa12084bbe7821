/**
 Domains in which no context has ever been linked. Whatever else clients have done to one, created, unbound and
 deleted, it can be swept at any time and after any sweep.
 */
module LinkFree {
  import opened Wrappers
  import opened Paths
  import opened NameGraph
  import opened Resolution
  import opened ResolutionLaws
  import opened NamingLaws
  import opened Operations
  import opened TreeTraverse
  import opened Sweep
  import opened SweepEnds
  import opened SweepSafety
  import opened CleaningThread

  /** A context bound in the one it was created in, under its own name; nobody else refers to it. */
  ghost predicate BoundAtHome(objs: Objects, c: Id, n: string, x: Id) {
    IsOwn(objs, c, n, x) && forall r :: r in objs[x].referrers ==> r == c
  }

  ghost predicate Unlinked(objs: Objects) {
    forall c, n {:trigger NamesOf(objs, c)[n]} :: n in NamesOf(objs, c) && NamesOf(objs, c)[n].tag == ContextBinding ==>
      BoundAtHome(objs, c, n, NamesOf(objs, c)[n].target)
  }

  // ---------- every operation but linking ----------

  /** Objects, bindings and referrers have only gone. */
  ghost predicate OnlyLess(s: Objects, t: Objects) {
    forall x :: x in t ==> x in s && SameIdentity(s[x], t[x]) && LessAt(s[x], t[x])
  }

  ghost predicate LessAt(o: Obj, p: Obj) {
    && (forall n :: n in p.names ==> n in o.names && p.names[n] == o.names[n])
    && (forall r :: r in p.referrers ==> r in o.referrers)
  }

  lemma LessKeepsUnlinked(s: Objects, t: State)
    requires Unlinked(s) && WF(t) && OnlyLess(s, t.objs)
    ensures Unlinked(t.objs)
  {
    forall c, n | n in NamesOf(t.objs, c) && NamesOf(t.objs, c)[n].tag == ContextBinding
      ensures BoundAtHome(t.objs, c, n, NamesOf(t.objs, c)[n].target)
    {
      assert LessAt(s[c], t.objs[c]);
      var x := NamesOf(s, c)[n].target;
      assert BoundAtHome(s, c, n, x);
      BoundObject(t, c, n);
      assert LessAt(s[x], t.objs[x]);
    }
  }

  lemma CreateKeepsUnlinked(st: State, kind: Kind, name: string, c: Id, shown: string)
    requires WF(st) && Unlinked(st.objs) && IsContext(st.objs, c) && name !in NamesOf(st.objs, c)
    ensures Unlinked(Create(st, kind, name, c, shown).objs)
  {
    CreateFacts(st, kind, name, c, shown);
    var after := Create(st, kind, name, c, shown).objs;
    forall d, n | n in NamesOf(after, d) && NamesOf(after, d)[n].tag == ContextBinding
      ensures BoundAtHome(after, d, n, NamesOf(after, d)[n].target)
    {
      if n in NamesOf(st.objs, d) {
        assert BoundAtHome(st.objs, d, n, NamesOf(st.objs, d)[n].target);
      }
    }
  }

  lemma PromoteKeepsUnlinked(st: State, x: Id, fl: Flags)
    requires Unlinked(st.objs)
    ensures Unlinked(Promote(st, x, fl).objs)
  {
    var after := Promote(st, x, fl).objs;
    forall d, n | n in NamesOf(after, d) && NamesOf(after, d)[n].tag == ContextBinding
      ensures BoundAtHome(after, d, n, NamesOf(after, d)[n].target)
    {
      assert BoundAtHome(st.objs, d, n, NamesOf(st.objs, d)[n].target);
    }
  }

  /** Found or created, and promoted as asked. */
  lemma LastKeepsUnlinked(st: State, c: Id, last: string, kind: Kind, name: string, fl: Flags)
    requires WF(st) && IsContext(st.objs, c) && Unlinked(st.objs)
    ensures var (mid, x) := LookupOrConstruct(st, c, last, kind, name); Unlinked(Promote(mid, x, fl).objs)
  {
    if last !in NamesOf(st.objs, c) {
      CreateKeepsUnlinked(st, kind, last, c, name);
    }
    var (mid, x) := LookupOrConstruct(st, c, last, kind, name);
    PromoteKeepsUnlinked(mid, x, fl);
  }

  lemma {:induction false} WalkKeepsUnlinked(st: State, c: Id, tokens: seq<string>, fl: Flags)
    requires WF(st) && IsContext(st.objs, c) && CleanTokens(tokens) && Unlinked(st.objs)
    ensures Unlinked(Walk(st, Some(c), tokens, fl).0.objs)
    decreases |tokens|
  {
    if tokens != [] {
      StepKeepsWF(st, c, tokens[0], fl);
      StepFacts(st, c, tokens[0], fl);
      LastKeepsUnlinked(st, c, tokens[0], ContextKind, tokens[0], fl);
      var (st1, c1) := Step(st, c, tokens[0], fl);
      if c1.Some? {
        WalkKeepsUnlinked(st1, c1.value, tokens[1..], fl);
      }
    }
  }

  lemma NamedKeepsUnlinked(st: State, name: string, initial: Option<Id>, fl: Flags)
    requires WF(st) && InitialOk(st, initial) && Unlinked(st.objs)
    ensures Unlinked(ContextOfName(st, name, initial, fl).0.objs)
  {
    HeadTokensClean(name);
    WalkKeepsUnlinked(st, Start(st, initial), HeadTokens(name), fl);
  }

  lemma CreationKeepsUnlinked(st: State, name: string, kind: Kind, initial: Option<Id>, placeholder: bool)
    requires WF(st) && InitialOk(st, initial) && Unlinked(st.objs)
    ensures Unlinked(ResolveOrCreate(st, name, kind, initial, placeholder).0.objs)
  {
    var fl := Flags(true, placeholder);
    NamedKeepsUnlinked(st, name, initial, fl);
    ContextOfNameFacts(st, name, initial, fl);
    SplitNameMeaning(name);
    var (st1, parent) := ContextOfName(st, name, initial, fl);
    if name != [SEPARATOR] && parent.Some? {
      LastKeepsUnlinked(st1, parent.value, SplitName(name).tail.value, kind, name, fl);
    }
  }

  /** Linking an entity touches no context but the one that binds it. */
  lemma EntityKeepsUnlinked(st: State, c: Id, name: string, e: Id, shown: string)
    requires WF(st) && Unlinked(st.objs) && e in st.objs && st.objs[e].kind == EntityKind
    ensures Unlinked(Bind(st, c, name, Binding(EntityBinding, e), shown).objs)
  {
    var after := Bind(st, c, name, Binding(EntityBinding, e), shown).objs;
    forall d, n | n in NamesOf(after, d) && NamesOf(after, d)[n].tag == ContextBinding
      ensures BoundAtHome(after, d, n, NamesOf(after, d)[n].target)
    {
      assert n in NamesOf(st.objs, d) && NamesOf(st.objs, d)[n] == NamesOf(after, d)[n];
      assert BoundAtHome(st.objs, d, n, NamesOf(st.objs, d)[n].target);
      BoundObject(st, d, n);
    }
  }

  lemma LinkKeepsUnlinked(st: State, entity: Id, initial: Option<Id>, newName: string)
    requires WF(st) && Unlinked(st.objs) && Enabled(st, LinkEntity(entity, initial, newName))
    ensures Unlinked(BindEntity(st, entity, initial, newName).0.objs)
  {
    var p := SplitName(newName);
    if p.tail.Some? {
      CreationKeepsUnlinked(st, p.head.value, ContextKind, initial, false);
      ResolveOrCreateFacts(st, p.head.value, ContextKind, initial, false);
      var (st1, parent) := ResolveOrCreate(st, p.head.value, ContextKind, initial, false);
      assert entity in st1.objs && GrowsObj(st.objs[entity], st1.objs[entity]);
      if parent.Some? {
        EntityKeepsUnlinked(st1, parent.value, p.tail.value, entity, p.tail.value);
      }
    }
  }

  lemma UnbindIsLess(st: State, c: Id, name: string)
    ensures OnlyLess(st.objs, Unbind(st, c, name).objs)
  {
    if name in NamesOf(st.objs, c) && st.objs[c].names[name].target in st.objs {
      RemoveFirstKnows(st.objs[st.objs[c].names[name].target].referrers, c);
    }
  }

  lemma KillingIsLess(st: State, c: Id)
    ensures OnlyLess(st.objs, KillBindings(st, c).objs)
  {
    forall x | x in st.objs
      ensures LessAt(st.objs[x], KillBindings(st, c).objs[x])
    {
      RemoveManyKnows(st.objs[x].referrers, c, |BoundNames(NamesOf(st.objs, c), x)|);
    }
  }

  lemma DeletingIsLess(st: State, x: Id)
    ensures OnlyLess(st.objs, Remove(st, x).objs)
  {
  }

  lemma StoringIsLess(st: State, e: Id, data: string)
    ensures OnlyLess(st.objs, SetCharData(st, e, data).objs)
  {
  }

  lemma UnbindingKeepsUnlinked(st: State, name: string, initial: Option<Id>)
    requires WF(st) && InitialOk(st, initial) && Unlinked(st.objs)
    ensures Unlinked(RemoveBinding(st, name, initial).0.objs)
  {
    NamedKeepsUnlinked(st, name, initial, READ);
    ContextOfNameFacts(st, name, initial, READ);
    var (st1, target) := ContextOfName(st, name, initial, READ);
    var last := SplitName(name).tail;
    if target.Some? && last.Some? {
      UnbindKeepsWF(st1, target.value, last.value);
      UnbindIsLess(st1, target.value, last.value);
      LessKeepsUnlinked(st1.objs, Unbind(st1, target.value, last.value));
    }
  }

  lemma ApplyKeepsUnlinked(st: State, op: Op)
    requires WF(st) && Enabled(st, op) && !op.LinkContext? && Unlinked(st.objs)
    ensures Unlinked(Apply(st, op).objs)
  {
    match op
    case ResolveName(name, initial) => NamedKeepsUnlinked(st, name, initial, READ);
    case CreateName(name, kind, initial, placeholder) => CreationKeepsUnlinked(st, name, kind, initial, placeholder);
    case LinkEntity(entity, initial, newName) => LinkKeepsUnlinked(st, entity, initial, newName);
    case UnbindName(name, initial) => UnbindingKeepsUnlinked(st, name, initial);
    case KillAll(context) =>
      ApplyKeepsWF(st, op);
      KillingIsLess(st, context);
      LessKeepsUnlinked(st.objs, Apply(st, op));
    case Delete(target) =>
      ApplyKeepsWF(st, op);
      DeletingIsLess(st, target);
      LessKeepsUnlinked(st.objs, Apply(st, op));
    case SetData(entity, data) =>
      ApplyKeepsWF(st, op);
      StoringIsLess(st, entity, data);
      LessKeepsUnlinked(st.objs, Apply(st, op));
  }

  lemma {:induction false} RunKeepsUnlinked(st: State, ops: seq<Op>)
    requires WF(st) && Runnable(st, ops) && Unlinked(st.objs) && forall op :: op in ops ==> !op.LinkContext?
    ensures Unlinked(Run(st, ops).objs)
    decreases |ops|
  {
    if ops != [] {
      ApplyKeepsWF(st, ops[0]);
      ApplyKeepsUnlinked(st, ops[0]);
      RunKeepsUnlinked(Apply(st, ops[0]), ops[1..]);
    }
  }

  // ---------- sweeps ----------

  lemma UnlinkedIsAtHome(st: State)
    requires WF(st) && Unlinked(st.objs)
    ensures AtHome(st.objs, st.root)
  {
    assert ObjOk(st.objs, st.root, st.root);
    forall c, n | RealContextAt(st.objs, c, n)
      ensures HomeAt(st.objs, c, n)
    {
      var x := NamesOf(st.objs, c)[n].target;
      assert BoundAtHome(st.objs, c, n, x) && ObjOk(st.objs, st.root, x);
    }
  }

  /**
   A run of operations on a new domain that links no context: no sweep of what it leaves goes wrong or lasts
   forever.
   */
  lemma LinkFreeIsSweepable(first: Id, ops: seq<Op>, timeout: string)
    requires Runnable(NewDomain(first), ops) && forall op :: op in ops ==> !op.LinkContext?
    ensures var st := Run(NewDomain(first), ops); var g := Graph(st.objs, timeout, st.root);
            Sweepable(g) && NoLiveCycle(g)
  {
    NewDomainIsWF(first);
    RunKeepsWF(NewDomain(first), ops);
    RunKeepsUnlinked(NewDomain(first), ops);
    var st := Run(NewDomain(first), ops);
    UnlinkedIsAtHome(st);
    HomeIsSweepable(Graph(st.objs, timeout, st.root));
  }

  lemma SweepingIsLess(objs: Objects, dead: set<Id>)
    ensures OnlyLess(objs, EraseSet(objs, dead))
  {
  }

  /** And once its heartbeats have data, it can be swept again and again. */
  lemma SweptIsCleanable(st: State, timeout: string, after: State, removed: seq<Id>, later: string)
    requires WF(st) && Unlinked(st.objs) && Cleaned(st, timeout, after, removed)
    ensures Unlinked(after.objs) && Cleanable(Graph(after.objs, later, after.root))
  {
    SweepingIsLess(st.objs, AllDoomed(Graph(st.objs, timeout, st.root)));
    LessKeepsUnlinked(st.objs, after);
    UnlinkedIsAtHome(after);
    HomeIsSweepable(Graph(after.objs, later, after.root));
  }
}
