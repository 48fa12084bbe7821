/**
 Name resolution: the walk along a path, with its optional creation of contexts and its
 promotion of placeholders, and the operations of a domain that are built on it.
 */
module Resolution {
  import opened Wrappers
  import opened Paths
  import opened NameGraph

  /** `make_name_path` and `make_placeholders`. */
  datatype Flags = Flags(makeNamePath: bool, makePlaceholders: bool)

  const READ := Flags(false, false)

  // ---------- specification ----------

  /** One round of the loop in `get_context_of_name`. */
  function Step(st: State, c: Id, token: string, fl: Flags): (State, Option<Id>) {
    var names := NamesOf(st.objs, c);
    if token in names then
      var t := names[token].target;
      if !IsContext(st.objs, t) then (st, None) else (Promote(st, t, fl), Some(t))
    else if fl.makeNamePath then
      var child := st.next;
      (Promote(Create(st, ContextKind, token, c, token), child, fl), Some(child))
    else
      (st, None)
  }

  function Promote(st: State, t: Id, fl: Flags): State {
    if t in st.objs && st.objs[t].placeholder && !fl.makePlaceholders then MakeReal(st, t) else st
  }

  function Walk(st: State, c: Option<Id>, tokens: seq<string>, fl: Flags): (State, Option<Id>)
    decreases |tokens|
  {
    if c.None? || tokens == [] then (st, c)
    else
      var (st1, c1) := Step(st, c.value, tokens[0], fl);
      Walk(st1, c1, tokens[1..], fl)
  }

  function Start(st: State, initial: Option<Id>): Id {
    if initial.Some? then initial.value else st.root
  }

  /** `Domain::get_context_of_name`; the last component is `SplitName(name).tail`. */
  function ContextOfName(st: State, name: string, initial: Option<Id>, fl: Flags): (State, Option<Id>) {
    Walk(st, Some(Start(st, initial)), HeadTokens(name), fl)
  }

  /** `Domain::resolve_name`. */
  function Resolve(st: State, name: string, initial: Option<Id>): (State, Option<Id>) {
    var (st1, parent) := ContextOfName(st, name, initial, READ);
    if parent.None? then (st1, None)
    else
      match SplitName(name).tail
      case None => (st1, parent)
      case Some(last) =>
        var names := NamesOf(st1.objs, parent.value);
        (st1, if last in names && IsReal(st1.objs, names[last].target) then Some(names[last].target) else None)
  }

  /** `Domain::resolve_or_create_name`; None where the engine would follow a NULL parent. */
  function ResolveOrCreate(st: State, name: string, kind: Kind, initial: Option<Id>, placeholder: bool)
    : (State, Option<Id>)
  {
    if name == [SEPARATOR] then (st, Some(st.root))
    else
      var fl := Flags(true, placeholder);
      var (st1, parent) := ContextOfName(st, name, initial, fl);
      var last := SplitName(name).tail;
      if parent.None? || last.None? then (st1, None)
      else
        var (st2, x) := LookupOrConstruct(st1, parent.value, last.value, kind, name);
        (Promote(st2, x, fl), Some(x))
  }

  function LookupOrConstruct(st: State, c: Id, last: string, kind: Kind, name: string): (State, Id) {
    var names := NamesOf(st.objs, c);
    if last in names then (st, names[last].target)
    else
      var x := st.next;
      (Create(st, kind, last, c, name), x)
  }

  /** No component but the last is bound to an entity, so the walk never meets a NULL parent. */
  predicate Passable(objs: Objects, c: Id, tokens: seq<string>)
    decreases |tokens|
  {
    tokens == [] || tokens[0] !in NamesOf(objs, c) ||
    var t := NamesOf(objs, c)[tokens[0]].target;
    IsContext(objs, t) && Passable(objs, t, tokens[1..])
  }

  /** A context that is promoted is announced under its full name, so its ancestors must be alive. */
  predicate Promotable(objs: Objects, t: Id, fl: Flags) {
    t in objs && objs[t].placeholder && !fl.makePlaceholders ==> Nameable(objs, t)
  }

  /** A context that is created here, or found here and promoted, can be announced. */
  predicate StepTellable(objs: Objects, c: Id, token: string, kind: Kind, fl: Flags) {
    if token in NamesOf(objs, c) then Promotable(objs, NamesOf(objs, c)[token].target, fl)
    else kind == ContextKind && fl.makeNamePath && !fl.makePlaceholders ==> ChainAlive(objs, c)
  }

  /** The contexts that a walk creates or promotes can all be announced. What it creates lies below where it ends. */
  predicate Tellable(objs: Objects, c: Id, tokens: seq<string>, fl: Flags)
    decreases |tokens|
  {
    tokens == [] ||
    (&& StepTellable(objs, c, tokens[0], ContextKind, fl)
     && (tokens[0] in NamesOf(objs, c) && IsContext(objs, NamesOf(objs, c)[tokens[0]].target) ==>
           Tellable(objs, NamesOf(objs, c)[tokens[0]].target, tokens[1..], fl)))
  }

  /** The same of a creation: the walk along all components but the last, and the last. */
  predicate CreationTellable(objs: Objects, c: Id, name: string, kind: Kind, fl: Flags) {
    && Tellable(objs, c, HeadTokens(name), fl)
    && var parent, last := Follow(objs, c, HeadTokens(name)), SplitName(name).tail;
       parent.Some? && last.Some? ==> StepTellable(objs, parent.value, last.value, kind, fl)
  }

  /** The graph as the walk reads it: names and classes only. */
  function Follow(objs: Objects, c: Id, tokens: seq<string>): Option<Id>
    decreases |tokens|
  {
    if tokens == [] then Some(c)
    else if tokens[0] in NamesOf(objs, c) && IsContext(objs, NamesOf(objs, c)[tokens[0]].target) then
      Follow(objs, NamesOf(objs, c)[tokens[0]].target, tokens[1..])
    else None
  }

  /** Every component is bound to a context that is already real. */
  ghost predicate Open(objs: Objects, c: Id, tokens: seq<string>)
    decreases |tokens|
  {
    tokens == [] ||
    (&& tokens[0] in NamesOf(objs, c)
     && var t := NamesOf(objs, c)[tokens[0]].target;
     && IsContext(objs, t) && IsReal(objs, t)
     && Open(objs, t, tokens[1..]))
  }

  ghost predicate CleanTokens(tokens: seq<string>) {
    forall i :: 0 <= i < |tokens| ==> CleanName(tokens[i])
  }

  ghost predicate InitialOk(st: State, initial: Option<Id>) {
    initial.Some? ==> IsContext(st.objs, initial.value)
  }

  // ---------- nothing is lost ----------

  ghost predicate GrowsObj(o: Obj, p: Obj) {
    && p.kind == o.kind && p.name == o.name && p.parent == o.parent
    && (forall n :: n in o.names ==> n in p.names && p.names[n] == o.names[n])
    && (!o.placeholder ==> !p.placeholder)
  }

  /** Every object, binding and promotion of `s` is still there in `t`. */
  ghost predicate Grows(s: State, t: State) {
    && t.root == s.root
    && s.log <= t.log && s.next <= t.next
    && GrowsObjects(s.objs, t.objs)
  }

  ghost predicate GrowsObjects(s: Objects, t: Objects) {
    forall x {:trigger x in t} {:trigger t[x]} :: x in s ==> x in t && GrowsObj(s[x], t[x])
  }

  lemma PromoteFacts(st: State, t: Id, fl: Flags)
    requires WF(st) && t in st.objs
    ensures var st' := Promote(st, t, fl);
            && WF(st') && Grows(st, st') && st'.objs.Keys == st.objs.Keys && st'.next == st.next
            && (!fl.makePlaceholders ==> IsReal(st'.objs, t))
            && (forall x :: NamesOf(st'.objs, x) == NamesOf(st.objs, x))
  {
    if st.objs[t].placeholder && !fl.makePlaceholders {
      MakeRealKeepsWF(st, t);
    }
  }

  /** Creating an object and binding it in a context that does not have the name yet. */
  function Create(st: State, kind: Kind, name: string, c: Id, shown: string): State {
    Bind(Construct(st, kind, name, Some(c)), c, name, Binding(TagOf(kind), st.next), shown)
  }

  lemma CreateKeepsWF(st: State, kind: Kind, name: string, c: Id, shown: string)
    requires WF(st) && IsContext(st.objs, c)
    requires name == "" || LastName(name)
    ensures WF(Create(st, kind, name, c, shown)) && st.next !in st.objs
  {
    ConstructKeepsWF(st, kind, name, c);
    BindKeepsWF(Construct(st, kind, name, Some(c)), c, name, Binding(TagOf(kind), st.next), shown);
  }

  lemma CreateFacts(st: State, kind: Kind, name: string, c: Id, shown: string)
    requires st.next !in st.objs && c in st.objs && name !in NamesOf(st.objs, c)
    ensures var x := st.next;
            var st' := Create(st, kind, name, c, shown);
            && st'.root == st.root && st'.next == st.next + 1 && st'.log == st.log + [BoundIn(c, shown)]
            && st'.objs == st.objs[c := st.objs[c].(names := st.objs[c].names[name := Binding(TagOf(kind), x)])]
                                  [x := NewObj(kind, name, Some(c)).(referrers := [c, c])]
            && Grows(st, st')
  {
    var x := st.next;
    var built := Construct(st, kind, name, Some(c)).objs;
    assert NamesOf(built, c) == st.objs[c].names;
    var st' := Create(st, kind, name, c, shown);
    assert st'.objs.Keys == built.Keys;
    assert st'.log == st.log + [BoundIn(c, shown)];
    assert st'.objs[x] == NewObj(kind, name, Some(c)).(referrers := [c, c]);
    assert st'.objs[c] == st.objs[c].(names := st.objs[c].names[name := Binding(TagOf(kind), x)]);
    assert GrowsObj(st.objs[c], st'.objs[c]);
    assert GrowsObjects(st.objs, st'.objs);
  }

  /** What one round relies on: the context is alive, and what it binds under the token is alive and rightly tagged. */
  ghost predicate Steppable(st: State, c: Id, token: string) {
    && IsContext(st.objs, c) && st.next !in st.objs
    && (token in NamesOf(st.objs, c) ==> BindingOk(st.objs, NamesOf(st.objs, c)[token]))
  }

  lemma StepKeepsWF(st: State, c: Id, token: string, fl: Flags)
    requires WF(st) && IsContext(st.objs, c)
    requires fl.makeNamePath ==> CleanName(token)
    ensures WF(Step(st, c, token, fl).0)
    ensures Steppable(st, c, token)
  {
    if token in NamesOf(st.objs, c) {
      assert ObjOk(st.objs, st.root, c);
      var t := NamesOf(st.objs, c)[token].target;
      assert BindingOk(st.objs, st.objs[c].names[token]);
      PromoteFacts(st, t, fl);
    } else if fl.makeNamePath {
      CreateKeepsWF(st, ContextKind, token, c, token);
      CreateFacts(st, ContextKind, token, c, token);
      PromoteFacts(Create(st, ContextKind, token, c, token), st.next, fl);
    }
  }

  lemma LastIsSteppable(st: State, c: Id, last: string)
    requires WF(st) && IsContext(st.objs, c)
    ensures Steppable(st, c, last)
  {
    assert ObjOk(st.objs, st.root, c);
  }

  ghost predicate Arrives(objs: Objects, c: Id, token: string, r: Id, fl: Flags) {
    && IsContext(objs, r)
    && token in NamesOf(objs, c) && NamesOf(objs, c)[token].target == r
    && (!fl.makePlaceholders ==> IsReal(objs, r))
  }

  lemma StepFacts(st: State, c: Id, token: string, fl: Flags)
    requires st.next !in st.objs && IsContext(st.objs, c)
    ensures var (st', r) := Step(st, c, token, fl);
            && Grows(st, st')
            && (r.Some? ==> Arrives(st'.objs, c, token, r.value, fl))
            && (r.Some? <==> if token in NamesOf(st.objs, c)
                             then IsContext(st.objs, NamesOf(st.objs, c)[token].target)
                             else fl.makeNamePath)
  {
    if token !in NamesOf(st.objs, c) && fl.makeNamePath {
      CreateFacts(st, ContextKind, token, c, token);
    }
  }

  lemma GrowsTransitive(s: State, t: State, u: State)
    requires Grows(s, t) && Grows(t, u)
    ensures Grows(s, u)
  {
    forall x | x in s.objs
      ensures x in u.objs && GrowsObj(s.objs[x], u.objs[x])
    {
      assert x in t.objs;
    }
  }

  lemma {:induction false} WalkFacts(st: State, c: Id, tokens: seq<string>, fl: Flags)
    requires WF(st) && IsContext(st.objs, c) && CleanTokens(tokens)
    ensures var (st', r) := Walk(st, Some(c), tokens, fl);
            && WF(st') && Grows(st, st')
            && (r.Some? ==> IsContext(st'.objs, r.value))
    decreases |tokens|
  {
    if tokens != [] {
      StepKeepsWF(st, c, tokens[0], fl);
      StepFacts(st, c, tokens[0], fl);
      var (st1, c1) := Step(st, c, tokens[0], fl);
      if c1.Some? {
        WalkFacts(st1, c1.value, tokens[1..], fl);
        GrowsTransitive(st, st1, Walk(st1, c1, tokens[1..], fl).0);
      }
    }
  }
}
