/**
 The state of one domain: its live contexts and entities by object ID, and the domain change
 events sent so far. The primitive changes that the engine makes to it are defined here, with
 the invariant every one of them keeps.
 */
module NameGraph {
  import opened Wrappers
  import opened Paths

  type Id = nat

  datatype Kind = ContextKind | EntityKind

  datatype BindingType = NoBinding | ContextBinding | EntityBinding

  datatype Binding = Binding(tag: BindingType, target: Id)

  /** A context or an entity. `parent` never changes; `names` is the name map, empty in an entity. */
  datatype Obj = Obj(kind: Kind, name: string, parent: Option<Id>, referrers: seq<Id>,
                     names: map<string, Binding>, placeholder: bool, hasAttributes: bool,
                     charData: Option<string>)

  type Objects = map<Id, Obj>

  datatype Event =
    | Created(id: Id, fullName: Option<string>)
    | Deleted(id: Id, fullName: Option<string>)
    | BoundIn(context: Id, name: string)
    | ContextUnbound(id: Id, name: string)
    | EntityBound(id: Id)
    | EntityUnbound(id: Id)

  datatype State = State(objs: Objects, root: Id, next: Id, log: seq<Event>)

  function TagOf(kind: Kind): BindingType {
    if kind == ContextKind then ContextBinding else EntityBinding
  }

  predicate IsContext(objs: Objects, c: Id) {
    c in objs && objs[c].kind == ContextKind
  }

  predicate IsReal(objs: Objects, x: Id) {
    x in objs && !objs[x].placeholder
  }

  function NamesOf(objs: Objects, c: Id): map<string, Binding> {
    if c in objs then objs[c].names else map[]
  }

  function BoundNames(names: map<string, Binding>, x: Id): set<string> {
    set n | n in names && names[n].target == x
  }

  // ---------- ancestors ----------

  /** A parent that is alive, and older than its child as every parent is. */
  predicate HasParent(objs: Objects, x: Id) {
    x in objs && objs[x].parent.Some? && objs[x].parent.value < x && objs[x].parent.value in objs
  }

  function ParentOf(objs: Objects, x: Id): Id
    requires HasParent(objs, x)
  {
    objs[x].parent.value
  }

  /** The object and all its ancestors are alive. */
  predicate ChainAlive(objs: Objects, x: Id)
    decreases x
  {
    x in objs && (objs[x].parent.Some? ==> HasParent(objs, x) && ChainAlive(objs, ParentOf(objs, x)))
  }

  function FullName(objs: Objects, x: Id): string
    requires x in objs
    decreases x, 0
  {
    if !HasParent(objs, x) then objs[x].name else HeadName(objs, ParentOf(objs, x)) + [SEPARATOR] + objs[x].name
  }

  /** What stands before the separator of a child's name: nothing for the root. */
  function HeadName(objs: Objects, p: Id): string
    requires p in objs
    decreases p, 1
  {
    if HasParent(objs, p) then FullName(objs, p) else ""
  }

  /** The name that an event about this object tells: the full name of a context, nothing of an entity. */
  function ToldName(objs: Objects, x: Id): Option<string> {
    if IsContext(objs, x) then Some(FullName(objs, x)) else None
  }

  /** Wherever the name of `x` is asked for, its ancestors can be gone through. */
  predicate Nameable(objs: Objects, x: Id) {
    IsContext(objs, x) ==> ChainAlive(objs, x)
  }

  /** Nothing as old as `x` is new, and all that is left of it has kept its parent and its name. */
  ghost predicate SameOlder(before: Objects, after: Objects, x: Id) {
    forall y :: y in after && y <= x ==>
      y in before && after[y].parent == before[y].parent && after[y].name == before[y].name
  }

  /** A chain that is alive was so before, under the same names. */
  lemma {:induction false} SameChain(before: Objects, after: Objects, x: Id)
    requires SameOlder(before, after, x) && ChainAlive(after, x)
    ensures ChainAlive(before, x) && FullName(after, x) == FullName(before, x)
    ensures HeadName(after, x) == HeadName(before, x)
    decreases x
  {
    if after[x].parent.Some? {
      SameChain(before, after, ParentOf(after, x));
    }
  }

  // ---------- the invariant ----------

  /** How often `c` must occur among the referrers of `x`: once per binding, and once for being its parent. */
  function Expected(objs: Objects, x: Id, c: Id): nat
    requires x in objs
  {
    |BoundNames(NamesOf(objs, c), x)| + if objs[x].parent == Some(c) then 1 else 0
  }

  function RefCount(objs: Objects, x: Id, c: Id): nat
    requires x in objs
  {
    multiset(objs[x].referrers)[c]
  }

  /** Of what is alive; a deleted context stays on the referrer lists of what it bound and of its children. */
  ghost predicate Balanced(objs: Objects) {
    forall x, c :: x in objs && c in objs ==> RefCount(objs, x, c) == Expected(objs, x, c)
  }

  ghost predicate ObjOk(objs: Objects, root: Id, x: Id)
    requires x in objs
  {
    var o := objs[x];
    && (o.parent.None? <==> x == root)
    && (o.parent.Some? ==> o.parent.value < x && (o.parent.value in objs ==> IsContext(objs, o.parent.value)))
    && (o.kind == EntityKind ==> o.names == map[])
    && (forall n :: n in o.names ==> BindingOk(objs, o.names[n]))
    && (!o.placeholder ==> o.hasAttributes)
    && (x == root || o.name == "" || LastName(o.name))
  }

  ghost predicate BindingOk(objs: Objects, b: Binding) {
    b.target in objs && b.tag == TagOf(objs[b.target].kind)
  }

  /** Referrers have been objects of the domain once, dead or alive. */
  ghost predicate Known(referrers: seq<Id>, next: Id) {
    forall r :: r in referrers ==> r < next
  }

  ghost predicate Typed(st: State) {
    && IsContext(st.objs, st.root) && IsReal(st.objs, st.root)
    && st.objs[st.root].name == [SEPARATOR]
    && (forall x :: x in st.objs ==> x < st.next && Known(st.objs[x].referrers, st.next))
    && (forall x {:trigger ObjOk(st.objs, st.root, x)} :: x in st.objs ==> ObjOk(st.objs, st.root, x))
  }

  predicate CreationOf(e: Event, x: Id) {
    e.Created? && e.id == x
  }

  function CreatedCount(log: seq<Event>, x: Id): nat
    decreases |log|
  {
    if log == [] then 0
    else CreatedCount(log[..|log| - 1], x) + if CreationOf(log[|log| - 1], x) then 1 else 0
  }

  /** Every real object has been announced once and no placeholder has; nothing is announced twice, dead or alive. */
  ghost predicate Announced(st: State) {
    && (forall x :: x in st.objs ==> CreatedCount(st.log, x) == if st.objs[x].placeholder then 0 else 1)
    && (forall x: Id :: CreatedCount(st.log, x) <= if x < st.next then 1 else 0)
  }

  /** A real object was announced under its name, if that can still be read. */
  ghost predicate ToldAt(st: State, x: Id) {
    IsReal(st.objs, x) && Nameable(st.objs, x) ==> Created(x, ToldName(st.objs, x)) in st.log
  }

  ghost predicate Told(st: State) {
    forall x {:trigger ToldAt(st, x)} :: x in st.objs ==> ToldAt(st, x)
  }

  ghost predicate WF(st: State) {
    Typed(st) && Balanced(st.objs) && Announced(st) && Told(st)
  }

  // ---------- primitive changes ----------

  function AddReferrer(objs: Objects, x: Id, c: Id): Objects {
    if x in objs then objs[x := objs[x].(referrers := objs[x].referrers + [c])] else objs
  }

  /** `find` and `erase`: the first occurrence goes. */
  function RemoveFirst(s: seq<Id>, c: Id): seq<Id> {
    if s == [] then [] else if s[0] == c then s[1..] else [s[0]] + RemoveFirst(s[1..], c)
  }

  function RemoveReferrer(objs: Objects, x: Id, c: Id): Objects {
    if x in objs then objs[x := objs[x].(referrers := RemoveFirst(objs[x].referrers, c))] else objs
  }

  function WithNames(objs: Objects, c: Id, names: map<string, Binding>): Objects {
    if c in objs then objs[c := objs[c].(names := names)] else objs
  }

  function NewObj(kind: Kind, name: string, parent: Option<Id>): Obj {
    Obj(kind, name, parent, if parent.Some? then [parent.value] else [], map[], true, false, None)
  }

  /** The constructor of a context or an entity: a placeholder that already counts its parent as a referrer. */
  function Construct(st: State, kind: Kind, name: string, parent: Option<Id>): State {
    st.(objs := st.objs[st.next := NewObj(kind, name, parent)], next := st.next + 1)
  }

  /** `Context::bind`: an insert that leaves an existing binding alone. */
  function Bind(st: State, c: Id, name: string, b: Binding, shown: string): State {
    if name in NamesOf(st.objs, c) then st
    else
      st.(objs := AddReferrer(WithNames(st.objs, c, NamesOf(st.objs, c)[name := b]), b.target, c),
          log := st.log + [BoundIn(c, shown)])
  }

  /** `Context::unbind` by name. */
  function Unbind(st: State, c: Id, name: string): State {
    if name !in NamesOf(st.objs, c) then st
    else
      st.(objs := WithNames(RemoveReferrer(st.objs, st.objs[c].names[name].target, c), c, st.objs[c].names - {name}))
  }

  function MakeReal(st: State, x: Id): State {
    if x !in st.objs then st
    else
      st.(objs := st.objs[x := st.objs[x].(placeholder := false, hasAttributes := true)],
          log := st.log + [Created(x, ToldName(st.objs, x))])
  }

  function RemoveMany(s: seq<Id>, c: Id, k: nat): seq<Id>
    decreases k
  {
    if k == 0 then s else RemoveMany(RemoveFirst(s, c), c, k - 1)
  }

  /** Every object loses `c` from its referrers once for each of the given bindings of it. */
  function Release(objs: Objects, names: map<string, Binding>, c: Id): Objects {
    map x | x in objs :: objs[x].(referrers := RemoveMany(objs[x].referrers, c, |BoundNames(names, x)|))
  }

  /** `Context::kill_bindings`. */
  function KillBindings(st: State, c: Id): State {
    st.(objs := WithNames(Release(st.objs, NamesOf(st.objs, c), c), c, map[]))
  }

  /** What `kill_bindings` needs of the graph: what `c` binds is alive and lists `c` often enough. */
  ghost predicate Covered(objs: Objects, c: Id) {
    && (forall n :: n in NamesOf(objs, c) ==> NamesOf(objs, c)[n].target in objs)
    && (forall x :: x in objs ==> |BoundNames(NamesOf(objs, c), x)| <= RefCount(objs, x, c))
  }

  function WithoutTarget(names: map<string, Binding>, x: Id): map<string, Binding> {
    map n | n in names && names[n].target != x :: names[n]
  }

  /** Deletion: the object goes, and with it every binding of it, whatever it was called and wherever it stood. */
  function EraseObject(objs: Objects, x: Id): Objects {
    map y | y in objs && y != x :: objs[y].(names := WithoutTarget(objs[y].names, x))
  }

  function Remove(st: State, x: Id): State {
    st.(objs := EraseObject(st.objs, x), log := st.log + [Deleted(x, ToldName(st.objs, x))])
  }

  /** Not the root, and nothing whose destructor would follow a dead referrer. */
  ghost predicate Removable(st: State, x: Id) {
    x in st.objs && x != st.root && forall c :: c in st.objs[x].referrers ==> c in st.objs && c != x
  }

  /** What `Remove` may be asked to delete: the deletion event of a context reads its full name as well. */
  ghost predicate Deletable(st: State, x: Id) {
    Removable(st, x) && Nameable(st.objs, x)
  }

  function SetCharData(st: State, x: Id, data: string): State {
    if x !in st.objs then st else st.(objs := st.objs[x := st.objs[x].(charData := Some(data))])
  }

  // ---------- counting ----------

  lemma {:induction false} RemoveFirstCounts(s: seq<Id>, c: Id)
    requires c in s
    ensures multiset(RemoveFirst(s, c)) == multiset(s) - multiset{c}
  {
    assert s == [s[0]] + s[1..];
    if s[0] != c {
      RemoveFirstCounts(s[1..], c);
    }
  }

  lemma {:induction false} RemoveManyCounts(s: seq<Id>, c: Id, k: nat)
    requires k <= multiset(s)[c]
    ensures forall d :: multiset(RemoveMany(s, c, k))[d] == multiset(s)[d] - if d == c then k else 0
    decreases k
  {
    if k > 0 {
      assert c in multiset(s);
      RemoveFirstCounts(s, c);
      RemoveManyCounts(RemoveFirst(s, c), c, k - 1);
    }
  }

  lemma {:induction false} RemoveManySnoc(s: seq<Id>, c: Id, k: nat)
    ensures RemoveFirst(RemoveMany(s, c, k), c) == RemoveMany(s, c, k + 1)
    decreases k
  {
    if k > 0 {
      RemoveManySnoc(RemoveFirst(s, c), c, k - 1);
    }
  }

  lemma {:induction false} RemoveFirstKnows(s: seq<Id>, c: Id)
    ensures forall r :: r in RemoveFirst(s, c) ==> r in s
  {
    if s != [] && s[0] != c {
      RemoveFirstKnows(s[1..], c);
    }
  }

  lemma {:induction false} RemoveManyKnows(s: seq<Id>, c: Id, k: nat)
    ensures forall r :: r in RemoveMany(s, c, k) ==> r in s
    decreases k
  {
    if k > 0 {
      RemoveFirstKnows(s, c);
      RemoveManyKnows(RemoveFirst(s, c), c, k - 1);
    }
  }

  lemma ReleaseNothing(objs: Objects, c: Id)
    ensures Release(objs, map[], c) == objs
  {
    forall x | x in objs ensures Release(objs, map[], c)[x] == objs[x] {
      assert BoundNames(map[], x) == {};
    }
  }

  /** Releasing one more binding is one more find-and-erase. */
  lemma ReleaseOneMore(objs: Objects, names: map<string, Binding>, n: string, b: Binding, c: Id)
    requires n !in names && b.target in objs
    requires |BoundNames(names, b.target)| < RefCount(objs, b.target, c)
    ensures Release(objs, names[n := b], c) == RemoveReferrer(Release(objs, names, c), b.target, c)
    ensures c in Release(objs, names, c)[b.target].referrers
  {
    var refs := objs[b.target].referrers;
    var k := |BoundNames(names, b.target)|;
    RemoveManySnoc(refs, c, k);
    RemoveManyCounts(refs, c, k);
    assert c in multiset(RemoveMany(refs, c, k));
    forall x | x in objs
      ensures Release(objs, names[n := b], c)[x] == RemoveReferrer(Release(objs, names, c), b.target, c)[x]
    {
      BoundNamesOfInsert(names, n, b, x);
    }
  }

  /**
   Every context of a well-formed state can be told to drop its bindings: each is on its target's list often enough.
   */
  lemma WFIsCovered(st: State, c: Id)
    requires WF(st) && c in st.objs
    ensures Covered(st.objs, c)
  {
    assert ObjOk(st.objs, st.root, c);
    forall n | n in NamesOf(st.objs, c) ensures NamesOf(st.objs, c)[n].target in st.objs {
      assert BindingOk(st.objs, st.objs[c].names[n]);
    }
    forall x | x in st.objs ensures |BoundNames(NamesOf(st.objs, c), x)| <= RefCount(st.objs, x, c) {
      assert RefCount(st.objs, x, c) == Expected(st.objs, x, c);
    }
  }

  lemma BoundNamesOfInsert(names: map<string, Binding>, n: string, b: Binding, x: Id)
    requires n !in names
    ensures |BoundNames(names[n := b], x)| == |BoundNames(names, x)| + if b.target == x then 1 else 0
  {
    var before := BoundNames(names, x);
    assert BoundNames(names[n := b], x) == if b.target == x then before + {n} else before;
  }

  lemma BoundNamesOfDelete(names: map<string, Binding>, n: string, x: Id)
    requires n in names
    ensures |BoundNames(names - {n}, x)| == |BoundNames(names, x)| - if names[n].target == x then 1 else 0
  {
    var before := BoundNames(names, x);
    assert BoundNames(names - {n}, x) == if names[n].target == x then before - {n} else before;
  }

  /** A binding puts its holder among the target's referrers, so find-and-erase finds it. */
  lemma ReferrerIsFound(objs: Objects, c: Id, n: string)
    requires Balanced(objs) && n in NamesOf(objs, c)
    requires NamesOf(objs, c)[n].target in objs
    ensures c in objs[NamesOf(objs, c)[n].target].referrers
  {
    var x := NamesOf(objs, c)[n].target;
    assert n in BoundNames(NamesOf(objs, c), x);
    assert |BoundNames(NamesOf(objs, c), x)| > 0;
    assert RefCount(objs, x, c) == Expected(objs, x, c);
    assert c in multiset(objs[x].referrers);
  }

  // ---------- deletion, one unbind call per referrer ----------

  /**
   What the destructor needs of the graph: its referrers are alive, and name every context as often as it binds `x`.
   */
  ghost predicate Erasable(objs: Objects, x: Id) {
    && x in objs && x !in objs[x].referrers
    && (forall c :: c in objs[x].referrers ==> c in objs)
    && (forall c :: c in objs ==> |BoundNames(NamesOf(objs, c), x)| <= RefCount(objs, x, c))
  }

  /** Some bindings of `x` are gone, nothing else has changed, and the remaining calls suffice for the rest. */
  ghost predicate PartlyUnbound(before: Objects, after: Objects, x: Id, rest: seq<Id>) {
    && after.Keys == before.Keys
    && forall c :: c in before ==> PartlyUnboundAt(before[c], after[c], x, multiset(rest)[c])
  }

  ghost predicate PartlyUnboundAt(before: Obj, after: Obj, x: Id, calls: nat) {
    && after == before.(names := after.names)
    && WithoutTarget(after.names, x) == WithoutTarget(before.names, x)
    && |BoundNames(after.names, x)| <= calls
  }

  lemma UnbindsOneMore(before: Objects, mid: Objects, after: Objects, x: Id, c: Id, rest: seq<Id>, n: string)
    requires PartlyUnbound(before, mid, x, [c] + rest) && c in before
    requires after == WithNames(mid, c, NamesOf(mid, c) - {n}) || after == mid
    requires BoundNames(NamesOf(mid, c), x) == {} ==> after == mid
    requires BoundNames(NamesOf(mid, c), x) != {} ==>
      n in BoundNames(NamesOf(mid, c), x) && after == WithNames(mid, c, NamesOf(mid, c) - {n})
    ensures PartlyUnbound(before, after, x, rest)
  {
    forall d | d in before
      ensures PartlyUnboundAt(before[d], after[d], x, multiset(rest)[d])
    {
      assert PartlyUnboundAt(before[d], mid[d], x, multiset([c] + rest)[d]);
      assert multiset([c] + rest)[d] == multiset(rest)[d] + if d == c then 1 else 0;
      if d == c && BoundNames(NamesOf(mid, c), x) != {} {
        BoundNamesOfDelete(mid[c].names, n, x);
        assert WithoutTarget(after[c].names, x) == WithoutTarget(mid[c].names, x);
      }
    }
  }

  lemma AllUnbound(before: Objects, after: Objects, x: Id)
    requires PartlyUnbound(before, after, x, [])
    ensures after - {x} == EraseObject(before, x)
  {
    forall c | c in before && c != x
      ensures after[c] == EraseObject(before, x)[c]
    {
      assert PartlyUnboundAt(before[c], after[c], x, 0);
      assert forall n :: n in after[c].names ==> n !in BoundNames(after[c].names, x);
      assert WithoutTarget(after[c].names, x) == after[c].names;
    }
  }

  lemma NoneUnbound(objs: Objects, x: Id)
    requires Erasable(objs, x)
    ensures PartlyUnbound(objs, objs, x, objs[x].referrers)
  {
    forall c | c in objs
      ensures PartlyUnboundAt(objs[c], objs[c], x, multiset(objs[x].referrers)[c])
    {
      assert |BoundNames(NamesOf(objs, c), x)| <= RefCount(objs, x, c);
    }
  }

  /** What may be removed may be destroyed, and nothing else: the balance supplies exactly the calls needed. */
  lemma RemovableIffErasable(st: State, x: Id)
    requires WF(st) && x != st.root
    ensures Removable(st, x) <==> Erasable(st.objs, x)
  {
    if Removable(st, x) {
      forall c | c in st.objs
        ensures |BoundNames(NamesOf(st.objs, c), x)| <= RefCount(st.objs, x, c)
      {
        assert RefCount(st.objs, x, c) == Expected(st.objs, x, c);
      }
    }
  }

  // ---------- every primitive keeps the invariant ----------

  /** A change that keeps every object's class, parent and name and unbinds nothing wrongly keeps the typing. */
  ghost predicate SameShape(before: Objects, after: Objects) {
    && after.Keys == before.Keys
    && forall x :: x in before ==>
      && after[x].kind == before[x].kind
      && after[x].parent == before[x].parent
      && after[x].name == before[x].name
      && (before[x].placeholder == after[x].placeholder || !after[x].placeholder)
      && (!after[x].placeholder ==> after[x].hasAttributes || !before[x].placeholder)
      && (before[x].hasAttributes ==> after[x].hasAttributes)
      && (forall r :: r in after[x].referrers ==> r in before[x].referrers || r in before)
  }

  lemma OneMoreEvent(log: seq<Event>, e: Event, x: Id)
    ensures CreatedCount(log + [e], x) == CreatedCount(log, x) + if CreationOf(e, x) then 1 else 0
  {
    assert (log + [e])[..|log|] == log;
  }

  ghost predicate NamesOk(before: Objects, after: Objects, x: Id) {
    && x in before && x in after
    && (before[x].kind == EntityKind ==> after[x].names == map[])
    && forall n :: n in after[x].names ==> BindingOk(before, after[x].names[n])
  }

  lemma ShapeKeepsTyped(st: State, st': State)
    requires Typed(st) && SameShape(st.objs, st'.objs)
    requires st'.root == st.root && st'.next == st.next
    requires forall x {:trigger NamesOk(st.objs, st'.objs, x)} :: x in st.objs ==> NamesOk(st.objs, st'.objs, x)
    ensures Typed(st')
  {
    forall x | x in st'.objs
      ensures ObjOk(st'.objs, st'.root, x)
    {
      assert ObjOk(st.objs, st.root, x) && NamesOk(st.objs, st'.objs, x);
      forall n | n in st'.objs[x].names
        ensures BindingOk(st'.objs, st'.objs[x].names[n])
      {
        assert BindingOk(st.objs, st'.objs[x].names[n]);
      }
    }
  }

  lemma OtherEventsKeepAnnounced(st: State, st': State, e: Event)
    requires Announced(st) && !e.Created?
    requires st'.log == st.log + [e] || st'.log == st.log
    requires st.next <= st'.next
    requires forall x :: x in st'.objs ==>
      if x in st.objs then st'.objs[x].placeholder == st.objs[x].placeholder
      else st'.objs[x].placeholder && x >= st.next
    ensures Announced(st')
  {
    forall x: Id
      ensures CreatedCount(st'.log, x) == CreatedCount(st.log, x)
    {
      OneMoreEvent(st.log, e, x);
    }
  }

  /** A change that only adds events, and whose new objects are placeholders: the names told stay right. */
  lemma ToldStays(st: State, st': State)
    requires Told(st) && st.log <= st'.log && forall x :: x in st.objs ==> x < st.next
    requires forall x :: x in st'.objs ==>
      if x in st.objs then SameIdentity(st.objs[x], st'.objs[x]) && st'.objs[x].placeholder == st.objs[x].placeholder
      else st'.objs[x].placeholder && x >= st.next
    ensures Told(st')
  {
    forall x | x in st'.objs
      ensures ToldAt(st', x)
    {
      if x in st.objs {
        assert ToldAt(st, x);
        ToldNameStays(st.objs, st'.objs, x);
      }
    }
  }

  ghost predicate SameIdentity(o: Obj, p: Obj) {
    p.kind == o.kind && p.name == o.name && p.parent == o.parent
  }

  lemma ToldNameStays(before: Objects, after: Objects, x: Id)
    requires x in before && x in after && SameOlder(before, after, x) && after[x].kind == before[x].kind
    ensures Nameable(after, x) ==> Nameable(before, x) && ToldName(after, x) == ToldName(before, x)
  {
    if IsContext(after, x) && ChainAlive(after, x) {
      SameChain(before, after, x);
    }
  }

  /** Both at once, of a change that keeps every object as it is but for its links. */
  lemma ShapeKeepsEvents(st: State, st': State, e: Event)
    requires Typed(st) && Announced(st) && Told(st) && SameShape(st.objs, st'.objs) && !e.Created?
    requires st'.log == st.log + [e] || st'.log == st.log
    requires st.next <= st'.next && forall x :: x in st.objs ==> st'.objs[x].placeholder == st.objs[x].placeholder
    ensures Announced(st') && Told(st')
  {
    OtherEventsKeepAnnounced(st, st', e);
    ToldStays(st, st');
  }

  lemma ConstructKeepsBalanced(st: State, kind: Kind, name: string, p: Id)
    requires Typed(st) && Balanced(st.objs) && p in st.objs
    ensures Balanced(Construct(st, kind, name, Some(p)).objs)
  {
    var after := Construct(st, kind, name, Some(p)).objs;
    forall x, c | x in after && c in after
      ensures RefCount(after, x, c) == Expected(after, x, c)
    {
      assert NamesOf(after, c) == NamesOf(st.objs, c);
      if x == st.next {
        assert c in st.objs ==> ObjOk(st.objs, st.root, c);
        assert BoundNames(NamesOf(after, c), x) == {};
      } else if c == st.next {
        assert ObjOk(st.objs, st.root, x) && x < st.next && Known(st.objs[x].referrers, st.next);
        assert c !in st.objs[x].referrers;
        assert BoundNames(NamesOf(after, c), x) == {};
      } else {
        assert RefCount(st.objs, x, c) == Expected(st.objs, x, c);
      }
    }
  }

  lemma ConstructKeepsWF(st: State, kind: Kind, name: string, p: Id)
    requires WF(st) && IsContext(st.objs, p)
    requires name == "" || LastName(name)
    ensures WF(Construct(st, kind, name, Some(p)))
  {
    var st' := Construct(st, kind, name, Some(p));
    ConstructKeepsBalanced(st, kind, name, p);
    forall x | x in st'.objs ensures ObjOk(st'.objs, st'.root, x) {
      assert x in st.objs ==> ObjOk(st.objs, st.root, x);
    }
    OtherEventsKeepAnnounced(st, st', Deleted(0, None));
    ToldStays(st, st');
  }

  lemma BindKeepsBalanced(st: State, c: Id, name: string, b: Binding, shown: string)
    requires Balanced(st.objs) && c in st.objs && b.target in st.objs && name !in NamesOf(st.objs, c)
    ensures Balanced(Bind(st, c, name, b, shown).objs)
  {
    var after := Bind(st, c, name, b, shown).objs;
    forall x, d | x in after && d in after
      ensures RefCount(after, x, d) == Expected(after, x, d)
    {
      assert RefCount(st.objs, x, d) == Expected(st.objs, x, d);
      if d == c {
        BoundNamesOfInsert(NamesOf(st.objs, c), name, b, x);
      }
      assert d != c ==> NamesOf(after, d) == NamesOf(st.objs, d);
    }
  }

  lemma BindKeepsShape(st: State, c: Id, name: string, b: Binding, shown: string)
    requires c in st.objs
    ensures SameShape(st.objs, Bind(st, c, name, b, shown).objs)
  {
    if name !in NamesOf(st.objs, c) {
      var named := WithNames(st.objs, c, NamesOf(st.objs, c)[name := b]);
      assert SameShape(st.objs, named);
      assert SameShape(named, AddReferrer(named, b.target, c));
    }
  }

  lemma BindKeepsNames(st: State, c: Id, name: string, b: Binding, shown: string)
    requires Typed(st) && IsContext(st.objs, c) && BindingOk(st.objs, b)
    ensures forall y {:trigger NamesOk(st.objs, Bind(st, c, name, b, shown).objs, y)} :: y in st.objs ==>
              NamesOk(st.objs, Bind(st, c, name, b, shown).objs, y)
  {
    forall y | y in st.objs
      ensures NamesOk(st.objs, Bind(st, c, name, b, shown).objs, y)
    {
      assert ObjOk(st.objs, st.root, y);
    }
  }

  lemma BindKeepsWF(st: State, c: Id, name: string, b: Binding, shown: string)
    requires WF(st) && IsContext(st.objs, c) && BindingOk(st.objs, b)
    ensures WF(Bind(st, c, name, b, shown))
  {
    var st' := Bind(st, c, name, b, shown);
    if name !in NamesOf(st.objs, c) {
      BindKeepsBalanced(st, c, name, b, shown);
      BindKeepsShape(st, c, name, b, shown);
      BindKeepsNames(st, c, name, b, shown);
      ShapeKeepsTyped(st, st');
      ShapeKeepsEvents(st, st', BoundIn(c, shown));
    }
  }

  lemma RemoveReferrerCounts(objs: Objects, t: Id, c: Id, x: Id, d: Id)
    requires t in objs && c in objs[t].referrers && x in objs
    ensures RefCount(RemoveReferrer(objs, t, c), x, d) == RefCount(objs, x, d) - if x == t && d == c then 1 else 0
  {
    RemoveFirstCounts(objs[t].referrers, c);
  }

  lemma UnbindKeepsBalanced(st: State, c: Id, name: string)
    requires Balanced(st.objs) && name in NamesOf(st.objs, c) && st.objs[c].names[name].target in st.objs
    ensures Balanced(Unbind(st, c, name).objs)
  {
    var after := Unbind(st, c, name).objs;
    var t := st.objs[c].names[name].target;
    ReferrerIsFound(st.objs, c, name);
    forall x, d | x in after && d in after
      ensures RefCount(after, x, d) == Expected(after, x, d)
    {
      assert RefCount(st.objs, x, d) == Expected(st.objs, x, d);
      RemoveReferrerCounts(st.objs, t, c, x, d);
      assert RefCount(after, x, d) == RefCount(RemoveReferrer(st.objs, t, c), x, d);
      if d == c {
        BoundNamesOfDelete(NamesOf(st.objs, c), name, x);
      }
      assert d != c ==> NamesOf(after, d) == NamesOf(st.objs, d);
    }
  }

  lemma UnbindKeepsShape(st: State, c: Id, name: string)
    ensures SameShape(st.objs, Unbind(st, c, name).objs)
  {
    if name in NamesOf(st.objs, c) && st.objs[c].names[name].target in st.objs {
      RemoveFirstKnows(st.objs[st.objs[c].names[name].target].referrers, c);
    }
  }

  lemma KillBindingsKeepsShape(st: State, c: Id)
    ensures SameShape(st.objs, KillBindings(st, c).objs)
  {
    forall x | x in st.objs
      ensures forall r :: r in KillBindings(st, c).objs[x].referrers ==> r in st.objs[x].referrers
    {
      RemoveManyKnows(st.objs[x].referrers, c, |BoundNames(NamesOf(st.objs, c), x)|);
    }
  }

  lemma UnbindKeepsWF(st: State, c: Id, name: string)
    requires WF(st)
    ensures WF(Unbind(st, c, name))
  {
    var st' := Unbind(st, c, name);
    if name in NamesOf(st.objs, c) {
      assert ObjOk(st.objs, st.root, c);
      UnbindKeepsBalanced(st, c, name);
      UnbindKeepsShape(st, c, name);
      forall y | y in st.objs ensures NamesOk(st.objs, st'.objs, y) {
        assert ObjOk(st.objs, st.root, y);
      }
      ShapeKeepsTyped(st, st');
      ShapeKeepsEvents(st, st', Deleted(0, None));
    }
  }

  lemma KillBindingsKeepsBalanced(st: State, c: Id)
    requires Balanced(st.objs) && c in st.objs
    ensures Balanced(KillBindings(st, c).objs)
  {
    var after := KillBindings(st, c).objs;
    forall x, d | x in after && d in after
      ensures RefCount(after, x, d) == Expected(after, x, d)
    {
      assert RefCount(st.objs, x, d) == Expected(st.objs, x, d);
      KilledCounts(st, c, x, d);
    }
  }

  lemma KilledCounts(st: State, c: Id, x: Id, d: Id)
    requires Balanced(st.objs) && c in st.objs && x in st.objs && d in st.objs
    ensures var after := KillBindings(st, c).objs; var freed := |BoundNames(NamesOf(st.objs, c), x)|;
            && RefCount(after, x, d) == RefCount(st.objs, x, d) - (if d == c then freed else 0)
            && |BoundNames(NamesOf(after, d), x)|
                == |BoundNames(NamesOf(st.objs, d), x)| - (if d == c then freed else 0)
  {
    assert RefCount(st.objs, x, c) == Expected(st.objs, x, c);
    RemoveManyCounts(st.objs[x].referrers, c, |BoundNames(NamesOf(st.objs, c), x)|);
    assert BoundNames(map[], x) == {};
  }

  lemma KillBindingsKeepsWF(st: State, c: Id)
    requires WF(st)
    ensures WF(KillBindings(st, c))
  {
    var st' := KillBindings(st, c);
    if c in st.objs {
      KillBindingsKeepsBalanced(st, c);
    } else {
      ReleaseNothing(st.objs, c);
    }
    KillBindingsKeepsShape(st, c);
    forall y | y in st.objs ensures NamesOk(st.objs, st'.objs, y) {
      assert ObjOk(st.objs, st.root, y);
    }
    ShapeKeepsTyped(st, st');
    ShapeKeepsEvents(st, st', Deleted(0, None));
  }

  /** Neither names nor referrers nor parents change. */
  ghost predicate SameLinks(before: Objects, after: Objects) {
    && after.Keys == before.Keys
    && forall x :: x in before ==>
      && after[x].names == before[x].names
      && after[x].parent == before[x].parent
      && after[x].referrers == before[x].referrers
  }

  lemma LinksKeepBalanced(before: Objects, after: Objects)
    requires Balanced(before) && SameLinks(before, after)
    ensures Balanced(after)
  {
    forall x, d | x in after && d in after
      ensures RefCount(after, x, d) == Expected(after, x, d)
    {
      assert RefCount(before, x, d) == Expected(before, x, d);
      assert NamesOf(after, d) == NamesOf(before, d);
    }
  }

  lemma MakeRealKeepsWF(st: State, x: Id)
    requires WF(st) && x in st.objs && st.objs[x].placeholder
    ensures WF(MakeReal(st, x))
  {
    var st' := MakeReal(st, x);
    LinksKeepBalanced(st.objs, st'.objs);
    forall y | y in st.objs ensures NamesOk(st.objs, st'.objs, y) {
      assert ObjOk(st.objs, st.root, y);
    }
    ShapeKeepsTyped(st, st');
    forall y: Id
      ensures CreatedCount(st'.log, y) == CreatedCount(st.log, y) + if y == x then 1 else 0
    {
      OneMoreEvent(st.log, Created(x, ToldName(st.objs, x)), y);
    }
    forall y | y in st'.objs
      ensures ToldAt(st', y)
    {
      assert ToldAt(st, y);
      ToldNameStays(st.objs, st'.objs, y);
    }
  }

  lemma SetCharDataKeepsWF(st: State, x: Id, data: string)
    requires WF(st)
    ensures WF(SetCharData(st, x, data))
  {
    var st' := SetCharData(st, x, data);
    LinksKeepBalanced(st.objs, st'.objs);
    forall y | y in st.objs ensures NamesOk(st.objs, st'.objs, y) {
      assert ObjOk(st.objs, st.root, y);
    }
    ShapeKeepsTyped(st, st');
    ShapeKeepsEvents(st, st', Deleted(0, None));
  }

  lemma RemoveKeepsBalanced(objs: Objects, x: Id)
    requires Balanced(objs)
    ensures Balanced(EraseObject(objs, x))
  {
    var after := EraseObject(objs, x);
    forall y, d | y in after && d in after
      ensures RefCount(after, y, d) == Expected(after, y, d)
    {
      assert RefCount(objs, y, d) == Expected(objs, y, d);
      assert BoundNames(NamesOf(after, d), y) == BoundNames(NamesOf(objs, d), y);
    }
  }

  /** Whatever is deleted but the root, and whatever it bound or was the parent of, the invariant stays. */
  lemma RemoveKeepsWF(st: State, x: Id)
    requires WF(st) && x != st.root
    ensures WF(Remove(st, x))
  {
    var st' := Remove(st, x);
    RemoveKeepsBalanced(st.objs, x);
    forall y | y in st'.objs ensures ObjOk(st'.objs, st'.root, y) {
      assert ObjOk(st.objs, st.root, y);
      forall n | n in st'.objs[y].names
        ensures BindingOk(st'.objs, st'.objs[y].names[n])
      {
        assert BindingOk(st.objs, st.objs[y].names[n]);
      }
    }
    OtherEventsKeepAnnounced(st, st', Deleted(x, ToldName(st.objs, x)));
    ToldStays(st, st');
  }
}
