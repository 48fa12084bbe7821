/**
 Loading a dump. The dump of a domain is the unfolding of its root, each node an element with its
 path as full name; the loader creates a context for every element, popping elements from a
 stack. What comes back is the original's tree of real paths, links unfolded into separate contexts.
 */
module Load {
  import opened Wrappers
  import opened Paths
  import opened Spelling
  import opened NameGraph
  import opened Resolution
  import opened ResolutionLaws
  import opened NamingLaws
  import opened FullNames
  import opened Operations
  import opened Announcing
  import opened Directory
  import opened TreeTraverse
  import opened DomainWalk
  import opened Unfolding
  import opened Elements

  // ---------- the loader ----------

  /** One `doContextLoad` per name, in order. */
  function LoadAll(st: State, names: seq<string>): State
    decreases |names|
  {
    if names == [] then st
    else LoadAll(ResolveOrCreate(st, names[0], ContextKind, None, false).0, names[1..])
  }

  /** The order in which the stack yields the elements of a tree: the last child first. */
  function LoadOrder(t: Node): seq<string> {
    [t.path] + ForestOrder(t.children)
  }

  function ForestOrder(f: Forest): seq<string> {
    match f
    case Nil => []
    case Cons(first, rest) => ForestOrder(rest) + LoadOrder(first)
  }

  /** The full names of an element and the context elements in it, in the same order. */
  function ElementOrder(e: Element): seq<string> {
    match e
    case ContextElement(fullName, inner) => [fullName] + ContentOrder(inner)
    case EntityElement => []
  }

  function ContentOrder(c: Content): seq<string> {
    match c
    case Empty => []
    case Item(first, rest) => ContentOrder(rest) + ElementOrder(first)
  }

  lemma {:induction false} EntitiesHaveNoOrder(n: nat, c: Content)
    ensures ContentOrder(WithEntities(n, c)) == ContentOrder(c)
  {
    if n > 0 {
      EntitiesHaveNoOrder(n - 1, Item(EntityElement, c));
      assert ContentOrder(c) + [] == ContentOrder(c);
    }
  }

  /** The element of a node is loaded in the order of the node. */
  lemma {:induction false} OrderOfElement(t: Node)
    ensures ElementOrder(ElementOf(t)) == LoadOrder(t)
    decreases t, 1
  {
    EntitiesHaveNoOrder(|t.entities|, ContentOf(t.children, Empty));
    OrderOfContent(t.children);
  }

  lemma {:induction false} OrderOfContent(f: Forest)
    ensures ContentOrder(ContentOf(f, Empty)) == ForestOrder(f)
    decreases f, 0
  {
    if f.Cons? {
      OrderOfElement(f.first);
      OrderOfContent(f.rest);
    }
  }

  function StackOrder(stack: seq<Element>): seq<string> {
    if stack == [] then [] else ElementOrder(stack[|stack| - 1]) + StackOrder(stack[..|stack| - 1])
  }

  /** The context elements of some content, as the sibling loop pushes them. */
  function ContextsIn(c: Content): (r: seq<Element>)
    ensures forall i :: 0 <= i < |r| ==> r[i].ContextElement?
  {
    match c
    case Empty => []
    case Item(first, rest) => (if first.ContextElement? then [first] else []) + ContextsIn(rest)
  }

  lemma {:induction false} StackOrderOfPush(stack: seq<Element>, c: Content)
    ensures StackOrder(stack + ContextsIn(c)) == ContentOrder(c) + StackOrder(stack)
    decreases c
  {
    if c.Empty? {
      assert stack + ContextsIn(c) == stack;
    } else if c.first.EntityElement? {
      StackOrderOfPush(stack, c.rest);
      assert ContextsIn(c) == ContextsIn(c.rest) && ContentOrder(c) == ContentOrder(c.rest);
    } else {
      assert stack + ContextsIn(c) == (stack + [c.first]) + ContextsIn(c.rest);
      StackOrderOfPush(stack + [c.first], c.rest);
      assert (stack + [c.first])[..|stack|] == stack;
      Associate(ContentOrder(c.rest), ElementOrder(c.first), StackOrder(stack));
    }
  }

  /** A creation that follows neither a NULL parent nor, for the name in a creation event, a freed one. */
  ghost predicate LoadableNow(st: State, name: string) {
    Creatable(st, name, None) && Announceable(st, name, ContextKind, None, false)
  }

  /** The same of all names of a load, in order. */
  ghost predicate Loadable(st: State, names: seq<string>)
    decreases |names|
  {
    names != [] ==>
      LoadableNow(st, names[0]) && Loadable(ResolveOrCreate(st, names[0], ContextKind, None, false).0, names[1..])
  }

  /** `processDomain`: entity elements create nothing, context elements are pushed. */
  method ProcessDomain(d: Domain, root: Element)
    requires d.Valid() && WF(d.View()) && root.ContextElement? && Loadable(d.View(), ElementOrder(root))
    modifies d, d.objects.Values
    ensures d.Valid() && d.View() == LoadAll(old(d.View()), ElementOrder(root))
  {
    var stack := [root];
    ghost var now := d.View();
    ghost var goal := LoadAll(now, ElementOrder(root));
    StartsPending(now, root);
    while |stack| > 0
      invariant d.Valid() && fresh(d.objects.Values - old(d.objects.Values)) && d.View() == now
      // compared with true: checked as one fact, not conjunct by conjunct
      invariant Pending(now, stack) == true && LoadAll(now, StackOrder(stack)) == goal
      decreases |StackOrder(stack)|
    {
      stack, now := LoadTop(d, stack, now);
    }
  }

  /** What is on the stack can be loaded, element by element. */
  ghost predicate Pending(st: State, stack: seq<Element>) {
    // compared with true: an invariant of this predicate is then checked as one fact, not conjunct by conjunct
    && WF(st) == true && (forall i :: 0 <= i < |stack| ==> stack[i].ContextElement?)
    && Loadable(st, StackOrder(stack)) == true
  }

  lemma StartsPending(st: State, root: Element)
    requires WF(st) && root.ContextElement? && Loadable(st, ElementOrder(root))
    ensures Pending(st, [root]) && StackOrder([root]) == ElementOrder(root)
  {
    assert [root][..0] == [] && StackOrder([root]) == ElementOrder(root);
  }

  /** One round: the top element is loaded and its context elements take its place. */
  method LoadTop(d: Domain, stack: seq<Element>, ghost now: State) returns (stack': seq<Element>, ghost next: State)
    requires d.Valid() && stack != [] && d.View() == now && Pending(now, stack)
    modifies d, d.objects.Values
    ensures d.Valid() && fresh(d.objects.Values - old(d.objects.Values)) && d.View() == next
    ensures Pending(next, stack') && |StackOrder(stack')| < |StackOrder(stack)|
    ensures LoadAll(next, StackOrder(stack')) == LoadAll(now, StackOrder(stack))
  {
    var c := stack[|stack| - 1];
    stack' := PushContexts(stack[..|stack| - 1], c.inner);
    next := TopIsLoadable(now, stack, stack');
    DoContextLoad(d, c.fullName);
  }

  /** What one round loads, and what it leaves to be loaded. */
  lemma TopIsLoadable(now: State, stack: seq<Element>, stack': seq<Element>) returns (next: State)
    requires stack != [] && Pending(now, stack)
    requires Pushed(stack[..|stack| - 1], stack[|stack| - 1].inner, stack')
    ensures LoadableNow(now, stack[|stack| - 1].fullName)
    ensures next == ResolveOrCreate(now, stack[|stack| - 1].fullName, ContextKind, None, false).0
    ensures Pending(next, stack') && LoadAll(next, StackOrder(stack')) == LoadAll(now, StackOrder(stack))
    ensures |StackOrder(stack')| < |StackOrder(stack)|
  {
    var rest, c := stack[..|stack| - 1], stack[|stack| - 1];
    assert stack == rest + [c];
    NextInOrder(rest, c);
    assert StackOrder(stack) == [c.fullName] + StackOrder(stack');
    next := ResolveOrCreate(now, c.fullName, ContextKind, None, false).0;
    ResolveOrCreateFacts(now, c.fullName, ContextKind, None, false);
  }

  lemma NextInOrder(rest: seq<Element>, c: Element)
    requires c.ContextElement?
    ensures StackOrder(rest + [c]) == [c.fullName] + (ContentOrder(c.inner) + StackOrder(rest))
  {
    Associate([c.fullName], ContentOrder(c.inner), StackOrder(rest));
    assert (rest + [c])[..|rest|] == rest;
  }

  /** The context elements of some content have been pushed, and are loaded before the rest, in their order. */
  ghost predicate Pushed(rest: seq<Element>, inner: Content, stack: seq<Element>) {
    && StackOrder(stack) == ContentOrder(inner) + StackOrder(rest)
    && ((forall i :: 0 <= i < |rest| ==> rest[i].ContextElement?)
          ==> forall i :: 0 <= i < |stack| ==> stack[i].ContextElement?)
  }

  /** The loop over the siblings of an element's content. */
  method PushContexts(rest: seq<Element>, inner: Content) returns (stack: seq<Element>)
    ensures Pushed(rest, inner, stack)
  {
    stack := rest;
    var child := inner;
    while child.Item?
      invariant stack + ContextsIn(child) == rest + ContextsIn(inner)
      decreases child
    {
      ghost var was := stack;
      if child.first.ContextElement? {
        stack := stack + [child.first];
        Associate(was, [child.first], ContextsIn(child.rest));
      } else {
        assert ContextsIn(child) == ContextsIn(child.rest);
      }
      child := child.rest;
    }
    assert stack == rest + ContextsIn(inner);
    StackOrderOfPush(rest, inner);
  }

  /** `doContextLoad`: the element's full name is created as a context. */
  method DoContextLoad(d: Domain, fullName: string)
    requires d.Valid() && WF(d.View()) && LoadableNow(d.View(), fullName)
    modifies d, d.objects.Values
    ensures d.Valid() && fresh(d.objects.Values - old(d.objects.Values))
    ensures d.View() == ResolveOrCreate(old(d.View()), fullName, ContextKind, None, false).0
  {
    var x := d.ResolveOrCreateName(fullName, ContextKind, None, false);
  }

  // ---------- states that loading reaches ----------

  /** A tree of real contexts, each bound in its parent under its own name and nowhere else. */
  ghost predicate TreeState(st: State) {
    && WF(st) && OwnNames(st.objs)
    && forall x {:trigger InTree(st.objs, x)} :: x in st.objs ==> InTree(st.objs, x)
  }

  ghost predicate InTree(objs: Objects, x: Id)
    requires x in objs
  {
    objs[x].kind == ContextKind && !objs[x].placeholder && Standing(objs, x)
  }

  lemma {:induction false} ChainGrows(s: State, t: State, x: Id)
    requires Grows(s, t) && Standing(s.objs, x)
    ensures NameChain(t.objs, x) == NameChain(s.objs, x) && Standing(t.objs, x)
    decreases x
  {
    assert x in t.objs && GrowsObj(s.objs[x], t.objs[x]);
    if s.objs[x].parent.Some? {
      var p := ParentOf(s.objs, x);
      assert p in t.objs && GrowsObj(s.objs[p], t.objs[p]);
      ChainGrows(s, t, p);
    }
  }

  /** A context created and promoted below `c`. */
  function Leaf(st: State, c: Id, name: string, shown: string): State {
    Promote(Create(st, ContextKind, name, c, shown), st.next, Flags(true, false))
  }

  lemma LeafFacts(st: State, c: Id, name: string, shown: string)
    requires WF(st) && OwnNames(st.objs) && IsContext(st.objs, c) && name !in NamesOf(st.objs, c)
    requires name == "" || LastName(name)
    ensures WF(Leaf(st, c, name, shown)) && OwnNames(Leaf(st, c, name, shown).objs)
    ensures Grows(st, Leaf(st, c, name, shown))
  {
    var mid := Create(st, ContextKind, name, c, shown);
    CreateKeepsWF(st, ContextKind, name, c, shown);
    CreateFacts(st, ContextKind, name, c, shown);
    CreateKeepsOwnNames(st, ContextKind, name, c, shown);
    PromoteFacts(mid, st.next, Flags(true, false));
    PromoteKeepsOwnNames(mid, st.next, Flags(true, false));
    GrowsTransitive(st, mid, Leaf(st, c, name, shown));
  }

  lemma LeafObject(st: State, c: Id, name: string, shown: string)
    requires c in st.objs && st.next !in st.objs && c < st.next && name !in NamesOf(st.objs, c)
    ensures var x := st.next;
            var objs := Leaf(st, c, name, shown).objs;
            && objs.Keys == st.objs.Keys + {x} && HasParent(objs, x) && ParentOf(objs, x) == c
            && objs[x].name == name && objs[x].kind == ContextKind && !objs[x].placeholder
            && name in NamesOf(objs, c) && NamesOf(objs, c)[name].target == x
  {
    CreateFacts(st, ContextKind, name, c, shown);
  }

  lemma NewLeaf(st: State, c: Id, name: string, shown: string)
    requires TreeState(st) && c in st.objs && name !in NamesOf(st.objs, c)
    requires name == "" || LastName(name)
    ensures var x := st.next;
            var st' := Leaf(st, c, name, shown);
            && TreeState(st') && Grows(st, st')
            && st'.objs.Keys == st.objs.Keys + {x}
            && NameChain(st'.objs, x) == NameChain(st.objs, c) + [name]
  {
    var x := st.next;
    var st' := Leaf(st, c, name, shown);
    assert InTree(st.objs, c);
    LeafFacts(st, c, name, shown);
    LeafObject(st, c, name, shown);
    ChainGrows(st, st', c);
    StillTree(st, st', x);
  }

  lemma StillTree(s: State, t: State, x: Id)
    requires TreeState(s) && WF(t) && OwnNames(t.objs) && Grows(s, t)
    requires t.objs.Keys == s.objs.Keys + {x} && InTree(t.objs, x)
    ensures TreeState(t)
  {
    forall y | y in t.objs
      ensures InTree(t.objs, y)
    {
      if y != x {
        StillInTree(s, t, y);
      }
    }
  }

  lemma StillInTree(s: State, t: State, y: Id)
    requires WF(s) && WF(t) && Grows(s, t) && y in s.objs && InTree(s.objs, y)
    ensures y in t.objs && InTree(t.objs, y)
  {
    ChainGrows(s, t, y);
  }

  lemma ChainOfTarget(st: State, c: Id, name: string)
    requires TreeState(st) && name in NamesOf(st.objs, c)
    ensures var x := NamesOf(st.objs, c)[name].target;
            x in st.objs && NameChain(st.objs, x) == NameChain(st.objs, c) + [name] && InTree(st.objs, x)
  {
    var x := NamesOf(st.objs, c)[name].target;
    assert IsOwn(st.objs, c, name, x) && InTree(st.objs, x);
  }

  ghost predicate NewOn(s: Objects, t: Objects, q: seq<string>) {
    forall x :: x in t && x !in s ==> NameChain(t, x) <= q
  }

  lemma {:induction false} WalkTree(st: State, c: Id, tokens: seq<string>)
    requires TreeState(st) && c in st.objs && CleanTokens(tokens)
    ensures var (st', r) := Walk(st, Some(c), tokens, Flags(true, false));
            && TreeState(st') && Grows(st, st') && r.Some? && r.value in st'.objs
            && NameChain(st'.objs, r.value) == NameChain(st.objs, c) + tokens
    decreases |tokens|
  {
    var chain := NameChain(st.objs, c);
    if tokens == [] {
      assert chain + tokens == chain;
    } else {
      var (st1, c1) := Step(st, c, tokens[0], Flags(true, false));
      StepTree(st, c, tokens[0]);
      WalkTree(st1, c1.value, tokens[1..]);
      GrowsTransitive(st, st1, Walk(st1, c1, tokens[1..], Flags(true, false)).0);
      HeadFirst(chain, tokens);
    }
  }

  lemma HeadFirst(a: seq<string>, b: seq<string>)
    requires b != []
    ensures a + [b[0]] + b[1..] == a + b
  {
  }

  lemma {:induction false} WalkAdds(st: State, c: Id, tokens: seq<string>)
    requires TreeState(st) && c in st.objs && CleanTokens(tokens)
    ensures NewOn(st.objs, Walk(st, Some(c), tokens, Flags(true, false)).0.objs, NameChain(st.objs, c) + tokens)
    decreases |tokens|
  {
    if tokens != [] {
      var (st1, c1) := Step(st, c, tokens[0], Flags(true, false));
      StepTree(st, c, tokens[0]);
      WalkTree(st1, c1.value, tokens[1..]);
      WalkAdds(st1, c1.value, tokens[1..]);
      HeadFirst(NameChain(st.objs, c), tokens);
      NewOnTransitive(st, st1, Walk(st1, c1, tokens[1..], Flags(true, false)).0,
                      NameChain(st.objs, c) + [tokens[0]], NameChain(st.objs, c) + tokens);
    }
  }

  lemma NewOnTransitive(s: State, t: State, u: State, q: seq<string>, r: seq<string>)
    requires NewOn(s.objs, t.objs, q) && NewOn(t.objs, u.objs, r)
    requires TreeState(t) && Grows(t, u) && q <= r
    ensures NewOn(s.objs, u.objs, r)
  {
    forall x | x in u.objs && x !in s.objs
      ensures NameChain(u.objs, x) <= r
    {
      if x in t.objs {
        assert InTree(t.objs, x);
        ChainGrows(t, u, x);
      }
    }
  }

  lemma StepTree(st: State, c: Id, token: string)
    requires TreeState(st) && c in st.objs && CleanName(token)
    ensures var (st', r) := Step(st, c, token, Flags(true, false));
            && TreeState(st') && Grows(st, st') && r.Some? && r.value in st'.objs
            && st'.objs.Keys == st.objs.Keys + {r.value}
            && NameChain(st'.objs, r.value) == NameChain(st.objs, c) + [token]
  {
    if token in NamesOf(st.objs, c) {
      ChainOfTarget(st, c, token);
    } else {
      NewLeaf(st, c, token, token);
    }
  }

  // ---------- one element ----------

  lemma {:induction false} FollowGrows(s: Objects, t: Objects, c: Id, p: seq<string>)
    requires GrowsObjects(s, t) && Follow(s, c, p).Some?
    ensures Follow(t, c, p) == Follow(s, c, p)
    decreases |p|
  {
    if p != [] {
      assert c in t && GrowsObj(s[c], t[c]);
      var r := NamesOf(s, c)[p[0]].target;
      assert r in t && GrowsObj(s[r], t[r]);
      FollowGrows(s, t, r, p[1..]);
    }
  }

  /** The state after the last component, and the context that it names. */
  function Last(st: State, c: Id, last: string, shown: string): (State, Id) {
    var (mid, x) := LookupOrConstruct(st, c, last, ContextKind, shown);
    (Promote(mid, x, Flags(true, false)), x)
  }

  lemma LastIs(st: State, c: Id, last: string, shown: string)
    requires TreeState(st)
    ensures Last(st, c, last, shown)
          == if last in NamesOf(st.objs, c) then (st, NamesOf(st.objs, c)[last].target)
             else (Leaf(st, c, last, shown), st.next)
  {
    if last in NamesOf(st.objs, c) {
      ChainOfTarget(st, c, last);
    }
  }

  lemma LastTree(st: State, c: Id, last: string, shown: string)
    requires TreeState(st) && c in st.objs && (last == "" || LastName(last))
    ensures var (st', x) := Last(st, c, last, shown);
            && TreeState(st') && Grows(st, st') && x in st'.objs
            && st'.objs.Keys == st.objs.Keys + {x}
            && NameChain(st'.objs, x) == NameChain(st.objs, c) + [last]
  {
    if last in NamesOf(st.objs, c) {
      ChainOfTarget(st, c, last);
    } else {
      NewLeaf(st, c, last, shown);
    }
    LastIs(st, c, last, shown);
  }

  /** Loading a name makes its components a path, and adds nothing that is not on it. */
  lemma LoadOne(st: State, name: string) returns (x: Id)
    requires TreeState(st)
    ensures var st' := ResolveOrCreate(st, name, ContextKind, None, false).0;
            && TreeState(st') && Grows(st, st')
            && NewOn(st.objs, st'.objs, Components(name))
            && x in st'.objs && NameChain(st'.objs, x) == Components(name)
  {
    ParentFacts(st, st.root);
    SplitNameMeaning(name);
    if name == [SEPARATOR] {
      x := st.root;
    } else {
      var head, last := HeadTokens(name), SplitName(name).tail.value;
      var st1, c := HeadTree(st, head);
      assert Components(name) == head + [last] && last == Components(name)[|head|];
      assert ResolveOrCreate(st, name, ContextKind, None, false).0 == Last(st1, c, last, name).0;
      x := LoadLast(st, st1, c, head, last, name);
    }
  }

  /** The walk to the context of the last component. */
  lemma HeadTree(st: State, head: seq<string>) returns (st1: State, c: Id)
    requires TreeState(st) && CleanTokens(head)
    ensures Walk(st, Some(st.root), head, Flags(true, false)) == (st1, Some(c))
    ensures TreeState(st1) && Grows(st, st1) && NewOn(st.objs, st1.objs, head)
    ensures c in st1.objs && NameChain(st1.objs, c) == head
  {
    ParentFacts(st, st.root);
    WalkTree(st, st.root, head);
    WalkAdds(st, st.root, head);
    assert NameChain(st.objs, st.root) + head == head;
    var (s, r) := Walk(st, Some(st.root), head, Flags(true, false));
    st1, c := s, r.value;
  }

  lemma LoadLast(st: State, st1: State, c: Id, head: seq<string>, last: string, shown: string) returns (x: Id)
    requires TreeState(st1) && Grows(st, st1) && NewOn(st.objs, st1.objs, head)
    requires c in st1.objs && NameChain(st1.objs, c) == head && (last == "" || LastName(last))
    ensures var (st', y) := Last(st1, c, last, shown);
            && TreeState(st') && Grows(st, st') && x == y
            && NewOn(st.objs, st'.objs, head + [last])
            && x in st'.objs && NameChain(st'.objs, x) == head + [last]
  {
    LastTree(st1, c, last, shown);
    var (st', y) := Last(st1, c, last, shown);
    x := y;
    GrowsTransitive(st, st1, st');
    NewOnTransitive(st, st1, st', head, head + [last]);
  }

  // ---------- all elements ----------

  ghost predicate HasChain(objs: Objects, p: seq<string>) {
    exists x :: x in objs && NameChain(objs, x) == p
  }

  lemma {:induction false} LoadMany(st: State, names: seq<string>)
    requires TreeState(st)
    ensures var st' := LoadAll(st, names);
            && TreeState(st') && Grows(st, st')
            && forall s :: s in names ==> HasChain(st'.objs, Components(s))
    decreases |names|
  {
    if names != [] {
      var mid := ResolveOrCreate(st, names[0], ContextKind, None, false).0;
      var x := LoadOne(st, names[0]);
      assert forall s :: s in names[1..] ==> s in names;
      LoadMany(mid, names[1..]);
      var st' := LoadAll(mid, names[1..]);
      GrowsTransitive(st, mid, st');
      assert InTree(mid.objs, x);
      ChainGrows(mid, st', x);
      assert HasChain(st'.objs, Components(names[0]));
      forall s | s in names
        ensures HasChain(st'.objs, Components(s))
      {
        if s != names[0] {
          assert s in names[1..];
        }
      }
    }
  }

  /** In a tree of contexts no name is blocked. */
  lemma {:induction false} TreeIsPassable(st: State, c: Id, tokens: seq<string>)
    requires TreeState(st)
    ensures Passable(st.objs, c, tokens)
    decreases |tokens|
  {
    if tokens != [] && tokens[0] in NamesOf(st.objs, c) {
      ChainOfTarget(st, c, tokens[0]);
      TreeIsPassable(st, NamesOf(st.objs, c)[tokens[0]].target, tokens[1..]);
    }
  }

  lemma TreeIsAlive(st: State)
    requires TreeState(st)
    ensures AllAlive(st.objs)
  {
    forall x | x in st.objs
      ensures ChainAlive(st.objs, x)
    {
      assert InTree(st.objs, x);
      StandingIsAlive(st.objs, x);
    }
  }

  lemma {:induction false} TreeIsLoadable(st: State, names: seq<string>)
    requires TreeState(st)
    ensures Loadable(st, names)
    decreases |names|
  {
    if names != [] {
      TreeIsPassable(st, st.root, HeadTokens(names[0]));
      TreeIsAlive(st);
      AllAliveIsAnnounceable(st, names[0], ContextKind, None, false);
      var x := LoadOne(st, names[0]);
      TreeIsLoadable(ResolveOrCreate(st, names[0], ContextKind, None, false).0, names[1..]);
    }
  }

  /** Whatever loading adds lies on the way to one of the names. */
  lemma {:induction false} LoadAdds(st: State, names: seq<string>, x: Id) returns (s: string)
    requires TreeState(st)
    requires x in LoadAll(st, names).objs && x !in st.objs
    ensures s in names && NameChain(LoadAll(st, names).objs, x) <= Components(s)
    decreases |names|
  {
    var mid := ResolveOrCreate(st, names[0], ContextKind, None, false).0;
    var y := LoadOne(st, names[0]);
    assert forall r :: r in names[1..] ==> r in names;
    if x in mid.objs {
      s := names[0];
      LoadMany(mid, names[1..]);
      assert InTree(mid.objs, x);
      ChainGrows(mid, LoadAll(mid, names[1..]), x);
    } else {
      s := LoadAdds(mid, names[1..], x);
    }
  }

  /** In a tree state the paths are the name chains. */
  lemma PathsAreChains(st: State, p: seq<string>)
    requires TreeState(st)
    ensures RealFollow(st.objs, st.root, p) == Follow(st.objs, st.root, p)
    ensures Follow(st.objs, st.root, p).Some? <==> HasChain(st.objs, p)
  {
    TreePathsAreReal(st, st.root, p);
    if Follow(st.objs, st.root, p).Some? {
      FollowedIsContext(st.objs, st.root, p);
      var x := Follow(st.objs, st.root, p).value;
      assert InTree(st.objs, x);
      FollowStanding(st, x);
      assert ObjOk(st.objs, st.root, st.root);
      PathIsDetermined(st.objs, st.root, p, NameChain(st.objs, x));
    }
    if HasChain(st.objs, p) {
      var x :| x in st.objs && NameChain(st.objs, x) == p;
      assert InTree(st.objs, x);
      FollowStanding(st, x);
    }
  }

  lemma {:induction false} TreePathsAreReal(st: State, c: Id, p: seq<string>)
    requires TreeState(st)
    ensures RealFollow(st.objs, c, p) == Follow(st.objs, c, p)
    decreases |p|
  {
    if p != [] && p[0] in NamesOf(st.objs, c) {
      BoundObject(st, c, p[0]);
      assert InTree(st.objs, NamesOf(st.objs, c)[p[0]].target);
      TreePathsAreReal(st, NamesOf(st.objs, c)[p[0]].target, p[1..]);
    }
  }

  // ---------- the dump ----------

  lemma {:induction false} RealPathsAreClosed(objs: Objects, c: Id, p: seq<string>, q: seq<string>)
    requires q <= p && RealFollow(objs, c, p).Some?
    ensures RealFollow(objs, c, q).Some?
    decreases |q|
  {
    if q != [] {
      RealPathsAreClosed(objs, NamesOf(objs, c)[p[0]].target, p[1..], q[1..]);
    }
  }

  /** A path that its own string spells: no separators or empty names, but for a separator at the very end. */
  ghost predicate Spelled(p: seq<string>) {
    p == [] || (CleanTokens(p[..|p| - 1]) && LastName(p[|p| - 1]))
  }

  lemma {:induction false} PathStringSnoc(base: string, p: seq<string>, n: string)
    ensures PathString(base, p + [n]) == ChildPath(PathString(base, p), n)
    decreases |p|
  {
    if p == [] {
      assert (p + [n])[1..] == [] && p + [n] == [n];
    } else {
      assert (p + [n])[1..] == p[1..] + [n];
      PathStringSnoc(ChildPath(base, p[0]), p[1..], n);
    }
  }

  /** What the path string of a clean path looks like. */
  lemma {:induction false} CleanPathString(p: seq<string>)
    requires CleanTokens(p)
    ensures var s := PathString([SEPARATOR], p);
            s != "" && (p != [] ==> !EndsInSeparator(s)) && Components(s) == p && (p == [] ==> s == [SEPARATOR])
  {
    SplitNameMeaning([SEPARATOR]);
    if p == [] {
      assert Components([SEPARATOR]) == [];
    } else {
      var front, n := p[..|p| - 1], p[|p| - 1];
      CleanPathString(front);
      PathStringSnoc([SEPARATOR], front, n);
      assert p == front + [n] && CleanName(n);
      CleanChild(PathString([SEPARATOR], front), n);
    }
  }

  lemma CleanChild(base: string, n: string)
    requires CleanName(n) && (base == [SEPARATOR] || (base != "" && !EndsInSeparator(base)))
    ensures LastName(n) && Components(ChildPath(base, n)) == Components(base) + [n]
    ensures ChildPath(base, n) != "" && !EndsInSeparator(ChildPath(base, n))
  {
    ComponentsOfChild(base, n);
    var s := ChildPath(base, n);
    assert s[|s| - 1] == n[|n| - 1] && n[|n| - 1] in n;
  }

  lemma ComponentsOfChild(base: string, n: string)
    requires LastName(n)
    requires base == [SEPARATOR] || (base != "" && !EndsInSeparator(base))
    ensures Components(ChildPath(base, n)) == Components(base) + [n]
  {
    var s := ChildPath(base, n);
    SplitNameMeaning([SEPARATOR]);
    if base == [SEPARATOR] {
      assert s == "" + [SEPARATOR] + n;
      SplitNameOfJoin("", n);
    } else {
      SplitNameOfJoin(base, n);
      ComponentsOfClean(base);
    }
  }

  lemma SpelledPathString(p: seq<string>)
    requires Spelled(p)
    ensures Components(PathString([SEPARATOR], p)) == p
  {
    if p == [] {
      CleanPathString(p);
    } else {
      var front, n := p[..|p| - 1], p[|p| - 1];
      assert p == front + [n];
      CleanPathString(front);
      PathStringSnoc([SEPARATOR], front, n);
      ComponentsOfChild(PathString([SEPARATOR], front), n);
    }
  }

  /** The string that the walk reports for a path has the path for components exactly if the path is spelled by it. */
  lemma ComponentsOfPathString(p: seq<string>)
    ensures Components(PathString([SEPARATOR], p)) == p <==> Spelled(p)
  {
    if Spelled(p) {
      SpelledPathString(p);
    }
    PathStringNotEmpty([SEPARATOR], p);
    ComponentsAreSpelled(PathString([SEPARATOR], p));
  }

  lemma {:induction false} PathStringNotEmpty(base: string, p: seq<string>)
    requires base != ""
    ensures PathString(base, p) != ""
    decreases |p|
  {
    if p != [] {
      PathStringNotEmpty(ChildPath(base, p[0]), p[1..]);
    }
  }

  lemma ComponentsAreSpelled(s: string)
    requires s != ""
    ensures Spelled(Components(s))
  {
    SplitNameMeaning(s);
    HeadTokensClean(s);
    var p := Components(s);
    if p != [] {
      assert p[..|p| - 1] == HeadTokens(s);
    }
  }

  lemma PrefixIsSpelled(p: seq<string>, q: seq<string>)
    requires Spelled(p) && q <= p
    ensures Spelled(q)
  {
    if q != [] && q != p {
      assert q[|q| - 1] == p[..|p| - 1][|q| - 1];
      assert CleanName(q[|q| - 1]);
    }
  }

  lemma {:induction false} NodesAreLoaded(t: Node, p: seq<string>)
    requires At(t, p).Some?
    ensures At(t, p).value.path in LoadOrder(t)
    decreases |p|
  {
    if p != [] {
      var u := Named(t.children, p[0]).value;
      NodesAreLoaded(u, p[1..]);
      ForestIsLoaded(t.children, p[0], At(t, p).value.path);
    }
  }

  lemma {:induction false} ForestIsLoaded(f: Forest, n: string, s: string)
    requires Named(f, n).Some? && s in LoadOrder(Named(f, n).value)
    ensures s in ForestOrder(f)
  {
    if f.first.name != n {
      ForestIsLoaded(f.rest, n, s);
    }
  }

  lemma {:induction false} LoadedAreNodes(t: Node, s: string) returns (p: seq<string>)
    requires Distinct(t) && s in LoadOrder(t)
    ensures At(t, p).Some? && At(t, p).value.path == s
  {
    if s == t.path {
      p := [];
    } else {
      var n, q := LoadedInForest(t.children, s);
      p := [n] + q;
      assert p[1..] == q;
    }
  }

  lemma {:induction false} LoadedInForest(f: Forest, s: string) returns (n: string, q: seq<string>)
    requires DistinctAll(f) && s in ForestOrder(f)
    ensures Named(f, n).Some? && At(Named(f, n).value, q).Some? && At(Named(f, n).value, q).value.path == s
  {
    if s in LoadOrder(f.first) {
      n := f.first.name;
      q := LoadedAreNodes(f.first, s);
    } else {
      n, q := LoadedInForest(f.rest, s);
      NamedIsIn(f.rest, n);
    }
  }

  // ---------- round trip ----------

  /** The names in a dump are the strings of the real paths. */
  lemma DumpedNames(st: State, orders: Orders, rank: map<Id, nat>, s: string) returns (p: seq<string>)
    requires WF(st) && Ranked(st.objs, rank) && st.root in rank && OrdersOk(st.objs, orders)
    requires s in LoadOrder(Unfold(st.objs, orders, rank, "", st.root, [SEPARATOR]))
    ensures RealFollow(st.objs, st.root, p).Some? && s == PathString([SEPARATOR], p)
  {
    var t := Unfold(st.objs, orders, rank, "", st.root, [SEPARATOR]);
    UnfoldDistinct(st.objs, orders, rank, "", st.root, [SEPARATOR]);
    p := LoadedAreNodes(t, s);
    NodeAtPath(st.objs, orders, rank, "", st.root, [SEPARATOR], p);
  }

  lemma DumpedPath(st: State, orders: Orders, rank: map<Id, nat>, p: seq<string>)
    requires WF(st) && Ranked(st.objs, rank) && st.root in rank && OrdersOk(st.objs, orders)
    requires RealFollow(st.objs, st.root, p).Some?
    ensures PathString([SEPARATOR], p) in LoadOrder(Unfold(st.objs, orders, rank, "", st.root, [SEPARATOR]))
  {
    NodeAtPath(st.objs, orders, rank, "", st.root, [SEPARATOR], p);
    NodesAreLoaded(Unfold(st.objs, orders, rank, "", st.root, [SEPARATOR]), p);
  }

  /** The names of a dump of the domain, in the order in which they are loaded. */
  ghost function DumpOrder(st: State, orders: Orders): seq<string>
    requires WF(st) && NoCycle(st.objs, st.root)
  {
    NoCycleIsRanked(st.objs, st.root);
    LoadOrder(Unfold(st.objs, orders, ReachRank(st.objs, st.root), "", st.root, [SEPARATOR]))
  }

  /** `q` is on the way to what the string of a real path is cut into. */
  ghost predicate OnDumpedPath(st: State, q: seq<string>) {
    exists p :: RealFollow(st.objs, st.root, p).Some? && q <= Components(PathString([SEPARATOR], p))
  }

  /** Both states have the same paths to real contexts. */
  ghost predicate SamePaths(s: State, t: State) {
    forall p :: RealFollow(s.objs, s.root, p).Some? <==> RealFollow(t.objs, t.root, p).Some?
  }

  /** The original spells all its real paths. */
  ghost predicate AllSpelled(st: State) {
    forall p :: RealFollow(st.objs, st.root, p).Some? ==> Spelled(p)
  }

  /** A copy with exactly the paths that the original's dump spells. */
  ghost predicate CopyOf(copy: State, st: State) {
    forall q :: RealFollow(copy.objs, copy.root, q).Some? <==> OnDumpedPath(st, q)
  }

  /**
   What loading a dump gives, for every domain in which the root reaches no cycle and any iteration orders: a path
   leads to a real context exactly if it is on the way to what the string of a real path of the original
   is cut into, and different paths lead to different contexts.
   */
  lemma LoadedPaths(st: State, orders: Orders, counter: Id)
    requires WF(st) && NoCycle(st.objs, st.root) && OrdersOk(st.objs, orders)
    ensures var loaded := LoadAll(NewDomain(counter), DumpOrder(st, orders));
            && WF(loaded)
            && CopyOf(loaded, st)
            && (forall p, q :: RealFollow(loaded.objs, loaded.root, p).Some? && p != q ==>
                  RealFollow(loaded.objs, loaded.root, p) != RealFollow(loaded.objs, loaded.root, q))
  {
    var empty := NewDomain(counter);
    NewDomainIsTree(counter);
    LoadMany(empty, DumpOrder(st, orders));
    var loaded := LoadAll(empty, DumpOrder(st, orders));
    forall q
      ensures RealFollow(loaded.objs, loaded.root, q).Some? <==> OnDumpedPath(st, q)
    {
      LoadedPath(st, orders, counter, q);
    }
    forall p, q | RealFollow(loaded.objs, loaded.root, p).Some?
                  && RealFollow(loaded.objs, loaded.root, p) == RealFollow(loaded.objs, loaded.root, q)
      ensures p == q
    {
      PathsAreChains(loaded, p);
      PathsAreChains(loaded, q);
      assert ObjOk(loaded.objs, loaded.root, loaded.root);
      PathIsDetermined(loaded.objs, loaded.root, p, q);
    }
  }

  lemma NewDomainIsTree(counter: Id)
    ensures TreeState(NewDomain(counter))
  {
    NewDomainIsWF(counter);
  }

  lemma LoadedPath(st: State, orders: Orders, counter: Id, q: seq<string>)
    requires WF(st) && NoCycle(st.objs, st.root) && OrdersOk(st.objs, orders)
    ensures var loaded := LoadAll(NewDomain(counter), DumpOrder(st, orders));
            RealFollow(loaded.objs, loaded.root, q).Some? <==> OnDumpedPath(st, q)
  {
    NoCycleIsRanked(st.objs, st.root);
    NewDomainIsTree(counter);
    LoadMany(NewDomain(counter), DumpOrder(st, orders));
    var loaded := LoadAll(NewDomain(counter), DumpOrder(st, orders));
    PathsAreChains(loaded, q);
    if OnDumpedPath(st, q) {
      DumpedIsLoaded(st, orders, loaded, q);
    }
    if HasChain(loaded.objs, q) {
      var x :| x in loaded.objs && NameChain(loaded.objs, x) == q;
      LoadedIsDumped(st, orders, counter, x);
    }
  }

  lemma DumpedIsLoaded(st: State, orders: Orders, loaded: State, q: seq<string>)
    requires WF(st) && NoCycle(st.objs, st.root) && OrdersOk(st.objs, orders)
    requires TreeState(loaded) && OnDumpedPath(st, q)
    requires forall s :: s in DumpOrder(st, orders) ==> HasChain(loaded.objs, Components(s))
    ensures RealFollow(loaded.objs, loaded.root, q).Some?
  {
    NoCycleIsRanked(st.objs, st.root);
    var p :| RealFollow(st.objs, st.root, p).Some? && q <= Components(PathString([SEPARATOR], p));
    DumpedPath(st, orders, ReachRank(st.objs, st.root), p);
    PathsAreChains(loaded, Components(PathString([SEPARATOR], p)));
    RealPathsAreClosed(loaded.objs, loaded.root, Components(PathString([SEPARATOR], p)), q);
  }

  lemma LoadedIsDumped(st: State, orders: Orders, counter: Id, x: Id)
    requires WF(st) && NoCycle(st.objs, st.root) && OrdersOk(st.objs, orders)
    requires x in LoadAll(NewDomain(counter), DumpOrder(st, orders)).objs
    ensures OnDumpedPath(st, NameChain(LoadAll(NewDomain(counter), DumpOrder(st, orders)).objs, x))
  {
    var empty, names := NewDomain(counter), DumpOrder(st, orders);
    NewDomainIsTree(counter);
    NoCycleIsRanked(st.objs, st.root);
    if x in empty.objs {
      LoadMany(empty, names);
      assert InTree(empty.objs, x);
      ChainGrows(empty, LoadAll(empty, names), x);
      assert RealFollow(st.objs, st.root, []).Some? && NameChain(empty.objs, x) == [];
    } else {
      var s := LoadAdds(empty, names, x);
      var p := DumpedNames(st, orders, ReachRank(st.objs, st.root), s);
    }
  }

  /**
   The round trip keeps exactly the real paths if and only if the original spells each of them: only a name
   without a separator, or one that ends in a separator and is the last of every path it is on, comes back.
   */
  lemma DumpLoadRoundTrip(st: State, orders: Orders, counter: Id)
    requires WF(st) && NoCycle(st.objs, st.root) && OrdersOk(st.objs, orders)
    ensures SamePaths(LoadAll(NewDomain(counter), DumpOrder(st, orders)), st) <==> AllSpelled(st)
  {
    LoadedPaths(st, orders, counter);
    forall p | OnDumpedPath(st, p)
      ensures Spelled(p)
    {
      var q :| RealFollow(st.objs, st.root, q).Some? && p <= Components(PathString([SEPARATOR], q));
      PathStringNotEmpty([SEPARATOR], q);
      ComponentsAreSpelled(PathString([SEPARATOR], q));
      PrefixIsSpelled(Components(PathString([SEPARATOR], q)), p);
    }
    if forall p :: RealFollow(st.objs, st.root, p).Some? ==> Spelled(p) {
      forall p
        ensures OnDumpedPath(st, p) <==> RealFollow(st.objs, st.root, p).Some?
      {
        SpelledComesBack(st, p);
      }
    }
  }

  lemma SpelledComesBack(st: State, p: seq<string>)
    requires forall q :: RealFollow(st.objs, st.root, q).Some? ==> Spelled(q)
    ensures OnDumpedPath(st, p) <==> RealFollow(st.objs, st.root, p).Some?
  {
    if RealFollow(st.objs, st.root, p).Some? {
      ComponentsOfPathString(p);
    }
    if OnDumpedPath(st, p) {
      var q :| RealFollow(st.objs, st.root, q).Some? && p <= Components(PathString([SEPARATOR], q));
      ComponentsOfPathString(q);
      RealPathsAreClosed(st.objs, st.root, q, p);
    }
  }

  /** The dump of a domain, read back. */
  method Dump(d: Domain, orders: Orders) returns (root: Element)
    requires d.Valid() && WF(d.View()) && OrdersOk(d.View().objs, orders) && NoCycle(d.View().objs, d.View().root)
    ensures root.ContextElement? && ElementOrder(root) == DumpOrder(d.View(), orders)
  {
    ghost var st := d.View();
    NoCycleIsRanked(st.objs, st.root);
    ghost var t := Unfold(st.objs, orders, ReachRank(st.objs, st.root), "", st.root, [SEPARATOR]);
    var calls := TraverseDomain(d, orders);
    WalkIsRead(t);
    OrderOfElement(t);
    root := Read(calls).value.content.first;
  }

  /**
   The round trip as a program: walk a domain, read the calls back as elements, load those into a new
   domain. The copy has the paths that the dump spells, and exactly those of the original if and only if
   the original spells all of its own.
   */
  method DumpAndLoad(d: Domain, orders: Orders, first: Id) returns (copy: Domain)
    requires d.Valid() && WF(d.View()) && OrdersOk(d.View().objs, orders) && NoCycle(d.View().objs, d.View().root)
    ensures copy.Valid() && fresh(copy)
    ensures CopyOf(copy.View(), d.View())
    ensures SamePaths(copy.View(), d.View()) <==> AllSpelled(d.View())
  {
    ghost var st := d.View();
    var root := Dump(d, orders);
    copy := Reload(root, first, st, orders);
    assert d.View() == st;
  }

  /** A dump loaded into a new domain. */
  method Reload(root: Element, first: Id, ghost st: State, ghost orders: Orders) returns (copy: Domain)
    requires WF(st) && NoCycle(st.objs, st.root) && OrdersOk(st.objs, orders)
    requires root.ContextElement? && ElementOrder(root) == DumpOrder(st, orders)
    ensures copy.Valid() && fresh(copy)
    ensures CopyOf(copy.View(), st) && (SamePaths(copy.View(), st) <==> AllSpelled(st))
  {
    LoadedPaths(st, orders, first);
    DumpLoadRoundTrip(st, orders, first);
    copy := LoadNew(root, first);
  }

  method LoadNew(root: Element, first: Id) returns (copy: Domain)
    requires root.ContextElement?
    ensures copy.Valid() && fresh(copy)
    ensures copy.View() == LoadAll(NewDomain(first), ElementOrder(root))
  {
    copy := new Domain(first);
    NewDomainIsTree(first);
    TreeIsLoadable(NewDomain(first), ElementOrder(root));
    ProcessDomain(copy, root);
  }
}
