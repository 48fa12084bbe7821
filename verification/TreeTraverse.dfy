/**
 The depth-first walk over a domain with an explicit stack of INITIAL and PROCESSED entries. It is
 proved against the recursive unfolding of the name graph, in which a context that is linked
 under several names stands once per path.
 */
module TreeTraverse {
  import opened Wrappers
  import opened Paths
  import opened NameGraph
  import opened Iteration

  datatype Visit =
    | StartContext(context: Id, path: string)
    | EndContext(context: Id, path: string)
    | StartEntity(holder: Id, entity: Id, path: string)
    | EndEntity(holder: Id, entity: Id, path: string)

  datatype StackState = INITIAL | PROCESSED

  datatype StackEntry = StackEntry(state: StackState, context: Id, path: string)

  /** A context in the unfolding: the name that led to it, its path, and what is below it in visiting order. */
  datatype Node = Node(name: string, context: Id, path: string, entities: seq<Id>, children: Forest)

  datatype Forest = Nil | Cons(first: Node, rest: Forest)

  /** The order in which each name map iterates; any order will do. */
  type Orders = map<Id, seq<string>>

  ghost predicate OrdersOk(objs: Objects, orders: Orders) {
    forall c :: c in objs ==> c in orders && Enumerates(orders[c], objs[c].names.Keys)
  }

  // ---------- specification ----------

  predicate RealContextAt(objs: Objects, c: Id, n: string) {
    && n in NamesOf(objs, c)
    && IsReal(objs, NamesOf(objs, c)[n].target)
    && NamesOf(objs, c)[n].tag == ContextBinding
  }

  /** Every real context binding of a ranked context leads to one of a lower rank. */
  ghost predicate Ranked(objs: Objects, rank: map<Id, nat>) {
    forall c, n {:trigger RealContextAt(objs, c, n)} :: c in rank && RealContextAt(objs, c, n) ==>
      NamesOf(objs, c)[n].target in rank && rank[NamesOf(objs, c)[n].target] < rank[c]
  }

  /** Where a path of real context bindings leads. */
  function RealFollow(objs: Objects, c: Id, p: seq<string>): Option<Id>
    decreases |p|
  {
    if p == [] then Some(c)
    else if RealContextAt(objs, c, p[0]) then RealFollow(objs, NamesOf(objs, c)[p[0]].target, p[1..])
    else None
  }

  function RankOf(rank: map<Id, nat>, c: Id): nat {
    if c in rank then rank[c] else 0
  }

  function ChildPath(path: string, name: string): string {
    if path == [SEPARATOR] then path + name else path + [SEPARATOR] + name
  }

  /** The names of the real contexts among those given, in order. */
  function ContextNames(objs: Objects, c: Id, order: seq<string>): (names: seq<string>)
    ensures forall n :: n in names <==> n in order && RealContextAt(objs, c, n)
  {
    if order == [] then []
    else
      var rest := ContextNames(objs, c, order[..|order| - 1]);
      var n := order[|order| - 1];
      if RealContextAt(objs, c, n) then rest + [n] else rest
  }

  function EntitiesIn(objs: Objects, c: Id, order: seq<string>): seq<Id> {
    if order == [] then []
    else
      var rest := EntitiesIn(objs, c, order[..|order| - 1]);
      var n := order[|order| - 1];
      if n in NamesOf(objs, c) && IsReal(objs, NamesOf(objs, c)[n].target) && NamesOf(objs, c)[n].tag == EntityBinding
      then rest + [NamesOf(objs, c)[n].target] else rest
  }

  function OrderOf(orders: Orders, c: Id): seq<string> {
    if c in orders then orders[c] else []
  }

  /** The recursive unfolding. What is pushed last is visited first. */
  ghost function Unfold(objs: Objects, orders: Orders, rank: map<Id, nat>, name: string, c: Id, path: string): Node
    requires Ranked(objs, rank) && c in rank
    decreases RankOf(rank, c), 1, 0
  {
    Node(name, c, path, EntitiesIn(objs, c, OrderOf(orders, c)),
         UnfoldAll(objs, orders, rank, c, path, ContextNames(objs, c, OrderOf(orders, c))))
  }

  ghost function UnfoldAll(objs: Objects, orders: Orders, rank: map<Id, nat>, c: Id, path: string, names: seq<string>)
    : Forest
    requires Ranked(objs, rank) && c in rank
    requires forall n :: n in names ==> RealContextAt(objs, c, n)
    decreases RankOf(rank, c), 0, |names|
  {
    if names == [] then Nil
    else
      var n := names[|names| - 1];
      assert n in names && RealContextAt(objs, c, n);
      Cons(Unfold(objs, orders, rank, n, NamesOf(objs, c)[n].target, ChildPath(path, n)),
           UnfoldAll(objs, orders, rank, c, path, names[..|names| - 1]))
  }

  function EntityEvents(c: Id, path: string, entities: seq<Id>): seq<Visit> {
    if entities == [] then []
    else
      var e := entities[|entities| - 1];
      EntityEvents(c, path, entities[..|entities| - 1]) + [StartEntity(c, e, path), EndEntity(c, e, path)]
  }

  /** The visitor's calls for an unfolding: every start has its end, and everything below lies between them. */
  function Events(t: Node): (events: seq<Visit>)
    ensures events != []
  {
    [StartContext(t.context, t.path)]
    + EntityEvents(t.context, t.path, t.entities)
    + EventsAll(t.children)
    + [EndContext(t.context, t.path)]
  }

  function EventsAll(f: Forest): seq<Visit> {
    match f
    case Nil => []
    case Cons(first, rest) => Events(first) + EventsAll(rest)
  }

  // ---------- the walk ----------

  ghost function Todo(objs: Objects, orders: Orders, rank: map<Id, nat>, e: StackEntry): (events: seq<Visit>)
    requires Ranked(objs, rank) && e.context in rank
    ensures events != []
  {
    if e.state == PROCESSED then [EndContext(e.context, e.path)]
    else Events(Unfold(objs, orders, rank, "", e.context, e.path))
  }

  ghost predicate AllRanked(rank: map<Id, nat>, stack: seq<StackEntry>) {
    forall i :: 0 <= i < |stack| ==> stack[i].context in rank
  }

  /** The calls that a stack still stands for, its last entry being the top. */
  ghost function Pending(objs: Objects, orders: Orders, rank: map<Id, nat>, stack: seq<StackEntry>): seq<Visit>
    requires Ranked(objs, rank) && AllRanked(rank, stack)
  {
    if stack == [] then []
    else Todo(objs, orders, rank, stack[|stack| - 1]) + Pending(objs, orders, rank, stack[..|stack| - 1])
  }

  lemma PendingPush(objs: Objects, orders: Orders, rank: map<Id, nat>, stack: seq<StackEntry>, e: StackEntry)
    requires Ranked(objs, rank) && AllRanked(rank, stack) && e.context in rank
    ensures Pending(objs, orders, rank, stack + [e])
         == Todo(objs, orders, rank, e) + Pending(objs, orders, rank, stack)
  {
    assert (stack + [e])[..|stack + [e]| - 1] == stack;
  }

  function Entries(objs: Objects, c: Id, path: string, names: seq<string>): seq<StackEntry>
    requires forall n :: n in names ==> n in NamesOf(objs, c)
  {
    seq(|names|, i requires 0 <= i < |names| =>
      assert names[i] in names;
      StackEntry(INITIAL, NamesOf(objs, c)[names[i]].target, ChildPath(path, names[i])))
  }

  /** The name in the unfolding does not show in the events. */
  lemma NameDoesNotShow(objs: Objects, orders: Orders, rank: map<Id, nat>, a: string, b: string, c: Id, path: string)
    requires Ranked(objs, rank) && c in rank
    ensures Events(Unfold(objs, orders, rank, a, c, path)) == Events(Unfold(objs, orders, rank, b, c, path))
  {
  }

  /** The events below a context, for the last names of its iteration first. */
  ghost function Below(objs: Objects, orders: Orders, rank: map<Id, nat>, c: Id, path: string, names: seq<string>)
    : seq<Visit>
    requires Ranked(objs, rank) && c in rank
    requires forall n :: n in names ==> RealContextAt(objs, c, n)
  {
    EventsAll(UnfoldAll(objs, orders, rank, c, path, names))
  }

  lemma BelowLast(objs: Objects, orders: Orders, rank: map<Id, nat>, c: Id, path: string, front: seq<string>, n: string)
    requires Ranked(objs, rank) && c in rank && RealContextAt(objs, c, n)
    requires forall m :: m in front ==> RealContextAt(objs, c, m)
    ensures Below(objs, orders, rank, c, path, front + [n])
         == Todo(objs, orders, rank, StackEntry(INITIAL, NamesOf(objs, c)[n].target, ChildPath(path, n)))
            + Below(objs, orders, rank, c, path, front)
  {
    assert (front + [n])[..|front|] == front;
    NameDoesNotShow(objs, orders, rank, "", n, NamesOf(objs, c)[n].target, ChildPath(path, n));
  }

  lemma {:induction false} PendingEntries(objs: Objects, orders: Orders, rank: map<Id, nat>,
                                          stack: seq<StackEntry>, c: Id, path: string, names: seq<string>)
    requires Ranked(objs, rank) && AllRanked(rank, stack) && c in rank
    requires forall n :: n in names ==> RealContextAt(objs, c, n)
    ensures Pending(objs, orders, rank, stack + Entries(objs, c, path, names))
         == Below(objs, orders, rank, c, path, names) + Pending(objs, orders, rank, stack)
    decreases |names|
  {
    if names == [] {
      assert stack + Entries(objs, c, path, names) == stack;
    } else {
      var front, n := names[..|names| - 1], names[|names| - 1];
      assert n in names && names == front + [n];
      assert forall m :: m in front ==> m in names;
      var e := StackEntry(INITIAL, NamesOf(objs, c)[n].target, ChildPath(path, n));
      var lower := stack + Entries(objs, c, path, front);
      EntriesLast(objs, c, path, front, n);
      Associate(stack, Entries(objs, c, path, front), [e]);
      PendingPush(objs, orders, rank, lower, e);
      PendingEntries(objs, orders, rank, stack, c, path, front);
      BelowLast(objs, orders, rank, c, path, front, n);
      Associate(Todo(objs, orders, rank, e), Below(objs, orders, rank, c, path, front),
                Pending(objs, orders, rank, stack));
    }
  }

  lemma EntriesLast(objs: Objects, c: Id, path: string, front: seq<string>, n: string)
    requires n in NamesOf(objs, c) && forall m :: m in front ==> m in NamesOf(objs, c)
    ensures Entries(objs, c, path, front + [n])
         == Entries(objs, c, path, front) + [StackEntry(INITIAL, NamesOf(objs, c)[n].target, ChildPath(path, n))]
  {
  }

  lemma Associate<T>(a: seq<T>, b: seq<T>, c: seq<T>)
    ensures a + (b + c) == (a + b) + c
  {
  }

  /** The calls for one binding: two, if it leads to a real entity. */
  function EventsOf(objs: Objects, c: Id, path: string, b: Binding): seq<Visit> {
    if IsReal(objs, b.target) && b.tag == EntityBinding
    then [StartEntity(c, b.target, path)] + [EndEntity(c, b.target, path)] else []
  }

  lemma OneMoreEntity(objs: Objects, c: Id, path: string, order: seq<string>, i: nat)
    requires i < |order| && order[i] in NamesOf(objs, c)
    ensures EntityEvents(c, path, EntitiesIn(objs, c, order[..i + 1]))
         == EntityEvents(c, path, EntitiesIn(objs, c, order[..i])) + EventsOf(objs, c, path, NamesOf(objs, c)[order[i]])
  {
    assert order[..i + 1][..i] == order[..i];
    var rest := EntitiesIn(objs, c, order[..i]);
    var x := NamesOf(objs, c)[order[i]].target;
    assert (rest + [x])[..|rest|] == rest;
    assert [StartEntity(c, x, path)] + [EndEntity(c, x, path)] == [StartEntity(c, x, path), EndEntity(c, x, path)];
  }

  method VisitEntities(objs: Objects, c: Id, path: string, order: seq<string>) returns (out: seq<Visit>)
    requires forall n :: n in NamesOf(objs, c) ==> NamesOf(objs, c)[n].target in objs
    requires forall n :: n in order ==> n in NamesOf(objs, c)
    ensures out == EntityEvents(c, path, EntitiesIn(objs, c, order))
  {
    out := [];
    var names := NamesOf(objs, c);
    for i := 0 to |order|
      invariant out == EntityEvents(c, path, EntitiesIn(objs, c, order[..i]))
    {
      assert order[i] in order;
      OneMoreEntity(objs, c, path, order, i);
      var bp := names[order[i]];
      if objs[bp.target].placeholder { continue; }
      if bp.tag == EntityBinding {
        out := out + [StartEntity(c, bp.target, path)];
        out := out + [EndEntity(c, bp.target, path)];
      }
    }
    assert order[..|order|] == order;
  }

  method PushContexts(objs: Objects, c: Id, path: string, order: seq<string>, stack: seq<StackEntry>)
    returns (pushed: seq<StackEntry>)
    requires forall n :: n in NamesOf(objs, c) ==> NamesOf(objs, c)[n].target in objs
    requires forall n :: n in order ==> n in NamesOf(objs, c)
    ensures pushed == stack + Entries(objs, c, path, ContextNames(objs, c, order))
  {
    pushed := stack;
    var names := NamesOf(objs, c);
    assert order[..0] == [];
    for i := 0 to |order|
      invariant pushed == stack + Entries(objs, c, path, ContextNames(objs, c, order[..i]))
    {
      assert order[..i + 1][..i] == order[..i] && order[i] in order;
      var bp := names[order[i]];
      if objs[bp.target].placeholder { continue; }
      if bp.tag == ContextBinding {
        var myFullName := path;
        if path != [SEPARATOR] {
          myFullName := myFullName + [SEPARATOR];
        }
        myFullName := myFullName + order[i];
        pushed := pushed + [StackEntry(INITIAL, bp.target, myFullName)];
      }
    }
    assert order[..|order|] == order;
  }

  /** What every entry on the stack points to. */
  ghost predicate EntriesLive(objs: Objects, stack: seq<StackEntry>) {
    forall i :: 0 <= i < |stack| ==> stack[i].context in objs
  }

  ghost predicate AllLive(objs: Objects) {
    forall c, n {:trigger n in NamesOf(objs, c)} :: n in NamesOf(objs, c) ==> NamesOf(objs, c)[n].target in objs
  }

  lemma TodoInitial(objs: Objects, orders: Orders, rank: map<Id, nat>, c: Id, path: string)
    requires Ranked(objs, rank) && c in rank
    ensures Todo(objs, orders, rank, StackEntry(INITIAL, c, path))
         == [StartContext(c, path)] + EntityEvents(c, path, EntitiesIn(objs, c, OrderOf(orders, c)))
            + Below(objs, orders, rank, c, path, ContextNames(objs, c, OrderOf(orders, c)))
            + [EndContext(c, path)]
  {
  }

  lemma EntriesAreRanked(objs: Objects, rank: map<Id, nat>, stack: seq<StackEntry>, c: Id, path: string,
                         names: seq<string>)
    requires Ranked(objs, rank) && AllRanked(rank, stack) && c in rank
    requires forall n :: n in names ==> RealContextAt(objs, c, n)
    ensures AllRanked(rank, stack + Entries(objs, c, path, names))
  {
    forall i | 0 <= i < |names|
      ensures Entries(objs, c, path, names)[i].context in rank
    {
      assert names[i] in names;
    }
  }

  /** What is pending once the visit of a context has started: its contexts, its own end call, and the rest. */
  ghost function Started(objs: Objects, orders: Orders, rank: map<Id, nat>, below: seq<StackEntry>, c: Id, path: string)
    : seq<Visit>
    requires Ranked(objs, rank) && AllRanked(rank, below) && c in rank
  {
    var names := ContextNames(objs, c, OrderOf(orders, c));
    var lower := below + [StackEntry(PROCESSED, c, path)];
    EntriesAreRanked(objs, rank, lower, c, path, names);
    Pending(objs, orders, rank, lower + Entries(objs, c, path, names))
  }

  /** The start of a visit makes its first calls and leaves the others pending. */
  lemma PendingStart(objs: Objects, orders: Orders, rank: map<Id, nat>, below: seq<StackEntry>, c: Id, path: string)
    requires Ranked(objs, rank) && AllRanked(rank, below) && c in rank
    ensures Pending(objs, orders, rank, below + [StackEntry(INITIAL, c, path)])
         == [StartContext(c, path)] + EntityEvents(c, path, EntitiesIn(objs, c, OrderOf(orders, c)))
            + Started(objs, orders, rank, below, c, path)
  {
    PendingPush(objs, orders, rank, below, StackEntry(INITIAL, c, path));
    PendingPush(objs, orders, rank, below, StackEntry(PROCESSED, c, path));
    PendingEntries(objs, orders, rank, below + [StackEntry(PROCESSED, c, path)], c, path,
                   ContextNames(objs, c, OrderOf(orders, c)));
    TodoInitial(objs, orders, rank, c, path);
    Reassociate([StartContext(c, path)] + EntityEvents(c, path, EntitiesIn(objs, c, OrderOf(orders, c))),
                Below(objs, orders, rank, c, path, ContextNames(objs, c, OrderOf(orders, c))),
                [EndContext(c, path)], Pending(objs, orders, rank, below));
  }

  lemma Reassociate<T>(a: seq<T>, b: seq<T>, c: seq<T>, d: seq<T>)
    ensures (a + b + c) + d == a + (b + (c + d))
  {
  }

  lemma EntriesAreLive(objs: Objects, stack: seq<StackEntry>, c: Id, path: string, names: seq<string>)
    requires EntriesLive(objs, stack) && AllLive(objs)
    requires forall n :: n in names ==> n in NamesOf(objs, c)
    ensures EntriesLive(objs, stack + Entries(objs, c, path, names))
  {
    var entries := Entries(objs, c, path, names);
    forall i | 0 <= i < |stack + entries|
      ensures (stack + entries)[i].context in objs
    {
      if i >= |stack| {
        assert names[i - |stack|] in names;
        assert (stack + entries)[i] == entries[i - |stack|];
      }
    }
  }

  /**
   One round of the loop: an end call for a processed top, else its start call, its entities and its contexts
   pushed.
   */
  method VisitTop(objs: Objects, orders: Orders, ghost rank: map<Id, nat>, stack: seq<StackEntry>)
    returns (visits: seq<Visit>, next: seq<StackEntry>)
    requires Ranked(objs, rank) && OrdersOk(objs, orders) && AllLive(objs)
    requires stack != [] && EntriesLive(objs, stack) && AllRanked(rank, stack)
    ensures EntriesLive(objs, next) && AllRanked(rank, next) && visits != []
    ensures Pending(objs, orders, rank, stack) == visits + Pending(objs, orders, rank, next)
  {
    var top := stack[|stack| - 1];
    var c := top.context;
    var path := top.path;
    ghost var below := stack[..|stack| - 1];
    assert stack == below + [top];
    if top.state == PROCESSED {
      PendingPush(objs, orders, rank, below, top);
      return [EndContext(c, path)], stack[..|stack| - 1];
    }
    visits := [StartContext(c, path)];
    next := stack[|stack| - 1 := top.(state := PROCESSED)];
    assert next == below + [StackEntry(PROCESSED, c, path)];
    PendingStart(objs, orders, rank, below, c, path);
    var entities := VisitEntities(objs, c, path, orders[c]);
    visits := visits + entities;
    EntriesAreLive(objs, next, c, path, ContextNames(objs, c, orders[c]));
    EntriesAreRanked(objs, rank, next, c, path, ContextNames(objs, c, orders[c]));
    next := PushContexts(objs, c, path, orders[c], next);
  }

  method Traverse(objs: Objects, root: Id, orders: Orders, ghost rank: map<Id, nat>) returns (visits: seq<Visit>)
    requires Ranked(objs, rank) && OrdersOk(objs, orders) && AllLive(objs) && root in objs && root in rank
    ensures visits == Events(Unfold(objs, orders, rank, "", root, [SEPARATOR]))
  {
    var stack := [StackEntry(INITIAL, root, [SEPARATOR])];
    visits := [];
    PendingPush(objs, orders, rank, [], stack[0]);
    ghost var pending := Pending(objs, orders, rank, stack);
    ghost var all := pending;
    assert all == Events(Unfold(objs, orders, rank, "", root, [SEPARATOR])) + Pending(objs, orders, rank, []) by {
      assert [] + [stack[0]] == stack;
    }
    while |stack| > 0
      invariant EntriesLive(objs, stack) && AllRanked(rank, stack)
      invariant pending == Pending(objs, orders, rank, stack)
      invariant visits + pending == all
      decreases |pending|
    {
      var calls;
      calls, stack := VisitTop(objs, orders, rank, stack);
      pending := Pending(objs, orders, rank, stack);
      Associate(visits, calls, pending);
      visits := visits + calls;
    }
    assert visits + [] == visits && pending == [];
  }

  // ---------- cycles ----------

  /** No context that the root reaches can be reached from itself. */
  ghost predicate NoCycle(objs: Objects, root: Id) {
    forall q, p :: RealFollow(objs, root, q).Some? && p != [] ==>
      RealFollow(objs, RealFollow(objs, root, q).value, p) != RealFollow(objs, root, q)
  }

  ghost predicate Reaches(objs: Objects, c: Id, x: Id) {
    exists p :: RealFollow(objs, c, p) == Some(x)
  }

  ghost function Reached(objs: Objects, c: Id): set<Id> {
    set x | x in objs && Reaches(objs, c, x)
  }

  /** The rank of a context that the root reaches: how many contexts it reaches itself. */
  ghost function ReachRank(objs: Objects, root: Id): map<Id, nat> {
    map c | c in Reached(objs, root) :: |Reached(objs, c)|
  }

  lemma {:induction false} FollowOn(objs: Objects, c: Id, p: seq<string>, q: seq<string>)
    requires RealFollow(objs, c, p).Some?
    ensures RealFollow(objs, c, p + q) == RealFollow(objs, RealFollow(objs, c, p).value, q)
    decreases |p|
  {
    if p == [] {
      assert p + q == q;
    } else {
      assert (p + q)[1..] == p[1..] + q;
      FollowOn(objs, NamesOf(objs, c)[p[0]].target, p[1..], q);
    }
  }

  lemma StepDown(objs: Objects, root: Id, q: seq<string>, n: string)
    requires RealFollow(objs, root, q).Some? && RealContextAt(objs, RealFollow(objs, root, q).value, n)
    ensures RealFollow(objs, root, q + [n]) == Some(NamesOf(objs, RealFollow(objs, root, q).value)[n].target)
  {
    FollowOn(objs, root, q, [n]);
    assert [n][1..] == [];
  }

  /** Without cycles a context reaches more than the contexts it binds do. */
  lemma ReachShrinks(objs: Objects, root: Id, c: Id, n: string)
    requires NoCycle(objs, root) && c in objs && Reaches(objs, root, c) && RealContextAt(objs, c, n)
    ensures var x := NamesOf(objs, c)[n].target;
            x in objs && Reaches(objs, root, x) && |Reached(objs, x)| < |Reached(objs, c)|
  {
    var x := NamesOf(objs, c)[n].target;
    var q :| RealFollow(objs, root, q) == Some(c);
    StepDown(objs, root, q, n);
    forall y, p | RealFollow(objs, x, p) == Some(y)
      ensures y != c && Reaches(objs, c, y)
    {
      assert ([n] + p)[1..] == p;
      assert RealFollow(objs, c, [n] + p) == Some(y);
    }
    assert RealFollow(objs, c, []) == Some(c);
    assert Reached(objs, x) <= Reached(objs, c) - {c};
    SubsetSize(Reached(objs, x), Reached(objs, c) - {c});
  }

  lemma NoCycleIsRanked(objs: Objects, root: Id)
    requires root in objs && NoCycle(objs, root)
    ensures Ranked(objs, ReachRank(objs, root)) && root in ReachRank(objs, root)
  {
    assert RealFollow(objs, root, []) == Some(root);
    forall c, n | c in ReachRank(objs, root) && RealContextAt(objs, c, n)
      ensures NamesOf(objs, c)[n].target in ReachRank(objs, root)
      ensures ReachRank(objs, root)[NamesOf(objs, c)[n].target] < ReachRank(objs, root)[c]
    {
      ReachShrinks(objs, root, c, n);
    }
  }

  lemma {:induction false} RankFalls(objs: Objects, rank: map<Id, nat>, c: Id, p: seq<string>)
    requires Ranked(objs, rank) && c in rank && RealFollow(objs, c, p).Some?
    ensures RealFollow(objs, c, p).value in rank && rank[RealFollow(objs, c, p).value] + |p| <= rank[c]
    decreases |p|
  {
    if p != [] {
      RankFalls(objs, rank, NamesOf(objs, c)[p[0]].target, p[1..]);
    }
  }

  /** Going round a cycle any number of times. */
  lemma {:induction false} RoundAndRound(objs: Objects, c: Id, p: seq<string>, m: nat) returns (q: seq<string>)
    requires p != [] && RealFollow(objs, c, p) == Some(c)
    ensures |q| >= m && RealFollow(objs, c, q) == Some(c)
  {
    if m == 0 {
      q := [];
    } else {
      var r := RoundAndRound(objs, c, p, m - 1);
      q := p + r;
      FollowOn(objs, c, p, r);
    }
  }

  ghost predicate NoLonger(objs: Objects, root: Id, k: nat) {
    forall p :: RealFollow(objs, root, p).Some? ==> |p| <= k
  }

  /** The walk has finitely many paths to visit exactly if the root reaches no cycle. */
  lemma NoCycleIffBounded(objs: Objects, root: Id)
    requires root in objs
    ensures NoCycle(objs, root) <==> exists k: nat :: NoLonger(objs, root, k)
  {
    if NoCycle(objs, root) {
      var rank := ReachRank(objs, root);
      NoCycleIsRanked(objs, root);
      forall p | RealFollow(objs, root, p).Some?
        ensures |p| <= rank[root]
      {
        RankFalls(objs, rank, root, p);
      }
      assert NoLonger(objs, root, rank[root]);
    } else {
      var q, p :| RealFollow(objs, root, q).Some? && p != []
                  && RealFollow(objs, RealFollow(objs, root, q).value, p) == RealFollow(objs, root, q);
      forall k: nat
        ensures !NoLonger(objs, root, k)
      {
        var r := RoundAndRound(objs, RealFollow(objs, root, q).value, p, k + 1);
        FollowOn(objs, root, q, r);
        assert |q + r| > k;
      }
    }
  }

  lemma AllNamesLive(st: State)
    requires WF(st)
    ensures AllLive(st.objs)
  {
    forall c, n | n in NamesOf(st.objs, c)
      ensures NamesOf(st.objs, c)[n].target in st.objs
    {
      NamesAreLive(st, c);
    }
  }

  lemma NamesAreLive(st: State, c: Id)
    requires WF(st) && c in st.objs
    ensures forall n :: n in NamesOf(st.objs, c) ==> NamesOf(st.objs, c)[n].target in st.objs
  {
    assert ObjOk(st.objs, st.root, c);
    forall n | n in NamesOf(st.objs, c) ensures NamesOf(st.objs, c)[n].target in st.objs {
      assert BindingOk(st.objs, st.objs[c].names[n]);
    }
  }
}
