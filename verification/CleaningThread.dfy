/**
 The cleanup sweep as the engine runs it: contexts whose heartbeat entity is too old are removed, breadth first,
 through a queue. It does in the domain what the rounds of a sweep do on the graph as it stood at the start.
 */
module CleaningThread {
  import opened Wrappers
  import opened NameGraph
  import opened Iteration
  import opened Directory
  import opened TreeTraverse
  import opened Expiry
  import opened Sweep
  import opened SweepEnds
  import opened SweepSafety

  // ---------- the scan ----------

  /** A context that can be looked at for its heartbeat. */
  ghost predicate Scannable(objs: Objects, x: Id) {
    && (forall m :: m in NamesOf(objs, x) ==> NamesOf(objs, x)[m].target in objs)
    && !Dataless(objs, x)
  }

  /** What a scan has sorted when it has met the names of `order`. */
  ghost predicate ScannedUpTo(g: Graph, order: seq<string>, r: Round) {
    && NoRepeats(r.kept) && NoRepeats(r.gone)
    && (forall n :: n in r.kept <==> n in order && LiveAt(g, r.context, n))
    && (forall n :: n in r.gone <==> n in order && DyingAt(g, r.context, n))
  }

  lemma ScanStep(g: Graph, order: seq<string>, n: string, r: Round)
    requires ScannedUpTo(g, order, r) && n !in order
    ensures ScannedUpTo(g, order + [n], if DyingAt(g, r.context, n) then r.(gone := r.gone + [n])
                                        else if LiveAt(g, r.context, n) then r.(kept := [n] + r.kept) else r)
  {
  }

  /** The scan of one context's bindings: what is to be checked later goes before the checklist. */
  method Scan(objs: Objects, timeout: string, c: Id, checklist: seq<Id>, ghost g: Graph)
    returns (next: seq<Id>, toBeRemoved: seq<Id>, ghost r: Round)
    requires g.objs == objs && g.timeout == timeout
    requires forall n :: n in NamesOf(objs, c) ==> NamesOf(objs, c)[n].target in objs
    requires forall n :: RealContextAt(objs, c, n) ==> Scannable(objs, TargetOf(objs, c, n))
    ensures Scanned(g, [], r) && r.context == c
    ensures next == Added(g, r) + checklist && toBeRemoved == Dying(g, r)
  {
    next, toBeRemoved := checklist, [];
    r := Round(c, [], []);
    var names := NamesOf(objs, c);
    var order := HashOrder(names);
    assert Added(g, r) + checklist == checklist;
    for i := 0 to |order|
      invariant r.context == c && ScannedUpTo(g, order[..i], r)
      invariant next == Added(g, r) + checklist && toBeRemoved == Dying(g, r)
    {
      var n := order[i];
      var bp := names[n];
      assert order[..i + 1] == order[..i] + [n];
      ScanStep(g, order[..i], n, r);
      if objs[bp.target].placeholder { continue; }
      if bp.tag == ContextBinding {
        assert RealContextAt(objs, c, n) && TargetOf(objs, c, n) == bp.target;
        var expired := IsExpired(objs, timeout, bp.target);
        if expired {
          MoreDying(g, r, n);
          toBeRemoved := toBeRemoved + [bp.target];
          r := r.(gone := r.gone + [n]);
        } else {
          MoreAdded(g, r, n, checklist);
          next := [bp.target] + next;
          r := r.(kept := [n] + r.kept);
        }
      }
    }
    assert order[..|order|] == order;
  }

  lemma MoreDying(g: Graph, r: Round, n: string)
    ensures Dying(g, r.(gone := r.gone + [n])) == Dying(g, r) + [TargetOf(g.objs, r.context, n)]
  {
  }

  lemma MoreAdded(g: Graph, r: Round, n: string, checklist: seq<Id>)
    ensures Added(g, r.(kept := [n] + r.kept)) + checklist
        == [TargetOf(g.objs, r.context, n)] + (Added(g, r) + checklist)
  {
    assert Added(g, r.(kept := [n] + r.kept)) == [TargetOf(g.objs, r.context, n)] + Added(g, r);
  }

  // ---------- deletion ----------

  /** The state after deleting contexts one after the other. */
  function RemoveAll(st: State, removed: seq<Id>): State {
    if removed == [] then st else Remove(RemoveAll(st, removed[..|removed| - 1]), removed[|removed| - 1])
  }

  lemma EraseNothing(objs: Objects)
    ensures EraseSet(objs, {}) == objs
  {
    forall y | y in objs ensures EraseSet(objs, {})[y] == objs[y] {
      assert WithoutTargets(objs[y].names, {}) == objs[y].names;
    }
  }

  lemma EraseOneMore(objs: Objects, dead: set<Id>, x: Id)
    ensures EraseObject(EraseSet(objs, dead), x) == EraseSet(objs, dead + {x})
  {
    var a, b := EraseObject(EraseSet(objs, dead), x), EraseSet(objs, dead + {x});
    forall y | y in b
      ensures a[y] == b[y]
    {
      assert WithoutTarget(WithoutTargets(objs[y].names, dead), x) == WithoutTargets(objs[y].names, dead + {x});
    }
  }

  lemma {:induction false} RemoveAllErases(st: State, removed: seq<Id>)
    ensures var st' := RemoveAll(st, removed);
            && st'.objs == EraseSet(st.objs, SetOf(removed))
            && st'.root == st.root && st'.next == st.next
    decreases |removed|
  {
    if removed == [] {
      assert SetOf(removed) == {};
      EraseNothing(st.objs);
    } else {
      var front, x := removed[..|removed| - 1], removed[|removed| - 1];
      RemoveAllErases(st, front);
      EraseOneMore(st.objs, SetOf(front), x);
      assert removed == front + [x];
      assert SetOf(removed) == SetOf(front) + {x};
    }
  }

  lemma {:induction false} RemoveAllKeepsWF(st: State, removed: seq<Id>)
    requires WF(st) && st.root !in removed
    ensures WF(RemoveAll(st, removed))
    decreases |removed|
  {
    if removed != [] {
      var front, x := removed[..|removed| - 1], removed[|removed| - 1];
      assert x in removed && forall y :: y in front ==> y in removed;
      RemoveAllKeepsWF(st, front);
      RemoveAllErases(st, front);
      RemoveKeepsWF(RemoveAll(st, front), x);
    }
  }

  lemma RemoveAllConcat(st: State, a: seq<Id>, x: Id)
    ensures RemoveAll(st, a + [x]) == Remove(RemoveAll(st, a), x)
  {
    assert (a + [x])[..|a|] == a;
  }

  lemma OneMore(removed: seq<Id>, j: nat)
    requires j < |removed|
    ensures forall y :: y in removed[..j + 1] <==> y in removed[..j] || y == removed[j]
  {
    assert removed[..j + 1] == removed[..j] + [removed[j]];
  }

  /** In a sweep without trouble each deletion meets live ancestors and live referrers. */
  lemma NextIsDeletable(st: State, timeout: string, removed: seq<Id>, j: nat)
    requires WF(st) && j < |removed| && !TroubleAt(Graph(st.objs, timeout, st.root), removed, j)
    ensures Deletable(RemoveAll(st, removed[..j]), removed[j])
  {
    RemoveAllErases(st, removed[..j]);
    OneMore(removed, j);
    StandsIn(st.objs, SetOf(removed[..j]), removed[j]);
    AliveInErased(st, SetOf(removed[..j]), removed[j]);
  }

  /** The chain of an object is alive if it and all above it are. */
  lemma {:induction false} AliveInErased(st: State, dead: set<Id>, x: Id)
    requires WF(st) && x in st.objs && x !in dead
    requires forall r :: r in Above(st.objs, x) ==> r in st.objs && r !in dead
    ensures ChainAlive(EraseSet(st.objs, dead), x)
    decreases x
  {
    assert ObjOk(st.objs, st.root, x);
    if st.objs[x].parent.Some? {
      var p := st.objs[x].parent.value;
      assert p in Above(st.objs, x);
      AliveInErased(st, dead, p);
    }
  }

  lemma StandsIn(objs: Objects, dead: set<Id>, x: Id)
    requires x in objs && x !in dead && forall r :: r in Followed(objs, x) ==> r in objs && r !in dead
    ensures var after := EraseSet(objs, dead); x in after && forall r :: r in after[x].referrers ==> r in after
  {
  }

  method RemoveContexts(d: Domain, toBeRemoved: seq<Id>, timeout: string, ghost st: State, ghost before: seq<Id>)
    requires d.Valid() && WF(st) && d.View() == RemoveAll(st, before)
    requires !Trouble(Graph(st.objs, timeout, st.root), before + toBeRemoved)
    modifies d, d.objects.Values
    ensures d.Valid() && d.objects.Values <= old(d.objects.Values)
    ensures d.View() == RemoveAll(st, before + toBeRemoved)
  {
    FirstOfBoth(before, toBeRemoved);
    for i := 0 to |toBeRemoved|
      invariant d.Valid() && d.objects.Values <= old(d.objects.Values)
      invariant d.View() == RemoveAll(st, FirstOf(before, toBeRemoved, i))
    {
      RemoveNext(d, toBeRemoved, i, timeout, st, before);
    }
  }

  ghost function Upto(removed: seq<Id>, j: nat): seq<Id>
    requires j <= |removed|
  {
    removed[..j]
  }

  ghost function FirstOf(before: seq<Id>, more: seq<Id>, i: nat): seq<Id>
    requires i <= |more|
  {
    Upto(before + more, |before| + i)
  }

  lemma FirstOfBoth(before: seq<Id>, more: seq<Id>)
    ensures FirstOf(before, more, 0) == before && FirstOf(before, more, |more|) == before + more
  {
  }

  lemma AtMiddle(before: seq<Id>, more: seq<Id>, i: nat)
    requires i < |more|
    ensures (before + more)[|before| + i] == more[i]
  {
  }

  method RemoveNext(d: Domain, toBeRemoved: seq<Id>, i: nat, timeout: string, ghost st: State,
                    ghost before: seq<Id>)
    requires d.Valid() && WF(st) && i < |toBeRemoved|
    requires d.View() == RemoveAll(st, FirstOf(before, toBeRemoved, i))
    requires !Trouble(Graph(st.objs, timeout, st.root), before + toBeRemoved)
    modifies d, d.objects.Values
    ensures d.Valid() && d.objects.Values <= old(d.objects.Values)
    ensures d.View() == RemoveAll(st, FirstOf(before, toBeRemoved, i + 1))
  {
    ghost var now, next := NextInSweep(st, timeout, before, toBeRemoved, i);
    var status := d.RemoveObject(toBeRemoved[i]);
  }

  /** A deletion that goes well, and what it leaves. */
  ghost predicate Deletes(now: State, x: Id, next: State) {
    Erasable(now.objs, x) && Nameable(now.objs, x) && next == Remove(now, x)
  }

  lemma NextInSweep(st: State, timeout: string, before: seq<Id>, more: seq<Id>, i: nat)
    returns (now: State, next: State)
    requires WF(st) && i < |more| && !Trouble(Graph(st.objs, timeout, st.root), before + more)
    ensures now == RemoveAll(st, FirstOf(before, more, i)) && next == RemoveAll(st, FirstOf(before, more, i + 1))
    ensures Deletes(now, more[i], next)
  {
    now, next := NextOfAll(st, timeout, before + more, |before| + i);
    AtMiddle(before, more, i);
  }

  lemma NextOfAll(st: State, timeout: string, removed: seq<Id>, j: nat) returns (now: State, next: State)
    requires WF(st) && j < |removed| && !Trouble(Graph(st.objs, timeout, st.root), removed)
    ensures now == RemoveAll(st, Upto(removed, j)) && next == RemoveAll(st, Upto(removed, j + 1))
    // compared with true: taken as one fact, not conjunct by conjunct
    ensures Deletes(now, removed[j], next) == true
  {
    NextIsErasable(st, timeout, removed, j);
    NextRemoval(st, removed, j);
    now, next := RemoveAll(st, removed[..j]), RemoveAll(st, removed[..j + 1]);
  }

  lemma NextRemoval(st: State, removed: seq<Id>, j: nat)
    requires j < |removed|
    ensures RemoveAll(st, removed[..j + 1]) == Remove(RemoveAll(st, removed[..j]), removed[j])
  {
    assert removed[..j + 1] == removed[..j] + [removed[j]];
    RemoveAllConcat(st, removed[..j], removed[j]);
  }

  lemma NextIsErasable(st: State, timeout: string, removed: seq<Id>, j: nat)
    requires WF(st) && j < |removed| && !Trouble(Graph(st.objs, timeout, st.root), removed)
    ensures var now := RemoveAll(st, removed[..j]).objs; Erasable(now, removed[j]) && Nameable(now, removed[j])
  {
    var g := Graph(st.objs, timeout, st.root);
    forall i | 0 <= i < j
      ensures removed[i] != st.root
    {
      assert !TroubleAt(g, removed, i);
    }
    assert !TroubleAt(g, removed, j);
    NextIsDeletable(st, timeout, removed, j);
    RemoveAllKeepsWF(st, removed[..j]);
    RemoveAllErases(st, removed[..j]);
    RemovableIffErasable(RemoveAll(st, removed[..j]), removed[j]);
  }

  // ---------- a scan midway ----------

  /** Deleting contexts never touches a heartbeat, which is an entity. */
  lemma ErasedExpired(st: State, dead: set<Id>, x: Id, timeout: string)
    requires WF(st) && x in st.objs && x !in dead
    requires forall y :: y in dead ==> IsContext(st.objs, y)
    ensures HasHeartbeat(EraseSet(st.objs, dead), x) <==> HasHeartbeat(st.objs, x)
    ensures HasHeartbeat(st.objs, x) ==> Heartbeat(EraseSet(st.objs, dead), x) == Heartbeat(st.objs, x)
    ensures Expired(EraseSet(st.objs, dead), timeout, x) == Expired(st.objs, timeout, x)
  {
    assert ObjOk(st.objs, st.root, x);
    if HEARTBEAT_ENTRY_NAME in NamesOf(st.objs, x) {
      assert BindingOk(st.objs, NamesOf(st.objs, x)[HEARTBEAT_ENTRY_NAME]);
    }
  }

  /** What is found expired and live midway is what was so at the start, but for what has been removed. */
  lemma MidwayAt(st: State, g: Graph, dead: set<Id>, c: Id, n: string)
    requires WF(st) && g.objs == st.objs && c in st.objs && c !in dead
    requires forall y :: y in dead ==> IsContext(st.objs, y) && Expired(g.objs, g.timeout, y)
    ensures var now := g.(objs := EraseSet(g.objs, dead));
            && (LiveAt(now, c, n) <==> LiveAt(g, c, n))
            && (DyingAt(now, c, n) <==> DyingAt(g, c, n) && TargetOf(g.objs, c, n) !in dead)
            && (RealContextAt(now.objs, c, n) ==>
                  TargetOf(now.objs, c, n) == TargetOf(g.objs, c, n) && TargetOf(g.objs, c, n) !in dead)
  {
    ErasedNames(g.objs, dead, c, n);
    var x := TargetOf(g.objs, c, n);
    if x in st.objs && x !in dead {
      ErasedExpired(st, dead, x, g.timeout);
    }
  }

  /** A scan of the graph as it stands is a scan of the graph as it was, without what has been removed. */
  lemma ScannedAtStart(st: State, g: Graph, removed: seq<Id>, r: Round)
    requires WF(st) && g.objs == st.objs && r.context in st.objs && r.context !in removed
    requires forall y :: y in removed ==> IsContext(st.objs, y) && Expired(g.objs, g.timeout, y)
    requires Scanned(g.(objs := EraseSet(g.objs, SetOf(removed))), [], r)
    ensures var now := g.(objs := EraseSet(g.objs, SetOf(removed)));
            Scanned(g, removed, r) && Added(now, r) == Added(g, r) && Dying(now, r) == Dying(g, r)
  {
    var now := g.(objs := EraseSet(g.objs, SetOf(removed)));
    forall n
      ensures LiveAt(now, r.context, n) <==> LiveAt(g, r.context, n)
      ensures DyingAt(now, r.context, n) <==> DyingAt(g, r.context, n) && TargetOf(g.objs, r.context, n) !in removed
      ensures RealContextAt(now.objs, r.context, n)
          ==> TargetOf(now.objs, r.context, n) == TargetOf(g.objs, r.context, n)
    {
      MidwayAt(st, g, SetOf(removed), r.context, n);
    }
    assert forall i :: 0 <= i < |r.kept| ==> r.kept[i] in r.kept;
    assert forall i :: 0 <= i < |r.gone| ==> r.gone[i] in r.gone;
  }

  lemma MidwayTargets(st: State, dead: set<Id>, c: Id)
    requires WF(st) && c in st.objs && c !in dead
    ensures var now := EraseSet(st.objs, dead); forall n :: n in NamesOf(now, c) ==> NamesOf(now, c)[n].target in now
  {
    var now := EraseSet(st.objs, dead);
    assert ObjOk(st.objs, st.root, c);
    forall n | n in NamesOf(now, c)
      ensures NamesOf(now, c)[n].target in now
    {
      assert BindingOk(st.objs, NamesOf(st.objs, c)[n]);
    }
  }

  /** What a sweep removes and what waits in its queue. */
  lemma QueueStands(st: State, g: Graph, rounds: seq<Round>, front: seq<Id>, c: Id) returns (p: seq<string>)
    requires WF(st) && g == Graph(st.objs, g.timeout, st.root) && IsSweep(g, rounds) && !Doomed(g, g.root)
    requires QueueAfter(g, rounds) == front + [c]
    ensures LiveFollow(g, g.root, p) == Some(c) && c in st.objs && c !in Removed(g, rounds)
    ensures forall y :: y in Removed(g, rounds) ==>
              IsContext(st.objs, y) && Expired(g.objs, g.timeout, y) && y != st.root
  {
    var k := BeforeRound(g, rounds, front, c);
    p :| |p| == k && LiveFollow(g, g.root, p) == Some(c);
    LiveIsThere(g, p);
    LiveIsNotDoomed(g, p);
    forall y | y in Removed(g, rounds)
      ensures Doomed(g, y) && IsContext(st.objs, y) && Expired(g.objs, g.timeout, y)
    {
      RemovedIsDoomed(g, rounds, y);
      var q, n :| DoomedAt(g, q, n, y);
      var d := LiveFollow(g, g.root, q).value;
      assert ObjOk(st.objs, st.root, d) && BindingOk(st.objs, NamesOf(st.objs, d)[n]);
    }
  }

  lemma FitToScan(st: State, g: Graph, removed: seq<Id>, p: seq<string>, c: Id)
    requires WF(st) && g == Graph(st.objs, g.timeout, st.root) && HasData(g) && LiveFollow(g, g.root, p) == Some(c)
    requires c in st.objs && c !in removed
    requires forall y :: y in removed ==> IsContext(st.objs, y) && Expired(g.objs, g.timeout, y)
    ensures var now := EraseSet(st.objs, SetOf(removed));
            && (forall n :: n in NamesOf(now, c) ==> NamesOf(now, c)[n].target in now)
            && (forall n :: RealContextAt(now, c, n) ==> Scannable(now, TargetOf(now, c, n)))
  {
    var now := EraseSet(st.objs, SetOf(removed));
    MidwayTargets(st, SetOf(removed), c);
    forall n | RealContextAt(now, c, n)
      ensures Scannable(now, TargetOf(now, c, n))
    {
      MidwayAt(st, g, SetOf(removed), c, n);
      ErasedNames(st.objs, SetOf(removed), c, n);
      var x := TargetOf(st.objs, c, n);
      ErasedExpired(st, SetOf(removed), x, g.timeout);
      MidwayTargets(st, SetOf(removed), x);
      assert !DatalessAt(g, c, n);
    }
  }

  // ---------- one round ----------

  /** The scan of a round, and the sweep it continues. */
  method ScanNext(cur: Objects, timeout: string, checklist: seq<Id>, c: Id,
                  ghost st: State, ghost g: Graph, ghost rounds: seq<Round>)
    returns (next: seq<Id>, toBeRemoved: seq<Id>, ghost r: Round)
    requires WF(st) && g == Graph(st.objs, timeout, st.root) && HasData(g) && !Doomed(g, g.root)
    requires IsSweep(g, rounds) && QueueAfter(g, rounds) == checklist + [c]
    requires cur == EraseSet(st.objs, SetOf(Removed(g, rounds)))
    ensures Scanned(g, Removed(g, rounds), r) && r.context == c
    ensures next == Added(g, r) + checklist && toBeRemoved == Dying(g, r)
  {
    ghost var p := QueueStands(st, g, rounds, checklist, c);
    FitToScan(st, g, Removed(g, rounds), p, c);
    ghost var now := g.(objs := cur);
    next, toBeRemoved, r := Scan(cur, timeout, c, checklist, now);
    ScannedAtStart(st, g, Removed(g, rounds), r);
  }

  /** One round: the last context of the checklist is taken out, scanned, and its expired children removed. */
  method SweepRound(d: Domain, timeout: string, checklist: seq<Id>, c: Id,
                    ghost st: State, ghost g: Graph, ghost rounds: seq<Round>)
    returns (next: seq<Id>, ghost r: Round)
    requires WF(st) && g == Graph(st.objs, timeout, st.root) && HasData(g) && Sweepable(g)
    requires d.Valid() && d.View() == RemoveAll(st, Removed(g, rounds))
    requires IsSweep(g, rounds) && QueueAfter(g, rounds) == checklist + [c]
    modifies d, d.objects.Values
    ensures d.Valid() && d.objects.Values <= old(d.objects.Values)
    ensures d.View() == RemoveAll(st, Removed(g, rounds + [r]))
    ensures IsSweep(g, rounds + [r]) && QueueAfter(g, rounds + [r]) == next
    ensures Scanned(g, Removed(g, rounds), r) && r.context == c && next == Added(g, r) + checklist
  {
    RemoveAllErases(st, Removed(g, rounds));
    var toBeRemoved;
    next, toBeRemoved, r := ScanNext(d.View().objs, timeout, checklist, c, st, g, rounds);
    NextRound(g, rounds, checklist, r);
    OneMoreRound(g, rounds, r);
    SweepableIsSafe(g, rounds + [r]);
    RemoveContexts(d, toBeRemoved, timeout, st, Removed(g, rounds));
  }

  // ---------- the sweep ----------

  /** What a sweep may be asked to do: end, follow no null pointer, and free nothing too early or twice. */
  ghost predicate Cleanable(g: Graph) {
    NoLiveCycle(g) && HasData(g) && Sweepable(g)
  }

  /**
   What a sweep comes to. Exactly the doomed contexts are deleted, one after the other and without trouble; a path
   leads to a real context exactly if it did before and met no expired context below the root; and what is left
   is without cycles and has its data at any later time.
   */
  ghost predicate Cleaned(st: State, timeout: string, after: State, removed: seq<Id>) {
    var g := Graph(st.objs, timeout, st.root);
    && WF(after) && after == RemoveAll(st, removed) && after.root == st.root
    && SetOf(removed) == AllDoomed(g) && !Trouble(g, removed)
    && after.objs == EraseSet(g.objs, AllDoomed(g))
    && (forall p :: RealFollow(after.objs, g.root, p) == LiveFollow(g, g.root, p))
    && (forall later :: NoLiveCycle(Graph(after.objs, later, g.root)))
    && (forall later :: HasData(Graph(after.objs, later, g.root)))
  }

  /** The sweep, on any graph without live cycles on which none goes wrong. */
  method Cleanup(d: Domain, timeout: string) returns (ghost removed: seq<Id>)
    requires d.Valid() && WF(d.View()) && Cleanable(Graph(d.View().objs, timeout, d.View().root))
    modifies d, d.objects.Values
    ensures d.Valid() && Cleaned(old(d.View()), timeout, d.View(), removed)
  {
    ghost var st := d.View();
    ghost var g := Graph(st.objs, timeout, st.root);
    ghost var rounds: seq<Round> := [];
    ghost var rank := LiveIsRanked(g);
    var checklist := [d.root.value];
    while |checklist| > 0
      invariant d.Valid() && d.objects.Values <= old(d.objects.Values)
      invariant d.View() == RemoveAll(st, Removed(g, rounds))
      // compared with true: taken as one fact, not conjunct by conjunct
      invariant IsSweep(g, rounds) == true && checklist == QueueAfter(g, rounds)
      decreases Weight(Base(g), rank, checklist)
    {
      checklist, rounds := TakeNext(d, timeout, checklist, st, g, rounds, rank);
    }
    removed := Removed(g, rounds);
    SweepIsOver(st, g, rounds);
  }

  lemma CutLast(s: seq<Id>)
    requires s != []
    ensures s == s[..|s| - 1] + [s[|s| - 1]]
  {
  }

  /** The oldest context of the checklist is taken. */
  method TakeNext(d: Domain, timeout: string, checklist: seq<Id>,
                  ghost st: State, ghost g: Graph, ghost rounds: seq<Round>, ghost rank: map<Id, nat>)
    returns (next: seq<Id>, ghost more: seq<Round>)
    requires WF(st) && g == Graph(st.objs, timeout, st.root) && HasData(g) && Sweepable(g)
    requires QueueRanked(g, rank, [g.root])
    requires d.Valid() && d.View() == RemoveAll(st, Removed(g, rounds))
    requires IsSweep(g, rounds) && QueueAfter(g, rounds) == checklist != []
    modifies d, d.objects.Values
    ensures d.Valid() && d.objects.Values <= old(d.objects.Values)
    ensures d.View() == RemoveAll(st, Removed(g, more))
    // compared with true: taken as one fact, not conjunct by conjunct
    ensures IsSweep(g, more) == true && next == QueueAfter(g, more)
    ensures Weight(Base(g), rank, next) < Weight(Base(g), rank, checklist)
  {
    var current := checklist[|checklist| - 1];
    ghost var front := checklist[..|checklist| - 1];
    CutLast(checklist);
    SweepIsRanked(g, rank, rounds);
    ghost var r;
    next, r := SweepRound(d, timeout, checklist[..|checklist| - 1], current, st, g, rounds);
    RoundLightens(g, rank, Removed(g, rounds), front, r);
    more := rounds + [r];
  }

  /** What is left when the queue is empty. */
  lemma SweepIsOver(st: State, g: Graph, rounds: seq<Round>)
    requires WF(st) && g == Graph(st.objs, g.timeout, st.root) && Cleanable(g)
    requires IsSweep(g, rounds) && QueueAfter(g, rounds) == []
    ensures Cleaned(st, g.timeout, RemoveAll(st, Removed(g, rounds)), Removed(g, rounds))
  {
    SweepRemovesDoomed(g, rounds);
    SweepableIsSafe(g, rounds);
    assert g.root !in AllDoomed(g);
    assert g.root !in SetOf(Removed(g, rounds));
    RemoveAllErases(st, Removed(g, rounds));
    RemoveAllKeepsWF(st, Removed(g, rounds));
    var after := RemoveAll(st, Removed(g, rounds));
    forall p
      ensures RealFollow(after.objs, g.root, p) == LiveFollow(g, g.root, p)
    {
      SweptPaths(g, [], p);
    }
    forall later
      ensures NoLiveCycle(Graph(after.objs, later, g.root)) && HasData(Graph(after.objs, later, g.root))
    {
      StillNoCycle(g, after.objs, later);
      StillHasData(st, g, after.objs, later);
    }
  }

  lemma StillNoCycle(g: Graph, after: Objects, later: string)
    requires NoLiveCycle(g)
    requires forall p :: RealFollow(after, g.root, p) == LiveFollow(g, g.root, p)
    ensures NoLiveCycle(Graph(after, later, g.root))
  {
    CycleCircles(g);
    CycleCircles(Graph(after, later, g.root));
    CircleWasThere(g, after, later);
  }

  lemma CircleWasThere(g: Graph, after: Objects, later: string)
    requires forall p :: RealFollow(after, g.root, p) == LiveFollow(g, g.root, p)
    ensures Circles(Graph(after, later, g.root), g.root) ==> Circles(g, g.root)
  {
    var h := Graph(after, later, g.root);
    if Circles(h, g.root) {
      var p, q :| CirclesAlong(h, g.root, p, q);
      LiveOn(h, g.root, p, q);
      LiveIsReal(Graph(after, later, g.root), g.root, p);
      LiveIsReal(Graph(after, later, g.root), g.root, p + q);
      LiveOn(g, g.root, p, q);
      assert CirclesAlong(g, g.root, p, q);
    }
  }

  lemma StillHasData(st: State, g: Graph, after: Objects, later: string)
    requires WF(st) && g == Graph(st.objs, g.timeout, st.root) && HasData(g) && !Doomed(g, g.root)
    requires after == EraseSet(g.objs, AllDoomed(g))
    requires forall p :: RealFollow(after, g.root, p) == LiveFollow(g, g.root, p)
    ensures HasData(Graph(after, later, g.root))
  {
    var h := Graph(after, later, g.root);
    forall p, n | LiveFollow(h, g.root, p).Some?
      ensures !DatalessAt(h, LiveFollow(h, g.root, p).value, n)
    {
      LiveIsReal(Graph(after, later, g.root), g.root, p);
      LiveIsThere(g, p);
      LiveIsNotDoomed(g, p);
      DataStays(st, g, LiveFollow(g, g.root, p).value, n);
      assert !DatalessAt(g, LiveFollow(g, g.root, p).value, n);
    }
  }

  lemma DataStays(st: State, g: Graph, c: Id, n: string)
    requires WF(st) && g == Graph(st.objs, g.timeout, st.root) && c in st.objs && !Doomed(g, c)
    ensures var h := Graph(EraseSet(g.objs, AllDoomed(g)), g.timeout, g.root);
            DatalessAt(h, c, n) ==> DatalessAt(g, c, n)
  {
    ErasedNames(g.objs, AllDoomed(g), c, n);
    forall y | y in AllDoomed(g)
      ensures IsContext(st.objs, y)
    {
      var q, m :| DoomedAt(g, q, m, y);
      var d := LiveFollow(g, g.root, q).value;
      assert ObjOk(st.objs, st.root, d) && BindingOk(st.objs, NamesOf(st.objs, d)[m]);
    }
    var x := TargetOf(g.objs, c, n);
    if x in st.objs && x !in AllDoomed(g) {
      ErasedExpired(st, AllDoomed(g), x, g.timeout);
    }
  }
}
