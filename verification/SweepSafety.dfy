/**
 When a sweep is safe. A removal reads the full name of the context for its deletion event, going through all its
 ancestors, and then the destructor calls every context on its referrer list. A context keeps its ancestors, and the
 one it was created in on its list, when it or one of them is bound elsewhere; the sweep may have freed those by
 then. A context bound twice in another is listed for removal twice. Over all orders in which the name maps may
 iterate, the conditions here are exact: they say of a graph whether some sweep goes wrong.
 */
module SweepSafety {
  import opened Wrappers
  import opened NameGraph
  import opened Iteration
  import opened TreeTraverse
  import opened Expiry
  import opened Sweep
  import opened SweepEnds

  // ---------- removals ----------

  /** The ancestors of an object, as far as one is alive to tell its own parent. */
  function Above(objs: Objects, x: Id): seq<Id>
    decreases x
  {
    if x !in objs || objs[x].parent.None? then []
    else
      var p := objs[x].parent.value;
      [p] + if p < x then Above(objs, p) else []
  }

  /** What the removal of a context follows pointers to: referrers and ancestors. */
  function Followed(objs: Objects, x: Id): seq<Id>
    requires x in objs
  {
    objs[x].referrers + Above(objs, x)
  }

  /** A removal of the root, of what is already freed, or of what has a referrer or an ancestor that is not there. */
  ghost predicate TroubleAt(g: Graph, removed: seq<Id>, j: nat)
    requires j < |removed|
  {
    var x := removed[j];
    || x == g.root || x in removed[..j] || x !in g.objs
    || exists r :: r in Followed(g.objs, x) && (r !in g.objs || r in removed[..j + 1])
  }

  ghost predicate Trouble(g: Graph, removed: seq<Id>) {
    exists j :: 0 <= j < |removed| && TroubleAt(g, removed, j)
  }

  /** `x` is doomed on a level above `m`, so a sweep has removed it before it comes to that level. */
  ghost predicate MetAbove(g: Graph, x: Id, m: nat) {
    exists k: nat :: k < m && DoomedBelow(g, x, k)
  }

  /** Where an expired context is bound twice, it has been removed before. */
  ghost predicate BoundOnce(g: Graph) {
    forall p, n, m, x {:trigger DoomedAt(g, p, n, x), DoomedAt(g, p, m, x)} ::
      DoomedAt(g, p, n, x) && DoomedAt(g, p, m, x) && n != m ==> MetAbove(g, x, |p|)
  }

  /** Every referrer and ancestor of a doomed context is alive, and if it is doomed too, the context is higher up. */
  ghost predicate FollowedStay(g: Graph) {
    forall x, r :: Doomed(g, x) && x in g.objs && r in Followed(g.objs, x) ==> Stays(g, x, r)
  }

  ghost predicate Stays(g: Graph, x: Id, r: Id) {
    r in g.objs && forall m :: DoomedBelow(g, r, m) ==> MetAbove(g, x, m)
  }

  ghost predicate Sweepable(g: Graph) {
    !Doomed(g, g.root) && BoundOnce(g) && FollowedStay(g)
  }

  // ---------- sufficiency ----------

  lemma MetAboveIsRemoved(g: Graph, done: set<Id>, queue: seq<Id>, removed: seq<Id>, x: Id, k: nat)
    requires Covers(g, done, queue, removed) && AboveDone(g, done, k) && MetAbove(g, x, k)
    ensures x in removed
  {
    var m: nat :| m < k && DoomedBelow(g, x, m);
    var p, n :| |p| == m && DoomedAt(g, p, n, x);
    assert LevelMet(g, done, m, []);
    assert GoneThrough(g, done, queue, removed, LiveFollow(g, g.root, p).value);
  }

  /** Where a sweep stands when it takes the next context. */
  lemma BeforeRound(g: Graph, rounds: seq<Round>, front: seq<Id>, c: Id) returns (k: nat)
    requires IsSweep(g, rounds) && QueueAfter(g, rounds) == front + [c]
    ensures Lies(g, c, k) && AboveDone(g, Done(rounds), k) && NotBelow(g, Done(rounds), Removed(g, rounds), k)
  {
    var next, level;
    k, next, level := SweepOnLevel(g, rounds);
    if level == [] {
      LevelShifts(g, rounds, k, next);
      k, next, level := k + 1, [], next;
    }
    var rest := LastOfLevel(next, level, front, c);
    SplitLevel(g, rest, c, k);
  }

  lemma DyingIs(g: Graph, removed: seq<Id>, r: Round, p: seq<string>, i: nat)
    requires Scanned(g, removed, r) && LiveFollow(g, g.root, p) == Some(r.context) && i < |r.gone|
    ensures var x := Dying(g, r)[i]; DoomedAt(g, p, r.gone[i], x) && x !in removed && x in g.objs
  {
    assert r.gone[i] in r.gone;
  }

  /** What one round removes. */
  lemma RoundIsSafe(g: Graph, done: set<Id>, queue: seq<Id>, removed: seq<Id>, r: Round, k: nat, i: nat)
    requires Sweepable(g) && Covers(g, done, queue, removed) && Scanned(g, removed, r)
    requires Lies(g, r.context, k) && AboveDone(g, done, k) && NotBelow(g, done, removed, k) && i < |r.gone|
    ensures !TroubleAt(g, removed + Dying(g, r), |removed| + i)
  {
    var x := Dying(g, r)[i];
    var all := removed + Dying(g, r);
    var p :| |p| == k && LiveFollow(g, g.root, p) == Some(r.context);
    DyingIs(g, removed, r, p, i);
    FirstRemoved(removed, Dying(g, r), i);
    if MetAbove(g, x, k) {
      MetAboveIsRemoved(g, done, queue, removed, x, k);
    }
    forall j | 0 <= j < i
      ensures Dying(g, r)[j] != x
    {
      DyingIs(g, removed, r, p, j);
    }
    forall y | y in Followed(g.objs, x)
      ensures y in g.objs && y !in removed && y !in Dying(g, r)[..i + 1]
    {
      FollowedIsThere(g, done, removed, r, k, x, y);
    }
  }

  lemma FirstRemoved(removed: seq<Id>, more: seq<Id>, i: nat)
    requires i < |more|
    ensures (removed + more)[|removed| + i] == more[i]
    ensures (removed + more)[..|removed| + i] == removed + more[..i]
    ensures (removed + more)[..|removed| + i + 1] == removed + more[..i + 1]
  {
  }

  lemma FollowedIsThere(g: Graph, done: set<Id>, removed: seq<Id>, r: Round, k: nat, x: Id, y: Id)
    requires Sweepable(g) && Scanned(g, removed, r) && Lies(g, r.context, k) && NotBelow(g, done, removed, k)
    requires Doomed(g, x) && !MetAbove(g, x, k) && x in g.objs && y in Followed(g.objs, x)
    ensures y in g.objs && y !in removed && y !in Dying(g, r)
  {
    assert Stays(g, x, y);
    MetHigher(g, x, k);
    assert !DoomedBy(g, y, k) && !DoomedBelow(g, y, k);
    RoundLies(g, removed, r, k);
    assert forall i :: 0 <= i < |Dying(g, r)| ==> Dying(g, r)[i] != y;
  }

  lemma MetHigher(g: Graph, x: Id, k: nat)
    ensures forall m: nat :: m <= k && MetAbove(g, x, m) ==> MetAbove(g, x, k)
  {
    forall m: nat | m <= k && MetAbove(g, x, m)
      ensures MetAbove(g, x, k)
    {
      var l: nat :| l < m && DoomedBelow(g, x, l);
    }
  }

  lemma EarlierTrouble(g: Graph, a: seq<Id>, b: seq<Id>, j: nat)
    requires j < |a|
    ensures TroubleAt(g, a + b, j) <==> TroubleAt(g, a, j)
  {
    assert (a + b)[..j] == a[..j] && (a + b)[..j + 1] == a[..j + 1];
  }

  /** Sufficient: no sweep of such a graph goes wrong, also where it never ends. */
  lemma {:induction false} SweepableIsSafe(g: Graph, rounds: seq<Round>)
    requires Sweepable(g) && IsSweep(g, rounds)
    ensures !Trouble(g, Removed(g, rounds))
    decreases |rounds|
  {
    if rounds != [] {
      var before, r, front := LastRound(g, rounds);
      SweepableIsSafe(g, before);
      var k := BeforeRound(g, before, front, r.context);
      SweepCovers(g, before);
      forall j | 0 <= j < |Removed(g, rounds)|
        ensures !TroubleAt(g, Removed(g, rounds), j)
      {
        if j < |Removed(g, before)| {
          EarlierTrouble(g, Removed(g, before), Dying(g, r), j);
        } else {
          RoundIsSafe(g, Done(before), QueueAfter(g, before), Removed(g, before), r, k, j - |Removed(g, before)|);
        }
      }
    }
  }

  // ---------- necessity ----------

  /** Before a sweep comes to a level, nothing has been removed that is not doomed above it. */
  lemma NotRemovedYet(g: Graph, rounds: seq<Round>, k: nat, x: Id)
    requires if k == 0 then rounds == [] else NotBelow(g, Done(rounds), Removed(g, rounds), k - 1)
    requires !MetAbove(g, x, k)
    ensures x !in Removed(g, rounds)
  {
    if k > 0 {
      assert !DoomedBy(g, x, k - 1);
    }
  }

  lemma NothingBefore(s: seq<Id>)
    ensures [] + s == s
  {
  }

  /** Some sweep comes to what a live path leads to as the first of its level, and lists any expired name first. */
  lemma RoundAt(g: Graph, p: seq<string>, first: Option<string>) returns (before: seq<Round>, r: Round)
    requires LiveFollow(g, g.root, p).Some?
    requires first.Some? ==> DyingAt(g, LiveFollow(g, g.root, p).value, first.value)
    ensures IsSweep(g, before) && IsSweep(g, before + [r]) && Scanned(g, Removed(g, before), r)
    ensures r.context == LiveFollow(g, g.root, p).value
    ensures Removed(g, before + [r]) == Removed(g, before) + Dying(g, r)
    ensures if |p| == 0 then before == [] else NotBelow(g, Done(before), Removed(g, before), |p| - 1)
    ensures first.Some? && TargetOf(g.objs, r.context, first.value) !in Removed(g, before) ==>
              r.gone != [] && r.gone[0] == first.value
  {
    var rest;
    before, rest := FirstOfItsLevel(g, p);
    var c := LiveFollow(g, g.root, p).value;
    r := SomeScan(g, Removed(g, before), c, None,
                  if first.Some? && TargetOf(g.objs, c, first.value) !in Removed(g, before) then first else None);
    NothingBefore(rest + [c]);
    NextRound(g, before, rest, r);
    OneMoreRound(g, before, r);
  }

  /** Some sweep gets as far as the removal of a doomed context. */
  lemma SweepTo(g: Graph, p: seq<string>, n: string, x: Id) returns (rounds: seq<Round>)
    requires DoomedAt(g, p, n, x)
    ensures IsSweep(g, rounds) && x in Removed(g, rounds)
  {
    var before, r := RoundAt(g, p, None);
    rounds := before + [r];
    if x !in Removed(g, before) {
      InTargets(g.objs, r.context, r.gone, n);
    }
  }

  /** What is bound twice and has not been removed before is removed twice. */
  lemma RemovedTwice(g: Graph, p: seq<string>, n: string, m: string, x: Id) returns (rounds: seq<Round>)
    requires DoomedAt(g, p, n, x) && DoomedAt(g, p, m, x) && n != m && !MetAbove(g, x, |p|)
    ensures IsSweep(g, rounds) && Trouble(g, Removed(g, rounds))
  {
    var before, r := RoundAt(g, p, None);
    NotRemovedYet(g, before, |p|, x);
    rounds := before + [r];
    TwiceIsTrouble(g, Removed(g, before), r, n, m);
  }

  lemma TwiceIsTrouble(g: Graph, removed: seq<Id>, r: Round, n: string, m: string)
    requires n in r.gone && m in r.gone && n != m && TargetOf(g.objs, r.context, n) == TargetOf(g.objs, r.context, m)
    ensures Trouble(g, removed + Dying(g, r))
  {
    var i :| 0 <= i < |r.gone| && r.gone[i] == n;
    var j :| 0 <= j < |r.gone| && r.gone[j] == m;
    var a, b := if i < j then i else j, if i < j then j else i;
    var all := removed + Dying(g, r);
    assert all[|removed| + a] == all[|removed| + b];
    assert all[..|removed| + b][|removed| + a] == all[|removed| + b];
    assert TroubleAt(g, all, |removed| + b);
  }

  /** A sweep that removes what a removal follows before the context, and then goes on to its end. */
  lemma FollowedFirst(g: Graph, q: seq<string>, l: string, r: Id, x: Id) returns (rounds: seq<Round>)
    requires g.root in g.objs && NoLiveCycle(g) && Doomed(g, x) && x in g.objs && r in Followed(g.objs, x)
    requires DoomedAt(g, q, l, r) && !MetAbove(g, x, |q|)
    ensures IsSweep(g, rounds) && Trouble(g, Removed(g, rounds))
  {
    var before, round := RoundAt(g, q, Some(l));
    NotRemovedYet(g, before, |q|, x);
    rounds := ToTheEnd(g, before + [round]);
    SweepRemovesDoomed(g, rounds);
    assert x in SetOf(Removed(g, rounds));
    assert r !in Removed(g, before) ==> Dying(g, round)[0] == r;
    LaterTrouble(g, Removed(g, before), Dying(g, round), Removed(g, rounds), x, r);
  }

  lemma ToTheEnd(g: Graph, rounds: seq<Round>) returns (all: seq<Round>)
    requires g.root in g.objs && NoLiveCycle(g) && IsSweep(g, rounds)
    ensures IsSweep(g, all) && QueueAfter(g, all) == [] && Removed(g, rounds) <= Removed(g, all)
  {
    var rank := LiveIsRanked(g);
    all := SweepGoesOn(g, rank, rounds);
  }

  lemma LaterTrouble(g: Graph, before: seq<Id>, now: seq<Id>, all: seq<Id>, x: Id, r: Id)
    requires x in g.objs && r in Followed(g.objs, x) && x in all && x !in before
    requires before + now <= all && (r in before || (now != [] && now[0] == r))
    ensures Trouble(g, all)
  {
    var j :| 0 <= j < |all| && all[j] == x;
    var both := before + now;
    assert forall i :: 0 <= i < |before| ==> all[i] == both[i] && both[i] == before[i] && before[i] in before;
    var i :| 0 <= i <= |before| && i < |both| && both[i] == r;
    assert all[..j + 1][i] == r;
    assert TroubleAt(g, all, j);
  }

  lemma UnsafeSweep(g: Graph) returns (rounds: seq<Round>)
    requires g.root in g.objs && NoLiveCycle(g) && !Sweepable(g)
    ensures IsSweep(g, rounds) && Trouble(g, Removed(g, rounds))
  {
    if Doomed(g, g.root) {
      var p, n :| DoomedAt(g, p, n, g.root);
      rounds := SweepTo(g, p, n, g.root);
      var j :| 0 <= j < |Removed(g, rounds)| && Removed(g, rounds)[j] == g.root;
      assert TroubleAt(g, Removed(g, rounds), j);
    } else if !BoundOnce(g) {
      var p, n, m, x :| DoomedAt(g, p, n, x) && DoomedAt(g, p, m, x) && n != m && !MetAbove(g, x, |p|);
      rounds := RemovedTwice(g, p, n, m, x);
    } else {
      var x, r :| Doomed(g, x) && x in g.objs && r in Followed(g.objs, x) && !Stays(g, x, r);
      if r !in g.objs {
        var p, n :| DoomedAt(g, p, n, x);
        rounds := SweepTo(g, p, n, x);
        var j :| 0 <= j < |Removed(g, rounds)| && Removed(g, rounds)[j] == x;
        assert TroubleAt(g, Removed(g, rounds), j);
      } else {
        var m :| DoomedBelow(g, r, m) && !MetAbove(g, x, m);
        var q, l :| |q| == m && DoomedAt(g, q, l, r);
        rounds := FollowedFirst(g, q, l, r, x);
      }
    }
  }

  ghost predicate SafeSweep(g: Graph, rounds: seq<Round>) {
    IsSweep(g, rounds) ==> !Trouble(g, Removed(g, rounds))
  }

  /**
   Exactly: where no live path runs in a circle no sweep goes wrong, in any order of its maps, if and only if
   the graph is sweepable.
   */
  lemma SafeIffSweepable(g: Graph)
    requires g.root in g.objs && NoLiveCycle(g)
    ensures Sweepable(g) <==> forall rounds :: SafeSweep(g, rounds)
  {
    if Sweepable(g) {
      forall rounds
        ensures SafeSweep(g, rounds)
      {
        if IsSweep(g, rounds) {
          SweepableIsSafe(g, rounds);
        }
      }
    } else {
      var rounds := UnsafeSweep(g);
      assert !SafeSweep(g, rounds);
    }
  }

  // ---------- heartbeats without data ----------

  /** A heartbeat entity to which no character data has ever been given. */
  predicate Dataless(objs: Objects, x: Id) {
    HasHeartbeat(objs, x) && Heartbeat(objs, x).None?
  }

  /** Some round looks at a context with such a heartbeat, and follows a null pointer. */
  ghost predicate FollowsNull(g: Graph, rounds: seq<Round>) {
    exists i, n :: 0 <= i < |rounds| && DatalessAt(g, rounds[i].context, n)
  }

  ghost predicate DatalessAt(g: Graph, c: Id, n: string) {
    RealContextAt(g.objs, c, n) && Dataless(g.objs, TargetOf(g.objs, c, n))
  }

  /** No context bound on a live path has such a heartbeat. */
  ghost predicate HasData(g: Graph) {
    forall p, n :: LiveFollow(g, g.root, p).Some? ==> !DatalessAt(g, LiveFollow(g, g.root, p).value, n)
  }

  ghost predicate FollowsNone(g: Graph, rounds: seq<Round>) {
    IsSweep(g, rounds) ==> !FollowsNull(g, rounds)
  }

  /** Exactly: on any graph some sweep follows a null pointer unless all contexts bound on live paths have data. */
  lemma NoNullIffHasData(g: Graph)
    ensures HasData(g) <==> forall rounds :: FollowsNone(g, rounds)
  {
    if HasData(g) {
      forall rounds
        ensures FollowsNone(g, rounds)
      {
        if IsSweep(g, rounds) {
          DataIsFound(g, rounds);
        }
      }
    } else {
      var p, n :| LiveFollow(g, g.root, p).Some? && DatalessAt(g, LiveFollow(g, g.root, p).value, n);
      var rounds := NullFollowed(g, p, n);
      assert !FollowsNone(g, rounds);
    }
  }

  lemma DataIsFound(g: Graph, rounds: seq<Round>)
    requires HasData(g) && IsSweep(g, rounds)
    ensures !FollowsNull(g, rounds)
  {
    var k, next, level := SweepOnLevel(g, rounds);
    forall i, n | 0 <= i < |rounds|
      ensures !DatalessAt(g, rounds[i].context, n)
    {
      assert rounds[i].context in Done(rounds);
      assert LiesBy(g, rounds[i].context, k);
      var m: nat :| m <= k && Lies(g, rounds[i].context, m);
      var p :| |p| == m && LiveFollow(g, g.root, p) == Some(rounds[i].context);
    }
  }

  lemma NullFollowed(g: Graph, p: seq<string>, n: string) returns (rounds: seq<Round>)
    requires LiveFollow(g, g.root, p).Some? && DatalessAt(g, LiveFollow(g, g.root, p).value, n)
    ensures IsSweep(g, rounds) && FollowsNull(g, rounds)
  {
    var before, r := RoundAt(g, p, None);
    rounds := before + [r];
    assert rounds[|before|] == r;
  }

  // ---------- at any time ----------

  /**
   Of every context with a heartbeat: it is not the root, whoever binds it does so under one name, and its
   referrers and ancestors are alive and without heartbeat, but for that holder.
   */
  ghost predicate Quiet(objs: Objects, root: Id) {
    forall c, n {:trigger RealContextAt(objs, c, n)} ::
      RealContextAt(objs, c, n) && HasHeartbeat(objs, TargetOf(objs, c, n)) ==> QuietAt(objs, root, c, n)
  }

  ghost predicate QuietAt(objs: Objects, root: Id, c: Id, n: string)
    requires RealContextAt(objs, c, n)
  {
    var x := TargetOf(objs, c, n);
    && x != root
    && (forall m {:trigger RealContextAt(objs, c, m)} ::
          RealContextAt(objs, c, m) && TargetOf(objs, c, m) == x ==> m == n)
    && (forall r :: r in Followed(objs, x) ==> r in objs && (r == c || !HasHeartbeat(objs, r)))
  }

  /** A quiet graph can be swept at any time. */
  lemma QuietIsSweepable(objs: Objects, root: Id, timeout: string)
    requires Quiet(objs, root)
    ensures Sweepable(Graph(objs, timeout, root))
  {
    var g := Graph(objs, timeout, root);
    forall p, n, x | DoomedAt(g, p, n, x)
      ensures QuietAt(objs, root, LiveFollow(g, root, p).value, n) && x != root
    {
    }
    forall x, r | Doomed(g, x) && x in objs && r in Followed(objs, x)
      ensures Stays(g, x, r)
    {
      var p, n :| DoomedAt(g, p, n, x);
      assert QuietAt(objs, root, LiveFollow(g, root, p).value, n);
      LiveIsNotDoomed(g, p);
      forall m
        ensures !DoomedBelow(g, r, m)
      {
        assert DoomedBelow(g, r, m) ==> Doomed(g, r) && HasHeartbeat(objs, r);
      }
    }
  }

  // ---------- where nothing is linked ----------

  /** A context bound where it was created, under its own name, and by nobody else. */
  ghost predicate HomeAt(objs: Objects, c: Id, n: string)
    requires RealContextAt(objs, c, n)
  {
    var x := objs[TargetOf(objs, c, n)];
    x.parent == Some(c) && c < TargetOf(objs, c, n) && x.name == n && forall r :: r in x.referrers ==> r == c
  }

  /** All contexts that a real path leads to are. */
  ghost predicate AtHome(objs: Objects, root: Id) {
    && root in objs && objs[root].parent.None?
    && forall p, n :: RealFollow(objs, root, p).Some? && RealContextAt(objs, RealFollow(objs, root, p).value, n) ==>
         HomeAt(objs, RealFollow(objs, root, p).value, n)
  }

  lemma LastStepHome(g: Graph, p: seq<string>) returns (d: Id, n: string)
    requires AtHome(g.objs, g.root) && p != [] && LiveFollow(g, g.root, p).Some?
    ensures LiveFollow(g, g.root, p[..|p| - 1]) == Some(d) && RealContextAt(g.objs, d, n) && HomeAt(g.objs, d, n)
    ensures LiveFollow(g, g.root, p) == Some(TargetOf(g.objs, d, n))
  {
    d, n := LastLiveStep(g, g.root, p);
    LiveIsReal(g, g.root, p[..|p| - 1]);
  }

  /** The ancestors of what a live path leads to lie on it. */
  lemma {:induction false} AncestorsAreLive(g: Graph, p: seq<string>, r: Id)
    requires AtHome(g.objs, g.root) && LiveFollow(g, g.root, p).Some?
    requires r == LiveFollow(g, g.root, p).value || r in Above(g.objs, LiveFollow(g, g.root, p).value)
    ensures exists q :: LiveFollow(g, g.root, q) == Some(r)
    decreases |p|
  {
    if p != [] && r != LiveFollow(g, g.root, p).value {
      var d, n := LastStepHome(g, p);
      AncestorsAreLive(g, p[..|p| - 1], r);
    }
  }

  /** What is doomed is bound in its parent, all whose ancestors are live, and nobody else refers to it. */
  lemma FollowedIsLive(g: Graph, p: seq<string>, n: string, x: Id, r: Id)
    requires AtHome(g.objs, g.root) && DoomedAt(g, p, n, x) && x in g.objs && r in Followed(g.objs, x)
    ensures exists q :: LiveFollow(g, g.root, q) == Some(r)
  {
    LiveIsReal(g, g.root, p);
    assert HomeAt(g.objs, LiveFollow(g, g.root, p).value, n);
    AncestorsAreLive(g, p, r);
  }

  /** Such a graph can be swept at any time, however deep contexts with heartbeats lie in one another. */
  lemma HomeIsSweepable(g: Graph)
    requires AtHome(g.objs, g.root)
    ensures Sweepable(g) && NoLiveCycle(g)
  {
    forall p, n, x | DoomedAt(g, p, n, x)
      ensures x != g.root && x in g.objs && g.objs[x].name == n
    {
      LiveIsReal(g, g.root, p);
      assert HomeAt(g.objs, LiveFollow(g, g.root, p).value, n);
    }
    forall x, r | Doomed(g, x) && x in g.objs && r in Followed(g.objs, x)
      ensures Stays(g, x, r)
    {
      var p, n :| DoomedAt(g, p, n, x);
      FollowedIsLive(g, p, n, x, r);
      var q :| LiveFollow(g, g.root, q) == Some(r);
      LiveIsThere(g, q);
      LiveIsNotDoomed(g, q);
      assert forall m :: DoomedBelow(g, r, m) ==> Doomed(g, r);
    }
    HomeHasNoCycle(g);
  }

  lemma HomeHasNoCycle(g: Graph)
    requires AtHome(g.objs, g.root)
    ensures NoLiveCycle(g)
  {
    CycleCircles(g);
    forall p, q | CirclesAlong(g, g.root, p, q)
      ensures false
    {
      LiveOn(g, g.root, p, q);
      Ascends(g, p, q);
    }
  }

  /** Along a live path every context is younger than the one before. */
  lemma {:induction false} Ascends(g: Graph, p: seq<string>, q: seq<string>)
    requires AtHome(g.objs, g.root) && LiveFollow(g, g.root, p).Some? && LiveFollow(g, g.root, p + q).Some?
    ensures LiveFollow(g, g.root, p).value + |q| <= LiveFollow(g, g.root, p + q).value
    decreases |q|
  {
    if q == [] {
      assert p + q == p;
    } else {
      var d, n := LastStepHome(g, p + q);
      assert (p + q)[..|p + q| - 1] == p + q[..|q| - 1];
      Ascends(g, p, q[..|q| - 1]);
    }
  }
}
