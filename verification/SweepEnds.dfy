/**
 When a sweep comes to an end: exactly on a graph whose live paths have no cycle, and then it has removed every
 doomed context and nothing else, whatever the order of its rounds.
 */
module SweepEnds {
  import opened Wrappers
  import opened NameGraph
  import opened Iteration
  import opened TreeTraverse
  import opened Expiry
  import opened Sweep

  // ---------- cycles ----------

  /** The objects without their bindings of expired contexts. */
  function Unexpired(g: Graph): Objects {
    map y | y in g.objs :: g.objs[y].(names := UnexpiredNames(g, g.objs[y].names))
  }

  function UnexpiredNames(g: Graph, names: map<string, Binding>): map<string, Binding> {
    map n | n in names && !Expired(g.objs, g.timeout, names[n].target) :: names[n]
  }

  /** No context on a live path can be reached from itself along another. */
  ghost predicate NoLiveCycle(g: Graph) {
    NoCycle(Unexpired(g), g.root)
  }

  lemma UnexpiredAt(g: Graph, c: Id, n: string)
    ensures RealContextAt(Unexpired(g), c, n) <==> LiveAt(g, c, n)
    ensures LiveAt(g, c, n) ==> NamesOf(Unexpired(g), c)[n].target == TargetOf(g.objs, c, n)
  {
  }

  lemma {:induction false} UnexpiredPaths(g: Graph, c: Id, p: seq<string>)
    ensures RealFollow(Unexpired(g), c, p) == LiveFollow(g, c, p)
    decreases |p|
  {
    if p != [] {
      UnexpiredAt(g, c, p[0]);
      UnexpiredPaths(g, TargetOf(g.objs, c, p[0]), p[1..]);
    }
  }

  // ---------- every round makes the queue lighter ----------

  function Power(b: nat, k: nat): (p: nat)
    ensures b > 0 ==> p > 0
  {
    if k == 0 then 1 else b * Power(b, k - 1)
  }

  lemma {:induction false} PowerGrows(b: nat, j: nat, k: nat)
    requires b > 0 && j <= k
    ensures Power(b, j) <= Power(b, k)
    decreases k
  {
    if j < k {
      PowerGrows(b, j, k - 1);
      assert b * Power(b, k - 1) >= Power(b, k - 1);
    }
  }

  /** One more than there are names in the graph. */
  function Names(objs: Objects): set<string> {
    set c, n | c in objs && n in objs[c].names :: n
  }

  function Base(g: Graph): nat {
    1 + |Names(g.objs)|
  }

  /** The weight of a queue: a context weighs more than all that it can bind. */
  function Weight(b: nat, rank: map<Id, nat>, queue: seq<Id>): nat {
    if queue == [] then 0 else Power(b, RankOf(rank, queue[0])) + Weight(b, rank, queue[1..])
  }

  lemma {:induction false} WeightOfConcat(b: nat, rank: map<Id, nat>, s: seq<Id>, t: seq<Id>)
    ensures Weight(b, rank, s + t) == Weight(b, rank, s) + Weight(b, rank, t)
    decreases |s|
  {
    if s == [] {
      assert s + t == t;
    } else {
      assert (s + t)[1..] == s[1..] + t;
      WeightOfConcat(b, rank, s[1..], t);
    }
  }

  lemma {:induction false} WeightBound(b: nat, rank: map<Id, nat>, s: seq<Id>, k: nat)
    requires b > 0 && forall i :: 0 <= i < |s| ==> RankOf(rank, s[i]) <= k
    ensures Weight(b, rank, s) <= |s| * Power(b, k)
    decreases |s|
  {
    if s != [] {
      PowerGrows(b, RankOf(rank, s[0]), k);
      WeightBound(b, rank, s[1..], k);
      assert |s| * Power(b, k) == Power(b, k) + (|s| - 1) * Power(b, k);
    }
  }

  /** There is no more to be queued from one context than there are names. */
  lemma FewKept(g: Graph, removed: seq<Id>, r: Round)
    requires Scanned(g, removed, r)
    ensures |r.kept| < Base(g)
  {
    DistinctSize(r.kept);
    forall n | n in r.kept
      ensures n in Names(g.objs)
    {
      assert LiveAt(g, r.context, n);
    }
    SubsetSize((set n | n in r.kept), Names(g.objs));
  }

  lemma ManyWeighLess(m: nat, b: nat, p: nat)
    requires m < b && p > 0
    ensures m * p < b * p
  {
    assert b * p == m * p + (b - m) * p;
  }

  /** What a round adds to the queue weighs less than what it takes. */
  lemma AddedWeighsLess(g: Graph, rank: map<Id, nat>, removed: seq<Id>, r: Round)
    requires Ranked(Unexpired(g), rank) && r.context in rank && Scanned(g, removed, r)
    ensures Weight(Base(g), rank, Added(g, r)) < Power(Base(g), rank[r.context])
    ensures forall x :: x in Added(g, r) ==> x in rank
  {
    var b, k := Base(g), rank[r.context];
    FewKept(g, removed, r);
    forall i | 0 <= i < |r.kept|
      ensures Added(g, r)[i] in rank && rank[Added(g, r)[i]] < k
    {
      assert r.kept[i] in r.kept;
      UnexpiredAt(g, r.context, r.kept[i]);
    }
    if r.kept != [] {
      assert rank[Added(g, r)[0]] < k;
      WeightBound(b, rank, Added(g, r), k - 1);
      ManyWeighLess(|r.kept|, b, Power(b, k - 1));
    }
  }

  ghost predicate QueueRanked(g: Graph, rank: map<Id, nat>, queue: seq<Id>) {
    Ranked(Unexpired(g), rank) && forall x :: x in queue ==> x in rank
  }

  lemma RoundLightens(g: Graph, rank: map<Id, nat>, removed: seq<Id>, front: seq<Id>, r: Round)
    requires QueueRanked(g, rank, front + [r.context]) && Scanned(g, removed, r)
    ensures QueueRanked(g, rank, Added(g, r) + front)
    ensures Weight(Base(g), rank, Added(g, r) + front) < Weight(Base(g), rank, front + [r.context])
  {
    assert r.context in front + [r.context];
    AddedWeighsLess(g, rank, removed, r);
    WeightOfConcat(Base(g), rank, Added(g, r), front);
    WeightOfConcat(Base(g), rank, front, [r.context]);
    assert Weight(Base(g), rank, [r.context]) == Power(Base(g), rank[r.context]);
    assert forall x :: x in front ==> x in front + [r.context];
  }

  /** Without live cycles the contexts on live paths can be ranked. */
  lemma LiveIsRanked(g: Graph) returns (rank: map<Id, nat>)
    requires g.root in g.objs && NoLiveCycle(g)
    ensures QueueRanked(g, rank, [g.root])
  {
    rank := ReachRank(Unexpired(g), g.root);
    NoCycleIsRanked(Unexpired(g), g.root);
  }

  lemma {:induction false} SweepIsRanked(g: Graph, rank: map<Id, nat>, rounds: seq<Round>)
    requires QueueRanked(g, rank, [g.root]) && IsSweep(g, rounds)
    ensures QueueRanked(g, rank, QueueAfter(g, rounds))
    decreases |rounds|
  {
    if rounds != [] {
      var before, r, front := LastRound(g, rounds);
      SweepIsRanked(g, rank, before);
      RoundLightens(g, rank, Removed(g, before), front, r);
    }
  }

  // ---------- some round is always possible ----------

  lemma {:induction false} SomeOrder(names: set<string>, first: Option<string>) returns (s: seq<string>)
    requires first.Some? ==> first.value in names
    ensures NoRepeats(s) && forall n :: n in s <==> n in names
    ensures first.Some? ==> s != [] && s[0] == first.value
    decreases |names|
  {
    if names == {} {
      s := [];
    } else {
      var n := if first.Some? then first.value else var m :| m in names; m;
      var rest := SomeOrder(names - {n}, None);
      s := [n] + rest;
    }
  }

  lemma {:induction false} SomeOrderTo(names: set<string>, last: Option<string>) returns (s: seq<string>)
    requires last.Some? ==> last.value in names
    ensures NoRepeats(s) && forall n :: n in s <==> n in names
    ensures last.Some? ==> s != [] && s[|s| - 1] == last.value
  {
    if last.Some? {
      var rest := SomeOrder(names - {last.value}, None);
      s := rest + [last.value];
    } else {
      s := SomeOrder(names, None);
    }
  }

  /** A scan may come to any kept name so that its context is next among them, and to any expired one first. */
  lemma SomeScan(g: Graph, removed: seq<Id>, c: Id, kept: Option<string>, gone: Option<string>) returns (r: Round)
    requires kept.Some? ==> LiveAt(g, c, kept.value)
    requires gone.Some? ==> DyingAt(g, c, gone.value) && TargetOf(g.objs, c, gone.value) !in removed
    ensures Scanned(g, removed, r) && r.context == c
    ensures kept.Some? ==> r.kept != [] && r.kept[|r.kept| - 1] == kept.value
    ensures gone.Some? ==> r.gone != [] && r.gone[0] == gone.value
  {
    var live := set n | n in NamesOf(g.objs, c) && LiveAt(g, c, n);
    var dying := set n | n in NamesOf(g.objs, c) && DyingAt(g, c, n) && TargetOf(g.objs, c, n) !in removed;
    var k := SomeOrderTo(live, kept);
    var d := SomeOrder(dying, gone);
    r := Round(c, k, d);
  }

  lemma LastOf(s: seq<Id>) returns (front: seq<Id>, x: Id)
    requires s != []
    ensures s == front + [x] && x in s
  {
    front, x := s[..|s| - 1], s[|s| - 1];
  }

  // ---------- the end ----------

  /** While something waits another round is possible, and it makes the queue lighter. */
  lemma OneRoundOn(g: Graph, rank: map<Id, nat>, rounds: seq<Round>) returns (r: Round)
    requires QueueRanked(g, rank, [g.root]) && IsSweep(g, rounds) && QueueAfter(g, rounds) != []
    ensures IsSweep(g, rounds + [r]) && Removed(g, rounds) <= Removed(g, rounds + [r])
    ensures Weight(Base(g), rank, QueueAfter(g, rounds + [r])) < Weight(Base(g), rank, QueueAfter(g, rounds))
  {
    var front, c := LastOf(QueueAfter(g, rounds));
    r := SomeScan(g, Removed(g, rounds), c, None, None);
    SweepIsRanked(g, rank, rounds);
    RoundLightens(g, rank, Removed(g, rounds), front, r);
    NextRound(g, rounds, front, r);
    OneMoreRound(g, rounds, r);
  }

  /** Without live cycles every sweep goes on to an end. */
  lemma {:induction false} SweepGoesOn(g: Graph, rank: map<Id, nat>, rounds: seq<Round>) returns (all: seq<Round>)
    requires QueueRanked(g, rank, [g.root]) && IsSweep(g, rounds)
    ensures IsSweep(g, all) && QueueAfter(g, all) == [] && Removed(g, rounds) <= Removed(g, all)
    decreases Weight(Base(g), rank, QueueAfter(g, rounds))
  {
    if QueueAfter(g, rounds) == [] {
      all := rounds;
    } else {
      var r := OneRoundOn(g, rank, rounds);
      all := SweepGoesOn(g, rank, rounds + [r]);
    }
  }

  /** A live cycle can be reached from here. */
  ghost predicate Circles(g: Graph, c: Id) {
    exists p, q {:trigger CirclesAlong(g, c, p, q)} :: CirclesAlong(g, c, p, q)
  }

  ghost predicate CirclesAlong(g: Graph, c: Id, p: seq<string>, q: seq<string>) {
    LiveFollow(g, c, p).Some? && q != [] && LiveFollow(g, LiveFollow(g, c, p).value, q) == LiveFollow(g, c, p)
  }

  lemma CycleCircles(g: Graph)
    ensures NoLiveCycle(g) <==> !Circles(g, g.root)
  {
    forall c, p
      ensures RealFollow(Unexpired(g), c, p) == LiveFollow(g, c, p)
    {
      UnexpiredPaths(g, c, p);
    }
    if !NoLiveCycle(g) {
      var p, q :| RealFollow(Unexpired(g), g.root, p).Some? && q != []
                  && RealFollow(Unexpired(g), RealFollow(Unexpired(g), g.root, p).value, q)
                     == RealFollow(Unexpired(g), g.root, p);
      assert CirclesAlong(g, g.root, p, q);
    } else {
      forall p, q
        ensures !CirclesAlong(g, g.root, p, q)
      {
        assert RealFollow(Unexpired(g), g.root, p) == LiveFollow(g, g.root, p);
        assert LiveFollow(g, g.root, p).Some? ==>
            RealFollow(Unexpired(g), LiveFollow(g, g.root, p).value, q)
                == LiveFollow(g, LiveFollow(g, g.root, p).value, q);
      }
    }
  }

  /** From where a cycle can be reached it can be reached from something bound there. */
  lemma CircleGoesOn(g: Graph, c: Id) returns (n: string)
    requires Circles(g, c)
    ensures LiveAt(g, c, n) && Circles(g, TargetOf(g.objs, c, n))
  {
    var p, q :| CirclesAlong(g, c, p, q);
    if p == [] {
      n := q[0];
      LiveOn(g, c, q, q[..1]);
      assert q == q[..1] + q[1..] && q[..1] == [q[0]];
      var x := TargetOf(g.objs, c, n);
      LiveOn(g, x, q[1..], [q[0]]);
      assert [q[0]][1..] == [];
      LiveOn(g, x, q[1..], q);
      LiveOn(g, c, q, q);
      assert LiveFollow(g, x, q[1..]) == Some(c);
      assert CirclesAlong(g, x, q[1..], q);
    } else {
      n := p[0];
      assert CirclesAlong(g, TargetOf(g.objs, c, n), p[1..], q);
    }
  }

  lemma {:induction false} CircleStays(g: Graph, rounds: seq<Round>)
    requires IsSweep(g, rounds) && Circles(g, g.root)
    ensures exists c :: c in QueueAfter(g, rounds) && Circles(g, c)
    decreases |rounds|
  {
    if rounds == [] {
      assert g.root in QueueAfter(g, rounds);
    } else {
      var before, r, front := LastRound(g, rounds);
      CircleStays(g, before);
      var c :| c in QueueAfter(g, before) && Circles(g, c);
      if c in front {
        assert c in QueueAfter(g, rounds);
      } else {
        assert c == r.context;
        var n := CircleGoesOn(g, c);
        InTargets(g.objs, c, r.kept, n);
        assert TargetOf(g.objs, c, n) in QueueAfter(g, rounds);
      }
    }
  }

  /** Exactly: the sweep comes to an end if and only if there is no live cycle, whatever the order of its rounds. */
  lemma EndsIffNoLiveCycle(g: Graph)
    requires g.root in g.objs
    ensures NoLiveCycle(g) <==> exists rounds :: IsSweep(g, rounds) && QueueAfter(g, rounds) == []
  {
    CycleCircles(g);
    if NoLiveCycle(g) {
      var rank := LiveIsRanked(g);
      var all := SweepGoesOn(g, rank, []);
    } else {
      forall rounds | IsSweep(g, rounds)
        ensures QueueAfter(g, rounds) != []
      {
        CircleStays(g, rounds);
      }
    }
  }

  /** What has been removed is doomed. */
  lemma RemovedIsDoomed(g: Graph, rounds: seq<Round>, x: Id)
    requires IsSweep(g, rounds) && x in Removed(g, rounds)
    ensures Doomed(g, x) && IsReal(g.objs, x)
  {
    var k, next, level := SweepOnLevel(g, rounds);
    assert DoomedBy(g, x, k);
    var m: nat :| m <= k && DoomedBelow(g, x, m);
    var p, n :| |p| == m && DoomedAt(g, p, n, x);
  }

  /** A sweep that has come to its end has removed exactly what is doomed, on any graph and in any order. */
  lemma SweepRemovesDoomed(g: Graph, rounds: seq<Round>)
    requires IsSweep(g, rounds) && QueueAfter(g, rounds) == []
    ensures SetOf(Removed(g, rounds)) == AllDoomed(g)
  {
    forall x | x in Removed(g, rounds)
      ensures x in AllDoomed(g)
    {
      RemovedIsDoomed(g, rounds, x);
    }
    forall x | x in AllDoomed(g)
      ensures x in Removed(g, rounds)
    {
      var p, n :| DoomedAt(g, p, n, x);
      LiveIsDone(g, rounds, p);
      SweepCovers(g, rounds);
      assert GoneThrough(g, Done(rounds), [], Removed(g, rounds), LiveFollow(g, g.root, p).value);
    }
  }

  // ---------- the first of its level ----------

  /** Going through the rest of a level leaves what was queued first at the end of the queue. */
  lemma {:induction false} LevelEnds(g: Graph, rounds: seq<Round>, k: nat, next: seq<Id>, level: seq<Id>)
    returns (all: seq<Round>, more: seq<Id>)
    requires IsSweep(g, rounds) && OnLevel(g, rounds, k, next, level)
    ensures IsSweep(g, all) && OnLevel(g, all, k, more + next, [])
    decreases |level|
  {
    if level == [] {
      all, more := rounds, [];
      assert [] + next == next;
    } else {
      var rest, c := LastOf(level);
      var r := SomeScan(g, Removed(g, rounds), c, None, None);
      LevelGoesOn(g, rounds, k, next, rest, r, Added(g, r) + next);
      all, more := LevelEnds(g, rounds + [r], k, Added(g, r) + next, rest);
      Associate(more, Added(g, r), next);
      more := more + Added(g, r);
    }
  }

  /** Some sweep comes to the context at a live path before it comes to any other of its level. */
  lemma {:induction false} FirstOfItsLevel(g: Graph, q: seq<string>) returns (rounds: seq<Round>, rest: seq<Id>)
    requires LiveFollow(g, g.root, q).Some?
    ensures IsSweep(g, rounds)
    ensures OnLevel(g, rounds, |q|, [], rest + [LiveFollow(g, g.root, q).value])
    ensures q != [] ==> NotBelow(g, Done(rounds), Removed(g, rounds), |q| - 1)
    ensures q == [] ==> rounds == []
    decreases |q|
  {
    if q == [] {
      rounds, rest := [], [];
      StartsOnLevel(g);
      assert [] + [g.root] == [g.root];
    } else {
      var c, n := LastLiveStep(g, g.root, q);
      var before, front := FirstOfItsLevel(g, q[..|q| - 1]);
      rounds, rest := FirstOfTheNext(g, before, |q| - 1, front, c, n);
    }
  }

  lemma FirstOfTheNext(g: Graph, before: seq<Round>, k: nat, front: seq<Id>, c: Id, n: string)
    returns (rounds: seq<Round>, rest: seq<Id>)
    requires IsSweep(g, before) && OnLevel(g, before, k, [], front + [c]) && LiveAt(g, c, n)
    ensures IsSweep(g, rounds) && OnLevel(g, rounds, k + 1, [], rest + [TargetOf(g.objs, c, n)])
    ensures NotBelow(g, Done(rounds), Removed(g, rounds), k)
  {
    var r := SomeScan(g, Removed(g, before), c, Some(n), None);
    var more;
    rounds, more := RoundAndLevel(g, before, k, front, r);
    rest := WithoutLast(more, Added(g, r), TargetOf(g.objs, c, n));
  }

  /** One round and then the rest of its level: what the round queued comes first on the next. */
  lemma RoundAndLevel(g: Graph, before: seq<Round>, k: nat, front: seq<Id>, r: Round)
    returns (rounds: seq<Round>, more: seq<Id>)
    requires IsSweep(g, before) && OnLevel(g, before, k, [], front + [r.context]) && Scanned(g, Removed(g, before), r)
    ensures IsSweep(g, rounds) && OnLevel(g, rounds, k + 1, [], more + Added(g, r))
    ensures NotBelow(g, Done(rounds), Removed(g, rounds), k)
  {
    AndNothing(Added(g, r));
    LevelGoesOn(g, before, k, [], front, r, Added(g, r));
    rounds, more := NextLevel(g, before + [r], k, Added(g, r), front);
  }

  lemma NextLevel(g: Graph, before: seq<Round>, k: nat, next: seq<Id>, level: seq<Id>)
    returns (rounds: seq<Round>, more: seq<Id>)
    requires IsSweep(g, before) && OnLevel(g, before, k, next, level)
    ensures IsSweep(g, rounds) && OnLevel(g, rounds, k + 1, [], more + next)
    ensures NotBelow(g, Done(rounds), Removed(g, rounds), k)
  {
    rounds, more := LevelEnds(g, before, k, next, level);
    LevelShifts(g, rounds, k, more + next);
  }

  lemma AndNothing(s: seq<Id>)
    ensures s == s + []
  {
  }

  lemma WithoutLast(a: seq<Id>, b: seq<Id>, y: Id) returns (front: seq<Id>)
    requires b != [] && b[|b| - 1] == y
    ensures a + b == front + [y]
  {
    front := a + b[..|b| - 1];
  }
}
