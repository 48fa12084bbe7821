/**
 The sweep as rounds over the graph as it stood at the start, whatever the shape of that graph. A round takes
 the oldest context from the queue and sorts the real contexts bound in it into those to be removed and those
 to be checked later, once for every name they are bound under. A context that several paths lead to is gone
 through once for each; what has been removed by then is no longer met.
 */
module Sweep {
  import opened Wrappers
  import opened NameGraph
  import opened Iteration
  import opened TreeTraverse
  import opened Expiry

  // ---------- live paths ----------

  /** What a sweep starts from: the objects, the timestamp of the timeout, and the root. */
  datatype Graph = Graph(objs: Objects, timeout: string, root: Id)

  function TargetOf(objs: Objects, c: Id, n: string): Id {
    if n in NamesOf(objs, c) then NamesOf(objs, c)[n].target else 0
  }

  /** A real context that has not expired is bound here. */
  predicate LiveAt(g: Graph, c: Id, n: string) {
    RealContextAt(g.objs, c, n) && !Expired(g.objs, g.timeout, TargetOf(g.objs, c, n))
  }

  /** An expired one is. */
  predicate DyingAt(g: Graph, c: Id, n: string) {
    RealContextAt(g.objs, c, n) && Expired(g.objs, g.timeout, TargetOf(g.objs, c, n))
  }

  /** Where a path leads that meets no expired context below its start. */
  function LiveFollow(g: Graph, c: Id, p: seq<string>): Option<Id>
    decreases |p|
  {
    if p == [] then Some(c)
    else if LiveAt(g, c, p[0]) then LiveFollow(g, TargetOf(g.objs, c, p[0]), p[1..])
    else None
  }

  /** A live path of this length leads to `x`. */
  ghost predicate Lies(g: Graph, x: Id, k: nat) {
    exists p :: |p| == k && LiveFollow(g, g.root, p) == Some(x)
  }

  /** `x` is an expired context, bound as `n` in what the live path `p` leads to. */
  ghost predicate DoomedAt(g: Graph, p: seq<string>, n: string, x: Id) {
    var c := LiveFollow(g, g.root, p);
    c.Some? && DyingAt(g, c.value, n) && TargetOf(g.objs, c.value, n) == x
  }

  ghost predicate DoomedBelow(g: Graph, x: Id, k: nat) {
    exists p, n :: |p| == k && DoomedAt(g, p, n, x)
  }

  ghost predicate Doomed(g: Graph, x: Id) {
    exists p, n :: DoomedAt(g, p, n, x)
  }

  /** What a sweep removes. */
  ghost function AllDoomed(g: Graph): set<Id> {
    set x | x in g.objs && Doomed(g, x)
  }

  lemma {:induction false} LiveOn(g: Graph, c: Id, p: seq<string>, q: seq<string>)
    requires LiveFollow(g, c, p).Some?
    ensures LiveFollow(g, c, p + q) == LiveFollow(g, LiveFollow(g, c, p).value, q)
    decreases |p|
  {
    if p == [] {
      assert p + q == q;
    } else {
      assert (p + q)[1..] == p[1..] + q;
      LiveOn(g, TargetOf(g.objs, c, p[0]), p[1..], q);
    }
  }

  lemma {:induction false} LivePrefix(g: Graph, c: Id, p: seq<string>, q: seq<string>)
    requires LiveFollow(g, c, p + q).Some?
    ensures LiveFollow(g, c, p).Some?
    decreases |p|
  {
    if p != [] {
      assert (p + q)[1..] == p[1..] + q;
      LivePrefix(g, TargetOf(g.objs, c, p[0]), p[1..], q);
    }
  }

  lemma OneStepOn(g: Graph, c: Id, p: seq<string>, n: string)
    requires LiveFollow(g, c, p).Some?
    ensures LiveFollow(g, c, p + [n])
         == if LiveAt(g, LiveFollow(g, c, p).value, n) then Some(TargetOf(g.objs, LiveFollow(g, c, p).value, n))
            else None
  {
    LiveOn(g, c, p, [n]);
    assert [n][1..] == [];
  }

  lemma LastLiveStep(g: Graph, c: Id, p: seq<string>) returns (d: Id, n: string)
    requires p != [] && LiveFollow(g, c, p).Some?
    ensures LiveFollow(g, c, p[..|p| - 1]) == Some(d) && n == p[|p| - 1]
    ensures LiveAt(g, d, n) && LiveFollow(g, c, p) == Some(TargetOf(g.objs, d, n))
  {
    n := p[|p| - 1];
    assert p == p[..|p| - 1] + [n];
    LivePrefix(g, c, p[..|p| - 1], [n]);
    OneStepOn(g, c, p[..|p| - 1], n);
    d := LiveFollow(g, c, p[..|p| - 1]).value;
  }

  /** A live path is a real path. */
  lemma {:induction false} LiveIsReal(g: Graph, c: Id, p: seq<string>)
    requires LiveFollow(g, c, p).Some?
    ensures RealFollow(g.objs, c, p) == LiveFollow(g, c, p)
    decreases |p|
  {
    if p != [] {
      LiveIsReal(g, TargetOf(g.objs, c, p[0]), p[1..]);
    }
  }

  /** Nothing but the root can be both on a live path and doomed, since what is doomed has expired. */
  lemma LiveIsNotDoomed(g: Graph, p: seq<string>)
    requires !Doomed(g, g.root) && LiveFollow(g, g.root, p).Some?
    ensures !Doomed(g, LiveFollow(g, g.root, p).value)
  {
    if p != [] {
      var d, n := LastLiveStep(g, g.root, p);
    }
  }

  // ---------- what a sweep leaves ----------

  /** The graph without a set of deleted objects. */
  function EraseSet(objs: Objects, dead: set<Id>): Objects {
    map y | y in objs && y !in dead :: objs[y].(names := WithoutTargets(objs[y].names, dead))
  }

  function WithoutTargets(names: map<string, Binding>, dead: set<Id>): map<string, Binding> {
    map n | n in names && names[n].target !in dead :: names[n]
  }

  lemma ErasedNames(objs: Objects, dead: set<Id>, c: Id, n: string)
    requires c in objs && c !in dead
    ensures RealContextAt(EraseSet(objs, dead), c, n) <==> RealContextAt(objs, c, n) && TargetOf(objs, c, n) !in dead
    ensures RealContextAt(EraseSet(objs, dead), c, n) ==> TargetOf(EraseSet(objs, dead), c, n) == TargetOf(objs, c, n)
  {
  }

  /** Without the doomed contexts the real paths are the live ones. */
  lemma {:induction false} SweptPaths(g: Graph, q: seq<string>, p: seq<string>)
    requires g.root in g.objs && !Doomed(g, g.root) && LiveFollow(g, g.root, q).Some?
    ensures var c := LiveFollow(g, g.root, q).value;
            RealFollow(EraseSet(g.objs, AllDoomed(g)), c, p) == LiveFollow(g, c, p)
    decreases |p|
  {
    var c := LiveFollow(g, g.root, q).value;
    if p != [] {
      LiveIsNotDoomed(g, q);
      LiveIsThere(g, q);
      ErasedNames(g.objs, AllDoomed(g), c, p[0]);
      OneStepOn(g, g.root, q, p[0]);
      assert DyingAt(g, c, p[0]) ==> DoomedAt(g, q, p[0], TargetOf(g.objs, c, p[0]));
      if LiveAt(g, c, p[0]) {
        LiveIsNotDoomed(g, q + [p[0]]);
        SweptPaths(g, q + [p[0]], p[1..]);
      }
    }
  }

  lemma LiveIsThere(g: Graph, q: seq<string>)
    requires g.root in g.objs && LiveFollow(g, g.root, q).Some?
    ensures LiveFollow(g, g.root, q).value in g.objs
  {
    if q != [] {
      var d, n := LastLiveStep(g, g.root, q);
    }
  }

  // ---------- rounds ----------

  /** The names of a context under which the sweep found live contexts, as queued, and expired ones, as listed. */
  datatype Round = Round(context: Id, kept: seq<string>, gone: seq<string>)

  function Targets(objs: Objects, c: Id, names: seq<string>): (ids: seq<Id>)
    ensures |ids| == |names| && forall i :: 0 <= i < |names| ==> ids[i] == TargetOf(objs, c, names[i])
  {
    seq(|names|, i requires 0 <= i < |names| => TargetOf(objs, c, names[i]))
  }

  function Added(g: Graph, r: Round): seq<Id> {
    Targets(g.objs, r.context, r.kept)
  }

  function Dying(g: Graph, r: Round): seq<Id> {
    Targets(g.objs, r.context, r.gone)
  }

  /** The queue after some rounds; its last element comes next. */
  function QueueAfter(g: Graph, rounds: seq<Round>): seq<Id> {
    if rounds == [] then [g.root]
    else
      var queue := QueueAfter(g, rounds[..|rounds| - 1]);
      Added(g, rounds[|rounds| - 1]) + if queue == [] then [] else queue[..|queue| - 1]
  }

  /** The contexts gone through. */
  function Done(rounds: seq<Round>): set<Id> {
    set r | r in rounds :: r.context
  }

  /** What the rounds remove, in order. */
  function Removed(g: Graph, rounds: seq<Round>): seq<Id> {
    if rounds == [] then [] else Removed(g, rounds[..|rounds| - 1]) + Dying(g, rounds[|rounds| - 1])
  }

  function SetOf(s: seq<Id>): set<Id> {
    set x | x in s
  }

  /** One scan, in any order of the name map: each name once, and nothing that has been removed before. */
  ghost predicate Scanned(g: Graph, removed: seq<Id>, r: Round) {
    && NoRepeats(r.kept) && NoRepeats(r.gone)
    && (forall n :: n in r.kept <==> LiveAt(g, r.context, n))
    && (forall n :: n in r.gone <==> DyingAt(g, r.context, n) && TargetOf(g.objs, r.context, n) !in removed)
  }

  ghost predicate IsSweep(g: Graph, rounds: seq<Round>) {
    rounds != [] ==>
      var before, last := rounds[..|rounds| - 1], rounds[|rounds| - 1];
      var queue := QueueAfter(g, before);
      && IsSweep(g, before)
      && queue != [] && queue[|queue| - 1] == last.context
      && Scanned(g, Removed(g, before), last)
  }

  /** A sweep of at least one round, taken apart. */
  lemma LastRound(g: Graph, rounds: seq<Round>) returns (before: seq<Round>, r: Round, front: seq<Id>)
    requires IsSweep(g, rounds) && rounds != []
    // compared with true: taken as one fact, not conjunct by conjunct
    ensures rounds == before + [r] && |before| < |rounds| && IsSweep(g, before) == true
    ensures QueueAfter(g, before) == front + [r.context] && QueueAfter(g, rounds) == Added(g, r) + front
    ensures Scanned(g, Removed(g, before), r) == true
    ensures Done(rounds) == Done(before) + {r.context} && Removed(g, rounds) == Removed(g, before) + Dying(g, r)
  {
    before, r := rounds[..|rounds| - 1], rounds[|rounds| - 1];
    front := QueueAfter(g, before)[..|QueueAfter(g, before)| - 1];
    assert rounds == before + [r];
    OneMoreRound(g, before, r);
  }

  lemma OneMoreRound(g: Graph, rounds: seq<Round>, r: Round)
    ensures Done(rounds + [r]) == Done(rounds) + {r.context}
    ensures Removed(g, rounds + [r]) == Removed(g, rounds) + Dying(g, r)
  {
    assert (rounds + [r])[..|rounds|] == rounds;
  }

  lemma NextRound(g: Graph, rounds: seq<Round>, front: seq<Id>, r: Round)
    requires IsSweep(g, rounds) && QueueAfter(g, rounds) == front + [r.context]
    requires Scanned(g, Removed(g, rounds), r)
    ensures IsSweep(g, rounds + [r]) && QueueAfter(g, rounds + [r]) == Added(g, r) + front
  {
    assert (rounds + [r])[..|rounds|] == rounds;
    assert (front + [r.context])[..|front|] == front;
  }

  lemma TargetIn(objs: Objects, c: Id, names: seq<string>, x: Id) returns (n: string)
    requires x in Targets(objs, c, names)
    ensures n in names && TargetOf(objs, c, n) == x
  {
    var i :| 0 <= i < |names| && Targets(objs, c, names)[i] == x;
    n := names[i];
  }

  lemma InTargets(objs: Objects, c: Id, names: seq<string>, n: string)
    requires n in names
    ensures TargetOf(objs, c, n) in Targets(objs, c, names)
  {
    var i :| 0 <= i < |names| && names[i] == n;
    assert Targets(objs, c, names)[i] == TargetOf(objs, c, n);
  }

  // ---------- what the rounds have gone through ----------

  /** Of what is bound in `c`, the live contexts have been gone through or wait, and the expired ones are removed. */
  ghost predicate GoneThrough(g: Graph, done: set<Id>, queue: seq<Id>, removed: seq<Id>, c: Id) {
    && (forall n {:trigger LiveAt(g, c, n)} ::
          LiveAt(g, c, n) ==> TargetOf(g.objs, c, n) in done || TargetOf(g.objs, c, n) in queue)
    && (forall n {:trigger DyingAt(g, c, n)} :: DyingAt(g, c, n) ==> TargetOf(g.objs, c, n) in removed)
  }

  ghost predicate Covers(g: Graph, done: set<Id>, queue: seq<Id>, removed: seq<Id>) {
    && (g.root in done || g.root in queue)
    && forall c :: c in done ==> GoneThrough(g, done, queue, removed, c)
  }

  lemma {:induction false} SweepCovers(g: Graph, rounds: seq<Round>)
    requires IsSweep(g, rounds)
    ensures Covers(g, Done(rounds), QueueAfter(g, rounds), Removed(g, rounds))
    decreases |rounds|
  {
    if rounds != [] {
      var before, r, front := LastRound(g, rounds);
      SweepCovers(g, before);
      RoundCovers(g, Done(before), front, Removed(g, before), r);
    }
  }

  lemma RoundCovers(g: Graph, done: set<Id>, front: seq<Id>, removed: seq<Id>, r: Round)
    requires Covers(g, done, front + [r.context], removed) && Scanned(g, removed, r)
    ensures Covers(g, done + {r.context}, Added(g, r) + front, removed + Dying(g, r))
  {
    forall c | c in done + {r.context}
      ensures GoneThrough(g, done + {r.context}, Added(g, r) + front, removed + Dying(g, r), c)
    {
      if c == r.context {
        RoundGoesThrough(g, done + {c}, front, removed, r);
      } else {
        assert GoneThrough(g, done, front + [r.context], removed, c);
      }
    }
  }

  lemma RoundGoesThrough(g: Graph, done: set<Id>, front: seq<Id>, removed: seq<Id>, r: Round)
    requires Scanned(g, removed, r)
    ensures GoneThrough(g, done, Added(g, r) + front, removed + Dying(g, r), r.context)
  {
    forall n | LiveAt(g, r.context, n)
      ensures TargetOf(g.objs, r.context, n) in Added(g, r)
    {
      InTargets(g.objs, r.context, r.kept, n);
    }
    forall n | DyingAt(g, r.context, n)
      ensures TargetOf(g.objs, r.context, n) in removed || TargetOf(g.objs, r.context, n) in Dying(g, r)
    {
      if n in r.gone {
        InTargets(g.objs, r.context, r.gone, n);
      }
    }
  }

  /** At the end every live path has been gone along. */
  lemma {:induction false} LiveIsDone(g: Graph, rounds: seq<Round>, p: seq<string>)
    requires IsSweep(g, rounds) && QueueAfter(g, rounds) == [] && LiveFollow(g, g.root, p).Some?
    ensures LiveFollow(g, g.root, p).value in Done(rounds)
    decreases |p|
  {
    SweepCovers(g, rounds);
    if p != [] {
      var d, n := LastLiveStep(g, g.root, p);
      LiveIsDone(g, rounds, p[..|p| - 1]);
      assert GoneThrough(g, Done(rounds), [], Removed(g, rounds), d);
    }
  }

  // ---------- levels ----------

  lemma StepLies(g: Graph, c: Id, k: nat, n: string)
    requires Lies(g, c, k)
    ensures LiveAt(g, c, n) ==> Lies(g, TargetOf(g.objs, c, n), k + 1)
    ensures DyingAt(g, c, n) ==> DoomedBelow(g, TargetOf(g.objs, c, n), k)
  {
    var p :| |p| == k && LiveFollow(g, g.root, p) == Some(c);
    OneStepOn(g, g.root, p, n);
    assert |p + [n]| == k + 1;
    assert DyingAt(g, c, n) ==> DoomedAt(g, p, n, TargetOf(g.objs, c, n));
  }

  ghost predicate AllLie(g: Graph, s: seq<Id>, k: nat) {
    forall i :: 0 <= i < |s| ==> Lies(g, s[i], k)
  }

  ghost predicate AllDoomedBelow(g: Graph, s: seq<Id>, k: nat) {
    forall i :: 0 <= i < |s| ==> DoomedBelow(g, s[i], k)
  }

  lemma RoundLies(g: Graph, removed: seq<Id>, r: Round, k: nat)
    requires Scanned(g, removed, r) && Lies(g, r.context, k)
    ensures AllLie(g, Added(g, r), k + 1) && AllDoomedBelow(g, Dying(g, r), k)
  {
    forall i | 0 <= i < |r.kept|
      ensures Lies(g, Added(g, r)[i], k + 1)
    {
      assert r.kept[i] in r.kept;
      StepLies(g, r.context, k, r.kept[i]);
    }
    forall i | 0 <= i < |r.gone|
      ensures DoomedBelow(g, Dying(g, r)[i], k)
    {
      assert r.gone[i] in r.gone;
      StepLies(g, r.context, k, r.gone[i]);
    }
  }

  ghost predicate LiesBy(g: Graph, c: Id, k: nat) {
    exists m: nat :: m <= k && Lies(g, c, m)
  }

  ghost predicate DoomedBy(g: Graph, x: Id, k: nat) {
    exists m: nat :: m <= k && DoomedBelow(g, x, m)
  }

  /** What has been gone through and removed belongs to the levels up to `k`. */
  ghost predicate NotBelow(g: Graph, done: set<Id>, removed: seq<Id>, k: nat) {
    (forall c :: c in done ==> LiesBy(g, c, k)) && (forall x :: x in removed ==> DoomedBy(g, x, k))
  }

  /** What lies on a level has been gone through, or is among `level`. */
  ghost predicate LevelMet(g: Graph, done: set<Id>, k: nat, level: seq<Id>) {
    forall p :: |p| == k && LiveFollow(g, g.root, p).Some? ==>
      LiveFollow(g, g.root, p).value in done || LiveFollow(g, g.root, p).value in level
  }

  ghost predicate AboveDone(g: Graph, done: set<Id>, k: nat) {
    forall m: nat :: m < k ==> LevelMet(g, done, m, [])
  }

  /** Where a sweep stands: `next` was queued on the level `k` and is waiting behind `level`, the rest of that level. */
  ghost predicate OnLevel(g: Graph, rounds: seq<Round>, k: nat, next: seq<Id>, level: seq<Id>) {
    && QueueAfter(g, rounds) == next + level
    && AllLie(g, next, k + 1) && AllLie(g, level, k)
    && NotBelow(g, Done(rounds), Removed(g, rounds), k)
    && AboveDone(g, Done(rounds), k) && LevelMet(g, Done(rounds), k, level)
  }

  lemma NextIsMet(g: Graph, done: set<Id>, removed: seq<Id>, k: nat, next: seq<Id>)
    requires Covers(g, done, next, removed) && LevelMet(g, done, k, [])
    ensures LevelMet(g, done, k + 1, next)
  {
    forall p | |p| == k + 1 && LiveFollow(g, g.root, p).Some?
      ensures LiveFollow(g, g.root, p).value in done || LiveFollow(g, g.root, p).value in next
    {
      var d, n := LastLiveStep(g, g.root, p);
      assert |p[..k]| == k && d in done;
      assert GoneThrough(g, done, next, removed, d);
    }
  }

  lemma StillNotBelow(g: Graph, done: set<Id>, removed: seq<Id>, k: nat)
    requires NotBelow(g, done, removed, k)
    ensures NotBelow(g, done, removed, k + 1)
  {
    forall c | c in done
      ensures LiesBy(g, c, k + 1)
    {
      var m: nat :| m <= k && Lies(g, c, m);
    }
    forall x | x in removed
      ensures DoomedBy(g, x, k + 1)
    {
      var m: nat :| m <= k && DoomedBelow(g, x, m);
    }
  }

  /** When a level is done, what was queued on it is the next one. */
  lemma LevelShifts(g: Graph, rounds: seq<Round>, k: nat, next: seq<Id>)
    requires IsSweep(g, rounds) && OnLevel(g, rounds, k, next, [])
    ensures OnLevel(g, rounds, k + 1, [], next)
  {
    SweepCovers(g, rounds);
    assert next + [] == next && [] + next == next;
    NextIsMet(g, Done(rounds), Removed(g, rounds), k, next);
    StillNotBelow(g, Done(rounds), Removed(g, rounds), k);
  }

  lemma RoundNotBelow(g: Graph, done: set<Id>, removed: seq<Id>, k: nat, r: Round)
    requires NotBelow(g, done, removed, k) && Scanned(g, removed, r) && Lies(g, r.context, k)
    ensures NotBelow(g, done + {r.context}, removed + Dying(g, r), k)
  {
    RoundLies(g, removed, r, k);
    forall x | x in Dying(g, r)
      ensures DoomedBy(g, x, k)
    {
      var i :| 0 <= i < |Dying(g, r)| && Dying(g, r)[i] == x;
      assert DoomedBelow(g, x, k);
    }
  }

  lemma MoreIsMet(g: Graph, done: set<Id>, c: Id, k: nat, rest: seq<Id>)
    requires AboveDone(g, done, k) && LevelMet(g, done, k, rest + [c])
    ensures AboveDone(g, done + {c}, k) && LevelMet(g, done + {c}, k, rest)
  {
    forall m: nat | m < k
      ensures LevelMet(g, done + {c}, m, [])
    {
      assert LevelMet(g, done, m, []);
    }
  }

  /** One round within a level. */
  lemma LevelGoesOn(g: Graph, rounds: seq<Round>, k: nat, next: seq<Id>, rest: seq<Id>, r: Round, more: seq<Id>)
    requires IsSweep(g, rounds) && OnLevel(g, rounds, k, next, rest + [r.context]) && Scanned(g, Removed(g, rounds), r)
    requires more == Added(g, r) + next
    ensures IsSweep(g, rounds + [r]) && OnLevel(g, rounds + [r], k, more, rest)
  {
    SplitLevel(g, rest, r.context, k);
    RoundLies(g, Removed(g, rounds), r, k);
    RoundNotBelow(g, Done(rounds), Removed(g, rounds), k, r);
    MoreIsMet(g, Done(rounds), r.context, k, rest);
    Associate(next, rest, [r.context]);
    NextRound(g, rounds, next + rest, r);
    Associate(Added(g, r), next, rest);
    OneMoreRound(g, rounds, r);
  }

  lemma SplitLevel(g: Graph, rest: seq<Id>, c: Id, k: nat)
    requires AllLie(g, rest + [c], k)
    ensures AllLie(g, rest, k) && Lies(g, c, k)
  {
    assert (rest + [c])[|rest|] == c;
    assert forall i :: 0 <= i < |rest| ==> (rest + [c])[i] == rest[i];
  }

  /** Breadth first: a sweep always stands on some level, and all above it has been gone through. */
  lemma {:induction false} SweepOnLevel(g: Graph, rounds: seq<Round>) returns (k: nat, next: seq<Id>, level: seq<Id>)
    requires IsSweep(g, rounds)
    ensures OnLevel(g, rounds, k, next, level)
    decreases |rounds|
  {
    if rounds == [] {
      k, next, level := 0, [], [g.root];
      StartsOnLevel(g);
    } else {
      var before, r, front := LastRound(g, rounds);
      k, next, level := SweepOnLevel(g, before);
      if level == [] {
        LevelShifts(g, before, k, next);
        k, next, level := k + 1, [], next;
      }
      var rest := LastOfLevel(next, level, front, r.context);
      var more := Added(g, r) + next;
      LevelGoesOn(g, before, k, next, rest, r, more);
      next, level := more, rest;
    }
  }

  lemma StartsOnLevel(g: Graph)
    ensures OnLevel(g, [], 0, [], [g.root])
  {
    assert [] + [g.root] == [g.root];
    assert LiveFollow(g, g.root, []) == Some(g.root) && Lies(g, g.root, 0);
    assert forall p: seq<string> :: |p| == 0 ==> p == [];
  }

  lemma LastOfLevel(next: seq<Id>, level: seq<Id>, front: seq<Id>, c: Id) returns (rest: seq<Id>)
    requires next + level == front + [c] && (level == [] ==> next == [])
    ensures level == rest + [c]
  {
    rest := level[..|level| - 1];
    assert (next + level)[|next + level| - 1] == level[|level| - 1];
    assert (front + [c])[|front|] == c;
  }
}
