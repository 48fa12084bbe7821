/**
 The getopt of the test programs: a scanner that permutes the argument array in place while it reads
 options, so that in the end the non-options come last and in their original order.
 */
module Getopt {
  import opened Wrappers
  import opened Options

  // ---------- what a scan should come to ----------

  /** Options with their arguments, and the rest. */
  datatype Parts = Parts(options: seq<string>, others: seq<string>)

  /** Up to the terminator, options and others apart, each in order; behind it, everything is other. */
  function Divide(t: Table, args: seq<string>): Parts
    decreases |args|
  {
    if args == [] then Parts([], [])
    else if args[0] == TERMINATOR then Parts(args[..1], args[1..])
    else if NonOption(args[0]) then
      var d := Divide(t, args[1..]);
      Parts(d.options, args[..1] + d.others)
    else
      var w := Width(t, args);
      var d := Divide(t, args[w..]);
      Parts(args[..w] + d.options, d.others)
  }

  /** Dividing loses nothing and makes nothing up. */
  lemma {:induction false} DivideIsPermutation(t: Table, args: seq<string>)
    ensures multiset(Divide(t, args).options) + multiset(Divide(t, args).others) == multiset(args)
    decreases |args|
  {
    if args == [] {
    } else {
      var k := if args[0] == TERMINATOR || NonOption(args[0]) then 1 else Width(t, args);
      assert args == args[..k] + args[k..];
      if args[0] != TERMINATOR {
        DivideIsPermutation(t, args[k..]);
      }
    }
  }

  /** `sub` can be had from `s` by leaving elements out. */
  ghost predicate Subsequence(sub: seq<string>, s: seq<string>)
    decreases |s|
  {
    sub == [] || (s != [] && ((sub[0] == s[0] && Subsequence(sub[1..], s[1..])) || Subsequence(sub, s[1..])))
  }

  lemma {:induction false} WholeIsSubsequence(s: seq<string>)
    ensures Subsequence(s, s)
    decreases |s|
  {
    if s != [] {
      WholeIsSubsequence(s[1..]);
    }
  }

  /** Neither the options nor the others change their order. */
  lemma {:induction false} DivideKeepsOrder(t: Table, args: seq<string>)
    ensures Subsequence(Divide(t, args).options, args) && Subsequence(Divide(t, args).others, args)
    decreases |args|
  {
    if args == [] {
    } else if args[0] == TERMINATOR {
      WholeIsSubsequence(args[1..]);
    } else if NonOption(args[0]) {
      DivideKeepsOrder(t, args[1..]);
      assert Divide(t, args).others[1..] == Divide(t, args[1..]).others;
    } else {
      var w := Width(t, args);
      DivideKeepsOrder(t, args[w..]);
      var o := Divide(t, args).options;
      if w == 2 {
        assert args[1..][1..] == args[2..] && o[1..][1..] == Divide(t, args[2..]).options;
        assert Subsequence(o[1..], args[1..]);
        assert Subsequence(Divide(t, args[2..]).others, args[1..]);
      } else {
        assert o[1..] == Divide(t, args[1..]).options;
      }
    }
  }

  lemma CutBoth(a: seq<string>, b: seq<string>, c: seq<string>, k: nat)
    requires k <= |a|
    ensures (a + b + c)[k..] == a[k..] + b + c && (a + b + c)[..k] == a[..k]
  {
  }

  /** Behind a terminator that no option takes for its argument, everything is other, whatever it looks like. */
  lemma {:induction false} BehindTheTerminator(t: Table, args: seq<string>, more: seq<string>)
    requires Complete(t, args)
    ensures Divide(t, args + [TERMINATOR] + more)
         == Parts(Divide(t, args).options + [TERMINATOR], Divide(t, args).others + more)
    decreases |args|
  {
    var all := args + [TERMINATOR] + more;
    if args == [] {
      assert all[1..] == more && all[..1] == [TERMINATOR];
    } else {
      var k := if NonOption(args[0]) then 1 else Width(t, args);
      BehindTheTerminator(t, args[k..], more);
      CutBoth(args, [TERMINATOR], more, k);
      var d := Divide(t, args[k..]);
      if NonOption(args[0]) {
        assert args[..k] + (d.others + more) == args[..k] + d.others + more;
      } else {
        assert args[..k] + (d.options + [TERMINATOR]) == args[..k] + d.options + [TERMINATOR];
      }
    }
  }

  /**
   How far a scan has come: before `first` and from `last` to `ind` stand options, between them the others
   skipped so far, and with the parts still ahead they make the division of all.
   */
  ghost predicate Holds(all: Parts, a: seq<string>, first: nat, last: nat, ind: nat, ahead: Parts) {
    && 1 <= first <= last <= ind <= |a|
    && all == Parts(a[1..first] + a[last..ind] + ahead.options, a[first..last] + ahead.others)
  }

  ghost predicate Underway(t: Table, orig: seq<string>, a: seq<string>, first: nat, last: nat, ind: nat) {
    && ind <= |a| == |orig| && orig != [] && a[0] == orig[0]
    && Holds(Divide(t, orig[1..]), a, first, last, ind, Divide(t, a[ind..]))
  }

  lemma CutBag(s: seq<string>, k: nat)
    requires k <= |s|
    ensures multiset(s) == multiset(s[..k]) + multiset(s[k..])
  {
    assert s == s[..k] + s[k..];
  }

  lemma CutBagAt(s: seq<string>, i: nat, k: nat)
    requires i <= k <= |s|
    ensures multiset(s[i..]) == multiset(s[i..k]) + multiset(s[k..])
  {
    CutBag(s[i..], k - i);
    assert s[i..][..k - i] == s[i..k] && s[i..][k - i..] == s[k..];
  }

  lemma Blocks(a: seq<string>, first: nat, last: nat, ind: nat)
    requires 1 <= first <= last <= ind <= |a|
    ensures multiset(a)
         == multiset(a[..1]) + (multiset(a[1..first] + a[last..ind]) + multiset(a[first..last]) + multiset(a[ind..]))
  {
    CutBag(a, 1);
    CutBagAt(a, 1, first);
    CutBagAt(a, first, last);
    CutBagAt(a, last, ind);
  }

  lemma UnderwayIsPermutation(t: Table, orig: seq<string>, a: seq<string>, first: nat, last: nat, ind: nat)
    requires Underway(t, orig, a, first, last, ind)
    ensures multiset(a) == multiset(orig)
  {
    DivideIsPermutation(t, orig[1..]);
    DivideIsPermutation(t, a[ind..]);
    CutBag(orig, 1);
    assert orig[..1] == a[..1];
    Blocks(a, first, last, ind);
  }

  // ---------- exchanging blocks ----------

  /** The blocks from `b` to `m` and from `m` to `e` in each other's place. */
  function Exchanged<T>(s: seq<T>, b: nat, m: nat, e: nat): (r: seq<T>)
    requires b <= m <= e <= |s|
    ensures |r| == |s|
  {
    s[..b] + s[m..e] + s[b..m] + s[e..]
  }

  /** Two blocks of equal length swapped. */
  function Swapped<T>(s: seq<T>, x: nat, y: nat, len: nat): (r: seq<T>)
    requires x + len <= y && y + len <= |s|
    ensures |r| == |s|
  {
    s[..x] + s[y..y + len] + s[x + len..y] + s[x..x + len] + s[y + len..]
  }

  /** The same, told of what stands at each index. */
  ghost predicate AreSwapped<T(!new)>(s: seq<T>, r: seq<T>, x: nat, y: nat, len: nat) {
    && x + len <= y && y + len <= |s| == |r|
    && (forall k :: x <= k < x + len ==> r[k] == s[k - x + y])
    && (forall k :: y <= k < y + len ==> r[k] == s[k - y + x])
    && forall k :: 0 <= k < |s| && !(x <= k < x + len) && !(y <= k < y + len) ==> r[k] == s[k]
  }

  lemma SwappedIs<T(!new)>(s: seq<T>, r: seq<T>, x: nat, y: nat, len: nat)
    requires AreSwapped(s, r, x, y, len)
    ensures r == Swapped(s, x, y, len)
  {
  }

  lemma SwappedParts<T>(s: seq<T>, x: nat, y: nat, len: nat)
    requires x + len <= y && y + len <= |s|
    ensures var r := Swapped(s, x, y, len);
            && r[..x] == s[..x] && r[x..x + len] == s[y..y + len] && r[x + len..y] == s[x + len..y]
            && r[y..y + len] == s[x..x + len] && r[y + len..] == s[y + len..]
  {
  }

  lemma Regroup<T>(p: seq<T>, q: seq<T>, r: seq<T>, a: seq<T>, e: seq<T>)
    ensures p + q + r + (a + e) == p + (q + r) + a + e
    ensures a == [] ==> p + q + r + e == p + (q + r) + e
  {
  }

  lemma CutTwice<T>(s: seq<T>, i: nat, j: nat, k: nat)
    requires i <= j <= k <= |s|
    ensures s[i..k] == s[i..j] + s[j..k] && s[i..] == s[i..j] + s[j..] && s[..j] == s[..i] + s[i..j]
  {
  }

  lemma SwappedFarEnd<T>(s: seq<T>, r: seq<T>, b: nat, m: nat, e: nat, len: nat)
    requires b <= m <= e <= |s| && len == m - b < e - m
    requires r == Swapped(s, b, e - len, len)
    ensures Exchanged(r, b, m, e - len) == s[..b] + s[m..e - len] + s[e - len..e] + (s[b..m] + s[e..])
  {
    SwappedParts(s, b, e - len, len);
    assert r[b..m] == s[e - len..e] && r[m..e - len] == s[m..e - len];
    assert r[e - len..e] == s[b..m] && r[e..] == s[e..];
    CutTwice(r, e - len, e, |r|);
  }

  /** Where the first block is the shorter, a swap with the far end of the second puts it in place. */
  lemma ExchangeShortBottom<T>(s: seq<T>, r: seq<T>, b: nat, m: nat, e: nat, len: nat)
    requires b <= m <= e <= |s| && len == m - b < e - m
    requires r == Swapped(s, b, e - len, len)
    ensures Exchanged(r, b, m, e - len) == Exchanged(s, b, m, e)
  {
    SwappedFarEnd(s, r, b, m, e, len);
    CutTwice(s, m, e - len, e);
    Regroup(s[..b], s[m..e - len], s[e - len..e], s[b..m], s[e..]);
  }

  /** Where the second block is not the longer, a swap with the near end of the first puts it in place. */
  lemma ExchangeShortTop<T>(s: seq<T>, r: seq<T>, b: nat, m: nat, e: nat, len: nat)
    requires b <= m <= e <= |s| && len == e - m <= m - b
    requires r == Swapped(s, b, m, len)
    ensures Exchanged(r, b + len, m, e) == Exchanged(s, b, m, e)
  {
    SwappedParts(s, b, m, len);
    CutTwice(r, b, b + len, |r|);
    CutTwice(s, b, b + len, m);
    Regroup(s[..b] + s[m..e], s[b..b + len], s[b + len..m], [], s[e..]);
  }

  /** What is still to be exchanged comes to `goal`. */
  ghost predicate Aims(s: seq<string>, b: nat, m: nat, e: nat, goal: seq<string>) {
    b <= m <= e <= |s| && Exchanged(s, b, m, e) == goal
  }

  lemma BottomAims(s: seq<string>, r: seq<string>, b: nat, m: nat, e: nat, len: nat, goal: seq<string>)
    requires b < m < e && len == m - b && Aims(s, b, m, e + len, goal) && AreSwapped(s, r, b, e, len)
    // compared with true: taken as one fact
    ensures Aims(r, b, m, e, goal) == true
  {
    SwappedIs(s, r, b, e, len);
    ExchangeShortBottom(s, r, b, m, e + len, len);
  }

  lemma TopAims(s: seq<string>, r: seq<string>, b: nat, m: nat, e: nat, len: nat, goal: seq<string>)
    requires len <= b <= m < e && len == e - m && Aims(s, b - len, m, e, goal) && AreSwapped(s, r, b - len, m, len)
    // again taken as one fact
    ensures Aims(r, b, m, e, goal) == true
  {
    SwappedIs(s, r, b - len, m, len);
    ExchangeShortTop(s, r, b - len, m, e, len);
  }

  lemma ExchangedTrivially<T>(s: seq<T>, b: nat, m: nat, e: nat)
    requires b <= m <= e <= |s| && (b == m || m == e)
    ensures Exchanged(s, b, m, e) == s
  {
  }

  /** The exchanged blocks are where their lengths put them, in their own order, and the rest stands still. */
  lemma ExchangedParts<T>(s: seq<T>, b: nat, m: nat, e: nat)
    requires b <= m <= e <= |s|
    ensures var r := Exchanged(s, b, m, e);
            && r[..b] == s[..b] && r[b..b + (e - m)] == s[m..e] && r[b + (e - m)..e] == s[b..m] && r[e..] == s[e..]
  {
  }

  // ---------- the steps of a scan ----------

  lemma HoldsExchanged(all: Parts, a: seq<string>, first: nat, last: nat, ind: nat, ahead: Parts)
    requires Holds(all, a, first, last, ind, ahead)
    ensures var r := Exchanged(a, first, last, ind);
            && r[0] == a[0] && r[ind..] == a[ind..]
            && Holds(all, r, first + (ind - last), ind, ind, ahead)
  {
    var r := Exchanged(a, first, last, ind);
    var first' := first + (ind - last);
    ExchangedParts(a, first, last, ind);
    assert r[1..first'] == r[..first][1..] + r[first..first'];
    assert a[1..first] == a[..first][1..];
    assert r[0] == r[..first][0] && a[0] == a[..first][0];
    assert r[1..first'] + r[ind..ind] == a[1..first] + a[last..ind];
  }

  lemma HoldsEmpty(all: Parts, a: seq<string>, first: nat, ind: nat, ahead: Parts)
    requires Holds(all, a, first, first, ind, ahead)
    ensures Holds(all, a, ind, ind, ind, ahead)
  {
    assert a[1..ind] + a[ind..ind] == a[1..first] + a[first..ind];
  }

  lemma ExchangedUnderway(t: Table, orig: seq<string>, a: seq<string>, first: nat, last: nat, ind: nat)
    returns (r: seq<string>)
    requires Underway(t, orig, a, first, last, ind)
    ensures r == Exchanged(a, first, last, ind) && r[ind..] == a[ind..]
    // compared with true: taken as one fact, not conjunct by conjunct
    ensures Underway(t, orig, r, first + (ind - last), ind, ind) == true
  {
    r := Exchanged(a, first, last, ind);
    HoldsExchanged(Divide(t, orig[1..]), a, first, last, ind, Divide(t, a[ind..]));
  }

  lemma EmptyUnderway(t: Table, orig: seq<string>, a: seq<string>, first: nat, ind: nat)
    requires Underway(t, orig, a, first, first, ind)
    ensures Underway(t, orig, a, ind, ind, ind)
  {
    HoldsEmpty(Divide(t, orig[1..]), a, first, ind, Divide(t, a[ind..]));
  }

  lemma SkipOther(t: Table, orig: seq<string>, a: seq<string>, first: nat, ind: nat)
    requires Underway(t, orig, a, first, ind, ind) && ind < |a| && NonOption(a[ind])
    ensures Underway(t, orig, a, first, ind + 1, ind + 1)
  {
    assert a[ind..][0] == a[ind] && a[ind..][1..] == a[ind + 1..] && a[ind..][..1] == [a[ind]];
    var d := Divide(t, a[ind + 1..]);
    assert a[first..ind + 1] == a[first..ind] + [a[ind]];
    assert a[first..ind] + ([a[ind]] + d.others) == a[first..ind + 1] + d.others;
    assert a[1..first] + a[ind..ind] == a[1..first] + a[ind + 1..ind + 1];
  }

  lemma TakeOption(t: Table, orig: seq<string>, a: seq<string>, first: nat, last: nat, ind: nat)
    requires Underway(t, orig, a, first, last, ind) && ind < |a| && !NonOption(a[ind]) && a[ind] != TERMINATOR
    ensures Underway(t, orig, a, first, last, ind + Width(t, a[ind..]))
  {
    var w := Width(t, a[ind..]);
    assert a[ind..][w..] == a[ind + w..] && a[ind..][..w] == a[ind..ind + w];
    var d := Divide(t, a[ind + w..]);
    assert a[last..ind + w] == a[last..ind] + a[ind..ind + w];
    assert a[1..first] + a[last..ind] + (a[ind..ind + w] + d.options) == a[1..first] + a[last..ind + w] + d.options;
  }

  /** At the terminator the parts ahead are known: all that follows is other. */
  lemma AtTerminator(t: Table, orig: seq<string>, a: seq<string>, first: nat, ind: nat)
    requires Underway(t, orig, a, first, ind, ind) && ind < |a| && a[ind] == TERMINATOR
    ensures Holds(Divide(t, orig[1..]), a, first, ind, ind + 1, Parts([], a[ind + 1..]))
  {
    assert a[ind..][0] == TERMINATOR && a[ind..][1..] == a[ind + 1..] && a[ind..][..1] == a[ind..ind + 1];
    assert a[1..first] + a[ind..ind] + a[ind..ind + 1] == a[1..first] + a[ind..ind + 1] + [];
  }

  /** The end of a scan: the options in front, the others behind, and `ind` where the others begin. */
  ghost predicate Finished(t: Table, orig: seq<string>, a: seq<string>, ind: nat) {
    && orig != []
    && var d := Divide(t, orig[1..]);
       a == orig[..1] + d.options + d.others && ind == 1 + |d.options|
  }

  lemma FinishedParts(t: Table, orig: seq<string>, a: seq<string>, first: nat, ind: nat)
    requires orig != [] && |a| == |orig| && a[0] == orig[0] && ind <= |a|
    requires Holds(Divide(t, orig[1..]), a, first, ind, ind, Parts([], a[ind..]))
    ensures Finished(t, orig, a, first)
  {
    var options, others := a[1..first] + a[ind..ind] + [], a[first..ind] + a[ind..];
    ThreePieces(a, first, ind);
    assert Divide(t, orig[1..]) == Parts(options, others) && |options| == first - 1;
    assert orig[..1] == a[..1];
  }

  lemma ThreePieces(a: seq<string>, first: nat, ind: nat)
    requires 1 <= first <= ind <= |a|
    ensures a == a[..1] + (a[1..first] + a[ind..ind] + []) + (a[first..ind] + a[ind..])
  {
  }

  /** The terminator goes before the others that have been skipped, and that is the end. */
  lemma OthersBeforeTerminator(t: Table, orig: seq<string>, a: seq<string>, first: nat, last: nat, ind: nat)
    returns (r: seq<string>)
    requires Underway(t, orig, a, first, last, last) && last < |a| && a[last] == TERMINATOR && ind == last + 1
    ensures r == Exchanged(a, first, last, ind)
    // compared with true: taken as one fact, not conjunct by conjunct
    ensures Finished(t, orig, r, first + (ind - last)) == true
  {
    AtTerminator(t, orig, a, first, last);
    HoldsExchanged(Divide(t, orig[1..]), a, first, last, ind, Parts([], a[ind..]));
    r := Exchanged(a, first, last, ind);
    FinishedParts(t, orig, r, first + (ind - last), ind);
  }

  lemma NoneBeforeTerminator(t: Table, orig: seq<string>, a: seq<string>, ind: nat)
    requires Underway(t, orig, a, ind, ind, ind) && ind < |a| && a[ind] == TERMINATOR
    // again taken as one fact
    ensures Finished(t, orig, a, ind + 1) == true
  {
    AtTerminator(t, orig, a, ind, ind);
    HoldsEmpty(Divide(t, orig[1..]), a, ind, ind + 1, Parts([], a[ind + 1..]));
    FinishedParts(t, orig, a, ind + 1, ind + 1);
  }

  lemma FinishedFacts(t: Table, orig: seq<string>, a: seq<string>, ind: nat)
    requires Finished(t, orig, a, ind)
    ensures a[ind..] == Divide(t, orig[1..]).others
    ensures multiset(a) == multiset(orig)
  {
    DivideIsPermutation(t, orig[1..]);
    CutBag(orig, 1);
  }

  // ---------- a scan at one moment ----------

  /**
   What a scan was given, how the list stands, its records and index, what is left of an element, and what was told.
   */
  datatype Point = Point(orig: seq<string>, argv: seq<string>, first: nat, last: nat, ind: nat, next: string,
                         told: seq<Outcome>)

  ghost predicate Stands(t: Table, p: Point) {
    Underway(t, p.orig, p.argv, p.first, p.last, p.ind)
  }

  /** What is left of a cluster decides like the whole of it whether the next element is an argument. */
  ghost predicate WithinAt(t: Table, p: Point) {
    p.next != "" ==>
      && p.ind < |p.argv|
      && var arg := p.argv[p.ind];
         && !NonOption(arg) && arg != TERMINATOR && |p.next| < |arg|
         && !IsLong(t, arg)
         && ClusterTakesNext(t.optstring, p.next) == TakesNext(t, arg)
  }

  /** What the caller has been told, and what is still to come, is what the list as it was given means. */
  ghost predicate TellingAt(t: Table, p: Point)
    requires p.ind <= |p.argv| && WithinAt(t, p)
  {
    Outcomes(t, Given(p.orig)) == p.told + StillToCome(t, p.argv[p.ind..], p.next)
  }

  function Given(orig: seq<string>): seq<string> {
    if orig == [] then [] else orig[1..]
  }

  /** The scan has come to the beginning of an option. */
  ghost predicate StartsAt(t: Table, p: Point) {
    && p.ind < |p.argv| && !NonOption(p.argv[p.ind]) && p.argv[p.ind] != TERMINATOR
    && p.next == p.argv[p.ind][if IsLong(t, p.argv[p.ind]) then 2 else 1..] && p.next != ""
  }

  /** The scan has come to an option: to a long one, or to the rest of a cluster. */
  ghost predicate OptionAt(t: Table, p: Point) {
    && Stands(t, p) && p.next != "" && p.ind < |p.argv|
    && !NonOption(p.argv[p.ind]) && p.argv[p.ind] != TERMINATOR && |p.next| < |p.argv[p.ind]|
    && if IsLong(t, p.argv[p.ind])
       then p.next == p.argv[p.ind][2..] && Outcomes(t, Given(p.orig)) == p.told + Outcomes(t, p.argv[p.ind..])
       else WithinAt(t, p) && TellingAt(t, p)
  }

  lemma StartIsOption(t: Table, p: Point)
    requires Stands(t, p) && StartsAt(t, p) && Outcomes(t, Given(p.orig)) == p.told + Outcomes(t, p.argv[p.ind..])
    ensures OptionAt(t, p)
  {
    assert p.argv[p.ind..][0] == p.argv[p.ind];
    if !IsLong(t, p.argv[p.ind]) {
      ClusterIsElement(t, p.argv[p.ind..]);
    }
  }

  /** What is left of an element and what was told do not matter to how the list stands. */
  lemma StandsAlike(t: Table, p: Point, q: Point)
    requires Stands(t, p) && q == p.(next := q.next, told := q.told)
    ensures Stands(t, q)
  {
  }

  /** Where the scan stands once the option it is at has been passed. */
  lemma PassOption(t: Table, p: Point) returns (w: nat)
    requires OptionAt(t, p)
    ensures w == Width(t, p.argv[p.ind..]) && p.ind + w <= |p.argv|
    ensures p.argv[p.ind..][0] == p.argv[p.ind] && p.argv[p.ind..][w..] == p.argv[p.ind + w..]
    ensures Stands(t, p.(ind := p.ind + w)) == true
  {
    w := Width(t, p.argv[p.ind..]);
    TakeOption(t, p.orig, p.argv, p.first, p.last, p.ind);
  }

  /** What reading a long option comes to. */
  ghost function AfterLong(t: Table, p: Point): Point
    requires p.ind < |p.argv| && !NonOption(p.argv[p.ind]) && IsLong(t, p.argv[p.ind])
  {
    var args := p.argv[p.ind..];
    p.(ind := p.ind + Width(t, args), next := "",
       told := p.told + [LongOutcome(t.optstring, t.longopts.value, p.next, NextOf(args))])
  }

  lemma LongStands(t: Table, p: Point)
    requires OptionAt(t, p) && IsLong(t, p.argv[p.ind])
    ensures Stands(t, AfterLong(t, p)) && AfterLong(t, p).ind <= |p.argv|
  {
    var w := PassOption(t, p);
    StandsAlike(t, p.(ind := p.ind + w), AfterLong(t, p));
  }

  lemma LongTells(t: Table, p: Point)
    requires OptionAt(t, p) && IsLong(t, p.argv[p.ind]) && AfterLong(t, p).ind <= |p.argv|
    ensures TellingAt(t, AfterLong(t, p))
  {
    var w := PassOption(t, p);
    var args := p.argv[p.ind..];
    LongIsNext(t, args);
    ToldOneMore(p.told, LongOutcome(t.optstring, t.longopts.value, p.next, NextOf(args)),
                Outcomes(t, p.argv[p.ind + w..]));
  }

  lemma LongRead(t: Table, p: Point) returns (q: Point)
    requires OptionAt(t, p) && IsLong(t, p.argv[p.ind])
    ensures p.argv[p.ind..] != [] && !NonOption(p.argv[p.ind..][0]) && q == AfterLong(t, p)
    // compared with true: checked as facts, not conjunct by conjunct
    ensures Stands(t, q) == true && q.ind <= |q.argv| && WithinAt(t, q) && TellingAt(t, q) == true
  {
    q := AfterLong(t, p);
    LongStands(t, p);
    LongTells(t, p);
  }

  /** What reading one option of a cluster comes to. */
  ghost function AfterShort(t: Table, p: Point): Point
    requires p.ind < |p.argv| && !NonOption(p.argv[p.ind]) && p.next != ""
  {
    var args, left := p.argv[p.ind..], LeftOver(t.optstring, p.next);
    p.(ind := if left != "" then p.ind else p.ind + Width(t, args), next := left,
       told := p.told + [ShortOutcome(t.optstring, p.next[0], p.next[1..], NextOf(args))])
  }

  lemma ShortStands(t: Table, p: Point)
    requires OptionAt(t, p) && !IsLong(t, p.argv[p.ind])
    ensures Stands(t, AfterShort(t, p)) && AfterShort(t, p).ind <= |p.argv|
  {
    var w := PassOption(t, p);
    var q := AfterShort(t, p);
    if q.next != "" {
      StandsAlike(t, p, q);
    } else {
      StandsAlike(t, p.(ind := p.ind + w), q);
    }
  }

  /** One outcome of a cluster told, the others are still to come. */
  lemma ShortTold(t: Table, args: seq<string>, cluster: string, told: seq<Outcome>) returns (more: seq<Outcome>)
    requires args != [] && !NonOption(args[0]) && cluster != ""
    ensures more == told + [ShortOutcome(t.optstring, cluster[0], cluster[1..], NextOf(args))]
    ensures var left := LeftOver(t.optstring, cluster);
            told + StillToCome(t, args, cluster)
              == more + StillToCome(t, if left != "" then args else args[Width(t, args)..], left)
  {
    var outcome := ShortOutcome(t.optstring, cluster[0], cluster[1..], NextOf(args));
    var left := LeftOver(t.optstring, cluster);
    more := told + [outcome];
    ShortIsNext(t, args, cluster);
    ToldOneMore(told, outcome, StillToCome(t, if left != "" then args else args[Width(t, args)..], left));
  }

  lemma ShortWithin(t: Table, p: Point)
    requires p.next != "" && p.ind < |p.argv| && !NonOption(p.argv[p.ind]) && !IsLong(t, p.argv[p.ind])
    requires WithinAt(t, p)
    ensures WithinAt(t, AfterShort(t, p))
  {
  }

  lemma ShortTells(t: Table, p: Point)
    requires p.next != "" && p.ind < |p.argv| && !NonOption(p.argv[p.ind]) && !IsLong(t, p.argv[p.ind])
    requires WithinAt(t, p) && TellingAt(t, p) && WithinAt(t, AfterShort(t, p))
    requires p.ind + Width(t, p.argv[p.ind..]) <= |p.argv|
    ensures TellingAt(t, AfterShort(t, p))
  {
    var args := p.argv[p.ind..];
    var more := ShortTold(t, args, p.next, p.told);
    assert args[Width(t, args)..] == p.argv[p.ind + Width(t, args)..];
  }

  lemma ShortRead(t: Table, p: Point) returns (q: Point)
    requires OptionAt(t, p) && !IsLong(t, p.argv[p.ind])
    ensures p.argv[p.ind..] != [] && !NonOption(p.argv[p.ind..][0]) && q == AfterShort(t, p)
    // compared with true: checked as facts, not conjunct by conjunct
    ensures Stands(t, q) == true && q.ind <= |q.argv| && WithinAt(t, q) && TellingAt(t, q) == true
    ensures q.ind > p.ind || (q.ind == p.ind && q.next != "" && |q.next| < |p.next|)
  {
    q := AfterShort(t, p);
    ShortStands(t, p);
    var w := PassOption(t, p);
    ShortWithin(t, p);
    ShortTells(t, p);
  }

  // ---------- the scanner ----------

  class Scanner {
    const table: Table
    var initialized: bool
    var firstNonopt: nat
    var lastNonopt: nat
    var optind: nat
    var nextchar: string
    ghost var orig: seq<string>
    ghost var told: seq<Outcome>

    ghost function Now(argv: array<string>): Point
      reads this, argv
    {
      Point(orig, argv[..], firstNonopt, lastNonopt, optind, nextchar, told)
    }

    ghost predicate Scanning(argv: array<string>)
      reads this, argv
    {
      initialized && Stands(table, Now(argv))
    }

    ghost predicate Within(argv: array<string>)
      reads this, argv
    {
      WithinAt(table, Now(argv))
    }

    ghost predicate Telling(argv: array<string>)
      requires optind <= argv.Length && Within(argv)
      reads this, argv
    {
      TellingAt(table, Now(argv))
    }

    /** Not used yet, or between two calls of one scan. */
    ghost predicate Ready(argv: array<string>)
      reads this, argv
    {
      if initialized then Scanning(argv) && Within(argv) && Telling(argv) else optind <= 1 && nextchar == ""
    }

    constructor (table: Table)
      ensures this.table == table && !initialized && optind == 1 && nextchar == ""
    {
      this.table := table;
      initialized, firstNonopt, lastNonopt, optind, nextchar, orig, told := false, 0, 0, 1, "", [], [];
    }

    method SwapBlocks(argv: array<string>, x: nat, y: nat, len: nat)
      requires x + len <= y && y + len <= argv.Length
      modifies argv
      ensures AreSwapped(old(argv[..]), argv[..], x, y, len)
    {
      for i := 0 to len
        invariant forall k :: x <= k < x + i ==> argv[k] == old(argv[k - x + y])
        invariant forall k :: y <= k < y + i ==> argv[k] == old(argv[k - y + x])
        invariant forall k :: 0 <= k < argv.Length && !(x <= k < x + i) && !(y <= k < y + i) ==> argv[k] == old(argv[k])
      {
        var tem := argv[x + i];
        argv[x + i] := argv[y + i];
        argv[y + i] := tem;
      }
    }

    /**
     Fewer others than options: the others go to where they belong, at the far end, and what stood there takes their
     place.
     */
    method SwapBottom(argv: array<string>, bottom: nat, middle: nat, top: nat, ghost goal: seq<string>)
        returns (top': nat)
      requires bottom < middle < top <= argv.Length && top - middle > middle - bottom
      requires Aims(argv[..], bottom, middle, top, goal)
      modifies argv
      // compared with true: taken as one fact
      ensures middle <= top' < top && Aims(argv[..], bottom, middle, top', goal) == true
    {
      ghost var s := argv[..];
      var len := middle - bottom;
      top' := top - len;
      SwapBlocks(argv, bottom, top', len);
      BottomAims(s, argv[..], bottom, middle, top', len, goal);
    }

    /** No more options than others: the options go to the front, and as many of the others take their place. */
    method SwapTop(argv: array<string>, bottom: nat, middle: nat, top: nat, ghost goal: seq<string>)
        returns (bottom': nat)
      requires bottom < middle < top <= argv.Length && top - middle <= middle - bottom
      requires Aims(argv[..], bottom, middle, top, goal)
      modifies argv
      // compared with true: taken as one fact
      ensures bottom < bottom' <= middle && Aims(argv[..], bottom', middle, top, goal) == true
    {
      ghost var s := argv[..];
      var len := top - middle;
      SwapBlocks(argv, bottom, middle, len);
      bottom' := bottom + len;
      TopAims(s, argv[..], bottom', middle, top, len, goal);
    }

    /** Exchanges the skipped others with the options behind them, swapping ever smaller blocks in place. */
    method Exchange(argv: array<string>)
      requires firstNonopt <= lastNonopt <= optind <= argv.Length
      modifies `firstNonopt, `lastNonopt, argv
      ensures argv[..] == Exchanged(old(argv[..]), old(firstNonopt), old(lastNonopt), optind)
      ensures firstNonopt == old(firstNonopt) + (optind - old(lastNonopt)) && lastNonopt == optind
    {
      var bottom: nat, middle: nat, top: nat := firstNonopt, lastNonopt, optind;
      ghost var goal := Exchanged(argv[..], bottom, middle, top);
      while top > middle > bottom
        invariant bottom <= middle <= top <= argv.Length
        // compared with true: taken as one fact
        invariant Aims(argv[..], bottom, middle, top, goal) == true
        decreases top - bottom
        modifies argv
      {
        if top - middle > middle - bottom {
          top := SwapBottom(argv, bottom, middle, top, goal);
        } else {
          bottom := SwapTop(argv, bottom, middle, top, goal);
        }
      }
      ExchangedTrivially(argv[..], bottom, middle, top);
      firstNonopt := firstNonopt + (optind - lastNonopt);
      lastNonopt := optind;
    }

    /** Pulls the record of skipped others back behind an index that the caller may have moved back. */
    method Clamp()
      modifies `firstNonopt, `lastNonopt
      ensures lastNonopt == if old(lastNonopt) > optind then optind else old(lastNonopt)
      ensures firstNonopt == if old(firstNonopt) > optind then optind else old(firstNonopt)
    {
      if lastNonopt > optind {
        lastNonopt := optind;
      }
      if firstNonopt > optind {
        firstNonopt := optind;
      }
    }

    /** Brings options just processed before the others that were skipped before them. */
    method Settle(argv: array<string>)
      requires Scanning(argv)
      modifies `firstNonopt, `lastNonopt, argv
      // again checked as one fact
      ensures Underway(table, orig, argv[..], firstNonopt, optind, optind) == true
      ensures argv[optind..] == old(argv[optind..])
    {
      Clamp();
      if firstNonopt != lastNonopt && lastNonopt != optind {
        SettleOthers(argv);
      } else if lastNonopt != optind {
        EmptyUnderway(table, orig, argv[..], firstNonopt, optind);
        firstNonopt := optind;
      }
    }

    method SettleOthers(argv: array<string>)
      requires Underway(table, orig, argv[..], firstNonopt, lastNonopt, optind)
      modifies `firstNonopt, `lastNonopt, argv
      // again checked as one fact
      ensures Underway(table, orig, argv[..], firstNonopt, optind, optind) == true
      ensures argv[optind..] == old(argv[optind..])
    {
      ghost var a, first, last, i := argv[..], firstNonopt, lastNonopt, optind;
      ghost var r := ExchangedUnderway(table, orig, a, first, last, i);
      Exchange(argv);
      assert argv[..] == r;
      assert argv[..][i..] == argv[i..] && a[i..] == old(argv[i..]);
    }

    /** Skips others and extends the range of others skipped before. */
    method SkipOthers(argv: array<string>)
      requires initialized && Underway(table, orig, argv[..], firstNonopt, optind, optind)
      modifies `optind, `lastNonopt
      ensures Scanning(argv) && lastNonopt == optind && old(optind) <= optind
      ensures optind < argv.Length ==> !NonOption(argv[optind])
      ensures optind == old(optind) ==> argv[optind..] == old(argv[optind..])
      ensures Outcomes(table, argv[optind..]) == Outcomes(table, old(argv[optind..]))
    {
      ghost var a, given, first, i := argv[..], orig, firstNonopt, optind;
      while optind < argv.Length && NonOption(argv[optind])
        invariant optind == i && old(optind) <= i
        // compared with true: checked as one fact, not conjunct by conjunct
        invariant Underway(table, given, a, first, i, i) == true
        invariant Outcomes(table, a[i..]) == Outcomes(table, a[old(optind)..])
      {
        SkipOther(table, given, a, first, i);
        OtherTellsNothing(table, a, i);
        optind := optind + 1;
        i := i + 1;
      }
      lastNonopt := optind;
      assert argv[..] == a;
    }

    /** Both, one after the other. */
    method PassOthers(argv: array<string>)
      requires Scanning(argv)
      modifies `firstNonopt, `lastNonopt, `optind, argv
      ensures Scanning(argv) && lastNonopt == optind && old(optind) <= optind
      ensures optind < argv.Length ==> !NonOption(argv[optind])
      ensures Outcomes(table, argv[optind..]) == Outcomes(table, old(argv[optind..]))
      ensures optind == old(optind) && optind < argv.Length ==> argv[optind] == old(argv[optind])
    {
      ghost var ahead := argv[optind..];
      Settle(argv);
      assert argv[optind..] == ahead;
      SkipOthers(argv);
      assert optind == old(optind) && optind < argv.Length ==> argv[optind] == argv[optind..][0] == ahead[0];
    }

    /** At the terminator: it goes with the options, and everything behind it is skipped like an other. */
    method TakeTerminator(argv: array<string>)
      requires Scanning(argv) && lastNonopt == optind < argv.Length && argv[optind] == TERMINATOR
      modifies `optind, `firstNonopt, `lastNonopt, argv
      // compared with true: taken as one fact, not conjunct by conjunct
      ensures optind == lastNonopt == argv.Length && Finished(table, orig, argv[..], firstNonopt) == true
    {
      optind := optind + 1;
      if firstNonopt != lastNonopt && lastNonopt != optind {
        TerminatorFirst(argv);
      } else if firstNonopt == lastNonopt {
        NoneBeforeTerminator(table, orig, argv[..], firstNonopt);
        firstNonopt := optind;
      }
      lastNonopt := argv.Length;
      optind := argv.Length;
    }

    /** The others skipped so far change places with the terminator. */
    method TerminatorFirst(argv: array<string>)
      requires 0 < optind && lastNonopt == optind - 1 < argv.Length && firstNonopt < lastNonopt
      requires Underway(table, orig, argv[..], firstNonopt, lastNonopt, lastNonopt) && argv[lastNonopt] == TERMINATOR
      modifies `firstNonopt, `lastNonopt, argv
      // compared with true: taken as one fact, not conjunct by conjunct
      ensures Finished(table, orig, argv[..], firstNonopt) == true
    {
      ghost var r := OthersBeforeTerminator(table, orig, argv[..], firstNonopt, lastNonopt, optind);
      Exchange(argv);
      assert argv[..] == r;
    }

    /** Ends the scan if everything has been looked at. */
    method EndOrGoOn(argv: array<string>) returns (ended: bool)
      requires Scanning(argv) && lastNonopt == optind
      modifies `optind, `firstNonopt, `lastNonopt, argv
      ensures ended ==> Finished(table, orig, argv[..], optind)
      ensures !ended ==> optind == old(optind) && optind < argv.Length && argv[optind] != TERMINATOR
      ensures !ended ==> Scanning(argv) && argv[..] == old(argv[..])
      ensures ended ==> Outcomes(table, old(argv[optind..])) == []
      ensures ended == (optind == argv.Length || old(optind) == argv.Length || old(argv[optind]) == TERMINATOR)
    {
      ended := false;
      if optind != argv.Length && argv[optind] == TERMINATOR {
        TakeTerminator(argv);
      } else if optind == argv.Length {
        assert argv[..][optind..] == [];
        FinishedParts(table, orig, argv[..], firstNonopt, optind);
      }
      if optind == argv.Length {
        if firstNonopt != lastNonopt {
          optind := firstNonopt;
        }
        ended := true;
      }
    }

    ghost predicate AtStart(argv: array<string>)
      reads this, argv
    {
      StartsAt(table, Now(argv))
    }

    /**
     Moves on to the next option element, or ends the scan. What is left after the loop over others is an
     option, so the branch that would hand a single other to the caller is never taken and left out.
     */
    method ShuffleArgv(argv: array<string>) returns (ret: int)
      requires Scanning(argv) && nextchar == ""
      modifies this, argv
      ensures initialized && orig == old(orig) && argv.Length == |orig|
      ensures ret == -1 || ret == 0
      // compared with true: checked as facts, not conjunct by conjunct
      ensures ret == -1 ==> Finished(table, orig, argv[..], optind) == true
      ensures ret == 0 ==> Scanning(argv) == true && AtStart(argv) == true && old(optind) <= optind
      ensures ret == 0 && optind == old(optind) ==> argv[optind] == old(argv[optind])
      ensures told == old(told)
      ensures Outcomes(table, old(argv[optind..])) == if ret == -1 then [] else Outcomes(table, argv[optind..])
    {
      PassOthers(argv);
      var ended := EndOrGoOn(argv);
      if ended {
        return -1;
      }
      StartOption(argv);
      ret := 0;
    }

    /** Skips the dash, or the two dashes of a long option. */
    method StartOption(argv: array<string>)
      requires Scanning(argv) && optind < argv.Length
      requires !NonOption(argv[optind]) && argv[optind] != TERMINATOR
      modifies `nextchar
      ensures Scanning(argv) && AtStart(argv)
    {
      ghost var a := argv[..];
      var arg := argv[optind];
      if table.longopts.Some? && arg[1] == '-' {
        assert |arg| == 2 ==> arg == TERMINATOR;
        nextchar := arg[2..];
      } else {
        nextchar := arg[1..];
      }
      assert argv[..] == a;
    }

    /** The whole text of a long option, or up to its equals sign. */
    method NameEnd(text: string) returns (nameend: nat)
      ensures nameend == IndexOf(text, '=')
    {
      nameend := 0;
      while nameend < |text| && text[nameend] != '='
        invariant nameend <= IndexOf(text, '=')
      {
        nameend := nameend + 1;
      }
    }

    /** Looks for an exact match or for matches of an abbreviation. */
    method FindLong(longopts: seq<LongOption>, key: string) returns (indfound: Option<nat>, exact: bool, ambig: bool)
      ensures indfound.Some? ==> indfound.value < |longopts|
      ensures MatchOf(longopts, key)
           == if ambig && !exact then Ambiguous else if indfound.Some? then Found(indfound.value) else NotFound
    {
      indfound, exact, ambig := None, false, false;
      var k := 0;
      while k < |longopts|
        invariant 0 <= k <= |longopts| && !exact
        invariant forall j :: 0 <= j < k ==> longopts[j].name != key
        invariant Seen(longopts, key, k, indfound, ambig)
      {
        var p := longopts[k];
        if Abbreviates(key, p.name) {
          if |key| == |p.name| {
            ExactIs(longopts, key, k);
            return Some(k), true, ambig;
          } else if indfound == None {
            indfound := Some(k);
          } else if !Alike(longopts[indfound.value], p) {
            ambig := true;
          }
        }
        k := k + 1;
      }
      SeenAll(longopts, key, indfound, ambig);
    }

    /** A long option: its element is passed, and the next one with it if that is its argument. */
    method CheckLongOpt(argv: array<string>) returns (outcome: Outcome)
      requires optind < argv.Length && !NonOption(argv[optind]) && IsLong(table, argv[optind])
      requires nextchar == argv[optind][2..]
      modifies `optind, `nextchar
      ensures nextchar == "" && optind == old(optind) + Width(table, argv[old(optind)..])
      ensures outcome == LongOutcome(table.optstring, table.longopts.value, old(nextchar), NextOf(argv[old(optind)..]))
    {
      ghost var args := argv[optind..];
      assert args[0] == argv[optind] && (|args| > 1 <==> optind + 1 < argv.Length);
      var longopts := table.longopts.value;
      var nameend := NameEnd(nextchar);
      var text := nextchar;
      var indfound, exact, ambig := FindLong(longopts, text[..nameend]);
      nextchar := "";
      optind := optind + 1;
      if (ambig && !exact) || indfound.None? {
        return Failure(QUESTION, 0);
      }
      var p := longopts[indfound.value];
      var optarg: Option<string> := None;
      if nameend < |text| {
        if p.hasArg == NoArgument {
          return Failure(QUESTION, p.val);
        }
        optarg := Some(text[nameend + 1..]);
      } else if p.hasArg == RequiredArgument {
        if optind == argv.Length {
          return Failure(MissingCode(table.optstring), p.val);
        }
        optarg := Some(argv[optind]);
        optind := optind + 1;
      }
      outcome := LongFound(p, indfound.value, optarg);
    }

    /** One character of a cluster; its last one, or one with an argument, ends the element. */
    method CheckShortOpt(argv: array<string>) returns (outcome: Outcome)
      requires Within(argv) && nextchar != ""
      modifies `optind, `nextchar
      ensures nextchar == LeftOver(table.optstring, old(nextchar))
      ensures optind == if nextchar != "" then old(optind) else old(optind) + Width(table, argv[old(optind)..])
      ensures outcome == ShortOutcome(table.optstring, old(nextchar)[0], old(nextchar)[1..],
                                      NextOf(argv[old(optind)..]))
    {
      ghost var args := argv[optind..];
      assert args[0] == argv[optind] && (|args| > 1 <==> optind + 1 < argv.Length);
      var optstring := table.optstring;
      var c := nextchar[0];
      assert !ClusterTakesNext(optstring, "");
      nextchar := nextchar[1..];
      var temp := IndexOf(optstring, c);
      if nextchar == "" {
        optind := optind + 1;
      }
      if temp == |optstring| || c == ':' {
        return Failure(QUESTION, c as int);
      }
      outcome := Plainly(c as int, None);
      if temp + 1 < |optstring| && optstring[temp + 1] == ':' {
        if temp + 2 < |optstring| && optstring[temp + 2] == ':' {
          if nextchar != "" {
            outcome := Plainly(c as int, Some(nextchar));
            optind := optind + 1;
          }
        } else {
          if nextchar != "" {
            outcome := Plainly(c as int, Some(nextchar));
            optind := optind + 1;
          } else if optind == argv.Length {
            outcome := Failure(MissingCode(optstring), c as int);
          } else {
            outcome := Plainly(c as int, Some(argv[optind]));
            optind := optind + 1;
          }
        }
        nextchar := "";
      }
    }

    method Initialize(argv: array<string>)
      requires 1 <= argv.Length && optind == 1
      modifies `firstNonopt, `lastNonopt, `nextchar, `initialized, `orig, `told
      ensures orig == argv[..] && Scanning(argv) && nextchar == "" && told == []
      ensures Telling(argv)
    {
      firstNonopt, lastNonopt := optind, optind;
      nextchar := "";
      initialized := true;
      orig, told := argv[..], [];
      ghost var d := Divide(table, orig[1..]);
      assert argv[..][1..1] + argv[..][1..1] + d.options == d.options && argv[..][1..1] + d.others == d.others;
      assert orig[1..] == argv[..][1..] && [] + Outcomes(table, argv[..][1..]) == Outcomes(table, argv[..][1..]);
    }

    /** What is left to read of the element at the scan's index. */
    ghost function Ahead(argv: array<string>): nat
      reads this, argv
    {
      if nextchar == "" && optind < argv.Length then |argv[optind]| else |nextchar|
    }

    /**
     Reads one more option and tells of it, or comes to the end. Every other call gets further, within an element or
     past it, and what has been told is always the beginning of what the list as it was given means.
     */
    method GetoptInternal(argv: array<string>) returns (outcome: Option<Outcome>)
      requires Ready(argv) && 1 <= argv.Length
      modifies this, argv
      ensures initialized && orig == if old(initialized) then old(orig) else old(argv[..])
      ensures told == (if old(initialized) then old(told) else []) + if outcome.Some? then [outcome.value] else []
      ensures outcome.None? ==> Finished(table, orig, argv[..], optind) && told == Outcomes(table, orig[1..])
      ensures outcome.Some? ==> Ready(argv) && argv.Length >= optind >= old(optind)
      ensures outcome.Some? ==> optind > old(optind) || Ahead(argv) < old(Ahead(argv))
    {
      Begin(argv);
      outcome := GoOn(argv);
    }

    /** The first call of a scan initializes it. */
    method Begin(argv: array<string>)
      requires Ready(argv) && 1 <= argv.Length
      modifies this
      ensures initialized && Ready(argv) && optind >= old(optind)
      ensures orig == if old(initialized) then old(orig) else argv[..]
      ensures told == if old(initialized) then old(told) else []
      ensures optind > old(optind) || Ahead(argv) == old(Ahead(argv))
    {
      if optind == 0 || !initialized {
        if optind == 0 {
          optind := 1;
        }
        Initialize(argv);
      }
    }

    /** What every call does then. */
    method GoOn(argv: array<string>) returns (outcome: Option<Outcome>)
      requires initialized && Ready(argv)
      modifies this, argv
      ensures initialized && orig == old(orig)
      ensures told == old(told) + if outcome.Some? then [outcome.value] else []
      ensures outcome.None? ==> Finished(table, orig, argv[..], optind) && told == Outcomes(table, orig[1..])
      ensures outcome.Some? ==> Ready(argv) && argv.Length >= optind >= old(optind)
      ensures outcome.Some? ==> optind > old(optind) || Ahead(argv) < old(Ahead(argv))
    {
      if nextchar == "" {
        var ended := ToNextOption(argv);
        if ended {
          return None;
        }
      }
      var o := ReadOption(argv);
      outcome := Some(o);
    }

    /** Between elements: on to the next option, or to the end. */
    method ToNextOption(argv: array<string>) returns (ended: bool)
      requires Scanning(argv) && nextchar == "" && Telling(argv)
      modifies this, argv
      ensures initialized && orig == old(orig) && told == old(told) && argv.Length == |orig|
      ensures ended ==> Finished(table, orig, argv[..], optind) && told == Outcomes(table, orig[1..])
      ensures !ended ==> AtOption(argv) && old(optind) <= optind
      ensures !ended && optind == old(optind) ==> argv[optind] == old(argv[optind])
    {
      var ret := ShuffleArgv(argv);
      ended := ret != 0;
      assert told + [] == told;
      if !ended {
        StartIsOption(table, Now(argv));
      }
    }

    ghost predicate AtOption(argv: array<string>)
      reads this, argv
    {
      initialized && OptionAt(table, Now(argv))
    }

    /** Reads the option that the scan has come to, or the next one of its cluster. */
    method ReadOption(argv: array<string>) returns (outcome: Outcome)
      requires AtOption(argv)
      modifies `optind, `nextchar, `told
      ensures Ready(argv) && argv.Length >= optind && told == old(told) + [outcome]
      ensures optind > old(optind) || (optind == old(optind) && nextchar != "" && |nextchar| < |old(nextchar)|)
    {
      if IsLong(table, argv[optind]) {
        outcome := ReadLong(argv);
      } else {
        outcome := ReadShort(argv);
      }
    }

    /** Where the scan stands at an element or within one, and tells the truth, it may be called again. */
    lemma MayGoOn(argv: array<string>, p: Point)
      requires initialized && Now(argv) == p && Stands(table, p) && p.ind <= |p.argv|
      requires WithinAt(table, p) && TellingAt(table, p)
      ensures Ready(argv)
    {
    }

    method ReadLong(argv: array<string>) returns (outcome: Outcome)
      requires AtOption(argv) && IsLong(table, argv[optind])
      modifies `optind, `nextchar, `told
      ensures Ready(argv) && argv.Length >= optind > old(optind) && told == old(told) + [outcome]
    {
      ghost var p := LongRead(table, Now(argv));
      outcome := CheckLongOpt(argv);
      told := told + [outcome];
      MayGoOn(argv, p);
    }

    method ReadShort(argv: array<string>) returns (outcome: Outcome)
      requires AtOption(argv) && !IsLong(table, argv[optind])
      modifies `optind, `nextchar, `told
      ensures Ready(argv) && argv.Length >= optind && told == old(told) + [outcome]
      ensures optind > old(optind) || (optind == old(optind) && nextchar != "" && |nextchar| < |old(nextchar)|)
    {
      ghost var p := ShortRead(table, Now(argv));
      outcome := CheckShortOpt(argv);
      told := told + [outcome];
      MayGoOn(argv, p);
    }

    /**
     A whole scan: calls until the end. The caller is told exactly what the arguments as they were given mean, option by
     option, and what is left for it are exactly the others.
     */
    method ScanAll(argv: array<string>) returns (outcomes: seq<Outcome>)
      requires !initialized && optind == 1 && nextchar == "" && 1 <= argv.Length
      modifies this, argv
      ensures outcomes == Outcomes(table, old(argv[1..]))
      ensures Finished(table, old(argv[..]), argv[..], optind)
      ensures argv[optind..] == Divide(table, old(argv[1..])).others
      ensures multiset(argv[..]) == multiset(old(argv[..]))
    {
      outcomes := [];
      var ended := false;
      ghost var args := argv[..];
      while !ended
        invariant !ended ==> Ready(argv) && optind <= argv.Length
        invariant if initialized then orig == args && told == outcomes else argv[..] == args && outcomes == []
        invariant ended ==> Finished(table, args, argv[..], optind) && outcomes == Outcomes(table, args[1..])
        decreases !ended, argv.Length - optind, Ahead(argv)
      {
        var outcome := GetoptInternal(argv);
        if outcome.Some? {
          outcomes := outcomes + [outcome.value];
        } else {
          assert outcomes + [] == outcomes;
          ended := true;
        }
      }
      FinishedFacts(table, args, argv[..], optind);
      assert args[1..] == old(argv[1..]);
      assert argv[..][optind..] == argv[optind..];
    }
  }

  lemma ToldOneMore(told: seq<Outcome>, o: Outcome, rest: seq<Outcome>)
    ensures told + ([o] + rest) == told + [o] + rest
  {
  }

  lemma OtherTellsNothing(t: Table, args: seq<string>, i: nat)
    requires i < |args| && NonOption(args[i])
    ensures Outcomes(t, args[i..]) == Outcomes(t, args[i + 1..])
  {
    assert args[i..][1..] == args[i + 1..];
  }

  lemma ClusterIsElement(t: Table, args: seq<string>)
    requires args != [] && !NonOption(args[0]) && args[0] != TERMINATOR && !IsLong(t, args[0])
    ensures Outcomes(t, args) == StillToCome(t, args, args[0][1..])
  {
  }

  /**
   What a search has seen of the first `k` options: the first match among them, and whether another differs from it.
   */
  ghost predicate Seen(longopts: seq<LongOption>, key: string, k: nat, indfound: Option<nat>, ambig: bool)
    requires k <= |longopts|
  {
    match indfound
    case None => !ambig && forall j :: 0 <= j < k ==> !Abbreviates(key, longopts[j].name)
    case Some(i) =>
      && i < k && Abbreviates(key, longopts[i].name)
      && (forall j :: 0 <= j < i ==> !Abbreviates(key, longopts[j].name))
      && (ambig <==> exists j :: 0 <= j < k && Abbreviates(key, longopts[j].name) && !Alike(longopts[i], longopts[j]))
  }

  lemma SeenAll(longopts: seq<LongOption>, key: string, indfound: Option<nat>, ambig: bool)
    requires Seen(longopts, key, |longopts|, indfound, ambig)
    requires forall j :: 0 <= j < |longopts| ==> longopts[j].name != key
    ensures MatchOf(longopts, key)
         == if ambig then Ambiguous else if indfound.Some? then Found(indfound.value) else NotFound
  {
    var some := AbbreviatedIndex(longopts, key);
    assert ExactIndex(longopts, key) == |longopts|;
    if indfound.Some? {
      assert some == indfound.value;
      assert ambig <==> Differs(longopts, key, some);
    }
  }

  lemma ExactIs(longopts: seq<LongOption>, key: string, k: nat)
    requires k < |longopts| && longopts[k].name == key
    requires forall j :: 0 <= j < k ==> longopts[j].name != key
    ensures MatchOf(longopts, key) == Found(k)
  {
    assert ExactIndex(longopts, key) == k;
  }
}
