/**
 The rolling bucket: a stone that collects a fixed number of events, hands them to an aggregation
 function and drops them. With averaging over five events it publishes what a client without it
 computes for itself.
 */
module Bucket {

  // ---------- consecutive blocks ----------

  /** The full blocks of `n` elements that a stream divides into. */
  function Blocks<E>(s: seq<E>, n: nat): (blocks: seq<seq<E>>)
    requires n > 0
    ensures |blocks| == |s| / n
    decreases |s|
  {
    if |s| < n then []
    else
      assert |s[n..]| / n == |s| / n - 1 by { DropOne(|s|, n); }
      [s[..n]] + Blocks(s[n..], n)
  }

  lemma DropOne(k: nat, n: nat)
    requires n > 0 && k >= n
    ensures (k - n) / n == k / n - 1
  {
    var q, r := k / n, k % n;
    var p, t := (k - n) / n, (k - n) % n;
    assert (p + 1) * n == p * n + n;
    QuotientUnique(n, q, r, p + 1, t);
  }

  lemma QuotientUnique(n: nat, q: int, r: nat, p: int, t: nat)
    requires r < n && t < n && q * n + r == p * n + t
    ensures q == p
  {
    if q > p {
      MultipleGap(n, q, p);
    } else if q < p {
      MultipleGap(n, p, q);
    }
  }

  lemma {:induction false} MultipleGap(n: nat, q: int, p: int)
    requires q > p
    ensures q * n >= p * n + n
    decreases q - p
  {
    assert q * n == (q - 1) * n + n;
    if q - 1 > p {
      MultipleGap(n, q - 1, p);
    }
  }

  /** What has not filled a block yet. */
  function Rest<E>(s: seq<E>, n: nat): (rest: seq<E>)
    requires n > 0
    ensures |rest| < n
    decreases |s|
  {
    if |s| < n then s else Rest(s[n..], n)
  }

  lemma {:induction false} OneMore<E>(s: seq<E>, n: nat, e: E)
    requires n > 0
    ensures if |Rest(s, n)| + 1 == n
            then Blocks(s + [e], n) == Blocks(s, n) + [Rest(s, n) + [e]] && Rest(s + [e], n) == []
            else Blocks(s + [e], n) == Blocks(s, n) && Rest(s + [e], n) == Rest(s, n) + [e]
    decreases |s|
  {
    if |s| < n {
      if |s| + 1 == n {
        assert (s + [e])[..n] == s + [e] && (s + [e])[n..] == [];
        assert Blocks((s + [e])[n..], n) == [];
      }
    } else {
      assert (s + [e])[n..] == s[n..] + [e] && (s + [e])[..n] == s[..n];
      OneMore(s[n..], n, e);
    }
  }

  /** The `k`-th block is the `k`-th run of `n` consecutive elements, and the rest is what follows them. */
  lemma {:induction false} BlockAt<E>(s: seq<E>, n: nat, k: nat)
    requires n > 0 && k < |Blocks(s, n)|
    ensures k * n + n <= |s| && Blocks(s, n)[k] == s[k * n..k * n + n]
    decreases |s|
  {
    if k > 0 {
      BlockAt(s[n..], n, k - 1);
      assert (k - 1) * n + n == k * n;
      assert s[n..][(k - 1) * n..(k - 1) * n + n] == s[k * n..k * n + n];
    }
  }

  function MapSeq<E, R>(f: E -> R, s: seq<E>): (r: seq<R>)
    ensures |r| == |s| && forall i :: 0 <= i < |s| ==> r[i] == f(s[i])
  {
    seq(|s|, i requires 0 <= i < |s| => f(s[i]))
  }

  // ---------- the bucket program ----------

  /** The generated program's static size and the stone's queue; `out` is what it has submitted on port 0. */
  class BucketStone<E, R> {
    const size: nat
    const func: seq<E> -> R
    var theSize: nat
    var queue: seq<E>
    var out: seq<R>
    ghost var history: seq<E>

    /** Fewer than `size` events wait, and one result has been submitted for every full block. */
    ghost predicate Valid()
      reads this
    {
      && size > 0 && (theSize == 0 || theSize == size)
      && queue == Rest(history, size)
      && out == MapSeq(func, Blocks(history, size))
    }

    constructor (size: nat, func: seq<E> -> R)
      requires size > 0
      ensures Valid() && this.size == size && this.func == func && history == []
    {
      this.size := size;
      this.func := func;
      theSize := 0;
      queue, out, history := [], [], [];
    }

    method Receive(e: E)
      requires Valid()
      modifies this
      ensures Valid() && history == old(history) + [e]
      ensures |queue| < size && |out| == |history| / size
    {
      OneMore(history, size, e);
      queue := queue + [e];
      if theSize == 0 {
        theSize := size;
      }
      if |queue| == theSize {
        out := out + [func(queue)];
        for i := 0 to theSize
          invariant |queue| == theSize - i
          modifies this`queue
        {
          queue := queue[1..];
        }
      }
      history := history + [e];
    }
  }

  /** The `k`-th result is the function of the `k`-th consecutive block of the stream. */
  lemma ResultAt<E, R>(b: BucketStone<E, R>, k: nat)
    requires b.Valid() && k < |b.out|
    ensures k * b.size + b.size <= |b.history|
    ensures b.out[k] == b.func(b.history[k * b.size..k * b.size + b.size])
  {
    BlockAt(b.history, b.size, k);
  }

  // ---------- averaging ----------

  /** A change event of a float entity: the entity's ID and its data. */
  datatype FloatEvent = FloatEvent(entityId: seq<int>, data: seq<real>)

  const WINDOW := 5

  function First(e: FloatEvent): real {
    if e.data == [] then 0.0 else e.data[0]
  }

  function Total(s: seq<FloatEvent>): real {
    if s == [] then 0.0 else Total(s[..|s| - 1]) + First(s[|s| - 1])
  }

  function Average(s: seq<FloatEvent>): real {
    if s == [] then 0.0 else Total(s) / |s| as real
  }

  /** The event that the aggregation function submits: the average, under the ID of the first event. */
  function AverageEvent(s: seq<FloatEvent>): FloatEvent {
    FloatEvent(if s == [] then [] else s[0].entityId, [Average(s)])
  }

  /** The aggregation function's program, on a full queue of well-formed events. */
  method RunAverage(queue: seq<FloatEvent>) returns (newEvent: FloatEvent)
    requires queue != [] && forall e :: e in queue ==> e.data != [] && |e.entityId| == 32
    ensures newEvent == AverageEvent(queue)
  {
    var total := 0.0;
    for i := 0 to |queue|
      invariant total == Total(queue[..i])
    {
      assert queue[..i + 1][..i] == queue[..i] && queue[i] in queue;
      var oldEvent := queue[i];
      total := total + oldEvent.data[0];
    }
    assert queue[..|queue|] == queue;
    var average := total / |queue| as real;
    var oldEvent := queue[0];
    var id: seq<int> := [];
    for i := 0 to 32
      invariant id == oldEvent.entityId[..i]
    {
      id := id + [oldEvent.entityId[i]];
    }
    assert oldEvent.entityId[..32] == oldEvent.entityId;
    newEvent := FloatEvent(id, [average]);
  }

  // ---------- the client that averages for itself ----------

  class WindowClient {
    var count: nat
    const store: array<FloatEvent>
    var logged: seq<real>
    var exited: bool
    ghost var history: seq<FloatEvent>

    ghost predicate Valid()
      reads this, store
    {
      && store.Length == WINDOW && count < WINDOW
      && (!exited ==>
        && store[..count] == Rest(history, WINDOW)
        && logged == MapSeq(Average, Blocks(history, WINDOW)))
      && (exited <==> exists b :: b in Blocks(history, WINDOW) && !AllSingle(b))
    }

    constructor (blank: FloatEvent)
      ensures Valid() && history == [] && !exited && fresh(store)
    {
      count := 0;
      store := new FloatEvent[WINDOW](_ => blank);
      logged, exited, history := [], false, [];
    }

    /** The event handler. It ends the process at the first window that holds an event not of size one. */
    method OnEvent(e: FloatEvent)
      requires Valid() && !exited
      modifies this, store
      ensures Valid() && history == old(history) + [e]
    {
      OneMore(history, WINDOW, e);
      store[count] := e;
      assert store[..count + 1] == old(store[..count]) + [e];
      history := history + [e];
      if count < WINDOW - 1 {
        count := count + 1;
      } else {
        count := 0;
        assert store[..] == store[..WINDOW];
        assert store[..] in Blocks(history, WINDOW);
        LogWindow();
      }
    }

    /** Averages the full store, unless one of its events is malformed. */
    method LogWindow()
      requires store.Length == WINDOW && !exited
      modifies this`logged, this`exited
      ensures exited <==> !AllSingle(store[..])
      ensures !exited ==> logged == old(logged) + [Average(store[..])]
    {
      var total := 0.0;
      for i := 0 to WINDOW
        invariant total == Total(store[..i]) && AllSingle(store[..i])
        modifies this`exited
        invariant !exited
      {
        assert store[..i + 1][..i] == store[..i];
        if |store[i].data| != 1 {
          assert store[i] in store[..];
          exited := true;
          return;
        }
        total := total + store[i].data[0];
      }
      assert store[..WINDOW] == store[..];
      var average := total / WINDOW as real;
      logged := logged + [average];
    }
  }

  ghost predicate AllSingle(s: seq<FloatEvent>) {
    forall e :: e in s ==> |e.data| == 1
  }

  /**
   On the same stream the bucket publishes what the client logs: event by event, the averages are the
   same and come at the same points of the stream.
   */
  lemma BucketPublishesWhatTheClientLogs(b: BucketStone<FloatEvent, FloatEvent>, c: WindowClient)
    requires b.Valid() && c.Valid() && b.history == c.history
    requires b.size == WINDOW && b.func == AverageEvent
    ensures AllSingle(c.history) ==> !c.exited
    ensures !c.exited ==> MapSeq(First, b.out) == c.logged
  {
    if AllSingle(c.history) {
      forall k | 0 <= k < |Blocks(c.history, WINDOW)|
        ensures AllSingle(Blocks(c.history, WINDOW)[k])
      {
        BlockAt(c.history, WINDOW, k);
      }
    }
  }

  /** The average of five events of size one, by their numbers. */
  function FifthOfSum(a: real, b: real, c: real, d: real, e: real): real {
    (a + b + c + d + e) / 5.0
  }

  /** Event `5 * k + j` of a stream. */
  function NumberAt(history: seq<FloatEvent>, k: nat, j: nat): real
    requires 5 * k + j < |history| && history[5 * k + j].data != []
  {
    history[5 * k + j].data[0]
  }

  lemma TotalOfFive(s: seq<FloatEvent>)
    requires |s| == 5 && forall e :: e in s ==> e.data != []
    ensures Average(s) == FifthOfSum(s[0].data[0], s[1].data[0], s[2].data[0], s[3].data[0], s[4].data[0])
  {
    assert s[..4][..3] == s[..3] && s[..3][..2] == s[..2] && s[..2][..1] == s[..1] && s[..1][..0] == [];
    assert Total(s[..1]) == First(s[0]);
    assert Total(s[..2]) == Total(s[..1]) + First(s[1]);
    assert Total(s[..3]) == Total(s[..2]) + First(s[2]);
    assert Total(s[..4]) == Total(s[..3]) + First(s[3]);
    assert forall i :: 0 <= i < 5 ==> s[i] in s;
  }

  /** The client logs the average of events 0 to 4, of events 5 to 9, and so on, each as soon as it has all five. */
  lemma LoggedIsAverageOfFive(c: WindowClient, k: nat)
    requires c.Valid() && !c.exited && k < |c.logged|
    ensures |c.logged| == |c.history| / 5 && 5 * k + 5 <= |c.history|
    ensures forall j :: 5 * k <= j < 5 * k + 5 ==> |c.history[j].data| == 1
    ensures c.logged[k] == FifthOfSum(NumberAt(c.history, k, 0), NumberAt(c.history, k, 1), NumberAt(c.history, k, 2),
                                      NumberAt(c.history, k, 3), NumberAt(c.history, k, 4))
  {
    BlockAt(c.history, WINDOW, k);
    var s := c.history[5 * k..5 * k + 5];
    assert Blocks(c.history, 5)[k] == s;
    assert AllSingle(s);
    forall j | 5 * k <= j < 5 * k + 5
      ensures |c.history[j].data| == 1
    {
      assert s[j - 5 * k] in s;
    }
    TotalOfFive(s);
  }

  /** A bucket of five with the averaging function publishes such an average as one event under the ID of the first. */
  lemma PublishedIsAverageOfFive(b: BucketStone<FloatEvent, FloatEvent>, k: nat)
    requires b.Valid() && b.size == 5 && b.func == AverageEvent && k < |b.out|
    requires forall e :: e in b.history ==> e.data != []
    ensures |b.out| == |b.history| / 5 && 5 * k + 5 <= |b.history|
    ensures b.out[k].entityId == b.history[5 * k].entityId
    ensures var h := b.history;
            b.out[k].data == [FifthOfSum(NumberAt(h, k, 0), NumberAt(h, k, 1), NumberAt(h, k, 2), NumberAt(h, k, 3),
                                         NumberAt(h, k, 4))]
  {
    ResultAt(b, k);
    var s := b.history[5 * k..5 * k + 5];
    assert forall e :: e in s ==> e in b.history;
    TotalOfFive(s);
  }
}
