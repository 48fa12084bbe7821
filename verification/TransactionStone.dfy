/**
 The transaction stone: handler code that tracks which announced messages have arrived. The
 generated program is a class with the program's static variables and the stone's event queue;
 every message received is one run of the program.
 */
module TransactionStone {
  import opened Wrappers

  const PRINT := 2
  const SEND_MISSING := 3
  const IS_IT_DONE := 4
  const NOT_FINISHED := 0
  const FINISHED := 1

  datatype Message =
    | HeadsUp(incoming: int)
    | Simple(id: int, payload: int)
    | Relay(which: int)

  // ---------- what the stone should know, from the messages alone ----------

  ghost predicate Announced(h: seq<Message>, i: int) {
    HeadsUp(i) in h
  }

  ghost predicate Delivered(h: seq<Message>, i: int) {
    exists m :: m in h && m.Simple? && m.id == i
  }

  ghost function Status(h: seq<Message>, i: int): int {
    if Delivered(h, i) then -1 else if Announced(h, i) then 1 else 0
  }

  /** The IDs below `n` that were announced and have not been delivered, ascending. */
  ghost function OutstandingBelow(h: seq<Message>, n: nat): (ids: seq<int>)
    ensures |ids| <= n && forall j :: 0 <= j < |ids| ==> 0 <= ids[j] < n
    ensures forall i :: i in ids <==> 0 <= i < n && Announced(h, i) && !Delivered(h, i)
    ensures forall j, k :: 0 <= j < k < |ids| ==> ids[j] < ids[k]
  {
    if n == 0 then []
    else OutstandingBelow(h, n - 1) + if Status(h, n - 1) == 1 then [n - 1] else []
  }

  /** The program discards a query and a request, and leaves every other relay in the queue. */
  predicate Discarded(which: int) {
    which == IS_IT_DONE || which == SEND_MISSING
  }

  /** The first relay that was left in the queue; from then on the program reads it in place of every other. */
  function Jam(h: seq<Message>): Option<int> {
    if h == [] then None
    else
      var before, m := Jam(h[..|h| - 1]), h[|h| - 1];
      if before.None? && m.Relay? && !Discarded(m.which) then Some(m.which) else before
  }

  /** The code that the program reads when the relay `which` arrives. */
  function CodeRead(h: seq<Message>, which: int): int {
    if Jam(h).Some? then Jam(h).value else which
  }

  /** What `num_missing` becomes when `code` is read: a query or PRINT adds what is outstanding, a request clears it. */
  ghost function CountAfter(missing: nat, code: int, outstanding: nat): nat {
    if code == IS_IT_DONE || code == PRINT then missing + outstanding
    else if code == SEND_MISSING then 0
    else missing
  }

  ghost function MissingAfter(size: nat, h: seq<Message>): nat {
    if h == [] then 0
    else
      var before, m := h[..|h| - 1], h[|h| - 1];
      if m.Relay? then CountAfter(MissingAfter(size, before), CodeRead(before, m.which),
                                  |OutstandingBelow(before, size)|)
      else MissingAfter(size, before)
  }

  /** The data messages with IDs in the table. */
  function Deliveries(size: nat, h: seq<Message>): seq<Message> {
    if h == [] then []
    else
      var m := h[|h| - 1];
      Deliveries(size, h[..|h| - 1]) + if m.Simple? && 0 <= m.id < size then [m] else []
  }

  /**
   The program stays inside its memory: the ID is not the table size, which passes the range check, and as many
   IDs have been counted as are outstanding when they are asked for.
   */
  ghost predicate InMemory(size: nat, h: seq<Message>, m: Message) {
    match m
    case HeadsUp(i) => i != size
    case Simple(i, _) => i != size
    case Relay(which) => CodeRead(h, which) == SEND_MISSING ==> |OutstandingBelow(h, size)| <= MissingAfter(size, h)
  }

  /** Each of some further messages finds the program inside its memory and leaves it there. */
  ghost predicate StaysInMemory(size: nat, h: seq<Message>, more: seq<Message>) {
    forall i :: 0 <= i < |more| ==> InMemory(size, h + more[..i], more[i])
  }

  lemma StatusAfter(h: seq<Message>, m: Message, i: int)
    ensures Delivered(h + [m], i) <==> Delivered(h, i) || (m.Simple? && m.id == i)
    ensures Announced(h + [m], i) <==> Announced(h, i) || m == HeadsUp(i)
  {
    if m.Simple? && m.id == i {
      assert m in h + [m];
    }
    assert forall x :: x in h ==> x in h + [m];
  }

  /** Which messages count is a matter of the message before the last. */
  lemma AfterOne(size: nat, h: seq<Message>, m: Message)
    ensures Deliveries(size, h + [m]) == Deliveries(size, h) + if m.Simple? && 0 <= m.id < size then [m] else []
    ensures MissingAfter(size, h + [m])
         == if m.Relay? then CountAfter(MissingAfter(size, h), CodeRead(h, m.which), |OutstandingBelow(h, size)|)
            else MissingAfter(size, h)
    ensures Jam(h + [m]) == if Jam(h).None? && m.Relay? && !Discarded(m.which) then Some(m.which) else Jam(h)
  {
    assert (h + [m])[..|h|] == h;
  }

  /** The index of the first relay in a queue, or its length. */
  function FirstRelay(queue: seq<Message>): (i: nat)
    ensures i <= |queue| && (i < |queue| ==> queue[i].Relay?)
    ensures forall j :: 0 <= j < i ==> !queue[j].Relay?
  {
    if queue == [] || queue[0].Relay? then 0 else 1 + FirstRelay(queue[1..])
  }

  lemma FirstRelayIs(queue: seq<Message>, i: nat)
    requires i < |queue| && queue[i].Relay? && forall j :: 0 <= j < i ==> !queue[j].Relay?
    ensures FirstRelay(queue) == i
  {
  }

  /** The queue holds no relay, or its first one is the one that jams it. */
  ghost predicate JammedBy(queue: seq<Message>, jam: Option<int>) {
    var i := FirstRelay(queue);
    if jam.None? then i == |queue| else i < |queue| && queue[i] == Relay(jam.value)
  }

  /** The relay that is read when a message has joined the queue. */
  lemma JoinsQueue(queue: seq<Message>, h: seq<Message>, m: Message)
    requires JammedBy(queue, Jam(h))
    ensures var q, i := queue + [m], FirstRelay(queue + [m]);
      && q[..|queue|] == queue
      && (m.Relay? ==> i < |q| && q[i].which == CodeRead(h, m.which))
      && (m.Relay? && Discarded(q[i].which) ==> Without(q, i) == queue && Jam(h + [m]) == Jam(h))
      && (m.Relay? && !Discarded(q[i].which) ==> JammedBy(q, Jam(h + [m])))
      && (!m.Relay? ==> JammedBy(q, Jam(h + [m])) && Jam(h + [m]) == Jam(h))
  {
    AfterOne(0, h, m);
    var i := FirstRelay(queue + [m]);
    if Jam(h).Some? {
      var j := FirstRelay(queue);
      assert forall k :: 0 <= k <= j ==> (queue + [m])[k] == queue[k];
      FirstRelayIs(queue + [m], j);
      JamIsNotDiscarded(h);
    } else {
      assert forall j :: 0 <= j < |queue| ==> (queue + [m])[j] == queue[j];
    }
  }

  lemma {:induction false} JamIsNotDiscarded(h: seq<Message>)
    ensures Jam(h).Some? ==> !Discarded(Jam(h).value)
    decreases |h|
  {
    if h != [] {
      JamIsNotDiscarded(h[..|h| - 1]);
    }
  }

  /** A reply has as many entries as were counted, and begins with the outstanding IDs. */
  ghost predicate IsReply(size: nat, h: seq<Message>, reply: seq<int>) {
    |reply| == MissingAfter(size, h) && OutstandingBelow(h, size) <= reply
  }

  /** What a run of the program sends on port 1: the answer to a query. */
  ghost predicate Answered(before: seq<Message>, after: seq<Message>, size: nat, h: seq<Message>, m: Message) {
    after == if m.Relay? && CodeRead(h, m.which) == IS_IT_DONE then before + [AnswerAfter(h, size)] else before
  }

  ghost function AnswerAfter(h: seq<Message>, size: nat): Message {
    Relay(if OutstandingBelow(h, size) == [] then FINISHED else NOT_FINISHED)
  }

  function Without(queue: seq<Message>, i: nat): seq<Message>
    requires i < |queue|
  {
    queue[..i] + queue[i + 1..]
  }

  /** What it sends on port 2: the reply to a request. */
  ghost predicate Sent(before: seq<seq<int>>, after: seq<seq<int>>, size: nat, h: seq<Message>, m: Message) {
    if m.Relay? && CodeRead(h, m.which) == SEND_MISSING
    then |after| == |before| + 1 && after[..|before|] == before && IsReply(size, h, after[|before|])
    else after == before
  }

  // ---------- the program ----------

  class Stone {
    const size: nat
    var theSize: nat
    var table: array<int>
    var numMissing: int
    var queue: seq<Message>
    var port0: seq<Message>
    var port1: seq<Message>
    var port2: seq<seq<int>>
    var overran: bool
    ghost var history: seq<Message>

    /** The table, the counter and port 0 are what the messages handled so far make them. */
    ghost predicate Tracks(h: seq<Message>)
      reads this, table
    {
      && size > 0 && theSize == size && table.Length == size
      && (forall i :: 0 <= i < size ==> table[i] == Status(h, i))
      && numMissing == MissingAfter(size, h)
      && port0 == Deliveries(size, h)
    }

    /**
     Between messages; before the first, the statics are untouched. Once the program has left its memory nothing
     is known any more.
     */
    ghost predicate Valid()
      reads this, table
    {
      overran ||
      (&& JammedBy(queue, Jam(history))
       && if theSize == 0 then size > 0 && history == [] && numMissing == 0 && port0 == [] else Tracks(history))
    }

    /** The program text is generated for a positive table size; its statics start at 0. */
    constructor (size: nat)
      requires size > 0
      ensures Valid() && this.size == size && history == [] && fresh(table)
      ensures port1 == [] && port2 == [] && !overran
    {
      this.size := size;
      theSize := 0;
      table := new int[0];
      numMissing := 0;
      queue := [];
      port0, port1, port2 := [], [], [];
      overran := false;
      history := [];
    }

    /** The first run allocates the table and clears it. */
    method Initialize()
      requires size > 0 && theSize == 0 && numMissing == 0 && port0 == []
      modifies this`theSize, this`table
      ensures Tracks([]) && fresh(table)
    {
      theSize := size;
      table := new int[theSize];
      for i := 0 to theSize
        invariant theSize == size && table.Length == size && fresh(table)
        invariant forall k :: 0 <= k < i ==> table[k] == 0
        modifies table
      {
        table[i] := 0;
      }
    }

    /**
     One run of the program on the message that has just been queued. It leaves its memory exactly where
     `InMemory` says so.
     */
    method Receive(m: Message)
      requires Valid() && !overran
      modifies this, table
      // compared with true: taken as one fact, not case by case
      ensures Valid() == true && (table == old(table) || fresh(table))
      ensures history == old(history) + [m]
      ensures overran <==> !InMemory(size, old(history), m)
      // compared with true: each taken as one fact, not case by case
      ensures !overran ==> Answered(old(port1), port1, size, old(history), m) == true
      ensures !overran ==> Sent(old(port2), port2, size, old(history), m) == true
    {
      Enqueue(m);
      Dispatch();
      Remember(history + [m]);
    }

    /** From here on `after` is what has been received. */
    ghost method Remember(after: seq<Message>)
      requires overran || (Tracks(after) && JammedBy(queue, Jam(after)))
      modifies this`history
      ensures Valid() && history == after
    {
      history := after;
    }

    /** The message joins the queue, and the first one finds the table allocated. */
    method Enqueue(m: Message)
      requires Valid() && !overran
      modifies this`queue, this`theSize, this`table
      ensures Tracks(history) && (table == old(table) || fresh(table))
      ensures queue == old(queue) + [m] && JammedBy(queue[..|queue| - 1], Jam(history))
    {
      queue := queue + [m];
      assert queue[..|queue| - 1] == old(queue);
      if theSize == 0 {
        Initialize();
      }
    }

    /** What the program does with the last message of the queue. */
    method Dispatch()
      requires Tracks(history) && !overran && queue != [] && JammedBy(queue[..|queue| - 1], Jam(history))
      modifies this`queue, this`port0, this`port1, this`port2, this`numMissing, this`overran, table
      ensures var m := old(queue[|queue| - 1]);
        && (overran <==> !InMemory(size, history, m))
        && (!overran ==>
              && Tracks(history + [m]) && JammedBy(queue, Jam(history + [m]))
              && Answered(old(port1), port1, size, history, m) && Sent(old(port2), port2, size, history, m))
    {
      var last := queue[|queue| - 1];
      assert queue == queue[..|queue| - 1] + [last];
      JoinsQueue(queue[..|queue| - 1], history, last);
      match last {
        case HeadsUp(inc) => OnHeadsUp(inc);
        case Simple(id, _) => OnSimple(last, id);
        case Relay(which) => OnRelay(which);
      }
    }

    /** A relay: the program looks at the first one in the queue, whichever has just arrived. */
    method OnRelay(ghost which: int)
      requires Tracks(history) && !overran && FirstRelay(queue) < |queue|
      requires queue[FirstRelay(queue)].which == CodeRead(history, which)
      modifies this`queue, this`port1, this`port2, this`numMissing, this`overran
      ensures overran <==> !InMemory(size, history, Relay(which))
      ensures !overran ==>
        && Tracks(history + [Relay(which)])
        && Answered(old(port1), port1, size, history, Relay(which))
        && Sent(old(port2), port2, size, history, Relay(which))
        && queue == if Discarded(CodeRead(history, which)) then Without(old(queue), FirstRelay(old(queue)))
                    else old(queue)
    {
      var first := FirstRelay(queue);
      var code := queue[first].which;
      if code == IS_IT_DONE || code == PRINT {
        OnQuery(code, first, which);
      } else if code == SEND_MISSING {
        OnRequest(first, which);
      } else {
        RelayTracks(history, which, size);
      }
    }

    method OnHeadsUp(inc: int)
      requires Tracks(history) && !overran && queue != []
      modifies this`queue, this`overran, table
      ensures overran <==> inc == size
      ensures !overran ==> Tracks(history + [HeadsUp(inc)])
      ensures queue
           == if 0 <= inc < size && !Delivered(history, inc) then old(queue)[..|old(queue)| - 1] else old(queue)
    {
      forall i
        ensures Status(history + [HeadsUp(inc)], i)
             == if i == inc && !Delivered(history, i) then 1 else Status(history, i)
      {
        StatusAfter(history, HeadsUp(inc), i);
      }
      AfterOne(size, history, HeadsUp(inc));
      if !(inc < 0 || inc > theSize) {
        if inc == table.Length {
          overran := true;
        } else if table[inc] != -1 {
          table[inc] := 1;
          queue := queue[..|queue| - 1];
        }
      }
    }

    /** Forwarded on port 0, also when it arrives again. */
    method OnSimple(m: Message, id: int)
      requires Tracks(history) && !overran && queue != [] && m == queue[|queue| - 1] && m.Simple? && m.id == id
      modifies this`queue, this`port0, this`overran, table
      ensures overran <==> id == size
      ensures !overran ==> Tracks(history + [m])
      ensures queue == if 0 <= id < size then old(queue)[..|old(queue)| - 1] else old(queue)
    {
      forall i ensures Status(history + [m], i) == if i == id then -1 else Status(history, i) {
        StatusAfter(history, m, i);
      }
      AfterOne(size, history, m);
      if !(id < 0 || id > theSize) {
        if id == table.Length {
          overran := true;
          return;
        }
        if table[id] != -1 {
          table[id] := -1;
        }
        port0 := port0 + [m];
        queue := queue[..|queue| - 1];
      }
    }

    /** Counts what is outstanding; IS_IT_DONE is sent back with the answer, PRINT stays. */
    method OnQuery(code: int, first: nat, ghost which: int)
      requires Tracks(history) && first < |queue| && code == CodeRead(history, which)
      requires code == IS_IT_DONE || code == PRINT
      modifies this`queue, this`port1, this`numMissing
      ensures Tracks(history + [Relay(which)])
      ensures Answered(old(port1), port1, size, history, Relay(which))
      ensures queue == if Discarded(code) then Without(old(queue), first) else old(queue)
    {
      RelayTracks(history, which, size);
      var isDone := CountMissing(history + [Relay(which)]);
      if code == IS_IT_DONE {
        port1 := port1 + [Relay(isDone)];
        queue := queue[..first] + queue[first + 1..];
      }
    }

    /** The loop over the table that a query begins with; `after` is a history with as much more counted. */
    method CountMissing(ghost after: seq<Message>) returns (isDone: int)
      requires Tracks(history) && Deliveries(size, after) == Deliveries(size, history)
      requires forall i :: Status(after, i) == Status(history, i)
      requires MissingAfter(size, after) == MissingAfter(size, history) + |OutstandingBelow(history, size)|
      modifies this`numMissing
      ensures Tracks(after) && Relay(isDone) == AnswerAfter(history, size)
    {
      isDone := FINISHED;
      for i := 0 to theSize
        invariant numMissing == old(numMissing) + |OutstandingBelow(history, i)|
        invariant isDone == if OutstandingBelow(history, i) == [] then FINISHED else NOT_FINISHED
        modifies this`numMissing
      {
        if table[i] == 1 {
          isDone := NOT_FINISHED;
          numMissing := numMissing + 1;
        }
      }
    }

    /** SEND_MISSING: fills a buffer of `num_missing` entries with what is outstanding, and clears the count. */
    method OnRequest(first: nat, ghost which: int)
      requires Tracks(history) && !overran && first < |queue| && CodeRead(history, which) == SEND_MISSING
      modifies this`queue, this`port2, this`numMissing, this`overran
      ensures overran <==> |OutstandingBelow(history, size)| > MissingAfter(size, history)
      ensures !overran ==>
        && Tracks(history + [Relay(which)])
        && Sent(old(port2), port2, size, history, Relay(which))
        && queue == Without(old(queue), first)
    {
      var store := new int[numMissing];
      FillStore(store);
      if overran {
        return;
      }
      SendReply(store[..], first, which);
    }

    method SendReply(reply: seq<int>, first: nat, ghost which: int)
      requires Tracks(history) && first < |queue| && CodeRead(history, which) == SEND_MISSING
      requires IsReply(size, history, reply)
      modifies this`queue, this`port2, this`numMissing
      ensures Tracks(history + [Relay(which)]) && queue == Without(old(queue), first)
      ensures Sent(old(port2), port2, size, history, Relay(which))
    {
      RelayTracks(history, which, size);
      queue := queue[..first] + queue[first + 1..];
      port2 := port2 + [reply];
      numMissing := 0;
    }

    /** The loop that fills the buffer; it never looks at the buffer's size. */
    method FillStore(store: array<int>)
      requires Tracks(history) && !overran && store != table
      modifies store, this`overran
      ensures overran <==> |OutstandingBelow(history, size)| > store.Length
      ensures !overran ==> OutstandingBelow(history, size) <= store[..]
    {
      var i := 0;
      ghost var stored: seq<int> := [];
      for count := 0 to theSize
        invariant stored == OutstandingBelow(history, count) && !overran
        invariant i == |stored| <= store.Length && store[..i] == stored
      {
        OutstandingNext(history, count, size);
        if table[count] == 1 && i == store.Length {
          overran := true;
          return;
        }
        i := StoreOne(store, i, count);
        stored := OutstandingBelow(history, count + 1);
      }
      assert store[..][..i] == store[..i];
    }

    method StoreOne(store: array<int>, i: nat, count: nat) returns (i': nat)
      requires count < theSize == table.Length && store != table
      requires i + (if table[count] == 1 then 1 else 0) <= store.Length
      modifies store
      ensures i' == i + (if table[count] == 1 then 1 else 0)
      ensures store[..i'] == old(store[..i]) + if table[count] == 1 then [count] else []
    {
      i' := i;
      if table[count] == 1 {
        store[i] := count;
        i' := i + 1;
      }
    }
  }

  lemma OutstandingNext(h: seq<Message>, count: nat, size: nat)
    requires count < size
    ensures OutstandingBelow(h, count + 1) == OutstandingBelow(h, count) + if Status(h, count) == 1 then [count] else []
    ensures |OutstandingBelow(h, count + 1)| <= |OutstandingBelow(h, size)|
  {
    OutstandingGrows(h, count + 1, size);
  }

  /** A relay changes the count and nothing else. */
  lemma RelayTracks(h: seq<Message>, which: int, size: nat)
    ensures forall i :: Status(h + [Relay(which)], i) == Status(h, i)
    ensures Deliveries(size, h + [Relay(which)]) == Deliveries(size, h)
    ensures MissingAfter(size, h + [Relay(which)])
         == CountAfter(MissingAfter(size, h), CodeRead(h, which), |OutstandingBelow(h, size)|)
  {
    forall i ensures Status(h + [Relay(which)], i) == Status(h, i) {
      StatusAfter(h, Relay(which), i);
    }
    assert (h + [Relay(which)])[..|h|] == h;
  }

  lemma {:induction false} OutstandingGrows(h: seq<Message>, m: nat, n: nat)
    requires m <= n
    ensures OutstandingBelow(h, m) <= OutstandingBelow(h, n)
    decreases n
  {
    if m < n {
      OutstandingGrows(h, m, n - 1);
    }
  }

  // ---------- convergence ----------

  /** The same IDs were announced and the same delivered, in whatever order and however often. */
  ghost predicate SameNews(g: seq<Message>, h: seq<Message>) {
    forall i :: (Announced(g, i) <==> Announced(h, i)) && (Delivered(g, i) <==> Delivered(h, i))
  }

  /** Two stones of one size hold the same table as soon as they have had the same news. */
  lemma TablesConverge(a: Stone, b: Stone)
    requires a.Valid() && b.Valid() && !a.overran && !b.overran
    requires a.size == b.size && a.theSize > 0 && b.theSize > 0
    requires SameNews(a.history, b.history)
    ensures a.table[..] == b.table[..]
  {
    forall i | 0 <= i < a.size
      ensures a.table[i] == b.table[i]
    {
      assert Announced(a.history, i) <==> Announced(b.history, i);
    }
  }

  /** Order does not matter, nor does repetition. */
  lemma NewsIsASet(g: seq<Message>, h: seq<Message>)
    requires forall m :: m in g <==> m in h
    ensures SameNews(g, h)
  {
  }

  /** Deliveries are never forgotten, and nothing delivered is outstanding again. */
  lemma DeliveredForGood(h: seq<Message>, more: seq<Message>, i: int)
    requires Delivered(h, i)
    ensures Delivered(h + more, i) && forall n :: i !in OutstandingBelow(h + more, n)
  {
    var m :| m in h && m.Simple? && m.id == i;
    assert m in h + more;
  }

  // ---------- recovery ----------

  /** The answer is FINISHED exactly if every announced ID has been delivered. */
  lemma FinishedIffAllDelivered(h: seq<Message>, size: nat)
    ensures OutstandingBelow(h, size) == [] <==> forall i :: 0 <= i < size && Announced(h, i) ==> Delivered(h, i)
  {
    if OutstandingBelow(h, size) != [] {
      assert OutstandingBelow(h, size)[0] in OutstandingBelow(h, size);
    } else {
      forall i | 0 <= i < size && Announced(h, i)
        ensures Delivered(h, i)
      {
        assert i !in OutstandingBelow(h, size);
      }
    }
  }

  lemma {:induction false} RelaysBringNoNews(h: seq<Message>, which: int, n: nat)
    ensures OutstandingBelow(h + [Relay(which)], n) == OutstandingBelow(h, n)
  {
    if n > 0 {
      RelaysBringNoNews(h, which, n - 1);
      StatusAfter(h, Relay(which), n - 1);
    }
  }

  /** A jam is for good. */
  lemma {:induction false} JamStays(h: seq<Message>, more: seq<Message>)
    ensures Jam(h).Some? ==> Jam(h + more) == Jam(h)
    ensures Jam(h).None? ==> (Jam(h + more).None? <==> AllDiscarded(more))
    decreases |more|
  {
    if more == [] {
      assert h + more == h;
    } else {
      var front, m := more[..|more| - 1], more[|more| - 1];
      JamStays(h, front);
      assert h + more == (h + front) + [m] && more == front + [m];
      AfterOne(0, h + front, m);
    }
  }

  /** All relays among these messages are discarded by the program. */
  predicate AllDiscarded(h: seq<Message>) {
    forall m :: m in h && m.Relay? ==> Discarded(m.which)
  }

  /**
   The stone answers queries and requests as long as every relay so far was one or the other; one PRINT, or
   one relay with a code it does not know, and it never answers either again.
   */
  lemma SilencedIffStrayRelay(h: seq<Message>, more: seq<Message>, which: int)
    requires Discarded(which)
    ensures CodeRead(h, which) == which <==> AllDiscarded(h)
    ensures !AllDiscarded(h) ==> !Discarded(CodeRead(h + more, which))
  {
    JamStays([], h);
    assert [] + h == h;
    JamStays(h, more);
    JamIsNotDiscarded(h);
  }

  /** Data and announcements. */
  predicate IsNews(h: seq<Message>) {
    forall m :: m in h ==> !m.Relay?
  }

  /** `k` queries in a row. */
  function Queries(k: nat): seq<Message> {
    seq(k, _ => Relay(IS_IT_DONE))
  }

  lemma {:induction false} CountAfterQueries(size: nat, h: seq<Message>, k: nat)
    requires Jam(h).None?
    ensures OutstandingBelow(h + Queries(k), size) == OutstandingBelow(h, size) && Jam(h + Queries(k)).None?
    ensures MissingAfter(size, h + Queries(k)) == MissingAfter(size, h) + k * |OutstandingBelow(h, size)|
  {
    if k == 0 {
      assert h + Queries(0) == h;
    } else {
      var before := h + Queries(k - 1);
      CountAfterQueries(size, h, k - 1);
      OneMoreQuery(h, k);
      AfterQuery(size, before);
      OnceMore(k, |OutstandingBelow(h, size)|);
    }
  }

  lemma OneMoreQuery(h: seq<Message>, k: nat)
    requires k > 0
    ensures h + Queries(k) == (h + Queries(k - 1)) + [Relay(IS_IT_DONE)]
  {
  }

  lemma AfterQuery(size: nat, h: seq<Message>)
    requires Jam(h).None?
    ensures OutstandingBelow(h + [Relay(IS_IT_DONE)], size) == OutstandingBelow(h, size)
    ensures Jam(h + [Relay(IS_IT_DONE)]).None?
    ensures MissingAfter(size, h + [Relay(IS_IT_DONE)]) == MissingAfter(size, h) + |OutstandingBelow(h, size)|
  {
    AfterOne(size, h, Relay(IS_IT_DONE));
    RelaysBringNoNews(h, IS_IT_DONE, size);
  }

  lemma OnceMore(k: nat, n: nat)
    requires k > 0
    ensures k * n == (k - 1) * n + n
  {
  }

  /** The code that the program read when the `i`-th message arrived, or 0 where that was no relay. */
  function ReadAt(h: seq<Message>, i: nat): int
    requires i < |h|
  {
    if h[i].Relay? then CodeRead(h[..i], h[i].which) else 0
  }

  /** What was outstanding was counted when the `i`-th message arrived, and no request has cleared it since. */
  ghost predicate CountStands(h: seq<Message>, i: int) {
    && 0 <= i < |h| && (ReadAt(h, i) == IS_IT_DONE || ReadAt(h, i) == PRINT)
    && forall j :: i < j < |h| ==> ReadAt(h, j) != SEND_MISSING
  }

  /**
   The count is clear exactly if, since the last request, nothing was ever outstanding when it was counted.
   */
  lemma {:induction false} ClearIffNothingCounted(size: nat, h: seq<Message>)
    ensures MissingAfter(size, h) == 0 <==> forall i :: CountStands(h, i) ==> OutstandingBelow(h[..i], size) == []
    decreases |h|
  {
    if h != [] {
      ClearIffNothingCounted(size, h[..|h| - 1]);
      assert NothingCounted(size, h[..|h| - 1]) <==> MissingAfter(size, h[..|h| - 1]) == 0;
      NothingCountedStep(size, h);
    }
  }

  ghost predicate NothingCounted(size: nat, h: seq<Message>) {
    forall i :: CountStands(h, i) ==> OutstandingBelow(h[..i], size) == []
  }

  lemma NothingCountedStep(size: nat, h: seq<Message>)
    requires h != []
    ensures var last := |h| - 1;
      NothingCounted(size, h) <==>
        && (CountStands(h, last) ==> OutstandingBelow(h[..last], size) == [])
        && (ReadAt(h, last) != SEND_MISSING ==> NothingCounted(size, h[..last]))
  {
    var last := |h| - 1;
    LastReading(h);
    forall i | 0 <= i < last
      ensures h[..last][..i] == h[..i]
    {
    }
    if NothingCounted(size, h) {
      forall i | ReadAt(h, last) != SEND_MISSING && CountStands(h[..last], i)
        ensures OutstandingBelow(h[..last][..i], size) == []
      {
        assert CountStands(h, i);
      }
    }
  }

  lemma LastReading(h: seq<Message>)
    requires h != []
    ensures var last := |h| - 1;
      && (CountStands(h, last) <==> ReadAt(h, last) == IS_IT_DONE || ReadAt(h, last) == PRINT)
      && forall i :: i != last ==> (CountStands(h, i) <==> ReadAt(h, last) != SEND_MISSING && CountStands(h[..last], i))
  {
    var before := h[..|h| - 1];
    forall j | 0 <= j < |before|
      ensures ReadAt(h, j) == ReadAt(before, j)
    {
      assert h[..j] == before[..j];
    }
  }

  /**
   From a clear count, `k` queries and then the request: the program stays inside its memory unless nobody
   asked while something was outstanding, and the reply is exact if and only if there was one query or
   nothing is outstanding. Every further query pads it with as many entries again.
   */
  lemma QueriesThenRequest(size: nat, h: seq<Message>, k: nat, reply: seq<int>)
    requires MissingAfter(size, h) == 0 && Jam(h).None?
    ensures InMemory(size, h + Queries(k), Relay(SEND_MISSING)) <==> k > 0 || OutstandingBelow(h, size) == []
    ensures IsReply(size, h + Queries(k), reply) ==>
      && |reply| == k * |OutstandingBelow(h, size)|
      && (reply == OutstandingBelow(h, size) <==> k == 1 || OutstandingBelow(h, size) == [])
  {
    CountAfterQueries(size, h, k);
    Multiples(k, |OutstandingBelow(h, size)|);
    if IsReply(size, h + Queries(k), reply) {
      PrefixIsWhole(OutstandingBelow(h, size), reply);
    }
  }

  lemma Multiples(k: nat, n: nat)
    ensures k * n >= n <==> k > 0 || n == 0
    ensures k * n == n <==> k == 1 || n == 0
  {
    if k > 0 {
      assert k * n == (k - 1) * n + n && (k - 1) * n >= 0;
      assert k > 1 && n > 0 ==> (k - 1) * n > 0;
    }
  }

  lemma PrefixIsWhole(part: seq<int>, whole: seq<int>)
    requires part <= whole
    ensures whole == part <==> |whole| == |part|
  {
  }

  /**
   From a clear count, one query, any data and announcements, and then the request: the program stays inside its
   memory if and only if no more is outstanding than when it was asked, and the reply is exact if and only
   if as much is.
   */
  lemma NewsBetween(size: nat, h: seq<Message>, news: seq<Message>, reply: seq<int>)
    requires MissingAfter(size, h) == 0 && Jam(h).None? && IsNews(news)
    ensures var all := h + [Relay(IS_IT_DONE)] + news;
            var asked, now := |OutstandingBelow(h, size)|, |OutstandingBelow(all, size)|;
            && (InMemory(size, all, Relay(SEND_MISSING)) <==> now <= asked)
            && (IsReply(size, all, reply) ==> (reply == OutstandingBelow(all, size) <==> now == asked))
  {
    AfterOne(size, h, Relay(IS_IT_DONE));
    NewsKeepsCount(size, h + [Relay(IS_IT_DONE)], news);
  }

  lemma {:induction false} NewsKeepsCount(size: nat, h: seq<Message>, news: seq<Message>)
    requires IsNews(news)
    ensures MissingAfter(size, h + news) == MissingAfter(size, h) && Jam(h + news) == Jam(h)
    decreases |news|
  {
    if news == [] {
      assert h + news == h;
    } else {
      var before, m := news[..|news| - 1], news[|news| - 1];
      NewsKeepsCount(size, h, before);
      assert news == before + [m] && h + news == (h + before) + [m];
      AfterOne(size, h + before, m);
    }
  }

  /** An ID that is first announced between the query and the request takes the program out of its memory. */
  lemma AnnouncedBetween(size: nat, h: seq<Message>, i: int)
    requires MissingAfter(size, h) == 0 && Jam(h).None? && 0 <= i < size && !Announced(h, i) && !Delivered(h, i)
    ensures !InMemory(size, h + [Relay(IS_IT_DONE)] + [HeadsUp(i)], Relay(SEND_MISSING))
  {
    NewsBetween(size, h, [HeadsUp(i)], []);
    RelaysBringNoNews(h, IS_IT_DONE, size);
    StatusAfter(h, Relay(IS_IT_DONE), i);
    OneMoreOutstanding(h + [Relay(IS_IT_DONE)], i, size);
  }

  lemma {:induction false} OneMoreOutstanding(h: seq<Message>, i: int, n: nat)
    requires !Announced(h, i) && !Delivered(h, i)
    ensures |OutstandingBelow(h + [HeadsUp(i)], n)| == |OutstandingBelow(h, n)| + if 0 <= i < n then 1 else 0
  {
    if n > 0 {
      OneMoreOutstanding(h, i, n - 1);
      StatusAfter(h, HeadsUp(i), n - 1);
    }
  }

  /** One query from a clear count: the reply to the request is exactly the outstanding IDs, in ascending order. */
  lemma OneQueryThenRequest(size: nat, h: seq<Message>, reply: seq<int>)
    requires MissingAfter(size, h) == 0 && Jam(h).None?
    ensures InMemory(size, h + [Relay(IS_IT_DONE)], Relay(SEND_MISSING))
    ensures IsReply(size, h + [Relay(IS_IT_DONE)], reply) ==> reply == OutstandingBelow(h, size)
  {
    assert Queries(1) == [Relay(IS_IT_DONE)];
    QueriesThenRequest(size, h, 1, reply);
  }

  /**
   What goes back on port 1 when the program reads a 4: one relay, with a 1 if every announced ID in the table has been
   delivered, and with a 0 if one has not.
   */
  lemma AnswerTells(before: seq<Message>, after: seq<Message>, size: nat, h: seq<Message>, which: int)
    requires Answered(before, after, size, h, Relay(which)) && CodeRead(h, which) == 4
    ensures |after| == |before| + 1 && after[..|before|] == before
    ensures after[|before|] == Relay(1) <==>
              forall i :: 0 <= i < size && HeadsUp(i) in h ==> exists m :: m in h && m.Simple? && m.id == i
    ensures after[|before|] == Relay(0) <==>
              exists i :: 0 <= i < size && HeadsUp(i) in h && forall m :: m in h && m.Simple? ==> m.id != i
  {
    var ids := OutstandingBelow(h, size);
    if ids == [] {
      forall i | 0 <= i < size && HeadsUp(i) in h
        ensures exists m :: m in h && m.Simple? && m.id == i
      {
        assert i !in ids && Announced(h, i);
        assert Delivered(h, i);
      }
    } else {
      assert ids[0] in ids;
      assert Announced(h, ids[0]) && !Delivered(h, ids[0]);
    }
  }

  /** Nothing goes back for any other message. */
  lemma NoAnswer(before: seq<Message>, after: seq<Message>, size: nat, h: seq<Message>, m: Message)
    requires Answered(before, after, size, h, m) && (m.Relay? ==> CodeRead(h, m.which) != 4)
    ensures after == before
  {
  }

  /**
   What goes out on port 2 when the program reads a 3: one list, which begins with the announced and undelivered IDs in
   the table, ascending.
   */
  lemma ReplyTells(before: seq<seq<int>>, after: seq<seq<int>>, size: nat, h: seq<Message>, which: int)
    returns (n: nat)
    requires Sent(before, after, size, h, Relay(which)) && CodeRead(h, which) == 3
    ensures |after| == |before| + 1 && after[..|before|] == before && n <= |after[|before|]|
    ensures forall j, k :: 0 <= j < k < n ==> after[|before|][j] < after[|before|][k]
    ensures forall i :: i in after[|before|][..n] <==>
              0 <= i < size && HeadsUp(i) in h && forall m :: m in h && m.Simple? ==> m.id != i
  {
    var ids, reply := OutstandingBelow(h, size), after[|before|];
    n := |ids|;
    assert reply[..n] == ids;
    assert forall j :: 0 <= j < n ==> reply[j] == ids[j];
  }

  /** Nothing goes out there for any other message. */
  lemma NoReply(before: seq<seq<int>>, after: seq<seq<int>>, size: nat, h: seq<Message>, m: Message)
    requires Sent(before, after, size, h, m) && (m.Relay? ==> CodeRead(h, m.which) != 3)
    ensures after == before
  {
  }

  /** Which code is read: that of the message, as long as every relay was a 3 or a 4. */
  lemma {:induction false} NewestIsRead(h: seq<Message>, which: int)
    requires forall m :: m in h && m.Relay? ==> m.which == 3 || m.which == 4
    ensures CodeRead(h, which) == which && Jam(h).None?
    decreases |h|
  {
    if h != [] {
      assert h == h[..|h| - 1] + [h[|h| - 1]];
      NewestIsRead(h[..|h| - 1], which);
    }
  }

  /** And from the first relay on that was neither, that one's for good. */
  lemma {:induction false} StrayIsRead(h: seq<Message>, i: nat, which: int)
    requires i < |h| && h[i].Relay? && h[i].which != 3 && h[i].which != 4
    requires forall m :: m in h[..i] && m.Relay? ==> m.which == 3 || m.which == 4
    ensures CodeRead(h, which) == h[i].which && Jam(h) == Some(h[i].which)
    decreases |h|
  {
    var front := h[..|h| - 1];
    assert h == front + [h[|h| - 1]];
    if i < |front| {
      assert front[..i] == h[..i];
      StrayIsRead(front, i, which);
    } else {
      assert h[..i] == front;
      NewestIsRead(front, which);
    }
  }

  /** Where a message leaves the program inside its memory. */
  lemma InMemoryIff(size: nat, h: seq<Message>, m: Message)
    ensures m.HeadsUp? ==> (InMemory(size, h, m) <==> m.incoming != size)
    ensures m.Simple? ==> (InMemory(size, h, m) <==> m.id != size)
    ensures m.Relay? && CodeRead(h, m.which) != 3 ==> InMemory(size, h, m)
    ensures m.Relay? && CodeRead(h, m.which) == 3 ==>
              (InMemory(size, h, m) <==> |OutstandingBelow(h, size)| <= MissingAfter(size, h))
  {
  }

  /** What the count is after one more message. */
  lemma CountIs(size: nat, h: seq<Message>, m: Message)
    ensures !m.Relay? ==> MissingAfter(size, h + [m]) == MissingAfter(size, h)
    ensures m.Relay? && (CodeRead(h, m.which) == 4 || CodeRead(h, m.which) == 2) ==>
              MissingAfter(size, h + [m]) == MissingAfter(size, h) + |OutstandingBelow(h, size)|
    ensures m.Relay? && CodeRead(h, m.which) == 3 ==> MissingAfter(size, h + [m]) == 0
    ensures m.Relay? && CodeRead(h, m.which) !in {2, 3, 4} ==> MissingAfter(size, h + [m]) == MissingAfter(size, h)
  {
    AfterOne(size, h, m);
  }

  /** What is forwarded on port 0: every data message with an ID in the table, in order, each time it arrives. */
  lemma {:induction false} ForwardedIs(size: nat, a: seq<Message>, b: seq<Message>)
    ensures Deliveries(size, a + b) == Deliveries(size, a) + Deliveries(size, b)
    ensures |b| == 1 ==> Deliveries(size, b) == if b[0].Simple? && 0 <= b[0].id < size then b else []
    decreases |b|
  {
    if b == [] {
      assert a + b == a;
    } else {
      var front, last := b[..|b| - 1], b[|b| - 1];
      assert b == front + [last] && a + b == (a + front) + [last];
      ForwardedIs(size, a, front);
      AfterOne(size, a + front, last);
      AfterOne(size, front, last);
      if |b| == 1 {
        assert front == [] && b == [last];
      }
    }
  }

  /** Redelivering the reply finishes the transaction: the next query finds nothing outstanding. */
  lemma RedeliveryFinishes(size: nat, h: seq<Message>, again: seq<Message>)
    requires forall m :: m in again ==> m.Simple?
    requires forall i :: i in OutstandingBelow(h, size) ==> exists m :: m in again && m.Simple? && m.id == i
    ensures OutstandingBelow(h + again, size) == []
  {
    var after := h + again;
    forall i | 0 <= i < size && Announced(after, i)
      ensures Delivered(after, i)
    {
      assert HeadsUp(i) in h;
      if Delivered(h, i) {
        DeliveredForGood(h, again, i);
      } else {
        assert i in OutstandingBelow(h, size);
        var m :| m in again && m.Simple? && m.id == i;
        assert m in after;
      }
    }
    FinishedIffAllDelivered(after, size);
  }

  /**
   The whole recovery: a query, a request, and every ID of the reply delivered again. The next query is
   answered FINISHED, and the count is clear for the next recovery. The program gets there without leaving its memory
   exactly if nothing is delivered under the table size for an ID.
   */
  lemma RecoveryFinishes(size: nat, h: seq<Message>, reply: seq<int>, again: seq<Message>)
    requires MissingAfter(size, h) == 0 && Jam(h).None? && IsReply(size, h + [Relay(IS_IT_DONE)], reply)
    requires forall m :: m in again ==> m.Simple?
    requires forall i :: i in reply ==> exists m :: m in again && m.Simple? && m.id == i
    ensures var all := h + [Relay(IS_IT_DONE)] + [Relay(SEND_MISSING)] + again;
      && CodeRead(all, IS_IT_DONE) == IS_IT_DONE && AnswerAfter(all, size) == Relay(FINISHED)
      && MissingAfter(size, all) == 0
    ensures StaysInMemory(size, h, [Relay(IS_IT_DONE), Relay(SEND_MISSING)] + again) <==>
              forall m :: m in again ==> m.id != size
  {
    var asked := h + [Relay(IS_IT_DONE)];
    OneQueryThenRequest(size, h, reply);
    RelaysBringNoNews(h, IS_IT_DONE, size);
    RelaysBringNoNews(asked, SEND_MISSING, size);
    RedeliveryFinishes(size, asked + [Relay(SEND_MISSING)], again);
    AfterOne(size, h, Relay(IS_IT_DONE));
    AfterOne(size, asked, Relay(SEND_MISSING));
    NewsKeepsCount(size, asked + [Relay(SEND_MISSING)], again);
    RecoveryInMemory(size, h, again);
  }

  lemma RecoveryInMemory(size: nat, h: seq<Message>, again: seq<Message>)
    requires InMemory(size, h, Relay(IS_IT_DONE)) && InMemory(size, h + [Relay(IS_IT_DONE)], Relay(SEND_MISSING))
    requires forall m :: m in again ==> m.Simple?
    ensures StaysInMemory(size, h, [Relay(IS_IT_DONE), Relay(SEND_MISSING)] + again) <==>
              forall m :: m in again ==> m.id != size
  {
    var all := [Relay(IS_IT_DONE), Relay(SEND_MISSING)] + again;
    assert all[..0] == [] && h + [] == h && all[..1] == [Relay(IS_IT_DONE)];
    assert InMemory(size, h + all[..0], all[0]) && InMemory(size, h + all[..1], all[1]);
    forall i | 2 <= i < |all|
      ensures all[i] in again && (InMemory(size, h + all[..i], all[i]) <==> all[i].id != size)
    {
      assert all[i] == again[i - 2];
    }
    forall m | m in again
      ensures exists i :: 2 <= i < |all| && all[i] == m
    {
      var k :| 0 <= k < |again| && again[k] == m;
      assert all[k + 2] == m;
    }
  }
}
