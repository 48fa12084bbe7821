/**
 Event channels: an object's channels are set up lazily and sometimes more than once, found by first
 match, and may be rerouted through a five-event bucket. Over any run a registered target receives
 exactly what its channel carries from its registration on.
 */
module Proactive {
  import opened Wrappers
  import opened Bucket

  type Stone = nat
  type EventType = nat

  const BUCKET_SIZE := 5

  const ENTITY_BIND_UNBIND: EventType := 4
  const ENTITY_DATA_CHANGE_CHAR: EventType := 5
  const ENTITY_DATA_CHANGE_INT: EventType := 6
  const ENTITY_DATA_CHANGE_FLOAT: EventType := 7

  // ---------- the event network ----------

  /**
   What a stone does with an event: nothing yet, hand it to every target, collect it for a function, or
   pass it to a remote stone.
   */
  datatype Action<!E> =
    | Idle
    | Split(targets: seq<Stone>)
    | Collect(queue: seq<E>, func: seq<E> -> E, output: Stone)
    | Bridge

  /** The connection manager: stones, their actions, and what each bridge has passed on. */
  class Network<E> {
    var next: Stone
    var actions: map<Stone, Action<E>>
    var inbox: map<Stone, seq<E>>

    constructor ()
      ensures next == 0 && actions == map[] && inbox == map[]
    {
      next, actions, inbox := 0, map[], map[];
    }

    method Alloc(action: Action<E>) returns (s: Stone)
      modifies this
      ensures s == old(next) && next == s + 1
      ensures actions == old(actions)[s := action]
      ensures inbox == if action.Bridge? then old(inbox)[s := []] else old(inbox)
    {
      s := next;
      next := next + 1;
      actions := actions[s := action];
      if action.Bridge? {
        inbox := inbox[s := []];
      }
    }

    method Assoc(s: Stone, action: Action<E>)
      modifies this`actions
      ensures actions == old(actions)[s := action]
    {
      actions := actions[s := action];
    }

    method AddSplitTarget(s: Stone, target: Stone)
      requires s in actions && actions[s].Split?
      modifies this`actions
      ensures actions == old(actions)[s := Split(old(actions)[s].targets + [target])]
    {
      actions := actions[s := Split(actions[s].targets + [target])];
    }

    /** A split action: every target gets the event. */
    method Deliver(targets: seq<Stone>, ev: E)
      requires forall t :: t in targets ==> t in inbox
      requires forall i, j :: 0 <= i < j < |targets| ==> targets[i] != targets[j]
      modifies this`inbox
      ensures inbox.Keys == old(inbox).Keys
      ensures forall s :: s in inbox ==> inbox[s] == old(inbox)[s] + if s in targets then [ev] else []
    {
      for i := 0 to |targets|
        invariant inbox.Keys == old(inbox).Keys
        invariant forall s :: s in inbox ==> inbox[s] == old(inbox)[s] + if s in targets[..i] then [ev] else []
      {
        assert targets[i] !in targets[..i];
        assert targets[..i + 1] == targets[..i] + [targets[i]];
        inbox := inbox[targets[i] := inbox[targets[i]] + [ev]];
      }
      assert targets[..|targets|] == targets;
    }

    /** An event collected for a function: the fifth one makes the function run on all five and drops them. */
    method Gather(s: Stone, ev: E)
      requires s in actions && actions[s].Collect? && |actions[s].queue| < BUCKET_SIZE
      requires CanReach(actions[s].output)
      modifies this`actions, this`inbox
      ensures var c := old(actions)[s];
              && actions == old(actions)[s := Collect(QueuedAfter(c.queue, ev), c.func, c.output)]
              && inbox.Keys == old(inbox).Keys
              && forall b :: b in inbox ==>
                   inbox[b] == old(inbox)[b]
                     + if b in old(actions)[c.output].targets then ResultOf(c.queue, c.func, ev) else []
    {
      var c := actions[s];
      var queue := c.queue + [ev];
      var targets := actions[c.output].targets;
      if |queue| < BUCKET_SIZE {
        actions := actions[s := Collect(queue, c.func, c.output)];
      } else {
        actions := actions[s := Collect([], c.func, c.output)];
        Deliver(targets, c.func(queue));
      }
    }

    /** The stone splits to remote stones that exist, each of them once. */
    ghost predicate CanReach(s: Stone)
      reads this
    {
      && s in actions && actions[s].Split?
      && (forall t :: t in actions[s].targets ==> t in inbox)
      && forall i, j :: 0 <= i < j < |actions[s].targets| ==> actions[s].targets[i] != actions[s].targets[j]
    }
  }

  function QueuedAfter<E>(queue: seq<E>, ev: E): seq<E> {
    if |queue| + 1 < BUCKET_SIZE then queue + [ev] else []
  }

  function ResultOf<E>(queue: seq<E>, func: seq<E> -> E, ev: E): seq<E> {
    if |queue| + 1 < BUCKET_SIZE then [] else [func(queue + [ev])]
  }

  // ---------- what a channel carries ----------

  /**
   The history of one event type: what reached the targets before the last rerouting, the function of the
   bucket if there is one, and what has been sent since.
   */
  datatype Channel<!E> = Channel(base: seq<E>, func: Option<seq<E> -> E>, since: seq<E>)

  /** Everything the channel has carried to its targets. */
  function Carried<E>(c: Channel<E>): seq<E> {
    c.base + match c.func
             case None => c.since
             case Some(f) => MapSeq(f, Blocks(c.since, BUCKET_SIZE))
  }

  /** What one more event brings to the targets. */
  function Brings<E>(c: Channel<E>, ev: E): seq<E> {
    match c.func
    case None => [ev]
    case Some(f) => ResultOf(Rest(c.since, BUCKET_SIZE), f, ev)
  }

  lemma CarriedAfter<E>(c: Channel<E>, ev: E)
    ensures Carried(c.(since := c.since + [ev])) == Carried(c) + Brings(c, ev)
  {
    if c.func.Some? {
      OneMore(c.since, BUCKET_SIZE, ev);
    }
  }

  lemma RestAfter<E>(c: Channel<E>, ev: E)
    ensures Rest(c.since + [ev], BUCKET_SIZE) == QueuedAfter(Rest(c.since, BUCKET_SIZE), ev)
  {
    OneMore(c.since, BUCKET_SIZE, ev);
  }

  /** Where a target registered: for which type, and after how much of what that channel has carried. */
  datatype Registration = Registration(eventType: EventType, position: nat)

  function FirstIndex(formats: seq<EventType>, t: EventType): (i: nat)
    ensures i <= |formats|
    ensures i < |formats| ==> formats[i] == t
    ensures forall j :: 0 <= j < i ==> formats[j] != t
  {
    if formats == [] then 0 else if formats[0] == t then 0 else 1 + FirstIndex(formats[1..], t)
  }

  lemma FirstIndexIs(formats: seq<EventType>, t: EventType, i: nat)
    requires i <= |formats| && (i < |formats| ==> formats[i] == t)
    requires forall j :: 0 <= j < i ==> formats[j] != t
    ensures i == FirstIndex(formats, t)
  {
    var k := FirstIndex(formats, t);
    assert i < |formats| && k < |formats| ==> formats[i] == formats[k];
  }

  /** Setting a channel up again never moves the first match. */
  lemma FirstMatchStays(formats: seq<EventType>, t: EventType, u: EventType)
    ensures FirstIndex(formats, t) < |formats| ==> FirstIndex(formats + [u], t) == FirstIndex(formats, t)
    ensures FirstIndex(formats, t) == |formats| && t == u ==> FirstIndex(formats + [u], t) == |formats|
  {
    if FirstIndex(formats, t) < |formats| || t == u {
      FirstIndexIs(formats + [u], t, FirstIndex(formats, t));
    }
  }

  // ---------- what a run of calls means ----------

  /** The meaning of an object's channels: what each has carried, and who registered where. */
  datatype Channels<!E> = Channels(chans: map<EventType, Channel<E>>, registered: map<Stone, Registration>)

  datatype Call<!E> =
    | SetUp(eventType: EventType)
    | Register(eventType: EventType, stone: Stone)
    | Aggregate(eventType: EventType, func: seq<E> -> E)
    | Send(eventType: EventType, event: E)

  /** A channel that was never set up is an empty one. */
  function ChannelOf<E>(v: Channels<E>, t: EventType): Channel<E> {
    if t in v.chans then v.chans[t] else Channel([], None, [])
  }

  function WithChannel<E>(v: Channels<E>, t: EventType, c: Channel<E>): Channels<E> {
    v.(chans := v.chans[t := c])
  }

  /** What one call means. Setting up means nothing for a channel that exists; rerouting drops an unfinished bucket. */
  function Meaning<E>(v: Channels<E>, call: Call<E>): Channels<E> {
    var t := call.eventType;
    var c := ChannelOf(v, t);
    match call
    case SetUp(_) => WithChannel(v, t, c)
    case Register(_, s) =>
      WithChannel(v, t, c).(registered := v.registered[s := Registration(t, |Carried(c)|)])
    case Aggregate(_, f) => WithChannel(v, t, Channel(Carried(c), Some(f), []))
    case Send(_, ev) => WithChannel(v, t, c.(since := c.since + [ev]))
  }

  function Run<E>(v: Channels<E>, calls: seq<Call<E>>): Channels<E>
    decreases |calls|
  {
    if calls == [] then v else Run(Meaning(v, calls[0]), calls[1..])
  }

  /** What a target has received. */
  function Received<E>(v: Channels<E>, s: Stone): seq<E>
    requires s in v.registered && v.registered[s].position <= |Carried(ChannelOf(v, v.registered[s].eventType))|
  {
    Carried(ChannelOf(v, v.registered[s].eventType))[v.registered[s].position..]
  }

  ghost predicate Sound<E>(v: Channels<E>) {
    forall s :: s in v.registered ==>
      && v.registered[s].eventType in v.chans
      && v.registered[s].position <= |Carried(ChannelOf(v, v.registered[s].eventType))|
  }

  /** The events of one type that a run of calls sends. */
  function Sends<E>(calls: seq<Call<E>>, t: EventType): seq<E> {
    if calls == [] then []
    else (if calls[0].Send? && calls[0].eventType == t then [calls[0].event] else []) + Sends(calls[1..], t)
  }

  ghost predicate Reroutes<E>(calls: seq<Call<E>>, t: EventType) {
    exists call :: call in calls && call.Aggregate? && call.eventType == t
  }

  /** Every registration gets a stone of its own. */
  ghost predicate FreshStones<E>(v: Channels<E>, calls: seq<Call<E>>) {
    && (forall call :: call in calls && call.Register? ==> call.stone !in v.registered)
    && forall i, j :: 0 <= i < j < |calls| && calls[i].Register? && calls[j].Register?
        ==> calls[i].stone != calls[j].stone
  }

  lemma MeaningKeepsSound<E>(v: Channels<E>, call: Call<E>)
    requires Sound(v)
    ensures Sound(Meaning(v, call))
    ensures |Carried(ChannelOf(v, call.eventType))| <= |Carried(ChannelOf(Meaning(v, call), call.eventType))|
  {
    var c := ChannelOf(v, call.eventType);
    if call.Send? {
      CarriedAfter(c, call.event);
    }
  }

  /** Between reroutings a channel is changed by nothing but the events sent on it. */
  lemma {:induction false} ChannelAfter<E>(v: Channels<E>, calls: seq<Call<E>>, t: EventType)
    requires !Reroutes(calls, t)
    ensures ChannelOf(Run(v, calls), t)
         == ChannelOf(v, t).(since := ChannelOf(v, t).since + Sends(calls, t))
    decreases |calls|
  {
    if calls == [] {
      assert ChannelOf(v, t).since + [] == ChannelOf(v, t).since;
    } else {
      assert calls[0] in calls;
      var w := Meaning(v, calls[0]);
      OneCallOn(v, calls[0], t);
      ChannelAfter(w, calls[1..], t);
      Associative(ChannelOf(v, t).since, if calls[0].Send? && calls[0].eventType == t then [calls[0].event] else [],
                  Sends(calls[1..], t));
    }
  }

  lemma OneCallOn<E>(v: Channels<E>, call: Call<E>, t: EventType)
    requires !(call.Aggregate? && call.eventType == t)
    ensures ChannelOf(Meaning(v, call), t)
         == ChannelOf(v, t).(since := ChannelOf(v, t).since
                                      + if call.Send? && call.eventType == t then [call.event] else [])
  {
    assert ChannelOf(v, t).since + [] == ChannelOf(v, t).since;
  }

  lemma Associative<E>(a: seq<E>, b: seq<E>, c: seq<E>)
    ensures a + b + c == a + (b + c)
  {
  }

  /** A registration is for good, and runs keep the channels sound. */
  lemma {:induction false} RegistrationStays<E>(v: Channels<E>, calls: seq<Call<E>>)
    requires Sound(v) && FreshStones(v, calls)
    ensures Sound(Run(v, calls))
    ensures forall s :: s in v.registered ==>
              s in Run(v, calls).registered && Run(v, calls).registered[s] == v.registered[s]
    decreases |calls|
  {
    if calls != [] {
      var w := Meaning(v, calls[0]);
      MeaningKeepsSound(v, calls[0]);
      assert calls[0] in calls;
      forall call | call in calls[1..] && call.Register?
        ensures call.stone !in w.registered
      {
        assert call in calls;
        var j :| 0 <= j < |calls[1..]| && calls[1..][j] == call;
        assert calls[j + 1] == call;
      }
      RegistrationStays(w, calls[1..]);
    }
  }

  /**
   Without aggregation a target receives, after what it has already received, exactly the events of its
   type that are sent, in order, whatever else is set up, registered, rerouted or sent in between.
   */
  lemma TargetsReceiveWhatIsSent<E>(v: Channels<E>, calls: seq<Call<E>>, s: Stone)
    requires Sound(v) && FreshStones(v, calls) && s in v.registered
    requires var t := v.registered[s].eventType; !Reroutes(calls, t) && ChannelOf(v, t).func.None?
    ensures Sound(Run(v, calls)) && s in Run(v, calls).registered
    ensures Received(Run(v, calls), s) == Received(v, s) + Sends(calls, v.registered[s].eventType)
  {
    var t := v.registered[s].eventType;
    ChannelAfter(v, calls, t);
    RegistrationStays(v, calls);
    CarriedPlain(ChannelOf(v, t), Sends(calls, t));
    Suffix(Carried(ChannelOf(v, t)), Sends(calls, t), v.registered[s].position);
  }

  lemma CarriedPlain<E>(c: Channel<E>, more: seq<E>)
    requires c.func.None?
    ensures Carried(c.(since := c.since + more)) == Carried(c) + more
  {
    assert c.base + (c.since + more) == c.base + c.since + more;
  }

  lemma Suffix<E>(a: seq<E>, b: seq<E>, k: nat)
    requires k <= |a|
    ensures (a + b)[k..] == a[k..] + b
  {
  }

  /** A target that registers receives exactly what is sent from then on, before or after its object becomes real. */
  lemma RegistrationIsTheStart<E>(v: Channels<E>, t: EventType, s: Stone, calls: seq<Call<E>>)
    requires Sound(v) && FreshStones(v, [Register(t, s)] + calls)
    requires !Reroutes(calls, t) && ChannelOf(v, t).func.None?
    ensures var w := Run(v, [Register(t, s)] + calls);
            Sound(w) && s in w.registered && Received(w, s) == Sends(calls, t)
  {
    var all := [Register(t, s)] + calls;
    var w := Meaning(v, all[0]);
    MeaningKeepsSound(v, all[0]);
    assert all[1..] == calls;
    forall i | 0 <= i < |calls| && calls[i].Register?
      ensures calls[i].stone !in w.registered
    {
      assert all[i + 1] == calls[i] && all[0].Register? && all[i + 1] in all;
    }
    assert FreshStones(w, calls) by {
      forall i, j | 0 <= i < j < |calls| && calls[i].Register? && calls[j].Register?
        ensures calls[i].stone != calls[j].stone
      {
        assert all[i + 1] == calls[i] && all[j + 1] == calls[j];
      }
    }
    assert ChannelOf(w, t) == ChannelOf(v, t);
    assert Received(w, s) == [];
    TargetsReceiveWhatIsSent(w, calls, s);
  }

  /**
   From the moment a channel is rerouted every target, old or new, receives the results of the function
   on the consecutive fives of what is sent; what an earlier bucket still held is never seen.
   */
  lemma ReroutedTargetsReceiveResults<E>(v: Channels<E>, f: seq<E> -> E, calls: seq<Call<E>>, s: Stone)
    requires Sound(v) && FreshStones(v, calls) && s in v.registered
    requires !Reroutes(calls, v.registered[s].eventType)
    ensures var t := v.registered[s].eventType;
            var w := Run(Meaning(v, Aggregate(t, f)), calls);
            && Sound(w) && s in w.registered
            && Received(w, s) == Received(v, s) + MapSeq(f, Blocks(Sends(calls, t), 5))
  {
    var t := v.registered[s].eventType;
    var u := Meaning(v, Aggregate(t, f));
    MeaningKeepsSound(v, Aggregate(t, f));
    RegistrationStays(u, calls);
    CarriedSinceRerouting(v, f, calls, t);
    Suffix(Carried(ChannelOf(v, t)), MapSeq(f, Blocks(Sends(calls, t), 5)), v.registered[s].position);
  }

  lemma CarriedSinceRerouting<E>(v: Channels<E>, f: seq<E> -> E, calls: seq<Call<E>>, t: EventType)
    requires !Reroutes(calls, t)
    ensures Carried(ChannelOf(Run(Meaning(v, Aggregate(t, f)), calls), t))
         == Carried(ChannelOf(v, t)) + MapSeq(f, Blocks(Sends(calls, t), 5))
  {
    ChannelAfter(Meaning(v, Aggregate(t, f)), calls, t);
    assert [] + Sends(calls, t) == Sends(calls, t);
  }

  /** What a rerouted channel has carried since: the function of the first five events, of the next five, and so on. */
  lemma CarriesResultsOfFives<E>(c: Channel<E>, k: nat)
    requires c.func.Some? && 5 * k + 5 <= |c.since|
    ensures |Carried(c)| == |c.base| + |c.since| / 5 && Carried(c)[..|c.base|] == c.base
    ensures |c.base| + k < |Carried(c)| && Carried(c)[|c.base| + k] == c.func.value(c.since[5 * k..5 * k + 5])
  {
    BlockAt(c.since, 5, k);
  }

  // ---------- how an object is wired ----------

  /** The four parallel vectors of an object and the network they point into. */
  datatype Wiring<!E> = Wiring(formats: seq<EventType>, stones: seq<Stone>, splits: seq<Stone>, sources: seq<Stone>,
                               next: Stone, actions: map<Stone, Action<E>>, inbox: map<Stone, seq<E>>)

  ghost predicate StonesOk<E>(w: Wiring<E>) {
    && |w.stones| == |w.splits| == |w.sources| == |w.formats|
    && (forall s :: s in w.actions ==> s < w.next)
    && (forall i :: 0 <= i < |w.stones| ==>
          w.splits[i] == w.stones[i] && w.stones[i] in w.actions && w.actions[w.stones[i]].Split?)
    && forall i, j :: 0 <= i < j < |w.stones| ==> w.stones[i] != w.stones[j]
  }

  ghost predicate Distinct(targets: seq<Stone>) {
    forall i, j :: 0 <= i < j < |targets| ==> targets[i] != targets[j]
  }

  /** The targets are exactly the stones registered for the type, once each. */
  ghost predicate TargetsOk<E>(targets: seq<Stone>, v: Channels<E>, t: EventType) {
    && Distinct(targets)
    && forall s :: s in targets <==> s in v.registered && v.registered[s].eventType == t
  }

  /** The source leads to the split, directly or through a bucket that holds the rest. */
  ghost predicate SourceOk<E>(source: Stone, stone: Stone, actions: map<Stone, Action<E>>, c: Channel<E>) {
    match c.func
    case None => source == stone
    case Some(f) => source in actions && actions[source] == Collect(Rest(c.since, BUCKET_SIZE), f, stone)
  }

  ghost predicate ChannelOk<E>(w: Wiring<E>, v: Channels<E>, t: EventType)
    requires StonesOk(w) && t in w.formats
  {
    var i := FirstIndex(w.formats, t);
    && TargetsOk(w.actions[w.stones[i]].targets, v, t)
    && SourceOk(w.sources[i], w.stones[i], w.actions, ChannelOf(v, t))
  }

  /** A registered stone has received what the meaning of the channels says. */
  ghost predicate InboxOk<E>(w: Wiring<E>, v: Channels<E>, s: Stone)
    requires Sound(v) && s in v.registered
  {
    && s in w.inbox && s in w.actions && w.actions[s].Bridge?
    && w.inbox[s] == Received(v, s)
  }

  ghost predicate Fits<E>(w: Wiring<E>, v: Channels<E>) {
    && StonesOk(w) && Sound(v)
    && (forall t :: t in v.chans <==> t in w.formats)
    && (forall t {:trigger ChannelOk(w, v, t)} :: t in w.formats ==> ChannelOk(w, v, t))
    && forall s {:trigger InboxOk(w, v, s)} :: s in v.registered ==> InboxOk(w, v, s)
  }

  ghost function Appended<E>(w: Wiring<E>, t: EventType): Wiring<E> {
    Wiring(w.formats + [t], w.stones + [w.next], w.splits + [w.next], w.sources + [w.next],
           w.next + 1, w.actions[w.next := Split([])], w.inbox)
  }

  lemma AppendedStones<E>(w: Wiring<E>, t: EventType)
    requires StonesOk(w)
    ensures StonesOk(Appended(w, t))
  {
  }

  lemma AppendedFits<E>(w: Wiring<E>, v: Channels<E>, t: EventType)
    requires Fits(w, v)
    ensures Fits(Appended(w, t), Meaning(v, SetUp(t)))
  {
    var w', v' := Appended(w, t), Meaning(v, SetUp(t));
    AppendedStones(w, t);
    MeaningKeepsSound(v, SetUp(t));
    forall u | u in w'.formats
      ensures ChannelOk(w', v', u)
    {
      FirstMatchStays(w.formats, u, t);
      if u in w.formats {
        assert ChannelOk(w, v, u);
        assert ChannelOf(v', u) == ChannelOf(v, u);
        assert w'.actions[w'.stones[FirstIndex(w'.formats, u)]].targets
            == w.actions[w.stones[FirstIndex(w.formats, u)]].targets;
      } else {
        assert ChannelOf(v', u) == Channel([], None, []);
        assert w'.actions[w'.stones[FirstIndex(w'.formats, u)]].targets == [];
      }
    }
    forall s | s in v'.registered
      ensures InboxOk(w', v', s)
    {
      assert InboxOk(w, v, s);
    }
  }

  lemma IdleStoneFits<E>(w: Wiring<E>, v: Channels<E>)
    requires Fits(w, v)
    ensures Fits(w.(next := w.next + 1, actions := w.actions[w.next := Idle]), v)
  {
    var w' := w.(next := w.next + 1, actions := w.actions[w.next := Idle]);
    forall u | u in w'.formats
      ensures ChannelOk(w', v, u)
    {
      assert ChannelOk(w, v, u);
    }
    forall s | s in v.registered
      ensures InboxOk(w', v, s)
    {
      assert InboxOk(w, v, s);
    }
  }

  ghost function Targeted<E>(w: Wiring<E>, t: EventType): Wiring<E>
    requires StonesOk(w) && t in w.formats
  {
    var stone := w.stones[FirstIndex(w.formats, t)];
    w.(next := w.next + 1,
       actions := w.actions[w.next := Bridge][stone := Split(w.actions[stone].targets + [w.next])],
       inbox := w.inbox[w.next := []])
  }

  /** Two types never share a first match. */
  lemma FirstMatchesDiffer<E>(w: Wiring<E>, t: EventType, u: EventType)
    requires StonesOk(w) && t in w.formats && u in w.formats && t != u
    ensures w.stones[FirstIndex(w.formats, t)] != w.stones[FirstIndex(w.formats, u)]
  {
    var i, j := FirstIndex(w.formats, t), FirstIndex(w.formats, u);
    assert w.formats[i] == t && w.formats[j] == u;
  }

  lemma TargetedStones<E>(w: Wiring<E>, v: Channels<E>, t: EventType)
    requires Fits(w, v) && t in w.formats
    ensures StonesOk(Targeted(w, t)) && w.next !in v.registered
  {
    forall r | r in v.registered
      ensures r != w.next
    {
      assert InboxOk(w, v, r);
    }
  }

  lemma TargetedChannel<E>(w: Wiring<E>, v: Channels<E>, t: EventType, u: EventType)
    requires Fits(w, v) && t in w.formats && u in w.formats
    requires StonesOk(Targeted(w, t)) && w.next !in v.registered
    ensures ChannelOk(Targeted(w, t), Meaning(v, Register(t, w.next)), u)
  {
    var s := w.next;
    var w', v' := Targeted(w, t), Meaning(v, Register(t, s));
    assert ChannelOk(w, v, u) && ChannelOf(v', u) == ChannelOf(v, u);
    var stone := w.stones[FirstIndex(w.formats, u)];
    if t != u {
      FirstMatchesDiffer(w, t, u);
      assert w'.actions[stone] == w.actions[stone];
    } else {
      assert w'.actions[stone].targets == w.actions[stone].targets + [s];
    }
  }

  lemma TargetedInbox<E>(w: Wiring<E>, v: Channels<E>, t: EventType, s: Stone)
    requires Fits(w, v) && t in w.formats && (s in v.registered || s == w.next)
    requires Sound(Meaning(v, Register(t, w.next)))
    ensures s in Meaning(v, Register(t, w.next)).registered
    ensures InboxOk(Targeted(w, t), Meaning(v, Register(t, w.next)), s)
  {
    var v' := Meaning(v, Register(t, w.next));
    if s == w.next {
      assert Received(v', s) == [];
    } else {
      assert InboxOk(w, v, s);
      assert ChannelOf(v', v.registered[s].eventType) == ChannelOf(v, v.registered[s].eventType);
    }
  }

  lemma TargetedFits<E>(w: Wiring<E>, v: Channels<E>, t: EventType)
    requires Fits(w, v) && t in w.formats
    ensures Fits(Targeted(w, t), Meaning(v, Register(t, w.next)))
  {
    var w', v' := Targeted(w, t), Meaning(v, Register(t, w.next));
    MeaningKeepsSound(v, Register(t, w.next));
    TargetedStones(w, v, t);
    forall u | u in w'.formats
      ensures ChannelOk(w', v', u)
    {
      TargetedChannel(w, v, t, u);
    }
    forall s | s in v'.registered
      ensures InboxOk(w', v', s)
    {
      TargetedInbox(w, v, t, s);
    }
  }

  ghost function Rerouted<E>(w: Wiring<E>, t: EventType, f: seq<E> -> E, s: Stone): Wiring<E>
    requires StonesOk(w) && t in w.formats && s in w.actions
  {
    var i := FirstIndex(w.formats, t);
    w.(actions := w.actions[s := Collect([], f, w.stones[i])], sources := w.sources[i := s])
  }

  lemma ReroutedStones<E>(w: Wiring<E>, t: EventType, f: seq<E> -> E, s: Stone)
    requires StonesOk(w) && t in w.formats && s in w.actions && w.actions[s].Idle?
    ensures StonesOk(Rerouted(w, t, f, s))
  {
  }

  lemma ReroutedChannel<E>(w: Wiring<E>, v: Channels<E>, t: EventType, f: seq<E> -> E, s: Stone, u: EventType)
    requires Fits(w, v) && t in w.formats && s in w.actions && w.actions[s].Idle? && u in w.formats
    requires StonesOk(Rerouted(w, t, f, s))
    ensures ChannelOk(Rerouted(w, t, f, s), Meaning(v, Aggregate(t, f)), u)
  {
    assert ChannelOk(w, v, u);
    if u != t {
      FirstMatchesDiffer(w, t, u);
      assert ChannelOf(Meaning(v, Aggregate(t, f)), u) == ChannelOf(v, u);
    }
  }

  lemma ReroutedInbox<E>(w: Wiring<E>, v: Channels<E>, t: EventType, f: seq<E> -> E, s: Stone, r: Stone)
    requires Fits(w, v) && t in w.formats && s in w.actions && w.actions[s].Idle? && r in v.registered
    requires Sound(Meaning(v, Aggregate(t, f)))
    ensures InboxOk(Rerouted(w, t, f, s), Meaning(v, Aggregate(t, f)), r)
  {
    assert InboxOk(w, v, r);
    assert Carried(ChannelOf(Meaning(v, Aggregate(t, f)), t)) == Carried(ChannelOf(v, t));
  }

  lemma ReroutedFits<E>(w: Wiring<E>, v: Channels<E>, t: EventType, f: seq<E> -> E, s: Stone)
    requires Fits(w, v) && t in w.formats && s in w.actions && w.actions[s].Idle?
    ensures Fits(Rerouted(w, t, f, s), Meaning(v, Aggregate(t, f)))
  {
    var w', v' := Rerouted(w, t, f, s), Meaning(v, Aggregate(t, f));
    ReroutedStones(w, t, f, s);
    MeaningKeepsSound(v, Aggregate(t, f));
    forall u | u in w'.formats
      ensures ChannelOk(w', v', u)
    {
      ReroutedChannel(w, v, t, f, s, u);
    }
    forall r | r in v'.registered
      ensures InboxOk(w', v', r)
    {
      ReroutedInbox(w, v, t, f, s, r);
    }
  }

  /** The wiring after an event: what the bucket holds and what the targets have received. */
  ghost predicate Delivered<E>(w: Wiring<E>, w': Wiring<E>, v: Channels<E>, t: EventType, ev: E)
    requires StonesOk(w) && t in w.formats
  {
    var i := FirstIndex(w.formats, t);
    var c := ChannelOf(v, t);
    && w' == w.(actions := w'.actions, inbox := w'.inbox)
    && w'.actions == (match c.func
                      case None => w.actions
                      case Some(f) =>
                        var queued := QueuedAfter(Rest(c.since, BUCKET_SIZE), ev);
                        w.actions[w.sources[i] := Collect(queued, f, w.stones[i])])
    && w'.inbox.Keys == w.inbox.Keys
    && forall s :: s in w.inbox ==>
         w'.inbox[s] == w.inbox[s] + if s in w.actions[w.stones[i]].targets then Brings(c, ev) else []
  }

  lemma DeliveredChannel<E>(w: Wiring<E>, w': Wiring<E>, v: Channels<E>, t: EventType, ev: E, u: EventType)
    requires Fits(w, v) && t in w.formats && u in w.formats && Delivered(w, w', v, t, ev)
    ensures StonesOk(w') && ChannelOk(w', Meaning(v, Send(t, ev)), u)
  {
    var v' := Meaning(v, Send(t, ev));
    assert ChannelOk(w, v, u) && ChannelOk(w, v, t);
    assert StonesOk(w');
    RestAfter(ChannelOf(v, t), ev);
    if u != t {
      FirstMatchesDiffer(w, t, u);
      assert ChannelOf(v', u) == ChannelOf(v, u);
    }
  }

  lemma DeliveredInbox<E>(w: Wiring<E>, w': Wiring<E>, v: Channels<E>, t: EventType, ev: E, s: Stone)
    requires Fits(w, v) && t in w.formats && Delivered(w, w', v, t, ev) && s in v.registered
    ensures Sound(Meaning(v, Send(t, ev))) && InboxOk(w', Meaning(v, Send(t, ev)), s)
  {
    var v' := Meaning(v, Send(t, ev));
    var u := v.registered[s].eventType;
    MeaningKeepsSound(v, Send(t, ev));
    assert ChannelOk(w, v, t) && InboxOk(w, v, s);
    if u == t {
      CarriedAfter(ChannelOf(v, t), ev);
      Suffix(Carried(ChannelOf(v, t)), Brings(ChannelOf(v, t), ev), v.registered[s].position);
    } else {
      assert ChannelOf(v', u) == ChannelOf(v, u);
      assert w'.inbox[s] == w.inbox[s] + [];
    }
  }

  lemma DeliveredFits<E>(w: Wiring<E>, w': Wiring<E>, v: Channels<E>, t: EventType, ev: E)
    requires Fits(w, v) && t in w.formats && Delivered(w, w', v, t, ev)
    ensures Fits(w', Meaning(v, Send(t, ev)))
  {
    var v' := Meaning(v, Send(t, ev));
    MeaningKeepsSound(v, Send(t, ev));
    DeliveredChannel(w, w', v, t, ev, t);
    forall u | u in w'.formats
      ensures ChannelOk(w', v', u)
    {
      DeliveredChannel(w, w', v, t, ev, u);
    }
    forall s | s in v'.registered
      ensures InboxOk(w', v', s)
    {
      DeliveredInbox(w, w', v, t, ev, s);
    }
  }

  lemma FreshStone<E>(w: Wiring<E>, v: Channels<E>)
    requires Fits(w, v)
    ensures w.next !in v.registered
  {
    forall s | s in v.registered
      ensures s != w.next
    {
      assert InboxOk(w, v, s);
    }
  }

  lemma TargetsAreThere<E>(w: Wiring<E>, v: Channels<E>, t: EventType)
    requires Fits(w, v) && t in w.formats
    ensures var targets := w.actions[w.stones[FirstIndex(w.formats, t)]].targets;
            Distinct(targets) && forall s :: s in targets ==> s in w.inbox
  {
    assert ChannelOk(w, v, t);
    forall s | s in w.actions[w.stones[FirstIndex(w.formats, t)]].targets
      ensures s in w.inbox
    {
      assert InboxOk(w, v, s);
    }
  }

  /** Every call sets the channel up if need be. */
  lemma SetUpFirst<E>(v: Channels<E>, call: Call<E>)
    ensures Meaning(Meaning(v, SetUp(call.eventType)), call) == Meaning(v, call)
  {
    var t := call.eventType;
    var u := Meaning(v, SetUp(t));
    assert ChannelOf(u, t) == ChannelOf(v, t);
    var c := Meaning(v, call).chans[t];
    assert u.chans[t := c] == v.chans[t := c];
  }

  /** An entity that becomes real sets up four channels, whether its placeholder had them or not. */
  ghost function EntityPromotion<E>(): seq<Call<E>> {
    [SetUp(ENTITY_BIND_UNBIND), SetUp(ENTITY_DATA_CHANGE_CHAR), SetUp(ENTITY_DATA_CHANGE_INT),
     SetUp(ENTITY_DATA_CHANGE_FLOAT)]
  }

  lemma RunOfFour<E>(v: Channels<E>)
    ensures Run(v, EntityPromotion())
         == Meaning(Meaning(Meaning(Meaning(v, SetUp(ENTITY_BIND_UNBIND)), SetUp(ENTITY_DATA_CHANGE_CHAR)),
                            SetUp(ENTITY_DATA_CHANGE_INT)), SetUp(ENTITY_DATA_CHANGE_FLOAT))
  {
    var calls := EntityPromotion<E>();
    var four := calls[1..][1..][1..];
    assert calls[1..][1..][0] == SetUp(ENTITY_DATA_CHANGE_INT) && four == [SetUp(ENTITY_DATA_CHANGE_FLOAT)];
    assert four[1..] == [];
    forall u: Channels<E>
      ensures Run(u, four) == Meaning(u, SetUp(ENTITY_DATA_CHANGE_FLOAT))
    {
      assert Run(u, four) == Run(Meaning(u, four[0]), four[1..]);
    }
  }

  /** Promotion sets up one channel for each kind of event that an entity has. */
  lemma PromotionSetsUp<E>(v: Channels<E>, t: EventType)
    ensures t in Run(v, EntityPromotion()).chans <==> t in v.chans || t == 4 || t == 5 || t == 6 || t == 7
  {
    RunOfFour(v);
  }

  /** Promotion is invisible: no channel changes what it carries and no target receives anything by it. */
  lemma PromotionIsInvisible<E>(v: Channels<E>, t: EventType)
    ensures ChannelOf(Run(v, EntityPromotion()), t) == ChannelOf(v, t)
    ensures Run(v, EntityPromotion()).registered == v.registered
  {
    RunOfFour(v);
  }

  // ---------- the object ----------

  /** An object with channels. The split action of a stone is named by the stone. */
  class Proactive<E> {
    const net: Network<E>
    var formats: seq<EventType>
    var stones: seq<Stone>
    var splits: seq<Stone>
    var sourceHandles: seq<Stone>
    ghost var view: Channels<E>

    ghost function Wired(): Wiring<E>
      reads this, net
    {
      Wiring(formats, stones, splits, sourceHandles, net.next, net.actions, net.inbox)
    }

    ghost predicate Valid()
      reads this, net
    {
      // compared with true: a contract of this predicate is then checked as one fact, not conjunct by conjunct
      Fits(Wired(), view) == true
    }

    constructor ()
      ensures Valid() && fresh(net)
      ensures view == Channels(map[], map[])
    {
      net := new Network();
      formats, stones, splits, sourceHandles := [], [], [], [];
      view := Channels(map[], map[]);
    }

    /** Appends one more channel for a type, whether or not it has one. */
    method SetUpStone(t: EventType)
      requires Valid()
      modifies this, net
      ensures Valid() && view == Meaning(old(view), SetUp(t))
      ensures Wired() == Appended(old(Wired()), t)
    {
      AppendedFits(Wired(), view, t);
      ghost var w := Appended(Wired(), t);
      var s := net.Alloc(Split([]));
      formats, stones, splits, sourceHandles := formats + [t], stones + [s], splits + [s], sourceHandles + [s];
      view := Meaning(view, SetUp(t));
      assert Wired() == w;
    }

    /** What an entity does to its channels when it becomes real: four more set-ups, needed or not. */
    method SetUpEntityStones()
      requires Valid()
      modifies this, net
      ensures Valid() && view == Run(old(view), EntityPromotion())
    {
      ghost var v := view;
      SetUpStone(ENTITY_BIND_UNBIND);
      SetUpStone(ENTITY_DATA_CHANGE_CHAR);
      SetUpStone(ENTITY_DATA_CHANGE_INT);
      SetUpStone(ENTITY_DATA_CHANGE_FLOAT);
      RunOfFour(v);
    }

    /** The first channel set up for a type, or -1. */
    method DetermineStoneSetUp(t: EventType) returns (which: int)
      ensures which == if t in formats then FirstIndex(formats, t) else -1
    {
      if |formats| == 0 {
        return -1;
      }
      var i := 0;
      while i < |formats|
        invariant 0 <= i <= |formats|
        invariant forall j :: 0 <= j < i ==> formats[j] != t
      {
        if formats[i] == t {
          break;
        }
        i := i + 1;
      }
      FirstIndexIs(formats, t, i);
      which := if i == |formats| then -1 else i;
    }

    /** Finds the channel of a type, setting it up if there is none. */
    method Which(t: EventType) returns (which: nat)
      requires Valid()
      modifies this, net
      ensures Valid() && view == Meaning(old(view), SetUp(t))
      ensures t in formats && which == FirstIndex(formats, t)
      ensures Wired() == if t in old(formats) then old(Wired()) else Appended(old(Wired()), t)
    {
      var found := DetermineStoneSetUp(t);
      if found < 0 {
        SetUpStone(t);
        found := DetermineStoneSetUp(t);
      } else {
        assert view.chans == view.chans[t := ChannelOf(view, t)];
      }
      which := found;
    }

    /** Registers a remote target and returns the stone that stands for it. */
    method AddTarget(t: EventType) returns (s: Stone)
      requires Valid()
      modifies this, net
      ensures Valid() && s !in old(view).registered
      ensures view == Meaning(old(view), Register(t, s))
    {
      ghost var v := view;
      var which := Which(t);
      s := Attach(which, t);
      SetUpFirst(v, Register(t, s));
    }

    method Attach(which: nat, ghost t: EventType) returns (s: Stone)
      requires Valid() && t in formats && which == FirstIndex(formats, t)
      modifies `view, net
      ensures Valid() && s !in old(view).registered
      ensures view == Meaning(old(view), Register(t, s))
    {
      TargetedFits(Wired(), view, t);
      FreshStone(Wired(), view);
      ghost var w := Targeted(Wired(), t);
      s := net.Alloc(Bridge);
      net.AddSplitTarget(stones[which], s);
      view := Meaning(view, Register(t, s));
      assert Wired() == w;
    }

    /** Puts a bucket with a function before the channel; the source handle leads to it from now on. */
    method SetAggregateStone(func: seq<E> -> E, t: EventType)
      requires Valid()
      modifies this, net
      ensures Valid() && view == Meaning(old(view), Aggregate(t, func))
    {
      ghost var v := view;
      var s := Reserve();
      var which := Which(t);
      Reroute(which, s, func, t);
      SetUpFirst(v, Aggregate(t, func));
    }

    method Reserve() returns (s: Stone)
      requires Valid()
      modifies net
      ensures Valid() && s in net.actions && net.actions[s].Idle?
    {
      IdleStoneFits(Wired(), view);
      s := net.Alloc(Idle);
    }

    method Reroute(which: nat, s: Stone, func: seq<E> -> E, ghost t: EventType)
      requires Valid() && t in formats && which == FirstIndex(formats, t)
      requires s in net.actions && net.actions[s].Idle?
      modifies this, net
      ensures Valid() && view == Meaning(old(view), Aggregate(t, func))
    {
      ReroutedFits(Wired(), view, t, func, s);
      ghost var w := Rerouted(Wired(), t, func, s);
      net.Assoc(s, Collect([], func, stones[which]));
      sourceHandles := sourceHandles[which := s];
      view := Meaning(view, Aggregate(t, func));
      assert Wired() == w;
    }

    /** Sends an event on the channel of its type. */
    method SendEvent(ev: E, t: EventType)
      requires Valid()
      modifies this, net
      ensures Valid() && view == Meaning(old(view), Send(t, ev))
    {
      ghost var v := view;
      var which := Which(t);
      Submit(sourceHandles[which], ev, t);
      SetUpFirst(v, Send(t, ev));
    }

    method Submit(source: Stone, ev: E, ghost t: EventType)
      requires Valid() && t in formats && source == sourceHandles[FirstIndex(formats, t)]
      modifies net, `view
      ensures Valid() && view == Meaning(old(view), Send(t, ev))
    {
      ghost var w := Wired();
      assert ChannelOk(Wired(), view, t);
      TargetsAreThere(Wired(), view, t);
      if net.actions[source].Split? {
        net.Deliver(net.actions[source].targets, ev);
      } else {
        net.Gather(source, ev);
      }
      DeliveredFits(w, Wired(), view, t, ev);
      view := Meaning(view, Send(t, ev));
    }
  }
}
