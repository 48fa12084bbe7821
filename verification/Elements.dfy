/**
 The dump as a tree of elements. The walk's visitor opens and closes an element for every context and
 every entity it is told about, and reading the file back gives the tree that the calls nest to.
 */
module Elements {
  import opened Wrappers
  import opened NameGraph
  import opened TreeTraverse

  datatype Element = ContextElement(fullName: string, inner: Content) | EntityElement

  datatype Content = Empty | Item(first: Element, rest: Content)

  /** Content that has been read, and the calls behind it. */
  datatype Reading = Reading(content: Content, behind: seq<Visit>)

  /**
   Reads elements up to a closing context tag or the end. A start without its end, or an end of another
   kind or for another path, is not well-formed.
   */
  function Read(calls: seq<Visit>): (r: Option<Reading>)
    ensures r.Some? ==> |r.value.behind| <= |calls|
    decreases |calls|
  {
    if calls == [] || calls[0].EndContext? then Some(Reading(Empty, calls))
    else if calls[0].StartEntity? then
      if |calls| < 2 || calls[1] != EndEntity(calls[0].holder, calls[0].entity, calls[0].path) then None
      else
        match Read(calls[2..])
        case None => None
        case Some(more) => Some(Reading(Item(EntityElement, more.content), more.behind))
    else if calls[0].StartContext? then
      match Read(calls[1..])
      case None => None
      case Some(inner) =>
        if inner.behind == [] || inner.behind[0] != EndContext(calls[0].context, calls[0].path) then None
        else
          match Read(inner.behind[1..])
          case None => None
          case Some(more) => Some(Reading(Item(ContextElement(calls[0].path, inner.content), more.content),
                                          more.behind))
    else None
  }

  // ---------- the element of a node ----------

  function WithEntities(n: nat, more: Content): Content {
    if n == 0 then more else WithEntities(n - 1, Item(EntityElement, more))
  }

  function ElementOf(t: Node): Element {
    ContextElement(t.path, WithEntities(|t.entities|, ContentOf(t.children, Empty)))
  }

  function ContentOf(f: Forest, more: Content): Content {
    match f
    case Nil => more
    case Cons(first, rest) => Item(ElementOf(first), ContentOf(rest, more))
  }

  lemma {:induction false} EntitiesAreRead(c: Id, path: string, entities: seq<Id>, calls: seq<Visit>)
    requires Read(calls).Some?
    ensures Read(EntityEvents(c, path, entities) + calls)
         == Some(Reading(WithEntities(|entities|, Read(calls).value.content), Read(calls).value.behind))
    decreases |entities|
  {
    if entities == [] {
      assert EntityEvents(c, path, entities) + calls == calls;
    } else {
      var front, e := entities[..|entities| - 1], entities[|entities| - 1];
      var pair := [StartEntity(c, e, path), EndEntity(c, e, path)];
      assert (pair + calls)[2..] == calls;
      EntitiesAreRead(c, path, front, pair + calls);
      Associate(EntityEvents(c, path, front), pair, calls);
    }
  }

  lemma ContextIsRead(c: Id, path: string, inside: seq<Visit>, inner: Content, calls: seq<Visit>)
    requires Read(calls).Some?
    requires Read(inside) == Some(Reading(inner, [EndContext(c, path)] + calls))
    ensures Read([StartContext(c, path)] + inside)
         == Some(Reading(Item(ContextElement(path, inner), Read(calls).value.content), Read(calls).value.behind))
  {
    assert ([StartContext(c, path)] + inside)[1..] == inside;
    assert ([EndContext(c, path)] + calls)[1..] == calls;
  }

  lemma EventsInside(t: Node, calls: seq<Visit>)
    ensures Events(t) + calls
         == [StartContext(t.context, t.path)]
            + (EntityEvents(t.context, t.path, t.entities)
               + (EventsAll(t.children) + ([EndContext(t.context, t.path)] + calls)))
  {
  }

  /** The calls for a node read back as its element, whatever comes behind. */
  lemma {:induction false} NodeIsRead(t: Node, calls: seq<Visit>)
    requires Read(calls).Some?
    ensures Read(Events(t) + calls)
         == Some(Reading(Item(ElementOf(t), Read(calls).value.content), Read(calls).value.behind))
    decreases t, 1
  {
    var closing := [EndContext(t.context, t.path)] + calls;
    assert Read(closing) == Some(Reading(Empty, closing));
    ForestIsRead(t.children, closing);
    var below := EventsAll(t.children) + closing;
    EntitiesAreRead(t.context, t.path, t.entities, below);
    ContextIsRead(t.context, t.path, EntityEvents(t.context, t.path, t.entities) + below, ElementOf(t).inner, calls);
    EventsInside(t, calls);
  }

  lemma {:induction false} ForestIsRead(f: Forest, calls: seq<Visit>)
    requires Read(calls).Some?
    ensures Read(EventsAll(f) + calls)
         == Some(Reading(ContentOf(f, Read(calls).value.content), Read(calls).value.behind))
    decreases f, 0
  {
    match f
    case Nil =>
      assert EventsAll(f) + calls == calls;
    case Cons(first, rest) =>
      ForestIsRead(rest, calls);
      NodeIsRead(first, EventsAll(rest) + calls);
      Associate(Events(first), EventsAll(rest), calls);
  }

  /** The calls of a walk nest perfectly: reading them all gives one element, that of the unfolding. */
  lemma WalkIsRead(t: Node)
    ensures Read(Events(t)) == Some(Reading(Item(ElementOf(t), Empty), []))
  {
    NodeIsRead(t, []);
    assert Events(t) + [] == Events(t);
  }
}
