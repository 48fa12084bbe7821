/**
 The engine's objects: contexts and entities with their name maps and referrer lists, and the
 domain that registers them. Every method is proved against the change it makes to the
 domain's state, as NameGraph and Resolution define it.

 One class stands for ContextBindable, Context and Entity; `kind` is the dynamic type. A pointer
 from one object to another is kept as the target's object ID and followed through the
 domain's object map, so a pointer to a deleted object is an ID that the map does not have.
 */
module Directory {
  import opened Wrappers
  import opened Paths
  import opened NameGraph
  import opened Iteration
  import opened Resolution
  import opened ResolutionLaws
  import opened NamingLaws
  import opened FullNames
  import opened Operations
  import opened Announcing

  const NULL_BINDING := Binding(NoBinding, 0)

  /** `find`: the first occurrence, which is the one that `RemoveFirst` takes out. */
  method Find(s: seq<Id>, c: Id) returns (i: nat)
    requires c in s
    ensures i < |s| && s[i] == c && c !in s[..i]
    ensures RemoveFirst(s, c) == s[..i] + s[i + 1..]
  {
    i := 0;
    while s[i] != c
      invariant i < |s| && c in s[i..] && c !in s[..i]
      invariant RemoveFirst(s, c) == s[..i] + RemoveFirst(s[i..], c)
      decreases |s| - i
    {
      NotFoundYet(s, c, i);
      i := i + 1;
    }
    assert s[i..][1..] == s[i + 1..];
  }

  lemma NotFoundYet(s: seq<Id>, c: Id, i: nat)
    requires i < |s| && s[i] != c && c in s[i..] && c !in s[..i]
    requires RemoveFirst(s, c) == s[..i] + RemoveFirst(s[i..], c)
    ensures c in s[i + 1..] && c !in s[..i + 1]
    ensures RemoveFirst(s, c) == s[..i + 1] + RemoveFirst(s[i + 1..], c)
  {
    CutAt(s, i);
    OneOver(s[..i], s[i], RemoveFirst(s[i + 1..], c));
  }

  lemma CutAt(s: seq<Id>, i: nat)
    requires i < |s|
    ensures s[i..] == [s[i]] + s[i + 1..] && s[i..][0] == s[i] && s[i..][1..] == s[i + 1..]
    ensures s[..i + 1] == s[..i] + [s[i]]
    ensures forall c :: c in s[i..] <==> c == s[i] || c in s[i + 1..]
    ensures forall c :: c in s[..i + 1] <==> c == s[i] || c in s[..i]
  {
  }

  lemma OneOver(a: seq<Id>, x: Id, b: seq<Id>)
    ensures a + ([x] + b) == a + [x] + b
  {
  }

  lemma FewerBound(some: map<string, Binding>, all: map<string, Binding>, n: string)
    requires n in all && n !in some
    requires forall m :: m in some ==> m in all && all[m] == some[m]
    ensures |BoundNames(some, all[n].target)| < |BoundNames(all, all[n].target)|
  {
    var x := all[n].target;
    var fewer, more := BoundNames(some, x), BoundNames(all, x);
    assert fewer <= more - {n};
    SubsetSize(fewer, more - {n});
  }

  /** What is created or found as the last component can be announced when it is promoted. */
  lemma CreatedIsPromotable(st: State, c: Id, last: string, kind: Kind, name: string, fl: Flags)
    requires Steppable(st, c, last) && fl.makeNamePath && StepTellable(st.objs, c, last, kind, fl) && c < st.next
    ensures var (mid, x) := LookupOrConstruct(st, c, last, kind, name); Promotable(mid.objs, x, fl)
  {
    if last !in NamesOf(st.objs, c) {
      CreateFacts(st, kind, last, c, name);
      var mid := LookupOrConstruct(st, c, last, kind, name).0;
      if kind == ContextKind && !fl.makePlaceholders {
        AliveGrows(st.objs, mid.objs, c);
        assert HasParent(mid.objs, st.next);
      }
    }
  }

  lemma RealKeepsName(objs: Objects, x: Id)
    requires x in objs && Nameable(objs, x)
    ensures var after := objs[x := objs[x].(placeholder := false, hasAttributes := true)];
            Nameable(after, x) && ToldName(after, x) == ToldName(objs, x)
  {
    var after := objs[x := objs[x].(placeholder := false, hasAttributes := true)];
    SameAlive(objs, after, x);
    ToldNameStays(objs, after, x);
  }

  lemma SetTwice(objs: Objects, x: Id, o: Obj, o': Obj)
    ensures objs[x := o][x := o'] == objs[x := o']
  {
  }

  lemma OneTaken(all: set<string>, left: set<string>, n: string)
    requires n in left
    ensures |all - (left - {n})| == |all - left| + if n in all then 1 else 0
  {
    assert all - (left - {n}) == (all - left) + (all * {n});
    if n in all {
      assert all * {n} == {n};
    }
  }

  /** One round of the walk, seen from the state before it. */
  lemma OneStepOn(st: State, c: Id, tokens: seq<string>, fl: Flags) returns (next: State)
    requires WF(st) && IsContext(st.objs, c) && tokens != [] && CleanTokens(tokens)
    requires Tellable(st.objs, c, tokens, fl)
    ensures next == Step(st, c, tokens[0], fl).0 && Steppable(st, c, tokens[0]) && CleanTokens(tokens[1..])
    ensures StepTellable(st.objs, c, tokens[0], ContextKind, fl)
    // compared with true: taken as one fact, not conjunct by conjunct
    ensures WF(next) == true
    ensures var r := Step(st, c, tokens[0], fl).1;
            && (r.Some? ==> IsContext(next.objs, r.value) && Tellable(next.objs, r.value, tokens[1..], fl))
            && Walk(next, r, tokens[1..], fl) == Walk(st, Some(c), tokens, fl)
  {
    StepThenRest(st, c, tokens, fl);
    StepKeepsWF(st, c, tokens[0], fl);
    StepFacts(st, c, tokens[0], fl);
    next := Step(st, c, tokens[0], fl).0;
  }

  lemma LastOfCreation(st: State, name: string, kind: Kind, initial: Option<Id>, placeholder: bool)
    requires name != [SEPARATOR] && ContextOfName(st, name, initial, Flags(true, placeholder)).1.Some?
    requires SplitName(name).tail.Some?
    ensures var (st1, parent) := ContextOfName(st, name, initial, Flags(true, placeholder));
            var (st2, x) := LookupOrConstruct(st1, parent.value, SplitName(name).tail.value, kind, name);
            ResolveOrCreate(st, name, kind, initial, placeholder)
                == (Promote(st2, x, Flags(true, placeholder)), Some(x))
  {
  }

  class ContextBindable {
    const id: Id
    const kind: Kind
    const myName: string
    const parent: Option<Id>
    const domain: Domain
    var referrers: seq<Id>
    var nameMap: map<string, Binding>
    var isPlaceholder: bool
    var hasAttributes: bool
    var charData: Option<string>

    function Value(): Obj
      reads this
    {
      Obj(kind, myName, parent, referrers, nameMap, isPlaceholder, hasAttributes, charData)
    }

    ghost predicate Live()
      reads this, domain, domain.objects.Values
    {
      domain.Registered() && domain.Has(this)
    }

    /** Registers the object, and counts the parent as its first referrer. */
    constructor (name: string, kind: Kind, d: Domain, parent: Option<Id>)
      requires d.Registered()
      modifies d`objects, d`counter
      ensures d.Registered() && Live() && domain == d && id == old(d.counter)
      ensures d.objects == old(d.objects)[id := this]
      ensures d.View() == Construct(old(d.View()), kind, name, parent)
    {
      this.id := d.counter;
      this.kind := kind;
      this.myName := name;
      this.parent := parent;
      this.domain := d;
      this.nameMap := map[];
      this.isPlaceholder := true;
      this.hasAttributes := false;
      this.charData := None;
      this.referrers := [];
      new;
      d.Insert(this);
      if parent.Some? {
        SetTwice(old(d.View()).objs, id, Value(), NewObj(kind, name, parent));
        assert referrers + [parent.value] == [parent.value];
        SetReferrers(referrers + [parent.value]);
      }
    }

    /** Stores into the name map. */
    method SetNames(names: map<string, Binding>)
      requires Live()
      modifies this`nameMap
      ensures Live()
      ensures domain.View() == old(domain.View()).(objs := WithNames(old(domain.View()).objs, id, names))
      ensures nameMap == names
    {
      nameMap := names;
    }

    method SetReferrers(refs: seq<Id>)
      requires Live()
      modifies this`referrers
      ensures Live()
      ensures domain.View() == old(domain.View()).(
                objs := old(domain.View()).objs[id := old(Value()).(referrers := refs)])
      ensures referrers == refs
    {
      referrers := refs;
    }

    /** Replaces the character data of an entity with a copy of the new data. */
    method SetData(data: string)
      requires Live()
      modifies this`charData
      ensures Live()
      ensures domain.View() == SetCharData(old(domain.View()), id, data)
    {
      charData := Some(data);
    }

    method AddReferrer(c: Id)
      requires Live()
      modifies this`referrers
      ensures Live()
      ensures domain.View() == old(domain.View()).(objs := NameGraph.AddReferrer(old(domain.View()).objs, id, c))
    {
      referrers := referrers + [c];
    }

    /** `find` then `erase`; erasing what was not found is undefined, so the caller must know that it is there. */
    method RemoveReferrer(c: Id)
      requires Live() && c in referrers
      modifies this`referrers
      ensures Live()
      ensures domain.View() == old(domain.View()).(objs := NameGraph.RemoveReferrer(old(domain.View()).objs, id, c))
    {
      var i := Find(referrers, c);
      SetReferrers(referrers[..i] + referrers[i + 1..]);
    }

    method SetReal()
      requires Live()
      modifies this`isPlaceholder, this`hasAttributes
      ensures Live()
      ensures domain.View() == old(domain.View()).(
                objs := old(domain.View()).objs[id := old(Value()).(placeholder := false, hasAttributes := true)])
    {
      ghost var before := domain.View();
      isPlaceholder := false;
      if !hasAttributes {
        hasAttributes := true;
      }
      assert domain.View().objs == before.objs[id := Value()];
    }

    /** The creation event of a context tells its full name, for which the ancestors are gone through. */
    method MakeReal()
      requires Live() && Nameable(domain.View().objs, id)
      modifies this`isPlaceholder, this`hasAttributes, domain`log
      ensures Live()
      ensures domain.View() == NameGraph.MakeReal(old(domain.View()), id)
    {
      ghost var st := domain.View();
      SetReal();
      RealKeepsName(st.objs, id);
      var fullName := NameToTell();
      domain.Send(Created(id, fullName));
    }

    /** What an event about this object tells of its name. */
    method NameToTell() returns (fullName: Option<string>)
      requires Live() && Nameable(domain.View().objs, id)
      ensures fullName == ToldName(domain.View().objs, id)
    {
      assert domain.View().objs[id] == Value();
      if kind == ContextKind {
        var s := GetFullName();
        fullName := Some(s);
      } else {
        fullName := None;
      }
    }

    method Lookup(name: string) returns (bp: Binding)
      ensures bp == if name in nameMap then nameMap[name] else NULL_BINDING
    {
      if name in nameMap {
        bp := nameMap[name];
      } else {
        bp := NULL_BINDING;
      }
    }

    method Bind(name: string, b: Binding, fullName: Option<string>) returns (r: int)
      requires Live() && b.target in domain.objects
      modifies this`nameMap, domain.objects.Values`referrers, domain`log
      ensures Live()
      ensures domain.View()
           == NameGraph.Bind(old(domain.View()), id, name, b, if fullName.Some? then fullName.value else name)
      ensures r == if name in old(nameMap) then 0 else 1
    {
      if name !in nameMap {
        SetNames(nameMap[name := b]);
        domain.objects[b.target].AddReferrer(id);
        domain.Send(BoundIn(id, if fullName.Some? then fullName.value else name));
        r := 1;
      } else {
        r := 0;
      }
    }

    method Unbind(name: string) returns (bp: Binding)
      requires Live()
      requires name in nameMap ==>
        nameMap[name].target in domain.objects && id in domain.objects[nameMap[name].target].referrers
      modifies this`nameMap, domain.objects.Values`referrers
      ensures Live()
      ensures domain.View() == NameGraph.Unbind(old(domain.View()), id, name)
      ensures bp == if name in old(nameMap) then old(nameMap)[name] else NULL_BINDING
    {
      bp := NULL_BINDING;
      if name in nameMap {
        bp := nameMap[name];
        domain.objects[bp.target].RemoveReferrer(id);
        SetNames(nameMap - {name});
      }
    }

    predicate Matches(findit: Binding, name: string)
      requires name in nameMap
      reads this
    {
      if findit.tag != NoBinding then nameMap[name] == findit else nameMap[name].target == findit.target
    }

    /**
     Unbinds the first binding that the map's iteration meets and that matches: one of them, whichever
     the order makes it. Without `notify` the target keeps its referrer.
     */
    method UnbindPair(findit: Binding, notify: bool) returns (bp: Binding, ghost name: string)
      requires Live()
      requires notify ==> forall n :: n in nameMap && Matches(findit, n) ==>
        nameMap[n].target in domain.objects && id in domain.objects[nameMap[n].target].referrers
      modifies this`nameMap, domain.objects.Values`referrers
      ensures Live()
      ensures if exists n :: n in old(nameMap) && old(Matches(findit, n)) then
                && name in old(nameMap) && old(Matches(findit, name)) && bp == old(nameMap)[name]
                && domain.View() == (if notify then NameGraph.Unbind(old(domain.View()), id, name)
                                     else old(domain.View()).(
                                            objs := WithNames(old(domain.View()).objs, id, old(nameMap) - {name})))
              else bp == NULL_BINDING && domain.View() == old(domain.View())
    {
      var left := nameMap.Keys;
      var found := false;
      bp, name := NULL_BINDING, "";
      var n := "";
      while !found && left != {}
        invariant left <= nameMap.Keys
        invariant !found ==> forall m :: m in nameMap && m !in left ==> !Matches(findit, m)
        invariant found ==> n in nameMap && bp == nameMap[n] && Matches(findit, n)
        decreases |left|, !found
      {
        n :| n in left;
        left := left - {n};
        bp := nameMap[n];
        found := Matches(findit, n);
      }
      name := n;
      if found {
        if notify {
          domain.objects[bp.target].RemoveReferrer(id);
        }
        SetNames(nameMap - {n});
      } else {
        bp := NULL_BINDING;
      }
    }

    /** `unbound_from` on the object that round `i` meets, seen as one more step of releasing them all. */
    method ReleaseBinding(order: seq<string>, i: nat, bp: Binding, ghost before: State)
      requires Live() && Covered(before.objs, id)
      requires Enumerates(order, NamesOf(before.objs, id).Keys) && i < |order|
      requires order[i] in NamesOf(before.objs, id) ==> bp == NamesOf(before.objs, id)[order[i]]
      requires domain.View() == before.(objs := Release(before.objs, Met(NamesOf(before.objs, id), order, i), id))
      modifies domain.objects.Values`referrers
      ensures Live()
      ensures domain.View() == before.(objs := Release(before.objs, Met(NamesOf(before.objs, id), order, i + 1), id))
    {
      ghost var names := NamesOf(before.objs, id);
      MetOneMore(names, order, i);
      FewerBound(Met(names, order, i), names, order[i]);
      ReleaseOneMore(before.objs, Met(names, order, i), order[i], bp, id);
      domain.objects[bp.target].RemoveReferrer(id);
    }

    /** Releases everything bound, in whatever order the map iterates. */
    method ReleaseAll()
      requires Live() && Covered(domain.View().objs, id)
      modifies domain.objects.Values`referrers
      ensures Live()
      ensures domain.View() == old(domain.View()).(objs := Release(old(domain.View()).objs, nameMap, id))
    {
      ghost var before := domain.View();
      var names := nameMap;
      var order := HashOrder(names);
      MetNothing(names, order);
      ReleaseNothing(before.objs, id);
      for i := 0 to |order|
        invariant Live()
        invariant domain.View() == before.(objs := Release(before.objs, Met(names, order, i), id))
      {
        assert order[i] in order;
        ReleaseBinding(order, i, names[order[i]], before);
      }
      MetAll(names, order);
    }

    method KillBindings()
      requires Live() && Covered(domain.View().objs, id)
      modifies this`nameMap, domain.objects.Values`referrers
      ensures Live()
      ensures domain.View() == NameGraph.KillBindings(old(domain.View()), id)
    {
      ReleaseAll();
      SetNames(map[]);
    }

    /**
     The destructor: one `unbind` call on every referrer, each removing one binding of this object if
     any is left there; then the object leaves the object map.
     */
    method Destroy()
      requires Live() && Erasable(domain.View().objs, id)
      modifies domain`objects, domain.objects.Values`nameMap, domain.objects.Values`referrers
      ensures domain.Registered() && domain.objects == old(domain.objects) - {id}
      ensures domain.View() == old(domain.View()).(objs := EraseObject(old(domain.View()).objs, id))
    {
      UnbindEverywhere();
      AllUnbound(old(domain.View()).objs, domain.View().objs, id);
      domain.Unregister(id);
    }

    method UnbindEverywhere()
      requires Live() && Erasable(domain.View().objs, id)
      modifies domain.objects.Values`nameMap, domain.objects.Values`referrers
      ensures Live()
      ensures domain.View() == old(domain.View()).(objs := domain.View().objs)
      ensures PartlyUnbound(old(domain.View()).objs, domain.View().objs, id, [])
    {
      NoneUnbound(domain.View().objs, id);
      assert domain.View().objs[id].referrers == referrers;
      UnbindAtEach(referrers, domain.View());
    }

    method UnbindAtEach(refs: seq<Id>, ghost before: State)
      requires Live() && domain.View() == before
      requires forall c :: c in refs ==> c in before.objs
      // compared with true: checked as one fact, not conjunct by conjunct
      requires PartlyUnbound(before.objs, before.objs, id, refs) == true
      modifies domain.objects.Values`nameMap, domain.objects.Values`referrers
      ensures Live()
      ensures domain.View() == before.(objs := domain.View().objs)
      // again checked as one fact
      ensures PartlyUnbound(before.objs, domain.View().objs, id, []) == true
    {
      assert refs[0..] == refs && domain.View() == before.(objs := domain.View().objs);
      for i := 0 to |refs|
        invariant Live()
        invariant domain.View() == before.(objs := domain.View().objs)
        // again checked as one fact
        invariant PartlyUnbound(before.objs, domain.View().objs, id, refs[i..]) == true
      {
        assert refs[i] in refs && refs[i] in domain.View().objs;
        UnbindAtReferrer(refs, i, before);
      }
      assert refs[|refs|..] == [];
    }

    method UnbindAtReferrer(refs: seq<Id>, i: nat, ghost before: State)
      requires Live() && i < |refs| && refs[i] in domain.objects
      requires domain.View() == before.(objs := domain.View().objs)
      // again taken as one fact
      requires PartlyUnbound(before.objs, domain.View().objs, id, refs[i..]) == true
      modifies domain.objects.Values`nameMap, domain.objects.Values`referrers
      ensures Live()
      ensures domain.View() == before.(objs := domain.View().objs)
      ensures PartlyUnbound(before.objs, domain.View().objs, id, refs[i + 1..])
    {
      var c := domain.objects[refs[i]];
      ghost var mid := domain.View();
      ghost var names := c.nameMap;
      var bp, n := c.UnbindPair(Binding(NoBinding, id), false);
      assert refs[i..] == [refs[i]] + refs[i + 1..];
      assert NamesOf(mid.objs, refs[i]) == names;
      if BoundNames(names, id) == {} {
        assert forall m :: m in names ==> m !in BoundNames(names, id);
      } else {
        var m :| m in BoundNames(names, id);
        assert n in BoundNames(names, id);
      }
      UnbindsOneMore(before.objs, mid.objs, domain.View().objs, id, refs[i], refs[i + 1..], n);
    }

    /**
     Follows `parent_` up to the root; with ancestors that are alive it ends whatever the links, since parents are
     older than their children.
     */
    method GetFullName() returns (fullName: string)
      requires Live() && ChainAlive(domain.View().objs, id)
      ensures fullName == FullName(domain.View().objs, id)
    {
      ghost var st := domain.View();
      fullName := myName;
      assert st.objs[id] == Value();
      if parent.None? {
        return;
      }
      var p := domain.objects[parent.value];
      assert p.id in st.objs;
      while p.parent.Some?
        invariant domain.Has(p) && ChainAlive(st.objs, p.id)
        invariant FullName(st.objs, id) == HeadName(st.objs, p.id) + [SEPARATOR] + fullName
        decreases p.id
      {
        assert st.objs[p.id] == p.Value();
        ghost var head := HeadName(st.objs, p.parent.value);
        fullName := [SEPARATOR] + fullName;
        fullName := p.myName + fullName;
        assert head + [SEPARATOR] + p.myName + [SEPARATOR] == head + [SEPARATOR] + (p.myName + [SEPARATOR]);
        p := domain.objects[p.parent.value];
      }
      assert !HasParent(st.objs, p.id);
      fullName := [SEPARATOR] + fullName;
    }

    /** The names under which a class has real objects bound here. */
    ghost function RealOf(nt: BindingType): set<string>
      requires forall n :: n in nameMap ==> nameMap[n].target in domain.objects
      reads this, domain, domain.objects.Values
    {
      set n | n in nameMap && nameMap[n].tag == nt && !domain.objects[nameMap[n].target].isPlaceholder
    }

    /** Counts the bindings of a class whose object is real. */
    method LevelCount(nt: BindingType) returns (c: nat)
      requires forall n :: n in nameMap ==> nameMap[n].target in domain.objects
      ensures c == |RealOf(nt)|
    {
      var left := nameMap.Keys;
      ghost var all := RealOf(nt);
      c := 0;
      while left != {}
        invariant left <= nameMap.Keys && c == |all - left|
        decreases |left|
      {
        var n :| n in left;
        if nameMap[n].tag == nt && !domain.objects[nameMap[n].target].isPlaceholder {
          c := c + 1;
        }
        OneTaken(all, left, n);
        left := left - {n};
      }
      assert all - left == all;
    }
  }

  class Domain {
    var root: Option<Id>
    var objects: map<Id, ContextBindable>
    var counter: Id
    var log: seq<Event>

    ghost predicate Has(r: ContextBindable)
      reads this
    {
      r.id in objects && objects[r.id] == r
    }

    ghost predicate Registered()
      reads this
    {
      forall i :: i in objects ==> i < counter && objects[i].id == i && objects[i].domain == this
    }

    ghost predicate Valid()
      reads this, objects.Values
    {
      root.Some? && Registered()
    }

    /** Puts a new object into the object map. */
    method Insert(o: ContextBindable)
      requires Registered() && o.id == counter && o.domain == this && o !in objects.Values
      modifies this`objects, this`counter
      ensures Registered() && objects == old(objects)[o.id := o] && counter == old(counter) + 1
      ensures View() == old(View()).(objs := old(View()).objs[o.id := o.Value()], next := old(counter) + 1)
    {
      counter := counter + 1;
      objects := objects[o.id := o];
    }

    /** A domain whose root context is real from the start; `first` is the next unused object ID. */
    constructor (first: Id)
      ensures Valid() && View() == NewDomain(first)
      ensures fresh(objects.Values)
    {
      root := None;
      objects := map[];
      counter := first;
      log := [];
      new;
      ghost var built := Construct(View(), ContextKind, [SEPARATOR], None);
      assert View() == State(map[], 0, first, []);
      var r := new ContextBindable([SEPARATOR], ContextKind, this, None);
      root := Some(r.id);
      assert View() == built.(root := first);
      NewDomainSteps(first);
      r.MakeReal();
    }

    /** A new context or entity, bound under its own name. */
    method CreateAt(parent: Id, name: string, kind: Kind, fullName: Option<string>) returns (child: Id)
      requires Valid() && parent in objects && counter !in objects
      modifies this, objects.Values
      ensures Valid() && fresh(objects.Values - old(objects.Values)) && child == old(counter)
      ensures name !in old(NamesOf(View().objs, parent)) ==>
        View() == Create(old(View()), kind, name, parent, if fullName.Some? then fullName.value else name)
    {
      ghost var st := View();
      var o := new ContextBindable(name, kind, this, Some(parent));
      child := o.id;
      assert parent in st.objs;
      var r := objects[parent].Bind(name, Binding(TagOf(kind), child), fullName);
    }

    /** Promotion of a placeholder, unless placeholders are wanted. */
    method PromoteAt(x: Id, flags: Flags)
      requires Valid() && x in objects && Promotable(View().objs, x, flags)
      modifies this`log, objects.Values`isPlaceholder, objects.Values`hasAttributes
      ensures Valid() && View() == Promote(old(View()), x, flags)
    {
      assert x in View().objs;
      if objects[x].isPlaceholder && !flags.makePlaceholders {
        objects[x].MakeReal();
      }
    }

    /** One round of the walk: looks the token up, or creates a context for it, and promotes what it arrives at. */
    method WalkStep(parent: Id, token: string, flags: Flags) returns (next: Option<Id>)
      requires Valid() && Steppable(View(), parent, token)
      requires StepTellable(View().objs, parent, token, ContextKind, flags)
      modifies this, objects.Values
      ensures Valid() && (View(), next) == Step(old(View()), parent, token, flags)
      ensures fresh(objects.Values - old(objects.Values))
    {
      ghost var st := View();
      assert NamesOf(st.objs, parent) == objects[parent].nameMap;
      var bp := objects[parent].Lookup(token);
      if bp != NULL_BINDING {
        assert bp.target in st.objs && objects[bp.target].Value() == st.objs[bp.target];
        next := if objects[bp.target].kind == ContextKind then Some(bp.target) else None;
        if next.Some? {
          PromoteAt(bp.target, flags);
        }
      } else if flags.makeNamePath {
        CreatedIsPromotable(View(), parent, token, ContextKind, token, flags);
        var child := CreateAt(parent, token, ContextKind, None);
        assert child in View().objs;
        next := Some(child);
        PromoteAt(child, flags);
      } else {
        next := None;
      }
    }

    /** The `strtok` loop of `get_context_of_name`. */
    method WalkPath(start: Id, path: string, flags: Flags) returns (parent: Option<Id>)
      requires Valid() && WF(View()) && IsContext(View().objs, start)
      requires Tellable(View().objs, start, Tokens(path), flags)
      modifies this, objects.Values
      ensures Valid() && fresh(objects.Values - old(objects.Values))
      ensures (View(), parent) == Walk(old(View()), Some(start), Tokens(path), flags)
    {
      ghost var st := View();
      ghost var now := st;
      parent := Some(start);
      assert path[0..] == path;
      var nextToken, pos := NextToken(path, 0);
      ghost var todo := Tokens(path);
      ghost var goal := Walk(st, Some(start), todo, flags);
      assert CleanTokens(todo);
      while nextToken.Some? && parent.Some?
        invariant pos <= |path|
        invariant Valid() && fresh(objects.Values - old(objects.Values))
        // compared with true: checked as one fact, not conjunct by conjunct
        invariant now == View() && WF(now) == true
        invariant parent.Some? ==> IsContext(now.objs, parent.value) && Tellable(now.objs, parent.value, todo, flags)
        invariant CleanTokens(todo)
        invariant todo == if nextToken.Some? then [nextToken.value] + Tokens(path[pos..]) else []
        invariant Walk(now, parent, todo, flags) == goal
        decreases |todo|
      {
        ghost var rest := Tokens(path[pos..]);
        parent, now := WalkOn(parent.value, nextToken.value, flags, now, todo, rest);
        todo := rest;
        nextToken, pos := NextToken(path, pos);
      }
    }

    /** One round, and what is left of the walk. */
    method WalkOn(parent: Id, token: string, flags: Flags, ghost st: State, ghost todo: seq<string>,
                  ghost rest: seq<string>)
      returns (next: Option<Id>, ghost now: State)
      requires Valid() && View() == st && WF(st) && IsContext(st.objs, parent)
      requires todo == [token] + rest && CleanTokens(todo) && Tellable(st.objs, parent, todo, flags)
      modifies this, objects.Values
      ensures Valid() && fresh(objects.Values - old(objects.Values))
      // again checked as one fact
      ensures View() == now && WF(now) == true && CleanTokens(rest)
      ensures next.Some? ==> IsContext(now.objs, next.value) && Tellable(now.objs, next.value, rest, flags)
      ensures Walk(now, next, rest, flags) == Walk(st, Some(parent), todo, flags)
    {
      assert todo[1..] == rest;
      now := OneStepOn(st, parent, todo, flags);
      next := WalkStep(parent, token, flags);
    }

    method GetContextOfName(name: string, initial: Option<Id>, flags: Flags)
      returns (parent: Option<Id>, last: Option<string>)
      requires Valid() && WF(View()) && InitialOk(View(), initial)
      requires Tellable(View().objs, Start(View(), initial), HeadTokens(name), flags)
      modifies this, objects.Values
      ensures Valid() && fresh(objects.Values - old(objects.Values))
      ensures (View(), parent) == ContextOfName(old(View()), name, initial, flags)
      ensures last == SplitName(name).tail
      ensures parent.Some? ==> IsContext(View().objs, parent.value)
    {
      ContextOfNameFacts(View(), name, initial, flags);
      var start := if initial.None? then root.value else initial.value;
      var head, objName := SplitNameInto(name);
      last := objName;
      if head.Some? {
        parent := WalkPath(start, head.value, flags);
      } else {
        parent := Some(start);
      }
    }

    method ResolveName(name: string, initial: Option<Id>) returns (r: Option<Id>)
      requires Valid() && WF(View()) && InitialOk(View(), initial) && Readable(View(), name, initial)
      modifies this, objects.Values
      ensures Valid() && fresh(objects.Values - old(objects.Values))
      ensures (View(), r) == Resolve(old(View()), name, initial)
    {
      ContextOfNameFacts(View(), name, initial, READ);
      r := None;
      var parent, objName := GetContextOfName(name, initial, READ);
      if parent.Some? {
        if objName.None? {
          r := parent;
        } else {
          r := LookupReal(parent.value, objName.value);
        }
      }
    }

    /** The object bound under `name`, unless it is a placeholder. */
    method LookupReal(c: Id, name: string) returns (r: Option<Id>)
      requires Valid() && WF(View()) && c in objects
      ensures var names := NamesOf(View().objs, c);
              r == if name in names && IsReal(View().objs, names[name].target) then Some(names[name].target) else None
    {
      r := None;
      assert View().objs[c].names == objects[c].nameMap;
      if name in objects[c].nameMap {
        BoundObject(View(), c, name);
        assert View().objs[objects[c].nameMap[name].target] == objects[objects[c].nameMap[name].target].Value();
      }
      var bp := objects[c].Lookup(name);
      if bp != NULL_BINDING && !objects[bp.target].isPlaceholder {
        r := Some(bp.target);
      }
    }

    method ResolveOrCreateName(name: string, kind: Kind, initial: Option<Id>, createPlaceholder: bool) returns (r: Id)
      requires Valid() && WF(View()) && InitialOk(View(), initial) && Creatable(View(), name, initial)
      requires Announceable(View(), name, kind, initial, createPlaceholder)
      modifies this, objects.Values
      ensures Valid() && fresh(objects.Values - old(objects.Values))
      ensures (View(), Some(r)) == ResolveOrCreate(old(View()), name, kind, initial, createPlaceholder)
    {
      if name == [SEPARATOR] {
        return root.value;
      }
      var flags := Flags(true, createPlaceholder);
      CreatableIffCreated(View(), name, kind, initial, createPlaceholder);
      ContextOfNameFacts(View(), name, initial, flags);
      SplitNameMeaning(name);
      LastIsTellable(View(), Start(View(), initial), name, kind, flags);
      var parent, objName := GetContextOfName(name, initial, flags);
      LastIsSteppable(View(), parent.value, objName.value);
      LastOfCreation(old(View()), name, kind, initial, createPlaceholder);
      r := LookupOrCreate(parent.value, objName.value, kind, name, flags);
    }

    /** The last component: found or created, then promoted unless a placeholder is wanted. */
    method LookupOrCreate(parent: Id, objName: string, kind: Kind, fullName: string, flags: Flags) returns (r: Id)
      requires Valid() && Steppable(View(), parent, objName) && flags.makeNamePath
      requires StepTellable(View().objs, parent, objName, kind, flags)
      modifies this, objects.Values
      ensures Valid() && fresh(objects.Values - old(objects.Values))
      ensures var (st, x) := LookupOrConstruct(old(View()), parent, objName, kind, fullName);
              View() == Promote(st, x, flags) && r == x
    {
      ghost var found := LookupOrConstruct(View(), parent, objName, kind, fullName);
      CreatedIsPromotable(View(), parent, objName, kind, fullName, flags);
      r := FindOrCreate(parent, objName, kind, fullName);
      assert View() == found.0 && r == found.1;
      PromoteAt(r, flags);
    }

    method FindOrCreate(parent: Id, objName: string, kind: Kind, fullName: string) returns (r: Id)
      requires Valid() && Steppable(View(), parent, objName)
      modifies this, objects.Values
      ensures Valid() && fresh(objects.Values - old(objects.Values)) && r in objects
      ensures (View(), r) == LookupOrConstruct(old(View()), parent, objName, kind, fullName)
    {
      assert NamesOf(View().objs, parent) == objects[parent].nameMap;
      assert View().next == counter && parent in View().objs;
      var bp := objects[parent].Lookup(objName);
      if bp == NULL_BINDING {
        r := CreateAt(parent, objName, kind, Some(fullName));
        assert r in View().objs;
      } else {
        r := bp.target;
        assert r in View().objs;
      }
    }

    method BindContextAs(source: Id, fullName: string) returns (status: int)
      requires Valid() && WF(View()) && Enabled(View(), LinkContext(source, fullName))
      modifies this, objects.Values
      ensures Valid() && fresh(objects.Values - old(objects.Values))
      ensures (View(), status) == BindContext(old(View()), source, fullName)
    {
      SplitNameMeaning(fullName);
      var head, objName := SplitNameInto(fullName);
      status := BindUnderHead(head.value, None, objName.value, Binding(ContextBinding, source));
    }

    method BindUnderHead(head: string, initial: Option<Id>, last: string, b: Binding) returns (status: int)
      requires Valid() && WF(View()) && InitialOk(View(), initial) && Creatable(View(), head, initial)
      requires Announceable(View(), head, ContextKind, initial, false)
      requires b.target in objects
      modifies this, objects.Values
      ensures Valid() && fresh(objects.Values - old(objects.Values))
      ensures (View(), status) == BindUnder(old(View()), head, initial, last, b)
    {
      ResolveOrCreateFacts(View(), head, ContextKind, initial, false);
      assert b.target in View().objs;
      var target := ResolveOrCreateName(head, ContextKind, initial, false);
      assert target in View().objs && b.target in View().objs;
      status := BindIn(target, last, b);
    }

    method BindIn(target: Id, last: string, b: Binding) returns (status: int)
      requires Valid() && target in objects && b.target in objects
      modifies this`log, objects.Values`nameMap, objects.Values`referrers
      ensures Valid() && (View(), status) == BindAt(old(View()), target, last, b)
    {
      assert View().objs[target].kind == objects[target].kind;
      if objects[target].kind != ContextKind {
        status := 0;
      } else {
        var r := objects[target].Bind(last, b, None);
        status := 1;
      }
    }

    /** The entity that `bind_entity` works on; no entity where the name resolves to nothing or to a context. */
    method FindEntity(sourceName: Option<string>, entity: Option<Id>) returns (e: Option<Id>)
      requires Valid() && WF(View()) && (sourceName.Some? ==> Readable(View(), sourceName.value, None))
      modifies this, objects.Values
      ensures Valid() && fresh(objects.Values - old(objects.Values))
      ensures (View(), e) == SourceEntity(old(View()), sourceName, entity)
    {
      e := entity;
      if sourceName.Some? {
        ResolveFacts(View(), sourceName.value, None);
        e := ResolveName(sourceName.value, None);
        if e.Some? {
          assert View().objs[e.value].kind == objects[e.value].kind;
          if objects[e.value].kind != EntityKind {
            e := None;
          }
        }
      }
    }

    method LinkEntityAt(entity: Id, context: Option<Id>, newName: string) returns (status: int)
      requires Valid() && WF(View()) && Enabled(View(), LinkEntity(entity, context, newName))
      modifies this, objects.Values
      ensures Valid() && fresh(objects.Values - old(objects.Values))
      ensures (View(), status) == BindEntity(old(View()), entity, context, newName)
    {
      PassableToTheEnd(View(), SplitName(newName).head.value, context);
      SplitNameMeaning(newName);
      assert entity in View().objs;
      var head, entName := SplitNameInto(newName);
      status := BindUnderHead(head.value, context, entName.value, Binding(EntityBinding, entity));
      Send(EntityBound(entity));
    }

    method BindEntityAs(sourceName: Option<string>, entity: Option<Id>, context: Option<Id>, newName: string)
      returns (status: int)
      requires Valid() && WF(View()) && (sourceName.Some? ==> Readable(View(), sourceName.value, None))
      requires var (st, e) := SourceEntity(View(), sourceName, entity);
               e.Some? ==> Enabled(st, LinkEntity(e.value, context, newName))
      modifies this, objects.Values
      ensures Valid() && fresh(objects.Values - old(objects.Values))
      ensures (View(), status) == BindEntityFrom(old(View()), sourceName, entity, context, newName)
    {
      SourceEntityFacts(View(), sourceName, entity);
      var e := FindEntity(sourceName, entity);
      if e.None? {
        status := -1;
      } else {
        status := LinkEntityAt(e.value, context, newName);
      }
    }

    method RemoveBindingOf(name: string, initial: Option<Id>) returns (status: int)
      requires Valid() && WF(View()) && Enabled(View(), UnbindName(name, initial))
      modifies this, objects.Values
      ensures Valid() && fresh(objects.Values - old(objects.Values))
      ensures (View(), status) == RemoveBinding(old(View()), name, initial)
    {
      ContextOfNameFacts(View(), name, initial, READ);
      SplitNameMeaning(name);
      var target, boundName := GetContextOfName(name, initial, READ);
      if target.Some? {
        status := UnbindWithEvent(target.value, boundName.value, name);
      } else {
        status := -1;
      }
    }

    method UnbindWithEvent(c: Id, boundName: string, name: string) returns (status: int)
      requires Valid() && WF(View()) && c in objects
      modifies this`log, objects.Values`nameMap, objects.Values`referrers
      ensures Valid() && (View(), status) == UnbindAndTell(old(View()), c, boundName, name)
    {
      var bp := UnbindAt(c, boundName);
      if bp != NULL_BINDING {
        if bp.tag == EntityBinding {
          Send(EntityUnbound(bp.target));
        } else if bp.tag == ContextBinding {
          Send(ContextUnbound(bp.target, name));
        }
        status := 1;
      } else {
        status := -1;
      }
    }

    method UnbindAt(c: Id, name: string) returns (bp: Binding)
      requires Valid() && WF(View()) && c in objects
      modifies objects.Values`nameMap, objects.Values`referrers
      ensures Valid() && View() == Unbind(old(View()), c, name)
      ensures var names := NamesOf(old(View()).objs, c);
              if name in names then bp == names[name] && bp.tag != NoBinding else bp == NULL_BINDING
    {
      ghost var st := View();
      assert st.objs[c].names == objects[c].nameMap;
      if name in objects[c].nameMap {
        BoundObject(st, c, name);
        ReferrerIsFound(st.objs, c, name);
        assert st.objs[objects[c].nameMap[name].target] == objects[objects[c].nameMap[name].target].Value();
      }
      bp := objects[c].Unbind(name);
    }

    /** `remove_context` and `remove_entity`: the deletion event, then the destructor. */
    method RemoveObject(x: Id) returns (status: int)
      requires Valid() && x in objects && Erasable(View().objs, x) && Nameable(View().objs, x)
      modifies this, objects.Values
      ensures Valid() && objects == old(objects) - {x}
      ensures View() == Remove(old(View()), x) && status == 1
    {
      var fullName := objects[x].NameToTell();
      Send(Deleted(x, fullName));
      objects[x].Destroy();
      status := 1;
    }

    method Unregister(x: Id)
      requires Registered()
      modifies this`objects
      ensures Registered() && objects == old(objects) - {x}
      ensures View() == old(View()).(objs := old(View()).objs - {x})
    {
      objects := objects - {x};
    }

    /** An event that the domain's change channel carries. */
    method Send(e: Event)
      modifies this`log
      ensures View() == old(View()).(log := old(log) + [e])
    {
      log := log + [e];
    }

    function View(): State
      reads this, objects.Values
    {
      State(map i | i in objects :: objects[i].Value(), if root.Some? then root.value else 0, counter, log)
    }
  }
}
