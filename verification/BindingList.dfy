/**
 The listing of a context's bindings: one pass of the hash map counts, memory for that many names is
 allocated, and a second pass fills it. The counts go by the binding tags, so the fill stays inside the
 memory because a tag always names the class of the bound object.
 */
module BindingList {
  import opened NameGraph
  import opened Iteration
  import opened Directory

  const ONLY_ENTITY_BINDINGS: bv32 := 0x1
  const ONLY_CONTEXT_BINDINGS: bv32 := 0x2

  type Names = map<string, Binding>

  /** What the option mask of a request asks for. */
  datatype Mask = Mask(entities: bool, contexts: bool, everything: bool)

  function MaskOf(options: bv32): Mask {
    Mask(options & ONLY_ENTITY_BINDINGS != 0, options & ONLY_CONTEXT_BINDINGS != 0, options == 0)
  }

  /** The bindings of one class whose object is real. */
  function RealNames(names: Names, objs: Objects, tag: BindingType): (r: set<string>) {
    set n | n in names && names[n].tag == tag && IsReal(objs, names[n].target)
  }

  /** How many slots the two counts make. */
  function Allocated(names: Names, objs: Objects, mask: Mask): nat {
    (if mask.everything || mask.entities then |RealNames(names, objs, EntityBinding)| else 0)
    + if mask.everything || mask.contexts then |RealNames(names, objs, ContextBinding)| else 0
  }

  predicate Chosen(b: Binding, objs: Objects, mask: Mask) {
    && IsReal(objs, b.target)
    && (mask.everything || (mask.entities && b.tag == EntityBinding) || (mask.contexts && b.tag == ContextBinding))
  }

  function Selected(names: Names, objs: Objects, mask: Mask): (r: set<string>) {
    set n | n in names && Chosen(names[n], objs, mask)
  }

  lemma UnionSize(a: set<string>, b: set<string>, c: set<string>)
    requires a !! b && a !! c && b !! c
    ensures |a + b + c| == |a| + |b| + |c|
  {
    assert (a + b) * c == {};
  }

  /** With no mask the fill also takes bindings that have no tag, which neither count sees. */
  lemma SelectedSize(names: Names, objs: Objects, mask: Mask)
    ensures |Selected(names, objs, mask)|
         == Allocated(names, objs, mask) + if mask.everything then |RealNames(names, objs, NoBinding)| else 0
  {
    var none: set<string> := {};
    var e := if mask.everything || mask.entities then RealNames(names, objs, EntityBinding) else none;
    var c := if mask.everything || mask.contexts then RealNames(names, objs, ContextBinding) else none;
    var u := if mask.everything then RealNames(names, objs, NoBinding) else none;
    SelectedSplits(names, objs, mask, e, c, u);
    UnionSize(e, c, u);
  }

  lemma SelectedSplits(names: Names, objs: Objects, mask: Mask, e: set<string>, c: set<string>, u: set<string>)
    requires e == if mask.everything || mask.entities then RealNames(names, objs, EntityBinding) else {}
    requires c == if mask.everything || mask.contexts then RealNames(names, objs, ContextBinding) else {}
    requires u == if mask.everything then RealNames(names, objs, NoBinding) else {}
    ensures Selected(names, objs, mask) == e + c + u
    ensures e !! c && e !! u && c !! u
  {
    forall n
      ensures n in Selected(names, objs, mask) <==> n in e || n in c || n in u
    {
      if n in names {
        var b := names[n];
        assert b.tag == NoBinding || b.tag == ContextBinding || b.tag == EntityBinding;
      }
    }
  }

  /** The allocation fits for every mask exactly when no binding of a real object is without a tag. */
  lemma FitsIffTagged(names: Names, objs: Objects)
    ensures (forall mask :: |Selected(names, objs, mask)| == Allocated(names, objs, mask))
       <==> (forall n :: n in names && IsReal(objs, names[n].target) ==> names[n].tag != NoBinding)
  {
    var u := RealNames(names, objs, NoBinding);
    forall mask
      ensures |Selected(names, objs, mask)| == Allocated(names, objs, mask) + if mask.everything then |u| else 0
    {
      SelectedSize(names, objs, mask);
    }
    var every := Mask(false, false, true);
    assert |Selected(names, objs, every)| == Allocated(names, objs, every) + |u|;
    forall n | n in names && IsReal(objs, names[n].target)
      ensures names[n].tag == NoBinding <==> n in u
    {
    }
    assert forall n :: n in u ==> n in names && IsReal(objs, names[n].target);
  }

  /** In every reachable state the fill writes exactly what was allocated, whatever the mask. */
  lemma ReachableListsFit(st: State, c: Id, mask: Mask)
    requires WF(st) && c in st.objs
    ensures |Selected(st.objs[c].names, st.objs, mask)| == Allocated(st.objs[c].names, st.objs, mask)
  {
    assert ObjOk(st.objs, st.root, c);
    assert forall n :: n in st.objs[c].names ==> BindingOk(st.objs, st.objs[c].names[n]);
    FitsIffTagged(st.objs[c].names, st.objs);
  }

  /**
   The options of a request, bit by bit: bit 0 asks for the real entities, bit 1 for the real contexts, and none at all
   for both. Nothing else is selected.
   */
  lemma SelectedByOptions(st: State, c: Id, options: bv32, n: string)
    requires WF(st) && c in st.objs
    ensures n in Selected(st.objs[c].names, st.objs, MaskOf(options)) <==>
              && n in st.objs[c].names && st.objs[c].names[n].target in st.objs
              && var o := st.objs[st.objs[c].names[n].target];
                 && !o.placeholder
                 && (options == 0 || if o.kind == EntityKind then options & 1 == 1 else options & 2 == 2)
  {
    OptionBits(options);
    assert ObjOk(st.objs, st.root, c);
    assert n in st.objs[c].names ==> BindingOk(st.objs, st.objs[c].names[n]);
  }

  lemma OptionBits(options: bv32)
    ensures options & 1 != 0 <==> options & 1 == 1
    ensures options & 2 != 0 <==> options & 2 == 2
  {
  }

  /** The names selected among the first `i` of an iteration. */
  function SelectedUpTo(names: Names, objs: Objects, mask: Mask, order: seq<string>, i: nat): seq<string>
    requires i <= |order| && forall n :: n in order ==> n in names
  {
    if i == 0 then []
    else SelectedUpTo(names, objs, mask, order, i - 1)
         + if Chosen(names[order[i - 1]], objs, mask) then [order[i - 1]] else []
  }

  /** What is selected up to any point of an iteration is exactly what was met and chosen, each name once. */
  lemma {:induction false} UpToIsPart(names: Names, objs: Objects, mask: Mask, order: seq<string>, i: nat)
    requires Enumerates(order, names.Keys) && i <= |order|
    ensures var part := SelectedUpTo(names, objs, mask, order, i);
            && (forall n :: n in part <==> n in order[..i] && Chosen(names[n], objs, mask))
            && (forall j, k :: 0 <= j < k < |part| ==> part[j] != part[k])
  {
    if i > 0 {
      UpToIsPart(names, objs, mask, order, i - 1);
      assert order[..i] == order[..i - 1] + [order[i - 1]];
      assert order[i - 1] !in order[..i - 1];
    }
  }

  /** So there is room for each. */
  lemma RoomForOneMore(names: Names, objs: Objects, mask: Mask, order: seq<string>, i: nat)
    requires Enumerates(order, names.Keys) && i < |order| && order[i] in names
    ensures SelectedUpTo(names, objs, mask, order, i + 1)
         == SelectedUpTo(names, objs, mask, order, i) + if Chosen(names[order[i]], objs, mask) then [order[i]] else []
    ensures |SelectedUpTo(names, objs, mask, order, i)| + (if Chosen(names[order[i]], objs, mask) then 1 else 0)
         <= |Selected(names, objs, mask)|
  {
    UpToIsPart(names, objs, mask, order, i + 1);
    var part := SelectedUpTo(names, objs, mask, order, i + 1);
    DistinctSize(part);
    SubsetSize((set n | n in part), Selected(names, objs, mask));
  }

  /** At the end of an iteration every selected name has been met. */
  lemma UpToTheEnd(names: Names, objs: Objects, mask: Mask, order: seq<string>)
    requires Enumerates(order, names.Keys)
    ensures var all := SelectedUpTo(names, objs, mask, order, |order|);
            Enumerates(all, Selected(names, objs, mask)) && |all| == |Selected(names, objs, mask)|
  {
    UpToIsPart(names, objs, mask, order, |order|);
    var all := SelectedUpTo(names, objs, mask, order, |order|);
    assert order[..|order|] == order;
    DistinctSize(all);
    assert (set n | n in all) == Selected(names, objs, mask);
  }

  /** The reply to a listing request: every selected binding once, in a list that is exactly full. */
  method GetBindingList(c: ContextBindable, options: bv32) returns (list: array<string>)
    requires c.Live() && WF(c.domain.View())
    ensures list.Length == Allocated(c.nameMap, c.domain.View().objs, MaskOf(options))
    ensures Enumerates(list[..], Selected(c.nameMap, c.domain.View().objs, MaskOf(options)))
  {
    TargetsAreThere(c.domain.View(), c.id);
    ReachableListsFit(c.domain.View(), c.id, MaskOf(options));
    var count := CountSlots(c, MaskOf(options));
    list := Fill(c, MaskOf(options), count);
  }

  lemma TargetsAreThere(st: State, c: Id)
    requires WF(st) && c in st.objs
    ensures forall n :: n in st.objs[c].names ==> st.objs[c].names[n].target in st.objs
  {
    assert ObjOk(st.objs, st.root, c);
    assert forall n :: n in st.objs[c].names ==> BindingOk(st.objs, st.objs[c].names[n]);
  }

  lemma CountedAreReal(c: ContextBindable, tag: BindingType)
    requires c.Live() && forall n :: n in c.nameMap ==> c.nameMap[n].target in c.domain.objects
    ensures c.RealOf(tag) == RealNames(c.nameMap, c.domain.View().objs, tag)
  {
    var objs := c.domain.View().objs;
    forall x | x in c.domain.objects
      ensures x in objs && objs[x].placeholder == c.domain.objects[x].isPlaceholder
    {
    }
  }

  method CountOf(c: ContextBindable, tag: BindingType) returns (count: nat)
    requires c.Live() && forall n :: n in c.nameMap ==> c.nameMap[n].target in c.domain.objects
    ensures count == |RealNames(c.nameMap, c.domain.View().objs, tag)|
  {
    count := c.LevelCount(tag);
    CountedAreReal(c, tag);
  }

  /** The first pass: the two counts, added as the mask asks. */
  method CountSlots(c: ContextBindable, mask: Mask) returns (count: nat)
    requires c.Live() && forall n :: n in c.nameMap ==> c.nameMap[n].target in c.domain.objects
    ensures count == Allocated(c.nameMap, c.domain.View().objs, mask)
  {
    var ecount := CountOf(c, EntityBinding);
    var ccount := CountOf(c, ContextBinding);
    count := 0;
    if mask.everything || mask.entities {
      count := count + ecount;
    }
    if mask.everything || mask.contexts {
      count := count + ccount;
    }
  }

  /** The second pass, over the same map in any order. */
  method Fill(c: ContextBindable, mask: Mask, count: nat) returns (list: array<string>)
    requires c.Live()
    requires forall n :: n in c.nameMap ==> c.nameMap[n].target in c.domain.objects
    requires count == |Selected(c.nameMap, c.domain.View().objs, mask)|
    ensures list.Length == count
    ensures Enumerates(list[..], Selected(c.nameMap, c.domain.View().objs, mask))
  {
    list := FillFrom(c.nameMap, c.domain.View().objs, mask, count);
  }

  /** The loop itself; nothing that it reads changes under it, so it reads values. */
  method FillFrom(names: Names, objs: Objects, mask: Mask, count: nat) returns (list: array<string>)
    requires forall n :: n in names ==> names[n].target in objs
    requires count == |Selected(names, objs, mask)|
    ensures list.Length == count && Enumerates(list[..], Selected(names, objs, mask))
  {
    list := new string[count];
    var order := HashOrder(names);
    var i := 0;
    for k := 0 to |order|
      invariant i == |SelectedUpTo(names, objs, mask, order, k)| <= count
      invariant list[..i] == SelectedUpTo(names, objs, mask, order, k)
    {
      assert order[k] in names;
      RoomForOneMore(names, objs, mask, order, k);
      var bp := names[order[k]];
      if objs[bp.target].placeholder { continue; }
      if mask.everything
         || (mask.entities && bp.tag == EntityBinding)
         || (mask.contexts && bp.tag == ContextBinding)
      {
        list[i] := order[k];
        i := i + 1;
      }
    }
    UpToTheEnd(names, objs, mask, order);
    assert list[..] == list[..i];
  }
}
