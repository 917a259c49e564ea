/**
 The graph a sweep looks at: registered environments and the carriers their variables
 lead to, with lists seen through.  Counting along its edges sees every reference
 except those from outside, as long as each list it sees through has one owner.
 */
module Tracing {
  import opened RcHeap

  /** One more than the largest list address among the values. */
  function ListBound(vs: seq<Val>): (b: nat)
    ensures forall v :: v in vs && v.List? ==> v.id < b
  {
    if vs == [] then 0
    else
      var b := ListBound(vs[1..]);
      assert vs == [vs[0]] + vs[1..];
      if vs[0].List? && vs[0].id >= b then vs[0].id + 1 else b
  }

  lemma {:induction false} ListBoundLeast(vs: seq<Val>, n: nat)
    requires forall v :: v in vs && v.List? ==> v.id < n
    ensures ListBound(vs) <= n
  {
    if vs != [] {
      assert vs[0] in vs;
      ListBoundLeast(vs[1..], n);
    }
  }

  ghost predicate AllOk(h: Heap, vs: seq<Val>) {
    WellFormed(h) && forall v :: v in vs ==> ValOk(h, v)
  }

  /** Opening a list reaches only lists allocated before it. */
  lemma {:induction false} Opens(h: Heap, vs: seq<Val>)
    requires AllOk(h, vs) && vs != []
    ensures AllOk(h, vs[1..]) && ListBound(vs[1..]) <= ListBound(vs)
    ensures vs[0].List? ==>
      IsList(h, vs[0].id) && AllOk(h, h[vs[0].id].items) && ListBound(h[vs[0].id].items) < ListBound(vs)
  {
    assert vs[0] in vs && forall v :: v in vs[1..] ==> v in vs;
    if vs[0].List? {
      assert ObjOk(h, vs[0].id);
      ListBoundLeast(h[vs[0].id].items, vs[0].id);
    }
  }

  /** The values with lists replaced by their elements, however deeply nested. */
  ghost function Flatten(h: Heap, vs: seq<Val>): seq<Val>
    requires AllOk(h, vs)
    decreases ListBound(vs), |vs|
  {
    if vs == [] then []
    else
      Opens(h, vs);
      (if vs[0].List? then Flatten(h, h[vs[0].id].items) else [vs[0]]) + Flatten(h, vs[1..])
  }

  /** The lists that are opened on the way, each as often as it is opened. */
  ghost function Opened(h: Heap, vs: seq<Val>): seq<nat>
    requires AllOk(h, vs)
    decreases ListBound(vs), |vs|
  {
    if vs == [] then []
    else
      Opens(h, vs);
      (if vs[0].List? then [vs[0].id] + Opened(h, h[vs[0].id].items) else []) + Opened(h, vs[1..])
  }

  lemma {:induction false} FlattenKinds(h: Heap, vs: seq<Val>)
    requires AllOk(h, vs)
    ensures forall v :: v in Flatten(h, vs) ==> !v.List? && ValOk(h, v)
    ensures forall a :: a in Refs(Flatten(h, vs)) ==> IsEnv(h, a) || (IsCarrier(h, a) && h[a].kind != Cell)
    ensures forall o :: o in Opened(h, vs) ==> IsList(h, o)
    decreases ListBound(vs), |vs|
  {
    if vs != [] {
      Opens(h, vs);
      assert vs[0] in vs;
      FlattenKinds(h, vs[1..]);
      if vs[0].List? {
        FlattenKinds(h, h[vs[0].id].items);
        RefsConcat(Flatten(h, h[vs[0].id].items), Flatten(h, vs[1..]));
      } else {
        RefsConcat([vs[0]], Flatten(h, vs[1..]));
        assert Refs([vs[0]]) == Ref(vs[0]) + Refs([vs[0]][1..]);
      }
    }
  }

  /** What flattening finds and the lists it opens balance against the references held. */
  ghost predicate Balanced(h: Heap, found: seq<Val>, lists: seq<nat>, refs: seq<nat>, a: nat) {
    Within(lists, |h|) && Occ(Refs(found), a) + Occ(lists, a) == Occ(refs, a) + SumHeld(h, lists, a)
  }

  lemma {:induction false} BalancedConcat(h: Heap, f: seq<Val>, o: seq<nat>, r: seq<nat>,
                                          f': seq<Val>, o': seq<nat>, r': seq<nat>, a: nat)
    requires Balanced(h, f, o, r, a) && Balanced(h, f', o', r', a)
    ensures Balanced(h, f + f', o + o', r + r', a)
  {
    hide Occ;
    RefsConcat(f, f');
    OccConcat(Refs(f), Refs(f'), a);
    OccConcat(o, o', a);
    OccConcat(r, r', a);
    SumHeldConcat(h, o, o', a);
  }

  lemma {:induction false} BalancedList(h: Heap, l: nat, f: seq<Val>, o: seq<nat>, a: nat)
    requires IsList(h, l) && Balanced(h, f, o, Refs(h[l].items), a)
    ensures Balanced(h, f, [l] + o, [l], a)
  {
    hide Occ, Refs;
    OccConcat([l], o, a);
    assert ([l] + o)[1..] == o;
  }

  /**
   What flattening finds, together with the lists it opens, are the references held
   by the values themselves and by the lists opened.
   */
  lemma {:induction false} FlattenCounts(h: Heap, vs: seq<Val>, a: nat)
    requires AllOk(h, vs)
    ensures Balanced(h, Flatten(h, vs), Opened(h, vs), Refs(vs), a)
    decreases ListBound(vs), |vs|
  {
    hide AllOk, ValOk, Balanced, ListBound;
    if vs == [] {
      NothingBalanced(h, a);
    } else {
      Opens(h, vs);
      var rest := vs[1..];
      FlattenCounts(h, rest, a);
      if vs[0].List? {
        var l := vs[0].id;
        var items := h[l].items;
        FlattenCounts(h, items, a);
        BalancedList(h, l, Flatten(h, items), Opened(h, items), a);
        BalancedConcat(h, Flatten(h, items), [l]
          + Opened(h, items), [l], Flatten(h, rest), Opened(h, rest), Refs(rest), a);
      } else {
        AtomBalanced(h, vs[0], a);
        BalancedConcat(h, [vs[0]], [], Ref(vs[0]), Flatten(h, rest), Opened(h, rest), Refs(rest), a);
        assert [] + Opened(h, rest) == Opened(h, rest);
      }
    }
  }

  lemma {:induction false} NothingBalanced(h: Heap, a: nat)
    ensures Balanced(h, [], [], [], a)
  {
  }

  lemma {:induction false} AtomBalanced(h: Heap, v: Val, a: nat)
    ensures Balanced(h, [v], [], Ref(v), a)
  {
    assert Refs([v]) == Ref(v) + Refs([v][1..]) == Ref(v);
  }

  lemma {:induction false} DirectFound(h: Heap, vs: seq<Val>, v: Val)
    requires AllOk(h, vs) && v in vs
    ensures v.List? ==> v.id in Opened(h, vs)
    ensures !v.List? ==> v in Flatten(h, vs)
    ensures v.List? ==> forall w :: w in Flatten(h, [v]) ==> w in Flatten(h, vs)
    ensures forall w :: w in Flatten(h, [v]) ==> w in Flatten(h, vs)
    decreases |vs|
  {
    Opens(h, vs);
    if v == vs[0] {
      Opens(h, [v]);
      assert Flatten(h, [v]) == (if v.List? then Flatten(h, h[v.id].items) else [v]) + Flatten(h, [v][1..]);
    } else {
      DirectFound(h, vs[1..], v);
    }
  }

  // ----- lists that lead somewhere -----

  /** Opening the list finds a closure or a mutable object; other lists are plain data to the collector. */
  ghost predicate Loaded(h: Heap, l: nat)
    requires WellFormed(h)
  {
    IsList(h, l) && AllOk(h, [List(l)]) && Refs(Flatten(h, [List(l)])) != []
  }

  lemma {:induction false} OpensToItems(h: Heap, v: Val)
    requires WellFormed(h) && ValOk(h, v) && v.List?
    ensures AllOk(h, [v]) && AllOk(h, h[v.id].items) && Flatten(h, [v]) == Flatten(h, h[v.id].items)
  {
    Opens(h, [v]);
    assert Flatten(h, [v]) == Flatten(h, h[v.id].items) + Flatten(h, [v][1..]);
  }

  /** A list that holds a closure, a mutable object or such a list leads somewhere itself. */
  lemma {:induction false} HolderLoaded(h: Heap, o: nat, a: nat)
    requires WellFormed(h) && IsList(h, o) && Held(h[o], a) > 0 && (IsEnv(h, a) || IsCarrier(h, a) || Loaded(h, a))
    ensures Loaded(h, o)
  {
    hide Held;
    var items := h[o].items;
    HeldIn(h[o], a);
    assert ValOk(h, List(o));
    OpensToItems(h, List(o));
    var v := RefFrom(items, a);
    assert ValOk(h, v);
    DirectFound(h, items, v);
    if IsList(h, a) {
      assert v == List(a);
      var b := Refs(Flatten(h, [v]))[0];
      var w := RefFrom(Flatten(h, [v]), b);
      RefIn(Flatten(h, items), w, b);
    } else {
      RefIn(Flatten(h, items), v, a);
    }
  }
}
