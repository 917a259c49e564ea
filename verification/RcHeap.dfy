/**
 A reference-counted heap: captured environments, mutable carriers and immutable
 lists, each allocation at its own address.  The strong count of an allocation is
 the number of references to it, from other allocations and from everywhere else.
 */
module RcHeap {
  import opened Prelude

  /** A value as the collector sees it; `Datum` is any value without references. */
  datatype Val = Datum(n: int) | Unspecified | Closure(fn: nat, env: nat) | Boxed(id: nat) | List(id: nat)

  datatype Kind = Cell | Pair | Vector | Hash

  /** A hash table's slots are its keys and values in turn. */
  datatype Obj =
    | EnvObj(locals: seq<nat>, parent: Option<nat>)
    | CarrierObj(kind: Kind, slots: seq<Val>)
    | ListObj(items: seq<Val>)
    | Freed

  type Heap = seq<Obj>

  predicate IsEnv(h: Heap, a: nat) {
    a < |h| && h[a].EnvObj?
  }

  predicate IsCarrier(h: Heap, a: nat) {
    a < |h| && h[a].CarrierObj?
  }

  predicate IsList(h: Heap, a: nat) {
    a < |h| && h[a].ListObj?
  }

  predicate ValOk(h: Heap, v: Val) {
    match v
    case Closure(_, e) => IsEnv(h, e)
    case Boxed(c) => IsCarrier(h, c) && h[c].kind != Cell
    case List(l) => IsList(h, l)
    case _ => true
  }

  /** References lead to allocations of the right type; a parent and a nested list were allocated earlier. */
  predicate ObjOk(h: Heap, o: nat)
    requires o < |h|
  {
    match h[o]
    case EnvObj(locals, parent) =>
      (forall c :: c in locals ==> IsCarrier(h, c) && h[c].kind == Cell)
      && (parent.Some? ==> parent.value < o && IsEnv(h, parent.value))
    case CarrierObj(_, slots) => forall v :: v in slots ==> ValOk(h, v)
    case ListObj(items) => forall v :: v in items ==> ValOk(h, v) && (v.List? ==> v.id < o)
    case Freed => true
  }

  ghost predicate WellFormed(h: Heap) {
    forall o :: 0 <= o < |h| ==> ObjOk(h, o)
  }

  function Ref(v: Val): seq<nat> {
    match v
    case Closure(_, e) => [e]
    case Boxed(c) => [c]
    case List(l) => [l]
    case _ => []
  }

  function Refs(vs: seq<Val>): seq<nat> {
    if vs == [] then [] else Ref(vs[0]) + Refs(vs[1..])
  }

  /** The references an allocation holds. */
  function Outs(o: Obj): seq<nat> {
    match o
    case EnvObj(locals, parent) => locals + if parent.Some? then [parent.value] else []
    case CarrierObj(_, slots) => Refs(slots)
    case ListObj(items) => Refs(items)
    case Freed => []
  }

  function Occ(s: seq<nat>, a: nat): nat {
    multiset(s)[a]
  }

  lemma {:induction false} OccConcat(p: seq<nat>, q: seq<nat>, a: nat)
    ensures Occ(p + q, a) == Occ(p, a) + Occ(q, a)
  {
  }

  lemma {:induction false} OccIn(s: seq<nat>, a: nat)
    ensures Occ(s, a) > 0 <==> a in s
  {
  }

  /** How many references to `a` the allocation holds. */
  function Held(o: Obj, a: nat): nat {
    Occ(Outs(o), a)
  }

  /** A slot is a reference to the environment, the mutable object or the list that its value leads to. */
  lemma {:induction false} HeldCounts(locals: seq<nat>, up: nat, kind: Kind, v: Val, vs: seq<Val>, a: nat)
    ensures Held(EnvObj(locals, None), a) == multiset(locals)[a]
    ensures Held(EnvObj(locals, Some(up)), a) == multiset(locals)[a] + if up == a then 1 else 0
    ensures Held(CarrierObj(kind, []), a) == 0 == Held(Freed, a)
    ensures Held(CarrierObj(kind, [v] + vs), a)
      == Held(CarrierObj(kind, vs), a)
       + if v == Boxed(a) || v == List(a) || (v.Closure? && v.env == a) then 1 else 0
    ensures Held(ListObj(vs), a) == Held(CarrierObj(kind, vs), a)
  {
    assert locals + [] == locals;
    OccConcat(locals, [up], a);
    assert ([v] + vs)[1..] == vs;
    OccConcat(Ref(v), Refs(vs), a);
  }

  /** How many references to `a` the whole heap holds. */
  function HeapRefs(h: Heap, a: nat): nat {
    if h == [] then 0 else HeapRefs(h[..|h| - 1], a) + Held(h[|h| - 1], a)
  }

  /** `roots` are the references held by frames, globals and native code. */
  function StrongCount(h: Heap, roots: multiset<nat>, a: nat): nat {
    roots[a] + HeapRefs(h, a)
  }

  // ----- counting the references held by some allocations -----

  predicate Within(os: seq<nat>, n: nat) {
    forall i :: 0 <= i < |os| ==> os[i] < n
  }

  function SumHeld(h: Heap, os: seq<nat>, a: nat): nat
    requires Within(os, |h|)
  {
    if os == [] then 0 else Held(h[os[0]], a) + SumHeld(h, os[1..], a)
  }

  function Times(k: nat, d: nat): nat {
    if k == 0 then 0 else d + Times(k - 1, d)
  }

  /** The references held by each allocation, `m[o]` times over. */
  function Weighted(h: Heap, m: multiset<nat>, a: nat): nat {
    if h == [] then 0 else Weighted(h[..|h| - 1], m, a) + Times(m[|h| - 1], Held(h[|h| - 1], a))
  }

  lemma {:induction false} WeightedAdd(h: Heap, m: multiset<nat>, x: nat, a: nat)
    ensures Weighted(h, m + multiset{x}, a) == Weighted(h, m, a) + if x < |h| then Held(h[x], a) else 0
  {
    hide Held;
    if h != [] {
      var n := |h| - 1;
      var t := h[..n];
      WeightedAdd(t, m, x, a);
      assert x < n ==> t[x] == h[x];
      var m' := m + multiset{x};
      assert m'[n] == m[n] + if x == n then 1 else 0;
      var d := Held(h[n], a);
      assert Weighted(h, m', a) == Weighted(t, m', a) + Times(m'[n], d);
      assert Weighted(h, m, a) == Weighted(t, m, a) + Times(m[n], d);
      if x == n {
        assert Times(m[n] + 1, d) == d + Times(m[n], d);
      }
    }
  }

  lemma {:induction false} TimesZero(k: nat)
    ensures Times(k, 0) == 0
  {
    if k > 0 {
      TimesZero(k - 1);
    }
  }

  lemma {:induction false} WeightedNone(h: Heap, a: nat)
    ensures Weighted(h, multiset{}, a) == 0
  {
    if h != [] {
      WeightedNone(h[..|h| - 1], a);
    }
  }

  /** Summing over a sequence of allocations weighs each by how often it occurs. */
  lemma {:induction false} SumIsWeighted(h: Heap, os: seq<nat>, a: nat)
    requires Within(os, |h|)
    ensures SumHeld(h, os, a) == Weighted(h, multiset(os), a)
  {
    if os == [] {
      WeightedNone(h, a);
    } else {
      SumIsWeighted(h, os[1..], a);
      WeightedAdd(h, multiset(os[1..]), os[0], a);
      assert os == [os[0]] + os[1..];
      assert multiset(os) == multiset(os[1..]) + multiset{os[0]};
    }
  }

  lemma {:induction false} SumHeldConcat(h: Heap, p: seq<nat>, q: seq<nat>, a: nat)
    requires Within(p, |h|) && Within(q, |h|)
    ensures SumHeld(h, p + q, a) == SumHeld(h, p, a) + SumHeld(h, q, a)
  {
    if p == [] {
      assert p + q == q;
    } else {
      assert (p + q)[1..] == p[1..] + q;
      SumHeldConcat(h, p[1..], q, a);
    }
  }

  /** Some allocation that `m` leaves out holds `a`. */
  ghost predicate HeldOutside(h: Heap, m: multiset<nat>, a: nat) {
    exists o :: 0 <= o < |h| && m[o] == 0 && Held(h[o], a) > 0
  }

  lemma {:induction false} HolderCounts(h: Heap, a: nat, o: nat)
    requires o < |h|
    ensures Held(h[o], a) <= HeapRefs(h, a)
  {
    if o < |h| - 1 {
      HolderCounts(h[..|h| - 1], a, o);
    }
  }

  /** A count that is not zero has a holder. */
  lemma {:induction false} CountHasHolder(h: Heap, a: nat)
    requires HeapRefs(h, a) > 0
    ensures exists o :: 0 <= o < |h| && Held(h[o], a) > 0
  {
    var n := |h| - 1;
    if Held(h[n], a) == 0 {
      CountHasHolder(h[..n], a);
      var o :| 0 <= o < n && Held(h[..n][o], a) > 0;
      assert Held(h[o], a) > 0;
    }
  }

  lemma {:induction false} RefsOf(vs: seq<Val>, a: nat)
    ensures a in Refs(vs) <==> exists i :: 0 <= i < |vs| && a in Ref(vs[i])
  {
    if vs != [] {
      RefsOf(vs[1..], a);
      if exists i :: 0 <= i < |vs| && a in Ref(vs[i]) {
        var i :| 0 <= i < |vs| && a in Ref(vs[i]);
        if i > 0 {
          assert a in Ref(vs[1..][i - 1]);
        }
      }
    }
  }

  lemma {:induction false} RefsConcat(p: seq<Val>, q: seq<Val>)
    ensures Refs(p + q) == Refs(p) + Refs(q)
  {
    if p == [] {
      assert p + q == q;
    } else {
      assert (p + q)[1..] == p[1..] + q;
      RefsConcat(p[1..], q);
    }
  }

  lemma {:induction false} HeldIn(o: Obj, a: nat)
    ensures Held(o, a) > 0 <==> a in Outs(o)
  {
    OccIn(Outs(o), a);
  }

  lemma {:induction false} RefFrom(vs: seq<Val>, a: nat) returns (v: Val)
    requires a in Refs(vs)
    ensures v in vs && a in Ref(v)
  {
    RefsOf(vs, a);
    var i :| 0 <= i < |vs| && a in Ref(vs[i]);
    v := vs[i];
  }

  lemma {:induction false} RefIn(vs: seq<Val>, v: Val, a: nat)
    requires v in vs && a in Ref(v)
    ensures a in Refs(vs)
  {
    var i :| 0 <= i < |vs| && vs[i] == v;
    assert a in Ref(vs[i]);
    RefsOf(vs, a);
  }

  // ----- counting references that are not seen, or seen too often -----

  /** The references to `a` held by the allocations that `m` leaves out. */
  function Unseen(h: Heap, m: multiset<nat>, a: nat): nat {
    if h == [] then 0 else Unseen(h[..|h| - 1], m, a) + if m[|h| - 1] == 0 then Held(h[|h| - 1], a) else 0
  }

  /** How often references to `a` are counted beyond once. */
  function Overcount(h: Heap, m: multiset<nat>, a: nat): nat {
    if h == [] then 0
    else Overcount(h[..|h| - 1], m, a) + if m[|h| - 1] == 0 then 0 else Times(m[|h| - 1] - 1, Held(h[|h| - 1], a))
  }

  /** Counting the holders in `m` misses what it leaves out and repeats what it holds twice. */
  lemma {:induction false} Accounting(h: Heap, m: multiset<nat>, a: nat)
    ensures HeapRefs(h, a) + Overcount(h, m, a) == Weighted(h, m, a) + Unseen(h, m, a)
  {
    hide Held;
    if h != [] {
      Accounting(h[..|h| - 1], m, a);
    }
  }

  lemma {:induction false} NothingUnseen(h: Heap, m: multiset<nat>, a: nat)
    ensures Unseen(h, m, a) > 0 <==> HeldOutside(h, m, a)
  {
    hide Held;
    if h != [] {
      var n := |h| - 1;
      var t := h[..n];
      NothingUnseen(t, m, a);
      if HeldOutside(t, m, a) {
        var o :| 0 <= o < |t| && m[o] == 0 && Held(t[o], a) > 0;
        assert h[o] == t[o];
      }
      if HeldOutside(h, m, a) {
        var o :| 0 <= o < |h| && m[o] == 0 && Held(h[o], a) > 0;
        if o < n {
          assert t[o] == h[o];
        }
      }
    }
  }

  lemma {:induction false} NothingRepeated(h: Heap, m: multiset<nat>, a: nat)
    requires forall o :: 0 <= o < |h| && Held(h[o], a) > 0 ==> m[o] <= 1
    ensures Overcount(h, m, a) == 0
  {
    hide Held;
    if h != [] {
      var n := |h| - 1;
      assert forall o :: 0 <= o < n ==> h[..n][o] == h[o];
      NothingRepeated(h[..n], m, a);
      TimesZero(if m[n] == 0 then 0 else m[n] - 1);
    }
  }
}
