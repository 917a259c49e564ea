/**
 What a sweep decides, and why it is right.  Everything it knows are strong counts and
 the edges of the tracked graph; the theorems compare that with reachability.
 */
module GcTheory {
  import opened RcHeap
  import opened Tracing

  ghost predicate NoDup(s: seq<nat>) {
    forall i, j :: 0 <= i < j < |s| ==> s[i] != s[j]
  }

  /** Registered environments and tracked carriers, each once. */
  ghost predicate Graph(h: Heap, envs: seq<nat>, carriers: seq<nat>) {
    WellFormed(h) && NoDup(envs) && NoDup(carriers)
    && (forall e :: e in envs ==> IsEnv(h, e)) && (forall c :: c in carriers ==> IsCarrier(h, c))
  }

  lemma {:induction false} SlotsOk(h: Heap, c: nat)
    requires WellFormed(h) && IsCarrier(h, c)
    ensures AllOk(h, h[c].slots)
  {
    assert ObjOk(h, c);
  }

  /** The values found directly or through lists in a carrier. */
  ghost function Contents(h: Heap, c: nat): seq<Val>
    requires WellFormed(h) && IsCarrier(h, c)
  {
    SlotsOk(h, c);
    Flatten(h, h[c].slots)
  }

  ghost function ListsIn(h: Heap, c: nat): seq<nat>
    requires WellFormed(h) && IsCarrier(h, c)
  {
    SlotsOk(h, c);
    Opened(h, h[c].slots)
  }

  ghost function AllContents(h: Heap, cs: seq<nat>): seq<Val>
    requires WellFormed(h) && forall c :: c in cs ==> IsCarrier(h, c)
  {
    if cs == [] then [] else Contents(h, cs[0]) + AllContents(h, cs[1..])
  }

  ghost function AllLists(h: Heap, cs: seq<nat>): seq<nat>
    requires WellFormed(h) && forall c :: c in cs ==> IsCarrier(h, c)
  {
    if cs == [] then [] else ListsIn(h, cs[0]) + AllLists(h, cs[1..])
  }

  /** Tracked references to `a`: what the in-degree pass counts. */
  ghost function Internal(h: Heap, envs: seq<nat>, cs: seq<nat>, a: nat): nat
    requires Graph(h, envs, cs)
  {
    GraphWithin(h, envs, cs);
    SumHeld(h, envs, a) + Occ(Refs(AllContents(h, cs)), a)
  }

  lemma {:induction false} GraphWithin(h: Heap, envs: seq<nat>, cs: seq<nat>)
    requires Graph(h, envs, cs)
    ensures Within(envs, |h|) && Within(cs, |h|)
  {
    assert forall i :: 0 <= i < |envs| ==> envs[i] in envs;
    assert forall i :: 0 <= i < |cs| ==> cs[i] in cs;
  }

  ghost function AllSlots(h: Heap, cs: seq<nat>): seq<nat>
    requires forall c :: c in cs ==> IsCarrier(h, c)
  {
    if cs == [] then [] else assert IsCarrier(h, cs[0]); Outs(h[cs[0]]) + AllSlots(h, cs[1..])
  }

  lemma {:induction false} AllBalanced(h: Heap, cs: seq<nat>, a: nat)
    requires WellFormed(h) && forall c :: c in cs ==> IsCarrier(h, c)
    ensures Balanced(h, AllContents(h, cs), AllLists(h, cs), AllSlots(h, cs), a)
    ensures Within(cs, |h|) && Occ(AllSlots(h, cs), a) == SumHeld(h, cs, a)
  {
    hide Balanced, Occ;
    if cs == [] {
      NothingBalanced(h, a);
      var none: seq<nat> := [];
      assert none + none == none;
      OccConcat(none, none, a);
    } else {
      var c := cs[0];
      assert c in cs && forall x :: x in cs[1..] ==> x in cs;
      AllBalanced(h, cs[1..], a);
      SlotsOk(h, c);
      FlattenCounts(h, h[c].slots, a);
      BalancedConcat(h, Contents(h, c), ListsIn(h, c), Outs(h[c]),
                     AllContents(h, cs[1..]), AllLists(h, cs[1..]), AllSlots(h, cs[1..]), a);
      OccConcat(Outs(h[c]), AllSlots(h, cs[1..]), a);
    }
  }

  /** Every allocation of the graph, the lists it sees through included. */
  ghost function Inside(h: Heap, envs: seq<nat>, cs: seq<nat>): seq<nat>
    requires Graph(h, envs, cs)
  {
    envs + cs + AllLists(h, cs)
  }

  /** The in-degree pass and the opening of lists see each reference the graph holds. */
  lemma {:induction false} InternalIsWeighted(h: Heap, envs: seq<nat>, cs: seq<nat>, a: nat)
    requires Graph(h, envs, cs)
    ensures Internal(h, envs, cs, a) + Occ(AllLists(h, cs), a) == Weighted(h, multiset(Inside(h, envs, cs)), a)
  {
    hide Occ, Held, SumHeld, WellFormed;
    GraphWithin(h, envs, cs);
    AllBalanced(h, cs, a);
    var ls := AllLists(h, cs);
    SumHeldConcat(h, envs, cs, a);
    SumHeldConcat(h, envs + cs, ls, a);
    SumIsWeighted(h, envs + cs + ls, a);
  }

  // ----- lists with one owner -----

  /** Every list of the graph that leads to a closure or a mutable object has one reference in the whole program. */
  ghost predicate SinglyOwned(h: Heap, roots: multiset<nat>, cs: seq<nat>)
    requires WellFormed(h) && forall c :: c in cs ==> IsCarrier(h, c)
  {
    forall l :: l in AllLists(h, cs) && Loaded(h, l) ==> StrongCount(h, roots, l) == 1
  }

  lemma {:induction false} NoDupOnce(s: seq<nat>, a: nat)
    requires NoDup(s)
    ensures Occ(s, a) <= 1
    ensures a in s <==> Occ(s, a) == 1
  {
    if s != [] {
      NoDupOnce(s[1..], a);
      assert s == [s[0]] + s[1..];
      assert a in s[1..] ==> exists i :: 0 < i < |s| && s[i] == a;
    }
  }

  lemma {:induction false} AllKinds(h: Heap, cs: seq<nat>)
    requires WellFormed(h) && forall c :: c in cs ==> IsCarrier(h, c)
    ensures forall a :: a in Refs(AllContents(h, cs)) ==> IsEnv(h, a) || (IsCarrier(h, a) && h[a].kind != Cell)
    ensures forall l :: l in AllLists(h, cs) ==> IsList(h, l)
  {
    if cs != [] {
      assert forall x :: x in cs[1..] ==> x in cs;
      AllKinds(h, cs[1..]);
      SlotsOk(h, cs[0]);
      FlattenKinds(h, h[cs[0]].slots);
      RefsConcat(Contents(h, cs[0]), AllContents(h, cs[1..]));
    }
  }

  /** Which kinds of allocation occur how often among those inside. */
  lemma {:induction false} InsideOnce(h: Heap, envs: seq<nat>, cs: seq<nat>, o: nat)
    requires Graph(h, envs, cs)
    ensures var m := multiset(Inside(h, envs, cs));
      (IsEnv(h, o) ==> m[o] <= 1 && (m[o] == 1 <==> o in envs))
      && (IsCarrier(h, o) ==> m[o] <= 1 && (m[o] == 1 <==> o in cs))
      && (IsList(h, o) ==> m[o] == Occ(AllLists(h, cs), o))
      && (!IsEnv(h, o) && !IsCarrier(h, o) && !IsList(h, o) ==> m[o] == 0)
  {
    AllKinds(h, cs);
    NoDupOnce(envs, o);
    NoDupOnce(cs, o);
    var ls := AllLists(h, cs);
    OccConcat(envs, cs, o);
    OccConcat(envs + cs, ls, o);
    OccIn(envs, o);
    OccIn(cs, o);
    OccIn(ls, o);
    assert Occ(Inside(h, envs, cs), o) == Occ(envs, o) + Occ(cs, o) + Occ(ls, o);
    hide WellFormed;
  }

  /** Only carriers, and lists allocated later, hold a list. */
  lemma {:induction false} ListHolder(h: Heap, o: nat, l: nat)
    requires WellFormed(h) && o < |h| && IsList(h, l) && Held(h[o], l) > 0
    ensures IsCarrier(h, o) || (IsList(h, o) && o > l)
  {
    hide Occ, Refs;
    assert ObjOk(h, o);
    OccIn(Outs(h[o]), l);
    if h[o].ListObj? {
      RefsOf(h[o].items, l);
      var i :| 0 <= i < |h[o].items| && l in Ref(h[o].items[i]);
      assert h[o].items[i] in h[o].items;
    }
  }

  lemma {:induction false} NoInternalList(h: Heap, envs: seq<nat>, cs: seq<nat>, l: nat)
    requires Graph(h, envs, cs) && IsList(h, l)
    ensures Internal(h, envs, cs, l) == 0
  {
    GraphWithin(h, envs, cs);
    AllKinds(h, cs);
    NoEnvHolds(h, envs, l);
  }

  lemma {:induction false} NoEnvHolds(h: Heap, es: seq<nat>, l: nat)
    requires WellFormed(h) && Within(es, |h|) && (forall e :: e in es ==> IsEnv(h, e)) && IsList(h, l)
    ensures SumHeld(h, es, l) == 0
  {
    if es != [] {
      assert es[0] in es && forall x :: x in es[1..] ==> x in es;
      if Held(h[es[0]], l) > 0 {
        ListHolder(h, es[0], l);
      }
      NoEnvHolds(h, es[1..], l);
    }
  }

  /** The in-degree pass misses what is outside the graph and repeats what it finds through one list twice. */
  lemma {:induction false} InternalAccounting(h: Heap, envs: seq<nat>, cs: seq<nat>, a: nat)
    requires Graph(h, envs, cs)
    ensures var m := multiset(Inside(h, envs, cs));
      HeapRefs(h, a) + Overcount(h, m, a) == Internal(h, envs, cs, a) + Occ(AllLists(h, cs), a) + Unseen(h, m, a)
  {
    InternalIsWeighted(h, envs, cs, a);
    Accounting(h, multiset(Inside(h, envs, cs)), a);
  }

  /** With single owners, a list that leads somewhere is opened at most once. */
  lemma {:induction false} CountedOnce(h: Heap, roots: multiset<nat>, envs: seq<nat>, cs: seq<nat>, l: nat)
    requires Graph(h, envs, cs) && SinglyOwned(h, roots, cs) && Loaded(h, l)
    ensures Occ(AllLists(h, cs), l) <= 1
    decreases |h| - l
  {
    hide WellFormed, Held, Internal, Occ, Loaded;
    LoadedIsList(h, l);
    HoldersOnce(h, roots, envs, cs, l);
    NoInternalList(h, envs, cs, l);
    InternalAccounting(h, envs, cs, l);
    NothingRepeated(h, multiset(Inside(h, envs, cs)), l);
    OccIn(AllLists(h, cs), l);
  }

  lemma {:induction false} LoadedIsList(h: Heap, l: nat)
    requires WellFormed(h) && Loaded(h, l)
    ensures IsList(h, l) && !IsEnv(h, l) && !IsCarrier(h, l)
  {
  }

  /** Whatever holds something that matters is seen at most once. */
  lemma {:induction false} HoldersOnce(h: Heap, roots: multiset<nat>, envs: seq<nat>, cs: seq<nat>, a: nat)
    requires Graph(h, envs, cs) && SinglyOwned(h, roots, cs)
    requires IsEnv(h, a) || IsCarrier(h, a) || Loaded(h, a)
    ensures forall o :: 0 <= o < |h| && Held(h[o], a) > 0 ==> multiset(Inside(h, envs, cs))[o] <= 1
    decreases if Loaded(h, a) then |h| - a else |h| + 1, 1
  {
    forall o | 0 <= o < |h| && Held(h[o], a) > 0
      ensures multiset(Inside(h, envs, cs))[o] <= 1
    {
      HolderOnce(h, roots, envs, cs, a, o);
    }
  }

  lemma {:induction false} HolderOnce(h: Heap, roots: multiset<nat>, envs: seq<nat>, cs: seq<nat>, a: nat, o: nat)
    requires Graph(h, envs, cs) && SinglyOwned(h, roots, cs) && o < |h| && Held(h[o], a) > 0
    requires IsEnv(h, a) || IsCarrier(h, a) || Loaded(h, a)
    ensures multiset(Inside(h, envs, cs))[o] <= 1
    decreases if Loaded(h, a) then |h| - a else |h| + 1, 0
  {
    hide SinglyOwned, WellFormed, Held, Loaded, Inside;
    InsideOnce(h, envs, cs, o);
    if IsList(h, o) {
      HolderLoaded(h, o, a);
      if Loaded(h, a) {
        LoadedIsList(h, a);
        ListHolder(h, o, a);
      }
      LoadedIsList(h, o);
      CountedOnce(h, roots, envs, cs, o);
    }
  }

  /** Something outside the graph, a root or an allocation, refers to `a`. */
  ghost predicate Outside(h: Heap, roots: multiset<nat>, envs: seq<nat>, cs: seq<nat>, a: nat)
    requires Graph(h, envs, cs)
  {
    roots[a] > 0 || HeldOutside(h, multiset(Inside(h, envs, cs)), a)
  }

  /** The surplus of an allocation's strong count over the edges that lead to it. */
  ghost function External(h: Heap, roots: multiset<nat>, envs: seq<nat>, cs: seq<nat>, a: nat): int
    requires Graph(h, envs, cs)
  {
    StrongCount(h, roots, a) - Internal(h, envs, cs, a)
  }

  /**
   What a strong count says on any heap: the surplus is the references from outside the
   graph, less what is counted again each further time the same list is opened.
   */
  lemma {:induction false} SurplusAccounting(h: Heap, roots: multiset<nat>, envs: seq<nat>, cs: seq<nat>, a: nat)
    requires Graph(h, envs, cs) && (IsEnv(h, a) || IsCarrier(h, a))
    ensures var m := multiset(Inside(h, envs, cs));
      External(h, roots, envs, cs, a) == roots[a] + Unseen(h, m, a) - Overcount(h, m, a)
    ensures Outside(h, roots, envs, cs, a) <==> roots[a] + Unseen(h, multiset(Inside(h, envs, cs)), a) > 0
    ensures forall o :: 0 <= o < |h| && multiset(Inside(h, envs, cs))[o] > 1 ==> IsList(h, o)
  {
    hide Held, Unseen, Overcount, AllLists;
    var m := multiset(Inside(h, envs, cs));
    AllKinds(h, cs);
    OccIn(AllLists(h, cs), a);
    InternalAccounting(h, envs, cs, a);
    NothingUnseen(h, m, a);
    forall o | 0 <= o < |h| && m[o] > 1
      ensures IsList(h, o)
    {
      InsideOnce(h, envs, cs, o);
    }
  }

  /** Trial deletion by counting is exact: a surplus is a reference from outside. */
  lemma {:induction false} SurplusIsOutside(h: Heap, roots: multiset<nat>, envs: seq<nat>, cs: seq<nat>, a: nat)
    requires Graph(h, envs, cs) && SinglyOwned(h, roots, cs) && (IsEnv(h, a) || IsCarrier(h, a))
    ensures External(h, roots, envs, cs, a) >= 0
    ensures External(h, roots, envs, cs, a) > 0 <==> Outside(h, roots, envs, cs, a)
  {
    hide SinglyOwned, Held, WellFormed;
    HoldersOnce(h, roots, envs, cs, a);
    NothingRepeated(h, multiset(Inside(h, envs, cs)), a);
    SurplusAccounting(h, roots, envs, cs, a);
  }

  /** A list of the graph that leads somewhere is held by nothing else. */
  lemma {:induction false} ListNotOutside(h: Heap, roots: multiset<nat>, envs: seq<nat>, cs: seq<nat>, l: nat)
    requires Graph(h, envs, cs) && SinglyOwned(h, roots, cs) && l in AllLists(h, cs) && Loaded(h, l)
    ensures !Outside(h, roots, envs, cs, l)
  {
    hide Held, WellFormed, Internal, Occ, Loaded;
    var m := multiset(Inside(h, envs, cs));
    LoadedIsList(h, l);
    HoldersOnce(h, roots, envs, cs, l);
    NothingRepeated(h, m, l);
    NoInternalList(h, envs, cs, l);
    InternalAccounting(h, envs, cs, l);
    NothingUnseen(h, m, l);
    OccIn(AllLists(h, cs), l);
  }
}
