/** The other half of the collector: what is not reachable from outside is freed. */
module Reclaiming {
  import opened Prelude
  import opened RcHeap
  import opened Tracing
  import opened GcTheory
  import opened Sweeping

  // ----- marking reaches nothing else -----

  /** `q` leads, through lists, from any holder of `refs` to `b`. */
  ghost predicate Leads(h: Heap, refs: seq<nat>, q: seq<nat>, b: nat) {
    if q == [] then b in refs
    else q[0] in refs && Path(h, q) && Held(h[q[|q| - 1]], b) > 0
  }

  lemma {:induction false} FoundLeads(h: Heap, vs: seq<Val>, b: nat) returns (q: seq<nat>)
    requires AllOk(h, vs) && b in Refs(Flatten(h, vs))
    ensures Leads(h, Refs(vs), q, b)
    decreases ListBound(vs), |vs|
  {
    Opens(h, vs);
    assert Refs(vs) == Ref(vs[0]) + Refs(vs[1..]);
    if vs[0].List? {
      var l := vs[0].id;
      var items := h[l].items;
      RefsConcat(Flatten(h, items), Flatten(h, vs[1..]));
      if b in Refs(Flatten(h, items)) {
        var r := FoundLeads(h, items, b);
        q := [l] + r;
        ChainLeads(h, l, r, b);
      } else {
        q := FoundLeads(h, vs[1..], b);
      }
    } else {
      RefsConcat([vs[0]], Flatten(h, vs[1..]));
      assert Refs([vs[0]]) == Ref(vs[0]) + Refs([vs[0]][1..]) == Ref(vs[0]);
      if b in Ref(vs[0]) {
        q := [];
      } else {
        q := FoundLeads(h, vs[1..], b);
      }
    }
  }

  lemma {:induction false} ChainLeads(h: Heap, l: nat, r: seq<nat>, b: nat)
    requires l < |h| && Leads(h, Outs(h[l]), r, b)
    ensures Path(h, [l] + r) && Held(h[([l] + r)[|r|]], b) > 0
  {
    var q := [l] + r;
    if r == [] {
      HeldIn(h[l], b);
    } else {
      HeldIn(h[l], r[0]);
      assert q[|r|] == r[|r| - 1];
      forall i | 0 <= i < |q| - 1
        ensures Held(h[q[i]], q[i + 1]) > 0
      {
        if i > 0 {
          assert q[i] == r[i - 1] && q[i + 1] == r[i - 1 + 1];
        }
      }
    }
  }

  lemma {:induction false} PathConcat(h: Heap, p: seq<nat>, q: seq<nat>)
    requires Path(h, p) && Path(h, q) && Held(h[p[|p| - 1]], q[0]) > 0
    ensures Path(h, p + q)
  {
    var r := p + q;
    forall i | 0 <= i < |r| - 1
      ensures Held(h[r[i]], r[i + 1]) > 0
    {
      if i < |p| - 1 {
        assert Held(h[p[i]], p[i + 1]) > 0;
      } else if i >= |p| {
        var j := i - |p|;
        assert Held(h[q[j]], q[j + 1]) > 0;
      }
    }
  }

  /** An edge of the graph is a stretch of path through lists only. */
  lemma {:induction false} EdgePath(h: Heap, envs: seq<nat>, a: nat, b: nat) returns (q: seq<nat>)
    requires WellFormed(h) && Edge(h, envs, a, b)
    ensures a < |h| && b < |h| && Path(h, [a] + q) && Held(h[([a] + q)[|q|]], b) > 0
  {
    assert ObjOk(h, a);
    q := [];
    if IsEnv(h, a) {
      HeldIn(h[a], b);
    } else {
      SlotsOk(h, a);
      FlattenKinds(h, h[a].slots);
      q := FoundLeads(h, h[a].slots, b);
      ChainLeads(h, a, q, b);
    }
  }

  lemma {:induction false} PathTail(h: Heap, a: nat, q: seq<nat>)
    requires Path(h, [a] + q) && q != []
    ensures Path(h, q) && a < |h| && Held(h[a], q[0]) > 0
  {
    var r := [a] + q;
    assert r[0] == a && Held(h[r[0]], r[0 + 1]) > 0;
    forall i | 0 <= i < |q|
      ensures q[i] < |h| && (i < |q| - 1 ==> Held(h[q[i]], q[i + 1]) > 0)
    {
      assert r[i + 1] == q[i];
      assert i < |q| - 1 ==> r[i + 1 + 1] == q[i + 1] && Held(h[r[i + 1]], r[i + 1 + 1]) > 0;
    }
  }

  /** `p`, then the stretch `q` out of its last allocation, then `b`. */
  lemma {:induction false} PathExtends(h: Heap, p: seq<nat>, q: seq<nat>, b: nat)
    requires Path(h, p) && Path(h, [p[|p| - 1]] + q) && b < |h|
    requires var r := [p[|p| - 1]] + q; Held(h[r[|q|]], b) > 0
    ensures Path(h, p + q + [b])
  {
    hide Held;
    if q != [] {
      PathTail(h, p[|p| - 1], q);
      PathConcat(h, p, q);
      assert (p + q)[|p + q| - 1] == q[|q| - 1] == ([p[|p| - 1]] + q)[|q|];
    } else {
      assert p + q == p;
    }
    assert Path(h, [b]);
    PathConcat(h, p + q, [b]);
  }

  lemma {:induction false} ReachableStep(h: Heap, roots: multiset<nat>, envs: seq<nat>, cs: seq<nat>, a: nat, b: nat)
    requires Graph(h, envs, cs) && Reachable(h, roots, envs, cs, a) && Edge(h, envs, a, b)
    ensures Reachable(h, roots, envs, cs, b)
  {
    hide WellFormed, Edge, Held, Inside;
    var p :| FromOutside(h, roots, envs, cs, p) && p[|p| - 1] == a;
    var q := EdgePath(h, envs, a, b);
    PathExtends(h, p, q, b);
    var r := p + q + [b];
    assert r[0] == p[0] && r[|r| - 1] == b;
    assert FromOutside(h, roots, envs, cs, r);
  }

  lemma {:induction false} OutsideReachable(h: Heap, roots: multiset<nat>, envs: seq<nat>, cs: seq<nat>, a: nat)
    requires Graph(h, envs, cs) && Outside(h, roots, envs, cs, a) && a < |h|
    ensures Reachable(h, roots, envs, cs, a)
  {
    hide Held, WellFormed, Inside;
    var m := multiset(Inside(h, envs, cs));
    if roots[a] > 0 {
      assert [a][0] == a && FromOutside(h, roots, envs, cs, [a]);
    } else {
      var o :| 0 <= o < |h| && m[o] == 0 && Held(h[o], a) > 0;
      var p := [o, a];
      assert p[0] == o && p[1] == a && Path(h, p);
      assert FromOutside(h, roots, envs, cs, p);
    }
  }

  /** On any heap, what is marked is reachable: the over-count can only hide references, not invent them. */
  lemma {:induction false} MarkedIsReachable(h: Heap, roots: multiset<nat>, envs: seq<nat>, cs: seq<nat>,
        alive: set<nat>, a: nat)
    requires Tracked(h, envs, cs) && Marked(h, roots, envs, cs, alive) && a in alive
    ensures Reachable(h, roots, envs, cs, a)
  {
    hide Roomy, WellFormed, Reachable, Outside, External, Edge, Unseen, Overcount;
    var s := set x | x in alive && Reachable(h, roots, envs, cs, x);
    forall x | Node(envs, cs, x) && External(h, roots, envs, cs, x) > 0
      ensures x in s
    {
      SurplusAccounting(h, roots, envs, cs, x);
      OutsideReachable(h, roots, envs, cs, x);
    }
    forall x, y | Node(envs, cs, x) && x in s && Edge(h, envs, x, y)
      ensures y in s
    {
      ReachableStep(h, roots, envs, cs, x, y);
    }
    assert Propagated(h, roots, envs, cs, s);
    assert alive <= s;
  }

  /** A node with more references from outside than are counted again through reopened lists. */
  ghost predicate Excess(h: Heap, roots: multiset<nat>, envs: seq<nat>, cs: seq<nat>, a: nat)
    requires Graph(h, envs, cs)
  {
    var m := multiset(Inside(h, envs, cs));
    Node(envs, cs, a) && roots[a] + Unseen(h, m, a) > Overcount(h, m, a)
  }

  /** Edges of the graph from a node with an excess. */
  ghost predicate Trail(h: Heap, roots: multiset<nat>, envs: seq<nat>, cs: seq<nat>, t: seq<nat>)
    requires Graph(h, envs, cs)
  {
    t != [] && Excess(h, roots, envs, cs, t[0])
    && forall i :: 0 <= i < |t| - 1 ==> Node(envs, cs, t[i]) && Edge(h, envs, t[i], t[i + 1])
  }

  lemma {:induction false} TrailAlive(h: Heap, roots: multiset<nat>, envs: seq<nat>, cs: seq<nat>, alive: set<nat>,
        t: seq<nat>)
    requires Tracked(h, envs, cs) && Marked(h, roots, envs, cs, alive) && Trail(h, roots, envs, cs, t)
    ensures t[|t| - 1] in alive
    decreases |t|
  {
    hide Roomy, WellFormed, Edge, Unseen, Overcount, Inside, External;
    var n := |t| - 1;
    if n == 0 {
      NodeSurplus(h, roots, envs, cs, t[0]);
    } else {
      assert Node(envs, cs, t[n - 1]) && Edge(h, envs, t[n - 1], t[n - 1 + 1]);
      assert t[..n][|t[..n]| - 1] == t[n - 1];
      TrailAlive(h, roots, envs, cs, alive, t[..n]);
    }
  }

  lemma {:induction false} NodeSurplus(h: Heap, roots: multiset<nat>, envs: seq<nat>, cs: seq<nat>, a: nat)
    requires Graph(h, envs, cs) && Node(envs, cs, a)
    ensures External(h, roots, envs, cs, a) > 0 <==> Excess(h, roots, envs, cs, a)
  {
    hide WellFormed, External, Unseen, Overcount, Inside;
    SurplusAccounting(h, roots, envs, cs, a);
  }

  /** On every heap, what is marked is what edges lead to from the nodes with an excess. */
  lemma {:induction false} MarkedIsLed(h: Heap, roots: multiset<nat>, envs: seq<nat>, cs: seq<nat>, alive: set<nat>,
        a: nat)
    requires Tracked(h, envs, cs) && Marked(h, roots, envs, cs, alive)
    ensures a in alive <==> exists t :: Trail(h, roots, envs, cs, t) && t[|t| - 1] == a
  {
    hide Roomy, WellFormed, Edge, Excess, External;
    if exists t :: Trail(h, roots, envs, cs, t) && t[|t| - 1] == a {
      var t :| Trail(h, roots, envs, cs, t) && t[|t| - 1] == a;
      TrailAlive(h, roots, envs, cs, alive, t);
    }
    var s := set x | x in alive && exists t :: Trail(h, roots, envs, cs, t) && t[|t| - 1] == x;
    forall x | Node(envs, cs, x) && External(h, roots, envs, cs, x) > 0
      ensures x in s
    {
      NodeSurplus(h, roots, envs, cs, x);
      assert Trail(h, roots, envs, cs, [x]) && [x][|[x]| - 1] == x;
    }
    forall x: nat, y: nat | Node(envs, cs, x) && x in s && Edge(h, envs, x, y)
      ensures y in s
    {
      var t :| Trail(h, roots, envs, cs, t) && t[|t| - 1] == x;
      var r := t + [y];
      assert Trail(h, roots, envs, cs, r) && r[|r| - 1] == y;
    }
    assert Propagated(h, roots, envs, cs, s);
    assert alive <= s;
  }

  /**
   Marking is exact just when what is referred to from outside is covered: a node of
   which something outside has hold, and every node a list leads to of which it has.
   Then a node is marked if and only if something outside can reach it.
   */
  lemma {:induction false} MarkIsExact(h: Heap, roots: multiset<nat>, envs: seq<nat>, cs: seq<nat>, alive: set<nat>)
    requires Tracked(h, envs, cs) && Marked(h, roots, envs, cs, alive)
    ensures Covered(h, roots, envs, cs, alive) <==>
      forall a :: Node(envs, cs, a) ==> (a in alive <==> Reachable(h, roots, envs, cs, a))
    ensures SinglyOwned(h, roots, cs) ==> Covered(h, roots, envs, cs, alive)
  {
    hide Roomy, WellFormed, SinglyOwned, Reachable, Marked, Covered, Node;
    if SinglyOwned(h, roots, cs) {
      SinglyOwnedCovered(h, roots, envs, cs, alive);
    }
    if Covered(h, roots, envs, cs, alive) {
      forall a | Node(envs, cs, a)
        ensures a in alive <==> Reachable(h, roots, envs, cs, a)
      {
        if a in alive {
          MarkedIsReachable(h, roots, envs, cs, alive, a);
        }
        if Reachable(h, roots, envs, cs, a) {
          ReachableMarked(h, roots, envs, cs, alive, a);
        }
      }
    }
    if forall a :: Node(envs, cs, a) ==> (a in alive <==> Reachable(h, roots, envs, cs, a)) {
      ReachesCovered(h, roots, envs, cs, alive);
    }
  }

  lemma {:induction false} ReachableMarked(h: Heap, roots: multiset<nat>, envs: seq<nat>, cs: seq<nat>, alive: set<nat>,
        a: nat)
    requires Tracked(h, envs, cs) && Marked(h, roots, envs, cs, alive) && Covered(h, roots, envs, cs, alive)
    requires Reachable(h, roots, envs, cs, a) && Node(envs, cs, a)
    ensures a in alive
  {
    hide Covered, Marked, Roomy, WellFormed;
    var p :| FromOutside(h, roots, envs, cs, p) && p[|p| - 1] == a;
    PathKept(h, roots, envs, cs, alive, p);
  }

  lemma {:induction false} ReachesCovered(h: Heap, roots: multiset<nat>, envs: seq<nat>, cs: seq<nat>, alive: set<nat>)
    requires Graph(h, envs, cs)
    requires forall a :: Node(envs, cs, a) && Reachable(h, roots, envs, cs, a) ==> a in alive
    ensures Covered(h, roots, envs, cs, alive)
  {
    hide WellFormed, Reachable, Outside, LeadsTo;
    forall a | 0 <= a < |h| && Outside(h, roots, envs, cs, a)
      ensures Kept(h, envs, cs, alive, a)
    {
      OutsideReachable(h, roots, envs, cs, a);
      forall b | LeadsTo(h, a, b)
        ensures Reachable(h, roots, envs, cs, b)
      {
        LedReachable(h, roots, envs, cs, a, b);
      }
    }
  }

  /** What a reachable list leads to is reachable. */
  lemma {:induction false} LedReachable(h: Heap, roots: multiset<nat>, envs: seq<nat>, cs: seq<nat>, l: nat, b: nat)
    requires Graph(h, envs, cs) && Reachable(h, roots, envs, cs, l) && LeadsTo(h, l, b)
    ensures Reachable(h, roots, envs, cs, b)
  {
    hide Held, Inside;
    var p :| FromOutside(h, roots, envs, cs, p) && p[|p| - 1] == l;
    assert ValOk(h, List(l));
    OpensToItems(h, List(l));
    FlattenKinds(h, h[l].items);
    var q := FoundLeads(h, h[l].items, b);
    ChainLeads(h, l, q, b);
    PathExtends(h, p, q, b);
    var r := p + q + [b];
    assert r[0] == p[0] && r[|r| - 1] == b;
    assert FromOutside(h, roots, envs, cs, r);
  }

  /** What a reachable allocation holds is reachable. */
  lemma {:induction false} HeldReachable(h: Heap, roots: multiset<nat>, envs: seq<nat>, cs: seq<nat>, o: nat, a: nat)
    requires Graph(h, envs, cs) && Reachable(h, roots, envs, cs, o) && o < |h| && a < |h| && Held(h[o], a) > 0
    ensures Reachable(h, roots, envs, cs, a)
  {
    hide Held, Inside, WellFormed;
    var p :| FromOutside(h, roots, envs, cs, p) && p[|p| - 1] == o;
    var r := p + [a];
    assert Path(h, [a]);
    PathConcat(h, p, [a]);
    assert r[0] == p[0] && r[|r| - 1] == a;
    assert FromOutside(h, roots, envs, cs, r);
  }

  // ----- what reference counting does next -----

  /** One allocation without references is freed, which releases what it held. */
  ghost predicate Release(h: Heap, roots: multiset<nat>, o: nat, h': Heap) {
    o < |h| && !h[o].Freed? && StrongCount(h, roots, o) == 0 && h' == h[o := Freed]
  }

  /** `h'` is what remains of `h` after freeing the allocations of `order`, each when its count was zero. */
  ghost predicate Released(h: Heap, roots: multiset<nat>, order: seq<nat>, h': Heap)
    decreases |order|
  {
    if order == [] then h' == h
    else exists h1 :: Release(h, roots, order[0], h1) && Released(h1, roots, order[1..], h')
  }

  /** Nothing is left to free. */
  ghost predicate Settled(h: Heap, roots: multiset<nat>) {
    forall o :: 0 <= o < |h| && !h[o].Freed? ==> StrongCount(h, roots, o) > 0
  }

  lemma {:induction false} ReleasedOnlyFrees(h: Heap, roots: multiset<nat>, order: seq<nat>, h': Heap)
    requires Released(h, roots, order, h')
    ensures |h'| == |h| && forall o :: 0 <= o < |h| ==> h'[o] == h[o] || h'[o].Freed?
    decreases |order|
  {
    if order != [] {
      var h1 :| Release(h, roots, order[0], h1) && Released(h1, roots, order[1..], h');
      ReleasedOnlyFrees(h1, roots, order[1..], h');
    }
  }

  /** Reference counting never frees what a root can reach. */
  lemma {:induction false} ReleasedKeepsReachable(h: Heap, roots: multiset<nat>, order: seq<nat>, h': Heap, p: seq<nat>)
    requires Released(h, roots, order, h') && Path(h, p) && roots[p[0]] > 0
    requires forall i :: 0 <= i < |p| ==> !h[p[i]].Freed?
    ensures |h'| == |h| && forall i :: 0 <= i < |p| ==> h'[p[i]] == h[p[i]]
    decreases |order|
  {
    hide Held;
    if order != [] {
      var o := order[0];
      var h1 :| Release(h, roots, o, h1) && Released(h1, roots, order[1..], h');
      forall i | 0 <= i < |p|
        ensures p[i] != o && h1[p[i]] == h[p[i]]
      {
        if i > 0 {
          HolderCounts(h, p[i], p[i - 1]);
          assert Held(h[p[i - 1]], p[i - 1 + 1]) > 0;
        }
      }
      assert Path(h1, p);
      ReleasedKeepsReachable(h1, roots, order[1..], h', p);
    }
  }

  ghost function Unfreed(h: Heap): nat {
    if h == [] then 0 else Unfreed(h[..|h| - 1]) + if h[|h| - 1].Freed? then 0 else 1
  }

  lemma {:induction false} FreeingCounts(h: Heap, o: nat)
    requires o < |h| && !h[o].Freed?
    ensures Unfreed(h[o := Freed]) == Unfreed(h) - 1
  {
    var n := |h| - 1;
    if o == n {
      assert h[o := Freed][..n] == h[..n];
    } else {
      assert h[o := Freed][..n] == h[..n][o := Freed];
      FreeingCounts(h[..n], o);
    }
  }

  /** Reference counting comes to rest from any heap. */
  lemma {:induction false} ReleaseSettles(h: Heap, roots: multiset<nat>) returns (order: seq<nat>, h': Heap)
    ensures Released(h, roots, order, h') && Settled(h', roots)
    decreases Unfreed(h)
  {
    hide HeapRefs, Unfreed;
    order, h' := [], h;
    if !Settled(h, roots) {
      var o :| 0 <= o < |h| && !h[o].Freed? && StrongCount(h, roots, o) == 0;
      FreeingCounts(h, o);
      var rest;
      rest, h' := ReleaseSettles(h[o := Freed], roots);
      order := [o] + rest;
      assert order[1..] == rest && Release(h, roots, order[0], h[o := Freed]);
    }
  }

  /** The situation after a sweep, once reference counting has come to rest. */
  ghost predicate Reclaimed(h: Heap, roots: multiset<nat>, envs: seq<nat>, cs: seq<nat>, alive: set<nat>, h': Heap,
        hf: Heap) {
    Swept(h, roots, envs, cs, alive, h')
    && |hf| == |h| && (forall o :: 0 <= o < |h| ==> hf[o] == h'[o] || hf[o].Freed?) && Settled(hf, roots)
  }

  ghost predicate FindsDead(h: Heap, vs: seq<Val>, dead: set<nat>)
    requires AllOk(h, vs)
  {
    exists w :: w in Flatten(h, vs) && w.Closure? && w.env in dead
  }

  /** A cleared slot that survives leads to no dead environment, directly or through lists. */
  lemma {:induction false} ClearedSlot(h: Heap, cs: seq<nat>, dead: set<nat>, h': Heap, c: nat, a: nat) returns (v: Val)
    requires WellFormed(h) && Cleared(h, cs, dead, h') && c in cs && IsCarrier(h, c) && Held(h'[c], a) > 0
    ensures Held(h[c], a) > 0 && a in Ref(v) && ValOk(h, v) && !TargetsDead(h, v, dead)
  {
    SlotsOk(h, c);
    var vs := h[c].slots;
    var r := ClearSlots(h, vs, dead);
    HeldIn(h'[c], a);
    RefsOf(r, a);
    var i :| 0 <= i < |r| && a in Ref(r[i]);
    v := vs[i];
    RefIn(vs, v, a);
    HeldIn(h[c], a);
  }

  /** A list that led to a dead environment is gone: the slot or list that held it is. */
  lemma {:induction false} DeadListFreed(h: Heap, roots: multiset<nat>, envs: seq<nat>, cs: seq<nat>, alive: set<nat>,
                                         h': Heap, hf: Heap, l: nat)
    requires Reclaimed(h, roots, envs, cs, alive, h', hf)
    requires IsList(h, l) && AllOk(h, h[l].items) && !Reachable(h, roots, envs, cs, l)
    requires FindsDead(h, h[l].items, Dead(envs, alive))
    ensures hf[l].Freed?
    decreases |h| - l
  {
    hide Marked, Roomy, Held, AllOk, WellFormed, AllLists, Reachable, Outside;
    var dead := Dead(envs, alive);
    if !hf[l].Freed? {
      var p := StillHeld(h, roots, envs, cs, alive, h', hf, l);
      if p in cs {
        var v := ClearedSlot(h, cs, dead, h', p, l);
        OpensToItems(h, v);
      } else {
        assert h'[p] == h[p];
        OuterList(h, roots, envs, cs, l, p);
        ItemsFind(h, h[p].items, List(l));
        DeadListFreed(h, roots, envs, cs, alive, h', hf, p);
      }
    }
  }

  /** An allocation that survives without a reference from outside has a surviving holder in the graph. */
  lemma {:induction false} StillHeld(h: Heap, roots: multiset<nat>, envs: seq<nat>, cs: seq<nat>, alive: set<nat>,
        h': Heap, hf: Heap, a: nat) returns (p: nat)
    requires Reclaimed(h, roots, envs, cs, alive, h', hf) && a < |h| && !hf[a].Freed?
    requires !Reachable(h, roots, envs, cs, a)
    ensures p < |hf| && hf[p] == h'[p] && Held(hf[p], a) > 0
  {
    hide Marked, Roomy, Held, WellFormed, Reachable, Cleared;
    if roots[a] > 0 {
      OutsideReachable(h, roots, envs, cs, a);
    }
    CountHasHolder(hf, a);
    p :| 0 <= p < |hf| && Held(hf[p], a) > 0;
    HeldIn(hf[p], a);
  }

  /** Other than a tracked carrier, only a list of the graph holds a list of the graph. */
  lemma {:induction false} OuterList(h: Heap, roots: multiset<nat>, envs: seq<nat>, cs: seq<nat>, l: nat, p: nat)
    requires Graph(h, envs, cs) && IsList(h, l) && !Reachable(h, roots, envs, cs, l)
    requires p < |h| && p !in cs && Held(h[p], l) > 0
    ensures IsList(h, p) && p > l && AllOk(h, h[p].items) && List(l) in h[p].items
    ensures !Reachable(h, roots, envs, cs, p)
  {
    hide WellFormed, Held, Inside, Reachable, Outside;
    if p !in Inside(h, envs, cs) {
      HeldFromOutside(h, roots, envs, cs, p, l);
      OutsideReachable(h, roots, envs, cs, l);
    }
    if Reachable(h, roots, envs, cs, p) {
      HeldReachable(h, roots, envs, cs, p, l);
    }
    ListHolder(h, p, l);
    InsideKind(h, envs, cs, p);
    HeldItem(h, p, l);
  }

  lemma {:induction false} InsideKind(h: Heap, envs: seq<nat>, cs: seq<nat>, p: nat)
    requires Graph(h, envs, cs) && p in Inside(h, envs, cs) && p !in cs && !IsEnv(h, p)
    ensures IsList(h, p)
  {
    AllKinds(h, cs);
  }

  lemma {:induction false} HeldItem(h: Heap, p: nat, l: nat)
    requires WellFormed(h) && IsList(h, p) && IsList(h, l) && Held(h[p], l) > 0
    ensures AllOk(h, h[p].items) && List(l) in h[p].items
  {
    assert ObjOk(h, p);
    HeldIn(h[p], l);
    var v := RefFrom(h[p].items, l);
    assert ValOk(h, v);
  }

  lemma {:induction false} ItemsFind(h: Heap, vs: seq<Val>, v: Val)
    requires AllOk(h, vs) && v in vs && v.List?
    ensures AllOk(h, h[v.id].items) && forall w :: w in Flatten(h, h[v.id].items) ==> w in Flatten(h, vs)
  {
    OpensToItems(h, v);
    DirectFound(h, vs, v);
  }

  /** A dead environment is freed: only younger dead environments can hold it up, and they go first. */
  lemma {:induction false} DeadFreed(h: Heap, roots: multiset<nat>, envs: seq<nat>, cs: seq<nat>, alive: set<nat>,
                                     h': Heap, hf: Heap, e: nat)
    requires Reclaimed(h, roots, envs, cs, alive, h', hf) && e in Dead(envs, alive) && e < |h|
    requires !Reachable(h, roots, envs, cs, e)
    ensures e < |hf| && hf[e].Freed?
    decreases |h| - e
  {
    hide Roomy, Reachable, Marked, Held;
    var dead := Dead(envs, alive);
    if !hf[e].Freed? {
      var o := StillHeld(h, roots, envs, cs, alive, h', hf, e);
      if o in cs {
        var v := ClearedSlot(h, cs, dead, h', o, e);
        AtomFlatten(h, v, e);
      } else {
        assert h'[o] == h[o];
        DeadHolder(h, roots, envs, cs, alive, o, e);
        if o in envs {
          DeadFreed(h, roots, envs, cs, alive, h', hf, o);
        } else {
          DeadListFreed(h, roots, envs, cs, alive, h', hf, o);
        }
      }
    }
  }

  lemma {:induction false} AtomFlatten(h: Heap, v: Val, e: nat)
    requires WellFormed(h) && ValOk(h, v) && IsEnv(h, e) && e in Ref(v)
    ensures v.Closure? && v.env == e && v in Flatten(h, [v])
  {
    DirectFound(h, [v], v);
  }

  /** Untouched by clearing, only a younger dead environment or a list of the graph can hold a dead environment. */
  lemma {:induction false} DeadHolder(h: Heap, roots: multiset<nat>, envs: seq<nat>, cs: seq<nat>, alive: set<nat>,
        o: nat, e: nat)
    requires Tracked(h, envs, cs) && Marked(h, roots, envs, cs, alive) && !Reachable(h, roots, envs, cs, e)
    requires e in Dead(envs, alive) && e < |h| && o < |h| && o !in cs && Held(h[o], e) > 0
    ensures !Reachable(h, roots, envs, cs, o)
    ensures if o in envs then o in Dead(envs, alive) && o > e
            else IsList(h, o) && AllOk(h, h[o].items) && FindsDead(h, h[o].items, Dead(envs, alive))
  {
    hide Roomy, Marked, Held, Inside, Reachable, Outside;
    if Reachable(h, roots, envs, cs, o) {
      HeldReachable(h, roots, envs, cs, o, e);
    }
    if o in envs {
      DeadChild(h, roots, envs, cs, alive, o, e);
    } else {
      if o !in Inside(h, envs, cs) {
        HeldFromOutside(h, roots, envs, cs, o, e);
        OutsideReachable(h, roots, envs, cs, e);
      }
      DeadInList(h, envs, cs, o, e);
    }
  }

  lemma {:induction false} DeadChild(h: Heap, roots: multiset<nat>, envs: seq<nat>, cs: seq<nat>, alive: set<nat>,
        o: nat, e: nat)
    requires Tracked(h, envs, cs) && Marked(h, roots, envs, cs, alive)
    requires e in Dead(envs, alive) && o in envs && Held(h[o], e) > 0
    ensures o in Dead(envs, alive) && o > e
  {
    hide Roomy;
    HeldIn(h[o], e);
    assert ObjOk(h, o);
    assert h[o].parent == Some(e);
    assert Edge(h, envs, o, e);
  }

  lemma {:induction false} DeadInList(h: Heap, envs: seq<nat>, cs: seq<nat>, o: nat, e: nat)
    requires Graph(h, envs, cs) && e in envs && o !in envs && o !in cs && o in Inside(h, envs, cs)
    requires o < |h| && Held(h[o], e) > 0
    ensures IsList(h, o) && AllOk(h, h[o].items) && FindsDead(h, h[o].items, {e})
  {
    AllKinds(h, cs);
    assert o in AllLists(h, cs);
    HeldIn(h[o], e);
    assert ObjOk(h, o);
    var v := RefFrom(h[o].items, e);
    assert ValOk(h, v);
    DirectFound(h, h[o].items, v);
  }

  /**
   Completeness and safety together, for any order in which reference counting frees
   what the sweep has cut loose.  On every heap, registered environments that nothing
   outside can reach are gone; and where what is referred to from outside is covered,
   whatever a root can reach is still there, unchanged.
   */
  lemma {:induction false} SweepReclaims(h: Heap, roots: multiset<nat>, envs: seq<nat>, cs: seq<nat>, alive: set<nat>,
                                         h': Heap, order: seq<nat>, hf: Heap)
    requires Swept(h, roots, envs, cs, alive, h')
    requires Released(h', roots, order, hf) && Settled(hf, roots)
    ensures |hf| == |h|
    ensures forall e :: e in envs && !Reachable(h, roots, envs, cs, e) ==> hf[e].Freed?
    ensures Covered(h, roots, envs, cs, alive) ==>
      forall p :: Path(h, p) && roots[p[0]] > 0 && (forall i :: 0 <= i < |p| ==> !h[p[i]].Freed?) ==>
        hf[p[|p| - 1]] == h[p[|p| - 1]]
  {
    hide Covered, Marked, Roomy, WellFormed, Reachable;
    ReleasedOnlyFrees(h', roots, order, hf);
    forall e | e in envs && !Reachable(h, roots, envs, cs, e)
      ensures hf[e].Freed?
    {
      if e in alive {
        MarkedIsReachable(h, roots, envs, cs, alive, e);
      }
      DeadFreed(h, roots, envs, cs, alive, h', hf, e);
    }
    if Covered(h, roots, envs, cs, alive) {
      forall p | Path(h, p) && roots[p[0]] > 0 && (forall i :: 0 <= i < |p| ==> !h[p[i]].Freed?)
        ensures hf[p[|p| - 1]] == h[p[|p| - 1]]
      {
        RootPathUnchanged(h, roots, envs, cs, alive, h', p);
        ReleasedKeepsReachable(h', roots, order, hf, p);
      }
    }
  }

  /** A path from a root is the same path after the sweep. */
  lemma {:induction false} RootPathUnchanged(h: Heap, roots: multiset<nat>, envs: seq<nat>, cs: seq<nat>,
        alive: set<nat>,
                                             h': Heap, p: seq<nat>)
    requires Swept(h, roots, envs, cs, alive, h') && Covered(h, roots, envs, cs, alive) && Path(h, p) && roots[p[0]] > 0
    ensures |h'| == |h| && Path(h', p) && forall i :: 0 <= i < |p| ==> h'[p[i]] == h[p[i]]
  {
    hide Covered, Marked, Roomy, WellFormed, Inside, Held;
    forall i | 0 <= i < |p|
      ensures h'[p[i]] == h[p[i]]
    {
      var q := p[..i + 1];
      assert q[0] == p[0] && q[|q| - 1] == p[i];
      assert FromOutside(h, roots, envs, cs, q);
      SweepIsSafe(h, roots, envs, cs, alive, h', p[i]);
    }
  }

  // ----- why lists need a single owner -----

  /** A cell holds a list of one closure over the environment that holds the cell. */
  const SHARED: Heap := [EnvObj([1], None), CarrierObj(Cell, [List(2)]), ListObj([Closure(0, 0)])]

  /**
   A root holds the same list.  The list is counted through but never itself counted,
   so the environment is judged dead and its variable is overwritten while in use.
   */
  lemma {:induction false} SharedListIsUnsound()
    returns (roots: multiset<nat>, envs: seq<nat>, cs: seq<nat>, alive: set<nat>, h': Heap, p: seq<nat>)
    ensures Swept(SHARED, roots, envs, cs, alive, h') && !SinglyOwned(SHARED, roots, cs)
    ensures Path(SHARED, p) && roots[p[0]] > 0 && h'[p[|p| - 1]] != SHARED[p[|p| - 1]]
    ensures exists e :: e in p && e in Dead(envs, alive)
    ensures !Covered(SHARED, roots, envs, cs, alive)
  {
    hide Tracked, Marked, Covered, Cleared, Held, StrongCount, Path, Graph, WellFormed, AllLists, External, AllContents,
      Contents;
    hide ListsIn, Flatten, Opened, Refs, HeapRefs, AllOk, ValOk;
    roots, envs, cs, alive, p := multiset{2}, [0], [1], {}, [2, 0, 1];
    h' := SHARED[1 := CarrierObj(Cell, [Unspecified])];
    SharedParts();
    SharedCounts();
    SharedTracked();
    SharedMarked();
    SharedCleared();
    SharedPath();
    assert 2 in AllLists(SHARED, cs);
    assert p[1] in p && p[1] in Dead(envs, alive);
    if Covered(SHARED, roots, envs, cs, alive) {
      RootPathUnchanged(SHARED, roots, envs, cs, alive, h', p);
    }
  }

  lemma {:induction false} SharedMarked()
    requires Graph(SHARED, [0], [1])
    requires External(SHARED, multiset{2}, [0], [1], 0) == 0 && External(SHARED, multiset{2}, [0], [1], 1) == 0
    ensures Marked(SHARED, multiset{2}, [0], [1], {})
  {
    hide External, Graph, Edge;
    assert Propagated(SHARED, multiset{2}, [0], [1], {});
  }

  lemma {:induction false} SharedCleared()
    requires Graph(SHARED, [0], [1]) && AllOk(SHARED, [List(2)]) && Flatten(SHARED, [List(2)]) == [Closure(0, 0)]
    ensures Cleared(SHARED, [1], Dead([0], {}), SHARED[1 := CarrierObj(Cell, [Unspecified])])
  {
    hide Flatten, WellFormed;
    var dead := Dead([0], {});
    assert 0 in dead && Closure(0, 0) in Flatten(SHARED, [List(2)]);
    assert ValOk(SHARED, List(2)) && TargetsDead(SHARED, List(2), dead);
    assert ClearSlots(SHARED, [List(2)], dead) == [Unspecified];
  }

  lemma {:induction false} SharedPath()
    ensures Path(SHARED, [2, 0, 1])
  {
    SharedHeld(0);
    SharedHeld(1);
    var p := [2, 0, 1];
    assert p[0] == 2 && p[1] == 0 && p[2] == 1;
  }

  lemma {:induction false} SharedTracked()
    requires Graph(SHARED, [0], [1]) && Refs(Contents(SHARED, 1)) == [0]
    ensures Tracked(SHARED, [0], [1])
  {
    forall s | Roomy(SHARED, [0], s)
      ensures Elements([1]) <= s
    {
      assert 0 in [0] && IsEnv(SHARED, 0) && 1 in SHARED[0].locals;
    }
  }

  lemma {:induction false} SharedParts()
    ensures Graph(SHARED, [0], [1]) && AllOk(SHARED, [List(2)])
    ensures Flatten(SHARED, [List(2)]) == [Closure(0, 0)] && Contents(SHARED, 1) == [Closure(0, 0)]
    ensures Refs(Contents(SHARED, 1)) == [0] && ListsIn(SHARED, 1) == [2]
  {
    assert ObjOk(SHARED, 0) && ObjOk(SHARED, 1) && ObjOk(SHARED, 2);
    Opens(SHARED, [List(2)]);
    Opens(SHARED, [Closure(0, 0)]);
    assert [Closure(0, 0)][1..] == [] && [List(2)][1..] == [];
    assert Flatten(SHARED, [Closure(0, 0)]) == [Closure(0, 0)] + Flatten(SHARED, []);
    assert Opened(SHARED, [Closure(0, 0)]) == [] + Opened(SHARED, []);
    assert Flatten(SHARED, [List(2)]) == Flatten(SHARED, SHARED[2].items) + Flatten(SHARED, []);
    assert Opened(SHARED, [List(2)]) == [2] + Opened(SHARED, SHARED[2].items) + Opened(SHARED, []);
    assert Refs([Closure(0, 0)]) == Ref(Closure(0, 0)) + Refs([]);
  }

  lemma {:induction false} HeapRefsOfThree(x: Obj, y: Obj, z: Obj, a: nat)
    ensures HeapRefs([x, y, z], a) == Held(x, a) + Held(y, a) + Held(z, a)
  {
    hide Held;
    assert [x, y, z][..2] == [x, y] && [x, y][..1] == [x] && [x][..0] == [];
    assert HeapRefs([x], a) == HeapRefs([], a) + Held(x, a);
    assert HeapRefs([x, y], a) == HeapRefs([x], a) + Held(y, a);
  }

  lemma {:induction false} SharedHeld(a: nat)
    ensures Held(SHARED[0], a) == (if a == 1 then 1 else 0)
    ensures Held(SHARED[1], a) == (if a == 2 then 1 else 0)
    ensures Held(SHARED[2], a) == (if a == 0 then 1 else 0)
  {
    assert Refs([List(2)]) == Ref(List(2)) + Refs([List(2)][1..]) == [2];
    assert Refs([Closure(0, 0)]) == Ref(Closure(0, 0)) + Refs([Closure(0, 0)][1..]) == [0];
  }

  lemma {:induction false} SharedCounts()
    requires Graph(SHARED, [0], [1]) && Refs(Contents(SHARED, 1)) == [0] && ListsIn(SHARED, 1) == [2]
    ensures External(SHARED, multiset{2}, [0], [1], 0) == 0 && External(SHARED, multiset{2}, [0], [1], 1) == 0
    ensures StrongCount(SHARED, multiset{2}, 2) == 2 && AllLists(SHARED, [1]) == [2]
  {
    hide Held, WellFormed, Flatten, Opened, Contents, ListsIn;
    assert AllContents(SHARED, [1]) == Contents(SHARED, 1) + AllContents(SHARED, [1][1..]) == Contents(SHARED, 1);
    assert AllLists(SHARED, [1]) == ListsIn(SHARED, 1) + AllLists(SHARED, [1][1..]) == [2];
    GraphWithin(SHARED, [0], [1]);
    SharedCount(0);
    SharedCount(1);
    SharedCount(2);
  }

  lemma {:induction false} SharedCount(a: nat)
    requires a < 3
    ensures HeapRefs(SHARED, a) == 1 && SumHeld(SHARED, [0], a) == if a == 1 then 1 else 0
  {
    hide Held;
    SharedHeld(a);
    HeapRefsOfThree(SHARED[0], SHARED[1], SHARED[2], a);
    assert SHARED == [SHARED[0], SHARED[1], SHARED[2]];
    assert SumHeld(SHARED, [0], a) == Held(SHARED[0], a) + SumHeld(SHARED, [0][1..], a);
  }
}
