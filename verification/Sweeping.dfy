/**
 Marking and clearing, the reachability they decide, and what reference counting does
 afterwards.
 */
module Sweeping {
  import opened Prelude
  import opened RcHeap
  import opened Tracing
  import opened GcTheory

  /** A step of the tracked graph; unregistered environments are not in it. */
  ghost predicate Edge(h: Heap, envs: seq<nat>, a: nat, b: nat)
    requires WellFormed(h)
  {
    (IsEnv(h, a) && (b in h[a].locals || (h[a].parent == Some(b) && b in envs)))
    || (IsCarrier(h, a) && b in Refs(Contents(h, a)) && (IsEnv(h, b) ==> b in envs))
  }

  /** A set of carriers that discovery cannot leave. */
  ghost predicate Roomy(h: Heap, envs: seq<nat>, s: set<nat>)
    requires WellFormed(h)
  {
    (forall e, c :: e in envs && IsEnv(h, e) && c in h[e].locals ==> c in s)
    && (forall c, b :: c in s && IsCarrier(h, c) && IsCarrier(h, b) && Edge(h, envs, c, b) ==> b in s)
  }

  ghost function Elements(s: seq<nat>): set<nat> {
    set a | a in s
  }

  /** The carriers that the registered environments lead to, no more and no fewer. */
  ghost predicate Tracked(h: Heap, envs: seq<nat>, cs: seq<nat>) {
    Graph(h, envs, cs) && Roomy(h, envs, Elements(cs))
    && forall s :: Roomy(h, envs, s) ==> Elements(cs) <= s
  }

  ghost predicate Node(envs: seq<nat>, cs: seq<nat>, a: nat) {
    a in envs || a in cs
  }

  /** A set that holds every node with a surplus and that no edge leaves. */
  ghost predicate Propagated(h: Heap, roots: multiset<nat>, envs: seq<nat>, cs: seq<nat>, s: set<nat>)
    requires Graph(h, envs, cs)
  {
    (forall a :: Node(envs, cs, a) && External(h, roots, envs, cs, a) > 0 ==> a in s)
    && (forall a, b :: Node(envs, cs, a) && a in s && Edge(h, envs, a, b) ==> b in s)
  }

  /** The nodes that marking reaches. */
  ghost predicate Marked(h: Heap, roots: multiset<nat>, envs: seq<nat>, cs: seq<nat>, alive: set<nat>)
    requires Graph(h, envs, cs)
  {
    (forall a :: a in alive ==> Node(envs, cs, a)) && Propagated(h, roots, envs, cs, alive)
    && forall s :: Propagated(h, roots, envs, cs, s) ==> alive <= s
  }

  ghost function Dead(envs: seq<nat>, alive: set<nat>): set<nat> {
    set e | e in envs && e !in alive
  }

  ghost predicate TargetsDead(h: Heap, v: Val, dead: set<nat>)
    requires WellFormed(h) && ValOk(h, v)
  {
    exists w :: w in Flatten(h, [v]) && w.Closure? && w.env in dead
  }

  ghost function ClearVal(h: Heap, v: Val, dead: set<nat>): Val
    requires WellFormed(h) && ValOk(h, v)
  {
    if TargetsDead(h, v, dead) then Unspecified else v
  }

  ghost function ClearSlots(h: Heap, vs: seq<Val>, dead: set<nat>): (r: seq<Val>)
    requires AllOk(h, vs)
    ensures |r| == |vs| && forall i :: 0 <= i < |vs| ==> r[i] == ClearVal(h, vs[i], dead)
  {
    if vs == [] then []
    else
      assert vs[0] in vs && forall v :: v in vs[1..] ==> v in vs;
      [ClearVal(h, vs[0], dead)] + ClearSlots(h, vs[1..], dead)
  }

  /** The heap after every tracked carrier has been cleared of closures over dead environments. */
  ghost predicate Cleared(h: Heap, cs: seq<nat>, dead: set<nat>, h': Heap)
    requires WellFormed(h)
  {
    |h'| == |h|
    && (forall o :: 0 <= o < |h| && o !in cs ==> h'[o] == h[o])
    && (forall c :: c in cs && IsCarrier(h, c) ==>
       AllOk(h, h[c].slots) && h'[c] == CarrierObj(h[c].kind, ClearSlots(h, h[c].slots, dead)))
  }

  function LiveOnes(h: Heap, registry: seq<nat>): seq<nat> {
    if registry == [] then []
    else (if IsEnv(h, registry[0]) then [registry[0]] else []) + LiveOnes(h, registry[1..])
  }

  /** What one sweep makes of the heap. */
  ghost predicate Swept(h: Heap, roots: multiset<nat>, envs: seq<nat>, cs: seq<nat>, alive: set<nat>, h': Heap) {
    Tracked(h, envs, cs) && Marked(h, roots, envs, cs, alive) && Cleared(h, cs, Dead(envs, alive), h')
  }

  // ----- paths -----

  ghost predicate Path(h: Heap, p: seq<nat>) {
    p != [] && Within(p, |h|) && forall i :: 0 <= i < |p| - 1 ==> Held(h[p[i]], p[i + 1]) > 0
  }

  /** A path that starts outside the tracked graph, at a root or at an untracked allocation. */
  ghost predicate FromOutside(h: Heap, roots: multiset<nat>, envs: seq<nat>, cs: seq<nat>, p: seq<nat>)
    requires Graph(h, envs, cs)
  {
    Path(h, p) && (roots[p[0]] > 0 || p[0] !in Inside(h, envs, cs))
  }

  ghost predicate Reachable(h: Heap, roots: multiset<nat>, envs: seq<nat>, cs: seq<nat>, a: nat)
    requires Graph(h, envs, cs)
  {
    exists p :: FromOutside(h, roots, envs, cs, p) && p[|p| - 1] == a
  }

  // ----- safety -----

  /** Opening the list finds a reference to `b`. */
  ghost predicate LeadsTo(h: Heap, l: nat, b: nat)
    requires WellFormed(h)
  {
    IsList(h, l) && AllOk(h, [List(l)]) && b in Refs(Flatten(h, [List(l)]))
  }

  /** A node of the graph is alive; a list of the graph leads to live nodes only. */
  ghost predicate Kept(h: Heap, envs: seq<nat>, cs: seq<nat>, alive: set<nat>, a: nat)
    requires Graph(h, envs, cs)
  {
    (Node(envs, cs, a) ==> a in alive)
    && (a in AllLists(h, cs) ==> forall b :: LeadsTo(h, a, b) && Node(envs, cs, b) ==> b in alive)
  }

  /** What something outside the graph refers to is alive, or is a list that leads to live nodes only. */
  ghost predicate Covered(h: Heap, roots: multiset<nat>, envs: seq<nat>, cs: seq<nat>, alive: set<nat>)
    requires Graph(h, envs, cs)
  {
    forall a :: 0 <= a < |h| && Outside(h, roots, envs, cs, a) ==> Kept(h, envs, cs, alive, a)
  }

  /** Where lists have one holder, counting misses nothing that is referred to from outside. */
  lemma {:induction false} SinglyOwnedCovered(h: Heap, roots: multiset<nat>, envs: seq<nat>, cs: seq<nat>,
        alive: set<nat>)
    requires Tracked(h, envs, cs) && Marked(h, roots, envs, cs, alive) && SinglyOwned(h, roots, cs)
    ensures Covered(h, roots, envs, cs, alive)
  {
    hide Kept, Roomy, Marked, SinglyOwned, Outside, WellFormed;
    forall a | 0 <= a < |h| && Outside(h, roots, envs, cs, a)
      ensures Kept(h, envs, cs, alive, a)
    {
      OwnedKept(h, roots, envs, cs, alive, a);
    }
  }

  lemma {:induction false} OwnedKept(h: Heap, roots: multiset<nat>, envs: seq<nat>, cs: seq<nat>, alive: set<nat>,
        a: nat)
    requires Tracked(h, envs, cs) && Marked(h, roots, envs, cs, alive) && SinglyOwned(h, roots, cs)
    requires Outside(h, roots, envs, cs, a)
    ensures Kept(h, envs, cs, alive, a)
  {
    hide Roomy, Outside;
    if Node(envs, cs, a) {
      SurplusIsOutside(h, roots, envs, cs, a);
    }
    if a in AllLists(h, cs) && Loaded(h, a) {
      ListNotOutside(h, roots, envs, cs, a);
    }
  }

  /** A list leads to what it holds, and to what the lists it holds lead to. */
  lemma {:induction false} ListLeads(h: Heap, o: nat, a: nat, b: nat)
    requires WellFormed(h) && IsList(h, o) && Held(h[o], a) > 0
    requires if IsList(h, a) then LeadsTo(h, a, b) else a == b
    ensures LeadsTo(h, o, b)
  {
    hide Held;
    HeldIn(h[o], a);
    assert ObjOk(h, o) && ValOk(h, List(o));
    OpensToItems(h, List(o));
    var v := RefFrom(h[o].items, a);
    assert ValOk(h, v);
    DirectFound(h, h[o].items, v);
    if v.List? {
      var w := RefFrom(Flatten(h, [v]), b);
      RefIn(Flatten(h, h[o].items), w, b);
    } else {
      RefIn(Flatten(h, h[o].items), v, a);
    }
  }

  /** What a live environment refers to stays. */
  lemma {:induction false} EnvKeeps(h: Heap, roots: multiset<nat>, envs: seq<nat>, cs: seq<nat>, alive: set<nat>,
        o: nat, a: nat)
    requires Tracked(h, envs, cs) && Marked(h, roots, envs, cs, alive)
    requires o in envs && o in alive && Held(h[o], a) > 0
    ensures Kept(h, envs, cs, alive, a)
  {
    HeldIn(h[o], a);
    assert ObjOk(h, o);
    AllKinds(h, cs);
    assert a in h[o].locals || h[o].parent == Some(a);
    if Node(envs, cs, a) {
      assert Edge(h, envs, o, a);
    }
  }

  /** What a live carrier refers to stays. */
  lemma {:induction false} CarrierKeeps(h: Heap, roots: multiset<nat>, envs: seq<nat>, cs: seq<nat>, alive: set<nat>,
        o: nat, a: nat)
    requires Tracked(h, envs, cs) && Marked(h, roots, envs, cs, alive)
    requires o in cs && o in alive && Held(h[o], a) > 0
    ensures Kept(h, envs, cs, alive, a)
  {
    HeldIn(h[o], a);
    SlotsOk(h, o);
    AllKinds(h, cs);
    var v := RefFrom(h[o].slots, a);
    DirectFound(h, h[o].slots, v);
    if Node(envs, cs, a) {
      RefIn(Contents(h, o), v, a);
      assert Edge(h, envs, o, a);
    }
    forall b | LeadsTo(h, a, b) && Node(envs, cs, b)
      ensures b in alive
    {
      var w := RefFrom(Flatten(h, [List(a)]), b);
      RefIn(Contents(h, o), w, b);
      assert Edge(h, envs, o, b);
    }
  }

  /** What a list that leads to live nodes only refers to stays. */
  lemma {:induction false} ListKeeps(h: Heap, envs: seq<nat>, cs: seq<nat>, alive: set<nat>, o: nat, a: nat)
    requires Graph(h, envs, cs) && Kept(h, envs, cs, alive, o)
    requires o in AllLists(h, cs) && IsList(h, o) && Held(h[o], a) > 0
    ensures Kept(h, envs, cs, alive, a)
  {
    hide Held, WellFormed, LeadsTo;
    AllKinds(h, cs);
    if Node(envs, cs, a) {
      ListLeads(h, o, a, a);
    }
    if a in AllLists(h, cs) {
      forall b | LeadsTo(h, a, b) && Node(envs, cs, b)
        ensures b in alive
      {
        ListLeads(h, o, a, b);
      }
    }
  }

  lemma {:induction false} HeldFromOutside(h: Heap, roots: multiset<nat>, envs: seq<nat>, cs: seq<nat>, o: nat, a: nat)
    requires Graph(h, envs, cs) && o < |h| && o !in Inside(h, envs, cs) && Held(h[o], a) > 0
    ensures Outside(h, roots, envs, cs, a)
  {
    var m := multiset(Inside(h, envs, cs));
    assert m[o] == 0 && Held(h[o], a) > 0;
  }

  /** Along any path from outside, every node is marked. */
  lemma {:induction false} PathKept(h: Heap, roots: multiset<nat>, envs: seq<nat>, cs: seq<nat>, alive: set<nat>,
        p: seq<nat>)
    requires Tracked(h, envs, cs) && Marked(h, roots, envs, cs, alive) && Covered(h, roots, envs, cs, alive)
    requires FromOutside(h, roots, envs, cs, p)
    ensures Kept(h, envs, cs, alive, p[|p| - 1])
    decreases |p|
  {
    hide Marked, Kept, Roomy, WellFormed;
    var n := |p| - 1;
    var a := p[n];
    if n == 0 {
      if roots[a] == 0 {
        NotInsideKept(h, envs, cs, alive, a);
      }
    } else {
      var q, o := p[..n], p[n - 1];
      assert q[|q| - 1] == o && Held(h[p[n - 1]], p[n - 1 + 1]) > 0;
      PathKept(h, roots, envs, cs, alive, q);
      StepKept(h, roots, envs, cs, alive, o, a);
    }
  }

  lemma {:induction false} NotInsideKept(h: Heap, envs: seq<nat>, cs: seq<nat>, alive: set<nat>, a: nat)
    requires Graph(h, envs, cs) && a !in Inside(h, envs, cs)
    ensures Kept(h, envs, cs, alive, a)
  {
  }

  lemma {:induction false} StepKept(h: Heap, roots: multiset<nat>, envs: seq<nat>, cs: seq<nat>, alive: set<nat>,
        o: nat, a: nat)
    requires Tracked(h, envs, cs) && Marked(h, roots, envs, cs, alive) && Covered(h, roots, envs, cs, alive)
    requires o < |h| && a < |h| && Held(h[o], a) > 0 && Kept(h, envs, cs, alive, o)
    ensures Kept(h, envs, cs, alive, a)
  {
    hide Kept, Marked, Roomy, WellFormed;
    if o !in Inside(h, envs, cs) {
      HeldFromOutside(h, roots, envs, cs, o, a);
    } else if o in envs || o in cs {
      assert o in alive by { NodeAlive(h, envs, cs, alive, o); }
      if o in envs {
        EnvKeeps(h, roots, envs, cs, alive, o, a);
      } else {
        CarrierKeeps(h, roots, envs, cs, alive, o, a);
      }
    } else {
      AllKinds(h, cs);
      ListKeeps(h, envs, cs, alive, o, a);
    }
  }

  lemma {:induction false} NodeAlive(h: Heap, envs: seq<nat>, cs: seq<nat>, alive: set<nat>, a: nat)
    requires Graph(h, envs, cs) && Kept(h, envs, cs, alive, a) && Node(envs, cs, a)
    ensures a in alive
  {
  }

  /** Clearing leaves a live carrier exactly as it was. */
  lemma {:induction false} LiveUnchanged(h: Heap, roots: multiset<nat>, envs: seq<nat>, cs: seq<nat>, alive: set<nat>,
        c: nat)
    requires Tracked(h, envs, cs) && Marked(h, roots, envs, cs, alive) && c in cs && c in alive
    ensures AllOk(h, h[c].slots) && ClearSlots(h, h[c].slots, Dead(envs, alive)) == h[c].slots
  {
    SlotsOk(h, c);
    var vs, dead := h[c].slots, Dead(envs, alive);
    forall v | v in vs
      ensures !TargetsDead(h, v, dead)
    {
      if TargetsDead(h, v, dead) {
        var w :| w in Flatten(h, [v]) && w.Closure? && w.env in dead;
        DirectFound(h, vs, v);
        RefIn(Contents(h, c), w, w.env);
        assert Edge(h, envs, c, w.env);
      }
    }
    var r := ClearSlots(h, vs, dead);
    assert forall i :: 0 <= i < |vs| ==> vs[i] in vs && r[i] == vs[i];
  }

  /**
   Safety.  Where what is referred to from outside is covered, nothing that a root or
   an allocation outside the graph can reach is judged dead, and no slot of such an
   allocation is changed.
   */
  lemma {:induction false} SweepIsSafe(h: Heap, roots: multiset<nat>, envs: seq<nat>, cs: seq<nat>, alive: set<nat>,
        h': Heap, a: nat)
    requires Swept(h, roots, envs, cs, alive, h') && Covered(h, roots, envs, cs, alive)
    requires Reachable(h, roots, envs, cs, a)
    ensures a !in Dead(envs, alive) && a < |h| && a < |h'| && h'[a] == h[a]
  {
    hide Marked, Roomy, WellFormed, Covered;
    var p :| FromOutside(h, roots, envs, cs, p) && p[|p| - 1] == a;
    PathKept(h, roots, envs, cs, alive, p);
    if a in cs {
      LiveUnchanged(h, roots, envs, cs, alive, a);
    }
  }
}
