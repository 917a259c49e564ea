/**
 The collector as it runs: it discovers the tracked carriers with a worklist, counts the
 edges into every node, marks from the nodes with a surplus, and clears slots in place.
 */
module EnvGc {
  import opened Prelude
  import opened RcHeap
  import opened Tracing
  import opened GcTheory
  import opened Sweeping

  const MIN_ENVS_PER_SWEEP: nat := 512

  datatype GcNode = EnvNode(i: nat) | CarrierNode(i: nat)

  /** The memory the collector works on, and the references held outside it. */
  class Store {
    var objects: Heap
    var roots: multiset<nat>

    constructor (objects: Heap, roots: multiset<nat>)
      ensures this.objects == objects && this.roots == roots
    {
      this.objects, this.roots := objects, roots;
    }
  }

  // ----- positions of nodes -----

  /** `index` tells each address in `nodes` its position. */
  ghost predicate Indexes(nodes: seq<nat>, index: map<nat, nat>) {
    (forall i :: 0 <= i < |nodes| ==> nodes[i] in index && index[nodes[i]] == i)
    && (forall a :: a in index ==> index[a] < |nodes| && nodes[index[a]] == a)
  }

  method MakeIndex(nodes: seq<nat>) returns (index: map<nat, nat>)
    requires NoDup(nodes)
    ensures Indexes(nodes, index)
  {
    index := map[];
    for i := 0 to |nodes|
      invariant forall j :: 0 <= j < i ==> nodes[j] in index && index[nodes[j]] == j
      invariant forall a :: a in index ==> index[a] < i && nodes[index[a]] == a
    {
      index := index[nodes[i] := i];
    }
  }

  /** The positions of those addresses that have one. */
  function Positions(ts: seq<nat>, index: map<nat, nat>): seq<nat> {
    if ts == [] then [] else (if ts[0] in index then [index[ts[0]]] else []) + Positions(ts[1..], index)
  }

  lemma {:induction false} PositionsCount(ts: seq<nat>, nodes: seq<nat>, index: map<nat, nat>, i: nat)
    requires Indexes(nodes, index) && i < |nodes|
    ensures Occ(Positions(ts, index), i) == Occ(ts, nodes[i])
  {
    if ts != [] {
      PositionsCount(ts[1..], nodes, index, i);
      assert ts == [ts[0]] + ts[1..];
      OccConcat([ts[0]], ts[1..], nodes[i]);
      OccConcat(if ts[0] in index then [index[ts[0]]] else [], Positions(ts[1..], index), i);
    }
  }

  lemma {:induction false} PositionsOf(ts: seq<nat>, nodes: seq<nat>, index: map<nat, nat>)
    requires Indexes(nodes, index)
    ensures forall k :: k in Positions(ts, index) ==> k < |nodes| && nodes[k] in ts
    ensures forall a :: a in ts && a in index ==> index[a] in Positions(ts, index)
  {
    if ts != [] {
      PositionsOf(ts[1..], nodes, index);
      assert ts == [ts[0]] + ts[1..];
    }
  }

  lemma {:induction false} PositionsConcat(p: seq<nat>, q: seq<nat>, index: map<nat, nat>)
    ensures Positions(p + q, index) == Positions(p, index) + Positions(q, index)
  {
    if p == [] {
      assert p + q == q;
    } else {
      assert (p + q)[1..] == p[1..] + q;
      PositionsConcat(p[1..], q, index);
    }
  }

  method FindPositions(ts: seq<nat>, index: map<nat, nat>) returns (ps: seq<nat>)
    ensures ps == Positions(ts, index)
  {
    ps := [];
    for k := 0 to |ts|
      invariant ps == Positions(ts[..k], index)
    {
      if ts[k] in index {
        ps := ps + [index[ts[k]]];
      }
      assert ts[..k + 1] == ts[..k] + [ts[k]];
      PositionsConcat(ts[..k], [ts[k]], index);
      assert Positions([ts[k]], index)
        == (if ts[k] in index then [index[ts[k]]] else []) + Positions([ts[k]][1..], index);
    }
    assert ts[..|ts|] == ts;
  }

  // ----- what a carrier holds -----

  lemma {:induction false} FlattenConcat(h: Heap, p: seq<Val>, q: seq<Val>)
    requires AllOk(h, p) && AllOk(h, q)
    ensures AllOk(h, p + q) && Flatten(h, p + q) == Flatten(h, p) + Flatten(h, q)
    decreases |p|
  {
    if p == [] {
      assert p + q == q;
    } else {
      assert (p + q)[1..] == p[1..] + q;
      Opens(h, p);
      Opens(h, p + q);
      FlattenConcat(h, p[1..], q);
    }
  }

  /** Sees through lists: appends to the result what each value leads to. */
  method FlattenTransparent(h: Heap, vs: seq<Val>) returns (flat: seq<Val>)
    requires AllOk(h, vs)
    ensures flat == Flatten(h, vs)
    decreases ListBound(vs), |vs|
  {
    flat := [];
    for k := 0 to |vs|
      invariant AllOk(h, vs[..k]) && flat == Flatten(h, vs[..k])
    {
      var v := vs[k];
      assert v in vs && AllOk(h, [v]);
      Opens(h, [v]);
      FlattenConcat(h, vs[..k], [v]);
      assert vs[..k + 1] == vs[..k] + [v];
      match v
      case List(l) =>
        ListBoundIn(vs, v);
        var inner := FlattenTransparent(h, h[l].items);
        flat := flat + inner;
        assert Flatten(h, [v]) == inner + Flatten(h, [v][1..]);
      case _ =>
        flat := flat + [v];
        assert Flatten(h, [v]) == [v] + Flatten(h, [v][1..]);
    }
    assert vs[..|vs|] == vs;
  }

  lemma {:induction false} ListBoundIn(vs: seq<Val>, v: Val)
    requires v in vs
    ensures ListBound([v]) <= ListBound(vs)
  {
    ListBoundLeast([v], ListBound(vs));
  }

  method Upgrade(h: Heap, registry: seq<nat>) returns (envs: seq<nat>)
    ensures envs == LiveOnes(h, registry)
  {
    envs := [];
    for k := 0 to |registry|
      invariant envs + LiveOnes(h, registry[k..]) == LiveOnes(h, registry)
    {
      if registry[k] < |h| && h[registry[k]].EnvObj? {
        envs := envs + [registry[k]];
      }
      assert registry[k..][1..] == registry[k + 1..];
    }
  }

  // ----- discovering the tracked carriers -----

  /** What discovery has found so far: each carrier once, and none that a sweep need not look at. */
  ghost predicate Discovered(h: Heap, envs: seq<nat>, cs: seq<nat>, index: map<nat, nat>) {
    WellFormed(h) && NoDup(cs) && Indexes(cs, index) && (forall c :: c in cs ==> IsCarrier(h, c))
    && forall s :: Roomy(h, envs, s) ==> Elements(cs) <= s
  }

  /** Carriers whose contents have not been looked at. */
  ghost predicate Unexpanded(h: Heap, envs: seq<nat>, cs: seq<nat>, todo: seq<nat>)
    requires WellFormed(h)
  {
    (forall k :: k in todo ==> k < |cs|)
    && forall k, b ::
         0 <= k < |cs| && k !in todo && IsCarrier(h, cs[k]) && IsCarrier(h, b) && Edge(h, envs, cs[k], b) ==> b in cs
  }

  method RegisterCarrier(h: Heap, ghost envs: seq<nat>, c: nat, cs: seq<nat>, index: map<nat, nat>, todo: seq<nat>)
      returns (cs': seq<nat>, index': map<nat, nat>, todo': seq<nat>)
    requires Discovered(h, envs, cs, index) && IsCarrier(h, c)
    requires forall s :: Roomy(h, envs, s) ==> c in s
    ensures Discovered(h, envs, cs', index') && c in cs' && cs <= cs'
    ensures if c in cs then cs' == cs && todo' == todo else cs' == cs + [c] && todo' == todo + [|cs|]
  {
    cs', index', todo' := cs, index, todo;
    if c !in index {
      index' := index[c := |cs|];
      todo' := todo + [|cs|];
      cs' := cs + [c];
      assert c !in cs;
      forall s | Roomy(h, envs, s)
        ensures Elements(cs') <= s
      {
        assert Elements(cs) <= s;
      }
    }
  }

  lemma {:induction false} LocalsRoomy(h: Heap, envs: seq<nat>, e: nat, c: nat)
    requires WellFormed(h) && e in envs && IsEnv(h, e) && c in h[e].locals
    ensures IsCarrier(h, c) && forall s :: Roomy(h, envs, s) ==> c in s
  {
    assert ObjOk(h, e);
  }

  /** The cells that the registered environments hold. */
  method DiscoverCells(h: Heap, envs: seq<nat>) returns (cs: seq<nat>, index: map<nat, nat>, todo: seq<nat>)
    requires WellFormed(h) && forall e :: e in envs ==> IsEnv(h, e)
    ensures Discovered(h, envs, cs, index) && Unexpanded(h, envs, cs, todo)
    ensures forall e, c :: e in envs && IsEnv(h, e) && c in h[e].locals ==> c in cs
  {
    cs, index, todo := [], map[], [];
    for i := 0 to |envs|
      invariant Discovered(h, envs, cs, index)
      invariant |todo| == |cs| && forall k :: 0 <= k < |cs| ==> todo[k] == k
      invariant forall e, c :: e in envs[..i] && IsEnv(h, e) && c in h[e].locals ==> c in cs
    {
      assert IsEnv(h, envs[i]);
      var locals := h[envs[i]].locals;
      for j := 0 to |locals|
        invariant Discovered(h, envs, cs, index)
        invariant |todo| == |cs| && forall k :: 0 <= k < |cs| ==> todo[k] == k
        invariant forall e, c :: e in envs[..i] && IsEnv(h, e) && c in h[e].locals ==> c in cs
        invariant forall c :: c in locals[..j] ==> c in cs
      {
        LocalsRoomy(h, envs, envs[i], locals[j]);
        cs, index, todo := RegisterCarrier(h, envs, locals[j], cs, index, todo);
      }
    }
    NothingExpanded(h, envs, cs, todo);
  }

  lemma {:induction false} NothingExpanded(h: Heap, envs: seq<nat>, cs: seq<nat>, todo: seq<nat>)
    requires WellFormed(h) && |todo| == |cs| && forall k :: 0 <= k < |cs| ==> todo[k] == k
    ensures Unexpanded(h, envs, cs, todo)
  {
    forall k | 0 <= k < |cs|
      ensures k in todo
    {
      assert todo[k] in todo;
    }
  }

  lemma {:induction false} SameUnexpanded(h: Heap, envs: seq<nat>, cs: seq<nat>, todo: seq<nat>, todo': seq<nat>)
    requires WellFormed(h) && Unexpanded(h, envs, cs, todo) && forall k :: k in todo <==> k in todo'
    ensures Unexpanded(h, envs, cs, todo')
  {
  }

  lemma {:induction false} OneExpanded(h: Heap, envs: seq<nat>, cs: seq<nat>, k: nat, todo: seq<nat>)
    requires WellFormed(h) && Unexpanded(h, envs, cs, [k] + todo) && k < |cs| && IsCarrier(h, cs[k])
    requires forall b :: Boxed(b) in Contents(h, cs[k]) ==> b in cs
    ensures Unexpanded(h, envs, cs, todo)
  {
    assert forall x :: x in todo ==> x in [k] + todo;
    forall x, b | 0 <= x < |cs| && x !in todo && IsCarrier(h, cs[x]) && IsCarrier(h, b) && Edge(h, envs, cs[x], b)
      ensures b in cs
    {
      if x == k {
        EdgeBoxed(h, envs, cs[k], b);
      } else {
        assert x !in [k] + todo;
      }
    }
  }

  lemma {:induction false} FoundRoomy(h: Heap, envs: seq<nat>, cs: seq<nat>, index: map<nat, nat>, c: nat, b: nat)
    requires Discovered(h, envs, cs, index) && c in cs && IsCarrier(h, c) && Boxed(b) in Contents(h, c)
    ensures IsCarrier(h, b) && forall s :: Roomy(h, envs, s) ==> b in s
  {
    SlotsOk(h, c);
    FlattenKinds(h, h[c].slots);
    RefIn(Contents(h, c), Boxed(b), b);
    assert Edge(h, envs, c, b);
    forall s | Roomy(h, envs, s)
      ensures b in s
    {
      assert Elements(cs) <= s;
    }
  }

  lemma {:induction false} EdgeBoxed(h: Heap, envs: seq<nat>, c: nat, b: nat)
    requires WellFormed(h) && IsCarrier(h, c) && IsCarrier(h, b) && Edge(h, envs, c, b)
    ensures Boxed(b) in Contents(h, c)
  {
    SlotsOk(h, c);
    FlattenKinds(h, h[c].slots);
    var v := RefFrom(Contents(h, c), b);
  }

  /** Looks at the contents of one carrier. */
  method Expand(h: Heap, envs: seq<nat>, k: nat, cs: seq<nat>, index: map<nat, nat>, todo: seq<nat>)
      returns (cs': seq<nat>, index': map<nat, nat>, todo': seq<nat>)
    requires Discovered(h, envs, cs, index) && k < |cs| && Unexpanded(h, envs, cs, [k] + todo)
    ensures Discovered(h, envs, cs', index') && Unexpanded(h, envs, cs', todo') && cs <= cs'
    ensures cs' == cs ==> todo' == todo
  {
    hide Unexpanded, Roomy, Edge, WellFormed;
    assert cs[k] in cs && IsCarrier(h, cs[k]);
    SlotsOk(h, cs[k]);
    var flat := FlattenTransparent(h, h[cs[k]].slots);
    cs', index', todo' := cs, index, todo;
    for j := 0 to |flat|
      invariant Discovered(h, envs, cs', index') && cs <= cs' && (cs' == cs ==> todo' == todo)
      invariant Unexpanded(h, envs, cs', [k] + todo')
      invariant forall b :: Boxed(b) in flat[..j] ==> b in cs'
    {
      if flat[j].Boxed? {
        assert Boxed(flat[j].id) in Contents(h, cs[k]);
        FoundRoomy(h, envs, cs', index', cs[k], flat[j].id);
        ghost var before, due := cs', todo';
        cs', index', todo' := RegisterCarrier(h, envs, flat[j].id, cs', index', todo');
        StillUnexpanded(h, envs, before, [k] + due, cs', [k] + todo');
      }
    }
    OneExpanded(h, envs, cs', k, todo');
  }

  lemma {:induction false} StillUnexpanded(h: Heap, envs: seq<nat>, cs: seq<nat>, todo: seq<nat>, cs': seq<nat>,
        todo': seq<nat>)
    requires WellFormed(h) && Unexpanded(h, envs, cs, todo)
    requires (cs' == cs && todo' == todo) || (|cs'| == |cs| + 1 && cs <= cs' && todo' == todo + [|cs|])
    ensures Unexpanded(h, envs, cs', todo')
  {
    forall k, b | 0 <= k < |cs'| && k !in todo' && IsCarrier(h, cs'[k]) && IsCarrier(h, b) && Edge(h, envs, cs'[k], b)
      ensures b in cs'
    {
      assert k < |cs| && k !in todo && cs'[k] == cs[k];
    }
  }

  /** The tracked carriers, by a worklist. */
  method Discover(h: Heap, envs: seq<nat>) returns (cs: seq<nat>, index: map<nat, nat>)
    requires WellFormed(h) && NoDup(envs) && forall e :: e in envs ==> IsEnv(h, e)
    ensures Tracked(h, envs, cs) && Indexes(cs, index)
  {
    var todo;
    cs, index, todo := DiscoverCells(h, envs);
    while todo != []
      invariant Discovered(h, envs, cs, index) && Unexpanded(h, envs, cs, todo)
      invariant forall e, c :: e in envs && IsEnv(h, e) && c in h[e].locals ==> c in cs
      decreases AllCarriers(h) - Elements(cs), |todo|
    {
      var k := todo[|todo| - 1];
      ghost var before := cs;
      assert k in todo && todo == todo[..|todo| - 1] + [k];
      SameUnexpanded(h, envs, cs, todo, [k] + todo[..|todo| - 1]);
      cs, index, todo := Expand(h, envs, k, cs, index, todo[..|todo| - 1]);
      if cs != before {
        MoreElements(h, before, cs);
      }
    }
    assert Roomy(h, envs, Elements(cs)) by {
      forall c, b | c in Elements(cs) && IsCarrier(h, c) && IsCarrier(h, b) && Edge(h, envs, c, b)
        ensures b in Elements(cs)
      {
        assert cs[index[c]] == c;
      }
    }
  }

  ghost function AllCarriers(h: Heap): set<nat> {
    set c | 0 <= c < |h| && h[c].CarrierObj?
  }

  lemma {:induction false} MoreElements(h: Heap, cs: seq<nat>, cs': seq<nat>)
    requires cs <= cs' && cs != cs' && NoDup(cs') && forall c :: c in cs' ==> IsCarrier(h, c)
    ensures AllCarriers(h) - Elements(cs') < AllCarriers(h) - Elements(cs)
  {
    var c := cs'[|cs|];
    assert c in cs' && c in AllCarriers(h) - Elements(cs);
  }

  // ----- children and in-degrees -----

  /** Positions of what an environment's variables and a carrier's contents lead to. */
  datatype Children = Children(ofEnv: seq<seq<nat>>, carrierToEnv: seq<seq<nat>>, carrierToCarrier: seq<seq<nat>>)

  ghost predicate CarrierChildren(h: Heap, c: nat, envIndex: map<nat, nat>, index: map<nat, nat>, es: seq<nat>,
        ks: seq<nat>)
    requires WellFormed(h)
  {
    IsCarrier(h, c) && es == Positions(Refs(Contents(h, c)), envIndex) && ks == Positions(Refs(Contents(h, c)), index)
  }

  ghost predicate ChildrenOf(h: Heap, envs: seq<nat>, cs: seq<nat>, envIndex: map<nat, nat>, index: map<nat, nat>,
        kids: Children)
    requires Graph(h, envs, cs)
  {
    |kids.ofEnv| == |envs| && |kids.carrierToEnv| == |kids.carrierToCarrier| == |cs|
    && (forall i :: 0 <= i < |envs| ==> IsEnv(h, envs[i]) && kids.ofEnv[i] == Positions(h[envs[i]].locals, index))
    && forall i :: 0 <= i < |cs| ==>
       CarrierChildren(h, cs[i], envIndex, index, kids.carrierToEnv[i], kids.carrierToCarrier[i])
  }

  lemma {:induction false} RefsPositions(h: Heap, vs: seq<Val>, v: Val, index: map<nat, nat>)
    ensures Positions(Refs(vs + [v]), index) == Positions(Refs(vs), index) + Positions(Ref(v), index)
  {
    RefsConcat(vs, [v]);
    assert Refs([v]) == Ref(v) + Refs([v][1..]) == Ref(v);
    PositionsConcat(Refs(vs), Ref(v), index);
  }

  /** The tracked environments and carriers that a carrier leads to. */
  method Targets(h: Heap, ghost envs: seq<nat>, ghost cs: seq<nat>, c: nat, envIndex: map<nat, nat>,
        index: map<nat, nat>)
      returns (toEnv: seq<nat>, toCarrier: seq<nat>)
    requires Graph(h, envs, cs) && IsCarrier(h, c) && Indexes(envs, envIndex) && Indexes(cs, index)
    ensures toEnv == Positions(Refs(Contents(h, c)), envIndex)
    ensures toCarrier == Positions(Refs(Contents(h, c)), index)
  {
    hide Indexes, Flatten;
    SlotsOk(h, c);
    FlattenKinds(h, h[c].slots);
    var flat := FlattenTransparent(h, h[c].slots);
    toEnv, toCarrier := [], [];
    for k := 0 to |flat|
      invariant toEnv == Positions(Refs(flat[..k]), envIndex)
      invariant toCarrier == Positions(Refs(flat[..k]), index)
    {
      var v := flat[k];
      assert flat[..k + 1] == flat[..k] + [v] && v in flat;
      RefsPositions(h, flat[..k], v, envIndex);
      RefsPositions(h, flat[..k], v, index);
      OnePosition(h, envs, cs, v, envIndex, index);
      match v
      case Closure(_, e) => if e in envIndex { toEnv := toEnv + [envIndex[e]]; }
      case Boxed(b) => if b in index { toCarrier := toCarrier + [index[b]]; }
      case _ =>
    }
    assert flat[..|flat|] == flat;
  }

  /** A closure leads to an environment and to no carrier; a box the other way round. */
  lemma {:induction false} OnePosition(h: Heap, envs: seq<nat>, cs: seq<nat>, v: Val, envIndex: map<nat, nat>,
        index: map<nat, nat>)
    requires Graph(h, envs, cs) && ValOk(h, v) && !v.List? && Indexes(envs, envIndex) && Indexes(cs, index)
    ensures Positions(Ref(v), envIndex) == if v.Closure? && v.env in envIndex then [envIndex[v.env]] else []
    ensures Positions(Ref(v), index) == if v.Boxed? && v.id in index then [index[v.id]] else []
  {
    if v.Closure? || v.Boxed? {
      var a := Ref(v)[0];
      assert Ref(v)[1..] == [];
      if a in envIndex {
        assert envs[envIndex[a]] in envs;
      }
      if a in index {
        assert cs[index[a]] in cs;
      }
    }
  }

  method FindChildren(h: Heap, envs: seq<nat>, cs: seq<nat>, envIndex: map<nat, nat>, index: map<nat, nat>)
      returns (kids: Children)
    requires Graph(h, envs, cs) && Indexes(envs, envIndex) && Indexes(cs, index)
    ensures ChildrenOf(h, envs, cs, envIndex, index, kids)
  {
    var ofEnv, toEnv, toCarrier := [], [], [];
    for i := 0 to |envs|
      invariant |ofEnv| == i
      invariant forall j :: 0 <= j < i ==> IsEnv(h, envs[j]) && ofEnv[j] == Positions(h[envs[j]].locals, index)
    {
      assert IsEnv(h, envs[i]);
      var ps := FindPositions(h[envs[i]].locals, index);
      ofEnv := ofEnv + [ps];
    }
    for i := 0 to |cs|
      invariant |toEnv| == |toCarrier| == i
      invariant forall j :: 0 <= j < i ==> CarrierChildren(h, cs[j], envIndex, index, toEnv[j], toCarrier[j])
    {
      assert IsCarrier(h, cs[i]);
      var es, ks := Targets(h, envs, cs, cs[i], envIndex, index);
      toEnv, toCarrier := toEnv + [es], toCarrier + [ks];
    }
    kids := Children(ofEnv, toEnv, toCarrier);
  }

  /** Counts one more edge into every position listed. */
  method Tally(counts: seq<nat>, ps: seq<nat>) returns (counts': seq<nat>)
    requires forall k :: k in ps ==> k < |counts|
    ensures |counts'| == |counts| && forall i :: 0 <= i < |counts| ==> counts'[i] == counts[i] + Occ(ps, i)
  {
    counts' := counts;
    for k := 0 to |ps|
      invariant |counts'| == |counts| && forall i :: 0 <= i < |counts| ==> counts'[i] == counts[i] + Occ(ps[..k], i)
    {
      assert ps[..k + 1] == ps[..k] + [ps[k]] && ps[k] in ps;
      counts' := counts'[ps[k] := counts'[ps[k]] + 1];
      forall i | 0 <= i < |counts|
        ensures counts'[i] == counts[i] + Occ(ps[..k + 1], i)
      {
        OccConcat(ps[..k], [ps[k]], i);
      }
    }
    assert ps[..|ps|] == ps;
  }

  lemma {:induction false} SumHeldNext(h: Heap, os: seq<nat>, k: nat, a: nat)
    requires Within(os, |h|) && k < |os|
    ensures SumHeld(h, os[..k + 1], a) == SumHeld(h, os[..k], a) + Held(h[os[k]], a)
  {
    assert os[..k + 1] == os[..k] + [os[k]];
    SumHeldConcat(h, os[..k], [os[k]], a);
    assert SumHeld(h, [os[k]], a) == Held(h[os[k]], a) + SumHeld(h, [os[k]][1..], a);
  }

  lemma {:induction false} AllContentsNext(h: Heap, cs: seq<nat>, k: nat)
    requires WellFormed(h) && (forall c :: c in cs ==> IsCarrier(h, c)) && k < |cs|
    ensures forall c :: c in cs[..k + 1] ==> IsCarrier(h, c)
    ensures AllContents(h, cs[..k + 1]) == AllContents(h, cs[..k]) + Contents(h, cs[k])
    decreases k
  {
    assert forall c :: c in cs[1..] ==> c in cs;
    if k == 0 {
      assert cs[..1] == [cs[0]] && AllContents(h, [cs[0]]) == Contents(h, cs[0]) + AllContents(h, [cs[0]][1..]);
    } else {
      AllContentsNext(h, cs[1..], k - 1);
      assert cs[..k + 1][1..] == cs[1..][..k] && cs[..k][1..] == cs[1..][..k - 1];
      assert cs[..k + 1][0] == cs[0] == cs[..k][0];
    }
  }

  /** An environment refers to environments by its parent link and to carriers by its variables. */
  lemma {:induction false} EnvHolds(h: Heap, e: nat, a: nat)
    requires WellFormed(h) && IsEnv(h, e)
    ensures IsEnv(h, a) ==> Held(h[e], a) == if h[e].parent == Some(a) then 1 else 0
    ensures IsCarrier(h, a) ==> Held(h[e], a) == Occ(h[e].locals, a)
  {
    assert ObjOk(h, e);
    var o := h[e];
    var up := if o.parent.Some? then [o.parent.value] else [];
    OccConcat(o.locals, up, a);
    OccIn(o.locals, a);
    OccIn(up, a);
  }

  ghost predicate Counted(h: Heap, es: seq<nat>, nodes: seq<nat>, counts: seq<nat>)
    requires Within(es, |h|)
  {
    |counts| == |nodes| && forall i :: 0 <= i < |nodes| ==> counts[i] == SumHeld(h, es, nodes[i])
  }

  lemma {:induction false} CountedNext(h: Heap, envs: seq<nat>, k: nat, nodes: seq<nat>, counts: seq<nat>,
        counts': seq<nat>)
    requires Within(envs, |h|) && k < |envs| && Counted(h, envs[..k], nodes, counts) && |counts'| == |counts|
    requires forall i :: 0 <= i < |nodes| ==> counts'[i] == counts[i] + Held(h[envs[k]], nodes[i])
    ensures Counted(h, envs[..k + 1], nodes, counts')
  {
    forall i | 0 <= i < |nodes|
      ensures counts'[i] == SumHeld(h, envs[..k + 1], nodes[i])
    {
      SumHeldNext(h, envs, k, nodes[i]);
    }
  }

  /** Parent links count into environments. */
  method ParentDegrees(h: Heap, envs: seq<nat>, envIndex: map<nat, nat>) returns (counts: seq<nat>)
    requires WellFormed(h) && (forall e :: e in envs ==> IsEnv(h, e)) && Indexes(envs, envIndex)
    ensures Within(envs, |h|) && Counted(h, envs, envs, counts)
  {
    hide Held, WellFormed;
    assert forall i :: 0 <= i < |envs| ==> envs[i] in envs && IsEnv(h, envs[i]);
    counts := seq(|envs|, _ => 0);
    for k := 0 to |envs|
      invariant Counted(h, envs[..k], envs, counts)
    {
      var e := envs[k];
      ghost var before := counts;
      if h[e].parent.Some? && h[e].parent.value in envIndex {
        var pi := envIndex[h[e].parent.value];
        counts := counts[pi := counts[pi] + 1];
      }
      forall i | 0 <= i < |envs|
        ensures counts[i] == before[i] + Held(h[e], envs[i])
      {
        EnvHolds(h, e, envs[i]);
      }
      CountedNext(h, envs, k, envs, before, counts);
    }
    assert envs[..|envs|] == envs;
  }

  /** Variables count into cells. */
  method LocalDegrees(h: Heap, envs: seq<nat>, cs: seq<nat>, ghost envIndex: map<nat, nat>, ghost index: map<nat, nat>,
        kids: Children)
      returns (counts: seq<nat>)
    requires Graph(h, envs, cs) && Indexes(cs, index) && ChildrenOf(h, envs, cs, envIndex, index, kids)
    ensures Within(envs, |h|) && Counted(h, envs, cs, counts)
  {
    hide Held, WellFormed, Occ;
    GraphWithin(h, envs, cs);
    counts := seq(|cs|, _ => 0);
    for k := 0 to |envs|
      invariant Counted(h, envs[..k], cs, counts)
    {
      ghost var e := envs[k];
      assert e in envs && IsEnv(h, e);
      PositionsOf(h[e].locals, cs, index);
      ghost var before := counts;
      counts := Tally(counts, kids.ofEnv[k]);
      forall i | 0 <= i < |cs|
        ensures counts[i] == before[i] + Held(h[e], cs[i])
      {
        assert cs[i] in cs;
        EnvHolds(h, e, cs[i]);
        PositionsCount(h[e].locals, cs, index, i);
      }
      CountedNext(h, envs, k, cs, before, counts);
    }
    assert envs[..|envs|] == envs;
  }

  /** Edges out of the environments and out of the carriers in `done`. */
  ghost predicate CountedAll(h: Heap, envs: seq<nat>, done: seq<nat>, nodes: seq<nat>, counts: seq<nat>)
    requires WellFormed(h) && Within(envs, |h|) && forall c :: c in done ==> IsCarrier(h, c)
  {
    |counts| == |nodes|
    && forall i :: 0 <= i < |nodes| ==>
       counts[i] == SumHeld(h, envs, nodes[i]) + Occ(Refs(AllContents(h, done)), nodes[i])
  }

  lemma {:induction false} CountedAllNext(h: Heap, envs: seq<nat>, cs: seq<nat>, k: nat, nodes: seq<nat>,
        index: map<nat, nat>,
                                          counts: seq<nat>, counts': seq<nat>)
    requires Graph(h, envs, cs) && Within(envs, |h|) && k < |cs| && IsCarrier(h, cs[k]) && Indexes(nodes, index)
    requires (forall c :: c in cs[..k] ==> IsCarrier(h, c)) && CountedAll(h, envs, cs[..k], nodes, counts)
    requires |counts'| == |counts|
    requires forall i :: 0 <= i < |nodes| ==>
      counts'[i] == counts[i] + Occ(Positions(Refs(Contents(h, cs[k])), index), i)
    ensures (forall c :: c in cs[..k + 1] ==> IsCarrier(h, c)) && CountedAll(h, envs, cs[..k + 1], nodes, counts')
  {
    hide Occ, WellFormed;
    AllContentsNext(h, cs, k);
    var done, ts := AllContents(h, cs[..k]), Contents(h, cs[k]);
    RefsConcat(done, ts);
    forall i | 0 <= i < |nodes|
      ensures counts'[i] == SumHeld(h, envs, nodes[i]) + Occ(Refs(done + ts), nodes[i])
    {
      PositionsCount(Refs(ts), nodes, index, i);
      OccConcat(Refs(done), Refs(ts), nodes[i]);
    }
  }

  /** How many edges of the tracked graph lead to each node. */
  method InDegrees(h: Heap, envs: seq<nat>, cs: seq<nat>, envIndex: map<nat, nat>, ghost index: map<nat, nat>,
        kids: Children)
      returns (envIn: seq<nat>, carrierIn: seq<nat>)
    requires Graph(h, envs, cs) && Indexes(envs, envIndex) && Indexes(cs, index)
    requires ChildrenOf(h, envs, cs, envIndex, index, kids)
    ensures |envIn| == |envs| && |carrierIn| == |cs|
    ensures forall i :: 0 <= i < |envs| ==> envIn[i] == Internal(h, envs, cs, envs[i])
    ensures forall i :: 0 <= i < |cs| ==> carrierIn[i] == Internal(h, envs, cs, cs[i])
  {
    hide Occ, WellFormed, SumHeld, Positions;
    GraphWithin(h, envs, cs);
    envIn := ParentDegrees(h, envs, envIndex);
    carrierIn := LocalDegrees(h, envs, cs, envIndex, index, kids);
    OccNone();
    for k := 0 to |cs|
      invariant forall c :: c in cs[..k] ==> IsCarrier(h, c)
      invariant CountedAll(h, envs, cs[..k], envs, envIn) && CountedAll(h, envs, cs[..k], cs, carrierIn)
    {
      assert CarrierChildren(h, cs[k], envIndex, index, kids.carrierToEnv[k], kids.carrierToCarrier[k]);
      PositionsOf(Refs(Contents(h, cs[k])), envs, envIndex);
      PositionsOf(Refs(Contents(h, cs[k])), cs, index);
      ghost var envBefore, carrierBefore := envIn, carrierIn;
      envIn := Tally(envIn, kids.carrierToEnv[k]);
      carrierIn := Tally(carrierIn, kids.carrierToCarrier[k]);
      CountedAllNext(h, envs, cs, k, envs, envIndex, envBefore, envIn);
      CountedAllNext(h, envs, cs, k, cs, index, carrierBefore, carrierIn);
    }
    assert cs[..|cs|] == cs;
  }

  lemma {:induction false} OccNone()
    ensures forall a :: Occ([], a) == 0
  {
  }

  // ----- marking -----

  ghost function AliveSet(envs: seq<nat>, ea: seq<bool>, cs: seq<nat>, ca: seq<bool>): set<nat>
    requires |ea| == |envs| && |ca| == |cs|
  {
    (set i | 0 <= i < |envs| && ea[i] :: envs[i]) + (set i | 0 <= i < |cs| && ca[i] :: cs[i])
  }

  predicate InRange(envs: seq<nat>, cs: seq<nat>, n: GcNode) {
    if n.EnvNode? then n.i < |envs| else n.i < |cs|
  }

  ghost function Address(envs: seq<nat>, cs: seq<nat>, n: GcNode): nat
    requires InRange(envs, cs, n)
  {
    if n.EnvNode? then envs[n.i] else cs[n.i]
  }

  ghost function Todo(envs: seq<nat>, cs: seq<nat>, work: seq<GcNode>): set<nat>
    requires forall n :: n in work ==> InRange(envs, cs, n)
  {
    set n | n in work :: Address(envs, cs, n)
  }

  /** What marking has established when `alive` is marked and `todo` waits. */
  ghost predicate Marking(h: Heap, roots: multiset<nat>, envs: seq<nat>, cs: seq<nat>, alive: set<nat>, todo: set<nat>)
    requires Graph(h, envs, cs)
  {
    (forall a :: a in alive + todo ==> Node(envs, cs, a))
    && (forall a :: Node(envs, cs, a) && External(h, roots, envs, cs, a) > 0 ==> a in alive + todo)
    && (forall a, b :: a in alive && Edge(h, envs, a, b) ==> b in alive + todo)
    && forall s :: Propagated(h, roots, envs, cs, s) ==> alive + todo <= s
  }

  ghost function Successors(h: Heap, envs: seq<nat>, cs: seq<nat>, a: nat): set<nat>
    requires Graph(h, envs, cs)
  {
    set b | b in Elements(envs) + Elements(cs) && Edge(h, envs, a, b)
  }

  /** Every edge out of a node leads to a node. */
  lemma {:induction false} EdgeToNode(h: Heap, envs: seq<nat>, cs: seq<nat>, a: nat, b: nat)
    requires Tracked(h, envs, cs) && Node(envs, cs, a) && Edge(h, envs, a, b)
    ensures b in Successors(h, envs, cs, a)
  {
    assert ObjOk(h, a);
    if IsCarrier(h, a) {
      SlotsOk(h, a);
      FlattenKinds(h, h[a].slots);
    }
  }

  lemma {:induction false} MarkingVisits(h: Heap, roots: multiset<nat>, envs: seq<nat>, cs: seq<nat>,
                                         alive: set<nat>, todo: set<nat>, a: nat, todo': set<nat>)
    requires Tracked(h, envs, cs) && Marking(h, roots, envs, cs, alive, todo) && a in todo
    requires alive + {a} + todo' == alive + todo + Successors(h, envs, cs, a)
    ensures Marking(h, roots, envs, cs, alive + {a}, todo')
  {
    forall x, y | x in alive + {a} && Edge(h, envs, x, y)
      ensures y in alive + {a} + todo'
    {
      if x == a {
        EdgeToNode(h, envs, cs, a, y);
      }
    }
    forall s | Propagated(h, roots, envs, cs, s)
      ensures alive + {a} + todo' <= s
    {
      assert alive + todo <= s && a in s && Node(envs, cs, a);
    }
  }

  lemma {:induction false} MarkingSame(h: Heap, roots: multiset<nat>, envs: seq<nat>, cs: seq<nat>,
                                       alive: set<nat>, todo: set<nat>, todo': set<nat>)
    requires Graph(h, envs, cs) && Marking(h, roots, envs, cs, alive, todo) && alive + todo' == alive + todo
    ensures Marking(h, roots, envs, cs, alive, todo')
  {
  }

  lemma {:induction false} MarkingDone(h: Heap, roots: multiset<nat>, envs: seq<nat>, cs: seq<nat>, alive: set<nat>)
    requires Graph(h, envs, cs) && Marking(h, roots, envs, cs, alive, {})
    ensures Marked(h, roots, envs, cs, alive)
  {
    assert alive + {} == alive;
  }

  /** The sweep's own hold on every node is one reference, which the reading subtracts. */
  lemma {:induction false} HoldIsOne(h: Heap, roots: multiset<nat>, envs: seq<nat>, cs: seq<nat>, a: nat)
    requires Graph(h, envs, cs) && Node(envs, cs, a)
    ensures StrongCount(h, roots + multiset(envs) + multiset(cs), a) == StrongCount(h, roots, a) + 1
  {
    NoDupOnce(envs, a);
    NoDupOnce(cs, a);
    assert !(IsEnv(h, a) && IsCarrier(h, a));
  }

  /** `saturating_sub`. */
  function SaturatingSub(a: nat, b: nat): nat {
    if a > b then a - b else 0
  }

  /** The nodes whose strong count exceeds their in-degree. */
  method Surpluses(h: Heap, roots: multiset<nat>, envs: seq<nat>, cs: seq<nat>, envIn: seq<nat>, carrierIn: seq<nat>)
      returns (work: seq<GcNode>)
    requires Graph(h, envs, cs) && |envIn| == |envs| && |carrierIn| == |cs|
    requires forall i :: 0 <= i < |envs| ==> envIn[i] == Internal(h, envs, cs, envs[i])
    requires forall i :: 0 <= i < |cs| ==> carrierIn[i] == Internal(h, envs, cs, cs[i])
    ensures forall n :: n in work ==> InRange(envs, cs, n)
    ensures forall a :: a in Todo(envs, cs, work) <==> Node(envs, cs, a) && External(h, roots, envs, cs, a) > 0
  {
    hide Internal, StrongCount, WellFormed;
    var held := roots + multiset(envs) + multiset(cs);
    work := [];
    for i := 0 to |envs|
      invariant forall n :: n in work ==> n.EnvNode? && n.i < i
      invariant forall j :: 0 <= j < i ==> (EnvNode(j) in work <==> External(h, roots, envs, cs, envs[j]) > 0)
    {
      assert Node(envs, cs, envs[i]);
      HoldIsOne(h, roots, envs, cs, envs[i]);
      var external := SaturatingSub(StrongCount(h, held, envs[i]) - 1, envIn[i]);
      if external > 0 {
        work := work + [EnvNode(i)];
      }
    }
    for i := 0 to |cs|
      invariant forall n :: n in work ==> InRange(envs, cs, n) && (n.CarrierNode? ==> n.i < i)
      invariant forall j :: 0 <= j < |envs| ==> (EnvNode(j) in work <==> External(h, roots, envs, cs, envs[j]) > 0)
      invariant forall j :: 0 <= j < i ==> (CarrierNode(j) in work <==> External(h, roots, envs, cs, cs[j]) > 0)
    {
      assert Node(envs, cs, cs[i]);
      HoldIsOne(h, roots, envs, cs, cs[i]);
      var external := SaturatingSub(StrongCount(h, held, cs[i]) - 1, carrierIn[i]);
      if external > 0 {
        work := work + [CarrierNode(i)];
      }
    }
    forall a | Node(envs, cs, a) && External(h, roots, envs, cs, a) > 0
      ensures a in Todo(envs, cs, work)
    {
      if a in envs {
        var j :| 0 <= j < |envs| && envs[j] == a;
        assert EnvNode(j) in work && Address(envs, cs, EnvNode(j)) == a;
      } else {
        var j :| 0 <= j < |cs| && cs[j] == a;
        assert CarrierNode(j) in work && Address(envs, cs, CarrierNode(j)) == a;
      }
    }
    forall a | a in Todo(envs, cs, work)
      ensures Node(envs, cs, a) && External(h, roots, envs, cs, a) > 0
    {
      var n :| n in work && Address(envs, cs, n) == a;
      assert n == if n.EnvNode? then EnvNode(n.i) else CarrierNode(n.i);
    }
  }

  ghost predicate Below(ps: seq<nat>, n: nat) {
    forall k :: k in ps ==> k < n
  }

  ghost function Spots(nodes: seq<nat>, ps: seq<nat>): set<nat>
    requires Below(ps, |nodes|)
  {
    set k | k in ps :: nodes[k]
  }

  lemma {:induction false} TodoPush(envs: seq<nat>, cs: seq<nat>, work: seq<GcNode>, n: GcNode)
    requires (forall x :: x in work ==> InRange(envs, cs, x)) && InRange(envs, cs, n)
    ensures forall x :: x in work + [n] ==> InRange(envs, cs, x)
    ensures Todo(envs, cs, work + [n]) == Todo(envs, cs, work) + {Address(envs, cs, n)}
  {
    var t := Todo(envs, cs, work + [n]);
    assert n in work + [n] && forall x :: x in work ==> x in work + [n];
    forall a | a in Todo(envs, cs, work)
      ensures a in t
    {
      var x :| x in work && Address(envs, cs, x) == a;
      assert x in work + [n];
    }
  }

  lemma {:induction false} SpotsNext(nodes: seq<nat>, ps: seq<nat>, j: nat)
    requires Below(ps, |nodes|) && j < |ps|
    ensures Below(ps[..j], |nodes|) && Below(ps[..j + 1], |nodes|) && ps[j] < |nodes|
    ensures Spots(nodes, ps[..j + 1]) == Spots(nodes, ps[..j]) + {nodes[ps[j]]}
  {
    assert ps[..j + 1] == ps[..j] + [ps[j]] && ps[j] in ps;
    assert forall k :: k in ps[..j] ==> k in ps;
  }

  /** Puts the nodes at some positions on the worklist. */
  method Push(ghost envs: seq<nat>, ghost cs: seq<nat>, work: seq<GcNode>, ps: seq<nat>, env: bool)
        returns (work': seq<GcNode>)
    requires forall n :: n in work ==> InRange(envs, cs, n)
    requires Below(ps, if env then |envs| else |cs|)
    ensures forall n :: n in work' ==> InRange(envs, cs, n)
    ensures Todo(envs, cs, work') == Todo(envs, cs, work) + Spots(if env then envs else cs, ps)
  {
    work' := work;
    for j := 0 to |ps|
      invariant forall n :: n in work' ==> InRange(envs, cs, n)
      invariant Below(ps[..j], if env then |envs| else |cs|)
      invariant Todo(envs, cs, work') == Todo(envs, cs, work) + Spots(if env then envs else cs, ps[..j])
    {
      SpotsNext(if env then envs else cs, ps, j);
      var n := if env then EnvNode(ps[j]) else CarrierNode(ps[j]);
      TodoPush(envs, cs, work', n);
      work' := work' + [n];
    }
    assert ps[..|ps|] == ps;
  }

  lemma {:induction false} EnvSuccessors(h: Heap, envs: seq<nat>, cs: seq<nat>, envIndex: map<nat, nat>,
        index: map<nat, nat>, e: nat)
    requires Tracked(h, envs, cs) && Indexes(envs, envIndex) && Indexes(cs, index) && e in envs && IsEnv(h, e)
    ensures var ps := Positions(h[e].locals, index);
      Below(ps, |cs|)
      && Successors(h, envs, cs, e)
         == Spots(cs, ps) + if h[e].parent.Some? && h[e].parent.value in envIndex then {h[e].parent.value} else {}
  {
    PositionsOf(h[e].locals, cs, index);
    assert ObjOk(h, e);
    var ps := Positions(h[e].locals, index);
    forall b | b in Successors(h, envs, cs, e) && b in h[e].locals
      ensures b in Spots(cs, ps)
    {
      assert b in Elements(cs);
      assert index[b] in ps && cs[index[b]] == b;
    }
    forall b | b in Spots(cs, ps)
      ensures b in Successors(h, envs, cs, e)
    {
      var k :| k in ps && cs[k] == b;
      assert Edge(h, envs, e, b);
    }
    if h[e].parent.Some? && h[e].parent.value in envIndex {
      var b := h[e].parent.value;
      assert envs[envIndex[b]] == b && Edge(h, envs, e, b) && b in Successors(h, envs, cs, e);
    }
  }

  lemma {:induction false} CarrierSuccessors(h: Heap, envs: seq<nat>, cs: seq<nat>, envIndex: map<nat, nat>,
        index: map<nat, nat>, c: nat)
    requires Tracked(h, envs, cs) && Indexes(envs, envIndex) && Indexes(cs, index) && c in cs && IsCarrier(h, c)
    ensures var ts := Refs(Contents(h, c));
      Below(Positions(ts, envIndex), |envs|) && Below(Positions(ts, index), |cs|)
      && Successors(h, envs, cs, c) == Spots(envs, Positions(ts, envIndex)) + Spots(cs, Positions(ts, index))
  {
    var ts := Refs(Contents(h, c));
    PositionsOf(ts, envs, envIndex);
    PositionsOf(ts, cs, index);
    var es, ks := Positions(ts, envIndex), Positions(ts, index);
    forall b | b in Successors(h, envs, cs, c)
      ensures b in Spots(envs, es) + Spots(cs, ks)
    {
      if b in envs {
        assert envIndex[b] in es && envs[envIndex[b]] == b;
      } else {
        assert index[b] in ks && cs[index[b]] == b;
      }
    }
    forall b | b in Spots(envs, es) + Spots(cs, ks)
      ensures b in Successors(h, envs, cs, c)
    {
      if b in Spots(envs, es) {
        var k :| k in es && envs[k] == b;
        assert Edge(h, envs, c, b);
      } else {
        var k :| k in ks && cs[k] == b;
        assert IsCarrier(h, b) && Edge(h, envs, c, b);
      }
    }
  }

  lemma {:induction false} AliveEnv(envs: seq<nat>, ea: seq<bool>, cs: seq<nat>, ca: seq<bool>, i: nat)
    requires |ea| == |envs| && |ca| == |cs| && i < |envs|
    ensures AliveSet(envs, ea[i := true], cs, ca) == AliveSet(envs, ea, cs, ca) + {envs[i]}
  {
  }

  lemma {:induction false} AliveCarrier(envs: seq<nat>, ea: seq<bool>, cs: seq<nat>, ca: seq<bool>, i: nat)
    requires |ea| == |envs| && |ca| == |cs| && i < |cs|
    ensures AliveSet(envs, ea, cs, ca[i := true]) == AliveSet(envs, ea, cs, ca) + {cs[i]}
  {
  }

  /** A flag says whether its node is in the set. */
  lemma {:induction false} AliveFlags(h: Heap, envs: seq<nat>, ea: seq<bool>, cs: seq<nat>, ca: seq<bool>)
    requires Graph(h, envs, cs) && |ea| == |envs| && |ca| == |cs|
    ensures forall i :: 0 <= i < |envs| ==> (ea[i] <==> envs[i] in AliveSet(envs, ea, cs, ca))
    ensures forall i :: 0 <= i < |cs| ==> (ca[i] <==> cs[i] in AliveSet(envs, ea, cs, ca))
  {
    assert forall i :: 0 <= i < |envs| ==> IsEnv(h, envs[i]);
    assert forall i :: 0 <= i < |cs| ==> IsCarrier(h, cs[i]);
  }

  lemma {:induction false} PopTodo(envs: seq<nat>, cs: seq<nat>, work: seq<GcNode>)
    requires work != [] && forall x :: x in work ==> InRange(envs, cs, x)
    ensures var n, rest := work[|work| - 1], work[..|work| - 1];
      InRange(envs, cs, n) && (forall x :: x in rest ==> InRange(envs, cs, x))
      && Todo(envs, cs, work) == Todo(envs, cs, rest) + {Address(envs, cs, n)}
  {
    var n, rest := work[|work| - 1], work[..|work| - 1];
    assert work == rest + [n];
    assert forall x :: x in rest ==> x in work;
    assert n in work;
    TodoPush(envs, cs, rest, n);
  }

  ghost function Nodes(envs: seq<nat>, cs: seq<nat>): set<nat> {
    Elements(envs) + Elements(cs)
  }

  /** Puts what an environment leads to on the worklist. */
  method VisitEnv(h: Heap, envs: seq<nat>, ghost cs: seq<nat>, envIndex: map<nat, nat>, ghost index: map<nat, nat>,
                  kids: Children, i: nat, work: seq<GcNode>) returns (work': seq<GcNode>)
    requires Tracked(h, envs, cs) && Indexes(envs, envIndex) && Indexes(cs, index)
    requires ChildrenOf(h, envs, cs, envIndex, index, kids)
    requires i < |envs| && forall n :: n in work ==> InRange(envs, cs, n)
    ensures forall n :: n in work' ==> InRange(envs, cs, n)
    ensures Todo(envs, cs, work') == Todo(envs, cs, work) + Successors(h, envs, cs, envs[i])
  {
    hide Edge, Roomy, WellFormed, Successors, Todo, Spots, Positions;
    assert IsEnv(h, envs[i]) && envs[i] in envs;
    EnvSuccessors(h, envs, cs, envIndex, index, envs[i]);
    var parent := h[envs[i]].parent;
    work' := work;
    if parent.Some? && parent.value in envIndex {
      TodoPush(envs, cs, work, EnvNode(envIndex[parent.value]));
      work' := work + [EnvNode(envIndex[parent.value])];
    }
    work' := Push(envs, cs, work', kids.ofEnv[i], false);
  }

  /** Puts what a carrier leads to on the worklist. */
  method VisitCarrier(ghost h: Heap, ghost envs: seq<nat>, ghost cs: seq<nat>, ghost envIndex: map<nat, nat>,
                      ghost index: map<nat, nat>, kids: Children, i: nat,
                        work: seq<GcNode>) returns (work': seq<GcNode>)
    requires Tracked(h, envs, cs) && Indexes(envs, envIndex) && Indexes(cs, index)
    requires ChildrenOf(h, envs, cs, envIndex, index, kids)
    requires i < |cs| && forall n :: n in work ==> InRange(envs, cs, n)
    ensures forall n :: n in work' ==> InRange(envs, cs, n)
    ensures Todo(envs, cs, work') == Todo(envs, cs, work) + Successors(h, envs, cs, cs[i])
  {
    hide Edge, Roomy, WellFormed, Successors, Todo, Spots, Positions;
    assert cs[i] in cs && CarrierChildren(h, cs[i], envIndex, index, kids.carrierToEnv[i], kids.carrierToCarrier[i]);
    CarrierSuccessors(h, envs, cs, envIndex, index, cs[i]);
    work' := Push(envs, cs, work, kids.carrierToEnv[i], true);
    work' := Push(envs, cs, work', kids.carrierToCarrier[i], false);
  }

  /** Marks everything that the nodes with a surplus lead to. */
  method Mark(h: Heap, ghost roots: multiset<nat>, envs: seq<nat>, cs: seq<nat>, envIndex: map<nat, nat>,
        ghost index: map<nat, nat>,
              kids: Children, initial: seq<GcNode>) returns (ea: seq<bool>, ca: seq<bool>)
    requires Tracked(h, envs, cs) && Indexes(envs, envIndex) && Indexes(cs, index)
    requires ChildrenOf(h, envs, cs, envIndex, index, kids)
    requires forall n :: n in initial ==> InRange(envs, cs, n)
    requires Marking(h, roots, envs, cs, {}, Todo(envs, cs, initial))
    ensures |ea| == |envs| && |ca| == |cs| && Marked(h, roots, envs, cs, AliveSet(envs, ea, cs, ca))
  {
    hide External, Edge, Roomy, WellFormed, Successors, Todo, ChildrenOf, Indexes, Marking;
    ea, ca := seq(|envs|, _ => false), seq(|cs|, _ => false);
    var work := initial;
    assert AliveSet(envs, ea, cs, ca) == {};
    hide AliveSet;
    while work != []
      invariant |ea| == |envs| && |ca| == |cs| && forall n :: n in work ==> InRange(envs, cs, n)
      invariant Marking(h, roots, envs, cs, AliveSet(envs, ea, cs, ca), Todo(envs, cs, work))
      decreases Nodes(envs, cs) - AliveSet(envs, ea, cs, ca), |work|
    {
      ghost var alive, todo := AliveSet(envs, ea, cs, ca), Todo(envs, cs, work);
      PopTodo(envs, cs, work);
      AliveFlags(h, envs, ea, cs, ca);
      var n := work[|work| - 1];
      work := work[..|work| - 1];
      ghost var a := Address(envs, cs, n);
      if n.EnvNode? && !ea[n.i] {
        AliveEnv(envs, ea, cs, ca, n.i);
        ea := ea[n.i := true];
        work := VisitEnv(h, envs, cs, envIndex, index, kids, n.i, work);
        MarkingVisits(h, roots, envs, cs, alive, todo, a, Todo(envs, cs, work));
        FewerUnmarked(envs, cs, alive, a);
      } else if n.CarrierNode? && !ca[n.i] {
        AliveCarrier(envs, ea, cs, ca, n.i);
        ca := ca[n.i := true];
        work := VisitCarrier(h, envs, cs, envIndex, index, kids, n.i, work);
        MarkingVisits(h, roots, envs, cs, alive, todo, a, Todo(envs, cs, work));
        FewerUnmarked(envs, cs, alive, a);
      } else {
        MarkingSame(h, roots, envs, cs, alive, todo, Todo(envs, cs, work));
      }
    }
    NothingTodo(envs, cs);
    MarkingDone(h, roots, envs, cs, AliveSet(envs, ea, cs, ca));
  }

  lemma {:induction false} FewerUnmarked(envs: seq<nat>, cs: seq<nat>, alive: set<nat>, a: nat)
    requires a in Nodes(envs, cs) && a !in alive
    ensures Nodes(envs, cs) - (alive + {a}) < Nodes(envs, cs) - alive
  {
    assert a in Nodes(envs, cs) - alive;
  }

  /** The nodes with a surplus are where marking starts. */
  lemma {:induction false} MarkingStarts(h: Heap, roots: multiset<nat>, envs: seq<nat>, cs: seq<nat>, todo: set<nat>)
    requires Graph(h, envs, cs)
    requires forall a :: a in todo <==> Node(envs, cs, a) && External(h, roots, envs, cs, a) > 0
    ensures Marking(h, roots, envs, cs, {}, todo)
  {
    assert {} + todo == todo;
  }

  lemma {:induction false} NothingTodo(envs: seq<nat>, cs: seq<nat>)
    ensures Todo(envs, cs, []) == {}
  {
  }

  // ----- clearing -----

  ghost predicate LooserThan(o: Obj, o': Obj) {
    o.CarrierObj? && o'.CarrierObj? && o'.kind == o.kind && forall v :: v in o'.slots ==>
      v in o.slots || v == Unspecified
  }

  /** The same heap except that some slots of carriers have become unspecified. */
  ghost predicate Loosened(h: Heap, h': Heap) {
    |h'| == |h|
    && forall o :: 0 <= o < |h| ==> h'[o] == h[o] || LooserThan(h[o], h'[o])
  }

  lemma {:induction false} LoosenedOk(h: Heap, h': Heap)
    requires WellFormed(h) && Loosened(h, h')
    ensures WellFormed(h') && forall v :: ValOk(h, v) ==> ValOk(h', v)
  {
    forall v | ValOk(h, v)
      ensures ValOk(h', v)
    {
    }
    forall o | 0 <= o < |h'|
      ensures ObjOk(h', o)
    {
      assert ObjOk(h, o);
    }
  }

  /** Lists do not change, so flattening finds the same. */
  lemma {:induction false} FlattenSame(h: Heap, h': Heap, vs: seq<Val>)
    requires AllOk(h, vs) && Loosened(h, h')
    ensures AllOk(h', vs) && Flatten(h', vs) == Flatten(h, vs)
    decreases ListBound(vs), |vs|
  {
    LoosenedOk(h, h');
    if vs != [] {
      Opens(h, vs);
      Opens(h', vs);
      FlattenSame(h, h', vs[1..]);
      if vs[0].List? {
        FlattenSame(h, h', h[vs[0].id].items);
      }
    }
  }

  /** Replaces each slot that leads to a dead environment. */
  method ClearCarrier(h: Heap, slots: seq<Val>, dead: set<nat>) returns (r: seq<Val>)
    requires AllOk(h, slots)
    ensures r == ClearSlots(h, slots, dead)
  {
    r := [];
    for k := 0 to |slots|
      invariant |r| == k && forall j :: 0 <= j < k ==> r[j] == ClearSlots(h, slots, dead)[j]
    {
      var v := slots[k];
      assert v in slots && AllOk(h, [v]);
      var flat := FlattenTransparent(h, [v]);
      var hit := exists j :: 0 <= j < |flat| && flat[j].Closure? && flat[j].env in dead;
      assert hit <==> TargetsDead(h, v, dead);
      r := r + [if hit then Unspecified else v];
    }
  }

  /** Clears every tracked carrier in place. */
  method Clear(store: Store, envs: seq<nat>, cs: seq<nat>, dead: set<nat>)
    requires Graph(store.objects, envs, cs)
    modifies store`objects
    ensures Cleared(old(store.objects), cs, dead, store.objects)
  {
    ghost var h := store.objects;
    for i := 0 to |cs|
      invariant Loosened(h, store.objects)
      invariant forall o :: 0 <= o < |h| && o !in cs[..i] ==> store.objects[o] == h[o]
      invariant forall j :: 0 <= j < i ==> ClearedAt(h, cs[j], dead, store.objects)
    {
      var c := cs[i];
      assert c in cs && IsCarrier(h, c) && c !in cs[..i];
      SlotsOk(h, c);
      FlattenSame(h, store.objects, h[c].slots);
      ClearSame(h, store.objects, h[c].slots, dead);
      var slots := ClearCarrier(store.objects, store.objects[c].slots, dead);
      StillLoosened(h, store.objects, c, dead);
      store.objects := store.objects[c := CarrierObj(store.objects[c].kind, slots)];
    }
    assert cs[..|cs|] == cs;
    forall c | c in cs && IsCarrier(h, c)
      ensures ClearedAt(h, c, dead, store.objects)
    {
      var j :| 0 <= j < |cs| && cs[j] == c;
    }
  }

  ghost predicate ClearedAt(h: Heap, c: nat, dead: set<nat>, h': Heap)
    requires WellFormed(h) && |h'| == |h|
  {
    IsCarrier(h, c) && AllOk(h, h[c].slots) && h'[c] == CarrierObj(h[c].kind, ClearSlots(h, h[c].slots, dead))
  }

  lemma {:induction false} ClearSame(h: Heap, h': Heap, vs: seq<Val>, dead: set<nat>)
    requires AllOk(h, vs) && Loosened(h, h')
    ensures AllOk(h', vs) && ClearSlots(h', vs, dead) == ClearSlots(h, vs, dead)
  {
    LoosenedOk(h, h');
    var r, r' := ClearSlots(h, vs, dead), ClearSlots(h', vs, dead);
    forall i | 0 <= i < |vs|
      ensures r[i] == r'[i]
    {
      assert vs[i] in vs && AllOk(h, [vs[i]]);
      FlattenSame(h, h', [vs[i]]);
    }
  }

  lemma {:induction false} StillLoosened(h: Heap, h': Heap, c: nat, dead: set<nat>)
    requires Loosened(h, h') && IsCarrier(h, c) && h'[c] == h[c] && AllOk(h, h[c].slots)
    ensures Loosened(h, h'[c := CarrierObj(h'[c].kind, ClearSlots(h, h[c].slots, dead))])
  {
    var r := ClearSlots(h, h[c].slots, dead);
    assert forall i :: 0 <= i < |r| ==> r[i] == h[c].slots[i] || r[i] == Unspecified;
  }

  // ----- the collector -----

  lemma {:induction false} LiveNoDup(h: Heap, registry: seq<nat>)
    requires NoDup(registry)
    ensures NoDup(LiveOnes(h, registry)) && |LiveOnes(h, registry)| <= |registry|
    ensures forall e :: e in LiveOnes(h, registry) ==> IsEnv(h, e) && e in registry
  {
    if registry != [] {
      LiveNoDup(h, registry[1..]);
      assert forall e :: e in registry[1..] ==> exists i :: 1 <= i < |registry| && registry[i] == e;
    }
  }

  class EnvGc {
    var registry: seq<nat>
    var nextSweepAt: nat
    ghost var registered: nat
    ghost var scanned: nat
    ghost var survivors: nat

    /** The registry stays short of the next sweep, and sweeps have cost at most two looks per registration. */
    ghost predicate Valid()
      reads this
    {
      NoDup(registry)
      && |registry| < nextSweepAt
      && nextSweepAt == (if 2 * survivors > 512 then 2 * survivors else 512)
      && survivors <= |registry|
      && scanned + 2 * (|registry| - survivors) <= 2 * registered
    }

    constructor ()
      ensures Valid() && registry == [] && registered == 0
    {
      registry, nextSweepAt := [], MIN_ENVS_PER_SWEEP;
      registered, scanned, survivors := 0, 0, 0;
    }

    /** One trial-deletion pass over the registered environments that still exist. */
    method Sweep(store: Store) returns (ghost cs: seq<nat>, ghost alive: set<nat>)
      requires WellFormed(store.objects) && NoDup(registry)
      modifies this`registry, this`scanned, store`objects
      ensures registry == LiveOnes(old(store.objects), old(registry)) && scanned == old(scanned) + |old(registry)|
      ensures Swept(old(store.objects), store.roots, registry, cs, alive, store.objects)
    {
      hide ChildrenOf, Internal, External, Roomy, Indexes, Edge, WellFormed, LiveOnes, Marking, Propagated, Cleared;
      scanned := scanned + |registry|;
      var envs := Upgrade(store.objects, registry);
      LiveNoDup(store.objects, registry);
      registry := envs;
      if envs == [] {
        cs, alive := [], {};
        NothingSwept(store.objects, store.roots);
        return;
      }
      var envIndex := MakeIndex(envs);
      var carriers, index := Discover(store.objects, envs);
      var kids := FindChildren(store.objects, envs, carriers, envIndex, index);
      var envIn, carrierIn := InDegrees(store.objects, envs, carriers, envIndex, index, kids);
      var work := Surpluses(store.objects, store.roots, envs, carriers, envIn, carrierIn);
      MarkingStarts(store.objects, store.roots, envs, carriers, Todo(envs, carriers, work));
      var ea, ca := Mark(store.objects, store.roots, envs, carriers, envIndex, index, kids, work);
      AliveFlags(store.objects, envs, ea, carriers, ca);
      var dead := set i | 0 <= i < |envs| && !ea[i] :: envs[i];
      cs, alive := carriers, AliveSet(envs, ea, carriers, ca);
      assert dead == Dead(envs, alive);
      Clear(store, envs, carriers, dead);
    }

    /** Adds a fresh environment, and sweeps when the registry has grown to the threshold. */
    method Register(store: Store, env: nat) returns (ghost swept: bool, ghost cs: seq<nat>, ghost alive: set<nat>)
      requires Valid() && env !in registry && WellFormed(store.objects)
      modifies this, store`objects
      ensures Valid() && |registry| < nextSweepAt
      ensures registered == old(registered) + 1 && scanned <= 2 * registered
      ensures swept <==> |old(registry)| + 1 == old(nextSweepAt)
      ensures !swept ==> registry == old(registry) + [env] && store.objects == old(store.objects)
      ensures swept ==> registry == LiveOnes(old(store.objects), old(registry) + [env])
      ensures swept ==> Swept(old(store.objects), store.roots, registry, cs, alive, store.objects)
    {
      swept, cs, alive := false, [], {};
      registry := registry + [env];
      registered := registered + 1;
      if |registry| >= nextSweepAt {
        swept := true;
        ghost var before := registry;
        LiveNoDup(store.objects, before);
        cs, alive := Sweep(store);
        survivors := |registry|;
        nextSweepAt := if |registry| * 2 > MIN_ENVS_PER_SWEEP then |registry| * 2 else MIN_ENVS_PER_SWEEP;
      }
    }
  }

  lemma {:induction false} NothingSwept(h: Heap, roots: multiset<nat>)
    requires WellFormed(h)
    ensures Swept(h, roots, [], [], {}, h)
  {
    assert Elements([]) == {};
  }
}
