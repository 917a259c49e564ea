/**
 `equal?` on heaps that may be cyclic: a work stack and the set of address pairs already
 compared.  It decides whether any path of car, cdr and index steps tells two values apart.
 */
module Equality {
  import opened Prelude
  import opened Data

  /** A value, or what is left of a list after its first `k` elements. */
  datatype Item = Val(v: Value) | Rest(id: nat, k: nat)

  predicate IsPair(objects: seq<Object>, x: Item) {
    x.Val? && x.v.Ref? && x.v.id < |objects| && objects[x.v.id].PairObj?
  }

  predicate IsVector(objects: seq<Object>, x: Item) {
    x.Val? && x.v.Ref? && x.v.id < |objects| && objects[x.v.id].VectorObj?
  }

  predicate IsString(objects: seq<Object>, x: Item) {
    x.Val? && x.v.Ref? && x.v.id < |objects| && objects[x.v.id].StrObj?
  }

  predicate IsList(objects: seq<Object>, id: nat) {
    id < |objects| && objects[id].ListObj?
  }

  /** The car and cdr of a pair, or of a list that has elements left. */
  function PairParts(objects: seq<Object>, x: Item): Option<(Item, Item)> {
    if IsPair(objects, x) then Some((Val(objects[x.v.id].car), Val(objects[x.v.id].cdr)))
    else
      var id := if x.Rest? then x.id else if x.v.Ref? then x.v.id else |objects|;
      var k := if x.Rest? then x.k else 0;
      if IsList(objects, id) && k < |objects[id].items| then Some((Val(objects[id].items[k]), Rest(id, k + 1)))
      else None
  }

  /** The empty list, as itself or as what is left of a list. */
  predicate IsNil(objects: seq<Object>, x: Item) {
    x == Val(Nil) || (x.Rest? && PairParts(objects, x).None?)
  }

  /** What `equal?` checks about two values before it looks into them. */
  predicate Alike(objects: seq<Object>, x: Item, y: Item) {
    if PairParts(objects, x).Some? && PairParts(objects, y).Some? then true
    else if IsString(objects, x) && IsString(objects, y) then objects[x.v.id].s == objects[y.v.id].s
    else if IsNil(objects, x) && IsNil(objects, y) then true
    else if IsVector(objects, x) && IsVector(objects, y) then |objects[x.v.id].items| == |objects[y.v.id].items|
    else x.Val? && y.Val? && ValueEqv(x.v, y.v)
  }

  function Zip(xs: seq<Value>, ys: seq<Value>): (r: seq<(Item, Item)>)
    requires |xs| == |ys|
    ensures |r| == |xs| && forall i :: 0 <= i < |xs| ==> r[i] == (Val(xs[i]), Val(ys[i]))
  {
    if xs == [] then [] else [(Val(xs[0]), Val(ys[0]))] + Zip(xs[1..], ys[1..])
  }

  /** The pairs of parts that have to be equal in turn, in the order they are pushed. */
  function Inside(objects: seq<Object>, x: Item, y: Item): seq<(Item, Item)>
    requires Alike(objects, x, y)
  {
    var p, q := PairParts(objects, x), PairParts(objects, y);
    if p.Some? && q.Some? then [(p.value.1, q.value.1), (p.value.0, q.value.0)]
    else if IsVector(objects, x) && IsVector(objects, y) then Zip(objects[x.v.id].items, objects[y.v.id].items)
    else []
  }

  // ----- what equality means -----

  /** No path of fewer than `n` steps tells the values apart. */
  ghost predicate Same(objects: seq<Object>, n: nat, x: Item, y: Item)
    decreases n
  {
    n == 0 || (Alike(objects, x, y) && forall c :: c in Inside(objects, x, y) ==> Same(objects, n - 1, c.0, c.1))
  }

  ghost predicate Equal(objects: seq<Object>, x: Item, y: Item) {
    forall n: nat :: Same(objects, n, x, y)
  }

  /** A relation that checks out locally and that no step leaves. */
  ghost predicate Bisimulation(objects: seq<Object>, r: set<(Item, Item)>) {
    forall p :: p in r ==> Alike(objects, p.0, p.1) && forall c :: c in Inside(objects, p.0, p.1) ==> c in r
  }

  lemma {:induction false} BisimulationIsSame(objects: seq<Object>, r: set<(Item, Item)>, n: nat, p: (Item, Item))
    requires Bisimulation(objects, r) && p in r
    ensures Same(objects, n, p.0, p.1)
    decreases n
  {
    hide Alike, Inside;
    if n > 0 {
      forall c | c in Inside(objects, p.0, p.1)
        ensures Same(objects, n - 1, c.0, c.1)
      {
        BisimulationIsSame(objects, r, n - 1, c);
      }
    }
  }

  lemma {:induction false} EqualParts(objects: seq<Object>, x: Item, y: Item)
    requires Equal(objects, x, y)
    ensures Alike(objects, x, y) && forall c :: c in Inside(objects, x, y) ==> Equal(objects, c.0, c.1)
  {
    assert Same(objects, 1, x, y);
    forall c, n: nat | c in Inside(objects, x, y)
      ensures Same(objects, n, c.0, c.1)
    {
      assert Same(objects, n + 1, x, y);
    }
  }

  // ----- the loop -----

  datatype Loop = Going(work: seq<(Item, Item)>, seen: set<(nat, nat)>) | Ended(verdict: bool)

  /** Two pairs, or two vectors: the comparisons that are remembered. */
  predicate BothGuarded(objects: seq<Object>, x: Item, y: Item) {
    (IsPair(objects, x) && IsPair(objects, y)) || (IsVector(objects, x) && IsVector(objects, y))
  }

  /** One turn of the loop. */
  function Turn(objects: seq<Object>, c: Loop): Loop {
    if c.Ended? then c
    else if c.work == [] then Ended(true)
    else
      var (x, y) := c.work[|c.work| - 1];
      var work := c.work[..|c.work| - 1];
      if BothGuarded(objects, x, y) && (x.v.id, y.v.id) in c.seen then Going(work, c.seen)
      else if !Alike(objects, x, y) then Ended(false)
      else
        Going(work + Inside(objects, x, y),
              if BothGuarded(objects, x, y) then c.seen + {(x.v.id, y.v.id)} else c.seen)
  }

  function Turns(objects: seq<Object>, n: nat, c: Loop): Loop {
    if n == 0 then c else Turn(objects, Turns(objects, n - 1, c))
  }

  ghost function AddressPairs(objects: seq<Object>): set<(nat, nat)> {
    set i, j | 0 <= i < |objects| && 0 <= j < |objects| :: (i, j)
  }

  ghost predicate Checked(objects: seq<Object>, p: (Item, Item), r: set<(Item, Item)>) {
    Alike(objects, p.0, p.1) && forall c :: c in Inside(objects, p.0, p.1) ==> c in r
  }

  /** `seen` are container pairs compared before; what was compared leads to what was compared or waits. */
  ghost predicate Progress(objects: seq<Object>, a: Item, b: Item, work: seq<(Item, Item)>, seen: set<(nat, nat)>,
                           done: set<(Item, Item)>)
  {
    (a, b) in done + Pending(work)
    && (forall p :: p in done ==> Checked(objects, p, done + Pending(work)))
    && (forall k :: k in seen ==> (Val(Ref(k.0)), Val(Ref(k.1))) in done)
    && (Equal(objects, a, b) ==> forall p :: p in work ==> Equal(objects, p.0, p.1))
  }

  ghost function Pending(work: seq<(Item, Item)>): set<(Item, Item)> {
    set p | p in work
  }

  /** One comparison done, its parts pushed. */
  lemma {:induction false} Compared(objects: seq<Object>, a: Item, b: Item, work: seq<(Item, Item)>,
        seen: set<(nat, nat)>,
                                    done: set<(Item, Item)>, p: (Item, Item), seen': set<(nat, nat)>)
    requires Progress(objects, a, b, work + [p], seen, done) && Alike(objects, p.0, p.1)
    requires seen' <= seen + if p.0.Val? && p.0.v.Ref? && p.1.Val? && p.1.v.Ref? then {(p.0.v.id, p.1.v.id)} else {}
    ensures Progress(objects, a, b, work + Inside(objects, p.0, p.1), seen', done + {p})
  {
    var inner := Inside(objects, p.0, p.1);
    assert p in work + [p];
    assert forall c :: c in inner ==> c in Pending(work + inner);
    assert forall c :: c in work ==> c in Pending(work + inner) && c in work + [p];
    forall q | q in done + {p}
      ensures Checked(objects, q, done + {p} + Pending(work + inner))
    {
      assert q != p ==> Checked(objects, q, done + Pending(work + [p]));
    }
    if Equal(objects, a, b) {
      EqualParts(objects, p.0, p.1);
    }
  }

  /** A comparison made before. */
  lemma {:induction false} Repeated(objects: seq<Object>, a: Item, b: Item, work: seq<(Item, Item)>,
        seen: set<(nat, nat)>,
                                    done: set<(Item, Item)>, p: (Item, Item))
    requires Progress(objects, a, b, work + [p], seen, done) && BothGuarded(objects, p.0, p.1)
    requires (p.0.v.id, p.1.v.id) in seen
    ensures Progress(objects, a, b, work, seen, done)
  {
    assert forall c :: c in work ==> c in work + [p];
    forall q | q in done
      ensures Checked(objects, q, done + Pending(work))
    {
      assert Checked(objects, q, done + Pending(work + [p]));
    }
  }

  lemma {:induction false} ProgressStarts(objects: seq<Object>, a: Item, b: Item)
    ensures Progress(objects, a, b, [(a, b)], {}, {})
  {
  }

  lemma {:induction false} Concludes(objects: seq<Object>, a: Item, b: Item, seen: set<(nat, nat)>,
        done: set<(Item, Item)>)
    requires Progress(objects, a, b, [], seen, done)
    ensures Equal(objects, a, b)
  {
    hide Alike, Inside;
    forall p | p in done
      ensures Alike(objects, p.0, p.1) && forall c :: c in Inside(objects, p.0, p.1) ==> c in done
    {
      assert Checked(objects, p, done + Pending([]));
    }
    forall n: nat
      ensures Same(objects, n, a, b)
    {
      BisimulationIsSame(objects, done, n, (a, b));
    }
  }

  lemma {:induction false} GuardedGrows(objects: seq<Object>, x: Item, y: Item, seen: set<(nat, nat)>)
    requires BothGuarded(objects, x, y) && (x.v.id, y.v.id) !in seen
    ensures x.Val? && x.v.Ref? && y.Val? && y.v.Ref?
    ensures (x.v.id, y.v.id) in AddressPairs(objects)
    ensures AddressPairs(objects) - (seen + {(x.v.id, y.v.id)}) < AddressPairs(objects) - seen
  {
    assert (x.v.id, y.v.id) in AddressPairs(objects) - seen;
  }

  lemma {:induction false} NotEqual(objects: seq<Object>, a: Item, b: Item, work: seq<(Item, Item)>,
        seen: set<(nat, nat)>,
                                    done: set<(Item, Item)>, p: (Item, Item))
    requires Progress(objects, a, b, work + [p], seen, done) && !Alike(objects, p.0, p.1)
    ensures !Equal(objects, a, b)
  {
    if Equal(objects, a, b) {
      assert p in work + [p];
      EqualParts(objects, p.0, p.1);
    }
  }

  // ----- the verdict is right on every heap -----

  /** From `p` to `c` in one step of the comparison. */
  ghost predicate Leads(objects: seq<Object>, p: (Item, Item), c: (Item, Item)) {
    Alike(objects, p.0, p.1) && c in Inside(objects, p.0, p.1)
  }

  ghost predicate Route(objects: seq<Object>, r: seq<(Item, Item)>) {
    r != [] && forall i :: 0 <= i < |r| - 1 ==> Leads(objects, r[i], r[i + 1])
  }

  /** The comparison of `a` and `b` can come to `p`. */
  ghost predicate Comes(objects: seq<Object>, a: Item, b: Item, p: (Item, Item)) {
    exists r :: Route(objects, r) && r[0] == (a, b) && r[|r| - 1] == p
  }

  lemma {:induction false} ComesOn(objects: seq<Object>, a: Item, b: Item, p: (Item, Item), c: (Item, Item))
    requires Comes(objects, a, b, p) && Leads(objects, p, c)
    ensures Comes(objects, a, b, c)
  {
    hide Leads;
    var r :| Route(objects, r) && r[0] == (a, b) && r[|r| - 1] == p;
    var q := r + [c];
    forall i | 0 <= i < |q| - 1
      ensures Leads(objects, q[i], q[i + 1])
    {
      assert q[i] == r[i] && (i < |r| - 1 ==> q[i + 1] == r[i + 1]);
    }
    assert Route(objects, q) && q[0] == (a, b) && q[|q| - 1] == c;
  }

  lemma {:induction false} ComesFirst(objects: seq<Object>, a: Item, b: Item)
    ensures Comes(objects, a, b, (a, b))
  {
    var r := [(a, b)];
    assert Route(objects, r) && r[0] == (a, b) && r[|r| - 1] == (a, b);
  }

  /** What holds before every turn, and what a verdict says. */
  ghost predicate Kept(objects: seq<Object>, a: Item, b: Item, c: Loop) {
    match c
    case Ended(verdict) => verdict <==> Equal(objects, a, b)
    case Going(work, seen) =>
      seen <= AddressPairs(objects) && (forall p :: p in work ==> Comes(objects, a, b, p))
      && exists done :: Progress(objects, a, b, work, seen, done)
  }

  /** Every turn keeps it, whatever the heap. */
  lemma {:induction false} TurnKeeps(objects: seq<Object>, a: Item, b: Item, c: Loop)
    requires Kept(objects, a, b, c)
    ensures Kept(objects, a, b, Turn(objects, c))
  {
    hide Progress, Equal, Same, Alike, Inside, PairParts, AddressPairs, Comes, BothGuarded;
    if c.Going? {
      var done :| Progress(objects, a, b, c.work, c.seen, done);
      if c.work == [] {
        Concludes(objects, a, b, c.seen, done);
      } else {
        var p := c.work[|c.work| - 1];
        var work := c.work[..|c.work| - 1];
        assert c.work == work + [p] && p in c.work;
        if BothGuarded(objects, p.0, p.1) && Remembered(objects, p, c.seen) {
          Repeated(objects, a, b, work, c.seen, done, p);
        } else if !Alike(objects, p.0, p.1) {
          NotEqual(objects, a, b, work, c.seen, done, p);
        } else {
          Expanded(objects, a, b, c, done, p);
        }
      }
    }
  }

  predicate Remembered(objects: seq<Object>, p: (Item, Item), seen: set<(nat, nat)>)
    requires BothGuarded(objects, p.0, p.1)
  {
    (p.0.v.id, p.1.v.id) in seen
  }

  lemma {:induction false} Expanded(objects: seq<Object>, a: Item, b: Item, c: Loop, done: set<(Item, Item)>,
        p: (Item, Item))
    requires Kept(objects, a, b, c) && c.Going? && c.work != [] && p == c.work[|c.work| - 1]
    requires Progress(objects, a, b, c.work, c.seen, done) && Alike(objects, p.0, p.1)
    requires BothGuarded(objects, p.0, p.1) ==> !Remembered(objects, p, c.seen)
    ensures Kept(objects, a, b, Turn(objects, c))
  {
    hide Progress, Equal, Same, Alike, Inside, PairParts, AddressPairs, Comes;
    var work := c.work[..|c.work| - 1];
    assert c.work == work + [p] && p in c.work;
    var next := Turn(objects, c);
    if BothGuarded(objects, p.0, p.1) {
      GuardedGrows(objects, p.0, p.1, c.seen);
    }
    Compared(objects, a, b, work, c.seen, done, p, next.seen);
    forall q | q in next.work
      ensures Comes(objects, a, b, q)
    {
      if q in Inside(objects, p.0, p.1) {
        assert Leads(objects, p, q);
        ComesOn(objects, a, b, p, q);
      } else {
        assert q in work;
      }
    }
  }

  function Start(a: Item, b: Item): Loop {
    Going([(a, b)], {})
  }

  lemma {:induction false} TurnsKeep(objects: seq<Object>, a: Item, b: Item, n: nat)
    ensures Kept(objects, a, b, Turns(objects, n, Start(a, b)))
    decreases n
  {
    hide Kept, Turn;
    if n == 0 {
      StartKept(objects, a, b);
    } else {
      TurnsKeep(objects, a, b, n - 1);
      TurnKeeps(objects, a, b, Turns(objects, n - 1, Start(a, b)));
    }
  }

  lemma {:induction false} StartKept(objects: seq<Object>, a: Item, b: Item)
    ensures Kept(objects, a, b, Start(a, b))
  {
    hide Progress, Comes;
    ProgressStarts(objects, a, b);
    ComesFirst(objects, a, b);
  }

  /** On every heap, lists and cycles included, a verdict is right. */
  lemma {:induction false} VerdictIsRight(objects: seq<Object>, a: Item, b: Item, n: nat)
    requires Turns(objects, n, Start(a, b)).Ended?
    ensures Turns(objects, n, Start(a, b)).verdict <==> Equal(objects, a, b)
  {
    hide Equal, Turns;
    TurnsKeep(objects, a, b, n);
  }

  // ----- when the loop ends -----

  /** Comparisons that go round without one that is remembered. */
  ghost predicate Circle(objects: seq<Object>, r: seq<(Item, Item)>) {
    Route(objects, r) && |r| > 1 && r[0] == r[|r| - 1] && forall i :: 0 <= i < |r| ==>
      !BothGuarded(objects, r[i].0, r[i].1)
  }

  /** The comparison of `a` and `b` comes to no such circle. */
  ghost predicate Grounded(objects: seq<Object>, a: Item, b: Item) {
    forall r :: Circle(objects, r) ==> !Comes(objects, a, b, r[0])
  }

  /** No `n` comparisons in a row from `p` go unremembered. */
  ghost predicate Short(objects: seq<Object>, n: nat, p: (Item, Item))
    decreases n
  {
    BothGuarded(objects, p.0, p.1) || !Alike(objects, p.0, p.1)
    || (n > 0 && forall c :: c in Inside(objects, p.0, p.1) ==> Short(objects, n - 1, c))
  }

  /** A run of unremembered comparisons. */
  ghost predicate Unremembered(objects: seq<Object>, r: seq<(Item, Item)>, n: nat, p: (Item, Item)) {
    Route(objects, r) && |r| == n + 1 && r[0] == p && forall i :: 0 <= i < |r| ==> !BothGuarded(objects, r[i].0, r[i].1)
  }

  lemma {:induction false} LongRoute(objects: seq<Object>, n: nat, p: (Item, Item)) returns (r: seq<(Item, Item)>)
    requires !Short(objects, n, p)
    ensures Unremembered(objects, r, n, p)
    decreases n
  {
    hide Alike, Inside, BothGuarded;
    if n == 0 {
      r := [p];
    } else {
      var c :| c in Inside(objects, p.0, p.1) && !Short(objects, n - 1, c);
      var q := LongRoute(objects, n - 1, c);
      r := [p] + q;
      assert Leads(objects, p, c);
      forall i | 0 <= i < |r|
        ensures !BothGuarded(objects, r[i].0, r[i].1) && (i < |r| - 1 ==> Leads(objects, r[i], r[i + 1]))
      {
        if i > 0 {
          assert r[i] == q[i - 1];
          assert i < |r| - 1 ==> r[i + 1] == q[i - 1 + 1];
        }
      }
    }
  }

  // ----- there are finitely many comparisons -----

  function Slots(o: Object): seq<Value> {
    match o
    case PairObj(car, cdr) => [car, cdr]
    case ListObj(items) => items
    case VectorObj(items) => items
    case _ => []
  }

  ghost function Universe(objects: seq<Object>, a: Item, b: Item): set<Item> {
    {a, b} + (set id, v | 0 <= id < |objects| && v in Slots(objects[id]) :: Val(v))
    + (set id, k | 0 <= id < |objects| && 0 <= k <= |Slots(objects[id])| :: Rest(id, k))
  }

  ghost function Comparisons(objects: seq<Object>, a: Item, b: Item): set<(Item, Item)> {
    set x, y | x in Universe(objects, a, b) && y in Universe(objects, a, b) :: (x, y)
  }

  lemma {:induction false} PartsInside(objects: seq<Object>, a: Item, b: Item, x: Item)
    requires PairParts(objects, x).Some?
    ensures PairParts(objects, x).value.0 in Universe(objects, a, b)
      && PairParts(objects, x).value.1 in Universe(objects, a, b)
  {
    if IsPair(objects, x) {
      var o := objects[x.v.id];
      assert o.car in Slots(o) && o.cdr in Slots(o);
    } else {
      var id := if x.Rest? then x.id else x.v.id;
      var k := if x.Rest? then x.k else 0;
      assert objects[id].items[k] in Slots(objects[id]);
    }
  }

  lemma {:induction false} LeadsInside(objects: seq<Object>, a: Item, b: Item, p: (Item, Item), c: (Item, Item))
    requires Leads(objects, p, c)
    ensures c in Comparisons(objects, a, b)
  {
    hide Universe, PairParts;
    var u, w := PairParts(objects, p.0), PairParts(objects, p.1);
    if u.Some? && w.Some? {
      PartsInside(objects, a, b, p.0);
      PartsInside(objects, a, b, p.1);
    } else {
      VectorInside(objects, a, b, p, c);
    }
  }

  lemma {:induction false} VectorInside(objects: seq<Object>, a: Item, b: Item, p: (Item, Item), c: (Item, Item))
    requires Leads(objects, p, c) && !(PairParts(objects, p.0).Some? && PairParts(objects, p.1).Some?)
    ensures c.0 in Universe(objects, a, b) && c.1 in Universe(objects, a, b)
  {
    var xs, ys := objects[p.0.v.id].items, objects[p.1.v.id].items;
    var i :| 0 <= i < |xs| && Zip(xs, ys)[i] == c;
    assert xs[i] in Slots(objects[p.0.v.id]) && ys[i] in Slots(objects[p.1.v.id]);
  }

  lemma {:induction false} Pigeonhole(r: seq<(Item, Item)>, u: set<(Item, Item)>) returns (i: nat, j: nat)
    requires |r| > |u| && forall k :: 0 <= k < |r| ==> r[k] in u
    ensures i < j < |r| && r[i] == r[j]
    decreases |u|
  {
    var n := |r| - 1;
    if exists k :: 0 <= k < n && r[k] == r[n] {
      i :| 0 <= i < n && r[i] == r[n];
      j := n;
    } else {
      i, j := Pigeonhole(r[..n], u - {r[n]});
    }
  }

  /** Where no circle can be come to, runs of unremembered comparisons are short. */
  lemma {:induction false} GroundedShort(objects: seq<Object>, a: Item, b: Item, p: (Item, Item))
    requires Grounded(objects, a, b) && Comes(objects, a, b, p)
    ensures Short(objects, |Comparisons(objects, a, b)| + 1, p)
  {
    hide Comparisons, Leads, Short, BothGuarded;
    var u := Comparisons(objects, a, b);
    var n := |u| + 1;
    if !Short(objects, n, p) {
      var r := LongRoute(objects, n, p);
      var rest := r[1..];
      forall k | 0 <= k < |rest|
        ensures rest[k] in u
      {
        assert Leads(objects, r[k], r[k + 1]);
        LeadsInside(objects, a, b, r[k], r[k + 1]);
      }
      var i, j := Pigeonhole(rest, u);
      CircleFound(objects, a, b, r, p, i + 1, j + 1);
      assert false;
    }
  }

  lemma {:induction false} CircleFound(objects: seq<Object>, a: Item, b: Item, r: seq<(Item, Item)>, p: (Item, Item),
        i: nat, j: nat)
    requires Comes(objects, a, b, p) && r != [] && Unremembered(objects, r, |r| - 1, p) && i < j < |r| && r[i] == r[j]
    ensures !Grounded(objects, a, b)
  {
    hide Leads, BothGuarded, Comes;
    ComesAlong(objects, a, b, r, i);
    var q := r[i..j + 1];
    forall k | 0 <= k < |q|
      ensures !BothGuarded(objects, q[k].0, q[k].1) && (k < |q| - 1 ==> Leads(objects, q[k], q[k + 1]))
    {
      assert q[k] == r[i + k] && (k < |q| - 1 ==> q[k + 1] == r[i + k + 1]);
    }
    assert Circle(objects, q) && q[0] == r[i];
  }

  lemma {:induction false} ComesAlong(objects: seq<Object>, a: Item, b: Item, r: seq<(Item, Item)>, i: nat)
    requires Route(objects, r) && Comes(objects, a, b, r[0]) && i < |r|
    ensures Comes(objects, a, b, r[i])
    decreases i
  {
    hide Leads, Comes;
    if i > 0 {
      ComesAlong(objects, a, b, r, i - 1);
      assert Leads(objects, r[i - 1], r[i - 1 + 1]);
      ComesOn(objects, a, b, r[i - 1], r[i]);
    }
  }

  // ----- how many turns a comparison takes until the next one is remembered -----

  function Cost(objects: seq<Object>, n: nat, p: (Item, Item)): (k: nat)
    ensures k > 0
    decreases n, 0
  {
    if n == 0 || BothGuarded(objects, p.0, p.1) || !Alike(objects, p.0, p.1) then 1
    else 1 + CostOf(objects, n - 1, Inside(objects, p.0, p.1))
  }

  function CostOf(objects: seq<Object>, n: nat, work: seq<(Item, Item)>): nat
    decreases n, |work| + 1
  {
    if work == [] then 0 else CostOf(objects, n, work[..|work| - 1]) + Cost(objects, n, work[|work| - 1])
  }

  lemma {:induction false} CostConcat(objects: seq<Object>, n: nat, p: seq<(Item, Item)>, q: seq<(Item, Item)>)
    ensures CostOf(objects, n, p + q) == CostOf(objects, n, p) + CostOf(objects, n, q)
    decreases |q|
  {
    hide Cost;
    if q == [] {
      assert p + q == p;
    } else {
      assert (p + q)[..|p + q| - 1] == p + q[..|q| - 1];
      CostConcat(objects, n, p, q[..|q| - 1]);
    }
  }

  lemma {:induction false} CostSettled(objects: seq<Object>, n: nat, p: (Item, Item))
    requires Short(objects, n, p)
    ensures Cost(objects, n + 1, p) == Cost(objects, n, p)
    decreases n, 0
  {
    hide Alike, Inside, BothGuarded;
    if !BothGuarded(objects, p.0, p.1) && Alike(objects, p.0, p.1) {
      CostsSettled(objects, n - 1, Inside(objects, p.0, p.1));
    }
  }

  lemma {:induction false} CostsSettled(objects: seq<Object>, n: nat, work: seq<(Item, Item)>)
    requires forall p :: p in work ==> Short(objects, n, p)
    ensures CostOf(objects, n + 1, work) == CostOf(objects, n, work)
    decreases n, |work| + 1
  {
    hide Short, Cost;
    if work != [] {
      CostsSettled(objects, n, work[..|work| - 1]);
      CostSettled(objects, n, work[|work| - 1]);
    }
  }

  ghost function Bound(objects: seq<Object>, a: Item, b: Item): nat {
    |Comparisons(objects, a, b)| + 2
  }

  /** Each turn remembers a new comparison or leaves less to do. */
  lemma {:induction false} TurnAdvances(objects: seq<Object>, a: Item, b: Item, c: Loop)
    requires Kept(objects, a, b, c) && Grounded(objects, a, b) && c.Going? && c.work != []
    ensures var next := Turn(objects, c);
      next.Ended? || AddressPairs(objects) - next.seen < AddressPairs(objects) - c.seen
      || (next.seen == c.seen
          && CostOf(objects, Bound(objects, a, b), next.work) < CostOf(objects, Bound(objects, a, b), c.work))
  {
    hide Progress, Equal, Alike, Inside, PairParts, AddressPairs, Comes, Grounded, Short, Comparisons;
    var n := |Comparisons(objects, a, b)| + 1;
    var p := c.work[|c.work| - 1];
    var work := c.work[..|c.work| - 1];
    assert p in c.work;
    if BothGuarded(objects, p.0, p.1) {
      if !Remembered(objects, p, c.seen) {
        GuardedGrows(objects, p.0, p.1, c.seen);
      }
    } else if Alike(objects, p.0, p.1) {
      var inner := Inside(objects, p.0, p.1);
      forall q | q in inner
        ensures Short(objects, n, q)
      {
        assert Leads(objects, p, q);
        ComesOn(objects, a, b, p, q);
        GroundedShort(objects, a, b, q);
      }
      CostsSettled(objects, n, inner);
      CostConcat(objects, n + 1, work, inner);
    }
  }

  /** The loop ends. */
  lemma {:induction false} Ends(objects: seq<Object>, a: Item, b: Item, c: Loop) returns (n: nat)
    requires Kept(objects, a, b, c) && Grounded(objects, a, b)
    ensures Turned(objects, n, c).Ended?
    decreases c.Going?, if c.Going? then AddressPairs(objects) - c.seen else {},
              if c.Going? then CostOf(objects, Bound(objects, a, b), c.work) else 0
  {
    hide Kept, Grounded, AddressPairs, CostOf, Comparisons;
    n := 0;
    if c.Going? {
      if c.work != [] {
        TurnAdvances(objects, a, b, c);
        TurnKeeps(objects, a, b, c);
        n := Ends(objects, a, b, Turn(objects, c));
      }
      n := n + 1;
    }
  }

  /** The same turns, counted from the front. */
  function Turned(objects: seq<Object>, n: nat, c: Loop): Loop {
    if n == 0 then c else Turned(objects, n - 1, Turn(objects, c))
  }

  lemma {:induction false} TurnedIsTurns(objects: seq<Object>, n: nat, c: Loop)
    ensures Turned(objects, n, c) == Turns(objects, n, c)
    decreases n
  {
    hide Turn;
    if n > 0 {
      TurnedIsTurns(objects, n - 1, Turn(objects, c));
      TurnsShift(objects, n - 1, c);
    }
  }

  lemma {:induction false} TurnsShift(objects: seq<Object>, n: nat, c: Loop)
    ensures Turns(objects, n, Turn(objects, c)) == Turns(objects, n + 1, c)
    decreases n
  {
    hide Turn;
    if n > 0 {
      TurnsShift(objects, n - 1, c);
    }
  }

  /** A member of the circle is among what has to be done, or none has been met. */
  ghost predicate Caught(r: seq<(Item, Item)>, work: seq<(Item, Item)>) {
    exists p :: p in r && p in work
  }

  lemma {:induction false} NextOnCircle(objects: seq<Object>, r: seq<(Item, Item)>, p: (Item, Item))
        returns (c: (Item, Item))
    requires Circle(objects, r) && p in r
    ensures c in r && Leads(objects, p, c) && !BothGuarded(objects, p.0, p.1)
  {
    hide Leads, BothGuarded;
    var i :| 0 <= i < |r| && r[i] == p;
    var j := if i < |r| - 1 then i else 0;
    assert Leads(objects, r[j], r[j + 1]);
    c := r[j + 1];
  }

  /** Once a circle is met, the loop can only end by finding a difference. */
  lemma {:induction false} CaughtTurns(objects: seq<Object>, r: seq<(Item, Item)>, c: Loop)
    requires Circle(objects, r) && c.Going? && Caught(r, c.work)
    ensures var next := Turn(objects, c); next == Ended(false) || (next.Going? && Caught(r, next.work))
  {
    hide Circle, Alike, Inside, BothGuarded, Leads;
    var p :| p in r && p in c.work;
    var top := c.work[|c.work| - 1];
    var next := Turn(objects, c);
    if p == top {
      var q := NextOnCircle(objects, r, p);
      LeadsIs(objects, p, q);
      assert next.Going? ==> q in r && q in next.work;
    } else {
      assert p in c.work[..|c.work| - 1];
      assert next.Going? ==> p in r && p in next.work;
    }
  }

  lemma {:induction false} LeadsIs(objects: seq<Object>, p: (Item, Item), q: (Item, Item))
    ensures Leads(objects, p, q) <==> Alike(objects, p.0, p.1) && q in Inside(objects, p.0, p.1)
  {
  }

  ghost predicate Apart(done: set<(Item, Item)>, r: seq<(Item, Item)>) {
    forall p :: p in done ==> p !in r
  }

  /** What the loop has done, seen from a circle: it has compared none of its members, or one is still to be done. */
  ghost predicate Unmet(objects: seq<Object>, a: Item, b: Item, r: seq<(Item, Item)>, c: Loop)
    requires r != []
  {
    match c
    case Ended(verdict) => verdict ==> !Comes(objects, a, b, r[0])
    case Going(work, seen) =>
      Caught(r, work)
      || exists done :: Progress(objects, a, b, work, seen, done) && Apart(done, r)
  }

  lemma {:induction false} UnmetTurn(objects: seq<Object>, a: Item, b: Item, r: seq<(Item, Item)>, c: Loop)
    requires Circle(objects, r) && Unmet(objects, a, b, r, c)
    ensures Unmet(objects, a, b, r, Turn(objects, c))
  {
    hide Route, Progress, Equal, Alike, Inside, PairParts, AddressPairs, Comes, BothGuarded, Caught;
    if c.Going? {
      if Caught(r, c.work) {
        CaughtTurns(objects, r, c);
      } else {
        var done :| Progress(objects, a, b, c.work, c.seen, done) && Apart(done, r);
        if c.work == [] {
          NeverCame(objects, a, b, r, c.seen, done);
        } else {
          UncaughtTurn(objects, a, b, r, c, done);
        }
      }
    }
  }

  lemma {:induction false} UncaughtTurn(objects: seq<Object>, a: Item, b: Item, r: seq<(Item, Item)>, c: Loop,
        done: set<(Item, Item)>)
    requires c.Going? && c.work != [] && !Caught(r, c.work) && r != []
    requires Progress(objects, a, b, c.work, c.seen, done) && Apart(done, r)
    ensures Unmet(objects, a, b, r, Turn(objects, c))
  {
    hide Progress, Equal, Alike, Inside, PairParts, AddressPairs, Comes;
    var p := c.work[|c.work| - 1];
    var work := c.work[..|c.work| - 1];
    assert c.work == work + [p] && p in c.work && p !in r;
    if BothGuarded(objects, p.0, p.1) && Remembered(objects, p, c.seen) {
      Repeated(objects, a, b, work, c.seen, done, p);
    } else if Alike(objects, p.0, p.1) {
      var next := Turn(objects, c);
      Compared(objects, a, b, work, c.seen, done, p, next.seen);
      assert Apart(done + {p}, r);
    }
  }

  /** What has been compared is closed, so nothing outside it can be come to. */
  lemma {:induction false} NeverCame(objects: seq<Object>, a: Item, b: Item, r: seq<(Item, Item)>,
        seen: set<(nat, nat)>,
                                     done: set<(Item, Item)>)
    requires Progress(objects, a, b, [], seen, done) && r != [] && Apart(done, r)
    ensures !Comes(objects, a, b, r[0])
  {
    hide Alike, Inside;
    if Comes(objects, a, b, r[0]) {
      var q :| Route(objects, q) && q[0] == (a, b) && q[|q| - 1] == r[0];
      AllDone(objects, q, done, |q| - 1);
    }
  }

  lemma {:induction false} AllDone(objects: seq<Object>, q: seq<(Item, Item)>, done: set<(Item, Item)>, i: nat)
    requires Route(objects, q) && q[0] in done && i < |q|
    requires forall p :: p in done ==> Checked(objects, p, done + Pending([]))
    ensures q[i] in done
    decreases i
  {
    hide Alike, Inside;
    if i > 0 {
      AllDone(objects, q, done, i - 1);
      assert Leads(objects, q[i - 1], q[i - 1 + 1]);
      assert Checked(objects, q[i - 1], done + Pending([]));
    }
  }

  /** A positive verdict means that no circle could be come to. */
  lemma {:induction false} EndedGrounded(objects: seq<Object>, a: Item, b: Item, n: nat)
    requires Turns(objects, n, Start(a, b)) == Ended(true)
    ensures Grounded(objects, a, b)
  {
    hide Route, Comes, Turns;
    forall r | Circle(objects, r)
      ensures !Comes(objects, a, b, r[0])
    {
      UnmetTurns(objects, a, b, r, n);
    }
  }

  lemma {:induction false} UnmetTurns(objects: seq<Object>, a: Item, b: Item, r: seq<(Item, Item)>, n: nat)
    requires Circle(objects, r)
    ensures Unmet(objects, a, b, r, Turns(objects, n, Start(a, b)))
    decreases n
  {
    hide Route, Turn, Unmet;
    if n == 0 {
      UnmetStart(objects, a, b, r);
    } else {
      UnmetTurns(objects, a, b, r, n - 1);
      UnmetTurn(objects, a, b, r, Turns(objects, n - 1, Start(a, b)));
    }
  }

  lemma {:induction false} NothingMet(objects: seq<Object>, a: Item, b: Item, r: seq<(Item, Item)>,
        done: set<(Item, Item)>)
    requires |done| == 0 && r != [] && Progress(objects, a, b, [(a, b)], {}, done)
    ensures Unmet(objects, a, b, r, Start(a, b))
  {
  }

  lemma {:induction false} UnmetStart(objects: seq<Object>, a: Item, b: Item, r: seq<(Item, Item)>)
    requires r != []
    ensures Unmet(objects, a, b, r, Start(a, b))
  {
    hide Progress, Comes;
    ProgressStarts(objects, a, b);
    NothingMet(objects, a, b, r, {});
  }

  /**
   Termination, exactly: the comparison of equal values ends if and only if it comes to
   no circle of comparisons that are not remembered.
   */
  lemma {:induction false} EndsWhenGrounded(objects: seq<Object>, a: Item, b: Item)
    requires Equal(objects, a, b)
    ensures (exists n: nat :: Turns(objects, n, Start(a, b)).Ended?) <==> Grounded(objects, a, b)
  {
    hide Equal, Turns, Grounded, Turned;
    if Grounded(objects, a, b) {
      StartKept(objects, a, b);
      var n := Ends(objects, a, b, Start(a, b));
      TurnedIsTurns(objects, n, Start(a, b));
    }
    if exists n: nat :: Turns(objects, n, Start(a, b)).Ended? {
      var n: nat :| Turns(objects, n, Start(a, b)).Ended?;
      VerdictIsRight(objects, a, b, n);
      EndedGrounded(objects, a, b, n);
    }
  }

  /** `value_equal`: it ends where no circle of unremembered comparisons can be come to, and its verdict is right. */
  method ValueEqual(objects: seq<Object>, a: Value, b: Value) returns (r: bool, ghost turns: nat)
    requires Grounded(objects, Val(a), Val(b))
    ensures r <==> Equal(objects, Val(a), Val(b))
    ensures Turns(objects, turns, Start(Val(a), Val(b))) == Ended(r)
  {
    hide Kept, Equal, Alike, Inside, PairParts, AddressPairs, Grounded, CostOf, Turns;
    turns := 0;
    var seen: set<(nat, nat)> := {};
    var work := [(Val(a), Val(b))];
    ghost var c := Going(work, seen);
    StartKept(objects, Val(a), Val(b));
    TurnsNone(objects, c);
    while work != []
      invariant c == Going(work, seen) && Kept(objects, Val(a), Val(b), c)
      invariant Turns(objects, turns, Start(Val(a), Val(b))) == c
      decreases AddressPairs(objects) - seen, CostOf(objects, Bound(objects, Val(a), Val(b)), work)
    {
      TurnAdvances(objects, Val(a), Val(b), c);
      TurnKeeps(objects, Val(a), Val(b), c);
      TurnsNext(objects, turns, Start(Val(a), Val(b)));
      turns := turns + 1;
      c := Turn(objects, c);
      var (x, y) := work[|work| - 1];
      work := work[..|work| - 1];
      if BothGuarded(objects, x, y) && (x.v.id, y.v.id) in seen {
        continue;
      }
      if !Alike(objects, x, y) {
        VerdictIsRight(objects, Val(a), Val(b), turns);
        return false, turns;
      }
      if BothGuarded(objects, x, y) {
        seen := seen + {(x.v.id, y.v.id)};
      }
      work := work + Inside(objects, x, y);
    }
    TurnsNext(objects, turns, Start(Val(a), Val(b)));
    turns := turns + 1;
    VerdictIsRight(objects, Val(a), Val(b), turns);
    r := true;
  }

  lemma {:induction false} TurnsNone(objects: seq<Object>, c: Loop)
    ensures Turns(objects, 0, c) == c
  {
  }

  lemma {:induction false} TurnsNext(objects: seq<Object>, n: nat, c: Loop)
    ensures Turns(objects, n + 1, c) == Turn(objects, Turns(objects, n, c))
  {
  }

  // ----- heaps on which the loop always ends -----

  /** One object holds a reference to another. */
  predicate Refers(objects: seq<Object>, i: nat, j: nat) {
    i < |objects| && Ref(j) in Slots(objects[i])
  }

  /** The object can be reached from itself. */
  ghost predicate OnCycle(objects: seq<Object>, l: nat) {
    exists q: seq<nat> :: |q| > 1 && q[0] == l && q[|q| - 1] == l && forall i :: 0 <= i < |q| - 1 ==>
      Refers(objects, q[i], q[i + 1])
  }

  /** The object a side of a comparison looks at. */
  function At(x: Item): Option<nat> {
    if x.Rest? then Some(x.id) else if x.v.Ref? then Some(x.v.id) else None
  }

  function Position(x: Item): nat {
    if x.Rest? then x.k else 0
  }

  ghost predicate Steps(objects: seq<Object>, x: Item, y: Item) {
    PairParts(objects, x).Some? && (y == PairParts(objects, x).value.0 || y == PairParts(objects, x).value.1)
  }

  /** A step goes on in the same list, or along a reference, or nowhere. */
  lemma {:induction false} StepRefers(objects: seq<Object>, x: Item, y: Item)
    requires Steps(objects, x, y) && At(y).Some?
    ensures At(x).Some?
    ensures Refers(objects, At(x).value, At(y).value) || (At(x) == At(y) && Position(y) > Position(x))
  {
    if IsPair(objects, x) {
      var o := objects[x.v.id];
      assert o.car in Slots(o) && o.cdr in Slots(o);
    } else {
      var id, k := At(x).value, Position(x);
      assert objects[id].items[k] in Slots(objects[id]);
    }
  }

  /** One side of a circle, followed through the heap. */
  lemma {:induction false} FollowsReferences(objects: seq<Object>, xs: seq<Item>) returns (q: seq<nat>)
    requires xs != [] && At(xs[|xs| - 1]).Some?
    requires forall i :: 0 <= i < |xs| - 1 ==> Steps(objects, xs[i], xs[i + 1])
    ensures At(xs[0]).Some? && q != [] && q[0] == At(xs[0]).value && q[|q| - 1] == At(xs[|xs| - 1]).value
    ensures forall i :: 0 <= i < |q| - 1 ==> Refers(objects, q[i], q[i + 1])
    ensures |q| == 1 ==> Position(xs[|xs| - 1]) >= Position(xs[0]) + |xs| - 1
    decreases |xs|
  {
    hide Steps, Refers;
    if |xs| == 1 {
      q := [At(xs[0]).value];
    } else {
      var rest := xs[1..];
      forall i | 0 <= i < |rest| - 1
        ensures Steps(objects, rest[i], rest[i + 1])
      {
        assert rest[i] == xs[i + 1] && rest[i + 1] == xs[i + 1 + 1];
      }
      q := FollowsReferences(objects, rest);
      assert Steps(objects, xs[0], xs[0 + 1]);
      StepRefers(objects, xs[0], xs[1]);
      if Refers(objects, At(xs[0]).value, q[0]) {
        q := [At(xs[0]).value] + q;
      }
    }
  }

  lemma {:induction false} SidesStep(objects: seq<Object>, p: (Item, Item), c: (Item, Item))
    requires Leads(objects, p, c) && !BothGuarded(objects, p.0, p.1)
    ensures Steps(objects, p.0, c.0) && Steps(objects, p.1, c.1)
    ensures !IsPair(objects, p.0) || !IsPair(objects, p.1)
  {
  }

  /** A circle needs a list on a cycle of the heap: one side of each of its comparisons is in a list. */
  lemma {:induction false} CircleHasList(objects: seq<Object>, r: seq<(Item, Item)>) returns (l: nat)
    requires Circle(objects, r)
    ensures IsList(objects, l) && OnCycle(objects, l)
  {
    hide Leads, BothGuarded, Steps, Refers, PairParts, IsPair;
    forall i | 0 <= i < |r| - 1
      ensures Steps(objects, r[i].0, r[i + 1].0) && Steps(objects, r[i].1, r[i + 1].1)
    {
      assert Leads(objects, r[i], r[i + 1]);
      SidesStep(objects, r[i], r[i + 1]);
    }
    assert Leads(objects, r[0], r[0 + 1]);
    SidesStep(objects, r[0], r[1]);
    var left := seq(|r|, i requires 0 <= i < |r| => r[i].0);
    var right := seq(|r|, i requires 0 <= i < |r| => r[i].1);
    var xs := if !IsPair(objects, r[0].0) then left else right;
    assert forall i :: 0 <= i < |xs| - 1 ==> Steps(objects, xs[i], xs[i + 1]);
    ListSide(objects, xs[0], xs[1]);
    var q := FollowsReferences(objects, xs);
    l := At(xs[0]).value;
    assert |q| > 1;
  }

  lemma {:induction false} ListSide(objects: seq<Object>, x: Item, y: Item)
    requires Steps(objects, x, y) && !IsPair(objects, x)
    ensures At(x).Some? && IsList(objects, At(x).value)
  {
  }

  /** Where no list lies on a cycle, every comparison ends. */
  lemma {:induction false} AcyclicListsGrounded(objects: seq<Object>, a: Item, b: Item)
    requires forall l :: IsList(objects, l) ==> !OnCycle(objects, l)
    ensures Grounded(objects, a, b)
  {
    hide Route, Comes, OnCycle, IsList;
    forall r | Circle(objects, r)
      ensures !Comes(objects, a, b, r[0])
    {
      if Comes(objects, a, b, r[0]) {
        var l := CircleHasList(objects, r);
        assert false;
      }
    }
  }

  // ----- lists escape the guard -----

  /** A pair whose car is a list whose only element is that pair. */
  const KNOT: seq<Object> := [PairObj(Ref(1), Nil), ListObj([Ref(0)])]

  lemma {:induction false} KnotTurn(work: seq<(Item, Item)>, flip: bool)
    ensures var (p, l) := (Val(Ref(0)), Val(Ref(1)));
      Turn(KNOT, Going(work + [if flip then (l, p) else (p, l)], {}))
      == Going(work + [if flip then (Rest(1, 1), Val(Nil)) else (Val(Nil), Rest(1, 1)),
        if flip then (p, l) else (l, p)], {})
  {
    var (p, l) := (Val(Ref(0)), Val(Ref(1)));
    assert PairParts(KNOT, p) == Some((l, Val(Nil))) && PairParts(KNOT, l) == Some((p, Rest(1, 1)));
    var top := if flip then (l, p) else (p, l);
    var c := work + [top];
    assert c[|c| - 1] == top && c[..|c| - 1] == work;
    assert !BothGuarded(KNOT, top.0, top.1) && Alike(KNOT, top.0, top.1);
  }

  /** Comparing the pair with the list never ends: no comparison of a pair with a list is remembered. */
  lemma {:induction false} ListsEscape(n: nat)
    ensures var c := Turns(KNOT, 2 * n, Start(Val(Ref(0)), Val(Ref(1))));
      c.Going? && c.seen == {} && c.work != [] && c.work[|c.work| - 1] == (Val(Ref(0)), Val(Ref(1)))
  {
    hide Turn;
    if n > 0 {
      ListsEscape(n - 1);
      var start := Start(Val(Ref(0)), Val(Ref(1)));
      var work := Turns(KNOT, 2 * (n - 1), start).work;
      var rest := work[..|work| - 1];
      assert work == rest + [(Val(Ref(0)), Val(Ref(1)))];
      KnotTurn(rest, false);
      var rest' := rest + [(Val(Nil), Rest(1, 1))];
      assert rest + [(Val(Nil), Rest(1, 1)), (Val(Ref(1)), Val(Ref(0)))] == rest' + [(Val(Ref(1)), Val(Ref(0)))];
      KnotTurn(rest', true);
      assert Turns(KNOT, 2 * n - 1, start) == Turn(KNOT, Turns(KNOT, 2 * (n - 1), start));
      assert Turns(KNOT, 2 * n, start) == Turn(KNOT, Turns(KNOT, 2 * n - 1, start));
    }
  }
}
