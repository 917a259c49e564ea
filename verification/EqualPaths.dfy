/**
 What `equal?` means in terms of the heap alone: car, cdr and index steps follow pairs,
 lists and vectors, and two values are equal when no path tells them apart.
 */
module EqualPaths {
  import opened Prelude
  import opened Data
  import E = Equality

  datatype Step = Car | Cdr | Index(i: nat)

  /** One step from a value, or from what is left of a list after its first `k` elements. */
  function Go(objects: seq<Object>, x: E.Item, s: Step): Option<E.Item> {
    match x
    case Val(Ref(id)) =>
      if id >= |objects| then None
      else
        (match (objects[id], s)
         case (PairObj(car, _), Car) => Some(E.Val(car))
         case (PairObj(_, cdr), Cdr) => Some(E.Val(cdr))
         case (ListObj(items), Car) => if items == [] then None else Some(E.Val(items[0]))
         case (ListObj(items), Cdr) => if items == [] then None else Some(E.Rest(id, 1))
         case (VectorObj(items), Index(i)) => if i < |items| then Some(E.Val(items[i])) else None
         case _ => None)
    case Val(_) => None
    case Rest(id, k) =>
      if id < |objects| && objects[id].ListObj? && k < |objects[id].items| then
        match s
        case Car => Some(E.Val(objects[id].items[k]))
        case Cdr => Some(E.Rest(id, k + 1))
        case Index(_) => None
      else None
  }

  function Follow(objects: seq<Object>, x: E.Item, path: seq<Step>): Option<E.Item>
    decreases |path|
  {
    if path == [] then Some(x)
    else
      var next := Go(objects, x, path[0]);
      if next.Some? then Follow(objects, next.value, path[1..]) else None
  }

  /** What can be told of a place without a step: a pair or list with elements is any of these. */
  datatype Look = Inner | Empty | Text(s: string) | Vector(n: nat) | NotANumber | Atom(v: Value)

  function LookAt(objects: seq<Object>, x: E.Item): Look {
    if Go(objects, x, Car).Some? then Inner
    else
      match x
      case Rest(_, _) => Empty
      case Val(Nil) => Empty
      case Val(Float(bits)) => if IsNan(bits) then NotANumber else Atom(x.v)
      case Val(Ref(id)) =>
        if id >= |objects| then Atom(x.v)
        else
          (match objects[id]
           case StrObj(s) => Text(s)
           case VectorObj(items) => Vector(|items|)
           case _ => Atom(x.v))
      case Val(v) => Atom(v)
  }

  /** Both sides can follow the path and see the same, or neither can. */
  ghost predicate Agree(objects: seq<Object>, x: E.Item, y: E.Item, path: seq<Step>) {
    var a, b := Follow(objects, x, path), Follow(objects, y, path);
    (a.Some? <==> b.Some?) && (a.Some? ==> LookAt(objects, a.value) == LookAt(objects, b.value))
  }

  /** What the comparison checks first is what can be seen. */
  lemma {:induction false} AlikeLooks(objects: seq<Object>, x: E.Item, y: E.Item)
    ensures E.Alike(objects, x, y) <==> LookAt(objects, x) == LookAt(objects, y)
  {
  }

  lemma {:induction false} StepOf(objects: seq<Object>, x: E.Item, y: E.Item, c: (E.Item, E.Item)) returns (s: Step)
    requires E.Alike(objects, x, y) && c in E.Inside(objects, x, y)
    ensures Go(objects, x, s) == Some(c.0) && Go(objects, y, s) == Some(c.1)
  {
    if E.PairParts(objects, x).Some? && E.PairParts(objects, y).Some? {
      s := if Go(objects, x, Car) == Some(c.0) && Go(objects, y, Car) == Some(c.1) then Car else Cdr;
    } else {
      var i :| 0 <= i < |E.Inside(objects, x, y)| && E.Inside(objects, x, y)[i] == c;
      s := Index(i);
    }
  }

  /** The parts it compares next are those one step away. */
  lemma {:induction false} InsideStep(objects: seq<Object>, x: E.Item, y: E.Item, s: Step)
    requires E.Alike(objects, x, y)
    ensures Go(objects, x, s).Some? <==> Go(objects, y, s).Some?
    ensures Go(objects, x, s).Some? ==>
      (Go(objects, x, s).value, Go(objects, y, s).value) in E.Inside(objects, x, y)
  {
  }

  lemma {:induction false} FirstStep(objects: seq<Object>, x: E.Item, s: Step, rest: seq<Step>)
    ensures Follow(objects, x, [s] + rest)
      == if Go(objects, x, s).Some? then Follow(objects, Go(objects, x, s).value, rest) else None
  {
    hide Go;
    assert ([s] + rest)[1..] == rest;
  }

  /** No path of fewer than `n` steps tells the values apart. */
  ghost predicate AgreeUpTo(objects: seq<Object>, n: nat, x: E.Item, y: E.Item) {
    forall path: seq<Step> :: |path| < n ==> Agree(objects, x, y, path)
  }

  lemma {:induction false} SameAgrees(objects: seq<Object>, n: nat, x: E.Item, y: E.Item)
    requires E.Same(objects, n, x, y)
    ensures AgreeUpTo(objects, n, x, y)
    decreases n
  {
    hide Go, LookAt, E.Alike, E.Inside;
    forall path: seq<Step> | |path| < n
      ensures Agree(objects, x, y, path)
    {
      AlikeLooks(objects, x, y);
      if path != [] {
        var s := path[0];
        InsideStep(objects, x, y, s);
        if Go(objects, x, s).Some? {
          var a, b := Go(objects, x, s).value, Go(objects, y, s).value;
          SameAgrees(objects, n - 1, a, b);
          assert Agree(objects, a, b, path[1..]);
        }
      }
    }
  }

  lemma {:induction false} AgreeIsSame(objects: seq<Object>, n: nat, x: E.Item, y: E.Item)
    requires AgreeUpTo(objects, n, x, y)
    ensures E.Same(objects, n, x, y)
    decreases n
  {
    hide Go, LookAt, E.Alike, E.Inside, Follow;
    if n > 0 {
      AtFirst(objects, x, y);
      AlikeLooks(objects, x, y);
      forall c | c in E.Inside(objects, x, y)
        ensures E.Same(objects, n - 1, c.0, c.1)
      {
        var s := StepOf(objects, x, y, c);
        forall path: seq<Step> | |path| < n - 1
          ensures Agree(objects, c.0, c.1, path)
        {
          assert Agree(objects, x, y, [s] + path);
          FirstStep(objects, x, s, path);
          FirstStep(objects, y, s, path);
        }
        AgreeIsSame(objects, n - 1, c.0, c.1);
      }
    }
  }

  lemma {:induction false} AtFirst(objects: seq<Object>, x: E.Item, y: E.Item)
    ensures Agree(objects, x, y, []) <==> LookAt(objects, x) == LookAt(objects, y)
  {
    hide LookAt;
  }

  /**
   Two values are equal, in the sense in which the loop's verdict is right, if and only if
   every path that one side can follow the other can follow too, to places that look the same.
   */
  lemma {:induction false} EqualWhenPathsAgree(objects: seq<Object>, x: E.Item, y: E.Item)
    ensures E.Equal(objects, x, y) <==> forall path: seq<Step> :: Agree(objects, x, y, path)
  {
    hide Agree, E.Same;
    if E.Equal(objects, x, y) {
      forall path: seq<Step>
        ensures Agree(objects, x, y, path)
      {
        SameAgrees(objects, |path| + 1, x, y);
      }
    }
    if forall path: seq<Step> :: Agree(objects, x, y, path) {
      forall n: nat
        ensures E.Same(objects, n, x, y)
      {
        AgreeIsSame(objects, n, x, y);
      }
    }
  }

  /** The verdict of the loop, on any heap on which it comes to one. */
  lemma {:induction false} VerdictByPaths(objects: seq<Object>, a: Value, b: Value, n: nat)
    requires E.Turns(objects, n, E.Start(E.Val(a), E.Val(b))).Ended?
    ensures E.Turns(objects, n, E.Start(E.Val(a), E.Val(b))).verdict
       <==> forall path: seq<Step> :: Agree(objects, E.Val(a), E.Val(b), path)
  {
    hide Agree, E.Turns, E.Equal;
    E.VerdictIsRight(objects, E.Val(a), E.Val(b), n);
    EqualWhenPathsAgree(objects, E.Val(a), E.Val(b));
  }
}
