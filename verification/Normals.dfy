/** What the normal forms of `MacroData` are: one for each datum that source forms can denote. */
module Normals {
  import opened Reader
  import opened MacroData

  /** The datum a source form denotes: lists and dotted lists are both chains of pairs. */
  datatype Tree = Leaf(x: Sexpr) | Empty | Pair(car: Tree, cdr: Tree) | Tuple(items: seq<Tree>)

  function TreeOf(x: Sexpr): Tree
    decreases x, 0
  {
    match x
    case SList(items) => Chain(items, Empty)
    case SDotted(items, tail) => Chain(items, TreeOf(tail))
    case SVector(items) => Tuple(TreesOf(items))
    case _ => Leaf(x)
  }

  function Chain(xs: seq<Sexpr>, end: Tree): Tree
    decreases xs, 0
  {
    if xs == [] then end else Pair(TreeOf(xs[0]), Chain(xs[1..], end))
  }

  function TreesOf(xs: seq<Sexpr>): seq<Tree>
    decreases xs, 0
  {
    if xs == [] then [] else [TreeOf(xs[0])] + TreesOf(xs[1..])
  }

  /** No dotted list without elements, and none with a list or a dotted list as its tail. */
  predicate Flat(x: Sexpr)
    decreases x, 0
  {
    match x
    case SList(items) => FlatAll(items)
    case SVector(items) => FlatAll(items)
    case SDotted(items, tail) => items != [] && !tail.SList? && !tail.SDotted? && FlatAll(items) && Flat(tail)
    case _ => true
  }

  predicate FlatAll(xs: seq<Sexpr>)
    decreases xs, 0
  {
    xs == [] || (Flat(xs[0]) && FlatAll(xs[1..]))
  }

  lemma {:induction false} FlatBoth(xs: seq<Sexpr>, ys: seq<Sexpr>)
    requires FlatAll(xs) && FlatAll(ys)
    ensures FlatAll(xs + ys)
    decreases |xs|
  {
    hide Flat;
    if xs == [] {
      assert xs + ys == ys;
    } else {
      assert (xs + ys)[1..] == xs[1..] + ys;
      FlatBoth(xs[1..], ys);
    }
  }

  lemma {:induction false} ChainBoth(xs: seq<Sexpr>, ys: seq<Sexpr>, end: Tree)
    ensures Chain(xs + ys, end) == Chain(xs, Chain(ys, end))
    decreases |xs|
  {
    hide TreeOf;
    if xs == [] {
      assert xs + ys == ys;
    } else {
      assert (xs + ys)[1..] == xs[1..] + ys;
      ChainBoth(xs[1..], ys, end);
    }
  }

  lemma {:induction false} Joined(xs: seq<Sexpr>, t: Sexpr)
    requires FlatAll(xs) && Flat(t)
    ensures Flat(Join(xs, t)) && TreeOf(Join(xs, t)) == Chain(xs, TreeOf(t))
  {
    if xs != [] {
      match t
      case SList(ys) =>
        FlatBoth(xs, ys);
        ChainBoth(xs, ys, Empty);
      case SDotted(ys, z) =>
        FlatBoth(xs, ys);
        ChainBoth(xs, ys, TreeOf(z));
      case _ =>
    }
  }

  lemma {:induction false} NormalDenotes(x: Sexpr)
    ensures Flat(Normal(x)) && TreeOf(Normal(x)) == TreeOf(x)
    decreases x, 0
  {
    hide Join, Chain, TreesOf, FlatAll;
    match x
    case SList(items) => NormalsDenote(items, Empty);
    case SVector(items) => NormalsDenote(items, Empty);
    case SDotted(items, tail) =>
      NormalsDenote(items, TreeOf(tail));
      NormalDenotes(tail);
      Joined(NormalAll(items), Normal(tail));
    case _ =>
  }

  lemma {:induction false} NormalsDenote(xs: seq<Sexpr>, end: Tree)
    ensures FlatAll(NormalAll(xs)) && Chain(NormalAll(xs), end) == Chain(xs, end)
    ensures TreesOf(NormalAll(xs)) == TreesOf(xs)
    decreases xs, 0
  {
    hide Normal, TreeOf, Flat;
    if xs != [] {
      NormalDenotes(xs[0]);
      NormalsDenote(xs[1..], end);
      var n := NormalAll(xs);
      assert n[0] == Normal(xs[0]) && n[1..] == NormalAll(xs[1..]);
    }
  }

  lemma {:induction false} FlatUnique(x: Sexpr, y: Sexpr)
    requires Flat(x) && Flat(y) && TreeOf(x) == TreeOf(y)
    ensures x == y
    decreases x, 0
  {
    hide FlatAll, TreesOf;
    var xs, ys := Elements(x), Elements(y);
    if x.SVector? && y.SVector? {
      BlocksUnique(xs, ys);
    } else if x.SList? || x.SDotted? {
      EndsDiffer(x);
      EndsDiffer(y);
      ChainsUnique(xs, EndOf(x), ys, EndOf(y));
      if x.SDotted? && y.SDotted? {
        FlatUnique(x.tail, y.tail);
      }
    }
  }

  function Elements(x: Sexpr): seq<Sexpr> {
    match x
    case SList(items) => items
    case SDotted(items, _) => items
    case SVector(items) => items
    case _ => []
  }

  function EndOf(x: Sexpr): Tree {
    match x
    case SList(_) => Empty
    case SDotted(_, tail) => TreeOf(tail)
    case _ => TreeOf(x)
  }

  lemma {:induction false} EndsDiffer(x: Sexpr)
    requires Flat(x)
    ensures !EndOf(x).Pair?
    ensures !x.SVector? ==> TreeOf(x) == Chain(Elements(x), EndOf(x)) && FlatAll(Elements(x))
  {
  }

  lemma {:induction false} ChainsUnique(xs: seq<Sexpr>, a: Tree, ys: seq<Sexpr>, b: Tree)
    requires FlatAll(xs) && FlatAll(ys) && Chain(xs, a) == Chain(ys, b) && !a.Pair? && !b.Pair?
    ensures xs == ys && a == b
    decreases xs, 0
  {
    hide Flat, TreeOf;
    if xs != [] && ys != [] {
      FlatUnique(xs[0], ys[0]);
      ChainsUnique(xs[1..], a, ys[1..], b);
      assert xs == [xs[0]] + xs[1..] && ys == [ys[0]] + ys[1..];
    }
  }

  lemma {:induction false} BlocksUnique(xs: seq<Sexpr>, ys: seq<Sexpr>)
    requires FlatAll(xs) && FlatAll(ys) && TreesOf(xs) == TreesOf(ys)
    ensures xs == ys
    decreases xs, 0
  {
    hide Flat, TreeOf;
    if xs != [] && ys != [] {
      assert TreesOf(xs)[0] == TreeOf(xs[0]) && TreesOf(xs)[1..] == TreesOf(xs[1..]);
      assert TreesOf(ys)[0] == TreeOf(ys[0]) && TreesOf(ys)[1..] == TreesOf(ys[1..]);
      FlatUnique(xs[0], ys[0]);
      BlocksUnique(xs[1..], ys[1..]);
      assert xs == [xs[0]] + xs[1..] && ys == [ys[0]] + ys[1..];
    }
  }

  /**
   The normal form denotes what the form denotes, no dotted list in it could be merged with
   its tail, and it is the only such form: two forms have the same one if and only if they
   denote the same datum.
   */
  lemma {:induction false} OneNormalForm(x: Sexpr, y: Sexpr)
    ensures Flat(Normal(x)) && TreeOf(Normal(x)) == TreeOf(x)
    ensures Flat(x) ==> Normal(x) == x
    ensures Normal(x) == Normal(y) <==> TreeOf(x) == TreeOf(y)
  {
    hide Flat, TreeOf, Normal;
    NormalDenotes(x);
    NormalDenotes(y);
    if Flat(x) {
      FlatUnique(Normal(x), x);
    }
    if TreeOf(x) == TreeOf(y) {
      FlatUnique(Normal(x), Normal(y));
    }
  }
}
