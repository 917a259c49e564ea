/**
 Code as data and back, as macro expansion does it: source forms become constants, the
 values made from them are turned into source forms again, within limits on depth, on
 the length of a flat list, and on the work of the whole compilation.

 Here a constant stands for the value made from it; `MacroValues` has the values themselves.
 */
module MacroData {
  import opened Prelude
  import opened Data
  import opened Reader

  const MAX_ELEMENTS: nat := 100_000

  datatype ConversionError = TooMuchWork | TooDeep | TooManyElements | NotCode

  type Spent<T> = Result<(T, nat), ConversionError>

  // ----- source to data -----

  /** Each form costs one; the tail of a dotted list is converted first. */
  function ToConst(x: Sexpr, budget: nat): (r: Spent<Const>)
    decreases x, 0
  {
    if budget == 0 then Err(TooMuchWork)
    else
      match x
      case SInt(n) => Ok((CInt(n), budget - 1))
      case SFloat(bits) => Ok((CFloat(bits), budget - 1))
      case SBool(b) => Ok((CBool(b), budget - 1))
      case SChar(c) => Ok((CChar(c), budget - 1))
      case SStr(s) => Ok((CStr(s), budget - 1))
      case SSymbol(s) => Ok((CSymbol(s), budget - 1))
      case SList(items) =>
        var (cs, b) :- ToConsts(items, budget - 1);
        Ok((CList(cs), b))
      case SVector(items) =>
        var (cs, b) :- ToConsts(items, budget - 1);
        Ok((CVector(cs), b))
      case SDotted(items, tail) =>
        var (t, b) :- ToConst(tail, budget - 1);
        ToPairs(items, t, b)
  }

  function ToConsts(xs: seq<Sexpr>, budget: nat): Spent<seq<Const>>
    decreases xs, 0
  {
    if xs == [] then Ok(([], budget))
    else
      var (c, b) :- ToConst(xs[0], budget);
      var (cs, b') :- ToConsts(xs[1..], b);
      Ok(([c] + cs, b'))
  }

  /** Conses the elements onto `acc`, the last one first. */
  function ToPairs(xs: seq<Sexpr>, acc: Const, budget: nat): Spent<Const>
    decreases xs, 0
  {
    if xs == [] then Ok((acc, budget))
    else
      var (rest, b) :- ToPairs(xs[1..], acc, budget);
      var (c, b') :- ToConst(xs[0], b);
      Ok((CPair(c, rest), b'))
  }

  // ----- data to source -----

  function FromTree(c: Const, depth: nat, budget: nat): Spent<Sexpr>
    decreases c, 1
  {
    if depth > MAX_NESTING_DEPTH then Err(ConversionError.TooDeep)
    else if budget == 0 then Err(TooMuchWork)
    else
      match c
      case CInt(n) => Ok((SInt(n), budget - 1))
      case CFloat(bits) => Ok((SFloat(bits), budget - 1))
      case CBool(b) => Ok((SBool(b), budget - 1))
      case CChar(ch) => Ok((SChar(ch), budget - 1))
      case CStr(s) => Ok((SStr(s), budget - 1))
      case CSymbol(s) => Ok((SSymbol(s), budget - 1))
      case CList(items) =>
        if |items| > MAX_ELEMENTS then Err(TooManyElements)
        else
          var (xs, b) :- FromTrees(items, depth + 1, budget - 1);
          Ok((SList(xs), b))
      case CVector(items) =>
        if |items| > MAX_ELEMENTS then Err(TooManyElements)
        else
          var (xs, b) :- FromTrees(items, depth + 1, budget - 1);
          Ok((SVector(xs), b))
      case CPair(car, cdr) =>
        var (x, b) :- FromTree(car, depth + 1, budget - 1);
        Walk(cdr, depth, b, [x])
      case CUnspecified => Err(NotCode)
  }

  function FromTrees(cs: seq<Const>, depth: nat, budget: nat): Spent<seq<Sexpr>>
    decreases cs, 0
  {
    if cs == [] then Ok(([], budget))
    else
      var (x, b) :- FromTree(cs[0], depth, budget);
      var (xs, b') :- FromTrees(cs[1..], depth, b);
      Ok(([x] + xs, b'))
  }

  /** Along a chain of pairs; a list at its end is merged, anything else is a dotted tail. */
  function Walk(c: Const, depth: nat, budget: nat, items: seq<Sexpr>): Spent<Sexpr>
    decreases c, 2
  {
    match c
    case CPair(car, cdr) =>
      var (x, b) :- FromTree(car, depth + 1, budget);
      if |items| + 1 > MAX_ELEMENTS then Err(TooManyElements) else Walk(cdr, depth, b, items + [x])
    case CList(more) =>
      var (xs, b) :- WalkItems(more, depth, budget, items);
      Ok((SList(xs), b))
    case _ =>
      var (t, b) :- FromTree(c, depth + 1, budget);
      Ok((SDotted(items, t), b))
  }

  function WalkItems(cs: seq<Const>, depth: nat, budget: nat, items: seq<Sexpr>): Spent<seq<Sexpr>>
    decreases cs, 0
  {
    if cs == [] then Ok((items, budget))
    else
      var (x, b) :- FromTree(cs[0], depth + 1, budget);
      if |items| + 1 > MAX_ELEMENTS then Err(TooManyElements) else WalkItems(cs[1..], depth, b, items + [x])
  }

  // ----- normal forms -----

  /** The form with elements `xs` in front of the tail `t`, which is merged if it is a list itself. */
  function Join(xs: seq<Sexpr>, t: Sexpr): Sexpr {
    if xs == [] then t
    else
      match t
      case SList(ys) => SList(xs + ys)
      case SDotted(ys, z) => SDotted(xs + ys, z)
      case _ => SDotted(xs, t)
  }

  /** The source form with every list or dotted tail merged into the list it ends. */
  function Normal(x: Sexpr): Sexpr
    decreases x, 0
  {
    match x
    case SList(items) => SList(NormalAll(items))
    case SVector(items) => SVector(NormalAll(items))
    case SDotted(items, tail) => Join(NormalAll(items), Normal(tail))
    case _ => x
  }

  function NormalAll(xs: seq<Sexpr>): seq<Sexpr>
    decreases xs, 0
  {
    if xs == [] then [] else [Normal(xs[0])] + NormalAll(xs[1..])
  }

  /** The number of forms. */
  function Size(x: Sexpr): nat
    decreases x, 0
  {
    match x
    case SList(items) => 1 + SizeAll(items)
    case SVector(items) => 1 + SizeAll(items)
    case SDotted(items, tail) => 1 + Size(tail) + SizeAll(items)
    case _ => 1
  }

  function SizeAll(xs: seq<Sexpr>): nat
    decreases xs, 0
  {
    if xs == [] then 0 else Size(xs[0]) + SizeAll(xs[1..])
  }

  function Depth(x: Sexpr): nat
    decreases x, 0
  {
    match x
    case SList(items) => DepthAll(items)
    case SVector(items) => DepthAll(items)
    case SDotted(items, tail) => Larger(DepthAll(items), 1 + Depth(tail))
    case _ => 0
  }

  /** One more than the deepest element, or zero without elements. */
  function DepthAll(xs: seq<Sexpr>): nat
    decreases xs, 0
  {
    if xs == [] then 0 else Larger(1 + Depth(xs[0]), DepthAll(xs[1..]))
  }

  /** No list or vector is too long. */
  predicate Modest(x: Sexpr)
    decreases x, 0
  {
    match x
    case SList(items) => |items| <= 100_000 && ModestAll(items)
    case SVector(items) => |items| <= 100_000 && ModestAll(items)
    case SDotted(items, tail) => |items| <= 100_000 && ModestAll(items) && Modest(tail)
    case _ => true
  }

  predicate ModestAll(xs: seq<Sexpr>)
    decreases xs, 0
  {
    xs == [] || (Modest(xs[0]) && ModestAll(xs[1..]))
  }

  // ----- what a constant is converted to -----

  /** The constant a source form becomes. */
  function Datum(x: Sexpr): Const
    decreases x, 0
  {
    match x
    case SInt(n) => CInt(n)
    case SFloat(bits) => CFloat(bits)
    case SBool(b) => CBool(b)
    case SChar(c) => CChar(c)
    case SStr(s) => CStr(s)
    case SSymbol(s) => CSymbol(s)
    case SList(items) => CList(DatumAll(items))
    case SVector(items) => CVector(DatumAll(items))
    case SDotted(items, tail) => Pairs(DatumAll(items), Datum(tail))
  }

  function DatumAll(xs: seq<Sexpr>): seq<Const>
    decreases xs, 0
  {
    if xs == [] then [] else [Datum(xs[0])] + DatumAll(xs[1..])
  }

  function Pairs(cs: seq<Const>, tail: Const): Const {
    if cs == [] then tail else CPair(cs[0], Pairs(cs[1..], tail))
  }

  lemma {:induction false} ToConstIs(x: Sexpr, budget: nat)
    ensures ToConst(x, budget)
         == if Size(x) <= budget then Ok((Datum(x), budget - Size(x))) else Err(TooMuchWork)
    ensures Size(x) > 0
    decreases x, 0
  {
    match x
    case SList(items) => if budget > 0 { ToConstsIs(items, budget - 1); }
    case SVector(items) => if budget > 0 { ToConstsIs(items, budget - 1); }
    case SDotted(items, tail) =>
      if budget > 0 {
        ToConstIs(tail, budget - 1);
        if Size(tail) <= budget - 1 {
          ToPairsIs(items, Datum(tail), budget - 1 - Size(tail));
        }
      }
    case _ =>
  }

  lemma {:induction false} ToConstsIs(xs: seq<Sexpr>, budget: nat)
    ensures if SizeAll(xs) <= budget then ToConsts(xs, budget) == Ok((DatumAll(xs), budget - SizeAll(xs)))
            else ToConsts(xs, budget) == Err(TooMuchWork)
    decreases xs, 0
  {
    if xs != [] {
      ToConstIs(xs[0], budget);
      if Size(xs[0]) <= budget {
        ToConstsIs(xs[1..], budget - Size(xs[0]));
      }
    }
  }

  lemma {:induction false} ToPairsIs(xs: seq<Sexpr>, acc: Const, budget: nat)
    ensures ToPairs(xs, acc, budget)
         == if SizeAll(xs) <= budget then Ok((Pairs(DatumAll(xs), acc), budget - SizeAll(xs))) else Err(TooMuchWork)
    decreases xs, 0
  {
    if xs != [] {
      ToPairsIs(xs[1..], acc, budget);
      if SizeAll(xs[1..]) <= budget {
        ToConstIs(xs[0], budget - SizeAll(xs[1..]));
        assert DatumAll(xs)[1..] == DatumAll(xs[1..]);
      }
    }
  }

  /** Conversion back succeeds, with the normal form and what is left of the budget, exactly within the limits. */
  ghost predicate Gives(r: Spent<Sexpr>, n: Sexpr, depth: nat, budget: nat) {
    if depth + Depth(n) <= MAX_NESTING_DEPTH && Size(n) <= budget && Modest(n) then r == Ok((n, budget - Size(n)))
    else r.Err?
  }

  // ----- the way back -----

  /** The elements a form contributes to the list it ends, and what is left as a dotted tail. */
  function Front(n: Sexpr): seq<Sexpr> {
    if n.SList? || n.SDotted? then n.items else []
  }

  function End(n: Sexpr): Option<Sexpr> {
    if n.SList? then None else if n.SDotted? then Some(n.tail) else Some(n)
  }

  function WalkSize(n: Sexpr): nat {
    SizeAll(Front(n)) + if End(n).Some? then Size(End(n).value) else 0
  }

  function WalkDepth(n: Sexpr): nat {
    Larger(DepthAll(Front(n)), if End(n).Some? then 1 + Depth(End(n).value) else 0)
  }

  /** The rest of a chain behind the elements `acc`. */
  ghost predicate WalkGives(r: Spent<Sexpr>, acc: seq<Sexpr>, n: Sexpr, depth: nat, budget: nat) {
    if depth + WalkDepth(n) <= MAX_NESTING_DEPTH && WalkSize(n) <= budget && |acc| + |Front(n)| <= MAX_ELEMENTS
       && ModestAll(Front(n)) && (End(n).Some? ==> Modest(End(n).value))
    then r == Ok((Join(acc, n), budget - WalkSize(n)))
    else r.Err?
  }

  lemma {:induction false} SizePositive(x: Sexpr)
    ensures Size(x) > 0
  {
  }

  lemma {:induction false} JoinFront(x: Sexpr, xs: seq<Sexpr>, t: Sexpr)
    ensures Front(Join([x] + xs, t)) == [x] + Front(Join(xs, t)) && End(Join([x] + xs, t)) == End(Join(xs, t))
  {
    if xs == [] {
      assert [x] + [] == [x];
    } else if t.SList? || t.SDotted? {
      assert [x] + xs + t.items == [x] + (xs + t.items);
    }
  }

  lemma {:induction false} FrontFirst(x: Sexpr, ys: seq<Sexpr>)
    ensures SizeAll([x] + ys) == Size(x) + SizeAll(ys) && DepthAll([x] + ys) == Larger(1 + Depth(x), DepthAll(ys))
    ensures ModestAll([x] + ys) <==> Modest(x) && ModestAll(ys)
  {
    assert ([x] + ys)[1..] == ys;
  }

  lemma {:induction false} JoinMore(acc: seq<Sexpr>, x: Sexpr, n: Sexpr, n': Sexpr)
    requires acc != [] && Front(n) == [x] + Front(n') && End(n) == End(n')
    ensures Join(acc + [x], n') == Join(acc, n)
  {
    assert acc + [x] + Front(n') == acc + Front(n);
    assert n.SList? || n.SDotted? by {
      assert Front(n) != [];
    }
    assert acc + [x] == acc + ([x] + []);
  }

  lemma {:induction false} TreeBack(x: Sexpr, depth: nat, budget: nat)
    ensures Gives(FromTree(Datum(x), depth, budget), Normal(x), depth, budget)
    decreases Size(x), 1
  {
    SizePositive(Normal(x));
    if depth <= MAX_NESTING_DEPTH && budget > 0 {
      match x
      case SList(items) =>
        TreesBack(items, depth, budget - 1);
        DatumLength(items);
      case SVector(items) =>
        TreesBack(items, depth, budget - 1);
        DatumLength(items);
      case SDotted(items, tail) => DottedBack(x, depth, budget);
      case _ =>
    } else if x.SDotted? {
      DottedRefused(x, depth, budget);
    }
  }

  lemma {:induction false} DottedRefused(x: Sexpr, depth: nat, budget: nat)
    requires depth > MAX_NESTING_DEPTH || budget == 0
    ensures FromTree(Datum(x), depth, budget).Err?
  {
  }

  lemma {:induction false} DatumLength(xs: seq<Sexpr>)
    ensures |DatumAll(xs)| == |NormalAll(xs)| == |xs|
  {
    if xs != [] {
      DatumLength(xs[1..]);
    }
  }

  /** Elements at the next depth. */
  lemma {:induction false} TreesBack(xs: seq<Sexpr>, depth: nat, budget: nat)
    requires depth <= MAX_NESTING_DEPTH
    ensures var ns := NormalAll(xs);
      if depth + DepthAll(ns) <= MAX_NESTING_DEPTH && SizeAll(ns) <= budget && ModestAll(ns)
      then FromTrees(DatumAll(xs), depth + 1, budget) == Ok((ns, budget - SizeAll(ns)))
      else FromTrees(DatumAll(xs), depth + 1, budget).Err?
    decreases SizeAll(xs), 2
  {
    if xs != [] {
      hide FromTree, Datum, Normal, Modest;
      TreeBack(xs[0], depth + 1, budget);
      assert DatumAll(xs)[1..] == DatumAll(xs[1..]);
      FrontFirst(Normal(xs[0]), NormalAll(xs[1..]));
      if FromTree(Datum(xs[0]), depth + 1, budget).Ok? {
        TreesBack(xs[1..], depth, budget - Size(Normal(xs[0])));
      }
    }
  }

  /** A dotted list that is not just its tail. */
  lemma {:induction false} DottedBack(x: Sexpr, depth: nat, budget: nat)
    requires x.SDotted? && depth <= MAX_NESTING_DEPTH && budget > 0
    ensures Gives(FromTree(Datum(x), depth, budget), Normal(x), depth, budget)
    decreases Size(x), 0
  {
    var items, tail := x.items, x.tail;
    if items == [] {
      TreeBack(tail, depth, budget);
      assert Datum(x) == Datum(tail) && Normal(x) == Normal(tail);
    } else {
      assert Size(x) == 1 + Size(tail) + (Size(items[0]) + SizeAll(items[1..]));
      assert Normal(x) == Join(NormalAll(items), Normal(tail)) && Datum(x) == Pairs(DatumAll(items), Datum(tail));
      PairBack(items, tail, depth, budget);
    }
  }

  lemma {:induction false} PairBack(items: seq<Sexpr>, tail: Sexpr, depth: nat, budget: nat)
    requires items != [] && depth <= MAX_NESTING_DEPTH && budget > 0
    ensures Gives(FromTree(Pairs(DatumAll(items), Datum(tail)), depth, budget), Join(NormalAll(items), Normal(tail)),
      depth, budget)
    decreases Size(tail) + SizeAll(items), 4
  {
    hide Datum, Normal, Modest, Size, Depth, Gives, WalkGives, Walk;
    var head, rest := Normal(items[0]), items[1..];
    var n := Join(NormalAll(rest), Normal(tail));
    var first := FromTree(Datum(items[0]), depth + 1, budget - 1);
    SizePositive(items[0]);
    assert DatumAll(items)[1..] == DatumAll(rest) && NormalAll(items) == [head] + NormalAll(rest);
    TreeBack(items[0], depth + 1, budget - 1);
    GivesSize(first, head, depth + 1, budget - 1);
    JoinFront(head, NormalAll(rest), Normal(tail));
    var whole := FromTree(Pairs(DatumAll(items), Datum(tail)), depth, budget);
    if first.Ok? {
      WalkPairs(rest, tail, depth, first.value.1, [head]);
    }
    PairStep(first, head, n, Join(NormalAll(items), Normal(tail)), depth, budget, whole);
  }

  lemma {:induction false} PairStep(first: Spent<Sexpr>, head: Sexpr, n: Sexpr, result: Sexpr, depth: nat, budget: nat,
        whole: Spent<Sexpr>)
    requires budget > 0 && depth <= MAX_NESTING_DEPTH && Gives(first, head, depth + 1, budget - 1)
    requires Front(result) == [head] + Front(n) && End(result) == End(n)
    requires first.Err? ==> whole.Err?
    requires first.Ok? ==> WalkGives(whole, [head], n, depth, budget - 1 - Size(head))
    ensures Gives(whole, result, depth, budget)
  {
    ChainWhole(head, n, result);
    hide Size, Depth, Modest, SizeAll, DepthAll, ModestAll, Front, End, Join;
  }

  /** A chain's limits are those of its first element and those of the rest. */
  lemma {:induction false} ChainWhole(head: Sexpr, n: Sexpr, whole: Sexpr)
    requires Front(whole) == [head] + Front(n) && End(whole) == End(n)
    ensures whole == Join([head], n) && Size(whole) == 1 + Size(head) + WalkSize(n)
    ensures Depth(whole) == Larger(1 + Depth(head), WalkDepth(n))
    ensures Modest(whole)
       <==> 1 + |Front(n)| <= MAX_ELEMENTS && Modest(head) && ModestAll(Front(n))
            && (End(n).Some? ==> Modest(End(n).value))
  {
    FrontFirst(head, Front(n));
    assert [head] + [] == [head];
  }

  /** Along the elements `xs` and then the tail. */
  lemma {:induction false} WalkPairs(xs: seq<Sexpr>, tail: Sexpr, depth: nat, budget: nat, acc: seq<Sexpr>)
    requires acc != [] && |acc| <= MAX_ELEMENTS && depth <= MAX_NESTING_DEPTH
    ensures WalkGives(Walk(Pairs(DatumAll(xs), Datum(tail)), depth, budget, acc), acc,
      Join(NormalAll(xs), Normal(tail)), depth, budget)
    decreases Size(tail) + SizeAll(xs), 3
  {
    hide FromTree, Datum, Normal, Modest, Size, Depth, Gives, WalkGives, Join;
    if xs == [] {
      WalkTail(tail, depth, budget, acc);
      assert Join([], Normal(tail)) == Normal(tail) by {
        JoinNothing(Normal(tail));
      }
    } else {
      var x, rest := Normal(xs[0]), xs[1..];
      var n, n' := Join(NormalAll(xs), Normal(tail)), Join(NormalAll(rest), Normal(tail));
      var first := FromTree(Datum(xs[0]), depth + 1, budget);
      SizePositive(xs[0]);
      TreeBack(xs[0], depth + 1, budget);
      GivesSize(first, x, depth + 1, budget);
      assert DatumAll(xs)[1..] == DatumAll(rest) && NormalAll(xs) == [x] + NormalAll(rest);
      JoinFront(x, NormalAll(rest), Normal(tail));
      var whole := Walk(Pairs(DatumAll(xs), Datum(tail)), depth, budget, acc);
      if first.Ok? && |acc| + 1 <= MAX_ELEMENTS {
        WalkPairs(rest, tail, depth, first.value.1, acc + [x]);
      }
      WalkStep(first, x, acc, n, n', depth, budget, whole);
    }
  }

  lemma {:induction false} JoinNothing(t: Sexpr)
    ensures Join([], t) == t
  {
  }

  lemma {:induction false} WalkStep(first: Spent<Sexpr>, x: Sexpr, acc: seq<Sexpr>, n: Sexpr, n': Sexpr, depth: nat,
        budget: nat,
                                    whole: Spent<Sexpr>)
    requires Gives(first, x, depth + 1, budget) && depth <= MAX_NESTING_DEPTH && acc != []
    requires Front(n) == [x] + Front(n') && End(n) == End(n')
    requires first.Err? || |acc| + 1 > MAX_ELEMENTS ==> whole.Err?
    requires first.Ok? && |acc| + 1 <= MAX_ELEMENTS ==> WalkGives(whole, acc + [x], n', depth, budget - Size(x))
    ensures WalkGives(whole, acc, n, depth, budget)
  {
    FrontFirst(x, Front(n'));
    JoinMore(acc, x, n, n');
    hide Size, Depth, Modest, SizeAll, DepthAll, ModestAll, Front, End, Join;
  }

  /** The end of a chain: a list is merged, a dotted list goes on, anything else is the tail. */
  lemma {:induction false} WalkTail(tail: Sexpr, depth: nat, budget: nat, acc: seq<Sexpr>)
    requires acc != [] && |acc| <= MAX_ELEMENTS && depth <= MAX_NESTING_DEPTH
    ensures WalkGives(Walk(Datum(tail), depth, budget, acc), acc, Normal(tail), depth, budget)
    decreases Size(tail), 2
  {
    match tail
    case SList(ys) => WalkMore(ys, depth, budget, acc);
    case SDotted(items, end) => WalkPairs(items, end, depth, budget, acc);
    case _ =>
      TreeBack(tail, depth + 1, budget);
      assert acc + [] == acc;
  }

  /** What walking elements with normal forms `ns` onto `acc` must give. */
  ghost predicate ItemsGive(r: Spent<seq<Sexpr>>, acc: seq<Sexpr>, ns: seq<Sexpr>, depth: nat, budget: nat) {
    if depth + DepthAll(ns) <= MAX_NESTING_DEPTH && SizeAll(ns) <= budget && ModestAll(ns)
      && |acc| + |ns| <= MAX_ELEMENTS
    then r == Ok((acc + ns, budget - SizeAll(ns)))
    else r.Err?
  }

  lemma {:induction false} ItemsStep(first: Spent<Sexpr>, x: Sexpr, acc: seq<Sexpr>, ns: seq<Sexpr>, depth: nat,
        budget: nat,
                                     r: Spent<seq<Sexpr>>, whole: Spent<seq<Sexpr>>)
    requires Gives(first, x, depth + 1, budget) && depth <= MAX_NESTING_DEPTH
    requires if first.Err? then whole.Err? else if |acc| + 1 > MAX_ELEMENTS then whole.Err? else whole == r
    requires first.Ok? && |acc| + 1 <= MAX_ELEMENTS ==> ItemsGive(r, acc + [x], ns, depth, budget - Size(x))
    ensures ItemsGive(whole, acc, [x] + ns, depth, budget)
  {
    FrontFirst(x, ns);
    hide Size, Depth, Modest, SizeAll, DepthAll, ModestAll;
    assert acc + [x] + ns == acc + ([x] + ns);
  }

  lemma {:induction false} WalkMore(ys: seq<Sexpr>, depth: nat, budget: nat, acc: seq<Sexpr>)
    requires |acc| <= MAX_ELEMENTS && depth <= MAX_NESTING_DEPTH
    ensures ItemsGive(WalkItems(DatumAll(ys), depth, budget, acc), acc, NormalAll(ys), depth, budget)
    decreases SizeAll(ys), 2
  {
    if ys == [] {
      assert acc + [] == acc;
    } else {
      hide FromTree, Datum, Normal, Modest, Size, Depth, ItemsGive, Gives;
      var x, rest := Normal(ys[0]), ys[1..];
      var first := FromTree(Datum(ys[0]), depth + 1, budget);
      SizePositive(ys[0]);
      TreeBack(ys[0], depth + 1, budget);
      GivesSize(first, x, depth + 1, budget);
      assert DatumAll(ys)[1..] == DatumAll(rest) && NormalAll(ys) == [x] + NormalAll(rest);
      var whole := WalkItems(DatumAll(ys), depth, budget, acc);
      if first.Ok? && |acc| + 1 <= MAX_ELEMENTS {
        WalkMore(rest, depth, first.value.1, acc + [x]);
      }
      ItemsStep(first, x, acc, NormalAll(rest), depth, budget, whole, whole);
    }
  }

  lemma {:induction false} GivesSize(r: Spent<Sexpr>, x: Sexpr, depth: nat, budget: nat)
    requires Gives(r, x, depth, budget)
    ensures r.Ok? ==> Size(x) <= budget && r.value == (x, budget - Size(x))
  {
  }

  /**
   Code turned into data and back is the same code with its dotted tails merged, at the
   cost of both conversions, exactly when the depth, the flat lengths and the budget allow.
   */
  lemma {:induction false} CodeDataCode(x: Sexpr, budget: nat)
    ensures var n := Normal(x);
      var there := ToConst(x, budget);
      if Size(x) > budget then there == Err(TooMuchWork)
      else
        there == Ok((Datum(x), budget - Size(x)))
        && (if Depth(n) <= 512 && Size(x) + Size(n) <= budget && Modest(n)
            then FromTree(Datum(x), 0, budget - Size(x)) == Ok((n, budget - Size(x) - Size(n)))
            else FromTree(Datum(x), 0, budget - Size(x)).Err?)
  {
    hide Datum, Normal, Size, Depth, Modest;
    ToConstIs(x, budget);
    if Size(x) <= budget {
      TreeBack(x, 0, budget - Size(x));
    }
  }
}
