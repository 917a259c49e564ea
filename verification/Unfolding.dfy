/** On a heap without cycles, sharing does not show: the text printed is that of the unfolded datum. */
module Unfolding {
  import opened Prelude
  import opened Data
  import opened Printer
  import opened HeapPrinter

  function Parts(o: Object): seq<Value> {
    match o
    case PairObj(car, cdr) => [car, cdr]
    case ListObj(items) => items
    case VectorObj(items) => items
    case _ => []
  }

  /** References only lead to objects of smaller rank, so there are no cycles. */
  ghost predicate Ranked(objects: seq<Object>, rank: nat -> nat) {
    forall id, v :: 0 <= id < |objects| && v in Parts(objects[id]) && v.Ref? ==> rank(v.id) < rank(id)
  }

  ghost predicate Below(v: Value, rank: nat -> nat, n: nat) {
    v.Ref? ==> rank(v.id) < n
  }

  ghost predicate Acyclic(objects: seq<Object>, rank: nat -> nat) {
    HeapOk(objects) && Ranked(objects, rank)
  }

  lemma {:induction false} PartBelow(objects: seq<Object>, rank: nat -> nat, id: nat, v: Value)
    requires Acyclic(objects, rank) && id < |objects| && v in Parts(objects[id])
    ensures InHeap(objects, v) && Below(v, rank, rank(id))
  {
    assert ObjectOk(objects, id);
  }

  /** The finite datum that a value stands for, if all its parts are data that read back. */
  ghost function Unfold(objects: seq<Object>, v: Value, rank: nat -> nat, n: nat): Option<Datum>
    requires Acyclic(objects, rank) && InHeap(objects, v) && Below(v, rank, n)
    decreases n, 1, 0
  {
    match v
    case Int(i) => Some(DInt(i))
    case Bool(b) => Some(DBool(b))
    case Char(c) => Some(DChar(c))
    case Symbol(s) => Some(DSymbol(s))
    case Nil => Some(DNil)
    case Ref(id) =>
      (match objects[id]
       case StrObj(s) => Some(DStr(s))
       case PairObj(car, cdr) =>
         PartBelow(objects, rank, id, car);
         PartBelow(objects, rank, id, cdr);
         var a, d := Unfold(objects, car, rank, rank(id)), Unfold(objects, cdr, rank, rank(id));
         if a.Some? && d.Some? then Some(DCons(a.value, d.value)) else None
       case ListObj(items) =>
         PartsBelow(objects, rank, id);
         var ds := UnfoldAll(objects, items, rank, rank(id));
         if ds.Some? then Some(ListDatum(ds.value)) else None
       case VectorObj(items) =>
         PartsBelow(objects, rank, id);
         var ds := UnfoldAll(objects, items, rank, rank(id));
         if ds.Some? then Some(DVector(ds.value)) else None
       case HashObj(_) => None)
    case _ => None
  }

  ghost predicate AllBelow(objects: seq<Object>, vs: seq<Value>, rank: nat -> nat, n: nat) {
    forall v :: v in vs ==> InHeap(objects, v) && Below(v, rank, n)
  }

  lemma {:induction false} PartsBelow(objects: seq<Object>, rank: nat -> nat, id: nat)
    requires Acyclic(objects, rank) && id < |objects|
    ensures AllBelow(objects, Parts(objects[id]), rank, rank(id))
  {
    forall v | v in Parts(objects[id])
      ensures InHeap(objects, v) && Below(v, rank, rank(id))
    {
      PartBelow(objects, rank, id, v);
    }
  }

  ghost function UnfoldAll(objects: seq<Object>, vs: seq<Value>, rank: nat -> nat, n: nat): Option<seq<Datum>>
    requires Acyclic(objects, rank) && AllBelow(objects, vs, rank, n)
    decreases n, 2, |vs|
  {
    if vs == [] then Some([])
    else
      assert vs[0] in vs && forall v :: v in vs[1..] ==> v in vs;
      var d, ds := Unfold(objects, vs[0], rank, n), UnfoldAll(objects, vs[1..], rank, n);
      if d.Some? && ds.Some? then Some([d.value] + ds.value) else None
  }

  function ListDatum(ds: seq<Datum>): Datum {
    if ds == [] then DNil else DCons(ds[0], ListDatum(ds[1..]))
  }

  function TextOf(style: Style, d: Datum): string {
    if style.Write? then Written(d) else Displayed(d)
  }

  function TailOf(style: Style, d: Datum): string {
    if style.Write? then TailText(d) else DisplayedTail(d)
  }

  function MoreOf(style: Style, ds: seq<Datum>): string {
    if style.Write? then MoreText(ds) else DisplayedMore(ds)
  }

  /** Everything on the way down has a larger rank than what comes below `n`. */
  ghost predicate Above(above: set<Mark>, rank: nat -> nat, n: nat) {
    forall m :: m in above ==> rank(m.id) >= n
  }

  /** The printer never meets an object that it is in the middle of, and prints the datum. */
  lemma {:induction false} ShowsDatum(objects: seq<Object>, v: Value, above: set<Mark>, style: Style,
        open: Value -> string, rank: nat -> nat, n: nat)
    requires Acyclic(objects, rank) && InHeap(objects, v) && Below(v, rank, n) && Above(above, rank, n)
    requires Unfold(objects, v, rank, n).Some?
    ensures Show(objects, v, above, style, open) == TextOf(style, Unfold(objects, v, rank, n).value)
    decreases n, 1, 0
  {
    hide Ranked, HeapOk;
    if v.Ref? {
      var k, o := rank(v.id), objects[v.id];
      PartsBelow(objects, rank, v.id);
      match o
      case PairObj(car, cdr) =>
        assert car in Parts(o) && cdr in Parts(o);
        ShowsDatum(objects, car, above + {PairMark(v.id)}, style, open, rank, k);
        ShowsTail(objects, cdr, above + {PairMark(v.id)}, style, open, rank, k);
      case ListObj(items) => ShowsList(objects, v, above, style, open, rank, n);
      case VectorObj(items) => ShowsVector(objects, v, above, style, open, rank, n);
      case _ =>
    }
  }

  lemma {:induction false} ShowsList(objects: seq<Object>, v: Value, above: set<Mark>, style: Style,
        open: Value -> string, rank: nat -> nat, n: nat)
    requires Acyclic(objects, rank) && IsList(objects, v) && Below(v, rank, n) && Above(above, rank, n)
    requires Unfold(objects, v, rank, n).Some?
    ensures Show(objects, v, above, style, open) == TextOf(style, Unfold(objects, v, rank, n).value)
    decreases n, 0, 0
  {
    hide Ranked;
    var k, items := rank(v.id), objects[v.id].items;
    PartsBelow(objects, rank, v.id);
    assert ObjectOk(objects, v.id);
    assert items[0] in items && forall x :: x in items[1..] ==> x in items;
    ShowsDatum(objects, items[0], above, style, open, rank, k);
    ShowsMore(objects, items[1..], above, style, open, rank, k);
    ListMore(style, UnfoldAll(objects, items[1..], rank, k).value);
    assert ([Unfold(objects, items[0], rank, k).value] + UnfoldAll(objects, items[1..], rank, k).value)[1..]
        == UnfoldAll(objects, items[1..], rank, k).value;
  }

  lemma {:induction false} ShowsVector(objects: seq<Object>, v: Value, above: set<Mark>, style: Style,
        open: Value -> string, rank: nat -> nat, n: nat)
    requires Acyclic(objects, rank) && InHeap(objects, v) && v.Ref? && objects[v.id].VectorObj?
    requires Below(v, rank, n) && Above(above, rank, n) && Unfold(objects, v, rank, n).Some?
    ensures Show(objects, v, above, style, open) == TextOf(style, Unfold(objects, v, rank, n).value)
    decreases n, 0, 0
  {
    hide Ranked, HeapOk;
    var k, items, inner := rank(v.id), objects[v.id].items, above + {VectorMark(v.id)};
    PartsBelow(objects, rank, v.id);
    if items != [] {
      assert items[0] in items && forall x :: x in items[1..] ==> x in items;
      ShowsDatum(objects, items[0], inner, style, open, rank, k);
      ShowsMore(objects, items[1..], inner, style, open, rank, k);
      assert ([Unfold(objects, items[0], rank, k).value] + UnfoldAll(objects, items[1..], rank, k).value)[1..]
          == UnfoldAll(objects, items[1..], rank, k).value;
    }
  }

  /** Elements after the first look the same in a list and in a vector. */
  lemma {:induction false} ListMore(style: Style, ds: seq<Datum>)
    ensures TailOf(style, ListDatum(ds)) == MoreOf(style, ds)
  {
    if ds != [] {
      ListMore(style, ds[1..]);
    }
  }

  lemma {:induction false} ShowsMore(objects: seq<Object>, vs: seq<Value>, above: set<Mark>, style: Style,
        open: Value -> string, rank: nat -> nat, n: nat)
    requires Acyclic(objects, rank) && AllBelow(objects, vs, rank, n) && Above(above, rank, n)
    requires UnfoldAll(objects, vs, rank, n).Some?
    ensures ShowMore(objects, vs, above, style, open) == MoreOf(style, UnfoldAll(objects, vs, rank, n).value)
    decreases n, 2, |vs|
  {
    hide Ranked, HeapOk;
    if vs != [] {
      assert vs[0] in vs && forall x :: x in vs[1..] ==> x in vs;
      ShowsDatum(objects, vs[0], above, style, open, rank, n);
      ShowsMore(objects, vs[1..], above, style, open, rank, n);
      assert ([Unfold(objects, vs[0], rank, n).value] + UnfoldAll(objects, vs[1..], rank, n).value)[1..]
          == UnfoldAll(objects, vs[1..], rank, n).value;
    }
  }

  lemma {:induction false} ShowsTail(objects: seq<Object>, v: Value, above: set<Mark>, style: Style,
        open: Value -> string, rank: nat -> nat, n: nat)
    requires Acyclic(objects, rank) && InHeap(objects, v) && Below(v, rank, n) && Above(above, rank, n)
    requires Unfold(objects, v, rank, n).Some?
    ensures ShowTail(objects, v, above, style, open) == TailOf(style, Unfold(objects, v, rank, n).value)
    decreases n, 2, 0
  {
    hide Ranked, HeapOk;
    if v.Ref? && objects[v.id].PairObj? {
      var k, o := rank(v.id), objects[v.id];
      PartsBelow(objects, rank, v.id);
      assert o.car in Parts(o) && o.cdr in Parts(o);
      ShowsDatum(objects, o.car, above + {PairMark(v.id)}, style, open, rank, k);
      ShowsTail(objects, o.cdr, above + {PairMark(v.id)}, style, open, rank, k);
    } else if IsList(objects, v) {
      PartsBelow(objects, rank, v.id);
      ShowsMore(objects, objects[v.id].items, above, style, open, rank, rank(v.id));
      ListMore(style, UnfoldAll(objects, objects[v.id].items, rank, rank(v.id)).value);
    } else {
      ShowsDatum(objects, v, above, style, open, rank, n);
    }
  }

  /**
   The text of a value without cycles is that of its unfolded datum: the written form in
   style `Write`, the displayed one in style `Display`.
   */
  lemma {:induction false} PrintsUnfolding(objects: seq<Object>, v: Value, open: Value -> string, rank: nat -> nat)
    requires Acyclic(objects, rank) && InHeap(objects, v)
    ensures var n := if v.Ref? then rank(v.id) + 1 else 0;
      var d := Unfold(objects, v, rank, n);
      d.Some? ==> Show(objects, v, {}, Write, open) == Written(d.value)
                  && Show(objects, v, {}, Display, open) == Displayed(d.value)
  {
    hide Acyclic, Show, Written, Displayed, Unfold;
    var n := if v.Ref? then rank(v.id) + 1 else 0;
    if Unfold(objects, v, rank, n).Some? {
      ShowsDatum(objects, v, {}, Write, open, rank, n);
      ShowsDatum(objects, v, {}, Display, open, rank, n);
    }
  }
}
