/**
 Printing values from the heap, where pairs and vectors may be shared or cyclic.  One
 set of the pairs and vectors being printed guards the whole descent.
 */
module HeapPrinter {
  import opened Prelude
  import opened Data
  import opened Printer

  datatype Style = Display | Write

  datatype Mark = PairMark(id: nat) | VectorMark(id: nat)

  predicate InHeap(objects: seq<Object>, v: Value) {
    v.Ref? ==> v.id < |objects|
  }

  predicate IsList(objects: seq<Object>, v: Value) {
    v.Ref? && v.id < |objects| && objects[v.id].ListObj?
  }

  /** References lead somewhere, and a list, being immutable, holds only lists made before it. */
  predicate ObjectOk(objects: seq<Object>, id: nat)
    requires id < |objects|
  {
    match objects[id]
    case PairObj(car, cdr) => InHeap(objects, car) && InHeap(objects, cdr)
    case VectorObj(items) => forall v :: v in items ==> InHeap(objects, v)
    case ListObj(items) => items != [] && forall v :: v in items ==>
      InHeap(objects, v) && (IsList(objects, v) ==> v.id < id)
    case _ => true
  }

  ghost predicate HeapOk(objects: seq<Object>) {
    forall id :: 0 <= id < |objects| ==> ObjectOk(objects, id)
  }

  /** Everything that can be on the way down. */
  ghost function Marks(objects: seq<Object>): set<Mark> {
    (set i | 0 <= i < |objects| :: PairMark(i)) + (set i | 0 <= i < |objects| :: VectorMark(i))
  }

  /** How deep lists can be nested below a value without passing a pair or a vector. */
  function Rank(objects: seq<Object>, v: Value): nat {
    if IsList(objects, v) then v.id + 1 else 0
  }

  function MaxRank(objects: seq<Object>, vs: seq<Value>): (n: nat)
    ensures forall v :: v in vs ==> Rank(objects, v) <= n
  {
    if vs == [] then 0
    else
      assert vs == [vs[0]] + vs[1..];
      Larger(Rank(objects, vs[0]), MaxRank(objects, vs[1..]))
  }

  lemma {:induction false} MaxRankLeast(objects: seq<Object>, vs: seq<Value>, n: nat)
    requires forall v :: v in vs ==> Rank(objects, v) <= n
    ensures MaxRank(objects, vs) <= n
  {
    if vs != [] {
      assert vs[0] in vs;
      MaxRankLeast(objects, vs[1..], n);
    }
  }

  /** The text of a value without parts, in either style; floats and closures are left open. */
  function AtomText(v: Value, style: Style, open: Value -> string): string {
    match v
    case Int(n) => IntText(n)
    case Bool(b) => if b then "#t" else "#f"
    case Char(c) => if style.Display? then [c] else CharText(c)
    case Symbol(s) => s
    case Native(name) => "#<procedure:" + name + ">"
    case Nil => "()"
    case Eof => "#<eof>"
    case Unspecified => ""
    case _ => open(v)
  }

  ghost function Show(objects: seq<Object>, v: Value, above: set<Mark>, style: Style, open: Value -> string): string
    requires HeapOk(objects) && InHeap(objects, v)
    decreases Marks(objects) - above, Rank(objects, v), 1, 0
  {
    if !v.Ref? then AtomText(v, style, open)
    else
      assert ObjectOk(objects, v.id);
      match objects[v.id]
      case StrObj(s) => if style.Display? then s else "\"" + Escaped(s)
      case HashObj(_) => "#<hash>"
      case PairObj(car, cdr) =>
        if PairMark(v.id) in above then "(...)"
        else
          assert PairMark(v.id) in Marks(objects) - above;
          "(" + (Show(objects, car, above + {PairMark(v.id)}, style, open)
                 + ShowTail(objects, cdr, above + {PairMark(v.id)}, style, open))
      case ListObj(items) =>
        MaxRankLeast(objects, items, v.id);
        assert items[0] in items;
        "(" + (Show(objects, items[0], above, style, open) + ShowMore(objects, items[1..], above, style, open))
      case VectorObj(items) =>
        if VectorMark(v.id) in above then "#(...)"
        else
          assert VectorMark(v.id) in Marks(objects) - above;
          if items == [] then "#()"
          else "#(" + (Show(objects, items[0], above + {VectorMark(v.id)}, style, open)
                       + ShowMore(objects, items[1..], above + {VectorMark(v.id)}, style, open))
  }

  /** What follows the first car of a chain of pairs. */
  ghost function ShowTail(objects: seq<Object>, v: Value, above: set<Mark>, style: Style, open: Value -> string): string
    requires HeapOk(objects) && InHeap(objects, v)
    decreases Marks(objects) - above, Rank(objects, v), 2, 0
  {
    if v.Ref? && objects[v.id].PairObj? then
      if PairMark(v.id) in above then " ...)"
      else
        assert ObjectOk(objects, v.id) && PairMark(v.id) in Marks(objects) - above;
        " " + (Show(objects, objects[v.id].car, above + {PairMark(v.id)}, style, open)
               + ShowTail(objects, objects[v.id].cdr, above + {PairMark(v.id)}, style, open))
    else if v == Nil then ")"
    else if IsList(objects, v) then
      assert ObjectOk(objects, v.id);
      MaxRankLeast(objects, objects[v.id].items, v.id);
      ShowMore(objects, objects[v.id].items, above, style, open)
    else " . " + (Show(objects, v, above, style, open) + ")")
  }

  /** Elements, each after a space, and the closing parenthesis. */
  ghost function ShowMore(objects: seq<Object>, vs: seq<Value>, above: set<Mark>, style: Style,
        open: Value -> string): string
    requires HeapOk(objects) && forall v :: v in vs ==> InHeap(objects, v)
    decreases Marks(objects) - above, MaxRank(objects, vs), 2, |vs|
  {
    if vs == [] then ")"
    else
      assert vs[0] in vs && forall v :: v in vs[1..] ==> v in vs;
      MaxRankLeast(objects, vs[1..], MaxRank(objects, vs));
      " " + (Show(objects, vs[0], above, style, open) + ShowMore(objects, vs[1..], above, style, open))
  }

  // ----- cycles, and values without a readable form -----

  /** A pair, or a vector, that is met inside itself is an ellipsis. */
  lemma {:induction false} CyclesShow(objects: seq<Object>, id: nat, style: Style, open: Value -> string)
    requires HeapOk(objects) && id < |objects|
    ensures var text := Show(objects, Ref(id), {}, style, open);
      match objects[id]
      case PairObj(car, cdr) =>
        (cdr == Ref(id) && !car.Ref? ==> text == "(" + AtomText(car, style, open) + " ...)")
        && (car == Ref(id) && cdr == Nil ==> text == "((...))")
        && (car == Ref(id) && cdr == Ref(id) ==> text == "((...) ...)")
      case VectorObj(items) => items == [Ref(id)] ==> text == "#(#(...))"
      case _ => true
  {
    assert ObjectOk(objects, id);
  }

  /** What has no external form is shown the same in both styles. */
  lemma {:induction false} OpaqueShow(objects: seq<Object>, v: Value, style: Style, open: Value -> string)
    requires HeapOk(objects) && InHeap(objects, v)
    ensures var text := Show(objects, v, {}, style, open);
      match v
      case Native(name) => text == "#<procedure:" + name + ">"
      case Eof => text == "#<eof>"
      case Unspecified => text == ""
      case Ref(id) => objects[id].HashObj? ==> text == "#<hash>"
      case _ => true
  {
  }

  // ----- the printer as it runs -----

  lemma {:induction false} FewerMarks(objects: seq<Object>, above: set<Mark>, m: Mark)
    requires m in Marks(objects) && m !in above
    ensures Marks(objects) - (above + {m}) < Marks(objects) - above
  {
    assert m in Marks(objects) - above;
  }

  class Writer {
    const objects: seq<Object>
    const style: Style
    const open: Value -> string
    var out: string
    var ancestors: set<Mark>

    constructor (objects: seq<Object>, style: Style, open: Value -> string)
      ensures out == "" && ancestors == {} && this.objects == objects && this.style == style && this.open == open
    {
      this.objects, this.style, this.open := objects, style, open;
      out, ancestors := "", {};
    }

    /** Appends the text of a value and leaves the ancestors as they were. */
    method FmtValue(v: Value)
      requires HeapOk(objects) && InHeap(objects, v)
      modifies this
      ensures out == old(out) + Show(objects, v, old(ancestors), style, open) && ancestors == old(ancestors)
      decreases Marks(objects) - ancestors, Rank(objects, v), 1, 0
    {
      if !v.Ref? {
        out := out + AtomText(v, style, open);
        return;
      }
      assert ObjectOk(objects, v.id);
      match objects[v.id]
      case StrObj(s) => out := out + if style.Display? then s else "\"" + Escaped(s);
      case HashObj(_) => out := out + "#<hash>";
      case PairObj(_, _) => FmtPairChain(v.id);
      case VectorObj(_) => FmtVector(v.id);
      case ListObj(items) =>
        MaxRankLeast(objects, items, v.id);
        out := out + "(";
        FmtItems(items, v.id);
        Associate(old(out), "(", ShowItems(objects, items, ancestors, style, open));
    }

    /** The elements of a list or vector, separated by spaces, and the closing parenthesis. */
    method FmtItems(items: seq<Value>, ghost rank: nat)
      requires HeapOk(objects) && (forall v :: v in items ==> InHeap(objects, v)) && MaxRank(objects, items) <= rank
      modifies this
      ensures out == old(out) + ShowItems(objects, items, old(ancestors), style, open) && ancestors == old(ancestors)
      decreases Marks(objects) - ancestors, rank, 3, 0
    {
      ghost var base, total := ancestors, out + ShowItems(objects, items, ancestors, style, open);
      for i := 0 to |items|
        invariant ancestors == base && forall v :: v in items[i..] ==> InHeap(objects, v)
        invariant i == 0 ==> out == old(out)
        invariant i > 0 ==> out + ShowMore(objects, items[i..], base, style, open) == total
      {
        assert items[i] in items;
        ghost var more := ShowMore(objects, items[i + 1..], base, style, open);
        ghost var before := out;
        assert items[i..][0] == items[i] && items[i..][1..] == items[i + 1..];
        if i > 0 {
          out := out + " ";
          Associate(before, " ", Show(objects, items[i], base, style, open) + more);
        }
        Associate(out, Show(objects, items[i], base, style, open), more);
        FmtValue(items[i]);
      }
      assert items[|items|..] == [];
      out := out + ")";
    }

    /** A vector, unless it is being printed already. */
    method FmtVector(id: nat)
      requires HeapOk(objects) && id < |objects| && objects[id].VectorObj?
      modifies this
      ensures out == old(out) + Show(objects, Ref(id), old(ancestors), style, open) && ancestors == old(ancestors)
      decreases Marks(objects) - ancestors, 0, 0, 1
    {
      var m := VectorMark(id);
      if m in ancestors {
        out := out + "#(...)";
        return;
      }
      assert ObjectOk(objects, id);
      FewerMarks(objects, ancestors, m);
      ancestors := ancestors + {m};
      out := out + "#(";
      FmtItems(objects[id].items, MaxRank(objects, objects[id].items));
      Associate(old(out), "#(", ShowItems(objects, objects[id].items, ancestors, style, open));
      ancestors := ancestors - {m};
    }

    /** A chain of pairs as a list: on to the next cdr until it is no pair, or one seen before. */
    method FmtPairChain(id: nat)
      requires HeapOk(objects) && id < |objects| && objects[id].PairObj?
      modifies this
      ensures out == old(out) + Show(objects, Ref(id), old(ancestors), style, open) && ancestors == old(ancestors)
      decreases Marks(objects) - ancestors, 0, 0, 1
    {
      var start := PairMark(id);
      if start in ancestors {
        out := out + "(...)";
        return;
      }
      assert ObjectOk(objects, id);
      ghost var base, total := ancestors, out + Show(objects, Ref(id), ancestors, style, open);
      FewerMarks(objects, ancestors, start);
      ancestors := ancestors + {start};
      var inserted := [start];
      ghost var tail := ShowTail(objects, objects[id].cdr, ancestors, style, open);
      ghost var first := Show(objects, objects[id].car, ancestors, style, open);
      Associate(out, "(", first + tail);
      out := out + "(";
      Associate(out, first, tail);
      FmtValue(objects[id].car);
      var current := objects[id].cdr;
      var done := false;
      while !done
        invariant InHeap(objects, current) && Inserted(base, inserted, ancestors)
        invariant Marks(objects) - ancestors < Marks(objects) - base
        invariant out + (if done then ")" else ShowTail(objects, current, ancestors, style, open)) == total
        decreases Marks(objects) - ancestors, !done
      {
        if current.Ref? && objects[current.id].PairObj? {
          var m := PairMark(current.id);
          if m in ancestors {
            Associate(out, " ...", ")");
            out := out + " ...";
            done := true;
          } else {
            assert ObjectOk(objects, current.id);
            FewerMarks(objects, ancestors, m);
            InsertedNext(base, inserted, ancestors, m);
            ancestors := ancestors + {m};
            inserted := inserted + [m];
            var next := objects[current.id];
            first := Show(objects, next.car, ancestors, style, open);
            tail := ShowTail(objects, next.cdr, ancestors, style, open);
            Associate(out, " ", first + tail);
            out := out + " ";
            Associate(out, first, tail);
            FmtValue(next.car);
            current := next.cdr;
          }
        } else {
          FmtEnd(current);
          done := true;
        }
      }
      out := out + ")";
      RemoveAll(inserted, base);
    }

    /** What stands between the last car of a chain and its closing parenthesis. */
    method FmtEnd(v: Value)
      requires HeapOk(objects) && InHeap(objects, v) && !(v.Ref? && objects[v.id].PairObj?)
      modifies this
      ensures out + ")" == old(out) + ShowTail(objects, v, old(ancestors), style, open) && ancestors == old(ancestors)
      decreases Marks(objects) - ancestors, Rank(objects, v), 2, 0
    {
      ghost var base := ancestors;
      if v == Nil {
      } else if v.Ref? && objects[v.id].ListObj? {
        var items := objects[v.id].items;
        assert ObjectOk(objects, v.id);
        MaxRankLeast(objects, items, v.id);
        for i := 0 to |items|
          invariant ancestors == base && forall x :: x in items[i..] ==> InHeap(objects, x)
          invariant out + ShowMore(objects, items[i..], base, style, open)
            == old(out) + ShowMore(objects, items, base, style, open)
        {
          assert items[i] in items && items[i..][0] == items[i] && items[i..][1..] == items[i + 1..];
          ghost var one, more := Show(objects, items[i], base, style, open),
            ShowMore(objects, items[i + 1..], base, style, open);
          Associate(out, " ", one + more);
          out := out + " ";
          Associate(out, one, more);
          FmtValue(items[i]);
        }
        assert items[|items|..] == [];
      } else {
        ghost var one := Show(objects, v, base, style, open);
        Associate(out, " . ", one + ")");
        out := out + " . ";
        Associate(out, one, ")");
        FmtValue(v);
      }
    }

    /** Takes back what was inserted on the way along a chain. */
    method RemoveAll(inserted: seq<Mark>, ghost base: set<Mark>)
      requires Inserted(base, inserted, ancestors)
      modifies this`ancestors
      ensures ancestors == base
    {
      for i := 0 to |inserted|
        invariant Inserted(base, inserted[i..], ancestors)
      {
        InsertedFirst(base, inserted[i..], ancestors);
        assert inserted[i..][1..] == inserted[i + 1..];
        ancestors := ancestors - {inserted[i]};
      }
    }
  }

  ghost function ShowItems(objects: seq<Object>, items: seq<Value>, above: set<Mark>, style: Style,
        open: Value -> string): string
    requires HeapOk(objects) && forall v :: v in items ==> InHeap(objects, v)
  {
    if items == [] then ")"
    else
      assert items[0] in items;
      Show(objects, items[0], above, style, open) + ShowMore(objects, items[1..], above, style, open)
  }

  /** `now` is `base` with the marks of `inserted`, each of them new. */
  ghost predicate Inserted(base: set<Mark>, inserted: seq<Mark>, now: set<Mark>) {
    now == base + (set m | m in inserted)
    && (forall m :: m in inserted ==> m !in base)
    && forall i, j :: 0 <= i < j < |inserted| ==> inserted[i] != inserted[j]
  }

  lemma {:induction false} InsertedNext(base: set<Mark>, inserted: seq<Mark>, now: set<Mark>, m: Mark)
    requires Inserted(base, inserted, now) && m !in now
    ensures Inserted(base, inserted + [m], now + {m})
  {
  }

  lemma {:induction false} InsertedFirst(base: set<Mark>, inserted: seq<Mark>, now: set<Mark>)
    requires Inserted(base, inserted, now) && inserted != []
    ensures Inserted(base, inserted[1..], now - {inserted[0]})
  {
    assert inserted == [inserted[0]] + inserted[1..];
    assert inserted[0] !in inserted[1..];
  }
}
