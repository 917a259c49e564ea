/**
 The way back from run-time values to code, on any heap: a value becomes code exactly when
 it unfolds to finite data within the limits, shared or not, and a cycle is refused.
 */
module MacroValues {
  import opened Prelude
  import opened Data
  import opened Reader
  import opened MacroData

  predicate Holds(os: seq<Object>, v: Value) {
    v.Ref? && v.id < |os|
  }

  predicate IsPair(os: seq<Object>, v: Value) {
    Holds(os, v) && os[v.id].PairObj?
  }

  // ----- the conversion -----

  function FromValue(os: seq<Object>, v: Value, depth: nat, budget: nat): (r: Spent<Sexpr>)
    ensures r.Ok? ==> r.value.1 < budget
    decreases budget, 0
  {
    if depth > MAX_NESTING_DEPTH then Err(ConversionError.TooDeep)
    else if budget == 0 then Err(TooMuchWork)
    else
      match v
      case Int(n) => Ok((SInt(n), budget - 1))
      case Float(bits) => Ok((SFloat(bits), budget - 1))
      case Bool(b) => Ok((SBool(b), budget - 1))
      case Char(ch) => Ok((SChar(ch), budget - 1))
      case Symbol(s) => Ok((SSymbol(s), budget - 1))
      case Nil => Ok((SList([]), budget - 1))
      case Ref(id) => if id < |os| then FromObject(os, id, depth, budget) else Err(NotCode)
      case _ => Err(NotCode)
  }

  function FromObject(os: seq<Object>, id: nat, depth: nat, budget: nat): (r: Spent<Sexpr>)
    requires id < |os| && budget > 0
    ensures r.Ok? ==> r.value.1 < budget
    decreases budget - 1, 3
  {
    match os[id]
    case StrObj(s) => Ok((SStr(s), budget - 1))
    case ListObj(items) =>
      if |items| > MAX_ELEMENTS then Err(TooManyElements)
      else
        var (xs, b) :- FromValues(os, items, depth + 1, budget - 1);
        Ok((SList(xs), b))
    case VectorObj(items) =>
      if |items| > MAX_ELEMENTS then Err(TooManyElements)
      else
        var (xs, b) :- FromValues(os, items, depth + 1, budget - 1);
        Ok((SVector(xs), b))
    case PairObj(car, cdr) =>
      var (x, b) :- FromValue(os, car, depth + 1, budget - 1);
      WalkValue(os, cdr, depth, b, [x], {id})
    case HashObj(_) => Err(NotCode)
  }

  function FromValues(os: seq<Object>, vs: seq<Value>, depth: nat, budget: nat): (r: Spent<seq<Sexpr>>)
    ensures r.Ok? ==> r.value.1 <= budget
    decreases budget, 1
  {
    if vs == [] then Ok(([], budget))
    else
      var (x, b) :- FromValue(os, vs[0], depth, budget);
      var (xs, b') :- FromValues(os, vs[1..], depth, b);
      Ok(([x] + xs, b'))
  }

  /** Along a spine; `seen` are the pairs already passed. */
  function WalkValue(os: seq<Object>, v: Value, depth: nat, budget: nat, items: seq<Sexpr>, seen: set<nat>):
      (r: Spent<Sexpr>)
    ensures r.Ok? ==> r.value.1 <= budget
    decreases budget, 2
  {
    if IsPair(os, v) then
      if v.id in seen then Err(NotCode)
      else
        var (x, b) :- FromValue(os, os[v.id].car, depth + 1, budget);
        if |items| + 1 > MAX_ELEMENTS then Err(TooManyElements)
        else WalkValue(os, os[v.id].cdr, depth, b, items + [x], seen + {v.id})
    else if v.Nil? then Ok((SList(items), budget))
    else if Holds(os, v) && os[v.id].ListObj? then
      var (xs, b) :- WalkValues(os, os[v.id].items, depth, budget, items);
      Ok((SList(xs), b))
    else
      var (t, b) :- FromValue(os, v, depth + 1, budget);
      Ok((SDotted(items, t), b))
  }

  function WalkValues(os: seq<Object>, vs: seq<Value>, depth: nat, budget: nat, items: seq<Sexpr>):
      (r: Spent<seq<Sexpr>>)
    ensures r.Ok? ==> r.value.1 <= budget
    decreases budget, 1
  {
    if vs == [] then Ok((items, budget))
    else
      var (x, b) :- FromValue(os, vs[0], depth + 1, budget);
      if |items| + 1 > MAX_ELEMENTS then Err(TooManyElements)
      else WalkValues(os, vs[1..], depth, b, items + [x])
  }

  // ----- the conversion as it runs -----

  /** `xs` and then what `r` gives. */
  function After<T>(xs: seq<T>, r: Spent<seq<T>>): Spent<seq<T>> {
    if r.Ok? then Ok((xs + r.value.0, r.value.1)) else r
  }

  method Convert(os: seq<Object>, v: Value, depth: nat, budget: nat) returns (r: Spent<Sexpr>)
    ensures r == FromValue(os, v, depth, budget)
    decreases budget, 0
  {
    if depth > MAX_NESTING_DEPTH { return Err(ConversionError.TooDeep); }
    if budget == 0 { return Err(TooMuchWork); }
    match v
    case Int(n) => r := Ok((SInt(n), budget - 1));
    case Float(bits) => r := Ok((SFloat(bits), budget - 1));
    case Bool(b) => r := Ok((SBool(b), budget - 1));
    case Char(ch) => r := Ok((SChar(ch), budget - 1));
    case Symbol(s) => r := Ok((SSymbol(s), budget - 1));
    case Nil => r := Ok((SList([]), budget - 1));
    case Ref(id) =>
      if id >= |os| { return Err(NotCode); }
      match os[id] {
        case StrObj(s) => r := Ok((SStr(s), budget - 1));
        case ListObj(items) =>
          if |items| > MAX_ELEMENTS { return Err(TooManyElements); }
          var xs := ConvertAll(os, items, depth + 1, budget - 1);
          r := if xs.Ok? then Ok((SList(xs.value.0), xs.value.1)) else Err(xs.error);
        case VectorObj(items) =>
          if |items| > MAX_ELEMENTS { return Err(TooManyElements); }
          var xs := ConvertAll(os, items, depth + 1, budget - 1);
          r := if xs.Ok? then Ok((SVector(xs.value.0), xs.value.1)) else Err(xs.error);
        case PairObj(car, cdr) =>
          SpineFirst(os, v, depth, budget);
          r := ConvertSpine(os, v, depth, budget - 1);
        case HashObj(_) => r := Err(NotCode);
      }
    case _ => r := Err(NotCode);
  }

  method ConvertAll(os: seq<Object>, vs: seq<Value>, depth: nat, budget: nat) returns (r: Spent<seq<Sexpr>>)
    ensures r == FromValues(os, vs, depth, budget)
    decreases budget, 1
  {
    hide FromValue;
    var xs, left: nat := [], budget;
    assert vs[0..] == vs;
    AfterNothing(FromValues(os, vs, depth, budget));
    for i := 0 to |vs|
      invariant left <= budget
      invariant FromValues(os, vs, depth, budget) == After(xs, FromValues(os, vs[i..], depth, left))
    {
      var x := Convert(os, vs[i], depth, left);
      assert vs[i..][1..] == vs[i + 1..];
      if x.Err? { return Err(x.error); }
      AfterTwice(xs, x.value.0, FromValues(os, vs[i + 1..], depth, x.value.1));
      xs, left := xs + [x.value.0], x.value.1;
    }
    assert xs + [] == xs;
    r := Ok((xs, left));
  }

  lemma {:induction false} AfterNothing<T>(r: Spent<seq<T>>)
    ensures After([], r) == r
  {
    if r.Ok? {
      assert [] + r.value.0 == r.value.0;
    }
  }

  /** The loop's first turn is the first pair. */
  lemma {:induction false} SpineFirst(os: seq<Object>, v: Value, depth: nat, budget: nat)
    requires IsPair(os, v) && depth <= MAX_NESTING_DEPTH && budget > 0
    ensures WalkValue(os, v, depth, budget - 1, [], {}) == FromValue(os, v, depth, budget)
  {
    var r := FromValue(os, os[v.id].car, depth + 1, budget - 1);
    if r.Ok? {
      assert [] + [r.value.0] == [r.value.0] && {} + {v.id} == {v.id};
    }
  }

  lemma {:induction false} AfterTwice<T>(xs: seq<T>, x: T, r: Spent<seq<T>>)
    ensures After(xs, After([x], r)) == After(xs + [x], r)
  {
    if r.Ok? {
      assert xs + ([x] + r.value.0) == xs + [x] + r.value.0;
    }
  }

  /** The loop along a spine, with the set of pairs it has passed. */
  method ConvertSpine(os: seq<Object>, v: Value, depth: nat, budget: nat) returns (r: Spent<Sexpr>)
    requires IsPair(os, v)
    ensures r == WalkValue(os, v, depth, budget, [], {})
    decreases budget, 3
  {
    hide FromValue;
    var items, current, seen, left: nat := [], v, {}, budget;
    while IsPair(os, current)
      invariant left <= budget
      invariant WalkValue(os, v, depth, budget, [], {}) == WalkValue(os, current, depth, left, items, seen)
      decreases left
    {
      if current.id in seen { return Err(NotCode); }
      var x := Convert(os, os[current.id].car, depth + 1, left);
      if x.Err? { return Err(x.error); }
      if |items| + 1 > MAX_ELEMENTS { return Err(TooManyElements); }
      items, seen, left := items + [x.value.0], seen + {current.id}, x.value.1;
      current := os[current.id].cdr;
    }
    if current.Nil? { return Ok((SList(items), left)); }
    if Holds(os, current) && os[current.id].ListObj? {
      var more := os[current.id].items;
      for i := 0 to |more|
        invariant left <= budget
        invariant WalkValue(os, v, depth, budget, [], {}) == Listed(WalkValues(os, more[i..], depth, left, items))
      {
        var x := Convert(os, more[i], depth + 1, left);
        assert more[i..][1..] == more[i + 1..];
        if x.Err? { return Err(x.error); }
        if |items| + 1 > MAX_ELEMENTS { return Err(TooManyElements); }
        items, left := items + [x.value.0], x.value.1;
      }
      return Ok((SList(items), left));
    }
    var tail := Convert(os, current, depth + 1, left);
    r := if tail.Ok? then Ok((SDotted(items, tail.value.0), tail.value.1)) else Err(tail.error);
  }

  function Listed(r: Spent<seq<Sexpr>>): Spent<Sexpr> {
    if r.Ok? then Ok((SList(r.value.0), r.value.1)) else Err(r.error)
  }

  // ----- what a value unfolds to -----

  predicate Denotes(os: seq<Object>, v: Value, c: Const)
    decreases c, 0
  {
    match c
    case CInt(n) => v == Int(n)
    case CFloat(bits) => v == Float(bits)
    case CBool(b) => v == Bool(b)
    case CChar(ch) => v == Char(ch)
    case CStr(s) => Holds(os, v) && os[v.id] == StrObj(s)
    case CSymbol(s) => v == Symbol(s)
    case CList(items) =>
      if v.Nil? then items == []
      else Holds(os, v) && os[v.id].ListObj? && DenoteAll(os, os[v.id].items, items)
    case CVector(items) => Holds(os, v) && os[v.id].VectorObj? && DenoteAll(os, os[v.id].items, items)
    case CPair(car, cdr) => IsPair(os, v) && Denotes(os, os[v.id].car, car) && Denotes(os, os[v.id].cdr, cdr)
    case CUnspecified => v == Unspecified
  }

  predicate DenoteAll(os: seq<Object>, vs: seq<Value>, cs: seq<Const>)
    decreases cs, 0
  {
    if cs == [] then vs == [] else vs != [] && Denotes(os, vs[0], cs[0]) && DenoteAll(os, vs[1..], cs[1..])
  }

  /** A value unfolds to one datum at most. */
  lemma {:induction false} DenotesOne(os: seq<Object>, v: Value, c: Const, c': Const)
    requires Denotes(os, v, c) && Denotes(os, v, c')
    ensures c == c'
    decreases c, 0
  {
    match c
    case CList(items) => if !v.Nil? { DenoteOneEach(os, os[v.id].items, items, c'.items); }
    case CVector(items) => DenoteOneEach(os, os[v.id].items, items, c'.items);
    case CPair(car, cdr) =>
      DenotesOne(os, os[v.id].car, car, c'.car);
      DenotesOne(os, os[v.id].cdr, cdr, c'.cdr);
    case _ =>
  }

  lemma {:induction false} DenoteOneEach(os: seq<Object>, vs: seq<Value>, cs: seq<Const>, cs': seq<Const>)
    requires DenoteAll(os, vs, cs) && DenoteAll(os, vs, cs')
    ensures cs == cs'
    decreases cs, 0
  {
    hide Denotes;
    if cs != [] {
      DenotesOne(os, vs[0], cs[0], cs'[0]);
      DenoteOneEach(os, vs[1..], cs[1..], cs'[1..]);
    }
  }

  /** The number of pairs along a spine. */
  function Spine(c: Const): nat {
    if c.CPair? then 1 + Spine(c.cdr) else 0
  }

  /** The pairs already passed unfold to longer spines. */
  ghost predicate Longer(os: seq<Object>, seen: set<nat>, c: Const) {
    forall i :: i in seen ==> exists d :: Denotes(os, Ref(i), d) && Spine(d) > Spine(c)
  }

  // ----- a value that unfolds is converted as what it unfolds to -----

  lemma {:induction false} Agrees(os: seq<Object>, v: Value, c: Const, depth: nat, budget: nat)
    requires Denotes(os, v, c)
    ensures FromValue(os, v, depth, budget) == FromTree(c, depth, budget)
    decreases c, 1
  {
    if depth <= MAX_NESTING_DEPTH && budget > 0 {
      match c
      case CList(items) => if !v.Nil? { ItemsAgree(os, os[v.id].items, items, depth + 1, budget - 1); }
      case CVector(items) => ItemsAgree(os, os[v.id].items, items, depth + 1, budget - 1);
      case CPair(car, cdr) => PairAgrees(os, v, c, depth, budget);
      case _ =>
    }
  }

  lemma {:induction false} ItemsAgree(os: seq<Object>, vs: seq<Value>, cs: seq<Const>, depth: nat, budget: nat)
    requires DenoteAll(os, vs, cs)
    ensures |vs| == |cs| && FromValues(os, vs, depth, budget) == FromTrees(cs, depth, budget)
    decreases cs, 0
  {
    hide Denotes, FromValue, FromTree;
    if cs != [] {
      Agrees(os, vs[0], cs[0], depth, budget);
      var r := FromValue(os, vs[0], depth, budget);
      ItemsAgree(os, vs[1..], cs[1..], depth, if r.Ok? then r.value.1 else 0);
    }
  }

  lemma {:induction false} PairAgrees(os: seq<Object>, v: Value, c: Const, depth: nat, budget: nat)
    requires c.CPair? && Denotes(os, v, c) && depth <= MAX_NESTING_DEPTH && budget > 0
    ensures FromValue(os, v, depth, budget) == FromTree(c, depth, budget)
    decreases c, 0
  {
    hide Walk, WalkValue;
    var id := v.id;
    Agrees(os, os[id].car, c.car, depth + 1, budget - 1);
    var r := FromValue(os, os[id].car, depth + 1, budget - 1);
    if r.Ok? {
      assert v == Ref(id) && Spine(c) > Spine(c.cdr);
      assert Longer(os, {id}, c.cdr);
      SpineAgrees(os, os[id].cdr, c.cdr, depth, r.value.1, [r.value.0], {id});
    }
  }

  lemma {:induction false} SpineAgrees(os: seq<Object>, v: Value, c: Const, depth: nat, budget: nat, items: seq<Sexpr>,
        seen: set<nat>)
    requires Denotes(os, v, c) && Longer(os, seen, c)
    ensures WalkValue(os, v, depth, budget, items, seen) == Walk(c, depth, budget, items)
    decreases c, 2
  {
    hide FromTree, FromValue;
    match c
    case CList(more) => if !v.Nil? { TailAgrees(os, os[v.id].items, more, depth, budget, items); }
    case CPair(car, cdr) =>
      NotPassed(os, v, c, seen);
      Agrees(os, os[v.id].car, car, depth + 1, budget);
      var r := FromValue(os, os[v.id].car, depth + 1, budget);
      if r.Ok? {
        LongerStill(os, v, c, seen);
        SpineAgrees(os, os[v.id].cdr, cdr, depth, r.value.1, items + [r.value.0], seen + {v.id});
      }
    case _ => Agrees(os, v, c, depth + 1, budget);
  }

  /** A pair that unfolds was not passed before: it would unfold to two spines of different lengths. */
  lemma {:induction false} NotPassed(os: seq<Object>, v: Value, c: Const, seen: set<nat>)
    requires Denotes(os, v, c) && Longer(os, seen, c) && v.Ref?
    ensures v.id !in seen
  {
    hide Denotes;
    if v.id in seen {
      var d :| Denotes(os, Ref(v.id), d) && Spine(d) > Spine(c);
      DenotesOne(os, v, c, d);
    }
  }

  lemma {:induction false} LongerStill(os: seq<Object>, v: Value, c: Const, seen: set<nat>)
    requires c.CPair? && Denotes(os, v, c) && Longer(os, seen, c)
    ensures v.Ref? && Longer(os, seen + {v.id}, c.cdr)
  {
    forall i | i in seen + {v.id}
      ensures exists d :: Denotes(os, Ref(i), d) && Spine(d) > Spine(c.cdr)
    {
      if i == v.id {
        assert Denotes(os, Ref(i), c);
      } else {
        var d :| Denotes(os, Ref(i), d) && Spine(d) > Spine(c);
      }
    }
  }

  lemma {:induction false} TailAgrees(os: seq<Object>, vs: seq<Value>, cs: seq<Const>, depth: nat, budget: nat,
        items: seq<Sexpr>)
    requires DenoteAll(os, vs, cs)
    ensures WalkValues(os, vs, depth, budget, items) == WalkItems(cs, depth, budget, items)
    decreases cs, 0
  {
    hide Denotes, FromTree, FromValue;
    if cs != [] {
      Agrees(os, vs[0], cs[0], depth + 1, budget);
      var r := FromValue(os, vs[0], depth + 1, budget);
      if r.Ok? && |items| + 1 <= MAX_ELEMENTS {
        TailAgrees(os, vs[1..], cs[1..], depth, r.value.1, items + [r.value.0]);
      }
    }
  }

  // ----- a value that is converted unfolds -----

  lemma {:induction false} Unfolds(os: seq<Object>, v: Value, depth: nat, budget: nat) returns (c: Const)
    requires FromValue(os, v, depth, budget).Ok?
    ensures Denotes(os, v, c)
    decreases budget, 0
  {
    match v
    case Int(n) => c := CInt(n);
    case Float(bits) => c := CFloat(bits);
    case Bool(b) => c := CBool(b);
    case Char(ch) => c := CChar(ch);
    case Symbol(s) => c := CSymbol(s);
    case Nil => c := CList([]);
    case Ref(id) => c := ObjectUnfolds(os, id, depth, budget);
  }

  lemma {:induction false} ObjectUnfolds(os: seq<Object>, id: nat, depth: nat, budget: nat) returns (c: Const)
    requires id < |os| && budget > 0 && FromObject(os, id, depth, budget).Ok?
    ensures Denotes(os, Ref(id), c)
    decreases budget - 1, 3
  {
    hide FromValue, FromValues, WalkValue;
    match os[id]
    case StrObj(s) => c := CStr(s);
    case ListObj(items) =>
      var cs := ItemsUnfold(os, items, depth + 1, budget - 1);
      c := CList(cs);
    case VectorObj(items) =>
      var cs := ItemsUnfold(os, items, depth + 1, budget - 1);
      c := CVector(cs);
    case PairObj(car, cdr) =>
      var a := Unfolds(os, car, depth + 1, budget - 1);
      var r := FromValue(os, car, depth + 1, budget - 1).value;
      var d := SpineUnfolds(os, cdr, depth, r.1, [r.0], {id});
      c := CPair(a, d);
  }

  lemma {:induction false} ItemsUnfold(os: seq<Object>, vs: seq<Value>, depth: nat, budget: nat)
      returns (cs: seq<Const>)
    requires FromValues(os, vs, depth, budget).Ok?
    ensures DenoteAll(os, vs, cs)
    decreases budget, 1
  {
    hide FromValue, Denotes;
    cs := [];
    if vs != [] {
      var c := Unfolds(os, vs[0], depth, budget);
      var rest := ItemsUnfold(os, vs[1..], depth, FromValue(os, vs[0], depth, budget).value.1);
      cs := [c] + rest;
    }
  }

  lemma {:induction false} SpineUnfolds(os: seq<Object>, v: Value, depth: nat, budget: nat, items: seq<Sexpr>,
        seen: set<nat>) returns (c: Const)
    requires WalkValue(os, v, depth, budget, items, seen).Ok?
    ensures Denotes(os, v, c)
    decreases budget, 2
  {
    hide FromValue, WalkValues;
    if IsPair(os, v) {
      var a := Unfolds(os, os[v.id].car, depth + 1, budget);
      var r := FromValue(os, os[v.id].car, depth + 1, budget).value;
      var d := SpineUnfolds(os, os[v.id].cdr, depth, r.1, items + [r.0], seen + {v.id});
      c := CPair(a, d);
    } else if v.Nil? {
      c := CList([]);
    } else if Holds(os, v) && os[v.id].ListObj? {
      var cs := TailUnfolds(os, os[v.id].items, depth, budget, items);
      c := CList(cs);
    } else {
      c := Unfolds(os, v, depth + 1, budget);
    }
  }

  lemma {:induction false} TailUnfolds(os: seq<Object>, vs: seq<Value>, depth: nat, budget: nat, items: seq<Sexpr>)
      returns (cs: seq<Const>)
    requires WalkValues(os, vs, depth, budget, items).Ok?
    ensures DenoteAll(os, vs, cs)
    decreases budget, 1
  {
    hide FromValue, Denotes;
    cs := [];
    if vs != [] {
      var c := Unfolds(os, vs[0], depth + 1, budget);
      var r := FromValue(os, vs[0], depth + 1, budget).value;
      var rest := TailUnfolds(os, vs[1..], depth, r.1, items + [r.0]);
      cs := [c] + rest;
    }
  }

  /**
   On any heap, a value becomes code exactly when it unfolds to finite data that is within
   the limits, and then it becomes the code that the data are.
   */
  lemma {:induction false} ValueToCode(os: seq<Object>, v: Value, depth: nat, budget: nat)
    ensures FromValue(os, v, depth, budget).Ok?
       <==> exists c :: Denotes(os, v, c) && FromTree(c, depth, budget).Ok?
    ensures forall c :: Denotes(os, v, c) ==> FromValue(os, v, depth, budget) == FromTree(c, depth, budget)
  {
    hide FromValue, FromTree, Denotes;
    forall c | Denotes(os, v, c)
      ensures FromValue(os, v, depth, budget) == FromTree(c, depth, budget)
    {
      Agrees(os, v, c, depth, budget);
    }
    if FromValue(os, v, depth, budget).Ok? {
      var c := Unfolds(os, v, depth, budget);
      assert Denotes(os, v, c) && FromTree(c, depth, budget).Ok?;
    }
  }

  // ----- there and back -----

  lemma {:induction false} ConstGrows(c: Const, w: World)
    ensures w.objects <= ConstToValue(c, w).1.objects
    decreases c, 0
  {
    match c
    case CList(items) => ConstsGrow(items, w);
    case CVector(items) => ConstsGrow(items, w);
    case CPair(car, cdr) =>
      ConstGrows(car, w);
      ConstGrows(cdr, ConstToValue(car, w).1);
    case _ =>
  }

  lemma {:induction false} ConstsGrow(cs: seq<Const>, w: World)
    ensures w.objects <= ConstsToValues(cs, w).1.objects
    decreases cs, 0
  {
    if cs != [] {
      ConstGrows(cs[0], w);
      ConstsGrow(cs[1..], ConstToValue(cs[0], w).1);
    }
  }

  /** The value made from a constant unfolds to it, and goes on to when the heap grows. */
  lemma {:induction false} ConstDenoted(c: Const, w: World, os: seq<Object>)
    requires ConstToValue(c, w).1.objects <= os
    ensures Denotes(os, ConstToValue(c, w).0, c)
    decreases c, 0
  {
    match c
    case CList(items) => if items != [] { ConstsDenoted(items, w, os); }
    case CVector(items) => ConstsDenoted(items, w, os);
    case CPair(car, cdr) =>
      var w1 := ConstToValue(car, w).1;
      ConstGrows(cdr, w1);
      ConstDenoted(cdr, w1, os);
      ConstDenoted(car, w, os);
    case _ =>
  }

  lemma {:induction false} ConstsDenoted(cs: seq<Const>, w: World, os: seq<Object>)
    requires ConstsToValues(cs, w).1.objects <= os
    ensures DenoteAll(os, ConstsToValues(cs, w).0, cs)
    decreases cs, 0
  {
    hide Denotes;
    if cs != [] {
      var w1 := ConstToValue(cs[0], w).1;
      ConstsGrow(cs[1..], w1);
      ConstDenoted(cs[0], w, os);
      ConstsDenoted(cs[1..], w1, os);
    }
  }

  /**
   Code turned into a constant, the constant into a value, and the value into code again,
   whatever the program has allocated since: the same code with its dotted tails merged, at
   the cost of both conversions, exactly when depth, flat lengths and budget allow.
   */
  lemma {:induction false} CodeValueCode(x: Sexpr, budget: nat, w: World, os: seq<Object>)
    requires ConstToValue(Datum(x), w).1.objects <= os
    ensures var n := Normal(x);
      var v := ConstToValue(Datum(x), w).0;
      if Size(x) > budget then ToConst(x, budget) == Err(TooMuchWork)
      else
        ToConst(x, budget) == Ok((Datum(x), budget - Size(x)))
        && (if Depth(n) <= 512 && Size(x) + Size(n) <= budget && Modest(n)
            then FromValue(os, v, 0, budget - Size(x)) == Ok((n, budget - Size(x) - Size(n)))
            else FromValue(os, v, 0, budget - Size(x)).Err?)
  {
    hide Datum, Normal, Size, Depth, Modest, FromValue, FromTree, ToConst, Denotes;
    CodeDataCode(x, budget);
    if Size(x) <= budget {
      ConstDenoted(Datum(x), w, os);
      Agrees(os, ConstToValue(Datum(x), w).0, Datum(x), 0, budget - Size(x));
    }
  }
}
