/**
 Quasiquote: the expansion into calls of `list`, `append`, `fold-right` and
 `list->vector`, and the direct meaning of a template that it must have.

 What a template builds is a `Shape`: unquoted values are leaves, everything else is
 fresh structure that no program text can reach before the template is finished.
 */
module Quasi {
  import opened Prelude
  import opened Reader

  const MAX_SEQUENCE_LEN: nat := 2_000

  datatype ExpandError = NestingTooDeep | TooManyElements | MisplacedSplicing

  /** The expression an expansion consists of. */
  datatype Code =
    | User(program: Sexpr)
    | Quote(x: Sexpr)
    | EmptyList
    | Singleton(e: Code)
    | Tagged(tag: string, e: Code)
    | Append(a: Code, b: Code)
    | ToVector(e: Code)
    | FoldCons(tail: Code, head: Code)

  function Call(name: string, args: seq<Sexpr>): Sexpr {
    SList([SSymbol(name)] + args)
  }

  /** The program text it stands for. */
  function ProgramText(c: Code): Sexpr {
    match c
    case User(program) => program
    case Quote(x) => Call("quote", [x])
    case EmptyList => Call("quote", [SList([])])
    case Singleton(e) => Call("list", [ProgramText(e)])
    case Tagged(tag, e) => Call("list", [Call("quote", [SSymbol(tag)]), ProgramText(e)])
    case Append(a, b) => Call("append", [ProgramText(a), ProgramText(b)])
    case ToVector(e) => Call("list->vector", [ProgramText(e)])
    case FoldCons(tail, head) => Call("fold-right", [SSymbol("cons"), ProgramText(tail), ProgramText(head)])
  }

  /** A two-element list headed by the symbol `tag`. */
  predicate IsTagged(items: seq<Sexpr>, tag: string) {
    |items| == 2 && items[0] == SSymbol(tag)
  }

  function SpliceTarget(x: Sexpr): Option<Sexpr> {
    if x.SList? && IsTagged(x.items, "unquote-splicing") then Some(x.items[1]) else None
  }

  function Expand(t: Sexpr, level: nat, depth: nat): Result<Code, ExpandError>
    requires level > 0
    decreases t, 0
  {
    if depth > MAX_NESTING_DEPTH then Err(NestingTooDeep)
    else
      match t
      case SList(items) =>
        if IsTagged(items, "quasiquote") then
          var e :- Expand(items[1], level + 1, depth + 1);
          Ok(Tagged("quasiquote", e))
        else if IsTagged(items, "unquote") then
          if level == 1 then Ok(User(items[1]))
          else
            var e :- Expand(items[1], level - 1, depth + 1);
            Ok(Tagged("unquote", e))
        else if IsTagged(items, "unquote-splicing") then Err(MisplacedSplicing)
        else ExpandSequence(items, level, depth)
      case SVector(items) =>
        var e :- ExpandSequence(items, level, depth);
        Ok(ToVector(e))
      case SDotted(items, tail) =>
        var head :- ExpandSequence(items, level, depth);
        var e :- Expand(tail, level, depth + 1);
        Ok(FoldCons(e, head))
      case _ => Ok(Quote(t))
  }

  function ExpandSequence(items: seq<Sexpr>, level: nat, depth: nat): Result<Code, ExpandError>
    requires level > 0
    decreases items, 1
  {
    if |items| > MAX_SEQUENCE_LEN then Err(TooManyElements)
    else
      var pieces :- ExpandPieces(items, level, depth);
      Ok(FoldAppend(pieces))
  }

  /** One piece for each element: an expression whose value is the list of what it contributes. */
  function ExpandPieces(items: seq<Sexpr>, level: nat, depth: nat): (r: Result<seq<Code>, ExpandError>)
    requires level > 0
    ensures r.Ok? ==> |r.value| == |items|
    decreases items, 0
  {
    if items == [] then Ok([])
    else
      var piece :- ExpandPiece(items[0], level, depth);
      var pieces :- ExpandPieces(items[1..], level, depth);
      Ok([piece] + pieces)
  }

  function ExpandPiece(x: Sexpr, level: nat, depth: nat): Result<Code, ExpandError>
    requires level > 0
    decreases x, 1
  {
    var target := SpliceTarget(x);
    if target.Some? then
      if level == 1 then Ok(User(target.value))
      else
        var e :- Expand(target.value, level - 1, depth + 1);
        Ok(Singleton(Tagged("unquote-splicing", e)))
    else
      var e :- Expand(x, level, depth + 1);
      Ok(Singleton(e))
  }

  /** A right-associated chain of two-argument `append`s. */
  function FoldAppend(pieces: seq<Code>): Code {
    if pieces == [] then EmptyList
    else if |pieces| == 1 then pieces[0]
    else Append(pieces[0], FoldAppend(pieces[1..]))
  }

  /** What marks a form, letter for letter. */
  lemma {:induction false} MarkedForms(items: seq<Sexpr>, tag: string, x: Sexpr)
    ensures IsTagged(items, tag) <==> exists e: Sexpr :: items == [SSymbol(tag), e]
    ensures SpliceTarget(x).Some? <==> exists e: Sexpr :: x == SList([SSymbol("unquote-splicing"), e])
    ensures SpliceTarget(SList([SSymbol("unquote-splicing"), x])) == Some(x)
  {
    if IsTagged(items, tag) {
      assert items == [SSymbol(tag), items[1]];
    }
    if SpliceTarget(x).Some? {
      assert x == SList([SSymbol("unquote-splicing"), x.items[1]]);
    }
  }

  function Marked(tag: string, e: Sexpr): Sexpr {
    SList([SSymbol(tag), e])
  }

  /** The program text of `(a ,x ,@y)`: the list of `a`, the list of `x` and `y`, appended. */
  lemma {:induction false} ListExpands(x: Sexpr, y: Sexpr)
    ensures var a := Marked("quote", SSymbol("a"));
      var e := Expand(SList([SSymbol("a"), Marked("unquote", x), Marked("unquote-splicing", y)]), 1, 0);
      e.Ok?
      && ProgramText(e.value)
         == SList([SSymbol("append"), Marked("list", a), SList([SSymbol("append"), Marked("list", x), y])])
  {
    var p, q := Marked("unquote", x), Marked("unquote-splicing", y);
    var a, b, c := Singleton(Quote(SSymbol("a"))), Singleton(User(x)), User(y);
    assert ExpandPiece(SSymbol("a"), 1, 0) == Ok(a) && ExpandPiece(p, 1, 0) == Ok(b) && ExpandPiece(q, 1, 0) == Ok(c);
    hide ProgramText;
    ThreePieces(SSymbol("a"), p, q, a, b, c);
    EmittedText(Quote(SSymbol("a")), c, "", SSymbol("a"));
    EmittedText(User(x), c, "", x);
    EmittedText(b, c, "", y);
    EmittedText(a, Append(b, c), "", x);
  }

  lemma {:induction false} ThreePieces(x: Sexpr, y: Sexpr, z: Sexpr, a: Code, b: Code, c: Code)
    requires ExpandPiece(x, 1, 0) == Ok(a) && ExpandPiece(y, 1, 0) == Ok(b) && ExpandPiece(z, 1, 0) == Ok(c)
    ensures Expand(SList([x, y, z]), 1, 0) == Ok(Append(a, Append(b, c)))
  {
    hide ExpandPiece;
    FirstPiece(z, [], c, [], 1, 0);
    assert [z] + [] == [z] && [c] + [] == [c];
    FirstPiece(y, [z], b, [c], 1, 0);
    assert [y] + [z] == [y, z] && [b] + [c] == [b, c];
    FirstPiece(x, [y, z], a, [b, c], 1, 0);
    assert [x] + [y, z] == [x, y, z] && [a] + [b, c] == [a, b, c];
    assert [a, b, c][1..] == [b, c] && [b, c][1..] == [c];
    assert FoldAppend([b, c]) == Append(b, c);
    assert FoldAppend([a, b, c]) == Append(a, Append(b, c));
  }

  lemma {:induction false} FirstPiece(x: Sexpr, rest: seq<Sexpr>, piece: Code, pieces: seq<Code>, level: nat,
        depth: nat)
    requires level > 0 && ExpandPiece(x, level, depth) == Ok(piece) && ExpandPieces(rest, level, depth) == Ok(pieces)
    ensures ExpandPieces([x] + rest, level, depth) == Ok([piece] + pieces)
  {
    hide ExpandPiece;
    assert ([x] + rest)[1..] == rest;
  }

  /** The text of each emitted form, letter for letter. */
  lemma {:induction false} EmittedText(a: Code, b: Code, tag: string, x: Sexpr)
    ensures ProgramText(User(x)) == x && ProgramText(Quote(x)) == SList([SSymbol("quote"), x])
    ensures ProgramText(EmptyList) == SList([SSymbol("quote"), SList([])])
    ensures ProgramText(Singleton(a)) == SList([SSymbol("list"), ProgramText(a)])
    ensures ProgramText(Tagged(tag, a))
      == SList([SSymbol("list"), SList([SSymbol("quote"), SSymbol(tag)]), ProgramText(a)])
    ensures ProgramText(Append(a, b)) == SList([SSymbol("append"), ProgramText(a), ProgramText(b)])
    ensures ProgramText(ToVector(a)) == SList([SSymbol("list->vector"), ProgramText(a)])
    ensures ProgramText(FoldCons(a, b))
      == SList([SSymbol("fold-right"), SSymbol("cons"), ProgramText(a), ProgramText(b)])
  {
    hide ProgramText;
    TextUnfolds(a, b, tag, x);
    var p, q := ProgramText(a), ProgramText(b);
    CallIs("quote", [x]);
    CallIs("quote", [SList([])]);
    CallIs("quote", [SSymbol(tag)]);
    CallIs("list", [p]);
    CallIs("list", [Call("quote", [SSymbol(tag)]), p]);
    CallIs("append", [p, q]);
    CallIs("list->vector", [p]);
    CallIs("fold-right", [SSymbol("cons"), p, q]);
  }

  lemma {:induction false} CallIs(name: string, args: seq<Sexpr>)
    ensures Call(name, args).SList? && |Call(name, args).items| == |args| + 1
    ensures |args| == 1 ==> Call(name, args).items == [SSymbol(name), args[0]]
    ensures |args| == 2 ==> Call(name, args).items == [SSymbol(name), args[0], args[1]]
    ensures |args| == 3 ==> Call(name, args).items == [SSymbol(name), args[0], args[1], args[2]]
  {
  }

  lemma {:induction false} TextUnfolds(a: Code, b: Code, tag: string, x: Sexpr)
    ensures ProgramText(User(x)) == x && ProgramText(Quote(x)) == Call("quote", [x])
    ensures ProgramText(EmptyList) == Call("quote", [SList([])])
    ensures ProgramText(Singleton(a)) == Call("list", [ProgramText(a)])
    ensures ProgramText(Tagged(tag, a)) == Call("list", [Call("quote", [SSymbol(tag)]), ProgramText(a)])
    ensures ProgramText(Append(a, b)) == Call("append", [ProgramText(a), ProgramText(b)])
    ensures ProgramText(ToVector(a)) == Call("list->vector", [ProgramText(a)])
    ensures ProgramText(FoldCons(a, b)) == Call("fold-right", [SSymbol("cons"), ProgramText(a), ProgramText(b)])
  {
    hide Call;
  }

  /** `#(,x)`, and `(,x . ,y)`. */
  lemma {:induction false} OthersExpand(x: Sexpr, y: Sexpr)
    ensures var e := Expand(SVector([Marked("unquote", x)]), 1, 0);
      e.Ok? && ProgramText(e.value) == Marked("list->vector", Marked("list", x))
    ensures var e := Expand(SDotted([Marked("unquote", x)], Marked("unquote", y)), 1, 0);
      e.Ok? && ProgramText(e.value) == SList([SSymbol("fold-right"), SSymbol("cons"), y, Marked("list", x)])
  {
    hide ProgramText;
    var p, one := Marked("unquote", x), Singleton(User(x));
    OnePiece(p, one);
    EmittedText(User(x), one, "", x);
    EmittedText(one, one, "", x);
    EmittedText(User(y), one, "", y);
  }

  lemma {:induction false} OnePiece(x: Sexpr, a: Code)
    requires x.SList? && |x.items| == 2 && x == Marked("unquote", x.items[1]) && a == Singleton(User(x.items[1]))
    ensures ExpandSequence([x], 1, 0) == Ok(a)
  {
    assert ExpandPiece(x, 1, 0) == Ok(a);
    hide ExpandPiece;
    FirstPiece(x, [], a, [], 1, 0);
    assert [x] + [] == [x] && [a] + [] == [a];
    assert FoldAppend([a]) == a;
  }

  /** A level further in the marks themselves are built. */
  lemma {:induction false} DeeperExpands(x: Sexpr)
    ensures var e := Expand(Marked("quasiquote", Marked("unquote", Marked("unquote", x))), 1, 0);
      e.Ok?
      && ProgramText(e.value)
         == SList([SSymbol("list"), Marked("quote", SSymbol("quasiquote")),
                   SList([SSymbol("list"), Marked("quote", SSymbol("unquote")), x])])
  {
    hide ProgramText;
    var p := Marked("unquote", x);
    var q := Marked("unquote", p);
    assert Expand(p, 1, 2) == Ok(User(x)) && Expand(q, 2, 1) == Ok(Tagged("unquote", User(x)));
    EmittedText(User(x), User(x), "unquote", x);
    EmittedText(Tagged("unquote", User(x)), User(x), "quasiquote", x);
  }

  // ----- evaluation -----

  datatype Fault = Raised(code: nat) | NotAList

  datatype Shape<V> =
    | Leaf(v: V)
    | Quoted(x: Sexpr)
    | Nil
    | Cons(head: Shape<V>, tail: Shape<V>)
    | Vec(items: seq<Shape<V>>)

  /**
   A language that runs programs: `run` takes program text and a state, `elements` are those of
   a list value at a given time, and `shows` says that a value is the fresh structure of a shape.
   A state is what programs can see: building fresh structure leaves it as it is.
   */
  datatype Host<!V, !S> = Host(run: (Sexpr, S) -> Result<(V, S), Fault>, elements: (V, S) -> Option<seq<V>>,
                               shows: (V, Shape<V>, S) -> bool)

  type Evaluated<V, S> = Result<(Shape<V>, S), Fault>

  function Leaves<V>(vs: seq<V>): seq<Shape<V>> {
    if vs == [] then [] else [Leaf(vs[0])] + Leaves(vs[1..])
  }

  /** The elements of a proper list, as the list natives see them. */
  function Elements<V, S>(h: Host<V, S>, x: Shape<V>, s: S): Option<seq<Shape<V>>> {
    match x
    case Leaf(v) => var vs := h.elements(v, s); if vs.Some? then Some(Leaves(vs.value)) else None
    case Nil => Some([])
    case Cons(a, d) => var xs := Elements(h, d, s); if xs.Some? then Some([a] + xs.value) else None
    case Quoted(_) | Vec(_) => None
  }

  function Chain<V>(xs: seq<Shape<V>>, tail: Shape<V>): Shape<V> {
    if xs == [] then tail else Cons(xs[0], Chain(xs[1..], tail))
  }

  function Datum<V>(x: Sexpr): Shape<V> {
    if x == SList([]) then Nil else Quoted(x)
  }

  // ----- hosts that treat the emitted forms as the language does -----

  /** Arguments are run from left to right. */
  function RunAll<V, S>(h: Host<V, S>, es: seq<Sexpr>, s: S): (r: Result<(seq<V>, S), Fault>)
    ensures r.Ok? ==> |r.value.0| == |es|
  {
    if es == [] then Ok(([], s))
    else
      var (v, s1) :- h.run(es[0], s);
      var (vs, s2) :- RunAll(h, es[1..], s1);
      Ok(([v] + vs, s2))
  }

  predicate ShowAll<V, S>(h: Host<V, S>, vs: seq<V>, xs: seq<Shape<V>>, s: S) {
    |vs| == |xs| && forall i :: 0 <= i < |vs| ==> h.shows(vs[i], xs[i], s)
  }

  /** The argument counts with which an expansion calls each native. */
  predicate Called(name: string, n: nat) {
    (name == "list" && n > 0) || (name in ["append", "fold-right"] && n == 2) || (name == "list->vector" && n == 1)
  }

  /** What the native builds from its arguments; for `fold-right`, those after `cons`. */
  function Built<V, S>(h: Host<V, S>, name: string, xs: seq<Shape<V>>, s: S): Option<Shape<V>>
    requires Called(name, |xs|)
  {
    if name == "list" then Some(Chain(xs, Nil))
    else if name == "list->vector" then
      var items := Elements(h, xs[0], s);
      if items.Some? then Some(Vec(items.value)) else None
    else
      var first, second := Elements(h, xs[0], s), Elements(h, xs[1], s);
      if name == "append" then
        if first.Some? && second.Some? then Some(Chain(first.value + second.value, Nil)) else None
      else if second.Some? then Some(Chain(second.value, xs[0])) else None
  }

  function NativeText(name: string, args: seq<Sexpr>): Sexpr {
    Call(name, if name == "fold-right" then [SSymbol("cons")] + args else args)
  }

  /** A call runs the arguments and then builds, or fails as an argument does, or has no list where it needs one. */
  ghost predicate Obeys<V, S>(h: Host<V, S>, name: string, es: seq<Sexpr>, xs: seq<Shape<V>>, s: S)
    requires Called(name, |es|)
  {
    var a, r := RunAll(h, es, s), h.run(NativeText(name, es), s);
    if a.Err? then r == Err(a.error)
    else
      var (vs, s1) := a.value;
      ShowAll(h, vs, xs, s1) ==>
        var x := Built(h, name, xs, s1);
        if x.Some? then r.Ok? && r.value.1 == s1 && h.shows(r.value.0, x.value, s1) else r == Err(NotAList)
  }

  ghost predicate NativesObey<V(!new), S(!new)>(h: Host<V, S>) {
    forall name, es, xs, s | Called(name, |es|) :: Obeys(h, name, es, xs, s)
  }

  /** A quoted datum is itself, and the quoted empty list is the empty list. */
  ghost predicate Quotes<V, S>(h: Host<V, S>, x: Sexpr, s: S) {
    var r := h.run(Call("quote", [x]), s);
    r.Ok? && r.value.1 == s && h.shows(r.value.0, Datum(x), s)
  }

  ghost predicate QuoteObeys<V(!new), S(!new)>(h: Host<V, S>) {
    forall x, s :: Quotes(h, x, s)
  }

  /** No program reaches structure that it was not handed. */
  ghost predicate Keeps<V, S>(h: Host<V, S>, v: V, x: Shape<V>, e: Sexpr, s: S) {
    h.shows(v, x, s) && h.run(e, s).Ok? ==> h.shows(v, x, h.run(e, s).value.1)
  }

  ghost predicate FreshIsPrivate<V(!new), S(!new)>(h: Host<V, S>) {
    forall v, x, e, s :: Keeps(h, v, x, e, s)
  }

  /** `list`, `append`, `fold-right`, `cons`, `list->vector` and `quote` mean what they should. */
  ghost predicate Honest<V(!new), S(!new)>(h: Host<V, S>) {
    NativesObey(h) && QuoteObeys(h) && FreshIsPrivate(h) && forall v, s :: h.shows(v, Leaf(v), s)
  }

  // ----- the expansion as code -----

  /** Arguments from left to right, then the native. */
  function Eval<V, S>(h: Host<V, S>, c: Code, s: S): Evaluated<V, S> {
    match c
    case User(program) =>
      var (v, s1) :- h.run(program, s);
      Ok((Leaf(v), s1))
    case Quote(x) => Ok((Datum(x), s))
    case EmptyList => Ok((Nil, s))
    case Singleton(e) =>
      var (x, s1) :- Eval(h, e, s);
      Ok((Cons(x, Nil), s1))
    case Tagged(tag, e) =>
      var (x, s1) :- Eval(h, e, s);
      Ok((Cons(Quoted(SSymbol(tag)), Cons(x, Nil)), s1))
    case Append(a, b) =>
      var (x, s1) :- Eval(h, a, s);
      var (y, s2) :- Eval(h, b, s1);
      var xs, ys := Elements(h, x, s2), Elements(h, y, s2);
      if xs.Some? && ys.Some? then Ok((Chain(xs.value + ys.value, Nil), s2)) else Err(NotAList)
    case ToVector(e) =>
      var (x, s1) :- Eval(h, e, s);
      var xs := Elements(h, x, s1);
      if xs.Some? then Ok((Vec(xs.value), s1)) else Err(NotAList)
    case FoldCons(tail, head) =>
      var (t, s1) :- Eval(h, tail, s);
      var (x, s2) :- Eval(h, head, s1);
      var xs := Elements(h, x, s2);
      if xs.Some? then Ok((Chain(xs.value, t), s2)) else Err(NotAList)
  }

  // ----- the meaning of a template -----

  /** What an element of a sequence contributes. */
  datatype Part<V> = One(x: Shape<V>) | Splice(v: V)

  function Two<V>(tag: string, x: Shape<V>): Shape<V> {
    Cons(Quoted(SSymbol(tag)), Cons(x, Nil))
  }

  /**
   The template with unquoted expressions replaced by their values.  The tail of a
   dotted template is evaluated before its elements.
   */
  function Instantiate<V, S>(h: Host<V, S>, t: Sexpr, level: nat, s: S): Evaluated<V, S>
    requires level > 0
    decreases t, 0
  {
    match t
    case SList(items) =>
      if IsTagged(items, "quasiquote") then
        var (x, s1) :- Instantiate(h, items[1], level + 1, s);
        Ok((Two("quasiquote", x), s1))
      else if IsTagged(items, "unquote") then
        if level == 1 then
          var (v, s1) :- h.run(items[1], s);
          Ok((Leaf(v), s1))
        else
          var (x, s1) :- Instantiate(h, items[1], level - 1, s);
          Ok((Two("unquote", x), s1))
      else
        var (parts, s1) :- Parts(h, items, level, s);
        var x :- Assemble(h, parts, s1);
        Ok((x, s1))
    case SVector(items) =>
      var (parts, s1) :- Parts(h, items, level, s);
      var xs := Contributions(h, parts, s1);
      if xs.Some? then Ok((Vec(xs.value), s1)) else Err(NotAList)
    case SDotted(items, tail) =>
      var (end, s1) :- Instantiate(h, tail, level, s);
      var (parts, s2) :- Parts(h, items, level, s1);
      var xs := Contributions(h, parts, s2);
      if xs.Some? then Ok((Chain(xs.value, end), s2)) else Err(NotAList)
    case _ => Ok((Quoted(t), s))
  }

  /** The parts of a sequence, from left to right. */
  function Parts<V, S>(h: Host<V, S>, items: seq<Sexpr>, level: nat, s: S): Result<(seq<Part<V>>, S), Fault>
    requires level > 0
    decreases items, 0
  {
    if items == [] then Ok(([], s))
    else
      var (p, s1) :- PartOf(h, items[0], level, s);
      var (ps, s2) :- Parts(h, items[1..], level, s1);
      Ok(([p] + ps, s2))
  }

  function PartOf<V, S>(h: Host<V, S>, x: Sexpr, level: nat, s: S): Result<(Part<V>, S), Fault>
    requires level > 0
    decreases x, 1
  {
    var target := SpliceTarget(x);
    if target.Some? then
      if level == 1 then
        var (v, s1) :- h.run(target.value, s);
        Ok((Splice(v), s1))
      else
        var (y, s1) :- Instantiate(h, target.value, level - 1, s);
        Ok((One(Two("unquote-splicing", y)), s1))
    else
      var (y, s1) :- Instantiate(h, x, level, s);
      Ok((One(y), s1))
  }

  /** All elements contributed, the spliced lists read once every part has been evaluated. */
  function Contributions<V, S>(h: Host<V, S>, parts: seq<Part<V>>, s: S): Option<seq<Shape<V>>> {
    if parts == [] then Some([])
    else
      var xs := match parts[0]
        case One(x) => Some([x])
        case Splice(v) => Elements(h, Leaf(v), s);
      var more := Contributions(h, parts[1..], s);
      if xs.Some? && more.Some? then Some(xs.value + more.value) else None
  }

  /** The list of all elements; a lone spliced value stands for itself, a list or not. */
  function Assemble<V, S>(h: Host<V, S>, parts: seq<Part<V>>, s: S): Result<Shape<V>, Fault> {
    if |parts| == 1 && parts[0].Splice? then Ok(Leaf(parts[0].v))
    else
      var xs := Contributions(h, parts, s);
      if xs.Some? then Ok(Chain(xs.value, Nil)) else Err(NotAList)
  }

  // ----- the expansion has this meaning -----

  lemma {:induction false} ChainElements<V, S>(h: Host<V, S>, xs: seq<Shape<V>>, s: S)
    ensures Elements(h, Chain(xs, Nil), s) == Some(xs)
  {
    if xs != [] {
      ChainElements(h, xs[1..], s);
      assert [xs[0]] + xs[1..] == xs;
    }
  }

  /** The list that a piece evaluates to. */
  function PieceShape<V>(p: Part<V>): Shape<V> {
    match p
    case One(x) => Cons(x, Nil)
    case Splice(v) => Leaf(v)
  }

  lemma {:induction false} PieceElements<V, S>(h: Host<V, S>, p: Part<V>, s: S)
    ensures Elements(h, PieceShape(p), s) == if p.One? then Some([p.x]) else Elements(h, Leaf(p.v), s)
  {
    if p.One? {
      assert Elements(h, Nil, s) == Some([]) && [p.x] + [] == [p.x];
    }
  }

  lemma {:induction false} ContributionsOf<V, S>(h: Host<V, S>, p: Part<V>, ps: seq<Part<V>>, s: S)
    ensures var xs, more := Elements(h, PieceShape(p), s), Contributions(h, ps, s);
      Contributions(h, [p] + ps, s) == if xs.Some? && more.Some? then Some(xs.value + more.value) else None
  {
    PieceElements(h, p, s);
    assert ([p] + ps)[1..] == ps;
  }

  /** The elements of an assembled list are what its parts contribute. */
  lemma {:induction false} AssembledElements<V, S>(h: Host<V, S>, parts: seq<Part<V>>, s: S)
    ensures var x, xs := Assemble(h, parts, s), Contributions(h, parts, s);
      if x.Ok? then Elements(h, x.value, s) == xs else x == Err(NotAList) && xs.None?
  {
    var xs := Contributions(h, parts, s);
    if |parts| == 1 && parts[0].Splice? {
      assert parts == [parts[0]] + [];
      ContributionsOf(h, parts[0], [], s);
      var own := Elements(h, Leaf(parts[0].v), s);
      assert Contributions(h, [], s) == Some([]);
      if own.Some? {
        assert own.value + [] == own.value;
      }
    } else if xs.Some? {
      ChainElements(h, xs.value, s);
    }
  }

  lemma {:induction false} PieceMeans<V, S>(h: Host<V, S>, x: Sexpr, level: nat, depth: nat, s: S)
    requires level > 0 && ExpandPiece(x, level, depth).Ok?
    ensures var p := PartOf(h, x, level, s);
      Eval(h, ExpandPiece(x, level, depth).value, s)
      == if p.Ok? then Ok((PieceShape(p.value.0), p.value.1)) else Err(p.error)
    decreases x, 1
  {
    var target := SpliceTarget(x);
    if target.Some? {
      if level > 1 {
        ExpansionMeans(h, target.value, level - 1, depth + 1, s);
      }
    } else {
      ExpansionMeans(h, x, level, depth + 1, s);
    }
  }

  /** The chain of appends evaluates the parts from left to right and then assembles them. */
  lemma {:induction false} SequenceMeans<V, S>(h: Host<V, S>, items: seq<Sexpr>, level: nat, depth: nat, s: S)
    requires level > 0 && ExpandPieces(items, level, depth).Ok?
    ensures var ps := Parts(h, items, level, s);
      Eval(h, FoldAppend(ExpandPieces(items, level, depth).value), s)
      == if ps.Err? then Err(ps.error)
         else if Assemble(h, ps.value.0, ps.value.1).Err? then Err(NotAList)
         else Ok((Assemble(h, ps.value.0, ps.value.1).value, ps.value.1))
    ensures Parts(h, items, level, s).Ok? ==> |Parts(h, items, level, s).value.0| == |items|
    decreases items, 0
  {
    hide ExpandPiece, PartOf;
    if items != [] {
      var rest := items[1..];
      PieceMeans(h, items[0], level, depth, s);
      var p := PartOf(h, items[0], level, s);
      var pieces := ExpandPieces(rest, level, depth).value;
      assert ([ExpandPiece(items[0], level, depth).value] + pieces)[1..] == pieces;
      if p.Ok? {
        SequenceMeans(h, rest, level, depth, p.value.1);
        AppendMeans(h, p.value.0, Parts(h, rest, level, p.value.1), rest == []);
      }
    }
  }

  /** Evaluating the rest of a chain gives the assembled rest; one more append assembles the whole. */
  lemma {:induction false} AppendMeans<V, S>(h: Host<V, S>, p: Part<V>, r: Result<(seq<Part<V>>, S), Fault>, last: bool)
    requires r.Ok? ==> (last <==> r.value.0 == [])
    ensures r.Ok? && !last ==>
      var (ps, s) := r.value;
      var y := Assemble(h, ps, s);
      var xs := Elements(h, PieceShape(p), s);
      Assemble(h, [p] + ps, s)
      == if y.Err? || xs.None? || Elements(h, y.value, s).None? then Err(NotAList)
         else Ok(Chain(xs.value + Elements(h, y.value, s).value, Nil))
    ensures r.Ok? && last ==> Assemble(h, [p] + r.value.0, r.value.1) == Ok(PieceShape(p))
  {
    if r.Ok? {
      ContributionsOf(h, p, r.value.0, r.value.1);
      AssembledElements(h, r.value.0, r.value.1);
      if last {
        assert [p] + [] == [p];
      }
    }
  }

  /**
   Expansion preserves meaning: run as code, with the list natives unshadowed, the
   expansion of a template at any level evaluates the same unquoted expressions in the
   same order and builds what the template describes, or fails as it does.
   */
  lemma {:induction false} ExpansionMeans<V, S>(h: Host<V, S>, t: Sexpr, level: nat, depth: nat, s: S)
    requires level > 0 && Expand(t, level, depth).Ok?
    ensures Eval(h, Expand(t, level, depth).value, s) == Instantiate(h, t, level, s)
    decreases t, 0
  {
    match t
    case SList(items) =>
      if IsTagged(items, "quasiquote") {
        ExpansionMeans(h, items[1], level + 1, depth + 1, s);
      } else if IsTagged(items, "unquote") {
        if level > 1 {
          ExpansionMeans(h, items[1], level - 1, depth + 1, s);
        }
      } else {
        SequenceMeans(h, items, level, depth, s);
      }
    case SVector(items) => VectorMeans(h, items, level, depth, s);
    case SDotted(items, tail) => DottedMeans(h, items, tail, level, depth, s);
    case _ =>
  }

  lemma {:induction false} VectorMeans<V, S>(h: Host<V, S>, items: seq<Sexpr>, level: nat, depth: nat, s: S)
    requires level > 0 && Expand(SVector(items), level, depth).Ok?
    ensures Eval(h, Expand(SVector(items), level, depth).value, s) == Instantiate(h, SVector(items), level, s)
    decreases items, 1
  {
    SequenceMeans(h, items, level, depth, s);
    var ps := Parts(h, items, level, s);
    if ps.Ok? {
      AssembledElements(h, ps.value.0, ps.value.1);
    }
  }

  lemma {:induction false} DottedMeans<V, S>(h: Host<V, S>, items: seq<Sexpr>, tail: Sexpr, level: nat, depth: nat,
        s: S)
    requires level > 0 && Expand(SDotted(items, tail), level, depth).Ok?
    ensures Eval(h, Expand(SDotted(items, tail), level, depth).value, s)
      == Instantiate(h, SDotted(items, tail), level, s)
    decreases SDotted(items, tail), -1
  {
    ExpansionMeans(h, tail, level, depth + 1, s);
    var end := Instantiate(h, tail, level, s);
    if end.Ok? {
      SequenceMeans(h, items, level, depth, end.value.1);
      var ps := Parts(h, items, level, end.value.1);
      if ps.Ok? {
        AssembledElements(h, ps.value.0, ps.value.1);
      }
    }
  }

  // ----- running the program text -----

  /** What a host makes of a program is what the code it stands for evaluates to. */
  ghost predicate Agrees<V(!new), S(!new)>(h: Host<V, S>, r: Result<(V, S), Fault>, w: Evaluated<V, S>) {
    match w
    case Ok((x, s)) => r.Ok? && r.value.1 == s && h.shows(r.value.0, x, s)
    case Err(e) => r == Err(e)
  }

  lemma {:induction false} RunBoth<V, S>(h: Host<V, S>, a: Sexpr, b: Sexpr, s: S)
    ensures RunAll(h, [a, b], s)
         == var (v, s1) :- h.run(a, s);
            var (w, s2) :- h.run(b, s1);
            Ok(([v, w], s2))
  {
    assert [a, b][1..] == [b] && [b][1..] == [];
    var v := h.run(a, s);
    if v.Ok? {
      var w := h.run(b, v.value.1);
      if w.Ok? {
        assert RunAll(h, [], w.value.1) == Ok(([], w.value.1));
        assert [w.value.0] + [] == [w.value.0] && [v.value.0] + [w.value.0] == [v.value.0, w.value.0];
      }
    }
  }

  lemma {:induction false} OneArgument<V(!new), S(!new)>(h: Host<V, S>, name: string, a: Code, s: S)
    requires Honest(h) && Called(name, 1) && name != "fold-right"
    requires Agrees(h, h.run(ProgramText(a), s), Eval(h, a, s))
    ensures var w := Eval(h, a, s);
      Agrees(h, h.run(Call(name, [ProgramText(a)]), s),
             if w.Err? then w
             else
               var x := Built(h, name, [w.value.0], w.value.1);
               if x.Some? then Ok((x.value, w.value.1)) else Err(NotAList))
  {
    hide Eval, Built, Elements;
    var w, es := Eval(h, a, s), [ProgramText(a)];
    assert RunAll(h, es[1..], if w.Ok? then w.value.1 else s).Ok?;
    if w.Ok? {
      assert Obeys(h, name, es, [w.value.0], s);
    } else {
      assert Obeys(h, name, es, [Nil], s);
    }
  }

  lemma {:induction false} TwoArguments<V(!new), S(!new)>(h: Host<V, S>, name: string, a: Sexpr, b: Sexpr,
                                                          v: Evaluated<V, S>, w: Evaluated<V, S>, s: S)
    requires Honest(h) && Called(name, 2)
    requires Agrees(h, h.run(a, s), v)
    requires v.Ok? ==> Agrees(h, h.run(b, v.value.1), w)
    ensures Agrees(h, h.run(NativeText(name, [a, b]), s),
                   if v.Err? then v
                   else if w.Err? then w
                   else
                     var x := Built(h, name, [v.value.0, w.value.0], w.value.1);
                     if x.Some? then Ok((x.value, w.value.1)) else Err(NotAList))
  {
    hide RunAll, Eval, Built, Elements;
    var es := [a, b];
    RunBoth(h, a, b, s);
    if v.Ok? {
      if w.Ok? {
        assert Keeps(h, h.run(a, s).value.0, v.value.0, b, v.value.1);
        assert Obeys(h, name, es, [v.value.0, w.value.0], s);
      } else {
        assert Obeys(h, name, es, [Nil, Nil], s);
      }
    } else {
      assert Obeys(h, name, es, [Nil, Nil], s);
    }
  }

  lemma {:induction false} ChainOf<V>(x: Shape<V>, y: Shape<V>)
    ensures Chain([y], Nil) == Cons(y, Nil) && Chain([x, y], Nil) == Cons(x, Cons(y, Nil))
  {
    assert [x, y][1..] == [y] && [y][1..] == [];
    assert Chain([], Nil) == Shape<V>.Nil;
  }

  /** Any host that treats the forms as it should runs the text of an expansion as the code. */
  lemma {:induction false} TextMeans<V(!new), S(!new)>(h: Host<V, S>, c: Code, s: S)
    requires Honest(h)
    ensures Agrees(h, h.run(ProgramText(c), s), Eval(h, c, s))
    decreases c, 1
  {
    hide Elements;
    match c
    case User(_) =>
    case Quote(x) => assert Quotes(h, x, s);
    case EmptyList => assert Quotes(h, SList([]), s);
    case Singleton(e) =>
      TextMeans(h, e, s);
      OneArgument(h, "list", e, s);
      var w := Eval(h, e, s);
      if w.Ok? {
        ChainOf(Nil, w.value.0);
      }
    case Tagged(tag, e) =>
      assert Quotes(h, SSymbol(tag), s);
      TextMeans(h, e, s);
      var w := Eval(h, e, s);
      TwoArguments(h, "list", Call("quote", [SSymbol(tag)]), ProgramText(e), Ok((Quoted(SSymbol(tag)), s)), w, s);
      if w.Ok? {
        ChainOf(Quoted(SSymbol(tag)), w.value.0);
      }
    case Append(a, b) => PairMeans(h, c, "append", a, b, s);
    case ToVector(e) =>
      TextMeans(h, e, s);
      OneArgument(h, "list->vector", e, s);
    case FoldCons(tail, head) => PairMeans(h, c, "fold-right", tail, head, s);
  }

  lemma {:induction false} PairMeans<V(!new), S(!new)>(h: Host<V, S>, c: Code, name: string, a: Code, b: Code, s: S)
    requires Honest(h)
    requires if name == "append" then c == Append(a, b) else name == "fold-right" && c == FoldCons(a, b)
    ensures Agrees(h, h.run(ProgramText(c), s), Eval(h, c, s))
    decreases c, 0
  {
    hide Elements, Honest;
    TextMeans(h, a, s);
    var v := Eval(h, a, s);
    if v.Ok? {
      TextMeans(h, b, v.value.1);
      TwoArguments(h, name, ProgramText(a), ProgramText(b), v, Eval(h, b, v.value.1), s);
    } else {
      TwoArguments(h, name, ProgramText(a), ProgramText(b), v, v, s);
    }
    assert [SSymbol("cons")] + [ProgramText(a), ProgramText(b)] == [SSymbol("cons"), ProgramText(a), ProgramText(b)];
  }

  /**
   In any language with the natives an expansion calls, running the program that replaces a
   template evaluates the same unquoted programs in the same order as instantiating the
   template, and ends in the same state with fresh structure of the shape it describes, or
   fails as it does.
   */
  lemma {:induction false} ProgramMeans<V(!new), S(!new)>(h: Host<V, S>, t: Sexpr, level: nat, depth: nat, s: S)
    requires Honest(h) && level > 0 && Expand(t, level, depth).Ok?
    ensures Agrees(h, h.run(ProgramText(Expand(t, level, depth).value), s), Instantiate(h, t, level, s))
  {
    hide Honest;
    ExpansionMeans(h, t, level, depth, s);
    TextMeans(h, Expand(t, level, depth).value, s);
  }

  // ----- every language has such a host -----

  /** `base` extended with the forms: its values are leaves of shapes. */
  function Execute<V, S>(base: Host<V, S>, e: Sexpr, s: S): Evaluated<V, S>
    decreases e, 0
  {
    if e.SList? && e.items != [] && e.items[0].SSymbol? then
      var name, args := e.items[0].s, e.items[1..];
      var rest := if name == "fold-right" && args != [] && args[0] == SSymbol("cons") then args[1..] else args;
      if name == "quote" && |args| == 1 then Ok((Datum(args[0]), s))
      else if Called(name, |rest|) && e == NativeText(name, rest) then
        var (xs, s1) :- ExecuteAll(base, rest, s);
        var x := Built(base, name, xs, s1);
        if x.Some? then Ok((x.value, s1)) else Err(NotAList)
      else ExecuteOther(base, e, s)
    else ExecuteOther(base, e, s)
  }

  function ExecuteOther<V, S>(base: Host<V, S>, e: Sexpr, s: S): Evaluated<V, S> {
    var (v, s1) :- base.run(e, s);
    Ok((Leaf(v), s1))
  }

  function ExecuteAll<V, S>(base: Host<V, S>, es: seq<Sexpr>, s: S): (r: Result<(seq<Shape<V>>, S), Fault>)
    ensures r.Ok? ==> |r.value.0| == |es|
    decreases es, 1
  {
    if es == [] then Ok(([], s))
    else
      var (x, s1) :- Execute(base, es[0], s);
      var (xs, s2) :- ExecuteAll(base, es[1..], s1);
      Ok(([x] + xs, s2))
  }

  /** The shape whose leaves are themselves shapes. */
  function Flat<V>(x: Shape<Shape<V>>): Shape<V> {
    match x
    case Leaf(v) => v
    case Quoted(d) => Quoted(d)
    case Nil => Nil
    case Cons(a, d) => Cons(Flat(a), Flat(d))
    case Vec(items) => Vec(FlatAll(items))
  }

  function FlatAll<V>(xs: seq<Shape<Shape<V>>>): (r: seq<Shape<V>>)
    ensures |r| == |xs| && forall i :: 0 <= i < |xs| ==> r[i] == Flat(xs[i])
  {
    if xs == [] then [] else [Flat(xs[0])] + FlatAll(xs[1..])
  }

  ghost function Extended<V, S>(base: Host<V, S>): Host<Shape<V>, S> {
    Host((e, s) => Execute(base, e, s), (v, s) => Elements(base, v, s), (v, x, s) => Flat(x) == v)
  }

  lemma {:induction false} FlatLeaves<V>(vs: seq<Shape<V>>)
    ensures FlatAll(Leaves(vs)) == vs
  {
    if vs != [] {
      FlatLeaves(vs[1..]);
      assert Leaves(vs)[1..] == Leaves(vs[1..]);
    }
  }

  lemma {:induction false} FlatElements<V, S>(base: Host<V, S>, x: Shape<Shape<V>>, s: S)
    ensures var xs := Elements(Extended(base), x, s);
      Elements(base, Flat(x), s) == if xs.Some? then Some(FlatAll(xs.value)) else None
  {
    match x
    case Leaf(v) =>
      var vs := Elements(base, v, s);
      if vs.Some? {
        FlatLeaves(vs.value);
      }
    case Cons(a, d) => FlatElements(base, d, s);
    case _ =>
  }

  lemma {:induction false} FlatChain<V>(xs: seq<Shape<Shape<V>>>, tail: Shape<Shape<V>>)
    ensures Flat(Chain(xs, tail)) == Chain(FlatAll(xs), Flat(tail))
  {
    if xs != [] {
      FlatChain(xs[1..], tail);
      assert FlatAll(xs)[1..] == FlatAll(xs[1..]);
    }
  }

  lemma {:induction false} FlatBuilt<V, S>(base: Host<V, S>, name: string, xs: seq<Shape<Shape<V>>>, s: S)
    requires Called(name, |xs|)
    ensures var x := Built(Extended(base), name, xs, s);
      Built(base, name, FlatAll(xs), s) == if x.Some? then Some(Flat(x.value)) else None
  {
    if name == "list" {
      hide Elements;
      FlatChain(xs, Nil);
    } else if name == "list->vector" {
      hide Elements;
      FlatElements(base, xs[0], s);
    } else {
      FlatPair(base, name, xs, s);
    }
  }

  lemma {:induction false} FlatJoined<V>(xs: seq<Shape<Shape<V>>>, ys: seq<Shape<Shape<V>>>)
    ensures Flat(Chain(xs + ys, Nil)) == Chain(FlatAll(xs) + FlatAll(ys), Nil)
  {
    FlatChain(xs + ys, Nil);
    FlatSum(xs, ys);
  }

  lemma {:induction false} FlatSum<V>(xs: seq<Shape<Shape<V>>>, ys: seq<Shape<Shape<V>>>)
    ensures FlatAll(xs + ys) == FlatAll(xs) + FlatAll(ys)
  {
    hide FlatAll, Flat;
  }

  lemma {:induction false} FlatPair<V, S>(base: Host<V, S>, name: string, xs: seq<Shape<Shape<V>>>, s: S)
    requires Called(name, |xs|) && name in ["append", "fold-right"]
    ensures var x := Built(Extended(base), name, xs, s);
      Built(base, name, FlatAll(xs), s) == if x.Some? then Some(Flat(x.value)) else None
  {
    hide Elements, Extended, Chain, Flat, Call;
    FlatElements(base, xs[0], s);
    FlatElements(base, xs[1], s);
    var h := Extended(base);
    var first, second := Elements(h, xs[0], s), Elements(h, xs[1], s);
    if second.Some? {
      FlatChain(second.value, xs[0]);
      if first.Some? {
        FlatJoined(first.value, second.value);
      }
    }
  }

  lemma {:induction false} RunsAll<V, S>(base: Host<V, S>, es: seq<Sexpr>, s: S)
    ensures RunAll(Extended(base), es, s) == ExecuteAll(base, es, s)
  {
    hide Execute;
    if es != [] {
      var r := Execute(base, es[0], s);
      if r.Ok? {
        RunsAll(base, es[1..], r.value.1);
      }
    }
  }

  lemma {:induction false} ExtendedObeys<V, S>(base: Host<V, S>, name: string, es: seq<Sexpr>,
                                               xs: seq<Shape<Shape<V>>>, s: S)
    requires Called(name, |es|)
    ensures Obeys(Extended(base), name, es, xs, s)
  {
    hide Built, ExecuteAll, RunAll;
    var e := NativeText(name, es);
    RunsAll(base, es, s);
    assert ([SSymbol("cons")] + es)[1..] == es;
    var a := ExecuteAll(base, es, s);
    if a.Ok? && ShowAll(Extended(base), a.value.0, xs, a.value.1) {
      assert FlatAll(xs) == a.value.0;
      FlatBuilt(base, name, xs, a.value.1);
    }
  }

  lemma {:induction false} ExtendedQuotes<V, S>(base: Host<V, S>, x: Sexpr, s: S)
    ensures Quotes(Extended(base), x, s)
  {
    hide Built, ExecuteAll;
    assert Call("quote", [x]).items[1..] == [x];
    assert Execute(base, Call("quote", [x]), s) == Ok((Datum(x), s));
    var h := Extended(base);
    assert h.run(Call("quote", [x]), s) == Ok((Datum(x), s));
    assert Flat(Datum<Shape<V>>(x)) == Datum<V>(x);
  }

  /** The laws are not empty: whatever a language does with other programs, it can be extended to satisfy them. */
  lemma {:induction false} ExtendedIsHonest<V(!new), S(!new)>(base: Host<V, S>)
    ensures Honest(Extended(base))
  {
    hide Built, Elements, RunAll;
    var h := Extended(base);
    forall name, es, xs, s | Called(name, |es|)
      ensures Obeys(h, name, es, xs, s)
    {
      ExtendedObeys(base, name, es, xs, s);
    }
    forall x, s
      ensures Quotes(h, x, s)
    {
      ExtendedQuotes(base, x, s);
    }
    forall v, x, e, s
      ensures Keeps(h, v, x, e, s)
    {
    }
    forall v: Shape<V>, s
      ensures h.shows(v, Leaf(v), s)
    {
      assert Flat(Leaf(v)) == v;
    }
  }

  // ----- which templates expand -----

  /** How deep the expansion has to descend: what is unquoted at level 1 is not descended into. */
  function Descent(t: Sexpr, level: nat): nat
    requires level > 0
    decreases t, 0
  {
    match t
    case SList(items) =>
      if IsTagged(items, "quasiquote") then 1 + Descent(items[1], level + 1)
      else if IsTagged(items, "unquote") then if level == 1 then 0 else 1 + Descent(items[1], level - 1)
      else DescentAll(items, level)
    case SVector(items) => DescentAll(items, level)
    case SDotted(items, tail) => Larger(DescentAll(items, level), 1 + Descent(tail, level))
    case _ => 0
  }

  function DescentAll(items: seq<Sexpr>, level: nat): nat
    requires level > 0
    decreases items, 0
  {
    if items == [] then 0
    else
      var target := SpliceTarget(items[0]);
      var one := if target.Some? then if level == 1 then 0 else 1 + Descent(target.value, level - 1)
                 else 1 + Descent(items[0], level);
      Larger(one, DescentAll(items[1..], level))
  }

  /** No sequence is too long and no splice stands outside a sequence, wherever expansion looks. */
  predicate Orderly(t: Sexpr, level: nat)
    requires level > 0
    decreases t, 0
  {
    match t
    case SList(items) =>
      if IsTagged(items, "quasiquote") then Orderly(items[1], level + 1)
      else if IsTagged(items, "unquote") then level == 1 || Orderly(items[1], level - 1)
      else !IsTagged(items, "unquote-splicing") && |items| <= 2000 && OrderlyAll(items, level)
    case SVector(items) => |items| <= 2000 && OrderlyAll(items, level)
    case SDotted(items, tail) => |items| <= 2000 && OrderlyAll(items, level) && Orderly(tail, level)
    case _ => true
  }

  predicate OrderlyAll(items: seq<Sexpr>, level: nat)
    requires level > 0
    decreases items, 0
  {
    items == []
    || (var target := SpliceTarget(items[0]);
        (if target.Some? then level == 1 || Orderly(target.value, level - 1) else Orderly(items[0], level))
        && OrderlyAll(items[1..], level))
  }

  /** A template expands just when it is orderly and not nested too deeply. */
  lemma {:induction false} ExpandsWhen(t: Sexpr, level: nat, depth: nat)
    requires level > 0
    ensures Expand(t, level, depth).Ok? <==> Orderly(t, level) && depth + Descent(t, level) <= 512
    decreases t, 1
  {
    match t
    case SList(items) => ListExpandsWhen(t, items, level, depth);
    case SVector(items) => PiecesExpandWhen(items, level, depth);
    case SDotted(items, tail) =>
      PiecesExpandWhen(items, level, depth);
      ExpandsWhen(tail, level, depth + 1);
    case _ =>
  }

  lemma {:induction false} ListExpandsWhen(t: Sexpr, items: seq<Sexpr>, level: nat, depth: nat)
    requires level > 0 && t == SList(items)
    ensures Expand(t, level, depth).Ok? <==> Orderly(t, level) && depth + Descent(t, level) <= 512
    decreases t, 0
  {
    if IsTagged(items, "quasiquote") {
      ExpandsWhen(items[1], level + 1, depth + 1);
    } else if IsTagged(items, "unquote") {
      if level > 1 {
        ExpandsWhen(items[1], level - 1, depth + 1);
      }
    } else {
      PiecesExpandWhen(items, level, depth);
    }
  }

  lemma {:induction false} PiecesExpandWhen(items: seq<Sexpr>, level: nat, depth: nat)
    requires level > 0
    ensures ExpandPieces(items, level, depth).Ok?
       <==> OrderlyAll(items, level)
            && (items == [] || DescentAll(items, level) == 0 || depth + DescentAll(items, level) <= 512)
    decreases items, 0
  {
    if items != [] {
      PiecesExpandWhen(items[1..], level, depth);
      var target := SpliceTarget(items[0]);
      if target.Some? {
        if level > 1 {
          ExpandsWhen(target.value, level - 1, depth + 1);
        }
      } else {
        ExpandsWhen(items[0], level, depth + 1);
      }
    }
  }
}
