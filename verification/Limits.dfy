/**
 Which programs compile.  What a program needs of each of the compiler's limits is measured
 on its forms alone: the arguments of its calls, the nesting, the slots of its functions, and
 how many enclosing functions a name is looked for in.
 */
module Limits {
  import opened Prelude
  import opened Data
  import opened Syntax
  import opened Compile

  /**
   `slots` are taken in the function at hand, `inner` are the most taken in any function
   inside it, `nest` is how far forms are nested, `args` is the longest argument list, and
   `far` the most functions a name is looked for in before the one that binds it.
   */
  datatype Need = Need(slots: nat, inner: nat, nest: nat, args: nat, far: nat)

  const NOTHING := Need(0, 0, 0, 0, 0)

  /** One after the other in the same frame. */
  function Then(a: Need, b: Need): Need {
    Either(a, b).(slots := a.slots + b.slots)
  }

  /** One or the other. */
  function Either(a: Need, b: Need): Need {
    Need(Larger(a.slots, b.slots), Larger(a.inner, b.inner), Larger(a.nest, b.nest), Larger(a.args, b.args),
         Larger(a.far, b.far))
  }

  /** As a part of another form. */
  function Nested(a: Need): Need {
    a.(nest := a.nest + 1)
  }

  /** The names visible in each function, innermost first. */
  type Scopes = seq<set<string>>

  /** In how many scopes a name is looked for in vain. */
  function Distance(x: string, scopes: Scopes): nat {
    if scopes == [] || x in scopes[0] then 0 else 1 + Distance(x, scopes[1..])
  }

  function Visible(x: string, scopes: Scopes): Scopes {
    if scopes == [] then [{x}] else [scopes[0] + {x}] + scopes[1..]
  }

  function AllVisible(bs: Bindings, scopes: Scopes): Scopes {
    if bs.NoBindings? then scopes else AllVisible(bs.rest, Visible(bs.x, scopes))
  }

  function NeedName(x: string, scopes: Scopes): Need {
    NOTHING.(far := Distance(x, scopes))
  }

  function NeedExpr(e: Expr, scopes: Scopes): Need
    decreases e, 1
  {
    match e
    case Lit(_) => NOTHING
    case Var(x) => NeedName(x, scopes)
    case SetVar(x, e1) => Then(Nested(NeedExpr(e1, scopes)), NeedName(x, scopes))
    case Define(_, e1) =>
      if e1.Lambda? then NeedFunction(e1.formals, e1.body, scopes) else Nested(NeedExpr(e1, scopes))
    case If(test, thn, els) =>
      Then(Nested(NeedExpr(test, scopes)), Either(Nested(NeedExpr(thn, scopes)), NeedElse(els, scopes)))
    case Begin(es) => NeedSeq(es, scopes)
    case And(es) => NeedSeq(es, scopes)
    case Or(es) => NeedSeq(es, scopes)
    case When(test, body) => Then(Nested(NeedExpr(test, scopes)), NeedSeq(body, scopes))
    case Unless(test, body) => Then(Nested(NeedExpr(test, scopes)), NeedSeq(body, scopes))
    case Let(bs, body) => Then(NeedBindings(bs, scopes, scopes, false), NeedSeq(body, AllVisible(bs, scopes)))
    case LetStar(bs, body) => Then(NeedBindings(bs, scopes, scopes, true), NeedSeq(body, AllVisible(bs, scopes)))
    case Cond(tests) => NeedTests(tests, scopes)
    case Case(key, clauses) => Then(Nested(NeedExpr(key, scopes)), NeedClauses(clauses, scopes))
    case Lambda(formals, body) => NeedFunction(formals, body, scopes)
    case App(f, args) =>
      var n := Then(Nested(NeedExpr(f, scopes)), NeedSeq(args, scopes));
      n.(args := Larger(n.args, Length(args)))
  }

  function Length(es: Exprs): nat {
    match es
    case NoExprs => 0
    case More(_, rest) => Length(rest) + 1
  }

  function NeedElse(els: Option<Expr>, scopes: Scopes): Need
    decreases els, 1
  {
    if els.Some? then Nested(NeedExpr(els.value, scopes)) else NOTHING
  }

  /** The parts of a form, all in the same frame. */
  function NeedSeq(es: Exprs, scopes: Scopes): Need
    decreases es, 1
  {
    match es
    case NoExprs => NOTHING
    case More(e, rest) => Then(Nested(NeedExpr(e, scopes)), NeedSeq(rest, scopes))
  }

  /** Each binding takes a slot; `let` looks names up outside, `let*` in the growing scope. */
  function NeedBindings(bs: Bindings, outer: Scopes, scopes: Scopes, star: bool): Need
    decreases bs, 1
  {
    match bs
    case NoBindings => NOTHING
    case Bind(x, init, rest) =>
      var n := Nested(NeedExpr(init, if star then scopes else outer));
      Then(n.(slots := n.slots + 1), NeedBindings(rest, outer, Visible(x, scopes), star))
  }

  function NeedTests(ts: Tests, scopes: Scopes): Need
    decreases ts, 1
  {
    match ts
    case NoTests => NOTHING
    case ElseTests(body) => NeedSeq(body, scopes)
    case Test(test, body, rest) =>
      Either(Then(Nested(NeedExpr(test, scopes)), NeedSeq(body, scopes)), NeedTests(rest, scopes))
    case Arrow(test, receiver, rest) =>
      Either(Then(Nested(NeedExpr(test, scopes)), Nested(NeedExpr(receiver, scopes))), NeedTests(rest, scopes))
  }

  function NeedClauses(cs: Clauses, scopes: Scopes): Need
    decreases cs, 1
  {
    match cs
    case NoClauses => NOTHING
    case ElseClauses(body) => NeedSeq(body, scopes)
    case Clause(_, body, rest) => Either(NeedSeq(body, scopes), NeedClauses(rest, scopes))
  }

  /** A function has a frame of its own, which starts with its parameters. */
  function NeedFunction(formals: Formals, body: Exprs, scopes: Scopes): Need
    decreases body, 2
  {
    var names := formals.params + if formals.rest.Some? then [formals.rest.value] else [];
    var n := NeedSeq(body, [set x | x in names] + scopes);
    n.(slots := 0, inner := Larger(|names| + n.slots, n.inner))
  }

  /** Top-level forms share the frame of the entry chunk. */
  function NeedForms(forms: Exprs): Need {
    match forms
    case NoExprs => NOTHING
    case More(e, rest) => Then(NeedExpr(e, [{}]), NeedForms(rest))
  }

  // ----- the compiler keeps to it -----

  /** The limits, for code that starts at a slot and a depth. */
  predicate Within(n: Need, slot: nat, depth: nat) {
    n.args <= 255 && depth + n.nest <= 512 && slot + n.slots <= 255 && n.inner <= 255 && n.far <= 255
  }

  /** The limit that an error is about is exceeded. */
  predicate Blames(e: CompileError, n: Need, slot: nat, depth: nat) {
    match e
    case TooManyArguments => n.args > 255
    case NestingTooDeep => depth + n.nest > 512
    case TooManyLocals => slot + n.slots > 255 || n.inner > 255
    case UpvalueTooDeep => n.far > 255
  }

  ghost predicate Judged<T>(r: Result<T, CompileError>, n: Need, slot: nat, depth: nat) {
    if r.Ok? then Within(n, slot, depth) else Blames(r.error, n, slot, depth)
  }

  /** ... and out of tail position the code takes the slots it needs. */
  ghost predicate Exact(r: Compiled, n: Need, p: Pools, depth: nat, tail: bool) {
    Judged(r, n, p.slot, depth) && (r.Ok? && !tail ==> r.value.p.slot == p.slot + n.slots)
  }

  function Names(locals: Locals): set<string> {
    set i | 0 <= i < |locals| :: locals[i].0
  }

  function ScopesOf(c: Option<Ctx>): Scopes
    decreases c
  {
    if c.None? then [] else [Names(c.value.locals)] + ScopesOf(c.value.parent)
  }

  lemma {:induction false} LocalWhenNamed(locals: Locals, x: string)
    ensures ResolveLocal(locals, x).Some? <==> x in Names(locals)
    decreases |locals|
  {
    if locals != [] {
      var n := |locals| - 1;
      LocalWhenNamed(locals[..n], x);
      assert forall i :: 0 <= i < n ==> locals[..n][i] == locals[i];
    }
  }

  lemma {:induction false} UpvalueJudged(c: Option<Ctx>, x: string, depth: u8)
    requires depth > 0
    ensures var r := ResolveUpvalue(c, x, depth);
      if depth + Distance(x, ScopesOf(c)) > 255 then r == Err(UpvalueTooDeep) else r.Ok?
    decreases c
  {
    hide ResolveLocal, Names;
    if c.Some? {
      LocalWhenNamed(c.value.locals, x);
      assert ScopesOf(c)[1..] == ScopesOf(c.value.parent);
      if ResolveLocal(c.value.locals, x).None? && depth < 255 {
        UpvalueJudged(c.value.parent, x, depth + 1);
      }
    }
  }

  lemma {:induction false} NameJudged(ctx: Ctx, x: string, slot: nat, depth: nat)
    requires depth <= 512 && slot <= 255
    ensures Judged(Resolve(ctx, x), NeedName(x, ScopesOf(Some(ctx))), slot, depth)
  {
    hide ResolveLocal, Names, ResolveUpvalue;
    LocalWhenNamed(ctx.locals, x);
    assert ScopesOf(Some(ctx))[1..] == ScopesOf(ctx.parent);
    UpvalueJudged(ctx.parent, x, 1);
  }

  /** A form that is judged at the depth of its parts. */
  lemma {:induction false} JudgedNested<T>(r: Result<T, CompileError>, n: Need, slot: nat, depth: nat)
    ensures Judged(r, n, slot, depth + 1) <==> Judged(r, Nested(n), slot, depth)
    ensures Nested(n).slots == n.slots
  {
  }

  /** Two parts in turn; `rb` is of no interest when the first part fails. */
  lemma {:induction false} JudgedThen<T, U, V>(ra: Result<T, CompileError>, rb: Result<U, CompileError>,
        r: Result<V, CompileError>, a: Need, b: Need, slot: nat, depth: nat)
    requires Judged(ra, a, slot, depth) && (ra.Ok? ==> Judged(rb, b, slot + a.slots, depth))
    requires if ra.Err? then r == Err(ra.error) else if rb.Err? then r == Err(rb.error) else r.Ok?
    ensures Judged(r, Then(a, b), slot, depth) && Then(a, b).slots == a.slots + b.slots
  {
  }

  /** Two parts of which one runs, both from the same slot. */
  lemma {:induction false} JudgedEither<T, U, V>(ra: Result<T, CompileError>, rb: Result<U, CompileError>,
        r: Result<V, CompileError>, a: Need, b: Need, slot: nat, depth: nat)
    requires Judged(ra, a, slot, depth) && (ra.Ok? ==> Judged(rb, b, slot, depth))
    requires if ra.Err? then r == Err(ra.error) else if rb.Err? then r == Err(rb.error) else r.Ok?
    ensures Judged(r, Either(a, b), slot, depth) && Either(a, b).slots == Larger(a.slots, b.slots)
  {
  }

  lemma {:induction false} ExprJudged(e: Expr, ctx: Ctx, at: nat, p: Pools, depth: nat, tail: bool)
    ensures Exact(CompExpr(e, ctx, at, p, depth, tail), NeedExpr(e, ScopesOf(Some(ctx))), p, depth, tail)
    decreases e, 1
  {
    hide Names, CompVar, CompSet, CompDefine, CompIf, CompSeq, CompAnd, CompOr, CompWhen, CompUnless, CompLet, CompCond;
    hide CompCase, CompFunction, CompApp, ScopesOf;
    if depth <= MAX_NESTING_DEPTH {
      match e
      case Lit(_) =>
      case Var(x) => VarJudged(x, ctx, p, depth, tail);
      case SetVar(_, _) => SetJudged(e, ctx, at, p, depth, tail);
      case Define(_, _) => DefineJudged(e, ctx, at, p, depth, tail);
      case If(_, _, _) => IfJudged(e, ctx, at, p, depth, tail);
      case Begin(es) => SeqJudged(es, ctx, at, p, depth, tail);
      case And(es) => AndJudged(es, ctx, at, p, depth, tail);
      case Or(es) => OrJudged(es, ctx, at, p, depth, tail);
      case When(_, _) => WhenJudged(e, ctx, at, p, depth, tail);
      case Unless(_, _) => UnlessJudged(e, ctx, at, p, depth, tail);
      case Let(_, _) => LetJudged(e, ctx, at, p, depth, tail);
      case LetStar(_, _) => LetJudged(e, ctx, at, p, depth, tail);
      case Cond(tests) => CondJudged(tests, ctx, at, p, depth, tail);
      case Case(_, _) => CaseJudged(e, ctx, at, p, depth, tail);
      case Lambda(formals, body) => FunctionJudged(formals, body, ctx, p.fns, depth, None, p.slot);
      case App(_, _) => AppJudged(e, ctx, at, p, depth, tail);
    }
  }

  lemma {:induction false} VarJudged(x: string, ctx: Ctx, p: Pools, depth: nat, tail: bool)
    requires depth <= 512
    ensures Exact(CompVar(x, ctx, p), NeedName(x, ScopesOf(Some(ctx))), p, depth, tail)
  {
    hide Resolve, ScopesOf, Distance;
    NameJudged(ctx, x, p.slot, depth);
  }

  lemma {:induction false} SetJudged(e: Expr, ctx: Ctx, at: nat, p: Pools, depth: nat, tail: bool)
    requires e.SetVar? && depth <= 512
    ensures Exact(CompSet(e.x, e.e, ctx, at, p, depth), NeedExpr(e, ScopesOf(Some(ctx))), p, depth, tail)
    decreases e, 0
  {
    hide CompExpr, Resolve, ScopesOf, Distance;
    ExprJudged(e.e, ctx, at, p, depth + 1, false);
    NameJudged(ctx, e.x, 0, depth);
  }

  lemma {:induction false} DefineJudged(e: Expr, ctx: Ctx, at: nat, p: Pools, depth: nat, tail: bool)
    requires e.Define? && depth <= 512
    ensures Exact(CompDefine(e.x, e.e, ctx, at, p, depth), NeedExpr(e, ScopesOf(Some(ctx))), p, depth, tail)
    decreases e, 0
  {
    hide CompExpr, CompFunction, ScopesOf;
    if e.e.Lambda? {
      FunctionJudged(e.e.formals, e.e.body, ctx, p.fns, depth, Some(e.x), p.slot);
    } else {
      ExprJudged(e.e, ctx, at, p, depth + 1, false);
    }
  }

  lemma {:induction false} ElseJudged(els: Option<Expr>, ctx: Ctx, at: nat, p: Pools, depth: nat, tail: bool)
    requires depth <= 512
    ensures Exact(CompElse(els, ctx, at, p, depth + 1, tail), NeedElse(els, ScopesOf(Some(ctx))), p, depth, tail)
    decreases els, 2
  {
    hide CompExpr, ScopesOf;
    if els.Some? {
      ExprJudged(els.value, ctx, at, p, depth + 1, tail);
    }
  }

  lemma {:induction false} IfJudged(e: Expr, ctx: Ctx, at: nat, p: Pools, depth: nat, tail: bool)
    requires e.If? && depth <= 512
    ensures Exact(CompIf(e.test, e.thn, e.els, ctx, at, p, depth, tail), NeedExpr(e, ScopesOf(Some(ctx))), p, depth,
                  tail)
    decreases e, 0
  {
    hide CompExpr, CompElse, ScopesOf, BranchTo, JumpTo, Pad, Judged, NeedElse, CompIf, Then, Either, Nested;
    var sc, r := ScopesOf(Some(ctx)), CompIf(e.test, e.thn, e.els, ctx, at, p, depth, tail);
    var nc, nt, ne := NeedExpr(e.test, sc), NeedExpr(e.thn, sc), NeedElse(e.els, sc);
    ExprJudged(e.test, ctx, at, p, depth + 1, false);
    var c := CompExpr(e.test, ctx, at, p, depth + 1, false);
    JudgedNested(c, nc, p.slot, depth);
    var t, l, both: Compiled := c, c, c;
    if c.Ok? {
      var thnAt := at + |c.value.code| + 5;
      ExprJudged(e.thn, ctx, thnAt, c.value.p, depth + 1, tail);
      t := CompExpr(e.thn, ctx, thnAt, c.value.p, depth + 1, tail);
      JudgedNested(t, nt, c.value.p.slot, depth);
      if t.Ok? {
        var q := t.value.p.(slot := c.value.p.slot);
        ElseJudged(e.els, ctx, thnAt + |t.value.code| + 5, q, depth, tail);
        l := CompElse(e.els, ctx, thnAt + |t.value.code| + 5, q, depth + 1, tail);
      }
      both := if t.Err? then t else l;
      JudgedEither(t, l, both, Nested(nt), ne, c.value.p.slot, depth);
    }
    IfIs(e, ctx, at, p, depth, tail, c, t, l);
    JudgedThen(c, both, r, Nested(nc), Either(Nested(nt), ne), p.slot, depth);
  }

  /** An `if` succeeds when its three parts do, and then has the slots of the larger branch. */
  lemma {:induction false} IfIs(e: Expr, ctx: Ctx, at: nat, p: Pools, depth: nat, tail: bool, c: Compiled, t: Compiled,
        l: Compiled)
    requires e.If? && c == CompExpr(e.test, ctx, at, p, depth + 1, false)
    requires c.Ok? ==> t == CompExpr(e.thn, ctx, at + |c.value.code| + 5, c.value.p, depth + 1, tail)
    requires c.Ok? && t.Ok? ==>
      l == CompElse(e.els, ctx, at + |c.value.code| + 5 + |t.value.code| + 5, t.value.p.(slot := c.value.p.slot),
                    depth + 1, tail)
    ensures var r := CompIf(e.test, e.thn, e.els, ctx, at, p, depth, tail);
      if c.Err? then r == Err(c.error) else if t.Err? then r == Err(t.error) else if l.Err? then r == Err(l.error)
      else r.Ok? && (!tail ==> r.value.p.slot == Max(t.value.p.slot, l.value.p.slot))
  {
    hide CompExpr, CompElse, BranchTo, JumpTo, Pad;
  }

  lemma {:induction false} SeqJudged(es: Exprs, ctx: Ctx, at: nat, p: Pools, depth: nat, tail: bool)
    requires depth <= 512
    ensures Exact(CompSeq(es, ctx, at, p, depth + 1, tail), NeedSeq(es, ScopesOf(Some(ctx))), p, depth, tail)
    decreases es, 1
  {
    hide CompExpr, NeedExpr, ScopesOf;
    if es.More? {
      var last := es.tail.NoExprs?;
      ExprJudged(es.head, ctx, at, p, depth + 1, last && tail);
      var a := CompExpr(es.head, ctx, at, p, depth + 1, last && tail);
      if a.Ok? && !last {
        SeqJudged(es.tail, ctx, at + |a.value.code| + 1, a.value.p, depth, tail);
      }
    }
  }

  lemma {:induction false} ArgsJudged(es: Exprs, ctx: Ctx, at: nat, p: Pools, depth: nat)
    requires depth <= 512
    ensures Exact(CompArgs(es, ctx, at, p, depth + 1), NeedSeq(es, ScopesOf(Some(ctx))), p, depth, false)
    ensures Length(es) == Count(es)
    decreases es, 1
  {
    hide CompExpr, NeedExpr, ScopesOf;
    if es.More? {
      ExprJudged(es.head, ctx, at, p, depth + 1, false);
      var a := CompExpr(es.head, ctx, at, p, depth + 1, false);
      ArgsJudged(es.tail, ctx, at + if a.Ok? then |a.value.code| else 0, if a.Ok? then a.value.p else p, depth);
    }
  }

  lemma {:induction false} PartsJudged(es: Exprs, ctx: Ctx, at: nat, p: Pools, depth: nat, tail: bool, gap: nat)
    requires es.More? && depth <= 512
    ensures var r := CompParts(es, ctx, at, p, depth + 1, tail, gap);
      var n := NeedSeq(es, ScopesOf(Some(ctx)));
      Judged(r, n, p.slot, depth) && (r.Ok? && !tail ==> r.value.1.slot == p.slot + n.slots)
    decreases es, 1
  {
    hide CompExpr, NeedExpr, ScopesOf;
    var last := es.tail.NoExprs?;
    ExprJudged(es.head, ctx, at, p, depth + 1, last && tail);
    var a := CompExpr(es.head, ctx, at, p, depth + 1, last && tail);
    if a.Ok? && !last {
      PartsJudged(es.tail, ctx, at + |a.value.code| + gap, a.value.p, depth, tail, gap);
    }
  }

  lemma {:induction false} AndJudged(es: Exprs, ctx: Ctx, at: nat, p: Pools, depth: nat, tail: bool)
    requires depth <= 512
    ensures Exact(CompAnd(es, ctx, at, p, depth, tail), NeedSeq(es, ScopesOf(Some(ctx))), p, depth, tail)
    decreases es, 2
  {
    hide CompParts, ScopesOf;
    if es.More? {
      PartsJudged(es, ctx, at, p, depth, tail, AND_GAP);
    }
  }

  lemma {:induction false} OrJudged(es: Exprs, ctx: Ctx, at: nat, p: Pools, depth: nat, tail: bool)
    requires depth <= 512
    ensures Exact(CompOr(es, ctx, at, p, depth, tail), NeedSeq(es, ScopesOf(Some(ctx))), p, depth, tail)
    decreases es, 2
  {
    hide CompParts, ScopesOf;
    if es.More? {
      PartsJudged(es, ctx, at, p, depth, tail, OR_GAP);
    }
  }

  lemma {:induction false} WhenJudged(e: Expr, ctx: Ctx, at: nat, p: Pools, depth: nat, tail: bool)
    requires e.When? && depth <= 512
    ensures Exact(CompWhen(e.test, e.body, ctx, at, p, depth, tail), NeedExpr(e, ScopesOf(Some(ctx))), p, depth, tail)
    decreases e, 0
  {
    hide CompExpr, CompSeq, ScopesOf, BranchTo, JumpTo, Judged, NeedSeq, Then, Nested;
    var sc, r := ScopesOf(Some(ctx)), CompWhen(e.test, e.body, ctx, at, p, depth, tail);
    ExprJudged(e.test, ctx, at, p, depth + 1, false);
    var t := CompExpr(e.test, ctx, at, p, depth + 1, false);
    var b: Compiled := t;
    JudgedNested(t, NeedExpr(e.test, sc), p.slot, depth);
    if t.Ok? {
      SeqJudged(e.body, ctx, at + |t.value.code| + 5, t.value.p, depth, tail);
      b := CompSeq(e.body, ctx, at + |t.value.code| + 5, t.value.p, depth + 1, tail);
    }
    JudgedThen(t, b, r, Nested(NeedExpr(e.test, sc)), NeedSeq(e.body, sc), p.slot, depth);
  }

  lemma {:induction false} UnlessJudged(e: Expr, ctx: Ctx, at: nat, p: Pools, depth: nat, tail: bool)
    requires e.Unless? && depth <= 512
    ensures Exact(CompUnless(e.test, e.body, ctx, at, p, depth, tail), NeedExpr(e, ScopesOf(Some(ctx))), p, depth, tail)
    decreases e, 0
  {
    hide CompExpr, CompSeq, ScopesOf, BranchTo, JumpTo, Judged, NeedSeq, Then, Nested;
    var sc, r := ScopesOf(Some(ctx)), CompUnless(e.test, e.body, ctx, at, p, depth, tail);
    ExprJudged(e.test, ctx, at, p, depth + 1, false);
    var t := CompExpr(e.test, ctx, at, p, depth + 1, false);
    var b: Compiled := t;
    JudgedNested(t, NeedExpr(e.test, sc), p.slot, depth);
    if t.Ok? {
      var bodyAt, q := at + |t.value.code| + 5 + 5 + 5, EmitConst(t.value.p, CUnspecified).p;
      SeqJudged(e.body, ctx, bodyAt, q, depth, tail);
      b := CompSeq(e.body, ctx, bodyAt, q, depth + 1, tail);
    }
    JudgedThen(t, b, r, Nested(NeedExpr(e.test, sc)), NeedSeq(e.body, sc), p.slot, depth);
  }

  lemma {:induction false} DeclaredVisible(ctx: Ctx, x: string, slot: u8)
    ensures ScopesOf(Some(ctx.(locals := ctx.locals + [(x, slot)]))) == Visible(x, ScopesOf(Some(ctx)))
  {
    var locals := ctx.locals + [(x, slot)];
    assert forall i :: 0 <= i < |ctx.locals| ==> locals[i] == ctx.locals[i];
    assert locals[|ctx.locals|] == (x, slot);
    assert Names(locals) == Names(ctx.locals) + {x};
  }

  lemma {:induction false} BindingsJudged(bs: Bindings, ctx0: Ctx, ctx: Ctx, at: nat, p: Pools, depth: nat, star: bool)
    requires depth <= 512
    ensures var r := CompBindings(bs, ctx0, ctx, at, p, depth + 1, star);
      var n := NeedBindings(bs, ScopesOf(Some(ctx0)), ScopesOf(Some(ctx)), star);
      Judged(r, n, p.slot, depth)
      && (r.Ok? ==> r.value.1.slot == p.slot + n.slots
                    && ScopesOf(Some(r.value.2)) == AllVisible(bs, ScopesOf(Some(ctx))))
    decreases bs, 1
  {
    hide CompExpr, NeedExpr, ScopesOf, Visible, Then, Nested, Judged;
    var r := CompBindings(bs, ctx0, ctx, at, p, depth + 1, star);
    if bs.NoBindings? {
      NothingJudged(r, p.slot, depth);
    } else {
      var c := if star then ctx else ctx0;
      ExprJudged(bs.init, c, at, p, depth + 1, false);
      var a := CompExpr(bs.init, c, at, p, depth + 1, false);
      var n := NeedExpr(bs.init, ScopesOf(Some(c)));
      JudgedNested(a, n, p.slot, depth);
      var d: Result<u8, CompileError> :=
        if a.Err? then Err(a.error) else if a.value.p.slot == 255 then Err(TooManyLocals) else Ok(a.value.p.slot);
      JudgedSlot(a, d, Nested(n), p.slot, depth);
      var rest := r;
      if d.Ok? {
        DeclaredVisible(ctx, bs.x, d.value);
        var ctx' := ctx.(locals := ctx.locals + [(bs.x, d.value)]);
        var q := a.value.p.(slot := d.value + 1);
        BindingsJudged(bs.rest, ctx0, ctx', at + |a.value.code| + 1, q, depth, star);
        rest := CompBindings(bs.rest, ctx0, ctx', at + |a.value.code| + 1, q, depth + 1, star);
      }
      JudgedThen(d, rest, r, Nested(n).(slots := n.slots + 1),
                 NeedBindings(bs.rest, ScopesOf(Some(ctx0)), Visible(bs.x, ScopesOf(Some(ctx))), star), p.slot, depth);
    }
  }

  lemma {:induction false} NothingJudged<T>(r: Result<T, CompileError>, slot: nat, depth: nat)
    requires r.Ok? && slot <= 255 && depth <= 512
    ensures Judged(r, NOTHING, slot, depth)
  {
  }

  /** The slot that a variable takes. */
  lemma {:induction false} JudgedSlot(a: Compiled, d: Result<u8, CompileError>, n: Need, slot: nat, depth: nat)
    requires Judged(a, n, slot, depth) && (a.Ok? ==> a.value.p.slot == slot + n.slots)
    requires d == if a.Err? then Err(a.error) else if a.value.p.slot == 255 then Err(TooManyLocals)
                  else Ok(a.value.p.slot)
    ensures Judged(d, n.(slots := n.slots + 1), slot, depth)
  {
  }

  lemma {:induction false} LetJudged(e: Expr, ctx: Ctx, at: nat, p: Pools, depth: nat, tail: bool)
    requires (e.Let? || e.LetStar?) && depth <= 512
    ensures Exact(CompLet(e.bs, e.body, ctx, at, p, depth, tail, e.LetStar?), NeedExpr(e, ScopesOf(Some(ctx))), p,
                  depth, tail)
    decreases e, 0
  {
    hide CompBindings, CompSeq, ScopesOf, AllVisible, Judged, NeedSeq, NeedBindings, Then;
    var sc, r := ScopesOf(Some(ctx)), CompLet(e.bs, e.body, ctx, at, p, depth, tail, e.LetStar?);
    BindingsJudged(e.bs, ctx, ctx, at, p, depth, e.LetStar?);
    var c := CompBindings(e.bs, ctx, ctx, at, p, depth + 1, e.LetStar?);
    var b: Compiled := r;
    if c.Ok? {
      SeqJudged(e.body, c.value.2, at + |c.value.0|, c.value.1, depth, tail);
      b := CompSeq(e.body, c.value.2, at + |c.value.0|, c.value.1, depth + 1, tail);
    }
    JudgedThen(c, b, r, NeedBindings(e.bs, sc, sc, e.LetStar?), NeedSeq(e.body, AllVisible(e.bs, sc)), p.slot, depth);
  }

  lemma {:induction false} DeclaresAll(locals: Locals, names: seq<string>, slot: u8)
    ensures var r := DeclareAll(locals, names, slot);
      if slot + |names| <= 255
      then r.Ok? && Names(r.value.0) == Names(locals) + set x | x in names
      else r == Err(TooManyLocals)
    decreases names
  {
    if names != [] {
      if slot < 255 {
        var more := locals + [(names[0], slot)];
        assert forall i :: 0 <= i < |locals| ==> more[i] == locals[i];
        assert more[|locals|] == (names[0], slot);
        assert Names(more) == Names(locals) + {names[0]};
        assert names == [names[0]] + names[1..];
        DeclaresAll(more, names[1..], slot + 1);
      }
    } else {
      var none: set<string> := set x | x in names;
      assert Names(locals) + none == Names(locals);
    }
  }

  lemma {:induction false} FunctionJudged(formals: Formals, body: Exprs, ctx: Ctx, fns: seq<Chunk>, depth: nat,
        name: Option<string>, slot: u8)
    requires depth <= 512
    ensures Judged(CompFunction(formals, body, ctx, fns, depth, name), NeedFunction(formals, body, ScopesOf(Some(ctx))),
                   slot, depth)
    decreases body, 2
  {
    hide CompSeq, NeedSeq, Names;
    var names := formals.Names();
    assert formals.params + [] == formals.params;
    DeclaresAll([], names, 0);
    if |names| <= 255 {
      var locals := DeclareAll([], names, 0).value.0;
      assert Names([]) == {} by { NoNames(); }
      assert Names(locals) == set x | x in names;
      SeqJudged(body, Ctx(locals, Some(ctx)), 0, Pools([], fns, |names|), depth, true);
    }
  }

  lemma {:induction false} NoNames()
    ensures Names([]) == {}
  {
  }

  lemma {:induction false} TestsJudged(ts: Tests, ctx: Ctx, at: nat, p: Pools, mark: u8, depth: nat, tail: bool)
    requires mark <= p.slot && depth <= 512
    ensures var r := CompTests(ts, ctx, at, p, mark, depth, tail);
      var n := NeedTests(ts, ScopesOf(Some(ctx)));
      Judged(r, n, mark, depth) && (r.Ok? && !tail ==> MaxNeeds(r.value.0) == n.slots)
    decreases ts, 1
  {
    hide CompExpr, CompSeq, NeedExpr, NeedSeq, ScopesOf, BranchTo;
    var p0 := p.(slot := mark);
    match ts
    case NoTests =>
    case ElseTests(body) => SeqJudged(body, ctx, at, p0, depth, tail);
    case Test(_, _, _) => TestJudged(ts, ctx, at, p, mark, depth, tail);
    case Arrow(_, _, _) => ArrowJudged(ts, ctx, at, p, mark, depth, tail);
  }

  lemma {:induction false} TestJudged(ts: Tests, ctx: Ctx, at: nat, p: Pools, mark: u8, depth: nat, tail: bool)
    requires ts.Test? && mark <= p.slot && depth <= 512
    ensures var r := CompTests(ts, ctx, at, p, mark, depth, tail);
      var n := NeedTests(ts, ScopesOf(Some(ctx)));
      Judged(r, n, mark, depth) && (r.Ok? && !tail ==> MaxNeeds(r.value.0) == n.slots)
    decreases ts, 0
  {
    hide CompExpr, CompSeq, NeedExpr, NeedSeq, ScopesOf, BranchTo, Judged, Then, Either, Nested;
    var sc, r, p0 := ScopesOf(Some(ctx)), CompTests(ts, ctx, at, p, mark, depth, tail), p.(slot := mark);
    ExprJudged(ts.test, ctx, at, p0, depth + 1, false);
    var t := CompExpr(ts.test, ctx, at, p0, depth + 1, false);
    JudgedNested(t, NeedExpr(ts.test, sc), mark, depth);
    var b, both, rest := t, t, r;
    if t.Ok? {
      SeqJudged(ts.body, ctx, at + |t.value.code| + 5, t.value.p, depth, tail);
      b := CompSeq(ts.body, ctx, at + |t.value.code| + 5, t.value.p, depth + 1, tail);
      both := b;
      if b.Ok? {
        var skip := at + |t.value.code| + 5 + |b.value.code| + 5;
        TestsJudged(ts.rest, ctx, skip, b.value.p, mark, depth, tail);
        rest := CompTests(ts.rest, ctx, skip, b.value.p, mark, depth, tail);
      }
    }
    JudgedThen(t, b, both, Nested(NeedExpr(ts.test, sc)), NeedSeq(ts.body, sc), mark, depth);
    JudgedEither(both, rest, r, Then(Nested(NeedExpr(ts.test, sc)), NeedSeq(ts.body, sc)), NeedTests(ts.rest, sc), mark,
                 depth);
    if r.Ok? {
      FirstNeeds(r.value.0);
    }
  }

  lemma {:induction false} FirstNeeds(parts: seq<Compile.Part>)
    ensures parts != [] ==> MaxNeeds(parts) == Larger(parts[0].needs, MaxNeeds(parts[1..]))
  {
  }

  lemma {:induction false} ArrowJudged(ts: Tests, ctx: Ctx, at: nat, p: Pools, mark: u8, depth: nat, tail: bool)
    requires ts.Arrow? && mark <= p.slot && depth <= 512
    ensures var r := CompTests(ts, ctx, at, p, mark, depth, tail);
      var n := NeedTests(ts, ScopesOf(Some(ctx)));
      Judged(r, n, mark, depth) && (r.Ok? && !tail ==> MaxNeeds(r.value.0) == n.slots)
    decreases ts, 0
  {
    hide CompExpr, CompSeq, NeedExpr, NeedSeq, ScopesOf, BranchTo, Judged, Then, Either, Nested;
    var sc, r, p0 := ScopesOf(Some(ctx)), CompTests(ts, ctx, at, p, mark, depth, tail), p.(slot := mark);
    ExprJudged(ts.test, ctx, at, p0, depth + 1, false);
    var t := CompExpr(ts.test, ctx, at, p0, depth + 1, false);
    var nt, nf := Nested(NeedExpr(ts.test, sc)), NeedExpr(ts.receiver, sc);
    JudgedNested(t, NeedExpr(ts.test, sc), mark, depth);
    var f, both, rest := t, t, r;
    if t.Ok? {
      var recvAt := at + |t.value.code| + 6;
      ExprJudged(ts.receiver, ctx, recvAt, t.value.p, depth + 1, false);
      f := CompExpr(ts.receiver, ctx, recvAt, t.value.p, depth + 1, false);
      JudgedNested(f, nf, t.value.p.slot, depth);
      both := f;
      if f.Ok? {
        var next := recvAt + |f.value.code| + 3 + 5 + 1;
        TestsJudged(ts.rest, ctx, next, f.value.p, mark, depth, tail);
        rest := CompTests(ts.rest, ctx, next, f.value.p, mark, depth, tail);
      }
    }
    JudgedThen(t, f, both, nt, Nested(nf), mark, depth);
    JudgedEither(both, rest, r, Then(nt, Nested(nf)), NeedTests(ts.rest, sc), mark, depth);
    NestedSlots(nf);
    if r.Ok? {
      FirstNeeds(r.value.0);
    }
  }

  lemma {:induction false} NestedSlots(n: Need)
    ensures Nested(n).slots == n.slots
  {
  }

  lemma {:induction false} CondJudged(ts: Tests, ctx: Ctx, at: nat, p: Pools, depth: nat, tail: bool)
    requires depth <= 512
    ensures Exact(CompCond(ts, ctx, at, p, depth, tail), NeedTests(ts, ScopesOf(Some(ctx))), p, depth, tail)
    decreases ts, 2
  {
    hide CompTests, Select, ScopesOf, NeedTests, Within, Blames, MaxNeeds;
    TestsJudged(ts, ctx, at, p, p.slot, depth, tail);
  }

  lemma {:induction false} ClausesJudged(cs: Clauses, ctx: Ctx, at: nat, p: Pools, mark: u8, depth: nat, tail: bool)
    requires mark <= p.slot && depth <= 512
    ensures var r := CompClauses(cs, ctx, at, p, mark, depth, tail);
      var n := NeedClauses(cs, ScopesOf(Some(ctx)));
      Judged(r, n, mark, depth) && (r.Ok? && !tail ==> MaxNeeds(r.value.0) == n.slots)
    decreases cs, 1
  {
    hide CompSeq, NeedSeq, ScopesOf, BranchTo, CompData;
    var p0 := p.(slot := mark);
    match cs
    case NoClauses =>
    case ElseClauses(body) => SeqJudged(body, ctx, at + 1, p0, depth, tail);
    case Clause(data, body, rest) =>
      var bodyAt := at + DATUM_TEST * |data| + 5;
      var d := CompData(data, at, p0, bodyAt);
      SeqJudged(body, ctx, bodyAt + 1, d.p, depth, tail);
      var b := CompSeq(body, ctx, bodyAt + 1, d.p, depth + 1, tail);
      if b.Ok? {
        ClausesJudged(rest, ctx, bodyAt + 1 + |b.value.code| + 5, b.value.p, mark, depth, tail);
      }
  }

  lemma {:induction false} CaseJudged(e: Expr, ctx: Ctx, at: nat, p: Pools, depth: nat, tail: bool)
    requires e.Case? && depth <= 512
    ensures Exact(CompCase(e.key, e.clauses, ctx, at, p, depth, tail), NeedExpr(e, ScopesOf(Some(ctx))), p, depth, tail)
    decreases e, 0
  {
    hide CompExpr, CompClauses, Select, ScopesOf;
    ExprJudged(e.key, ctx, at, p, depth + 1, false);
    var k := CompExpr(e.key, ctx, at, p, depth + 1, false);
    if k.Ok? {
      ClausesJudged(e.clauses, ctx, at + |k.value.code|, k.value.p, k.value.p.slot, depth, tail);
    }
  }

  lemma {:induction false} AppJudged(e: Expr, ctx: Ctx, at: nat, p: Pools, depth: nat, tail: bool)
    requires e.App? && depth <= 512
    ensures Exact(CompApp(e.f, e.args, ctx, at, p, depth, tail), NeedExpr(e, ScopesOf(Some(ctx))), p, depth, tail)
    decreases e, 0
  {
    hide CompExpr, CompArgs, ScopesOf;
    ExprJudged(e.f, ctx, at, p, depth + 1, false);
    var c := CompExpr(e.f, ctx, at, p, depth + 1, false);
    if c.Ok? {
      ArgsJudged(e.args, ctx, at + |c.value.code|, c.value.p, depth);
    }
  }

  lemma {:induction false} FormsJudged(forms: Exprs, at: nat, p: Pools)
    ensures Exact(CompForms(forms, at, p), NeedForms(forms), p, 0, false)
    decreases forms
  {
    hide CompExpr, NeedExpr;
    if forms.More? {
      TopLevelScope();
      ExprJudged(forms.head, Ctx([], None), at, p, 0, false);
      var a := CompExpr(forms.head, Ctx([], None), at, p, 0, false);
      if a.Ok? {
        FormsJudged(forms.tail, at + |a.value.code| + 1, a.value.p);
      }
    }
  }

  lemma {:induction false} TopLevelScope()
    ensures ScopesOf(Some(Ctx([], None))) == [{}]
  {
    NoNames();
  }

  /**
   A program compiles if and only if no call has more than 255 arguments, no form is nested
   deeper than 512, no function takes more than 255 slots, and no name is looked for in more
   than 255 functions before the one that binds it.  If it does not, the error is about a
   limit that is exceeded.
   */
  lemma {:induction false} CompilesWhen(forms: Exprs)
    ensures var n := NeedForms(forms);
      CompProgram(forms).Ok?
      <==> n.args <= 255 && n.nest <= 512 && n.slots <= 255 && n.inner <= 255 && n.far <= 255
    ensures var n := NeedForms(forms);
      match CompProgram(forms)
      case Ok(_) => true
      case Err(TooManyArguments) => n.args > 255
      case Err(NestingTooDeep) => n.nest > 512
      case Err(TooManyLocals) => n.slots > 255 || n.inner > 255
      case Err(UpvalueTooDeep) => n.far > 255
  {
    hide CompForms, NeedForms;
    FormsJudged(forms, 0, Pools([], [], 0));
  }
}
