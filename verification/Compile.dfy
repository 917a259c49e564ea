/**
 The compiler as a function: what bytes it appends, and what it adds to the pools.

 `at` is the offset in the chunk where the emitted bytes will sit.  Every jump target
 is written with its final value: the number that the back-patching compiler stores
 once it reaches the target.
 */
module Compile {
  import opened Prelude
  import opened Data
  import opened Syntax
  import opened Instr

  const MAX_NESTING_DEPTH: nat := 512

  datatype CompileError = NestingTooDeep | TooManyLocals | UpvalueTooDeep | TooManyArguments

  datatype Chunk = Chunk(code: seq<byte>, consts: seq<Data.Const>, arity: nat, hasRest: bool, name: Option<string>)

  type Locals = seq<(string, u8)>

  /** Names visible in the function being compiled, and the function around it. */
  datatype Ctx = Ctx(locals: Locals, parent: Option<Ctx>)

  /** The growing constant pool and function table, and the shared slot counter. */
  datatype Pools = Pools(consts: seq<Data.Const>, fns: seq<Chunk>, slot: u8)

  datatype Emitted = Emitted(code: seq<byte>, p: Pools)

  type Compiled = Result<Emitted, CompileError>

  /** Pools and slot counter only grow. */
  predicate Grown(p: Pools, q: Pools) {
    p.consts <= q.consts && p.fns <= q.fns && p.slot <= q.slot
  }

  function ResolveLocal(locals: Locals, x: string): Option<u8> {
    if locals == [] then None
    else if locals[|locals| - 1].0 == x then Some(locals[|locals| - 1].1)
    else ResolveLocal(locals[..|locals| - 1], x)
  }

  /** Walks outward; fails after 255 levels even when no further level exists. */
  function ResolveUpvalue(c: Option<Ctx>, x: string, depth: u8): Result<Option<(u8, u8)>, CompileError>
    decreases c
  {
    match c
    case None => Ok(None)
    case Some(ctx) =>
      match ResolveLocal(ctx.locals, x)
      case Some(slot) => Ok(Some((depth, slot)))
      case None => if depth == 255 then Err(UpvalueTooDeep) else ResolveUpvalue(ctx.parent, x, depth + 1)
  }

  datatype Place = Local(slot: u8) | Upvalue(depth: u8, slot: u8) | Global

  function Resolve(ctx: Ctx, x: string): Result<Place, CompileError> {
    match ResolveLocal(ctx.locals, x)
    case Some(slot) => Ok(Local(slot))
    case None =>
      var u :- ResolveUpvalue(ctx.parent, x, 1);
      Ok(if u.Some? then Upvalue(u.value.0, u.value.1) else Global)
  }

  function Declare(locals: Locals, x: string, slot: u8): Result<(Locals, u8), CompileError> {
    if slot == 255 then Err(TooManyLocals) else Ok((locals + [(x, slot)], slot + 1))
  }

  function DeclareAll(locals: Locals, names: seq<string>, slot: u8): (r: Result<(Locals, u8), CompileError>)
    ensures r.Ok? ==> r.value.1 == slot + |names|
    decreases names
  {
    if names == [] then Ok((locals, slot))
    else
      var (locals', slot') :- Declare(locals, names[0], slot);
      DeclareAll(locals', names[1..], slot')
  }

  function AddConst(p: Pools, c: Data.Const): Pools {
    p.(consts := p.consts + [c])
  }

  function NextConst(p: Pools): u32 {
    AsU32(|p.consts|)
  }

  function EmitConst(p: Pools, c: Data.Const): (r: Emitted)
    ensures |r.code| == 5
  {
    Emitted(Enc(Const(NextConst(p))), AddConst(p, c))
  }

  function JumpTo(target: nat): (code: seq<byte>)
    ensures |code| == 5
  {
    Enc(Jump(AsU32(target)))
  }

  function BranchTo(target: nat): (code: seq<byte>)
    ensures |code| == 5
  {
    Enc(JumpIfFalse(AsU32(target)))
  }

  function Max(a: u8, b: u8): u8 {
    if a < b then b else a
  }

  /** Tops the locals up to `target` slots with placeholders. */
  function Pad(p: Pools, target: u8): (r: Emitted)
    ensures Grown(p, r.p) && r.p.fns == p.fns && r.p.slot == Max(p.slot, target)
    ensures |r.code| == 6 * (r.p.slot - p.slot)
    decreases target - p.slot
  {
    if p.slot >= target then Emitted([], p)
    else
      var c := EmitConst(p, CUnspecified);
      var rest := Pad(c.p.(slot := p.slot + 1), target);
      Emitted(c.code + Enc(PushLocal) + rest.code, rest.p)
  }

  /** Padding is emitted only when code of the same body follows. */
  function PadUnlessTail(p: Pools, target: u8, tail: bool): (r: Emitted)
    ensures Grown(p, r.p) && r.p.fns == p.fns
    ensures r.p.slot == if tail then p.slot else Max(p.slot, target)
    ensures |r.code| == 6 * (r.p.slot - p.slot)
  {
    if tail then Emitted([], p) else Pad(p, target)
  }

  function CompExpr(e: Expr, ctx: Ctx, at: nat, p: Pools, depth: nat, tail: bool): (r: Compiled)
    ensures r.Ok? ==> Grown(p, r.value.p)
    decreases e, 1
  {
    if depth > MAX_NESTING_DEPTH then Err(NestingTooDeep)
    else
      match e
      case Lit(c) => Ok(EmitConst(p, c))
      case Var(x) => CompVar(x, ctx, p)
      case SetVar(x, e1) => CompSet(x, e1, ctx, at, p, depth)
      case Define(x, e1) => CompDefine(x, e1, ctx, at, p, depth)
      case If(test, thn, els) => CompIf(test, thn, els, ctx, at, p, depth, tail)
      case Begin(es) => CompSeq(es, ctx, at, p, depth + 1, tail)
      case And(es) => CompAnd(es, ctx, at, p, depth, tail)
      case Or(es) => CompOr(es, ctx, at, p, depth, tail)
      case When(test, body) => CompWhen(test, body, ctx, at, p, depth, tail)
      case Unless(test, body) => CompUnless(test, body, ctx, at, p, depth, tail)
      case Let(bs, body) => CompLet(bs, body, ctx, at, p, depth, tail, false)
      case LetStar(bs, body) => CompLet(bs, body, ctx, at, p, depth, tail, true)
      case Cond(tests) => CompCond(tests, ctx, at, p, depth, tail)
      case Case(key, clauses) => CompCase(key, clauses, ctx, at, p, depth, tail)
      case Lambda(formals, body) =>
        var (fn, fns) :- CompFunction(formals, body, ctx, p.fns, depth, None);
        Ok(Emitted(Enc(MakeFunction(fn)), p.(fns := fns)))
      case App(f, args) => CompApp(f, args, ctx, at, p, depth, tail)
  }

  function CompSet(x: string, e: Expr, ctx: Ctx, at: nat, p: Pools, depth: nat): (r: Compiled)
    ensures r.Ok? ==> Grown(p, r.value.p)
    decreases e, 2
  {
    var a :- CompExpr(e, ctx, at, p, depth + 1, false);
    var w :- CompAssign(x, ctx, a.p);
    Ok(Emitted(a.code + w.code, w.p))
  }

  /** A `define` of a `lambda` compiles the function directly so that it keeps its name. */
  function CompDefine(x: string, e: Expr, ctx: Ctx, at: nat, p: Pools, depth: nat): (r: Compiled)
    ensures r.Ok? ==> Grown(p, r.value.p)
    decreases e, 2
  {
    var a :- if e.Lambda? then
               var (fn, fns) :- CompFunction(e.formals, e.body, ctx, p.fns, depth, Some(x));
               Ok(Emitted(Enc(MakeFunction(fn)), p.(fns := fns)))
             else CompExpr(e, ctx, at, p, depth + 1, false);
    Ok(Emitted(a.code + Enc(DefGlobal(NextConst(a.p))), AddConst(a.p, CSymbol(x))))
  }

  function CompAnd(es: Exprs, ctx: Ctx, at: nat, p: Pools, depth: nat, tail: bool): (r: Compiled)
    ensures r.Ok? ==> Grown(p, r.value.p)
    decreases es, 1
  {
    if es.NoExprs? then Ok(EmitConst(p, CBool(true)))
    else
      var (parts, q) :- CompParts(es, ctx, at, p, depth + 1, tail, AND_GAP);
      Ok(Emitted(GlueAnd(parts, at + GluedLen(parts, AND_GAP)), q))
  }

  function CompOr(es: Exprs, ctx: Ctx, at: nat, p: Pools, depth: nat, tail: bool): (r: Compiled)
    ensures r.Ok? ==> Grown(p, r.value.p)
    decreases es, 1
  {
    if es.NoExprs? then Ok(EmitConst(p, CBool(false)))
    else
      var (parts, q) :- CompParts(es, ctx, at, p, depth + 1, tail, OR_GAP);
      Ok(Emitted(GlueOr(parts, at, at + GluedLen(parts, OR_GAP)), q))
  }

  function CompWhen(test: Expr, body: Exprs, ctx: Ctx, at: nat, p: Pools, depth: nat, tail: bool): (r: Compiled)
    ensures r.Ok? ==> Grown(p, r.value.p)
    decreases When(test, body), 0
  {
    var t :- CompExpr(test, ctx, at, p, depth + 1, false);
    var b :- CompSeq(body, ctx, at + |t.code| + 5, t.p, depth + 1, tail);
    var u := EmitConst(b.p, CUnspecified);
    var elseAt := at + |t.code| + 5 + |b.code| + 5;
    Ok(Emitted(t.code + BranchTo(elseAt) + b.code + JumpTo(elseAt + 5) + u.code, u.p))
  }

  function CompUnless(test: Expr, body: Exprs, ctx: Ctx, at: nat, p: Pools, depth: nat, tail: bool): (r: Compiled)
    ensures r.Ok? ==> Grown(p, r.value.p)
    decreases Unless(test, body), 0
  {
    var t :- CompExpr(test, ctx, at, p, depth + 1, false);
    var u := EmitConst(t.p, CUnspecified);
    var bodyAt := at + |t.code| + 5 + 5 + 5;
    var b :- CompSeq(body, ctx, bodyAt, u.p, depth + 1, tail);
    Ok(Emitted(t.code + BranchTo(bodyAt) + u.code + JumpTo(bodyAt + |b.code|) + b.code, b.p))
  }

  function CompLet(bs: Bindings, body: Exprs, ctx: Ctx, at: nat, p: Pools, depth: nat, tail: bool, star: bool):
      (r: Compiled)
    ensures r.Ok? ==> Grown(p, r.value.p)
    decreases if star then LetStar(bs, body) else Let(bs, body), 0
  {
    var (c, q, ext) :- CompBindings(bs, ctx, ctx, at, p, depth + 1, star);
    var b :- CompSeq(body, ext, at + |c|, q, depth + 1, tail);
    Ok(Emitted(c + b.code, b.p))
  }

  function CompCond(tests: Tests, ctx: Ctx, at: nat, p: Pools, depth: nat, tail: bool): (r: Compiled)
    ensures r.Ok? ==> Grown(p, r.value.p)
    decreases tests, 1
  {
    var (parts, q) :- CompTests(tests, ctx, at, p, p.slot, depth, tail);
    Ok(Select(parts, at, q, p.slot, tail, []))
  }

  function CompCase(key: Expr, clauses: Clauses, ctx: Ctx, at: nat, p: Pools, depth: nat, tail: bool): (r: Compiled)
    ensures r.Ok? ==> Grown(p, r.value.p)
    decreases Case(key, clauses), 0
  {
    var k :- CompExpr(key, ctx, at, p, depth + 1, false);
    var (parts, q) :- CompClauses(clauses, ctx, at + |k.code|, k.p, k.p.slot, depth, tail);
    var sel := Select(parts, at + |k.code|, q, k.p.slot, tail, Enc(Pop));
    Ok(Emitted(k.code + sel.code, sel.p))
  }

  function CompApp(f: Expr, args: Exprs, ctx: Ctx, at: nat, p: Pools, depth: nat, tail: bool): (r: Compiled)
    ensures r.Ok? ==> Grown(p, r.value.p)
    decreases App(f, args), 0
  {
    var c :- CompExpr(f, ctx, at, p, depth + 1, false);
    var a :- CompArgs(args, ctx, at + |c.code|, c.p, depth + 1);
    if Count(args) > 255 then Err(TooManyArguments)
    else
      var call := if tail then TailCall(Count(args)) else Call(Count(args));
      Ok(Emitted(c.code + a.code + Enc(call), a.p))
  }

  function CompVar(x: string, ctx: Ctx, p: Pools): (r: Compiled)
    ensures r.Ok? ==> Grown(p, r.value.p)
  {
    var place :- Resolve(ctx, x);
    match place
    case Local(slot) => Ok(Emitted(Enc(GetLocal(slot)), p))
    case Upvalue(d, slot) => Ok(Emitted(Enc(GetUpvalue(d, slot)), p))
    case Global => Ok(Emitted(Enc(GetGlobal(NextConst(p))), AddConst(p, CSymbol(x))))
  }

  function CompAssign(x: string, ctx: Ctx, p: Pools): (r: Compiled)
    ensures r.Ok? ==> Grown(p, r.value.p)
  {
    var place :- Resolve(ctx, x);
    match place
    case Local(slot) => Ok(Emitted(Enc(SetLocal(slot)), p))
    case Upvalue(d, slot) => Ok(Emitted(Enc(SetUpvalue(d, slot)), p))
    case Global => Ok(Emitted(Enc(SetGlobal(NextConst(p))), AddConst(p, CSymbol(x))))
  }

  /** The pieces of an `if`, and the offsets its jumps lead to. */
  datatype IfCode = IfCode(test: Emitted, thn: Emitted, els: Emitted, padElse: Emitted, padThen: Emitted,
                           elseAt: nat, padAt: nat, end: nat)

  function CompIf(test: Expr, thn: Expr, els: Option<Expr>, ctx: Ctx, at: nat, p: Pools, depth: nat, tail: bool):
      (r: Compiled)
    ensures r.Ok? ==> Grown(p, r.value.p)
    decreases If(test, thn, els), 0
  {
    var i :- IfPieces(test, thn, els, ctx, at, p, depth, tail);
    Ok(Emitted(i.test.code + BranchTo(i.elseAt) + i.thn.code + JumpTo(i.padAt)
               + i.els.code + i.padElse.code + JumpTo(i.end) + i.padThen.code, i.padThen.p))
  }

  /** Both branches start from the same slot mark; each is padded up to the larger of their needs. */
  function IfPieces(test: Expr, thn: Expr, els: Option<Expr>, ctx: Ctx, at: nat, p: Pools, depth: nat, tail: bool):
      (r: Result<IfCode, CompileError>)
    ensures r.Ok? ==> Grown(p, r.value.test.p) && Grown(r.value.test.p, r.value.thn.p)
    ensures r.Ok? ==> Grown(r.value.thn.p.(slot := r.value.test.p.slot), r.value.els.p)
    ensures r.Ok? ==> Grown(r.value.els.p, r.value.padElse.p) && r.value.thn.p.slot <= r.value.padThen.p.slot
    ensures r.Ok? ==>
      r.value.padElse.p.consts <= r.value.padThen.p.consts && r.value.padElse.p.fns <= r.value.padThen.p.fns
    decreases If(test, thn, els), 0, 0
  {
    var c :- CompExpr(test, ctx, at, p, depth + 1, false);
    var mark := c.p.slot;
    var t :- CompExpr(thn, ctx, at + |c.code| + 5, c.p, depth + 1, tail);
    var elseAt := at + |c.code| + 5 + |t.code| + 5;
    var e :- CompElse(els, ctx, elseAt, t.p.(slot := mark), depth + 1, tail);
    var target := Max(t.p.slot, e.p.slot);
    var padElse := PadUnlessTail(e.p, target, tail);
    var padThenAt := elseAt + |e.code| + |padElse.code| + 5;
    var padThen := PadUnlessTail(padElse.p.(slot := t.p.slot), target, tail);
    Ok(IfCode(c, t, e, padElse, padThen, elseAt, padThenAt, padThenAt + |padThen.code|))
  }

  function CompElse(els: Option<Expr>, ctx: Ctx, at: nat, p: Pools, depth: nat, tail: bool): (r: Compiled)
    ensures r.Ok? ==> Grown(p, r.value.p)
    decreases els, 2
  {
    if els.Some? then CompExpr(els.value, ctx, at, p, depth, tail) else Ok(EmitConst(p, CUnspecified))
  }

  function CompSeq(es: Exprs, ctx: Ctx, at: nat, p: Pools, depth: nat, tail: bool): (r: Compiled)
    ensures r.Ok? ==> Grown(p, r.value.p)
    decreases es, 0
  {
    match es
    case NoExprs => Ok(EmitConst(p, CUnspecified))
    case More(e, NoExprs) => CompExpr(e, ctx, at, p, depth, tail)
    case More(e, rest) =>
      var a :- CompExpr(e, ctx, at, p, depth, false);
      var b :- CompSeq(rest, ctx, at + |a.code| + 1, a.p, depth, tail);
      Ok(Emitted(a.code + Enc(Pop) + b.code, b.p))
  }

  function CompArgs(es: Exprs, ctx: Ctx, at: nat, p: Pools, depth: nat): (r: Compiled)
    ensures r.Ok? ==> Grown(p, r.value.p)
    decreases es, 0
  {
    match es
    case NoExprs => Ok(Emitted([], p))
    case More(e, rest) =>
      var a :- CompExpr(e, ctx, at, p, depth, false);
      var b :- CompArgs(rest, ctx, at + |a.code|, a.p, depth);
      Ok(Emitted(a.code + b.code, b.p))
  }

  /** `let` inits see `ctx`; `let*` inits see the bindings before them. */
  function CompBindings(bs: Bindings, ctx: Ctx, ext: Ctx, at: nat, p: Pools, depth: nat, star: bool):
      (r: Result<(seq<byte>, Pools, Ctx), CompileError>)
    ensures r.Ok? ==> Grown(p, r.value.1)
    decreases bs, 0
  {
    match bs
    case NoBindings => Ok(([], p, ext))
    case Bind(x, init, rest) =>
      var a :- CompExpr(init, if star then ext else ctx, at, p, depth, false);
      var (locals, slot) :- Declare(ext.locals, x, a.p.slot);
      var (c, q, ext') :- CompBindings(rest, ctx, ext.(locals := locals), at + |a.code| + 1,
                                       a.p.(slot := slot), depth, star);
      Ok((a.code + Enc(PushLocal) + c, q, ext'))
  }

  function CompFunction(formals: Formals, body: Exprs, ctx: Ctx, fns: seq<Chunk>, depth: nat, name: Option<string>):
      (r: Result<(u32, seq<Chunk>), CompileError>)
    ensures r.Ok? ==> fns <= r.value.1
    decreases body, 1
  {
    var (locals, slot) :- DeclareAll([], formals.Names(), 0);
    var b :- CompSeq(body, Ctx(locals, Some(ctx)), 0, Pools([], fns, slot), depth + 1, true);
    var chunk := Chunk(b.code + Enc(Return), b.p.consts, |formals.params|, formals.rest.Some?, name);
    Ok((AsU32(|b.p.fns|), b.p.fns + [chunk]))
  }

  // ----- and / or -----

  const AND_GAP: nat := 7
  const OR_GAP: nat := 12

  /** The operands' code, leaving room for the test after each operand but the last. */
  function CompParts(es: Exprs, ctx: Ctx, at: nat, p: Pools, depth: nat, tail: bool, gap: nat):
      (r: Result<(seq<seq<byte>>, Pools), CompileError>)
    requires es.More?
    ensures r.Ok? ==> r.value.0 != [] && Grown(p, r.value.1)
    decreases es, 0
  {
    if es.tail.NoExprs? then
      var a :- CompExpr(es.head, ctx, at, p, depth, tail);
      Ok(([a.code], a.p))
    else
      var a :- CompExpr(es.head, ctx, at, p, depth, false);
      var (parts, q) :- CompParts(es.tail, ctx, at + |a.code| + gap, a.p, depth, tail, gap);
      Ok(([a.code] + parts, q))
  }

  function GluedLen(parts: seq<seq<byte>>, gap: nat): nat {
    if parts == [] then 0
    else if |parts| == 1 then |parts[0]|
    else |parts[0]| + gap + GluedLen(parts[1..], gap)
  }

  function GlueAnd(parts: seq<seq<byte>>, end: nat): (code: seq<byte>)
    ensures |code| == GluedLen(parts, AND_GAP)
  {
    if parts == [] then []
    else if |parts| == 1 then parts[0]
    else parts[0] + (Enc(Dup) + BranchTo(end) + Enc(Pop)) + GlueAnd(parts[1..], end)
  }

  function GlueOr(parts: seq<seq<byte>>, at: nat, end: nat): (code: seq<byte>)
    ensures |code| == GluedLen(parts, OR_GAP)
  {
    if parts == [] then []
    else if |parts| == 1 then parts[0]
    else
      var popAt := at + |parts[0]| + 1 + 5 + 5;
      parts[0] + (Enc(Dup) + BranchTo(popAt) + JumpTo(end) + Enc(Pop)) + GlueOr(parts[1..], popAt + 1, end)
  }

  // ----- cond / case -----

  /** A clause: its code up to the final jump, what follows that jump, and the slots it used. */
  datatype Part = Part(pre: seq<byte>, post: seq<byte>, needs: u8)

  type Parts = Result<(seq<Part>, Pools), CompileError>

  function CompTests(ts: Tests, ctx: Ctx, at: nat, p: Pools, mark: u8, depth: nat, tail: bool): (r: Parts)
    requires mark <= p.slot
    ensures r.Ok? ==> Grown(p.(slot := mark), r.value.1)
    ensures r.Ok? ==> forall i :: 0 <= i < |r.value.0| ==> mark + r.value.0[i].needs < 256
    decreases ts, 0
  {
    var p0 := p.(slot := mark);
    match ts
    case NoTests => Ok(([], p0))
    case ElseTests(body) =>
      var b :- CompSeq(body, ctx, at, p0, depth + 1, tail);
      Ok(([Part(b.code, [], b.p.slot - mark)], b.p))
    case Test(test, body, rest) =>
      var t :- CompExpr(test, ctx, at, p0, depth + 1, false);
      var b :- CompSeq(body, ctx, at + |t.code| + 5, t.p, depth + 1, tail);
      var skip := at + |t.code| + 5 + |b.code| + 5;
      var (parts, q) :- CompTests(rest, ctx, skip, b.p, mark, depth, tail);
      Ok(([Part(t.code + BranchTo(skip) + b.code, [], b.p.slot - mark)] + parts, q))
    case Arrow(test, receiver, rest) =>
      var t :- CompExpr(test, ctx, at, p0, depth + 1, false);
      var f :- CompExpr(receiver, ctx, at + |t.code| + 6, t.p, depth + 1, false);
      var call := Enc(Swap) + Enc(if tail then TailCall(1) else Call(1));
      var skip := at + |t.code| + 6 + |f.code| + 3 + 5;
      var (parts, q) :- CompTests(rest, ctx, skip + 1, f.p, mark, depth, tail);
      Ok(([Part(t.code + (Enc(Dup) + BranchTo(skip)) + f.code + call, Enc(Pop), f.p.slot - mark)] + parts, q))
  }

  const DATUM_TEST: nat := 17

  /** One DUP / CONST / EQV test per literal; a match jumps to `found`. */
  function CompData(data: seq<Data.Const>, at: nat, p: Pools, found: nat): (r: Emitted)
    ensures Grown(p, r.p) && r.p.fns == p.fns && r.p.slot == p.slot
    ensures |r.code| == DATUM_TEST * |data|
  {
    if data == [] then Emitted([], p)
    else
      var c := EmitConst(p, data[0]);
      var rest := CompData(data[1..], at + DATUM_TEST, c.p, found);
      Emitted((Enc(Dup) + c.code + Enc(Eqv) + BranchTo(at + DATUM_TEST) + JumpTo(found)) + rest.code, rest.p)
  }

  function CompClauses(cs: Clauses, ctx: Ctx, at: nat, p: Pools, mark: u8, depth: nat, tail: bool): (r: Parts)
    requires mark <= p.slot
    ensures r.Ok? ==> Grown(p.(slot := mark), r.value.1)
    ensures r.Ok? ==> forall i :: 0 <= i < |r.value.0| ==> mark + r.value.0[i].needs < 256
    decreases cs, 0
  {
    var p0 := p.(slot := mark);
    match cs
    case NoClauses => Ok(([], p0))
    case ElseClauses(body) =>
      var b :- CompSeq(body, ctx, at + 1, p0, depth + 1, tail);
      Ok(([Part(Enc(Pop) + b.code, [], b.p.slot - mark)], b.p))
    case Clause(data, body, rest) =>
      var bodyAt := at + DATUM_TEST * |data| + 5;
      var d := CompData(data, at, p0, bodyAt);
      var b :- CompSeq(body, ctx, bodyAt + 1, d.p, depth + 1, tail);
      var next := bodyAt + 1 + |b.code| + 5;
      var (parts, q) :- CompClauses(rest, ctx, next, b.p, mark, depth, tail);
      Ok(([Part(d.code + JumpTo(next) + Enc(Pop) + b.code, [], b.p.slot - mark)] + parts, q))
  }

  function MaxNeeds(parts: seq<Part>): (m: u8)
    ensures forall i :: 0 <= i < |parts| ==> parts[i].needs <= m
  {
    if parts == [] then 0 else Max(parts[0].needs, MaxNeeds(parts[1..]))
  }

  function PartsLen(parts: seq<Part>): nat {
    if parts == [] then 0 else |parts[0].pre| + 5 + |parts[0].post| + PartsLen(parts[1..])
  }

  /** The size of one clause's padding stub and its jump out. */
  function StubLen(needs: u8, target: u8, tail: bool): nat {
    (if tail || target <= needs then 0 else 6 * (target - needs)) + 5
  }

  function StubsLen(parts: seq<Part>, target: u8, tail: bool): nat {
    if parts == [] then 0 else StubLen(parts[0].needs, target, tail) + StubsLen(parts[1..], target, tail)
  }

  /** The clauses one after the other, each jumping to its own stub. */
  function JoinParts(parts: seq<Part>, stubAt: nat, target: u8, tail: bool): (code: seq<byte>)
    ensures |code| == PartsLen(parts)
  {
    if parts == [] then []
    else parts[0].pre + JumpTo(stubAt) + parts[0].post
         + JoinParts(parts[1..], stubAt + StubLen(parts[0].needs, target, tail), target, tail)
  }

  /** The stubs, in clause order, each padding its clause up to `mark + target` and jumping to `end`. */
  function Stubs(parts: seq<Part>, p: Pools, mark: u8, target: u8, tail: bool, end: nat): (r: Emitted)
    requires mark + target < 256 && forall i :: 0 <= i < |parts| ==> parts[i].needs <= target
    ensures p.consts <= r.p.consts && r.p.fns == p.fns
    ensures |r.code| == StubsLen(parts, target, tail)
    ensures mark <= p.slot ==> mark <= r.p.slot
    ensures !tail && p.slot == mark + target ==> r.p.slot == mark + target
  {
    if parts == [] then Emitted([], p)
    else
      var pad := PadUnlessTail(p.(slot := mark + parts[0].needs), mark + target, tail);
      var rest := Stubs(parts[1..], pad.p, mark, target, tail, end);
      Emitted(pad.code + JumpTo(end) + rest.code, rest.p)
  }

  /** Clauses, the no-match path (which first runs `discard`), and the padding stubs. */
  function Select(parts: seq<Part>, at: nat, p: Pools, mark: u8, tail: bool, discard: seq<byte>): (r: Emitted)
    requires mark <= p.slot
    requires forall i :: 0 <= i < |parts| ==> mark + parts[i].needs < 256
    ensures Grown(p.(slot := mark), r.p)
    ensures !tail ==> r.p.slot == mark + MaxNeeds(parts)
  {
    var target := MaxNeeds(parts);
    MaxNeedsFits(parts, mark);
    var none := EmitConst(p.(slot := mark), CUnspecified);
    var pad := PadUnlessTail(none.p, mark + target, tail);
    var stubAt := at + PartsLen(parts) + |discard| + 5 + |pad.code| + 5;
    var end := stubAt + StubsLen(parts, target, tail);
    var stubs := Stubs(parts, pad.p, mark, target, tail, end);
    Emitted(JoinParts(parts, stubAt, target, tail)
            + (discard + none.code + pad.code + JumpTo(end)) + stubs.code, stubs.p)
  }

  lemma {:induction false} MaxNeedsFits(parts: seq<Part>, mark: u8)
    requires forall i :: 0 <= i < |parts| ==> mark + parts[i].needs < 256
    ensures mark + MaxNeeds(parts) < 256
  {
    if parts != [] {
      MaxNeedsFits(parts[1..], mark);
    }
  }

  // ----- programs -----

  datatype Module = Module(entry: u32, fns: seq<Chunk>)

  function CompForms(es: Exprs, at: nat, p: Pools): (r: Compiled)
    ensures r.Ok? ==> Grown(p, r.value.p)
    decreases es, 0
  {
    match es
    case NoExprs => Ok(Emitted([], p))
    case More(e, rest) =>
      var a :- CompExpr(e, Ctx([], None), at, p, 0, false);
      var b :- CompForms(rest, at + |a.code| + 1, a.p);
      Ok(Emitted(a.code + Enc(Pop) + b.code, b.p))
  }

  function CompProgram(forms: Exprs): Result<Module, CompileError> {
    var r :- CompForms(forms, 0, Pools([], [], 0));
    var entry := Chunk(r.code + Enc(Halt), r.p.consts, 0, false, None);
    Ok(Module(AsU32(|r.p.fns|), r.p.fns + [entry]))
  }
}
