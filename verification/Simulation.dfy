/**
 Compiled code simulates the source evaluator.

 Each lemma runs the bytes emitted for one form from a situated point and produces
 the number of steps after which the machine meets the evaluator's outcome.
 */
module Simulation {
  import opened Prelude
  import opened Data
  import opened Syntax
  import opened Instr
  import opened Source
  import opened Compile
  import opened Vm
  import opened Relation
  import opened Points
  import opened Steps
  import opened Variables
  import opened Slots

  /** `x` is about to run what `r` emitted; in tail position only jumps to RETURN follow it. */
  ghost predicate Set(x: Point, r: Compiled, tail: bool) {
    Situated(x) && x.base == x.c.top.stack && r.Ok? && Laid(x, r.value.code, r.value.p)
    && (tail ==> Exits(Code(x), x.c.top.ip + |r.value.code|))
  }

  ghost predicate Done1(x: Point, n: nat, o: Outcome<Answer>, tail: bool, r: Compiled, z: Landing)
    requires Live(x) && r.Ok?
  {
    Lands(x, n, o, tail, x.c.top.ip + |r.value.code|, r.value.p.slot, z)
  }

  /** The landing of a point that has arrived. */
  ghost function Here(y: Point): Landing
    requires y.c.Running?
  {
    Landing(y.c.top.steps, y.c.top.locals, y.c.m, y.l)
  }

  lemma {:induction false} Arrived(x: Point, n: nat, y: Point, v: Value, o: Outcome<Answer>, ip: nat, slot: u8,
        tail: bool)
      returns (n': nat, z: Landing)
    requires Situated(x) && Situated(y) && Onward(x, y) && Run(x.g, n, x.c) == y.c
    requires y.c.top.stack == x.base + [v] && y.c.top.ip == ip && slot == y.p.slot
    requires o == Done(Answer(v, y.s)) && (tail ==> Exits(Code(x), ip))
    ensures Lands(x, n', o, tail, ip, slot, z)
  {
    hide Run, Step;
    z := Here(y);
    assert Reaches(x, n, ip, [v], y.s, slot, z);
    n' := Finish(x, n, o, ip, slot, z, tail);
  }

  /** A constant in value position: the unspecified value of a missing branch, or a literal. */
  lemma {:induction false} SimConst(x: Point, c: Data.Const, tail: bool) returns (n: nat, z: Landing)
    requires Set(x, Ok(EmitConst(x.p, c)), tail)
    ensures var (v, w) := ConstToValue(c, x.s.world);
      Done1(x, n, Done(Answer(v, x.s.(world := w))), tail, Ok(EmitConst(x.p, c)), z)
  {
    hide Run, Step;
    var (v, w) := ConstToValue(c, x.s.world);
    var y := ConstRuns(x, c);
    n, z := Arrived(x, 1, y, v, Done(Answer(v, y.s)), x.c.top.ip + 5, y.p.slot, tail);
  }

  /** The frame that executes the instruction after one of `size` bytes. */
  ghost function Advanced(x: Point, size: nat): Frame
    requires x.c.Running?
  {
    x.c.top.(ip := x.c.top.ip + size, steps := if x.c.top.steps == 0 then 0 else x.c.top.steps - 1)
  }

  /** An instruction that replaces the operands above `rest` by one value. */
  lemma {:induction false} OneStep(x: Point, i: Instr, rest: seq<Value>, a: Answer, m: Memory, l: Link, slot: u8,
        tail: bool)
      returns (n: nat, z: Landing)
    requires Situated(x) && Occurs(Code(x), x.c.top.ip, Enc(i)) && x.base == rest
    requires Do(x.g, i, Advanced(x, Size(i)), x.c.callers, x.c.depth, x.c.m)
          == Running(Advanced(x, Size(i)).(stack := rest + [a.v]), x.c.callers, x.c.depth, m)
    requires Extends(x.l, l) && MatchMemory(x.g.fns, m, a.s, l) && slot == x.p.slot
    requires tail ==> Exits(Code(x), x.c.top.ip + Size(i))
    ensures Lands(x, n, Done(a), tail, x.c.top.ip + Size(i), slot, z)
  {
    hide Run, Step, Do, MatchMemory, MatchEnv, Enc, Fits;
    StepAt(x, i);
    z := Landing(x.c.top.steps - 1, x.c.top.locals, m, l);
    assert Reaches(x, 1, x.c.top.ip + Size(i), [a.v], a.s, slot, z);
    n := Finish(x, 1, Done(a), x.c.top.ip + Size(i), slot, z, tail);
  }

  lemma {:induction false} OneError(x: Point, i: Instr, e: Error, tail: bool, slot: u8) returns (n: nat, z: Landing)
    requires Situated(x) && Occurs(Code(x), x.c.top.ip, Enc(i))
    requires Do(x.g, i, Advanced(x, Size(i)), x.c.callers, x.c.depth, x.c.m) == Stopped(e)
    ensures Lands(x, n, Fail(e), tail, x.c.top.ip + Size(i), slot, z)
  {
    hide Run, Step, Do;
    StepAt(x, i);
    n, z := 1, Here(x);
  }

  lemma {:induction false} SimGlobal(x: Point, name: string, tail: bool) returns (n: nat, z: Landing)
    requires Situated(x) && x.base == x.c.top.stack && Lookup(x.env, name).None?
    requires Occurs(Code(x), x.c.top.ip, Enc(GetGlobal(NextConst(x.p))))
    requires PoolsIn(x.g, x.c.top.fn, AddConst(x.p, CSymbol(name))) && (tail ==> Exits(Code(x), x.c.top.ip + 5))
    ensures Lands(x, n, EvalVar(name, x.env, x.s), tail, x.c.top.ip + 5, x.p.slot, z)
  {
    hide Run, Step, Enc, MatchEnv, MatchClosures;
    assert AddConst(x.p, CSymbol(name)).consts[|x.p.consts|] == CSymbol(name);
    assert AsU32(|x.p.consts|) == |x.p.consts|;
    if name in x.s.globals {
      var a := EvalVar(name, x.env, x.s).value;
      n, z := OneStep(x, GetGlobal(|x.p.consts|), x.base, a, x.c.m, x.l, x.p.slot, tail);
    } else {
      n, z := OneError(x, GetGlobal(|x.p.consts|), UnboundGlobal(name), tail, x.p.slot);
    }
  }

  lemma {:induction false} SimVar(x: Point, name: string, tail: bool) returns (n: nat, z: Landing)
    requires Set(x, CompVar(name, x.ctx, x.p), tail)
    ensures Done1(x, n, EvalVar(name, x.env, x.s), tail, CompVar(name, x.ctx, x.p), z)
  {
    hide Lookup;
    hide Run, Step, Enc, MatchClosures;
    var loc := ResolveFinds(x.ctx, x.env, x.c.top.locals, x.c.top.scope, x.l.cell, name);
    hide MatchEnv;
    var q := CompVar(name, x.ctx, x.p).value.p;
    var o := EvalVar(name, x.env, x.s);
    match Resolve(x.ctx, name).value
    case Local(slot) => n, z := OneStep(x, GetLocal(slot), x.base, o.value, x.c.m, x.l, q.slot, tail);
    case Upvalue(d, slot) => n, z := OneStep(x, GetUpvalue(d, slot), x.base, o.value, x.c.m, x.l, q.slot, tail);
    case Global =>
      n, z := SimGlobal(x, name, tail);
  }

  /** After a value, padding. */
  lemma {:induction false} LandPad(x: Point, n: nat, o: Outcome<Answer>, tail: bool, ip: nat, slot: u8, z: Landing,
        sp: Pools, target: u8)
      returns (n': nat, z': Landing)
    requires Situated(x) && Lands(x, n, o, tail, ip, slot, z) && sp.slot == slot
    requires var pad := PadUnlessTail(sp, target, tail);
      Occurs(Code(x), ip, pad.code) && PoolsIn(x.g, x.c.top.fn, pad.p)
    ensures var pad := PadUnlessTail(sp, target, tail);
      Lands(x, n', o, tail, ip + |pad.code|, pad.p.slot, z')
  {
    hide Run, Step, MatchMemory, MatchEnv, Fits, PadUnlessTail, Occurs;
    n', z' := n, z;
    if o.Done? && !tail {
      var x0 := x.(base := x.c.top.stack);
      var q := x.p.(slot := slot);
      var y := After(x, ip, [o.value.v], o.value.s, q, z);
      AfterSituated(x, n, ip, [o.value.v], o.value.s, q, z);
      var k, w := PadRuns(y.(p := sp), target, tail);
      Chain(x, n, y.(p := sp), k, w);
      n', z' := Arrived(x, n + k, w, o.value.v, o, w.c.top.ip, w.p.slot, tail);
    }
  }

  /** After a value, a jump. */
  lemma {:induction false} LandJump(x: Point, n: nat, o: Outcome<Answer>, tail: bool, ip: nat, slot: u8, z: Landing,
        target: nat)
      returns (n': nat, z': Landing)
    requires Situated(x) && Lands(x, n, o, tail, ip, slot, z)
    requires Occurs(Code(x), ip, JumpTo(target)) && ip < target <= |Code(x)|
    ensures Lands(x, n', o, tail, target, slot, z')
  {
    hide Run, Step, MatchMemory, MatchEnv, Fits, Occurs, JumpTo;
    n', z' := n, z;
    if o.Done? && !tail {
      var q := x.p.(slot := slot);
      var y := After(x, ip, [o.value.v], o.value.s, q, z);
      AfterSituated(x, n, ip, [o.value.v], o.value.s, q, z);
      var w := JumpRuns(y, target);
      Chain(x, n, y, 1, w);
      n', z' := Arrived(x, n + 1, w, o.value.v, o, target, slot, tail);
    }
  }

  /** The machine meets an outcome that is not a value. */
  ghost predicate Aborts(x: Point, n: nat, o: Outcome<Answer>) {
    match o
    case Done(_) => false
    case Fail(e) => Run(x.g, n, x.c) == Stopped(e)
    case Timeout => n >= x.fuel && Run(x.g, n, x.c).Running?
  }

  lemma {:induction false} AbortLands(x: Point, n: nat, o: Outcome<Answer>, tail: bool, ip: nat, slot: u8, z: Landing)
    requires Live(x) && Aborts(x, n, o)
    ensures Lands(x, n, o, tail, ip, slot, z)
  {
  }

  // ----- the forms -----

  lemma {:induction false} SimExpr(x: Point, e: Expr, depth: nat, tail: bool) returns (n: nat, z: Landing)
    requires Set(x, CompExpr(e, x.ctx, Ip(x), x.p, depth, tail), tail) && Safe(e, tail)
    ensures Done1(x, n, Eval(x.g.prims, x.fuel, e, x.env, x.s, Pending(x), tail), tail,
                  CompExpr(e, x.ctx, Ip(x), x.p, depth, tail), z)
    decreases x.fuel, 1, e, 1
  {
    hide Situated, Laid, Lands, Exits, Run, CompVar, CompSet, CompDefine, CompIf, CompSeq, CompAnd, CompOr, CompWhen,
      CompUnless, CompLet;
    hide CompCond, CompCase, CompApp, CompFunction, EvalVar, EvalSeq, EvalAnd, EvalOr, EvalCond, EvalBindings;
    match e
    case Lit(c) => n, z := SimConst(x, c, tail);
    case Var(name) => n, z := SimVar(x, name, tail);
    case SetVar(name, e1) => n, z := SimSet(x, name, e1, depth, tail);
    case Define(name, e1) => n, z := SimDefine(x, name, e1, depth, tail);
    case If(test, thn, els) => n, z := SimIf(x, test, thn, els, depth, tail);
    case Begin(es) => n, z := SimSeq(x, es, depth + 1, tail);
    case And(es) => n, z := SimAnd(x, es, depth, tail);
    case Or(es) => n, z := SimOr(x, es, depth, tail);
    case When(test, body) => n, z := SimWhen(x, test, body, depth, tail);
    case Unless(test, body) => n, z := SimUnless(x, test, body, depth, tail);
    case Let(bs, body) => n, z := SimLet(x, bs, body, depth, tail, false);
    case LetStar(bs, body) => n, z := SimLet(x, bs, body, depth, tail, true);
    case Cond(tests) => n, z := SimCond(x, tests, depth, tail);
    case Case(key, clauses) => n, z := SimCase(x, key, clauses, depth, tail);
    case Lambda(_, _) => n, z := SimClosure(x, e, depth, tail);
    case App(f, args) => n, z := SimApp(x, f, args, depth, tail);
  }

  lemma {:induction false} SimClosure(x: Point, e: Expr, depth: nat, tail: bool) returns (n: nat, z: Landing)
    requires e.Lambda? && Set(x, CompExpr(e, x.ctx, Ip(x), x.p, depth, tail), tail) && Safe(e, tail)
    ensures Done1(x, n, Eval(x.g.prims, x.fuel, e, x.env, x.s, Pending(x), tail), tail,
                  CompExpr(e, x.ctx, Ip(x), x.p, depth, tail), z)
    decreases x.fuel, 1, e, 0
  {
    hide CompFunction, MatchMemory, MatchEnv, Lands, Run, EvalSeq, Apply;
    var (fn, fns) := CompFunction(e.formals, e.body, x.ctx, x.p.fns, depth, None).value;
    assert |Enc(MakeFunction(fn))| == 5;
    n, z := SimLambda(x, e.formals, e.body, depth, None, tail);
  }

  /** MAKE_FUNCTION captures the frame's cells, which hold exactly the variables in scope. */
  lemma {:induction false} SimLambda(x: Point, formals: Formals, body: Exprs, depth: nat, name: Option<string>,
        tail: bool)
      returns (n: nat, z: Landing)
    requires Situated(x) && x.base == x.c.top.stack && SafeBody(body, true)
    requires CompFunction(formals, body, x.ctx, x.p.fns, depth, name).Ok?
    requires var (fn, fns) := CompFunction(formals, body, x.ctx, x.p.fns, depth, name).value;
      Laid(x, Enc(MakeFunction(fn)), x.p.(fns := fns)) && (tail ==> Exits(Code(x), Ip(x) + 5))
    ensures var (fn, fns) := CompFunction(formals, body, x.ctx, x.p.fns, depth, name).value;
      var a := Answer(Closure(|x.s.closures|),
                      x.s.(closures := x.s.closures + [SClosure(formals, body, x.env)]));
      Lands(x, n, Done(a), tail, Ip(x) + 5, x.p.slot, z)
  {
    hide Run, Step, CompFunction, SafeBody;
    var (fn, fns) := CompFunction(formals, body, x.ctx, x.p.fns, depth, name).value;
    FunctionIndex(formals, body, x.ctx, x.p.fns, depth, name);
    var sc := SClosure(formals, body, x.env);
    var vc := VClosure(fn, Scope(x.c.top.locals, x.c.top.scope));
    var m := x.c.m.(closures := x.c.m.closures + [vc]);
    var a := Answer(Closure(|x.s.closures|), x.s.(closures := x.s.closures + [sc]));
    var o := Origin(x.ctx, x.p.fns, depth, name);
    var l := x.l.(origin := x.l.origin + [o]);
    assert MatchClosure(x.g.fns, sc, vc, o, l.cell);
    assert MatchMemory(x.g.fns, m, a.s, l) by {
      forall i | 0 <= i < |l.origin|
        ensures MatchClosure(x.g.fns, a.s.closures[i], m.closures[i], l.origin[i], l.cell)
      {
        if i < |x.l.origin| {
          assert MatchClosure(x.g.fns, x.s.closures[i], x.c.m.closures[i], x.l.origin[i], x.l.cell);
        }
      }
    }
    hide MatchMemory, MatchEnv, MatchClosure;
    n, z := OneStep(x, MakeFunction(fn), x.base, a, m, l, x.p.slot, tail);
  }

  lemma {:induction false} FunctionIndex(formals: Formals, body: Exprs, ctx: Ctx, fns: seq<Chunk>, depth: nat,
        name: Option<string>)
    requires CompFunction(formals, body, ctx, fns, depth, name).Ok?
    ensures var (fn, fns') := CompFunction(formals, body, ctx, fns, depth, name).value;
      |fns'| > 0 && fn == AsU32(|fns'| - 1)
  {
  }

  /** Where the pieces of an `if` sit, and how they were compiled. */
  lemma {:induction false} IfLaid(x: Point, test: Expr, thn: Expr, els: Option<Expr>, depth: nat, tail: bool)
        returns (i: IfCode)
    requires Set(x, CompIf(test, thn, els, x.ctx, Ip(x), x.p, depth, tail), tail)
    ensures CompExpr(test, x.ctx, Ip(x), x.p, depth + 1, false) == Ok(i.test)
    ensures CompExpr(thn, x.ctx, Ip(x) + |i.test.code| + 5, i.test.p, depth + 1, tail) == Ok(i.thn)
    ensures i.elseAt == Ip(x) + |i.test.code| + 5 + |i.thn.code| + 5
    ensures CompElse(els, x.ctx, i.elseAt, i.thn.p.(slot := i.test.p.slot), depth + 1, tail) == Ok(i.els)
    ensures i.padElse == PadUnlessTail(i.els.p, Max(i.thn.p.slot, i.els.p.slot), tail)
    ensures i.padThen == PadUnlessTail(i.padElse.p.(slot := i.thn.p.slot), Max(i.thn.p.slot, i.els.p.slot), tail)
    ensures i.padAt == i.elseAt + |i.els.code| + |i.padElse.code| + 5
    ensures i.end == i.padAt + |i.padThen.code|
    ensures PoolsIn(x.g, x.c.top.fn, i.test.p) && PoolsIn(x.g, x.c.top.fn, i.thn.p) && PoolsIn(x.g, x.c.top.fn, i.els.p)
    ensures PoolsIn(x.g, x.c.top.fn, i.padElse.p) && PoolsIn(x.g, x.c.top.fn, i.padThen.p)
    ensures var r := CompIf(test, thn, els, x.ctx, Ip(x), x.p, depth, tail).value;
      i.end == Ip(x) + |r.code| <= |Code(x)| && r.p == i.padThen.p
    ensures Occurs(Code(x), Ip(x), i.test.code) && Occurs(Code(x), Ip(x) + |i.test.code|, BranchTo(i.elseAt))
    ensures Occurs(Code(x), Ip(x) + |i.test.code| + 5, i.thn.code)
    ensures Occurs(Code(x), Ip(x) + |i.test.code| + 5 + |i.thn.code|, JumpTo(i.padAt))
    ensures Occurs(Code(x), i.elseAt, i.els.code) && Occurs(Code(x), i.elseAt + |i.els.code|, i.padElse.code)
    ensures Occurs(Code(x), i.elseAt + |i.els.code| + |i.padElse.code|, JumpTo(i.end))
    ensures Occurs(Code(x), i.padAt, i.padThen.code)
  {
    hide MatchMemory, MatchEnv, CompExpr, CompElse, PadUnlessTail, JumpTo, BranchTo, Exits, Occurs;
    i := IfPieces(test, thn, els, x.ctx, Ip(x), x.p, depth, tail).value;
    var head := i.test.code + BranchTo(i.elseAt) + i.thn.code;
    OccursSplit5(Code(x), Ip(x), head + JumpTo(i.padAt), i.els.code, i.padElse.code, JumpTo(i.end), i.padThen.code);
    OccursSplit(Code(x), Ip(x), head, JumpTo(i.padAt));
    OccursSplit3(Code(x), Ip(x), i.test.code, BranchTo(i.elseAt), i.thn.code);
  }

  lemma {:induction false} IfMeaning(x: Point, test: Expr, thn: Expr, els: Option<Expr>, tail: bool)
    ensures var o := Eval(x.g.prims, x.fuel, test, x.env, x.s, Pending(x), false);
      Eval(x.g.prims, x.fuel, If(test, thn, els), x.env, x.s, Pending(x), tail)
      == if !o.Done? then o
         else if Truthy(o.value.v) then Eval(x.g.prims, x.fuel, thn, x.env, o.value.s, Pending(x), tail)
         else EvalElse(x.g.prims, x.fuel, els, x.env, o.value.s, Pending(x), tail)
  {
  }

  lemma {:induction false} SimIf(x: Point, test: Expr, thn: Expr, els: Option<Expr>, depth: nat, tail: bool)
      returns (n: nat, z: Landing)
    requires Set(x, CompIf(test, thn, els, x.ctx, Ip(x), x.p, depth, tail), tail)
    requires Safe(test, false) && Safe(thn, tail) && (els.Some? ==> Safe(els.value, tail))
    ensures Done1(x, n, Eval(x.g.prims, x.fuel, If(test, thn, els), x.env, x.s, Pending(x), tail), tail,
                  CompIf(test, thn, els, x.ctx, Ip(x), x.p, depth, tail), z)
    decreases x.fuel, 1, If(test, thn, els), 0
  {
    hide Fits, Enc, JumpTo, Do;
    hide MatchMemory, MatchEnv, Lands, CompIf, CompExpr, CompElse, Occurs, Exits, JumpTo, BranchTo, PadUnlessTail;
    hide Eval, EvalElse, Safe, PoolsIn;
    var i := IfLaid(x, test, thn, els, depth, tail);
    var o := Eval(x.g.prims, x.fuel, test, x.env, x.s, Pending(x), false);
    var o' := Eval(x.g.prims, x.fuel, If(test, thn, els), x.env, x.s, Pending(x), tail);
    IfMeaning(x, test, thn, els, tail);
    var slot := i.padThen.p.slot;
    var target := Max(i.thn.p.slot, i.els.p.slot);
    var w;
    n, w, z := SimTest(x, test, depth, i.elseAt);
    if !o.Done? {
      AbortLands(x, n, o, tail, i.end, slot, z);
    } else {
      var n' := 0;
      if Truthy(o.value.v) {
        n', z := SimThen(w, thn, depth, tail, i.padAt, i.padElse.p.(slot := i.thn.p.slot), target);
        ComposeLands(x, n, w, n', o', tail, i.end, slot, z);
      } else {
        w := w.(p := i.thn.p.(slot := i.test.p.slot));
        n', z := SimElse(w, els, depth, tail, target, i.end, slot);
        ComposeLands(x, n, w, n', o', tail, i.end, slot, z);
      }
      n := n + n';
    }
  }

  /** A test and the branch on its value: the point after the branch, or the test's failure. */
  lemma {:induction false} SimTest(x: Point, test: Expr, depth: nat, target: nat) returns (n: nat, w: Point, z: Landing)
    requires Set(x, CompExpr(test, x.ctx, Ip(x), x.p, depth + 1, false), false) && Safe(test, false)
    requires var c := CompExpr(test, x.ctx, Ip(x), x.p, depth + 1, false).value;
      Occurs(Code(x), Ip(x) + |c.code|, BranchTo(target)) && Ip(x) + |c.code| < target <= |Code(x)|
    ensures var c := CompExpr(test, x.ctx, Ip(x), x.p, depth + 1, false).value;
      match Eval(x.g.prims, x.fuel, test, x.env, x.s, Pending(x), false)
      case Done(a) =>
        Situated(w) && Onward(x, w) && Run(x.g, n, x.c) == w.c
        && w == x.(c := w.c, s := a.s, p := c.p, l := w.l) && w.c.top.stack == x.base
        && Ip(w) == if Truthy(a.v) then Ip(x) + |c.code| + 5 else target
      case o => Aborts(x, n, o)
    decreases x.fuel, 1, test, 2
  {
    hide Run, Step, CompExpr, Safe, Eval, MatchMemory, MatchEnv, Fits, Occurs, BranchTo;
    var c := CompExpr(test, x.ctx, Ip(x), x.p, depth + 1, false).value;
    var o := Eval(x.g.prims, x.fuel, test, x.env, x.s, Pending(x), false);
    n, z := SimExpr(x, test, depth + 1, false);
    w := x;
    if o.Done? {
      assert x.(base := x.c.top.stack) == x;
      var y := Proceed(x, n, [o.value.v], o.value.s, Ip(x) + |c.code|, c.p, z);
      w := BranchRuns(y, x.base, o.value.v, target);
      Chain(x, n, y, 1, w);
      n := n + 1;
    }
  }

  /** The then-branch, its jump, and its padding. */
  lemma {:induction false} SimThen(x: Point, thn: Expr, depth: nat, tail: bool, padAt: nat, sp: Pools, target: u8)
      returns (n: nat, z: Landing)
    requires Set(x, CompExpr(thn, x.ctx, Ip(x), x.p, depth + 1, tail), false) && Safe(thn, tail)
    requires var t := CompExpr(thn, x.ctx, Ip(x), x.p, depth + 1, tail).value;
      var pad := PadUnlessTail(sp, target, tail);
      Occurs(Code(x), Ip(x) + |t.code|, JumpTo(padAt)) && Ip(x) + |t.code| < padAt && sp.slot == t.p.slot
      && Occurs(Code(x), padAt, pad.code) && PoolsIn(x.g, x.c.top.fn, pad.p)
      && (tail ==> Exits(Code(x), padAt))
    ensures var pad := PadUnlessTail(sp, target, tail);
      Lands(x, n, Eval(x.g.prims, x.fuel, thn, x.env, x.s, Pending(x), tail), tail, padAt + |pad.code|, pad.p.slot, z)
    decreases x.fuel, 1, thn, 2
  {
    hide Run, Step, CompExpr, Safe, MatchMemory, MatchEnv, Fits, Enc, Eval, PadUnlessTail, JumpTo;
    var t := CompExpr(thn, x.ctx, Ip(x), x.p, depth + 1, tail).value;
    var o := Eval(x.g.prims, x.fuel, thn, x.env, x.s, Pending(x), tail);
    if tail {
      ExitsJump(x, Ip(x) + |t.code|, padAt);
    }
    hide Occurs, Exits;
    n, z := SimExpr(x, thn, depth + 1, tail);
    n, z := LandJump(x, n, o, tail, Ip(x) + |t.code|, t.p.slot, z, padAt);
    n, z := LandPad(x, n, o, tail, padAt, t.p.slot, z, sp, target);
  }

  /** The else-branch or the unspecified value, its padding, and its jump. */
  lemma {:induction false} SimElse(x: Point, els: Option<Expr>, depth: nat, tail: bool, target: u8, end: nat, slot: u8)
      returns (n: nat, z: Landing)
    requires Set(x, CompElse(els, x.ctx, Ip(x), x.p, depth + 1, tail), false) && (els.Some? ==> Safe(els.value, tail))
    requires var r := CompElse(els, x.ctx, Ip(x), x.p, depth + 1, tail).value;
      var pad := PadUnlessTail(r.p, target, tail);
      var padAt := Ip(x) + |r.code|;
      Occurs(Code(x), padAt, pad.code) && PoolsIn(x.g, x.c.top.fn, pad.p)
      && Occurs(Code(x), padAt + |pad.code|, JumpTo(end)) && padAt + |pad.code| < end <= |Code(x)|
      && (tail ==> Exits(Code(x), end))
    requires !tail ==> slot == Max(CompElse(els, x.ctx, Ip(x), x.p, depth + 1, tail).value.p.slot, target)
    ensures Lands(x, n, EvalElse(x.g.prims, x.fuel, els, x.env, x.s, Pending(x), tail), tail, end, slot, z)
    decreases x.fuel, 1, els, 2
  {
    hide Run, Step, CompExpr, Safe, MatchMemory, MatchEnv, Fits, Enc, Eval, PadUnlessTail, JumpTo;
    var r := CompElse(els, x.ctx, Ip(x), x.p, depth + 1, tail).value;
    var pad := PadUnlessTail(r.p, target, tail);
    var o := EvalElse(x.g.prims, x.fuel, els, x.env, x.s, Pending(x), tail);
    if tail {
      ExitsJump(x, Ip(x) + |r.code|, end);
    }
    hide Occurs, Exits;
    if els.Some? {
      n, z := SimExpr(x, els.value, depth + 1, tail);
    } else {
      n, z := SimConst(x, CUnspecified, tail);
    }
    n, z := LandPad(x, n, o, tail, Ip(x) + |r.code|, r.p.slot, z, r.p, target);
    n, z := LandJump(x, n, o, tail, Ip(x) + |r.code| + |pad.code|, pad.p.slot, z, end);
  }

  /** A subexpression in non-tail position: the point with its value pushed, or its failure. */
  lemma {:induction false} SimValue(x: Point, e: Expr, depth: nat) returns (n: nat, w: Point)
    requires Situated(x) && Safe(e, false) && CompExpr(e, x.ctx, Ip(x), x.p, depth, false).Ok?
    requires var r := CompExpr(e, x.ctx, Ip(x), x.p, depth, false).value; Laid(x, r.code, r.p)
    ensures var r := CompExpr(e, x.ctx, Ip(x), x.p, depth, false).value;
      match Eval(x.g.prims, x.fuel, e, x.env, x.s, Pending(x), false)
      case Done(a) =>
        Situated(w) && Onward(x, w) && Run(x.g, n, x.c) == w.c
        && w == x.(c := w.c, s := a.s, p := r.p, l := w.l)
        && w.c.top.stack == x.c.top.stack + [a.v] && Ip(w) == Ip(x) + |r.code|
      case o => Aborts(x, n, o)
    decreases x.fuel, 1, e, 2
  {
    hide Run, Step, CompExpr, Safe, Eval, MatchMemory, MatchEnv, Fits, Occurs;
    var r := CompExpr(e, x.ctx, Ip(x), x.p, depth, false).value;
    var o := Eval(x.g.prims, x.fuel, e, x.env, x.s, Pending(x), false);
    var x' := x.(base := x.c.top.stack);
    var z;
    n, z := SimExpr(x', e, depth, false);
    w := x;
    if o.Done? {
      w := Proceed(x, n, [o.value.v], o.value.s, Ip(x) + |r.code|, r.p, z);
    }
  }

  /** SET_GLOBAL writes a global that exists and refuses one that does not. */
  lemma {:induction false} SimSetGlobal(x: Point, name: string, v: Value, tail: bool) returns (n: nat, z: Landing)
    requires Situated(x) && x.c.top.stack == x.base + [v] && Lookup(x.env, name).None?
    requires Occurs(Code(x), Ip(x), Enc(SetGlobal(NextConst(x.p))))
    requires PoolsIn(x.g, x.c.top.fn, AddConst(x.p, CSymbol(name))) && (tail ==> Exits(Code(x), Ip(x) + 5))
    ensures Lands(x, n, Assign(name, v, x.env, x.s), tail, Ip(x) + 5, x.p.slot, z)
  {
    hide Run, Step, Enc, MatchEnv;
    assert AddConst(x.p, CSymbol(name)).consts[|x.p.consts|] == CSymbol(name);
    assert AsU32(|x.p.consts|) == |x.p.consts|;
    var o := Assign(name, v, x.env, x.s);
    assert (x.base + [v])[..|x.base|] == x.base;
    if name in x.s.globals {
      var gl := x.s.globals[name := v];
      ChangeGlobals(x.g.fns, x.c.m, x.s, x.l, gl);
      hide MatchMemory;
      n, z := OneStep(x, SetGlobal(|x.p.consts|), x.base, o.value, x.c.m.(globals := gl), x.l, x.p.slot, tail);
    } else {
      n, z := OneError(x, SetGlobal(|x.p.consts|), SetUndefined(name), tail, x.p.slot);
    }
  }

  /** The write that ends a `set!`. */
  lemma {:induction false} SimAssign(x: Point, name: string, v: Value, tail: bool) returns (n: nat, z: Landing)
    requires Situated(x) && CompAssign(name, x.ctx, x.p).Ok? && x.c.top.stack == x.base + [v]
    requires var r := CompAssign(name, x.ctx, x.p).value;
      Laid(x, r.code, r.p) && (tail ==> Exits(Code(x), Ip(x) + |r.code|))
    ensures var r := CompAssign(name, x.ctx, x.p).value;
      Lands(x, n, Assign(name, v, x.env, x.s), tail, Ip(x) + |r.code|, x.p.slot, z)
  {
    hide CompSeq, SafeSeq, PartsLen, Returns, CompFunction, Resolve, ResolveLocal, Lookup;
    hide Fits, Selected, Meets;
    hide Run, Step, Enc, MatchClosures;
    var loc := ResolveFinds(x.ctx, x.env, x.c.top.locals, x.c.top.scope, x.l.cell, name);
    hide MatchEnv;
    var q := CompAssign(name, x.ctx, x.p).value.p;
    var o := Assign(name, v, x.env, x.s);
    var top := Advanced(x, 0).stack;
    assert top[..|top| - 1] == x.base;
    if Resolve(x.ctx, name).value.Global? {
      n, z := SimSetGlobal(x, name, v, tail);
    } else {
      WriteMemory(x.g.fns, x.c.m, x.s, x.l, loc, v);
      var m := x.c.m.(cells := x.c.m.cells[x.l.cell[loc] := v]);
      hide MatchMemory;
      var i := match Resolve(x.ctx, name).value
        case Local(slot) => SetLocal(slot)
        case Upvalue(d, slot) => SetUpvalue(d, slot);
      n, z := OneStep(x, i, x.base, o.value, m, x.l, x.p.slot, tail);
    }
  }

  lemma {:induction false} SetLaid(x: Point, name: string, e: Expr, depth: nat, tail: bool)
        returns (a: Emitted, w: Emitted)
    requires Set(x, CompSet(name, e, x.ctx, Ip(x), x.p, depth), tail)
    ensures CompExpr(e, x.ctx, Ip(x), x.p, depth + 1, false) == Ok(a) && CompAssign(name, x.ctx, a.p) == Ok(w)
    ensures var r := CompSet(name, e, x.ctx, Ip(x), x.p, depth).value;
      |r.code| == |a.code| + |w.code| && r.p.slot == a.p.slot
    ensures Laid(x, a.code, a.p) && Occurs(Code(x), Ip(x) + |a.code|, w.code) && PoolsIn(x.g, x.c.top.fn, w.p)
  {
    hide MatchMemory, MatchEnv, Exits, CompExpr, Occurs;
    a := CompExpr(e, x.ctx, Ip(x), x.p, depth + 1, false).value;
    w := CompAssign(name, x.ctx, a.p).value;
    OccursSplit(Code(x), Ip(x), a.code, w.code);
  }

  lemma {:induction false} SimSet(x: Point, name: string, e: Expr, depth: nat, tail: bool) returns (n: nat, z: Landing)
    requires Set(x, CompSet(name, e, x.ctx, Ip(x), x.p, depth), tail) && Safe(e, false)
    ensures Done1(x, n, Eval(x.g.prims, x.fuel, SetVar(name, e), x.env, x.s, Pending(x), tail), tail,
                  CompSet(name, e, x.ctx, Ip(x), x.p, depth), z)
    decreases x.fuel, 1, e, 3
  {
    var o' := Eval(x.g.prims, x.fuel, SetVar(name, e), x.env, x.s, Pending(x), tail);
    hide Lands, MatchMemory, MatchEnv, CompSet, CompExpr, CompAssign, Occurs, Exits, Assign, Safe;
    var a, c := SetLaid(x, name, e, depth, tail);
    var end := Ip(x) + |a.code| + |c.code|;
    var o := Eval(x.g.prims, x.fuel, e, x.env, x.s, Pending(x), false);
    var w;
    n, w := SimValue(x, e, depth + 1);
    if o.Done? {
      var n';
      n', z := SimAssign(w, name, o.value.v, tail);
      ComposeLands(x, n, w, n', o', tail, end, a.p.slot, z);
      n := n + n';
    } else {
      z := Here(x);
      AbortLands(x, n, o', tail, end, a.p.slot, z);
    }
  }

  lemma {:induction false} DefineLaid(x: Point, name: string, e: Expr, depth: nat, tail: bool) returns (a: Emitted)
    requires Set(x, CompDefine(name, e, x.ctx, Ip(x), x.p, depth), tail)
    ensures !e.Lambda? ==> CompExpr(e, x.ctx, Ip(x), x.p, depth + 1, false) == Ok(a)
    ensures e.Lambda? ==>
      var r := CompFunction(e.formals, e.body, x.ctx, x.p.fns, depth, Some(name));
      r.Ok? && a == Emitted(Enc(MakeFunction(r.value.0)), x.p.(fns := r.value.1))
    ensures var r := CompDefine(name, e, x.ctx, Ip(x), x.p, depth).value;
      |r.code| == |a.code| + 5 && r.p.slot == a.p.slot
    ensures Laid(x, a.code, a.p) && Occurs(Code(x), Ip(x) + |a.code|, Enc(DefGlobal(NextConst(a.p))))
    ensures PoolsIn(x.g, x.c.top.fn, AddConst(a.p, CSymbol(name)))
  {
    hide MatchMemory, MatchEnv, Exits, CompExpr, CompFunction, Occurs;
    a := (if e.Lambda? then
            var (fn, fns) := CompFunction(e.formals, e.body, x.ctx, x.p.fns, depth, Some(name)).value;
            Ok(Emitted(Enc(MakeFunction(fn)), x.p.(fns := fns)))
          else CompExpr(e, x.ctx, Ip(x), x.p, depth + 1, false)).value;
    OccursSplit(Code(x), Ip(x), a.code, Enc(DefGlobal(NextConst(a.p))));
  }

  /** DEF_GLOBAL binds the global on both sides. */
  lemma {:induction false} SimDefGlobal(x: Point, name: string, v: Value, tail: bool) returns (n: nat, z: Landing)
    requires Situated(x) && x.c.top.stack == x.base + [v]
    requires Occurs(Code(x), Ip(x), Enc(DefGlobal(NextConst(x.p))))
    requires PoolsIn(x.g, x.c.top.fn, AddConst(x.p, CSymbol(name))) && (tail ==> Exits(Code(x), Ip(x) + 5))
    ensures Lands(x, n, Done(Answer(Unspecified, x.s.(globals := x.s.globals[name := v]))), tail, Ip(x) + 5,
                  x.p.slot, z)
  {
    hide Run, Step, Enc, MatchEnv;
    assert AddConst(x.p, CSymbol(name)).consts[|x.p.consts|] == CSymbol(name);
    assert AsU32(|x.p.consts|) == |x.p.consts|;
    var gl := x.s.globals[name := v];
    ChangeGlobals(x.g.fns, x.c.m, x.s, x.l, gl);
    assert (x.base + [v])[..|x.base|] == x.base;
    var a := Answer(Unspecified, x.s.(globals := gl));
    n, z := OneStep(x, DefGlobal(|x.p.consts|), x.base, a, x.c.m.(globals := gl), x.l, x.p.slot, tail);
  }

  lemma {:induction false} SimDefine(x: Point, name: string, e: Expr, depth: nat, tail: bool)
        returns (n: nat, z: Landing)
    requires Set(x, CompDefine(name, e, x.ctx, Ip(x), x.p, depth), tail) && Safe(e, false)
    ensures Done1(x, n, Eval(x.g.prims, x.fuel, Define(name, e), x.env, x.s, Pending(x), tail), tail,
                  CompDefine(name, e, x.ctx, Ip(x), x.p, depth), z)
    decreases x.fuel, 1, e, 3
  {
    var o' := Eval(x.g.prims, x.fuel, Define(name, e), x.env, x.s, Pending(x), tail);
    hide Lands, MatchMemory, MatchEnv, CompDefine, CompExpr, CompFunction, Occurs, Exits, SafeBody, PoolsIn, Enc;
    var a := DefineLaid(x, name, e, depth, tail);
    var end := Ip(x) + |a.code| + 5;
    var o := Eval(x.g.prims, x.fuel, e, x.env, x.s, Pending(x), false);
    var w;
    if e.Lambda? {
      n, w := LambdaValue(x, e, depth, Some(name));
    } else {
      n, w := SimValue(x, e, depth + 1);
    }
    if o.Done? {
      var n';
      n', z := SimDefGlobal(w.(p := a.p), name, o.value.v, tail);
      ComposeLands(x, n, w.(p := a.p), n', o', tail, end, a.p.slot, z);
      n := n + n';
    } else {
      z := Here(x);
      AbortLands(x, n, o', tail, end, a.p.slot, z);
    }
  }

  /** A `lambda` compiled at any depth and under any name makes the same closure. */
  lemma {:induction false} LambdaValue(x: Point, e: Expr, depth: nat, name: Option<string>) returns (n: nat, w: Point)
    requires Situated(x) && e.Lambda? && SafeBody(e.body, true)
    requires CompFunction(e.formals, e.body, x.ctx, x.p.fns, depth, name).Ok?
    requires var (fn, fns) := CompFunction(e.formals, e.body, x.ctx, x.p.fns, depth, name).value;
      Laid(x, Enc(MakeFunction(fn)), x.p.(fns := fns))
    ensures var (fn, fns) := CompFunction(e.formals, e.body, x.ctx, x.p.fns, depth, name).value;
      var a := Eval(x.g.prims, x.fuel, e, x.env, x.s, Pending(x), false).value;
      Situated(w) && Onward(x, w) && Run(x.g, n, x.c) == w.c
      && w == x.(c := w.c, s := a.s, p := x.p.(fns := fns), l := w.l)
      && w.c.top.stack == x.c.top.stack + [a.v] && Ip(w) == Ip(x) + 5
  {
    hide Run, Step, CompFunction, SafeBody, MatchMemory, MatchEnv, Fits, Occurs;
    var (fn, fns) := CompFunction(e.formals, e.body, x.ctx, x.p.fns, depth, name).value;
    var a := Eval(x.g.prims, x.fuel, e, x.env, x.s, Pending(x), false).value;
    var z;
    n, z := SimLambda(x.(base := x.c.top.stack), e.formals, e.body, depth, name, false);
    w := Proceed(x, n, [a.v], a.s, Ip(x) + 5, x.p.(fns := fns), z);
  }

  lemma {:induction false} SeqLaid(x: Point, es: Exprs, depth: nat, tail: bool) returns (a: Emitted, b: Emitted)
    requires es.More? && es.tail.More? && Set(x, CompSeq(es, x.ctx, Ip(x), x.p, depth, tail), tail)
    ensures CompExpr(es.head, x.ctx, Ip(x), x.p, depth, false) == Ok(a)
    ensures CompSeq(es.tail, x.ctx, Ip(x) + |a.code| + 1, a.p, depth, tail) == Ok(b)
    ensures var r := CompSeq(es, x.ctx, Ip(x), x.p, depth, tail).value;
      |r.code| == |a.code| + 1 + |b.code| && r.p == b.p
    ensures Laid(x, a.code, a.p) && Occurs(Code(x), Ip(x) + |a.code|, Enc(Pop))
    ensures Occurs(Code(x), Ip(x) + |a.code| + 1, b.code) && PoolsIn(x.g, x.c.top.fn, b.p)
  {
    hide MatchMemory, MatchEnv, Exits, CompExpr, Occurs;
    a := CompExpr(es.head, x.ctx, Ip(x), x.p, depth, false).value;
    b := CompSeq(es.tail, x.ctx, Ip(x) + |a.code| + 1, a.p, depth, tail).value;
    OccursSplit3(Code(x), Ip(x), a.code, Enc(Pop), b.code);
  }

  lemma {:induction false} SimSeq(x: Point, es: Exprs, depth: nat, tail: bool) returns (n: nat, z: Landing)
    requires Set(x, CompSeq(es, x.ctx, Ip(x), x.p, depth, tail), tail) && SafeSeq(es, tail)
    ensures Done1(x, n, EvalSeq(x.g.prims, x.fuel, es, x.env, x.s, Pending(x), tail), tail,
                  CompSeq(es, x.ctx, Ip(x), x.p, depth, tail), z)
    decreases x.fuel, 1, es, 1
  {
    hide Lands, MatchMemory, MatchEnv, CompExpr, Occurs, Exits, PoolsIn, Safe, Eval, Run;
    if es.NoExprs? {
      n, z := SimConst(x, CUnspecified, tail);
    } else if es.tail.NoExprs? {
      n, z := SimExpr(x, es.head, depth, tail);
    } else {
      n, z := SimSeqMore(x, es, depth, tail);
    }
  }

  lemma {:induction false} SimSeqMore(x: Point, es: Exprs, depth: nat, tail: bool) returns (n: nat, z: Landing)
    requires es.More? && es.tail.More?
    requires Set(x, CompSeq(es, x.ctx, Ip(x), x.p, depth, tail), tail) && SafeSeq(es, tail)
    ensures Done1(x, n, EvalSeq(x.g.prims, x.fuel, es, x.env, x.s, Pending(x), tail), tail,
                  CompSeq(es, x.ctx, Ip(x), x.p, depth, tail), z)
    decreases x.fuel, 1, es, 0
  {
    var o' := EvalSeq(x.g.prims, x.fuel, es, x.env, x.s, Pending(x), tail);
    hide Lands, MatchMemory, MatchEnv, CompSeq, CompExpr, Occurs, Exits, PoolsIn, Safe, Eval, Run;
    var a, b := SeqLaid(x, es, depth, tail);
    var end := Ip(x) + |a.code| + 1 + |b.code|;
    var o := Eval(x.g.prims, x.fuel, es.head, x.env, x.s, Pending(x), false);
    var w;
    n, w := SimValue(x, es.head, depth);
    if o.Done? {
      var w' := PopRuns(w, x.c.top.stack, o.value.v);
      Chain(x, n, w, 1, w');
      var n';
      n', z := SimSeq(w', es.tail, depth, tail);
      ComposeLands(x, n + 1, w', n', o', tail, end, b.p.slot, z);
      n := n + 1 + n';
    } else {
      z := Here(x);
      AbortLands(x, n, o', tail, end, b.p.slot, z);
    }
  }

  lemma {:induction false} SimAnd(x: Point, es: Exprs, depth: nat, tail: bool) returns (n: nat, z: Landing)
    requires Set(x, CompAnd(es, x.ctx, Ip(x), x.p, depth, tail), tail)
    requires SafeSeq(es, tail) && (!tail && es.More? ==> NoSlotsSeq(es.tail))
    ensures Done1(x, n, EvalAnd(x.g.prims, x.fuel, es, x.env, x.s, Pending(x), tail), tail,
                  CompAnd(es, x.ctx, Ip(x), x.p, depth, tail), z)
    decreases x.fuel, 1, es, 1
  {
    hide Lands, MatchMemory, MatchEnv, CompParts, Occurs, Exits, PoolsIn, SafeSeq, NoSlotsSeq, Eval, Run, Enc;
    if es.NoExprs? {
      n, z := SimConst(x, CBool(true), tail);
    } else {
      var (parts, q) := CompParts(es, x.ctx, Ip(x), x.p, depth + 1, tail, AND_GAP).value;
      n, z := SimAndParts(x, es, depth + 1, tail, parts, q, Ip(x) + GluedLen(parts, AND_GAP));
    }
  }

  /** The first operand's code and, when there are more, the test after it. */
  lemma {:induction false} PartsLaid(x: Point, es: Exprs, depth: nat, tail: bool, gap: nat) returns (a: Emitted)
    requires Live(x) && es.More? && es.tail.More? && CompParts(es, x.ctx, Ip(x), x.p, depth, tail, gap).Ok?
    ensures CompExpr(es.head, x.ctx, Ip(x), x.p, depth, false) == Ok(a)
    ensures var (parts, q) := CompParts(es, x.ctx, Ip(x), x.p, depth, tail, gap).value;
      var r := CompParts(es.tail, x.ctx, Ip(x) + |a.code| + gap, a.p, depth, tail, gap);
      |parts| > 1 && a.code == parts[0] && r == Ok((parts[1..], q)) && a.p.consts <= q.consts && a.p.fns <= q.fns
      && GluedLen(parts, gap) == |a.code| + gap + GluedLen(parts[1..], gap)
  {
    hide CompExpr;
    a := CompExpr(es.head, x.ctx, Ip(x), x.p, depth, false).value;
    var (rest, q) := CompParts(es.tail, x.ctx, Ip(x) + |a.code| + gap, a.p, depth, tail, gap).value;
    assert ([a.code] + rest)[1..] == rest;
  }

  /** What an operand before the last is compiled from, and what its test does to pools and slots. */
  ghost predicate Operand(x: Point, es: Exprs, depth: nat, tail: bool, parts: seq<seq<byte>>, q: Pools, gap: nat,
        a: Emitted)
    requires Live(x) && es.More? && es.tail.More?
  {
    CompExpr(es.head, x.ctx, Ip(x), x.p, depth, false) == Ok(a) && |parts| > 1 && parts[0] == a.code
    && CompParts(es.tail, x.ctx, Ip(x) + |a.code| + gap, a.p, depth, tail, gap) == Ok((parts[1..], q))
    && Laid(x, a.code, a.p) && GluedLen(parts, gap) == |a.code| + gap + GluedLen(parts[1..], gap)
    && (!tail && NoSlotsSeq(es.tail) ==> a.p.slot == q.slot)
  }

  lemma {:induction false} AndLaid(x: Point, es: Exprs, depth: nat, tail: bool, parts: seq<seq<byte>>, q: Pools,
        end: nat) returns (a: Emitted)
    requires Live(x) && es.More? && es.tail.More?
    requires CompParts(es, x.ctx, Ip(x), x.p, depth, tail, AND_GAP) == Ok((parts, q))
    requires Occurs(Code(x), Ip(x), GlueAnd(parts, end)) && PoolsIn(x.g, x.c.top.fn, q)
    requires end == Ip(x) + GluedLen(parts, AND_GAP)
    ensures end <= |Code(x)|
    ensures Operand(x, es, depth, tail, parts, q, AND_GAP, a)
    ensures Occurs(Code(x), Ip(x) + |a.code|, Enc(Dup)) && Occurs(Code(x), Ip(x) + |a.code| + 1, BranchTo(end))
    ensures Occurs(Code(x), Ip(x) + |a.code| + 6, Enc(Pop))
    ensures Occurs(Code(x), Ip(x) + |a.code| + 7, GlueAnd(parts[1..], end))
  {
    hide CompExpr, Occurs, BranchTo;
    OccursFits(Code(x), Ip(x), GlueAnd(parts, end));
    a := PartsLaid(x, es, depth, tail, AND_GAP);
    OccursSplit3(Code(x), Ip(x), a.code, Enc(Dup) + BranchTo(end) + Enc(Pop), GlueAnd(parts[1..], end));
    OccursSplit3(Code(x), Ip(x) + |a.code|, Enc(Dup), BranchTo(end), Enc(Pop));
    if !tail && NoSlotsSeq(es.tail) {
      SlotsParts(es.tail, x.ctx, Ip(x) + |a.code| + AND_GAP, a.p, depth, AND_GAP);
    }
  }

  lemma {:induction false} OrLaid(x: Point, es: Exprs, depth: nat, tail: bool, parts: seq<seq<byte>>, q: Pools,
        end: nat) returns (a: Emitted)
    requires Live(x) && es.More? && es.tail.More?
    requires CompParts(es, x.ctx, Ip(x), x.p, depth, tail, OR_GAP) == Ok((parts, q))
    requires Occurs(Code(x), Ip(x), GlueOr(parts, Ip(x), end)) && PoolsIn(x.g, x.c.top.fn, q)
    requires end == Ip(x) + GluedLen(parts, OR_GAP)
    ensures end <= |Code(x)|
    ensures Operand(x, es, depth, tail, parts, q, OR_GAP, a)
    ensures Occurs(Code(x), Ip(x) + |a.code|, Enc(Dup))
    ensures Occurs(Code(x), Ip(x) + |a.code| + 1, BranchTo(Ip(x) + |a.code| + 11))
    ensures Occurs(Code(x), Ip(x) + |a.code| + 6, JumpTo(end)) && Occurs(Code(x), Ip(x) + |a.code| + 11, Enc(Pop))
    ensures Occurs(Code(x), Ip(x) + |a.code| + 12, GlueOr(parts[1..], Ip(x) + |a.code| + 12, end))
  {
    hide Fits, Situated, Enc, MatchClosure, Size, GluedLen, CompParts;
    hide CompExpr, Occurs, BranchTo, JumpTo;
    OccursFits(Code(x), Ip(x), GlueOr(parts, Ip(x), end));
    a := PartsLaid(x, es, depth, tail, OR_GAP);
    var popAt := Ip(x) + |a.code| + 11;
    var test := Enc(Dup) + BranchTo(popAt) + JumpTo(end);
    OccursSplit3(Code(x), Ip(x), a.code, test + Enc(Pop), GlueOr(parts[1..], popAt + 1, end));
    OccursSplit(Code(x), Ip(x) + |a.code|, test, Enc(Pop));
    OccursSplit3(Code(x), Ip(x) + |a.code|, Enc(Dup), BranchTo(popAt), JumpTo(end));
    if !tail && NoSlotsSeq(es.tail) {
      SlotsParts(es.tail, x.ctx, Ip(x) + |a.code| + OR_GAP, a.p, depth, OR_GAP);
    }
  }

  /** `and`: a falsy operand leaves by the jump, keeping its value. */
  lemma {:induction false} SimAndParts(x: Point, es: Exprs, depth: nat, tail: bool, parts: seq<seq<byte>>, q: Pools,
        end: nat)
      returns (n: nat, z: Landing)
    requires Situated(x) && x.base == x.c.top.stack && es.More? && SafeSeq(es, tail)
    requires !tail ==> NoSlotsSeq(es.tail)
    requires CompParts(es, x.ctx, Ip(x), x.p, depth, tail, AND_GAP) == Ok((parts, q))
    requires Occurs(Code(x), Ip(x), GlueAnd(parts, end)) && PoolsIn(x.g, x.c.top.fn, q)
    requires end == Ip(x) + GluedLen(parts, AND_GAP) && (tail ==> Exits(Code(x), end))
    ensures Lands(x, n, EvalAnd(x.g.prims, x.fuel, es, x.env, x.s, Pending(x), tail), tail, end, q.slot, z)
    decreases x.fuel, 1, es, 0
  {
    hide Selected;
    hide Lands, MatchMemory, MatchEnv, CompExpr, Occurs, Exits, Safe, Eval, Run, Enc, BranchTo, NoSlots, PoolsIn;
    if es.tail.NoExprs? {
      n, z := SimExpr(x, es.head, depth, tail);
    } else {
      var o' := EvalAnd(x.g.prims, x.fuel, es, x.env, x.s, Pending(x), tail);
      var o := Eval(x.g.prims, x.fuel, es.head, x.env, x.s, Pending(x), false);
      var a := AndLaid(x, es, depth, tail, parts, q, end);
      var w;
      n, w := SimValue(x, es.head, depth);
      if o.Done? {
        var k, y := TestTop(w, x.base, o.value.v, end);
        Chain(x, n, w, k, y);
        if Truthy(o.value.v) {
          var y' := PopRuns(y, x.base, o.value.v);
          Chain(x, n + k, y, 1, y');
          var n';
          n', z := SimAndParts(y', es.tail, depth, tail, parts[1..], q, end);
          ComposeLands(x, n + k + 1, y', n', o', tail, end, q.slot, z);
          n := n + k + 1 + n';
        } else {
          n, z := EndsAt(x, n + k, y, o.value.v, tail, end, q.slot);
        }
      } else {
        z := Here(x);
        AbortLands(x, n, o', tail, end, q.slot, z);
      }
    }
  }

  /** DUP and JUMP_IF_FALSE test the top of the stack and keep it. */
  lemma {:induction false} TestTop(x: Point, rest: seq<Value>, v: Value, target: nat) returns (n: nat, y: Point)
    requires Situated(x) && x.c.top.stack == rest + [v] && x.base <= rest
    requires Occurs(Code(x), Ip(x), Enc(Dup)) && Occurs(Code(x), Ip(x) + 1, BranchTo(target))
    requires Ip(x) + 1 < target <= |Code(x)|
    ensures y.c.Running? && y == x.(c := y.c) && y.c.top.stack == rest + [v]
    ensures Ip(y) == if Truthy(v) then Ip(x) + 6 else target
    ensures Situated(y) && Onward(x, y) && Run(x.g, n, x.c) == y.c
  {
    hide MatchMemory, MatchEnv, Run, Step, Enc, BranchTo, Occurs;
    var w := DupRuns(x, rest, v);
    y := BranchRuns(w, rest + [v], v, target);
    Chain(x, 1, w, 1, y);
    n := 2;
  }

  /** A run that has reached the end of an expression with its value. */
  lemma {:induction false} EndsAt(x: Point, n: nat, y: Point, v: Value, tail: bool, end: nat, slot: u8)
        returns (n': nat, z: Landing)
    requires Situated(x) && Situated(y) && Onward(x, y) && Run(x.g, n, x.c) == y.c
    requires y.c.top.stack == x.base + [v] && Ip(y) == end && (tail ==> Exits(Code(x), end))
    requires !tail ==> slot == y.p.slot
    ensures Lands(x, n', Done(Answer(v, y.s)), tail, end, slot, z)
  {
    hide MatchMemory, MatchEnv, Run, Step, Exits;
    n', z := Arrived(x, n, y, v, Done(Answer(v, y.s)), end, y.p.slot, tail);
  }

  lemma {:induction false} SimOr(x: Point, es: Exprs, depth: nat, tail: bool) returns (n: nat, z: Landing)
    requires Set(x, CompOr(es, x.ctx, Ip(x), x.p, depth, tail), tail)
    requires SafeSeq(es, tail) && (!tail && es.More? ==> NoSlotsSeq(es.tail))
    ensures Done1(x, n, EvalOr(x.g.prims, x.fuel, es, x.env, x.s, Pending(x), tail), tail,
                  CompOr(es, x.ctx, Ip(x), x.p, depth, tail), z)
    decreases x.fuel, 1, es, 1
  {
    hide Lands, MatchMemory, MatchEnv, CompParts, Occurs, Exits, PoolsIn, SafeSeq, NoSlotsSeq, Eval, Run, Enc;
    if es.NoExprs? {
      n, z := SimConst(x, CBool(false), tail);
    } else {
      var (parts, q) := CompParts(es, x.ctx, Ip(x), x.p, depth + 1, tail, OR_GAP).value;
      n, z := SimOrParts(x, es, depth + 1, tail, parts, q, Ip(x) + GluedLen(parts, OR_GAP));
    }
  }

  /** `or`: a truthy operand leaves by the jump that the branch skips. */
  lemma {:induction false} SimOrParts(x: Point, es: Exprs, depth: nat, tail: bool, parts: seq<seq<byte>>, q: Pools,
        end: nat)
      returns (n: nat, z: Landing)
    requires Situated(x) && x.base == x.c.top.stack && es.More? && SafeSeq(es, tail)
    requires !tail ==> NoSlotsSeq(es.tail)
    requires CompParts(es, x.ctx, Ip(x), x.p, depth, tail, OR_GAP) == Ok((parts, q))
    requires Occurs(Code(x), Ip(x), GlueOr(parts, Ip(x), end)) && PoolsIn(x.g, x.c.top.fn, q)
    requires end == Ip(x) + GluedLen(parts, OR_GAP) && (tail ==> Exits(Code(x), end))
    ensures Lands(x, n, EvalOr(x.g.prims, x.fuel, es, x.env, x.s, Pending(x), tail), tail, end, q.slot, z)
    decreases x.fuel, 1, es, 0
  {
    hide Selected, Fits, Size;
    hide Enc;
    hide Lands, MatchMemory, MatchEnv, CompExpr, Occurs, Exits, Safe, Eval, Run, Enc, BranchTo, JumpTo, NoSlots,
      PoolsIn;
    if es.tail.NoExprs? {
      n, z := SimExpr(x, es.head, depth, tail);
    } else {
      var o' := EvalOr(x.g.prims, x.fuel, es, x.env, x.s, Pending(x), tail);
      var o := Eval(x.g.prims, x.fuel, es.head, x.env, x.s, Pending(x), false);
      var popAt := Ip(x) + |parts[0]| + 11;
      var a := OrLaid(x, es, depth, tail, parts, q, end);
      var w;
      n, w := SimValue(x, es.head, depth);
      if o.Done? {
        var k, y := TestTop(w, x.base, o.value.v, popAt);
        Chain(x, n, w, k, y);
        if Truthy(o.value.v) {
          var y' := JumpRuns(y, end);
          Chain(x, n + k, y, 1, y');
          n, z := EndsAt(x, n + k + 1, y', o.value.v, tail, end, q.slot);
        } else {
          var y' := PopRuns(y, x.base, o.value.v);
          Chain(x, n + k, y, 1, y');
          var n';
          n', z := SimOrParts(y', es.tail, depth, tail, parts[1..], q, end);
          ComposeLands(x, n + k + 1, y', n', o', tail, end, q.slot, z);
          n := n + k + 1 + n';
        }
      } else {
        z := Here(x);
        AbortLands(x, n, o', tail, end, q.slot, z);
      }
    }
  }

  lemma {:induction false} WhenLaid(x: Point, test: Expr, body: Exprs, depth: nat, tail: bool)
        returns (t: Emitted, b: Emitted, end: nat)
    requires Set(x, CompWhen(test, body, x.ctx, Ip(x), x.p, depth, tail), tail)
    ensures CompExpr(test, x.ctx, Ip(x), x.p, depth + 1, false) == Ok(t) && Laid(x, t.code, t.p)
    ensures CompSeq(body, x.ctx, Ip(x) + |t.code| + 5, t.p, depth + 1, tail) == Ok(b)
    ensures var r := CompWhen(test, body, x.ctx, Ip(x), x.p, depth, tail).value;
      end == Ip(x) + |r.code| <= |Code(x)| && r.p == EmitConst(b.p, CUnspecified).p && r.p.slot == b.p.slot
      && PoolsIn(x.g, x.c.top.fn, r.p)
      && PoolsIn(x.g, x.c.top.fn, b.p) && (!tail && NoSlotsSeq(body) ==> t.p.slot == b.p.slot)
    ensures end == Ip(x) + |t.code| + 5 + |b.code| + 5 + 5
    ensures Occurs(Code(x), Ip(x) + |t.code|, BranchTo(end - 5)) && Occurs(Code(x), Ip(x) + |t.code| + 5, b.code)
    ensures Occurs(Code(x), end - 10, JumpTo(end)) && Occurs(Code(x), end - 5, EmitConst(b.p, CUnspecified).code)
  {
    hide MatchMemory, MatchEnv, Exits, CompExpr, CompSeq, Occurs, BranchTo, JumpTo, Enc;
    t := CompExpr(test, x.ctx, Ip(x), x.p, depth + 1, false).value;
    b := CompSeq(body, x.ctx, Ip(x) + |t.code| + 5, t.p, depth + 1, tail).value;
    end := Ip(x) + |t.code| + 5 + |b.code| + 5 + 5;
    var u := EmitConst(b.p, CUnspecified);
    OccursFits(Code(x), Ip(x), t.code + BranchTo(end - 5) + b.code + JumpTo(end) + u.code);
    OccursSplit5(Code(x), Ip(x), t.code, BranchTo(end - 5), b.code, JumpTo(end), u.code);
    if !tail && NoSlotsSeq(body) {
      SlotsSeq(body, x.ctx, Ip(x) + |t.code| + 5, t.p, depth + 1);
    }
  }

  lemma {:induction false} WhenMeaning(x: Point, test: Expr, body: Exprs, tail: bool)
    ensures var o := Eval(x.g.prims, x.fuel, test, x.env, x.s, Pending(x), false);
      Eval(x.g.prims, x.fuel, When(test, body), x.env, x.s, Pending(x), tail)
      == if !o.Done? then o
         else if Truthy(o.value.v) then EvalSeq(x.g.prims, x.fuel, body, x.env, o.value.s, Pending(x), tail)
         else Done(Answer(Unspecified, o.value.s))
  {
  }

  lemma {:induction false} SimWhen(x: Point, test: Expr, body: Exprs, depth: nat, tail: bool)
        returns (n: nat, z: Landing)
    requires Set(x, CompWhen(test, body, x.ctx, Ip(x), x.p, depth, tail), tail) && Safe(When(test, body), tail)
    ensures Done1(x, n, Eval(x.g.prims, x.fuel, When(test, body), x.env, x.s, Pending(x), tail), tail,
                  CompWhen(test, body, x.ctx, Ip(x), x.p, depth, tail), z)
    decreases x.fuel, 1, When(test, body), 0
  {
    hide Lands, MatchMemory, MatchEnv, CompWhen, CompExpr, CompSeq, Occurs, Exits, JumpTo, BranchTo, Eval, EvalSeq;
    hide PoolsIn, Run, NoSlotsSeq, SafeSeq, EmitConst;
    var t, b, end := WhenLaid(x, test, body, depth, tail);
    WhenMeaning(x, test, body, tail);
    var o := Eval(x.g.prims, x.fuel, test, x.env, x.s, Pending(x), false);
    var o' := Eval(x.g.prims, x.fuel, When(test, body), x.env, x.s, Pending(x), tail);
    var w, n' := x, 0;
    n, w, z := SimTest(x, test, depth, end - 5);
    if !o.Done? {
      AbortLands(x, n, o', tail, end, b.p.slot, z);
    } else if Truthy(o.value.v) {
      if tail {
        ExitsJump(x, end - 10, end);
      }
      n', z := SimSeq(w, body, depth + 1, tail);
      n', z := LandJump(w, n', o', tail, end - 10, b.p.slot, z, end);
      ComposeLands(x, n, w, n', o', tail, end, b.p.slot, z);
      n := n + n';
    } else {
      var w' := w.(p := b.p);
      n', z := SimUnspecified(w', tail, w.p.slot);
      ComposeLands(x, n, w', n', o', tail, end, w.p.slot, z);
      n := n + n';
      if tail {
        AnySlot(x, n, o', end, w.p.slot, b.p.slot, z);
      }
    }
  }

  /** In tail position the slot count at the end is nobody's concern. */
  lemma {:induction false} AnySlot(x: Point, n: nat, o: Outcome<Answer>, ip: nat, slot: u8, slot': u8, z: Landing)
    requires Live(x) && Lands(x, n, o, true, ip, slot, z)
    ensures Lands(x, n, o, true, ip, slot', z)
  {
  }

  /** The unspecified value, at a point whose pools other branches have grown. */
  lemma {:induction false} SimUnspecified(x: Point, tail: bool, slot: u8) returns (n: nat, z: Landing)
    requires Live(x) && Situated(x.(p := x.p.(slot := slot))) && x.base == x.c.top.stack
    requires Laid(x, EmitConst(x.p, CUnspecified).code, EmitConst(x.p, CUnspecified).p)
    requires tail ==> Exits(Code(x), Ip(x) + 5)
    ensures Lands(x, n, Done(Answer(Unspecified, x.s)), tail, Ip(x) + 5, slot, z)
  {
    hide MatchMemory, MatchEnv, Occurs, Exits, Run, Enc;
    n, z := SimConst(x.(p := x.p.(slot := slot)), CUnspecified, tail);
  }

  lemma {:induction false} UnlessLaid(x: Point, test: Expr, body: Exprs, depth: nat, tail: bool)
      returns (t: Emitted, b: Emitted, bodyAt: nat, end: nat)
    requires Set(x, CompUnless(test, body, x.ctx, Ip(x), x.p, depth, tail), tail)
    ensures CompExpr(test, x.ctx, Ip(x), x.p, depth + 1, false) == Ok(t) && Laid(x, t.code, t.p)
    ensures CompSeq(body, x.ctx, bodyAt, EmitConst(t.p, CUnspecified).p, depth + 1, tail) == Ok(b)
    ensures var r := CompUnless(test, body, x.ctx, Ip(x), x.p, depth, tail).value;
      end == Ip(x) + |r.code| <= |Code(x)| && r.p == b.p && PoolsIn(x.g, x.c.top.fn, b.p)
      && PoolsIn(x.g, x.c.top.fn, EmitConst(t.p, CUnspecified).p)
      && (!tail && NoSlotsSeq(body) ==> t.p.slot == b.p.slot)
    ensures bodyAt == Ip(x) + |t.code| + 15 && end == bodyAt + |b.code|
    ensures Occurs(Code(x), Ip(x) + |t.code|, BranchTo(bodyAt)) && Occurs(Code(x), bodyAt, b.code)
    ensures Occurs(Code(x), bodyAt - 10, EmitConst(t.p, CUnspecified).code) && Occurs(Code(x), bodyAt - 5, JumpTo(end))
  {
    hide MatchMemory, MatchEnv, Exits, CompExpr, CompSeq, Occurs, BranchTo, JumpTo, Enc;
    t := CompExpr(test, x.ctx, Ip(x), x.p, depth + 1, false).value;
    var u := EmitConst(t.p, CUnspecified);
    bodyAt := Ip(x) + |t.code| + 15;
    b := CompSeq(body, x.ctx, bodyAt, u.p, depth + 1, tail).value;
    end := bodyAt + |b.code|;
    OccursFits(Code(x), Ip(x), t.code + BranchTo(bodyAt) + u.code + JumpTo(end) + b.code);
    OccursSplit5(Code(x), Ip(x), t.code, BranchTo(bodyAt), u.code, JumpTo(end), b.code);
    if !tail && NoSlotsSeq(body) {
      SlotsSeq(body, x.ctx, bodyAt, u.p, depth + 1);
    }
  }

  lemma {:induction false} UnlessMeaning(x: Point, test: Expr, body: Exprs, tail: bool)
    ensures var o := Eval(x.g.prims, x.fuel, test, x.env, x.s, Pending(x), false);
      Eval(x.g.prims, x.fuel, Unless(test, body), x.env, x.s, Pending(x), tail)
      == if !o.Done? then o
         else if Truthy(o.value.v) then Done(Answer(Unspecified, o.value.s))
         else EvalSeq(x.g.prims, x.fuel, body, x.env, o.value.s, Pending(x), tail)
  {
  }

  lemma {:induction false} SimUnless(x: Point, test: Expr, body: Exprs, depth: nat, tail: bool)
        returns (n: nat, z: Landing)
    requires Set(x, CompUnless(test, body, x.ctx, Ip(x), x.p, depth, tail), tail) && Safe(Unless(test, body), tail)
    ensures Done1(x, n, Eval(x.g.prims, x.fuel, Unless(test, body), x.env, x.s, Pending(x), tail), tail,
                  CompUnless(test, body, x.ctx, Ip(x), x.p, depth, tail), z)
    decreases x.fuel, 1, Unless(test, body), 0
  {
    hide Lands, MatchMemory, MatchEnv, CompUnless, CompExpr, CompSeq, Occurs, Exits, JumpTo, BranchTo, Eval, EvalSeq;
    hide PoolsIn, Run, NoSlotsSeq, SafeSeq;
    var t, b, bodyAt, end := UnlessLaid(x, test, body, depth, tail);
    UnlessMeaning(x, test, body, tail);
    var o := Eval(x.g.prims, x.fuel, test, x.env, x.s, Pending(x), false);
    var o' := Eval(x.g.prims, x.fuel, Unless(test, body), x.env, x.s, Pending(x), tail);
    var w, n' := x, 0;
    n, w, z := SimTest(x, test, depth, bodyAt);
    if !o.Done? {
      AbortLands(x, n, o', tail, end, b.p.slot, z);
    } else if Truthy(o.value.v) {
      if tail {
        ExitsJump(x, bodyAt - 5, end);
      }
      n', z := SimUnspecified(w, tail, w.p.slot);
      n', z := LandJump(w, n', o', tail, bodyAt - 5, w.p.slot, z, end);
      ComposeLands(x, n, w, n', o', tail, end, w.p.slot, z);
      n := n + n';
      if tail {
        AnySlot(x, n, o', end, w.p.slot, b.p.slot, z);
      }
    } else {
      w := w.(p := EmitConst(t.p, CUnspecified).p);
      n', z := SimSeq(w, body, depth + 1, tail);
      ComposeLands(x, n, w, n', o', tail, end, b.p.slot, z);
      n := n + n';
    }
  }

  /** PUSH_LOCAL gives a new variable the next slot and a cell of its own. */
  lemma {:induction false} BindRuns(x: Point, ext: Ctx, env: Env, name: string, v: Value) returns (w: Point)
    requires Situated(x) && x.c.top.stack == x.base + [v] && x.p.slot < 255
    requires MatchEnv(ext, env, x.c.top.locals, x.c.top.scope, x.l.cell)
    requires Occurs(Code(x), Ip(x), Enc(PushLocal))
    ensures w.c.Running? && w.c.top.stack == x.base && Ip(w) == Ip(x) + 1
    ensures w == x.(c := w.c, l := w.l, s := x.s.(store := x.s.store + [v]), p := x.p.(slot := x.p.slot + 1),
                    ctx := ext.(locals := ext.locals + [(name, x.p.slot)]), env := env + [(name, |x.s.store|)])
    ensures Situated(w) && Onward(x, w) && Run(x.g, 1, x.c) == w.c
  {
    hide Run, Step, Fits;
    StepAt(x, PushLocal);
    assert (x.base + [v])[..|x.base|] == x.base;
    hide MatchMemory;
    var l := BindMemory(x.g.fns, x.c.m, x.s, x.l, [v]);
    assert l.cell == x.l.cell + [|x.c.m.cells|];
    w := x.(c := Run(x.g, 1, x.c), l := l, s := x.s.(store := x.s.store + [v]), p := x.p.(slot := x.p.slot + 1),
            ctx := ext.(locals := ext.locals + [(name, x.p.slot)]), env := env + [(name, |x.s.store|)]);
    BindEnv(ext, env, x.c.top.locals, x.c.top.scope, x.l.cell, name, |x.c.m.cells|);
  }

  /** One more variable in scope, in the cell just allocated. */
  lemma {:induction false} BindEnv(ctx: Ctx, env: Env, locals: seq<nat>, scope: Option<Scope>, cell: seq<nat>,
        name: string, added: nat)
    requires MatchEnv(ctx, env, locals, scope, cell) && |locals| < 255
    ensures MatchEnv(ctx.(locals := ctx.locals + [(name, |locals|)]), env + [(name, |cell|)],
                     locals + [added], scope, cell + [added])
  {
    MatchEnvGrows(ctx, env, locals, scope, cell, locals + [added], cell + [added]);
    var n := |env| - |ctx.locals|;
    var ctx', env' := ctx.(locals := ctx.locals + [(name, |locals|)]), env + [(name, |cell|)];
    assert env'[..n] == env[..n];
    forall i | 0 <= i < |ctx'.locals|
      ensures MatchSlot(ctx'.locals[i], env'[n + i], locals + [added], cell + [added])
    {
      if i < |ctx.locals| {
        assert MatchSlot(ctx.locals[i], env[n + i], locals + [added], cell + [added]);
      }
    }
  }

  ghost function Bound(o: Outcome<(Env, State)>): Outcome<(seq<Value>, State)> {
    match o
    case Done((_, s)) => Done(([], s))
    case Fail(e) => Fail(e)
    case Timeout => Timeout
  }

  /** The first binding and the rest. */
  lemma {:induction false} BindingsShape(bs: Bindings, ctx0: Ctx, ctx: Ctx, at: nat, p: Pools, depth: nat, star: bool)
        returns (a: Emitted, rest: seq<byte>)
    requires bs.Bind? && CompBindings(bs, ctx0, ctx, at, p, depth, star).Ok?
    ensures CompExpr(bs.init, if star then ctx else ctx0, at, p, depth, false) == Ok(a) && a.p.slot < 255
    ensures var (code, q, ext) := CompBindings(bs, ctx0, ctx, at, p, depth, star).value;
      var ctx' := ctx.(locals := ctx.locals + [(bs.x, a.p.slot)]);
      CompBindings(bs.rest, ctx0, ctx', at + |a.code| + 1, a.p.(slot := a.p.slot + 1), depth, star)
        == Ok((rest, q, ext))
      && code == a.code + Enc(PushLocal) + rest && Grown(a.p, q)
  {
    hide CompExpr, Enc;
    a := CompExpr(bs.init, if star then ctx else ctx0, at, p, depth, false).value;
    var ctx' := ctx.(locals := ctx.locals + [(bs.x, a.p.slot)]);
    rest := CompBindings(bs.rest, ctx0, ctx', at + |a.code| + 1, a.p.(slot := a.p.slot + 1), depth, star).value.0;
  }

  lemma {:induction false} BindingsLaid(x: Point, bs: Bindings, ctx0: Ctx, depth: nat, star: bool)
        returns (a: Emitted, rest: seq<byte>)
    requires Live(x) && bs.Bind? && CompBindings(bs, ctx0, x.ctx, Ip(x), x.p, depth, star).Ok?
    requires var (code, q, ext) := CompBindings(bs, ctx0, x.ctx, Ip(x), x.p, depth, star).value; Laid(x, code, q)
    ensures CompExpr(bs.init, if star then x.ctx else ctx0, Ip(x), x.p, depth, false) == Ok(a) && a.p.slot < 255
    ensures var (code, q, ext) := CompBindings(bs, ctx0, x.ctx, Ip(x), x.p, depth, star).value;
      var ctx' := x.ctx.(locals := x.ctx.locals + [(bs.x, a.p.slot)]);
      CompBindings(bs.rest, ctx0, ctx', Ip(x) + |a.code| + 1, a.p.(slot := a.p.slot + 1), depth, star)
        == Ok((rest, q, ext))
      && |code| == |a.code| + 1 + |rest|
    ensures Laid(x, a.code, a.p) && Occurs(Code(x), Ip(x) + |a.code|, Enc(PushLocal))
    ensures Occurs(Code(x), Ip(x) + |a.code| + 1, rest)
  {
    hide Fits, CompExpr, CompBindings, Occurs;
    a, rest := BindingsShape(bs, ctx0, x.ctx, Ip(x), x.p, depth, star);
    OccursSplit3(Code(x), Ip(x), a.code, Enc(PushLocal), rest);
  }

  /** Bindings in order: `x` carries the growing scope, `ctx0`/`env0` the one that `let` inits see. */
  lemma {:induction false} SimBindings(x: Point, bs: Bindings, ctx0: Ctx, env0: Env, depth: nat, star: bool)
      returns (n: nat, z: Landing)
    requires Situated(x) && x.base == x.c.top.stack && SafeBindings(bs)
    requires MatchEnv(ctx0, env0, x.c.top.locals, x.c.top.scope, x.l.cell)
    requires CompBindings(bs, ctx0, x.ctx, Ip(x), x.p, depth, star).Ok?
    requires var (code, q, ext) := CompBindings(bs, ctx0, x.ctx, Ip(x), x.p, depth, star).value; Laid(x, code, q)
    ensures var (code, q, ext) := CompBindings(bs, ctx0, x.ctx, Ip(x), x.p, depth, star).value;
      var o := EvalBindings(x.g.prims, x.fuel, bs, env0, x.env, x.s, Pending(x), star);
      Meets(x, n, Bound(o), Ip(x) + |code|, q.slot, z)
      && (o.Done? ==> MatchEnv(ext, o.value.0, z.locals, x.c.top.scope, z.l.cell))
    decreases x.fuel, 1, bs, 1
  {
    hide MatchMemory, CompExpr, Occurs, Safe, Eval, Run, Step, PoolsIn;
    if bs.NoBindings? {
      n, z := 0, Here(x);
      RunZero(x.g, x.c);
      assert x.base + [] == x.base;
    } else {
      n, z := SimBinding(x, bs, ctx0, env0, depth, star);
    }
  }

  lemma {:induction false} SimBinding(x: Point, bs: Bindings, ctx0: Ctx, env0: Env, depth: nat, star: bool)
      returns (n: nat, z: Landing)
    requires Situated(x) && x.base == x.c.top.stack && bs.Bind? && SafeBindings(bs)
    requires MatchEnv(ctx0, env0, x.c.top.locals, x.c.top.scope, x.l.cell)
    requires CompBindings(bs, ctx0, x.ctx, Ip(x), x.p, depth, star).Ok?
    requires var (code, q, ext) := CompBindings(bs, ctx0, x.ctx, Ip(x), x.p, depth, star).value; Laid(x, code, q)
    ensures var (code, q, ext) := CompBindings(bs, ctx0, x.ctx, Ip(x), x.p, depth, star).value;
      var o := EvalBindings(x.g.prims, x.fuel, bs, env0, x.env, x.s, Pending(x), star);
      Meets(x, n, Bound(o), Ip(x) + |code|, q.slot, z)
      && (o.Done? ==> MatchEnv(ext, o.value.0, z.locals, x.c.top.scope, z.l.cell))
    decreases x.fuel, 1, bs, 0
  {
    var o' := EvalBindings(x.g.prims, x.fuel, bs, env0, x.env, x.s, Pending(x), star);
    hide MatchMemory, MatchEnv, CompBindings, CompExpr, Occurs, Safe, Eval, Run, Step, PoolsIn, Meets;
    var a, rest := BindingsLaid(x, bs, ctx0, depth, star);
    var y := if star then x else x.(ctx := ctx0, env := env0);
    var o := Eval(x.g.prims, x.fuel, bs.init, y.env, x.s, Pending(x), false);
    var end := Ip(x) + |a.code| + 1 + |rest|;
    var w;
    n, w := SimValue(y, bs.init, depth);
    if o.Done? {
      MatchEnvGrows(x.ctx, x.env, x.c.top.locals, x.c.top.scope, x.l.cell, w.c.top.locals, w.l.cell);
      var w' := BindRuns(w, x.ctx, x.env, bs.x, o.value.v);
      Chain(x, n, w, 1, w');
      MatchEnvGrows(ctx0, env0, x.c.top.locals, x.c.top.scope, x.l.cell, w'.c.top.locals, w'.l.cell);
      var n';
      n', z := SimBindings(w', bs.rest, ctx0, env0, depth, star);
      var q := CompBindings(bs, ctx0, x.ctx, Ip(x), x.p, depth, star).value.1;
      Compose(x, n + 1, w', n', Bound(o'), end, q.slot, z);
      n := n + 1 + n';
    } else {
      z := Here(x);
      var q := CompBindings(bs, ctx0, x.ctx, Ip(x), x.p, depth, star).value.1;
      AbortMeets(x, n, o, Bound(o'), end, q.slot, z);
    }
  }

  lemma {:induction false} AbortMeets(x: Point, n: nat, o: Outcome<Answer>, o': Outcome<(seq<Value>, State)>, ip: nat,
        slot: u8, z: Landing)
    requires Live(x) && Aborts(x, n, o) && !o'.Done?
    requires o.Fail? ==> o' == Fail(o.error)
    requires o.Timeout? ==> o'.Timeout?
    ensures Meets(x, n, o', ip, slot, z)
  {
  }

  lemma {:induction false} LetLaid(x: Point, bs: Bindings, body: Exprs, depth: nat, tail: bool, star: bool)
      returns (code: seq<byte>, q: Pools, ext: Ctx, b: Emitted)
    requires Set(x, CompLet(bs, body, x.ctx, Ip(x), x.p, depth, tail, star), tail)
    ensures CompBindings(bs, x.ctx, x.ctx, Ip(x), x.p, depth + 1, star) == Ok((code, q, ext)) && Laid(x, code, q)
    ensures CompSeq(body, ext, Ip(x) + |code|, q, depth + 1, tail) == Ok(b)
    ensures Occurs(Code(x), Ip(x) + |code|, b.code) && PoolsIn(x.g, x.c.top.fn, b.p)
    ensures var r := CompLet(bs, body, x.ctx, Ip(x), x.p, depth, tail, star).value;
      |r.code| == |code| + |b.code| && r.p == b.p
  {
    hide MatchMemory, MatchEnv, Exits, CompBindings, CompSeq, Occurs;
    var r := CompBindings(bs, x.ctx, x.ctx, Ip(x), x.p, depth + 1, star).value;
    code, q, ext := r.0, r.1, r.2;
    b := CompSeq(body, ext, Ip(x) + |code|, q, depth + 1, tail).value;
    OccursSplit(Code(x), Ip(x), code, b.code);
  }

  lemma {:induction false} LetMeaning(x: Point, bs: Bindings, body: Exprs, tail: bool, star: bool)
    ensures var o := EvalBindings(x.g.prims, x.fuel, bs, x.env, x.env, x.s, Pending(x), star);
      Eval(x.g.prims, x.fuel, if star then LetStar(bs, body) else Let(bs, body), x.env, x.s, Pending(x), tail)
      == if o.Done? then EvalSeq(x.g.prims, x.fuel, body, o.value.0, o.value.1, Pending(x), tail)
         else if o.Fail? then Fail(o.error) else Timeout
  {
  }

  lemma {:induction false} SimLet(x: Point, bs: Bindings, body: Exprs, depth: nat, tail: bool, star: bool)
      returns (n: nat, z: Landing)
    requires Set(x, CompLet(bs, body, x.ctx, Ip(x), x.p, depth, tail, star), tail)
    requires SafeBindings(bs) && SafeSeq(body, tail)
    ensures var e := if star then LetStar(bs, body) else Let(bs, body);
      Done1(x, n, Eval(x.g.prims, x.fuel, e, x.env, x.s, Pending(x), tail), tail,
            CompLet(bs, body, x.ctx, Ip(x), x.p, depth, tail, star), z)
    decreases x.fuel, 1, if star then LetStar(bs, body) else Let(bs, body), 0
  {
    hide MatchMemory, MatchEnv, CompLet, CompBindings, CompSeq, Occurs, Exits, Eval, EvalSeq, EvalBindings, Run;
    hide PoolsIn, SafeSeq, SafeBindings;
    var code, q, ext, b := LetLaid(x, bs, body, depth, tail, star);
    LetMeaning(x, bs, body, tail, star);
    var o := EvalBindings(x.g.prims, x.fuel, bs, x.env, x.env, x.s, Pending(x), star);
    n, z := SimBindings(x, bs, x.ctx, x.env, depth + 1, star);
    if o.Done? {
      var (env, s) := o.value;
      var w := After(x, Ip(x) + |code|, [], s, q, z).(ctx := ext, env := env);
      assert x.base + [] == x.base;
      var o' := EvalSeq(x.g.prims, x.fuel, body, env, s, Pending(x), tail);
      var n';
      n', z := SimSeq(w, body, depth + 1, tail);
      hide Lands;
      ComposeLands(x, n, w, n', o', tail, Ip(x) + |code| + |b.code|, b.p.slot, z);
      n := n + n';
    }
  }

  lemma {:induction false} ArgsLaid(x: Point, es: Exprs, depth: nat) returns (a: Emitted, b: Emitted)
    requires Live(x) && es.More? && CompArgs(es, x.ctx, Ip(x), x.p, depth).Ok?
    requires var r := CompArgs(es, x.ctx, Ip(x), x.p, depth).value; Laid(x, r.code, r.p)
    ensures CompExpr(es.head, x.ctx, Ip(x), x.p, depth, false) == Ok(a) && Laid(x, a.code, a.p)
    ensures CompArgs(es.tail, x.ctx, Ip(x) + |a.code|, a.p, depth) == Ok(b)
    ensures Occurs(Code(x), Ip(x) + |a.code|, b.code) && PoolsIn(x.g, x.c.top.fn, b.p)
    ensures var r := CompArgs(es, x.ctx, Ip(x), x.p, depth).value; |r.code| == |a.code| + |b.code| && r.p == b.p
  {
    hide CompExpr, Occurs;
    a := CompExpr(es.head, x.ctx, Ip(x), x.p, depth, false).value;
    b := CompArgs(es.tail, x.ctx, Ip(x) + |a.code|, a.p, depth).value;
    OccursSplit(Code(x), Ip(x), a.code, b.code);
  }

  /** Arguments left to right, each pushed above the ones before it. */
  lemma {:induction false} SimArgs(x: Point, es: Exprs, depth: nat) returns (n: nat, w: Point)
    requires Situated(x) && SafeSeq(es, false) && CompArgs(es, x.ctx, Ip(x), x.p, depth).Ok?
    requires var r := CompArgs(es, x.ctx, Ip(x), x.p, depth).value; Laid(x, r.code, r.p)
    ensures var r := CompArgs(es, x.ctx, Ip(x), x.p, depth).value;
      match EvalArgs(x.g.prims, x.fuel, es, x.env, x.s, Pending(x))
      case Done(a) =>
        Situated(w) && Onward(x, w) && Run(x.g, n, x.c) == w.c && |a.0| == Count(es)
        && w == x.(c := w.c, s := a.1, p := r.p, l := w.l)
        && w.c.top.stack == x.c.top.stack + a.0 && Ip(w) == Ip(x) + |r.code|
      case Fail(e) => Run(x.g, n, x.c) == Stopped(e)
      case Timeout => n >= x.fuel && Run(x.g, n, x.c).Running?
    decreases x.fuel, 1, es, 1
  {
    hide MatchMemory, MatchEnv, CompExpr, Occurs, Safe, Eval, Run, PoolsIn;
    if es.NoExprs? {
      n, w := 0, x;
      RunZero(x.g, x.c);
      assert x.c.top.stack + [] == x.c.top.stack;
    } else {
      n, w := SimArg(x, es, depth);
    }
  }

  lemma {:induction false} SimArg(x: Point, es: Exprs, depth: nat) returns (n: nat, w: Point)
    requires Situated(x) && es.More? && SafeSeq(es, false) && CompArgs(es, x.ctx, Ip(x), x.p, depth).Ok?
    requires var r := CompArgs(es, x.ctx, Ip(x), x.p, depth).value; Laid(x, r.code, r.p)
    ensures var r := CompArgs(es, x.ctx, Ip(x), x.p, depth).value;
      match EvalArgs(x.g.prims, x.fuel, es, x.env, x.s, Pending(x))
      case Done(a) =>
        Situated(w) && Onward(x, w) && Run(x.g, n, x.c) == w.c && |a.0| == Count(es)
        && w == x.(c := w.c, s := a.1, p := r.p, l := w.l)
        && w.c.top.stack == x.c.top.stack + a.0 && Ip(w) == Ip(x) + |r.code|
      case Fail(e) => Run(x.g, n, x.c) == Stopped(e)
      case Timeout => n >= x.fuel && Run(x.g, n, x.c).Running?
    decreases x.fuel, 1, es, 0
  {
    var o' := EvalArgs(x.g.prims, x.fuel, es, x.env, x.s, Pending(x));
    hide MatchMemory, MatchEnv, CompArgs, CompExpr, Occurs, Safe, Eval, Run, PoolsIn;
    var a, b := ArgsLaid(x, es, depth);
    var o := Eval(x.g.prims, x.fuel, es.head, x.env, x.s, Pending(x), false);
    n, w := SimValue(x, es.head, depth);
    if o.Done? {
      var y, k := w, n;
      n, w := SimArgs(y, es.tail, depth);
      if o'.Done? {
        Chain(x, k, y, n, w);
        var vs := EvalArgs(x.g.prims, x.fuel, es.tail, x.env, y.s, Pending(x)).value.0;
        assert x.c.top.stack + [o.value.v] + vs == x.c.top.stack + ([o.value.v] + vs);
      }
      RunAdd(x.g, k, n, x.c);
      n := k + n;
    }
  }

  // ----- cond / case -----

  /** Where the clauses from some point on, the no-match path and the padding stubs sit. */
  datatype Layout = Layout(at: nat, parts: seq<Part>, discard: seq<byte>, np: Pools, stubAt: nat, sp: Pools,
                           mark: u8, target: u8, tail: bool, end: nat)
  {
    function NoneAt(): nat {
      at + PartsLen(parts)
    }

    function None(): Emitted {
      EmitConst(np.(slot := mark), CUnspecified)
    }

    function NonePad(): Emitted
      requires mark + target < 256
    {
      PadUnlessTail(None().p, mark + target, tail)
    }

    function StubPad(): Emitted
      requires mark + target < 256 && parts != [] && parts[0].needs <= target
    {
      PadUnlessTail(sp.(slot := mark + parts[0].needs), mark + target, tail)
    }

    ghost predicate Fit() {
      mark + target < 256 && forall i :: 0 <= i < |parts| ==> parts[i].needs <= target
    }

    /** The layout that starts after the first clause. */
    function Rest(): Layout
      requires mark + target < 256 && parts != [] && parts[0].needs <= target
    {
      this.(at := at + |parts[0].pre| + 5 + |parts[0].post|, parts := parts[1..],
            stubAt := stubAt + StubLen(parts[0].needs, target, tail), sp := StubPad().p)
    }
  }

  ghost predicate Selected(x: Point, y: Layout) {
    Live(x) && y.Fit()
    && y.NoneAt() + |y.discard| + 5 + |y.NonePad().code| + 5 <= y.stubAt
    && y.stubAt + StubsLen(y.parts, y.target, y.tail) == y.end <= |Code(x)|
    && Occurs(Code(x), y.at, JoinParts(y.parts, y.stubAt, y.target, y.tail))
    && Occurs(Code(x), y.NoneAt(), y.discard)
    && Occurs(Code(x), y.NoneAt() + |y.discard|, y.None().code)
    && Occurs(Code(x), y.NoneAt() + |y.discard| + 5, y.NonePad().code)
    && Occurs(Code(x), y.NoneAt() + |y.discard| + 5 + |y.NonePad().code|, JumpTo(y.end))
    && PoolsIn(x.g, x.c.top.fn, y.np) && PoolsIn(x.g, x.c.top.fn, y.None().p)
    && PoolsIn(x.g, x.c.top.fn, y.NonePad().p)
    && Occurs(Code(x), y.stubAt, Stubs(y.parts, y.sp, y.mark, y.target, y.tail, y.end).code)
    && PoolsIn(x.g, x.c.top.fn, Stubs(y.parts, y.sp, y.mark, y.target, y.tail, y.end).p)
    && (y.tail ==> Exits(Code(x), y.end))
  }

  lemma {:induction false} SelectLaid(x: Point, at: nat, parts: seq<Part>, q: Pools, mark: u8, tail: bool,
        discard: seq<byte>)
      returns (y: Layout)
    requires Live(x) && mark <= q.slot && forall i :: 0 <= i < |parts| ==> mark + parts[i].needs < 256
    requires var r := Select(parts, at, q, mark, tail, discard);
      Occurs(Code(x), at, r.code) && PoolsIn(x.g, x.c.top.fn, r.p) && (tail ==> Exits(Code(x), at + |r.code|))
    ensures Selected(x, y) && y.at == at && y.parts == parts && y.np == q && y.discard == discard
    ensures y.mark == mark && y.tail == tail && y.target == MaxNeeds(parts) && y.Fit()
    ensures var r := Select(parts, at, q, mark, tail, discard);
      y.end == at + |r.code| && (!tail ==> r.p.slot == mark + y.target)
  {
    hide Occurs, Exits, JumpTo, Stubs, JoinParts, PadUnlessTail, EmitConst, StubsLen, PartsLen, MaxNeeds;
    var target := MaxNeeds(parts);
    MaxNeedsFits(parts, mark);
    var none := EmitConst(q.(slot := mark), CUnspecified);
    var pad := PadUnlessTail(none.p, mark + target, tail);
    var stubAt := at + PartsLen(parts) + |discard| + 5 + |pad.code| + 5;
    var end := stubAt + StubsLen(parts, target, tail);
    var stubs := Stubs(parts, pad.p, mark, target, tail, end);
    var join := JoinParts(parts, stubAt, target, tail);
    y := Layout(at, parts, discard, q, stubAt, pad.p, mark, target, tail, end);
    OccursFits(Code(x), at, join + (discard + none.code + pad.code + JumpTo(end)) + stubs.code);
    OccursSplit3(Code(x), at, join, discard + none.code + pad.code + JumpTo(end), stubs.code);
    OccursSplit(Code(x), y.NoneAt(), discard + none.code + pad.code, JumpTo(end));
    OccursSplit3(Code(x), y.NoneAt(), discard, none.code, pad.code);
  }

  /** The first clause's final jump, its stub, and the layout of the others. */
  lemma {:induction false} ClauseLaid(x: Point, y: Layout)
    requires Selected(x, y) && y.parts != []
    ensures Occurs(Code(x), y.at, y.parts[0].pre)
    ensures Occurs(Code(x), y.at + |y.parts[0].pre|, JumpTo(y.stubAt)) && y.at + |y.parts[0].pre| < y.stubAt
    ensures Occurs(Code(x), y.at + |y.parts[0].pre| + 5, y.parts[0].post)
    ensures Occurs(Code(x), y.stubAt, y.StubPad().code) && PoolsIn(x.g, x.c.top.fn, y.StubPad().p)
    ensures Occurs(Code(x), y.stubAt + |y.StubPad().code|, JumpTo(y.end)) && y.stubAt + |y.StubPad().code| < y.end
    ensures Selected(x, y.Rest()) && y.Rest().NoneAt() == y.NoneAt() && y.Rest().at <= |Code(x)|
    ensures PoolsIn(x.g, x.c.top.fn, y.np)
  {
    hide Occurs, Exits, JumpTo, PadUnlessTail, EmitConst, Stubs, JoinParts;
    StubSplit(Code(x), y);
    JoinSplit(Code(x), y);
  }

  lemma {:induction false} StubSplit(code: seq<byte>, y: Layout)
    requires y.Fit() && y.parts != []
    requires Occurs(code, y.stubAt, Stubs(y.parts, y.sp, y.mark, y.target, y.tail, y.end).code)
    ensures Occurs(code, y.stubAt, y.StubPad().code) && Occurs(code, y.stubAt + |y.StubPad().code|, JumpTo(y.end))
    ensures y.Rest().stubAt == y.stubAt + |y.StubPad().code| + 5 && y.Rest().Fit()
    ensures var z, r := y.Rest(), Stubs(y.parts, y.sp, y.mark, y.target, y.tail, y.end);
      var r' := Stubs(z.parts, z.sp, z.mark, z.target, z.tail, z.end);
      Occurs(code, z.stubAt, r'.code) && r'.p == r.p && y.StubPad().p.consts <= r.p.consts
        && y.StubPad().p.fns == r.p.fns
    ensures StubsLen(y.parts, y.target, y.tail) == |y.StubPad().code| + 5 + StubsLen(y.parts[1..], y.target, y.tail)
  {
    hide Occurs, JumpTo;
    var rest := Stubs(y.parts[1..], y.StubPad().p, y.mark, y.target, y.tail, y.end);
    OccursSplit3(code, y.stubAt, y.StubPad().code, JumpTo(y.end), rest.code);
  }

  lemma {:induction false} JoinSplit(code: seq<byte>, y: Layout)
    requires y.Fit() && y.parts != []
    requires Occurs(code, y.at, JoinParts(y.parts, y.stubAt, y.target, y.tail))
    ensures Occurs(code, y.at, y.parts[0].pre) && Occurs(code, y.at + |y.parts[0].pre|, JumpTo(y.stubAt))
    ensures Occurs(code, y.at + |y.parts[0].pre| + 5, y.parts[0].post)
    ensures var z := y.Rest(); Occurs(code, z.at, JoinParts(z.parts, z.stubAt, z.target, z.tail))
    ensures y.Rest().NoneAt() == y.NoneAt()
    ensures PartsLen(y.parts) == |y.parts[0].pre| + 5 + |y.parts[0].post| + PartsLen(y.parts[1..])
  {
    hide Occurs, JumpTo, PadUnlessTail;
    var p, z := y.parts[0], y.Rest();
    OccursSplit(code, y.at, p.pre + JumpTo(y.stubAt) + p.post, JoinParts(z.parts, z.stubAt, z.target, z.tail));
    OccursSplit3(code, y.at, p.pre, JumpTo(y.stubAt), p.post);
  }

  /** A clause whose value is on the stack leaves through its stub. */
  lemma {:induction false} ClauseDone(x: Point, n: nat, o: Outcome<Answer>, z: Landing, y: Layout)
        returns (n': nat, z': Landing)
    requires Situated(x) && Selected(x, y) && y.parts != []
    requires Lands(x, n, o, y.tail, y.at + |y.parts[0].pre|, y.mark + y.parts[0].needs, z)
    ensures Lands(x, n', o, y.tail, y.end, y.mark + y.target, z')
  {
    hide MatchMemory, MatchEnv, Occurs, Exits, Run, JumpTo, PadUnlessTail, Stubs, JoinParts, EmitConst, Lands, PoolsIn;
    ClauseLaid(x, y);
    var slot := y.mark + y.parts[0].needs;
    n', z' := LandJump(x, n, o, y.tail, y.at + |y.parts[0].pre|, slot, z, y.stubAt);
    n', z' := LandPad(x, n', o, y.tail, y.stubAt, slot, z', y.sp.(slot := slot), y.mark + y.target);
    n', z' := LandJump(x, n', o, y.tail, y.stubAt + |y.StubPad().code|, y.StubPad().p.slot, z', y.end);
    if y.tail {
      AnySlot(x, n', o, y.end, y.StubPad().p.slot, y.mark + y.target, z');
    }
  }

  /** In tail position the jump that ends a clause is on the way to RETURN. */
  lemma {:induction false} ClauseExits(x: Point, y: Layout)
    requires Situated(x) && Selected(x, y) && y.parts != [] && y.tail
    ensures Exits(Code(x), y.at + |y.parts[0].pre|)
  {
    hide MatchMemory, MatchEnv, Occurs, Exits, JumpTo, Stubs, JoinParts, EmitConst, PoolsIn;
    ClauseLaid(x, y);
    ExitsJump(x, y.stubAt, y.end);
    ExitsJump(x, y.at + |y.parts[0].pre|, y.stubAt);
  }

  /** When no clause is left, the no-match path yields the unspecified value. */
  lemma {:induction false} NoneDone(x: Point, y: Layout) returns (n: nat, z: Landing)
    requires Situated(x) && Selected(x, y) && x.base == x.c.top.stack && x.p.slot == y.mark
    requires Ip(x) == y.NoneAt() + |y.discard|
    ensures Lands(x, n, Done(Answer(Unspecified, x.s)), y.tail, y.end, y.mark + y.target, z)
  {
    hide MatchMemory, MatchEnv, Occurs, Exits, Run, JumpTo, PadUnlessTail, Stubs, JoinParts, Lands, PoolsIn, Enc;
    var o := Done(Answer(Unspecified, x.s));
    var x' := x.(p := y.np.(slot := y.mark));
    if y.tail {
      NoneExits(x, y);
    }
    n, z := SimConst(x', CUnspecified, y.tail);
    n, z := LandPad(x', n, o, y.tail, Ip(x) + 5, y.mark, z, y.None().p, y.mark + y.target);
    n, z := LandJump(x', n, o, y.tail, Ip(x) + 5 + |y.NonePad().code|, y.NonePad().p.slot, z, y.end);
    if y.tail {
      AnySlot(x', n, o, y.end, y.NonePad().p.slot, y.mark + y.target, z);
    }
    RunZero(x.g, x.c);
    ComposeLands(x, 0, x', n, o, y.tail, y.end, y.mark + y.target, z);
  }

  lemma {:induction false} NoneExits(x: Point, y: Layout)
    requires Situated(x) && Selected(x, y) && y.tail
    ensures Exits(Code(x), y.NoneAt() + |y.discard| + 5)
  {
    hide MatchMemory, MatchEnv, Occurs, Exits, JumpTo, Stubs, JoinParts, EmitConst, PoolsIn;
    ExitsJump(x, y.NoneAt() + |y.discard| + 5, y.end);
  }

  lemma {:induction false} SelectedOn(x: Point, w: Point, y: Layout)
    requires Selected(x, y) && Onward(x, w)
    ensures Selected(w, y)
  {
    hide Occurs, Exits, JumpTo, PadUnlessTail, Stubs, JoinParts, EmitConst, PoolsIn, Run;
  }

  lemma {:induction false} SimCond(x: Point, ts: Tests, depth: nat, tail: bool) returns (n: nat, z: Landing)
    requires Set(x, CompCond(ts, x.ctx, Ip(x), x.p, depth, tail), tail) && SafeTests(ts, tail)
    ensures Done1(x, n, EvalCond(x.g.prims, x.fuel, ts, x.env, x.s, Pending(x), tail), tail,
                  CompCond(ts, x.ctx, Ip(x), x.p, depth, tail), z)
    decreases x.fuel, 1, ts, 4
  {
    hide MatchMemory, MatchEnv, CompTests, Occurs, Exits, Run, PoolsIn, Select, EvalCond, Lands, SafeTests, Selected;
    var (parts, q) := CompTests(ts, x.ctx, Ip(x), x.p, x.p.slot, depth, tail).value;
    var y := SelectLaid(x, Ip(x), parts, q, x.p.slot, tail, []);
    assert x.p.(slot := x.p.slot) == x.p;
    n, z := SimTests(x, ts, depth, y, x.p);
    if tail {
      AnySlot(x, n, EvalCond(x.g.prims, x.fuel, ts, x.env, x.s, Pending(x), tail), y.end, y.mark + y.target,
              CompCond(ts, x.ctx, Ip(x), x.p, depth, tail).value.p.slot, z);
    }
  }

  /** `x` is at the first clause of the layout, with only the slots that preceded the `cond`/`case`. */
  ghost predicate AtClause(x: Point, y: Layout, p: Pools) {
    Situated(x) && Selected(x, y) && Ip(x) == y.at && y.mark <= p.slot && x.p == p.(slot := y.mark)
  }

  lemma {:induction false} SimTests(x: Point, ts: Tests, depth: nat, y: Layout, p: Pools) returns (n: nat, z: Landing)
    requires AtClause(x, y, p) && y.discard == [] && x.base == x.c.top.stack && SafeTests(ts, y.tail)
    requires CompTests(ts, x.ctx, y.at, p, y.mark, depth, y.tail) == Ok((y.parts, y.np))
    ensures Lands(x, n, EvalCond(x.g.prims, x.fuel, ts, x.env, x.s, Pending(x), y.tail), y.tail, y.end,
                  y.mark + y.target, z)
    decreases x.fuel, 1, ts, 1
  {
    hide MatchMemory, MatchEnv, CompSeq, CompExpr, Occurs, Exits, Run, PoolsIn, Lands, Eval, EvalSeq, Safe, Selected;
    match ts
    case NoTests => n, z := NoneDone(x, y);
    case ElseTests(body) => n, z := SimElseClause(x, body, depth, y, p);
    case Test(_, _, _) => n, z := SimTestClause(x, ts, depth, y, p);
    case Arrow(_, _, _) => n, z := SimArrowClause(x, ts, depth, y, p);
  }

  lemma {:induction false} SimElseClause(x: Point, body: Exprs, depth: nat, y: Layout, p: Pools)
        returns (n: nat, z: Landing)
    requires AtClause(x, y, p) && x.base == x.c.top.stack && SafeSeq(body, y.tail)
    requires CompSeq(body, x.ctx, y.at, x.p, depth + 1, y.tail).Ok?
    requires var b := CompSeq(body, x.ctx, y.at, x.p, depth + 1, y.tail).value;
      y.parts == [Part(b.code, [], b.p.slot - y.mark)] && y.np == b.p
    ensures Lands(x, n, EvalSeq(x.g.prims, x.fuel, body, x.env, x.s, Pending(x), y.tail), y.tail, y.end,
                  y.mark + y.target, z)
    decreases x.fuel, 1, body, 3
  {
    hide MatchMemory, MatchEnv, CompSeq, Occurs, Exits, Run, PoolsIn, EvalSeq, SafeSeq, JoinParts, Stubs, EmitConst;
    ClauseLaid(x, y);
    if y.tail {
      ClauseExits(x, y);
    }
    hide Lands;
    var o := EvalSeq(x.g.prims, x.fuel, body, x.env, x.s, Pending(x), y.tail);
    n, z := SimSeq(x, body, depth + 1, y.tail);
    n, z := ClauseDone(x, n, o, z, y);
  }

  lemma {:induction false} TailStubs(parts: seq<Part>, p: Pools, p': Pools, mark: u8, mark': u8, target: u8,
        target': u8, end: nat)
    requires mark + target < 256 && mark' + target' < 256 && p.consts == p'.consts && p.fns == p'.fns
    requires forall i :: 0 <= i < |parts| ==> parts[i].needs <= target && parts[i].needs <= target'
    ensures StubsLen(parts, target, true) == StubsLen(parts, target', true)
    ensures var r, r' := Stubs(parts, p, mark, target, true, end), Stubs(parts, p', mark', target', true, end);
      r.code == r'.code && r.p.consts == r'.p.consts && r.p.fns == r'.p.fns
    decreases parts
  {
    hide JumpTo;
    if parts != [] {
      TailStubs(parts[1..], p.(slot := mark + parts[0].needs), p'.(slot := mark' + parts[0].needs), mark, mark', target,
                target', end);
    }
  }

  lemma {:induction false} TailJoin(parts: seq<Part>, stubAt: nat, target: u8, target': u8)
    ensures JoinParts(parts, stubAt, target, true) == JoinParts(parts, stubAt, target', true)
    decreases parts
  {
    hide JumpTo;
    if parts != [] {
      TailJoin(parts[1..], stubAt + 5, target, target');
    }
  }

  /** The layout seen from a frame with other slots below: in tail position nothing is padded. */
  ghost function Shifted(y: Layout, slot: u8): Layout {
    y.(mark := slot, target := 0, np := y.np.(slot := slot))
  }

  lemma {:induction false} ShiftedSelects(x: Point, y: Layout, slot: u8)
    requires Selected(x, y) && y.tail && NeedNothing(y.parts)
    ensures Selected(x, Shifted(y, slot))
  {
    hide Occurs, Exits, JumpTo, Stubs, JoinParts, StubsLen, PartsLen;
    TailStubs(y.parts, y.sp, y.sp, y.mark, slot, y.target, 0, y.end);
    TailJoin(y.parts, y.stubAt, y.target, 0);
  }

  /** The clauses after one whose test has failed: that test may have left slots behind where nothing counts on them. */
  lemma {:induction false} SimRest(x: Point, ts: Tests, depth: nat, y: Layout, p: Pools) returns (n: nat, z: Landing)
    requires Situated(x) && Selected(x, y) && Ip(x) == y.at && y.mark <= p.slot && x.p == p.(slot := x.p.slot)
    requires x.p.slot == y.mark || (y.tail && NoSlotsTests(ts))
    requires y.discard == [] && x.base == x.c.top.stack && SafeTests(ts, y.tail)
    requires CompTests(ts, x.ctx, y.at, p, y.mark, depth, y.tail) == Ok((y.parts, y.np))
    ensures Lands(x, n, EvalCond(x.g.prims, x.fuel, ts, x.env, x.s, Pending(x), y.tail), y.tail, y.end,
                  y.mark + y.target, z)
    decreases x.fuel, 1, ts, 2
  {
    hide Run, MatchMemory, MatchEnv, CompTests, Occurs, Exits, PoolsIn, Lands, EvalCond, SafeTests, Fits;
    hide JoinParts, Stubs, JumpTo, PadUnlessTail, EmitConst;
    if x.p.slot == y.mark {
      n, z := SimTests(x, ts, depth, y, p);
    } else {
      var slot := x.p.slot;
      FreeTests(ts, x.ctx, y.at, p, y.mark, depth, true, slot);
      ShiftedSelects(x, y, slot);
      n, z := SimTests(x, ts, depth, Shifted(y, slot), p.(slot := slot));
      AnySlot(x, n, EvalCond(x.g.prims, x.fuel, ts, x.env, x.s, Pending(x), true), y.end, slot, y.mark + y.target, z);
    }
  }

  lemma {:induction false} TestLaid(x: Point, ts: Tests, depth: nat, y: Layout, p: Pools)
        returns (t: Emitted, b: Emitted)
    requires Live(x) && Selected(x, y) && Ip(x) == y.at && y.mark <= p.slot && ts.Test?
    requires CompTests(ts, x.ctx, y.at, p, y.mark, depth, y.tail) == Ok((y.parts, y.np))
    ensures CompExpr(ts.test, x.ctx, y.at, p.(slot := y.mark), depth + 1, false) == Ok(t) && Laid(x, t.code, t.p)
    ensures NoSlots(ts.test) ==> t.p.slot == y.mark
    ensures CompSeq(ts.body, x.ctx, y.at + |t.code| + 5, t.p, depth + 1, y.tail) == Ok(b)
    ensures y.parts != [] && y.parts[0] == Part(y.parts[0].pre, [], b.p.slot - y.mark)
    ensures |y.parts[0].pre| == |t.code| + 5 + |b.code| && y.mark <= b.p.slot
    ensures var skip := y.at + |y.parts[0].pre| + 5;
      Occurs(Code(x), y.at + |t.code|, BranchTo(skip)) && skip <= |Code(x)|
      && CompTests(ts.rest, x.ctx, skip, b.p, y.mark, depth, y.tail) == Ok((y.parts[1..], y.np))
    ensures Occurs(Code(x), y.at + |t.code| + 5, b.code) && PoolsIn(x.g, x.c.top.fn, b.p)
  {
    hide MatchMemory, MatchEnv, CompSeq, CompExpr, Occurs, Exits, JumpTo, BranchTo, EmitConst, NoSlots, Selected;
    hide JoinParts, Stubs, PadUnlessTail, Fits;
    ClauseLaid(x, y);
    t := CompExpr(ts.test, x.ctx, y.at, p.(slot := y.mark), depth + 1, false).value;
    b := CompSeq(ts.body, x.ctx, y.at + |t.code| + 5, t.p, depth + 1, y.tail).value;
    if NoSlots(ts.test) {
      SlotsExpr(ts.test, x.ctx, y.at, p.(slot := y.mark), depth + 1);
    }
    OccursSplit3(Code(x), y.at, t.code, BranchTo(y.at + |t.code| + 5 + |b.code| + 5), b.code);
  }

  lemma {:induction false} TestMeaning(x: Point, ts: Tests, tail: bool)
    requires ts.Test?
    ensures var o := Eval(x.g.prims, x.fuel, ts.test, x.env, x.s, Pending(x), false);
      EvalCond(x.g.prims, x.fuel, ts, x.env, x.s, Pending(x), tail)
      == if !o.Done? then o
         else if Truthy(o.value.v) then EvalSeq(x.g.prims, x.fuel, ts.body, x.env, o.value.s, Pending(x), tail)
         else EvalCond(x.g.prims, x.fuel, ts.rest, x.env, o.value.s, Pending(x), tail)
  {
  }

  lemma {:induction false} SimTestClause(x: Point, ts: Tests, depth: nat, y: Layout, p: Pools)
        returns (n: nat, z: Landing)
    requires AtClause(x, y, p) && y.discard == [] && x.base == x.c.top.stack && SafeTests(ts, y.tail) && ts.Test?
    requires CompTests(ts, x.ctx, y.at, p, y.mark, depth, y.tail) == Ok((y.parts, y.np))
    ensures Lands(x, n, EvalCond(x.g.prims, x.fuel, ts, x.env, x.s, Pending(x), y.tail), y.tail, y.end,
                  y.mark + y.target, z)
    decreases x.fuel, 1, ts, 0
  {
    hide Fits;
    hide MatchMemory, MatchEnv, CompTests, CompSeq, CompExpr, Occurs, Exits, Run, PoolsIn, Lands, Eval, EvalSeq, Safe;
    hide EvalCond, SafeSeq, NoSlots, JumpTo, BranchTo, JoinParts, Stubs, EmitConst, PadUnlessTail;
    var t, b := TestLaid(x, ts, depth, y, p);
    TestMeaning(x, ts, y.tail);
    ClauseLaid(x, y);
    var skip := y.at + |y.parts[0].pre| + 5;
    var o := Eval(x.g.prims, x.fuel, ts.test, x.env, x.s, Pending(x), false);
    var o' := EvalCond(x.g.prims, x.fuel, ts, x.env, x.s, Pending(x), y.tail);
    var w, n' := x, 0;
    n, w, z := SimTest(x, ts.test, depth, skip);
    if !o.Done? {
      AbortLands(x, n, o', y.tail, y.end, y.mark + y.target, z);
      return;
    }
    SelectedOn(x, w, y);
    if Truthy(o.value.v) {
      if y.tail {
        ClauseExits(x, y);
      }
      n', z := SimSeq(w, ts.body, depth + 1, y.tail);
      n', z := ClauseDone(w, n', o', z, y);
    } else {
      SelectedOn(x, w, y.Rest());
      w := w.(p := b.p.(slot := t.p.slot));
      n', z := SimRest(w, ts.rest, depth, y.Rest(), b.p);
    }
    ComposeLands(x, n, w, n', o', y.tail, y.end, y.mark + y.target, z);
    n := n + n';
  }

  lemma {:induction false} SwapRuns(x: Point, v: Value, f: Value) returns (y: Point)
    requires Situated(x) && x.c.top.stack == x.base + [v] + [f] && Occurs(Code(x), Ip(x), Enc(Swap))
    ensures y == x.(c := Next(x, Ip(x) + 1, x.base + [f] + [v], x.c.m))
    ensures Onward(x, y) && Run(x.g, 1, x.c) == y.c && Situated(y)
  {
    hide MatchMemory, MatchEnv, Fits;
    StepAt(x, Swap);
    var st := x.c.top.stack;
    assert st[..|st| - 2] + [st[|st| - 1], st[|st| - 2]] == x.base + [f] + [v];
    y := x.(c := Run(x.g, 1, x.c));
  }

  /** What a `=>` clause is compiled to. */
  lemma {:induction false} ArrowShape(ts: Tests, ctx: Ctx, at: nat, p: Pools, mark: u8, depth: nat, tail: bool)
      returns (t: Emitted, f: Emitted)
    requires ts.Arrow? && mark <= p.slot && CompTests(ts, ctx, at, p, mark, depth, tail).Ok?
    ensures CompExpr(ts.test, ctx, at, p.(slot := mark), depth + 1, false) == Ok(t) && Grown(p.(slot := mark), t.p)
    ensures CompExpr(ts.receiver, ctx, at + |t.code| + 6, t.p, depth + 1, false) == Ok(f) && Grown(t.p, f.p)
    ensures var (parts, q) := CompTests(ts, ctx, at, p, mark, depth, tail).value;
      var skip := at + |t.code| + 6 + |f.code| + 8;
      mark <= f.p.slot && parts != [] && parts[0].post == Enc(Pop) && parts[0].needs == f.p.slot - mark
      && parts[0].pre == t.code + (Enc(Dup) + BranchTo(skip)) + f.code
         + (Enc(Swap) + Enc(if tail then TailCall(1) else Call(1)))
      && Grown(f.p.(slot := mark), q)
      && CompTests(ts.rest, ctx, skip + 1, f.p, mark, depth, tail) == Ok((parts[1..], q))
  {
    hide CompExpr, CompSeq, JumpTo, BranchTo, Enc;
    t := CompExpr(ts.test, ctx, at, p.(slot := mark), depth + 1, false).value;
    f := CompExpr(ts.receiver, ctx, at + |t.code| + 6, t.p, depth + 1, false).value;
  }

  lemma {:induction false} ArrowLaid(x: Point, ts: Tests, depth: nat, y: Layout, p: Pools)
        returns (t: Emitted, f: Emitted)
    requires Live(x) && Selected(x, y) && Ip(x) == y.at && y.mark <= p.slot && ts.Arrow?
    requires CompTests(ts, x.ctx, y.at, p, y.mark, depth, y.tail) == Ok((y.parts, y.np))
    ensures CompExpr(ts.test, x.ctx, y.at, p.(slot := y.mark), depth + 1, false) == Ok(t) && Laid(x, t.code, t.p)
    ensures NoSlots(ts.test) ==> t.p.slot == y.mark
    ensures CompExpr(ts.receiver, x.ctx, y.at + |t.code| + 6, t.p, depth + 1, false) == Ok(f)
    ensures y.parts != [] && y.parts[0] == Part(y.parts[0].pre, Enc(Pop), f.p.slot - y.mark)
    ensures |y.parts[0].pre| == |t.code| + 6 + |f.code| + 3 && y.mark <= f.p.slot
    ensures var skip := y.at + |y.parts[0].pre| + 5;
      Occurs(Code(x), y.at + |t.code|, Enc(Dup)) && Occurs(Code(x), y.at + |t.code| + 1, BranchTo(skip))
      && skip + 1 <= |Code(x)| && Occurs(Code(x), skip, Enc(Pop))
      && CompTests(ts.rest, x.ctx, skip + 1, f.p, y.mark, depth, y.tail) == Ok((y.parts[1..], y.np))
    ensures Occurs(Code(x), y.at + |t.code| + 6, f.code) && PoolsIn(x.g, x.c.top.fn, f.p)
    ensures Occurs(Code(x), y.at + |t.code| + 6 + |f.code|, Enc(Swap))
    ensures Occurs(Code(x), y.at + |t.code| + 6 + |f.code| + 1, Enc(if y.tail then TailCall(1) else Call(1)))
  {
    hide CompTests, Enc;
    hide MatchMemory, MatchEnv, CompSeq, CompExpr, Occurs, Exits, JumpTo, BranchTo, EmitConst, NoSlots, Selected;
    hide JoinParts, Stubs, PadUnlessTail, Fits, MaxNeeds, PartsLen;
    t, f := ArrowShape(ts, x.ctx, y.at, p, y.mark, depth, y.tail);
    ClauseLaid(x, y);
    if NoSlots(ts.test) {
      SlotsExpr(ts.test, x.ctx, y.at, p.(slot := y.mark), depth + 1);
    }
    var skip := y.at + |t.code| + 6 + |f.code| + 3 + 5;
    ArrowSplit(Code(x), y.at, t.code, skip, f.code, Enc(if y.tail then TailCall(1) else Call(1)));
    OccursFits(Code(x), skip, Enc(Pop));
  }

  lemma {:induction false} ArrowSplit(code: seq<byte>, at: nat, t: seq<byte>, skip: nat, f: seq<byte>, call: seq<byte>)
    requires Occurs(code, at, t + (Enc(Dup) + BranchTo(skip)) + f + (Enc(Swap) + call))
    ensures Occurs(code, at, t) && Occurs(code, at + |t|, Enc(Dup)) && Occurs(code, at + |t| + 1, BranchTo(skip))
    ensures Occurs(code, at + |t| + 6, f) && Occurs(code, at + |t| + 6 + |f|, Enc(Swap))
    ensures Occurs(code, at + |t| + 6 + |f| + 1, call)
  {
    hide Occurs, BranchTo;
    OccursSplit(code, at, t + (Enc(Dup) + BranchTo(skip)) + f, Enc(Swap) + call);
    OccursSplit3(code, at, t, Enc(Dup) + BranchTo(skip), f);
    OccursSplit(code, at + |t|, Enc(Dup), BranchTo(skip));
    OccursSplit(code, at + |t| + 6 + |f|, Enc(Swap), call);
  }

  lemma {:induction false} ArrowMeaning(x: Point, ts: Tests, tail: bool)
    requires ts.Arrow?
    ensures var o := Eval(x.g.prims, x.fuel, ts.test, x.env, x.s, Pending(x), false);
      EvalCond(x.g.prims, x.fuel, ts, x.env, x.s, Pending(x), tail)
      == if !o.Done? then o
         else if Truthy(o.value.v) then EvalReceiver(x.g.prims, x.fuel, ts.receiver, x.env, o.value, Pending(x), tail)
         else EvalCond(x.g.prims, x.fuel, ts.rest, x.env, o.value.s, Pending(x), tail)
  {
  }

  lemma {:induction false} SimArrowClause(x: Point, ts: Tests, depth: nat, y: Layout, p: Pools)
        returns (n: nat, z: Landing)
    requires AtClause(x, y, p) && y.discard == [] && x.base == x.c.top.stack && SafeTests(ts, y.tail) && ts.Arrow?
    requires CompTests(ts, x.ctx, y.at, p, y.mark, depth, y.tail) == Ok((y.parts, y.np))
    ensures Lands(x, n, EvalCond(x.g.prims, x.fuel, ts, x.env, x.s, Pending(x), y.tail), y.tail, y.end,
                  y.mark + y.target, z)
    decreases x.fuel, 1, ts, 0
  {
    hide CompSeq, Grown, MatchClosures;
    hide CompSeq, ConstToValue, Step;
    hide Grown, Extends, EmitConst, PadUnlessTail, EvalReceiver;
    hide MatchMemory, MatchEnv, CompTests, CompExpr, Occurs, Exits, Run, PoolsIn, Lands, Eval, Safe, Enc, EvalReceiver;
    hide EvalCond, NoSlots, JumpTo, BranchTo, JoinParts, Stubs, EmitConst, PadUnlessTail;
    var t, f := ArrowLaid(x, ts, depth, y, p);
    ArrowMeaning(x, ts, y.tail);
    ClauseLaid(x, y);
    var skip := y.at + |y.parts[0].pre| + 5;
    var o := Eval(x.g.prims, x.fuel, ts.test, x.env, x.s, Pending(x), false);
    var o' := EvalCond(x.g.prims, x.fuel, ts, x.env, x.s, Pending(x), y.tail);
    var w;
    z := Here(x);
    n, w := SimKeptTest(x, ts.test, depth, skip);
    if !o.Done? {
      AbortLands(x, n, o', y.tail, y.end, y.mark + y.target, z);
      return;
    }
    if Truthy(o.value.v) {
      n, z := SimArrowTaken(x, n, w, ts.receiver, depth, y, o.value.v, f, o');
    } else {
      n, z := SimArrowSkipped(x, n, w, ts.rest, depth, y, o.value.v, f.p, o');
    }
  }

  /** The point `w` that `x` has reached in `n` steps, with `v` on the stack. */
  ghost predicate Holding(x: Point, n: nat, w: Point, v: Value) {
    Situated(x) && Situated(w) && Onward(x, w) && Run(x.g, n, x.c) == w.c
    && w == x.(c := w.c, s := w.s, p := w.p, l := w.l) && w.c.top.stack == x.base + [v]
  }

  /** The test held: its value goes to what the receiver evaluates to. */
  lemma {:induction false} SimArrowTaken(x: Point, n: nat, w: Point, receiver: Expr, depth: nat, y: Layout, v: Value,
        f: Emitted,
                                         o': Outcome<Answer>) returns (n': nat, z: Landing)
    requires Holding(x, n, w, v) && Selected(x, y) && y.parts != [] && Safe(receiver, false)
    requires CompExpr(receiver, x.ctx, Ip(w), w.p, depth + 1, false) == Ok(f)
    requires Occurs(Code(x), Ip(w), f.code) && PoolsIn(x.g, x.c.top.fn, f.p)
    requires Occurs(Code(x), Ip(w) + |f.code|, Enc(Swap))
    requires Occurs(Code(x), Ip(w) + |f.code| + 1, Enc(if y.tail then TailCall(1) else Call(1)))
    requires Ip(w) + |f.code| + 3 == y.at + |y.parts[0].pre| && f.p.slot == y.mark + y.parts[0].needs
    requires o' == EvalReceiver(x.g.prims, x.fuel, receiver, x.env, Answer(v, w.s), Pending(x), y.tail)
    ensures Lands(x, n', o', y.tail, y.end, y.mark + y.target, z)
    decreases x.fuel, 1, receiver, 4
  {
    hide MatchMemory, MatchEnv, CompExpr, Occurs, Run, PoolsIn, Lands, Safe, Enc, EvalReceiver, Selected;
    SelectedFits(x, y);
    SelectedOn(x, w, y);
    var k;
    k, z := SimReceiver(w, receiver, depth, y, v, f);
    ComposeLands(x, n, w, k, o', y.tail, y.end, y.mark + y.target, z);
    n' := n + k;
  }

  /** The test failed: its value is dropped and the next clause is tried. */
  lemma {:induction false} SimArrowSkipped(x: Point, n: nat, w: Point, rest: Tests, depth: nat, y: Layout, v: Value,
        q: Pools,
                                           o': Outcome<Answer>) returns (n': nat, z: Landing)
    requires Holding(x, n, w, v) && Selected(x, y) && y.parts != [] && y.discard == [] && x.base == x.c.top.stack
    requires w.p.slot == y.mark || (y.tail && NoSlotsTests(rest))
    requires SafeTests(rest, y.tail) && y.parts[0].post == Enc(Pop)
    requires Ip(w) == y.at + |y.parts[0].pre| + 5 && Occurs(Code(x), Ip(w), Enc(Pop)) && Ip(w) + 1 <= |Code(x)|
    requires y.mark <= q.slot && PoolsIn(x.g, x.c.top.fn, q)
    requires CompTests(rest, x.ctx, Ip(w) + 1, q, y.mark, depth, y.tail) == Ok((y.parts[1..], y.np))
    requires o' == EvalCond(x.g.prims, x.fuel, rest, x.env, w.s, Pending(x), y.tail)
    ensures Lands(x, n', o', y.tail, y.end, y.mark + y.target, z)
    decreases x.fuel, 1, rest, 3
  {
    hide MatchMemory, MatchEnv, Occurs, Run, PoolsIn, Lands, SafeTests, Enc, EvalCond, Selected, CompTests;
    SelectedFits(x, y);
    ClauseLaid(x, y);
    var w1 := PopRuns(w, x.base, v);
    Chain(x, n, w, 1, w1);
    var w2 := w1.(p := q.(slot := w.p.slot));
    SelectedOn(x, w2, y.Rest());
    var k;
    k, z := SimRest(w2, rest, depth, y.Rest(), q);
    ComposeLands(x, n + 1, w2, k, o', y.tail, y.end, y.mark + y.target, z);
    n' := n + 1 + k;
  }

  lemma {:induction false} SimKeptTest(x: Point, test: Expr, depth: nat, target: nat) returns (n: nat, w: Point)
    requires Situated(x) && x.base == x.c.top.stack && Safe(test, false)
    requires CompExpr(test, x.ctx, Ip(x), x.p, depth + 1, false).Ok?
    requires var c := CompExpr(test, x.ctx, Ip(x), x.p, depth + 1, false).value;
      Laid(x, c.code, c.p) && Occurs(Code(x), Ip(x) + |c.code|, Enc(Dup))
      && Occurs(Code(x), Ip(x) + |c.code| + 1, BranchTo(target)) && Ip(x) + |c.code| + 1 < target <= |Code(x)|
    ensures var c := CompExpr(test, x.ctx, Ip(x), x.p, depth + 1, false).value;
      match Eval(x.g.prims, x.fuel, test, x.env, x.s, Pending(x), false)
      case Done(a) =>
        Situated(w) && Onward(x, w) && Run(x.g, n, x.c) == w.c
        && w == x.(c := w.c, s := a.s, p := c.p, l := w.l) && w.c.top.stack == x.base + [a.v]
        && Ip(w) == if Truthy(a.v) then Ip(x) + |c.code| + 6 else target
      case o => Aborts(x, n, o)
    decreases x.fuel, 1, test, 3
  {
    hide MatchMemory, MatchEnv, CompExpr, Occurs, Run, PoolsIn, Eval, Safe, Enc, BranchTo;
    n, w := SimValue(x, test, depth + 1);
    var o := Eval(x.g.prims, x.fuel, test, x.env, x.s, Pending(x), false);
    if o.Done? {
      var k, w' := TestTop(w, x.base, o.value.v, target);
      Chain(x, n, w, k, w');
      n, w := n + k, w';
    }
  }

  /** `=>`: the receiver is evaluated above the test's value, swapped below it and called. */
  lemma {:induction false} SimReceiver(x: Point, receiver: Expr, depth: nat, y: Layout, v: Value, f: Emitted)
      returns (n: nat, z: Landing)
    requires Situated(x) && Selected(x, y) && y.parts != [] && x.c.top.stack == x.base + [v] && Safe(receiver, false)
    requires CompExpr(receiver, x.ctx, Ip(x), x.p, depth + 1, false) == Ok(f) && Laid(x, f.code, f.p)
    requires Occurs(Code(x), Ip(x) + |f.code|, Enc(Swap))
    requires Occurs(Code(x), Ip(x) + |f.code| + 1, Enc(if y.tail then TailCall(1) else Call(1)))
    requires Ip(x) + |f.code| + 3 == y.at + |y.parts[0].pre| && f.p.slot == y.mark + y.parts[0].needs
    ensures Lands(x, n, EvalReceiver(x.g.prims, x.fuel, receiver, x.env, Answer(v, x.s), Pending(x), y.tail), y.tail,
      y.end, y.mark + y.target, z)
    decreases x.fuel, 1, receiver, 3
  {
    hide MatchMemory, MatchEnv, CompExpr, Occurs, Exits, Run, PoolsIn, Lands, Eval, Safe, Enc, Selected, Apply;
    var o := Eval(x.g.prims, x.fuel, receiver, x.env, x.s, Pending(x), false);
    var o' := EvalReceiver(x.g.prims, x.fuel, receiver, x.env, Answer(v, x.s), Pending(x), y.tail);
    var w;
    z := Here(x);
    n, w := SimValue(x, receiver, depth + 1);
    if !o.Done? {
      SelectedFits(x, y);
      AbortLands(x, n, o', y.tail, y.end, y.mark + y.target, z);
      return;
    }
    var w' := SwapRuns(w, v, o.value.v);
    Chain(x, n, w, 1, w');
    var n';
    n', z := SimCall(w', o.value.v, [v], y.tail);
    ComposeLands(x, n + 1, w', n', o', y.tail, y.at + |y.parts[0].pre|, f.p.slot, z);
    n, z := ClauseDone(x, n + 1 + n', o', z, y);
  }

  lemma {:induction false} SelectedFits(x: Point, y: Layout)
    requires Selected(x, y)
    ensures y.mark + y.target < 256 && (y.parts != [] ==> y.parts[0].needs <= y.target)
  {
  }

  lemma {:induction false} EqvRuns(x: Point, rest: seq<Value>, a: Value, b: Value) returns (y: Point)
    requires Situated(x) && x.c.top.stack == rest + [a] + [b] && x.base <= rest
    requires Occurs(Code(x), Ip(x), Enc(Instr.Eqv))
    ensures y == x.(c := Next(x, Ip(x) + 1, rest + [Bool(ValueEqv(a, b))], x.c.m))
    ensures Onward(x, y) && Run(x.g, 1, x.c) == y.c && Situated(y)
  {
    hide MatchMemory, MatchEnv, Fits;
    StepAt(x, Instr.Eqv);
    var st := x.c.top.stack;
    assert st[..|st| - 2] == rest;
    y := x.(c := Run(x.g, 1, x.c));
  }

  lemma {:induction false} DatumLaid(code: seq<byte>, data: seq<Data.Const>, at: nat, p: Pools, found: nat)
    requires data != [] && Occurs(code, at, CompData(data, at, p, found).code)
    ensures Occurs(code, at, Enc(Dup)) && Occurs(code, at + 1, EmitConst(p, data[0]).code)
    ensures Occurs(code, at + 6, Enc(Instr.Eqv)) && Occurs(code, at + 7, BranchTo(at + DATUM_TEST))
    ensures Occurs(code, at + 12, JumpTo(found)) && at + DATUM_TEST <= |code|
    ensures var c := EmitConst(p, data[0]);
      Occurs(code, at + DATUM_TEST, CompData(data[1..], at + DATUM_TEST, c.p, found).code)
      && CompData(data, at, p, found).p == CompData(data[1..], at + DATUM_TEST, c.p, found).p
  {
    hide Occurs, BranchTo, JumpTo, EmitConst;
    var c := EmitConst(p, data[0]);
    var rest := CompData(data[1..], at + DATUM_TEST, c.p, found);
    var test := Enc(Dup) + c.code + Enc(Instr.Eqv) + BranchTo(at + DATUM_TEST) + JumpTo(found);
    OccursSplit(code, at, test, rest.code);
    OccursFits(code, at, test);
    OccursSplit5(code, at, Enc(Dup), c.code, Enc(Instr.Eqv), BranchTo(at + DATUM_TEST), JumpTo(found));
  }

  /** One literal of a clause: a match goes to `found`, anything else to the next literal. */
  lemma {:induction false} SimDatum(x: Point, rest: seq<Value>, k: Value, c: Data.Const, found: nat)
        returns (n: nat, y: Point)
    requires Situated(x) && x.c.top.stack == rest + [k] && x.base <= rest
    requires Occurs(Code(x), Ip(x), Enc(Dup)) && Occurs(Code(x), Ip(x) + 1, EmitConst(x.p, c).code)
    requires PoolsIn(x.g, x.c.top.fn, AddConst(x.p, c))
    requires Occurs(Code(x), Ip(x) + 6, Enc(Instr.Eqv))
    requires Occurs(Code(x), Ip(x) + 7, BranchTo(Ip(x) + DATUM_TEST)) && Occurs(Code(x), Ip(x) + 12, JumpTo(found))
    requires Ip(x) + DATUM_TEST <= found <= |Code(x)|
    ensures var (v, w) := ConstToValue(c, x.s.world);
      y.c.Running? && y == x.(c := y.c, s := x.s.(world := w), p := AddConst(x.p, c))
      && y.c.top.stack == rest + [k] && Ip(y) == if ValueEqv(k, v) then found else Ip(x) + DATUM_TEST
    ensures Situated(y) && Onward(x, y) && Run(x.g, n, x.c) == y.c
  {
    hide MatchMemory, MatchEnv, Run, Step, Occurs, BranchTo, JumpTo, Enc, ConstToValue, Fits, PoolsIn;
    var y1 := DupRuns(x, rest, k);
    var y2 := ConstRuns(y1, c);
    Chain(x, 1, y1, 1, y2);
    var v := ConstToValue(c, x.s.world).0;
    var y3 := EqvRuns(y2, rest + [k], k, v);
    Chain(x, 2, y2, 1, y3);
    y := BranchRuns(y3, rest + [k], Bool(ValueEqv(k, v)), Ip(x) + DATUM_TEST);
    Chain(x, 3, y3, 1, y);
    n := 4;
    if ValueEqv(k, v) {
      var y5 := JumpRuns(y, found);
      Chain(x, 4, y, 1, y5);
      n, y := 5, y5;
    }
  }

  /** All literals of a clause in order. */
  lemma {:induction false} SimData(x: Point, rest: seq<Value>, k: Value, data: seq<Data.Const>, found: nat)
      returns (n: nat, y: Point)
    requires Situated(x) && x.c.top.stack == rest + [k] && x.base <= rest
    requires var d := CompData(data, Ip(x), x.p, found);
      Laid(x, d.code, d.p) && Ip(x) + |d.code| <= found <= |Code(x)|
    ensures var (hit, w) := FindDatum(k, data, x.s.world);
      var d := CompData(data, Ip(x), x.p, found);
      y.c.Running? && y == x.(c := y.c, s := x.s.(world := w), p := d.p)
      && y.c.top.stack == rest + [k] && Ip(y) == if hit then found else Ip(x) + |d.code|
    ensures Situated(y) && Onward(x, y) && Run(x.g, n, x.c) == y.c
    decreases data
  {
    hide MatchMemory, MatchEnv, Run, Step, Occurs, BranchTo, JumpTo, Enc, ConstToValue, Fits;
    if data == [] {
      n, y := 0, x;
      RunZero(x.g, x.c);
    } else {
      DatumLaid(Code(x), data, Ip(x), x.p, found);
      n, y := SimDatum(x, rest, k, data[0], found);
      if !ValueEqv(k, ConstToValue(data[0], x.s.world).0) {
        var n', y' := SimData(y, rest, k, data[1..], found);
        Chain(x, n, y, n', y');
        n, y := n + n', y';
      } else {
        y := y.(p := CompData(data, Ip(x), x.p, found).p);
      }
    }
  }

  lemma {:induction false} CaseLaid(x: Point, key: Expr, cs: Clauses, depth: nat, tail: bool)
        returns (k: Emitted, y: Layout)
    requires Set(x, CompCase(key, cs, x.ctx, Ip(x), x.p, depth, tail), tail)
    ensures CompExpr(key, x.ctx, Ip(x), x.p, depth + 1, false) == Ok(k) && Laid(x, k.code, k.p)
    ensures Selected(x, y) && y.at == Ip(x) + |k.code| && y.discard == Enc(Pop) && y.mark == k.p.slot && y.tail == tail
    ensures CompClauses(cs, x.ctx, y.at, k.p, k.p.slot, depth, tail) == Ok((y.parts, y.np))
    ensures var r := CompCase(key, cs, x.ctx, Ip(x), x.p, depth, tail).value;
      y.end == Ip(x) + |r.code| && y.Fit() && (!tail ==> r.p.slot == y.mark + y.target)
  {
    hide MatchMemory, MatchEnv, CompExpr, CompClauses, Occurs, Exits, Select, Selected, Enc;
    k := CompExpr(key, x.ctx, Ip(x), x.p, depth + 1, false).value;
    var (parts, q) := CompClauses(cs, x.ctx, Ip(x) + |k.code|, k.p, k.p.slot, depth, tail).value;
    var sel := Select(parts, Ip(x) + |k.code|, q, k.p.slot, tail, Enc(Pop));
    OccursSplit(Code(x), Ip(x), k.code, sel.code);
    y := SelectLaid(x, Ip(x) + |k.code|, parts, q, k.p.slot, tail, Enc(Pop));
    SelectPools(x, y);
  }

  lemma {:induction false} SelectPools(x: Point, y: Layout)
    requires Selected(x, y)
    ensures PoolsIn(x.g, x.c.top.fn, y.np)
  {
  }

  lemma {:induction false} CaseMeaning(x: Point, key: Expr, cs: Clauses, tail: bool)
    ensures var o := Eval(x.g.prims, x.fuel, key, x.env, x.s, Pending(x), false);
      Eval(x.g.prims, x.fuel, Case(key, cs), x.env, x.s, Pending(x), tail)
      == if !o.Done? then o
         else EvalCase(x.g.prims, x.fuel, o.value.v, cs, x.env, o.value.s, Pending(x), tail)
  {
  }

  lemma {:induction false} SimCase(x: Point, key: Expr, cs: Clauses, depth: nat, tail: bool)
        returns (n: nat, z: Landing)
    requires Set(x, CompCase(key, cs, x.ctx, Ip(x), x.p, depth, tail), tail)
    requires Safe(key, false) && SafeClauses(cs, tail)
    ensures Done1(x, n, Eval(x.g.prims, x.fuel, Case(key, cs), x.env, x.s, Pending(x), tail), tail,
                  CompCase(key, cs, x.ctx, Ip(x), x.p, depth, tail), z)
    decreases x.fuel, 1, Case(key, cs), 0
  {
    hide MatchMemory, MatchEnv, CompCase, CompExpr, CompClauses, Occurs, Exits, Run, PoolsIn, Lands, Eval, EvalCase;
    hide Safe, SafeClauses, Selected, Enc;
    var k, y := CaseLaid(x, key, cs, depth, tail);
    CaseMeaning(x, key, cs, tail);
    var slot := CompCase(key, cs, x.ctx, Ip(x), x.p, depth, tail).value.p.slot;
    var o := Eval(x.g.prims, x.fuel, key, x.env, x.s, Pending(x), false);
    var o' := Eval(x.g.prims, x.fuel, Case(key, cs), x.env, x.s, Pending(x), tail);
    var w;
    z := Here(x);
    n, w := SimValue(x, key, depth + 1);
    if !o.Done? {
      AbortLands(x, n, o', tail, y.end, slot, z);
      return;
    }
    SelectedOn(x, w, y);
    assert k.p.(slot := y.mark) == k.p;
    var n';
    n', z := SimClauses(w, cs, depth, y, k.p, o.value.v);
    ComposeLands(x, n, w, n', o', tail, y.end, y.mark + y.target, z);
    n := n + n';
    if tail {
      AnySlot(x, n, o', y.end, y.mark + y.target, slot, z);
    }
  }

  lemma {:induction false} SimClauses(x: Point, cs: Clauses, depth: nat, y: Layout, p: Pools, k: Value)
      returns (n: nat, z: Landing)
    requires AtClause(x, y, p) && y.discard == Enc(Pop) && x.c.top.stack == x.base + [k] && SafeClauses(cs, y.tail)
    requires CompClauses(cs, x.ctx, y.at, p, y.mark, depth, y.tail) == Ok((y.parts, y.np))
    ensures Lands(x, n, EvalCase(x.g.prims, x.fuel, k, cs, x.env, x.s, Pending(x), y.tail), y.tail, y.end,
                  y.mark + y.target, z)
    decreases x.fuel, 1, cs, 1
  {
    hide MatchMemory, MatchEnv, CompSeq, CompData, Occurs, Exits, Run, PoolsIn, Lands, EvalSeq, SafeSeq, Enc;
    hide JoinParts, Stubs, EmitConst, PadUnlessTail;
    match cs
    case NoClauses =>
      var w := PopRuns(x, x.base, k);
      SelectedOn(x, w, y);
      n, z := NoneDone(w, y);
      ComposeLands(x, 1, w, n, Done(Answer(Unspecified, x.s)), y.tail, y.end, y.mark + y.target, z);
      n := 1 + n;
    case ElseClauses(body) => n, z := SimElseBody(x, body, depth, y, p, k);
    case Clause(_, _, _) => n, z := SimClause(x, cs, depth, y, p, k);
  }

  /** A clause body, entered with the key still on the stack. */
  lemma {:induction false} SimBody(x: Point, body: Exprs, depth: nat, y: Layout, k: Value, b: Emitted)
      returns (n: nat, z: Landing)
    requires Situated(x) && Selected(x, y) && y.parts != [] && x.c.top.stack == x.base + [k] && SafeSeq(body, y.tail)
    requires Occurs(Code(x), Ip(x), Enc(Pop)) && Occurs(Code(x), Ip(x) + 1, b.code) && PoolsIn(x.g, x.c.top.fn, b.p)
    requires CompSeq(body, x.ctx, Ip(x) + 1, x.p, depth + 1, y.tail) == Ok(b)
    requires Ip(x) + 1 + |b.code| == y.at + |y.parts[0].pre| && b.p.slot == y.mark + y.parts[0].needs
    ensures Lands(x, n, EvalSeq(x.g.prims, x.fuel, body, x.env, x.s, Pending(x), y.tail), y.tail, y.end,
                  y.mark + y.target, z)
    decreases x.fuel, 1, body, 3
  {
    hide MatchMemory, MatchEnv, CompSeq, Occurs, Exits, Run, PoolsIn, EvalSeq, SafeSeq, JoinParts, Stubs, EmitConst;
    hide Lands, Enc;
    if y.tail {
      ClauseExits(x, y);
    }
    var o := EvalSeq(x.g.prims, x.fuel, body, x.env, x.s, Pending(x), y.tail);
    var w := PopRuns(x, x.base, k);
    SelectedOn(x, w, y);
    n, z := SimSeq(w, body, depth + 1, y.tail);
    n, z := ClauseDone(w, n, o, z, y);
    ComposeLands(x, 1, w, n, o, y.tail, y.end, y.mark + y.target, z);
    n := 1 + n;
  }

  lemma {:induction false} SimElseBody(x: Point, body: Exprs, depth: nat, y: Layout, p: Pools, k: Value)
      returns (n: nat, z: Landing)
    requires AtClause(x, y, p) && x.c.top.stack == x.base + [k] && SafeSeq(body, y.tail)
    requires CompSeq(body, x.ctx, y.at + 1, x.p, depth + 1, y.tail).Ok?
    requires var b := CompSeq(body, x.ctx, y.at + 1, x.p, depth + 1, y.tail).value;
      y.parts == [Part(Enc(Pop) + b.code, [], b.p.slot - y.mark)] && y.np == b.p
    ensures Lands(x, n, EvalSeq(x.g.prims, x.fuel, body, x.env, x.s, Pending(x), y.tail), y.tail, y.end,
                  y.mark + y.target, z)
    decreases x.fuel, 1, body, 4
  {
    hide MatchMemory, MatchEnv, CompSeq, Occurs, Exits, Run, PoolsIn, EvalSeq, SafeSeq, Selected, Lands;
    var b := CompSeq(body, x.ctx, y.at + 1, x.p, depth + 1, y.tail).value;
    ClauseLaid(x, y);
    OccursSplit(Code(x), y.at, Enc(Pop), b.code);
    n, z := SimBody(x, body, depth, y, k, b);
  }

  lemma {:induction false} ClausePieces(x: Point, cs: Clauses, depth: nat, y: Layout, p: Pools)
        returns (d: Emitted, b: Emitted, bodyAt: nat)
    requires AtClause(x, y, p) && cs.Clause?
    requires CompClauses(cs, x.ctx, y.at, p, y.mark, depth, y.tail) == Ok((y.parts, y.np))
    ensures y.parts != [] && bodyAt == y.at + |d.code| + 5 && d == CompData(cs.data, y.at, x.p, bodyAt)
    ensures CompSeq(cs.body, x.ctx, bodyAt + 1, d.p, depth + 1, y.tail) == Ok(b) && d.p.slot == y.mark <= b.p.slot
    ensures y.parts[0] == Part(y.parts[0].pre, [], b.p.slot - y.mark)
    ensures y.at + |y.parts[0].pre| == bodyAt + 1 + |b.code|
    ensures var next := y.at + |y.parts[0].pre| + 5;
      Occurs(Code(x), y.at + |d.code|, JumpTo(next)) && next <= |Code(x)|
      && CompClauses(cs.rest, x.ctx, next, b.p, y.mark, depth, y.tail) == Ok((y.parts[1..], y.np))
    ensures Laid(x, d.code, d.p) && Occurs(Code(x), bodyAt, Enc(Pop)) && Occurs(Code(x), bodyAt + 1, b.code)
    ensures PoolsIn(x.g, x.c.top.fn, b.p)
  {
    hide PartsLen, ReturnTo;
    hide MatchMemory, MatchEnv, CompSeq, CompData, Occurs, Exits, JumpTo, EmitConst, Selected, Enc;
    hide JoinParts, Stubs, PadUnlessTail, Fits;
    ClauseLaid(x, y);
    bodyAt := y.at + DATUM_TEST * |cs.data| + 5;
    d := CompData(cs.data, y.at, x.p, bodyAt);
    b := CompSeq(cs.body, x.ctx, bodyAt + 1, d.p, depth + 1, y.tail).value;
    var next := bodyAt + 1 + |b.code| + 5;
    OccursSplit(Code(x), y.at, d.code + JumpTo(next) + Enc(Pop), b.code);
    OccursSplit3(Code(x), y.at, d.code, JumpTo(next), Enc(Pop));
  }

  lemma {:induction false} ClauseMeaning(x: Point, cs: Clauses, k: Value, tail: bool)
    requires cs.Clause?
    ensures var (hit, w) := FindDatum(k, cs.data, x.s.world);
      EvalCase(x.g.prims, x.fuel, k, cs, x.env, x.s, Pending(x), tail)
      == if hit then EvalSeq(x.g.prims, x.fuel, cs.body, x.env, x.s.(world := w), Pending(x), tail)
         else EvalCase(x.g.prims, x.fuel, k, cs.rest, x.env, x.s.(world := w), Pending(x), tail)
  {
  }

  lemma {:induction false} SimClause(x: Point, cs: Clauses, depth: nat, y: Layout, p: Pools, k: Value)
      returns (n: nat, z: Landing)
    requires AtClause(x, y, p) && y.discard == Enc(Pop) && x.c.top.stack == x.base + [k]
    requires SafeClauses(cs, y.tail) && cs.Clause?
    requires CompClauses(cs, x.ctx, y.at, p, y.mark, depth, y.tail) == Ok((y.parts, y.np))
    ensures Lands(x, n, EvalCase(x.g.prims, x.fuel, k, cs, x.env, x.s, Pending(x), y.tail), y.tail, y.end,
                  y.mark + y.target, z)
    decreases x.fuel, 1, cs, 0
  {
    hide Fits, CompSeq, SafeSeq, StubsLen, BindArguments;
    hide ConstToValue;
    hide Grown, MaxNeeds, ConstToValue;
    hide MatchMemory, MatchEnv, CompClauses, CompSeq, CompData, Occurs, Exits, Run, PoolsIn, Lands, EvalCase, EvalSeq;
    hide SafeSeq, JumpTo, JoinParts, Stubs, EmitConst, PadUnlessTail, FindDatum, Enc;
    var d, b, bodyAt := ClausePieces(x, cs, depth, y, p);
    ClauseMeaning(x, cs, k, y.tail);
    ClauseLaid(x, y);
    var o' := EvalCase(x.g.prims, x.fuel, k, cs, x.env, x.s, Pending(x), y.tail);
    var w, n' := x, 0;
    n, w := SimData(x, x.base, k, cs.data, bodyAt);
    SelectedOn(x, w, y);
    if FindDatum(k, cs.data, x.s.world).0 {
      n', z := SimBody(w, cs.body, depth, y, k, b);
      ComposeLands(x, n, w, n', o', y.tail, y.end, y.mark + y.target, z);
    } else {
      var w' := JumpRuns(w, y.at + |y.parts[0].pre| + 5);
      Chain(x, n, w, 1, w');
      n := n + 1;
      w := w'.(p := b.p.(slot := y.mark));
      SelectedOn(x, w, y.Rest());
      n', z := SimClauses(w, cs.rest, depth, y.Rest(), b.p, k);
      ComposeLands(x, n, w, n', o', y.tail, y.end, y.mark + y.target, z);
    }
    n := n + n';
  }

  lemma {:induction false} AppLaid(x: Point, f: Expr, args: Exprs, depth: nat, tail: bool)
        returns (c: Emitted, a: Emitted)
    requires Set(x, CompApp(f, args, x.ctx, Ip(x), x.p, depth, tail), tail)
    ensures CompExpr(f, x.ctx, Ip(x), x.p, depth + 1, false) == Ok(c) && Laid(x, c.code, c.p)
    ensures CompArgs(args, x.ctx, Ip(x) + |c.code|, c.p, depth + 1) == Ok(a)
    ensures Occurs(Code(x), Ip(x) + |c.code|, a.code) && PoolsIn(x.g, x.c.top.fn, a.p) && Count(args) <= 255
    ensures Occurs(Code(x), Ip(x) + |c.code| + |a.code|, Enc(if tail then TailCall(Count(args)) else Call(Count(args))))
    ensures var r := CompApp(f, args, x.ctx, Ip(x), x.p, depth, tail).value;
      |r.code| == |c.code| + |a.code| + 2 && r.p == a.p
  {
    hide MatchMemory, MatchEnv, Exits, CompExpr, CompArgs, Occurs;
    c := CompExpr(f, x.ctx, Ip(x), x.p, depth + 1, false).value;
    a := CompArgs(args, x.ctx, Ip(x) + |c.code|, c.p, depth + 1).value;
    OccursSplit3(Code(x), Ip(x), c.code, a.code, Enc(if tail then TailCall(Count(args)) else Call(Count(args))));
  }

  lemma {:induction false} AppMeaning(x: Point, f: Expr, args: Exprs, tail: bool)
    ensures var o := Eval(x.g.prims, x.fuel, f, x.env, x.s, Pending(x), false);
      var r := Eval(x.g.prims, x.fuel, App(f, args), x.env, x.s, Pending(x), tail);
      if !o.Done? then r == o
      else
        var av := EvalArgs(x.g.prims, x.fuel, args, x.env, o.value.s, Pending(x));
        if av.Done? then r == Apply(x.g.prims, x.fuel, o.value.v, av.value.0, av.value.1, Pending(x), tail)
        else if av.Fail? then r == Fail(av.error) else r == Timeout
  {
  }

  lemma {:induction false} SimApp(x: Point, f: Expr, args: Exprs, depth: nat, tail: bool) returns (n: nat, z: Landing)
    requires Set(x, CompApp(f, args, x.ctx, Ip(x), x.p, depth, tail), tail)
    requires Safe(f, false) && SafeSeq(args, false)
    ensures Done1(x, n, Eval(x.g.prims, x.fuel, App(f, args), x.env, x.s, Pending(x), tail), tail,
                  CompApp(f, args, x.ctx, Ip(x), x.p, depth, tail), z)
    decreases x.fuel, 1, App(f, args), 0
  {
    hide MatchMemory, MatchEnv, CompApp, CompExpr, CompArgs, Occurs, Exits, Eval, EvalArgs, Apply, Run, PoolsIn;
    hide Safe, SafeSeq, Lands, Enc;
    var c, a := AppLaid(x, f, args, depth, tail);
    AppMeaning(x, f, args, tail);
    var end := Ip(x) + |c.code| + |a.code| + 2;
    var o := Eval(x.g.prims, x.fuel, f, x.env, x.s, Pending(x), false);
    var o' := Eval(x.g.prims, x.fuel, App(f, args), x.env, x.s, Pending(x), tail);
    var w, y, k, n' := x, x, 0, 0;
    n, w := SimValue(x, f, depth + 1);
    z := Here(x);
    if !o.Done? {
      AbortLands(x, n, o', tail, end, a.p.slot, z);
      return;
    }
    k, y := SimArgs(w, args, depth + 1);
    var av := EvalArgs(x.g.prims, x.fuel, args, x.env, o.value.s, Pending(x));
    if av.Done? {
      Chain(x, n, w, k, y);
      n', z := SimCall(y, o.value.v, av.value.0, tail);
      ComposeLands(x, n + k, y, n', o', tail, end, a.p.slot, z);
      n := n + k + n';
    } else {
      RunAdd(x.g, n, k, x.c);
      n := n + k;
      AbortLands(x, n, o', tail, end, a.p.slot, z);
    }
  }

  /** The call instruction, with the callee and its arguments on the stack. */
  lemma {:induction false} SimCall(x: Point, f: Value, vs: seq<Value>, tail: bool) returns (n: nat, z: Landing)
    requires Situated(x) && |vs| <= 255 && x.c.top.stack == x.base + [f] + vs
    requires Occurs(Code(x), Ip(x), Enc(if tail then TailCall(|vs|) else Call(|vs|)))
    ensures Lands(x, n, Apply(x.g.prims, x.fuel, f, vs, x.s, Pending(x), tail), tail, Ip(x) + 2, x.p.slot, z)
    decreases x.fuel, 0, 2
  {
    hide Run, Step, MatchMemory, MatchEnv, Fits, Enc, Occurs, EvalSeq, CallValue;
    CallStep(x, f, vs, tail);
    OccursFits(Code(x), Ip(x), Enc(if tail then TailCall(|vs|) else Call(|vs|)));
    var top := Advanced(x, 2).(stack := x.base);
    n, z := SimCallValue(x, top, f, vs, tail);
  }

  /** One step of CALL or TAIL_CALL pops the call and performs it. */
  lemma {:induction false} CallStep(x: Point, f: Value, vs: seq<Value>, tail: bool)
    requires Situated(x) && |vs| <= 255 && x.c.top.stack == x.base + [f] + vs
    requires Occurs(Code(x), Ip(x), Enc(if tail then TailCall(|vs|) else Call(|vs|)))
    ensures Run(x.g, 1, x.c) == CallValue(x.g, f, vs, Advanced(x, 2).(stack := x.base),
                                          x.c.callers, x.c.depth, x.c.m, tail)
  {
    hide Run, Step, MatchMemory, MatchEnv, Fits, Enc, Occurs, CallValue;
    StepAt(x, if tail then TailCall(|vs|) else Call(|vs|));
    var st := x.c.top.stack;
    assert st[|st| - |vs| - 1] == f && st[|st| - |vs|..] == vs && st[..|st| - |vs| - 1] == x.base;
  }

  lemma {:induction false} SimCallValue(x: Point, top: Frame, f: Value, vs: seq<Value>, tail: bool)
      returns (n: nat, z: Landing)
    requires Situated(x) && top == Advanced(x, 2).(stack := x.base) && Ip(x) + 2 <= |Code(x)|
    requires Run(x.g, 1, x.c) == CallValue(x.g, f, vs, top, x.c.callers, x.c.depth, x.c.m, tail)
    ensures Lands(x, n, Apply(x.g.prims, x.fuel, f, vs, x.s, Pending(x), tail), tail, Ip(x) + 2, x.p.slot, z)
    decreases x.fuel, 0, 1
  {
    hide Run, Step, MatchEnv, Fits, EvalSeq, Exits, MatchClosure;
    n, z := 1, Landing(top.steps, top.locals, x.c.m, x.l);
    match f
    case Native(name) =>
      var r := x.g.prims(name, vs, x.s.world);
      if r.Ok? {
        ChangeWorld(x.g.fns, x.c.m, x.s, x.l, r.value.1);
        z := z.(m := x.c.m.(world := r.value.1));
      }
    case Closure(id) =>
      if (tail || x.c.depth < MAX_CALL_DEPTH) && id < |x.s.closures| {
        n, z := SimClosureCall(x, top, id, vs, tail);
      }
    case _ =>
  }

  lemma {:induction false} SimClosureCall(x: Point, top: Frame, id: nat, vs: seq<Value>, tail: bool)
      returns (n: nat, z: Landing)
    requires Situated(x) && top == Advanced(x, 2).(stack := x.base) && Ip(x) + 2 <= |Code(x)|
    requires Run(x.g, 1, x.c) == CallValue(x.g, Closure(id), vs, top, x.c.callers, x.c.depth, x.c.m, tail)
    requires (tail || x.c.depth < MAX_CALL_DEPTH) && id < |x.s.closures|
    ensures Lands(x, n, Apply(x.g.prims, x.fuel, Closure(id), vs, x.s, Pending(x), tail), tail, Ip(x) + 2, x.p.slot, z)
    decreases x.fuel, 0, 0
  {
    hide SafeSeq, StubsLen, MatchStore;
    hide Step, NoSlotsTests, Do;
    hide Size, BranchTo;
    hide Run, Step, MatchEnv, Fits, EvalSeq, Exits, CompFunction, CompSeq, DeclareAll, Safe;
    var sc, vc, o := x.s.closures[id], x.c.m.closures[id], x.l.origin[id];
    assert MatchClosure(x.g.fns, sc, vc, o, x.l.cell);
    var locals, b := FunctionShape(sc.formals, sc.body, o.ctx, o.fns, o.depth, o.name);
    var chunk := x.g.fns[vc.fn];
    var r := BindArguments(|sc.formals.params|, sc.formals.rest.Some?, vs, x.s.world);
    n, z := 1, Landing(top.steps, top.locals, x.c.m, x.l);
    if r.Ok? && x.fuel > 0 {
      var y := Enter(x, id, r.value.0, r.value.1, if tail then x.c.callers else [top] + x.c.callers,
                     if tail then x.c.depth else x.c.depth + 1, locals, b);
      assert y.c == Run(x.g, 1, x.c);
      hide MatchMemory;
      n, z := SimSeq(y, sc.body, o.depth + 1, true);
      RunAdd(x.g, 1, n, x.c);
      n := 1 + n;
      if !tail {
        z := z.(steps := top.steps, locals := top.locals);
      }
    }
  }

  /** What a compiled function's chunk consists of. */
  lemma {:induction false} FunctionShape(formals: Formals, body: Exprs, ctx: Ctx, fns: seq<Chunk>, depth: nat,
        name: Option<string>)
      returns (locals: Locals, b: Emitted)
    requires CompFunction(formals, body, ctx, fns, depth, name).Ok?
    ensures var names := formals.Names();
      |locals| == |names| <= 255 && (forall i :: 0 <= i < |locals| ==> locals[i] == (names[i], i))
      && CompSeq(body, Ctx(locals, Some(ctx)), 0, Pools([], fns, |locals|), depth + 1, true) == Ok(b)
    ensures var fns' := CompFunction(formals, body, ctx, fns, depth, name).value.1;
      fns' == b.p.fns + [Chunk(b.code + Enc(Return), b.p.consts, |formals.params|, formals.rest.Some?, name)]
  {
    hide CompSeq, Enc;
    DeclareShape([], formals.Names(), 0);
    locals := DeclareAll([], formals.Names(), 0).value.0;
    b := CompSeq(body, Ctx(locals, Some(ctx)), 0, Pools([], fns, |locals|), depth + 1, true).value;
  }

  lemma {:induction false} DeclareShape(locals: Locals, names: seq<string>, slot: u8)
    requires DeclareAll(locals, names, slot).Ok? && slot == |locals|
    ensures var (locals', slot') := DeclareAll(locals, names, slot).value;
      |locals'| == slot' == |locals| + |names| && locals <= locals'
      && forall i :: 0 <= i < |names| ==> locals'[slot + i] == (names[i], slot + i)
    decreases names
  {
    if names != [] {
      DeclareShape(locals + [(names[0], slot)], names[1..], slot + 1);
      var locals' := DeclareAll(locals, names, slot).value.0;
      assert locals + [(names[0], slot)] <= locals';
      forall i | 0 <= i < |names|
        ensures locals'[slot + i] == (names[i], slot + i)
      {
        if i > 0 {
          assert locals'[slot + 1 + (i - 1)] == (names[1..][i - 1], slot + 1 + (i - 1));
        }
      }
    }
  }

  /** The point at which a closure's body starts, its parameters in fresh cells. */
  lemma {:induction false} Enter(x: Point, id: nat, vs: seq<Value>, w: World, callers: seq<Frame>, depth: nat,
        locals: Locals, b: Emitted)
      returns (y: Point)
    requires Situated(x) && id < |x.s.closures| && x.fuel > 0
    requires var sc, vc, o := x.s.closures[id], x.c.m.closures[id], x.l.origin[id];
      var names := sc.formals.Names();
      |vs| == |locals| == |names| <= 255 && (forall i :: 0 <= i < |locals| ==> locals[i] == (names[i], i))
      && CompSeq(sc.body, Ctx(locals, Some(o.ctx)), 0, Pools([], o.fns, |locals|), o.depth + 1, true) == Ok(b)
      && vc.fn < |x.g.fns| && b.p.fns <= x.g.fns && b.p.consts == x.g.fns[vc.fn].consts
      && x.g.fns[vc.fn].code == b.code + Enc(Return)
    ensures var sc, vc, o := x.s.closures[id], x.c.m.closures[id], x.l.origin[id];
      y.c == Running(NewFrame(vc.fn, x.g.fns[vc.fn].code,
                              seq(|vs|, i requires 0 <= i < |vs| => |x.c.m.cells| + i), Some(vc.scope)),
                     callers, depth, x.c.m.(cells := x.c.m.cells + vs, world := w))
      && y.s == x.s.(store := x.s.store + vs, world := w)
      && y.env == Extend(sc.env, sc.formals.Names(), |x.s.store|)
      && y.g == x.g && y.fuel == x.fuel - 1 && Extends(x.l, y.l)
      && Set(y, CompSeq(sc.body, y.ctx, Ip(y), y.p, o.depth + 1, true), true)
  {
    hide CompSeq, MatchMemory, MatchEnv, Fits;
    OriginEnv(x, id);
    var sc, vc, o := x.s.closures[id], x.c.m.closures[id], x.l.origin[id];
    var l := BindMemory(x.g.fns, x.c.m, x.s, x.l, vs);
    var m, s := x.c.m.(cells := x.c.m.cells + vs), x.s.(store := x.s.store + vs);
    ChangeWorld(x.g.fns, m, s, l, w);
    var cells := seq(|vs|, i requires 0 <= i < |vs| => |x.c.m.cells| + i);
    EnterEnv(o.ctx, sc.env, vc.scope, x.l.cell, sc.formals.Names(), locals, cells);
    var code := x.g.fns[vc.fn].code;
    y := Point(x.g, x.fuel - 1, Ctx(locals, Some(o.ctx)), Extend(sc.env, sc.formals.Names(), |x.s.store|),
               s.(world := w), Pools([], o.fns, |locals|),
               Running(NewFrame(vc.fn, code, cells, Some(vc.scope)), callers, depth, m.(world := w)), [], l);
    assert code[0..|b.code|] == b.code && code[|b.code|..] == Enc(Return);
    assert code[|b.code|..|b.code| + 1] == code[|b.code|..];
    FetchEncoded(code, |b.code|, Return);
  }

  lemma {:induction false} OriginEnv(x: Point, id: nat)
    requires Situated(x) && id < |x.s.closures|
    ensures |x.c.m.closures| == |x.l.origin| == |x.s.closures| && |x.l.cell| == |x.s.store|
    ensures var o, vc := x.l.origin[id], x.c.m.closures[id];
      MatchEnv(o.ctx, x.s.closures[id].env, vc.scope.locals, vc.scope.parent, x.l.cell)
  {
    hide CompFunction, MatchEnv;
    assert MatchClosure(x.g.fns, x.s.closures[id], x.c.m.closures[id], x.l.origin[id], x.l.cell);
  }

  /** Parameters extend the closure's environment on both sides. */
  lemma {:induction false} EnterEnv(ctx: Ctx, env: Env, scope: Scope, cell: seq<nat>, names: seq<string>,
        locals: Locals, cells: seq<nat>)
    requires MatchEnv(ctx, env, scope.locals, scope.parent, cell)
    requires |cells| == |locals| == |names| <= 255
    requires forall i :: 0 <= i < |locals| ==> locals[i] == (names[i], i)
    ensures MatchEnv(Ctx(locals, Some(ctx)), Extend(env, names, |cell|), cells, Some(scope), cell + cells)
  {
    MatchEnvGrows(ctx, env, scope.locals, scope.parent, cell, scope.locals, cell + cells);
    var env' := Extend(env, names, |cell|);
    assert env'[..|env|] == env;
    forall i | 0 <= i < |locals|
      ensures MatchSlot(locals[i], env'[|env| + i], cells, cell + cells)
    {
      assert env'[|env| + i] == (names[i], |cell| + i);
    }
  }

}
