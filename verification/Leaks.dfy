/**
 Why the preservation theorem asks that operands which may not run introduce no
 variables: `and` leaves the slot counter where its last operand moved it, whether or
 not that operand ran, so a variable bound afterwards is looked up one slot too far.
 */
module Leaks {
  import opened Prelude
  import opened Data
  import opened Syntax
  import opened Instr
  import opened Source
  import opened Compile
  import opened Vm
  import opened Relation
  import opened Programs

  function EncAll(list: seq<Instr>): seq<byte> {
    if list == [] then [] else Enc(list[0]) + EncAll(list[1..])
  }

  function Offset(list: seq<Instr>, k: nat): nat
    requires k <= |list|
  {
    if k == 0 then 0 else Size(list[0]) + Offset(list[1..], k - 1)
  }

  lemma {:induction false} OccursAt(list: seq<Instr>, k: nat, code: seq<byte>, at: nat)
    requires k < |list| && Occurs(code, at, EncAll(list))
    ensures Occurs(code, at + Offset(list, k), Enc(list[k])) && Offset(list, k + 1) == Offset(list, k) + Size(list[k])
    decreases k
  {
    OccursSplit(code, at, Enc(list[0]), EncAll(list[1..]));
    if k > 0 {
      OccursAt(list[1..], k - 1, code, at + Size(list[0]));
    }
  }

  /** One step of a chunk given as a list of instructions. */
  lemma {:induction false} ListStep(g: Machine, list: seq<Instr>, k: nat, c: Config)
    requires c.Running? && c.top.fn < |g.fns| && c.top.steps > 0
    requires k < |list| && g.fns[c.top.fn].code == EncAll(list) && c.top.ip == Offset(list, k)
    ensures Step(g, c)
      == Do(g, list[k], c.top.(ip := Offset(list, k) + Size(list[k]), steps := c.top.steps - 1), c.callers, c.depth,
        c.m)
  {
    hide Do, Offset, EncAll, Enc, Size;
    ListFetch(list, k);
  }

  lemma {:induction false} ListRun(g: Machine, list: seq<Instr>, k: nat, c: Config, left: nat)
    requires c.Running? && c.top.fn < |g.fns| && c.top.steps > 0 && left > 0
    requires k < |list| && g.fns[c.top.fn].code == EncAll(list) && c.top.ip == Offset(list, k)
    ensures Run(g, left, c)
      == Run(g, left - 1, Do(g, list[k], c.top.(ip := c.top.ip + Size(list[k]), steps := c.top.steps - 1), c.callers,
                             c.depth, c.m))
  {
    hide EncAll, Offset, Do, Size;
    ListStep(g, list, k, c);
  }

  lemma {:induction false} ListFetch(list: seq<Instr>, k: nat)
    requires k < |list|
    ensures Fetch(EncAll(list), Offset(list, k)) == Got(list[k], Offset(list, k) + Size(list[k]))
  {
    hide EncAll, Offset, Fetch, Enc, Size;
    var code := EncAll(list);
    assert code[0..|code|] == code;
    OccursAt(list, k, code, 0);
    FetchEncoded(code, Offset(list, k), list[k]);
  }

  /** `(and #f (let ((x 1)) x))`, then `(let ((y 2)) y)`. */
  function Leaky(): Exprs {
    More(And(More(Lit(CBool(false)), More(LetOne("x", 1), NoExprs))), More(LetOne("y", 2), NoExprs))
  }

  /** `(let ((x n)) e)`. */
  function LetIn(x: string, n: int, e: Expr): Expr {
    Let(Bind(x, Lit(CInt(n)), NoBindings), More(e, NoExprs))
  }

  function LetOne(x: string, n: int): Expr {
    LetIn(x, n, Var(x))
  }

  function LeakyCode(): seq<Instr> {
    [Const(0), Dup, JumpIfFalse(20), Instr.Pop, Const(1), PushLocal, GetLocal(0),
     Instr.Pop, Const(2), PushLocal, GetLocal(1), Instr.Pop, Halt]
  }

  lemma {:induction false} OneBinding(x: string, n: int, ctx: Ctx, at: nat, p: Pools, depth: nat)
    requires ctx.locals == [] && p.slot < 255 && |p.consts| < 100 && depth < 200
    ensures CompBindings(Bind(x, Lit(CInt(n)), NoBindings), ctx, ctx, at, p, depth, false)
      == Ok((Enc(Const(|p.consts|)) + Enc(PushLocal), Pools(p.consts + [CInt(n)], p.fns, p.slot + 1),
             ctx.(locals := [(x, p.slot)])))
  {
    hide Enc, CompIf, CompAnd;
    var c := EmitConst(p, CInt(n));
    var bs := Bind(x, Lit(CInt(n)), NoBindings);
    assert [] + [(x, p.slot)] == [(x, p.slot)];
    assert Declare(ctx.locals, x, p.slot) == Ok(([(x, p.slot)], p.slot + 1));
    var ext := ctx.(locals := [(x, p.slot)]);
    assert CompExpr(bs.init, ctx, at, p, depth, false) == Ok(c);
    var q := c.p.(slot := p.slot + 1);
    assert CompBindings(bs.rest, ctx, ext, at + |c.code| + 1, q, depth, false) == Ok(([], q, ext));
    assert c.code + Enc(PushLocal) + [] == c.code + Enc(PushLocal);
  }

  lemma {:induction false} LetInUnfolds(x: string, n: int, e: Expr, ctx: Ctx, at: nat, p: Pools, depth: nat, tail: bool)
    requires depth <= MAX_NESTING_DEPTH
    ensures CompExpr(LetIn(x, n, e), ctx, at, p, depth, tail)
      == CompLet(Bind(x, Lit(CInt(n)), NoBindings), More(e, NoExprs), ctx, at, p, depth, tail, false)
  {
    hide CompLet, CompIf, CompAnd;
  }

  /** In a context without locals, a `let` of a number takes the next slot for its body. */
  lemma {:induction false} LetInCompiles(x: string, n: int, e: Expr, ctx: Ctx, at: nat, p: Pools, depth: nat,
        tail: bool, b: Compile.Emitted)
    requires ctx.locals == [] && p.slot < 255 && |p.consts| < 100 && depth < 100
    requires CompExpr(e, ctx.(locals := [(x, p.slot)]), at + 6, Pools(p.consts + [CInt(n)], p.fns, p.slot + 1),
                      depth + 1, tail) == Ok(b)
    ensures CompExpr(LetIn(x, n, e), ctx, at, p, depth, tail)
      == Ok(Compile.Emitted(Enc(Const(|p.consts|)) + Enc(PushLocal) + b.code, b.p))
  {
    hide Enc, CompExpr, CompBindings;
    LetInUnfolds(x, n, e, ctx, at, p, depth, tail);
    var bs := Bind(x, Lit(CInt(n)), NoBindings);
    OneBinding(x, n, ctx, at, p, depth + 1);
    var code := Enc(Const(|p.consts|)) + Enc(PushLocal);
    var body := More(e, NoExprs);
    assert CompSeq(body, ctx.(locals := [(x, p.slot)]), at + |code|, Pools(p.consts + [CInt(n)], p.fns, p.slot + 1),
                   depth + 1, tail) == Ok(b);
    assert CompLet(bs, body, ctx, at, p, depth, tail, false) == Ok(Compile.Emitted(code + b.code, b.p));
  }

  lemma {:induction false} LetOneCompiles(x: string, n: int, ctx: Ctx, at: nat, p: Pools, depth: nat, tail: bool)
    requires ctx.locals == [] && p.slot < 255 && |p.consts| < 100 && depth < 100
    ensures CompExpr(LetOne(x, n), ctx, at, p, depth, tail)
      == Ok(Compile.Emitted(Enc(Const(|p.consts|)) + Enc(PushLocal) + Enc(GetLocal(p.slot)),
                            Pools(p.consts + [CInt(n)], p.fns, p.slot + 1)))
  {
    hide Enc;
    var q := Pools(p.consts + [CInt(n)], p.fns, p.slot + 1);
    var ext := ctx.(locals := [(x, p.slot)]);
    assert ResolveLocal(ext.locals, x) == Some(p.slot);
    var b := Compile.Emitted(Enc(GetLocal(p.slot)), q);
    assert CompExpr(Var(x), ext, at + 6, q, depth + 1, tail) == Ok(b);
    LetInCompiles(x, n, Var(x), ctx, at, p, depth, tail, b);
  }

  /** The second and later operands of an `and` follow a test that skips them. */
  lemma {:induction false} LeakyAndCompiles(p: Pools)
    requires p == Pools([], [], 0)
    ensures CompExpr(Leaky().head, Ctx([], None), 0, p, 0, false)
      == Ok(Compile.Emitted(Enc(Const(0)) + (Enc(Dup) + Enc(JumpIfFalse(20)) + Enc(Instr.Pop))
                            + (Enc(Const(1)) + Enc(PushLocal) + Enc(GetLocal(0))),
                            Pools([CBool(false), CInt(1)], [], 1)))
  {
    hide Enc;
    var top := Ctx([], None);
    var last := More(LetOne("x", 1), NoExprs);
    var q := AddConst(p, CBool(false));
    assert CompExpr(Lit(CBool(false)), top, 0, p, 1, false) == Ok(EmitConst(p, CBool(false)));
    LetOneCompiles("x", 1, top, 12, q, 1, false);
    var e := CompExpr(LetOne("x", 1), top, 12, q, 1, false).value;
    assert CompParts(last, top, 12, q, 1, false, AND_GAP) == Ok(([e.code], e.p));
    assert e.p.consts == [CBool(false), CInt(1)];
    assert BranchTo(20) == Enc(JumpIfFalse(20));
    var first := Enc(Const(0));
    assert [first] + [e.code] == [first, e.code];
    assert CompParts(Leaky().head.es, top, 0, p, 1, false, AND_GAP) == Ok(([first, e.code], e.p));
    assert [first, e.code][1..] == [e.code];
    assert GluedLen([first, e.code], AND_GAP) == 20;
    assert GlueAnd([e.code], 20) == e.code;
    assert GlueAnd([first, e.code], 20) == first + (Enc(Dup) + BranchTo(20) + Enc(Instr.Pop)) + e.code;
    assert CompAnd(Leaky().head.es, top, 0, p, 0, false) == Ok(Compile.Emitted(GlueAnd([first, e.code], 20), e.p));
  }

  function LeakyModule(): Module {
    Module(0, [Chunk(EncAll(LeakyCode()), [CBool(false), CInt(1), CInt(2)], 0, false, None)])
  }

  lemma {:induction false} EncAllAppend(a: seq<Instr>, b: seq<Instr>)
    ensures EncAll(a + b) == EncAll(a) + EncAll(b)
    decreases |a|
  {
    hide Enc;
    if a == [] {
      assert a + b == b;
    } else {
      assert (a + b)[1..] == a[1..] + b;
      EncAllAppend(a[1..], b);
    }
  }

  lemma {:induction false} EncAllOne(a: Instr)
    ensures EncAll([a]) == Enc(a)
  {
    hide Enc;
    assert [a][1..] == [];
    assert Enc(a) + [] == Enc(a);
  }

  lemma {:induction false} EncAllThree(a: Instr, b: Instr, c: Instr)
    ensures EncAll([a, b, c]) == Enc(a) + Enc(b) + Enc(c)
  {
    hide Enc, EncAll;
    EncAllOne(a);
    EncAllOne(b);
    EncAllOne(c);
    EncAllAppend([a], [b]);
    EncAllAppend([a] + [b], [c]);
    assert [a] + [b] + [c] == [a, b, c];
  }

  lemma {:induction false} LeakyCompiles()
    ensures CompProgram(Leaky()) == Ok(LeakyModule())
  {
    hide CompForms, Enc, EncAll;
    var code, p := LeakyForms();
    assert p.consts == [CBool(false), CInt(1), CInt(2)];
    var entry := Chunk(EncAll(LeakyCode()), p.consts, 0, false, None);
    assert p.fns + [entry] == [entry];
  }

  lemma {:induction false} OneForm(e: Expr, rest: Exprs, at: nat, p: Pools, a: Compile.Emitted, b: Compile.Emitted)
    requires CompExpr(e, Ctx([], None), at, p, 0, false) == Ok(a)
    requires CompForms(rest, at + |a.code| + 1, a.p) == Ok(b)
    ensures CompForms(More(e, rest), at, p) == Ok(Compile.Emitted(a.code + Enc(Instr.Pop) + b.code, b.p))
  {
    hide CompExpr, Enc;
  }

  lemma {:induction false} LeakyForms() returns (code: seq<byte>, p: Pools)
    ensures CompForms(Leaky(), 0, Pools([], [], 0)) == Ok(Compile.Emitted(code, p))
    ensures code + Enc(Halt) == EncAll(LeakyCode()) && p == Pools([CBool(false), CInt(1)] + [CInt(2)], [], 2)
  {
    hide CompExpr, CompForms, Enc, EncAll;
    var top, start := Ctx([], None), Pools([], [], 0);
    LeakyAndCompiles(start);
    var a := CompExpr(Leaky().head, top, 0, start, 0, false).value;
    LetOneCompiles("y", 2, top, 21, a.p, 0, false);
    var b := CompExpr(LetOne("y", 2), top, 21, a.p, 0, false).value;
    NoForms(21 + |b.code| + 1, b.p);
    OneForm(LetOne("y", 2), NoExprs, 21, a.p, b, Compile.Emitted([], b.p));
    assert |a.code| == 20;
    var rest := Compile.Emitted(b.code + Enc(Instr.Pop) + [], b.p);
    OneForm(Leaky().head, Leaky().tail, 0, start, a, rest);
    code, p := a.code + Enc(Instr.Pop) + rest.code, b.p;
    LeakyBytes(a.code, b.code);
  }

  lemma {:induction false} NoForms(at: nat, p: Pools)
    ensures CompForms(NoExprs, at, p) == Ok(Compile.Emitted([], p))
  {
  }

  lemma {:induction false} LeakyBytes(a: seq<byte>, b: seq<byte>)
    requires a == Enc(Const(0)) + (Enc(Dup) + Enc(JumpIfFalse(20)) + Enc(Instr.Pop))
      + (Enc(Const(1)) + Enc(PushLocal) + Enc(GetLocal(0)))
    requires b == Enc(Const(2)) + Enc(PushLocal) + Enc(GetLocal(1))
    ensures a + Enc(Instr.Pop) + (b + Enc(Instr.Pop) + []) + Enc(Halt) == EncAll(LeakyCode())
  {
    hide Enc, EncAll;
    var x, y, z := [Const(0)], [Dup, JumpIfFalse(20), Instr.Pop], [Const(1), PushLocal, GetLocal(0)];
    var w := [Const(2), PushLocal, GetLocal(1)];
    EncAllOne(Const(0));
    EncAllOne(Instr.Pop);
    EncAllOne(Halt);
    EncAllThree(Dup, JumpIfFalse(20), Instr.Pop);
    EncAllThree(Const(1), PushLocal, GetLocal(0));
    EncAllThree(Const(2), PushLocal, GetLocal(1));
    EncAllAppend(x, y);
    EncAllAppend(x + y, z);
    EncAllAppend(x + y + z, [Instr.Pop]);
    EncAllAppend(w, [Instr.Pop]);
    EncAllAppend(x + y + z + [Instr.Pop], w + [Instr.Pop]);
    EncAllAppend(x + y + z + [Instr.Pop] + (w + [Instr.Pop]), [Halt]);
    assert x + y + z + [Instr.Pop] + (w + [Instr.Pop]) + [Halt] == LeakyCode();
    assert b + Enc(Instr.Pop) + [] == b + Enc(Instr.Pop);
  }

  lemma {:induction false} OffsetNext(list: seq<Instr>, k: nat)
    requires k < |list|
    ensures Offset(list, k + 1) == Offset(list, k) + Size(list[k])
    decreases k
  {
    hide Size;
    if k > 0 {
      OffsetNext(list[1..], k - 1);
    }
  }

  lemma {:induction false} LeakyOffsets()
    ensures var l := LeakyCode();
      Offset(l, 0) == 0 && Offset(l, 1) == 5 && Offset(l, 2) == 6 && Offset(l, 7) == 20 && Offset(l, 8) == 21
      && Offset(l, 9) == 26 && Offset(l, 10) == 27
  {
    hide Offset;
    var l := LeakyCode();
    OffsetZero(l);
    OffsetNext(l, 0);
    OffsetNext(l, 1);
    OffsetNext(l, 2);
    OffsetNext(l, 3);
    OffsetNext(l, 4);
    OffsetNext(l, 5);
    OffsetNext(l, 6);
    OffsetNext(l, 7);
    OffsetNext(l, 8);
    OffsetNext(l, 9);
  }

  lemma {:induction false} OffsetZero(list: seq<Instr>)
    ensures Offset(list, 0) == 0
  {
  }

  /** The machine part way through the leaky program. */
  function At(ip: nat, steps: nat, stack: seq<Value>, locals: seq<nat>, cells: seq<Value>, i: Initial): Config {
    Running(Frame(0, ip, steps, stack, locals, None), [], 0, Memory(cells, [], i.globals, i.world))
  }

  lemma {:induction false} EncAllLength(list: seq<Instr>)
    ensures |EncAll(list)| >= |list|
    decreases |list|
  {
    hide Enc;
    if list != [] {
      EncAllLength(list[1..]);
    }
  }

  lemma {:induction false} LeakyOperand(g: Machine, n: nat, i: Initial)
    requires g.fns == LeakyModule().fns && n >= 2
    ensures Run(g, 7, At(0, n, [], [], [], i)) == Run(g, 5, At(6, n - 2, [Bool(false), Bool(false)], [], [], i))
  {
    hide EncAll, Offset, Run;
    LeakyOffsets();
    var f := Bool(false);
    assert [] + [f] == [f] && [f] + [f] == [f, f];
    ListRun(g, LeakyCode(), 0, At(0, n, [], [], [], i), 7);
    assert Run(g, 7, At(0, n, [], [], [], i)) == Run(g, 6, At(5, n - 1, [f], [], [], i));
    ListRun(g, LeakyCode(), 1, At(5, n - 1, [f], [], [], i), 6);
  }

  /** The first operand decides, and control leaves the `and` with one slot less than the compiler counts. */
  lemma {:induction false} LeakyFirst(g: Machine, n: nat, i: Initial)
    requires g.fns == LeakyModule().fns && n >= 4
    ensures Run(g, 7, At(0, n, [], [], [], i)) == Run(g, 3, At(21, n - 4, [], [], [], i))
  {
    hide EncAll, Offset, Run;
    LeakyOperand(g, n, i);
    LeakyOffsets();
    var f := Bool(false);
    assert [f, f][..1] == [f] && [f][..0] == [];
    ListRun(g, LeakyCode(), 2, At(6, n - 2, [f, f], [], [], i), 5);
    assert Run(g, 5, At(6, n - 2, [f, f], [], [], i)) == Run(g, 4, At(20, n - 3, [f], [], [], i));
    ListRun(g, LeakyCode(), 7, At(20, n - 3, [f], [], [], i), 4);
  }

  /** The second form binds slot 0 and looks slot 1 up. */
  lemma {:induction false} LeakySecond(g: Machine, n: nat, i: Initial)
    requires g.fns == LeakyModule().fns && n >= 3
    ensures Run(g, 3, At(21, n, [], [], [], i)) == Stopped(LocalSlotRange)
  {
    hide EncAll, Offset, Run;
    LeakyOffsets();
    assert [] + [Int(2)] == [Int(2)] && [Int(2)][..0] == [] && [] + [0] == [0];
    ListRun(g, LeakyCode(), 8, At(21, n, [], [], [], i), 3);
    assert Run(g, 3, At(21, n, [], [], [], i)) == Run(g, 2, At(26, n - 1, [Int(2)], [], [], i));
    ListRun(g, LeakyCode(), 9, At(26, n - 1, [Int(2)], [], [], i), 2);
    assert Run(g, 2, At(26, n - 1, [Int(2)], [], [], i)) == Run(g, 1, At(27, n - 2, [], [0], [Int(2)], i));
    ListRun(g, LeakyCode(), 10, At(27, n - 2, [], [0], [Int(2)], i), 1);
    RunZero(g, Stopped(LocalSlotRange));
  }

  lemma {:induction false} LeakyRun(prims: Natives, i: Initial)
    ensures Run(Machine(prims, LeakyModule().fns), 7, StartConfig(LeakyModule(), i)) == Stopped(LocalSlotRange)
  {
    hide EncAll, Run;
    var g := Machine(prims, LeakyModule().fns);
    var n := |EncAll(LeakyCode())| + 1;
    EncAllLength(LeakyCode());
    LeakyFirst(g, n, i);
    LeakySecond(g, n - 4, i);
  }

  /** The meaning of the leaky program: it ends, with nothing changed but the world's allocations. */
  lemma {:induction false} LeakyMeaning(prims: Natives, fuel: nat, i: Initial)
    ensures EvalProgram(prims, fuel, Leaky(), StartState(i)).Done?
  {
    var s := StartState(i);
    assert EvalAnd(prims, fuel, Leaky().head.es, [], s, 0, false) == Done(Answer(Bool(false), s));
    assert Eval(prims, fuel, Leaky().head, [], s, 0, false) == Done(Answer(Bool(false), s));
    var bs := Bind("y", Lit(CInt(2)), NoBindings);
    var env := [] + [("y", 0)];
    var t := s.(store := [Int(2)]);
    assert s.store + [Int(2)] == t.store;
    assert EvalBindings(prims, fuel, NoBindings, [], env, t, 0, false) == Done((env, t));
    assert EvalBindings(prims, fuel, bs, [], [], s, 0, false) == Done((env, t));
    assert Lookup(env, "y") == Some(0);
    assert EvalSeq(prims, fuel, More(Var("y"), NoExprs), env, t, 0, false) == Done(Answer(Int(2), t));
    assert Eval(prims, fuel, LetOne("y", 2), [], s, 0, false) == Done(Answer(Int(2), t));
    assert EvalProgram(prims, fuel, NoExprs, t) == Done(t);
    assert EvalProgram(prims, fuel, Leaky().tail, s) == Done(t);
  }

  lemma {:induction false} LeakyUnsafe()
    ensures !SafeForms(Leaky())
  {
    var last := More(LetOne("x", 1), NoExprs);
    assert !NoSlots(LetOne("x", 1));
    assert !NoSlotsSeq(last);
    assert !Safe(Leaky().head, false);
  }

  /** Without the condition on conditional operands, compilation does not preserve meaning. */
  lemma {:induction false} ConditionalSlotsLeak(prims: Natives, fuel: nat, i: Initial)
    ensures CompProgram(Leaky()) == Ok(LeakyModule()) && !SafeForms(Leaky())
    ensures EvalProgram(prims, fuel, Leaky(), StartState(i)).Done?
    ensures Run(Machine(prims, LeakyModule().fns), 7, StartConfig(LeakyModule(), i)) == Stopped(LocalSlotRange)
  {
    hide CompProgram, Run, EvalProgram, SafeForms;
    LeakyUnsafe();
    LeakyCompiles();
    LeakyRun(prims, i);
    LeakyMeaning(prims, fuel, i);
  }
}
