/**
 Why the preservation theorem asks something of the tests of `cond`: a test that fails
 leaves the variables it bound in the frame, the compiler counts from the start of the
 `cond` again, and a later clause then reads the failed test's variable for its own.
 */
module Misreads {
  import opened Prelude
  import opened Data
  import opened Syntax
  import opened Instr
  import opened Source
  import opened Compile
  import opened Vm
  import opened Relation
  import opened Programs
  import opened Leaks

  /** `(cond ((let ((x 1)) #f) 7) (else (let ((y 2)) y)))`. */
  function Clauses(): Tests {
    Test(LetIn("x", 1, Lit(CBool(false))), More(Lit(CInt(7)), NoExprs),
         ElseTests(More(LetOne("y", 2), NoExprs)))
  }

  function Body(): Exprs {
    More(Cond(Clauses()), NoExprs)
  }

  /** `(define f (lambda () (cond ...)))`, then `(define r (f))`. */
  function Program(): Exprs {
    More(Define("f", Lambda(Formals([], None), Body())), More(Define("r", App(Var("f"), NoExprs)), NoExprs))
  }

  function BodyCode(): seq<Instr> {
    [Const(0), PushLocal, Const(1), JumpIfFalse(26), Const(2), Jump(49),
     Const(3), PushLocal, GetLocal(0), Jump(54),
     Const(4), Jump(59), Jump(59), Jump(59), Return]
  }

  function EntryCode(): seq<Instr> {
    [MakeFunction(0), DefGlobal(0), Instr.Pop, GetGlobal(1), Call(0), DefGlobal(2), Instr.Pop, Halt]
  }

  function BodyConsts(): seq<Data.Const> {
    [CInt(1), CBool(false), CInt(7), CInt(2), CUnspecified]
  }

  function Compiled(): Module {
    Module(1, [Chunk(EncAll(BodyCode()), BodyConsts(), 0, false, Some("f")),
               Chunk(EncAll(EntryCode()), [CSymbol("f"), CSymbol("f"), CSymbol("r")], 0, false, None)])
  }

  // ----- what the compiler makes of it -----

  function Inner(): Ctx {
    Ctx([], Some(Ctx([], None)))
  }

  lemma {:induction false} TestCompiles(p: Pools)
    requires p == Pools([], [], 0)
    ensures CompExpr(Clauses().test, Inner(), 0, p, 2, false)
      == Ok(Compile.Emitted(Enc(Const(0)) + Enc(PushLocal) + Enc(Const(1)), Pools([CInt(1), CBool(false)], [], 1)))
  {
    hide Enc;
    var q := Pools([CInt(1)], [], 1);
    var b := EmitConst(q, CBool(false));
    assert [] + [CInt(1)] == [CInt(1)] && [CInt(1)] + [CBool(false)] == [CInt(1), CBool(false)];
    assert CompExpr(Lit(CBool(false)), Inner().(locals := [("x", 0)]), 6, q, 3, false) == Ok(b);
    LetInCompiles("x", 1, Lit(CBool(false)), Inner(), 0, p, 2, false, b);
  }

  function FirstPart(): Part {
    Part(Enc(Const(0)) + Enc(PushLocal) + Enc(Const(1)) + BranchTo(26) + Enc(Const(2)), [], 1)
  }

  function LastPart(): Part {
    Part(Enc(Const(3)) + Enc(PushLocal) + Enc(GetLocal(0)), [], 1)
  }

  lemma {:induction false} ElseCompiles(p: Pools)
    requires p == Pools([CInt(1), CBool(false), CInt(7)], [], 1)
    ensures CompTests(Clauses().rest, Inner(), 26, p, 0, 1, true)
      == Ok(([LastPart()], Pools([CInt(1), CBool(false), CInt(7), CInt(2)], [], 1)))
  {
    hide Enc, CompExpr;
    var p0 := p.(slot := 0);
    LetOneCompiles("y", 2, Inner(), 26, p0, 2, true);
    assert [CInt(1), CBool(false), CInt(7)] + [CInt(2)] == [CInt(1), CBool(false), CInt(7), CInt(2)];
    assert CompSeq(More(LetOne("y", 2), NoExprs), Inner(), 26, p0, 2, true)
        == CompExpr(LetOne("y", 2), Inner(), 26, p0, 2, true);
  }

  lemma {:induction false} NumberCompiles(n: int, ctx: Ctx, at: nat, p: Pools, depth: nat, tail: bool)
    requires depth <= MAX_NESTING_DEPTH
    ensures CompSeq(More(Lit(CInt(n)), NoExprs), ctx, at, p, depth, tail) == Ok(EmitConst(p, CInt(n)))
  {
    hide Enc;
  }

  /** A clause with a test, compiled. */
  lemma {:induction false} TestClause(ts: Tests, ctx: Ctx, at: nat, p: Pools, depth: nat, t: Compile.Emitted,
        b: Compile.Emitted, parts: seq<Part>, q: Pools)
    requires ts.Test? && p.slot == 0
    requires CompExpr(ts.test, ctx, at, p, depth + 1, false) == Ok(t)
    requires CompSeq(ts.body, ctx, at + |t.code| + 5, t.p, depth + 1, true) == Ok(b)
    requires CompTests(ts.rest, ctx, at + |t.code| + |b.code| + 10, b.p, 0, depth, true) == Ok((parts, q))
    ensures CompTests(ts, ctx, at, p, 0, depth, true)
      == Ok(([Part(t.code + BranchTo(at + |t.code| + |b.code| + 10) + b.code, [], b.p.slot)] + parts, q))
  {
    hide Enc, CompExpr, CompSeq, BranchTo;
    assert p.(slot := 0) == p && at + |t.code| + 5 + |b.code| + 5 == at + |t.code| + |b.code| + 10;
  }

  lemma {:induction false} ClausesCompile(p: Pools)
    requires p == Pools([], [], 0)
    ensures CompTests(Clauses(), Inner(), 0, p, 0, 1, true)
      == Ok(([FirstPart(), LastPart()], Pools([CInt(1), CBool(false), CInt(7), CInt(2)], [], 1)))
  {
    hide Enc, CompTests, CompExpr, CompSeq, BranchTo;
    TestCompiles(p);
    var t := CompExpr(Clauses().test, Inner(), 0, p, 2, false).value;
    var b := EmitConst(t.p, CInt(7));
    assert [CInt(1), CBool(false)] + [CInt(7)] == [CInt(1), CBool(false), CInt(7)];
    NumberCompiles(7, Inner(), 16, t.p, 2, true);
    ElseCompiles(b.p);
    TestClause(Clauses(), Inner(), 0, p, 1, t, b, [LastPart()],
               Pools([CInt(1), CBool(false), CInt(7), CInt(2)], [], 1));
    assert [FirstPart()] + [LastPart()] == [FirstPart(), LastPart()];
  }

  lemma {:induction false} FirstBytes()
    ensures FirstPart().pre + JumpTo(49) + [] == EncAll(BodyCode()[..6]) && |FirstPart().pre| == 21
  {
    hide Enc, EncAll;
    EncAllThree(Const(0), PushLocal, Const(1));
    EncAllThree(JumpIfFalse(26), Const(2), Jump(49));
    EncAllAppend([Const(0), PushLocal, Const(1)], [JumpIfFalse(26), Const(2), Jump(49)]);
    assert BodyCode()[..6] == [Const(0), PushLocal, Const(1)] + [JumpIfFalse(26), Const(2), Jump(49)];
    var a := Enc(Const(0)) + Enc(PushLocal) + Enc(Const(1));
    assert a + Enc(JumpIfFalse(26)) + Enc(Const(2)) + Enc(Jump(49)) + []
        == a + (Enc(JumpIfFalse(26)) + Enc(Const(2)) + Enc(Jump(49)));
  }

  lemma {:induction false} LastBytes()
    ensures LastPart().pre + JumpTo(54) + [] + [] == EncAll(BodyCode()[6..10]) && |LastPart().pre| == 8
  {
    hide Enc, EncAll;
    EncAllThree(Const(3), PushLocal, GetLocal(0));
    EncAllOne(Jump(54));
    EncAllAppend([Const(3), PushLocal, GetLocal(0)], [Jump(54)]);
    assert BodyCode()[6..10] == [Const(3), PushLocal, GetLocal(0)] + [Jump(54)];
  }

  lemma {:induction false} ClauseBytes()
    ensures JoinParts([FirstPart(), LastPart()], 49, 1, true) == EncAll(BodyCode()[..10])
  {
    hide Enc, EncAll;
    FirstBytes();
    LastBytes();
    EncAllAppend(BodyCode()[..6], BodyCode()[6..10]);
    assert [FirstPart(), LastPart()][1..] == [LastPart()] && [LastPart()][1..] == [];
    assert BodyCode()[..6] + BodyCode()[6..10] == BodyCode()[..10];
  }

  /** The no-match path, the two empty stubs and the RETURN of the function. */
  lemma {:induction false} ExitBytes(none: seq<byte>, stubs: seq<byte>)
    requires none == [] + Enc(Const(4)) + [] + JumpTo(59)
    requires stubs == [] + JumpTo(59) + ([] + JumpTo(59) + [])
    ensures none + stubs + Enc(Return) == EncAll(BodyCode()[10..])
  {
    hide Enc, EncAll;
    EncAllThree(Const(4), Jump(59), Jump(59));
    EncAllOne(Jump(59));
    EncAllOne(Return);
    EncAllAppend([Jump(59)], [Return]);
    EncAllAppend([Const(4), Jump(59), Jump(59)], [Jump(59)] + [Return]);
    assert BodyCode()[10..] == [Const(4), Jump(59), Jump(59)] + ([Jump(59)] + [Return]);
    var c, j, r := Enc(Const(4)), Enc(Jump(59)), Enc(Return);
    assert none == c + j && stubs == j + j;
    assert c + j + (j + j) + r == c + j + j + (j + r);
  }

  lemma {:induction false} SelectCompiles(q: Pools) returns (sel: Compile.Emitted)
    requires q == Pools([CInt(1), CBool(false), CInt(7), CInt(2)], [], 1)
    ensures var parts := [FirstPart(), LastPart()]; sel == Select(parts, 0, q, 0, true, [])
    ensures sel.p.consts == BodyConsts() && sel.p.fns == [] && sel.code + Enc(Return) == EncAll(BodyCode())
  {
    hide Enc, EncAll, JumpTo, BranchTo, JoinParts;
    var parts := [FirstPart(), LastPart()];
    assert parts[1..] == [LastPart()] && [LastPart()][1..] == [];
    FirstBytes();
    LastBytes();
    sel := Select(parts, 0, q, 0, true, []);
    assert MaxNeeds([LastPart()]) == 1 && MaxNeeds(parts) == 1;
    assert PartsLen([LastPart()]) == 13 && PartsLen(parts) == 39;
    assert StubsLen([LastPart()], 1, true) == 5 && StubsLen(parts, 1, true) == 10;
    var none := EmitConst(q.(slot := 0), CUnspecified);
    assert none.p.consts == BodyConsts();
    var last := Stubs([LastPart()], none.p.(slot := 1), 0, 1, true, 59);
    assert last == Compile.Emitted([] + JumpTo(59) + [], none.p.(slot := 1));
    var stubs := Stubs(parts, none.p, 0, 1, true, 59);
    assert stubs == Compile.Emitted([] + JumpTo(59) + ([] + JumpTo(59) + []), none.p.(slot := 1));
    ClauseBytes();
    var exit := [] + none.code + [] + JumpTo(59);
    ExitBytes(exit, stubs.code);
    EncAllAppend(BodyCode()[..10], BodyCode()[10..]);
    assert BodyCode()[..10] + BodyCode()[10..] == BodyCode();
    assert sel.code == EncAll(BodyCode()[..10]) + exit + stubs.code;
    assert sel.code + Enc(Return) == EncAll(BodyCode()[..10]) + (exit + stubs.code + Enc(Return));
  }

  lemma {:induction false} BodyCompiles() returns (b: Compile.Emitted)
    ensures CompSeq(Body(), Inner(), 0, Pools([], [], 0), 1, true) == Ok(b)
    ensures b.p.consts == BodyConsts() && b.p.fns == [] && b.code + Enc(Return) == EncAll(BodyCode())
  {
    hide Enc, EncAll, CompTests, Select;
    var p := Pools([], [], 0);
    ClausesCompile(p);
    b := SelectCompiles(Pools([CInt(1), CBool(false), CInt(7), CInt(2)], [], 1));
    assert CompCond(Clauses(), Inner(), 0, p, 1, true) == Ok(b);
    assert CompExpr(Cond(Clauses()), Inner(), 0, p, 1, true) == Ok(b);
  }

  lemma {:induction false} DefineCompiles()
    ensures CompExpr(Program().head, Ctx([], None), 0, Pools([], [], 0), 0, false)
      == Ok(Compile.Emitted(Enc(MakeFunction(0)) + Enc(DefGlobal(0)), Pools([CSymbol("f")], [Compiled().fns[0]], 0)))
  {
    hide Enc, EncAll, CompSeq;
    var b := BodyCompiles();
    var f, p := Lambda(Formals([], None), Body()), Pools([], [], 0);
    assert f.formals.Names() == [];
    assert CompFunction(f.formals, f.body, Ctx([], None), [], 0, Some("f")) == Ok((0, [] + [Compiled().fns[0]]));
    assert [] + [Compiled().fns[0]] == [Compiled().fns[0]] && [] + [CSymbol("f")] == [CSymbol("f")];
    assert CompDefine("f", f, Ctx([], None), 0, p, 0)
        == Ok(Compile.Emitted(Enc(MakeFunction(0)) + Enc(DefGlobal(0)), Pools([CSymbol("f")], [Compiled().fns[0]], 0)));
  }

  lemma {:induction false} CallCompiles(at: nat, p: Pools)
    requires |p.consts| == 1
    ensures CompExpr(Program().tail.head, Ctx([], None), at, p, 0, false)
      == Ok(Compile.Emitted(Enc(GetGlobal(1)) + [] + Enc(Call(0)) + Enc(DefGlobal(2)),
                            p.(consts := p.consts + [CSymbol("f")] + [CSymbol("r")])))
  {
    hide Enc;
    var top := Ctx([], None);
    assert Resolve(top, "f") == Ok(Place.Global);
    var q := AddConst(p, CSymbol("f"));
    assert CompExpr(Var("f"), top, at, p, 2, false) == Ok(Compile.Emitted(Enc(GetGlobal(1)), q));
    assert CompArgs(NoExprs, top, at + 5, q, 2) == Ok(Compile.Emitted([], q));
    var call := App(Var("f"), NoExprs);
    assert CompApp(Var("f"), NoExprs, top, at, p, 1, false)
        == Ok(Compile.Emitted(Enc(GetGlobal(1)) + [] + Enc(Call(0)), q));
    assert CompExpr(call, top, at, p, 1, false) == CompApp(Var("f"), NoExprs, top, at, p, 1, false);
    assert CompDefine("r", call, top, at, p, 0)
        == Ok(Compile.Emitted(Enc(GetGlobal(1)) + [] + Enc(Call(0)) + Enc(DefGlobal(2)), AddConst(q, CSymbol("r"))));
  }

  lemma {:induction false} EntryBytes(a: seq<byte>, b: seq<byte>)
    requires a == Enc(MakeFunction(0)) + Enc(DefGlobal(0))
    requires b == Enc(GetGlobal(1)) + [] + Enc(Call(0)) + Enc(DefGlobal(2))
    ensures a + Enc(Instr.Pop) + (b + Enc(Instr.Pop) + []) + Enc(Halt) == EncAll(EntryCode())
  {
    hide Enc, EncAll;
    EncAllThree(MakeFunction(0), DefGlobal(0), Instr.Pop);
    EncAllThree(GetGlobal(1), Call(0), DefGlobal(2));
    EncAllOne(Instr.Pop);
    EncAllOne(Halt);
    EncAllAppend([Instr.Pop], [Halt]);
    var x, y := [MakeFunction(0), DefGlobal(0), Instr.Pop], [GetGlobal(1), Call(0), DefGlobal(2)];
    var z := [Instr.Pop] + [Halt];
    EncAllAppend(x, y);
    EncAllAppend(x + y, z);
    assert x + y + z == EntryCode();
    assert b + Enc(Instr.Pop) + [] == EncAll(y) + Enc(Instr.Pop);
  }

  lemma {:induction false} Compiles()
    ensures CompProgram(Program()) == Ok(Compiled())
  {
    hide CompForms, CompExpr, Enc, EncAll;
    var top, start := Ctx([], None), Pools([], [], 0);
    DefineCompiles();
    var a := CompExpr(Program().head, top, 0, start, 0, false).value;
    assert |a.code| == 10;
    CallCompiles(11, a.p);
    var b := CompExpr(Program().tail.head, top, 11, a.p, 0, false).value;
    NoForms(11 + |b.code| + 1, b.p);
    var none := Compile.Emitted([], b.p);
    OneForm(Program().tail.head, NoExprs, 11, a.p, b, none);
    var rest := Compile.Emitted(b.code + Enc(Instr.Pop) + [], b.p);
    OneForm(Program().head, Program().tail, 0, start, a, rest);
    EntryBytes(a.code, b.code);
    assert b.p.consts == [CSymbol("f"), CSymbol("f"), CSymbol("r")];
    var entry := Chunk(EncAll(EntryCode()), b.p.consts, 0, false, None);
    assert b.p.fns + [entry] == Compiled().fns;
  }

  // ----- what the machine makes of it -----

  lemma {:induction false} BodyOffsets()
    ensures var l := BodyCode();
      Offset(l, 0) == 0 && Offset(l, 1) == 5 && Offset(l, 2) == 6 && Offset(l, 3) == 11 && Offset(l, 6) == 26
      && Offset(l, 7) == 31 && Offset(l, 8) == 32 && Offset(l, 9) == 34 && Offset(l, 13) == 54 && Offset(l, 14) == 59
  {
    hide Offset;
    var l := BodyCode();
    OffsetZero(l);
    OffsetNext(l, 0);
    OffsetNext(l, 1);
    OffsetNext(l, 2);
    OffsetNext(l, 3);
    OffsetNext(l, 4);
    OffsetNext(l, 5);
    OffsetNext(l, 6);
    OffsetNext(l, 7);
    OffsetNext(l, 8);
    OffsetNext(l, 9);
    OffsetNext(l, 10);
    OffsetNext(l, 11);
    OffsetNext(l, 12);
    OffsetNext(l, 13);
  }

  /** The activation of `f` further on: `k` more cells are in its frame and in the memory. */
  function In(c: Config, ip: nat, steps: nat, stack: seq<Value>, locals: seq<nat>, cells: seq<Value>): Config
    requires c.Running?
  {
    c.(top := c.top.(ip := ip, steps := steps, stack := stack, locals := locals), m := c.m.(cells := cells))
  }

  ghost predicate InBody(g: Machine, c: Config) {
    g.fns == Compiled().fns && c.Running? && c.top.fn == 0
  }

  /** At `ip` stand the instructions that bind the number `v`. */
  predicate Binding(list: seq<Instr>, consts: seq<Data.Const>, k: nat, j: u32, v: int, ip: nat) {
    k + 1 < |list| && Offset(list, k) == ip && Offset(list, k + 1) == ip + 5
    && list[k] == Const(j) && list[k + 1] == PushLocal && j < |consts| && consts[j] == CInt(v)
  }

  ghost predicate Holds(g: Machine, c: Config, list: seq<Instr>, consts: seq<Data.Const>) {
    c.Running? && c.top.fn < |g.fns| && g.fns[c.top.fn].code == EncAll(list) && g.fns[c.top.fn].consts == consts
  }

  /** A number becomes the next variable of the frame. */
  lemma {:induction false} Binds(g: Machine, c: Config, list: seq<Instr>, consts: seq<Data.Const>, k: nat, j: u32,
        v: int, ip: nat, n: nat, left: nat, locals: seq<nat>, cells: seq<Value>)
    requires Holds(g, c, list, consts) && Binding(list, consts, k, j, v, ip) && n >= 2 && left >= 2
    ensures c.Running?
    ensures Run(g, left, In(c, ip, n, [], locals, cells))
      == Run(g, left - 2, In(c, ip + 6, n - 2, [], locals + [|cells|], cells + [Int(v)]))
  {
    hide EncAll, Offset, Run;
    assert [] + [Int(v)] == [Int(v)] && [Int(v)][..0] == [];
    ListRun(g, list, k, In(c, ip, n, [], locals, cells), left);
    assert Run(g, left, In(c, ip, n, [], locals, cells))
        == Run(g, left - 1, In(c, ip + 5, n - 1, [Int(v)], locals, cells));
    ListRun(g, list, k + 1, In(c, ip + 5, n - 1, [Int(v)], locals, cells), left - 1);
  }

  lemma {:induction false} Falls(g: Machine, c: Config, n: nat, left: nat, locals: seq<nat>, cells: seq<Value>)
    requires InBody(g, c) && n >= 2 && left >= 2
    ensures Run(g, left, In(c, 6, n, [], locals, cells)) == Run(g, left - 2, In(c, 26, n - 2, [], locals, cells))
  {
    hide EncAll, Offset, Run;
    BodyOffsets();
    var f := Bool(false);
    assert [] + [f] == [f] && [f][..0] == [];
    ListRun(g, BodyCode(), 2, In(c, 6, n, [], locals, cells), left);
    assert Run(g, left, In(c, 6, n, [], locals, cells)) == Run(g, left - 1, In(c, 11, n - 1, [f], locals, cells));
    ListRun(g, BodyCode(), 3, In(c, 11, n - 1, [f], locals, cells), left - 1);
  }

  lemma {:induction false} Reads(g: Machine, c: Config, n: nat, left: nat, locals: seq<nat>, cells: seq<Value>)
    requires InBody(g, c) && n >= 2 && left >= 2 && locals != [] && locals[0] < |cells|
    ensures Run(g, left, In(c, 32, n, [], locals, cells))
      == Run(g, left - 2, In(c, 54, n - 2, [cells[locals[0]]], locals, cells))
  {
    hide EncAll, Offset, Run;
    BodyOffsets();
    var v := cells[locals[0]];
    assert [] + [v] == [v];
    ListRun(g, BodyCode(), 8, In(c, 32, n, [], locals, cells), left);
    assert Run(g, left, In(c, 32, n, [], locals, cells)) == Run(g, left - 1, In(c, 34, n - 1, [v], locals, cells));
    ListRun(g, BodyCode(), 9, In(c, 34, n - 1, [v], locals, cells), left - 1);
  }

  /** The test fails; what it bound stays in the frame. */
  lemma {:induction false} TestFails(g: Machine, c: Config, n: nat, left: nat, cells: seq<Value>)
    requires InBody(g, c) && n >= 4 && left >= 4
    ensures Run(g, left, In(c, 0, n, [], [], cells))
      == Run(g, left - 4, In(c, 26, n - 4, [], [|cells|], cells + [Int(1)]))
  {
    hide EncAll, Offset, Run, Do;
    BodyOffsets();
    assert [] + [|cells|] == [|cells|];
    Binds(g, c, BodyCode(), BodyConsts(), 0, 0, 1, 0, n, left, [], cells);
    Falls(g, c, n - 2, left - 2, [|cells|], cells + [Int(1)]);
  }

  /** The last clause binds 2 in the next slot, and reads the slot of the failed test. */
  lemma {:induction false} ClauseMisreads(g: Machine, c: Config, n: nat, left: nat, cell: nat, cells: seq<Value>)
    requires InBody(g, c) && n >= 4 && left >= 4 && cell < |cells|
    ensures Run(g, left, In(c, 26, n, [], [cell], cells))
      == Run(g, left - 4, In(c, 54, n - 4, [cells[cell]], [cell, |cells|], cells + [Int(2)]))
  {
    hide EncAll, Offset, Run, Do;
    BodyOffsets();
    assert [cell] + [|cells|] == [cell, |cells|];
    Binds(g, c, BodyCode(), BodyConsts(), 6, 3, 2, 26, n, left, [cell], cells);
    Reads(g, c, n - 2, left - 2, [cell, |cells|], cells + [Int(2)]);
  }

  lemma {:induction false} BodyReturns(g: Machine, c: Config, n: nat, left: nat, v: Value, locals: seq<nat>,
        cells: seq<Value>)
    requires InBody(g, c) && n >= 2 && left >= 2
    ensures Run(g, left, In(c, 54, n, [v], locals, cells))
      == Run(g, left - 2, ReturnTo(c.callers, c.depth, v, c.m.(cells := cells)))
  {
    hide EncAll, Offset, Run;
    BodyOffsets();
    ListRun(g, BodyCode(), 13, In(c, 54, n, [v], locals, cells), left);
    assert Run(g, left, In(c, 54, n, [v], locals, cells)) == Run(g, left - 1, In(c, 59, n - 1, [v], locals, cells));
    ListRun(g, BodyCode(), 14, In(c, 59, n - 1, [v], locals, cells), left - 1);
  }

  /** Calling `f` where there are no cells yet gives 1. */
  lemma {:induction false} BodyGivesOne(g: Machine, c: Config, left: nat)
    requires InBody(g, c) && c.top.ip == 0 && c.top.steps >= 10 && c.top.stack == [] && c.top.locals == []
    requires c.m.cells == [] && left >= 10
    ensures Run(g, left, c)
      == Run(g, left - 10, ReturnTo(c.callers, c.depth, Int(1), c.m.(cells := [Int(1), Int(2)])))
  {
    hide EncAll, Offset, Run;
    var n := c.top.steps;
    assert c == In(c, 0, n, [], [], []);
    assert [] + [Int(1)] == [Int(1)] && [Int(1)] + [Int(2)] == [Int(1), Int(2)];
    TestFails(g, c, n, left, []);
    ClauseMisreads(g, c, n - 4, left - 4, 0, [Int(1)]);
    BodyReturns(g, c, n - 8, left - 8, Int(1), [0, 1], [Int(1), Int(2)]);
  }

  lemma {:induction false} EntryOffsets()
    ensures var l := EntryCode();
      Offset(l, 0) == 0 && Offset(l, 1) == 5 && Offset(l, 2) == 10 && Offset(l, 3) == 11 && Offset(l, 4) == 16
      && Offset(l, 5) == 18 && Offset(l, 6) == 23 && Offset(l, 7) == 24
  {
    hide Offset;
    var l := EntryCode();
    OffsetZero(l);
    OffsetNext(l, 0);
    OffsetNext(l, 1);
    OffsetNext(l, 2);
    OffsetNext(l, 3);
    OffsetNext(l, 4);
    OffsetNext(l, 5);
    OffsetNext(l, 6);
  }

  /** The entry chunk, part way through. */
  function Entry(ip: nat, steps: nat, stack: seq<Value>, m: Memory): Config {
    Running(Frame(1, ip, steps, stack, [], None), [], 0, m)
  }

  /** A value that DEF_GLOBAL takes, and the POP behind it. */
  lemma {:induction false} Defines(g: Machine, list: seq<Instr>, consts: seq<Data.Const>, k: nat, j: u32, x: string,
        ip: nat, n: nat, left: nat, v: Value, m: Memory)
    requires Holds(g, Entry(ip, n, [v], m), list, consts) && n >= 2 && left >= 2
    requires k + 1 < |list| && Offset(list, k) == ip && Offset(list, k + 1) == ip + 5
    requires list[k] == DefGlobal(j) && list[k + 1] == Instr.Pop && j < |consts| && consts[j] == CSymbol(x)
    ensures Run(g, left, Entry(ip, n, [v], m))
      == Run(g, left - 2, Entry(ip + 6, n - 2, [], m.(globals := m.globals[x := v])))
  {
    hide EncAll, Offset, Run;
    assert [v][..0] == [] && [] + [Unspecified] == [Unspecified] && [Unspecified][..0] == [];
    ListRun(g, list, k, Entry(ip, n, [v], m), left);
    var m' := m.(globals := m.globals[x := v]);
    assert Run(g, left, Entry(ip, n, [v], m)) == Run(g, left - 1, Entry(ip + 5, n - 1, [Unspecified], m'));
    ListRun(g, list, k + 1, Entry(ip + 5, n - 1, [Unspecified], m'), left - 1);
  }

  function Made(): VClosure {
    VClosure(0, Scope([], None))
  }

  /** `(define f ...)`. */
  lemma {:induction false} FunctionDefined(g: Machine, n: nat, left: nat, m: Memory)
    requires g.fns == Compiled().fns && n >= 3 && left >= 3 && m.closures == []
    ensures Run(g, left, Entry(0, n, [], m))
      == Run(g, left - 3, Entry(11, n - 3, [], m.(closures := [Made()], globals := m.globals["f" := Closure(0)])))
  {
    hide EncAll, Offset, Run;
    EntryOffsets();
    var v := Closure(0);
    assert [] + [v] == [v] && [] + [Made()] == [Made()];
    ListRun(g, EntryCode(), 0, Entry(0, n, [], m), left);
    var m' := m.(closures := [Made()]);
    assert Run(g, left, Entry(0, n, [], m)) == Run(g, left - 1, Entry(5, n - 1, [v], m'));
    Defines(g, EntryCode(), [CSymbol("f"), CSymbol("f"), CSymbol("r")], 1, 0, "f", 5, n - 1, left - 1, v, m');
  }

  /** The activation that `(f)` starts. */
  function Called(n: nat, m: Memory): Config {
    Running(NewFrame(0, EncAll(BodyCode()), [], Some(Made().scope)), [Frame(1, 18, n, [], [], None)], 1, m)
  }

  lemma {:induction false} CallEnters(g: Machine, f: Frame, m: Memory)
    requires g.fns == Compiled().fns && m.closures == [Made()]
    ensures CallValue(g, Closure(0), [], f, [], 0, m, false)
      == Running(NewFrame(0, EncAll(BodyCode()), [], Some(Made().scope)), [f], 1, m)
  {
    hide EncAll;
    var r := CallValue(g, Closure(0), [], f, [], 0, m, false);
    assert m.cells + [] == m.cells && [f] + [] == [f];
    assert r.Running? && r.top.locals == [];
  }

  lemma {:induction false} FunctionCalled(g: Machine, n: nat, left: nat, m: Memory)
    requires g.fns == Compiled().fns && n >= 2 && left >= 2 && m.closures == [Made()]
    requires "f" in m.globals && m.globals["f"] == Closure(0)
    ensures Run(g, left, Entry(11, n, [], m)) == Run(g, left - 2, Called(n - 2, m))
  {
    hide EncAll, Offset, Run;
    EntryOffsets();
    var v := Closure(0);
    assert [] + [v] == [v] && [v][1..] == [] && [v][..0] == [];
    ListRun(g, EntryCode(), 3, Entry(11, n, [], m), left);
    assert Run(g, left, Entry(11, n, [], m)) == Run(g, left - 1, Entry(16, n - 1, [v], m));
    CallEnters(g, Frame(1, 18, n - 2, [], [], None), m);
    ListRun(g, EntryCode(), 4, Entry(16, n - 1, [v], m), left - 1);
  }

  /** `(define r ...)` of what the call gave, and the end. */
  lemma {:induction false} ResultDefined(g: Machine, n: nat, left: nat, v: Value, m: Memory)
    requires g.fns == Compiled().fns && n >= 3 && left >= 3
    ensures Run(g, left, Entry(18, n, [v], m)) == Finished(Unspecified, m.(globals := m.globals["r" := v]))
  {
    hide EncAll, Offset, Run;
    EntryOffsets();
    Defines(g, EntryCode(), [CSymbol("f"), CSymbol("f"), CSymbol("r")], 5, 2, "r", 18, n, left, v, m);
    var m' := m.(globals := m.globals["r" := v]);
    ListRun(g, EntryCode(), 7, Entry(24, n - 2, [], m'), left - 2);
    EndIsFinal(g, left - 3, Finished(Unspecified, m'));
  }

  lemma {:induction false} Runs(prims: Natives, i: Initial)
    ensures var c := Run(Machine(prims, Compiled().fns), 18, StartConfig(Compiled(), i));
      c.Finished? && c.m.globals == i.globals["f" := Closure(0)]["r" := Int(1)] && c.m.world == i.world
  {
    hide EncAll, Run;
    var g := Machine(prims, Compiled().fns);
    var n := |EncAll(EntryCode())| + 1;
    EncAllLength(EntryCode());
    EncAllLength(BodyCode());
    var m := Memory([], [], i.globals, i.world);
    FunctionDefined(g, n, 18, m);
    var m1 := m.(closures := [Made()], globals := m.globals["f" := Closure(0)]);
    FunctionCalled(g, n - 3, 15, m1);
    BodyGivesOne(g, Called(n - 5, m1), 13);
    var m2, f := m1.(cells := [Int(1), Int(2)]), Frame(1, 18, n - 5, [], [], None);
    assert [] + [Int(1)] == [Int(1)] && [f][1..] == [];
    assert Run(g, 18, Entry(0, n, [], m)) == Run(g, 3, Entry(18, n - 5, [Int(1)], m2));
    ResultDefined(g, n - 5, 3, Int(1), m2);
  }

  // ----- what it means -----

  lemma {:induction false} LetMeans(prims: Natives, fuel: nat, x: string, n: int, e: Expr, s: State, depth: nat,
        tail: bool)
    ensures Eval(prims, fuel, LetIn(x, n, e), [], s, depth, tail)
      == Eval(prims, fuel, e, [(x, |s.store|)], s.(store := s.store + [Int(n)]), depth, tail)
  {
    var bs := Bind(x, Lit(CInt(n)), NoBindings);
    var env := [] + [(x, |s.store|)];
    assert env == [(x, |s.store|)];
    var t := s.(store := s.store + [Int(n)]);
    assert Eval(prims, fuel, bs.init, [], s, depth, false) == Done(Answer(Int(n), s));
    assert EvalBindings(prims, fuel, NoBindings, [], env, t, depth, false) == Done((env, t));
    assert EvalBindings(prims, fuel, bs, [], [], s, depth, false) == Done((env, t));
    assert EvalSeq(prims, fuel, More(e, NoExprs), env, t, depth, tail) == Eval(prims, fuel, e, env, t, depth, tail);
  }

  /** The body binds `x`, fails, binds `y` and gives its value. */
  lemma {:induction false} BodyMeans(prims: Natives, fuel: nat, s: State)
    requires s.store == []
    ensures EvalSeq(prims, fuel, Body(), [], s, 1, true) == Done(Answer(Int(2), s.(store := [Int(1), Int(2)])))
  {
    var t := s.(store := [] + [Int(1)]);
    LetMeans(prims, fuel, "x", 1, Lit(CBool(false)), s, 1, false);
    assert Eval(prims, fuel, Clauses().test, [], s, 1, false) == Done(Answer(Bool(false), t));
    LetMeans(prims, fuel, "y", 2, Var("y"), t, 1, true);
    var u := t.(store := t.store + [Int(2)]);
    assert u.store == [Int(1), Int(2)];
    assert Lookup([("y", 1)], "y") == Some(1);
    assert EvalVar("y", [("y", 1)], u) == Done(Answer(Int(2), u));
    assert EvalSeq(prims, fuel, More(LetOne("y", 2), NoExprs), [], t, 1, true) == Done(Answer(Int(2), u));
    assert EvalCond(prims, fuel, Clauses().rest, [], t, 1, true) == Done(Answer(Int(2), u));
    assert EvalCond(prims, fuel, Clauses(), [], s, 1, true) == Done(Answer(Int(2), u));
  }

  lemma {:induction false} CallMeans(prims: Natives, fuel: nat, s: State)
    requires fuel > 0 && s.store == [] && s.closures == [SClosure(Formals([], None), Body(), [])]
    requires "f" in s.globals && s.globals["f"] == Closure(0)
    ensures Eval(prims, fuel, App(Var("f"), NoExprs), [], s, 0, false)
      == Done(Answer(Int(2), s.(store := [Int(1), Int(2)])))
  {
    hide EvalSeq;
    var v := Closure(0);
    assert Eval(prims, fuel, Var("f"), [], s, 0, false) == Done(Answer(v, s));
    assert EvalArgs(prims, fuel, NoExprs, [], s, 0) == Done(([], s));
    var names := Formals([], None).Names();
    assert names == [] && Extend([], names, 0) == [];
    assert s.(store := s.store + [], world := s.world) == s;
    BodyMeans(prims, fuel - 1, s);
    assert Apply(prims, fuel, v, [], s, 0, false) == EvalSeq(prims, fuel - 1, Body(), [], s, 1, true);
  }

  lemma {:induction false} Means(prims: Natives, fuel: nat, i: Initial)
    requires fuel > 0
    ensures var o := EvalProgram(prims, fuel, Program(), StartState(i));
      o.Done? && o.value.globals == i.globals["f" := Closure(0)]["r" := Int(2)] && o.value.world == i.world
  {
    hide Apply, EvalSeq;
    var s := StartState(i);
    var t := s.(closures := [SClosure(Formals([], None), Body(), [])], globals := s.globals["f" := Closure(0)]);
    assert [] + [SClosure(Formals([], None), Body(), [])] == t.closures;
    assert Eval(prims, fuel, Program().head, [], s, 0, false) == Done(Answer(Unspecified, t));
    CallMeans(prims, fuel, t);
    var u := t.(store := [Int(1), Int(2)], globals := t.globals["r" := Int(2)]);
    assert Eval(prims, fuel, Program().tail.head, [], t, 0, false) == Done(Answer(Unspecified, u));
    assert EvalProgram(prims, fuel, NoExprs, u) == Done(u);
    assert EvalProgram(prims, fuel, Program().tail, t) == Done(u);
  }

  lemma {:induction false} BindingTest()
    ensures !SafeTests(Clauses(), true)
  {
    hide Safe, SafeSeq;
    assert !NoSlots(Clauses().test) && !NoSlots(LetOne("y", 2));
    assert !NoSlotsSeq(More(LetOne("y", 2), NoExprs));
    assert !NoSlotsTests(Clauses().rest);
  }

  lemma {:induction false} Unsafe()
    ensures !SafeForms(Program())
  {
    hide Safe, SafeTests, SafeBody, NoSlots;
    BindingTest();
    var body := Body();
    CondUnfolds(Clauses());
    LastUnfolds(Cond(Clauses()));
    DefineUnfolds("f", Lambda(Formals([], None), body));
    LambdaUnfolds(Formals([], None), body);
  }

  lemma {:induction false} CondUnfolds(ts: Tests)
    ensures Safe(Cond(ts), true) == SafeTests(ts, true)
  {
    hide SafeTests, SafeSeq, SafeBody, NoSlots;
  }

  lemma {:induction false} LastUnfolds(e: Expr)
    ensures SafeBody(More(e, NoExprs), true) ==> Safe(e, true)
  {
    hide Safe;
    var es := More(e, NoExprs);
    assert SafeSeq(es, true) ==> Safe(es.head, true && es.tail.NoExprs?);
  }

  lemma {:induction false} LambdaUnfolds(formals: Formals, body: Exprs)
    ensures Safe(Lambda(formals, body), false) == SafeBody(body, true)
  {
    hide SafeTests, SafeSeq, SafeBody, NoSlots;
  }

  lemma {:induction false} DefineUnfolds(x: string, e: Expr)
    ensures Safe(Define(x, e), false) == Safe(e, false)
  {
    hide SafeTests, SafeSeq, SafeBody, NoSlots;
  }

  /** Without the condition on the tests of `cond`, a program may end quietly with another result. */
  lemma {:induction false} FailedTestMisreads(prims: Natives, fuel: nat, i: Initial)
    requires fuel > 0
    ensures CompProgram(Program()) == Ok(Compiled()) && !SafeForms(Program())
    ensures var o := EvalProgram(prims, fuel, Program(), StartState(i));
      o.Done? && o.value.globals == i.globals["f" := Closure(0)]["r" := Int(2)]
    ensures var c := Run(Machine(prims, Compiled().fns), 18, StartConfig(Compiled(), i));
      c.Finished? && c.m.globals == i.globals["f" := Closure(0)]["r" := Int(1)]
  {
    hide CompProgram, Run, EvalProgram, SafeForms, EncAll;
    Compiles();
    Unsafe();
    Runs(prims, i);
    Means(prims, fuel, i);
  }
}
