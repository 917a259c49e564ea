/**
 The compiler emits structured code: form by form, the bytes of an expression are a
 closed stretch that leaves one value more on the stack, and the functions it adds to
 the table are structured chunks.
 */
module StructuredCode {
  import opened Prelude
  import opened Data
  import opened Syntax
  import opened Instr
  import opened Compile
  import opened Relation
  import opened Points
  import opened Structure
  import opened Simulation

  ghost predicate InPools(u: Unit, q: Pools) {
    q.consts <= u.consts && q.fns <= u.fns
  }

  /** The emitted bytes sit at `at`, and the pools contain what was added. */
  ghost predicate Set(u: Unit, at: nat, r: Emitted) {
    Ready(u) && Fits(u.fns) && Occurs(u.code, at, r.code) && InPools(u, r.p)
  }

  ghost predicate Made(fns: seq<Chunk>, from: nat, to: nat) {
    to <= |fns| && forall j | from <= j < to :: Structured(fns, j)
  }

  /** What was emitted is a closed stretch, and what was added to the function table is structured. */
  ghost predicate Built(u: Unit, at: nat, h: nat, h': nat, p: Pools, r: Emitted) {
    Spans(u, at, at + |r.code|, h, h') && Made(u.fns, |p.fns|, |r.p.fns|)
  }

  lemma {:induction false} EmittedConst(p: Pools, c: Data.Const)
    ensures EmitConst(p, c).p == AddConst(p, c)
  {
  }

  lemma {:induction false} ConstBuilt(u: Unit, at: nat, p: Pools, c: Data.Const, h: nat)
    requires Set(u, at, EmitConst(p, c))
    ensures Built(u, at, h, h + 1, p, EmitConst(p, c))
  {
    hide Spans, Enc, Fits, Structured;
    var k := |p.consts|;
    assert AddConst(p, c).consts[k] == c;
    One(u, at, Instr.Const(k), h);
  }

  /** A name's constant, wherever it is read or written. */
  lemma {:induction false} NameAllowed(u: Unit, p: Pools, x: string)
    requires Ready(u) && InPools(u, AddConst(p, CSymbol(x)))
    ensures NextConst(p) == |p.consts| < |u.consts| && u.consts[|p.consts|] == CSymbol(x)
  {
    assert AddConst(p, CSymbol(x)).consts[|p.consts|] == CSymbol(x);
  }

  lemma {:induction false} VarBuilt(u: Unit, x: string, ctx: Ctx, at: nat, p: Pools, h: nat)
    requires CompVar(x, ctx, p).Ok? && Set(u, at, CompVar(x, ctx, p).value)
    ensures Built(u, at, h, h + 1, p, CompVar(x, ctx, p).value)
  {
    hide Spans, Enc, Fits, Structured, Resolve, Occurs;
    match Resolve(ctx, x).value
    case Local(slot) => One(u, at, GetLocal(slot), h);
    case Upvalue(d, slot) => One(u, at, GetUpvalue(d, slot), h);
    case Global =>
      NameAllowed(u, p, x);
      One(u, at, GetGlobal(|p.consts|), h);
  }

  lemma {:induction false} AssignBuilt(u: Unit, x: string, ctx: Ctx, at: nat, p: Pools, h: nat)
    requires CompAssign(x, ctx, p).Ok? && Set(u, at, CompAssign(x, ctx, p).value)
    ensures Built(u, at, h + 1, h + 1, p, CompAssign(x, ctx, p).value)
  {
    hide Spans, Enc, Fits, Structured, Resolve, Occurs;
    match Resolve(ctx, x).value
    case Local(slot) => One(u, at, SetLocal(slot), h + 1);
    case Upvalue(d, slot) => One(u, at, SetUpvalue(d, slot), h + 1);
    case Global =>
      NameAllowed(u, p, x);
      One(u, at, SetGlobal(|p.consts|), h + 1);
  }

  lemma {:induction false} PadBuilt(u: Unit, at: nat, p: Pools, target: u8, tail: bool, h: nat)
    requires Set(u, at, PadUnlessTail(p, target, tail)) && at <= |u.code|
    ensures Spans(u, at, at + |PadUnlessTail(p, target, tail).code|, h, h)
    decreases target - p.slot
  {
    hide Enc, Structured, Occurs, Piece, Fits;
    if tail || p.slot >= target {
      EmptySpan(u, at, h);
    } else {
      var c := EmitConst(p, CUnspecified);
      var q := c.p.(slot := p.slot + 1);
      var rest := Pad(q, target);
      OccursSplit3(u.code, at, c.code, Enc(PushLocal), rest.code);
      OccursFits(u.code, at + 6, rest.code);
      ConstBuilt(u, at, p, CUnspecified, h);
      One(u, at + 5, PushLocal, h + 1);
      PadBuilt(u, at + 6, q, target, tail, h);
      Then(u, at, at + 5, at + 6, h, h + 1, h);
      Then(u, at, at + 6, at + 6 + |rest.code|, h, h, h);
    }
  }

  /** A value, the instruction that takes it off, and what follows. */
  lemma {:induction false} TakenThen(u: Unit, at: nat, mid: nat, i: Instr, end: nat, h: nat, h': nat)
    requires Spans(u, at, mid, h, h + 1) && Occurs(u.code, mid, Enc(i)) && i in {Pop, PushLocal}
      && Spans(u, mid + 1, end, h, h')
    ensures Spans(u, at, end, h, h')
  {
    hide Spans, Occurs, Enc;
    One(u, mid, i, h + 1);
    Then(u, at, mid, mid + 1, h, h + 1, h);
    Then(u, at, mid + 1, end, h, h, h');
  }

  lemma {:induction false} SetBuilt(u: Unit, x: string, e: Expr, ctx: Ctx, at: nat, p: Pools, depth: nat, h: nat)
    requires CompSet(x, e, ctx, at, p, depth).Ok? && Set(u, at, CompSet(x, e, ctx, at, p, depth).value)
    ensures Built(u, at, h, h + 1, p, CompSet(x, e, ctx, at, p, depth).value)
    decreases e, 2
  {
    hide Spans, Fits, Structured, CompExpr, Occurs, Exits;
    var a := CompExpr(e, ctx, at, p, depth + 1, false).value;
    var w := CompAssign(x, ctx, a.p).value;
    OccursSplit(u.code, at, a.code, w.code);
    ExprBuilt(u, e, ctx, at, p, depth + 1, false, h);
    AssignBuilt(u, x, ctx, at + |a.code|, a.p, h);
    Then(u, at, at + |a.code|, at + |a.code| + |w.code|, h, h + 1, h + 1);
  }

  lemma {:induction false} IfBuilt(u: Unit, e: Expr, ctx: Ctx, at: nat, p: Pools, depth: nat, tail: bool, h: nat)
    requires e.If?
    requires var r := CompIf(e.test, e.thn, e.els, ctx, at, p, depth, tail);
      r.Ok? && Set(u, at, r.value) && (tail ==> Exits(u.code, at + |r.value.code|))
    ensures Built(u, at, h, h + 1, p, CompIf(e.test, e.thn, e.els, ctx, at, p, depth, tail).value)
    decreases e, 0
  {
    hide Spans, Piece, Fits, Structured, CompExpr, CompElse, Occurs, Exits, PadUnlessTail, JumpTo, BranchTo;
    var i := IfPieces(e.test, e.thn, e.els, ctx, at, p, depth, tail).value;
    IfSet(u, e, ctx, at, p, depth, tail, i);
    var testEnd, thenEnd, elseEnd := at + |i.test.code|, i.elseAt - 5, i.elseAt + |i.els.code|;
    var padEnd := elseEnd + |i.padElse.code|;
    if tail {
      ExitsBefore(u, thenEnd, i.padAt);
      ExitsBefore(u, padEnd, i.end);
    }
    ExprBuilt(u, e.test, ctx, at, p, depth + 1, false, h);
    ExprBuilt(u, e.thn, ctx, testEnd + 5, i.test.p, depth + 1, tail, h);
    ElseBuilt(u, e.els, ctx, i.elseAt, i.thn.p.(slot := i.test.p.slot), depth + 1, tail, h);
    PadBuilt(u, elseEnd, i.els.p, Max(i.thn.p.slot, i.els.p.slot), tail, h + 1);
    PadBuilt(u, i.padAt, i.padElse.p.(slot := i.thn.p.slot), Max(i.thn.p.slot, i.els.p.slot), tail, h + 1);
    IfJoined(u, at, testEnd, thenEnd, elseEnd, padEnd, i.end, h);
  }

  lemma {:induction false} IfJoined(u: Unit, at: nat, testEnd: nat, thenEnd: nat, elseEnd: nat, padEnd: nat, end: nat,
        h: nat)
    requires Ready(u) && Spans(u, at, testEnd, h, h + 1) && Occurs(u.code, testEnd, BranchTo(thenEnd + 5))
    requires Spans(u, testEnd + 5, thenEnd, h, h + 1) && Occurs(u.code, thenEnd, JumpTo(padEnd + 5))
    requires Spans(u, thenEnd + 5, elseEnd, h, h + 1) && Spans(u, elseEnd, padEnd, h + 1, h + 1)
    requires Occurs(u.code, padEnd, JumpTo(end)) && Spans(u, padEnd + 5, end, h + 1, h + 1) && end <= |u.code|
    ensures Spans(u, at, end, h, h + 1)
  {
    hide Piece, Occurs, JumpTo, BranchTo;
    Rises(u, testEnd + 5, thenEnd, h);
    Rises(u, thenEnd + 5, elseEnd, h);
    TestLeaves(u, at, testEnd, thenEnd + 5, padEnd + 5, h);
    Then(u, thenEnd + 5, elseEnd, padEnd, h, h + 1, h + 1);
    JumpLeaves(u, thenEnd + 5, padEnd, end, h, h + 1, h + 1);
    TwoWays(u, at, thenEnd + 5, padEnd + 5, end, h);
  }

  lemma {:induction false} TwoWays(u: Unit, at: nat, elseAt: nat, padAt: nat, end: nat, h: nat)
    requires Leaves(u, at, elseAt, h, h, padAt, h + 1) && Leaves(u, elseAt, padAt, h, h + 1, end, h + 1)
    requires Spans(u, padAt, end, h + 1, h + 1) && elseAt < padAt
    ensures Spans(u, at, end, h, h + 1)
  {
    hide Piece;
    var labels := map[at := h, elseAt := h, padAt := h + 1, end := h + 1];
    LeavesAmong(u, at, elseAt, h, h, padAt, h + 1, labels);
    LeavesAmong(u, elseAt, padAt, h, h + 1, end, h + 1, labels);
    Placed(u, padAt, end, labels);
    ClosedPath(u, [at, elseAt, padAt, end], labels);
  }

  lemma {:induction false} IfSet(u: Unit, e: Expr, ctx: Ctx, at: nat, p: Pools, depth: nat, tail: bool, i: IfCode)
    requires e.If? && IfPieces(e.test, e.thn, e.els, ctx, at, p, depth, tail) == Ok(i)
    requires Set(u, at, CompIf(e.test, e.thn, e.els, ctx, at, p, depth, tail).value)
    ensures Set(u, at, i.test) && Occurs(u.code, at + |i.test.code|, BranchTo(i.elseAt))
    ensures Set(u, at + |i.test.code| + 5, i.thn) && Occurs(u.code, i.elseAt - 5, JumpTo(i.padAt))
    ensures Set(u, i.elseAt, i.els) && Set(u, i.elseAt + |i.els.code|, i.padElse)
    ensures Occurs(u.code, i.padAt - 5, JumpTo(i.end)) && Set(u, i.padAt, i.padThen) && i.end <= |u.code|
  {
    hide Fits, CompExpr, CompElse, PadUnlessTail, JumpTo, BranchTo, Occurs;
    var head := i.test.code + BranchTo(i.elseAt) + i.thn.code;
    OccursFits(u.code, at, CompIf(e.test, e.thn, e.els, ctx, at, p, depth, tail).value.code);
    OccursSplit5(u.code, at, head + JumpTo(i.padAt), i.els.code, i.padElse.code, JumpTo(i.end), i.padThen.code);
    OccursSplit(u.code, at, head, JumpTo(i.padAt));
    OccursSplit3(u.code, at, i.test.code, BranchTo(i.elseAt), i.thn.code);
  }

  lemma {:induction false} ElseBuilt(u: Unit, els: Option<Expr>, ctx: Ctx, at: nat, p: Pools, depth: nat, tail: bool,
        h: nat)
    requires var r := CompElse(els, ctx, at, p, depth, tail);
      r.Ok? && Set(u, at, r.value) && (tail ==> Exits(u.code, at + |r.value.code|))
    ensures Built(u, at, h, h + 1, p, CompElse(els, ctx, at, p, depth, tail).value)
    decreases els, 2
  {
    hide Spans, Fits, Structured, Occurs, Exits;
    if els.Some? {
      ExprBuilt(u, els.value, ctx, at, p, depth, tail, h);
    } else {
      ConstBuilt(u, at, p, CUnspecified, h);
    }
  }

  lemma {:induction false} SeqBuilt(u: Unit, es: Exprs, ctx: Ctx, at: nat, p: Pools, depth: nat, tail: bool, h: nat)
    requires var r := CompSeq(es, ctx, at, p, depth, tail);
      r.Ok? && Set(u, at, r.value) && (tail ==> Exits(u.code, at + |r.value.code|))
    ensures Built(u, at, h, h + 1, p, CompSeq(es, ctx, at, p, depth, tail).value)
    decreases es, 0
  {
    hide Spans, Fits, Structured, Occurs, Exits, CompExpr, Enc;
    if es.NoExprs? {
      ConstBuilt(u, at, p, CUnspecified, h);
    } else if es.tail.NoExprs? {
      ExprBuilt(u, es.head, ctx, at, p, depth, tail, h);
    } else {
      var a := CompExpr(es.head, ctx, at, p, depth, false).value;
      var next := at + |a.code| + 1;
      var b := CompSeq(es.tail, ctx, next, a.p, depth, tail).value;
      OccursSplit3(u.code, at, a.code, Enc(Pop), b.code);
      ExprBuilt(u, es.head, ctx, at, p, depth, false, h);
      SeqBuilt(u, es.tail, ctx, next, a.p, depth, tail, h);
      TakenThen(u, at, at + |a.code|, Pop, next + |b.code|, h, h + 1);
    }
  }

  lemma {:induction false} ArgsBuilt(u: Unit, es: Exprs, ctx: Ctx, at: nat, p: Pools, depth: nat, h: nat)
    requires CompArgs(es, ctx, at, p, depth).Ok? && Set(u, at, CompArgs(es, ctx, at, p, depth).value)
    ensures Built(u, at, h, h + Count(es), p, CompArgs(es, ctx, at, p, depth).value)
    decreases es, 0
  {
    hide Spans, Fits, Structured, Occurs, CompExpr;
    if es.NoExprs? {
      EmptySpan(u, at, h);
    } else {
      var a := CompExpr(es.head, ctx, at, p, depth, false).value;
      var next := at + |a.code|;
      var b := CompArgs(es.tail, ctx, next, a.p, depth).value;
      OccursSplit(u.code, at, a.code, b.code);
      ExprBuilt(u, es.head, ctx, at, p, depth, false, h);
      ArgsBuilt(u, es.tail, ctx, next, a.p, depth, h + 1);
      Then(u, at, next, next + |b.code|, h, h + 1, h + 1 + Count(es.tail));
    }
  }

  lemma {:induction false} AppBuilt(u: Unit, e: Expr, ctx: Ctx, at: nat, p: Pools, depth: nat, tail: bool, h: nat)
    requires e.App?
    requires var r := CompApp(e.f, e.args, ctx, at, p, depth, tail);
      r.Ok? && Set(u, at, r.value) && (tail ==> Exits(u.code, at + |r.value.code|))
    ensures Built(u, at, h, h + 1, p, CompApp(e.f, e.args, ctx, at, p, depth, tail).value)
    decreases e, 0
  {
    hide Spans, Fits, Structured, Occurs, Exits, CompExpr, CompArgs, Enc;
    var c := CompExpr(e.f, ctx, at, p, depth + 1, false).value;
    var n := Count(e.args);
    var argsAt := at + |c.code|;
    var a := CompArgs(e.args, ctx, argsAt, c.p, depth + 1).value;
    var call := if tail then TailCall(n) else Call(n);
    OccursSplit3(u.code, at, c.code, a.code, Enc(call));
    ExprBuilt(u, e.f, ctx, at, p, depth + 1, false, h);
    ArgsBuilt(u, e.args, ctx, argsAt, c.p, depth + 1, h + 1);
    var callAt := argsAt + |a.code|;
    One(u, callAt, call, h + 1 + n);
    Then(u, at, argsAt, callAt, h, h + 1, h + 1 + n);
    Then(u, at, callAt, callAt + 2, h, h + 1 + n, h + 1);
  }

  lemma {:induction false} WhenBuilt(u: Unit, e: Expr, ctx: Ctx, at: nat, p: Pools, depth: nat, tail: bool, h: nat)
    requires e.When?
    requires var r := CompWhen(e.test, e.body, ctx, at, p, depth, tail);
      r.Ok? && Set(u, at, r.value) && (tail ==> Exits(u.code, at + |r.value.code|))
    ensures Built(u, at, h, h + 1, p, CompWhen(e.test, e.body, ctx, at, p, depth, tail).value)
    decreases e, 0
  {
    hide Spans, Piece, Fits, Structured, Occurs, Exits, CompExpr, CompSeq, JumpTo, BranchTo, EmitConst;
    var t := CompExpr(e.test, ctx, at, p, depth + 1, false).value;
    var testEnd := at + |t.code|;
    var b := CompSeq(e.body, ctx, testEnd + 5, t.p, depth + 1, tail).value;
    var bodyEnd := testEnd + 5 + |b.code|;
    var elseAt := bodyEnd + 5;
    var c := EmitConst(b.p, CUnspecified);
    EmittedConst(b.p, CUnspecified);
    OccursFits(u.code, at, t.code + BranchTo(elseAt) + b.code + JumpTo(elseAt + 5) + c.code);
    OccursSplit5(u.code, at, t.code, BranchTo(elseAt), b.code, JumpTo(elseAt + 5), c.code);
    if tail {
      ExitsBefore(u, bodyEnd, elseAt + 5);
    }
    ExprBuilt(u, e.test, ctx, at, p, depth + 1, false, h);
    SeqBuilt(u, e.body, ctx, testEnd + 5, t.p, depth + 1, tail, h);
    ConstBuilt(u, elseAt, b.p, CUnspecified, h);
    EmptySpan(u, elseAt + 5, h + 1);
    IfJoined2(u, at, testEnd, bodyEnd, elseAt + 5, h);
  }

  /** Two ways to the same end: over the branch when the test holds, past the jump when it does not. */
  lemma {:induction false} IfJoined2(u: Unit, at: nat, testEnd: nat, thenEnd: nat, end: nat, h: nat)
    requires Ready(u) && Spans(u, at, testEnd, h, h + 1) && Occurs(u.code, testEnd, BranchTo(thenEnd + 5))
    requires Spans(u, testEnd + 5, thenEnd, h, h + 1) && Occurs(u.code, thenEnd, JumpTo(end))
    requires Spans(u, thenEnd + 5, end, h, h + 1) && end <= |u.code|
    ensures Spans(u, at, end, h, h + 1)
  {
    hide Piece, Occurs, JumpTo, BranchTo;
    var labels := map[at := h, testEnd := h + 1, testEnd + 5 := h, thenEnd := h + 1, thenEnd + 5 := h, end := h + 1];
    Placed(u, at, testEnd, labels);
    BranchPiece(u, testEnd, thenEnd + 5, labels);
    Placed(u, testEnd + 5, thenEnd, labels);
    JumpPiece(u, thenEnd, end, labels);
    Placed(u, thenEnd + 5, end, labels);
    ClosedPath(u, [at, testEnd, testEnd + 5, thenEnd, thenEnd + 5, end], labels);
  }

  lemma {:induction false} UnlessBuilt(u: Unit, e: Expr, ctx: Ctx, at: nat, p: Pools, depth: nat, tail: bool, h: nat)
    requires e.Unless?
    requires var r := CompUnless(e.test, e.body, ctx, at, p, depth, tail);
      r.Ok? && Set(u, at, r.value) && (tail ==> Exits(u.code, at + |r.value.code|))
    ensures Built(u, at, h, h + 1, p, CompUnless(e.test, e.body, ctx, at, p, depth, tail).value)
    decreases e, 0
  {
    hide Spans, Piece, Fits, Structured, Occurs, Exits, CompExpr, CompSeq, JumpTo, BranchTo, EmitConst;
    var t := CompExpr(e.test, ctx, at, p, depth + 1, false).value;
    var testEnd := at + |t.code|;
    var c := EmitConst(t.p, CUnspecified);
    EmittedConst(t.p, CUnspecified);
    var bodyAt := testEnd + 15;
    var b := CompSeq(e.body, ctx, bodyAt, c.p, depth + 1, tail).value;
    var end := bodyAt + |b.code|;
    OccursFits(u.code, at, t.code + BranchTo(bodyAt) + c.code + JumpTo(end) + b.code);
    OccursSplit5(u.code, at, t.code, BranchTo(bodyAt), c.code, JumpTo(end), b.code);
    ExprBuilt(u, e.test, ctx, at, p, depth + 1, false, h);
    ConstBuilt(u, testEnd + 5, t.p, CUnspecified, h);
    SeqBuilt(u, e.body, ctx, bodyAt, c.p, depth + 1, tail, h);
    Rises(u, bodyAt, end, h);
    IfJoined2(u, at, testEnd, testEnd + 10, end, h);
  }

  lemma {:induction false} Rises(u: Unit, lo: nat, hi: nat, h: nat)
    requires Spans(u, lo, hi, h, h + 1)
    ensures lo < hi
  {
    hide Piece;
  }

  // ----- and / or -----

  lemma {:induction false} AndBuilt(u: Unit, es: Exprs, ctx: Ctx, at: nat, p: Pools, depth: nat, tail: bool, end: nat,
        h: nat)
    requires Ready(u) && Fits(u.fns) && es.More? && CompParts(es, ctx, at, p, depth, tail, AND_GAP).Ok?
    requires var (parts, q) := CompParts(es, ctx, at, p, depth, tail, AND_GAP).value;
      Occurs(u.code, at, GlueAnd(parts, end)) && InPools(u, q) && end == at + GluedLen(parts, AND_GAP) <= |u.code|
    requires tail ==> Exits(u.code, end)
    ensures var (parts, q) := CompParts(es, ctx, at, p, depth, tail, AND_GAP).value;
      Spans(u, at, end, h, h + 1) && Made(u.fns, |p.fns|, |q.fns|)
    decreases es, 0
  {
    hide Spans, Piece, Fits, Structured, Occurs, Exits, CompExpr, BranchTo;
    if es.tail.NoExprs? {
      ExprBuilt(u, es.head, ctx, at, p, depth, tail, h);
    } else {
      var a := CompExpr(es.head, ctx, at, p, depth, false).value;
      var testAt := at + |a.code|;
      var (rest, q) := CompParts(es.tail, ctx, testAt + AND_GAP, a.p, depth, tail, AND_GAP).value;
      assert ([a.code] + rest)[1..] == rest;
      OccursSplit3(u.code, at, a.code, Enc(Dup) + BranchTo(end) + Enc(Pop), GlueAnd(rest, end));
      OccursSplit3(u.code, testAt, Enc(Dup), BranchTo(end), Enc(Pop));
      ExprBuilt(u, es.head, ctx, at, p, depth, false, h);
      AndBuilt(u, es.tail, ctx, testAt + AND_GAP, a.p, depth, tail, end, h);
      AndJoined(u, at, testAt, end, h);
    }
  }

  lemma {:induction false} AndJoined(u: Unit, at: nat, testAt: nat, end: nat, h: nat)
    requires Ready(u) && end <= |u.code| && Spans(u, at, testAt, h, h + 1)
    requires Occurs(u.code, testAt, Enc(Dup)) && Occurs(u.code, testAt + 1, BranchTo(end))
    requires Occurs(u.code, testAt + 6, Enc(Pop)) && Spans(u, testAt + 7, end, h, h + 1)
    ensures Spans(u, at, end, h, h + 1)
  {
    hide Piece, Occurs, BranchTo, Enc;
    One(u, testAt, Dup, h + 1);
    Then(u, at, testAt, testAt + 1, h, h + 1, h + 2);
    var labels := map[at := h, testAt + 1 := h + 2, testAt + 6 := h + 1, testAt + 7 := h, end := h + 1];
    Placed(u, at, testAt + 1, labels);
    BranchPiece(u, testAt + 1, end, labels);
    InstrPiece(u, testAt + 6, Pop, labels);
    Placed(u, testAt + 7, end, labels);
    ClosedPath(u, [at, testAt + 1, testAt + 6, testAt + 7, end], labels);
  }

  lemma {:induction false} OrBuilt(u: Unit, es: Exprs, ctx: Ctx, at: nat, p: Pools, depth: nat, tail: bool, end: nat,
        h: nat)
    requires Ready(u) && Fits(u.fns) && es.More? && CompParts(es, ctx, at, p, depth, tail, OR_GAP).Ok?
    requires var (parts, q) := CompParts(es, ctx, at, p, depth, tail, OR_GAP).value;
      Occurs(u.code, at, GlueOr(parts, at, end)) && InPools(u, q) && end == at + GluedLen(parts, OR_GAP) <= |u.code|
    requires tail ==> Exits(u.code, end)
    ensures var (parts, q) := CompParts(es, ctx, at, p, depth, tail, OR_GAP).value;
      Spans(u, at, end, h, h + 1) && Made(u.fns, |p.fns|, |q.fns|)
    decreases es, 0
  {
    hide Spans, Piece, Fits, Structured, Occurs, Exits, CompExpr, BranchTo, JumpTo;
    if es.tail.NoExprs? {
      ExprBuilt(u, es.head, ctx, at, p, depth, tail, h);
    } else {
      var a := CompExpr(es.head, ctx, at, p, depth, false).value;
      var testAt := at + |a.code|;
      var popAt := testAt + 11;
      var (rest, q) := CompParts(es.tail, ctx, testAt + OR_GAP, a.p, depth, tail, OR_GAP).value;
      assert ([a.code] + rest)[1..] == rest;
      OccursSplit3(u.code, at, a.code, Enc(Dup) + BranchTo(popAt) + JumpTo(end)
        + Enc(Pop), GlueOr(rest, popAt + 1, end));
      OccursSplit(u.code, testAt, Enc(Dup) + BranchTo(popAt) + JumpTo(end), Enc(Pop));
      OccursSplit3(u.code, testAt, Enc(Dup), BranchTo(popAt), JumpTo(end));
      ExprBuilt(u, es.head, ctx, at, p, depth, false, h);
      OrBuilt(u, es.tail, ctx, testAt + OR_GAP, a.p, depth, tail, end, h);
      OrJoined(u, at, testAt, end, h);
    }
  }

  lemma {:induction false} OrJoined(u: Unit, at: nat, testAt: nat, end: nat, h: nat)
    requires Ready(u) && end <= |u.code| && Spans(u, at, testAt, h, h + 1)
    requires Occurs(u.code, testAt, Enc(Dup)) && Occurs(u.code, testAt + 1, BranchTo(testAt + 11))
    requires Occurs(u.code, testAt + 6, JumpTo(end)) && Occurs(u.code, testAt + 11, Enc(Pop))
    requires Spans(u, testAt + 12, end, h, h + 1)
    ensures Spans(u, at, end, h, h + 1)
  {
    hide Piece, Occurs, BranchTo, JumpTo, Enc;
    One(u, testAt, Dup, h + 1);
    Then(u, at, testAt, testAt + 1, h, h + 1, h + 2);
    var labels := map[at := h, testAt + 1 := h + 2, testAt + 6 := h + 1, testAt + 11 := h + 1, testAt + 12 := h,
                      end := h + 1];
    Placed(u, at, testAt + 1, labels);
    BranchPiece(u, testAt + 1, testAt + 11, labels);
    JumpPiece(u, testAt + 6, end, labels);
    InstrPiece(u, testAt + 11, Pop, labels);
    Placed(u, testAt + 12, end, labels);
    ClosedPath(u, [at, testAt + 1, testAt + 6, testAt + 11, testAt + 12, end], labels);
  }

  // ----- let, lambda, define -----

  lemma {:induction false} BindingsBuilt(u: Unit, bs: Bindings, ctx: Ctx, ext: Ctx, at: nat, p: Pools, depth: nat,
        star: bool, h: nat)
    requires CompBindings(bs, ctx, ext, at, p, depth, star).Ok?
    requires var r := CompBindings(bs, ctx, ext, at, p, depth, star).value; Set(u, at, Emitted(r.0, r.1))
    ensures var r := CompBindings(bs, ctx, ext, at, p, depth, star).value; Built(u, at, h, h, p, Emitted(r.0, r.1))
    decreases bs, 0
  {
    hide Spans, Fits, Structured, Occurs, CompExpr, Enc, Ready, Declare;
    if bs.NoBindings? {
      EmptySpan(u, at, h);
    } else {
      var a, inner, q := BindingSet(u, bs, ctx, ext, at, p, depth, star);
      hide CompBindings;
      var next := at + |a.code| + 1;
      var rest := CompBindings(bs.rest, ctx, inner, next, q, depth, star).value;
      ExprBuilt(u, bs.init, if star then ext else ctx, at, p, depth, false, h);
      BindingsBuilt(u, bs.rest, ctx, inner, next, q, depth, star, h);
      TakenThen(u, at, at + |a.code|, PushLocal, next + |rest.0|, h, h);
    }
  }

  lemma {:induction false} BindingSet(u: Unit, bs: Bindings, ctx: Ctx, ext: Ctx, at: nat, p: Pools, depth: nat,
        star: bool)
      returns (a: Emitted, inner: Ctx, q: Pools)
    requires bs.Bind? && CompBindings(bs, ctx, ext, at, p, depth, star).Ok?
    requires var r := CompBindings(bs, ctx, ext, at, p, depth, star).value; Set(u, at, Emitted(r.0, r.1))
    ensures CompExpr(bs.init, if star then ext else ctx, at, p, depth, false) == Ok(a) && Set(u, at, a)
    ensures Occurs(u.code, at + |a.code|, Enc(PushLocal)) && q.fns == a.p.fns && p.fns <= a.p.fns
    ensures var next := at + |a.code| + 1;
      var r, rest := CompBindings(bs, ctx, ext, at, p, depth, star).value,
        CompBindings(bs.rest, ctx, inner, next, q, depth, star);
      rest.Ok? && Set(u, next, Emitted(rest.value.0, rest.value.1))
      && |r.0| == |a.code| + 1 + |rest.value.0| && r.1 == rest.value.1 && q.fns <= r.1.fns
  {
    hide Fits, Occurs, CompExpr;
    a := CompExpr(bs.init, if star then ext else ctx, at, p, depth, false).value;
    var (locals, slot) := Declare(ext.locals, bs.x, a.p.slot).value;
    inner, q := ext.(locals := locals), a.p.(slot := slot);
    var rest := CompBindings(bs.rest, ctx, inner, at + |a.code| + 1, q, depth, star).value;
    OccursSplit3(u.code, at, a.code, Enc(PushLocal), rest.0);
  }

  lemma {:induction false} LetBuilt(u: Unit, e: Expr, bs: Bindings, body: Exprs, ctx: Ctx, at: nat, p: Pools,
        depth: nat, tail: bool,
                                    star: bool, h: nat)
    requires e == if star then LetStar(bs, body) else Let(bs, body)
    requires var r := CompLet(bs, body, ctx, at, p, depth, tail, star);
      r.Ok? && Set(u, at, r.value) && (tail ==> Exits(u.code, at + |r.value.code|))
    ensures Built(u, at, h, h + 1, p, CompLet(bs, body, ctx, at, p, depth, tail, star).value)
    decreases e, 0
  {
    hide Spans, Fits, Structured, Occurs, Exits, CompBindings, CompSeq;
    var (c, q, ext) := CompBindings(bs, ctx, ctx, at, p, depth + 1, star).value;
    var bodyAt := at + |c|;
    var b := CompSeq(body, ext, bodyAt, q, depth + 1, tail).value;
    OccursSplit(u.code, at, c, b.code);
    BindingsBuilt(u, bs, ctx, ctx, at, p, depth + 1, star, h);
    SeqBuilt(u, body, ext, bodyAt, q, depth + 1, tail, h);
    Then(u, at, bodyAt, bodyAt + |b.code|, h, h, h + 1);
  }

  /** A function's chunk, which ends in RETURN, and the functions inside it. */
  lemma {:induction false} FunctionBuilt(fns: seq<Chunk>, formals: Formals, body: Exprs, ctx: Ctx, before: seq<Chunk>,
        depth: nat,
                                         name: Option<string>)
    requires var r := CompFunction(formals, body, ctx, before, depth, name); r.Ok? && r.value.1 <= fns && Fits(fns)
    ensures var (fn, after) := CompFunction(formals, body, ctx, before, depth, name).value;
      fn == |after| - 1 < |fns| && Made(fns, |before|, |after|)
    decreases body, 1
  {
    hide Spans, Certified, Walks, Exits, CompSeq, DeclareAll, Enc;
    var (locals, slot) := DeclareAll([], formals.Names(), 0).value;
    var b := CompSeq(body, Ctx(locals, Some(ctx)), 0, Pools([], before, slot), depth + 1, true).value;
    var after := CompFunction(formals, body, ctx, before, depth, name).value.1;
    var n := |b.p.fns|;
    assert fns[n] == after[n];
    var u := UnitOf(fns, n);
    assert u.code[0..|u.code|] == b.code + Enc(Return);
    OccursSplit(u.code, 0, b.code, Enc(Return));
    ReturnExits(u.code, |b.code|);
    SeqBuilt(u, body, Ctx(locals, Some(ctx)), 0, Pools([], before, slot), depth + 1, true, 0);
    Complete(u, |b.code|, 1, Return);
  }

  lemma {:induction false} ReturnExits(code: seq<byte>, at: nat)
    requires Occurs(code, at, Enc(Return))
    ensures Exits(code, at)
  {
    hide Enc, Fetch;
    FetchEncoded(code, at, Return);
  }

  lemma {:induction false} LambdaBuilt(u: Unit, e: Expr, ctx: Ctx, at: nat, p: Pools, depth: nat, name: Option<string>,
        h: nat)
    requires e.Lambda? && Ready(u) && CompFunction(e.formals, e.body, ctx, p.fns, depth, name).Ok?
    requires var (fn, fns) := CompFunction(e.formals, e.body, ctx, p.fns, depth, name).value;
      Set(u, at, Emitted(Enc(MakeFunction(fn)), p.(fns := fns)))
    ensures var (fn, fns) := CompFunction(e.formals, e.body, ctx, p.fns, depth, name).value;
      Built(u, at, h, h + 1, p, Emitted(Enc(MakeFunction(fn)), p.(fns := fns)))
    decreases e, 0
  {
    hide Spans, Fits, Structured, Occurs, CompFunction, Enc;
    FunctionBuilt(u.fns, e.formals, e.body, ctx, p.fns, depth, name);
    One(u, at, MakeFunction(CompFunction(e.formals, e.body, ctx, p.fns, depth, name).value.0), h);
  }

  lemma {:induction false} DefineBuilt(u: Unit, x: string, e: Expr, ctx: Ctx, at: nat, p: Pools, depth: nat, h: nat)
    requires CompDefine(x, e, ctx, at, p, depth).Ok? && Set(u, at, CompDefine(x, e, ctx, at, p, depth).value)
    ensures Built(u, at, h, h + 1, p, CompDefine(x, e, ctx, at, p, depth).value)
    decreases e, 2
  {
    hide Spans, Fits, Structured, Occurs, CompExpr, CompFunction, Enc;
    var a: Emitted;
    if e.Lambda? {
      var (fn, fns) := CompFunction(e.formals, e.body, ctx, p.fns, depth, Some(x)).value;
      a := Emitted(Enc(MakeFunction(fn)), p.(fns := fns));
    } else {
      a := CompExpr(e, ctx, at, p, depth + 1, false).value;
    }
    var end := at + |a.code|;
    OccursSplit(u.code, at, a.code, Enc(DefGlobal(NextConst(a.p))));
    if e.Lambda? {
      LambdaBuilt(u, e, ctx, at, p, depth, Some(x), h);
    } else {
      ExprBuilt(u, e, ctx, at, p, depth + 1, false, h);
    }
    NameAllowed(u, a.p, x);
    One(u, end, DefGlobal(NextConst(a.p)), h + 1);
    Then(u, at, end, end + 5, h, h + 1, h + 1);
  }

  lemma {:induction false} ExprBuilt(u: Unit, e: Expr, ctx: Ctx, at: nat, p: Pools, depth: nat, tail: bool, h: nat)
    requires var r := CompExpr(e, ctx, at, p, depth, tail);
      r.Ok? && Set(u, at, r.value) && (tail ==> Exits(u.code, at + |r.value.code|))
    ensures Built(u, at, h, h + 1, p, CompExpr(e, ctx, at, p, depth, tail).value)
    decreases e, 1
  {
    hide Spans, Fits, Structured, Occurs, Exits;
    hide CompVar, CompSet, CompDefine, CompIf, CompSeq, CompAnd, CompOr, CompWhen, CompUnless, CompLet, CompCond,
      CompCase, CompFunction, CompApp;
    match e
    case Lit(c) => ConstBuilt(u, at, p, c, h);
    case Var(x) => VarBuilt(u, x, ctx, at, p, h);
    case SetVar(x, e1) => SetBuilt(u, x, e1, ctx, at, p, depth, h);
    case Define(x, e1) => DefineBuilt(u, x, e1, ctx, at, p, depth, h);
    case If(_, _, _) => IfBuilt(u, e, ctx, at, p, depth, tail, h);
    case Begin(es) => SeqBuilt(u, es, ctx, at, p, depth + 1, tail, h);
    case And(es) => ShortBuilt(u, e, ctx, at, p, depth, tail, h);
    case Or(es) => ShortBuilt(u, e, ctx, at, p, depth, tail, h);
    case When(_, _) => WhenBuilt(u, e, ctx, at, p, depth, tail, h);
    case Unless(_, _) => UnlessBuilt(u, e, ctx, at, p, depth, tail, h);
    case Let(bs, body) => LetBuilt(u, e, bs, body, ctx, at, p, depth, tail, false, h);
    case LetStar(bs, body) => LetBuilt(u, e, bs, body, ctx, at, p, depth, tail, true, h);
    case Cond(tests) => CondBuilt(u, tests, ctx, at, p, depth, tail, h);
    case Case(_, _) => CaseBuilt(u, e, ctx, at, p, depth, tail, h);
    case Lambda(_, _) => LambdaBuilt(u, e, ctx, at, p, depth, None, h);
    case App(_, _) => AppBuilt(u, e, ctx, at, p, depth, tail, h);
  }

  lemma {:induction false} ShortBuilt(u: Unit, e: Expr, ctx: Ctx, at: nat, p: Pools, depth: nat, tail: bool, h: nat)
    requires e.And? || e.Or?
    requires var r := if e.And? then CompAnd(e.es, ctx, at, p, depth, tail) else CompOr(e.es, ctx, at, p, depth, tail);
      r.Ok? && Set(u, at, r.value) && (tail ==> Exits(u.code, at + |r.value.code|))
    ensures var r := if e.And? then CompAnd(e.es, ctx, at, p, depth, tail) else CompOr(e.es, ctx, at, p, depth, tail);
      Built(u, at, h, h + 1, p, r.value)
    decreases e, 0
  {
    hide Spans, Fits, Structured, Exits, CompParts, GlueAnd, GlueOr;
    if e.es.NoExprs? {
      ConstBuilt(u, at, p, CBool(e.And?), h);
    } else {
      var gap := if e.And? then AND_GAP else OR_GAP;
      var (parts, q) := CompParts(e.es, ctx, at, p, depth + 1, tail, gap).value;
      var end := at + GluedLen(parts, gap);
      if e.And? {
        AndBuilt(u, e.es, ctx, at, p, depth + 1, tail, end, h);
      } else {
        OrBuilt(u, e.es, ctx, at, p, depth + 1, tail, end, h);
      }
    }
  }

  // ----- cond / case -----

  /** A stretch with one way out besides its end. */
  ghost predicate Leaves(u: Unit, lo: nat, hi: nat, h: nat, h': nat, out: nat, level: nat) {
    lo <= hi <= out && (lo == hi ==> h == h') && (hi == out ==> h' == level)
    && Piece(u, lo, hi, map[lo := h, hi := h', out := level])
  }

  lemma {:induction false} LeavesAmong(u: Unit, lo: nat, hi: nat, h: nat, h': nat, out: nat, level: nat,
        labels: map<nat, nat>)
    requires Leaves(u, lo, hi, h, h', out, level) && Plain(labels, lo, hi)
    requires lo in labels && labels[lo] == h && hi in labels && labels[hi] == h' && out in labels
      && labels[out] == level
    ensures Piece(u, lo, hi, labels)
  {
    hide Piece;
    Relabelled(u, lo, hi, map[lo := h, hi := h', out := level], labels);
  }

  lemma {:induction false} LeavingPath(u: Unit, cuts: seq<nat>, labels: map<nat, nat>, out: nat)
    requires cuts != [] && cuts[0] in labels && cuts[|cuts| - 1] in labels && out in labels && cuts[|cuts| - 1] <= out
    requires forall k | 0 <= k < |cuts| - 1 :: cuts[k] <= cuts[k + 1] && Piece(u, cuts[k], cuts[k + 1], labels)
    requires forall t | t in labels && t != out :: cuts[0] <= t <= cuts[|cuts| - 1]
    ensures Leaves(u, cuts[0], cuts[|cuts| - 1], labels[cuts[0]], labels[cuts[|cuts| - 1]], out, labels[out])
  {
    hide Piece;
    var lo: nat, hi: nat := cuts[0], cuts[|cuts| - 1];
    Path(u, cuts, labels);
    Relabelled(u, lo, hi, labels, map[lo := labels[lo], hi := labels[hi], out := labels[out]]);
  }

  /** Each stub is labelled with the height of a value, and nothing else is up to the end of the last one. */
  ghost predicate Stubbed(parts: seq<Part>, stubAt: nat, target: u8, tail: bool, labels: map<nat, nat>, h: nat) {
    parts != [] ==>
      var next := stubAt + StubLen(parts[0].needs, target, tail);
      stubAt in labels && labels[stubAt] == h && Plain(labels, stubAt, next)
      && Stubbed(parts[1..], next, target, tail, labels, h)
  }

  ghost function StubLabels(parts: seq<Part>, stubAt: nat, target: u8, tail: bool, h: nat): map<nat, nat> {
    if parts == [] then map[]
    else StubLabels(parts[1..], stubAt + StubLen(parts[0].needs, target, tail), target, tail, h)[stubAt := h]
  }

  lemma {:induction false} StubbedWith(parts: seq<Part>, stubAt: nat, target: u8, tail: bool, labels: map<nat, nat>,
        h: nat, t: nat, v: nat)
    requires Stubbed(parts, stubAt, target, tail, labels, h) && !(stubAt <= t < stubAt + StubsLen(parts, target, tail))
    ensures Stubbed(parts, stubAt, target, tail, labels[t := v], h)
    decreases parts
  {
    if parts != [] {
      StubbedWith(parts[1..], stubAt + StubLen(parts[0].needs, target, tail), target, tail, labels, h, t, v);
    }
  }

  lemma {:induction false} StubsLabelled(parts: seq<Part>, stubAt: nat, target: u8, tail: bool, h: nat)
    ensures var labels := StubLabels(parts, stubAt, target, tail, h);
      Stubbed(parts, stubAt, target, tail, labels, h)
      && forall t | t in labels :: stubAt <= t < stubAt + StubsLen(parts, target, tail)
    decreases parts
  {
    if parts != [] {
      var next := stubAt + StubLen(parts[0].needs, target, tail);
      StubsLabelled(parts[1..], next, target, tail, h);
      StubbedWith(parts[1..], next, target, tail, StubLabels(parts[1..], next, target, tail, h), h, stubAt, h);
    }
  }

  /** The clauses from `y.at` on sit there, and so do their stubs. */
  ghost predicate Selects(u: Unit, y: Layout) {
    y.Fit() && Ready(u) && Fits(u.fns) && InPools(u, y.np)
    && y.NoneAt() <= y.stubAt && y.stubAt + StubsLen(y.parts, y.target, y.tail) == y.end <= |u.code|
    && Occurs(u.code, y.at, JoinParts(y.parts, y.stubAt, y.target, y.tail))
    && Occurs(u.code, y.stubAt, Stubs(y.parts, y.sp, y.mark, y.target, y.tail, y.end).code)
    && InPools(u, Stubs(y.parts, y.sp, y.mark, y.target, y.tail, y.end).p)
    && (y.tail ==> Exits(u.code, y.end))
  }

  lemma {:induction false} SelectsFit(u: Unit, y: Layout)
    requires Selects(u, y)
    ensures y.Fit() && Ready(u) && Fits(u.fns) && InPools(u, y.np) && (y.parts != [] ==> y.parts[0].needs <= y.target)
  {
  }

  /** The first clause, its stub, and the layout of the others. */
  lemma {:induction false} FirstClause(u: Unit, y: Layout)
    requires Selects(u, y) && y.parts != []
    ensures Occurs(u.code, y.at, y.parts[0].pre) && Occurs(u.code, y.at + |y.parts[0].pre|, JumpTo(y.stubAt))
    ensures Occurs(u.code, y.at + |y.parts[0].pre| + 5, y.parts[0].post)
    ensures y.at + |y.parts[0].pre| + 5 + |y.parts[0].post| == y.Rest().at <= y.NoneAt() == y.Rest().NoneAt()
    ensures Occurs(u.code, y.stubAt, y.StubPad().code) && InPools(u, y.StubPad().p)
    ensures Occurs(u.code, y.stubAt + |y.StubPad().code|, JumpTo(y.end))
    ensures y.stubAt + |y.StubPad().code| + 5 == y.Rest().stubAt <= y.end <= |u.code|
    ensures Selects(u, y.Rest())
    ensures y.tail ==> Exits(u.code, y.at + |y.parts[0].pre|)
  {
    hide Occurs, Exits, JumpTo, PadUnlessTail, Stubs, JoinParts, Fits;
    StubSplit(u.code, y);
    JoinSplit(u.code, y);
    if y.tail {
      ExitsBefore(u, y.stubAt, y.end);
      ExitsBefore(u, y.at + |y.parts[0].pre|, y.stubAt);
    }
  }

  lemma {:induction false} StubBuilt(u: Unit, y: Layout, h: nat)
    requires Selects(u, y) && y.parts != []
    ensures y.stubAt < y.Rest().stubAt <= y.end
    ensures Leaves(u, y.stubAt, y.Rest().stubAt, h, h, y.end, h)
  {
    hide Occurs, Exits, JumpTo, PadUnlessTail, Stubs, JoinParts, Fits, Piece;
    FirstClause(u, y);
    var cut, next := y.stubAt + |y.StubPad().code|, y.Rest().stubAt;
    PadBuilt(u, y.stubAt, y.sp.(slot := y.mark + y.parts[0].needs), y.mark + y.target, y.tail, h);
    var labels := map[y.stubAt := h, cut := h, next := h, y.end := h];
    Placed(u, y.stubAt, cut, labels);
    JumpPiece(u, cut, y.end, labels);
    LeavingPath(u, [y.stubAt, cut, next], labels, y.end);
  }

  lemma {:induction false} StubsBuilt(u: Unit, y: Layout, labels: map<nat, nat>, h: nat)
    requires Selects(u, y) && Stubbed(y.parts, y.stubAt, y.target, y.tail, labels, h)
    requires y.end in labels && labels[y.end] == h
    ensures y.stubAt in labels && labels[y.stubAt] == h && Piece(u, y.stubAt, y.end, labels)
    decreases y.parts
  {
    hide Occurs, Exits, JumpTo, PadUnlessTail, Stubs, JoinParts, Fits, Piece, Leaves;
    if y.parts == [] {
      Empty(u, y.end, labels);
    } else {
      FirstClause(u, y);
      StubBuilt(u, y, h);
      StubsBuilt(u, y.Rest(), labels, h);
      var next := y.Rest().stubAt;
      LeavesAmong(u, y.stubAt, next, h, h, y.end, h, labels);
      Joined(u, y.stubAt, next, y.end, labels);
    }
  }

  /** What the clauses of a `cond` or `case` may assume of the labels around them. */
  ghost predicate Labels(y: Layout, labels: map<nat, nat>, h: nat, level: nat)
    requires y.Fit()
  {
    y.at <= y.NoneAt() < y.stubAt
    && y.at in labels && labels[y.at] == h && y.NoneAt() in labels && labels[y.NoneAt()] == h
    && Plain(labels, y.at, y.NoneAt()) && Stubbed(y.parts, y.stubAt, y.target, y.tail, labels, level)
  }

  lemma {:induction false} RestLabels(u: Unit, y: Layout, labels: map<nat, nat>, h: nat, level: nat)
    requires Selects(u, y) && y.parts != [] && Labels(y, labels, h, level)
    ensures y.Rest().Fit() && Labels(y.Rest(), labels[y.Rest().at := h], h, level)
  {
    hide Occurs, Exits, PadUnlessTail, Stubs, JoinParts, Fits;
    FirstClause(u, y);
    var z := y.Rest();
    StubbedWith(z.parts, z.stubAt, z.target, z.tail, labels, level, z.at, h);
  }

  /** A clause before the others. */
  lemma {:induction false} ClauseThen(u: Unit, y: Layout, labels: map<nat, nat>, h: nat, level: nat)
    requires Selects(u, y) && y.parts != [] && Labels(y, labels, h, level)
    requires Leaves(u, y.at, y.Rest().at, h, h, y.stubAt, level)
    requires Piece(u, y.Rest().at, y.NoneAt(), labels[y.Rest().at := h])
    ensures Piece(u, y.at, y.NoneAt(), labels)
  {
    hide Occurs, Exits, PadUnlessTail, Stubs, JoinParts, Fits, Piece;
    FirstClause(u, y);
    var next := y.Rest().at;
    LeavesAmong(u, y.at, next, h, h, y.stubAt, level, labels[next := h]);
    Joined(u, y.at, next, y.NoneAt(), labels[next := h]);
    Relabelled(u, y.at, y.NoneAt(), labels[next := h], labels);
  }

  /** The clauses of a `cond`, the operand stack being `h` high before each. */
  lemma {:induction false} TestsBuilt(u: Unit, ts: Tests, ctx: Ctx, p: Pools, depth: nat, y: Layout, labels: map<nat,
        nat>, h: nat)
    requires y.mark <= p.slot && CompTests(ts, ctx, y.at, p, y.mark, depth, y.tail) == Ok((y.parts, y.np))
    requires Selects(u, y) && Labels(y, labels, h, h + 1)
    ensures Piece(u, y.at, y.NoneAt(), labels) && Made(u.fns, |p.fns|, |y.np.fns|)
    decreases ts, 1
  {
    hide Occurs, Exits, PadUnlessTail, Stubs, JoinParts, Fits, Piece, Structured, Leaves, Plain, Stubbed, Selects;
    SelectsFit(u, y);
    hide CompExpr, CompSeq, JumpTo, BranchTo, Enc;
    match ts
    case NoTests =>
      NoClause(u, y, labels, h, h + 1);
    case ElseTests(body) =>
      LastClause(u, ts, ctx, p, depth, y, h);
      LastThen(u, y, labels, h, h + 1);
    case Test(_, _, rest) =>
      var q := TestBuilt(u, ts, ctx, p, depth, y, h);
      RestLabels(u, y, labels, h, h + 1);
      FirstClause(u, y);
      TestsBuilt(u, rest, ctx, q, depth, y.Rest(), labels[y.Rest().at := h], h);
      ClauseThen(u, y, labels, h, h + 1);
    case Arrow(_, _, rest) =>
      var q := ArrowBuilt(u, ts, ctx, p, depth, y, h);
      RestLabels(u, y, labels, h, h + 1);
      FirstClause(u, y);
      TestsBuilt(u, rest, ctx, q, depth, y.Rest(), labels[y.Rest().at := h], h);
      ClauseThen(u, y, labels, h, h + 1);
  }

  lemma {:induction false} NoClause(u: Unit, y: Layout, labels: map<nat, nat>, h: nat, level: nat)
    requires Selects(u, y) && y.parts == [] && Labels(y, labels, h, level)
    ensures Piece(u, y.at, y.NoneAt(), labels)
    ensures |y.np.fns| <= |u.fns|
  {
    hide Occurs, Exits, PadUnlessTail, Stubs, JoinParts, Fits, Piece;
    Empty(u, y.at, labels);
  }

  lemma {:induction false} LastThen(u: Unit, y: Layout, labels: map<nat, nat>, h: nat, level: nat)
    requires Selects(u, y) && |y.parts| == 1 && Labels(y, labels, h, level)
    requires Leaves(u, y.at, y.Rest().at, h, h, y.stubAt, level)
    ensures Piece(u, y.at, y.NoneAt(), labels)
  {
    hide Occurs, Exits, PadUnlessTail, Stubs, JoinParts, Fits, Piece;
    FirstClause(u, y);
    var next := y.Rest().at;
    assert y.Rest().parts == [] && next == y.NoneAt();
    assert labels[next := h] == labels;
    Empty(u, next, labels);
    ClauseThen(u, y, labels, h, level);
  }

  /** The `else` clause of a `cond`. */
  lemma {:induction false} LastClause(u: Unit, ts: Tests, ctx: Ctx, p: Pools, depth: nat, y: Layout, h: nat)
    requires ts.ElseTests? && y.mark <= p.slot
    requires CompTests(ts, ctx, y.at, p, y.mark, depth, y.tail) == Ok((y.parts, y.np)) && Selects(u, y)
      && y.NoneAt() < y.stubAt
    ensures |y.parts| == 1 && Leaves(u, y.at, y.Rest().at, h, h, y.stubAt, h + 1) && Made(u.fns, |p.fns|, |y.np.fns|)
    decreases ts, 0
  {
    hide Occurs, Exits, PadUnlessTail, Stubs, JoinParts, Fits, Piece, Structured, Spans, Leaves, Selects;
    hide CompExpr, CompSeq, JumpTo, BranchTo, Enc;
    SelectsFit(u, y);
    FirstClause(u, y);
    var p0 := p.(slot := y.mark);
    SeqBuilt(u, ts.body, ctx, y.at, p0, depth + 1, y.tail, h);
    var b := CompSeq(ts.body, ctx, y.at, p0, depth + 1, y.tail).value;
    JumpLeaves(u, y.at, y.at + |b.code|, y.stubAt, h, h + 1, h);
  }

  /** A stretch and the jump out of it; `below` is the height of what comes after. */
  lemma {:induction false} JumpLeaves(u: Unit, at: nat, end: nat, out: nat, h: nat, level: nat, below: nat)
    requires Ready(u) && Spans(u, at, end, h, level) && Occurs(u.code, end, JumpTo(out))
    requires end + 5 <= out <= |u.code| && (end + 5 == out ==> below == level)
    ensures Leaves(u, at, end + 5, h, below, out, level)
  {
    hide Occurs, JumpTo, Piece;
    var labels := map[at := h, end := level, end + 5 := below, out := level];
    Placed(u, at, end, labels);
    JumpPiece(u, end, out, labels);
    LeavingPath(u, [at, end, end + 5], labels, out);
  }

  /** A `(test body ...)` clause. */
  lemma {:induction false} TestBuilt(u: Unit, ts: Tests, ctx: Ctx, p: Pools, depth: nat, y: Layout, h: nat)
        returns (q: Pools)
    requires ts.Test? && y.mark <= p.slot
    requires CompTests(ts, ctx, y.at, p, y.mark, depth, y.tail) == Ok((y.parts, y.np)) && Selects(u, y)
      && y.NoneAt() < y.stubAt
    ensures y.parts != [] && Leaves(u, y.at, y.Rest().at, h, h, y.stubAt, h + 1) && Made(u.fns, |p.fns|, |q.fns|)
    ensures y.mark <= q.slot && CompTests(ts.rest, ctx, y.Rest().at, q, y.mark, depth, y.tail)
      == Ok((y.parts[1..], y.np))
    decreases ts, 0
  {
    hide Occurs, Exits, PadUnlessTail, Stubs, JoinParts, Fits, Piece, Structured, Spans, Leaves, Selects;
    hide CompExpr, CompSeq, JumpTo, BranchTo, Enc;
    SelectsFit(u, y);
    FirstClause(u, y);
    var p0 := p.(slot := y.mark);
    var t := CompExpr(ts.test, ctx, y.at, p0, depth + 1, false).value;
    var testEnd := y.at + |t.code|;
    var b := CompSeq(ts.body, ctx, testEnd + 5, t.p, depth + 1, y.tail).value;
    var skip := testEnd + 5 + |b.code| + 5;
    OccursSplit3(u.code, y.at, t.code, BranchTo(skip), b.code);
    ExprBuilt(u, ts.test, ctx, y.at, p0, depth + 1, false, h);
    SeqBuilt(u, ts.body, ctx, testEnd + 5, t.p, depth + 1, y.tail, h);
    TestLeaves(u, y.at, testEnd, skip, y.stubAt, h);
    q := b.p;
  }

  lemma {:induction false} TestLeaves(u: Unit, at: nat, testEnd: nat, skip: nat, stubAt: nat, h: nat)
    requires Ready(u) && Spans(u, at, testEnd, h, h + 1) && Occurs(u.code, testEnd, BranchTo(skip))
    requires testEnd + 10 <= skip && Spans(u, testEnd + 5, skip - 5, h, h + 1)
      && Occurs(u.code, skip - 5, JumpTo(stubAt))
    requires skip < stubAt <= |u.code|
    ensures Leaves(u, at, skip, h, h, stubAt, h + 1)
  {
    hide Occurs, JumpTo, BranchTo, Piece;
    var labels := map[at := h, testEnd := h + 1, testEnd + 5 := h, skip - 5 := h + 1, skip := h, stubAt := h + 1];
    Placed(u, at, testEnd, labels);
    BranchPiece(u, testEnd, skip, labels);
    Placed(u, testEnd + 5, skip - 5, labels);
    JumpPiece(u, skip - 5, stubAt, labels);
    LeavingPath(u, [at, testEnd, testEnd + 5, skip - 5, skip], labels, stubAt);
  }

  /** A `(test => receiver)` clause. */
  lemma {:induction false} ArrowBuilt(u: Unit, ts: Tests, ctx: Ctx, p: Pools, depth: nat, y: Layout, h: nat)
        returns (q: Pools)
    requires ts.Arrow? && y.mark <= p.slot
    requires CompTests(ts, ctx, y.at, p, y.mark, depth, y.tail) == Ok((y.parts, y.np)) && Selects(u, y)
      && y.NoneAt() < y.stubAt
    ensures y.parts != [] && Leaves(u, y.at, y.Rest().at, h, h, y.stubAt, h + 1) && Made(u.fns, |p.fns|, |q.fns|)
    ensures y.mark <= q.slot && CompTests(ts.rest, ctx, y.Rest().at, q, y.mark, depth, y.tail)
      == Ok((y.parts[1..], y.np))
    decreases ts, 0
  {
    hide Occurs, Exits, PadUnlessTail, Stubs, JoinParts, Fits, Piece, Structured, Spans, Leaves, Selects;
    hide CompExpr, CompTests, JumpTo, BranchTo, Enc;
    var p0 := p.(slot := y.mark);
    var t, f := ArrowSet(u, ts, ctx, p, depth, y);
    SelectsFit(u, y);
    FirstClause(u, y);
    var testEnd := y.at + |t.code|;
    var recvEnd := testEnd + 6 + |f.code|;
    ExprBuilt(u, ts.test, ctx, y.at, p0, depth + 1, false, h);
    ExprBuilt(u, ts.receiver, ctx, testEnd + 6, t.p, depth + 1, false, h + 1);
    ArrowLeaves(u, y.at, testEnd, recvEnd, if y.tail then TailCall(1) else Call(1), y.stubAt, h);
    q := f.p;
  }

  lemma {:induction false} ArrowSet(u: Unit, ts: Tests, ctx: Ctx, p: Pools, depth: nat, y: Layout)
        returns (t: Emitted, f: Emitted)
    requires ts.Arrow? && y.mark <= p.slot
    requires CompTests(ts, ctx, y.at, p, y.mark, depth, y.tail) == Ok((y.parts, y.np)) && Selects(u, y)
    ensures y.Fit() && y.parts != [] && y.parts[0].needs <= y.target
    ensures CompExpr(ts.test, ctx, y.at, p.(slot := y.mark), depth + 1, false) == Ok(t) && Set(u, y.at, t)
    ensures var testEnd := y.at + |t.code|;
      var recvEnd := testEnd + 6 + |f.code|;
      CompExpr(ts.receiver, ctx, testEnd + 6, t.p, depth + 1, false) == Ok(f) && Set(u, testEnd + 6, f)
      && t.p.fns <= f.p.fns && p.fns <= t.p.fns
      && |y.parts[0].pre| == |t.code| + 6 + |f.code| + 3 && y.Rest().at == recvEnd + 9
      && Occurs(u.code, testEnd, Enc(Dup)) && Occurs(u.code, testEnd + 1, BranchTo(recvEnd + 8))
      && Occurs(u.code, recvEnd, Enc(Swap)) && Occurs(u.code, recvEnd + 1, Enc(if y.tail then TailCall(1) else Call(1)))
      && Occurs(u.code, recvEnd + 8, Enc(Pop))
    ensures y.mark <= f.p.slot && CompTests(ts.rest, ctx, y.Rest().at, f.p, y.mark, depth, y.tail)
      == Ok((y.parts[1..], y.np))
  {
    hide Occurs, Exits, PadUnlessTail, Stubs, JoinParts, Fits, Selects, CompTests, CompExpr, JumpTo, BranchTo;
    t, f := ArrowShape(ts, ctx, y.at, p, y.mark, depth, y.tail);
    SelectsFit(u, y);
    FirstClause(u, y);
    ArrowSplit(u.code, y.at, t.code, y.at + |t.code| + 6 + |f.code|
      + 8, f.code, Enc(if y.tail then TailCall(1) else Call(1)));
  }

  lemma {:induction false} ArrowLeaves(u: Unit, at: nat, testEnd: nat, recvEnd: nat, call: Instr, stubAt: nat, h: nat)
    requires Ready(u) && Spans(u, at, testEnd, h, h + 1)
    requires Occurs(u.code, testEnd, Enc(Dup)) && Occurs(u.code, testEnd + 1, BranchTo(recvEnd + 8))
    requires Spans(u, testEnd + 6, recvEnd, h + 1, h + 2) && Occurs(u.code, recvEnd, Enc(Swap))
    requires Occurs(u.code, recvEnd + 1, Enc(call)) && Occurs(u.code, recvEnd + 3, JumpTo(stubAt))
    requires Occurs(u.code, recvEnd + 8, Enc(Pop)) && recvEnd + 9 < stubAt <= |u.code|
    requires call == Call(1) || (call == TailCall(1) && Exits(u.code, recvEnd + 3))
    ensures Leaves(u, at, recvEnd + 9, h, h, stubAt, h + 1)
  {
    hide Occurs, Exits, JumpTo, BranchTo, Enc, Spans, Leaves;
    One(u, testEnd, Dup, h + 1);
    Then(u, at, testEnd, testEnd + 1, h, h + 1, h + 2);
    One(u, recvEnd, Swap, h + 2);
    One(u, recvEnd + 1, call, h + 2);
    Then(u, recvEnd, recvEnd + 1, recvEnd + 3, h + 2, h + 2, h + 1);
    Then(u, testEnd + 6, recvEnd, recvEnd + 3, h + 1, h + 2, h + 1);
    KeptLeaves(u, at, testEnd + 1, recvEnd + 3, stubAt, h);
  }

  /** A tested value that one way uses and the other drops. */
  lemma {:induction false} KeptLeaves(u: Unit, at: nat, testEnd: nat, useEnd: nat, stubAt: nat, h: nat)
    requires Ready(u) && Spans(u, at, testEnd, h, h + 2) && Occurs(u.code, testEnd, BranchTo(useEnd + 5))
    requires Spans(u, testEnd + 5, useEnd, h + 1, h + 1) && Occurs(u.code, useEnd, JumpTo(stubAt))
    requires Occurs(u.code, useEnd + 5, Enc(Pop)) && useEnd + 6 < stubAt <= |u.code|
    ensures Leaves(u, at, useEnd + 6, h, h, stubAt, h + 1)
  {
    hide Occurs, JumpTo, BranchTo, Enc, Piece;
    var labels := map[at := h, testEnd := h + 2, testEnd + 5 := h + 1, useEnd := h + 1, useEnd + 5 := h + 1,
                      useEnd + 6 := h, stubAt := h + 1];
    Placed(u, at, testEnd, labels);
    BranchPiece(u, testEnd, useEnd + 5, labels);
    Placed(u, testEnd + 5, useEnd, labels);
    JumpPiece(u, useEnd, stubAt, labels);
    InstrPiece(u, useEnd + 5, Pop, labels);
    LeavingPath(u, [at, testEnd, testEnd + 5, useEnd, useEnd + 5, useEnd + 6], labels, stubAt);
  }

  /** The tests of a `case` clause against its literals: the key stays where it is. */
  lemma {:induction false} DataBuilt(u: Unit, data: seq<Data.Const>, at: nat, p: Pools, found: nat, h: nat)
    requires Set(u, at, CompData(data, at, p, found)) && h > 0
    requires at + DATUM_TEST * |data| < found <= |u.code|
    ensures Leaves(u, at, at + DATUM_TEST * |data|, h, h, found, h)
    decreases data
  {
    hide Occurs, JumpTo, BranchTo, Enc, Leaves, Spans, Fits;
    if data == [] {
      NothingLeaves(u, at, h, found);
    } else {
      DatumLaid(u.code, data, at, p, found);
      var c := EmitConst(p, data[0]);
      var next := at + DATUM_TEST;
      ConstBuilt(u, at + 1, p, data[0], h + 1);
      DataBuilt(u, data[1..], next, c.p, found, h);
      DatumLeaves(u, at, found, h);
      LeavesThen(u, at, next, at + DATUM_TEST * |data|, found, h);
    }
  }

  lemma {:induction false} NothingLeaves(u: Unit, at: nat, h: nat, out: nat)
    requires at < out
    ensures Leaves(u, at, at, h, h, out, h)
  {
    hide Piece;
    var labels := map[at := h, out := h];
    Empty(u, at, labels);
    LeavingPath(u, [at], labels, out);
  }

  lemma {:induction false} LeavesThen(u: Unit, lo: nat, mid: nat, hi: nat, out: nat, h: nat)
    requires Leaves(u, lo, mid, h, h, out, h) && Leaves(u, mid, hi, h, h, out, h) && hi < out
    ensures Leaves(u, lo, hi, h, h, out, h)
  {
    hide Piece;
    var labels := map[lo := h, mid := h, hi := h, out := h];
    LeavesAmong(u, lo, mid, h, h, out, h, labels);
    LeavesAmong(u, mid, hi, h, h, out, h, labels);
    LeavingPath(u, [lo, mid, hi], labels, out);
  }

  lemma {:induction false} DatumLeaves(u: Unit, at: nat, found: nat, h: nat)
    requires Ready(u) && Occurs(u.code, at, Enc(Dup)) && Spans(u, at + 1, at + 6, h + 1, h + 2)
    requires Occurs(u.code, at + 6, Enc(Instr.Eqv)) && Occurs(u.code, at + 7, BranchTo(at + DATUM_TEST))
    requires Occurs(u.code, at + 12, JumpTo(found)) && at + DATUM_TEST < found <= |u.code| && h > 0
    ensures Leaves(u, at, at + DATUM_TEST, h, h, found, h)
  {
    hide Occurs, JumpTo, BranchTo, Enc, Spans, Leaves;
    One(u, at, Dup, h);
    Then(u, at, at + 1, at + 6, h, h + 1, h + 2);
    One(u, at + 6, Instr.Eqv, h + 2);
    Then(u, at, at + 6, at + 7, h, h + 2, h + 1);
    DecidedLeaves(u, at, at + 7, found, h);
  }

  lemma {:induction false} DecidedLeaves(u: Unit, at: nat, testEnd: nat, found: nat, h: nat)
    requires Ready(u) && Spans(u, at, testEnd, h, h + 1) && Occurs(u.code, testEnd, BranchTo(testEnd + 10))
    requires Occurs(u.code, testEnd + 5, JumpTo(found)) && testEnd + 10 < found <= |u.code|
    ensures Leaves(u, at, testEnd + 10, h, h, found, h)
  {
    hide Occurs, JumpTo, BranchTo, Piece;
    var labels := map[at := h, testEnd := h + 1, testEnd + 5 := h, testEnd + 10 := h, found := h];
    Placed(u, at, testEnd, labels);
    BranchPiece(u, testEnd, testEnd + 10, labels);
    JumpPiece(u, testEnd + 5, found, labels);
    LeavingPath(u, [at, testEnd, testEnd + 5, testEnd + 10], labels, found);
  }

  /** The clauses of a `case`, with the key on the stack before each. */
  lemma {:induction false} ClausesBuilt(u: Unit, cs: Clauses, ctx: Ctx, p: Pools, depth: nat, y: Layout,
        labels: map<nat, nat>, h: nat)
    requires y.mark <= p.slot && CompClauses(cs, ctx, y.at, p, y.mark, depth, y.tail) == Ok((y.parts, y.np))
    requires Selects(u, y) && Labels(y, labels, h + 1, h + 1)
    ensures Piece(u, y.at, y.NoneAt(), labels) && Made(u.fns, |p.fns|, |y.np.fns|)
    decreases cs, 1
  {
    hide Occurs, Exits, PadUnlessTail, Stubs, JoinParts, Fits, Piece, Structured, Leaves, Plain, Stubbed, Selects;
    SelectsFit(u, y);
    hide CompExpr, CompSeq, JumpTo, BranchTo, Enc;
    match cs
    case NoClauses =>
      NoClause(u, y, labels, h + 1, h + 1);
    case ElseClauses(body) =>
      ElseClauseBuilt(u, cs, ctx, p, depth, y, h);
      LastThen(u, y, labels, h + 1, h + 1);
    case Clause(_, _, rest) =>
      var q := ClauseBuilt(u, cs, ctx, p, depth, y, h);
      RestLabels(u, y, labels, h + 1, h + 1);
      FirstClause(u, y);
      ClausesBuilt(u, rest, ctx, q, depth, y.Rest(), labels[y.Rest().at := h + 1], h);
      ClauseThen(u, y, labels, h + 1, h + 1);
  }

  lemma {:induction false} ElseClauseBuilt(u: Unit, cs: Clauses, ctx: Ctx, p: Pools, depth: nat, y: Layout, h: nat)
    requires cs.ElseClauses? && y.mark <= p.slot
    requires CompClauses(cs, ctx, y.at, p, y.mark, depth, y.tail) == Ok((y.parts, y.np)) && Selects(u, y)
      && y.NoneAt() < y.stubAt
    ensures |y.parts| == 1 && Leaves(u, y.at, y.Rest().at, h + 1, h + 1, y.stubAt, h + 1)
    ensures Made(u.fns, |p.fns|, |y.np.fns|)
    decreases cs, 0
  {
    hide Occurs, Exits, PadUnlessTail, Stubs, JoinParts, Fits, Piece, Structured, Spans, Leaves, Selects;
    hide CompExpr, CompSeq, JumpTo, BranchTo, Enc;
    SelectsFit(u, y);
    FirstClause(u, y);
    var p0 := p.(slot := y.mark);
    var b := CompSeq(cs.body, ctx, y.at + 1, p0, depth + 1, y.tail).value;
    OccursSplit(u.code, y.at, Enc(Pop), b.code);
    SeqBuilt(u, cs.body, ctx, y.at + 1, p0, depth + 1, y.tail, h);
    DroppedLeaves(u, y.at, y.at + 1 + |b.code|, y.stubAt, h);
  }

  /** A body that first drops the key. */
  lemma {:induction false} DroppedLeaves(u: Unit, at: nat, end: nat, stubAt: nat, h: nat)
    requires Ready(u) && Occurs(u.code, at, Enc(Pop)) && Spans(u, at + 1, end, h, h + 1)
      && Occurs(u.code, end, JumpTo(stubAt))
    requires end + 5 < stubAt <= |u.code|
    ensures Leaves(u, at, end + 5, h + 1, h + 1, stubAt, h + 1)
  {
    hide Occurs, JumpTo, Enc, Spans, Leaves;
    One(u, at, Pop, h + 1);
    Then(u, at, at + 1, end, h + 1, h, h + 1);
    JumpLeaves(u, at, end, stubAt, h + 1, h + 1, h + 1);
  }

  lemma {:induction false} ClauseBuilt(u: Unit, cs: Clauses, ctx: Ctx, p: Pools, depth: nat, y: Layout, h: nat)
        returns (q: Pools)
    requires cs.Clause? && y.mark <= p.slot
    requires CompClauses(cs, ctx, y.at, p, y.mark, depth, y.tail) == Ok((y.parts, y.np)) && Selects(u, y)
      && y.NoneAt() < y.stubAt
    ensures y.parts != [] && Leaves(u, y.at, y.Rest().at, h + 1, h + 1, y.stubAt, h + 1)
      && Made(u.fns, |p.fns|, |q.fns|)
    ensures y.mark <= q.slot && CompClauses(cs.rest, ctx, y.Rest().at, q, y.mark, depth, y.tail)
      == Ok((y.parts[1..], y.np))
    decreases cs, 0
  {
    hide Occurs, Exits, PadUnlessTail, Stubs, JoinParts, Fits, Piece, Structured, Spans, Leaves, Selects;
    hide CompExpr, CompSeq, CompClauses, JumpTo, BranchTo, Enc, CompData;
    var d, b := ClauseSet(u, cs, ctx, p, depth, y);
    SelectsFit(u, y);
    FirstClause(u, y);
    var testsEnd := y.at + DATUM_TEST * |cs.data|;
    var bodyAt := testsEnd + 5;
    var bodyEnd := bodyAt + 1 + |b.code|;
    DataBuilt(u, cs.data, y.at, p.(slot := y.mark), bodyAt, h + 1);
    SeqBuilt(u, cs.body, ctx, bodyAt + 1, d.p, depth + 1, y.tail, h);
    DroppedLeaves(u, bodyAt, bodyEnd, y.stubAt, h);
    ClauseLeaves(u, y.at, testsEnd, bodyEnd + 5, y.stubAt, h + 1);
    q := b.p;
  }

  lemma {:induction false} ClauseSet(u: Unit, cs: Clauses, ctx: Ctx, p: Pools, depth: nat, y: Layout)
        returns (d: Emitted, b: Emitted)
    requires cs.Clause? && y.mark <= p.slot
    requires CompClauses(cs, ctx, y.at, p, y.mark, depth, y.tail) == Ok((y.parts, y.np)) && Selects(u, y)
    ensures y.Fit() && y.parts != [] && y.parts[0].needs <= y.target
    ensures var bodyAt := y.at + DATUM_TEST * |cs.data| + 5;
      var bodyEnd := bodyAt + 1 + |b.code|;
      d == CompData(cs.data, y.at, p.(slot := y.mark), bodyAt) && Set(u, y.at, d)
      && CompSeq(cs.body, ctx, bodyAt + 1, d.p, depth + 1, y.tail) == Ok(b) && Set(u, bodyAt + 1, b)
      && p.fns == d.p.fns && d.p.fns <= b.p.fns
      && y.at + |y.parts[0].pre| == bodyEnd && y.Rest().at == bodyEnd + 5
      && Occurs(u.code, bodyAt - 5, JumpTo(bodyEnd + 5)) && Occurs(u.code, bodyAt, Enc(Pop))
    ensures y.mark <= b.p.slot && CompClauses(cs.rest, ctx, y.Rest().at, b.p, y.mark, depth, y.tail)
      == Ok((y.parts[1..], y.np))
  {
    hide Size, PartsLen;
    hide Occurs, Exits, PadUnlessTail, Stubs, JoinParts, Fits, Selects, CompExpr, CompSeq, JumpTo, BranchTo, CompData;
    SelectsFit(u, y);
    FirstClause(u, y);
    var bodyAt := y.at + DATUM_TEST * |cs.data| + 5;
    d := CompData(cs.data, y.at, p.(slot := y.mark), bodyAt);
    b := CompSeq(cs.body, ctx, bodyAt + 1, d.p, depth + 1, y.tail).value;
    var next := bodyAt + 1 + |b.code| + 5;
    OccursSplit(u.code, y.at, d.code + JumpTo(next) + Enc(Pop), b.code);
    OccursSplit3(u.code, y.at, d.code, JumpTo(next), Enc(Pop));
  }

  lemma {:induction false} ClauseLeaves(u: Unit, at: nat, testsEnd: nat, next: nat, stubAt: nat, h: nat)
    requires Ready(u) && Leaves(u, at, testsEnd, h, h, testsEnd + 5, h) && Occurs(u.code, testsEnd, JumpTo(next))
    requires Leaves(u, testsEnd + 5, next, h, h, stubAt, h) && testsEnd + 5 < next < stubAt <= |u.code|
    ensures Leaves(u, at, next, h, h, stubAt, h)
  {
    hide Occurs, JumpTo, Piece;
    var labels := map[at := h, testsEnd := h, testsEnd + 5 := h, next := h, stubAt := h];
    LeavesAmong(u, at, testsEnd, h, h, testsEnd + 5, h, labels);
    JumpPiece(u, testsEnd, next, labels);
    LeavesAmong(u, testsEnd + 5, next, h, h, stubAt, h, labels);
    LeavingPath(u, [at, testsEnd, testsEnd + 5, next], labels, stubAt);
  }

  /** The no-match path: the discard, the unspecified value, padding, and the jump out. */
  ghost predicate NoMatch(u: Unit, y: Layout)
    requires y.Fit()
  {
    y.stubAt == y.NoneAt() + |y.discard| + 5 + |y.NonePad().code| + 5
    && Occurs(u.code, y.NoneAt(), y.discard) && Set(u, y.NoneAt() + |y.discard|, y.None())
    && Set(u, y.NoneAt() + |y.discard| + 5, y.NonePad())
    && Occurs(u.code, y.stubAt - 5, JumpTo(y.end))
  }

  lemma {:induction false} SelectSet(u: Unit, at: nat, parts: seq<Part>, q: Pools, mark: u8, tail: bool,
        discard: seq<byte>)
      returns (y: Layout)
    requires mark <= q.slot && forall i :: 0 <= i < |parts| ==> mark + parts[i].needs < 256
    requires var r := Select(parts, at, q, mark, tail, discard);
      Set(u, at, r) && (tail ==> Exits(u.code, at + |r.code|))
    ensures y.Fit() && Selects(u, y) && NoMatch(u, y) && y.at == at && y.parts == parts && y.np == q && y.mark == mark
      && y.tail == tail
    ensures var r := Select(parts, at, q, mark, tail, discard);
      y.discard == discard && y.end == at + |r.code| && r.p.fns == q.fns
  {
    hide Occurs, Exits, JumpTo, Stubs, JoinParts, PadUnlessTail, EmitConst, StubsLen, PartsLen, MaxNeeds, Fits;
    var target := MaxNeeds(parts);
    MaxNeedsFits(parts, mark);
    var none := EmitConst(q.(slot := mark), CUnspecified);
    var pad := PadUnlessTail(none.p, mark + target, tail);
    var stubAt := at + PartsLen(parts) + |discard| + 5 + |pad.code| + 5;
    var end := stubAt + StubsLen(parts, target, tail);
    var stubs := Stubs(parts, pad.p, mark, target, tail, end);
    var join := JoinParts(parts, stubAt, target, tail);
    y := Layout(at, parts, discard, q, stubAt, pad.p, mark, target, tail, end);
    OccursFits(u.code, at, join + (discard + none.code + pad.code + JumpTo(end)) + stubs.code);
    OccursSplit3(u.code, at, join, discard + none.code + pad.code + JumpTo(end), stubs.code);
    OccursSplit(u.code, y.NoneAt(), discard + none.code + pad.code, JumpTo(end));
    OccursSplit3(u.code, y.NoneAt(), discard, none.code, pad.code);
    EmittedConst(q.(slot := mark), CUnspecified);
  }

  lemma {:induction false} NoneBuilt(u: Unit, y: Layout, above: nat, h: nat)
    requires Selects(u, y) && NoMatch(u, y) && Spans(u, y.NoneAt(), y.NoneAt() + |y.discard|, above, h)
    ensures Leaves(u, y.NoneAt(), y.stubAt, above, h + 1, y.end, h + 1)
  {
    hide Occurs, Exits, JumpTo, Stubs, JoinParts, PadUnlessTail, Fits, Spans, Leaves;
    var noneAt := y.NoneAt() + |y.discard|;
    ConstBuilt(u, noneAt, y.np.(slot := y.mark), CUnspecified, h);
    PadBuilt(u, noneAt + 5, y.None().p, y.mark + y.target, y.tail, h + 1);
    Then(u, y.NoneAt(), noneAt, noneAt + 5, above, h, h + 1);
    Then(u, y.NoneAt(), noneAt + 5, y.stubAt - 5, above, h + 1, h + 1);
    JumpLeaves(u, y.NoneAt(), y.stubAt - 5, y.end, above, h + 1, h + 1);
  }

  /** The labels of a whole selection. */
  ghost function SelectLabels(y: Layout, above: nat, h: nat): map<nat, nat> {
    StubLabels(y.parts, y.stubAt, y.target, y.tail, h)[y.end := h][y.at := above][y.NoneAt() := above]
  }

  lemma {:induction false} SelectLabelled(u: Unit, y: Layout, above: nat, h: nat)
    requires Selects(u, y) && NoMatch(u, y)
    ensures var labels := SelectLabels(y, above, h);
      Labels(y, labels, above, h) && Plain(labels, y.NoneAt(), y.stubAt) && y.end in labels && labels[y.end] == h
      && forall t | t in labels :: y.at <= t <= y.end
  {
    hide Occurs, Exits, JumpTo, Stubs, JoinParts, PadUnlessTail, Fits, InPools, Set;
    var start := StubLabels(y.parts, y.stubAt, y.target, y.tail, h);
    StubsLabelled(y.parts, y.stubAt, y.target, y.tail, h);
    StubbedWith(y.parts, y.stubAt, y.target, y.tail, start, h, y.end, h);
    StubbedWith(y.parts, y.stubAt, y.target, y.tail, start[y.end := h], h, y.at, above);
    StubbedWith(y.parts, y.stubAt, y.target, y.tail, start[y.end := h][y.at := above], h, y.NoneAt(), above);
  }

  lemma {:induction false} SelectBuilt(u: Unit, y: Layout, above: nat, h: nat)
    requires Selects(u, y) && NoMatch(u, y) && Spans(u, y.NoneAt(), y.NoneAt() + |y.discard|, above, h)
    requires Piece(u, y.at, y.NoneAt(), SelectLabels(y, above, h + 1))
    ensures Spans(u, y.at, y.end, above, h + 1)
  {
    hide Occurs, Exits, JumpTo, Stubs, JoinParts, PadUnlessTail, Fits, Piece, SelectLabels, InPools, Set;
    var labels := SelectLabels(y, above, h + 1);
    SelectLabelled(u, y, above, h + 1);
    NoneBuilt(u, y, above, h);
    StubsBuilt(u, y, labels, h + 1);
    LeavesAmong(u, y.NoneAt(), y.stubAt, above, h + 1, y.end, h + 1, labels);
    ClosedPath(u, [y.at, y.NoneAt(), y.stubAt, y.end], labels);
  }

  lemma {:induction false} CondBuilt(u: Unit, ts: Tests, ctx: Ctx, at: nat, p: Pools, depth: nat, tail: bool, h: nat)
    requires var r := CompCond(ts, ctx, at, p, depth, tail);
      r.Ok? && Set(u, at, r.value) && (tail ==> Exits(u.code, at + |r.value.code|))
    ensures Built(u, at, h, h + 1, p, CompCond(ts, ctx, at, p, depth, tail).value)
    decreases ts, 2
  {
    hide Spans, Piece, Structured, Exits, Occurs, CompTests, Select, Selects, NoMatch, Fits, SelectLabels;
    var (parts, q) := CompTests(ts, ctx, at, p, p.slot, depth, tail).value;
    var y := SelectSet(u, at, parts, q, p.slot, tail, []);
    SelectLabelled(u, y, h, h + 1);
    TestsBuilt(u, ts, ctx, p, depth, y, SelectLabels(y, h, h + 1), h);
    EmptySpan(u, y.NoneAt(), h);
    SelectBuilt(u, y, h, h);
  }

  lemma {:induction false} CaseBuilt(u: Unit, e: Expr, ctx: Ctx, at: nat, p: Pools, depth: nat, tail: bool, h: nat)
    requires e.Case?
    requires var r := CompCase(e.key, e.clauses, ctx, at, p, depth, tail);
      r.Ok? && Set(u, at, r.value) && (tail ==> Exits(u.code, at + |r.value.code|))
    ensures Built(u, at, h, h + 1, p, CompCase(e.key, e.clauses, ctx, at, p, depth, tail).value)
    decreases e, 0
  {
    hide Spans, Piece, Structured, Exits, Occurs, CompExpr, CompClauses, Select, Selects, NoMatch, Fits, SelectLabels,
      Enc;
    var k := CompExpr(e.key, ctx, at, p, depth + 1, false).value;
    var clausesAt := at + |k.code|;
    var (parts, q) := CompClauses(e.clauses, ctx, clausesAt, k.p, k.p.slot, depth, tail).value;
    var r := Select(parts, clausesAt, q, k.p.slot, tail, Enc(Pop));
    OccursSplit(u.code, at, k.code, r.code);
    var y := SelectSet(u, clausesAt, parts, q, k.p.slot, tail, Enc(Pop));
    ExprBuilt(u, e.key, ctx, at, p, depth + 1, false, h);
    SelectLabelled(u, y, h + 1, h + 1);
    ClausesBuilt(u, e.clauses, ctx, k.p, depth, y, SelectLabels(y, h + 1, h + 1), h);
    DiscardBuilt(u, y, h);
    SelectBuilt(u, y, h + 1, h);
    Then(u, at, clausesAt, y.end, h, h + 1, h + 1);
  }

  lemma {:induction false} DiscardBuilt(u: Unit, y: Layout, h: nat)
    requires y.Fit() && NoMatch(u, y) && y.discard == Enc(Pop)
    ensures Spans(u, y.NoneAt(), y.NoneAt() + |y.discard|, h + 1, h)
  {
    hide Occurs, Enc, Set, JumpTo, Spans, PadUnlessTail;
    One(u, y.NoneAt(), Pop, h + 1);
  }

  // ----- programs -----

  lemma {:induction false} FormsBuilt(u: Unit, forms: Exprs, at: nat, p: Pools, h: nat)
    requires CompForms(forms, at, p).Ok? && Set(u, at, CompForms(forms, at, p).value)
    ensures Built(u, at, h, h, p, CompForms(forms, at, p).value)
    decreases forms
  {
    hide Spans, Fits, Structured, Occurs, CompExpr, Enc, Ready;
    if forms.NoExprs? {
      EmptySpan(u, at, h);
    } else {
      var a, b := FormSet(u, forms, at, p);
      hide CompForms;
      ExprBuilt(u, forms.head, Ctx([], None), at, p, 0, false, h);
      FormsBuilt(u, forms.tail, at + |a.code| + 1, a.p, h);
      TakenThen(u, at, at + |a.code|, Pop, at + |a.code| + 1 + |b.code|, h, h);
    }
  }

  lemma {:induction false} FormSet(u: Unit, forms: Exprs, at: nat, p: Pools) returns (a: Emitted, b: Emitted)
    requires forms.More? && CompForms(forms, at, p).Ok? && Set(u, at, CompForms(forms, at, p).value)
    ensures CompExpr(forms.head, Ctx([], None), at, p, 0, false) == Ok(a) && Set(u, at, a)
    ensures Occurs(u.code, at + |a.code|, Enc(Pop)) && p.fns <= a.p.fns <= b.p.fns
    ensures CompForms(forms.tail, at + |a.code| + 1, a.p) == Ok(b) && Set(u, at + |a.code| + 1, b)
    ensures var r := CompForms(forms, at, p).value; |r.code| == |a.code| + 1 + |b.code| && r.p == b.p
  {
    hide Fits, Occurs, CompExpr;
    a := CompExpr(forms.head, Ctx([], None), at, p, 0, false).value;
    b := CompForms(forms.tail, at + |a.code| + 1, a.p).value;
    OccursSplit3(u.code, at, a.code, Enc(Pop), b.code);
  }

  /**
   Every chunk of every compiled program is structured: the entry, each function, called
   or not, and each of their branches, taken or not.
   */
  lemma {:induction false} ProgramIsStructured(forms: Exprs)
    requires CompProgram(forms).Ok? && Fits(CompProgram(forms).value.fns)
    ensures var fns := CompProgram(forms).value.fns;
      forall j | 0 <= j < |fns| :: Structured(fns, j)
  {
    hide Spans, Certified, Walks, CompForms, Enc;
    var r := CompForms(forms, 0, Pools([], [], 0)).value;
    var fns := CompProgram(forms).value.fns;
    var n := |r.p.fns|;
    var u := UnitOf(fns, n);
    assert u.code[0..|u.code|] == r.code + Enc(Halt);
    OccursSplit(u.code, 0, r.code, Enc(Halt));
    FormsBuilt(u, forms, 0, Pools([], [], 0), 0);
    Complete(u, |r.code|, 0, Halt);
  }
}
