/**
 The compiler as it runs: one pass over the form, appending to the body being
 compiled and patching jumps backwards.  Every method is proved to do what the
 function of the same form in `Compile` says.
 */
module Compiling {
  import opened Prelude
  import opened Data
  import opened Syntax
  import opened Instr
  import opened Compile
  import opened Emitter
  import opened Chains
  import opened Selecting

  /** What remains to be emitted, behind what has been. */
  function After(done: seq<byte>, rest: Compiled): Compiled {
    if rest.Ok? then Ok(Compile.Emitted(done + rest.value.code, rest.value.p)) else rest
  }

  lemma {:induction false} AfterNothing(rest: Compiled)
    ensures After([], rest) == rest
  {
    if rest.Ok? {
      assert [] + rest.value.code == rest.value.code;
    }
  }

  method CompileExpr(b: Body, e: Expr, ctx: Ctx, depth: nat, tail: bool) returns (r: Done)
    modifies b, b.comp
    ensures Follows(old(b.code), CompExpr(e, ctx, |old(b.code)|, old(b.State()), depth, tail), r, b.code, b.State())
    decreases e, 1
  {
    hide CompSet, CompDefine, CompIf, CompSeq, CompAnd, CompOr, CompWhen, CompUnless, CompLet, CompCond, CompCase;
    hide CompApp, CompVar, CompFunction, EmitConst, Enc;
    if depth > MAX_NESTING_DEPTH {
      return Err(NestingTooDeep);
    }
    match e
    case Lit(c) =>
      b.EmitConst(c);
      r := Ok(());
    case Var(x) => r := CompileVar(b, x, ctx);
    case SetVar(x, e1) => r := CompileSet(b, x, e1, ctx, depth);
    case Define(x, e1) => r := CompileDefine(b, x, e1, ctx, depth);
    case If(test, thn, els) => r := CompileIf(b, e, ctx, depth, tail);
    case Begin(es) => r := CompileSequence(b, es, ctx, depth + 1, tail);
    case And(es) => r := CompileAnd(b, es, ctx, depth, tail);
    case Or(es) => r := CompileOr(b, es, ctx, depth, tail);
    case When(test, body) => r := CompileWhen(b, e, ctx, depth, tail);
    case Unless(test, body) => r := CompileUnless(b, e, ctx, depth, tail);
    case Let(bs, body) => r := CompileLet(b, e, ctx, depth, tail);
    case LetStar(bs, body) => r := CompileLet(b, e, ctx, depth, tail);
    case Cond(tests) => r := CompileCond(b, tests, ctx, depth, tail);
    case Case(key, clauses) => r := CompileCase(b, e, ctx, depth, tail);
    case Lambda(formals, body) =>
      var fn :- CompileFunction(b, formals, body, ctx, depth, None);
      b.Emit(MakeFunction(fn));
      r := Ok(());
    case App(f, args) => r := CompileCall(b, e, ctx, depth, tail);
  }

  method CompileVar(b: Body, x: string, ctx: Ctx) returns (r: Done)
    modifies b
    ensures Follows(old(b.code), CompVar(x, ctx, old(b.State())), r, b.code, b.State())
  {
    hide Enc, Resolve;
    var place :- Resolve(ctx, x);
    match place {
      case Local(slot) => b.Emit(GetLocal(slot));
      case Upvalue(d, slot) => b.Emit(GetUpvalue(d, slot));
      case Global =>
        var k := b.AddConst(CSymbol(x));
        b.Emit(GetGlobal(k));
    }
    r := Ok(());
  }

  method CompileAssignment(b: Body, x: string, ctx: Ctx) returns (r: Done)
    modifies b
    ensures Follows(old(b.code), CompAssign(x, ctx, old(b.State())), r, b.code, b.State())
  {
    hide Enc, Resolve;
    var place :- Resolve(ctx, x);
    match place {
      case Local(slot) => b.Emit(SetLocal(slot));
      case Upvalue(d, slot) => b.Emit(SetUpvalue(d, slot));
      case Global =>
        var k := b.AddConst(CSymbol(x));
        b.Emit(SetGlobal(k));
    }
    r := Ok(());
  }

  method CompileSet(b: Body, x: string, e: Expr, ctx: Ctx, depth: nat) returns (r: Done)
    modifies b, b.comp
    ensures Follows(old(b.code), CompSet(x, e, ctx, |old(b.code)|, old(b.State()), depth), r, b.code, b.State())
    decreases e, 2
  {
    hide CompExpr, CompAssign;
    ghost var start, p := b.code, b.State();
    var _ :- CompileExpr(b, e, ctx, depth + 1, false);
    var _ :- CompileAssignment(b, x, ctx);
    ghost var a := CompExpr(e, ctx, |start|, p, depth + 1, false).value;
    Group3(start, a.code, CompAssign(x, ctx, a.p).value.code, []);
    r := Ok(());
  }

  method CompileDefine(b: Body, x: string, e: Expr, ctx: Ctx, depth: nat) returns (r: Done)
    modifies b, b.comp
    ensures Follows(old(b.code), CompDefine(x, e, ctx, |old(b.code)|, old(b.State()), depth), r, b.code, b.State())
    decreases e, 2
  {
    hide Enc, CompExpr, CompFunction;
    if e.Lambda? {
      var fn :- CompileFunction(b, e.formals, e.body, ctx, depth, Some(x));
      b.Emit(MakeFunction(fn));
    } else {
      var _ :- CompileExpr(b, e, ctx, depth + 1, false);
    }
    var k := b.AddConst(CSymbol(x));
    b.Emit(DefGlobal(k));
    r := Ok(());
  }

  // ----- sequences -----

  lemma {:induction false} SeqStep(done: seq<byte>, es: Exprs, ctx: Ctx, at: nat, p: Pools, depth: nat, tail: bool)
    requires es.More? && es.tail.More?
    ensures var a := CompExpr(es.head, ctx, at, p, depth, false);
      After(done, CompSeq(es, ctx, at, p, depth, tail))
      == if a.Err? then a
         else
           After(done + a.value.code + Enc(Pop),
                 CompSeq(es.tail, ctx, at + |a.value.code| + 1, a.value.p, depth, tail))
  {
    hide CompExpr, Enc;
    var a := CompExpr(es.head, ctx, at, p, depth, false);
    if a.Ok? {
      var rest := CompSeq(es.tail, ctx, at + |a.value.code| + 1, a.value.p, depth, tail);
      if rest.Ok? {
        assert done + (a.value.code + Enc(Pop) + rest.value.code) == done + a.value.code + Enc(Pop) + rest.value.code;
      }
    }
  }

  lemma {:induction false} SeqEnds(es: Exprs, ctx: Ctx, at: nat, p: Pools, depth: nat, tail: bool)
    ensures es.NoExprs? ==> CompSeq(es, ctx, at, p, depth, tail) == Ok(EmitConst(p, CUnspecified))
    ensures es.More? && es.tail.NoExprs? ==>
      CompSeq(es, ctx, at, p, depth, tail) == CompExpr(es.head, ctx, at, p, depth, tail)
  {
    hide CompExpr, EmitConst;
  }

  /** Every expression but the last, each followed by POP; the last one remains. */
  method CompileDiscarded(b: Body, es: Exprs, ctx: Ctx, depth: nat, ghost tail: bool)
      returns (r: Result<Expr, CompileError>, ghost done: seq<byte>)
    requires es.More?
    modifies b, b.comp
    ensures var whole := CompSeq(es, ctx, |old(b.code)|, old(b.State()), depth, tail);
      if r.Err? then whole == Err(r.error)
      else b.code == old(b.code) + done && r.value < es
           && whole == After(done, CompExpr(r.value, ctx, |b.code|, b.State(), depth, tail))
    decreases es, 0
  {
    hide CompExpr, CompSeq, Enc;
    ghost var start, whole := b.code, CompSeq(es, ctx, |b.code|, b.State(), depth, tail);
    done := [];
    AfterNothing(whole);
    var rest := es;
    while rest.tail.More?
      invariant rest.More? && (rest == es || rest < es)
      invariant b.code == start + done
      invariant whole == After(done, CompSeq(rest, ctx, |b.code|, b.State(), depth, tail))
      decreases rest
    {
      SeqStep(done, rest, ctx, |b.code|, b.State(), depth, tail);
      ghost var a := CompExpr(rest.head, ctx, |b.code|, b.State(), depth, false);
      var _ :- CompileExpr(b, rest.head, ctx, depth, false);
      b.Emit(Pop);
      Group3(start, done, a.value.code, Enc(Pop));
      done := done + a.value.code + Enc(Pop);
      rest := rest.tail;
    }
    SeqEnds(rest, ctx, |b.code|, b.State(), depth, tail);
    r := Ok(rest.head);
  }

  method CompileSequence(b: Body, es: Exprs, ctx: Ctx, depth: nat, tail: bool) returns (r: Done)
    modifies b, b.comp
    ensures Follows(old(b.code), CompSeq(es, ctx, |old(b.code)|, old(b.State()), depth, tail), r, b.code, b.State())
    decreases es, 1
  {
    hide CompExpr, CompSeq, Enc, EmitConst;
    if es.NoExprs? {
      SeqEnds(es, ctx, |b.code|, b.State(), depth, tail);
      b.EmitConst(CUnspecified);
      return Ok(());
    }
    ghost var start := b.code;
    ghost var done;
    var last;
    last, done := CompileDiscarded(b, es, ctx, depth, tail);
    if last.Err? {
      return Err(last.error);
    }
    ghost var spec := CompExpr(last.value, ctx, |b.code|, b.State(), depth, tail);
    r := CompileExpr(b, last.value, ctx, depth, tail);
    if spec.Ok? {
      Group3(start, done, spec.value.code, []);
    }
  }

  method CompileArguments(b: Body, es: Exprs, ctx: Ctx, depth: nat) returns (r: Done)
    modifies b, b.comp
    ensures Follows(old(b.code), CompArgs(es, ctx, |old(b.code)|, old(b.State()), depth), r, b.code, b.State())
    decreases es, 0
  {
    hide CompExpr;
    ghost var start, whole := b.code, CompArgs(es, ctx, |b.code|, b.State(), depth);
    ghost var done: seq<byte> := [];
    AfterNothing(whole);
    var rest := es;
    while rest.More?
      invariant rest == es || rest < es
      invariant b.code == start + done
      invariant whole == After(done, CompArgs(rest, ctx, |b.code|, b.State(), depth))
      decreases rest
    {
      ArgsStep(done, rest, ctx, |b.code|, b.State(), depth);
      ghost var a := CompExpr(rest.head, ctx, |b.code|, b.State(), depth, false);
      var _ :- CompileExpr(b, rest.head, ctx, depth, false);
      done := done + a.value.code;
      rest := rest.tail;
    }
    r := Ok(());
  }

  lemma {:induction false} ArgsStep(done: seq<byte>, es: Exprs, ctx: Ctx, at: nat, p: Pools, depth: nat)
    requires es.More?
    ensures var a := CompExpr(es.head, ctx, at, p, depth, false);
      After(done, CompArgs(es, ctx, at, p, depth))
      == if a.Err? then a else After(done + a.value.code, CompArgs(es.tail, ctx, at + |a.value.code|, a.value.p, depth))
  {
    hide CompExpr;
    var a := CompExpr(es.head, ctx, at, p, depth, false);
    if a.Ok? {
      var rest := CompArgs(es.tail, ctx, at + |a.value.code|, a.value.p, depth);
      if rest.Ok? {
        assert done + (a.value.code + rest.value.code) == done + a.value.code + rest.value.code;
      }
    }
  }

  method CompileCall(b: Body, e: Expr, ctx: Ctx, depth: nat, tail: bool) returns (r: Done)
    requires e.App?
    modifies b, b.comp
    ensures Follows(old(b.code), CompApp(e.f, e.args, ctx, |old(b.code)|, old(b.State()), depth, tail), r, b.code,
      b.State())
    decreases e, 0
  {
    hide CompExpr, CompArgs, Enc, Count;
    ghost var start, p := b.code, b.State();
    ghost var c := CompExpr(e.f, ctx, |start|, p, depth + 1, false);
    var _ :- CompileExpr(b, e.f, ctx, depth + 1, false);
    ghost var a := CompArgs(e.args, ctx, |b.code|, b.State(), depth + 1);
    var _ :- CompileArguments(b, e.args, ctx, depth + 1);
    if Count(e.args) > 255 {
      return Err(TooManyArguments);
    }
    var call := if tail then TailCall(Count(e.args)) else Call(Count(e.args));
    b.Emit(call);
    Group3(start, c.value.code, a.value.code, Enc(call));
    r := Ok(());
  }

  // ----- conditionals with fixed jumps -----

  /** A condition and the jump taken when it is false. */
  method CompileTest(b: Body, test: Expr, ctx: Ctx, depth: nat) returns (r: Result<nat, CompileError>)
    modifies b, b.comp
    ensures var c := CompExpr(test, ctx, |old(b.code)|, old(b.State()), depth, false);
      if c.Err? then r == Err(c.error)
      else r == Ok(|old(b.code) + c.value.code| + 1) && b.code == old(b.code) + c.value.code + JumpOn(true, 0)
           && b.State() == c.value.p
    decreases test, 2
  {
    hide CompExpr, JumpOn;
    var _ :- CompileExpr(b, test, ctx, depth, false);
    var hole := b.EmitJump(true);
    r := Ok(hole);
  }

  /** `els` or, when there is none, the unspecified value. */
  method CompileElse(b: Body, els: Option<Expr>, ctx: Ctx, depth: nat, tail: bool) returns (r: Done)
    modifies b, b.comp
    ensures Follows(old(b.code), CompElse(els, ctx, |old(b.code)|, old(b.State()), depth, tail), r, b.code, b.State())
    decreases els, 2
  {
    hide CompExpr, Enc;
    if els.Some? {
      r := CompileExpr(b, els.value, ctx, depth, tail);
    } else {
      b.EmitConst(CUnspecified);
      r := Ok(());
    }
  }

  /** The code of an `if` placed behind `start`; it fails where its first failing part does. */
  lemma {:induction false} IfAssembled(start: seq<byte>, test: Expr, thn: Expr, els: Option<Expr>, ctx: Ctx, p: Pools,
                                       depth: nat, tail: bool)
    ensures var whole := CompIf(test, thn, els, ctx, |start|, p, depth, tail);
      var c := CompExpr(test, ctx, |start|, p, depth + 1, false);
      (c.Err? ==> whole == c)
      && (c.Ok? ==>
            var t := CompExpr(thn, ctx, |start| + |c.value.code| + 5, c.value.p, depth + 1, tail);
            (t.Err? ==> whole == t)
            && (t.Ok? ==>
                  var elseAt := |start| + |c.value.code| + 5 + |t.value.code| + 5;
                  var e := CompElse(els, ctx, elseAt, t.value.p.(slot := c.value.p.slot), depth + 1, tail);
                  (e.Err? ==> whole == e)
                  && (e.Ok? ==> IfJoined(start, c.value, t.value, e.value, tail, whole))))
  {
    hide BranchTo, JumpTo, CompExpr, CompElse, PadUnlessTail, JumpOn, IfJoined;
    var pieces := IfPieces(test, thn, els, ctx, |start|, p, depth, tail);
    if pieces.Ok? {
      IfGrouped(start, pieces.value.test, pieces.value.thn, pieces.value.els, tail);
    }
  }

  /** Both branches padded to the same slot and joined, behind `before`, which ends in the first of them. */
  function Joined(before: seq<byte>, e: Compile.Emitted, thenMark: u8, tail: bool): Compile.Emitted {
    var target := Max(thenMark, e.p.slot);
    var padElse := PadUnlessTail(e.p, target, tail);
    var padAt := |before| + 5 + |e.code| + |padElse.code| + 5;
    var padThen := PadUnlessTail(padElse.p.(slot := thenMark), target, tail);
    Compile.Emitted(before + JumpOn(false, padAt) + e.code + padElse.code + JumpOn(false, padAt + |padThen.code|)
      + padThen.code,
                    padThen.p)
  }

  ghost predicate IfJoined(start: seq<byte>, c: Compile.Emitted, t: Compile.Emitted, e: Compile.Emitted, tail: bool,
        whole: Compiled) {
    var elseAt := |start| + |c.code| + 5 + |t.code| + 5;
    var j := Joined(start + c.code + JumpOn(true, elseAt) + t.code, e, t.p.slot, tail);
    Follows(start, whole, Ok(()), j.code, j.p)
  }

  lemma {:induction false} IfGrouped(start: seq<byte>, c: Compile.Emitted, t: Compile.Emitted, e: Compile.Emitted,
        tail: bool)
    ensures var elseAt := |start| + |c.code| + 5 + |t.code| + 5;
      var target := Max(t.p.slot, e.p.slot);
      var padElse := PadUnlessTail(e.p, target, tail);
      var padAt := elseAt + |e.code| + |padElse.code| + 5;
      var padThen := PadUnlessTail(padElse.p.(slot := t.p.slot), target, tail);
      IfJoined(start, c, t, e, tail,
               Ok(Compile.Emitted(c.code + BranchTo(elseAt) + t.code + JumpTo(padAt) + e.code + padElse.code
                                  + JumpTo(padAt + |padThen.code|) + padThen.code, padThen.p)))
  {
    hide Max;
    hide BranchTo, JumpTo, PadUnlessTail;
    var elseAt := |start| + |c.code| + 5 + |t.code| + 5;
    var target := Max(t.p.slot, e.p.slot);
    var padElse := PadUnlessTail(e.p, target, tail);
    var padAt := elseAt + |e.code| + |padElse.code| + 5;
    var padThen := PadUnlessTail(padElse.p.(slot := t.p.slot), target, tail);
    Group8(start, c.code, BranchTo(elseAt), t.code, JumpTo(padAt), e.code, padElse.code, JumpTo(padAt + |padThen.code|),
      padThen.code);
  }

  /**
   Ends an `if` whose branches have been emitted: pads the branch without code after
   it, patches the jump of the other one to its own padding, and joins the two.
   */
  method JoinBranches(b: Body, thenJump: nat, thenMark: u8, tail: bool, ghost before: seq<byte>, ghost els: seq<byte>)
    requires thenJump == |before| + 1 && b.code == before + JumpOn(false, 0) + els
    modifies b
    ensures var j := Joined(before, Compile.Emitted(els, old(b.State())), thenMark, tail);
      b.code == j.code && b.State() == j.p
  {
    hide Compile.PadUnlessTail, JumpOn, PatchAt;
    ghost var p := b.State();
    var target := Max(thenMark, b.nextSlot);
    ghost var padElse := Compile.PadUnlessTail(p, target, tail);
    ghost var padThen := Compile.PadUnlessTail(padElse.p.(slot := thenMark), target, tail);
    b.PadUnlessTail(target, tail);
    var doneJump := b.EmitJump(false);
    ghost var padAt := |b.code|;
    HoleFilled3(before, false, els, padElse.code, JumpOn(false, 0), padAt);
    b.PatchJump(thenJump);
    b.nextSlot := thenMark;
    b.PadUnlessTail(target, tail);
    HoleFilled(before + JumpOn(false, padAt) + els + padElse.code, false, padThen.code, |b.code|);
    b.PatchJump(doneJump);
    if !tail {
      b.nextSlot := target;
    }
  }

  /** The slot marks after the condition and after the branch, and the jump that ends the branch. */
  datatype Branch = Branch(mark: u8, thenMark: u8, thenJump: nat)

  /** Ends a branch with a jump to nowhere yet, and makes the condition's jump lead past it. */
  method EndBranch(b: Body, elseJump: nat, ghost before: seq<byte>, ghost branch: seq<byte>) returns (hole: nat)
    requires b.code == before + JumpOn(true, 0) + branch && elseJump == |before| + 1
    modifies b
    ensures hole == |before| + 5 + |branch| + 1 && b.State() == old(b.State())
    ensures b.code == before + JumpOn(true, |before| + 5 + |branch| + 5) + branch + JumpOn(false, 0)
  {
    hide JumpOn, PatchAt;
    hole := b.EmitJump(false);
    HoleFilled2(before, true, branch, JumpOn(false, 0), |b.code|);
    b.PatchJump(elseJump);
  }

  predicate Branched(before: seq<byte>, c: Compiled, t: Compiled, r: Result<Branch, CompileError>, after: seq<byte>,
        p: Pools) {
    if c.Err? then r == Err(c.error)
    else if t.Err? then r == Err(t.error)
    else
      var elseAt := |before| + |c.value.code| + 5 + |t.value.code| + 5;
      after == before + c.value.code + JumpOn(true, elseAt) + t.value.code + JumpOn(false, 0) && p == t.value.p
      && r == Ok(Branch(c.value.p.slot, p.slot, elseAt - 4))
  }

  /** The condition and the branch taken when it holds, up to where the other branch begins. */
  method CompileBranch(b: Body, e: Expr, ctx: Ctx, depth: nat, tail: bool) returns (r: Result<Branch, CompileError>)
    requires e.If?
    modifies b, b.comp
    ensures var c := CompExpr(e.test, ctx, |old(b.code)|, old(b.State()), depth, false);
      var t := if c.Err? then c else CompExpr(e.thn, ctx, |old(b.code)| + |c.value.code| + 5, c.value.p, depth, tail);
      Branched(old(b.code), c, t, r, b.code, b.State())
    decreases e, 0, 0
  {
    hide CompExpr, JumpOn;
    ghost var start := b.code;
    ghost var c := CompExpr(e.test, ctx, |start|, b.State(), depth, false);
    var elseJump :- CompileTest(b, e.test, ctx, depth);
    var mark := b.nextSlot;
    ghost var t := CompExpr(e.thn, ctx, |b.code|, b.State(), depth, tail);
    var _ :- CompileExpr(b, e.thn, ctx, depth, tail);
    var thenMark := b.nextSlot;
    var thenJump := EndBranch(b, elseJump, start + c.value.code, t.value.code);
    r := Ok(Branch(mark, thenMark, thenJump));
  }

  /** The other branch, and the join of the two. */
  method CompileAlternative(b: Body, els: Option<Expr>, ctx: Ctx, depth: nat, tail: bool, branch: Branch,
        ghost before: seq<byte>)
      returns (r: Done)
    requires branch.thenJump == |before| + 1 && b.code == before + JumpOn(false, 0)
    modifies b, b.comp
    ensures var e := CompElse(els, ctx, |old(b.code)|, old(b.State()).(slot := branch.mark), depth, tail);
      if e.Err? then r == Err(e.error)
      else
        var j := Joined(before, e.value, branch.thenMark, tail);
        r.Ok? && b.code == j.code && b.State() == j.p
    decreases els, 3
  {
    hide CompElse, JumpOn, Joined;
    b.nextSlot := branch.mark;
    ghost var e := CompElse(els, ctx, |b.code|, b.State(), depth, tail);
    r := CompileElse(b, els, ctx, depth, tail);
    if r.Ok? {
      assert Compile.Emitted(e.value.code, e.value.p) == e.value;
      JoinBranches(b, branch.thenJump, branch.thenMark, tail, before, e.value.code);
    }
  }

  method CompileIf(b: Body, e: Expr, ctx: Ctx, depth: nat, tail: bool) returns (r: Done)
    requires e.If?
    modifies b, b.comp
    ensures Follows(old(b.code), CompIf(e.test, e.thn, e.els, ctx, |old(b.code)|, old(b.State()), depth, tail), r,
      b.code, b.State())
    decreases e, 0
  {
    hide CompExpr, CompElse, CompIf, IfPieces, JumpOn, Joined;
    ghost var start, p := b.code, b.State();
    IfAssembled(start, e.test, e.thn, e.els, ctx, p, depth, tail);
    var branch :- CompileBranch(b, e, ctx, depth + 1, tail);
    ghost var c := CompExpr(e.test, ctx, |start|, p, depth + 1, false).value;
    ghost var t := CompExpr(e.thn, ctx, |start| + |c.code| + 5, c.p, depth + 1, tail).value;
    ghost var elseAt := |start| + |c.code| + 5 + |t.code| + 5;
    r := CompileAlternative(b, e.els, ctx, depth + 1, tail, branch, start + c.code + JumpOn(true, elseAt) + t.code);
  }

  lemma {:induction false} WhenAssembled(start: seq<byte>, test: Expr, body: Exprs, ctx: Ctx, p: Pools, depth: nat,
        tail: bool)
    ensures var whole := CompWhen(test, body, ctx, |start|, p, depth, tail);
      var t := CompExpr(test, ctx, |start|, p, depth + 1, false);
      (t.Err? ==> whole == t)
      && (t.Ok? ==>
            var w := CompSeq(body, ctx, |start| + |t.value.code| + 5, t.value.p, depth + 1, tail);
            (w.Err? ==> whole == w) && (w.Ok? ==> WhenJoined(start, t.value, w.value, whole)))
  {
    hide BranchTo, JumpTo, CompExpr, CompSeq, EmitConst, WhenJoined;
    var t := CompExpr(test, ctx, |start|, p, depth + 1, false);
    if t.Ok? {
      var w := CompSeq(body, ctx, |start| + |t.value.code| + 5, t.value.p, depth + 1, tail);
      if w.Ok? {
        WhenGrouped(start, t.value, w.value);
      }
    }
  }

  ghost predicate WhenJoined(start: seq<byte>, t: Compile.Emitted, w: Compile.Emitted, whole: Compiled) {
    var elseAt := |start| + |t.code| + 5 + |w.code| + 5;
    var u := EmitConst(w.p, CUnspecified);
    Follows(start, whole, Ok(()),
            start + t.code + JumpOn(true, elseAt) + w.code + JumpOn(false, elseAt + 5) + u.code, u.p)
  }

  lemma {:induction false} WhenGrouped(start: seq<byte>, t: Compile.Emitted, w: Compile.Emitted)
    ensures var elseAt := |start| + |t.code| + 5 + |w.code| + 5;
      var u := EmitConst(w.p, CUnspecified);
      WhenJoined(start, t, w, Ok(Compile.Emitted(t.code + BranchTo(elseAt) + w.code + JumpTo(elseAt + 5)
        + u.code, u.p)))
  {
    hide BranchTo, JumpTo, EmitConst;
    var elseAt := |start| + |t.code| + 5 + |w.code| + 5;
    Group5(start, t.code, BranchTo(elseAt), w.code, JumpTo(elseAt + 5), EmitConst(w.p, CUnspecified).code);
  }

  method CompileWhen(b: Body, e: Expr, ctx: Ctx, depth: nat, tail: bool) returns (r: Done)
    requires e.When?
    modifies b, b.comp
    ensures Follows(old(b.code), CompWhen(e.test, e.body, ctx, |old(b.code)|, old(b.State()), depth, tail), r, b.code,
      b.State())
    decreases e, 0
  {
    hide CompExpr, CompSeq, CompWhen, EmitConst, JumpOn, PatchAt;
    ghost var start, p := b.code, b.State();
    WhenAssembled(start, e.test, e.body, ctx, p, depth, tail);
    var elseJump :- CompileTest(b, e.test, ctx, depth + 1);
    ghost var t := CompExpr(e.test, ctx, |start|, p, depth + 1, false).value;
    var _ :- CompileSequence(b, e.body, ctx, depth + 1, tail);
    ghost var w := CompSeq(e.body, ctx, |start| + |t.code| + 5, t.p, depth + 1, tail).value;
    ghost var elseAt := |start| + |t.code| + 5 + |w.code| + 5;
    var endJump := EndBranch(b, elseJump, start + t.code, w.code);
    b.EmitConst(CUnspecified);
    ghost var u := EmitConst(w.p, CUnspecified);
    HoleFilled(start + t.code + JumpOn(true, elseAt) + w.code, false, u.code, elseAt + 5);
    b.PatchJump(endJump);
    r := Ok(());
  }

  lemma {:induction false} UnlessAssembled(start: seq<byte>, test: Expr, body: Exprs, ctx: Ctx, p: Pools, depth: nat,
        tail: bool)
    ensures var whole := CompUnless(test, body, ctx, |start|, p, depth, tail);
      var t := CompExpr(test, ctx, |start|, p, depth + 1, false);
      (t.Err? ==> whole == t)
      && (t.Ok? ==>
            var u := EmitConst(t.value.p, CUnspecified);
            var w := CompSeq(body, ctx, |start| + |t.value.code| + 15, u.p, depth + 1, tail);
            (w.Err? ==> whole == w) && (w.Ok? ==> UnlessJoined(start, t.value, w.value, whole)))
  {
    hide BranchTo, JumpTo, CompExpr, CompSeq, EmitConst, UnlessJoined;
    var t := CompExpr(test, ctx, |start|, p, depth + 1, false);
    if t.Ok? {
      var w := CompSeq(body, ctx, |start| + |t.value.code| + 15, EmitConst(t.value.p, CUnspecified).p, depth + 1, tail);
      if w.Ok? {
        UnlessGrouped(start, t.value, w.value);
      }
    }
  }

  ghost predicate UnlessJoined(start: seq<byte>, t: Compile.Emitted, w: Compile.Emitted, whole: Compiled) {
    var bodyAt := |start| + |t.code| + 15;
    Follows(start, whole, Ok(()),
            start + t.code + JumpOn(true, bodyAt) + EmitConst(t.p, CUnspecified).code + JumpOn(false, bodyAt + |w.code|)
              + w.code, w.p)
  }

  lemma {:induction false} UnlessGrouped(start: seq<byte>, t: Compile.Emitted, w: Compile.Emitted)
    ensures var bodyAt := |start| + |t.code| + 15;
      var u := EmitConst(t.p, CUnspecified);
      UnlessJoined(start, t, w,
                   Ok(Compile.Emitted(t.code + BranchTo(bodyAt) + u.code + JumpTo(bodyAt + |w.code|) + w.code, w.p)))
  {
    hide BranchTo, JumpTo, EmitConst;
    var bodyAt := |start| + |t.code| + 15;
    Group5(start, t.code, BranchTo(bodyAt), EmitConst(t.p, CUnspecified).code, JumpTo(bodyAt + |w.code|), w.code);
  }

  method CompileUnless(b: Body, e: Expr, ctx: Ctx, depth: nat, tail: bool) returns (r: Done)
    requires e.Unless?
    modifies b, b.comp
    ensures Follows(old(b.code), CompUnless(e.test, e.body, ctx, |old(b.code)|, old(b.State()), depth, tail), r, b.code,
      b.State())
    decreases e, 0
  {
    hide CompExpr, CompSeq, CompUnless, EmitConst, JumpOn, PatchAt;
    ghost var start, p := b.code, b.State();
    UnlessAssembled(start, e.test, e.body, ctx, p, depth, tail);
    var runJump :- CompileTest(b, e.test, ctx, depth + 1);
    ghost var t := CompExpr(e.test, ctx, |start|, p, depth + 1, false).value;
    b.EmitConst(CUnspecified);
    ghost var u := EmitConst(t.p, CUnspecified);
    var endJump := b.EmitJump(false);
    ghost var bodyAt := |start| + |t.code| + 15;
    HoleFilled2(start + t.code, true, u.code, JumpOn(false, 0), bodyAt);
    b.PatchJump(runJump);
    var _ :- CompileSequence(b, e.body, ctx, depth + 1, tail);
    ghost var w := CompSeq(e.body, ctx, bodyAt, u.p, depth + 1, tail).value;
    HoleFilled(start + t.code + JumpOn(true, bodyAt) + u.code, false, w.code, |b.code|);
    b.PatchJump(endJump);
    r := Ok(());
  }

  // ----- and / or -----

  /** `and` (or `or`) over at least one operand. */
  function CompChain(or: bool, es: Exprs, ctx: Ctx, at: nat, p: Pools, depth: nat, tail: bool): Compiled
    requires es.More?
  {
    var (parts, q) :- CompParts(es, ctx, at, p, depth, tail, GapLen(or));
    Ok(Compile.Emitted(Glue(or, parts, at, at + GluedLen(parts, GapLen(or))), q))
  }

  type Operands = Result<(seq<seq<byte>>, Pools), CompileError>

  function Behind(parts: seq<seq<byte>>, rest: Operands): Operands {
    if rest.Ok? then Ok((parts + rest.value.0, rest.value.1)) else rest
  }

  lemma {:induction false} OperandStep(parts: seq<seq<byte>>, es: Exprs, ctx: Ctx, at: nat, p: Pools, depth: nat,
        tail: bool, gap: nat)
    requires es.More?
    ensures var whole := Behind(parts, CompParts(es, ctx, at, p, depth, tail, gap));
      var a := CompExpr(es.head, ctx, at, p, depth, if es.tail.More? then false else tail);
      if a.Err? then whole == Err(a.error)
      else if es.tail.NoExprs? then whole == Ok((parts + [a.value.code], a.value.p))
      else whole == Behind(parts + [a.value.code],
                           CompParts(es.tail, ctx, at + |a.value.code| + gap, a.value.p, depth, tail, gap))
  {
    hide CompExpr;
    var a := CompExpr(es.head, ctx, at, p, depth, if es.tail.More? then false else tail);
    if a.Ok? && es.tail.More? {
      var rest := CompParts(es.tail, ctx, at + |a.value.code| + gap, a.value.p, depth, tail, gap);
      if rest.Ok? {
        assert parts + ([a.value.code] + rest.value.0) == parts + [a.value.code] + rest.value.0;
      }
    }
  }

  lemma {:induction false} BehindNothing(rest: Operands)
    ensures Behind([], rest) == rest
  {
    if rest.Ok? {
      assert [] + rest.value.0 == rest.value.0;
    }
  }

  /** Keeps the operand when it decides the result, and drops it when it does not. */
  method EmitGap(b: Body, or: bool) returns (hole: nat)
    modifies b
    ensures b.code == old(b.code) + Gap(or, |old(b.code)|, 0) && b.State() == old(b.State())
    ensures hole == |old(b.code)| + |Lead(or, |old(b.code)|)| + 1
  {
    hide Enc, JumpTo, BranchTo, PatchAt;
    ghost var start := b.code;
    b.Emit(Dup);
    if or {
      var falsy := b.EmitJump(true);
      hole := b.EmitJump(false);
      HoleFilled(start + Enc(Dup), true, JumpOn(false, 0), |b.code|);
      b.PatchJump(falsy);
    } else {
      hole := b.EmitJump(true);
    }
    b.Emit(Pop);
    Group5(start, Enc(Dup), if or then BranchTo(|start| + 11) else [], JumpOn(!or, 0), Enc(Pop), []);
  }

  method CompileChain(b: Body, or: bool, es: Exprs, ctx: Ctx, depth: nat, tail: bool) returns (r: Done)
    requires es.More?
    modifies b, b.comp
    ensures Follows(old(b.code), CompChain(or, es, ctx, |old(b.code)|, old(b.State()), depth, tail), r, b.code,
      b.State())
    decreases es, 0
  {
    hide CompExpr, CompParts, Gap, Lead, Chained, Holes, PatchEach, Glue, GapLen, GluedLen, ChainedLen, CompSeq;
    ghost var start, p := b.code, b.State();
    ghost var whole := CompParts(es, ctx, |start|, p, depth, tail, GapLen(or));
    ghost var parts: seq<seq<byte>> := [];
    BehindNothing(whole);
    ChainEmpty(or, |start|, 0);
    var rest, endJumps: seq<nat> := es, [];
    while rest.tail.More?
      invariant rest.More? && (rest == es || rest < es)
      invariant b.code == start + Chained(or, |start|, parts, 0)
      invariant endJumps == Holes(or, |start|, parts)
      invariant whole == Behind(parts, CompParts(rest, ctx, |b.code|, b.State(), depth, tail, GapLen(or)))
      decreases rest
    {
      OperandStep(parts, rest, ctx, |b.code|, b.State(), depth, tail, GapLen(or));
      ghost var a := CompExpr(rest.head, ctx, |b.code|, b.State(), depth, false);
      ghost var before := Chained(or, |start|, parts, 0);
      var _ :- CompileExpr(b, rest.head, ctx, depth, false);
      ghost var x := a.value.code;
      var hole := EmitGap(b, or);
      ChainedSnoc(or, |start|, parts, x, 0);
      HolesSnoc(or, |start|, parts, x);
      Group3(start, before, x, Gap(or, |start| + ChainedLen(or, parts) + |x|, 0));
      endJumps := endJumps + [hole];
      parts := parts + [x];
      rest := rest.tail;
    }
    OperandStep(parts, rest, ctx, |b.code|, b.State(), depth, tail, GapLen(or));
    ghost var a := CompExpr(rest.head, ctx, |b.code|, b.State(), depth, tail);
    var _ :- CompileExpr(b, rest.head, ctx, depth, tail);
    ghost var last, end := a.value.code, |b.code|;
    ChainPatched(or, start, parts, last, end);
    b.PatchJumps(endJumps);
    GlueSnoc(or, |start|, parts, last, end);
    Group3(start, Chained(or, |start|, parts, end), last, []);
    r := Ok(());
  }

  method CompileAnd(b: Body, es: Exprs, ctx: Ctx, depth: nat, tail: bool) returns (r: Done)
    modifies b, b.comp
    ensures Follows(old(b.code), CompAnd(es, ctx, |old(b.code)|, old(b.State()), depth, tail), r, b.code, b.State())
    decreases es, 1
  {
    hide CompParts, GlueAnd, GluedLen, EmitConst;
    if es.NoExprs? {
      b.EmitConst(CBool(true));
      return Ok(());
    }
    r := CompileChain(b, false, es, ctx, depth + 1, tail);
  }

  method CompileOr(b: Body, es: Exprs, ctx: Ctx, depth: nat, tail: bool) returns (r: Done)
    modifies b, b.comp
    ensures Follows(old(b.code), CompOr(es, ctx, |old(b.code)|, old(b.State()), depth, tail), r, b.code, b.State())
    decreases es, 1
  {
    hide CompParts, GlueOr, GluedLen, EmitConst;
    if es.NoExprs? {
      b.EmitConst(CBool(false));
      return Ok(());
    }
    r := CompileChain(b, true, es, ctx, depth + 1, tail);
  }

  // ----- bindings and functions -----

  type Bound = Result<(seq<byte>, Pools, Ctx), CompileError>

  function AfterBindings(done: seq<byte>, rest: Bound): Bound {
    if rest.Ok? then Ok((done + rest.value.0, rest.value.1, rest.value.2)) else rest
  }

  lemma {:induction false} BindingStep(done: seq<byte>, bs: Bindings, ctx: Ctx, ext: Ctx, at: nat, p: Pools, depth: nat,
        star: bool)
    ensures var whole := AfterBindings(done, CompBindings(bs, ctx, ext, at, p, depth, star));
      if bs.NoBindings? then whole == Ok((done, p, ext))
      else
        var a := CompExpr(bs.init, if star then ext else ctx, at, p, depth, false);
        if a.Err? then whole == Err(a.error)
        else
          var d := Declare(ext.locals, bs.x, a.value.p.slot);
          if d.Err? then whole == Err(d.error)
          else whole == AfterBindings(done + a.value.code + Enc(PushLocal),
                                      CompBindings(bs.rest, ctx, ext.(locals := d.value.0), at + |a.value.code| + 1,
                                                   a.value.p.(slot := d.value.1), depth, star))
  {
    hide CompExpr, Declare, Enc;
    if bs.NoBindings? {
      assert done + [] == done;
    } else {
      var a := CompExpr(bs.init, if star then ext else ctx, at, p, depth, false);
      if a.Ok? && Declare(ext.locals, bs.x, a.value.p.slot).Ok? {
        var d := Declare(ext.locals, bs.x, a.value.p.slot).value;
        var rest := CompBindings(bs.rest, ctx, ext.(locals := d.0), at + |a.value.code|
          + 1, a.value.p.(slot := d.1), depth, star);
        if rest.Ok? {
          Group3(done, a.value.code, Enc(PushLocal), rest.value.0);
        }
      }
    }
  }

  lemma {:induction false} AfterNoBindings(rest: Bound)
    ensures AfterBindings([], rest) == rest
  {
    if rest.Ok? {
      assert [] + rest.value.0 == rest.value.0;
    }
  }

  method CompileBindings(b: Body, bs: Bindings, ctx: Ctx, depth: nat, star: bool) returns (r: Result<Ctx, CompileError>)
    modifies b, b.comp
    ensures var spec := CompBindings(bs, ctx, ctx, |old(b.code)|, old(b.State()), depth, star);
      if spec.Err? then r == Err(spec.error)
      else r == Ok(spec.value.2) && b.code == old(b.code) + spec.value.0 && b.State() == spec.value.1
    decreases bs, 0
  {
    hide CompExpr, CompBindings, Compile.Declare, Enc;
    ghost var start, whole := b.code, CompBindings(bs, ctx, ctx, |b.code|, b.State(), depth, star);
    ghost var done: seq<byte> := [];
    AfterNoBindings(whole);
    var rest, extended := bs, ctx;
    while rest.Bind?
      invariant rest == bs || rest < bs
      invariant b.code == start + done
      invariant whole == AfterBindings(done, CompBindings(rest, ctx, extended, |b.code|, b.State(), depth, star))
      decreases rest
    {
      BindingStep(done, rest, ctx, extended, |b.code|, b.State(), depth, star);
      ghost var a := CompExpr(rest.init, if star then extended else ctx, |b.code|, b.State(), depth, false);
      var _ :- CompileExpr(b, rest.init, if star then extended else ctx, depth, false);
      b.Emit(PushLocal);
      extended :- b.Declare(rest.x, extended);
      Group3(start, done, a.value.code, Enc(PushLocal));
      done := done + a.value.code + Enc(PushLocal);
      rest := rest.rest;
    }
    BindingStep(done, rest, ctx, extended, |b.code|, b.State(), depth, star);
    r := Ok(extended);
  }

  method CompileLet(b: Body, e: Expr, ctx: Ctx, depth: nat, tail: bool) returns (r: Done)
    requires e.Let? || e.LetStar?
    modifies b, b.comp
    ensures Follows(old(b.code), CompLet(e.bs, e.body, ctx, |old(b.code)|, old(b.State()), depth, tail, e.LetStar?), r,
      b.code, b.State())
    decreases e, 0
  {
    hide CompBindings, CompSeq;
    ghost var start, p := b.code, b.State();
    var extended :- CompileBindings(b, e.bs, ctx, depth + 1, e.LetStar?);
    ghost var c := CompBindings(e.bs, ctx, ctx, |start|, p, depth + 1, e.LetStar?).value;
    var _ :- CompileSequence(b, e.body, extended, depth + 1, tail);
    Group3(start, c.0, CompSeq(e.body, extended, |start| + |c.0|, c.1, depth + 1, tail).value.code, []);
    r := Ok(());
  }

  lemma {:induction false} DeclareStep(locals: Locals, names: seq<string>, i: nat, slot: u8)
    requires i < |names|
    ensures var d := Compile.Declare(locals, names[i], slot);
      DeclareAll(locals, names[i..], slot)
      == if d.Err? then Err(d.error) else DeclareAll(d.value.0, names[i + 1..], d.value.1)
  {
    assert names[i..][1..] == names[i + 1..];
  }

  method CompileFunction(b: Body, formals: Formals, body: Exprs, ctx: Ctx, depth: nat, name: Option<string>)
      returns (r: Result<u32, CompileError>)
    modifies b.comp
    ensures var f := CompFunction(formals, body, ctx, old(b.comp.functions), depth, name);
      if f.Err? then r == Err(f.error) else r == Ok(f.value.0) && b.comp.functions == f.value.1
    decreases body, 2
  {
    hide CompSeq, Compile.Declare, Enc, DeclareAll;
    var names := formals.Names();
    var inner := new Body(b.comp);
    var own := Compile.Ctx([], Some(ctx));
    ghost var declared := DeclareAll([], names, 0);
    assert names[0..] == names;
    for i := 0 to |names|
      invariant own.parent == Some(ctx) && inner.code == [] && inner.consts == []
        && b.comp.functions == old(b.comp.functions)
      invariant declared == DeclareAll(own.locals, names[i..], inner.nextSlot)
    {
      DeclareStep(own.locals, names, i, inner.nextSlot);
      own :- inner.Declare(names[i], own);
    }
    DeclareNone(own.locals, inner.nextSlot);
    assert names[|names|..] == [];
    ghost var spec := CompSeq(body, own, 0, inner.State(), depth + 1, true);
    var _ :- CompileSequence(inner, body, own, depth + 1, true);
    assert inner.code == spec.value.code;
    inner.Emit(Return);
    r := Ok(AsU32(|b.comp.functions|));
    b.comp.functions := b.comp.functions
      + [Chunk(inner.code, inner.consts, |formals.params|, formals.rest.Some?, name)];
  }

  lemma {:induction false} DeclareNone(locals: Locals, slot: u8)
    ensures DeclareAll(locals, [], slot) == Ok((locals, slot))
  {
  }

  // ----- cond / case -----

  type OnePart = Result<(Part, Pools), CompileError>

  /** What a clause method reports: where its final jump's operand is, and how many slots it used. */
  type Clause1 = Result<(nat, u8), CompileError>

  predicate Adds(before: seq<byte>, spec: OnePart, r: Clause1, after: seq<byte>, p: Pools) {
    if spec.Err? then r == Err(spec.error)
    else
      var x := spec.value.0;
      r == Ok((|before| + |x.pre| + 1, x.needs)) && after == before + Piece(x, 0) && p == spec.value.1
  }

  function BehindParts(parts: seq<Part>, rest: Parts): Parts {
    if rest.Ok? then Ok((parts + rest.value.0, rest.value.1)) else rest
  }

  lemma {:induction false} BehindNoParts(rest: Parts)
    ensures BehindParts([], rest) == rest
  {
    if rest.Ok? {
      assert [] + rest.value.0 == rest.value.0;
    }
  }

  function TestPart(ts: Tests, ctx: Ctx, at: nat, p: Pools, mark: u8, depth: nat, tail: bool): (r: OnePart)
    requires ts.Test? && mark <= p.slot
    ensures r.Ok? ==> Grown(p, r.value.1) && mark + r.value.0.needs < 256
  {
    var t :- CompExpr(ts.test, ctx, at, p, depth, false);
    var w :- CompSeq(ts.body, ctx, at + |t.code| + 5, t.p, depth, tail);
    Ok((Part(t.code + BranchTo(at + |t.code| + 5 + |w.code| + 5) + w.code, [], w.p.slot - mark), w.p))
  }

  function ArrowPart(ts: Tests, ctx: Ctx, at: nat, p: Pools, mark: u8, depth: nat, tail: bool): (r: OnePart)
    requires ts.Arrow? && mark <= p.slot
    ensures r.Ok? ==> Grown(p, r.value.1) && mark + r.value.0.needs < 256
  {
    var t :- CompExpr(ts.test, ctx, at, p, depth, false);
    var f :- CompExpr(ts.receiver, ctx, at + |t.code| + 6, t.p, depth, false);
    var call := Enc(Swap) + Enc(if tail then TailCall(1) else Call(1));
    var skip := at + |t.code| + 6 + |f.code| + 3 + 5;
    Ok((Part(t.code + (Enc(Dup) + BranchTo(skip)) + f.code + call, Enc(Pop), f.p.slot - mark), f.p))
  }

  function ElsePart(body: Exprs, ctx: Ctx, at: nat, p: Pools, mark: u8, depth: nat, tail: bool,
        discard: bool): (r: OnePart)
    requires mark <= p.slot
    ensures r.Ok? ==> Grown(p, r.value.1) && mark + r.value.0.needs < 256
  {
    var lead := if discard then Enc(Pop) else [];
    var w :- CompSeq(body, ctx, at + |lead|, p, depth, tail);
    Ok((Part(lead + w.code, [], w.p.slot - mark), w.p))
  }

  method CompileElseClause(b: Body, body: Exprs, ctx: Ctx, mark: u8, depth: nat, tail: bool, discard: bool)
        returns (r: Clause1)
    requires mark <= b.nextSlot
    modifies b, b.comp
    ensures Adds(old(b.code), ElsePart(body, ctx, |old(b.code)|, old(b.State()), mark, depth, tail, discard), r, b.code,
      b.State())
    decreases body, 2
  {
    hide CompSeq, Enc, JumpOn;
    ghost var start, p := b.code, b.State();
    ghost var lead := if discard then Enc(Pop) else [];
    if discard {
      b.Emit(Pop);
    }
    assert b.code == start + lead;
    var _ :- CompileSequence(b, body, ctx, depth, tail);
    ghost var w := CompSeq(body, ctx, |start| + |lead|, p, depth, tail).value;
    var needs := b.nextSlot - mark;
    var hole := b.EmitJump(false);
    Group5(start, lead, w.code, JumpOn(false, 0), [], []);
    r := Ok((hole, needs));
  }

  method CompileTestClause(b: Body, ts: Tests, ctx: Ctx, mark: u8, depth: nat, tail: bool) returns (r: Clause1)
    requires ts.Test? && mark <= b.nextSlot
    modifies b, b.comp
    ensures Adds(old(b.code), TestPart(ts, ctx, |old(b.code)|, old(b.State()), mark, depth, tail), r, b.code, b.State())
    decreases ts, 0
  {
    hide CompSeq, CompExpr, JumpOn, PatchAt, Piece;
    ghost var start, p := b.code, b.State();
    var skip :- CompileTest(b, ts.test, ctx, depth);
    ghost var t := CompExpr(ts.test, ctx, |start|, p, depth, false).value;
    var _ :- CompileSequence(b, ts.body, ctx, depth, tail);
    ghost var w := CompSeq(ts.body, ctx, |start| + |t.code| + 5, t.p, depth, tail).value;
    var needs := b.nextSlot - mark;
    ghost var end := |b.code| + 5;
    var hole := EndBranch(b, skip, start + t.code, w.code);
    TestGrouped(start, t.code, end, w.code, needs);
    r := Ok((hole, needs));
  }

  method CompileArrowClause(b: Body, ts: Tests, ctx: Ctx, mark: u8, depth: nat, tail: bool) returns (r: Clause1)
    requires ts.Arrow? && mark <= b.nextSlot
    modifies b, b.comp
    ensures Adds(old(b.code), ArrowPart(ts, ctx, |old(b.code)|, old(b.State()), mark, depth, tail), r, b.code,
      b.State())
    decreases ts, 0
  {
    hide CompSeq, CompExpr, JumpOn, PatchAt, Piece, Enc;
    ghost var start, p := b.code, b.State();
    var _ :- CompileExpr(b, ts.test, ctx, depth, false);
    ghost var t := CompExpr(ts.test, ctx, |start|, p, depth, false).value;
    b.Emit(Dup);
    var skip := b.EmitJump(true);
    var jump :- CompileReceiver(b, ts.receiver, ctx, mark, depth, tail);
    ghost var f := CompExpr(ts.receiver, ctx, |start| + |t.code| + 6, t.p, depth, false).value;
    ghost var end := |b.code|;
    ghost var call := if tail then TailCall(1) else Call(1);
    HoleFilled(start + t.code + Enc(Dup), true, f.code + Enc(Swap) + Enc(call) + JumpOn(false, 0), end);
    b.PatchJump(skip);
    b.Emit(Pop);
    ArrowGrouped(start, t.code, end, f.code, call, jump.1);
    r := Ok(jump);
  }

  /** The receiver of `=>`, its call on the value of the test, and the clause's final jump. */
  method CompileReceiver(b: Body, receiver: Expr, ctx: Ctx, mark: u8, depth: nat, tail: bool) returns (r: Clause1)
    requires mark <= b.nextSlot
    modifies b, b.comp
    ensures var f := CompExpr(receiver, ctx, |old(b.code)|, old(b.State()), depth, false);
      if f.Err? then r == Err(f.error)
      else
        b.code == old(b.code) + (f.value.code + Enc(Swap) + Enc(if tail then TailCall(1) else Call(1))
          + JumpOn(false, 0))
        && b.State() == f.value.p && r == Ok((|b.code| - 4, f.value.p.slot - mark))
    decreases receiver, 2
  {
    hide CompExpr, JumpOn, Enc;
    ghost var start := b.code;
    ghost var f := CompExpr(receiver, ctx, |b.code|, b.State(), depth, false);
    var _ :- CompileExpr(b, receiver, ctx, depth, false);
    b.Emit(Swap);
    b.Emit(if tail then TailCall(1) else Call(1));
    var needs := b.nextSlot - mark;
    var hole := b.EmitJump(false);
    Group5(start, f.value.code, Enc(Swap), Enc(if tail then TailCall(1) else Call(1)), JumpOn(false, 0), []);
    r := Ok((hole, needs));
  }

  lemma {:induction false} ArrowGrouped(start: seq<byte>, t: seq<byte>, end: nat, f: seq<byte>, call: Instr, needs: u8)
    ensures start + t + Enc(Dup) + JumpOn(true, end) + (f + Enc(Swap) + Enc(call) + JumpOn(false, 0)) + Enc(Pop)
      == start + Piece(Part(t + (Enc(Dup) + BranchTo(end)) + f + (Enc(Swap) + Enc(call)), Enc(Pop), needs), 0)
  {
    hide BranchTo, JumpTo, Enc;
  }

  lemma {:induction false} TestGrouped(start: seq<byte>, t: seq<byte>, end: nat, w: seq<byte>, needs: u8)
    ensures start + t + JumpOn(true, end) + w + JumpOn(false, 0)
      == start + Piece(Part(t + BranchTo(end) + w, [], needs), 0)
  {
    hide BranchTo, JumpTo;
    Group5(start, t, BranchTo(end), w, JumpTo(0), []);
  }
  /** The next clause of a `cond`. */
  function NextTest(ts: Tests, ctx: Ctx, at: nat, p: Pools, mark: u8, depth: nat, tail: bool): (r: OnePart)
    requires (ts.Test? || ts.Arrow?) && mark <= p.slot
    ensures r.Ok? ==> Grown(p, r.value.1) && mark + r.value.0.needs < 256
  {
    if ts.Test? then TestPart(ts, ctx, at, p, mark, depth, tail) else ArrowPart(ts, ctx, at, p, mark, depth, tail)
  }

  function FirstOf(one: OnePart, rest: Parts): Parts {
    if one.Err? then Err(one.error)
    else if rest.Err? then rest
    else Ok(([one.value.0] + rest.value.0, rest.value.1))
  }

  lemma {:induction false} TestUnfold(ts: Tests, ctx: Ctx, at: nat, p: Pools, mark: u8, depth: nat, tail: bool)
    requires ts.Test? && mark <= p.slot
    ensures var one := TestPart(ts, ctx, at, p.(slot := mark), mark, depth + 1, tail);
      var rest := if one.Err? then Err(one.error)
                  else CompTests(ts.rest, ctx, at + |Piece(one.value.0, 0)|, one.value.1, mark, depth, tail);
      CompTests(ts, ctx, at, p, mark, depth, tail) == FirstOf(one, rest)
  {
    hide CompExpr, CompSeq, BranchTo, JumpTo;
  }

  lemma {:induction false} ArrowUnfold(ts: Tests, ctx: Ctx, at: nat, p: Pools, mark: u8, depth: nat, tail: bool)
    requires ts.Arrow? && mark <= p.slot
    ensures var one := ArrowPart(ts, ctx, at, p.(slot := mark), mark, depth + 1, tail);
      var rest := if one.Err? then Err(one.error)
                  else CompTests(ts.rest, ctx, at + |Piece(one.value.0, 0)|, one.value.1, mark, depth, tail);
      CompTests(ts, ctx, at, p, mark, depth, tail) == FirstOf(one, rest)
  {
    hide CompExpr, CompSeq, BranchTo, JumpTo;
  }

  lemma {:induction false} TestsStep(parts: seq<Part>, ts: Tests, ctx: Ctx, at: nat, p: Pools, mark: u8, depth: nat,
        tail: bool)
    requires (ts.Test? || ts.Arrow?) && mark <= p.slot
    ensures var one := NextTest(ts, ctx, at, p.(slot := mark), mark, depth + 1, tail);
      var whole := BehindParts(parts, CompTests(ts, ctx, at, p, mark, depth, tail));
      if one.Err? then whole == Err(one.error)
      else whole == BehindParts(parts + [one.value.0],
                                CompTests(ts.rest, ctx, at + |Piece(one.value.0, 0)|, one.value.1, mark, depth, tail))
  {
    hide TestPart, ArrowPart, CompTests, Piece;
    if ts.Test? {
      TestUnfold(ts, ctx, at, p, mark, depth, tail);
    } else {
      ArrowUnfold(ts, ctx, at, p, mark, depth, tail);
    }
    var one := NextTest(ts, ctx, at, p.(slot := mark), mark, depth + 1, tail);
    if one.Ok? {
      var rest := CompTests(ts.rest, ctx, at + |Piece(one.value.0, 0)|, one.value.1, mark, depth, tail);
      if rest.Ok? {
        assert parts + ([one.value.0] + rest.value.0) == parts + [one.value.0] + rest.value.0;
      }
    }
  }

  lemma {:induction false} TestsEnd(parts: seq<Part>, ts: Tests, ctx: Ctx, at: nat, p: Pools, mark: u8, depth: nat,
        tail: bool)
    requires (ts.NoTests? || ts.ElseTests?) && mark <= p.slot
    ensures var whole := BehindParts(parts, CompTests(ts, ctx, at, p, mark, depth, tail));
      if ts.NoTests? then whole == Ok((parts, p.(slot := mark)))
      else
        var one := ElsePart(ts.body, ctx, at, p.(slot := mark), mark, depth + 1, tail, false);
        if one.Err? then whole == Err(one.error) else whole == Ok((parts + [one.value.0], one.value.1))
  {
    hide CompSeq;
    if ts.ElseTests? {
      var w := CompSeq(ts.body, ctx, at, p.(slot := mark), depth + 1, tail);
      if w.Ok? {
        assert [] + w.value.code == w.value.code;
      }
    } else {
      assert parts + [] == parts;
    }
  }

  /** Appending a clause keeps what the loop over the clauses knows. */
  lemma {:induction false} PartAdded(start: seq<byte>, parts: seq<Part>, jumps: seq<(nat, u8)>, x: Part)
    requires JumpsOf(|start|, parts, jumps)
    ensures start + Open(parts) + Piece(x, 0) == start + Open(parts + [x])
    ensures JumpsOf(|start|, parts + [x], jumps + [(|start + Open(parts)| + |x.pre| + 1, x.needs)])
  {
    hide Piece, JumpsOf, Open;
    OpenSnoc(parts, x);
    JumpsSnoc(|start|, parts, jumps, x);
    Associate(start, Open(parts), Piece(x, 0));
  }

  predicate Fitting(parts: seq<Part>, mark: u8) {
    forall i :: 0 <= i < |parts| ==> mark + parts[i].needs < 256
  }

  /** What the clauses of a `cond` or `case` leave behind, before they are closed. */
  ghost predicate Opened(start: seq<byte>, spec: Parts, jumps: seq<(nat, u8)>, code: seq<byte>, p: Pools, mark: u8)
  {
    spec.Ok? && mark <= p.slot && Fitting(spec.value.0, mark)
    && code == start + Open(spec.value.0) && JumpsOf(|start|, spec.value.0, jumps) && p == spec.value.1
  }

  method CompileTests(b: Body, tests: Tests, ctx: Ctx, mark: u8, depth: nat, tail: bool)
        returns (r: Result<seq<(nat, u8)>, CompileError>)
    requires mark == b.nextSlot
    modifies b, b.comp
    ensures var spec := CompTests(tests, ctx, |old(b.code)|, old(b.State()), mark, depth, tail);
      if spec.Err? then r == Err(spec.error) else r.Ok? && Opened(old(b.code), spec, r.value, b.code, b.State(), mark)
    decreases tests, 2
  {
    hide BehindParts, PartsLen;
    hide CompTests, CompSeq, NextTest, ElsePart, Open, JumpsOf, Piece, Select;
    ghost var start := b.code;
    ghost var whole := CompTests(tests, ctx, |start|, b.State(), mark, depth, tail);
    ghost var parts: seq<Part> := [];
    BehindNoParts(whole);
    NoClausesYet(start);
    var rest, jumps: seq<(nat, u8)> := tests, [];
    while rest.Test? || rest.Arrow?
      invariant rest == tests || rest < tests
      invariant b.code == start + Open(parts) && JumpsOf(|start|, parts, jumps)
      invariant mark <= b.nextSlot && Fitting(parts, mark)
      invariant whole == BehindParts(parts, CompTests(rest, ctx, |b.code|, b.State(), mark, depth, tail))
      decreases rest
    {
      TestsStep(parts, rest, ctx, |b.code|, b.State(), mark, depth, tail);
      ghost var one := NextTest(rest, ctx, |b.code|, b.State().(slot := mark), mark, depth + 1, tail);
      jumps :- AddTest(b, rest, ctx, mark, depth + 1, tail, jumps, start, parts);
      parts := parts + [one.value.0];
      rest := rest.rest;
    }
    TestsEnd(parts, rest, ctx, |b.code|, b.State(), mark, depth, tail);
    if rest.ElseTests? {
      jumps :- AddElse(b, rest.body, ctx, mark, depth + 1, tail, false, jumps, start, parts);
    } else {
      b.nextSlot := mark;
    }
    r := Ok(jumps);
  }

  method CompileCond(b: Body, tests: Tests, ctx: Ctx, depth: nat, tail: bool) returns (r: Done)
    modifies b, b.comp
    ensures Follows(old(b.code), CompCond(tests, ctx, |old(b.code)|, old(b.State()), depth, tail), r, b.code, b.State())
    decreases tests, 3
  {
    hide CompTests, Open, JumpsOf, Select;
    var mark := b.nextSlot;
    ghost var start, spec := b.code, CompTests(tests, ctx, |b.code|, b.State(), mark, depth, tail);
    var jumps :- CompileTests(b, tests, ctx, mark, depth, tail);
    CloseClauses(b, jumps, mark, tail, false, start, spec.value.0);
    r := Ok(());
  }

  lemma {:induction false} NoClausesYet(start: seq<byte>)
    ensures start + Open([]) == start && JumpsOf(|start|, [], [])
  {
  }

  /** The clauses so far with one more behind them. */
  predicate Grew(start: seq<byte>, parts: seq<Part>, one: OnePart, r: Result<seq<(nat, u8)>, CompileError>,
        code: seq<byte>, p: Pools) {
    if one.Err? then r == Err(one.error)
    else
      r.Ok? && code == start + Open(parts) + Piece(one.value.0, 0) == start + Open(parts + [one.value.0])
      && JumpsOf(|start|, parts + [one.value.0], r.value)
      && p == one.value.1
  }

  method AddTest(b: Body, ts: Tests, ctx: Ctx, mark: u8, depth: nat, tail: bool, jumps: seq<(nat, u8)>,
                 ghost start: seq<byte>, ghost parts: seq<Part>) returns (r: Result<seq<(nat, u8)>, CompileError>)
    requires (ts.Test? || ts.Arrow?) && mark <= b.nextSlot
    requires b.code == start + Open(parts) && JumpsOf(|start|, parts, jumps)
    modifies b, b.comp
    ensures Grew(start, parts, NextTest(ts, ctx, |old(b.code)|, old(b.State()).(slot := mark), mark, depth, tail), r,
      b.code, b.State())
    decreases ts, 1
  {
    hide TestPart, ArrowPart, Open, JumpsOf, Piece;
    b.nextSlot := mark;
    ghost var one := NextTest(ts, ctx, |b.code|, b.State(), mark, depth, tail);
    var jump;
    if ts.Test? {
      jump :- CompileTestClause(b, ts, ctx, mark, depth, tail);
    } else {
      jump :- CompileArrowClause(b, ts, ctx, mark, depth, tail);
    }
    PartAdded(start, parts, jumps, one.value.0);
    r := Ok(jumps + [jump]);
  }

  method AddElse(b: Body, body: Exprs, ctx: Ctx, mark: u8, depth: nat, tail: bool, discard: bool, jumps: seq<(nat, u8)>,
                 ghost start: seq<byte>, ghost parts: seq<Part>) returns (r: Result<seq<(nat, u8)>, CompileError>)
    requires mark <= b.nextSlot
    requires b.code == start + Open(parts) && JumpsOf(|start|, parts, jumps)
    modifies b, b.comp
    ensures Grew(start, parts, ElsePart(body, ctx, |old(b.code)|, old(b.State()).(slot := mark), mark, depth, tail,
      discard), r,
                 b.code, b.State())
    decreases body, 3
  {
    hide ElsePart, Open, JumpsOf, Piece;
    b.nextSlot := mark;
    ghost var one := ElsePart(body, ctx, |b.code|, b.State(), mark, depth, tail, discard);
    var jump :- CompileElseClause(b, body, ctx, mark, depth, tail, discard);
    PartAdded(start, parts, jumps, one.value.0);
    r := Ok(jumps + [jump]);
  }

  /** What runs when no clause matches: the unspecified value, and all the padding. */
  function NoMatch(lead: seq<byte>, p: Pools, mark: u8, target: u8, tail: bool): (e: Compile.Emitted)
    requires mark + target < 256
  {
    var none := EmitConst(p.(slot := mark), CUnspecified);
    var pad := PadUnlessTail(none.p, mark + target, tail);
    Compile.Emitted(lead + none.code + pad.code, pad.p)
  }

  method EmitNoMatch(b: Body, mark: u8, target: u8, tail: bool, discard: bool) returns (hole: nat)
    requires mark + target < 256
    modifies b
    ensures var e := NoMatch(if discard then Enc(Pop) else [], old(b.State()), mark, target, tail);
      b.code == old(b.code) + e.code + JumpOn(false, 0) && b.State() == e.p && hole == |old(b.code)| + |e.code| + 1
  {
    hide Enc, JumpOn, Compile.PadUnlessTail;
    ghost var start, p := b.code, b.State();
    ghost var lead := if discard then Enc(Pop) else [];
    b.nextSlot := mark;
    if discard {
      b.Emit(Pop);
    }
    assert b.code == start + lead;
    b.EmitConst(CUnspecified);
    ghost var none := Compile.EmitConst(p.(slot := mark), CUnspecified);
    b.PadUnlessTail(mark + target, tail);
    hole := b.EmitJump(false);
    Group3(start, lead, none.code, Compile.PadUnlessTail(none.p, mark + target, tail).code);
  }

  method CloseClauses(b: Body, jumps: seq<(nat, u8)>, mark: u8, tail: bool, discard: bool,
                      ghost start: seq<byte>, ghost parts: seq<Part>)
    requires b.code == start + Open(parts) && JumpsOf(|start|, parts, jumps)
    requires mark <= b.nextSlot && Fitting(parts, mark)
    modifies b
    ensures Appended(start, Select(parts, |start|, old(b.State()), mark, tail, if discard then Enc(Pop) else []),
      b.code, b.State())
  {
    hide Open, JumpsOf, Select, Compile.PadUnlessTail, Compile.EmitConst, JumpOn, Enc, JoinParts, Stubs, NoMatch;
    ghost var lead := if discard then Enc(Pop) else [];
    ghost var p := b.State();
    MaxNeedsFits(parts, mark);
    JumpsTarget(|start|, parts, jumps);
    var target := Largest(jumps);
    var hole := EmitNoMatch(b, mark, target, tail, discard);
    ghost var before := NoMatch(lead, p, mark, target, tail).code;
    Associate(start + Open(parts), before, JumpOn(false, 0));
    EmitStubs(b, jumps, hole, mark, target, tail, start, parts, before);
    SelectShape(start, parts, p, mark, tail, lead);
    if !tail {
      b.nextSlot := mark + target;
    }
  }

  lemma {:induction false} SelectShape(start: seq<byte>, parts: seq<Part>, p: Pools, mark: u8, tail: bool,
        lead: seq<byte>)
    requires mark <= p.slot && Fitting(parts, mark)
    ensures mark + MaxNeeds(parts) < 256
    ensures var target := MaxNeeds(parts);
      var none := NoMatch(lead, p, mark, target, tail);
      var stubAt := |start| + PartsLen(parts) + |none.code| + 5;
      var end := stubAt + StubsLen(parts, target, tail);
      var stubs := Stubs(parts, none.p, mark, target, tail, end);
      Appended(start, Select(parts, |start|, p, mark, tail, lead),
               start + JoinParts(parts, stubAt, target, tail) + (none.code + JumpOn(false, end)) + stubs.code, stubs.p)
      && (!tail ==> stubs.p.slot == mark + target)
  {
    hide PadUnlessTail, EmitConst, Stubs, JoinParts, JumpTo;
    MaxNeedsFits(parts, mark);
    var target := MaxNeeds(parts);
    var none := NoMatch(lead, p, mark, target, tail);
    var stubAt := |start| + PartsLen(parts) + |none.code| + 5;
    var end := stubAt + StubsLen(parts, target, tail);
    Group3(start, JoinParts(parts, stubAt, target, tail), none.code
      + JumpTo(end), Stubs(parts, none.p, mark, target, tail, end).code);
  }

  lemma {:induction false} JumpsTarget(at: nat, parts: seq<Part>, jumps: seq<(nat, u8)>)
    requires JumpsOf(at, parts, jumps)
    ensures Largest(jumps) == MaxNeeds(parts)
  {
    LargestNeed(parts, jumps);
  }

  /** Every clause's stub, then all jumps to the common end. */
  method EmitStubs(b: Body, jumps: seq<(nat, u8)>, hole: nat, mark: u8, target: u8, tail: bool,
                   ghost start: seq<byte>, ghost parts: seq<Part>, ghost before: seq<byte>)
    requires JumpsOf(|start|, parts, jumps) && Within(parts, mark, target)
    requires b.code == start + Open(parts) + (before + JumpOn(false, 0))
      && hole == |start| + PartsLen(parts) + |before| + 1
    modifies b
    ensures var stubAt := |start| + PartsLen(parts) + |before| + 5;
      var end := stubAt + StubsLen(parts, target, tail);
      var stubs := Stubs(parts, old(b.State()), mark, target, tail, end);
      b.code == start + JoinParts(parts, stubAt, target, tail) + (before + JumpOn(false, end)) + stubs.code
      && b.State() == stubs.p
  {
    hide Open, JumpOn, JoinParts, Stubs, Stub, Midway, PartsLen, StubsLen, StubHoles, PatchEach, PatchAt;
    ghost var p, middle := b.State(), before + JumpOn(false, 0);
    ghost var stubAt := |b.code|;
    MidwayEnds(start, parts, middle, p, mark, target, tail);
    var afterJumps := [hole];
    for k := 0 to |jumps|
      invariant b.code == Midway(start, parts, k, middle, p, mark, target, tail)
      invariant b.State() == Stubs(parts[..k], p, mark, target, tail, 0).p
      invariant afterJumps == [hole] + StubHoles(stubAt, parts[..k], target, tail)
    {
      MidwayStep(start, parts, k, middle, p, mark, target, tail);
      ghost var holes := StubHoles(stubAt, parts[..k], target, tail);
      b.PatchJump(jumps[k].0);
      var next := EmitStub(b, mark, jumps[k].1, target, tail, parts[k]);
      assert [hole] + holes + [next] == [hole] + (holes + [next]);
      afterJumps := afterJumps + [next];
    }
    assert parts[..|parts|] == parts;
    StubsClosed(start + JoinParts(parts, stubAt, target, tail), before, parts, p, mark, target, tail, |b.code|);
    b.PatchJumps(afterJumps);
  }

  method EmitStub(b: Body, mark: u8, needs: u8, target: u8, tail: bool, ghost x: Part) returns (hole: nat)
    requires mark + target < 256 && needs == x.needs <= target
    modifies b
    ensures var stub := Stub(x, old(b.State()), mark, target, tail, 0);
      b.code == old(b.code) + stub.code && b.State() == stub.p && hole + 4 == |b.code|
  {
    hide Compile.PadUnlessTail, JumpOn;
    ghost var start, p := b.code, b.State();
    b.nextSlot := mark + needs;
    b.PadUnlessTail(mark + target, tail);
    hole := b.EmitJump(false);
    Associate(start, Compile.PadUnlessTail(p.(slot := mark + needs), mark + target, tail).code, JumpOn(false, 0));
  }

  // ----- case -----

  method EmitDatum(b: Body, c: Data.Const) returns (hole: nat)
    modifies b
    ensures b.code == old(b.code) + DatumTest(c, |old(b.code)|, old(b.State()), 0)
      && b.State() == AddConst(old(b.State()), c)
    ensures hole + 4 == |b.code|
  {
    hide Enc, JumpOn, PatchAt;
    ghost var start, p := b.code, b.State();
    b.Emit(Dup);
    b.EmitConst(c);
    b.Emit(Eqv);
    var tryNext := b.EmitJump(true);
    hole := b.EmitJump(false);
    ghost var lead := start + Enc(Dup) + Compile.EmitConst(p, c).code + Enc(Eqv);
    HoleFilled(lead, true, JumpOn(false, 0), |b.code|);
    b.PatchJump(tryNext);
    Group5(start, Enc(Dup), Compile.EmitConst(p, c).code, Enc(Eqv), JumpOn(true, |start| + DATUM_TEST),
      JumpOn(false, 0));
  }

  method CompileData(b: Body, data: seq<Data.Const>) returns (holes: seq<nat>)
    modifies b
    ensures var d := CompData(data, |old(b.code)|, old(b.State()), 0);
      b.code == old(b.code) + d.code && b.State() == d.p && holes == DataHoles(|old(b.code)|, |data|)
  {
    hide CompData, DatumTest;
    ghost var start, p := b.code, b.State();
    holes := [];
    DataNone(|start|, p, 0);
    assert data[..0] == [];
    for k := 0 to |data|
      invariant b.code == start + CompData(data[..k], |start|, p, 0).code
        && b.State() == CompData(data[..k], |start|, p, 0).p
      invariant holes == DataHoles(|start|, k)
    {
      ghost var d := CompData(data[..k], |start|, p, 0);
      assert data[..k + 1] == data[..k] + [data[k]];
      DataSnoc(data[..k], data[k], |start|, p, 0);
      DataHolesSnoc(|start|, k);
      var hole := EmitDatum(b, data[k]);
      Associate(start, d.code, DatumTest(data[k], |start| + DATUM_TEST * k, d.p, 0));
      holes := holes + [hole];
    }
    assert data[..|data|] == data;
  }

  function ClausePart(cs: Clauses, ctx: Ctx, at: nat, p: Pools, mark: u8, depth: nat, tail: bool): (r: OnePart)
    requires cs.Clause? && mark <= p.slot
    ensures r.Ok? ==> Grown(p, r.value.1) && mark + r.value.0.needs < 256
  {
    var bodyAt := at + DATUM_TEST * |cs.data| + 5;
    var d := CompData(cs.data, at, p, bodyAt);
    var w :- CompSeq(cs.body, ctx, bodyAt + 1, d.p, depth, tail);
    var next := bodyAt + 1 + |w.code| + 5;
    Ok((Part(d.code + JumpTo(next) + Enc(Pop) + w.code, [], w.p.slot - mark), w.p))
  }

  method CompileClause(b: Body, cs: Clauses, ctx: Ctx, mark: u8, depth: nat, tail: bool) returns (r: Clause1)
    requires cs.Clause? && mark <= b.nextSlot
    modifies b, b.comp
    ensures Adds(old(b.code), ClausePart(cs, ctx, |old(b.code)|, old(b.State()), mark, depth, tail), r, b.code,
      b.State())
    decreases cs, 0
  {
    hide CompSeq, CompData, JumpOn, Enc, PatchAt, PatchEach, Piece;
    ghost var start, p := b.code, b.State();
    ghost var bodyAt := |start| + DATUM_TEST * |cs.data| + 5;
    ghost var d := CompData(cs.data, |start|, p, bodyAt);
    DataPatched(start, cs.data, p, JumpOn(false, 0), bodyAt);
    var found := CompileData(b, cs.data);
    var nextJump := b.EmitJump(false);
    b.PatchJumps(found);
    b.Emit(Pop);
    var _ :- CompileSequence(b, cs.body, ctx, depth, tail);
    ghost var w := CompSeq(cs.body, ctx, bodyAt + 1, d.p, depth, tail).value;
    var needs := b.nextSlot - mark;
    var hole := b.EmitJump(false);
    ghost var end := |b.code|;
    HoleFilled3(start + d.code, false, Enc(Pop), w.code, JumpOn(false, 0), end);
    b.PatchJump(nextJump);
    ClauseGrouped(start, d.code, end, w.code, needs);
    r := Ok((hole, needs));
  }

  lemma {:induction false} ClauseGrouped(start: seq<byte>, d: seq<byte>, end: nat, w: seq<byte>, needs: u8)
    ensures start + d + JumpOn(false, end) + Enc(Pop) + w + JumpOn(false, 0)
      == start + Piece(Part(d + JumpTo(end) + Enc(Pop) + w, [], needs), 0)
  {
    hide Enc, JumpTo;
    Group5(start, d, JumpTo(end), Enc(Pop), w, JumpTo(0));
  }

  method AddClause(b: Body, cs: Clauses, ctx: Ctx, mark: u8, depth: nat, tail: bool, jumps: seq<(nat, u8)>,
                   ghost start: seq<byte>, ghost parts: seq<Part>) returns (r: Result<seq<(nat, u8)>, CompileError>)
    requires cs.Clause? && mark <= b.nextSlot
    requires b.code == start + Open(parts) && JumpsOf(|start|, parts, jumps)
    modifies b, b.comp
    ensures Grew(start, parts, ClausePart(cs, ctx, |old(b.code)|, old(b.State()).(slot := mark), mark, depth, tail), r,
                 b.code, b.State())
    decreases cs, 1
  {
    hide ClausePart, Open, JumpsOf, Piece;
    b.nextSlot := mark;
    ghost var one := ClausePart(cs, ctx, |b.code|, b.State(), mark, depth, tail);
    var jump :- CompileClause(b, cs, ctx, mark, depth, tail);
    PartAdded(start, parts, jumps, one.value.0);
    r := Ok(jumps + [jump]);
  }

  lemma {:induction false} ClauseUnfold(cs: Clauses, ctx: Ctx, at: nat, p: Pools, mark: u8, depth: nat, tail: bool)
    requires cs.Clause? && mark <= p.slot
    ensures var one := ClausePart(cs, ctx, at, p.(slot := mark), mark, depth + 1, tail);
      var rest := if one.Err? then Err(one.error)
                  else CompClauses(cs.rest, ctx, at + |Piece(one.value.0, 0)|, one.value.1, mark, depth, tail);
      CompClauses(cs, ctx, at, p, mark, depth, tail) == FirstOf(one, rest)
  {
    hide CompData, CompSeq, BranchTo, JumpTo, Enc;
  }

  lemma {:induction false} ClausesStep(parts: seq<Part>, cs: Clauses, ctx: Ctx, at: nat, p: Pools, mark: u8, depth: nat,
        tail: bool)
    requires cs.Clause? && mark <= p.slot
    ensures var one := ClausePart(cs, ctx, at, p.(slot := mark), mark, depth + 1, tail);
      var whole := BehindParts(parts, CompClauses(cs, ctx, at, p, mark, depth, tail));
      if one.Err? then whole == Err(one.error)
      else whole == BehindParts(parts + [one.value.0],
                                CompClauses(cs.rest, ctx, at + |Piece(one.value.0, 0)|, one.value.1, mark, depth, tail))
  {
    hide ClausePart, CompClauses, Piece;
    ClauseUnfold(cs, ctx, at, p, mark, depth, tail);
    var one := ClausePart(cs, ctx, at, p.(slot := mark), mark, depth + 1, tail);
    if one.Ok? {
      var rest := CompClauses(cs.rest, ctx, at + |Piece(one.value.0, 0)|, one.value.1, mark, depth, tail);
      if rest.Ok? {
        assert parts + ([one.value.0] + rest.value.0) == parts + [one.value.0] + rest.value.0;
      }
    }
  }

  lemma {:induction false} ClausesEnd(parts: seq<Part>, cs: Clauses, ctx: Ctx, at: nat, p: Pools, mark: u8, depth: nat,
        tail: bool)
    requires !cs.Clause? && mark <= p.slot
    ensures var whole := BehindParts(parts, CompClauses(cs, ctx, at, p, mark, depth, tail));
      if cs.NoClauses? then whole == Ok((parts, p.(slot := mark)))
      else
        var one := ElsePart(cs.body, ctx, at, p.(slot := mark), mark, depth + 1, tail, true);
        if one.Err? then whole == Err(one.error) else whole == Ok((parts + [one.value.0], one.value.1))
  {
    hide CompSeq, Enc;
    if cs.NoClauses? {
      assert parts + [] == parts;
    }
  }

  method CompileClauses(b: Body, clauses: Clauses, ctx: Ctx, mark: u8, depth: nat, tail: bool)
      returns (r: Result<seq<(nat, u8)>, CompileError>)
    requires mark == b.nextSlot
    modifies b, b.comp
    ensures var spec := CompClauses(clauses, ctx, |old(b.code)|, old(b.State()), mark, depth, tail);
      if spec.Err? then r == Err(spec.error) else r.Ok? && Opened(old(b.code), spec, r.value, b.code, b.State(), mark)
    decreases clauses, 2
  {
    hide CompClauses, CompSeq, ClausePart, ElsePart, Open, JumpsOf, Piece, Select;
    ghost var start := b.code;
    ghost var whole := CompClauses(clauses, ctx, |start|, b.State(), mark, depth, tail);
    ghost var parts: seq<Part> := [];
    BehindNoParts(whole);
    NoClausesYet(start);
    var rest, jumps: seq<(nat, u8)> := clauses, [];
    while rest.Clause?
      invariant rest == clauses || rest < clauses
      invariant b.code == start + Open(parts) && JumpsOf(|start|, parts, jumps)
      invariant mark <= b.nextSlot && Fitting(parts, mark)
      invariant whole == BehindParts(parts, CompClauses(rest, ctx, |b.code|, b.State(), mark, depth, tail))
      decreases rest
    {
      ClausesStep(parts, rest, ctx, |b.code|, b.State(), mark, depth, tail);
      ghost var one := ClausePart(rest, ctx, |b.code|, b.State().(slot := mark), mark, depth + 1, tail);
      jumps :- AddClause(b, rest, ctx, mark, depth + 1, tail, jumps, start, parts);
      parts := parts + [one.value.0];
      rest := rest.rest;
    }
    ClausesEnd(parts, rest, ctx, |b.code|, b.State(), mark, depth, tail);
    if rest.ElseClauses? {
      jumps :- AddElse(b, rest.body, ctx, mark, depth + 1, tail, true, jumps, start, parts);
    } else {
      b.nextSlot := mark;
    }
    r := Ok(jumps);
  }

  method CompileCase(b: Body, e: Expr, ctx: Ctx, depth: nat, tail: bool) returns (r: Done)
    requires e.Case?
    modifies b, b.comp
    ensures Follows(old(b.code), CompCase(e.key, e.clauses, ctx, |old(b.code)|, old(b.State()), depth, tail), r, b.code,
      b.State())
    decreases e, 0
  {
    hide CompExpr, CompClauses, Open, JumpsOf, Select, Enc;
    ghost var start, p := b.code, b.State();
    var _ :- CompileExpr(b, e.key, ctx, depth + 1, false);
    ghost var k := CompExpr(e.key, ctx, |start|, p, depth + 1, false).value;
    var mark := b.nextSlot;
    ghost var before := b.code;
    ghost var spec := CompClauses(e.clauses, ctx, |before|, b.State(), mark, depth, tail);
    var jumps :- CompileClauses(b, e.clauses, ctx, mark, depth, tail);
    ghost var sel := Select(spec.value.0, |before|, spec.value.1, mark, tail, Enc(Pop));
    CloseClauses(b, jumps, mark, tail, true, before, spec.value.0);
    Associate(start, k.code, sel.code);
    r := Ok(());
  }

  // ----- programs -----

  lemma {:induction false} FormStep(done: seq<byte>, forms: Exprs, at: nat, p: Pools)
    ensures var whole := After(done, CompForms(forms, at, p));
      if forms.NoExprs? then whole == Ok(Compile.Emitted(done, p))
      else
        var a := CompExpr(forms.head, Ctx([], None), at, p, 0, false);
        whole == if a.Err? then a
                 else After(done + a.value.code + Enc(Pop), CompForms(forms.tail, at + |a.value.code| + 1, a.value.p))
  {
    hide CompExpr, Enc;
    if forms.NoExprs? {
      assert done + [] == done;
    } else {
      var a := CompExpr(forms.head, Ctx([], None), at, p, 0, false);
      if a.Ok? {
        var rest := CompForms(forms.tail, at + |a.value.code| + 1, a.value.p);
        if rest.Ok? {
          Group3(done, a.value.code, Enc(Pop), rest.value.code);
        }
      }
    }
  }

  /** The whole pass over a program gives the module that `CompProgram` describes, or its error. */
  method CompileProgram(forms: Exprs) returns (r: Result<Module, CompileError>)
    ensures r == CompProgram(forms)
  {
    hide CompExpr, CompForms, Enc;
    var comp := new Compilation();
    var entry := new Body(comp);
    ghost var whole := CompForms(forms, 0, entry.State());
    ghost var done: seq<byte> := [];
    AfterNothing(whole);
    var rest := forms;
    while rest.More?
      invariant entry.comp == comp && entry.code == done && fresh(entry) && fresh(comp)
      invariant whole == After(done, CompForms(rest, |entry.code|, entry.State()))
      decreases rest
    {
      FormStep(done, rest, |done|, entry.State());
      ghost var a := CompExpr(rest.head, Ctx([], None), |done|, entry.State(), 0, false);
      var _ :- CompileExpr(entry, rest.head, Ctx([], None), 0, false);
      entry.Emit(Pop);
      done := done + a.value.code + Enc(Pop);
      rest := rest.tail;
    }
    FormStep(done, rest, |done|, entry.State());
    entry.Emit(Halt);
    r := Ok(Module(AsU32(|comp.functions|), comp.functions + [Chunk(entry.code, entry.consts, 0, false, None)]));
  }
}
