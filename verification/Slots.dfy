/**
 An expression without `let` leaves the compile-time slot counter where it was, and is
 compiled to the same code wherever the counter stands.
 */
module Slots {
  import opened Prelude
  import opened Syntax
  import opened Instr
  import opened Compile
  import opened Relation

  /** The same result with the slot counter at `s`. */
  function With(r: Compiled, s: u8): Compiled {
    if r.Ok? then Ok(r.value.(p := r.value.p.(slot := s))) else r
  }

  lemma {:induction false} FreeExpr(e: Expr, ctx: Ctx, at: nat, p: Pools, depth: nat, tail: bool, s: u8)
    requires NoSlots(e)
    ensures CompExpr(e, ctx, at, p.(slot := s), depth, tail) == With(CompExpr(e, ctx, at, p, depth, tail), s)
    decreases e, 1
  {
    hide CompVar, CompSet, CompDefine, CompSeq, CompFunction, CompAnd, CompOr, CompLet;
    hide CompIf, CompWhen, CompUnless, CompCond, CompCase, CompApp;
    match e
    case Lit(_) | Lambda(_, _) =>
    case Var(x) => FreeName(x, ctx, p, s);
    case SetVar(x, e1) => FreeSet(x, e1, ctx, at, p, depth, s);
    case Define(x, e1) => FreeDefine(x, e1, ctx, at, p, depth, s);
    case If(_, _, _) => FreeIf(e, ctx, at, p, depth, tail, s);
    case Begin(es) => FreeSeq(es, ctx, at, p, depth + 1, tail, s);
    case And(es) => FreeShort(es, ctx, at, p, depth, tail, s);
    case Or(es) => FreeShort(es, ctx, at, p, depth, tail, s);
    case When(_, _) => FreeWhen(e, ctx, at, p, depth, tail, s);
    case Unless(_, _) => FreeUnless(e, ctx, at, p, depth, tail, s);
    case Let(_, body) => FreeLet(body, ctx, at, p, depth, tail, false, s);
    case LetStar(_, body) => FreeLet(body, ctx, at, p, depth, tail, true, s);
    case Cond(tests) => FreeCond(tests, ctx, at, p, depth, tail, s);
    case Case(_, _) => FreeCase(e, ctx, at, p, depth, tail, s);
    case App(_, _) => FreeApp(e, ctx, at, p, depth, tail, s);
  }

  lemma {:induction false} FreeName(x: string, ctx: Ctx, p: Pools, s: u8)
    ensures CompVar(x, ctx, p.(slot := s)) == With(CompVar(x, ctx, p), s)
    ensures CompAssign(x, ctx, p.(slot := s)) == With(CompAssign(x, ctx, p), s)
  {
    hide Resolve, Enc;
  }

  lemma {:induction false} FreeSet(x: string, e: Expr, ctx: Ctx, at: nat, p: Pools, depth: nat, s: u8)
    requires NoSlots(e)
    ensures CompSet(x, e, ctx, at, p.(slot := s), depth) == With(CompSet(x, e, ctx, at, p, depth), s)
    decreases e, 2
  {
    hide CompExpr, CompAssign;
    FreeExpr(e, ctx, at, p, depth + 1, false, s);
    var a := CompExpr(e, ctx, at, p, depth + 1, false);
    if a.Ok? {
      FreeName(x, ctx, a.value.p, s);
    }
  }

  lemma {:induction false} FreeDefine(x: string, e: Expr, ctx: Ctx, at: nat, p: Pools, depth: nat, s: u8)
    requires NoSlots(e)
    ensures CompDefine(x, e, ctx, at, p.(slot := s), depth) == With(CompDefine(x, e, ctx, at, p, depth), s)
    decreases e, 2
  {
    hide CompExpr, CompFunction, Enc;
    FreeExpr(e, ctx, at, p, depth + 1, false, s);
  }

  lemma {:induction false} FreeShort(es: Exprs, ctx: Ctx, at: nat, p: Pools, depth: nat, tail: bool, s: u8)
    requires NoSlotsSeq(es)
    ensures CompAnd(es, ctx, at, p.(slot := s), depth, tail) == With(CompAnd(es, ctx, at, p, depth, tail), s)
    ensures CompOr(es, ctx, at, p.(slot := s), depth, tail) == With(CompOr(es, ctx, at, p, depth, tail), s)
    decreases es, 1
  {
    hide CompParts, GlueAnd, GlueOr, Enc;
    if es.More? {
      FreeParts(es, ctx, at, p, depth + 1, tail, AND_GAP, s);
      FreeParts(es, ctx, at, p, depth + 1, tail, OR_GAP, s);
    }
  }

  lemma {:induction false} FreeLet(body: Exprs, ctx: Ctx, at: nat, p: Pools, depth: nat, tail: bool, star: bool, s: u8)
    requires NoSlotsSeq(body)
    ensures CompLet(NoBindings, body, ctx, at, p.(slot := s), depth, tail, star)
         == With(CompLet(NoBindings, body, ctx, at, p, depth, tail, star), s)
    decreases body, 1
  {
    hide CompSeq;
    assert CompBindings(NoBindings, ctx, ctx, at, p, depth + 1, star) == Ok(([], p, ctx));
    assert CompBindings(NoBindings, ctx, ctx, at, p.(slot := s), depth + 1, star) == Ok(([], p.(slot := s), ctx));
    FreeSeq(body, ctx, at, p, depth + 1, tail, s);
  }

  lemma {:induction false} FreeApp(e: Expr, ctx: Ctx, at: nat, p: Pools, depth: nat, tail: bool, s: u8)
    requires e.App? && NoSlots(e.f) && NoSlotsSeq(e.args)
    ensures CompApp(e.f, e.args, ctx, at, p.(slot := s), depth, tail)
         == With(CompApp(e.f, e.args, ctx, at, p, depth, tail), s)
    decreases e, 0
  {
    hide CompExpr, CompArgs;
    FreeExpr(e.f, ctx, at, p, depth + 1, false, s);
    var r := CompExpr(e.f, ctx, at, p, depth + 1, false);
    if r.Ok? {
      FreeArgs(e.args, ctx, at + |r.value.code|, r.value.p, depth + 1, s);
    }
  }

  lemma {:induction false} FreeIf(e: Expr, ctx: Ctx, at: nat, p: Pools, depth: nat, tail: bool, s: u8)
    requires e.If? && NoSlots(e.test) && NoSlots(e.thn) && (e.els.Some? ==> NoSlots(e.els.value))
    ensures CompIf(e.test, e.thn, e.els, ctx, at, p.(slot := s), depth, tail)
         == With(CompIf(e.test, e.thn, e.els, ctx, at, p, depth, tail), s)
    decreases e, 0
  {
    hide CompExpr, CompElse, JumpTo, BranchTo, PadUnlessTail;
    StaysExpr(e.test, ctx, at, p, depth + 1, false, s);
    var c := CompExpr(e.test, ctx, at, p, depth + 1, false);
    if c.Ok? {
      var thenAt := at + |c.value.code| + 5;
      StaysExpr(e.thn, ctx, thenAt, c.value.p, depth + 1, tail, s);
      var t := CompExpr(e.thn, ctx, thenAt, c.value.p, depth + 1, tail);
      if t.Ok? {
        var elseAt := thenAt + |t.value.code| + 5;
        FreeElse(e.els, ctx, elseAt, t.value.p, depth + 1, tail, s);
        FreeElse(e.els, ctx, elseAt, t.value.p, depth + 1, tail, p.slot);
        var b := CompElse(e.els, ctx, elseAt, t.value.p, depth + 1, tail);
        if b.Ok? {
          NoPad(b.value.p, tail);
          NoPad(b.value.p.(slot := s), tail);
        }
      }
    }
  }

  lemma {:induction false} NoPad(p: Pools, tail: bool)
    ensures PadUnlessTail(p, p.slot, tail) == Emitted([], p)
  {
  }

  lemma {:induction false} FreeElse(els: Option<Expr>, ctx: Ctx, at: nat, p: Pools, depth: nat, tail: bool, s: u8)
    requires els.Some? ==> NoSlots(els.value)
    ensures CompElse(els, ctx, at, p.(slot := s), depth, tail) == With(CompElse(els, ctx, at, p, depth, tail), s)
    decreases els, 2
  {
    hide CompExpr;
    if els.Some? {
      FreeExpr(els.value, ctx, at, p, depth, tail, s);
    }
  }

  lemma {:induction false} FreeWhen(e: Expr, ctx: Ctx, at: nat, p: Pools, depth: nat, tail: bool, s: u8)
    requires e.When? && NoSlots(e.test) && NoSlotsSeq(e.body)
    ensures CompWhen(e.test, e.body, ctx, at, p.(slot := s), depth, tail)
         == With(CompWhen(e.test, e.body, ctx, at, p, depth, tail), s)
    decreases e, 0
  {
    hide CompExpr, CompSeq, JumpTo, BranchTo;
    FreeExpr(e.test, ctx, at, p, depth + 1, false, s);
    var t := CompExpr(e.test, ctx, at, p, depth + 1, false);
    if t.Ok? {
      FreeSeq(e.body, ctx, at + |t.value.code| + 5, t.value.p, depth + 1, tail, s);
    }
  }

  lemma {:induction false} FreeUnless(e: Expr, ctx: Ctx, at: nat, p: Pools, depth: nat, tail: bool, s: u8)
    requires e.Unless? && NoSlots(e.test) && NoSlotsSeq(e.body)
    ensures CompUnless(e.test, e.body, ctx, at, p.(slot := s), depth, tail)
         == With(CompUnless(e.test, e.body, ctx, at, p, depth, tail), s)
    decreases e, 0
  {
    hide CompExpr, CompSeq, JumpTo, BranchTo;
    FreeExpr(e.test, ctx, at, p, depth + 1, false, s);
    var t := CompExpr(e.test, ctx, at, p, depth + 1, false);
    if t.Ok? {
      FreeSeq(e.body, ctx, at + |t.value.code| + 15, EmitConst(t.value.p, Data.CUnspecified).p, depth + 1, tail, s);
    }
  }

  lemma {:induction false} FreeSeq(es: Exprs, ctx: Ctx, at: nat, p: Pools, depth: nat, tail: bool, s: u8)
    requires NoSlotsSeq(es)
    ensures CompSeq(es, ctx, at, p.(slot := s), depth, tail) == With(CompSeq(es, ctx, at, p, depth, tail), s)
    decreases es, 0
  {
    hide CompExpr;
    if es.More? {
      FreeExpr(es.head, ctx, at, p, depth, tail, s);
      FreeExpr(es.head, ctx, at, p, depth, false, s);
      var a := CompExpr(es.head, ctx, at, p, depth, false);
      if es.tail.More? && a.Ok? {
        FreeSeq(es.tail, ctx, at + |a.value.code| + 1, a.value.p, depth, tail, s);
      }
    }
  }

  lemma {:induction false} FreeArgs(es: Exprs, ctx: Ctx, at: nat, p: Pools, depth: nat, s: u8)
    requires NoSlotsSeq(es)
    ensures CompArgs(es, ctx, at, p.(slot := s), depth) == With(CompArgs(es, ctx, at, p, depth), s)
    decreases es, 0
  {
    hide CompExpr;
    if es.More? {
      FreeExpr(es.head, ctx, at, p, depth, false, s);
      var a := CompExpr(es.head, ctx, at, p, depth, false);
      if a.Ok? {
        FreeArgs(es.tail, ctx, at + |a.value.code|, a.value.p, depth, s);
      }
    }
  }

  lemma {:induction false} FreeParts(es: Exprs, ctx: Ctx, at: nat, p: Pools, depth: nat, tail: bool, gap: nat, s: u8)
    requires es.More? && NoSlotsSeq(es)
    ensures var r := CompParts(es, ctx, at, p, depth, tail, gap);
      CompParts(es, ctx, at, p.(slot := s), depth, tail, gap)
      == if r.Ok? then Ok((r.value.0, r.value.1.(slot := s))) else r
    decreases es, 0
  {
    hide CompExpr;
    FreeExpr(es.head, ctx, at, p, depth, tail, s);
    FreeExpr(es.head, ctx, at, p, depth, false, s);
    var a := CompExpr(es.head, ctx, at, p, depth, false);
    if es.tail.More? && a.Ok? {
      FreeParts(es.tail, ctx, at + |a.value.code| + gap, a.value.p, depth, tail, gap, s);
    }
  }

  /** Elsewhere the counter is where it was put, here it is where it was. */
  lemma {:induction false} StaysExpr(e: Expr, ctx: Ctx, at: nat, p: Pools, depth: nat, tail: bool, s: u8)
    requires NoSlots(e)
    ensures var r := CompExpr(e, ctx, at, p, depth, tail);
      CompExpr(e, ctx, at, p.(slot := s), depth, tail) == With(r, s) && (r.Ok? ==> r.value.p.slot == p.slot)
    decreases e, 3
  {
    hide CompExpr;
    FreeExpr(e, ctx, at, p, depth, tail, s);
    FreeExpr(e, ctx, at, p, depth, tail, p.slot);
  }

  lemma {:induction false} StaysSeq(es: Exprs, ctx: Ctx, at: nat, p: Pools, depth: nat, tail: bool, s: u8)
    requires NoSlotsSeq(es)
    ensures var r := CompSeq(es, ctx, at, p, depth, tail);
      CompSeq(es, ctx, at, p.(slot := s), depth, tail) == With(r, s) && (r.Ok? ==> r.value.p.slot == p.slot)
    decreases es, 2
  {
    hide CompSeq;
    FreeSeq(es, ctx, at, p, depth, tail, s);
    FreeSeq(es, ctx, at, p, depth, tail, p.slot);
  }

  // ----- cond / case -----

  ghost predicate NeedNothing(parts: seq<Part>) {
    forall i :: 0 <= i < |parts| ==> parts[i].needs == 0
  }

  lemma {:induction false} ZeroNeeds(parts: seq<Part>)
    requires NeedNothing(parts)
    ensures MaxNeeds(parts) == 0
  {
    if parts != [] {
      ZeroNeeds(parts[1..]);
    }
  }

  /** The same clauses, with the slot counter behind them at `s`. */
  function WithParts(r: Parts, s: u8): Parts {
    if r.Ok? then Ok((r.value.0, r.value.1.(slot := s))) else r
  }

  lemma {:induction false} FreeStubs(parts: seq<Part>, p: Pools, mark: u8, tail: bool, end: nat, s: u8)
    requires NeedNothing(parts) && p.slot == mark
    ensures var r := Stubs(parts, p, mark, 0, tail, end);
      r.p.slot == mark && Stubs(parts, p.(slot := s), s, 0, tail, end) == r.(p := r.p.(slot := s))
    decreases parts
  {
    hide JumpTo;
    if parts != [] {
      assert parts[0].needs == 0;
      FreeStubs(parts[1..], p, mark, tail, end, s);
    }
  }

  lemma {:induction false} FreeSelect(parts: seq<Part>, at: nat, p: Pools, mark: u8, tail: bool, discard: seq<byte>,
        s: u8)
    requires NeedNothing(parts) && mark <= p.slot
    ensures var r := Select(parts, at, p, mark, tail, discard);
      Select(parts, at, p.(slot := s), s, tail, discard) == r.(p := r.p.(slot := s))
  {
    hide JumpTo, Stubs, JoinParts, Enc;
    ZeroNeeds(parts);
    var none := EmitConst(p.(slot := mark), Data.CUnspecified);
    var end := at + PartsLen(parts) + |discard| + 10 + StubsLen(parts, 0, tail);
    FreeStubs(parts, none.p, mark, tail, end, s);
  }

  lemma {:induction false} FreeTests(ts: Tests, ctx: Ctx, at: nat, p: Pools, mark: u8, depth: nat, tail: bool, s: u8)
    requires NoSlotsTests(ts) && mark <= p.slot
    ensures var r := CompTests(ts, ctx, at, p, mark, depth, tail);
      CompTests(ts, ctx, at, p.(slot := s), s, depth, tail) == WithParts(r, s)
      && (r.Ok? ==> NeedNothing(r.value.0) && r.value.1.slot == mark)
    decreases ts, 1
  {
    match ts
    case NoTests =>
    case ElseTests(body) =>
      hide CompSeq;
      StaysSeq(body, ctx, at, p.(slot := mark), depth + 1, tail, s);
    case Test(_, _, _) => FreeTest(ts, ctx, at, p, mark, depth, tail, s);
    case Arrow(_, _, _) => FreeArrow(ts, ctx, at, p, mark, depth, tail, s);
  }

  lemma {:induction false} FreeTest(ts: Tests, ctx: Ctx, at: nat, p: Pools, mark: u8, depth: nat, tail: bool, s: u8)
    requires ts.Test? && NoSlotsTests(ts) && mark <= p.slot
    ensures var r := CompTests(ts, ctx, at, p, mark, depth, tail);
      CompTests(ts, ctx, at, p.(slot := s), s, depth, tail) == WithParts(r, s)
      && (r.Ok? ==> NeedNothing(r.value.0) && r.value.1.slot == mark)
    decreases ts, 0
  {
    hide CompExpr, CompSeq, BranchTo, JumpTo, Enc, NoSlots, NoSlotsSeq;
    var p0 := p.(slot := mark);
    StaysExpr(ts.test, ctx, at, p0, depth + 1, false, s);
    var t := CompExpr(ts.test, ctx, at, p0, depth + 1, false);
    if t.Ok? {
      var bodyAt := at + |t.value.code| + 5;
      StaysSeq(ts.body, ctx, bodyAt, t.value.p, depth + 1, tail, s);
      var b := CompSeq(ts.body, ctx, bodyAt, t.value.p, depth + 1, tail);
      if b.Ok? {
        FreeTests(ts.rest, ctx, bodyAt + |b.value.code| + 5, b.value.p, mark, depth, tail, s);
      }
    }
  }

  lemma {:induction false} FreeArrow(ts: Tests, ctx: Ctx, at: nat, p: Pools, mark: u8, depth: nat, tail: bool, s: u8)
    requires ts.Arrow? && NoSlotsTests(ts) && mark <= p.slot
    ensures var r := CompTests(ts, ctx, at, p, mark, depth, tail);
      CompTests(ts, ctx, at, p.(slot := s), s, depth, tail) == WithParts(r, s)
      && (r.Ok? ==> NeedNothing(r.value.0) && r.value.1.slot == mark)
    decreases ts, 0
  {
    hide CompExpr, CompSeq, BranchTo, JumpTo, Enc, NoSlots, NoSlotsSeq;
    var p0 := p.(slot := mark);
    StaysExpr(ts.test, ctx, at, p0, depth + 1, false, s);
    var t := CompExpr(ts.test, ctx, at, p0, depth + 1, false);
    if t.Ok? {
      var recvAt := at + |t.value.code| + 6;
      StaysExpr(ts.receiver, ctx, recvAt, t.value.p, depth + 1, false, s);
      var f := CompExpr(ts.receiver, ctx, recvAt, t.value.p, depth + 1, false);
      if f.Ok? {
        FreeTests(ts.rest, ctx, recvAt + |f.value.code| + 3 + 5 + 1, f.value.p, mark, depth, tail, s);
      }
    }
  }

  lemma {:induction false} FreeCond(ts: Tests, ctx: Ctx, at: nat, p: Pools, depth: nat, tail: bool, s: u8)
    requires NoSlotsTests(ts)
    ensures CompCond(ts, ctx, at, p.(slot := s), depth, tail) == With(CompCond(ts, ctx, at, p, depth, tail), s)
    decreases ts, 2
  {
    hide CompTests, Select;
    FreeTests(ts, ctx, at, p, p.slot, depth, tail, s);
    var r := CompTests(ts, ctx, at, p, p.slot, depth, tail);
    if r.Ok? {
      FreeSelect(r.value.0, at, r.value.1, p.slot, tail, [], s);
    }
  }

  lemma {:induction false} FreeData(data: seq<Data.Const>, at: nat, p: Pools, found: nat, s: u8)
    ensures var r := CompData(data, at, p, found);
      CompData(data, at, p.(slot := s), found) == r.(p := r.p.(slot := s))
    decreases data
  {
    hide Enc, BranchTo, JumpTo;
    if data != [] {
      FreeData(data[1..], at + DATUM_TEST, EmitConst(p, data[0]).p, found, s);
    }
  }

  lemma {:induction false} FreeClauses(cs: Clauses, ctx: Ctx, at: nat, p: Pools, mark: u8, depth: nat, tail: bool,
        s: u8)
    requires NoSlotsClauses(cs) && mark <= p.slot
    ensures var r := CompClauses(cs, ctx, at, p, mark, depth, tail);
      CompClauses(cs, ctx, at, p.(slot := s), s, depth, tail) == WithParts(r, s)
      && (r.Ok? ==> NeedNothing(r.value.0) && r.value.1.slot == mark)
    decreases cs, 0
  {
    hide NoSlots;
    hide CompExpr, CompSeq, CompData, BranchTo, JumpTo, Enc;
    var p0 := p.(slot := mark);
    match cs
    case NoClauses =>
    case ElseClauses(body) =>
      StaysSeq(body, ctx, at + 1, p0, depth + 1, tail, s);
    case Clause(data, body, rest) =>
      var bodyAt := at + DATUM_TEST * |data| + 5;
      FreeData(data, at, p0, bodyAt, s);
      var d := CompData(data, at, p0, bodyAt);
      StaysSeq(body, ctx, bodyAt + 1, d.p, depth + 1, tail, s);
      var b := CompSeq(body, ctx, bodyAt + 1, d.p, depth + 1, tail);
      if b.Ok? {
        FreeClauses(rest, ctx, bodyAt + 1 + |b.value.code| + 5, b.value.p, mark, depth, tail, s);
      }
  }

  lemma {:induction false} FreeCase(e: Expr, ctx: Ctx, at: nat, p: Pools, depth: nat, tail: bool, s: u8)
    requires e.Case? && NoSlots(e.key) && NoSlotsClauses(e.clauses)
    ensures CompCase(e.key, e.clauses, ctx, at, p.(slot := s), depth, tail)
         == With(CompCase(e.key, e.clauses, ctx, at, p, depth, tail), s)
    decreases e, 0
  {
    hide CompExpr, CompClauses, Select, Enc;
    FreeExpr(e.key, ctx, at, p, depth + 1, false, s);
    var k := CompExpr(e.key, ctx, at, p, depth + 1, false);
    if k.Ok? {
      var clausesAt := at + |k.value.code|;
      FreeClauses(e.clauses, ctx, clausesAt, k.value.p, k.value.p.slot, depth, tail, s);
      var r := CompClauses(e.clauses, ctx, clausesAt, k.value.p, k.value.p.slot, depth, tail);
      if r.Ok? {
        FreeSelect(r.value.0, clausesAt, r.value.1, k.value.p.slot, tail, Enc(Instr.Pop), s);
      }
    }
  }

  // ----- the counter stays -----

  lemma {:induction false} SlotsExpr(e: Expr, ctx: Ctx, at: nat, p: Pools, depth: nat)
    requires NoSlots(e) && CompExpr(e, ctx, at, p, depth, false).Ok?
    ensures CompExpr(e, ctx, at, p, depth, false).value.p.slot == p.slot
  {
    hide CompExpr;
    FreeExpr(e, ctx, at, p, depth, false, p.slot);
  }

  lemma {:induction false} SlotsSeq(es: Exprs, ctx: Ctx, at: nat, p: Pools, depth: nat)
    requires NoSlotsSeq(es) && CompSeq(es, ctx, at, p, depth, false).Ok?
    ensures CompSeq(es, ctx, at, p, depth, false).value.p.slot == p.slot
  {
    hide CompSeq;
    FreeSeq(es, ctx, at, p, depth, false, p.slot);
  }

  lemma {:induction false} SlotsParts(es: Exprs, ctx: Ctx, at: nat, p: Pools, depth: nat, gap: nat)
    requires es.More? && NoSlotsSeq(es) && CompParts(es, ctx, at, p, depth, false, gap).Ok?
    ensures CompParts(es, ctx, at, p, depth, false, gap).value.1.slot == p.slot
  {
    hide CompParts;
    FreeParts(es, ctx, at, p, depth, false, gap, p.slot);
  }
}
