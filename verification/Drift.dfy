/**
 Where `and`, `or`, `when`, `unless` and the tests of `cond` leave the slots, exactly.
 Nothing rewinds or pads what an operand or a body that did not run would have introduced,
 so outside tail position the frame is laid out as the compiler counts just when that is
 nothing; and each clause of `cond` is compiled as if no test before it had bound a variable,
 so it finds the frame as the compiler counts just when none has.
 */
module Drift {
  import opened Prelude
  import opened Data
  import opened Syntax
  import opened Instr
  import opened Source
  import opened Compile
  import opened Vm
  import opened Relation
  import opened Points
  import opened Steps
  import opened Slots
  import opened Simulation

  /** The slot counter after the operand at which `and` (`wanted` false) or `or` (`wanted` true) stops. */
  ghost function StopSlot(x: Point, es: Exprs, s: State, at: nat, p: Pools, depth: nat, gap: nat, wanted: bool): u8
    requires es.More? && CompParts(es, x.ctx, at, p, depth, false, gap).Ok?
    decreases es
  {
    var a := CompExpr(es.head, x.ctx, at, p, depth, false).value;
    var o := Eval(x.g.prims, x.fuel, es.head, x.env, s, Pending(x), false);
    if es.tail.NoExprs? || !o.Done? || Truthy(o.value.v) == wanted then a.p.slot
    else StopSlot(x, es.tail, o.value.s, at + |a.code| + gap, a.p, depth, gap, wanted)
  }

  /** It does not matter at which later point of the same frame the operands are looked at. */
  lemma {:induction false} SameStop(x: Point, y: Point, es: Exprs, s: State, at: nat, p: Pools, depth: nat, gap: nat,
        wanted: bool)
    requires es.More? && CompParts(es, x.ctx, at, p, depth, false, gap).Ok?
    requires Onward(x, y) && y.ctx == x.ctx && y.env == x.env
    ensures StopSlot(y, es, s, at, p, depth, gap, wanted) == StopSlot(x, es, s, at, p, depth, gap, wanted)
    decreases es
  {
    hide Eval, CompExpr, Extends;
    var a := CompExpr(es.head, x.ctx, at, p, depth, false).value;
    var o := Eval(x.g.prims, x.fuel, es.head, x.env, s, Pending(x), false);
    if !es.tail.NoExprs? && o.Done? && Truthy(o.value.v) != wanted {
      SameStop(x, y, es.tail, o.value.s, at + |a.code| + gap, a.p, depth, gap, wanted);
    }
  }

  /** A run lands with one number of locals. */
  lemma {:induction false} LandsOnce(x: Point, n: nat, o: Outcome<Answer>, ip: nat, slot: u8, slot': u8, z: Landing)
    requires Live(x) && Lands(x, n, o, false, ip, slot, z) && o.Done?
    ensures Lands(x, n, o, false, ip, slot', z) <==> slot == slot'
  {
    hide Run, MatchMemory, Extends;
  }

  lemma {:induction false} AndStops(x: Point, es: Exprs, depth: nat, parts: seq<seq<byte>>, q: Pools, end: nat)
      returns (n: nat, z: Landing)
    requires Situated(x) && x.base == x.c.top.stack && es.More? && SafeSeq(es, false)
    requires CompParts(es, x.ctx, Ip(x), x.p, depth, false, AND_GAP) == Ok((parts, q))
    requires Occurs(Code(x), Ip(x), GlueAnd(parts, end)) && PoolsIn(x.g, x.c.top.fn, q)
    requires end == Ip(x) + GluedLen(parts, AND_GAP)
    requires EvalAnd(x.g.prims, x.fuel, es, x.env, x.s, Pending(x), false).Done?
    ensures Lands(x, n, EvalAnd(x.g.prims, x.fuel, es, x.env, x.s, Pending(x), false), false, end,
                  StopSlot(x, es, x.s, Ip(x), x.p, depth, AND_GAP, false), z)
    decreases es
  {
    hide Selected;
    hide Lands, MatchMemory, MatchEnv, CompExpr, Occurs, Exits, Safe, Eval, Run, Enc, BranchTo, NoSlots, PoolsIn;
    if es.tail.NoExprs? {
      n, z := SimExpr(x, es.head, depth, false);
    } else {
      var o' := EvalAnd(x.g.prims, x.fuel, es, x.env, x.s, Pending(x), false);
      var o := Eval(x.g.prims, x.fuel, es.head, x.env, x.s, Pending(x), false);
      var a := AndLaid(x, es, depth, false, parts, q, end);
      var slot := StopSlot(x, es, x.s, Ip(x), x.p, depth, AND_GAP, false);
      var w;
      n, w := SimValue(x, es.head, depth);
      var k, y := TestTop(w, x.base, o.value.v, end);
      Chain(x, n, w, k, y);
      if Truthy(o.value.v) {
        var y' := PopRuns(y, x.base, o.value.v);
        Chain(x, n + k, y, 1, y');
        var n';
        n', z := AndStops(y', es.tail, depth, parts[1..], q, end);
        SameStop(x, y', es.tail, y'.s, Ip(y'), y'.p, depth, AND_GAP, false);
        ComposeLands(x, n + k + 1, y', n', o', false, end, slot, z);
        n := n + k + 1 + n';
      } else {
        n, z := EndsAt(x, n + k, y, o.value.v, false, end, slot);
      }
    }
  }

  lemma {:induction false} OrStops(x: Point, es: Exprs, depth: nat, parts: seq<seq<byte>>, q: Pools, end: nat)
      returns (n: nat, z: Landing)
    requires Situated(x) && x.base == x.c.top.stack && es.More? && SafeSeq(es, false)
    requires CompParts(es, x.ctx, Ip(x), x.p, depth, false, OR_GAP) == Ok((parts, q))
    requires Occurs(Code(x), Ip(x), GlueOr(parts, Ip(x), end)) && PoolsIn(x.g, x.c.top.fn, q)
    requires end == Ip(x) + GluedLen(parts, OR_GAP)
    requires EvalOr(x.g.prims, x.fuel, es, x.env, x.s, Pending(x), false).Done?
    ensures Lands(x, n, EvalOr(x.g.prims, x.fuel, es, x.env, x.s, Pending(x), false), false, end,
                  StopSlot(x, es, x.s, Ip(x), x.p, depth, OR_GAP, true), z)
    decreases es
  {
    hide Selected, Fits, Size;
    hide Lands, MatchMemory, MatchEnv, CompExpr, Occurs, Exits, Safe, Eval, Run, Enc, BranchTo, JumpTo, NoSlots,
      PoolsIn;
    if es.tail.NoExprs? {
      n, z := SimExpr(x, es.head, depth, false);
    } else {
      var o' := EvalOr(x.g.prims, x.fuel, es, x.env, x.s, Pending(x), false);
      var o := Eval(x.g.prims, x.fuel, es.head, x.env, x.s, Pending(x), false);
      var popAt := Ip(x) + |parts[0]| + 11;
      var a := OrLaid(x, es, depth, false, parts, q, end);
      var slot := StopSlot(x, es, x.s, Ip(x), x.p, depth, OR_GAP, true);
      var w;
      n, w := SimValue(x, es.head, depth);
      var k, y := TestTop(w, x.base, o.value.v, popAt);
      Chain(x, n, w, k, y);
      if Truthy(o.value.v) {
        var y' := JumpRuns(y, end);
        Chain(x, n + k, y, 1, y');
        n, z := EndsAt(x, n + k + 1, y', o.value.v, false, end, slot);
      } else {
        var y' := PopRuns(y, x.base, o.value.v);
        Chain(x, n + k, y, 1, y');
        var n';
        n', z := OrStops(y', es.tail, depth, parts[1..], q, end);
        SameStop(x, y', es.tail, y'.s, Ip(y'), y'.p, depth, OR_GAP, true);
        ComposeLands(x, n + k + 1, y', n', o', false, end, slot, z);
        n := n + k + 1 + n';
      }
    }
  }

  /** `and`: the frame is as the compiler counts just when the operands that did not run introduce nothing. */
  lemma {:induction false} AndExactly(x: Point, es: Exprs, depth: nat) returns (n: nat, z: Landing)
    requires Set(x, CompAnd(es, x.ctx, Ip(x), x.p, depth, false), false) && es.More? && SafeSeq(es, false)
    requires EvalAnd(x.g.prims, x.fuel, es, x.env, x.s, Pending(x), false).Done?
    ensures var r := CompAnd(es, x.ctx, Ip(x), x.p, depth, false);
      var o := EvalAnd(x.g.prims, x.fuel, es, x.env, x.s, Pending(x), false);
      var slot := StopSlot(x, es, x.s, Ip(x), x.p, depth + 1, AND_GAP, false);
      Lands(x, n, o, false, Ip(x) + |r.value.code|, slot, z)
      && (Done1(x, n, o, false, r, z) <==> slot == r.value.p.slot)
  {
    hide Lands, MatchMemory, MatchEnv, CompParts, Occurs, Exits, PoolsIn, SafeSeq, EvalAnd, Run, StopSlot, GlueAnd;
    var (parts, q) := CompParts(es, x.ctx, Ip(x), x.p, depth + 1, false, AND_GAP).value;
    var end := Ip(x) + GluedLen(parts, AND_GAP);
    n, z := AndStops(x, es, depth + 1, parts, q, end);
    LandsOnce(x, n, EvalAnd(x.g.prims, x.fuel, es, x.env, x.s, Pending(x), false), end,
              StopSlot(x, es, x.s, Ip(x), x.p, depth + 1, AND_GAP, false), q.slot, z);
  }

  lemma {:induction false} OrExactly(x: Point, es: Exprs, depth: nat) returns (n: nat, z: Landing)
    requires Set(x, CompOr(es, x.ctx, Ip(x), x.p, depth, false), false) && es.More? && SafeSeq(es, false)
    requires EvalOr(x.g.prims, x.fuel, es, x.env, x.s, Pending(x), false).Done?
    ensures var r := CompOr(es, x.ctx, Ip(x), x.p, depth, false);
      var o := EvalOr(x.g.prims, x.fuel, es, x.env, x.s, Pending(x), false);
      var slot := StopSlot(x, es, x.s, Ip(x), x.p, depth + 1, OR_GAP, true);
      Lands(x, n, o, false, Ip(x) + |r.value.code|, slot, z)
      && (Done1(x, n, o, false, r, z) <==> slot == r.value.p.slot)
  {
    hide Lands, MatchMemory, MatchEnv, CompParts, Occurs, Exits, PoolsIn, SafeSeq, EvalOr, Run, StopSlot, GlueOr;
    var (parts, q) := CompParts(es, x.ctx, Ip(x), x.p, depth + 1, false, OR_GAP).value;
    var end := Ip(x) + GluedLen(parts, OR_GAP);
    n, z := OrStops(x, es, depth + 1, parts, q, end);
    LandsOnce(x, n, EvalOr(x.g.prims, x.fuel, es, x.env, x.s, Pending(x), false), end,
              StopSlot(x, es, x.s, Ip(x), x.p, depth + 1, OR_GAP, true), q.slot, z);
  }

  /** `when` whose body does not run: exact just when the body introduces nothing. */
  lemma {:induction false} WhenExactly(x: Point, test: Expr, body: Exprs, depth: nat) returns (n: nat, z: Landing)
    requires Set(x, CompWhen(test, body, x.ctx, Ip(x), x.p, depth, false), false) && Safe(test, false)
    requires var o := Eval(x.g.prims, x.fuel, test, x.env, x.s, Pending(x), false); o.Done? && !Truthy(o.value.v)
    ensures var r := CompWhen(test, body, x.ctx, Ip(x), x.p, depth, false);
      var o := Eval(x.g.prims, x.fuel, When(test, body), x.env, x.s, Pending(x), false);
      var slot := CompExpr(test, x.ctx, Ip(x), x.p, depth + 1, false).value.p.slot;
      Lands(x, n, o, false, Ip(x) + |r.value.code|, slot, z)
      && (Done1(x, n, o, false, r, z) <==> slot == r.value.p.slot)
  {
    hide Lands, MatchMemory, MatchEnv, CompWhen, CompExpr, CompSeq, Occurs, Exits, JumpTo, BranchTo, Eval, EvalSeq;
    hide PoolsIn, Run, EmitConst;
    var t, b, end := WhenLaid(x, test, body, depth, false);
    WhenMeaning(x, test, body, false);
    var o' := Eval(x.g.prims, x.fuel, When(test, body), x.env, x.s, Pending(x), false);
    var w, n' := x, 0;
    n, w, z := SimTest(x, test, depth, end - 5);
    var w' := w.(p := b.p);
    n', z := SimUnspecified(w', false, w.p.slot);
    ComposeLands(x, n, w', n', o', false, end, w.p.slot, z);
    n := n + n';
    LandsOnce(x, n, o', end, w.p.slot, b.p.slot, z);
  }

  lemma {:induction false} UnlessExactly(x: Point, test: Expr, body: Exprs, depth: nat) returns (n: nat, z: Landing)
    requires Set(x, CompUnless(test, body, x.ctx, Ip(x), x.p, depth, false), false) && Safe(test, false)
    requires var o := Eval(x.g.prims, x.fuel, test, x.env, x.s, Pending(x), false); o.Done? && Truthy(o.value.v)
    ensures var r := CompUnless(test, body, x.ctx, Ip(x), x.p, depth, false);
      var o := Eval(x.g.prims, x.fuel, Unless(test, body), x.env, x.s, Pending(x), false);
      var slot := CompExpr(test, x.ctx, Ip(x), x.p, depth + 1, false).value.p.slot;
      Lands(x, n, o, false, Ip(x) + |r.value.code|, slot, z)
      && (Done1(x, n, o, false, r, z) <==> slot == r.value.p.slot)
  {
    hide Lands, MatchMemory, MatchEnv, CompUnless, CompExpr, CompSeq, Occurs, Exits, JumpTo, BranchTo, Eval, EvalSeq;
    hide PoolsIn, Run;
    var t, b, bodyAt, end := UnlessLaid(x, test, body, depth, false);
    UnlessMeaning(x, test, body, false);
    var o' := Eval(x.g.prims, x.fuel, Unless(test, body), x.env, x.s, Pending(x), false);
    var w, n' := x, 0;
    n, w, z := SimTest(x, test, depth, bodyAt);
    n', z := SimUnspecified(w, false, w.p.slot);
    n', z := LandJump(w, n', o', false, bodyAt - 5, w.p.slot, z, end);
    ComposeLands(x, n, w, n', o', false, end, w.p.slot, z);
    n := n + n';
    LandsOnce(x, n, o', end, w.p.slot, b.p.slot, z);
  }

  // ----- cond -----

  /** `ts` begins with `k` clauses that have tests, each safe in a frame laid out as the compiler counts. */
  predicate Tested(ts: Tests, k: nat) {
    k == 0 || ((ts.Test? || ts.Arrow?) && Safe(ts.test, false) && Tested(ts.rest, k - 1))
  }

  /** The state in which the evaluator is once the first `k` tests have failed, if they do. */
  ghost function Failed(prims: Natives, fuel: nat, ts: Tests, env: Env, s: State, d: nat, k: nat): Option<State>
    requires Tested(ts, k)
    decreases k
  {
    if k == 0 then Some(s)
    else
      var o := Eval(prims, fuel, ts.test, env, s, d, false);
      if o.Done? && !Truthy(o.value.v) then Failed(prims, fuel, ts.rest, env, o.value.s, d, k - 1) else None
  }

  /** How far each test moves the slot counter, for the clauses up to the first without a test. */
  function TestMoves(ts: Tests, ctx: Ctx, at: nat, p: Pools, mark: u8, depth: nat, tail: bool): seq<nat>
    decreases ts
  {
    if ts.NoTests? || ts.ElseTests? then []
    else
      match CompExpr(ts.test, ctx, at, p.(slot := mark), depth + 1, false)
      case Err(_) => []
      case Ok(t) =>
        var b := if ts.Test? then CompSeq(ts.body, ctx, at + |t.code| + 5, t.p, depth + 1, tail)
                 else CompExpr(ts.receiver, ctx, at + |t.code| + 6, t.p, depth + 1, false);
        var next := at + |t.code| + (if b.Err? then 0 else |b.value.code|) + (if ts.Test? then 10 else 15);
        [t.p.slot - mark]
        + if b.Err? then [] else TestMoves(ts.rest, ctx, next, b.value.p, mark, depth, tail)
  }

  /** A frame at the start of the clauses `y`, with at least the slots the compiler counts there. */
  ghost predicate Before(x: Point, ts: Tests, depth: nat, y: Layout, p: Pools) {
    Situated(x) && Selected(x, y) && Ip(x) == y.at && y.mark <= p.slot && x.p == p.(slot := x.p.slot)
    && y.mark <= x.p.slot && x.base == x.c.top.stack
    && CompTests(ts, x.ctx, y.at, p, y.mark, depth, y.tail) == Ok((y.parts, y.np))
  }

  /** `w` is a later point of the frame, in state `s`, with nothing more on the stack. */
  ghost predicate Later(x: Point, n: nat, w: Point, s: State) {
    Onward(x, w) && Run(x.g, n, x.c) == w.c && w == x.(c := w.c, s := s, p := w.p, l := w.l)
    && w.c.top.stack == x.base
  }

  /** How the slots moved by the tests from some clause on relate to those from the next. */
  ghost predicate MovesOn(ts: Tests, ctx: Ctx, y: Layout, p: Pools, q: Pools, depth: nat, move: nat)
    requires y.Fit() && y.parts != [] && y.parts[0].needs <= y.target && (ts.Test? || ts.Arrow?)
  {
    TestMoves(ts, ctx, y.at, p, y.mark, depth, y.tail)
    == [move] + TestMoves(ts.rest, ctx, y.Rest().at, q, y.mark, depth, y.tail)
  }

  lemma {:induction false} MovesNext(ts: Tests, ctx: Ctx, y: Layout, p: Pools, depth: nat, t: Emitted, b: Emitted)
    requires y.Fit() && y.parts != [] && y.parts[0].needs <= y.target && (ts.Test? || ts.Arrow?) && y.mark <= t.p.slot
    requires CompExpr(ts.test, ctx, y.at, p.(slot := y.mark), depth + 1, false) == Ok(t)
    requires if ts.Test? then CompSeq(ts.body, ctx, y.at + |t.code| + 5, t.p, depth + 1, y.tail) == Ok(b)
             else CompExpr(ts.receiver, ctx, y.at + |t.code| + 6, t.p, depth + 1, false) == Ok(b)
    requires y.Rest().at == y.at + |t.code| + |b.code| + if ts.Test? then 10 else 15
    ensures MovesOn(ts, ctx, y, p, b.p, depth, t.p.slot - y.mark)
  {
    hide CompExpr, CompSeq;
  }

  lemma {:induction false} SelectsFit(x: Point, y: Layout)
    requires Selected(x, y)
    ensures y.Fit() && (y.parts != [] ==> y.parts[0].needs <= y.target)
  {
  }

  /** A failing test leads to the next clause, its slots left behind. */
  lemma {:induction false} FailsOne(x: Point, ts: Tests, depth: nat, y: Layout, p: Pools)
      returns (n: nat, w: Point, q: Pools)
    requires Before(x, ts, depth, y, p) && (ts.Test? || ts.Arrow?) && Safe(ts.test, false)
    requires x.p.slot == y.mark || NoSlots(ts.test)
    requires var o := Eval(x.g.prims, x.fuel, ts.test, x.env, x.s, Pending(x), false); o.Done? && !Truthy(o.value.v)
    ensures y.Fit() && y.parts != [] && y.parts[0].needs <= y.target && x.p.slot <= w.p.slot
    ensures Before(w, ts.rest, depth, y.Rest(), q) && MovesOn(ts, x.ctx, y, p, q, depth, w.p.slot - x.p.slot)
    ensures Later(x, n, w, Eval(x.g.prims, x.fuel, ts.test, x.env, x.s, Pending(x), false).value.s)
  {
    hide Before, MovesOn, Later, Eval, Safe, NoSlots;
    if ts.Test? {
      n, w, q := FailsTest(x, ts, depth, y, p);
    } else {
      n, w, q := FailsArrow(x, ts, depth, y, p);
    }
  }

  lemma {:induction false} FailsTest(x: Point, ts: Tests, depth: nat, y: Layout, p: Pools)
      returns (n: nat, w: Point, q: Pools)
    requires Before(x, ts, depth, y, p) && ts.Test? && Safe(ts.test, false)
    requires x.p.slot == y.mark || NoSlots(ts.test)
    requires var o := Eval(x.g.prims, x.fuel, ts.test, x.env, x.s, Pending(x), false); o.Done? && !Truthy(o.value.v)
    ensures y.Fit() && y.parts != [] && y.parts[0].needs <= y.target && x.p.slot <= w.p.slot
    ensures Before(w, ts.rest, depth, y.Rest(), q) && MovesOn(ts, x.ctx, y, p, q, depth, w.p.slot - x.p.slot)
    ensures Later(x, n, w, Eval(x.g.prims, x.fuel, ts.test, x.env, x.s, Pending(x), false).value.s)
  {
    hide Fits, MatchMemory, MatchEnv, CompTests, CompSeq, CompExpr, Occurs, Exits, Run, Eval, Safe, NoSlots;
    hide JumpTo, BranchTo, JoinParts, Stubs, EmitConst, PadUnlessTail, Selected, MovesOn;
    var t, b := TestLaid(x, ts, depth, y, p);
    SelectsFit(x, y);
    ClauseLaid(x, y);
    MovesNext(ts, x.ctx, y, p, depth, t, b);
    if x.p.slot != y.mark {
      FreeExpr(ts.test, x.ctx, y.at, p.(slot := y.mark), depth + 1, false, x.p.slot);
      SlotsExpr(ts.test, x.ctx, y.at, p.(slot := y.mark), depth + 1);
    }
    assert CompExpr(ts.test, x.ctx, y.at, x.p, depth + 1, false).value.p.fns == t.p.fns;
    var z;
    n, w, z := SimTest(x, ts.test, depth, y.at + |y.parts[0].pre| + 5);
    q := b.p;
    w := w.(p := q.(slot := w.p.slot));
    SelectedOn(x, w, y.Rest());
  }

  /** A kept test that fails, and the POP behind its clause. */
  lemma {:induction false} DropsKept(x: Point, test: Expr, depth: nat, target: nat) returns (n: nat, w: Point)
    requires Situated(x) && x.base == x.c.top.stack && Safe(test, false)
    requires CompExpr(test, x.ctx, Ip(x), x.p, depth + 1, false).Ok?
    requires var c := CompExpr(test, x.ctx, Ip(x), x.p, depth + 1, false).value;
      Laid(x, c.code, c.p) && Occurs(Code(x), Ip(x) + |c.code|, Enc(Dup))
      && Occurs(Code(x), Ip(x) + |c.code| + 1, BranchTo(target)) && Ip(x) + |c.code| + 1 < target <= |Code(x)|
    requires Occurs(Code(x), target, Enc(Pop))
    requires var o := Eval(x.g.prims, x.fuel, test, x.env, x.s, Pending(x), false); o.Done? && !Truthy(o.value.v)
    ensures Situated(w) && Later(x, n, w, Eval(x.g.prims, x.fuel, test, x.env, x.s, Pending(x), false).value.s)
    ensures w.p == CompExpr(test, x.ctx, Ip(x), x.p, depth + 1, false).value.p && Ip(w) == target + 1
  {
    hide MatchMemory, MatchEnv, CompExpr, Occurs, Run, PoolsIn, Eval, Safe, Enc, BranchTo, Fits;
    var v;
    n, v := SimKeptTest(x, test, depth, target);
    w := PopRuns(v, x.base, Eval(x.g.prims, x.fuel, test, x.env, x.s, Pending(x), false).value.v);
    Chain(x, n, v, 1, w);
    n := n + 1;
  }

  lemma {:induction false} FailsArrow(x: Point, ts: Tests, depth: nat, y: Layout, p: Pools)
      returns (n: nat, w: Point, q: Pools)
    requires Before(x, ts, depth, y, p) && ts.Arrow? && Safe(ts.test, false)
    requires x.p.slot == y.mark || NoSlots(ts.test)
    requires var o := Eval(x.g.prims, x.fuel, ts.test, x.env, x.s, Pending(x), false); o.Done? && !Truthy(o.value.v)
    ensures y.Fit() && y.parts != [] && y.parts[0].needs <= y.target && x.p.slot <= w.p.slot
    ensures Before(w, ts.rest, depth, y.Rest(), q) && MovesOn(ts, x.ctx, y, p, q, depth, w.p.slot - x.p.slot)
    ensures Later(x, n, w, Eval(x.g.prims, x.fuel, ts.test, x.env, x.s, Pending(x), false).value.s)
  {
    hide Fits, MatchMemory, MatchEnv, CompTests, CompSeq, CompExpr, Occurs, Exits, Run, Eval, Safe, NoSlots;
    hide JumpTo, BranchTo, JoinParts, Stubs, EmitConst, PadUnlessTail, Selected, MovesOn, Enc;
    var t, f := ArrowLaid(x, ts, depth, y, p);
    SelectsFit(x, y);
    ClauseLaid(x, y);
    MovesNext(ts, x.ctx, y, p, depth, t, f);
    if x.p.slot != y.mark {
      FreeExpr(ts.test, x.ctx, y.at, p.(slot := y.mark), depth + 1, false, x.p.slot);
      SlotsExpr(ts.test, x.ctx, y.at, p.(slot := y.mark), depth + 1);
    }
    assert CompExpr(ts.test, x.ctx, y.at, x.p, depth + 1, false).value.p.fns == t.p.fns;
    n, w := DropsKept(x, ts.test, depth, y.at + |y.parts[0].pre| + 5);
    q := f.p;
    w := w.(p := q.(slot := w.p.slot));
    SelectedOn(x, w, y.Rest());
  }

  function Sum(ms: seq<nat>): nat {
    if ms == [] then 0 else ms[0] + Sum(ms[1..])
  }

  function Behind(ts: Tests, k: nat): Tests
    requires Tested(ts, k)
    decreases k
  {
    if k == 0 then ts else Behind(ts.rest, k - 1)
  }

  /** How many of the first `k` tests run before one that binds a variable meets a frame with slots left behind. */
  function Followed(ts: Tests, moves: seq<nat>, left: nat, k: nat): (j: nat)
    requires Tested(ts, k)
    ensures j <= k && Tested(ts, j)
    decreases k
  {
    if k == 0 || moves == [] || (left > 0 && !NoSlots(ts.test)) then 0
    else 1 + Followed(ts.rest, moves[1..], left + moves[0], k - 1)
  }

  /** All tests run if none leaves slots behind; otherwise one that did is among those that ran. */
  lemma {:induction false} FollowedWhen(ts: Tests, moves: seq<nat>, left: nat, k: nat)
    requires Tested(ts, k) && k <= |moves|
    ensures var j := Followed(ts, moves, left, k);
      (left + Sum(moves[..k]) == 0 ==> j == k) && (left + Sum(moves[..k]) > 0 ==> left + Sum(moves[..j]) > 0)
    decreases k
  {
    hide NoSlots, Safe;
    var j := Followed(ts, moves, left, k);
    if k > 0 {
      assert moves[..k][1..] == moves[1..][..k - 1];
      if j > 0 {
        FollowedWhen(ts.rest, moves[1..], left + moves[0], k - 1);
        assert moves[..j][1..] == moves[1..][..j - 1];
      }
    }
  }

  /** The tests have run as the evaluator runs them, up to one that would bind a variable in the wrong slot. */
  ghost predicate Ran(x: Point, ts: Tests, depth: nat, y: Layout, p: Pools, k: nat,
                      n: nat, w: Point, z: Layout, q: Pools, j: nat)
  {
    var moves := TestMoves(ts, x.ctx, y.at, p, y.mark, depth, y.tail);
    Tested(ts, k) && y.mark <= x.p.slot && k <= |moves| && j <= |moves| && j <= |y.parts|
    && j == Followed(ts, moves, x.p.slot - y.mark, k) && w.p.slot == x.p.slot + Sum(moves[..j])
    && Before(w, Behind(ts, j), depth, z, q)
    && (var o := Failed(x.g.prims, x.fuel, ts, x.env, x.s, Pending(x), j); o.Some? && Later(x, n, w, o.value))
    && z == y.(at := z.at, parts := y.parts[j..], stubAt := z.stubAt, sp := z.sp) && z.NoneAt() == y.NoneAt()
  }

  lemma {:induction false} TestsFail(x: Point, ts: Tests, depth: nat, y: Layout, p: Pools, k: nat)
      returns (n: nat, w: Point, z: Layout, q: Pools, j: nat)
    requires Before(x, ts, depth, y, p) && Tested(ts, k) && k <= |TestMoves(ts, x.ctx, y.at, p, y.mark, depth, y.tail)|
    requires Failed(x.g.prims, x.fuel, ts, x.env, x.s, Pending(x), k).Some?
    ensures Ran(x, ts, depth, y, p, k, n, w, z, q, j)
    decreases k
  {
    hide Before, Later, Ran, Eval, Safe, NoSlots, TestMoves, Failed;
    FailedUnfolded(x.g.prims, x.fuel, ts, x.env, x.s, Pending(x), k);
    if k > 0 && (x.p.slot == y.mark || NoSlots(ts.test)) {
      var a, v, p' := FailsOne(x, ts, depth, y, p);
      LaterSame(x, a, v, Eval(x.g.prims, x.fuel, ts.test, x.env, x.s, Pending(x), false).value.s);
      n, w, z, q, j := TestsFail(v, ts.rest, depth, y.Rest(), p', k - 1);
      RanOn(x, ts, depth, y, p, k, a, v, y.Rest(), p', n, w, z, q, j);
      n, j := a + n, 1 + j;
    } else {
      n, w, z, q, j := 0, x, y, p, 0;
      RanNone(x, ts, depth, y, p, k);
    }
  }

  /** The first test has failed, and `v` is at the clauses behind it. */
  ghost predicate Stepped(x: Point, ts: Tests, depth: nat, y: Layout, p: Pools, a: nat, v: Point, rest: Layout,
                          q: Pools)
  {
    (ts.Test? || ts.Arrow?) && y.Fit() && y.parts != [] && y.parts[0].needs <= y.target && rest == y.Rest()
    && x.p.slot <= v.p.slot && Before(v, ts.rest, depth, rest, q)
    && MovesOn(ts, x.ctx, y, p, q, depth, v.p.slot - x.p.slot)
    && var o := Eval(x.g.prims, x.fuel, ts.test, x.env, x.s, Pending(x), false);
       o.Done? && !Truthy(o.value.v) && Later(x, a, v, o.value.s)
  }

  lemma {:induction false} RanNone(x: Point, ts: Tests, depth: nat, y: Layout, p: Pools, k: nat)
    requires Before(x, ts, depth, y, p) && Tested(ts, k) && k <= |TestMoves(ts, x.ctx, y.at, p, y.mark, depth, y.tail)|
    requires k > 0 ==> x.p.slot != y.mark && !NoSlots(ts.test)
    ensures Ran(x, ts, depth, y, p, k, 0, x, y, p, 0)
  {
    hide Situated, Selected, CompTests, Eval, Safe, NoSlots, Run, TestMoves;
    FailedUnfolded(x.g.prims, x.fuel, ts, x.env, x.s, Pending(x), 0);
    LaterSelf(x);
    assert y.parts[0..] == y.parts;
  }

  lemma {:induction false} RanOn(x: Point, ts: Tests, depth: nat, y: Layout, p: Pools, k: nat, a: nat, v: Point,
        rest: Layout, p': Pools, n: nat, w: Point, z: Layout, q: Pools, j: nat)
    requires k > 0 && (ts.Test? || ts.Arrow?) && (x.p.slot == y.mark || NoSlots(ts.test))
    requires Safe(ts.test, false)
    requires Before(x, ts, depth, y, p) && Stepped(x, ts, depth, y, p, a, v, rest, p')
    requires Ran(v, ts.rest, depth, rest, p', k - 1, n, w, z, q, j)
    ensures Ran(x, ts, depth, y, p, k, a + n, w, z, q, 1 + j)
  {
    hide Situated, Selected, CompTests, Eval, Safe, NoSlots, TestMoves, Failed, PartsLen;
    LaterSame(x, a, v, v.s);
    FailedUnfolded(x.g.prims, x.fuel, ts, x.env, x.s, Pending(x), 1 + j);
    LaterOn(x, a, v, n, w);
    RestNoneAt(y);
    var moves := TestMoves(ts, x.ctx, y.at, p, y.mark, depth, y.tail);
    assert moves[..1 + j][1..] == moves[1..][..j] && y.parts[1..][j..] == y.parts[1 + j..];
  }

  lemma {:induction false} LaterOn(x: Point, a: nat, v: Point, n: nat, w: Point)
    requires Later(x, a, v, v.s) && Later(v, n, w, w.s)
    ensures Later(x, a + n, w, w.s)
  {
    hide Run;
    Chain(x, a, v, n, w);
  }

  lemma {:induction false} RestNoneAt(y: Layout)
    requires y.Fit() && y.parts != [] && y.parts[0].needs <= y.target
    ensures y.Rest().NoneAt() == y.NoneAt()
  {
  }

  lemma {:induction false} FailedUnfolded(prims: Natives, fuel: nat, ts: Tests, env: Env, s: State, d: nat, k: nat)
    requires Tested(ts, k)
    ensures k == 0 ==> Failed(prims, fuel, ts, env, s, d, k) == Some(s)
    ensures k > 0 ==>
      var o := Eval(prims, fuel, ts.test, env, s, d, false);
      Failed(prims, fuel, ts, env, s, d, k)
      == if o.Done? && !Truthy(o.value.v) then Failed(prims, fuel, ts.rest, env, o.value.s, d, k - 1) else None
  {
    hide Eval, Safe;
  }

  lemma {:induction false} LaterSelf(x: Point)
    requires Situated(x) && x.c.top.stack == x.base
    ensures Later(x, 0, x, x.s)
  {
    RunZero(x.g, x.c);
  }

  lemma {:induction false} LaterSame(x: Point, n: nat, w: Point, s: State)
    requires Later(x, n, w, s)
    ensures w.g == x.g && w.fuel == x.fuel && w.env == x.env && w.ctx == x.ctx && Pending(w) == Pending(x) && w.s == s
    ensures w.base == x.base && x.c.Running? && w.c.Running?
  {
  }

  lemma {:induction false} TestShape(ts: Tests, ctx: Ctx, at: nat, p: Pools, mark: u8, depth: nat, tail: bool)
      returns (t: Emitted, b: Emitted)
    requires ts.Test? && mark <= p.slot && CompTests(ts, ctx, at, p, mark, depth, tail).Ok?
    ensures CompExpr(ts.test, ctx, at, p.(slot := mark), depth + 1, false) == Ok(t) && Grown(p.(slot := mark), t.p)
    ensures CompSeq(ts.body, ctx, at + |t.code| + 5, t.p, depth + 1, tail) == Ok(b) && Grown(t.p, b.p)
    ensures CompTests(ts.rest, ctx, at + |t.code| + |b.code| + 10, b.p, mark, depth, tail).Ok?
  {
    hide CompExpr, CompSeq, JumpTo, BranchTo, Enc;
    t := CompExpr(ts.test, ctx, at, p.(slot := mark), depth + 1, false).value;
    b := CompSeq(ts.body, ctx, at + |t.code| + 5, t.p, depth + 1, tail).value;
    assert at + |t.code| + 5 + |b.code| + 5 == at + |t.code| + |b.code| + 10;
  }

  lemma {:induction false} MovesCount(ts: Tests, ctx: Ctx, at: nat, p: Pools, mark: u8, depth: nat, tail: bool, k: nat)
    requires mark <= p.slot && CompTests(ts, ctx, at, p, mark, depth, tail).Ok? && Tested(ts, k)
    ensures k <= |TestMoves(ts, ctx, at, p, mark, depth, tail)|
    decreases k
  {
    hide CompTests, CompExpr, CompSeq, JumpTo, BranchTo, Enc, Safe;
    if k > 0 {
      if ts.Test? {
        var t, b := TestShape(ts, ctx, at, p, mark, depth, tail);
        MovesCount(ts.rest, ctx, at + |t.code| + |b.code| + 10, b.p, mark, depth, tail, k - 1);
      } else {
        var t, f := ArrowShape(ts, ctx, at, p, mark, depth, tail);
        assert at + |t.code| + 6 + |f.code| + 8 + 1 == at + |t.code| + |f.code| + 15;
        MovesCount(ts.rest, ctx, at + |t.code| + |f.code| + 15, f.p, mark, depth, tail, k - 1);
      }
    }
  }

  /** The moves of the tests of a `cond` compiled at a point. */
  function MovesAt(x: Point, ts: Tests, depth: nat, tail: bool): seq<nat>
    requires x.c.Running?
  {
    TestMoves(ts, x.ctx, x.c.top.ip, x.p, x.p.slot, depth, tail)
  }

  /** `w` is at the start of a clause of the `cond` at `x`, and `z`, `q` say how the compiler laid it out. */
  ghost predicate Reached(x: Point, w: Point, left: Tests, depth: nat, z: Layout, q: Pools, tail: bool, end: nat) {
    Before(w, left, depth, z, q) && z.mark == x.p.slot && z.tail == tail && z.end == end && z.discard == []
  }

  /**
   `cond`, when its first `k` tests fail: a clause finds the frame as the compiler counts it
   just when no test before it has moved the slot counter.  Once one has, later tests run on
   only as long as they bind nothing themselves.
   */
  lemma {:induction false} CondExactly(x: Point, ts: Tests, depth: nat, tail: bool, k: nat)
      returns (n: nat, w: Point, z: Layout, q: Pools, j: nat)
    requires Set(x, CompCond(ts, x.ctx, Ip(x), x.p, depth, tail), tail) && Tested(ts, k)
    requires Failed(x.g.prims, x.fuel, ts, x.env, x.s, Pending(x), k).Some?
    ensures x.c.Running? && w.c.Running? && x.ctx == w.ctx
    ensures var moves := MovesAt(x, ts, depth, tail);
      k <= |moves| && j == Followed(ts, moves, 0, k) && |w.c.top.locals| == x.p.slot + Sum(moves[..j])
      && (j == k && |w.c.top.locals| == x.p.slot <==> Sum(moves[..k]) == 0)
    ensures var o := Failed(x.g.prims, x.fuel, ts, x.env, x.s, Pending(x), j); o.Some? && Later(x, n, w, o.value)
    ensures Reached(x, w, Behind(ts, j), depth, z, q, tail,
                    Ip(x) + |CompCond(ts, x.ctx, Ip(x), x.p, depth, tail).value.code|)
    ensures !tail ==> CompCond(ts, x.ctx, Ip(x), x.p, depth, tail).value.p.slot == x.p.slot + z.target
  {
    hide MatchMemory, MatchEnv, CompTests, Occurs, Exits, Run, PoolsIn, Select, Selected, Failed, TestMoves, Safe;
    var (parts, p') := CompTests(ts, x.ctx, Ip(x), x.p, x.p.slot, depth, tail).value;
    var y := SelectLaid(x, Ip(x), parts, p', x.p.slot, tail, []);
    assert x.p.(slot := x.p.slot) == x.p;
    MovesCount(ts, x.ctx, Ip(x), x.p, x.p.slot, depth, tail, k);
    n, w, z, q, j := TestsFail(x, ts, depth, y, x.p, k);
    FollowedWhen(ts, MovesAt(x, ts, depth, tail), 0, k);
  }

  /** The body of the clause taken begins with what the compiler counts and what failed tests have left behind. */
  lemma {:induction false} TakenExactly(x: Point, ts: Tests, depth: nat, y: Layout, p: Pools) returns (n: nat, w: Point)
    requires Before(x, ts, depth, y, p) && (ts.Test? || ts.Arrow?) && Safe(ts.test, false)
    requires x.p.slot == y.mark || NoSlots(ts.test)
    requires var o := Eval(x.g.prims, x.fuel, ts.test, x.env, x.s, Pending(x), false); o.Done? && Truthy(o.value.v)
    ensures CompExpr(ts.test, x.ctx, y.at, p.(slot := y.mark), depth + 1, false).Ok?
    ensures var t := CompExpr(ts.test, x.ctx, y.at, p.(slot := y.mark), depth + 1, false).value;
      Situated(w) && Onward(x, w) && Run(x.g, n, x.c) == w.c
      && Ip(w) == y.at + |t.code| + (if ts.Test? then 5 else 6)
      && |w.c.top.locals| == t.p.slot + (x.p.slot - y.mark)
      && (|w.c.top.locals| == t.p.slot <==> x.p.slot == y.mark)
  {
    hide Fits, MatchMemory, MatchEnv, CompTests, CompSeq, CompExpr, Occurs, Exits, Run, Eval, Safe, NoSlots;
    hide JumpTo, BranchTo, JoinParts, Stubs, EmitConst, PadUnlessTail, Selected, Enc;
    var t;
    if ts.Test? {
      var b;
      t, b := TestLaid(x, ts, depth, y, p);
    } else {
      var f;
      t, f := ArrowLaid(x, ts, depth, y, p);
    }
    ClauseLaid(x, y);
    if x.p.slot != y.mark {
      FreeExpr(ts.test, x.ctx, y.at, p.(slot := y.mark), depth + 1, false, x.p.slot);
      SlotsExpr(ts.test, x.ctx, y.at, p.(slot := y.mark), depth + 1);
    }
    assert CompExpr(ts.test, x.ctx, y.at, x.p, depth + 1, false).value.p.fns == t.p.fns;
    if ts.Test? {
      var z;
      n, w, z := SimTest(x, ts.test, depth, y.at + |y.parts[0].pre| + 5);
    } else {
      n, w := SimKeptTest(x, ts.test, depth, y.at + |y.parts[0].pre| + 5);
    }
  }

  /** Padding adds as many locals as the compiler counts, whatever there were. */
  lemma {:induction false} PadsAdd(x: Point, p: Pools, target: u8) returns (n: nat, y: Point)
    requires Live(x) && Fits(x.g.fns) && x.c.top.steps + Ip(x) > |Code(x)|
    requires Occurs(Code(x), Ip(x), Pad(p, target).code) && PoolsIn(x.g, x.c.top.fn, Pad(p, target).p)
    ensures y == x.(c := y.c) && Live(y) && Run(x.g, n, x.c) == y.c && y.c.top.steps + Ip(y) > |Code(x)|
    ensures y.c.top.fn == x.c.top.fn && Ip(y) == Ip(x) + |Pad(p, target).code| && y.c.top.stack == x.c.top.stack
    ensures |y.c.top.locals| == |x.c.top.locals| + (Max(p.slot, target) - p.slot)
    ensures y.c.callers == x.c.callers && y.c.depth == x.c.depth
    ensures y.c.m.globals == x.c.m.globals && y.c.m.world == x.c.m.world
    decreases target - p.slot
  {
    hide Step, Run;
    if p.slot >= target {
      n, y := 0, x;
      RunZero(x.g, x.c);
    } else {
      var c := EmitConst(p, CUnspecified);
      var q := c.p.(slot := p.slot + 1);
      OccursSplit3(Code(x), Ip(x), c.code, Enc(PushLocal), Pad(q, target).code);
      var w := PadAdds(x, p);
      n, y := PadsAdd(w, q, target);
      RunAdd(x.g, 2, n, x.c);
      n := 2 + n;
    }
  }

  lemma {:induction false} PadAdds(x: Point, p: Pools) returns (y: Point)
    requires Live(x) && Fits(x.g.fns) && x.c.top.steps + Ip(x) > |Code(x)|
    requires Occurs(Code(x), Ip(x), EmitConst(p, CUnspecified).code) && Occurs(Code(x), Ip(x) + 5, Enc(PushLocal))
    requires PoolsIn(x.g, x.c.top.fn, AddConst(p, CUnspecified))
    ensures y == x.(c := y.c) && Live(y) && Run(x.g, 2, x.c) == y.c && y.c.top.steps + Ip(y) > |Code(x)|
    ensures y.c.top.fn == x.c.top.fn && Ip(y) == Ip(x) + 6 && y.c.top.stack == x.c.top.stack
    ensures |y.c.top.locals| == |x.c.top.locals| + 1 && y.c.callers == x.c.callers && y.c.depth == x.c.depth
    ensures y.c.m.globals == x.c.m.globals && y.c.m.world == x.c.m.world
  {
    hide Step, Enc;
    var w := UnspecifiedPushed(x, p);
    StepAt(w, PushLocal);
    assert w.c.top.stack[..|x.c.top.stack|] == x.c.top.stack;
    RunAdd(x.g, 1, 1, x.c);
    y := x.(c := Run(x.g, 2, x.c));
  }

  lemma {:induction false} UnspecifiedPushed(x: Point, p: Pools) returns (y: Point)
    requires Live(x) && Fits(x.g.fns) && x.c.top.steps + Ip(x) > |Code(x)|
    requires Occurs(Code(x), Ip(x), EmitConst(p, CUnspecified).code)
    requires PoolsIn(x.g, x.c.top.fn, AddConst(p, CUnspecified))
    ensures y == x.(c := Next(x, Ip(x) + 5, x.c.top.stack + [Unspecified], x.c.m)) && Run(x.g, 1, x.c) == y.c
    ensures y.c.top.steps + Ip(y) > |Code(x)|
  {
    hide Step, Enc;
    var k := |p.consts|;
    assert AddConst(p, CUnspecified).consts[k] == CUnspecified;
    assert AsU32(k) == k;
    StepAt(x, Instr.Const(k));
    y := x.(c := Run(x.g, 1, x.c));
  }

  /** The unspecified value and the padding of the no-match path. */
  lemma {:induction false} NonePads(x: Point, depth: nat, y: Layout, p: Pools) returns (n: nat, u: Point)
    requires Before(x, NoTests, depth, y, p) && y.discard == [] && !y.tail
    ensures x.c.Running? && u == x.(c := u.c) && Live(u) && Run(x.g, n, x.c) == u.c
    ensures y.end <= |Code(u)| && u.c.top.steps + Ip(u) > |Code(u)|
    ensures AsU32(y.end) == y.end && Occurs(Code(u), Ip(u), Enc(Jump(AsU32(y.end))))
    ensures u.c.top.stack == x.base + [Unspecified] && u.c.callers == x.c.callers && u.c.top.fn == x.c.top.fn
    ensures |u.c.top.locals| == y.mark + y.target + (x.p.slot - y.mark)
  {
    hide MatchMemory, MatchEnv, Step, Run, Enc, Stubs, JoinParts, Occurs;
    var v := UnspecifiedPushed(x, y.np.(slot := y.mark));
    var k;
    k, u := PadsAdd(v, y.None().p, y.mark + y.target);
    RunAdd(x.g, 1, k, x.c);
    AddressFits(u, y.end);
    n := 1 + k;
  }

  /**
   No clause taken: after the `cond` the frame has what the compiler counts and what the
   failed tests have left behind.
   */
  lemma {:induction false} NoneExactly(x: Point, depth: nat, y: Layout, p: Pools) returns (n: nat, w: Point)
    requires Before(x, NoTests, depth, y, p) && y.discard == [] && !y.tail
    ensures w == x.(c := w.c) && Live(w) && Run(x.g, n, x.c) == w.c && Ip(w) == y.end
    ensures w.c.top.stack == x.base + [Unspecified] && w.c.callers == x.c.callers && w.c.top.fn == x.c.top.fn
    ensures |w.c.top.locals| == y.mark + y.target + (x.p.slot - y.mark)
    ensures |w.c.top.locals| == y.mark + y.target <==> x.p.slot == y.mark
  {
    hide Before, Selected, Step, Run, Enc;
    var k, u := NonePads(x, depth, y, p);
    StepAt(u, Jump(y.end));
    RunAdd(x.g, k, 1, x.c);
    n := k + 1;
    w := x.(c := Run(x.g, n, x.c));
  }
}
