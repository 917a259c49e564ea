/**
 How a machine configuration stands for a point of a source evaluation.

 Values, globals and the world are equal on both sides.  Variables differ: the
 source store is mapped injectively into the machine's cells, because padding
 allocates cells that no source variable owns.
 */
module Relation {
  import opened Prelude
  import opened Data
  import opened Syntax
  import opened Source
  import opened Compile
  import opened Vm

  /** What a closure was compiled from. */
  datatype Origin = Origin(ctx: Ctx, fns: seq<Chunk>, depth: nat, name: Option<string>)

  /** Store location to cell, and the origin of every closure. */
  datatype Link = Link(cell: seq<nat>, origin: seq<Origin>)

  ghost predicate Extends(l: Link, l': Link) {
    l.cell <= l'.cell && l.origin <= l'.origin
  }

  // ----- the fragment on which slots are exact -----

  /** No `let` introduces a slot while `e` itself is evaluated. */
  predicate NoSlots(e: Expr) {
    match e
    case Lit(_) | Var(_) | Lambda(_, _) => true
    case SetVar(_, e1) => NoSlots(e1)
    case Define(_, e1) => NoSlots(e1)
    case If(test, thn, els) => NoSlots(test) && NoSlots(thn) && (els.Some? ==> NoSlots(els.value))
    case Begin(es) => NoSlotsSeq(es)
    case And(es) => NoSlotsSeq(es)
    case Or(es) => NoSlotsSeq(es)
    case When(test, body) => NoSlots(test) && NoSlotsSeq(body)
    case Unless(test, body) => NoSlots(test) && NoSlotsSeq(body)
    case Let(bs, body) => bs.NoBindings? && NoSlotsSeq(body)
    case LetStar(bs, body) => bs.NoBindings? && NoSlotsSeq(body)
    case Cond(tests) => NoSlotsTests(tests)
    case Case(key, clauses) => NoSlots(key) && NoSlotsClauses(clauses)
    case App(f, args) => NoSlots(f) && NoSlotsSeq(args)
  }

  predicate NoSlotsSeq(es: Exprs) {
    es.More? ==> NoSlots(es.head) && NoSlotsSeq(es.tail)
  }

  predicate NoSlotsTests(ts: Tests) {
    match ts
    case NoTests => true
    case ElseTests(body) => NoSlotsSeq(body)
    case Test(test, body, rest) => NoSlots(test) && NoSlotsSeq(body) && NoSlotsTests(rest)
    case Arrow(test, receiver, rest) => NoSlots(test) && NoSlots(receiver) && NoSlotsTests(rest)
  }

  predicate NoSlotsClauses(cs: Clauses) {
    match cs
    case NoClauses => true
    case ElseClauses(body) => NoSlotsSeq(body)
    case Clause(_, body, rest) => NoSlotsSeq(body) && NoSlotsClauses(rest)
  }

  /**
   Where the compiler does not pad, nothing conditional may introduce a slot that
   later code of the same body could count on; a body does not start with `define`.
   */
  predicate Safe(e: Expr, tail: bool)
    decreases e, 0
  {
    match e
    case Lit(_) | Var(_) => true
    case SetVar(_, e1) => Safe(e1, false)
    case Define(_, e1) => Safe(e1, false)
    case If(test, thn, els) => Safe(test, false) && Safe(thn, tail) && (els.Some? ==> Safe(els.value, tail))
    case Begin(es) => SafeSeq(es, tail)
    case And(es) => SafeSeq(es, tail) && (!tail && es.More? ==> NoSlotsSeq(es.tail))
    case Or(es) => SafeSeq(es, tail) && (!tail && es.More? ==> NoSlotsSeq(es.tail))
    case When(test, body) => Safe(test, false) && SafeSeq(body, tail) && (!tail ==> NoSlotsSeq(body))
    case Unless(test, body) => Safe(test, false) && SafeSeq(body, tail) && (!tail ==> NoSlotsSeq(body))
    case Let(bs, body) => SafeBindings(bs) && SafeBody(body, tail)
    case LetStar(bs, body) => SafeBindings(bs) && SafeBody(body, tail)
    case Cond(tests) => SafeTests(tests, tail)
    case Case(key, clauses) => Safe(key, false) && SafeClauses(clauses, tail)
    case Lambda(_, body) => SafeBody(body, true)
    case App(f, args) => Safe(f, false) && SafeSeq(args, false)
  }

  /** Only the last expression of a sequence can be in tail position. */
  predicate SafeSeq(es: Exprs, tail: bool)
    decreases es, 0
  {
    es.More? ==> Safe(es.head, tail && es.tail.NoExprs?) && SafeSeq(es.tail, tail)
  }

  predicate SafeBody(es: Exprs, tail: bool)
    decreases es, 1
  {
    SafeSeq(es, tail) && (es.More? ==> !es.head.Define?)
  }

  predicate SafeBindings(bs: Bindings)
    decreases bs, 0
  {
    bs.Bind? ==> Safe(bs.init, false) && SafeBindings(bs.rest)
  }

  /** A test that fails leaves its slots behind, so that nothing after it may introduce any. */
  predicate SafeTests(ts: Tests, tail: bool)
    decreases ts, 0
  {
    match ts
    case NoTests => true
    case ElseTests(body) => SafeSeq(body, tail)
    case Test(test, body, rest) =>
      Safe(test, false) && SafeSeq(body, tail) && SafeTests(rest, tail)
      && (NoSlots(test) || (tail && NoSlotsTests(rest)))
    case Arrow(test, receiver, rest) =>
      Safe(test, false) && Safe(receiver, false) && SafeTests(rest, tail)
      && (NoSlots(test) || (tail && NoSlotsTests(rest)))
  }

  predicate SafeClauses(cs: Clauses, tail: bool)
    decreases cs, 0
  {
    match cs
    case NoClauses => true
    case ElseClauses(body) => SafeSeq(body, tail)
    case Clause(_, body, rest) => SafeSeq(body, tail) && SafeClauses(rest, tail)
  }

  // ----- the relation -----

  /** Every operand of the compiled chunks fits its 32 bits. */
  ghost predicate Fits(fns: seq<Chunk>) {
    |fns| < U32_LIMIT
    && forall i :: 0 <= i < |fns| ==> |fns[i].code| < U32_LIMIT && |fns[i].consts| < U32_LIMIT
  }

  /** Each name is found in the cell that its source location is mapped to. */
  ghost predicate MatchEnv(ctx: Ctx, env: Env, locals: seq<nat>, scope: Option<Scope>, cell: seq<nat>)
    decreases ctx
  {
    var n := |env| - |ctx.locals|;
    n >= 0
    && (forall i :: 0 <= i < |ctx.locals| ==> MatchSlot(ctx.locals[i], env[n + i], locals, cell))
    && match ctx.parent
       case None => n == 0
       case Some(outer) =>
         scope.Some? && MatchEnv(outer, env[..n], scope.value.locals, scope.value.parent, cell)
  }

  ghost predicate MatchSlot(local: (string, u8), bound: (string, nat), locals: seq<nat>, cell: seq<nat>) {
    bound.0 == local.0 && bound.1 < |cell| && local.1 < |locals| && locals[local.1] == cell[bound.1]
  }

  ghost predicate MatchClosure(fns: seq<Chunk>, sc: SClosure, vc: VClosure, o: Origin, cell: seq<nat>) {
    var r := CompFunction(sc.formals, sc.body, o.ctx, o.fns, o.depth, o.name);
    r.Ok? && r.value.1 <= fns && vc.fn == |r.value.1| - 1 && SafeBody(sc.body, true)
    && MatchEnv(o.ctx, sc.env, vc.scope.locals, vc.scope.parent, cell)
  }

  ghost predicate MatchStore(m: Memory, s: State, cell: seq<nat>) {
    |cell| == |s.store|
    && (forall i :: 0 <= i < |cell| ==> cell[i] < |m.cells| && m.cells[cell[i]] == s.store[i])
    && (forall i, j :: 0 <= i < j < |cell| ==> cell[i] != cell[j])
  }

  ghost predicate MatchClosures(fns: seq<Chunk>, m: Memory, s: State, l: Link) {
    |m.closures| == |s.closures| == |l.origin|
    && forall i :: 0 <= i < |l.origin| ==> MatchClosure(fns, s.closures[i], m.closures[i], l.origin[i], l.cell)
  }

  ghost predicate MatchMemory(fns: seq<Chunk>, m: Memory, s: State, l: Link) {
    m.globals == s.globals && m.world == s.world && MatchStore(m, s, l.cell) && MatchClosures(fns, m, s, l)
  }

  lemma {:induction false} MatchEnvGrows(ctx: Ctx, env: Env, locals: seq<nat>, scope: Option<Scope>, cell: seq<nat>,
                                         locals': seq<nat>, cell': seq<nat>)
    requires MatchEnv(ctx, env, locals, scope, cell) && locals <= locals' && cell <= cell'
    ensures MatchEnv(ctx, env, locals', scope, cell')
    decreases ctx
  {
    var n := |env| - |ctx.locals|;
    forall i | 0 <= i < |ctx.locals|
      ensures MatchSlot(ctx.locals[i], env[n + i], locals', cell')
    {
      assert MatchSlot(ctx.locals[i], env[n + i], locals, cell);
    }
    if ctx.parent.Some? {
      MatchEnvGrows(ctx.parent.value, env[..n], scope.value.locals, scope.value.parent, cell,
                    scope.value.locals, cell');
    }
  }

  lemma {:induction false} MatchClosuresGrow(fns: seq<Chunk>, m: Memory, s: State, l: Link, cell': seq<nat>)
    requires MatchClosures(fns, m, s, l) && l.cell <= cell'
    ensures MatchClosures(fns, m, s, l.(cell := cell'))
  {
    forall i | 0 <= i < |l.origin|
      ensures MatchClosure(fns, s.closures[i], m.closures[i], l.origin[i], cell')
    {
      assert MatchClosure(fns, s.closures[i], m.closures[i], l.origin[i], l.cell);
      var vc, o := m.closures[i], l.origin[i];
      MatchEnvGrows(o.ctx, s.closures[i].env, vc.scope.locals, vc.scope.parent, l.cell, vc.scope.locals, cell');
    }
  }

  /** A cell no location is mapped to may be added. */
  lemma {:induction false} PadMemory(fns: seq<Chunk>, m: Memory, s: State, l: Link, v: Value)
    requires MatchMemory(fns, m, s, l)
    ensures MatchMemory(fns, m.(cells := m.cells + [v]), s, l)
  {
  }

  /** New variables get new cells on both sides. */
  lemma {:induction false} BindMemory(fns: seq<Chunk>, m: Memory, s: State, l: Link, vs: seq<Value>) returns (l': Link)
    requires MatchMemory(fns, m, s, l)
    ensures l' == l.(cell := l.cell + seq(|vs|, i requires 0 <= i < |vs| => |m.cells| + i))
    ensures Extends(l, l')
    ensures MatchMemory(fns, m.(cells := m.cells + vs), s.(store := s.store + vs), l')
  {
    l' := l.(cell := l.cell + seq(|vs|, i requires 0 <= i < |vs| => |m.cells| + i));
    var m', s' := m.(cells := m.cells + vs), s.(store := s.store + vs);
    MatchClosuresGrow(fns, m, s, l, l'.cell);
    assert MatchClosures(fns, m', s', l') by {
      forall i | 0 <= i < |l'.origin|
        ensures MatchClosure(fns, s'.closures[i], m'.closures[i], l'.origin[i], l'.cell)
      {
        assert MatchClosure(fns, s.closures[i], m.closures[i], l.origin[i], l'.cell);
      }
    }
  }

  /** Writing a variable writes exactly its own cell. */
  lemma {:induction false} WriteMemory(fns: seq<Chunk>, m: Memory, s: State, l: Link, loc: nat, v: Value)
    requires MatchMemory(fns, m, s, l) && loc < |s.store|
    ensures l.cell[loc] < |m.cells|
    ensures MatchMemory(fns, m.(cells := m.cells[l.cell[loc] := v]), s.(store := s.store[loc := v]), l)
  {
    var m', s' := m.(cells := m.cells[l.cell[loc] := v]), s.(store := s.store[loc := v]);
    assert MatchClosures(fns, m', s', l) by {
      forall i | 0 <= i < |l.origin|
        ensures MatchClosure(fns, s'.closures[i], m'.closures[i], l.origin[i], l.cell)
      {
        assert MatchClosure(fns, s.closures[i], m.closures[i], l.origin[i], l.cell);
      }
    }
  }
}
