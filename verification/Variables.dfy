/** Static addresses agree with dynamic lookup: the compiler's resolution finds the right cell. */
module Variables {
  import opened Prelude
  import opened Syntax
  import opened Source
  import opened Compile
  import opened Vm
  import opened Relation

  /** Both searches stop at the same entry `i`, or (`i == -1`) pass over the whole block. */
  lemma {:induction false} LocalLookup(locals: Locals, env: Env, n: nat, x: string) returns (i: int)
    requires |env| == n + |locals|
    requires forall j :: 0 <= j < |locals| ==> env[n + j].0 == locals[j].0
    ensures -1 <= i < |locals|
    ensures i >= 0 ==> ResolveLocal(locals, x) == Some(locals[i].1) && Lookup(env, x) == Some(env[n + i].1)
    ensures i == -1 ==> ResolveLocal(locals, x).None? && Lookup(env, x) == Lookup(env[..n], x)
    decreases |locals|
  {
    if locals == [] {
      assert env[..n] == env;
      i := -1;
    } else if locals[|locals| - 1].0 == x {
      i := |locals| - 1;
    } else {
      var k := |locals| - 1;
      assert env[n + k].0 == locals[k].0;
      i := LocalLookup(locals[..k], env[..n + k], n, x);
      assert env[..n + k][..n] == env[..n];
    }
  }

  lemma {:induction false} UpvalueLookup(ctx: Ctx, env: Env, scope: Scope, cell: seq<nat>, x: string, depth: u8)
      returns (loc: nat)
    requires depth > 0 && MatchEnv(ctx, env, scope.locals, scope.parent, cell)
    requires ResolveUpvalue(Some(ctx), x, depth).Ok?
    ensures var r := ResolveUpvalue(Some(ctx), x, depth).value;
      if r.None? then Lookup(env, x).None?
      else
        var (d, slot) := r.value;
        depth <= d && Lookup(env, x) == Some(loc) && loc < |cell|
        && var target := ResolveScope(scope, d - depth + 1);
           target.Some? && slot < |target.value.locals| && target.value.locals[slot] == cell[loc]
    decreases ctx
  {
    var n := |env| - |ctx.locals|;
    forall j | 0 <= j < |ctx.locals|
      ensures env[n + j].0 == ctx.locals[j].0
    {
      assert MatchSlot(ctx.locals[j], env[n + j], scope.locals, cell);
    }
    var i := LocalLookup(ctx.locals, env, n, x);
    loc := 0;
    if i >= 0 {
      assert MatchSlot(ctx.locals[i], env[n + i], scope.locals, cell);
      loc := env[n + i].1;
    } else if ctx.parent.Some? {
      loc := UpvalueLookup(ctx.parent.value, env[..n], scope.parent.value, cell, x, depth + 1);
    }
  }

  /** The address the compiler emits for `x` leads to the cell of the innermost binding of `x`. */
  lemma {:induction false} ResolveFinds(ctx: Ctx, env: Env, locals: seq<nat>, scope: Option<Scope>, cell: seq<nat>,
        x: string)
      returns (loc: nat)
    requires MatchEnv(ctx, env, locals, scope, cell) && Resolve(ctx, x).Ok?
    ensures match Resolve(ctx, x).value
      case Local(slot) => Lookup(env, x) == Some(loc) && loc < |cell| && slot < |locals| && locals[slot] == cell[loc]
      case Upvalue(d, slot) => Lookup(env, x) == Some(loc) && loc < |cell|
                               && UpvalueCell(scope, d, slot) == Some(cell[loc])
      case Global => Lookup(env, x).None?
  {
    var n := |env| - |ctx.locals|;
    forall j | 0 <= j < |ctx.locals|
      ensures env[n + j].0 == ctx.locals[j].0
    {
      assert MatchSlot(ctx.locals[j], env[n + j], locals, cell);
    }
    var i := LocalLookup(ctx.locals, env, n, x);
    loc := 0;
    if i >= 0 {
      assert MatchSlot(ctx.locals[i], env[n + i], locals, cell);
      loc := env[n + i].1;
    } else if ctx.parent.Some? {
      loc := UpvalueLookup(ctx.parent.value, env[..n], scope.value, cell, x, 1);
    }
  }

  // ----- names that cannot be resolved -----

  /** How many functions enclose the one being compiled, itself included. */
  function Levels(c: Option<Ctx>): nat
    decreases c
  {
    match c
    case None => 0
    case Some(ctx) => 1 + Levels(ctx.parent)
  }

  /** One of the first `n` functions outward binds `x`. */
  predicate Bound(c: Option<Ctx>, x: string, n: nat)
    decreases c
  {
    match c
    case None => false
    case Some(ctx) => n > 0 && (ResolveLocal(ctx.locals, x).Some? || Bound(ctx.parent, x, n - 1))
  }

  /** The walk outward fails just when it passes 255 functions, none of which binds the name. */
  lemma {:induction false} ResolveFails(c: Option<Ctx>, x: string, depth: u8)
    ensures ResolveUpvalue(c, x, depth).Err? <==> Levels(c) + depth >= 256 && !Bound(c, x, 256 - depth)
    decreases c
  {
    hide ResolveLocal;
    if c.Some? && ResolveLocal(c.value.locals, x).None? && depth < 255 {
      ResolveFails(c.value.parent, x, depth + 1);
    }
  }

  /** A function without variables, `n` functions deep. */
  function Nested(n: nat): Ctx {
    if n == 0 then Ctx([], None) else Ctx([], Some(Nested(n - 1)))
  }

  lemma {:induction false} NestedBindsNothing(n: nat, x: string, k: nat)
    ensures Levels(Some(Nested(n))) == n + 1 && !Bound(Some(Nested(n)), x, k)
    decreases n
  {
    if n > 0 {
      NestedBindsNothing(n - 1, x, if k == 0 then 0 else k - 1);
    }
  }

  /** A name bound nowhere, hence a global, is rejected inside 255 functions and accepted inside 254. */
  lemma {:induction false} DeepGlobalRejected(x: string)
    ensures Resolve(Nested(255), x) == Err(UpvalueTooDeep)
    ensures Resolve(Nested(254), x) == Ok(Global)
  {
    hide Levels, Bound, Nested, ResolveUpvalue;
    NestedParts(255);
    NestedParts(254);
    NestedBindsNothing(254, x, 255);
    NestedBindsNothing(253, x, 255);
    ResolveFails(Some(Nested(254)), x, 1);
    ResolveFails(Some(Nested(253)), x, 1);
    ResolvedIsBound(Some(Nested(253)), x, 1);
    assert ResolveLocal([], x) == None;
    FailsTooDeep(Some(Nested(254)), x, 1);
  }

  lemma {:induction false} NestedParts(n: nat)
    requires n > 0
    ensures Nested(n) == Ctx([], Some(Nested(n - 1)))
  {
  }

  lemma {:induction false} ResolvedIsBound(c: Option<Ctx>, x: string, depth: u8)
    requires ResolveUpvalue(c, x, depth).Ok?
    ensures ResolveUpvalue(c, x, depth).value.Some? ==> Bound(c, x, 256 - depth)
    decreases c
  {
    if c.Some? && ResolveLocal(c.value.locals, x).None? && depth < 255 {
      ResolvedIsBound(c.value.parent, x, depth + 1);
    }
  }

  lemma {:induction false} FailsTooDeep(c: Option<Ctx>, x: string, depth: u8)
    requires ResolveUpvalue(c, x, depth).Err?
    ensures ResolveUpvalue(c, x, depth) == Err(UpvalueTooDeep)
    decreases c
  {
    if c.Some? && ResolveLocal(c.value.locals, x).None? && depth < 255 {
      FailsTooDeep(c.value.parent, x, depth + 1);
    }
  }

  // ----- a program that is rejected -----

  /** `(lambda () (lambda () ... x))` with `n` lambdas. */
  function Lambdas(n: nat, x: string): Expr {
    if n == 0 then Var(x) else Lambda(Formals([], None), More(Lambdas(n - 1, x), NoExprs))
  }

  /** Compiling `x` under `n` more lambdas fails because the walk outward does. */
  lemma {:induction false} LambdasFail(n: nat, k: nat, x: string, at: nat, p: Pools, depth: nat, tail: bool)
    requires n + k == 255 && depth == k
    ensures CompExpr(Lambdas(n, x), Nested(k), at, p, depth, tail) == Err(UpvalueTooDeep)
    decreases n
  {
    hide Nested, Resolve;
    if n == 0 {
      DeepGlobalRejected(x);
    } else {
      var e := Lambdas(n - 1, x);
      LambdasFail(n - 1, k + 1, x, 0, Pools([], p.fns, 0), depth + 1, true);
      NestedParts(k + 1);
      assert CompSeq(More(e, NoExprs), Nested(k + 1), 0, Pools([], p.fns, 0), depth + 1, true) == Err(UpvalueTooDeep);
      assert DeclareAll([], Formals([], None).Names(), 0) == Ok(([], 0));
      assert CompFunction(Formals([], None), More(e, NoExprs), Nested(k), p.fns, depth, None) == Err(UpvalueTooDeep);
    }
  }

  /** A global variable used inside 255 nested functions makes the whole program uncompilable. */
  lemma {:induction false} DeepGlobalUncompilable(x: string)
    ensures CompProgram(More(Lambdas(255, x), NoExprs)) == Err(UpvalueTooDeep)
  {
    hide CompExpr, Lambdas;
    LambdasFail(255, 0, x, 0, Pools([], [], 0), 0, false);
    assert Nested(0) == Ctx([], None);
  }
}
