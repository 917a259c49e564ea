/**
 What evaluator and machine have in common, pinned by itself: what a call binds, which
 values count as false, and which values are equivalent.  Both sides share these functions,
 so that comparing the two says nothing about them.
 */
module Language {
  import opened Prelude
  import opened Data
  import opened Syntax
  import opened Source

  // ----- arguments -----

  /** The values that parameters receive, a rest parameter the last one, and what is allocated for it. */
  predicate Received(arity: nat, hasRest: bool, args: seq<Value>, w: World, vs: seq<Value>, w': World) {
    arity <= |args| && |vs| == arity + (if hasRest then 1 else 0) && vs[..arity] == args[..arity]
    && if hasRest && |args| > arity then
         vs[arity] == Ref(|w.objects|) && w' == World(w.objects + [ListObj(args[arity..])], w.output)
       else w' == w && (hasRest ==> vs[arity] == Nil)
  }

  /** A call gives each parameter its argument, and a rest parameter exactly the arguments left over. */
  lemma {:induction false} ArgumentsReceived(arity: nat, hasRest: bool, args: seq<Value>, w: World)
    ensures var r := BindArguments(arity, hasRest, args, w);
      (r.Ok? <==> |args| == arity || (hasRest && |args| >= arity))
      && match r
         case Ok((vs, w')) => Received(arity, hasRest, args, w, vs, w')
         case Err(e) => e == WrongArity
  {
    var r := BindArguments(arity, hasRest, args, w);
    if r.Ok? && hasRest {
      assert args[arity..] == [] ==> args[..arity] == args;
    }
  }

  /** `x` is not the name of a parameter behind the first `k`. */
  predicate NotAfter(x: string, formals: Formals, k: nat) {
    (forall j :: k <= j < |formals.params| ==> formals.params[j] != x) && formals.rest != Some(x)
  }

  lemma {:induction false} LookupAppended(env: Env, more: Env, x: string)
    ensures Lookup(env + more, x) == if Lookup(more, x).Some? then Lookup(more, x) else Lookup(env, x)
    decreases |more|
  {
    if more == [] {
      assert env + more == env;
    } else {
      var n := |more| - 1;
      assert (env + more)[..|env| + n] == env + more[..n];
      LookupAppended(env, more[..n], x);
    }
  }

  /** The last of several bindings of a name counts. */
  lemma {:induction false} LookupLast(env: Env, x: string, i: int)
    requires -1 <= i < |env| && (i >= 0 ==> env[i].0 == x) && forall j :: i < j < |env| ==> env[j].0 != x
    ensures Lookup(env, x) == if i < 0 then None else Some(env[i].1)
    decreases |env|
  {
    if env != [] && i < |env| - 1 {
      LookupLast(env[..|env| - 1], x, i);
    }
  }

  /** The environment in which a closure's body runs: its parameters over what it captured. */
  ghost predicate Entered(formals: Formals, captured: Env, first: nat, env: Env) {
    (forall i :: 0 <= i < |formals.params| && NotAfter(formals.params[i], formals, i + 1) ==>
       Lookup(env, formals.params[i]) == Some(first + i))
    && (formals.rest.Some? ==> Lookup(env, formals.rest.value) == Some(first + |formals.params|))
    && (forall x :: NotAfter(x, formals, 0) ==> Lookup(env, x) == Lookup(captured, x))
  }

  lemma {:induction false} ExtendEnters(formals: Formals, captured: Env, first: nat)
    ensures Entered(formals, captured, first, Extend(captured, formals.Names(), first))
  {
    hide Lookup;
    var names := formals.Names();
    var more: Env := seq(|names|, i requires 0 <= i < |names| => (names[i], first + i));
    assert Extend(captured, names, first) == captured + more;
    forall i | 0 <= i < |formals.params| && NotAfter(formals.params[i], formals, i + 1)
      ensures Lookup(captured + more, formals.params[i]) == Some(first + i)
    {
      LookupLast(more, formals.params[i], i);
      LookupAppended(captured, more, formals.params[i]);
    }
    if formals.rest.Some? {
      LookupLast(more, formals.rest.value, |formals.params|);
      LookupAppended(captured, more, formals.rest.value);
    }
    forall x | NotAfter(x, formals, 0)
      ensures Lookup(captured + more, x) == Lookup(captured, x)
    {
      LookupLast(more, x, -1);
      LookupAppended(captured, more, x);
    }
  }

  /**
   Calling a closure runs its body where each parameter names a fresh variable that holds
   its argument, a rest parameter one that holds the arguments left over, and every other
   name means what it meant where the closure was made; 150000 calls may be pending.
   */
  lemma {:induction false} ApplyBinds(prims: Natives, fuel: nat, id: nat, args: seq<Value>, s: State, depth: nat,
        tail: bool) returns (env: Env, vs: seq<Value>, w: World)
    requires id < |s.closures|
    ensures var c := s.closures[id];
      var arity := |c.formals.params|;
      var o := Apply(prims, fuel, Closure(id), args, s, depth, tail);
      if !tail && depth >= 150_000 then o == Fail(CallDepthExceeded)
      else if !(|args| == arity || (c.formals.rest.Some? && |args| >= arity)) then o == Fail(WrongArity)
      else if fuel == 0 then o == Timeout
      else
        Received(arity, c.formals.rest.Some?, args, s.world, vs, w) && Entered(c.formals, c.env, |s.store|, env)
        && o == EvalSeq(prims, fuel - 1, c.body, env, State(s.store + vs, s.closures, s.globals, w),
                        if tail then depth else depth + 1, true)
  {
    hide EvalSeq, Received, Extend, BindArguments;
    var c := s.closures[id];
    var arity := |c.formals.params|;
    ArgumentsReceived(arity, c.formals.rest.Some?, args, s.world);
    ExtendEnters(c.formals, c.env, |s.store|);
    env := Extend(c.env, c.formals.Names(), |s.store|);
    var r := BindArguments(arity, c.formals.rest.Some?, args, s.world);
    vs, w := [], s.world;
    if r.Ok? {
      vs, w := r.value.0, r.value.1;
      assert s.(store := s.store + vs, world := w) == State(s.store + vs, s.closures, s.globals, w);
    }
  }

  // ----- truth and equivalence -----

  /** Of all values only `#f` takes the other branch. */
  lemma {:induction false} OnlyFalseIsFalse(prims: Natives, fuel: nat, e: Expr, env: Env, s: State, depth: nat,
        tail: bool)
    requires e.If? && e.els.Some? && Eval(prims, fuel, e.test, env, s, depth, false).Done?
    ensures var a := Eval(prims, fuel, e.test, env, s, depth, false).value;
      Eval(prims, fuel, e, env, s, depth, tail)
      == Eval(prims, fuel, if a.v == Bool(false) then e.els.value else e.thn, env, a.s, depth, tail)
  {
  }

  /** A 64-bit pattern from its sign, its exponent and its mantissa. */
  function Pattern(sign: bool, exponent: nat, mantissa: nat): nat {
    (if sign then 0x8000_0000_0000_0000 else 0) + exponent * 0x10_0000_0000_0000 + mantissa
  }

  /** Two floats are equivalent if they have the same bits, or if both have a full exponent and some mantissa. */
  lemma {:induction false} FloatsEquivalent(s: bool, e: nat, m: nat, s': bool, e': nat, m': nat)
    requires e < 2048 && e' < 2048 && m < 0x10_0000_0000_0000 && m' < 0x10_0000_0000_0000
    ensures ValueEqv(Float(Pattern(s, e, m)), Float(Pattern(s', e', m')))
       <==> (s == s' && e == e' && m == m') || (e == 2047 && m > 0 && e' == 2047 && m' > 0)
  {
    NanPattern(s, e, m);
    NanPattern(s', e', m');
  }

  lemma {:induction false} NanPattern(s: bool, e: nat, m: nat)
    requires e < 2048 && m < 0x10_0000_0000_0000
    ensures IsNan(Pattern(s, e, m)) <==> e == 2047 && m > 0
  {
    var low := e * 0x10_0000_0000_0000 + m;
    assert low < 0x8000_0000_0000_0000;
    assert Pattern(s, e, m) % 0x8000_0000_0000_0000 == low;
  }

  /** Other values are equivalent only if they are the same, allocations by identity. */
  lemma {:induction false} OthersEquivalent(a: Value, b: Value)
    requires !a.Float? || !b.Float?
    ensures ValueEqv(a, b) <==> a == b
  {
  }
}
