/**
 The derived forms in terms of `if`, `begin` and `let`: what the reference evaluator makes of
 each is what it makes of the form that the language defines it by, at any depth and in any
 position, whatever the parts do.
 */
module Derived {
  import opened Prelude
  import opened Data
  import opened Syntax
  import opened Source

  /** `(when t e ...)` is `(if t (begin e ...))`, and `unless` the other branch. */
  lemma {:induction false} WhenIsIf(prims: Natives, fuel: nat, test: Expr, body: Exprs, env: Env, s: State, depth: nat,
        tail: bool)
    ensures Eval(prims, fuel, When(test, body), env, s, depth, tail)
      == Eval(prims, fuel, If(test, Begin(body), None), env, s, depth, tail)
    ensures Eval(prims, fuel, Unless(test, body), env, s, depth, tail)
      == Eval(prims, fuel, If(test, Lit(CUnspecified), Some(Begin(body))), env, s, depth, tail)
  {
    hide EvalSeq;
    var a := Eval(prims, fuel, test, env, s, depth, false);
    if a.Done? {
      var u := a.value.s;
      assert EvalElse(prims, fuel, None, env, u, depth, tail) == Done(Answer(Unspecified, u));
      assert Eval(prims, fuel, Lit(CUnspecified), env, u, depth, tail) == Done(Answer(Unspecified, u));
      assert Eval(prims, fuel, Begin(body), env, u, depth, tail) == EvalSeq(prims, fuel, body, env, u, depth, tail);
      assert EvalElse(prims, fuel, Some(Begin(body)), env, u, depth, tail)
          == Eval(prims, fuel, Begin(body), env, u, depth, tail);
    }
  }

  /** `(and e r ...)` is `(if e (and r ...) #f)`, one operand is itself, and none is `#t`. */
  lemma {:induction false} AndIsIf(prims: Natives, fuel: nat, es: Exprs, env: Env, s: State, depth: nat, tail: bool)
    ensures Eval(prims, fuel, And(es), env, s, depth, tail)
      == Eval(prims, fuel,
              if es.NoExprs? then Lit(CBool(true)) else if es.tail.NoExprs? then es.head
              else If(es.head, And(es.tail), Some(Lit(CBool(false)))),
              env, s, depth, tail)
  {
    hide EvalSeq;
    if es.More? && es.tail.More? {
      var a := Eval(prims, fuel, es.head, env, s, depth, false);
      if a.Done? {
        var u := a.value.s;
        var no := Lit(CBool(false));
        assert Eval(prims, fuel, no, env, u, depth, tail) == Done(Answer(Bool(false), u));
        assert EvalElse(prims, fuel, Some(no), env, u, depth, tail) == Eval(prims, fuel, no, env, u, depth, tail);
        assert Eval(prims, fuel, And(es.tail), env, u, depth, tail)
            == EvalAnd(prims, fuel, es.tail, env, u, depth, tail);
      }
    }
  }

  /** `(or e r ...)` is the value of `e` unless that is `#f`, and then `(or r ...)`. */
  lemma {:induction false} OrIsFirst(prims: Natives, fuel: nat, es: Exprs, env: Env, s: State, depth: nat, tail: bool)
    ensures es.NoExprs? || es.tail.NoExprs? ==>
      Eval(prims, fuel, Or(es), env, s, depth, tail)
      == Eval(prims, fuel, if es.NoExprs? then Lit(CBool(false)) else es.head, env, s, depth, tail)
    ensures es.More? && es.tail.More? ==>
      var a := Eval(prims, fuel, es.head, env, s, depth, false);
      Eval(prims, fuel, Or(es), env, s, depth, tail)
      == if a.Done? && a.value.v == Bool(false) then Eval(prims, fuel, Or(es.tail), env, a.value.s, depth, tail) else a
  {
    hide EvalSeq;
  }

  /** `(cond (t e ...) c ...)` is `(if t (begin e ...) (cond c ...))`; `else` is `begin`, and no clause nothing. */
  lemma {:induction false} CondIsIf(prims: Natives, fuel: nat, ts: Tests, env: Env, s: State, depth: nat, tail: bool)
    requires !ts.Arrow?
    ensures Eval(prims, fuel, Cond(ts), env, s, depth, tail)
      == Eval(prims, fuel,
              match ts
              case NoTests => Lit(CUnspecified)
              case ElseTests(body) => Begin(body)
              case Test(test, body, rest) => If(test, Begin(body), Some(Cond(rest)))
              case Arrow(_, _, _) => Lit(CUnspecified),
              env, s, depth, tail)
  {
    hide EvalSeq;
    if ts.Test? {
      var a := Eval(prims, fuel, ts.test, env, s, depth, false);
      if a.Done? {
        var u := a.value.s;
        assert EvalElse(prims, fuel, Some(Cond(ts.rest)), env, u, depth, tail)
            == Eval(prims, fuel, Cond(ts.rest), env, u, depth, tail)
            == EvalCond(prims, fuel, ts.rest, env, u, depth, tail);
        assert Eval(prims, fuel, Begin(ts.body), env, u, depth, tail)
            == EvalSeq(prims, fuel, ts.body, env, u, depth, tail);
      }
    }
  }

  /** `(t => f)` calls what `f` evaluates to with the value of `t`, once, unless that is `#f`. */
  lemma {:induction false} ArrowCalls(prims: Natives, fuel: nat, ts: Tests, env: Env, s: State, depth: nat, tail: bool)
    requires ts.Arrow? && Eval(prims, fuel, ts.test, env, s, depth, false).Done?
    ensures var a := Eval(prims, fuel, ts.test, env, s, depth, false).value;
      var f := Eval(prims, fuel, ts.receiver, env, a.s, depth, false);
      Eval(prims, fuel, Cond(ts), env, s, depth, tail)
      == if a.v == Bool(false) then Eval(prims, fuel, Cond(ts.rest), env, a.s, depth, tail)
         else if f.Done? then Apply(prims, fuel, f.value.v, [a.v], f.value.s, depth, tail)
         else f
  {
    hide EvalSeq, Apply, EvalBindings, EvalArgs, EvalCase, EvalAnd, EvalOr;
    var o := Eval(prims, fuel, ts.test, env, s, depth, false);
    var a := o.value;
    assert Eval(prims, fuel, Cond(ts), env, s, depth, tail) == EvalCond(prims, fuel, ts, env, s, depth, tail);
    assert Eval(prims, fuel, Cond(ts.rest), env, a.s, depth, tail)
        == EvalCond(prims, fuel, ts.rest, env, a.s, depth, tail);
    var f := Eval(prims, fuel, ts.receiver, env, a.s, depth, false);
    assert EvalReceiver(prims, fuel, ts.receiver, env, a, depth, tail)
        == if f.Done? then Apply(prims, fuel, f.value.v, [a.v], f.value.s, depth, tail) else f;
  }

  /** `case` takes the clause whose literal the key is; for an integer, the same integer. */
  lemma {:induction false} CaseCompares(prims: Natives, fuel: nat, key: Expr, n: int, body: Exprs, rest: Clauses,
        env: Env, s: State, depth: nat, tail: bool)
    requires Eval(prims, fuel, key, env, s, depth, false).Done?
    ensures var a := Eval(prims, fuel, key, env, s, depth, false).value;
      Eval(prims, fuel, Case(key, Clause([CInt(n)], body, rest)), env, s, depth, tail)
      == if a.v == Int(n) then Eval(prims, fuel, Begin(body), env, a.s, depth, tail)
         else EvalCase(prims, fuel, a.v, rest, env, a.s, depth, tail)
  {
    hide EvalSeq;
    var a := Eval(prims, fuel, key, env, s, depth, false).value;
    assert [CInt(n)][1..] == [];
    assert FindDatum(a.v, [CInt(n)], a.s.world) == (a.v == Int(n), a.s.world);
    assert a.s.(world := a.s.world) == a.s;
    assert Eval(prims, fuel, Begin(body), env, a.s, depth, tail) == EvalSeq(prims, fuel, body, env, a.s, depth, tail);
  }

  /** `let*` is a chain of `let`s. */
  lemma {:induction false} LetStarIsLets(prims: Natives, fuel: nat, bs: Bindings, body: Exprs, env: Env, s: State,
        depth: nat, tail: bool)
    requires bs.Bind?
    ensures Eval(prims, fuel, LetStar(bs, body), env, s, depth, tail)
      == Eval(prims, fuel, Let(Bind(bs.x, bs.init, NoBindings), More(LetStar(bs.rest, body), NoExprs)), env, s, depth,
              tail)
  {
    hide EvalAnd, EvalOr, EvalCond, EvalCase, EvalArgs;
    var a := Eval(prims, fuel, bs.init, env, s, depth, false);
    if a.Done? {
      var env', u := env + [(bs.x, |a.value.s.store|)], a.value.s.(store := a.value.s.store + [a.value.v]);
      EnvIrrelevant(prims, fuel, bs.rest, env, env', u, depth);
      var inner := LetStar(bs.rest, body);
      assert EvalBindings(prims, fuel, NoBindings, env, env', u, depth, false) == Done((env', u));
      assert EvalBindings(prims, fuel, Bind(bs.x, bs.init, NoBindings), env, env, s, depth, false) == Done((env', u));
      assert EvalSeq(prims, fuel, More(inner, NoExprs), env', u, depth, tail)
          == Eval(prims, fuel, inner, env', u, depth, tail);
    }
  }

  /** In `let*` the scope outside does not matter once a name is bound. */
  lemma {:induction false} EnvIrrelevant(prims: Natives, fuel: nat, bs: Bindings, env: Env, ext: Env, s: State,
        depth: nat)
    ensures EvalBindings(prims, fuel, bs, env, ext, s, depth, true) == EvalBindings(prims, fuel, bs, ext, ext, s, depth,
                                                                                    true)
    decreases bs
  {
    hide Eval;
    if bs.Bind? {
      var a := Eval(prims, fuel, bs.init, ext, s, depth, false);
      if a.Done? {
        var ext' := ext + [(bs.x, |a.value.s.store|)];
        var u := a.value.s.(store := a.value.s.store + [a.value.v]);
        EnvIrrelevant(prims, fuel, bs.rest, env, ext', u, depth);
        EnvIrrelevant(prims, fuel, bs.rest, ext, ext', u, depth);
      }
    }
  }

  /** Both initial values of a `let` mean what they mean outside; the second is evaluated second. */
  lemma {:induction false} LetBindsTwo(prims: Natives, fuel: nat, x: string, e: Expr, y: string, f: Expr, body: Exprs,
        env: Env, s: State, depth: nat, tail: bool)
    requires Eval(prims, fuel, e, env, s, depth, false).Done?
    requires var a := Eval(prims, fuel, e, env, s, depth, false).value;
      Eval(prims, fuel, f, env, a.s.(store := a.s.store + [a.v]), depth, false).Done?
    ensures var a := Eval(prims, fuel, e, env, s, depth, false).value;
      var b := Eval(prims, fuel, f, env, a.s.(store := a.s.store + [a.v]), depth, false).value;
      Eval(prims, fuel, Let(Bind(x, e, Bind(y, f, NoBindings)), body), env, s, depth, tail)
      == Eval(prims, fuel, Begin(body), env + [(x, |a.s.store|)] + [(y, |b.s.store|)],
              b.s.(store := b.s.store + [b.v]), depth, tail)
  {
    hide EvalSeq;
    var a := Eval(prims, fuel, e, env, s, depth, false).value;
    var s1 := a.s.(store := a.s.store + [a.v]);
    var b := Eval(prims, fuel, f, env, s1, depth, false).value;
    var e1 := env + [(x, |a.s.store|)];
    var e2, s2 := e1 + [(y, |b.s.store|)], b.s.(store := b.s.store + [b.v]);
    assert EvalBindings(prims, fuel, NoBindings, env, e2, s2, depth, false) == Done((e2, s2));
    assert EvalBindings(prims, fuel, Bind(y, f, NoBindings), env, e1, s1, depth, false) == Done((e2, s2));
    assert Eval(prims, fuel, Begin(body), e2, s2, depth, tail) == EvalSeq(prims, fuel, body, e2, s2, depth, tail);
  }

  /** What `set!` stores is what the variable holds afterwards, and nothing else is changed. */
  lemma {:induction false} SetThenGet(prims: Natives, fuel: nat, x: string, e: Expr, env: Env, s: State, depth: nat,
        tail: bool)
    requires Eval(prims, fuel, e, env, s, depth, false).Done?
    ensures var a := Eval(prims, fuel, e, env, s, depth, false).value;
      var both := Eval(prims, fuel, Begin(More(SetVar(x, e), More(Var(x), NoExprs))), env, s, depth, tail);
      match Lookup(env, x)
      case Some(l) =>
        l < |a.s.store| ==> both == Done(Answer(a.v, State(a.s.store[l := a.v], a.s.closures, a.s.globals, a.s.world)))
      case None =>
        if x in a.s.globals then
          both == Done(Answer(a.v, State(a.s.store, a.s.closures, a.s.globals[x := a.v], a.s.world)))
        else both == Fail(SetUndefined(x))
  {
    var a := Eval(prims, fuel, e, env, s, depth, false).value;
    var o := Eval(prims, fuel, SetVar(x, e), env, s, depth, false);
    assert o == Assign(x, a.v, env, a.s);
    var get := More(Var(x), NoExprs);
    if o.Done? {
      assert EvalSeq(prims, fuel, get, env, o.value.s, depth, tail) == EvalVar(x, env, o.value.s);
    }
    assert EvalSeq(prims, fuel, More(SetVar(x, e), get), env, s, depth, tail)
        == if o.Done? then EvalSeq(prims, fuel, get, env, o.value.s, depth, tail) else o;
  }
}
