/**
 What can go wrong in a run of a program in the condition of the preservation theorem:
 only what the language itself calls an error.  No run of any program faults otherwise
 than by a misplaced variable; these programs misplace none.
 */
module Faults {
  import opened Data
  import opened Syntax
  import opened Source
  import opened Compile
  import opened Vm
  import opened Relation
  import opened Programs
  import opened Integrity

  /** No error of the evaluator but a variable without a cell, which no run meets. */
  predicate Proper<T>(o: Outcome<T>) {
    o.Fail? ==> LanguageError(o.error) || o.error.DanglingCell?
  }

  lemma {:induction false} ProperExpr(prims: Natives, fuel: nat, e: Expr, env: Env, s: State, depth: nat, tail: bool)
    ensures Proper(Eval(prims, fuel, e, env, s, depth, tail))
    decreases fuel, 1, e, 0
  {
    hide ConstToValue, EvalSeq, EvalAnd, EvalOr, EvalBindings, EvalCond, EvalCase, EvalArgs, Apply;
    match e
    case Lit(_) =>
    case Var(_) =>
    case Lambda(_, _) =>
    case SetVar(_, e1) => ProperExpr(prims, fuel, e1, env, s, depth, false);
    case Define(_, e1) => ProperExpr(prims, fuel, e1, env, s, depth, false);
    case If(test, thn, els) =>
      ProperExpr(prims, fuel, test, env, s, depth, false);
      var a := Eval(prims, fuel, test, env, s, depth, false);
      if a.Done? {
        ProperExpr(prims, fuel, thn, env, a.value.s, depth, tail);
        if els.Some? {
          ProperExpr(prims, fuel, els.value, env, a.value.s, depth, tail);
        }
      }
    case Begin(es) => ProperSeq(prims, fuel, es, env, s, depth, tail);
    case And(es) => ProperAnd(prims, fuel, es, env, s, depth, tail);
    case Or(es) => ProperOr(prims, fuel, es, env, s, depth, tail);
    case When(test, body) =>
      ProperExpr(prims, fuel, test, env, s, depth, false);
      var a := Eval(prims, fuel, test, env, s, depth, false);
      if a.Done? {
        ProperSeq(prims, fuel, body, env, a.value.s, depth, tail);
      }
    case Unless(test, body) =>
      ProperExpr(prims, fuel, test, env, s, depth, false);
      var a := Eval(prims, fuel, test, env, s, depth, false);
      if a.Done? {
        ProperSeq(prims, fuel, body, env, a.value.s, depth, tail);
      }
    case Let(bs, body) =>
      ProperBindings(prims, fuel, bs, env, env, s, depth, false);
      var b := EvalBindings(prims, fuel, bs, env, env, s, depth, false);
      if b.Done? {
        ProperSeq(prims, fuel, body, b.value.0, b.value.1, depth, tail);
      }
    case LetStar(bs, body) =>
      ProperBindings(prims, fuel, bs, env, env, s, depth, true);
      var b := EvalBindings(prims, fuel, bs, env, env, s, depth, true);
      if b.Done? {
        ProperSeq(prims, fuel, body, b.value.0, b.value.1, depth, tail);
      }
    case Cond(tests) => ProperCond(prims, fuel, tests, env, s, depth, tail);
    case Case(key, clauses) =>
      ProperExpr(prims, fuel, key, env, s, depth, false);
      var a := Eval(prims, fuel, key, env, s, depth, false);
      if a.Done? {
        ProperCase(prims, fuel, a.value.v, clauses, env, a.value.s, depth, tail);
      }
    case App(f, args) =>
      ProperExpr(prims, fuel, f, env, s, depth, false);
      var a := Eval(prims, fuel, f, env, s, depth, false);
      if a.Done? {
        ProperArgs(prims, fuel, args, env, a.value.s, depth);
        var b := EvalArgs(prims, fuel, args, env, a.value.s, depth);
        if b.Done? {
          ProperApply(prims, fuel, a.value.v, b.value.0, b.value.1, depth, tail);
        }
      }
  }

  lemma {:induction false} ProperSeq(prims: Natives, fuel: nat, es: Exprs, env: Env, s: State, depth: nat, tail: bool)
    ensures Proper(EvalSeq(prims, fuel, es, env, s, depth, tail))
    decreases fuel, 1, es
  {
    hide Eval;
    if es.More? {
      ProperExpr(prims, fuel, es.head, env, s, depth, tail);
      ProperExpr(prims, fuel, es.head, env, s, depth, false);
      var a := Eval(prims, fuel, es.head, env, s, depth, false);
      if a.Done? {
        ProperSeq(prims, fuel, es.tail, env, a.value.s, depth, tail);
      }
    }
  }

  lemma {:induction false} ProperAnd(prims: Natives, fuel: nat, es: Exprs, env: Env, s: State, depth: nat, tail: bool)
    ensures Proper(EvalAnd(prims, fuel, es, env, s, depth, tail))
    decreases fuel, 1, es
  {
    hide Eval;
    if es.More? {
      ProperExpr(prims, fuel, es.head, env, s, depth, tail);
      ProperExpr(prims, fuel, es.head, env, s, depth, false);
      var a := Eval(prims, fuel, es.head, env, s, depth, false);
      if a.Done? {
        ProperAnd(prims, fuel, es.tail, env, a.value.s, depth, tail);
      }
    }
  }

  lemma {:induction false} ProperOr(prims: Natives, fuel: nat, es: Exprs, env: Env, s: State, depth: nat, tail: bool)
    ensures Proper(EvalOr(prims, fuel, es, env, s, depth, tail))
    decreases fuel, 1, es
  {
    hide Eval;
    if es.More? {
      ProperExpr(prims, fuel, es.head, env, s, depth, tail);
      ProperExpr(prims, fuel, es.head, env, s, depth, false);
      var a := Eval(prims, fuel, es.head, env, s, depth, false);
      if a.Done? {
        ProperOr(prims, fuel, es.tail, env, a.value.s, depth, tail);
      }
    }
  }

  lemma {:induction false} ProperBindings(prims: Natives, fuel: nat, bs: Bindings, env: Env, ext: Env, s: State,
        depth: nat, star: bool)
    ensures Proper(EvalBindings(prims, fuel, bs, env, ext, s, depth, star))
    decreases fuel, 1, bs
  {
    hide Eval;
    if bs.Bind? {
      ProperExpr(prims, fuel, bs.init, if star then ext else env, s, depth, false);
      var a := Eval(prims, fuel, bs.init, if star then ext else env, s, depth, false);
      if a.Done? {
        var s' := a.value.s;
        ProperBindings(prims, fuel, bs.rest, env, ext
          + [(bs.x, |s'.store|)], s'.(store := s'.store + [a.value.v]), depth, star);
      }
    }
  }

  lemma {:induction false} ProperCond(prims: Natives, fuel: nat, ts: Tests, env: Env, s: State, depth: nat, tail: bool)
    ensures Proper(EvalCond(prims, fuel, ts, env, s, depth, tail))
    decreases fuel, 1, ts
  {
    hide Eval, EvalSeq, Apply;
    match ts
    case NoTests =>
    case ElseTests(body) => ProperSeq(prims, fuel, body, env, s, depth, tail);
    case Test(test, body, rest) =>
      ProperExpr(prims, fuel, test, env, s, depth, false);
      var a := Eval(prims, fuel, test, env, s, depth, false);
      if a.Done? {
        ProperSeq(prims, fuel, body, env, a.value.s, depth, tail);
        ProperCond(prims, fuel, rest, env, a.value.s, depth, tail);
      }
    case Arrow(test, receiver, rest) =>
      ProperExpr(prims, fuel, test, env, s, depth, false);
      var a := Eval(prims, fuel, test, env, s, depth, false);
      if a.Done? {
        ProperReceiver(prims, fuel, receiver, env, a.value, depth, tail);
        ProperCond(prims, fuel, rest, env, a.value.s, depth, tail);
      }
  }

  lemma {:induction false} ProperReceiver(prims: Natives, fuel: nat, receiver: Expr, env: Env, a: Answer, depth: nat,
        tail: bool)
    ensures Proper(EvalReceiver(prims, fuel, receiver, env, a, depth, tail))
    decreases fuel, 1, receiver, 1
  {
    hide Eval, Apply;
    ProperExpr(prims, fuel, receiver, env, a.s, depth, false);
    var f := Eval(prims, fuel, receiver, env, a.s, depth, false);
    if f.Done? {
      ProperApply(prims, fuel, f.value.v, [a.v], f.value.s, depth, tail);
    }
  }

  lemma {:induction false} ProperCase(prims: Natives, fuel: nat, k: Value, cs: Clauses, env: Env, s: State, depth: nat,
        tail: bool)
    ensures Proper(EvalCase(prims, fuel, k, cs, env, s, depth, tail))
    decreases fuel, 1, cs
  {
    hide Eval, EvalSeq, FindDatum;
    match cs
    case NoClauses =>
    case ElseClauses(body) => ProperSeq(prims, fuel, body, env, s, depth, tail);
    case Clause(data, body, rest) =>
      var (found, w) := FindDatum(k, data, s.world);
      if found {
        ProperSeq(prims, fuel, body, env, s.(world := w), depth, tail);
      } else {
        ProperCase(prims, fuel, k, rest, env, s.(world := w), depth, tail);
      }
  }

  lemma {:induction false} ProperArgs(prims: Natives, fuel: nat, es: Exprs, env: Env, s: State, depth: nat)
    ensures Proper(EvalArgs(prims, fuel, es, env, s, depth))
    decreases fuel, 1, es
  {
    hide Eval;
    if es.More? {
      ProperExpr(prims, fuel, es.head, env, s, depth, false);
      var a := Eval(prims, fuel, es.head, env, s, depth, false);
      if a.Done? {
        ProperArgs(prims, fuel, es.tail, env, a.value.s, depth);
      }
    }
  }

  lemma {:induction false} ProperApply(prims: Natives, fuel: nat, f: Value, args: seq<Value>, s: State, depth: nat,
        tail: bool)
    ensures Proper(Apply(prims, fuel, f, args, s, depth, tail))
    decreases fuel, 0
  {
    hide EvalSeq, Extend, Allocate;
    if f.Closure? && f.id < |s.closures| && fuel > 0 {
      var c := s.closures[f.id];
      match BindArguments(|c.formals.params|, c.formals.rest.Some?, args, s.world)
      case Err(_) =>
      case Ok((vs, w)) =>
        ProperSeq(prims, fuel - 1, c.body, Extend(c.env, c.formals.Names(), |s.store|),
                  s.(store := s.store + vs, world := w), if tail then depth else depth + 1, true);
    }
  }

  lemma {:induction false} ProperProgram(prims: Natives, fuel: nat, forms: Exprs, s: State)
    ensures Proper(EvalProgram(prims, fuel, forms, s))
    decreases forms
  {
    hide Eval;
    if forms.More? {
      ProperExpr(prims, fuel, forms.head, [], s, 0, false);
      var a := Eval(prims, fuel, forms.head, [], s, 0, false);
      if a.Done? {
        ProperProgram(prims, fuel, forms.tail, a.value.s);
      }
    }
  }

  /**
   The layout of slots that the compiler assumes is the layout the machine finds: at no step
   of any run does the machine stop for an error of its own making.
   */
  lemma {:induction false} MachineNeverFaults(prims: Natives, k: nat, forms: Exprs, i: Initial)
    requires CompProgram(forms).Ok? && Fits(CompProgram(forms).value.fns) && SafeForms(forms)
    requires CompProgram(forms).value.entry < |CompProgram(forms).value.fns|
    ensures var md := CompProgram(forms).value;
      var c := Run(Machine(prims, md.fns), k, StartConfig(md, i));
      c.Stopped? ==> LanguageError(c.error)
  {
    hide CompProgram, Run, EvalProgram, Fits, StartConfig;
    var md := CompProgram(forms).value;
    var c := Run(Machine(prims, md.fns), k, StartConfig(md, i));
    if c.Stopped? {
      EveryRunIsSound(prims, k, forms, i);
      MachineIsMeaning(prims, k, forms, i);
      ProperProgram(prims, k + 1, forms, StartState(i));
    }
  }
}
