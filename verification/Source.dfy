/**
 A reference evaluator for the core forms: environments map names to locations,
 variables live in a store, closures keep their environment.  `fuel` bounds the
 number of nested closure bodies; running out of it is the outcome `Timeout`.
 `depth` counts pending calls in non-tail position, which the language limits.
 */
module Source {
  import opened Prelude
  import opened Data
  import opened Syntax

  const MAX_CALL_DEPTH: nat := 150_000

  datatype Error =
    | UnboundGlobal(x: string)
    | SetUndefined(x: string)
    | NotProcedure(v: Value)
    | WrongArity
    | CallDepthExceeded
    | NativeError(code: nat)
    | ForeignClosure
    | DanglingCell
    | StackUnderflow
    | LocalSlotRange
    | UpvalueRange
    | ConstantRange
    | NotASymbol
    | FunctionRange
    | StepBudgetExceeded
    | BadInstruction

  datatype Outcome<+T> = Done(value: T) | Fail(error: Error) | Timeout {
    predicate IsFailure() {
      !Done?
    }

    function PropagateFailure<U>(): Outcome<U>
      requires !Done?
    {
      if Fail? then Outcome.Fail(error) else Outcome.Timeout
    }

    function Extract(): T
      requires Done?
    {
      value
    }
  }

  /** The native procedures: any function of the name, the arguments and the world. */
  type Natives = (string, seq<Value>, World) -> Result<(Value, World), nat>

  type Env = seq<(string, nat)>

  datatype SClosure = SClosure(formals: Formals, body: Exprs, env: Env)

  datatype State = State(store: seq<Value>, closures: seq<SClosure>, globals: map<string, Value>, world: World)

  datatype Answer = Answer(v: Value, s: State)

  /** The location of the innermost binding of `x`. */
  function Lookup(env: Env, x: string): Option<nat> {
    if env == [] then None
    else if env[|env| - 1].0 == x then Some(env[|env| - 1].1)
    else Lookup(env[..|env| - 1], x)
  }

  /** Matches arguments to parameters; a rest parameter takes the surplus as a list. */
  function BindArguments(arity: nat, hasRest: bool, args: seq<Value>, w: World):
      Result<(seq<Value>, World), Error>
  {
    if hasRest then
      if |args| < arity then Err(WrongArity)
      else
        var extra := args[arity..];
        if extra == [] then Ok((args + [Nil], w))
        else
          var (v, w') := Allocate(ListObj(extra), w);
          Ok((args[..arity] + [v], w'))
    else if |args| != arity then Err(WrongArity)
    else Ok((args, w))
  }

  function Extend(env: Env, names: seq<string>, first: nat): Env {
    env + seq(|names|, i requires 0 <= i < |names| => (names[i], first + i))
  }

  function NativeCall(prims: Natives, name: string, args: seq<Value>, s: State): Outcome<Answer> {
    match prims(name, args, s.world)
    case Ok((v, w)) => Done(Answer(v, s.(world := w)))
    case Err(code) => Fail(NativeError(code))
  }

  function Eval(prims: Natives, fuel: nat, e: Expr, env: Env, s: State, depth: nat, tail: bool): Outcome<Answer>
    decreases fuel, 1, e, 0
  {
    match e
    case Lit(c) =>
      var (v, w) := ConstToValue(c, s.world);
      Done(Answer(v, s.(world := w)))
    case Var(x) => EvalVar(x, env, s)
    case SetVar(x, e1) =>
      var a :- Eval(prims, fuel, e1, env, s, depth, false);
      Assign(x, a.v, env, a.s)
    case Define(x, e1) =>
      var a :- Eval(prims, fuel, e1, env, s, depth, false);
      Done(Answer(Unspecified, a.s.(globals := a.s.globals[x := a.v])))
    case If(test, thn, els) =>
      var a :- Eval(prims, fuel, test, env, s, depth, false);
      if Truthy(a.v) then Eval(prims, fuel, thn, env, a.s, depth, tail)
      else EvalElse(prims, fuel, els, env, a.s, depth, tail)
    case Begin(es) => EvalSeq(prims, fuel, es, env, s, depth, tail)
    case And(es) => EvalAnd(prims, fuel, es, env, s, depth, tail)
    case Or(es) => EvalOr(prims, fuel, es, env, s, depth, tail)
    case When(test, body) =>
      var a :- Eval(prims, fuel, test, env, s, depth, false);
      if Truthy(a.v) then EvalSeq(prims, fuel, body, env, a.s, depth, tail) else Done(Answer(Unspecified, a.s))
    case Unless(test, body) =>
      var a :- Eval(prims, fuel, test, env, s, depth, false);
      if Truthy(a.v) then Done(Answer(Unspecified, a.s)) else EvalSeq(prims, fuel, body, env, a.s, depth, tail)
    case Let(bs, body) =>
      var (env', s') :- EvalBindings(prims, fuel, bs, env, env, s, depth, false);
      EvalSeq(prims, fuel, body, env', s', depth, tail)
    case LetStar(bs, body) =>
      var (env', s') :- EvalBindings(prims, fuel, bs, env, env, s, depth, true);
      EvalSeq(prims, fuel, body, env', s', depth, tail)
    case Cond(tests) => EvalCond(prims, fuel, tests, env, s, depth, tail)
    case Case(key, clauses) =>
      var a :- Eval(prims, fuel, key, env, s, depth, false);
      EvalCase(prims, fuel, a.v, clauses, env, a.s, depth, tail)
    case Lambda(formals, body) =>
      Done(Answer(Closure(|s.closures|), s.(closures := s.closures + [SClosure(formals, body, env)])))
    case App(f, args) =>
      var a :- Eval(prims, fuel, f, env, s, depth, false);
      var (vs, s') :- EvalArgs(prims, fuel, args, env, a.s, depth);
      Apply(prims, fuel, a.v, vs, s', depth, tail)
  }

  function EvalElse(prims: Natives, fuel: nat, els: Option<Expr>, env: Env, s: State, depth: nat, tail: bool):
      Outcome<Answer>
    decreases fuel, 1, els
  {
    if els.Some? then Eval(prims, fuel, els.value, env, s, depth, tail) else Done(Answer(Unspecified, s))
  }

  function EvalVar(x: string, env: Env, s: State): Outcome<Answer> {
    match Lookup(env, x)
    case Some(l) => if l < |s.store| then Done(Answer(s.store[l], s)) else Fail(DanglingCell)
    case None => if x in s.globals then Done(Answer(s.globals[x], s)) else Fail(UnboundGlobal(x))
  }

  function Assign(x: string, v: Value, env: Env, s: State): Outcome<Answer> {
    match Lookup(env, x)
    case Some(l) =>
      if l < |s.store| then Done(Answer(Unspecified, s.(store := s.store[l := v]))) else Fail(DanglingCell)
    case None =>
      if x in s.globals then Done(Answer(Unspecified, s.(globals := s.globals[x := v]))) else Fail(SetUndefined(x))
  }

  function EvalSeq(prims: Natives, fuel: nat, es: Exprs, env: Env, s: State, depth: nat, tail: bool): Outcome<Answer>
    decreases fuel, 1, es
  {
    match es
    case NoExprs => Done(Answer(Unspecified, s))
    case More(e, NoExprs) => Eval(prims, fuel, e, env, s, depth, tail)
    case More(e, rest) =>
      var a :- Eval(prims, fuel, e, env, s, depth, false);
      EvalSeq(prims, fuel, rest, env, a.s, depth, tail)
  }

  function EvalAnd(prims: Natives, fuel: nat, es: Exprs, env: Env, s: State, depth: nat, tail: bool): Outcome<Answer>
    decreases fuel, 1, es
  {
    match es
    case NoExprs => Done(Answer(Bool(true), s))
    case More(e, NoExprs) => Eval(prims, fuel, e, env, s, depth, tail)
    case More(e, rest) =>
      var a :- Eval(prims, fuel, e, env, s, depth, false);
      if Truthy(a.v) then EvalAnd(prims, fuel, rest, env, a.s, depth, tail) else Done(a)
  }

  function EvalOr(prims: Natives, fuel: nat, es: Exprs, env: Env, s: State, depth: nat, tail: bool): Outcome<Answer>
    decreases fuel, 1, es
  {
    match es
    case NoExprs => Done(Answer(Bool(false), s))
    case More(e, NoExprs) => Eval(prims, fuel, e, env, s, depth, tail)
    case More(e, rest) =>
      var a :- Eval(prims, fuel, e, env, s, depth, false);
      if Truthy(a.v) then Done(a) else EvalOr(prims, fuel, rest, env, a.s, depth, tail)
  }

  /** Inits see `env` (`let`) or everything bound so far, `ext` (`let*`). */
  function EvalBindings(prims: Natives, fuel: nat, bs: Bindings, env: Env, ext: Env, s: State, depth: nat, star: bool):
      Outcome<(Env, State)>
    decreases fuel, 1, bs
  {
    match bs
    case NoBindings => Done((ext, s))
    case Bind(x, init, rest) =>
      var a :- Eval(prims, fuel, init, if star then ext else env, s, depth, false);
      EvalBindings(prims, fuel, rest, env, ext + [(x, |a.s.store|)], a.s.(store := a.s.store + [a.v]), depth, star)
  }

  function EvalCond(prims: Natives, fuel: nat, ts: Tests, env: Env, s: State, depth: nat, tail: bool): Outcome<Answer>
    decreases fuel, 1, ts
  {
    match ts
    case NoTests => Done(Answer(Unspecified, s))
    case ElseTests(body) => EvalSeq(prims, fuel, body, env, s, depth, tail)
    case Test(test, body, rest) =>
      var a :- Eval(prims, fuel, test, env, s, depth, false);
      if Truthy(a.v) then EvalSeq(prims, fuel, body, env, a.s, depth, tail)
      else EvalCond(prims, fuel, rest, env, a.s, depth, tail)
    case Arrow(test, receiver, rest) =>
      var a :- Eval(prims, fuel, test, env, s, depth, false);
      if Truthy(a.v) then EvalReceiver(prims, fuel, receiver, env, a, depth, tail)
      else EvalCond(prims, fuel, rest, env, a.s, depth, tail)
  }

  /** `=>` calls what the receiver evaluates to with the value of the test. */
  function EvalReceiver(prims: Natives, fuel: nat, receiver: Expr, env: Env, a: Answer, depth: nat, tail: bool):
      Outcome<Answer>
    decreases fuel, 1, receiver, 1
  {
    var f :- Eval(prims, fuel, receiver, env, a.s, depth, false);
    Apply(prims, fuel, f.v, [a.v], f.s, depth, tail)
  }

  /** Compares the key with each literal in turn; a compound literal is a new object each time. */
  function FindDatum(k: Value, data: seq<Const>, w: World): (bool, World) {
    if data == [] then (false, w)
    else
      var (v, w') := ConstToValue(data[0], w);
      if ValueEqv(k, v) then (true, w') else FindDatum(k, data[1..], w')
  }

  function EvalCase(prims: Natives, fuel: nat, k: Value, cs: Clauses, env: Env, s: State, depth: nat, tail: bool):
      Outcome<Answer>
    decreases fuel, 1, cs
  {
    match cs
    case NoClauses => Done(Answer(Unspecified, s))
    case ElseClauses(body) => EvalSeq(prims, fuel, body, env, s, depth, tail)
    case Clause(data, body, rest) =>
      var (found, w) := FindDatum(k, data, s.world);
      if found then EvalSeq(prims, fuel, body, env, s.(world := w), depth, tail)
      else EvalCase(prims, fuel, k, rest, env, s.(world := w), depth, tail)
  }

  function EvalArgs(prims: Natives, fuel: nat, es: Exprs, env: Env, s: State, depth: nat): Outcome<(seq<Value>, State)>
    decreases fuel, 1, es
  {
    match es
    case NoExprs => Done(([], s))
    case More(e, rest) =>
      var a :- Eval(prims, fuel, e, env, s, depth, false);
      var (vs, s') :- EvalArgs(prims, fuel, rest, env, a.s, depth);
      Done(([a.v] + vs, s'))
  }

  function Apply(prims: Natives, fuel: nat, f: Value, args: seq<Value>, s: State, depth: nat,
        tail: bool): Outcome<Answer>
    decreases fuel, 0
  {
    match f
    case Native(name) => NativeCall(prims, name, args, s)
    case Closure(id) =>
      if !tail && depth >= MAX_CALL_DEPTH then Fail(CallDepthExceeded)
      else if id >= |s.closures| then Fail(ForeignClosure)
      else
        var c := s.closures[id];
        (match BindArguments(|c.formals.params|, c.formals.rest.Some?, args, s.world)
         case Err(e) => Fail(e)
         case Ok((vs, w)) =>
           if fuel == 0 then Timeout
           else
             EvalSeq(prims, fuel - 1, c.body, Extend(c.env, c.formals.Names(), |s.store|),
                     s.(store := s.store + vs, world := w), if tail then depth else depth + 1, true))
    case _ => Fail(NotProcedure(f))
  }

  /** A whole program: every form in order at top level, keeping only the effects. */
  function EvalProgram(prims: Natives, fuel: nat, forms: Exprs, s: State): Outcome<State> {
    match forms
    case NoExprs => Done(s)
    case More(e, rest) =>
      var a :- Eval(prims, fuel, e, [], s, 0, false);
      EvalProgram(prims, fuel, rest, a.s)
  }
}
