/** Whole programs: the entry chunk, and what the machine and the evaluator say about each other. */
module Programs {
  import opened Prelude
  import opened Data
  import opened Syntax
  import opened Instr
  import opened Source
  import opened Compile
  import opened Vm
  import opened Relation
  import opened Points
  import opened Steps
  import opened Simulation

  /** Where the compiler pads nothing, nothing conditional introduces a slot: see `Safe`. */
  predicate SafeForms(forms: Exprs) {
    forms.More? ==> Safe(forms.head, false) && SafeForms(forms.tail)
  }

  /** What a program starts from, on either side. */
  datatype Initial = Initial(globals: map<string, Value>, world: World)

  function StartState(i: Initial): State {
    State([], [], i.globals, i.world)
  }

  function StartConfig(md: Module, i: Initial): Config
    requires md.entry < |md.fns|
  {
    Running(NewFrame(md.entry, md.fns[md.entry].code, [], None), [], 0, Memory([], [], i.globals, i.world))
  }

  /** A terminal configuration says what the outcome says: same error, or same globals and world. */
  ghost predicate Agrees(c: Config, o: Outcome<State>) {
    match c
    case Running(_, _, _, _) => false
    case Finished(v, m) => v == Unspecified && o.Done? && m.globals == o.value.globals && m.world == o.value.world
    case Stopped(e) => o == Fail(e)
  }

  ghost predicate Settles(x: Point, n: nat, o: Outcome<State>)
  {
    if o.Timeout? then n >= x.fuel && Run(x.g, n, x.c).Running? else Agrees(Run(x.g, n, x.c), o)
  }

  /** The entry chunk between two top-level forms. */
  ghost predicate AtForms(x: Point, forms: Exprs) {
    Situated(x) && x.base == x.c.top.stack == [] && x.c.callers == [] && x.c.depth == 0
    && x.ctx == Ctx([], None) && x.env == [] && SafeForms(forms)
    && CompForms(forms, Ip(x), x.p).Ok?
    && Laid(x, CompForms(forms, Ip(x), x.p).value.code + Enc(Halt), CompForms(forms, Ip(x), x.p).value.p)
  }

  lemma {:induction false} FormsLaid(x: Point, forms: Exprs) returns (a: Emitted, b: Emitted)
    requires AtForms(x, forms) && forms.More?
    ensures CompExpr(forms.head, x.ctx, Ip(x), x.p, 0, false) == Ok(a)
    ensures CompForms(forms.tail, Ip(x) + |a.code| + 1, a.p) == Ok(b)
    ensures Laid(x, a.code, a.p) && Occurs(Code(x), Ip(x) + |a.code|, Enc(Pop))
    ensures Occurs(Code(x), Ip(x) + |a.code| + 1, b.code + Enc(Halt)) && PoolsIn(x.g, x.c.top.fn, b.p)
  {
    hide CompExpr, MatchMemory, MatchEnv, Fits, Occurs, Enc;
    a := CompExpr(forms.head, x.ctx, Ip(x), x.p, 0, false).value;
    b := CompForms(forms.tail, Ip(x) + |a.code| + 1, a.p).value;
    assert a.code + Enc(Pop) + b.code + Enc(Halt) == a.code + Enc(Pop) + (b.code + Enc(Halt));
    OccursSplit3(Code(x), Ip(x), a.code, Enc(Pop), b.code + Enc(Halt));
  }

  lemma {:induction false} FormsMeaning(x: Point, forms: Exprs)
    requires x.c.Running? && forms.More? && x.c.depth == 0 && x.env == []
    ensures var o := Eval(x.g.prims, x.fuel, forms.head, x.env, x.s, Pending(x), false);
      EvalProgram(x.g.prims, x.fuel, forms, x.s)
      == if o.Done? then EvalProgram(x.g.prims, x.fuel, forms.tail, o.value.s)
         else if o.Fail? then Fail(o.error) else Timeout
  {
    hide Eval;
  }

  lemma {:induction false} HaltRuns(x: Point)
    requires AtForms(x, NoExprs)
    ensures Run(x.g, 1, x.c) == Finished(Unspecified, x.c.m)
  {
    hide MatchMemory, MatchEnv, Fits, Run, Step;
    assert CompForms(NoExprs, Ip(x), x.p).value.code + Enc(Halt) == Enc(Halt);
    StepAt(x, Halt);
  }

  /** Each form leaves a value that POP discards; HALT ends the run. */
  lemma {:induction false} SimForms(x: Point, forms: Exprs) returns (n: nat)
    requires AtForms(x, forms)
    ensures Settles(x, n, EvalProgram(x.g.prims, x.fuel, forms, x.s))
    decreases forms
  {
    hide MatchEnv, Fits, Occurs, Run, Step, CompExpr, Eval, PoolsIn, Enc;
    match forms
    case NoExprs =>
      HaltRuns(x);
      n := 1;
    case More(e, rest) =>
      hide MatchMemory;
      var a, b := FormsLaid(x, forms);
      FormsMeaning(x, forms);
      var o := Eval(x.g.prims, x.fuel, e, x.env, x.s, Pending(x), false);
      var w;
      n, w := SimValue(x, e, 0);
      if o.Done? {
        var y := PopRuns(w, [], o.value.v);
        Chain(x, n, w, 1, y);
        var k := SimForms(y, rest);
        RunAdd(x.g, n + 1, k, x.c);
        n := n + 1 + k;
      }
  }

  /** The point from which a compiled program starts. */
  lemma {:induction false} Begins(prims: Natives, fuel: nat, forms: Exprs, i: Initial) returns (x: Point)
    requires CompProgram(forms).Ok? && Fits(CompProgram(forms).value.fns) && SafeForms(forms)
    ensures var md := CompProgram(forms).value;
      md.entry < |md.fns| && AtForms(x, forms) && x.g == Machine(prims, md.fns) && x.fuel == fuel
      && x.s == StartState(i) && x.c == StartConfig(md, i)
  {
    hide CompForms, SafeForms;
    var r := CompForms(forms, 0, Pools([], [], 0)).value;
    var md := CompProgram(forms).value;
    assert md.entry == |md.fns| - 1;
    var chunk := md.fns[md.entry];
    assert chunk.code[0..|chunk.code|] == chunk.code;
    x := Point(Machine(prims, md.fns), fuel, Ctx([], None), [], StartState(i), Pools([], [], 0),
               StartConfig(md, i), [], Link([], []));
  }

  /**
   Compilation preserves meaning.  Whatever the evaluator makes of a program within
   some fuel, the machine makes of the compiled program: the same final globals and
   world, the same error, or at least as many steps as there was fuel.
   */
  lemma {:induction false} CompilerPreservesMeaning(prims: Natives, fuel: nat, forms: Exprs, i: Initial)
        returns (n: nat)
    requires CompProgram(forms).Ok? && Fits(CompProgram(forms).value.fns) && SafeForms(forms)
    ensures var md := CompProgram(forms).value;
      var c :=
        if md.entry < |md.fns| then Run(Machine(prims, md.fns), n, StartConfig(md, i)) else Stopped(FunctionRange);
      var o := EvalProgram(prims, fuel, forms, StartState(i));
      if o.Timeout? then n >= fuel && c.Running? else Agrees(c, o)
  {
    hide CompForms, AtForms, Run, EvalProgram, Fits;
    var x := Begins(prims, fuel, forms, i);
    n := SimForms(x, forms);
  }

  lemma {:induction false} EndIsFinal(g: Machine, n: nat, c: Config)
    requires !c.Running?
    ensures Run(g, n, c) == c
    decreases n
  {
    if n > 0 {
      EndIsFinal(g, n - 1, c);
    }
  }

  lemma {:induction false} SameEnd(g: Machine, n: nat, k: nat, c: Config)
    requires !Run(g, n, c).Running?
    ensures k >= n ==> Run(g, k, c) == Run(g, n, c)
    ensures !Run(g, k, c).Running? ==> Run(g, k, c) == Run(g, n, c)
  {
    if k >= n {
      RunAdd(g, n, k - n, c);
      EndIsFinal(g, k - n, Run(g, n, c));
    } else if !Run(g, k, c).Running? {
      RunAdd(g, k, n - k, c);
      EndIsFinal(g, n - k, Run(g, k, c));
    }
  }

  /**
   The other direction: a machine that has come to an end after `k` steps has done
   exactly what the evaluator does with fuel `k + 1`, so the two define the same
   behaviour and diverge on the same programs.
   */
  lemma {:induction false} MachineIsMeaning(prims: Natives, k: nat, forms: Exprs, i: Initial)
    requires CompProgram(forms).Ok? && Fits(CompProgram(forms).value.fns) && SafeForms(forms)
    requires var md := CompProgram(forms).value;
      md.entry < |md.fns| && !Run(Machine(prims, md.fns), k, StartConfig(md, i)).Running?
    ensures var md := CompProgram(forms).value;
      Agrees(Run(Machine(prims, md.fns), k, StartConfig(md, i)), EvalProgram(prims, k + 1, forms, StartState(i)))
  {
    hide CompProgram, Run, EvalProgram, Fits, StartConfig;
    var md := CompProgram(forms).value;
    var n := CompilerPreservesMeaning(prims, k + 1, forms, i);
    SameEnd(Machine(prims, md.fns), k, n, StartConfig(md, i));
  }
}
