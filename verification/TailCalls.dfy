/**
 Tail calls refine ordinary calls.  The plain machine treats TAIL_CALL as CALL: the caller
 stays below until the value comes back, and then jumps to its RETURN.  Any program that the
 plain machine ends without exceeding the call depth, the machine ends alike.
 */
module TailCalls {
  import opened Prelude
  import opened Data
  import opened Syntax
  import opened Instr
  import opened Source
  import opened Compile
  import opened Vm
  import opened Relation
  import opened Points
  import opened Programs
  import opened Structure
  import opened StructuredCode
  import opened Integrity

  function Plain(i: Instr): Instr {
    if i.TailCall? then Call(i.argc) else i
  }

  /** A step in which a tail call is an ordinary one. */
  function PlainStep(g: Machine, c: Config): Config {
    if !c.Running? then c
    else if c.top.fn >= |g.fns| then Stopped(FunctionRange)
    else if c.top.steps == 0 then Stopped(StepBudgetExceeded)
    else
      match Fetch(g.fns[c.top.fn].code, c.top.ip)
      case Got(i, next) => Do(g, Plain(i), c.top.(ip := next, steps := c.top.steps - 1), c.callers, c.depth, c.m)
      case _ => Stopped(BadInstruction)
  }

  function PlainRun(g: Machine, n: nat, c: Config): Config
    decreases n
  {
    if n == 0 then c else PlainRun(g, n - 1, PlainStep(g, c))
  }

  lemma {:induction false} PlainAdd(g: Machine, a: nat, b: nat, c: Config)
    ensures PlainRun(g, a + b, c) == PlainRun(g, b, PlainRun(g, a, c))
    decreases a
  {
    if a > 0 {
      PlainAdd(g, a - 1, b, PlainStep(g, c));
    }
  }

  lemma {:induction false} PlainStays(g: Machine, n: nat, c: Config)
    requires !c.Running?
    ensures PlainRun(g, n, c) == c
    decreases n
  {
    if n > 0 {
      PlainStays(g, n - 1, c);
    }
  }

  // ----- how the two machines stand for each other -----

  /** A frame that only has to pass on the value it waits for. */
  ghost predicate Draining(g: Machine, f: Frame) {
    f.fn < |g.fns| && Exits(g.fns[f.fn].code, f.ip) && f.steps + f.ip > |g.fns[f.fn].code|
  }

  /** The plain machine has the same callers, with draining frames among them. */
  ghost predicate Within(g: Machine, k: seq<Frame>, t: seq<Frame>)
    decreases t
  {
    if t == [] then k == []
    else (k != [] && k[0] == t[0] && Within(g, k[1..], t[1..])) || (Draining(g, t[0]) && Within(g, k, t[1..]))
  }

  ghost predicate Alike(g: Machine, c: Config, t: Config) {
    if c.Running? && t.Running? then
      c.top == t.top && c.m == t.m && Within(g, c.callers, t.callers)
      && c.depth == |c.callers| && t.depth == |t.callers|
    else c == t
  }

  lemma {:induction false} FewerCallers(g: Machine, k: seq<Frame>, t: seq<Frame>)
    requires Within(g, k, t)
    ensures |k| <= |t|
    decreases t
  {
    if t != [] {
      if k != [] && k[0] == t[0] && Within(g, k[1..], t[1..]) {
        FewerCallers(g, k[1..], t[1..]);
      } else {
        FewerCallers(g, k, t[1..]);
      }
    }
  }

  /** A draining frame with its value hands it on. */
  lemma {:induction false} Drains(g: Machine, f: Frame, t: seq<Frame>, d: nat, m: Memory) returns (n: nat)
    requires Draining(g, f) && f.stack != []
    ensures PlainRun(g, n, Running(f, t, d, m)) == ReturnTo(t, d, f.stack[|f.stack| - 1], m)
    decreases |g.fns[f.fn].code| - f.ip
  {
    hide CallValue, ReturnTo, Decode;
    var c := Running(f, t, d, m);
    var c' := PlainStep(g, c);
    assert PlainRun(g, 1, c) == PlainRun(g, 0, c') == c';
    if Fetch(g.fns[f.fn].code, f.ip).instr.Return? {
      n := 1;
    } else {
      var rest := Drains(g, c'.top, t, d, m);
      PlainAdd(g, 1, rest, c);
      n := 1 + rest;
    }
  }

  /** Draining what is in between, the plain machine returns to where the machine returns. */
  lemma {:induction false} ReturnsAlike(g: Machine, k: seq<Frame>, t: seq<Frame>, v: Value, m: Memory) returns (n: nat)
    requires Within(g, k, t)
    ensures Alike(g, ReturnTo(k, |k|, v, m), PlainRun(g, n, ReturnTo(t, |t|, v, m)))
    decreases t
  {
    hide PlainStep, Draining;
    n := 0;
    if t != [] && !(k != [] && k[0] == t[0] && Within(g, k[1..], t[1..])) {
      var f := t[0].(stack := t[0].stack + [v]);
      StillDraining(g, t[0], v);
      var a := Drains(g, f, t[1..], |t| - 1, m);
      var b := ReturnsAlike(g, k, t[1..], v, m);
      PlainAdd(g, a, b, ReturnTo(t, |t|, v, m));
      n := a + b;
    }
  }

  lemma {:induction false} StillDraining(g: Machine, f: Frame, v: Value)
    requires Draining(g, f)
    ensures Draining(g, f.(stack := f.stack + [v]))
  {
  }

  // ----- one step -----

  /** After `n` plain steps the machines are alike again, or the plain one has exceeded the call depth. */
  ghost predicate Follows(g: Machine, c: Config, n: nat, t: Config) {
    var t' := PlainRun(g, n, t);
    t' == Stopped(CallDepthExceeded) || Alike(g, c, t')
  }

  lemma {:induction false} OneStep(g: Machine, c: Config, t: Config)
    ensures PlainRun(g, 1, t) == PlainStep(g, t)
  {
    assert PlainRun(g, 0, PlainStep(g, t)) == PlainStep(g, t);
  }

  /** Neither a call nor a return looks at the callers. */
  lemma {:induction false} DoAlike(g: Machine, i: Instr, f: Frame, k: seq<Frame>, t: seq<Frame>, m: Memory)
    requires f.fn < |g.fns| && Within(g, k, t) && !i.Call? && !i.TailCall? && !i.Return? && !i.Halt?
    ensures Alike(g, Do(g, i, f, k, |k|, m), Do(g, i, f, t, |t|, m))
  {
    hide Within, ConstToValue, UpvalueCell, ValueEqv, CallValue, ReturnTo;
  }

  lemma {:induction false} CallAlike(g: Machine, callee: Value, args: seq<Value>, f: Frame, k: seq<Frame>,
        t: seq<Frame>, m: Memory)
    requires Within(g, k, t)
    ensures var t' := CallValue(g, callee, args, f, t, |t|, m, false);
      t' == Stopped(CallDepthExceeded) || Alike(g, CallValue(g, callee, args, f, k, |k|, m, false), t')
  {
    hide BindArguments, NewFrame;
    FewerCallers(g, k, t);
    assert ([f] + k)[1..] == k && ([f] + t)[1..] == t;
  }

  /** A tail call against a call whose caller has nothing left to do. */
  lemma {:induction false} TailAlike(g: Machine, callee: Value, args: seq<Value>, f: Frame, k: seq<Frame>,
        t: seq<Frame>, m: Memory)
      returns (n: nat)
    requires Within(g, k, t) && Draining(g, f)
    ensures Follows(g, CallValue(g, callee, args, f, k, |k|, m, true), n,
      CallValue(g, callee, args, f, t, |t|, m, false))
  {
    hide BindArguments, NewFrame, PlainStep, Draining;
    n := 0;
    assert ([f] + t)[1..] == t;
    if callee.Native? {
      var r := g.prims(callee.name, args, m.world);
      if r.Ok? {
        StillDraining(g, f, r.value.0);
        var m' := m.(world := r.value.1);
        var a := Drains(g, Push(f, r.value.0), t, |t|, m');
        var b := ReturnsAlike(g, k, t, r.value.0, m');
        PlainAdd(g, a, b, Running(Push(f, r.value.0), t, |t|, m'));
        n := a + b;
      }
    }
  }

  lemma {:induction false} StepAlike(g: Machine, c: Config, t: Config) returns (n: nat)
    requires Integrity.Sound(g, c) && c.Running? && t.Running? && Alike(g, c, t)
    ensures n > 0 && Follows(g, Step(g, c), n, t)
  {
    hide SoundMemory, Certified, Alike, Do, Fetch, Within, Level, ScopeIn, InCells, PlainRun;
    var i, next, heights := Fetches(g, c.top, |c.m.cells|);
    AlikeTops(g, c, t);
    var f := c.top.(ip := next, steps := c.top.steps - 1);
    OneStep(g, c, t);
    var rest := DoFollows(g, i, f, c.callers, t.callers, c.m);
    PlainAdd(g, 1, rest, t);
    n := 1 + rest;
  }

  lemma {:induction false} AlikeTops(g: Machine, c: Config, t: Config)
    requires Alike(g, c, t) && c.Running? && t.Running?
    ensures c.top == t.top && c.m == t.m && Within(g, c.callers, t.callers)
    ensures c.depth == |c.callers| && t.depth == |t.callers|
  {
    hide Within;
  }

  lemma {:induction false} DoFollows(g: Machine, i: Instr, f: Frame, k: seq<Frame>, t: seq<Frame>, m: Memory)
        returns (n: nat)
    requires f.fn < |g.fns| && Within(g, k, t) && Pops(i) <= |f.stack|
    requires f.steps + f.ip > |g.fns[f.fn].code| && (i.TailCall? ==> Exits(g.fns[f.fn].code, f.ip))
    ensures Follows(g, Do(g, i, f, k, |k|, m), n, Do(g, Plain(i), f, t, |t|, m))
  {
    hide Within, Alike, ConstToValue, UpvalueCell, ValueEqv, CallValue, ReturnTo, PlainStep, Exits;
    n := 0;
    var s := |f.stack|;
    match i
    case Call(argc) => CallAlike(g, f.stack[s - argc - 1], f.stack[s - argc..], f.(stack := f.stack[..s - argc - 1]), k,
      t, m);
    case TailCall(argc) =>
      n := TailAlike(g, f.stack[s - argc - 1], f.stack[s - argc..], f.(stack := f.stack[..s - argc - 1]), k, t, m);
    case Return => n := ReturnsAlike(g, k, t, f.stack[s - 1], m);
    case Halt => n := ReturnsAlike(g, k, t, Unspecified, m);
    case _ => DoAlike(g, i, f, k, t, m);
  }

  // ----- whole runs -----

  lemma {:induction false} StartAlike(g: Machine, c: Config)
    requires c.Running? && c.callers == [] && c.depth == 0
    ensures Alike(g, c, c)
  {
  }

  /** What the plain machine ends with, unless it is the call depth, the machine ends with. */
  lemma {:induction false} PlainEnds(g: Machine, c: Config, t: Config, n: nat) returns (k: nat)
    requires AllStructured(g) && Integrity.Sound(g, c) && Alike(g, c, t)
    requires !PlainRun(g, n, t).Running? && PlainRun(g, n, t) != Stopped(CallDepthExceeded)
    ensures Run(g, k, c) == PlainRun(g, n, t)
    decreases n
  {
    hide AllStructured, Integrity.Sound, Step, PlainStep, Within;
    var end := PlainRun(g, n, t);
    if !c.Running? || !t.Running? {
      PlainStays(g, n, t);
      k := 0;
    } else {
      var a := StepAlike(g, c, t);
      StepFine(g, c);
      var t' := PlainRun(g, a, t);
      assert Run(g, 1, c) == Run(g, 0, Step(g, c)) == Step(g, c);
      if a < n {
        PlainAdd(g, a, n - a, t);
        if t' == Stopped(CallDepthExceeded) {
          PlainStays(g, n - a, t');
        }
        var rest := PlainEnds(g, Step(g, c), t', n - a);
        k := 1 + rest;
      } else {
        PlainAdd(g, n, a - n, t);
        PlainStays(g, a - n, end);
        k := 1;
      }
    }
  }

  /** What the machine ends with the plain machine ends with, if it does not exceed the call depth. */
  lemma {:induction false} MachineEnds(g: Machine, c: Config, t: Config, k: nat) returns (n: nat)
    requires AllStructured(g) && Integrity.Sound(g, c) && Alike(g, c, t) && !Run(g, k, c).Running?
    ensures PlainRun(g, n, t) == Run(g, k, c) || PlainRun(g, n, t) == Stopped(CallDepthExceeded)
    decreases k
  {
    hide AllStructured, Integrity.Sound, Step, PlainStep, Within;
    if !c.Running? || !t.Running? {
      EndIsFinal(g, k, c);
      n := 0;
    } else {
      assert k > 0;
      var a := StepAlike(g, c, t);
      StepFine(g, c);
      var t' := PlainRun(g, a, t);
      n := a;
      if t' != Stopped(CallDepthExceeded) {
        var rest := MachineEnds(g, Step(g, c), t', k - 1);
        PlainAdd(g, a, rest, t);
        n := a + rest;
      }
    }
  }

  /**
   Tail calls refine ordinary calls, for every accepted program: a run of the plain
   machine that ends, and not for the call depth, is a run of the machine with the same
   result, memory or error; and a run of the machine that ends is one of the plain machine,
   or one in which the plain machine has run out of call depth.
   */
  lemma {:induction false} TailCallsRefineCalls(prims: Natives, forms: Exprs, i: Initial, n: nat)
        returns (k: nat, n': nat)
    requires CompProgram(forms).Ok? && Fits(CompProgram(forms).value.fns)
    ensures var md := CompProgram(forms).value;
      md.entry < |md.fns|
      && var g, c := Machine(prims, md.fns), StartConfig(md, i);
         var t := PlainRun(g, n, c);
         (!t.Running? && t != Stopped(CallDepthExceeded) ==> Run(g, k, c) == t)
         && (!Run(g, n, c).Running? ==> PlainRun(g, n', c) in {Run(g, n, c), Stopped(CallDepthExceeded)})
  {
    hide CompProgram, Run, PlainRun, AllStructured, Integrity.Sound, Alike, NewFrame;
    StartSound(prims, forms, i);
    var md := CompProgram(forms).value;
    var g, c := Machine(prims, md.fns), StartConfig(md, i);
    StartAlike(g, c);
    k, n' := 0, 0;
    var t := PlainRun(g, n, c);
    if !t.Running? && t != Stopped(CallDepthExceeded) {
      k := PlainEnds(g, c, c, n);
    }
    if !Run(g, n, c).Running? {
      n' := MachineEnds(g, c, c, n);
    }
  }

  /** Every TAIL_CALL of every chunk, run or not, is followed by nothing but jumps to RETURN. */
  lemma {:induction false} TailCallsExit(forms: Exprs, j: nat, o: nat, argc: u8, next: nat)
    requires CompProgram(forms).Ok? && Fits(CompProgram(forms).value.fns) && j < |CompProgram(forms).value.fns|
    requires var code := CompProgram(forms).value.fns[j].code;
      Walks(code, 0, o) && Fetch(code, o) == Got(TailCall(argc), next)
    ensures Exits(CompProgram(forms).value.fns[j].code, next)
  {
    hide CompProgram, Walks, Exits, Fetch, Structured;
    ProgramIsStructured(forms);
    assert Structured(CompProgram(forms).value.fns, j);
    StructuredExits(CompProgram(forms).value.fns, j, o, argc, next);
  }

  lemma {:induction false} StructuredExits(fns: seq<Chunk>, j: nat, o: nat, argc: u8, next: nat)
    requires j < |fns| && Structured(fns, j) && Walks(fns[j].code, 0, o)
      && Fetch(fns[j].code, o) == Got(TailCall(argc), next)
    ensures Exits(fns[j].code, next)
  {
    hide Walks, Exits, Certified, Decode, OperandLen;
    var u := UnitOf(fns, j);
    var heights: map<nat, nat> :| Certified(u, heights);
    WalkedIsSound(u, heights, o);
  }
}
