/**
 What every configuration of every run of a compiled program keeps: the operand stack has
 the height of the boundary control is at, the step budget covers the rest of the chunk,
 every cell exists, and `depth` is the number of calls that wait for a value.
 */
module Integrity {
  import opened Prelude
  import opened Data
  import opened Syntax
  import opened Instr
  import opened Source
  import opened Compile
  import opened Vm
  import opened Relation
  import opened Programs
  import opened Structure
  import opened StructuredCode

  /** What the language calls an error; a closure is foreign when no MAKE_FUNCTION of this machine made it. */
  predicate LanguageError(e: Error) {
    e.UnboundGlobal? || e.SetUndefined? || e.NotProcedure? || e.WrongArity? || e.CallDepthExceeded? || e.NativeError?
    || e.ForeignClosure?
  }

  /** A variable looked for where the layout of slots does not have it. */
  predicate MisplacedVariable(e: Error) {
    e.LocalSlotRange? || e.UpvalueRange?
  }

  ghost predicate InCells(locals: seq<nat>, n: nat) {
    forall i :: 0 <= i < |locals| ==> locals[i] < n
  }

  ghost predicate ScopeIn(s: Scope, n: nat)
    decreases s
  {
    InCells(s.locals, n) && (s.parent.Some? ==> ScopeIn(s.parent.value, n))
  }

  ghost predicate SoundMemory(g: Machine, m: Memory) {
    forall i :: 0 <= i < |m.closures| ==> m.closures[i].fn < |g.fns| && ScopeIn(m.closures[i].scope, |m.cells|)
  }

  /** The frame is at a boundary whose height it has once `pending` values have been pushed. */
  ghost predicate Level(g: Machine, f: Frame, pending: nat)
    requires f.fn < |g.fns|
  {
    exists heights: map<nat, nat> ::
      Certified(UnitOf(g.fns, f.fn), heights) && f.ip in heights && heights[f.ip] == |f.stack| + pending
  }

  ghost predicate SoundFrame(g: Machine, f: Frame, pending: nat, n: nat) {
    f.fn < |g.fns| && Level(g, f, pending) && f.steps + f.ip > |g.fns[f.fn].code|
    && InCells(f.locals, n) && (f.scope.Some? ==> ScopeIn(f.scope.value, n))
  }

  /** The frame is just past a CALL, whose value it waits for. */
  ghost predicate Waits(g: Machine, f: Frame) {
    f.fn < |g.fns| && exists o, argc :: Fetch(g.fns[f.fn].code, o) == Got(Call(argc), f.ip)
  }

  ghost predicate Sound(g: Machine, c: Config) {
    c.Running? ==>
      SoundFrame(g, c.top, 0, |c.m.cells|) && SoundMemory(g, c.m) && c.depth == |c.callers|
      && forall i :: 0 <= i < |c.callers| ==> SoundFrame(g, c.callers[i], 1, |c.m.cells|) && Waits(g, c.callers[i])
  }

  /** The configuration is sound, or the run has ended as the language or a misplaced variable has it. */
  ghost predicate Fine(g: Machine, c: Config) {
    Sound(g, c) && (c.Stopped? ==> LanguageError(c.error) || MisplacedVariable(c.error))
  }

  lemma {:induction false} ScopeInMore(s: Scope, n: nat, n': nat)
    requires ScopeIn(s, n) && n <= n'
    ensures ScopeIn(s, n')
    decreases s
  {
    if s.parent.Some? {
      ScopeInMore(s.parent.value, n, n');
    }
  }

  lemma {:induction false} FrameMore(g: Machine, f: Frame, pending: nat, n: nat, n': nat)
    requires SoundFrame(g, f, pending, n) && n <= n'
    ensures SoundFrame(g, f, pending, n')
  {
    hide Level;
    if f.scope.Some? {
      ScopeInMore(f.scope.value, n, n');
    }
  }

  lemma {:induction false} MemoryMore(g: Machine, m: Memory, m': Memory)
    requires SoundMemory(g, m) && m'.closures == m.closures && |m.cells| <= |m'.cells|
    ensures SoundMemory(g, m')
  {
    forall i | 0 <= i < |m.closures|
      ensures ScopeIn(m.closures[i].scope, |m'.cells|)
    {
      ScopeInMore(m.closures[i].scope, |m.cells|, |m'.cells|);
    }
  }

  lemma {:induction false} ResolvedIn(s: Scope, depth: u8, n: nat)
    requires depth > 0 && ScopeIn(s, n)
    ensures var r := ResolveScope(s, depth); r.Some? ==> InCells(r.value.locals, n)
    decreases depth
  {
    if depth > 1 && s.parent.Some? {
      ResolvedIn(s.parent.value, depth - 1, n);
    }
  }

  lemma {:induction false} UpvalueIn(f: Frame, depth: u8, slot: u8, n: nat)
    requires f.scope.Some? ==> ScopeIn(f.scope.value, n)
    ensures var r := UpvalueCell(f.scope, depth, slot); r.Some? ==> r.value < n
  {
    if f.scope.Some? && depth > 0 {
      ResolvedIn(f.scope.value, depth, n);
    }
  }

  /** What the certificate of the chunk says of the instruction a sound frame is at. */
  lemma {:induction false} Fetches(g: Machine, f: Frame, n: nat) returns (i: Instr, next: nat, heights: map<nat, nat>)
    requires SoundFrame(g, f, 0, n)
    ensures f.steps > 0 && Fetch(g.fns[f.fn].code, f.ip) == Got(i, next) && f.ip < next
    ensures Certified(UnitOf(g.fns, f.fn), heights)
    ensures Allowed(UnitOf(g.fns, f.fn), i, next) && Pops(i) <= |f.stack|
    ensures Falls(i) ==> next in heights && heights[next] == After(i, |f.stack|)
    ensures Target(i).Some? ==>
      var t := Target(i).value; f.ip < t && t in heights && heights[t] == After(i, |f.stack|)
  {
    hide Walks, Allowed;
    var u := UnitOf(g.fns, f.fn);
    heights :| Certified(u, heights) && f.ip in heights && heights[f.ip] == |f.stack| + 0;
    assert Structure.Sound(u, f.ip, heights);
    i, next := Fetch(u.code, f.ip).instr, Fetch(u.code, f.ip).next;
  }

  /** An instruction that neither calls nor jumps nor returns. */
  predicate Local(i: Instr) {
    Falls(i) && Target(i).None? && !i.Call? && !i.TailCall?
  }

  /** It replaces its operands by its results, and leaves memory sound. */
  lemma {:induction false} LocalStep(g: Machine, i: Instr, f: Frame, k: seq<Frame>, d: nat, m: Memory)
    requires f.fn < |g.fns| && Local(i) && Allowed(UnitOf(g.fns, f.fn), i, f.ip) && Pops(i) <= |f.stack|
    requires InCells(f.locals, |m.cells|) && (f.scope.Some? ==> ScopeIn(f.scope.value, |m.cells|)) && SoundMemory(g, m)
    ensures var c := Do(g, i, f, k, d, m);
      if c.Running? then
        c.callers == k && c.depth == d && |c.top.stack| == After(i, |f.stack|)
        && c.top == f.(stack := c.top.stack, locals := c.top.locals)
        && |m.cells| <= |c.m.cells| && InCells(c.top.locals, |c.m.cells|) && SoundMemory(g, c.m)
      else c.Stopped? && (LanguageError(c.error) || MisplacedVariable(c.error))
  {
    hide ConstToValue, ValueEqv;
    match i
    case GetUpvalue(depth, slot) => UpvalueIn(f, depth, slot, |m.cells|);
    case SetUpvalue(depth, slot) => UpvalueIn(f, depth, slot, |m.cells|);
    case PushLocal => MemoryMore(g, m, m.(cells := m.cells + [f.stack[|f.stack| - 1]]));
    case _ =>
  }

  /** The frame has moved forward to a boundary at its height. */
  lemma {:induction false} Moved(g: Machine, f: Frame, f': Frame, pending: nat, heights: map<nat, nat>, n: nat, n': nat)
    requires SoundFrame(g, f, 0, n) && n <= n' && Certified(UnitOf(g.fns, f.fn), heights)
    requires f'.fn == f.fn && f.ip < f'.ip && f'.steps + 1 == f.steps && f'.scope == f.scope && InCells(f'.locals, n')
    requires f'.ip in heights && heights[f'.ip] == |f'.stack| + pending
    ensures SoundFrame(g, f', pending, n')
  {
    hide Certified;
    FrameMore(g, f, 0, n, n');
    assert Level(g, f', pending);
  }

  ghost predicate AllWait(g: Machine, k: seq<Frame>, n: nat) {
    forall i :: 0 <= i < |k| ==> SoundFrame(g, k[i], 1, n) && Waits(g, k[i])
  }

  lemma {:induction false} AllWaitMore(g: Machine, k: seq<Frame>, n: nat, n': nat)
    requires AllWait(g, k, n) && n <= n'
    ensures AllWait(g, k, n')
  {
    hide SoundFrame, Waits;
    forall i | 0 <= i < |k|
      ensures SoundFrame(g, k[i], 1, n')
    {
      FrameMore(g, k[i], 1, n, n');
    }
  }

  ghost predicate AllStructured(g: Machine) {
    forall j | 0 <= j < |g.fns| :: Structured(g.fns, j)
  }

  lemma {:induction false} Enters(g: Machine, fn: nat, locals: seq<nat>, scope: Scope, n: nat)
    requires AllStructured(g) && fn < |g.fns| && InCells(locals, n) && ScopeIn(scope, n)
    ensures SoundFrame(g, NewFrame(fn, g.fns[fn].code, locals, Some(scope)), 0, n)
  {
    hide Walks, Structure.Sound;
    assert Structured(g.fns, fn);
    var heights: map<nat, nat> :| Certified(UnitOf(g.fns, fn), heights);
    assert 0 in heights && heights[0] == 0;
  }

  /** A call of anything, from a frame that waits or one that is replaced. */
  lemma {:induction false} CallFine(g: Machine, callee: Value, args: seq<Value>, f: Frame, k: seq<Frame>, d: nat,
        m: Memory, tail: bool)
    requires AllStructured(g) && SoundMemory(g, m) && AllWait(g, k, |m.cells|) && d == |k|
    requires !tail ==> SoundFrame(g, f, 1, |m.cells|) && Waits(g, f)
    ensures Fine(g, CallValue(g, callee, args, f, k, d, m, tail))
  {
    hide SoundFrame, Waits, BindArguments, NewFrame, Structured;
    var c := CallValue(g, callee, args, f, k, d, m, tail);
    if callee.Native? {
      NativeFine(g, callee, args, f, k, d, m, tail);
    } else if callee.Closure? && c.Running? {
      var closure := m.closures[callee.id];
      var chunk := g.fns[closure.fn];
      var (vs, w) := BindArguments(chunk.arity, chunk.hasRest, args, m.world).value;
      var locals := seq(|vs|, i requires 0 <= i < |vs| => |m.cells| + i);
      var n := |m.cells| + |vs|;
      assert InCells(locals, n);
      ScopeInMore(closure.scope, |m.cells|, n);
      Enters(g, closure.fn, locals, closure.scope, n);
      MemoryMore(g, m, c.m);
      AllWaitMore(g, k, |m.cells|, n);
      if !tail {
        FrameMore(g, f, 1, |m.cells|, n);
      }
    } else {
      BindErrors(g, callee, args, m);
    }
  }

  lemma {:induction false} BindErrors(g: Machine, callee: Value, args: seq<Value>, m: Memory)
    requires SoundMemory(g, m)
    ensures callee.Closure? && callee.id < |m.closures| ==>
      var chunk := g.fns[m.closures[callee.id].fn];
      var b := BindArguments(chunk.arity, chunk.hasRest, args, m.world);
      b.Err? ==> b.error == WrongArity
  {
    hide ScopeIn;
  }

  lemma {:induction false} NativeFine(g: Machine, callee: Value, args: seq<Value>, f: Frame, k: seq<Frame>, d: nat,
        m: Memory, tail: bool)
    requires callee.Native? && SoundMemory(g, m) && AllWait(g, k, |m.cells|) && d == |k|
    requires !tail ==> SoundFrame(g, f, 1, |m.cells|)
    ensures Fine(g, CallValue(g, callee, args, f, k, d, m, tail))
  {
    hide Waits, Certified;
    var r := g.prims(callee.name, args, m.world);
    if r.Ok? {
      MemoryMore(g, m, m.(world := r.value.1));
      if tail {
        Returned(g, k, d, r.value.0, m.(world := r.value.1));
      } else {
        Received(g, f, r.value.0, |m.cells|);
      }
    }
  }

  /** The value a frame waits for puts it at the height of its boundary. */
  lemma {:induction false} Received(g: Machine, f: Frame, v: Value, n: nat)
    requires SoundFrame(g, f, 1, n)
    ensures SoundFrame(g, Push(f, v), 0, n)
  {
    hide Certified;
    var heights: map<nat, nat> :|
      Certified(UnitOf(g.fns, f.fn), heights) && f.ip in heights && heights[f.ip] == |f.stack| + 1;
    assert heights[Push(f, v).ip] == |Push(f, v).stack| + 0;
  }

  lemma {:induction false} Returned(g: Machine, k: seq<Frame>, d: nat, v: Value, m: Memory)
    requires SoundMemory(g, m) && AllWait(g, k, |m.cells|) && d == |k|
    ensures Fine(g, ReturnTo(k, d, v, m))
  {
    hide SoundFrame, Waits;
    if k != [] {
      Received(g, k[0], v, |m.cells|);
    }
  }

  /** One step keeps a configuration sound, and stops only for an error of the language or a misplaced variable. */
  lemma {:induction false} StepFine(g: Machine, c: Config)
    requires AllStructured(g) && Sound(g, c) && c.Running?
    ensures Fine(g, Step(g, c))
  {
    hide Certified, Structured, Allowed, Do, Fetch, Waits, Level, ScopeIn;
    var i, next, heights := Fetches(g, c.top, |c.m.cells|);
    var f := c.top.(ip := next, steps := c.top.steps - 1);
    assert AllWait(g, c.callers, |c.m.cells|);
    if Local(i) {
      LocalStep(g, i, f, c.callers, c.depth, c.m);
      var c' := Do(g, i, f, c.callers, c.depth, c.m);
      if c'.Running? {
        Moved(g, c.top, c'.top, 0, heights, |c.m.cells|, |c'.m.cells|);
        AllWaitMore(g, c.callers, |c.m.cells|, |c'.m.cells|);
      }
    } else {
      OtherStep(g, c, i, next, heights);
    }
  }

  lemma {:induction false} OtherStep(g: Machine, c: Config, i: Instr, next: nat, heights: map<nat, nat>)
    requires AllStructured(g) && Sound(g, c) && c.Running? && !Local(i) && c.top.steps > 0 && c.top.ip < next
    requires Fetch(g.fns[c.top.fn].code, c.top.ip) == Got(i, next) && Certified(UnitOf(g.fns, c.top.fn), heights)
    requires Pops(i) <= |c.top.stack|
    requires Falls(i) ==> next in heights && heights[next] == After(i, |c.top.stack|)
    requires Target(i).Some? ==>
      var t := Target(i).value; c.top.ip < t && t in heights && heights[t] == After(i, |c.top.stack|)
    ensures Fine(g, Do(g, i, c.top.(ip := next, steps := c.top.steps - 1), c.callers, c.depth, c.m))
  {
    hide Certified, Structured, Fetch, Level, ScopeIn, CallValue;
    var f, n := c.top.(ip := next, steps := c.top.steps - 1), |c.top.stack|;
    assert AllWait(g, c.callers, |c.m.cells|);
    match i
    case Jump(t) =>
      Moved(g, c.top, f.(ip := t), 0, heights, |c.m.cells|, |c.m.cells|);
    case JumpIfFalse(t) =>
      var f' := f.(stack := f.stack[..n - 1]);
      Moved(g, c.top, f', 0, heights, |c.m.cells|, |c.m.cells|);
      Moved(g, c.top, f'.(ip := t), 0, heights, |c.m.cells|, |c.m.cells|);
    case Call(argc) =>
      var f' := f.(stack := f.stack[..n - argc - 1]);
      Moved(g, c.top, f', 1, heights, |c.m.cells|, |c.m.cells|);
      CallFine(g, f.stack[n - argc - 1], f.stack[n - argc..], f', c.callers, c.depth, c.m, false);
    case TailCall(argc) =>
      CallFine(g, f.stack[n - argc - 1], f.stack[n - argc..], f.(stack := f.stack[..n - argc - 1]), c.callers, c.depth,
        c.m, true);
    case Return =>
      Returned(g, c.callers, c.depth, f.stack[n - 1], c.m);
    case Halt =>
      Returned(g, c.callers, c.depth, Unspecified, c.m);
    case _ =>
  }

  lemma {:induction false} RunFine(g: Machine, n: nat, c: Config)
    requires AllStructured(g) && Fine(g, c)
    ensures Fine(g, Run(g, n, c))
    decreases n
  {
    hide Step, Structured;
    if n > 0 {
      if c.Running? {
        StepFine(g, c);
      } else {
        assert Step(g, c) == c by {
          EndStays(g, c);
        }
      }
      RunFine(g, n - 1, Step(g, c));
    }
  }

  lemma {:induction false} EndStays(g: Machine, c: Config)
    requires !c.Running?
    ensures Step(g, c) == c
  {
  }

  lemma {:induction false} StartSound(prims: Natives, forms: Exprs, i: Initial)
    requires CompProgram(forms).Ok? && Fits(CompProgram(forms).value.fns)
    ensures var md := CompProgram(forms).value;
      md.entry < |md.fns| && AllStructured(Machine(prims, md.fns)) && Sound(Machine(prims, md.fns), StartConfig(md, i))
  {
    hide Walks, Structure.Sound, CompForms;
    ProgramIsStructured(forms);
    var md := CompProgram(forms).value;
    var g := Machine(prims, md.fns);
    assert Structured(md.fns, md.entry);
    var heights: map<nat, nat> :| Certified(UnitOf(md.fns, md.entry), heights);
    assert 0 in heights && heights[0] == 0;
  }

  /**
   No accepted program, whatever its layout of slots, makes the machine underflow its
   stack, leave its code, run out of its step budget, use a constant, a name, a function or
   a cell that is not there; and at every step `depth` is the number of calls, each just
   past its CALL instruction, that wait for a value.
   */
  lemma {:induction false} EveryRunIsSound(prims: Natives, k: nat, forms: Exprs, i: Initial)
    requires CompProgram(forms).Ok? && Fits(CompProgram(forms).value.fns)
    ensures var md := CompProgram(forms).value;
      md.entry < |md.fns|
      && var g := Machine(prims, md.fns);
         var c := Run(g, k, StartConfig(md, i));
         (c.Stopped? ==> LanguageError(c.error) || MisplacedVariable(c.error))
         && (c.Running? ==> c.depth == |c.callers| && forall j :: 0 <= j < |c.callers| ==> Waits(g, c.callers[j]))
  {
    hide CompProgram, Run, Structured, SoundFrame, SoundMemory, Waits, NewFrame;
    StartSound(prims, forms, i);
    var md := CompProgram(forms).value;
    RunFine(Machine(prims, md.fns), k, StartConfig(md, i));
  }
}
