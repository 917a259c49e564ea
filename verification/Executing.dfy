/**
 The machine as it runs: a loop over one activation's instructions that calls itself
 for closures in non-tail position and starts over for tail calls.  It is proved to
 take exactly the steps of `Vm.Run`, whose frames are the pending native calls.
 */
module Executing {
  import opened Prelude
  import opened Data
  import opened Syntax
  import opened Instr
  import opened Source
  import opened Compile
  import opened Vm
  import opened Programs
  import opened Compiling
  import opened Relation

  /** The variables of one pass of `exec`. */
  class Activation {
    var fn: nat
    var ip: nat
    var remainingSteps: nat
    var stack: seq<Value>
    var locals: seq<nat>
    var env: Option<Scope>

    constructor (fn: nat, codeLen: nat, locals: seq<nat>, env: Option<Scope>)
      ensures AsFrame() == Frame(fn, 0, codeLen + 1, [], locals, env)
    {
      this.fn, this.locals, this.env := fn, locals, env;
      ip, remainingSteps, stack := 0, codeLen + 1, [];
    }

    function AsFrame(): Frame
      reads this
    {
      Frame(fn, ip, remainingSteps, stack, locals, env)
    }

    /** A tail call or a first call: everything about the pass is new. */
    method Restart(fn: nat, codeLen: nat, locals: seq<nat>, env: Option<Scope>)
      modifies this
      ensures AsFrame() == Frame(fn, 0, codeLen + 1, [], locals, env)
    {
      this.fn, this.locals, this.env := fn, locals, env;
      ip, remainingSteps, stack := 0, codeLen + 1, [];
    }

    method Push(v: Value)
      modifies this
      ensures AsFrame() == Vm.Push(old(AsFrame()), v)
    {
      stack := stack + [v];
    }

    method Pop() returns (v: Option<Value>)
      modifies this
      ensures v.None? <==> old(stack) == []
      ensures v.None? ==> AsFrame() == old(AsFrame())
      ensures v.Some? ==> v.value == old(stack)[|old(stack)| - 1]
                          && AsFrame() == old(AsFrame()).(stack := old(stack)[..|old(stack)| - 1])
    {
      if stack == [] {
        return None;
      }
      v := Some(stack[|stack| - 1]);
      stack := stack[..|stack| - 1];
    }
  }

  /** What an instruction other than a call or a return does to its own activation. */
  type Stepped = Result<(), Error>

  class Interpreter {
    const g: Machine
    var cells: seq<Value>
    var closures: seq<VClosure>
    var globals: map<string, Value>
    var world: World
    var callDepth: nat

    constructor (g: Machine, i: Initial)
      ensures this.g == g && Memory() == Vm.Memory([], [], i.globals, i.world) && callDepth == 0
    {
      this.g := g;
      cells, closures, globals, world, callDepth := [], [], i.globals, i.world, 0;
    }

    function Memory(): Memory
      reads this
    {
      Vm.Memory(cells, closures, globals, world)
    }

    /** The configuration that `Do` gives, as this activation and this memory or as an error. */
    ghost predicate Did(c: Config, a: Activation, k: seq<Frame>, r: Stepped)
      reads this, a
    {
      if r.Ok? then c == Running(a.AsFrame(), k, callDepth, Memory()) else c == Stopped(r.error)
    }

    method ReadCell(a: Activation, cell: Option<nat>, e: Error, ghost k: seq<Frame>) returns (r: Stepped)
      modifies a
      ensures a.fn == old(a.fn)
      ensures Did(Vm.ReadCell(old(a.AsFrame()), k, callDepth, Memory(), cell, e), a, k, r)
    {
      if cell.None? {
        return Err(e);
      }
      if cell.value >= |cells| {
        return Err(DanglingCell);
      }
      a.Push(cells[cell.value]);
      r := Ok(());
    }

    method WriteCell(a: Activation, cell: Option<nat>, e: Error, ghost k: seq<Frame>) returns (r: Stepped)
      modifies this, a
      ensures callDepth == old(callDepth) && a.fn == old(a.fn)
      ensures Did(Vm.WriteCell(old(a.AsFrame()), k, callDepth, old(Memory()), cell, e), a, k, r)
    {
      var v := a.Pop();
      if v.None? {
        return Err(StackUnderflow);
      }
      if cell.None? {
        return Err(e);
      }
      if cell.value >= |cells| {
        return Err(DanglingCell);
      }
      cells := cells[cell.value := v.value];
      a.Push(Unspecified);
      r := Ok(());
    }

    /** GET/SET of locals and upvalues, PUSH_LOCAL, and the globals. */
    method Variable(i: Instr, a: Activation, ghost k: seq<Frame>) returns (r: Stepped)
      requires a.fn < |g.fns|
      requires i.GetLocal? || i.SetLocal? || i.GetUpvalue? || i.SetUpvalue? || i.PushLocal?
      modifies this, a
      ensures callDepth == old(callDepth) && a.fn == old(a.fn)
      ensures Did(Do(g, i, old(a.AsFrame()), k, callDepth, old(Memory())), a, k, r)
    {
      hide Vm.ReadCell, Vm.WriteCell, UpvalueCell;
      match i
      case GetLocal(s) => r := ReadCell(a, if s < |a.locals| then Some(a.locals[s]) else None, LocalSlotRange, k);
      case SetLocal(s) => r := WriteCell(a, if s < |a.locals| then Some(a.locals[s]) else None, LocalSlotRange, k);
      case GetUpvalue(depth, s) => r := ReadCell(a, UpvalueCell(a.env, depth, s), UpvalueRange, k);
      case SetUpvalue(depth, s) => r := WriteCell(a, UpvalueCell(a.env, depth, s), UpvalueRange, k);
      case PushLocal =>
        var v := a.Pop();
        if v.None? {
          return Err(StackUnderflow);
        }
        a.locals := a.locals + [|cells|];
        cells := cells + [v.value];
        r := Ok(());
    }

    method GlobalVariable(i: Instr, a: Activation, ghost k: seq<Frame>) returns (r: Stepped)
      requires a.fn < |g.fns|
      requires i.GetGlobal? || i.SetGlobal? || i.DefGlobal?
      modifies this, a
      ensures callDepth == old(callDepth) && a.fn == old(a.fn)
      ensures Did(Do(g, i, old(a.AsFrame()), k, callDepth, old(Memory())), a, k, r)
    {
      var consts := g.fns[a.fn].consts;
      if i.k >= |consts| {
        return Err(ConstantRange);
      }
      if !consts[i.k].CSymbol? {
        return Err(NotASymbol);
      }
      var name := consts[i.k].s;
      if i.GetGlobal? {
        if name !in globals {
          return Err(UnboundGlobal(name));
        }
        a.Push(globals[name]);
        return Ok(());
      }
      var v := a.Pop();
      if v.None? {
        return Err(StackUnderflow);
      }
      if i.SetGlobal? && name !in globals {
        return Err(SetUndefined(name));
      }
      globals := globals[name := v.value];
      a.Push(Unspecified);
      r := Ok(());
    }
  
    method StackInstruction(i: Instr, a: Activation, ghost k: seq<Frame>) returns (r: Stepped)
      requires a.fn < |g.fns|
      requires i.Const? || i.Dup? || i.Swap? || i.Eqv? || i.Pop? || i.MakeFunction?
      modifies this, a
      ensures callDepth == old(callDepth) && a.fn == old(a.fn)
      ensures Did(Do(g, i, old(a.AsFrame()), k, callDepth, old(Memory())), a, k, r)
    {
      hide ConstToValue, ValueEqv;
      var n := |a.stack|;
      r := Ok(());
      match i
      case Const(c) =>
        var consts := g.fns[a.fn].consts;
        if c >= |consts| {
          return Err(ConstantRange);
        }
        var (v, w) := ConstToValue(consts[c], world);
        world := w;
        a.Push(v);
      case Dup =>
        if n == 0 {
          return Err(StackUnderflow);
        }
        a.Push(a.stack[n - 1]);
      case Swap =>
        if n < 2 {
          return Err(StackUnderflow);
        }
        a.stack := a.stack[..n - 2] + [a.stack[n - 1], a.stack[n - 2]];
      case Eqv =>
        if n < 2 {
          return Err(StackUnderflow);
        }
        a.stack := a.stack[..n - 2] + [Bool(ValueEqv(a.stack[n - 2], a.stack[n - 1]))];
      case Pop =>
        if n == 0 {
          return Err(StackUnderflow);
        }
        a.stack := a.stack[..n - 1];
      case MakeFunction(fn) =>
        if fn >= |g.fns| {
          return Err(FunctionRange);
        }
        a.Push(Closure(|closures|));
        closures := closures + [VClosure(fn, Scope(a.locals, a.env))];
    }

    method JumpInstruction(i: Instr, a: Activation, ghost k: seq<Frame>) returns (r: Stepped)
      requires a.fn < |g.fns|
      requires i.Jump? || i.JumpIfFalse?
      modifies a
      ensures a.fn == old(a.fn)
      ensures Did(Do(g, i, old(a.AsFrame()), k, callDepth, Memory()), a, k, r)
    {
      if i.JumpIfFalse? {
        var v := a.Pop();
        if v.None? {
          return Err(StackUnderflow);
        }
        if Truthy(v.value) {
          return Ok(());
        }
      }
      a.ip := i.target;
      r := Ok(());
    }

    /** Any instruction that neither calls nor returns. */
    method Plain(i: Instr, a: Activation, ghost k: seq<Frame>) returns (r: Stepped)
      requires a.fn < |g.fns|
      requires !i.Call? && !i.TailCall? && !i.Return? && !i.Halt?
      modifies this, a
      ensures callDepth == old(callDepth) && a.fn == old(a.fn)
      ensures Did(Do(g, i, old(a.AsFrame()), k, callDepth, old(Memory())), a, k, r)
    {
      hide Do;
      if i.GetLocal? || i.SetLocal? || i.GetUpvalue? || i.SetUpvalue? || i.PushLocal? {
        r := Variable(i, a, k);
      } else if i.GetGlobal? || i.SetGlobal? || i.DefGlobal? {
        r := GlobalVariable(i, a, k);
      } else if i.Jump? || i.JumpIfFalse? {
        r := JumpInstruction(i, a, k);
      } else {
        r := StackInstruction(i, a, k);
      }
    }

    /**
     How far a run from `c` has come after `n` of its steps: to the result handed to
     the callers, to the error, or, with no step left, to no end yet.
     */
    ghost predicate Reached(c: Config, n: nat, k: seq<Frame>, d: nat, r: Outcome<Value>)
      reads this
    {
      match r
      case Done(v) => Run(g, n, c) == ReturnTo(k, d, v, Memory())
      case Fail(e) => Run(g, n, c) == Stopped(e)
      case Timeout => Run(g, n, c).Running?
    }

    method CallNative(name: string, args: seq<Value>) returns (r: Result<Value, Error>)
      modifies this`world
      ensures match g.prims(name, args, old(world))
              case Ok((v, w)) => r == Ok(v) && world == w
              case Err(code) => r == Err(NativeError(code))
    {
      match g.prims(name, args, world)
      case Ok((v, w)) =>
        world := w;
        r := Ok(v);
      case Err(code) => r := Err(NativeError(code));
    }

    /** New cells for the arguments, after the arity check. */
    method BindArguments(chunk: Chunk, args: seq<Value>) returns (r: Result<seq<nat>, Error>)
      modifies this`cells, this`world
      ensures match Source.BindArguments(chunk.arity, chunk.hasRest, args, old(world))
              case Ok((vs, w)) =>
                r.Ok? && |r.value| == |vs| && (forall i :: 0 <= i < |vs| ==> r.value[i] == |old(cells)| + i)
                && cells == old(cells) + vs && world == w
              case Err(e) => r == Err(e)
    {
      if !chunk.hasRest && |args| != chunk.arity {
        return Err(WrongArity);
      }
      if chunk.hasRest && |args| < chunk.arity {
        return Err(WrongArity);
      }
      var first, vs := |cells|, args[..chunk.arity];
      if chunk.hasRest {
        var rest := args[chunk.arity..];
        if rest == [] {
          assert args == vs;
          vs := vs + [Nil];
        } else {
          vs := vs + [Ref(|world.objects|)];
          world := world.(objects := world.objects + [ListObj(rest)]);
        }
      }
      r := Ok(seq(|vs|, i requires 0 <= i < |vs| => first + i));
      cells := cells + vs;
    }

    /** The callee and arguments of a call, popped off the stack. */
    method TakeCall(a: Activation, argc: u8) returns (r: Result<(Value, seq<Value>), Error>)
      modifies a
      ensures a.fn == old(a.fn)
      ensures var f := old(a.AsFrame());
        var n := |f.stack|;
        if n < argc + 1 then r == Err(StackUnderflow)
        else
          r == Ok((f.stack[n - argc - 1], f.stack[n - argc..])) && a.AsFrame() == f.(stack := f.stack[..n - argc - 1])
    {
      var n := |a.stack|;
      if n < argc + 1 {
        return Err(StackUnderflow);
      }
      r := Ok((a.stack[n - argc - 1], a.stack[n - argc..]));
      a.stack := a.stack[..n - argc - 1];
    }

    /** Where a call that began in configuration `c` has come after `n` steps. */
    ghost predicate Returned(c: Config, n: nat, f: Frame, k: seq<Frame>, r: Outcome<Value>)
      reads this
    {
      match r
      case Done(v) => Run(g, n, c) == Running(Vm.Push(f, v), k, callDepth, Memory())
      case Fail(e) => Run(g, n, c) == Stopped(e)
      case Timeout => Run(g, n, c).Running?
    }

    /**
     `call_value`: what the step that executes CALL and the callee's whole run do to the
     calling activation, whose frame `f` no longer holds callee and arguments.
     */
    method CallValue(callee: Value, args: seq<Value>, fuel: nat, ghost f: Frame, ghost k: seq<Frame>)
        returns (r: Outcome<Value>, left: nat, ghost n: nat)
      modifies this
      ensures left + n == fuel && callDepth == old(callDepth) && (r.Timeout? ==> left == 0)
      ensures Returned(Vm.CallValue(g, callee, args, f, k, callDepth, old(Memory()), false), n, f, k, r)
      decreases fuel, 2
    {
      hide Run;
      ghost var c := Vm.CallValue(g, callee, args, f, k, callDepth, Memory(), false);
      RunZero(g, c);
      left, n := fuel, 0;
      match callee
      case Native(name) =>
        var v := CallNative(name, args);
        r := if v.Ok? then Done(v.value) else Fail(v.error);
      case Closure(id) =>
        r, left, n := CallClosure(id, args, fuel, f, k);
      case _ => r := Fail(NotProcedure(callee));
    }

    method CallClosure(id: nat, args: seq<Value>, fuel: nat, ghost f: Frame, ghost k: seq<Frame>)
        returns (r: Outcome<Value>, left: nat, ghost n: nat)
      modifies this
      ensures left + n == fuel && callDepth == old(callDepth) && (r.Timeout? ==> left == 0)
      ensures Returned(Vm.CallValue(g, Closure(id), args, f, k, callDepth, old(Memory()), false), n, f, k, r)
      decreases fuel, 1
    {
      hide Run, Source.BindArguments;
      ghost var c := Vm.CallValue(g, Closure(id), args, f, k, callDepth, Memory(), false);
      RunZero(g, c);
      left, n := fuel, 0;
      if callDepth >= MAX_CALL_DEPTH {
        return Fail(CallDepthExceeded), left, n;
      }
      if id >= |closures| {
        return Fail(ForeignClosure), left, n;
      }
      var closure := closures[id];
      if closure.fn >= |g.fns| {
        return Fail(FunctionRange), left, n;
      }
      ghost var m := Memory();
      var locals := BindArguments(g.fns[closure.fn], args);
      if locals.Err? {
        return Fail(locals.error), left, n;
      }
      NewCells(m, locals.value, Source.BindArguments(g.fns[closure.fn].arity, g.fns[closure.fn].hasRest, args,
        m.world).value.0);
      callDepth := callDepth + 1;
      r, left, n := Exec(closure.fn, locals.value, Some(closure.scope), fuel, [f] + k);
      callDepth := callDepth - 1;
    }

    static lemma {:induction false} NewCells(m: Memory, locals: seq<nat>, vs: seq<Value>)
      requires |locals| == |vs| && forall i :: 0 <= i < |vs| ==> locals[i] == |m.cells| + i
      ensures locals == seq(|vs|, i requires 0 <= i < |vs| => |m.cells| + i)
    {
    }

    /** Checks the instruction budget and fetches, advancing the instruction pointer. */
    method FetchNext(a: Activation, ghost k: seq<Frame>) returns (r: Outcome<Value>, i: Instr)
      requires a.fn < |g.fns|
      modifies a
      ensures a.fn == old(a.fn) && (r.Done? || r.Fail?)
      ensures var c := Step(g, Running(old(a.AsFrame()), k, callDepth, Memory()));
        if r.Fail? then c == Stopped(r.error) else c == Do(g, i, a.AsFrame(), k, callDepth, Memory())
    {
      hide Do, Fetch;
      r, i := Done(Unspecified), Halt;
      if a.remainingSteps == 0 {
        r := Fail(StepBudgetExceeded);
        return;
      }
      match Fetch(g.fns[a.fn].code, a.ip)
      case Got(instr, next) =>
        i := instr;
        a.ip, a.remainingSteps := next, a.remainingSteps - 1;
      case _ => r := Fail(BadInstruction);
    }

    method CallInstruction(argc: u8, a: Activation, fuel: nat, ghost k: seq<Frame>)
        returns (r: Outcome<()>, left: nat, ghost n: nat)
      requires a.fn < |g.fns|
      modifies this, a
      ensures left + n == fuel && callDepth == old(callDepth) && a.fn == old(a.fn) && (r.Timeout? ==> left == 0)
      ensures var c := Run(g, n, Do(g, Call(argc), old(a.AsFrame()), k, callDepth, old(Memory())));
        match r
        case Done(_) => c == Running(a.AsFrame(), k, callDepth, Memory())
        case Fail(e) => c == Stopped(e)
        case Timeout => c.Running?
      decreases fuel, 3
    {
      hide Run, Vm.CallValue;
      ghost var c := Do(g, Call(argc), a.AsFrame(), k, callDepth, Memory());
      RunZero(g, c);
      var call := TakeCall(a, argc);
      if call.Err? {
        return Fail(call.error), fuel, 0;
      }
      var v;
      v, left, n := CallValue(call.value.0, call.value.1, fuel, a.AsFrame(), k);
      if v.Done? {
        a.Push(v.value);
        r := Done(());
      } else {
        r := v.PropagateFailure();
      }
    }

    /** A tail call gives a result at once (a native) or starts the activation over (a closure). */
    method TailCallInstruction(argc: u8, a: Activation, ghost k: seq<Frame>) returns (r: Result<Option<Value>, Error>)
      requires a.fn < |g.fns|
      modifies this, a
      ensures callDepth == old(callDepth) && a.fn < |g.fns|
      ensures var c := Do(g, TailCall(argc), old(a.AsFrame()), k, callDepth, old(Memory()));
        if r.Err? then c == Stopped(r.error)
        else if r.value.Some? then c == ReturnTo(k, callDepth, r.value.value, Memory())
        else c == Running(a.AsFrame(), k, callDepth, Memory())
    {
      hide Source.BindArguments;
      var call := TakeCall(a, argc);
      if call.Err? {
        return Err(call.error);
      }
      match call.value.0
      case Native(name) =>
        var v :- CallNative(name, call.value.1);
        r := Ok(Some(v));
      case Closure(id) =>
        if id >= |closures| {
          return Err(ForeignClosure);
        }
        var closure := closures[id];
        if closure.fn >= |g.fns| {
          return Err(FunctionRange);
        }
        var chunk := g.fns[closure.fn];
        ghost var m := Memory();
        var locals :- BindArguments(chunk, call.value.1);
        NewCells(m, locals, Source.BindArguments(chunk.arity, chunk.hasRest, call.value.1, m.world).value.0);
        a.Restart(closure.fn, |chunk.code|, locals, Some(closure.scope));
        r := Ok(None);
      case _ => r := Err(NotProcedure(call.value.0));
    }

    /**
     `exec`: runs one activation, and those that its tail calls turn it into, to its
     result.  Within `fuel` instructions it takes the machine where `Run` takes it.
     */
    method Exec(fn: nat, locals: seq<nat>, env: Option<Scope>, fuel: nat, ghost k: seq<Frame>)
        returns (r: Outcome<Value>, left: nat, ghost n: nat)
      requires fn < |g.fns|
      modifies this
      ensures left + n == fuel && callDepth == old(callDepth) && (r.Timeout? ==> left == 0)
      ensures Reached(Running(NewFrame(fn, g.fns[fn].code, locals, env), k, old(callDepth), old(Memory())), n, k,
        callDepth, r)
      decreases fuel, 0
    {
      hide Run, Do, Fetch, ReturnTo, Step;
      var a := new Activation(fn, |g.fns[fn].code|, locals, env);
      ghost var start := Running(a.AsFrame(), k, callDepth, Memory());
      RunZero(g, start);
      left, n := fuel, 0;
      while left > 0
        invariant left + n == fuel && callDepth == old(callDepth) && a.fn < |g.fns| && fresh(a)
        invariant Run(g, n, start) == Running(a.AsFrame(), k, callDepth, Memory())
        decreases left
      {
        OneStep(g, n, start);
        left, n := left - 1, n + 1;
        var i;
        r, i := FetchNext(a, k);
        if r.Fail? {
          return;
        }
        if i.Call? {
          var done;
          ghost var ran;
          done, left, ran := CallInstruction(i.argc, a, left, k);
          RunAdd(g, n, ran, start);
          n := n + ran;
          if !done.Done? {
            r := done.PropagateFailure();
            return;
          }
        } else if i.TailCall? {
          var result := TailCallInstruction(i.argc, a, k);
          if result.Err? {
            return Fail(result.error), left, n;
          }
          if result.value.Some? {
            return Done(result.value.value), left, n;
          }
        } else if i.Return? || i.Halt? {
          EndOf(g, i, a.AsFrame(), k, callDepth, Memory());
          return Done(if i.Halt? || a.stack == [] then Unspecified else a.stack[|a.stack| - 1]), left, n;
        } else {
          var result := Plain(i, a, k);
          if result.Err? {
            return Fail(result.error), left, n;
          }
        }
      }
      r := Timeout;
    }
  }

  lemma {:induction false} OneStep(g: Machine, n: nat, c: Config)
    ensures Run(g, n + 1, c) == Step(g, Run(g, n, c))
  {
    RunAdd(g, n, 1, c);
    RunZero(g, Step(g, Run(g, n, c)));
  }

  lemma {:induction false} EndOf(g: Machine, i: Instr, f: Frame, k: seq<Frame>, d: nat, m: Memory)
    requires (i.Return? || i.Halt?) && f.fn < |g.fns|
    ensures Do(g, i, f, k, d, m)
      == ReturnTo(k, d, if i.Halt? || f.stack == [] then Unspecified else f.stack[|f.stack| - 1], m)
  {
  }

  /** How a program ended, and the globals and world it left behind. */
  datatype Ending = Ending(outcome: Outcome<()>, globals: map<string, Value>, world: World)

  /** What the machine does with a compiled program within `fuel` instructions. */
  method RunModule(prims: Natives, md: Module, i: Initial, fuel: nat) returns (r: Ending)
    ensures r.outcome == Fail(FunctionRange) || md.entry < |md.fns|
    ensures md.entry < |md.fns| ==>
      var c := Run(Machine(prims, md.fns), fuel, StartConfig(md, i));
      match r.outcome
      case Done(_) => c.Finished? && c.m.globals == r.globals && c.m.world == r.world
      case Fail(e) => c == Stopped(e)
      case Timeout => c.Running?
  {
    hide Run;
    if md.entry >= |md.fns| {
      return Ending(Fail(FunctionRange), i.globals, i.world);
    }
    var vm := new Interpreter(Machine(prims, md.fns), i);
    ghost var start := StartConfig(md, i);
    assert start == Running(NewFrame(md.entry, md.fns[md.entry].code, [], None), [], vm.callDepth, vm.Memory());
    var v, left;
    ghost var n;
    v, left, n := vm.Exec(md.entry, [], None, fuel, []);
    if !v.Timeout? {
      SameEnd(vm.g, n, fuel, start);
    }
    var outcome := if v.Done? then Done(()) else v.PropagateFailure();
    r := Ending(outcome, vm.globals, vm.world);
  }

  /**
   Compiling and running a program, both as the implementation does it, computes what
   the evaluator says the program means.
   */
  method RunProgram(prims: Natives, forms: Exprs, i: Initial, fuel: nat) returns (r: Result<Ending, CompileError>)
    ensures r.Err? <==> CompProgram(forms).Err?
    ensures r.Err? ==> r.error == CompProgram(forms).error
    ensures r.Ok? && SafeForms(forms) && Fits(CompProgram(forms).value.fns) ==>
      var meaning := EvalProgram(prims, fuel + 1, forms, StartState(i));
      match r.value.outcome
      case Done(_) => meaning.Done? && meaning.value.globals == r.value.globals && meaning.value.world == r.value.world
      case Fail(e) => meaning == Fail(e)
      case Timeout => true
  {
    hide CompProgram, Run, EvalProgram, StartConfig, Fits, SafeForms;
    var md :- CompileProgram(forms);
    var e := RunModule(prims, md, i, fuel);
    if SafeForms(forms) && Fits(md.fns) && !e.outcome.Timeout? {
      var x := Begins(prims, fuel, forms, i);
      MachineIsMeaning(prims, fuel, forms, i);
    }
    r := Ok(e);
  }
}
