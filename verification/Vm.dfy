/**
 The bytecode machine: one instruction per step, with the pending native frames of
 `exec`/`call_value` written out as a list of callers.
 */
module Vm {
  import opened Prelude
  import opened Data
  import opened Instr
  import opened Source
  import opened Compile

  /** A captured environment: a frame's cells and the environment that frame had captured. */
  datatype Scope = Scope(locals: seq<nat>, parent: Option<Scope>)

  datatype VClosure = VClosure(fn: nat, scope: Scope)

  datatype Memory = Memory(cells: seq<Value>, closures: seq<VClosure>, globals: map<string, Value>, world: World)

  /** One activation of `exec`: `steps` is the instruction budget left in this pass. */
  datatype Frame = Frame(fn: nat, ip: nat, steps: nat, stack: seq<Value>, locals: seq<nat>, scope: Option<Scope>)

  datatype Config =
    | Running(top: Frame, callers: seq<Frame>, depth: nat, m: Memory)
    | Finished(v: Value, m: Memory)
    | Stopped(error: Error)

  /** What does not change during a run: the native procedures and the function table. */
  datatype Machine = Machine(prims: Natives, fns: seq<Chunk>)

  /** Hands a result to the caller's frame, or ends the run. */
  function ReturnTo(callers: seq<Frame>, depth: nat, v: Value, m: Memory): Config {
    if callers == [] then Finished(v, m)
    else Running(callers[0].(stack := callers[0].stack + [v]), callers[1..], if depth == 0 then 0 else depth - 1, m)
  }

  function NewFrame(fn: nat, code: seq<byte>, locals: seq<nat>, scope: Option<Scope>): Frame {
    Frame(fn, 0, |code| + 1, [], locals, scope)
  }

  function ResolveScope(scope: Scope, depth: u8): Option<Scope>
    requires depth > 0
    decreases depth
  {
    if depth == 1 then Some(scope)
    else if scope.parent.None? then None
    else ResolveScope(scope.parent.value, depth - 1)
  }

  function UpvalueCell(scope: Option<Scope>, depth: u8, slot: u8): Option<nat> {
    if scope.None? || depth == 0 then None
    else
      match ResolveScope(scope.value, depth)
      case None => None
      case Some(target) => if slot < |target.locals| then Some(target.locals[slot]) else None
  }

  function Push(f: Frame, v: Value): Frame {
    f.(stack := f.stack + [v])
  }

  function ReadCell(f: Frame, k: seq<Frame>, d: nat, m: Memory, cell: Option<nat>, e: Error): Config {
    if cell.None? then Stopped(e)
    else if cell.value < |m.cells| then Running(Push(f, m.cells[cell.value]), k, d, m)
    else Stopped(DanglingCell)
  }

  function WriteCell(f: Frame, k: seq<Frame>, d: nat, m: Memory, cell: Option<nat>, e: Error): Config {
    if f.stack == [] then Stopped(StackUnderflow)
    else if cell.None? then Stopped(e)
    else if cell.value < |m.cells| then
      var n := |f.stack| - 1;
      Running(f.(stack := f.stack[..n] + [Unspecified]), k, d, m.(cells := m.cells[cell.value := f.stack[n]]))
    else Stopped(DanglingCell)
  }

  /** A call with the callee and its arguments already popped from `f`. */
  function CallValue(g: Machine, callee: Value, args: seq<Value>,
                     f: Frame, k: seq<Frame>, d: nat, m: Memory, tail: bool): Config {
    match callee
    case Native(name) =>
      (match g.prims(name, args, m.world)
       case Ok((v, w)) =>
         if tail then ReturnTo(k, d, v, m.(world := w)) else Running(Push(f, v), k, d, m.(world := w))
       case Err(code) => Stopped(NativeError(code)))
    case Closure(id) =>
      if !tail && d >= MAX_CALL_DEPTH then Stopped(CallDepthExceeded)
      else if id >= |m.closures| then Stopped(ForeignClosure)
      else if m.closures[id].fn >= |g.fns| then Stopped(FunctionRange)
      else
        var c := m.closures[id];
        var chunk := g.fns[c.fn];
        (match BindArguments(chunk.arity, chunk.hasRest, args, m.world)
         case Ok((vs, w)) =>
           var locals := seq(|vs|, i requires 0 <= i < |vs| => |m.cells| + i);
           var callee := NewFrame(c.fn, chunk.code, locals, Some(c.scope));
           var m' := m.(cells := m.cells + vs, world := w);
           if tail then Running(callee, k, d, m') else Running(callee, [f] + k, d + 1, m')
         case Err(e) => Stopped(e))
    case _ => Stopped(NotProcedure(callee))
  }

  /** Executes `i` in frame `f`, whose `ip` already points past it. */
  function Do(g: Machine, i: Instr, f: Frame, k: seq<Frame>, d: nat, m: Memory): Config
    requires f.fn < |g.fns|
  {
    var consts := g.fns[f.fn].consts;
    var n := |f.stack|;
    match i
    case Const(c) =>
      if c >= |consts| then Stopped(ConstantRange)
      else
        var (v, w) := ConstToValue(consts[c], m.world);
        Running(Push(f, v), k, d, m.(world := w))
    case GetGlobal(c) =>
      if c >= |consts| then Stopped(ConstantRange)
      else if !consts[c].CSymbol? then Stopped(NotASymbol)
      else if consts[c].s !in m.globals then Stopped(UnboundGlobal(consts[c].s))
      else Running(Push(f, m.globals[consts[c].s]), k, d, m)
    case DefGlobal(c) =>
      if c >= |consts| then Stopped(ConstantRange)
      else if !consts[c].CSymbol? then Stopped(NotASymbol)
      else if n == 0 then Stopped(StackUnderflow)
      else Running(f.(stack := f.stack[..n - 1] + [Unspecified]), k, d,
                   m.(globals := m.globals[consts[c].s := f.stack[n - 1]]))
    case SetGlobal(c) =>
      if c >= |consts| then Stopped(ConstantRange)
      else if !consts[c].CSymbol? then Stopped(NotASymbol)
      else if n == 0 then Stopped(StackUnderflow)
      else if consts[c].s !in m.globals then Stopped(SetUndefined(consts[c].s))
      else Running(f.(stack := f.stack[..n - 1] + [Unspecified]), k, d,
                   m.(globals := m.globals[consts[c].s := f.stack[n - 1]]))
    case GetLocal(s) =>
      ReadCell(f, k, d, m, if s < |f.locals| then Some(f.locals[s]) else None, LocalSlotRange)
    case SetLocal(s) =>
      WriteCell(f, k, d, m, if s < |f.locals| then Some(f.locals[s]) else None, LocalSlotRange)
    case GetUpvalue(depth, s) => ReadCell(f, k, d, m, UpvalueCell(f.scope, depth, s), UpvalueRange)
    case SetUpvalue(depth, s) => WriteCell(f, k, d, m, UpvalueCell(f.scope, depth, s), UpvalueRange)
    case PushLocal =>
      if n == 0 then Stopped(StackUnderflow)
      else Running(f.(stack := f.stack[..n - 1], locals := f.locals + [|m.cells|]), k, d,
                   m.(cells := m.cells + [f.stack[n - 1]]))
    case Dup => if n == 0 then Stopped(StackUnderflow) else Running(Push(f, f.stack[n - 1]), k, d, m)
    case Swap =>
      if n < 2 then Stopped(StackUnderflow)
      else Running(f.(stack := f.stack[..n - 2] + [f.stack[n - 1], f.stack[n - 2]]), k, d, m)
    case Eqv =>
      if n < 2 then Stopped(StackUnderflow)
      else Running(f.(stack := f.stack[..n - 2] + [Bool(ValueEqv(f.stack[n - 2], f.stack[n - 1]))]), k, d, m)
    case MakeFunction(fn) =>
      if fn >= |g.fns| then Stopped(FunctionRange)
      else Running(Push(f, Closure(|m.closures|)), k, d,
                   m.(closures := m.closures + [VClosure(fn, Scope(f.locals, f.scope))]))
    case Jump(t) => Running(f.(ip := t), k, d, m)
    case JumpIfFalse(t) =>
      if n == 0 then Stopped(StackUnderflow)
      else
        var f' := f.(stack := f.stack[..n - 1]);
        Running(if Truthy(f.stack[n - 1]) then f' else f'.(ip := t), k, d, m)
    case Call(argc) =>
      if n < argc + 1 then Stopped(StackUnderflow)
      else CallValue(g, f.stack[n - argc - 1], f.stack[n - argc..],
                     f.(stack := f.stack[..n - argc - 1]), k, d, m, false)
    case TailCall(argc) =>
      if n < argc + 1 then Stopped(StackUnderflow)
      else CallValue(g, f.stack[n - argc - 1], f.stack[n - argc..],
                     f.(stack := f.stack[..n - argc - 1]), k, d, m, true)
    case Pop => if n == 0 then Stopped(StackUnderflow) else Running(f.(stack := f.stack[..n - 1]), k, d, m)
    case Return => ReturnTo(k, d, if n == 0 then Unspecified else f.stack[n - 1], m)
    case Halt => ReturnTo(k, d, Unspecified, m)
  }

  function Step(g: Machine, c: Config): Config {
    if !c.Running? then c
    else if c.top.fn >= |g.fns| then Stopped(FunctionRange)
    else if c.top.steps == 0 then Stopped(StepBudgetExceeded)
    else
      match Fetch(g.fns[c.top.fn].code, c.top.ip)
      case Got(i, next) => Do(g, i, c.top.(ip := next, steps := c.top.steps - 1), c.callers, c.depth, c.m)
      case _ => Stopped(BadInstruction)
  }

  /** The configuration after `n` steps; a finished one stays as it is. */
  function Run(g: Machine, n: nat, c: Config): Config
    decreases n
  {
    if n == 0 then c else Run(g, n - 1, Step(g, c))
  }

  lemma {:induction false} RunAdd(g: Machine, a: nat, b: nat, c: Config)
    ensures Run(g, a + b, c) == Run(g, b, Run(g, a, c))
    decreases a
  {
    if a > 0 {
      RunAdd(g, a - 1, b, Step(g, c));
    }
  }

  lemma {:induction false} RunZero(g: Machine, c: Config)
    ensures Run(g, 0, c) == c
  {
  }
}
