/** A point of a run: a machine configuration together with the source state it stands for. */
module Points {
  import opened Prelude
  import opened Data
  import opened Instr
  import opened Source
  import opened Compile
  import opened Vm
  import opened Relation

  /** `base` is the operand stack below the temporaries of the expression being run. */
  datatype Point = Point(g: Machine, fuel: nat, ctx: Ctx, env: Env, s: State, p: Pools,
                         c: Config, base: seq<Value>, l: Link)

  /** The machine side of a successful evaluation: budget left, locals, memory, and the grown link. */
  datatype Landing = Landing(steps: nat, locals: seq<nat>, m: Memory, l: Link)

  ghost predicate Live(x: Point) {
    x.c.Running? && x.c.top.fn < |x.g.fns|
  }

  ghost function Ip(x: Point): nat {
    if x.c.Running? then x.c.top.ip else 0
  }

  /** Pending non-tail calls, as the machine counts them. */
  ghost function Pending(x: Point): nat {
    if x.c.Running? then x.c.depth else 0
  }

  ghost function Code(x: Point): seq<byte>
    requires Live(x)
  {
    x.g.fns[x.c.top.fn].code
  }

  ghost predicate Situated(x: Point) {
    Live(x) && Fits(x.g.fns)
    && x.c.top.steps + x.c.top.ip > |Code(x)|
    && |x.c.top.locals| == x.p.slot
    && MatchEnv(x.ctx, x.env, x.c.top.locals, x.c.top.scope, x.l.cell)
    && MatchMemory(x.g.fns, x.c.m, x.s, x.l)
    && x.base <= x.c.top.stack
  }

  ghost predicate PoolsIn(g: Machine, fn: nat, q: Pools)
    requires fn < |g.fns|
  {
    q.consts <= g.fns[fn].consts && q.fns <= g.fns
  }

  /** The emitted bytes sit at the instruction pointer, and the pools contain what was added. */
  ghost predicate Laid(x: Point, code: seq<byte>, q: Pools)
    requires Live(x)
  {
    Occurs(Code(x), x.c.top.ip, code) && PoolsIn(x.g, x.c.top.fn, q)
  }

  /** From `ip`, forward jumps alone lead to RETURN. */
  ghost predicate Exits(code: seq<byte>, ip: nat)
    decreases |code| - ip
  {
    match Fetch(code, ip)
    case Got(Return, _) => true
    case Got(Jump(t), _) => ip < |code| && ip < t && Exits(code, t)
    case _ => false
  }

  ghost function MoveTo(x: Point, ip: nat, vs: seq<Value>, z: Landing): Config
    requires x.c.Running?
  {
    Running(x.c.top.(ip := ip, steps := z.steps, stack := x.base + vs, locals := z.locals),
            x.c.callers, x.c.depth, z.m)
  }

  /** The point, with pools `q`, reached when code has pushed `vs` and continues at `ip`. */
  ghost function After(x: Point, ip: nat, vs: seq<Value>, s: State, q: Pools, z: Landing): Point
    requires x.c.Running?
  {
    x.(c := MoveTo(x, ip, vs, z), s := s, p := q, l := z.l)
  }

  /** `n` steps from `x` end with `vs` pushed, at `ip`, in a situated point. */
  ghost predicate Reaches(x: Point, n: nat, ip: nat, vs: seq<Value>, s: State, slot: u8, z: Landing)
    requires Live(x)
  {
    Run(x.g, n, x.c) == MoveTo(x, ip, vs, z)
    && Extends(x.l, z.l) && MatchMemory(x.g.fns, z.m, s, z.l)
    && x.c.top.locals <= z.locals && |z.locals| == slot
    && z.steps + ip > |Code(x)|
  }

  /** `n` steps from `x` hand `v` to the caller of the frame. */
  ghost predicate Returns(x: Point, n: nat, v: Value, s: State, z: Landing)
    requires Live(x)
  {
    Run(x.g, n, x.c) == ReturnTo(x.c.callers, x.c.depth, v, z.m)
    && Extends(x.l, z.l) && MatchMemory(x.g.fns, z.m, s, z.l)
  }

  /** The machine meets the outcome of an evaluation that yields values. */
  ghost predicate Meets(x: Point, n: nat, o: Outcome<(seq<Value>, State)>, ip: nat, slot: u8, z: Landing)
    requires Live(x)
  {
    match o
    case Done((vs, s)) => Reaches(x, n, ip, vs, s, slot, z)
    case Fail(e) => Run(x.g, n, x.c) == Stopped(e)
    case Timeout => n >= x.fuel && Run(x.g, n, x.c).Running?
  }

  ghost function Single(o: Outcome<Answer>): Outcome<(seq<Value>, State)> {
    match o
    case Done(a) => Done(([a.v], a.s))
    case Fail(e) => Fail(e)
    case Timeout => Timeout
  }

  /** The same for an expression; in tail position its value goes to the caller. */
  ghost predicate Lands(x: Point, n: nat, o: Outcome<Answer>, tail: bool, ip: nat, slot: u8, z: Landing)
    requires Live(x)
  {
    if tail && o.Done? then Returns(x, n, o.value.v, o.value.s, z) else Meets(x, n, Single(o), ip, slot, z)
  }

  lemma {:induction false} AfterSituated(x: Point, n: nat, ip: nat, vs: seq<Value>, s: State, q: Pools, z: Landing)
    requires Situated(x) && Reaches(x, n, ip, vs, s, q.slot, z)
    ensures Situated(After(x, ip, vs, s, q, z))
  {
    MatchEnvGrows(x.ctx, x.env, x.c.top.locals, x.c.top.scope, x.l.cell, z.locals, z.l.cell);
  }

  /** One instruction, fetched from the bytes it was encoded to. */
  lemma {:induction false} StepAt(x: Point, i: Instr)
    requires Live(x) && x.c.top.steps + x.c.top.ip > |Code(x)|
    requires Occurs(Code(x), x.c.top.ip, Enc(i))
    ensures x.c.top.steps > 0
    ensures Run(x.g, 1, x.c)
         == Do(x.g, i, x.c.top.(ip := x.c.top.ip + Size(i), steps := x.c.top.steps - 1),
               x.c.callers, x.c.depth, x.c.m)
  {
    FetchEncoded(Code(x), x.c.top.ip, i);
    var c' := Step(x.g, x.c);
    assert Run(x.g, 1, x.c) == Run(x.g, 0, c') == c';
  }

  /** `y` is a later point of the same frame, for the same expression. */
  ghost predicate Onward(x: Point, y: Point) {
    x.c.Running? && y.c.Running?
    && y.g == x.g && y.fuel == x.fuel && y.base == x.base
    && y.c.callers == x.c.callers && y.c.depth == x.c.depth
    && y.c.top.fn == x.c.top.fn && y.c.top.scope == x.c.top.scope
    && x.c.top.locals <= y.c.top.locals && Extends(x.l, y.l)
  }

  /** What the rest of a run does from `y`, the whole run does from `x`. */
  lemma {:induction false} Compose(x: Point, a: nat, y: Point, b: nat, o: Outcome<(seq<Value>, State)>, ip: nat,
        slot: u8, z: Landing)
    requires Live(x) && Onward(x, y) && Run(x.g, a, x.c) == y.c
    requires Meets(y, b, o, ip, slot, z)
    ensures Meets(x, a + b, o, ip, slot, z)
  {
    RunAdd(x.g, a, b, x.c);
  }

  lemma {:induction false} ComposeLands(x: Point, a: nat, y: Point, b: nat, o: Outcome<Answer>, tail: bool, ip: nat,
        slot: u8, z: Landing)
    requires Live(x) && Onward(x, y) && Run(x.g, a, x.c) == y.c
    requires Lands(y, b, o, tail, ip, slot, z)
    ensures Lands(x, a + b, o, tail, ip, slot, z)
  {
    RunAdd(x.g, a, b, x.c);
  }

  /** A value in tail position is returned by the jumps that follow it. */
  lemma {:induction false} Leave(x: Point, v: Value) returns (n: nat)
    requires Live(x) && Fits(x.g.fns) && x.c.top.steps + x.c.top.ip > |Code(x)|
    requires Exits(Code(x), x.c.top.ip)
    requires x.c.top.stack != [] && x.c.top.stack[|x.c.top.stack| - 1] == v
    ensures Run(x.g, n, x.c) == ReturnTo(x.c.callers, x.c.depth, v, x.c.m)
    decreases |Code(x)| - x.c.top.ip
  {
    var c' := Step(x.g, x.c);
    assert Run(x.g, 1, x.c) == Run(x.g, 0, c') == c';
    if Fetch(Code(x), x.c.top.ip).instr.Return? {
      n := 1;
    } else {
      var rest := Leave(x.(c := c'), v);
      RunAdd(x.g, 1, rest, x.c);
      n := 1 + rest;
    }
  }

  /** Ordinary completion becomes a return when the code that follows only jumps to RETURN. */
  lemma {:induction false} Finish(x: Point, n: nat, o: Outcome<Answer>, ip: nat, slot: u8, z: Landing,
        tail: bool) returns (n': nat)
    requires Situated(x) && Meets(x, n, Single(o), ip, slot, z)
    requires tail ==> Exits(Code(x), ip)
    ensures Lands(x, n', o, tail, ip, slot, z)
  {
    n' := n;
    if tail && o.Done? {
      var y := After(x, ip, [o.value.v], o.value.s, x.p, z);
      var rest := Leave(y, o.value.v);
      RunAdd(x.g, n, rest, x.c);
      n' := n + rest;
    }
  }

  /** The point that a successful evaluation from `x` arrives at, with its values above the stack of `x`. */
  lemma {:induction false} Proceed(x: Point, n: nat, vs: seq<Value>, s: State, ip: nat, q: Pools, z: Landing)
        returns (y: Point)
    requires Situated(x) && Reaches(x.(base := x.c.top.stack), n, ip, vs, s, q.slot, z)
    ensures y.c.Running? && y.c.top.stack == x.c.top.stack + vs && y.c.top.ip == ip && y.c.top.locals == z.locals
    ensures y == x.(c := y.c, s := s, p := q, l := z.l)
    ensures Situated(y) && Onward(x, y) && Run(x.g, n, x.c) == y.c
  {
    hide Run, Step, Fits, MatchMemory;
    var x' := x.(base := x.c.top.stack);
    y := After(x', ip, vs, s, q, z).(base := x.base);
    MatchEnvGrows(x.ctx, x.env, x.c.top.locals, x.c.top.scope, x.l.cell, z.locals, z.l.cell);
  }

  /** Two stretches of a run make one. */
  lemma {:induction false} Chain(x: Point, a: nat, y: Point, b: nat, w: Point)
    requires Onward(x, y) && Run(x.g, a, x.c) == y.c
    requires Onward(y, w) && Run(y.g, b, y.c) == w.c
    ensures Onward(x, w) && Run(x.g, a + b, x.c) == w.c
  {
    hide Run, Step;
    RunAdd(x.g, a, b, x.c);
  }
}
