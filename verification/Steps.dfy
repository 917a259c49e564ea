/** What the simple instructions do at a situated point. */
module Steps {
  import opened Prelude
  import opened Data
  import opened Instr
  import opened Source
  import opened Compile
  import opened Vm
  import opened Relation
  import opened Points

  /** The configuration one instruction later, with another operand stack and memory. */
  ghost function Next(x: Point, ip: nat, stack: seq<Value>, m: Memory): Config
    requires x.c.Running?
  {
    Running(x.c.top.(ip := ip, steps := if x.c.top.steps == 0 then 0 else x.c.top.steps - 1, stack := stack),
            x.c.callers, x.c.depth, m)
  }

  lemma {:induction false} AddressFits(x: Point, n: nat)
    requires Live(x) && Fits(x.g.fns) && n <= |Code(x)|
    ensures AsU32(n) == n
  {
  }

  /** The same source state with another world, on both sides. */
  lemma {:induction false} ChangeWorld(fns: seq<Chunk>, m: Memory, s: State, l: Link, w: World)
    requires MatchMemory(fns, m, s, l)
    ensures MatchMemory(fns, m.(world := w), s.(world := w), l)
  {
    assert MatchClosures(fns, m.(world := w), s.(world := w), l) by {
      forall i | 0 <= i < |l.origin|
        ensures MatchClosure(fns, s.(world := w).closures[i], m.(world := w).closures[i], l.origin[i], l.cell)
      {
        assert MatchClosure(fns, s.closures[i], m.closures[i], l.origin[i], l.cell);
      }
    }
  }

  lemma {:induction false} ChangeGlobals(fns: seq<Chunk>, m: Memory, s: State, l: Link, gl: map<string, Value>)
    requires MatchMemory(fns, m, s, l)
    ensures MatchMemory(fns, m.(globals := gl), s.(globals := gl), l)
  {
    assert MatchClosures(fns, m.(globals := gl), s.(globals := gl), l) by {
      forall i | 0 <= i < |l.origin|
        ensures MatchClosure(fns, s.(globals := gl).closures[i], m.(globals := gl).closures[i], l.origin[i], l.cell)
      {
        assert MatchClosure(fns, s.closures[i], m.closures[i], l.origin[i], l.cell);
      }
    }
  }

  lemma {:induction false} ConstRuns(x: Point, c: Data.Const) returns (y: Point)
    requires Situated(x) && Laid(x, EmitConst(x.p, c).code, AddConst(x.p, c))
    ensures var (v, w) := ConstToValue(c, x.s.world);
      y == x.(c := Next(x, x.c.top.ip + 5, x.c.top.stack + [v], x.c.m.(world := w)),
              s := x.s.(world := w), p := AddConst(x.p, c))
    ensures Onward(x, y) && Run(x.g, 1, x.c) == y.c && Situated(y)
  {
    var k := |x.p.consts|;
    assert AddConst(x.p, c).consts[k] == c;
    assert AsU32(k) == k;
    StepAt(x, Instr.Const(k));
    var (v, w) := ConstToValue(c, x.s.world);
    ChangeWorld(x.g.fns, x.c.m, x.s, x.l, w);
    y := x.(c := Run(x.g, 1, x.c), s := x.s.(world := w), p := AddConst(x.p, c));
  }

  lemma {:induction false} PopRuns(x: Point, rest: seq<Value>, v: Value) returns (y: Point)
    requires Situated(x) && Occurs(Code(x), x.c.top.ip, Enc(Pop))
    requires x.c.top.stack == rest + [v] && x.base <= rest
    ensures y == x.(c := Next(x, x.c.top.ip + 1, rest, x.c.m))
    ensures Onward(x, y) && Run(x.g, 1, x.c) == y.c && Situated(y)
  {
    StepAt(x, Pop);
    assert x.c.top.stack[..|rest|] == rest;
    y := x.(c := Run(x.g, 1, x.c));
  }

  lemma {:induction false} DupRuns(x: Point, rest: seq<Value>, v: Value) returns (y: Point)
    requires Situated(x) && Occurs(Code(x), x.c.top.ip, Enc(Dup))
    requires x.c.top.stack == rest + [v]
    ensures y == x.(c := Next(x, x.c.top.ip + 1, rest + [v] + [v], x.c.m))
    ensures Onward(x, y) && Run(x.g, 1, x.c) == y.c && Situated(y)
  {
    StepAt(x, Dup);
    y := x.(c := Run(x.g, 1, x.c));
  }

  lemma {:induction false} JumpRuns(x: Point, target: nat) returns (y: Point)
    requires Situated(x) && Occurs(Code(x), x.c.top.ip, JumpTo(target))
    requires x.c.top.ip < target <= |Code(x)|
    ensures y == x.(c := Next(x, target, x.c.top.stack, x.c.m))
    ensures Onward(x, y) && Run(x.g, 1, x.c) == y.c && Situated(y)
  {
    AddressFits(x, target);
    StepAt(x, Jump(target));
    y := x.(c := Run(x.g, 1, x.c));
  }

  /** JUMP_IF_FALSE pops the tested value whichever way it goes. */
  lemma {:induction false} BranchRuns(x: Point, rest: seq<Value>, v: Value, target: nat) returns (y: Point)
    requires Situated(x) && Occurs(Code(x), x.c.top.ip, BranchTo(target))
    requires x.c.top.ip < target <= |Code(x)|
    requires x.c.top.stack == rest + [v] && x.base <= rest
    ensures y == x.(c := Next(x, if Truthy(v) then x.c.top.ip + 5 else target, rest, x.c.m))
    ensures Onward(x, y) && Run(x.g, 1, x.c) == y.c && Situated(y)
  {
    AddressFits(x, target);
    StepAt(x, JumpIfFalse(target));
    assert x.c.top.stack[..|rest|] == rest;
    y := x.(c := Run(x.g, 1, x.c));
  }

  /** One placeholder: a slot more, and a cell that no variable owns. */
  lemma {:induction false} PadOneRuns(x: Point) returns (y: Point)
    requires Situated(x) && x.p.slot < 255
    requires Laid(x, EmitConst(x.p, CUnspecified).code + Enc(PushLocal), AddConst(x.p, CUnspecified))
    ensures y.c.Running? && y.c.top.ip == x.c.top.ip + 6 && y.c.top.stack == x.c.top.stack
    ensures y == x.(c := y.c, p := AddConst(x.p, CUnspecified).(slot := x.p.slot + 1))
    ensures Onward(x, y) && Run(x.g, 2, x.c) == y.c && Situated(y)
  {
    hide MatchClosure, Step, MatchEnv, MatchMemory, Extends, PoolsIn;
    OccursSplit(Code(x), x.c.top.ip, EmitConst(x.p, CUnspecified).code, Enc(PushLocal));
    var y1 := ConstRuns(x, CUnspecified);
    StepAt(y1, PushLocal);
    assert y1.c.top.stack[..|x.c.top.stack|] == x.c.top.stack;
    RunAdd(x.g, 1, 1, x.c);
    y := x.(c := Run(x.g, 2, x.c), p := y1.p.(slot := x.p.slot + 1));
    MatchEnvGrows(x.ctx, x.env, x.c.top.locals, x.c.top.scope, x.l.cell, y.c.top.locals, x.l.cell);
    PadMemory(x.g.fns, x.c.m, x.s, x.l, Unspecified);
  }

  /** Padding tops the frame up to the target and leaves everything else alone. */
  lemma {:induction false} PadRuns(x: Point, target: u8, tail: bool) returns (n: nat, y: Point)
    requires Situated(x)
    requires var r := PadUnlessTail(x.p, target, tail); Laid(x, r.code, r.p)
    ensures var r := PadUnlessTail(x.p, target, tail);
      y.c.Running? && y.c.top.ip == x.c.top.ip + |r.code| && y.c.top.stack == x.c.top.stack
      && y == x.(c := y.c, p := r.p)
    ensures Onward(x, y) && Run(x.g, n, x.c) == y.c && Situated(y)
    decreases target - x.p.slot
  {
    hide Step, Run;
    if tail || x.p.slot >= target {
      n, y := 0, x;
      RunZero(x.g, x.c);
    } else {
      var c := EmitConst(x.p, CUnspecified);
      var rest := Pad(c.p.(slot := x.p.slot + 1), target);
      OccursSplit(Code(x), x.c.top.ip, c.code + Enc(PushLocal), rest.code);
      var y1 := PadOneRuns(x);
      n, y := PadRuns(y1, target, tail);
      RunAdd(x.g, 2, n, x.c);
      n := 2 + n;
    }
  }

  lemma {:induction false} ExitsJump(x: Point, at: nat, target: nat)
    requires Live(x) && Fits(x.g.fns) && Occurs(Code(x), at, JumpTo(target))
    requires at < target <= |Code(x)| && Exits(Code(x), target)
    ensures Exits(Code(x), at)
  {
    AddressFits(x, target);
    FetchEncoded(Code(x), at, Jump(target));
  }
}
