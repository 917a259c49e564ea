/**
 The body of a function while it is being compiled: the bytes emitted so far, its
 constants, its slot counter, and the function table shared with every other body.
 Jumps are emitted with a zero target and patched once their target is reached.
 */
module Emitter {
  import opened Prelude
  import opened Data
  import opened Instr
  import opened Compile

  type Done = Result<(), CompileError>

  /** Stores `target` in the four operand bytes at `pos`. */
  function PatchAt(code: seq<byte>, pos: nat, target: nat): (r: seq<byte>)
    requires pos + 4 <= |code|
    ensures |r| == |code|
  {
    code[..pos] + LE.Le(4, AsU32(target)) + code[pos + 4..]
  }

  function PatchEach(code: seq<byte>, holes: seq<nat>, target: nat): (r: seq<byte>)
    requires forall i :: 0 <= i < |holes| ==> holes[i] + 4 <= |code|
    ensures |r| == |code|
    decreases |holes|
  {
    if holes == [] then code else PatchEach(PatchAt(code, holes[0], target), holes[1..], target)
  }

  function JumpOn(conditional: bool, target: nat): (code: seq<byte>)
    ensures |code| == 5
  {
    if conditional then BranchTo(target) else JumpTo(target)
  }

  lemma {:induction false} JumpShape(conditional: bool, target: nat)
    ensures JumpOn(conditional, target) == [JumpOn(conditional, 0)[0]] + LE.Le(4, AsU32(target))
  {
    hide LE.Le;
  }

  /** Patching the operand of an emitted jump gives the jump with its final target. */
  lemma {:induction false} HoleFilled(a: seq<byte>, conditional: bool, b: seq<byte>, target: nat)
    ensures PatchAt(a + JumpOn(conditional, 0) + b, |a| + 1, target) == a + JumpOn(conditional, target) + b
  {
    hide JumpOn, LE.Le;
    JumpShape(conditional, target);
    var code := a + JumpOn(conditional, 0) + b;
    var op := JumpOn(conditional, 0)[0];
    assert code[..|a| + 1] == a + [op];
    assert code[|a| + 5..] == b;
  }

  /** The same with what follows the jump in two or three pieces. */
  lemma {:induction false} HoleFilled2(a: seq<byte>, conditional: bool, b: seq<byte>, c: seq<byte>, target: nat)
    ensures PatchAt(a + JumpOn(conditional, 0) + b + c, |a| + 1, target) == a + JumpOn(conditional, target) + b + c
  {
    hide JumpOn, PatchAt;
    assert a + JumpOn(conditional, 0) + b + c == a + JumpOn(conditional, 0) + (b + c);
    HoleFilled(a, conditional, b + c, target);
    assert a + JumpOn(conditional, target) + b + c == a + JumpOn(conditional, target) + (b + c);
  }

  lemma {:induction false} HoleFilled3(a: seq<byte>, conditional: bool, b: seq<byte>, c: seq<byte>, d: seq<byte>,
        target: nat)
    ensures PatchAt(a + JumpOn(conditional, 0) + b + c + d, |a| + 1, target)
      == a + JumpOn(conditional, target) + b + c + d
  {
    hide JumpOn, PatchAt;
    assert a + JumpOn(conditional, 0) + b + c + d == a + JumpOn(conditional, 0) + b + (c + d);
    HoleFilled2(a, conditional, b, c + d, target);
    assert a + JumpOn(conditional, target) + b + c + d == a + JumpOn(conditional, target) + b + (c + d);
  }

  lemma {:induction false} Group3(s: seq<byte>, a: seq<byte>, b: seq<byte>, c: seq<byte>)
    ensures s + a + b + c == s + (a + b + c)
  {
  }

  lemma {:induction false} Group5(s: seq<byte>, a: seq<byte>, b: seq<byte>, c: seq<byte>, d: seq<byte>, e: seq<byte>)
    ensures s + a + b + c + d + e == s + (a + b + c + d + e)
  {
    Group3(s, a, b, c);
    Group3(s, a + b + c, d, e);
  }

  lemma {:induction false} Group8(s: seq<byte>, a: seq<byte>, b: seq<byte>, c: seq<byte>, d: seq<byte>, e: seq<byte>,
                                  f: seq<byte>, g: seq<byte>, h: seq<byte>)
    ensures s + a + b + c + d + e + f + g + h == s + (a + b + c + d + e + f + g + h)
  {
    Group5(s, a, b, c, d, e);
    Group3(s, a + b + c + d + e, f, g);
    var k := a + b + c + d + e + f + g;
    assert s + k + h == s + (k + h);
  }

  lemma {:induction false} PatchFirst(code: seq<byte>, hole: nat, holes: seq<nat>, target: nat)
    requires hole + 4 <= |code| && forall i :: 0 <= i < |holes| ==> holes[i] + 4 <= |code|
    ensures PatchEach(code, [hole] + holes, target) == PatchEach(PatchAt(code, hole, target), holes, target)
  {
    hide PatchAt;
    assert ([hole] + holes)[1..] == holes;
  }

  lemma {:induction false} PatchAppend(code: seq<byte>, a: seq<nat>, b: seq<nat>, target: nat)
    requires forall i :: 0 <= i < |a| ==> a[i] + 4 <= |code|
    requires forall i :: 0 <= i < |b| ==> b[i] + 4 <= |code|
    ensures PatchEach(code, a + b, target) == PatchEach(PatchEach(code, a, target), b, target)
    decreases |a|
  {
    if a == [] {
      assert a + b == b;
    } else {
      assert (a + b)[1..] == a[1..] + b;
      PatchAppend(PatchAt(code, a[0], target), a[1..], b, target);
    }
  }

  /** One placeholder, then the rest of the padding. */
  lemma {:induction false} PadStep(code: seq<byte>, p: Pools, target: u8)
    requires p.slot < target
    ensures var c := EmitConst(p, CUnspecified);
      var rest := Pad(c.p.(slot := p.slot + 1), target);
      code + Pad(p, target).code == code + c.code + Enc(PushLocal) + rest.code && Pad(p, target).p == rest.p
  {
    hide EmitConst, Enc;
  }

  lemma {:induction false} PadDone(p: Pools, target: u8)
    requires p.slot == target
    ensures Pad(p, target) == Compile.Emitted([], p)
  {
  }

  /** From `before`, emission appended `e.code` and left the pools at `e.p`. */
  predicate Appended(before: seq<byte>, e: Compile.Emitted, after: seq<byte>, p: Pools) {
    after == before + e.code && p == e.p
  }

  /** Compilation did what the specification says, or failed with its error. */
  predicate Follows(before: seq<byte>, spec: Compiled, r: Done, after: seq<byte>, p: Pools) {
    if spec.Ok? then r.Ok? && Appended(before, spec.value, after, p) else r == Err(spec.error)
  }

  /** The table of finished functions, which every body being compiled appends to. */
  class Compilation {
    var functions: seq<Chunk>

    constructor ()
      ensures functions == []
    {
      functions := [];
    }
  }

  class Body {
    var code: seq<byte>
    var consts: seq<Data.Const>
    var nextSlot: u8
    const comp: Compilation

    constructor (comp: Compilation)
      ensures this.comp == comp && code == [] && consts == [] && nextSlot == 0
    {
      this.comp := comp;
      code := [];
      consts := [];
      nextSlot := 0;
    }

    function State(): Pools
      reads this, comp
    {
      Pools(consts, comp.functions, nextSlot)
    }

    method Emit(i: Instr)
      modifies this
      ensures Appended(old(code), Compile.Emitted(Enc(i), old(State())), code, State())
    {
      code := code + Enc(i);
    }

    /** A new entry of the constant pool: constants are never shared. */
    method AddConst(c: Data.Const) returns (k: u32)
      modifies this`consts
      ensures k == NextConst(old(State())) && State() == Compile.AddConst(old(State()), c)
    {
      k := AsU32(|consts|);
      consts := consts + [c];
    }

    method EmitConst(c: Data.Const)
      modifies this
      ensures Appended(old(code), Compile.EmitConst(old(State()), c), code, State())
    {
      var k := AddConst(c);
      Emit(Const(k));
    }

    /** Emits a jump to nowhere yet, and says where its operand is. */
    method EmitJump(conditional: bool) returns (hole: nat)
      modifies this
      ensures hole == |old(code)| + 1 && hole + 4 == |code|
      ensures Appended(old(code), Compile.Emitted(JumpOn(conditional, 0), old(State())), code, State())
    {
      hole := |code| + 1;
      code := code + JumpOn(conditional, 0);
    }

    /** Makes the jump whose operand is at `hole` lead to the current end. */
    method PatchJump(hole: nat)
      requires hole + 4 <= |code|
      modifies this
      ensures code == PatchAt(old(code), hole, |old(code)|) && State() == old(State())
    {
      code := code[..hole] + LE.Le(4, AsU32(|code|)) + code[hole + 4..];
    }

    method PatchJumps(holes: seq<nat>)
      requires forall i :: 0 <= i < |holes| ==> holes[i] + 4 <= |code|
      modifies this
      ensures code == PatchEach(old(code), holes, |old(code)|) && State() == old(State())
    {
      ghost var start := code;
      for i := 0 to |holes|
        invariant |code| == |start| && State() == old(State())
        invariant code == PatchEach(start, holes[..i], |start|)
      {
        assert holes[..i + 1] == holes[..i] + [holes[i]];
        PatchAppend(start, holes[..i], [holes[i]], |start|);
        PatchJump(holes[i]);
      }
      assert holes[..|holes|] == holes;
    }

    /** `pad_locals_to`: placeholders until the frame has `target` slots. */
    method PadLocalsTo(target: u8)
      requires nextSlot <= target
      modifies this
      ensures Appended(old(code), Compile.Pad(old(State()), target), code, State())
    {
      hide Pad, Enc;
      ghost var start, want := code, Pad(State(), target);
      var current := nextSlot;
      while current < target
        invariant old(nextSlot) <= current <= target && nextSlot == old(nextSlot)
        invariant comp.functions == old(comp.functions)
        invariant var rest := Pad(State().(slot := current), target);
          code + rest.code == start + want.code && rest.p == want.p
        decreases target - current
      {
        PadStep(code, State().(slot := current), target);
        EmitConst(CUnspecified);
        Emit(PushLocal);
        current := current + 1;
      }
      PadDone(State().(slot := current), target);
      nextSlot := target;
    }

    method PadUnlessTail(target: u8, tail: bool)
      requires nextSlot <= target
      modifies this
      ensures Appended(old(code), Compile.PadUnlessTail(old(State()), target, tail), code, State())
    {
      if !tail {
        PadLocalsTo(target);
      }
    }

    /** A new slot for `x`, visible in the extended context. */
    method Declare(x: string, ctx: Ctx) returns (r: Result<Ctx, CompileError>)
      modifies this`nextSlot
      ensures var d := Compile.Declare(ctx.locals, x, old(nextSlot));
        if d.Err? then r == Err(d.error)
        else r == Ok(ctx.(locals := d.value.0)) && nextSlot == d.value.1
    {
      if nextSlot == 255 {
        return Err(TooManyLocals);
      }
      r := Ok(ctx.(locals := ctx.locals + [(x, nextSlot)]));
      nextSlot := nextSlot + 1;
    }
  }
}
