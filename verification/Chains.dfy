/**
 `and` and `or` as they are emitted: the jumps after the operands are collected and
 patched together once the end is known.
 */
module Chains {
  import opened Prelude
  import opened Instr
  import opened Compile
  import opened Emitter

  /** What follows an operand before its jump to the end; `or` first skips that jump. */
  function Lead(or: bool, at: nat): (code: seq<byte>)
    ensures |code| == if or then 6 else 1
  {
    if or then Enc(Dup) + BranchTo(at + 1 + 5 + 5) else Enc(Dup)
  }

  function GapLen(or: bool): nat {
    if or then OR_GAP else AND_GAP
  }

  function Gap(or: bool, at: nat, end: nat): (code: seq<byte>)
    ensures |code| == GapLen(or)
  {
    Lead(or, at) + JumpOn(!or, end) + Enc(Pop)
  }

  function Glue(or: bool, parts: seq<seq<byte>>, at: nat, end: nat): seq<byte> {
    if or then GlueOr(parts, at, end) else GlueAnd(parts, end)
  }

  /** Operands that all have another one after them, from offset `at`. */
  function Chained(or: bool, at: nat, parts: seq<seq<byte>>, end: nat): (code: seq<byte>)
    ensures |code| == ChainedLen(or, parts)
    decreases |parts|
  {
    if parts == [] then []
    else
      var gapAt := at + |parts[0]|;
      parts[0] + Gap(or, gapAt, end) + Chained(or, gapAt + GapLen(or), parts[1..], end)
  }

  function ChainedLen(or: bool, parts: seq<seq<byte>>): nat {
    if parts == [] then 0 else |parts[0]| + GapLen(or) + ChainedLen(or, parts[1..])
  }

  /** Where the operands of the jumps to the end are. */
  function Holes(or: bool, at: nat, parts: seq<seq<byte>>): (holes: seq<nat>)
    ensures forall i :: 0 <= i < |holes| ==> holes[i] + 4 <= at + ChainedLen(or, parts)
    decreases |parts|
  {
    if parts == [] then []
    else
      var gapAt := at + |parts[0]|;
      [gapAt + |Lead(or, gapAt)| + 1] + Holes(or, gapAt + GapLen(or), parts[1..])
  }

  lemma {:induction false} ChainedSnoc(or: bool, at: nat, parts: seq<seq<byte>>, x: seq<byte>, end: nat)
    ensures Chained(or, at, parts + [x], end)
      == Chained(or, at, parts, end) + x + Gap(or, at + ChainedLen(or, parts) + |x|, end)
    decreases |parts|
  {
    hide Gap, Lead, GapLen;
    var whole := parts + [x];
    if parts == [] {
      ChainedOne(or, at, x, end);
      assert whole == [x];
    } else {
      hide Chained;
      var next := at + |parts[0]| + GapLen(or);
      var c := Chained(or, next, parts[1..], end);
      var g := Gap(or, next + ChainedLen(or, parts[1..]) + |x|, end);
      assert ChainedLen(or, parts) == |parts[0]| + GapLen(or) + ChainedLen(or, parts[1..]);
      hide ChainedLen;
      assert whole[0] == parts[0] && whole[1..] == parts[1..] + [x];
      assert Chained(or, at, whole, end) == parts[0] + Gap(or, at + |parts[0]|, end) + (c + x + g) by {
        ChainedCons(or, at, whole, end);
        ChainedSnoc(or, next, parts[1..], x, end);
      }
      assert Chained(or, at, parts, end) == parts[0] + Gap(or, at + |parts[0]|, end) + c by {
        ChainedCons(or, at, parts, end);
      }
      Group3(parts[0] + Gap(or, at + |parts[0]|, end), c, x, g);
    }
  }

  lemma {:induction false} ChainedOne(or: bool, at: nat, x: seq<byte>, end: nat)
    ensures Chained(or, at, [x], end) == Chained(or, at, [], end) + x + Gap(or, at + |x|, end)
  {
    hide Gap;
    assert [x][1..] == [];
  }

  lemma {:induction false} ChainedCons(or: bool, at: nat, parts: seq<seq<byte>>, end: nat)
    requires parts != []
    ensures Chained(or, at, parts, end)
      == parts[0] + Gap(or, at + |parts[0]|, end) + Chained(or, at + |parts[0]| + GapLen(or), parts[1..], end)
  {
    hide Gap;
  }

  lemma {:induction false} HolesSnoc(or: bool, at: nat, parts: seq<seq<byte>>, x: seq<byte>)
    ensures var gapAt := at + ChainedLen(or, parts) + |x|;
      Holes(or, at, parts + [x]) == Holes(or, at, parts) + [gapAt + |Lead(or, gapAt)| + 1]
    decreases |parts|
  {
    hide Lead, GapLen;
    if parts == [] {
      assert parts + [x] == [x];
      assert [x][1..] == [];
    } else {
      var whole := parts + [x];
      assert whole[0] == parts[0] && whole[1..] == parts[1..] + [x];
      HolesSnoc(or, at + |parts[0]| + GapLen(or), parts[1..], x);
    }
  }

  lemma {:induction false} GlueSnoc(or: bool, at: nat, parts: seq<seq<byte>>, last: seq<byte>, end: nat)
    ensures Glue(or, parts + [last], at, end) == Chained(or, at, parts, end) + last
    ensures GluedLen(parts + [last], GapLen(or)) == ChainedLen(or, parts) + |last|
    decreases |parts|
  {
    hide Enc, BranchTo, JumpTo;
    var whole := parts + [last];
    if parts != [] {
      assert whole[0] == parts[0] && whole[1..] == parts[1..] + [last];
      var gapAt := at + |parts[0]|;
      GlueSnoc(or, gapAt + GapLen(or), parts[1..], last, end);
      assert Glue(or, whole, at, end) == parts[0] + Gap(or, gapAt, end) + Glue(or, whole[1..], gapAt + GapLen(or), end);
    }
  }

  lemma {:induction false} ChainUnfold(or: bool, start: seq<byte>, parts: seq<seq<byte>>, last: seq<byte>, end: nat)
    requires parts != []
    ensures var gapAt := |start| + |parts[0]|;
      start + Chained(or, |start|, parts, end) + last
      == start + parts[0] + Lead(or, gapAt) + JumpOn(!or, end)
         + (Enc(Pop) + (Chained(or, gapAt + GapLen(or), parts[1..], end) + last))
  {
    hide Lead, JumpOn, Enc, GapLen;
    var gapAt := |start| + |parts[0]|;
    var rest := Chained(or, gapAt + GapLen(or), parts[1..], end);
    Group5(start, parts[0], Lead(or, gapAt), JumpOn(!or, end), Enc(Pop), rest + last);
    Group5(start, parts[0], Lead(or, gapAt), JumpOn(!or, end), Enc(Pop), rest);
  }

  lemma {:induction false} Shift(a: seq<byte>, b: seq<byte>, c: seq<byte>, d: seq<byte>)
    ensures a + (b + (c + d)) == a + b + c + d
  {
  }

  /** The code up to and including the gap after the first operand. */
  function Next(or: bool, start: seq<byte>, part: seq<byte>, end: nat): (code: seq<byte>)
    ensures |code| == |start| + |part| + GapLen(or)
  {
    start + part + Lead(or, |start| + |part|) + JumpOn(!or, end) + Enc(Pop)
  }

  lemma {:induction false} ChainNext(or: bool, start: seq<byte>, parts: seq<seq<byte>>, last: seq<byte>, end: nat)
    requires parts != []
    ensures var next := Next(or, start, parts[0], end);
      start + Chained(or, |start|, parts, end) + last == next + Chained(or, |next|, parts[1..], end) + last
  {
    hide Lead, JumpOn, Enc, Chained, GapLen;
    var gapAt := |start| + |parts[0]|;
    ChainUnfold(or, start, parts, last, end);
    Shift(start + parts[0] + Lead(or, gapAt) + JumpOn(!or, end), Enc(Pop),
          Chained(or, gapAt + GapLen(or), parts[1..], end), last);
  }

  lemma {:induction false} FirstPatched(or: bool, start: seq<byte>, parts: seq<seq<byte>>, last: seq<byte>, end: nat)
    requires parts != []
    ensures var next := Next(or, start, parts[0], end);
      var hole := |start| + |parts[0]| + |Lead(or, |start| + |parts[0]|)| + 1;
      Holes(or, |start|, parts) == [hole] + Holes(or, |next|, parts[1..])
      && PatchAt(start + Chained(or, |start|, parts, 0) + last, hole, end)
         == next + Chained(or, |next|, parts[1..], 0) + last
  {
    hide Lead, JumpOn, Enc, Chained, GapLen, PatchAt;
    var gapAt := |start| + |parts[0]|;
    var before := start + parts[0] + Lead(or, gapAt);
    var rest := Chained(or, gapAt + GapLen(or), parts[1..], 0);
    ChainUnfold(or, start, parts, last, 0);
    HoleFilled(before, !or, Enc(Pop) + (rest + last), end);
    Shift(before + JumpOn(!or, end), Enc(Pop), rest, last);
  }

  /** Patching the collected jumps turns the emitted chain into the final one. */
  lemma {:induction false} ChainPatched(or: bool, start: seq<byte>, parts: seq<seq<byte>>, last: seq<byte>, end: nat)
    ensures PatchEach(start + Chained(or, |start|, parts, 0) + last, Holes(or, |start|, parts), end)
      == start + Chained(or, |start|, parts, end) + last
    decreases |parts|
  {
    if parts == [] {
    } else {
      hide Lead, PatchAt, PatchEach, Chained, Holes, Next;
      var next := Next(or, start, parts[0], end);
      FirstPatched(or, start, parts, last, end);
      ChainNext(or, start, parts, last, end);
      PatchFirst(start + Chained(or, |start|, parts, 0) + last,
                 Holes(or, |start|, parts)[0], Holes(or, |next|, parts[1..]), end);
      ChainPatched(or, next, parts[1..], last, end);
    }
  }

  lemma {:induction false} ChainEmpty(or: bool, at: nat, end: nat)
    ensures Chained(or, at, [], end) == [] && Holes(or, at, []) == [] && ChainedLen(or, []) == 0
  {
  }
}
