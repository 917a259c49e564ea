/**
 `cond` and `case` as they are emitted: every clause ends in a jump whose target is
 known only when all clauses are, because it leads to that clause's own padding.
 */
module Selecting {
  import opened Prelude
  import opened Instr
  import opened Compile
  import opened Emitter

  /** The clauses while their final jumps still lead nowhere. */
  function Open(parts: seq<Part>): (code: seq<byte>)
    ensures |code| == PartsLen(parts)
  {
    if parts == [] then [] else parts[0].pre + JumpOn(false, 0) + parts[0].post + Open(parts[1..])
  }

  /** Where each clause's final jump keeps its operand, and how many slots the clause used. */
  predicate JumpsOf(at: nat, parts: seq<Part>, jumps: seq<(nat, u8)>) {
    |jumps| == |parts|
    && forall k :: 0 <= k < |parts| ==> jumps[k] == (at + PartsLen(parts[..k]) + |parts[k].pre| + 1, parts[k].needs)
  }

  function Largest(jumps: seq<(nat, u8)>): u8 {
    if jumps == [] then 0 else Max(jumps[0].1, Largest(jumps[1..]))
  }

  lemma {:induction false} LargestNeed(parts: seq<Part>, jumps: seq<(nat, u8)>)
    requires |jumps| == |parts| && forall k :: 0 <= k < |parts| ==> jumps[k].1 == parts[k].needs
    ensures Largest(jumps) == MaxNeeds(parts)
    decreases |parts|
  {
    if parts != [] {
      LargestNeed(parts[1..], jumps[1..]);
    }
  }

  /** One clause with its final jump. */
  function Piece(x: Part, to: nat): (code: seq<byte>)
    ensures |code| == |x.pre| + 5 + |x.post|
  {
    x.pre + JumpOn(false, to) + x.post
  }

  lemma {:induction false} OpenCons(parts: seq<Part>)
    requires parts != []
    ensures Open(parts) == Piece(parts[0], 0) + Open(parts[1..])
  {
    hide JumpOn;
  }

  lemma {:induction false} OpenSnoc(parts: seq<Part>, x: Part)
    ensures Open(parts + [x]) == Open(parts) + Piece(x, 0)
    ensures PartsLen(parts + [x]) == PartsLen(parts) + |Piece(x, 0)|
    decreases |parts|
  {
    hide Piece;
    var whole := parts + [x];
    OpenCons(whole);
    if parts == [] {
      assert whole == [x] && [x][1..] == [];
    } else {
      hide Open;
      assert whole[0] == parts[0] && whole[1..] == parts[1..] + [x];
      OpenSnoc(parts[1..], x);
      OpenCons(parts);
      Associate(Piece(parts[0], 0), Open(parts[1..]), Piece(x, 0));
    }
  }

  lemma {:induction false} JumpsSnoc(at: nat, parts: seq<Part>, jumps: seq<(nat, u8)>, x: Part)
    requires JumpsOf(at, parts, jumps)
    ensures JumpsOf(at, parts + [x], jumps + [(at + PartsLen(parts) + |x.pre| + 1, x.needs)])
  {
    hide PartsLen;
    var whole := parts + [x];
    forall k | 0 <= k < |whole|
      ensures whole[..k] == parts[..k] && whole[k] == if k < |parts| then parts[k] else x
    {
    }
    assert parts[..|parts|] == parts;
  }

  lemma {:induction false} JoinCons(parts: seq<Part>, stubAt: nat, target: u8, tail: bool)
    requires parts != []
    ensures JoinParts(parts, stubAt, target, tail)
      == Piece(parts[0], stubAt) + JoinParts(parts[1..], stubAt + StubLen(parts[0].needs, target, tail), target, tail)
  {
    hide JumpTo, StubLen;
  }

  lemma {:induction false} JoinOne(x: Part, stubAt: nat, target: u8, tail: bool)
    ensures JoinParts([x], stubAt, target, tail) == Piece(x, stubAt) && JoinParts([], stubAt, target, tail) == []
    ensures StubsLen([], target, tail) == 0
  {
    hide Piece, StubLen;
    JoinCons([x], stubAt, target, tail);
    assert [x][1..] == [];
  }

  lemma {:induction false} JoinSnoc(parts: seq<Part>, x: Part, stubAt: nat, target: u8, tail: bool)
    ensures JoinParts(parts + [x], stubAt, target, tail)
      == JoinParts(parts, stubAt, target, tail) + Piece(x, stubAt + StubsLen(parts, target, tail))
    decreases |parts|
  {
    hide Piece, StubLen, JoinParts;
    var whole := parts + [x];
    if parts == [] {
      assert whole == [x];
      JoinOne(x, stubAt, target, tail);
      assert [] + Piece(x, stubAt) == Piece(x, stubAt);
    } else {
      assert whole[0] == parts[0] && whole[1..] == parts[1..] + [x];
      var next := stubAt + StubLen(parts[0].needs, target, tail);
      var last := Piece(x, next + StubsLen(parts[1..], target, tail));
      JoinCons(whole, stubAt, target, tail);
      JoinSnoc(parts[1..], x, next, target, tail);
      JoinCons(parts, stubAt, target, tail);
      Associate(Piece(parts[0], stubAt), JoinParts(parts[1..], next, target, tail), last);
    }
  }

  predicate Within(parts: seq<Part>, mark: u8, target: u8) {
    mark + target < 256 && forall i :: 0 <= i < |parts| ==> parts[i].needs <= target
  }

  /** One stub: a clause's padding and its jump to the end. */
  function Stub(x: Part, p: Pools, mark: u8, target: u8, tail: bool, end: nat): (e: Compile.Emitted)
    requires mark + target < 256 && x.needs <= target
    ensures |e.code| == StubLen(x.needs, target, tail)
  {
    var pad := PadUnlessTail(p.(slot := mark + x.needs), mark + target, tail);
    Compile.Emitted(pad.code + JumpOn(false, end), pad.p)
  }

  lemma {:induction false} StubsCons(parts: seq<Part>, p: Pools, mark: u8, target: u8, tail: bool, end: nat)
    requires parts != [] && Within(parts, mark, target)
    ensures var first := Stub(parts[0], p, mark, target, tail, end);
      var rest := Stubs(parts[1..], first.p, mark, target, tail, end);
      Stubs(parts, p, mark, target, tail, end) == Compile.Emitted(first.code + rest.code, rest.p)
  {
    hide JumpTo, PadUnlessTail;
  }

  lemma {:induction false} StubsSnoc(parts: seq<Part>, x: Part, p: Pools, mark: u8, target: u8, tail: bool, end: nat)
    requires Within(parts, mark, target) && x.needs <= target
    ensures Within(parts + [x], mark, target)
    ensures var s := Stubs(parts, p, mark, target, tail, end);
      var stub := Stub(x, s.p, mark, target, tail, end);
      Stubs(parts + [x], p, mark, target, tail, end) == Compile.Emitted(s.code + stub.code, stub.p)
    decreases |parts|
  {
    hide Stub;
    var whole := parts + [x];
    StubsCons(whole, p, mark, target, tail, end);
    if parts == [] {
      assert whole == [x] && [x][1..] == [];
    } else {
      hide Stubs;
      assert whole[0] == parts[0] && whole[1..] == parts[1..] + [x];
      StubsCons(parts, p, mark, target, tail, end);
      var first := Stub(parts[0], p, mark, target, tail, end);
      StubsSnoc(parts[1..], x, first.p, mark, target, tail, end);
      var s := Stubs(parts[1..], first.p, mark, target, tail, end);
      Associate(first.code, s.code, Stub(x, s.p, mark, target, tail, end).code);
    }
  }

  /** The jumps at the ends of the stubs. */
  function StubHoles(at: nat, parts: seq<Part>, target: u8, tail: bool): (holes: seq<nat>)
    ensures forall i :: 0 <= i < |holes| ==> holes[i] + 4 <= at + StubsLen(parts, target, tail)
    decreases |parts|
  {
    if parts == [] then []
    else
      var next := at + StubLen(parts[0].needs, target, tail);
      [next - 4] + StubHoles(next, parts[1..], target, tail)
  }

  lemma {:induction false} StubHolesSnoc(at: nat, parts: seq<Part>, x: Part, target: u8, tail: bool)
    ensures StubHoles(at, parts + [x], target, tail)
      == StubHoles(at, parts, target, tail) + [at + StubsLen(parts, target, tail) + StubLen(x.needs, target, tail) - 4]
    decreases |parts|
  {
    hide StubLen;
    var whole := parts + [x];
    if parts == [] {
      assert whole == [x] && [x][1..] == [];
    } else {
      assert whole[0] == parts[0] && whole[1..] == parts[1..] + [x];
      StubHolesSnoc(at + StubLen(parts[0].needs, target, tail), parts[1..], x, target, tail);
    }
  }

  lemma {:induction false} StubPatched(start: seq<byte>, x: Part, rest: seq<byte>, p: Pools, mark: u8, target: u8,
        tail: bool, end: nat)
    requires mark + target < 256 && x.needs <= target
    ensures var open := Stub(x, p, mark, target, tail, 0);
      var closed := Stub(x, p, mark, target, tail, end);
      open.p == closed.p
      && PatchAt(start + open.code + rest, |start| + |open.code| - 4, end) == start + closed.code + rest
  {
    hide PatchAt, PadUnlessTail, JumpOn;
    var pad := PadUnlessTail(p.(slot := mark + x.needs), mark + target, tail);
    Associate(start, pad.code, JumpOn(false, 0));
    Associate(start, pad.code, JumpOn(false, end));
    HoleFilled(start + pad.code, false, rest, end);
  }

  lemma {:induction false} StubsState(parts: seq<Part>, p: Pools, mark: u8, target: u8, tail: bool, end: nat)
    requires Within(parts, mark, target)
    ensures Stubs(parts, p, mark, target, tail, 0).p == Stubs(parts, p, mark, target, tail, end).p
    decreases |parts|
  {
    hide PadUnlessTail, JumpTo;
    if parts != [] {
      StubsState(parts[1..], PadUnlessTail(p.(slot := mark + parts[0].needs), mark + target, tail).p, mark, target,
        tail, end);
    }
  }

  /** Patching the ends of the stubs gives the stubs with their final jumps. */
  lemma {:induction false} StubsPatched(start: seq<byte>, parts: seq<Part>, p: Pools, mark: u8, target: u8, tail: bool,
        end: nat)
    requires Within(parts, mark, target)
    ensures PatchEach(start + Stubs(parts, p, mark, target, tail, 0).code, StubHoles(|start|, parts, target, tail), end)
      == start + Stubs(parts, p, mark, target, tail, end).code
    decreases |parts|
  {
    if parts == [] {
    } else {
      hide PatchAt, PatchEach, Stub, Stubs, StubLen, StubsLen, PadUnlessTail, Max;
      var open, closed := Stub(parts[0], p, mark, target, tail, 0), Stub(parts[0], p, mark, target, tail, end);
      StubsSplit(start, parts, p, mark, target, tail, 0);
      StubsSplit(start, parts, p, mark, target, tail, end);
      FirstStubPatched(start, parts, p, mark, target, tail, end);
      StubsPatched(start + closed.code, parts[1..], closed.p, mark, target, tail, end);
    }
  }

  /** The first stub's jump is patched, then the others'. */
  lemma {:induction false} FirstStubPatched(start: seq<byte>, parts: seq<Part>, p: Pools, mark: u8, target: u8,
        tail: bool, end: nat)
    requires parts != [] && Within(parts, mark, target)
    ensures var open, closed := Stub(parts[0], p, mark, target, tail, 0), Stub(parts[0], p, mark, target, tail, end);
      var rest := Stubs(parts[1..], closed.p, mark, target, tail, 0).code;
      var next := start + closed.code;
      open.p == closed.p
      && PatchEach(start + open.code + rest, StubHoles(|start|, parts, target, tail), end)
         == PatchEach(next + rest, StubHoles(|next|, parts[1..], target, tail), end)
  {
    hide PatchAt, PatchEach, Stub, Stubs, StubsLen;
    var closed := Stub(parts[0], p, mark, target, tail, end);
    var open := Stub(parts[0], p, mark, target, tail, 0);
    var rest := Stubs(parts[1..], closed.p, mark, target, tail, 0).code;
    var next := start + closed.code;
    StubPatched(start, parts[0], rest, p, mark, target, tail, end);
    var holes := StubHoles(|next|, parts[1..], target, tail);
    assert StubHoles(|start|, parts, target, tail) == [|next| - 4] + holes;
    PatchFirst(start + open.code + rest, |next| - 4, holes, end);
  }

  lemma {:induction false} StubsSplit(start: seq<byte>, parts: seq<Part>, p: Pools, mark: u8, target: u8, tail: bool,
        end: nat)
    requires parts != [] && Within(parts, mark, target)
    ensures var first := Stub(parts[0], p, mark, target, tail, end);
      start + Stubs(parts, p, mark, target, tail, end).code
      == start + first.code + Stubs(parts[1..], first.p, mark, target, tail, end).code
  {
    hide Stub, Stubs;
    StubsCons(parts, p, mark, target, tail, end);
    var first := Stub(parts[0], p, mark, target, tail, end);
    Associate(start, first.code, Stubs(parts[1..], first.p, mark, target, tail, end).code);
  }

  // ----- closing the clauses one by one -----

  /** The code when the first `k` clauses have their stubs and the others still lead nowhere. */
  function Midway(start: seq<byte>, parts: seq<Part>, k: nat, middle: seq<byte>, p: Pools, mark: u8, target: u8,
        tail: bool):
      (code: seq<byte>)
    requires k <= |parts| && Within(parts, mark, target)
  {
    var stubAt := |start| + PartsLen(parts) + |middle|;
    start + JoinParts(parts[..k], stubAt, target, tail) + Open(parts[k..]) + middle
    + Stubs(parts[..k], p, mark, target, tail, 0).code
  }

  lemma {:induction false} MidwayEnds(start: seq<byte>, parts: seq<Part>, middle: seq<byte>, p: Pools, mark: u8,
        target: u8, tail: bool)
    requires Within(parts, mark, target)
    ensures Midway(start, parts, 0, middle, p, mark, target, tail) == start + Open(parts) + middle
    ensures Stubs(parts[..0], p, mark, target, tail, 0).p == p
    ensures StubHoles(|start| + PartsLen(parts) + |middle|, parts[..0], target, tail) == []
    ensures Midway(start, parts, |parts|, middle, p, mark, target, tail)
      == start + JoinParts(parts, |start| + PartsLen(parts) + |middle|, target, tail) + middle
         + Stubs(parts, p, mark, target, tail, 0).code
  {
    assert parts[..0] == [] && parts[0..] == parts;
    assert parts[..|parts|] == parts && parts[|parts|..] == [];
  }

  /** A clause's jump, apart from everything around it. */
  lemma {:induction false} Around(s: seq<byte>, j: seq<byte>, x: Part, to: nat, o: seq<byte>, m: seq<byte>,
        t: seq<byte>)
    ensures s + j + (Piece(x, to) + o) + m + t == (s + j + x.pre) + JumpOn(false, to) + (x.post + (o + m + t))
    ensures s + j + (Piece(x, to) + o) + m + t == s + (j + Piece(x, to)) + o + m + t
  {
    hide JumpOn;
  }

  lemma {:induction false} LensAt(parts: seq<Part>, k: nat, stubAt: nat, target: u8, tail: bool)
    requires k < |parts|
    ensures PartsLen(parts[..k]) + |Piece(parts[k], 0)| + PartsLen(parts[k + 1..]) == PartsLen(parts)
    decreases |parts|
  {
    if k == 0 {
      assert parts[..0] == [];
    } else {
      assert parts[..k][0] == parts[0] && parts[..k][1..] == parts[1..][..k - 1];
      assert parts[1..][k - 1] == parts[k] && parts[1..][k..] == parts[k + 1..];
      LensAt(parts[1..], k - 1, stubAt, target, tail);
    }
  }

  /** Patching the clause's jump to the current end and emitting its stub moves one clause on. */
  lemma {:induction false} MidwayStep(start: seq<byte>, parts: seq<Part>, k: nat, middle: seq<byte>, p: Pools,
                                      mark: u8, target: u8, tail: bool)
    requires k < |parts| && Within(parts, mark, target)
    ensures var code := Midway(start, parts, k, middle, p, mark, target, tail);
      var hole := |start| + PartsLen(parts[..k]) + |parts[k].pre| + 1;
      var q := Stubs(parts[..k], p, mark, target, tail, 0).p;
      var stub := Stub(parts[k], q, mark, target, tail, 0);
      hole + 4 <= |code|
      && PatchAt(code, hole, |code|) + stub.code == Midway(start, parts, k + 1, middle, p, mark, target, tail)
      && Stubs(parts[..k + 1], p, mark, target, tail, 0).p == stub.p
    ensures var stubAt := |start| + PartsLen(parts) + |middle|;
      var code := Midway(start, parts, k, middle, p, mark, target, tail);
      StubHoles(stubAt, parts[..k + 1], target, tail)
      == StubHoles(stubAt, parts[..k], target, tail) + [|code| + StubLen(parts[k].needs, target, tail) - 4]
  {
    hide JumpOn, PatchAt, Stub, Stubs, Open, JoinParts, PartsLen, StubsLen, StubLen, StubHoles;
    var x, ps := parts[k], parts[..k];
    var stubAt := |start| + PartsLen(parts) + |middle|;
    assert parts[..k + 1] == ps + [x];
    assert parts[k..][0] == x && parts[k..][1..] == parts[k + 1..];
    var j, o := JoinParts(ps, stubAt, target, tail), Open(parts[k + 1..]);
    var t := Stubs(ps, p, mark, target, tail, 0);
    var end := stubAt + StubsLen(ps, target, tail);
    OpenCons(parts[k..]);
    LensAt(parts, k, stubAt, target, tail);
    Around(start, j, x, 0, o, middle, t.code);
    Around(start, j, x, end, o, middle, t.code);
    HoleFilled(start + j + x.pre, false, x.post + (o + middle + t.code), end);
    JoinSnoc(ps, x, stubAt, target, tail);
    StubsSnoc(ps, x, p, mark, target, tail, 0);
    StubHolesSnoc(stubAt, ps, x, target, tail);
    Associate(start + (j + Piece(x, end)) + o + middle, t.code, Stub(x, t.p, mark, target, tail, 0).code);
  }

  /** Once every stub is there, the jumps to the common end are patched. */
  lemma {:induction false} StubsClosed(start: seq<byte>, before: seq<byte>, parts: seq<Part>, p: Pools, mark: u8,
        target: u8,
                                       tail: bool, end: nat)
    requires Within(parts, mark, target)
    ensures var hole := |start| + |before| + 1;
      var holes := StubHoles(hole + 4, parts, target, tail);
      var open := Stubs(parts, p, mark, target, tail, 0);
      var closed := Stubs(parts, p, mark, target, tail, end);
      PatchEach(start + (before + JumpOn(false, 0)) + open.code, [hole] + holes, end)
      == start + (before + JumpOn(false, end)) + closed.code
      && open.p == closed.p
  {
    hide JumpOn, PatchAt, PatchEach, Stubs, StubHoles;
    var hole := |start| + |before| + 1;
    var open := Stubs(parts, p, mark, target, tail, 0);
    var next := start + (before + JumpOn(false, end));
    Associate(start, before, JumpOn(false, 0));
    Associate(start, before, JumpOn(false, end));
    HoleFilled(start + before, false, open.code, end);
    PatchFirst(start + (before + JumpOn(false, 0)) + open.code, hole, StubHoles(hole + 4, parts, target, tail), end);
    StubsState(parts, p, mark, target, tail, end);
    StubsPatched(next, parts, p, mark, target, tail, end);
  }

  // ----- the literals of a `case` clause -----

  /** One literal's test: on equality a jump to `found`, else on to what follows. */
  function DatumTest(c: Data.Const, at: nat, p: Pools, found: nat): (code: seq<byte>)
    ensures |code| == DATUM_TEST
  {
    Enc(Dup) + EmitConst(p, c).code + Enc(Eqv) + JumpOn(true, at + DATUM_TEST) + JumpOn(false, found)
  }

  lemma {:induction false} DataCons(data: seq<Data.Const>, at: nat, p: Pools, found: nat)
    requires data != []
    ensures var rest := CompData(data[1..], at + DATUM_TEST, AddConst(p, data[0]), found);
      CompData(data, at, p, found) == Compile.Emitted(DatumTest(data[0], at, p, found) + rest.code, rest.p)
  {
    hide Enc, JumpTo, BranchTo;
  }

  lemma {:induction false} DataSnoc(data: seq<Data.Const>, c: Data.Const, at: nat, p: Pools, found: nat)
    ensures var d := CompData(data, at, p, found);
      CompData(data + [c], at, p, found)
      == Compile.Emitted(d.code + DatumTest(c, at + DATUM_TEST * |data|, d.p, found), AddConst(d.p, c))
    decreases |data|
  {
    hide DatumTest, CompData;
    var whole := data + [c];
    DataCons(whole, at, p, found);
    if data == [] {
      assert whole == [c];
      DataNone(at, p, found);
      DataNone(at + DATUM_TEST, AddConst(p, c), found);
      assert whole[1..] == [];
      assert [] + DatumTest(c, at, p, found) == DatumTest(c, at, p, found) + [];
    } else {
      assert whole[0] == data[0] && whole[1..] == data[1..] + [c];
      var next := at + DATUM_TEST;
      DataSnoc(data[1..], c, next, AddConst(p, data[0]), found);
      DataCons(data, at, p, found);
      var d := CompData(data[1..], next, AddConst(p, data[0]), found);
      Associate(DatumTest(data[0], at, p, found), d.code, DatumTest(c, next + DATUM_TEST * |data[1..]|, d.p, found));
    }
  }

  lemma {:induction false} DataNone(at: nat, p: Pools, found: nat)
    ensures CompData([], at, p, found) == Compile.Emitted([], p)
  {
  }

  /** The operands of the jumps taken when a literal matches. */
  function DataHoles(at: nat, n: nat): (holes: seq<nat>)
    ensures forall i :: 0 <= i < |holes| ==> holes[i] + 4 <= at + DATUM_TEST * n
    decreases n
  {
    if n == 0 then [] else [at + DATUM_TEST - 4] + DataHoles(at + DATUM_TEST, n - 1)
  }

  lemma {:induction false} DataHolesSnoc(at: nat, n: nat)
    ensures DataHoles(at, n + 1) == DataHoles(at, n) + [at + DATUM_TEST * (n + 1) - 4]
    decreases n
  {
    if n > 0 {
      DataHolesSnoc(at + DATUM_TEST, n - 1);
    }
  }

  lemma {:induction false} DatumPatched(start: seq<byte>, c: Data.Const, p: Pools, rest: seq<byte>, found: nat)
    ensures PatchAt(start + DatumTest(c, |start|, p, 0) + rest, |start| + DATUM_TEST - 4, found)
      == start + DatumTest(c, |start|, p, found) + rest
  {
    hide PatchAt, Enc, JumpOn, EmitConst;
    var lead := Enc(Dup) + EmitConst(p, c).code + Enc(Eqv) + JumpOn(true, |start| + DATUM_TEST);
    Associate(start, lead, JumpOn(false, 0));
    Associate(start, lead, JumpOn(false, found));
    HoleFilled(start + lead, false, rest, found);
  }

  lemma {:induction false} DataPatched(start: seq<byte>, data: seq<Data.Const>, p: Pools, rest: seq<byte>, found: nat)
    ensures PatchEach(start + CompData(data, |start|, p, 0).code + rest, DataHoles(|start|, |data|), found)
      == start + CompData(data, |start|, p, found).code + rest
    ensures CompData(data, |start|, p, 0).p == CompData(data, |start|, p, found).p
    decreases |data|
  {
    hide PatchAt, PatchEach, DatumTest, CompData;
    if data == [] {
      DataNone(|start|, p, 0);
      DataNone(|start|, p, found);
      PatchNone(start + [] + rest, found);
    } else {
      var open, closed := DatumTest(data[0], |start|, p, 0), DatumTest(data[0], |start|, p, found);
      var next := start + closed;
      var q := AddConst(p, data[0]);
      var d := CompData(data[1..], |next|, q, 0).code + rest;
      var holes := DataHoles(|next|, |data| - 1);
      assert start + CompData(data, |start|, p, 0).code + rest == start + open + d by {
        DataCons(data, |start|, p, 0);
        Regroup(start, open, CompData(data[1..], |next|, q, 0).code, rest);
      }
      assert start + CompData(data, |start|, p, found).code + rest
        == next + CompData(data[1..], |next|, q, found).code + rest by {
        DataCons(data, |start|, p, found);
        Associate(start, closed, CompData(data[1..], |next|, q, found).code);
      }
      DatumPatched(start, data[0], p, d, found);
      PatchFirst(start + open + d, |next| - 4, holes, found);
      Associate(next, CompData(data[1..], |next|, q, 0).code, rest);
      DataPatched(next, data[1..], q, rest, found);
      DataCons(data, |start|, p, 0);
      DataCons(data, |start|, p, found);
    }
  }

  lemma {:induction false} Regroup(a: seq<byte>, b: seq<byte>, c: seq<byte>, d: seq<byte>)
    ensures a + (b + c) + d == a + b + (c + d)
  {
  }

  lemma {:induction false} PatchNone(code: seq<byte>, target: nat)
    ensures PatchEach(code, [], target) == code
  {
  }
}
