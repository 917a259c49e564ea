/**
 Bytes written down by hand: the numbers of the instruction set and of the container, which
 encoder and decoder share, so that reading back what was written says nothing about them.
 */
module Vectors {
  import opened Prelude
  import opened Data
  import opened Instr
  import opened Compile
  import opened Codec

  lemma {:induction false} OneByte(k: nat, b: byte, m: nat)
    ensures LE.Le(k + 1, b + 256 * m) == [b] + LE.Le(k, m)
  {
  }

  /** Numbers stand with the lowest byte first. */
  lemma {:induction false} LowestFirst(a: byte, b: byte, c: byte, d: byte, m: nat)
    ensures LE.Le(2, a + 256 * b) == [a, b]
    ensures LE.Le(4, a + 256 * (b + 256 * (c + 256 * d))) == [a, b, c, d]
    ensures LE.Le(8, a + 256 * (b + 256 * (c + 256 * (d + 256 * m)))) == [a, b, c, d] + LE.Le(4, m)
  {
    hide LE.Le;
    Nothing(0);
    OneByte(0, b, 0);
    OneByte(1, a, b);
    OneByte(0, d, 0);
    OneByte(1, c, d);
    OneByte(2, b, c + 256 * d);
    OneByte(3, a, b + 256 * (c + 256 * d));
    OneByte(4, d, m);
    OneByte(5, c, d + 256 * m);
    OneByte(6, b, c + 256 * (d + 256 * m));
    OneByte(7, a, b + 256 * (c + 256 * (d + 256 * m)));
  }

  lemma {:induction false} Nothing(n: nat)
    ensures LE.Le(0, n) == []
  {
  }

  lemma {:induction false} Eight(a: byte, b: byte, c: byte, d: byte, e: byte, f: byte, g: byte, h: byte)
    ensures LE.Le(8, a + 256 * (b + 256 * (c + 256 * (d + 256 * (e + 256 * (f + 256 * (g + 256 * h)))))))
      == [a, b, c, d, e, f, g, h]
  {
    hide LE.Le;
    LowestFirst(a, b, c, d, e + 256 * (f + 256 * (g + 256 * h)));
    LowestFirst(e, f, g, h, 0);
  }

  lemma {:induction false} Small(n: byte)
    ensures LE.Le(2, n) == [n, 0] && LE.Le(4, n) == [n, 0, 0, 0]
  {
    hide LE.Le;
    LowestFirst(n, 0, 0, 0, 0);
  }

  /** Every instruction, with operands that tell their bytes apart. */
  lemma {:induction false} Instructions()
    ensures Enc(Instr.Const(0x04030201)) == [0, 1, 2, 3, 4] && Enc(GetGlobal(0x04030201)) == [1, 1, 2, 3, 4]
    ensures Enc(Call(9)) == [2, 9] && Enc(Instr.Pop) == [3] && Enc(Halt) == [4]
    ensures Enc(DefGlobal(0x04030201)) == [5, 1, 2, 3, 4] && Enc(GetLocal(9)) == [6, 9]
    ensures Enc(Jump(0x04030201)) == [7, 1, 2, 3, 4] && Enc(JumpIfFalse(0x04030201)) == [8, 1, 2, 3, 4]
    ensures Enc(Return) == [9] && Enc(MakeFunction(0x04030201)) == [10, 1, 2, 3, 4] && Enc(PushLocal) == [11]
    ensures Enc(SetLocal(9)) == [12, 9] && Enc(SetGlobal(0x04030201)) == [13, 1, 2, 3, 4]
    ensures Enc(Dup) == [14] && Enc(Swap) == [15] && Enc(Instr.Eqv) == [16]
    ensures Enc(GetUpvalue(8, 9)) == [17, 8, 9] && Enc(SetUpvalue(8, 9)) == [18, 8, 9] && Enc(TailCall(9)) == [19, 9]
  {
    hide LE.Le;
    LowestFirst(1, 2, 3, 4, 0);
  }

  /** One constant of each kind; the text `x` is encoded as the byte 120. */
  lemma {:induction false} Constants(u: Utf8)
    requires u.encode("x") == [120]
    ensures EncodeConst(u, CInt(-2)) == [0, 254, 255, 255, 255, 255, 255, 255, 255]
    ensures EncodeConst(u, CBool(true)) == [1, 1] && EncodeConst(u, CBool(false)) == [1, 0]
    ensures EncodeConst(u, CStr("x")) == [2, 1, 0, 0, 0, 120] && EncodeConst(u, CSymbol("x")) == [3, 1, 0, 0, 0, 120]
    ensures EncodeConst(u, CFloat(0x3FF0_0000_0000_0000)) == [6, 0, 0, 0, 0, 0, 0, 240, 63]
    ensures EncodeConst(u, CChar('x')) == [7, 120, 0, 0, 0] && EncodeConst(u, CUnspecified) == [5]
  {
    hide LE.Le;
    Eight(254, 255, 255, 255, 255, 255, 255, 255);
    Eight(0, 0, 0, 0, 0, 0, 240, 63);
    assert (-2) % TWO64 == 0xFFFF_FFFF_FFFF_FFFE;
    Small(1);
    Small(120);
  }

  lemma {:induction false} Compounds(u: Utf8)
    requires u.encode("x") == [120]
    ensures EncodeConst(u, CList([CUnspecified, CBool(true)])) == [4, 2, 0, 0, 0, 5, 1, 1]
    ensures EncodeConst(u, CVector([CUnspecified])) == [8, 1, 0, 0, 0, 5]
    ensures EncodeConst(u, CPair(CBool(true), CPair(CBool(false), CUnspecified))) == [9, 1, 1, 9, 1, 0, 5]
  {
    hide LE.Le;
    var a, b, c := CUnspecified, CBool(true), CBool(false);
    Constants(u);
    Small(1);
    Small(2);
    assert [a, b][1..] == [b] && [b][1..] == [] && [a][1..] == [];
    assert EncodeConsts(u, [b]) == [1, 1] && EncodeConsts(u, [a]) == [5];
    assert EncodeConsts(u, [a, b]) == [5] + [1, 1];
    assert EncodeConst(u, CPair(c, a)) == [9] + [1, 0] + [5];
  }

  /** A whole file: one function `x` of two parameters and a rest parameter that returns its first argument. */
  lemma {:induction false} Container(u: Utf8)
    requires u.encode("x") == [120]
    ensures Encode(u, Module(0, [Chunk([6, 0, 9], [CUnspecified], 2, true, Some("x"))]))
      == [77, 76, 66, 67, 1, 2, 0, 0] + [0, 0, 0, 0] + [1, 0, 0, 0]
         + ([2, 0, 0, 0] + [1] + [1, 1, 0, 0, 0, 120] + [3, 0, 0, 0, 6, 0, 9] + [1, 0, 0, 0, 5])
  {
    hide LE.Le, EncodeConst;
    var c := Chunk([6, 0, 9], [CUnspecified], 2, true, Some("x"));
    Small(0);
    Small(1);
    Small(2);
    Small(3);
    assert [c][1..] == [] && [CUnspecified][1..] == [];
    assert EncodeConst(u, CUnspecified) == [5] by { Constants(u); }
    assert EncodeConsts(u, [CUnspecified]) == [5] + [];
    assert EncodeName(u, Some("x")) == [1, 1, 0, 0, 0, 120];
    assert EncodeChunk(u, c) == [2, 0, 0, 0] + [1] + [1, 1, 0, 0, 0, 120] + [3, 0, 0, 0, 6, 0, 9] + [1, 0, 0, 0, 5];
    assert EncodeChunks(u, [c]) == EncodeChunk(u, c) + [];
  }
}
