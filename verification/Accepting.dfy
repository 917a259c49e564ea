/**
 What the container decoder accepts: nothing but what the encoder writes, except that a flag
 byte may say true with any number but 0. `CodecProof` has the other direction.
 */
module Accepting {
  import opened Prelude
  import opened Data
  import opened Codec
  import opened CodecProof
  import opened Instr
  import Vectors

  /** No bytes but its own encoding are decoded to a text. */
  ghost predicate Strict(u: Utf8) {
    forall raw :: u.decode(raw).Some? ==> u.encode(u.decode(raw).value) == raw
  }

  /** `b` is `e`, up to a larger number in place of a 1. */
  ghost predicate Says(b: Bytes, e: Bytes) {
    |b| == |e| && forall i :: 0 <= i < |b| ==> b[i] == e[i] || (e[i] == 1 && b[i] > 1)
  }

  lemma {:induction false} SaysBoth(a: Bytes, b: Bytes, c: Bytes, d: Bytes)
    requires Says(a, c) && Says(b, d)
    ensures Says(a + b, c + d)
  {
  }

  /** Behind the same bytes. */
  lemma {:induction false} SaysBehind(p: Bytes, b: Bytes, d: Bytes)
    requires Says(b, d)
    ensures Says(p + b, p + d)
  {
    SaysBoth(p, b, p, d);
  }

  /** Part by part: `b` says `c` in front of what says `e`. */
  lemma {:induction false} SaysFront(b: Bytes, c: Bytes, b1: Bytes, e: Bytes)
    requires Says(b, c + b1) && Says(b1, e)
    ensures Says(b, c + e)
  {
    var n := |c|;
    forall i | 0 <= i < |b|
      ensures b[i] == (c + e)[i] || ((c + e)[i] == 1 && b[i] > 1)
    {
      if i >= n {
        assert (c + b1)[i] == b1[i - n] && (c + e)[i] == e[i - n];
      }
    }
  }

  lemma {:induction false} LeBack(x: Bytes)
    ensures LE.Le(|x|, LE.FromLe(x)) == x
  {
    if x != [] {
      LeBack(x[1..]);
      assert LE.FromLe(x) % 256 == x[0] && LE.FromLe(x) / 256 == LE.FromLe(x[1..]);
      assert x == [x[0]] + x[1..];
    }
  }

  lemma {:induction false} ByteIs(b: Bytes)
    requires TakeByte(b).Ok?
    ensures b == [TakeByte(b).value.0] + TakeByte(b).value.1
  {
  }

  lemma {:induction false} NumberIs(b: Bytes, k: nat)
    requires k > 0 && TakeNumber(b, k).Ok?
    ensures var (n, rest) := TakeNumber(b, k).value;
      b == LE.Le(k, n) + rest && n < LE.Pow256(k)
  {
    LeBack(Take(b, k).value.0);
  }

  lemma {:induction false} CountIs(b: Bytes)
    requires TakeNumber(b, 4).Ok?
    ensures var (n, rest) := TakeNumber(b, 4).value;
      n < U32_LIMIT && b == Count(n) + rest
  {
    hide TakeNumber, LE.Le;
    LE.PowerFacts();
    NumberIs(b, 4);
  }

  lemma {:induction false} TextIs(u: Utf8, b: Bytes)
    requires Strict(u) && TakeText(u, b).Ok?
    ensures var (s, rest) := TakeText(u, b).value;
      SizedText(u, s) && b == TextBytes(u, s) + rest
  {
    hide TakeNumber, Count;
    CountIs(b);
    var (n, b1) := TakeNumber(b, 4).value;
    var (raw, rest) := Take(b1, n).value;
    Associate(Count(n), raw, rest);
  }

  /** The number with a tag in front of it. */
  lemma {:induction false} WordIs(u: Utf8, b: Bytes, k: nat, tag: byte)
    requires DecodeBody(u, b, k, tag).Ok? && tag in {0, 6, 7}
    ensures var (c, rest) := DecodeBody(u, b, k, tag).value;
      Sized(u, c) && Depth(c) == 0 && k <= 512 && [tag] + b == EncodeConst(u, c) + rest
  {
    hide TakeNumber, Count, LE.Le;
    LE.PowerFacts();
    if tag == 7 {
      CountIs(b);
    } else {
      NumberIs(b, 8);
    }
    var (c, rest) := DecodeBody(u, b, k, tag).value;
    var n := TakeNumber(b, if tag == 7 then 4 else 8).value.0;
    if tag == 0 {
      assert Signed(n) % TWO64 == n;
    }
    Associate([tag], if tag == 7 then Count(n) else LE.Le(8, n), rest);
  }

  lemma {:induction false} TextConstIs(u: Utf8, b: Bytes, k: nat, tag: byte)
    requires Strict(u) && DecodeBody(u, b, k, tag).Ok? && tag in {2, 3}
    ensures var (c, rest) := DecodeBody(u, b, k, tag).value;
      Sized(u, c) && Depth(c) == 0 && k <= 512 && [tag] + b == EncodeConst(u, c) + rest
  {
    hide TakeText, TextBytes;
    TextIs(u, b);
    var (s, rest) := TakeText(u, b).value;
    Associate([tag], TextBytes(u, s), rest);
  }

  lemma {:induction false} FlagIs(x: byte)
    ensures Says([x], [Flag(x != 0)])
  {
  }

  lemma {:induction false} SmallIs(u: Utf8, b: Bytes, k: nat, tag: byte)
    requires DecodeBody(u, b, k, tag).Ok? && tag in {1, 5}
    ensures var (c, rest) := DecodeBody(u, b, k, tag).value;
      Sized(u, c) && Depth(c) == 0 && k <= 512 && Says([tag] + b, EncodeConst(u, c) + rest)
  {
    if tag == 1 {
      ByteIs(b);
      var (x, rest) := TakeByte(b).value;
      FlagIs(x);
      SaysBoth([x], rest, [Flag(x != 0)], rest);
      SaysBehind([1], b, [Flag(x != 0)] + rest);
      assert [1] + ([Flag(x != 0)] + rest) == [1, Flag(x != 0)] + rest;
    }
  }

  /** What a decoded constant says about the bytes. */
  ghost predicate Written(u: Utf8, b: Bytes, c: Const, rest: Bytes) {
    Sized(u, c) && Says(b, EncodeConst(u, c) + rest)
  }

  lemma {:induction false} ItemsIs(u: Utf8, b: Bytes, k: nat, tag: byte)
    requires Strict(u) && DecodeBody(u, b, k, tag).Ok? && tag in {4, 8}
    ensures var (c, rest) := DecodeBody(u, b, k, tag).value;
      Written(u, [tag] + b, c, rest) && k + Depth(c) <= 512
    decreases |b|, 1
  {
    hide DecodeConsts, EncodeConsts, TakeNumber, Count, Says;
    CountIs(b);
    var (n, b1) := TakeNumber(b, 4).value;
    var (items, rest) := DecodeConsts(u, b1, k + 1, n).value;
    ConstsIs(u, b1, k + 1, n);
    var e := EncodeConsts(u, items) + rest;
    SaysBehind([tag] + Count(n), b1, e);
    assert [tag] + b == [tag] + Count(n) + b1;
    Associate([tag] + Count(n), EncodeConsts(u, items), rest);
  }

  lemma {:induction false} ConstsIs(u: Utf8, b: Bytes, k: nat, n: nat)
    requires Strict(u) && DecodeConsts(u, b, k, n).Ok?
    ensures var (cs, rest) := DecodeConsts(u, b, k, n).value;
      |cs| == n && (n > 0 ==> k + Deepest(cs) <= 512) && (forall i :: 0 <= i < n ==> Sized(u, cs[i]))
      && Says(b, EncodeConsts(u, cs) + rest)
    decreases |b|, 3, n
  {
    hide DecodeConst, EncodeConst, Says, Sized;
    if n == 0 {
      Itself(b);
    } else {
      var (c, b1) := DecodeConst(u, b, k).value;
      var (cs, rest) := DecodeConsts(u, b1, k, n - 1).value;
      ConstIs(u, b, k);
      ConstsIs(u, b1, k, n - 1);
      assert ([c] + cs)[1..] == cs;
      SaysFront(b, EncodeConst(u, c), b1, EncodeConsts(u, cs) + rest);
      Associate(EncodeConst(u, c), EncodeConsts(u, cs), rest);
    }
  }

  lemma {:induction false} Itself(b: Bytes)
    ensures Says(b, [] + b)
  {
    assert [] + b == b;
  }

  lemma {:induction false} PairIs(u: Utf8, b: Bytes, k: nat)
    requires Strict(u) && DecodeBody(u, b, k, 9).Ok?
    ensures var (c, rest) := DecodeBody(u, b, k, 9).value;
      Written(u, [9] + b, c, rest) && k + Depth(c) <= 512
    decreases |b|, 4
  {
    hide DecodeConst, DecodeSpine, Says;
    var (car, b1) := DecodeConst(u, b, k + 1).value;
    var (cdr, rest) := DecodeSpine(u, b1, k).value;
    ConstIs(u, b, k + 1);
    SpineIs(u, b1, k);
    LinkSays(u, b, car, b1, cdr, rest);
  }

  /** One link of a chain, by its parts. */
  lemma {:induction false} LinkSays(u: Utf8, b: Bytes, car: Const, b1: Bytes, cdr: Const, rest: Bytes)
    requires Written(u, b, car, b1) && Written(u, b1, cdr, rest)
    ensures Written(u, [9] + b, CPair(car, cdr), rest)
  {
    hide Says;
    var x, y := EncodeConst(u, car), EncodeConst(u, cdr);
    SaysFront(b, x, b1, y + rest);
    SaysBehind([9], b, x + (y + rest));
    assert [9] + (x + (y + rest)) == [9] + x + y + rest;
  }

  lemma {:induction false} SpineIs(u: Utf8, b: Bytes, k: nat)
    requires Strict(u) && DecodeSpine(u, b, k).Ok?
    ensures var (c, rest) := DecodeSpine(u, b, k).value;
      Written(u, b, c, rest) && k + 1 + SpineDepth(c) <= 512
    decreases |b|, 2
  {
    hide DecodeConst, DecodeBody, EncodeConst, Says, Sized, Written;
    ByteIs(b);
    var (tag, b1) := TakeByte(b).value;
    if tag == 9 {
      var (car, b2) := DecodeConst(u, b1, k + 1).value;
      var (cdr, rest) := DecodeSpine(u, b2, k).value;
      ConstIs(u, b1, k + 1);
      SpineIs(u, b2, k);
      LinkSays(u, b1, car, b2, cdr, rest);
    } else {
      BodyIs(u, b1, k + 1, tag);
      NotPair(u, b1, k + 1, tag);
    }
  }

  lemma {:induction false} NotPair(u: Utf8, b: Bytes, k: nat, tag: byte)
    requires DecodeBody(u, b, k, tag).Ok? && tag != 9
    ensures !DecodeBody(u, b, k, tag).value.0.CPair?
  {
    hide DecodeConsts, TakeText, TakeNumber;
  }

  lemma {:induction false} BodyIs(u: Utf8, b: Bytes, k: nat, tag: byte)
    requires Strict(u) && DecodeBody(u, b, k, tag).Ok?
    ensures var (c, rest) := DecodeBody(u, b, k, tag).value;
      Written(u, [tag] + b, c, rest) && k + Depth(c) <= 512
    decreases |b|, 5
  {
    hide EncodeConst, Sized;
    KnownTag(u, b, k, tag);
    if tag in {0, 6, 7} {
      WordIs(u, b, k, tag);
    } else if tag in {2, 3} {
      TextConstIs(u, b, k, tag);
    } else if tag in {1, 5} {
      SmallIs(u, b, k, tag);
    } else if tag == 9 {
      PairIs(u, b, k);
    } else {
      ItemsIs(u, b, k, tag);
    }
  }

  lemma {:induction false} KnownTag(u: Utf8, b: Bytes, k: nat, tag: byte)
    requires DecodeBody(u, b, k, tag).Ok?
    ensures tag <= 9
  {
    hide DecodeConsts, TakeText, TakeNumber, DecodeSpine, DecodeConst;
  }

  /** Whatever is decoded to a constant says the encoding of that constant, no deeper than the limit. */
  lemma {:induction false} ConstIs(u: Utf8, b: Bytes, k: nat)
    requires Strict(u) && DecodeConst(u, b, k).Ok?
    ensures var (c, rest) := DecodeConst(u, b, k).value;
      Written(u, b, c, rest) && k + Depth(c) <= 512
    decreases |b|, 0
  {
    hide DecodeBody, Written;
    ByteIs(b);
    BodyIs(u, TakeByte(b).value.1, k, TakeByte(b).value.0);
  }

  // ----- modules -----

  lemma {:induction false} NameIs(u: Utf8, b: Bytes)
    requires Strict(u) && DecodeName(u, b).Ok?
    ensures var (name, rest) := DecodeName(u, b).value;
      (name.Some? ==> SizedText(u, name.value)) && Says(b, EncodeName(u, name) + rest)
  {
    hide TakeText, TextBytes;
    ByteIs(b);
    var (flag, b1) := TakeByte(b).value;
    if flag != 0 {
      TextIs(u, b1);
      FlagIs(flag);
      SaysBoth([flag], b1, [1], b1);
      var (s, rest) := TakeText(u, b1).value;
      Associate([1], TextBytes(u, s), rest);
    }
  }

  lemma {:induction false} ChunkIs(u: Utf8, b: Bytes)
    requires Strict(u) && DecodeChunk(u, b).Ok?
    ensures var (c, rest) := DecodeChunk(u, b).value;
      SizedChunk(u, c) && Deepest(c.consts) <= 512 && Says(b, EncodeChunk(u, c) + rest)
  {
    hide DecodeConsts, EncodeConsts, DecodeName, EncodeName, TakeNumber, Take, Count, Sized, Says, TakeByte;
    var (arity, b1) := TakeNumber(b, 4).value;
    var (hasRest, b2) := TakeByte(b1).value;
    var (name, b3) := DecodeName(u, b2).value;
    var (codeLen, b4) := TakeNumber(b3, 4).value;
    var (code, b5) := Take(b4, codeLen).value;
    var (n, b6) := TakeNumber(b5, 4).value;
    var (cs, rest) := DecodeConsts(u, b6, 0, n).value;
    CountIs(b);
    ByteIs(b1);
    FlagIs(hasRest);
    NameIs(u, b2);
    CountIs(b3);
    CountIs(b5);
    ConstsIs(u, b6, 0, n);
    var e, flag := EncodeConsts(u, cs), Flag(hasRest != 0);
    SaysBehind(Count(n), b6, e + rest);
    SaysBehind(code, b5, Count(n) + (e + rest));
    var r4 := code + (Count(n) + (e + rest));
    SaysBehind(Count(codeLen), b4, r4);
    SaysFront(b2, EncodeName(u, name), b3, Count(codeLen) + r4);
    var r2 := EncodeName(u, name) + (Count(codeLen) + r4);
    SaysBoth([hasRest], b2, [flag], r2);
    SaysBehind(Count(arity), b1, [flag] + r2);
    Regroup(Count(arity), [flag], EncodeName(u, name), Count(codeLen), code, Count(n), e, rest);
  }

  lemma {:induction false} ChunksIs(u: Utf8, b: Bytes, n: nat)
    requires Strict(u) && DecodeChunks(u, b, n).Ok?
    ensures var (cs, rest) := DecodeChunks(u, b, n).value;
      |cs| == n && DeepestChunk(cs) <= 512 && (forall i :: 0 <= i < n ==> SizedChunk(u, cs[i]))
      && Says(b, EncodeChunks(u, cs) + rest)
    decreases n
  {
    hide DecodeChunk, EncodeChunk, SizedChunk, Says;
    if n == 0 {
      Itself(b);
    } else {
      var (c, b1) := DecodeChunk(u, b).value;
      var (cs, rest) := DecodeChunks(u, b1, n - 1).value;
      ChunkIs(u, b);
      ChunksIs(u, b1, n - 1);
      assert ([c] + cs)[1..] == cs;
      SaysFront(b, EncodeChunk(u, c), b1, EncodeChunks(u, cs) + rest);
      Associate(EncodeChunk(u, c), EncodeChunks(u, cs), rest);
    }
  }

  /** The preamble is refused unless it is these eight bytes. */
  lemma {:induction false} PreambleIs(b: Bytes)
    ensures DecodePreamble(b).Ok? <==> |b| >= 8 && b[..8] == [77, 76, 66, 67, 1, 2, 0, 0]
    ensures DecodePreamble(b).Ok? ==> DecodePreamble(b).value == b[8..]
  {
    hide LE.Le;
    if |b| >= 8 {
      LeBack(b[6..8]);
      Zero(b[6..8]);
      assert b[4..][1..] == b[5..] && b[5..][1..] == b[6..] && b[6..][..2] == b[6..8] && b[6..][2..] == b[8..];
      assert b[..8] == b[..4] + [b[4], b[5]] + b[6..8];
    }
  }

  lemma {:induction false} Zero(x: Bytes)
    requires |x| == 2
    ensures LE.FromLe(x) == 0 <==> x == [0, 0]
  {
    assert LE.FromLe(x) == x[0] + 256 * LE.FromLe(x[1..]);
    assert LE.FromLe(x[1..]) == x[1] + 256 * LE.FromLe([]);
    assert x == [x[0], x[1]];
  }

  /**
   Every file that is accepted is, up to the flags and whatever stands behind it, the file
   that writing the decoded module gives, and that module can be written faithfully.
   */
  lemma {:induction false} OnlyEncodings(u: Utf8, b: Bytes)
    requires Strict(u) && Codec.Decode(u, b).Ok?
    ensures var m := Codec.Decode(u, b).value;
      SizedModule(u, m) && DeepestChunk(m.fns) <= 512 && m.entry < |m.fns|
      && |Encode(u, m)| <= |b| && Says(b[..|Encode(u, m)|], Encode(u, m))
  {
    hide DecodePreamble, DecodeChunks, EncodeChunks, Count, SizedChunk, TakeNumber, Says;
    var m := Codec.Decode(u, b).value;
    var b1 := DecodePreamble(b).value;
    PreambleIs(b);
    var (entry, b2) := TakeNumber(b1, 4).value;
    var (n, b3) := TakeNumber(b2, 4).value;
    var rest := DecodeChunks(u, b3, n).value.1;
    CountIs(b1);
    CountIs(b2);
    ChunksIs(u, b3, n);
    var e := EncodeChunks(u, m.fns);
    var front := b[..8] + Count(entry) + Count(n);
    SaysBehind(front, b3, e + rest);
    assert b == front + b3;
    LE.PowerFacts();
    Vectors.Small(0);
    Associate(front, e, rest);
    Cut(b, Encode(u, m), rest);
  }

  lemma {:induction false} Cut(b: Bytes, e: Bytes, rest: Bytes)
    requires Says(b, e + rest)
    ensures |e| <= |b| && Says(b[..|e|], e)
  {
    assert forall i :: 0 <= i < |e| ==> (e + rest)[i] == e[i];
  }

  // ----- instructions -----

  lemma {:induction false} FetchedStands(code: Bytes, ip: nat)
    requires Fetch(code, ip).Got?
    ensures var i := Fetch(code, ip).instr;
      Occurs(code, ip, Enc(i)) && Fetch(code, ip).next == ip + |Enc(i)|
  {
    hide LE.Le, LE.FromLe;
    var args := code[ip + 1..ip + 1 + OperandLen(code[ip])];
    LeBack(args);
    assert code[ip..ip + 1 + |args|] == [code[ip]] + args;
    assert |args| == 1 ==> args == [args[0]];
    assert |args| == 2 ==> args == [args[0], args[1]];
  }

  /** The machine fetches an instruction exactly where its bytes stand; 20 opcodes are defined. */
  lemma {:induction false} FetchesExactly(code: Bytes, ip: nat, i: Instr, next: nat)
    ensures Fetch(code, ip) == Got(i, next) <==> Occurs(code, ip, Enc(i)) && next == ip + |Enc(i)|
    ensures Fetch(code, ip).UndefinedOpcode? <==> ip < |code| && code[ip] >= 20
    ensures Fetch(code, ip).RanOff? <==> ip >= |code|
  {
    hide Enc, Occurs;
    if Occurs(code, ip, Enc(i)) {
      FetchEncoded(code, ip, i);
    }
    if Fetch(code, ip).Got? {
      FetchedStands(code, ip);
    }
  }
}
