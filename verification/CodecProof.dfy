/** Decoding inverts encoding exactly up to the nesting limit. */
module CodecProof {
  import opened Prelude
  import opened Data
  import opened Compile
  import opened Codec

  lemma {:induction false} TakeFirst(p: Bytes, rest: Bytes)
    ensures Take(p + rest, |p|) == Ok((p, rest))
  {
    assert (p + rest)[..|p|] == p && (p + rest)[|p|..] == rest;
  }

  lemma {:induction false} TakeOne(x: byte, rest: Bytes)
    ensures TakeByte([x] + rest) == Ok((x, rest))
  {
    TakeFirst([x], rest);
  }

  lemma {:induction false} NumberBack(k: nat, n: nat, rest: Bytes)
    requires k > 0 && n < LE.Pow256(k)
    ensures TakeNumber(LE.Le(k, n) + rest, k) == Ok((n, rest))
  {
    TakeFirst(LE.Le(k, n), rest);
    LE.RoundTrip(k, n);
  }

  lemma {:induction false} CountBack(n: nat, rest: Bytes)
    requires n < U32_LIMIT
    ensures |Count(n)| == 4 && TakeNumber(Count(n) + rest, 4) == Ok((n, rest))
  {
    LE.PowerFacts();
    NumberBack(4, n, rest);
  }

  lemma {:induction false} TextBack(u: Utf8, s: string, rest: Bytes)
    requires Faithful(u) && SizedText(u, s)
    ensures TakeText(u, TextBytes(u, s) + rest) == Ok((s, rest))
  {
    var raw := u.encode(s);
    assert TextBytes(u, s) + rest == Count(|raw|) + (raw + rest);
    CountBack(|raw|, raw + rest);
    TakeFirst(raw, rest);
  }

  /** What decoding `c` at depth `k` must give. */
  ghost function Expected<T>(c: T, depth: nat, k: nat, rest: Bytes): Decoded<T> {
    if k + depth <= 512 then Ok((c, rest)) else Err(Truncated)
  }

  lemma {:induction false} IntBack(u: Utf8, c: Const, rest: Bytes, k: nat)
    requires Sized(u, c) && (c.CInt? || c.CFloat?)
    ensures DecodeConst(u, EncodeConst(u, c) + rest, k) == Expected(c, 0, k, rest)
  {
    LE.PowerFacts();
    var n: nat := if c.CInt? then c.n % TWO64 else c.bits % TWO64;
    var tag: byte := if c.CInt? then 0 else 6;
    assert EncodeConst(u, c) + rest == [tag] + (LE.Le(8, n) + rest);
    TakeOne(tag, LE.Le(8, n) + rest);
    NumberBack(8, n, rest);
  }

  lemma {:induction false} TextConstBack(u: Utf8, c: Const, rest: Bytes, k: nat)
    requires Faithful(u) && Sized(u, c) && (c.CStr? || c.CSymbol?)
    ensures DecodeConst(u, EncodeConst(u, c) + rest, k) == Expected(c, 0, k, rest)
  {
    hide TakeText;
    var tag: byte := if c.CStr? then 2 else 3;
    assert EncodeConst(u, c) + rest == [tag] + (TextBytes(u, c.s) + rest);
    TakeOne(tag, TextBytes(u, c.s) + rest);
    TextBack(u, c.s, rest);
  }

  lemma {:induction false} CharConstBack(u: Utf8, ch: char, rest: Bytes, k: nat)
    ensures DecodeConst(u, EncodeConst(u, CChar(ch)) + rest, k) == Expected(CChar(ch), 0, k, rest)
  {
    assert EncodeConst(u, CChar(ch)) + rest == [7] + (Count(ch as int) + rest);
    TakeOne(7, Count(ch as int) + rest);
    CountBack(ch as int, rest);
  }

  lemma {:induction false} SmallBack(u: Utf8, c: Const, rest: Bytes, k: nat)
    requires c.CBool? || c.CUnspecified?
    ensures DecodeConst(u, EncodeConst(u, c) + rest, k) == Expected(c, 0, k, rest)
  {
    if c.CBool? {
      assert EncodeConst(u, c) + rest == [1] + ([Flag(c.b)] + rest);
      TakeOne(1, [Flag(c.b)] + rest);
      TakeOne(Flag(c.b), rest);
    } else {
      TakeOne(5, rest);
    }
  }

  lemma {:induction false} ItemsBack(u: Utf8, c: Const, rest: Bytes, k: nat)
    requires Faithful(u) && Sized(u, c) && (c.CList? || c.CVector?)
    ensures DecodeConst(u, EncodeConst(u, c) + rest, k) == Expected(c, Depth(c), k, rest)
    decreases c, 0
  {
    hide DecodeConsts, EncodeConsts;
    var tag: byte := if c.CList? then 4 else 8;
    var more := Count(|c.items|) + (EncodeConsts(u, c.items) + rest);
    assert EncodeConst(u, c) + rest == [tag] + more;
    TakeOne(tag, more);
    CountBack(|c.items|, EncodeConsts(u, c.items) + rest);
    ConstsBack(u, c.items, rest, k + 1);
  }

  lemma {:induction false} ConstsBack(u: Utf8, cs: seq<Const>, rest: Bytes, k: nat)
    requires Faithful(u) && forall i :: 0 <= i < |cs| ==> Sized(u, cs[i])
    ensures DecodeConsts(u, EncodeConsts(u, cs) + rest, k, |cs|)
         == if cs == [] then Ok(([], rest)) else Expected(cs, Deepest(cs), k, rest)
    decreases cs, 0
  {
    hide DecodeConst, EncodeConst;
    if cs == [] {
      assert [] + rest == rest;
    } else {
      var more := EncodeConsts(u, cs[1..]) + rest;
      assert EncodeConsts(u, cs) + rest == EncodeConst(u, cs[0]) + more;
      ConstBack(u, cs[0], more, k);
      ConstsBack(u, cs[1..], rest, k);
      assert [cs[0]] + cs[1..] == cs;
    }
  }

  lemma {:induction false} PairBack(u: Utf8, c: Const, rest: Bytes, k: nat)
    requires Faithful(u) && Sized(u, c) && c.CPair?
    ensures DecodeConst(u, EncodeConst(u, c) + rest, k) == Expected(c, Depth(c), k, rest)
    decreases c, 0
  {
    hide DecodeSpine;
    var more := EncodeConst(u, c.cdr) + rest;
    assert EncodeConst(u, c) + rest == [9] + (EncodeConst(u, c.car) + more);
    TakeOne(9, EncodeConst(u, c.car) + more);
    ConstBack(u, c.car, more, k + 1);
    SpineBack(u, c.cdr, rest, k);
  }

  /** Along the chain of a pair met at depth `k`. */
  lemma {:induction false} SpineBack(u: Utf8, c: Const, rest: Bytes, k: nat)
    requires Faithful(u) && Sized(u, c)
    ensures DecodeSpine(u, EncodeConst(u, c) + rest, k) == Expected(c, SpineDepth(c), k + 1, rest)
    decreases c, 2
  {
    if c.CPair? {
      var more := EncodeConst(u, c.cdr) + rest;
      assert EncodeConst(u, c) + rest == [9] + (EncodeConst(u, c.car) + more);
      TakeOne(9, EncodeConst(u, c.car) + more);
      ConstBack(u, c.car, more, k + 1);
      SpineBack(u, c.cdr, rest, k);
    } else {
      SpineEnds(u, c, rest, k);
      ConstBack(u, c, rest, k + 1);
    }
  }

  lemma {:induction false} SpineEnds(u: Utf8, c: Const, rest: Bytes, k: nat)
    requires !c.CPair?
    ensures DecodeSpine(u, EncodeConst(u, c) + rest, k) == DecodeConst(u, EncodeConst(u, c) + rest, k + 1)
  {
    hide DecodeBody;
    var b := EncodeConst(u, c) + rest;
    assert b == [b[0]] + b[1..] && b[0] != 9;
    TakeOne(b[0], b[1..]);
  }

  /**
   Whatever bytes follow, decoding an encoded constant gives the constant and exactly
   those bytes, if and only if its depth stays within the limit.
   */
  lemma {:induction false} ConstBack(u: Utf8, c: Const, rest: Bytes, k: nat)
    requires Faithful(u) && Sized(u, c)
    ensures DecodeConst(u, EncodeConst(u, c) + rest, k) == Expected(c, Depth(c), k, rest)
    decreases c, 1
  {
    match c
    case CInt(_) | CFloat(_) => IntBack(u, c, rest, k);
    case CStr(_) | CSymbol(_) => TextConstBack(u, c, rest, k);
    case CChar(ch) => CharConstBack(u, ch, rest, k);
    case CBool(_) | CUnspecified => SmallBack(u, c, rest, k);
    case CList(_) | CVector(_) => ItemsBack(u, c, rest, k);
    case CPair(_, _) => PairBack(u, c, rest, k);
  }

  // ----- modules -----

  lemma {:induction false} NameBack(u: Utf8, name: Option<string>, rest: Bytes)
    requires Faithful(u) && (name.Some? ==> SizedText(u, name.value))
    ensures DecodeName(u, EncodeName(u, name) + rest) == Ok((name, rest))
  {
    hide TakeText;
    if name.Some? {
      assert EncodeName(u, name) + rest == [1] + (TextBytes(u, name.value) + rest);
      TakeOne(1, TextBytes(u, name.value) + rest);
      TextBack(u, name.value, rest);
    } else {
      TakeOne(0, rest);
    }
  }

  lemma {:induction false} Regroup(a: Bytes, b: Bytes, c: Bytes, d: Bytes, e: Bytes, f: Bytes, g: Bytes, rest: Bytes)
    ensures a + b + c + (d + e) + (f + g) + rest == a + (b + (c + (d + (e + (f + (g + rest))))))
  {
  }

  /** One function: everything but an over-deep constant comes back. */
  lemma {:induction false} ChunkBack(u: Utf8, c: Chunk, rest: Bytes)
    requires Faithful(u) && SizedChunk(u, c)
    ensures DecodeChunk(u, EncodeChunk(u, c) + rest) == Expected(c, Deepest(c.consts), 0, rest)
  {
    hide DecodeConsts, EncodeConsts, DecodeName, EncodeName, TakeNumber, Take, Count, Sized;
    var consts := EncodeConsts(u, c.consts);
    var name := EncodeName(u, c.name);
    Regroup(Count(c.arity), [Flag(c.hasRest)], name, Count(|c.code|), c.code, Count(|c.consts|), consts, rest);
    var r6 := Count(|c.consts|) + (consts + rest);
    var r4 := Count(|c.code|) + (c.code + r6);
    CountBack(c.arity, [Flag(c.hasRest)] + (name + r4));
    TakeOne(Flag(c.hasRest), name + r4);
    NameBack(u, c.name, r4);
    CountBack(|c.code|, c.code + r6);
    TakeFirst(c.code, r6);
    CountBack(|c.consts|, consts + rest);
    ConstsBack(u, c.consts, rest, 0);
  }

  function DeepestChunk(cs: seq<Chunk>): nat {
    if cs == [] then 0 else Deeper(Deepest(cs[0].consts), DeepestChunk(cs[1..]))
  }

  lemma {:induction false} ChunksBack(u: Utf8, cs: seq<Chunk>, rest: Bytes)
    requires Faithful(u) && forall i :: 0 <= i < |cs| ==> SizedChunk(u, cs[i])
    ensures DecodeChunks(u, EncodeChunks(u, cs) + rest, |cs|) == Expected(cs, DeepestChunk(cs), 0, rest)
  {
    hide DecodeChunk, EncodeChunk, SizedChunk;
    if cs == [] {
      assert [] + rest == rest;
    } else {
      var more := EncodeChunks(u, cs[1..]) + rest;
      assert EncodeChunks(u, cs) + rest == EncodeChunk(u, cs[0]) + more;
      ChunkBack(u, cs[0], more);
      ChunksBack(u, cs[1..], rest);
      assert [cs[0]] + cs[1..] == cs;
    }
  }

  lemma {:induction false} HeaderBack(entry: u32, count: nat, rest: Bytes)
    requires count < U32_LIMIT
    ensures DecodeHeader(MAGIC + ([VERSION_MAJOR]
      + ([VERSION_MINOR] + (LE.Le(2, 0) + (Count(entry) + (Count(count) + rest))))))
         == Ok((entry, count, rest))
  {
    hide TakeNumber, Take, TakeByte;
    var r4 := Count(entry) + (Count(count) + rest);
    var r3 := LE.Le(2, 0) + r4;
    TakeFirst(MAGIC, [VERSION_MAJOR] + ([VERSION_MINOR] + r3));
    TakeOne(VERSION_MAJOR, [VERSION_MINOR] + r3);
    TakeOne(VERSION_MINOR, r3);
    LE.PowerFacts();
    NumberBack(2, 0, r4);
    CountBack(entry, Count(count) + rest);
    CountBack(count, rest);
  }

  /**
   The container round trip: a module that fits its length fields comes back exactly if
   its entry exists and no constant is nested too deeply, and is refused otherwise;
   bytes behind it make no difference.
   */
  lemma {:induction false} ModuleBack(u: Utf8, m: Module, rest: Bytes)
    requires Faithful(u) && SizedModule(u, m)
    ensures Decode(u, Encode(u, m) + rest)
         == if DeepestChunk(m.fns) > 512 then Err(Truncated)
            else if m.entry >= |m.fns| then Err(OutOfRange(m.entry))
            else Ok(m)
  {
    hide DecodeHeader, DecodeChunks, EncodeChunks, Count, SizedChunk;
    var fns := EncodeChunks(u, m.fns);
    EncodeShape(u, m, rest);
    HeaderBack(m.entry, |m.fns|, fns + rest);
    ChunksBack(u, m.fns, rest);
  }

  lemma {:induction false} EncodeShape(u: Utf8, m: Module, rest: Bytes)
    ensures Encode(u, m) + rest
         == MAGIC + ([VERSION_MAJOR] + ([VERSION_MINOR]
           + (LE.Le(2, 0) + (Count(m.entry) + (Count(|m.fns|) + (EncodeChunks(u, m.fns) + rest))))))
  {
    hide Count, EncodeChunks;
    assert [VERSION_MAJOR, VERSION_MINOR] == [VERSION_MAJOR] + [VERSION_MINOR];
  }
}
