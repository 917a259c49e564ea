/** The bytecode container: what is written, what is accepted, and that they agree. */
module Codec {
  import opened Prelude
  import opened Data
  import opened Compile
  import LE = LittleEndian

  const MAGIC: seq<byte> := [77, 76, 66, 67]
  const VERSION_MAJOR: byte := 1
  const VERSION_MINOR: byte := 2
  const MAX_CONST_NESTING_DEPTH: nat := 512

  type Bytes = seq<byte>

  datatype BytecodeError =
    | BadMagic
    | UnsupportedVersion(major: byte, minor: byte)
    | UnsupportedFlags(flags: nat)
    | Truncated
    | OutOfRange(entry: nat)

  /** The text encoding, which this model leaves open but for its round trip. */
  datatype Utf8 = Utf8(encode: string -> Bytes, decode: Bytes -> Option<string>)

  ghost predicate Faithful(u: Utf8) {
    forall s :: u.decode(u.encode(s)) == Some(s)
  }

  // ----- writing -----

  function Flag(b: bool): byte {
    if b then 1 else 0
  }

  function Count(n: nat): Bytes {
    LE.Le(4, AsU32(n))
  }

  function TextBytes(u: Utf8, s: string): Bytes {
    Count(|u.encode(s)|) + u.encode(s)
  }

  function EncodeConst(u: Utf8, c: Const): Bytes
    decreases c, 0
  {
    match c
    case CInt(n) => [0] + LE.Le(8, n % TWO64)
    case CFloat(bits) => [6] + LE.Le(8, bits % TWO64)
    case CBool(b) => [1, Flag(b)]
    case CStr(s) => [2] + TextBytes(u, s)
    case CSymbol(s) => [3] + TextBytes(u, s)
    case CList(items) => [4] + Count(|items|) + EncodeConsts(u, items)
    case CUnspecified => [5]
    case CChar(ch) => [7] + Count(ch as int)
    case CVector(items) => [8] + Count(|items|) + EncodeConsts(u, items)
    case CPair(car, cdr) => [9] + EncodeConst(u, car) + EncodeConst(u, cdr)
  }

  function EncodeConsts(u: Utf8, cs: seq<Const>): Bytes
    decreases cs, 0
  {
    if cs == [] then [] else EncodeConst(u, cs[0]) + EncodeConsts(u, cs[1..])
  }

  function EncodeName(u: Utf8, name: Option<string>): Bytes {
    if name.Some? then [1] + TextBytes(u, name.value) else [0]
  }

  function EncodeChunk(u: Utf8, c: Chunk): Bytes {
    Count(c.arity) + [Flag(c.hasRest)] + EncodeName(u, c.name) + (Count(|c.code|) + c.code)
    + (Count(|c.consts|) + EncodeConsts(u, c.consts))
  }

  function EncodeChunks(u: Utf8, cs: seq<Chunk>): Bytes {
    if cs == [] then [] else EncodeChunk(u, cs[0]) + EncodeChunks(u, cs[1..])
  }

  function Encode(u: Utf8, m: Module): Bytes {
    MAGIC + [VERSION_MAJOR, VERSION_MINOR] + LE.Le(2, 0) + Count(m.entry) + Count(|m.fns|) + EncodeChunks(u, m.fns)
  }

  // ----- reading -----

  type Decoded<T> = Result<(T, Bytes), BytecodeError>

  function Take(b: Bytes, n: nat): (r: Decoded<Bytes>)
    ensures r.Ok? ==> |r.value.0| == n && b == r.value.0 + r.value.1 && |r.value.1| == |b| - n
  {
    if n <= |b| then Ok((b[..n], b[n..])) else Err(Truncated)
  }

  function TakeByte(b: Bytes): (r: Decoded<byte>)
    ensures r.Ok? ==> |r.value.1| < |b|
  {
    var (x, rest) :- Take(b, 1);
    Ok((x[0], rest))
  }

  function TakeNumber(b: Bytes, k: nat): (r: Decoded<nat>)
    requires k > 0
    ensures r.Ok? ==> |r.value.1| < |b| && r.value.0 < LE.Pow256(k)
  {
    var (x, rest) :- Take(b, k);
    LE.FromLeBound(x);
    Ok((LE.FromLe(x), rest))
  }

  function Signed(n: nat): int {
    if n >= TWO64 / 2 then n - TWO64 else n
  }

  function TakeText(u: Utf8, b: Bytes): (r: Decoded<string>)
    ensures r.Ok? ==> |r.value.1| < |b|
  {
    var (n, b1) :- TakeNumber(b, 4);
    var (raw, rest) :- Take(b1, n);
    var s := u.decode(raw);
    if s.Some? then Ok((s.value, rest)) else Err(Truncated)
  }

  function CharFromU32(n: nat): Option<char> {
    if n < 0xD800 || 0xE000 <= n < 0x11_0000 then Some(n as char) else None
  }

  function DecodeConst(u: Utf8, b: Bytes, depth: nat): (r: Decoded<Const>)
    ensures r.Ok? ==> |r.value.1| < |b|
    decreases |b|, 0, 2
  {
    var (tag, rest) :- TakeByte(b);
    DecodeBody(u, rest, depth, tag)
  }

  function DecodeBody(u: Utf8, b: Bytes, depth: nat, tag: byte): (r: Decoded<Const>)
    ensures r.Ok? ==> |r.value.1| <= |b|
    decreases |b|, 0, 3
  {
    if depth > MAX_CONST_NESTING_DEPTH then Err(Truncated)
    else
      match tag
      case 0 =>
        var (n, rest) :- TakeNumber(b, 8);
        Ok((CInt(Signed(n)), rest))
      case 1 =>
        var (x, rest) :- TakeByte(b);
        Ok((CBool(x != 0), rest))
      case 2 =>
        var (s, rest) :- TakeText(u, b);
        Ok((CStr(s), rest))
      case 3 =>
        var (s, rest) :- TakeText(u, b);
        Ok((CSymbol(s), rest))
      case 4 =>
        var (n, b1) :- TakeNumber(b, 4);
        var (items, rest) :- DecodeConsts(u, b1, depth + 1, n);
        Ok((CList(items), rest))
      case 5 => Ok((CUnspecified, b))
      case 6 =>
        var (n, rest) :- TakeNumber(b, 8);
        Ok((CFloat(n), rest))
      case 7 =>
        var (n, rest) :- TakeNumber(b, 4);
        var ch := CharFromU32(n);
        if ch.Some? then Ok((CChar(ch.value), rest)) else Err(Truncated)
      case 8 =>
        var (n, b1) :- TakeNumber(b, 4);
        var (items, rest) :- DecodeConsts(u, b1, depth + 1, n);
        Ok((CVector(items), rest))
      case 9 =>
        var (car, b1) :- DecodeConst(u, b, depth + 1);
        var (cdr, rest) :- DecodeSpine(u, b1, depth);
        Ok((CPair(car, cdr), rest))
      case _ => Err(Truncated)
  }

  function DecodeConsts(u: Utf8, b: Bytes, depth: nat, n: nat): (r: Decoded<seq<Const>>)
    ensures r.Ok? ==> |r.value.1| <= |b|
    decreases |b|, n, 3
  {
    if n == 0 then Ok(([], b))
    else
      var (c, b1) :- DecodeConst(u, b, depth);
      var (cs, rest) :- DecodeConsts(u, b1, depth, n - 1);
      Ok(([c] + cs, rest))
  }

  /** The rest of a chain of pairs: each link costs nothing, each car and the end one level. */
  function DecodeSpine(u: Utf8, b: Bytes, depth: nat): (r: Decoded<Const>)
    ensures r.Ok? ==> |r.value.1| < |b|
    decreases |b|, 0, 3
  {
    var (tag, b1) :- TakeByte(b);
    if tag == 9 then
      var (car, b2) :- DecodeConst(u, b1, depth + 1);
      var (cdr, rest) :- DecodeSpine(u, b2, depth);
      Ok((CPair(car, cdr), rest))
    else DecodeBody(u, b1, depth + 1, tag)
  }

  function DecodeName(u: Utf8, b: Bytes): Decoded<Option<string>> {
    var (flag, b1) :- TakeByte(b);
    if flag == 0 then Ok((None, b1))
    else
      var (s, rest) :- TakeText(u, b1);
      Ok((Some(s), rest))
  }

  function DecodeChunk(u: Utf8, b: Bytes): Decoded<Chunk> {
    var (arity, b1) :- TakeNumber(b, 4);
    var (hasRest, b2) :- TakeByte(b1);
    var (name, b3) :- DecodeName(u, b2);
    var (codeLen, b4) :- TakeNumber(b3, 4);
    var (code, b5) :- Take(b4, codeLen);
    var (constCount, b6) :- TakeNumber(b5, 4);
    var (consts, rest) :- DecodeConsts(u, b6, 0, constCount);
    Ok((Chunk(code, consts, arity, hasRest != 0, name), rest))
  }

  function DecodeChunks(u: Utf8, b: Bytes, n: nat): Decoded<seq<Chunk>>
    decreases n
  {
    if n == 0 then Ok(([], b))
    else
      var (c, b1) :- DecodeChunk(u, b);
      var (cs, rest) :- DecodeChunks(u, b1, n - 1);
      Ok(([c] + cs, rest))
  }

  /** Magic, version and flags. */
  function DecodePreamble(b: Bytes): Result<Bytes, BytecodeError> {
    var (magic, b1) :- Take(b, 4);
    if magic != MAGIC then Err(BadMagic)
    else
      var (major, b2) :- TakeByte(b1);
      var (minor, b3) :- TakeByte(b2);
      if major != VERSION_MAJOR || minor != VERSION_MINOR then Err(UnsupportedVersion(major, minor))
      else
        var (flags, b4) :- TakeNumber(b3, 2);
        if flags != 0 then Err(UnsupportedFlags(flags)) else Ok(b4)
  }

  function DecodeHeader(b: Bytes): Result<(u32, nat, Bytes), BytecodeError> {
    var b1 :- DecodePreamble(b);
    var (entry, b2) :- TakeNumber(b1, 4);
    LE.PowerFacts();
    var (count, rest) :- TakeNumber(b2, 4);
    Ok((entry, count, rest))
  }

  /** Bytes behind the last function are not looked at. */
  function Decode(u: Utf8, b: Bytes): Result<Module, BytecodeError> {
    var (entry, count, b1) :- DecodeHeader(b);
    var (fns, _) :- DecodeChunks(u, b1, count);
    if entry >= |fns| then Err(OutOfRange(entry)) else Ok(Module(entry, fns))
  }

  // ----- what can be written faithfully -----

  predicate SizedText(u: Utf8, s: string) {
    |u.encode(s)| < U32_LIMIT
  }

  /** Integers of 64 bits, float patterns of 64 bits, and lengths of 32 bits. */
  predicate Sized(u: Utf8, c: Const)
    decreases c
  {
    match c
    case CInt(n) => -TWO64 / 2 <= n < TWO64 / 2
    case CFloat(bits) => 0 <= bits < TWO64
    case CStr(s) => SizedText(u, s)
    case CSymbol(s) => SizedText(u, s)
    case CList(items) => |items| < U32_LIMIT && forall i :: 0 <= i < |items| ==> Sized(u, items[i])
    case CVector(items) => |items| < U32_LIMIT && forall i :: 0 <= i < |items| ==> Sized(u, items[i])
    case CPair(car, cdr) => Sized(u, car) && Sized(u, cdr)
    case _ => true
  }

  predicate SizedChunk(u: Utf8, c: Chunk) {
    c.arity < U32_LIMIT && |c.code| < U32_LIMIT && |c.consts| < U32_LIMIT
    && (c.name.Some? ==> SizedText(u, c.name.value)) && forall i :: 0 <= i < |c.consts| ==> Sized(u, c.consts[i])
  }

  predicate SizedModule(u: Utf8, m: Module) {
    |m.fns| < U32_LIMIT && forall i :: 0 <= i < |m.fns| ==> SizedChunk(u, m.fns[i])
  }

  function Deeper(a: nat, b: nat): nat {
    if a < b then b else a
  }

  /** Cars, elements and the end of a chain of pairs cost a level; the links of a chain do not. */
  function Depth(c: Const): nat
    decreases c, 0
  {
    match c
    case CList(items) => if items == [] then 0 else 1 + Deepest(items)
    case CVector(items) => if items == [] then 0 else 1 + Deepest(items)
    case CPair(car, cdr) => 1 + Deeper(Depth(car), SpineDepth(cdr))
    case _ => 0
  }

  function SpineDepth(c: Const): nat
    decreases c, 1
  {
    if c.CPair? then Deeper(Depth(c.car), SpineDepth(c.cdr)) else Depth(c)
  }

  function Deepest(cs: seq<Const>): nat
    decreases cs, 0
  {
    if cs == [] then 0 else Deeper(Depth(cs[0]), Deepest(cs[1..]))
  }
}
