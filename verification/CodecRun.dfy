/** The codec as it runs: an encoder that appends and a reader that moves a cursor. */
module CodecRun {
  import opened Prelude
  import opened Data
  import opened Compile
  import opened Codec

  class Encoder {
    const u: Utf8
    var out: Bytes

    constructor (u: Utf8)
      ensures this.u == u && out == []
    {
      this.u, out := u, [];
    }

    method PutText(s: string)
      modifies this
      ensures out == old(out) + TextBytes(u, s)
    {
      var raw := u.encode(s);
      out := out + Count(|raw|);
      out := out + raw;
    }

    /** Appends a constant; the links of a chain of pairs are walked, not recursed into. */
    method PutConst(c: Const)
      modifies this
      ensures out == old(out) + EncodeConst(u, c)
      decreases c, 1
    {
      hide TextBytes, Count, EncodeConsts, LE.Le;
      match c
      case CInt(n) => out := out + ([0] + LE.Le(8, n % TWO64));
      case CFloat(bits) => out := out + ([6] + LE.Le(8, bits % TWO64));
      case CBool(b) => out := out + [1, Flag(b)];
      case CStr(s) =>
        out := out + [2];
        PutText(s);
      case CSymbol(s) =>
        out := out + [3];
        PutText(s);
      case CList(items) =>
        out := out + [4] + Count(|items|);
        PutConsts(items);
      case CUnspecified => out := out + [5];
      case CChar(ch) => out := out + ([7] + Count(ch as int));
      case CVector(items) =>
        out := out + [8] + Count(|items|);
        PutConsts(items);
      case CPair(_, _) => PutChain(c);
    }

    method PutChain(c: Const)
      requires c.CPair?
      modifies this
      ensures out == old(out) + EncodeConst(u, c)
      decreases c, 0
    {
      hide EncodeConst;
      ghost var start, total := out, out + EncodeConst(u, c);
      ChainBytes(u, start, c);
      out := out + [9];
      PutConst(c.car);
      var tail := c.cdr;
      while tail.CPair?
        invariant tail < c && out + EncodeConst(u, tail) == total
        decreases tail
      {
        ChainBytes(u, out, tail);
        out := out + [9];
        PutConst(tail.car);
        tail := tail.cdr;
      }
      PutConst(tail);
    }

    method PutConsts(cs: seq<Const>)
      modifies this
      ensures out == old(out) + EncodeConsts(u, cs)
      decreases cs, 2
    {
      ghost var total := out + EncodeConsts(u, cs);
      for i := 0 to |cs|
        invariant out + EncodeConsts(u, cs[i..]) == total
      {
        assert cs[i..][1..] == cs[i + 1..];
        PutConst(cs[i]);
      }
      assert cs[|cs|..] == [];
    }

    method PutName(name: Option<string>)
      modifies this
      ensures out == old(out) + EncodeName(u, name)
    {
      hide TextBytes;
      if name.Some? {
        out := out + [1];
        PutText(name.value);
      } else {
        out := out + [0];
      }
    }

    method PutChunk(c: Chunk)
      modifies this
      ensures out == old(out) + EncodeChunk(u, c)
    {
      hide EncodeName, EncodeConsts, Count;
      ghost var start := out;
      ChunkBytes(u, start, c);
      out := out + Count(c.arity) + [Flag(c.hasRest)];
      PutName(c.name);
      out := out + Count(|c.code|) + c.code;
      out := out + Count(|c.consts|);
      PutConsts(c.consts);
    }

    method PutModule(m: Module)
      requires out == []
      modifies this
      ensures out == Encode(u, m)
    {
      hide EncodeChunk;
      out := MAGIC + [VERSION_MAJOR, VERSION_MINOR] + LE.Le(2, 0) + Count(m.entry) + Count(|m.fns|);
      ghost var total := out + EncodeChunks(u, m.fns);
      for i := 0 to |m.fns|
        invariant out + EncodeChunks(u, m.fns[i..]) == total
      {
        assert m.fns[i..][1..] == m.fns[i + 1..];
        PutChunk(m.fns[i]);
      }
      assert m.fns[|m.fns|..] == [];
    }
  }

  lemma {:induction false} ChainBytes(u: Utf8, out: Bytes, c: Const)
    requires c.CPair?
    ensures out + EncodeConst(u, c) == out + [9] + EncodeConst(u, c.car) + EncodeConst(u, c.cdr)
  {
  }

  lemma {:induction false} ChunkBytes(u: Utf8, out: Bytes, c: Chunk)
    ensures out + EncodeChunk(u, c)
         == out + Count(c.arity) + [Flag(c.hasRest)] + EncodeName(u, c.name) + Count(|c.code|) + c.code
            + Count(|c.consts|) + EncodeConsts(u, c.consts)
  {
    hide EncodeName, EncodeConsts, Count;
  }

  /** A chain of pairs put together from its cars and its end. */
  function FoldCars(cars: seq<Const>, tail: Const): Const {
    if cars == [] then tail else CPair(cars[0], FoldCars(cars[1..], tail))
  }

  lemma {:induction false} FoldLast(cars: seq<Const>, car: Const, tail: Const)
    ensures FoldCars(cars + [car], tail) == FoldCars(cars, CPair(car, tail))
  {
    if cars == [] {
      assert FoldCars([car], tail) == CPair(car, FoldCars([car][1..], tail));
    } else {
      assert (cars + [car])[1..] == cars[1..] + [car];
      FoldLast(cars[1..], car, tail);
    }
  }

  /** What a chain read so far makes of the rest of it. */
  ghost function AfterCars(cars: seq<Const>, r: Decoded<Const>): Decoded<Const> {
    if r.Ok? then Ok((FoldCars(cars, r.value.0), r.value.1)) else r
  }

  ghost function AfterItems<T>(items: seq<T>, r: Decoded<seq<T>>): Decoded<seq<T>> {
    if r.Ok? then Ok((items + r.value.0, r.value.1)) else r
  }

  lemma {:induction false} AfterItem<T>(items: seq<T>, x: T, r: Decoded<seq<T>>)
    ensures AfterItems(items, if r.Ok? then Ok(([x] + r.value.0, r.value.1)) else r) == AfterItems(items + [x], r)
  {
    if r.Ok? {
      assert items + ([x] + r.value.0) == items + [x] + r.value.0;
    }
  }

  class ByteReader {
    const u: Utf8
    const bytes: Bytes
    var pos: nat

    constructor (u: Utf8, bytes: Bytes)
      ensures this.u == u && this.bytes == bytes && pos == 0
    {
      this.u, this.bytes, pos := u, bytes, 0;
    }

    ghost predicate Valid()
      reads this
    {
      pos <= |bytes|
    }

    ghost function Rest(): Bytes
      reads this
      requires Valid()
    {
      bytes[pos..]
    }

    /** `r` is what was decoded from `b`, and the cursor stands where `d` says. */
    ghost predicate Agrees<T>(r: Result<T, BytecodeError>, d: Decoded<T>)
      reads this
    {
      Valid() && if d.Ok? then r == Ok(d.value.0) && Rest() == d.value.1 else r == Err(d.error)
    }

    method TakeBytes(n: nat) returns (r: Result<Bytes, BytecodeError>)
      requires Valid()
      modifies this
      ensures Agrees(r, Take(old(Rest()), n))
    {
      var end := pos + n;
      if end <= |bytes| {
        r := Ok(bytes[pos..end]);
        assert bytes[pos..][..n] == bytes[pos..end] && bytes[pos..][n..] == bytes[end..];
        pos := end;
      } else {
        r := Err(Truncated);
      }
    }

    method U8() returns (r: Result<byte, BytecodeError>)
      requires Valid()
      modifies this
      ensures Agrees(r, TakeByte(old(Rest())))
    {
      var b := TakeBytes(1);
      r := if b.Ok? then Ok(b.value[0]) else Err(b.error);
    }

    method Number(k: nat) returns (r: Result<nat, BytecodeError>)
      requires Valid() && k > 0
      modifies this
      ensures Agrees(r, TakeNumber(old(Rest()), k))
    {
      var b := TakeBytes(k);
      r := if b.Ok? then Ok(LE.FromLe(b.value)) else Err(b.error);
    }

    method Text() returns (r: Result<string, BytecodeError>)
      requires Valid()
      modifies this
      ensures Agrees(r, TakeText(u, old(Rest())))
    {
      hide TakeNumber, Take;
      var n := Number(4);
      if n.Err? {
        return Err(n.error);
      }
      var raw := TakeBytes(n.value);
      if raw.Err? {
        return Err(raw.error);
      }
      var s := u.decode(raw.value);
      r := if s.Some? then Ok(s.value) else Err(Truncated);
    }

    method GetConst(depth: nat) returns (r: Result<Const, BytecodeError>)
      requires Valid()
      modifies this
      ensures Agrees(r, DecodeConst(u, old(Rest()), depth))
      decreases |Rest()|, 0, 2
    {
      hide TakeByte, DecodeBody;
      var tag := U8();
      if tag.Err? {
        return Err(tag.error);
      }
      r := GetBody(depth, tag.value);
    }

    method GetBody(depth: nat, tag: byte) returns (r: Result<Const, BytecodeError>)
      requires Valid()
      modifies this
      ensures Agrees(r, DecodeBody(u, old(Rest()), depth, tag))
      decreases |Rest()|, 0, 4
    {
      hide TakeByte, TakeNumber, TakeText, DecodeConsts, DecodeConst, DecodeSpine;
      if depth > MAX_CONST_NESTING_DEPTH {
        return Err(Truncated);
      }
      match tag
      case 0 =>
        var n := Number(8);
        r := if n.Ok? then Ok(CInt(Signed(n.value))) else Err(n.error);
      case 1 =>
        var x := U8();
        r := if x.Ok? then Ok(CBool(x.value != 0)) else Err(x.error);
      case 2 =>
        var s := Text();
        r := if s.Ok? then Ok(CStr(s.value)) else Err(s.error);
      case 3 =>
        var s := Text();
        r := if s.Ok? then Ok(CSymbol(s.value)) else Err(s.error);
      case 4 =>
        var items := GetItems(depth);
        r := if items.Ok? then Ok(CList(items.value)) else Err(items.error);
      case 5 => r := Ok(CUnspecified);
      case 6 =>
        var n := Number(8);
        r := if n.Ok? then Ok(CFloat(n.value)) else Err(n.error);
      case 7 =>
        var n := Number(4);
        if n.Err? {
          return Err(n.error);
        }
        var ch := CharFromU32(n.value);
        r := if ch.Some? then Ok(CChar(ch.value)) else Err(Truncated);
      case 8 =>
        var items := GetItems(depth);
        r := if items.Ok? then Ok(CVector(items.value)) else Err(items.error);
      case 9 => r := GetChain(depth);
      case _ => r := Err(Truncated);
    }

    /** A count and that many constants, one level down. */
    method GetItems(depth: nat) returns (r: Result<seq<Const>, BytecodeError>)
      requires Valid()
      modifies this
      ensures var n := TakeNumber(old(Rest()), 4);
        if n.Err? then Valid() && r == Err(n.error) else Agrees(r, DecodeConsts(u, n.value.1, depth + 1, n.value.0))
      decreases |Rest()|, 0, 3
    {
      hide TakeNumber;
      var n := Number(4);
      if n.Err? {
        return Err(n.error);
      }
      r := GetConsts(depth + 1, n.value);
    }

    /** Grows the list only as constants are actually read. */
    method GetConsts(depth: nat, n: nat) returns (r: Result<seq<Const>, BytecodeError>)
      requires Valid()
      modifies this
      ensures Agrees(r, DecodeConsts(u, old(Rest()), depth, n))
      decreases |Rest()|, 0, 3
    {
      hide DecodeConst;
      ghost var start := Rest();
      var items := [];
      AfterNothing(DecodeConsts(u, start, depth, n));
      for i := 0 to n
        invariant Valid() && |Rest()| <= |start|
        invariant DecodeConsts(u, start, depth, n) == AfterItems(items, DecodeConsts(u, Rest(), depth, n - i))
      {
        var c := GetConst(depth);
        if c.Err? {
          return Err(c.error);
        }
        AfterItem(items, c.value, DecodeConsts(u, Rest(), depth, n - i - 1));
        items := items + [c.value];
      }
      assert items + [] == items;
      r := Ok(items);
    }

    /** A pair and the chain that continues it, read in a loop. */
    method GetChain(depth: nat) returns (r: Result<Const, BytecodeError>)
      requires Valid() && depth <= MAX_CONST_NESTING_DEPTH
      modifies this
      ensures Agrees(r, DecodeBody(u, old(Rest()), depth, 9))
      decreases |Rest()|, 0, 3
    {
      hide DecodeConst, TakeByte;
      ghost var start := Rest();
      var first := GetConst(depth + 1);
      if first.Err? {
        return Err(first.error);
      }
      var cars := [first.value];
      FoldLast([], first.value, first.value);
      assert DecodeBody(u, start, depth, 9) == AfterCars(cars, DecodeSpine(u, Rest(), depth)) by {
        OneCar(first.value, DecodeSpine(u, Rest(), depth));
      }
      while true
        invariant Valid() && |Rest()| < |start|
        invariant DecodeBody(u, start, depth, 9) == AfterCars(cars, DecodeSpine(u, Rest(), depth))
        decreases |Rest()|
      {
        var tag := U8();
        if tag.Err? {
          return Err(tag.error);
        }
        if tag.value != 9 {
          var tail := GetBody(depth + 1, tag.value);
          return if tail.Ok? then Ok(FoldAll(cars, tail.value)) else tail;
        }
        var car := GetConst(depth + 1);
        if car.Err? {
          return Err(car.error);
        }
        MoreCars(cars, car.value, DecodeSpine(u, Rest(), depth));
        cars := cars + [car.value];
      }
    }
  }

  /** Reads a whole container. */
  method DecodeModule(u: Utf8, bytes: Bytes) returns (r: Result<Module, BytecodeError>)
    ensures r == Decode(u, bytes)
  {
    hide DecodeHeader, DecodeChunk;
    var reader := new ByteReader(u, bytes);
    assert reader.Rest() == bytes;
    var h := GetHeader(reader);
    if h.Err? {
      return Err(h.error);
    }
    var (entry, count) := h.value;
    ghost var start := reader.Rest();
    var fns := [];
    AfterNothing(DecodeChunks(u, start, count));
    for i := 0 to count
      invariant reader.Valid() && DecodeChunks(u, start, count)
        == AfterItems(fns, DecodeChunks(u, reader.Rest(), count - i))
    {
      var c := GetChunk(reader);
      if c.Err? {
        return Err(c.error);
      }
      AfterItem(fns, c.value, DecodeChunks(u, reader.Rest(), count - i - 1));
      fns := fns + [c.value];
    }
    assert fns + [] == fns;
    r := if entry >= |fns| then Err(OutOfRange(entry)) else Ok(Module(entry, fns));
  }

  method GetPreamble(reader: ByteReader) returns (e: Option<BytecodeError>)
    requires reader.Valid()
    modifies reader
    ensures reader.Valid()
    ensures var d := DecodePreamble(old(reader.Rest()));
      if d.Ok? then e == None && reader.Rest() == d.value else e == Some(d.error)
  {
    hide Take, TakeByte, TakeNumber;
    var magic := reader.TakeBytes(4);
    if magic.Err? {
      return Some(magic.error);
    }
    if magic.value != MAGIC {
      return Some(BadMagic);
    }
    var major := reader.U8();
    if major.Err? {
      return Some(major.error);
    }
    var minor := reader.U8();
    if minor.Err? {
      return Some(minor.error);
    }
    if major.value != VERSION_MAJOR || minor.value != VERSION_MINOR {
      return Some(UnsupportedVersion(major.value, minor.value));
    }
    var flags := reader.Number(2);
    if flags.Err? {
      return Some(flags.error);
    }
    e := if flags.value != 0 then Some(UnsupportedFlags(flags.value)) else None;
  }

  method GetHeader(reader: ByteReader) returns (r: Result<(u32, nat), BytecodeError>)
    requires reader.Valid()
    modifies reader
    ensures reader.Valid()
    ensures var d := DecodeHeader(old(reader.Rest()));
      if d.Ok? then r == Ok((d.value.0, d.value.1)) && reader.Rest() == d.value.2 else r == Err(d.error)
  {
    hide TakeNumber, DecodePreamble;
    var e := GetPreamble(reader);
    if e.Some? {
      return Err(e.value);
    }
    var entry := reader.Number(4);
    if entry.Err? {
      return Err(entry.error);
    }
    LE.PowerFacts();
    var count := reader.Number(4);
    r := if count.Ok? then Ok((entry.value, count.value)) else Err(count.error);
  }

  method GetChunk(reader: ByteReader) returns (r: Result<Chunk, BytecodeError>)
    requires reader.Valid()
    modifies reader
    ensures reader.Agrees(r, DecodeChunk(reader.u, old(reader.Rest())))
  {
    hide Take, TakeByte, TakeNumber, DecodeName, DecodeConsts;
    var arity := reader.Number(4);
    if arity.Err? {
      return Err(arity.error);
    }
    var hasRest := reader.U8();
    if hasRest.Err? {
      return Err(hasRest.error);
    }
    var name := GetName(reader);
    if name.Err? {
      return Err(name.error);
    }
    var codeLen := reader.Number(4);
    if codeLen.Err? {
      return Err(codeLen.error);
    }
    var code := reader.TakeBytes(codeLen.value);
    if code.Err? {
      return Err(code.error);
    }
    var constCount := reader.Number(4);
    if constCount.Err? {
      return Err(constCount.error);
    }
    var consts := reader.GetConsts(0, constCount.value);
    r := if consts.Ok? then Ok(Chunk(code.value, consts.value, arity.value, hasRest.value != 0, name.value))
         else Err(consts.error);
  }

  method GetName(reader: ByteReader) returns (r: Result<Option<string>, BytecodeError>)
    requires reader.Valid()
    modifies reader
    ensures reader.Agrees(r, DecodeName(reader.u, old(reader.Rest())))
  {
    hide TakeByte, TakeText;
    var flag := reader.U8();
    if flag.Err? {
      return Err(flag.error);
    }
    if flag.value == 0 {
      return Ok(None);
    }
    var s := reader.Text();
    r := if s.Ok? then Ok(Some(s.value)) else Err(s.error);
  }

  lemma {:induction false} AfterNothing<T>(r: Decoded<seq<T>>)
    ensures AfterItems([], r) == r
  {
    if r.Ok? {
      assert [] + r.value.0 == r.value.0;
    }
  }

  lemma {:induction false} OneCar(car: Const, r: Decoded<Const>)
    ensures AfterCars([car], r) == if r.Ok? then Ok((CPair(car, r.value.0), r.value.1)) else r
  {
    if r.Ok? {
      assert FoldCars([car], r.value.0) == CPair(car, FoldCars([car][1..], r.value.0));
    }
  }

  lemma {:induction false} MoreCars(cars: seq<Const>, car: Const, r: Decoded<Const>)
    ensures AfterCars(cars, if r.Ok? then Ok((CPair(car, r.value.0), r.value.1)) else r) == AfterCars(cars + [car], r)
  {
    if r.Ok? {
      FoldLast(cars, car, r.value.0);
    }
  }

  /** The cars from last to first, each in front of what is built. */
  function FoldAll(cars: seq<Const>, tail: Const): (r: Const)
    ensures r == FoldCars(cars, tail)
    decreases |cars|
  {
    if cars == [] then tail
    else
      var n := |cars| - 1;
      FoldLast(cars[..n], cars[n], tail);
      assert cars == cars[..n] + [cars[n]];
      FoldAll(cars[..n], CPair(cars[n], tail))
  }
}
