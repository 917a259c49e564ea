/** The reader as it runs: a cursor over the text and a nesting counter. */
module Scanner {
  import opened Prelude
  import opened Reader

  datatype Unit = Unit

  class Scanner {
    const t: Lexicon
    const src: Text
    var pos: nat
    var depth: nat

    constructor (t: Lexicon, src: Text)
      ensures this.t == t && this.src == src && pos == 0 && depth == 0
    {
      this.t, this.src := t, src;
      pos, depth := 0, 0;
    }

    ghost predicate Valid()
      reads this
    {
      pos <= |src|
    }

    /** What has not been consumed. */
    ghost function Rest(): Text
      reads this
      requires Valid()
    {
      src[pos..]
    }

    predicate AtEnd()
      reads this
    {
      pos >= |src|
    }

    /** The next character but `k`. */
    function Peek(k: nat): Option<char>
      reads this
      requires Valid()
      ensures Peek(k) == if k < |Rest()| then Some(Rest()[k]) else None
    {
      if pos + k < |src| then Some(src[pos + k]) else None
    }

    method Advance(k: nat)
      requires Valid() && k <= |Rest()|
      modifies this`pos
      ensures Valid() && Rest() == old(Rest())[k..]
    {
      pos := pos + k;
    }

    /** Consumes the characters of one token. */
    method TakeToken() returns (text: Text)
      requires Valid()
      modifies this`pos
      ensures Valid() && var n := TokenLen(t, old(Rest())); text == old(Rest())[..n] && Rest() == old(Rest())[n..]
    {
      ghost var s := Rest();
      ghost var k := 0;
      text := [];
      while !AtEnd() && !IsDelimiter(t, src[pos])
        invariant Valid() && k <= |s| && Rest() == s[k..] && text == s[..k] && TokenLen(t, s) == k + TokenLen(t, s[k..])
        decreases |src| - pos
      {
        text := text + [src[pos]];
        pos := pos + 1;
        k := k + 1;
      }
    }

    method ReadAtomText() returns (r: Result<Sexpr, ReadError>)
      requires Valid()
      modifies this`pos
      ensures Valid()
      ensures match ReadAtom(t, old(Rest()))
        case Ok((x, rest)) => r == Ok(x) && Rest() == rest
        case Err(e) => r == Err(e)
    {
      ghost var s := Rest();
      var text := TakeToken();
      if text == [] {
        return Err(EmptyToken);
      }
      assert text + src[pos..] == s;
      if !t.markersInTokens && !Tame(text + src[pos..], |text|) {
        return Err(MarkerInToken);
      }
      r := AtomFromText(t, text);
    }

    /** Consumes a string literal behind its opening quote. */
    method ReadStringBody() returns (r: Result<string, ReadError>)
      requires Valid()
      modifies this`pos
      ensures Valid()
      ensures match ReadString(old(Rest()))
        case Ok((text, rest)) => r == Ok(text) && Rest() == rest
        case Err(e) => r == Err(e)
    {
      ghost var s := Rest();
      var text := [];
      PrependNone(ReadString(s));
      while true
        invariant Valid()
        invariant ReadString(s) == Prepend(text, ReadString(Rest()))
        decreases |src| - pos
      {
        if AtEnd() {
          return Err(UnterminatedString);
        }
        ghost var before := Rest();
        var c := src[pos];
        pos := pos + 1;
        assert Rest() == before[1..];
        if c == '"' {
          assert text + [] == text;
          return Ok(text);
        } else if c == '\n' {
          return Err(NewlineInString);
        } else if c == '\\' {
          if AtEnd() {
            return Err(UnterminatedString);
          }
          var u := Unescape(src[pos]);
          if u.Err? {
            return Err(u.error);
          }
          pos := pos + 1;
          assert Rest() == before[2..];
          PrependMore(text, u.value, ReadString(Rest()));
          text := text + [u.value];
        } else {
          PrependMore(text, c, ReadString(Rest()));
          text := text + [c];
        }
      }
    }

    /** Consumes a character literal behind `#\`. */
    method ReadCharacterBody() returns (r: Result<Sexpr, ReadError>)
      requires Valid()
      modifies this`pos
      ensures Valid()
      ensures match ReadCharacter(t, old(Rest()))
        case Ok((x, rest)) => r == Ok(x) && Rest() == rest
        case Err(e) => r == Err(e)
    {
      if AtEnd() {
        return Err(CharacterExpected);
      }
      ghost var s := Rest();
      var name := [src[pos]];
      pos := pos + 1;
      assert Rest() == s[1..];
      if t.alpha(name[0]) {
        var more := TakeToken();
        ghost var n := TokenLen(t, s[1..]);
        assert [s[0]] + s[1..][..n] == s[..1 + n] && s[1..][n..] == s[1 + n..];
        name := name + more;
      } else {
        assert name == s[..1];
      }
      if |name| == 1 {
        r := Ok(SChar(name[0]));
      } else if name == "space" {
        r := Ok(SChar(' '));
      } else if name == "newline" {
        r := Ok(SChar('\n'));
      } else if name == "tab" {
        r := Ok(SChar('\t'));
      } else {
        r := Err(UnknownCharacter);
      }
    }

    method SkipLineComment()
      requires Valid()
      modifies this`pos
      ensures Valid() && Rest() == SkipLine(old(Rest()))
    {
      ghost var s := Rest();
      var done := false;
      while !AtEnd() && !done
        invariant Valid() && SkipLine(s) == if done then Rest() else SkipLine(Rest())
        decreases |src| - pos
      {
        ghost var before := Rest();
        done := src[pos] == '\n';
        pos := pos + 1;
        assert Rest() == before[1..];
      }
    }

    /** Consumes a block comment behind its opening marker, counting the markers inside it. */
    method SkipBlockComment() returns (r: Result<Unit, ReadError>)
      requires Valid()
      modifies this`pos
      ensures Valid()
      ensures match SkipBlock(old(Rest()), 1)
        case Ok(rest) => r.Ok? && Rest() == rest
        case Err(e) => r == Err(e)
    {
      hide Suffix;
      ghost var s := Rest();
      var level := 1;
      while true
        invariant Valid() && level > 0 && SkipBlock(s, 1) == SkipBlock(Rest(), level)
        decreases |src| - pos
      {
        ghost var before := Rest();
        var c, next := Peek(0), Peek(1);
        assert "#|" <= before <==> c == Some('#') && next == Some('|') by {
          Marker(before, '#', '|');
        }
        assert "|#" <= before <==> c == Some('|') && next == Some('#') by {
          Marker(before, '|', '#');
        }
        if c.None? {
          return Err(UnterminatedComment);
        } else if c == Some('#') && next == Some('|') {
          Advance(2);
          level := level + 1;
        } else if c == Some('|') && next == Some('#') {
          Advance(2);
          if level == 1 {
            return Ok(Unit);
          }
          level := level - 1;
        } else {
          Advance(1);
        }
      }
    }

    /** Skips white space and comments; `#;` reads and drops a datum. */
    method SkipAtmosphere() returns (r: Result<Unit, ReadError>)
      requires Valid()
      modifies this
      ensures Valid() && depth == old(depth)
      ensures match Skip(t, old(Rest()), depth)
        case Ok(rest) => r.Ok? && Rest() == rest
        case Err(e) => r == Err(e)
      decreases |Rest()|, 1
    {
      hide Suffix, LeadOf, ReadForm, SkipBlock, SkipLine;
      ghost var s := Rest();
      while true
        invariant Valid() && depth == old(depth) && |Rest()| <= |s| && Skip(t, s, depth) == Skip(t, Rest(), depth)
        decreases |Rest()|
      {
        ghost var before := Rest();
        var c, next := Peek(0), Peek(1);
        Leads(t, before);
        if c.None? {
          return Ok(Unit);
        } else if t.white(c.value) {
          Advance(1);
        } else if c == Some(';') {
          Advance(1);
          SkipLineComment();
        } else if c == Some('#') && next == Some('|') {
          Advance(2);
          var b := SkipBlockComment();
          if b.Err? {
            return b;
          }
        } else if c == Some('#') && next == Some(';') {
          Advance(2);
          var x := Form();
          if x.Err? {
            return Err(x.error);
          }
          if x.value.None? {
            return Err(DatumExpected);
          }
        } else {
          return Ok(Unit);
        }
      }
    }

    /** Reads one datum, if any remains. */
    method Form() returns (r: Result<Option<Sexpr>, ReadError>)
      requires Valid()
      modifies this
      ensures Valid() && depth == old(depth)
      ensures match ReadForm(t, old(Rest()), depth)
        case Ok((x, rest)) => r == Ok(x) && Rest() == rest
        case Err(e) => r == Err(e)
      decreases |Rest()|, 2
    {
      hide Suffix, Skip, ReadBody;
      var a := SkipAtmosphere();
      if a.Err? {
        return Err(a.error);
      }
      if AtEnd() {
        assert Rest() == [];
        return Ok(None);
      }
      depth := depth + 1;
      if depth > MAX_NESTING_DEPTH {
        r := Err(TooDeep);
      } else {
        var b := Body();
        r := if b.Ok? then Ok(Some(b.value)) else Err(b.error);
      }
      depth := depth - 1;
    }

    method Body() returns (r: Result<Sexpr, ReadError>)
      requires Valid() && Rest() != []
      modifies this
      ensures Valid() && depth == old(depth)
      ensures match ReadBody(t, old(Rest()), depth)
        case Ok((x, rest)) => r == Ok(x) && Rest() == rest
        case Err(e) => r == Err(e)
      decreases |Rest()|, 0
    {
      hide Suffix, ReadList, ReadVector, ReadTagged, ReadCharacter, ReadAtom, ReadString;
      ghost var s := Rest();
      var c, next := src[pos], Peek(1);
      Marker(s, '#', '(');
      Marker(s, '#', '\\');
      Marker(s, ',', '@');
      match c
      case '(' =>
        Advance(1);
        r := ListBody();
      case ')' => r := Err(UnexpectedClose);
      case '"' =>
        Advance(1);
        var b := ReadStringBody();
        r := if b.Ok? then Ok(SStr(b.value)) else Err(b.error);
      case '#' =>
        if next == Some('(') {
          Advance(2);
          r := VectorBody();
        } else if next == Some('\\') {
          Advance(2);
          r := ReadCharacterBody();
        } else {
          r := ReadAtomText();
        }
      case '\'' =>
        Advance(1);
        r := Tagged("quote");
      case '`' =>
        Advance(1);
        r := Tagged("quasiquote");
      case ',' =>
        if next == Some('@') {
          Advance(2);
          r := Tagged("unquote-splicing");
        } else {
          Advance(1);
          r := Tagged("unquote");
        }
      case _ => r := ReadAtomText();
    }

    method Tagged(tag: string) returns (r: Result<Sexpr, ReadError>)
      requires Valid()
      modifies this
      ensures Valid() && depth == old(depth)
      ensures match ReadTagged(t, old(Rest()), depth, tag)
        case Ok((x, rest)) => r == Ok(x) && Rest() == rest
        case Err(e) => r == Err(e)
      decreases |Rest()|, 3
    {
      hide ReadForm;
      var x := Form();
      if x.Err? {
        r := Err(x.error);
      } else if x.value.None? {
        r := Err(DatumExpected);
      } else {
        r := Ok(SList([SSymbol(tag), x.value.value]));
      }
    }

    /** Collects the elements of a list up to its closing parenthesis. */
    method ListBody() returns (r: Result<Sexpr, ReadError>)
      requires Valid()
      modifies this
      ensures Valid() && depth == old(depth)
      ensures match ReadList(t, old(Rest()), depth, [])
        case Ok((x, rest)) => r == Ok(x) && Rest() == rest
        case Err(e) => r == Err(e)
      decreases |Rest()|, 3
    {
      hide Suffix, Skip, ReadForm, ReadTail;
      ghost var s := Rest();
      var items := [];
      while true
        invariant Valid() && depth == old(depth) && |Rest()| <= |s|
        invariant ReadList(t, s, depth, []) == ReadList(t, Rest(), depth, items)
        decreases |Rest()|
      {
        var a := SkipAtmosphere();
        if a.Err? {
          return Err(a.error);
        }
        var c, next := Peek(0), Peek(1);
        if c == Some(')') {
          Advance(1);
          return Ok(SList(items));
        }
        if c == Some('.') && (next.None? || IsDelimiter(t, next.value)) {
          Advance(1);
          r := TailBody(items);
          return;
        }
        var x := Form();
        if x.Err? {
          return Err(x.error);
        }
        if x.value.None? {
          return Err(UnterminatedList);
        }
        items := items + [x.value.value];
      }
    }

    /** The tail of a dotted list, behind its dot. */
    method TailBody(items: seq<Sexpr>) returns (r: Result<Sexpr, ReadError>)
      requires Valid()
      modifies this
      ensures Valid() && depth == old(depth)
      ensures match ReadTail(t, old(Rest()), depth, items)
        case Ok((x, rest)) => r == Ok(x) && Rest() == rest
        case Err(e) => r == Err(e)
      decreases |Rest()|, 3
    {
      hide Suffix, Skip, ReadForm;
      var a := SkipAtmosphere();
      if a.Err? {
        return Err(a.error);
      }
      var x := Form();
      if x.Err? {
        return Err(x.error);
      }
      if x.value.None? {
        return Err(DatumExpected);
      }
      a := SkipAtmosphere();
      if a.Err? {
        return Err(a.error);
      }
      if Peek(0) == Some(')') {
        Advance(1);
        r := Ok(SDotted(items, x.value.value));
      } else {
        r := Err(CloseExpected);
      }
    }

    /** Collects the elements of a vector up to its closing parenthesis. */
    method VectorBody() returns (r: Result<Sexpr, ReadError>)
      requires Valid()
      modifies this
      ensures Valid() && depth == old(depth)
      ensures match ReadVector(t, old(Rest()), depth, [])
        case Ok((x, rest)) => r == Ok(x) && Rest() == rest
        case Err(e) => r == Err(e)
      decreases |Rest()|, 3
    {
      hide Suffix, Skip, ReadForm;
      ghost var s := Rest();
      var items := [];
      while true
        invariant Valid() && depth == old(depth) && |Rest()| <= |s|
        invariant ReadVector(t, s, depth, []) == ReadVector(t, Rest(), depth, items)
        decreases |Rest()|
      {
        var a := SkipAtmosphere();
        if a.Err? {
          return Err(a.error);
        }
        if Peek(0) == Some(')') {
          Advance(1);
          return Ok(SVector(items));
        }
        var x := Form();
        if x.Err? {
          return Err(x.error);
        }
        if x.value.None? {
          return Err(UnterminatedVector);
        }
        items := items + [x.value.value];
      }
    }
  }

  /** Reads the first datum of a text. */
  method ReadOneText(t: Lexicon, src: Text) returns (r: Result<(Option<Sexpr>, Text), ReadError>)
    ensures r == ReadOne(t, src)
  {
    hide ReadForm;
    var scanner := new Scanner(t, src);
    assert scanner.Rest() == src;
    var x := scanner.Form();
    r := if x.Ok? then Ok((x.value, src[scanner.pos..])) else Err(x.error);
  }

  /** What a string read so far makes of the rest of the literal. */
  ghost function Prepend(text: string, r: Result<(string, Text), ReadError>): Result<(string, Text), ReadError> {
    if r.Ok? then Ok((text + r.value.0, r.value.1)) else r
  }

  lemma {:induction false} PrependNone(r: Result<(string, Text), ReadError>)
    ensures Prepend([], r) == r
  {
    if r.Ok? {
      assert [] + r.value.0 == r.value.0;
    }
  }

  lemma {:induction false} PrependMore(text: string, c: char, r: Result<(string, Text), ReadError>)
    ensures Prepend(text + [c], r) == Prepend(text, Prepend([c], r))
  {
    if r.Ok? {
      assert text + [c] + r.value.0 == text + ([c] + r.value.0);
    }
  }

  /** The cursor's two characters of lookahead tell what kind of atmosphere follows. */
  lemma {:induction false} Leads(t: Lexicon, s: Text)
    ensures LeadOf(t, s)
         == if s == [] then Other
            else if t.white(s[0]) then White
            else if s[0] == ';' then Line
            else if s[0] == '#' && |s| > 1 && s[1] == '|' then Block
            else if s[0] == '#' && |s| > 1 && s[1] == ';' then Hidden
            else Other
  {
    Marker(s, '#', '|');
    Marker(s, '#', ';');
  }

  lemma {:induction false} Marker(s: Text, a: char, b: char)
    ensures [a, b] <= s <==> |s| >= 2 && s[0] == a && s[1] == b
  {
    if |s| >= 2 {
      assert s[..2] == [s[0], s[1]];
    }
  }
}
