/** The other half: whatever the reader reads is a spelling of what it returns. */
module Grammar {
  import opened Prelude
  import opened Reader
  import opened BoundaryProof
  import opened Printer
  import opened RoundTrip
  import opened Spelling

  // ----- tokens -----

  lemma {:induction false} DigitFor(c: char) returns (g: Digit)
    requires DigitValue(c) < 16
    ensures DigitText(g) == c && g.d == DigitValue(c)
  {
    g := Digit(DigitValue(c), 'A' <= c <= 'Z');
  }

  lemma {:induction false} DigitsFor(text: string, base: nat, acc: nat) returns (ds: seq<Digit>)
    requires base <= 16 && ParseDigits(text, base, acc).Some?
    ensures DigitsText(ds) == text && |ds| == |text| && (forall i :: 0 <= i < |ds| ==> ds[i].d < base)
    ensures Value(ds, base, acc) == ParseDigits(text, base, acc).value
    decreases |text|
  {
    hide DigitText, DigitValue;
    ds := [];
    if text != [] {
      var g := DigitFor(text[0]);
      var more := DigitsFor(text[1..], base, acc * base + g.d);
      ds := [g] + more;
      assert ds[1..] == more;
    }
  }

  lemma {:induction false} NumberFor(prefix: Option<(nat, char)>, body: string) returns (sign: Sign, ds: seq<Digit>)
    requires WellPrefix(prefix) && ParseInt(body, BaseOf(prefix)).Some?
    ensures body == SignText(sign) + DigitsText(ds) && WellNumber(prefix, sign, ds)
    ensures Integer(prefix, sign, ds) == ParseInt(body, BaseOf(prefix)).value
  {
    hide ParseDigits, DigitsText, Value;
    var signed := body != [] && body[0] in "+-";
    var digits := if signed then body[1..] else body;
    sign := if !signed then NoSign else if body[0] == '-' then Minus else Plus;
    ds := DigitsFor(digits, BaseOf(prefix), 0);
    assert body == SignText(sign) + digits;
  }

  /** `#` alone stands before nothing that it could open. */
  ghost predicate HashStands(text: string, after: string) {
    text == "#" && after != [] ==> after[0] !in "(;"
  }

  /** A token that is read as an atom is the spelling of one. */
  lemma {:induction false} AtomFor(t: Lexicon, text: string, after: string) returns (x: Spelling)
    requires Sane(t) && Ordinary(t) && Token(t, text) && AtomFromText(t, text).Ok?
    requires Separated(t, after) && HashStands(text, after) && (text[0] == '#' && |text| > 1 ==> text[1] !in "|\\")
    ensures Spell(x) == text && Denoted(x) == AtomFromText(t, text).value && Well(t, x, after) && Atomic(x)
  {
    hide AtomFromText, Numeric, ParseInt, SpellNumber, Integer;
    AtomKinds(t, text);
    if text in ["true", "false", "#t", "#f"] {
      x := Truth(text == "true" || text == "#t", text == "true" || text == "false");
    } else if Radix(text) {
      x := RadixFor(t, text, after);
    } else if !Numeric(text) {
      x := Name(text);
    } else if '.' in text || 'e' in text || 'E' in text {
      x := Float(text, t.float(text).value);
    } else {
      var sign, ds := NumberFor(None, text);
      x := Number(None, sign, ds);
      assert SpellNumber(None, sign, ds) == text by { NoPrefix(sign, ds); }
    }
  }

  lemma {:induction false} NoPrefix(sign: Sign, ds: seq<Digit>)
    ensures SpellNumber(None, sign, ds) == SignText(sign) + DigitsText(ds)
  {
    hide DigitsText;
    assert "" + (SignText(sign) + DigitsText(ds)) == SignText(sign) + DigitsText(ds);
  }

  lemma {:induction false} RadixFor(t: Lexicon, text: string, after: string) returns (x: Spelling)
    requires Radix(text) && AtomFromText(t, text).Ok? && Separated(t, after)
    ensures Spell(x) == text && Denoted(x) == AtomFromText(t, text).value && Well(t, x, after) && Atomic(x)
  {
    hide AtomFromText, ParseInt, DigitsText, Integer;
    AtomKinds(t, text);
    var base := if text[1] in "xX" then 16 else if text[1] in "bB" then 2 else 8;
    var sign, ds := NumberFor(Some((base, text[1])), text[2..]);
    x := Number(Some((base, text[1])), sign, ds);
    assert text == ['#', text[1]] + text[2..];
  }

  lemma {:induction false} TokenEnds(t: Lexicon, s: string)
    ensures Separated(t, s[TokenLen(t, s)..]) && forall i :: 0 <= i < TokenLen(t, s) ==> !IsDelimiter(t, s[i])
  {
    if s != [] && !IsDelimiter(t, s[0]) {
      TokenEnds(t, s[1..]);
      assert s[TokenLen(t, s)..] == s[1..][TokenLen(t, s[1..])..];
      assert forall i :: 0 < i < TokenLen(t, s) ==> s[i] == s[1..][i - 1];
    }
  }

  lemma {:induction false} RawFirst(c: char, more: seq<StrChar>, u: string)
    ensures SpellStr([Raw(c)] + more) + u == [c] + (SpellStr(more) + u)
    ensures Content([Raw(c)] + more) == [c] + Content(more)
  {
    assert ([Raw(c)] + more)[1..] == more;
  }

  lemma {:induction false} EscapeFirst(e: char, more: seq<StrChar>, u: string)
    requires Unescape(e).Ok?
    ensures var c := Unescape(e).value;
      SpellStr([Escaped(c)] + more) + u == ['\\', e] + (SpellStr(more) + u)
      && Content([Escaped(c)] + more) == [c] + Content(more) && WellStrChar(Escaped(c))
  {
    assert ([Escaped(Unescape(e).value)] + more)[1..] == more;
  }

  lemma {:induction false} StrFor(s: string) returns (chars: seq<StrChar>)
    requires ReadString(s).Ok?
    ensures s == SpellStr(chars) + ReadString(s).value.1 && Content(chars) == ReadString(s).value.0
    ensures forall i :: 0 <= i < |chars| ==> WellStrChar(chars[i])
    decreases |s|
  {
    hide Suffix, SpellStr, Content, Unescape;
    chars := [];
    if s[0] == '"' {
      NoChars();
      assert s == "\"" + s[1..];
    } else if s[0] == '\\' {
      var more := StrFor(s[2..]);
      EscapeFirst(s[1], more, ReadString(s[2..]).value.1);
      chars := [Escaped(Unescape(s[1]).value)] + more;
      assert s == [s[0], s[1]] + s[2..];
    } else {
      var more := StrFor(s[1..]);
      RawFirst(s[0], more, ReadString(s[1..]).value.1);
      chars := [Raw(s[0])] + more;
      assert s == [s[0]] + s[1..];
    }
  }

  lemma {:induction false} NoChars()
    ensures SpellStr([]) == "\"" && Content([]) == ""
  {
  }

  lemma {:induction false} CharacterFor(t: Lexicon, s: string) returns (c: char, named: bool)
    requires ReadCharacter(t, s).Ok?
    ensures var (y, rest) := ReadCharacter(t, s).value;
      y == SChar(c) && s == SpellChar(c, named) + rest && (named ==> c in " \n\t")
      && (named || t.alpha(c) ==> Separated(t, rest))
  {
    hide Suffix, IsDelimiter;
    var n := if t.alpha(s[0]) then 1 + TokenLen(t, s[1..]) else 1;
    TokenEnds(t, s[1..]);
    assert s == s[..n] + s[n..];
    assert t.alpha(s[0]) ==> s[n..] == s[1..][TokenLen(t, s[1..])..];
    named := n > 1;
    c := ReadCharacter(t, s).value.0.c;
    assert n == 1 ==> s[..n] == [s[0]];
  }

  // ----- gaps -----

  /** Inside `d` block comments: up to the end of the innermost one. */
  lemma {:induction false} NestFor(s: string, d: nat) returns (b: Nest, v: string)
    requires d > 0 && SkipBlock(s, d).Ok?
    ensures s == SpellNest(b) + v && WellNest(b) && |v| < |s|
    ensures if d == 1 then SkipBlock(s, d) == Ok(v) else SkipBlock(s, d) == SkipBlock(v, d - 1)
    decreases |s|
  {
    hide Suffix, SpellNest, WellNest, SkipBlock;
    BlockStep(s, d);
    if "#|" <= s {
      var b1, v1 := NestFor(s[2..], d + 1);
      var b2, v2 := NestFor(v1, d);
      b, v := Inner(b1, b2), v2;
      NestParts(b);
      assert s == "#|" + s[2..];
      assert s == "#|" + (SpellNest(b1) + SpellNest(b2)) + v2;
    } else if "|#" <= s {
      b, v := EndBlock, s[2..];
      NestParts(b);
      assert s == "|#" + s[2..];
    } else {
      var b1, v1 := NestFor(s[1..], d);
      b, v := Inside(s[0], b1), v1;
      NestParts(b);
      NestFilled(b1);
      assert s == [s[0]] + s[1..] && s[1] == SpellNest(b1)[0] && SpellNest(b1)[..1] == [SpellNest(b1)[0]];
      TwoPrefix(s, "#|");
      TwoPrefix(s, "|#");
    }
  }

  lemma {:induction false} BlockStep(s: string, d: nat)
    requires d > 0
    ensures s == [] ==> SkipBlock(s, d).Err?
    ensures s != [] ==>
      SkipBlock(s, d)
      == if "#|" <= s then SkipBlock(s[2..], d + 1)
         else if "|#" <= s then if d == 1 then Ok(s[2..]) else SkipBlock(s[2..], d - 1)
         else SkipBlock(s[1..], d)
  {
    hide Suffix;
  }

  lemma {:induction false} NestParts(b: Nest)
    ensures b.EndBlock? ==> SpellNest(b) == "|#" && WellNest(b)
    ensures b.Inside? ==> SpellNest(b) == [b.c] + SpellNest(b.more)
    ensures b.Inside? && WellNest(b.more) ==>
      (b.c == '#' && SpellNest(b.more)[..1] == "|") || (b.c == '|' && SpellNest(b.more)[..1] == "#") || WellNest(b)
    ensures b.Inner? ==> SpellNest(b) == "#|" + (SpellNest(b.body) + SpellNest(b.more))
    ensures b.Inner? && WellNest(b.body) && WellNest(b.more) ==> WellNest(b)
  {
    if b.Inside? {
      NestFilled(b.more);
    }
  }

  lemma {:induction false} NoLine(s: string)
    requires '\n' !in s
    ensures SkipLine(s) == []
    decreases |s|
  {
    hide Suffix;
    if s != [] {
      NoLine(s[1..]);
    }
  }

  lemma {:induction false} LineFor(s: string) returns (text: string)
    requires '\n' in s
    ensures '\n' !in text && s == text + ("\n" + SkipLine(s))
    decreases |s|
  {
    hide Suffix;
    if s[0] == '\n' {
      text := "";
      assert s == "\n" + s[1..];
    } else {
      var more := LineFor(s[1..]);
      text := [s[0]] + more;
      assert s == [s[0]] + s[1..];
    }
  }

  lemma {:induction false} LeadIs(t: Lexicon, s: string)
    ensures match LeadOf(t, s)
      case White => s != [] && t.white(s[0])
      case Line => s != [] && s[0] == ';'
      case Block => |s| >= 2 && s[..2] == "#|"
      case Hidden => |s| >= 2 && s[..2] == "#;"
      case Other => s == [] || (!t.white(s[0]) && s[0] != ';' && !("#|" <= s) && !("#;" <= s))
  {
  }

  /** What a successful skip says about its first step. */
  lemma {:induction false} SkipSucceeds(t: Lexicon, s: string, k: nat)
    requires Skip(t, s, k).Ok?
    ensures LeadOf(t, s).Line? && Skip(t, s, k).value != [] ==> SkipLine(s[1..]) != []
    ensures LeadOf(t, s).Block? ==> SkipBlock(s[2..], 1).Ok?
    ensures LeadOf(t, s).Hidden? ==> ReadForm(t, s[2..], k).Ok? && ReadForm(t, s[2..], k).value.0.Some?
    ensures LeadOf(t, s).Other? ==> Skip(t, s, k) == Ok(s)
  {
    hide ReadForm, Suffix, SkipBlock, SkipLine;
    if LeadOf(t, s).Line? && SkipLine(s[1..]) == [] {
      assert LeadOf(t, []) == Other;
    }
  }

  /** A gap by its first piece. */
  lemma {:induction false} GapParts(t: Lexicon, g: Gap, u: string)
    requires !g.NoGap?
    ensures var v := SpellGap(g.more) + u;
      match g
      case Blank(c, more) => SpellGap(g) + u == [c] + v
      case LineComment(text, more) => SpellGap(g) + u == ";" + (text + ("\n" + v))
      case BlockComment(body, more) => SpellGap(g) + u == "#|" + (SpellNest(body) + v)
      case HiddenDatum(before, x, more) => SpellGap(g) + u == "#;" + (SpellGap(before) + (Spell(x) + v))
    ensures WellGap(t, g.more, u) ==>
      match g
      case Blank(c, _) => t.white(c) ==> WellGap(t, g, u)
      case LineComment(text, _) => '\n' !in text ==> WellGap(t, g, u)
      case BlockComment(body, _) => WellNest(body) ==> WellGap(t, g, u)
      case HiddenDatum(before, x, more) =>
        WellGap(t, before, Spell(x) + (SpellGap(more) + u)) && Well(t, x, SpellGap(more) + u) ==> WellGap(t, g, u)
    ensures !g.HiddenDatum? ==> GapDepth(g) == GapDepth(g.more)
    ensures g.HiddenDatum? ==> GapDepth(g) == Larger(GapDepth(g.before), Larger(Deep(g.x), GapDepth(g.more)))
  {
    hide Spell, Well, SpellNest, WellNest, Deep;
    match g
    case LineComment(text, more) =>
      assert ";" + (text + ("\n" + SpellGap(more))) + u == ";" + (text + ("\n" + (SpellGap(more) + u)));
    case _ =>
  }

  /** What was skipped is a gap, and nothing more can be. */
  lemma {:induction false} GapFor(t: Lexicon, s: string, k: nat) returns (g: Gap)
    requires Sane(t) && Ordinary(t) && Skip(t, s, k).Ok? && Skip(t, s, k).value != [] && k <= 512
    ensures var u := Skip(t, s, k).value;
      s == SpellGap(g) + u && WellGap(t, g, u) && k + GapDepth(g) <= 512 && LeadOf(t, u) == Other
      && Skip(t, u, k) == Ok(u)
    decreases |s|, 1
  {
    hide ReadForm, Suffix, Well, Skip, Spell, SpellNest, Deep, SkipLine, SkipBlock, LeadOf, Denoted;
    hide SpellGap, WellGap, GapDepth, WellNest;
    SkipStep(t, s, k);
    SkipSucceeds(t, s, k);
    LeadIs(t, s);
    match LeadOf(t, s)
    case White =>
      var more := GapFor(t, s[1..], k);
      g := Blank(s[0], more);
      GapParts(t, g, Skip(t, s, k).value);
      assert s == [s[0]] + s[1..];
    case Line =>
      if '\n' !in s[1..] {
        NoLine(s[1..]);
      }
      var text := LineFor(s[1..]);
      var more := GapFor(t, SkipLine(s[1..]), k);
      g := LineComment(text, more);
      GapParts(t, g, Skip(t, s, k).value);
      assert s == ";" + s[1..];
    case Block =>
      var body, v := NestFor(s[2..], 1);
      var more := GapFor(t, v, k);
      g := BlockComment(body, more);
      GapParts(t, g, Skip(t, s, k).value);
      assert s == "#|" + s[2..];
    case Hidden =>
      var rest := ReadForm(t, s[2..], k).value.1;
      var before, x := FormFor(t, s[2..], k);
      var more := GapFor(t, rest, k);
      assert s == "#;" + s[2..];
      g := HiddenDatum(before, x, more);
      GapParts(t, g, Skip(t, s, k).value);
    case Other =>
      g := NoGap;
      EmptyGap(t, s);
  }

  lemma {:induction false} EmptyGap(t: Lexicon, u: string)
    ensures SpellGap(NoGap) + u == u && WellGap(t, NoGap, u) && GapDepth(NoGap) == 0
  {
  }

  // ----- data -----

  lemma {:induction false} FormSucceeds(t: Lexicon, s: string, k: nat)
    requires ReadForm(t, s, k).Ok? && ReadForm(t, s, k).value.0.Some?
    ensures Skip(t, s, k).Ok? && Skip(t, s, k).value != [] && k + 1 <= 512
    ensures var r := ReadBody(t, Skip(t, s, k).value, k + 1);
      r.Ok? && ReadForm(t, s, k).value == (Some(r.value.0), r.value.1)
  {
    hide Skip, ReadBody;
  }

  /** A datum that was read, with the gap before it, is a spelling of what was read. */
  lemma {:induction false} FormFor(t: Lexicon, s: string, k: nat) returns (g: Gap, x: Spelling)
    requires Sane(t) && Ordinary(t) && ReadForm(t, s, k).Ok? && ReadForm(t, s, k).value.0.Some?
    ensures var (y, rest) := ReadForm(t, s, k).value;
      s == SpellGap(g) + (Spell(x) + rest) && WellGap(t, g, Spell(x) + rest) && Well(t, x, rest)
      && y == Some(Denoted(x)) && k + GapDepth(g) <= 512 && k + Deep(x) <= 512
    decreases |s|, 2
  {
    hide Skip, ReadBody, ReadForm, Well, WellGap, Spell, SpellGap, Denoted, Deep, GapDepth, LeadOf, Suffix;
    FormSucceeds(t, s, k);
    g := GapFor(t, s, k);
    x := BodyFor(t, Skip(t, s, k).value, k);
  }

  lemma {:induction false} StrParts(t: Lexicon, chars: seq<StrChar>, rest: string)
    ensures Spell(Str(chars)) == "\"" + SpellStr(chars) && Denoted(Str(chars)) == SStr(Content(chars))
    ensures Deep(Str(chars)) == 1
    ensures (forall i :: 0 <= i < |chars| ==> WellStrChar(chars[i])) ==> Well(t, Str(chars), rest)
  {
    hide SpellStr, Content, WellStrChar;
  }

  lemma {:induction false} CharacterParts(t: Lexicon, c: char, named: bool, rest: string)
    ensures Spell(Character(c, named)) == "#\\" + SpellChar(c, named) && Denoted(Character(c, named)) == SChar(c)
    ensures Deep(Character(c, named)) == 1
    ensures (named ==> c in " \n\t") && (named || t.alpha(c) ==> Separated(t, rest)) ==>
      Well(t, Character(c, named), rest)
  {
    hide SpellChar, Separated;
  }

  /** A string or a character. */
  lemma {:induction false} LiteralFor(t: Lexicon, s: string, k: nat) returns (x: Spelling)
    requires Sane(t) && s != [] && (s[0] == '"' || "#\\" <= s) && k + 1 <= 512 && ReadBody(t, s, k + 1).Ok?
    ensures var (y, rest) := ReadBody(t, s, k + 1).value;
      s == Spell(x) + rest && Well(t, x, rest) && y == Denoted(x) && k + Deep(x) <= 512
  {
    hide ReadString, ReadCharacter, ReadBody, Suffix, SpellStr, SpellChar, Content, WellStrChar;
    hide Spell, Well, Denoted, Deep, Separated;
    BodyIs(t, s, k);
    if s[0] == '"' {
      assert s == "\"" + s[1..];
      var chars := StrFor(s[1..]);
      x := Str(chars);
      StrParts(t, chars, ReadString(s[1..]).value.1);
    } else {
      assert s == "#\\" + s[2..];
      var c, named := CharacterFor(t, s[2..]);
      x := Character(c, named);
      CharacterParts(t, c, named, ReadCharacter(t, s[2..]).value.1);
    }
  }

  lemma {:induction false} BodyFor(t: Lexicon, s: string, k: nat) returns (x: Spelling)
    requires Sane(t) && Ordinary(t) && s != [] && LeadOf(t, s) == Other && k + 1 <= 512
    requires ReadBody(t, s, k + 1).Ok?
    ensures var (y, rest) := ReadBody(t, s, k + 1).value;
      s == Spell(x) + rest && Well(t, x, rest) && y == Denoted(x) && k + Deep(x) <= 512
    decreases |s|, 0
  {
    hide Skip, ReadForm, ReadAtom, ReadString, ReadCharacter, ReadList, ReadVector, ReadTagged, ReadBody, Suffix;
    hide WellGap, SpellGap, SpellItems, WellItems, SpellNumber, SpellStr, SpellChar, AtomFromText, LeadOf, Separated;
    BodyIs(t, s, k);
    assert s == [s[0]] + s[1..];
    if s[0] == '(' {
      var items := ItemsFor(t, s[1..], k + 1, []);
      x := ListOf(items);
    } else if s[0] == '"' || "#\\" <= s {
      x := LiteralFor(t, s, k);
    } else if "#(" <= s {
      assert s == "#(" + s[2..];
      var items := VectorFor(t, s[2..], k + 1, []);
      assert [] + DenotedItems(items) == DenotedItems(items);
      x := VectorOf(items);
    } else if s[0] in "'`," {
      var m := MarkOf(s);
      assert s == SpellMark(m) + s[|SpellMark(m)|..];
      x := QuotedFor(t, s[|SpellMark(m)|..], k, m);
    } else {
      x := AtomAt(t, s);
      Shallow(x, k);
    }
  }

  function MarkOf(s: string): Mark
    requires s != []
  {
    if s[0] == '\'' then QuoteMark else if s[0] == '`' then BackQuote else if ",@" <= s then CommaAt else Comma
  }

  lemma {:induction false} Shallow(x: Spelling, k: nat)
    requires Atomic(x)
    ensures Deep(x) == 1
  {
  }

  /** The forms by their first characters. */
  lemma {:induction false} BodyIs(t: Lexicon, s: string, k: nat)
    requires s != []
    ensures s[0] == '(' ==> ReadBody(t, s, k + 1) == ReadList(t, s[1..], k + 1, [])
    ensures s[0] == ')' ==> ReadBody(t, s, k + 1).Err?
    ensures s[0] == '"' ==>
      ReadBody(t, s, k + 1)
      == if ReadString(s[1..]).Ok? then Ok((SStr(ReadString(s[1..]).value.0), ReadString(s[1..]).value.1))
         else Err(ReadString(s[1..]).error)
    ensures "#(" <= s ==> ReadBody(t, s, k + 1) == ReadVector(t, s[2..], k + 1, [])
    ensures "#\\" <= s ==> ReadBody(t, s, k + 1) == ReadCharacter(t, s[2..])
    ensures s[0] in "'`," ==>
      ReadBody(t, s, k + 1) == ReadTagged(t, s[|SpellMark(MarkOf(s))|..], k + 1, Tag(MarkOf(s)))
    ensures s[0] !in "()\"'`," && !("#(" <= s) && !("#\\" <= s) ==> ReadBody(t, s, k + 1) == ReadAtom(t, s)
  {
    hide ReadList, ReadVector, ReadTagged, ReadAtom, ReadString, ReadCharacter;
    TwoPrefix(s, "#(");
    TwoPrefix(s, "#\\");
  }

  lemma {:induction false} AtomAt(t: Lexicon, s: string) returns (x: Spelling)
    requires Sane(t) && Ordinary(t) && s != [] && ReadAtom(t, s).Ok? && LeadOf(t, s) == Other
    requires !("#(" <= s) && !("#\\" <= s)
    ensures var (y, rest) := ReadAtom(t, s).value;
      s == Spell(x) + rest && Well(t, x, rest) && y == Denoted(x) && Atomic(x)
  {
    hide AtomFromText, Suffix, LeadOf, Well;
    var n := TokenLen(t, s);
    TokenEnds(t, s);
    LeadIs(t, s);
    var text, rest := s[..n], s[n..];
    assert s == text + rest && text[0] == s[0];
    assert n == 1 && rest != [] ==> s[1] == rest[0];
    assert n > 1 ==> text[1] == s[1];
    assert text == "#" ==> n == 1 && text[0] == '#';
    TwoPrefix(s, "#(");
    TwoPrefix(s, "#\\");
    TwoPrefix(s, "#|");
    TwoPrefix(s, "#;");
    x := AtomFor(t, text, rest);
  }

  lemma {:induction false} QuotedFor(t: Lexicon, u: string, k: nat, m: Mark) returns (x: Spelling)
    requires Sane(t) && Ordinary(t) && k + 1 <= 512 && (m.Comma? ==> u == [] || u[0] != '@')
    requires ReadTagged(t, u, k + 1, Tag(m)).Ok?
    ensures var (y, rest) := ReadTagged(t, u, k + 1, Tag(m)).value;
      SpellMark(m) + u == Spell(x) + rest && Well(t, x, rest) && y == Denoted(x) && k + Deep(x) <= 512
    decreases |u|, 3
  {
    hide Skip, ReadForm, Suffix, WellGap, SpellGap, SpellItems, WellItems, SpellNumber, SpellStr, SpellChar, SpellMark;
    var g, y := FormFor(t, u, k + 1);
    var rest := ReadForm(t, u, k + 1).value.1;
    x := Quoted(m, g, y);
    assert SpellMark(m) + u == SpellMark(m) + (SpellGap(g) + Spell(y)) + rest;
    SpellStarts(t, y, rest);
    NotSplicing(SpellGap(g), Spell(y), rest);
  }

  lemma {:induction false} ListSucceeds(t: Lexicon, s: string, k: nat, acc: seq<Sexpr>)
    requires ReadList(t, s, k, acc).Ok?
    ensures Skip(t, s, k).Ok? && Skip(t, s, k).value != []
    ensures var s1 := Skip(t, s, k).value;
      if s1[0] == ')' then ReadList(t, s, k, acc) == Ok((SList(acc), s1[1..]))
      else if LoneDot(t, s1) then ReadList(t, s, k, acc) == ReadTail(t, s1[1..], k, acc)
      else
        ReadForm(t, s1, k).Ok? && ReadForm(t, s1, k).value.0.Some?
        && ReadList(t, s, k, acc)
           == ReadList(t, ReadForm(t, s1, k).value.1, k, acc + [ReadForm(t, s1, k).value.0.value])
  {
    hide Skip, ReadTail, ReadForm;
    if Skip(t, s, k).Ok? && Skip(t, s, k).value == [] {
      EndOfText(t, k);
    }
  }

  lemma {:induction false} EndOfText(t: Lexicon, k: nat)
    ensures ReadForm(t, [], k) == Ok((None, [])) && !LoneDot(t, [])
  {
    hide ReadBody;
    assert LeadOf(t, []) == Other;
  }

  /** The elements of a list that was read. */
  lemma {:induction false} ItemsFor(t: Lexicon, s: string, k: nat, acc: seq<Sexpr>) returns (items: Items)
    requires Sane(t) && Ordinary(t) && k <= 512 && ReadList(t, s, k, acc).Ok?
    ensures var (y, rest) := ReadList(t, s, k, acc).value;
      s == SpellItems(items) + rest && WellItems(t, items, rest) && !DotNamed(items)
      && y == DenotedList(items, acc) && k + ItemsDepth(items) <= 512
    decreases |s|, 3
  {
    hide Skip, ReadForm, ReadTail, ReadList, Suffix, Well, WellGap, Spell, SpellGap, Denoted, Deep, GapDepth, LeadOf,
      LoneDot;
    ListSucceeds(t, s, k, acc);
    var s1 := Skip(t, s, k).value;
    var g := GapFor(t, s, k);
    if s1[0] == ')' {
      items := Close(g);
      assert s1 == ")" + s1[1..];
    } else if LoneDot(t, s1) {
      items := DotFor(t, s, k, acc, g);
    } else {
      SkippedForm(t, s, s1, k);
      var rest := ReadForm(t, s1, k).value.1;
      var g1, x := FormFor(t, s, k);
      var more := ItemsFor(t, rest, k, acc + [Denoted(x)]);
      items := Item(g1, x, more);
      if x == Name(".") {
        DotWasLone(t, s, s1, k, g1, rest);
      }
    }
  }

  /** A name of one dot would have been the dot of the list. */
  lemma {:induction false} DotWasLone(t: Lexicon, s: string, s1: string, k: nat, g: Gap, rest: string)
    requires Sane(t) && Ordinary(t) && WellGap(t, g, Spell(Name(".")) + rest) && k + GapDepth(g) <= 512
    requires Well(t, Name("."), rest) && s == SpellGap(g) + (Spell(Name(".")) + rest) && Skip(t, s, k) == Ok(s1)
    ensures LoneDot(t, s1)
  {
    hide Skip, WellGap, LoneDot, LeadOf, SpellGap, GapDepth, Separated, WellName;
    assert Spell(Name(".")) == ".";
    GapSkips(t, g, "." + rest, k);
    DotStands(t, rest);
    Unskipped(t, "." + rest, k);
  }

  lemma {:induction false} Unskipped(t: Lexicon, s: string, k: nat)
    requires LeadOf(t, s) == Other
    ensures Skip(t, s, k) == Ok(s)
  {
    hide LeadOf, ReadForm;
  }

  lemma {:induction false} TailSucceeds(t: Lexicon, s: string, k: nat, acc: seq<Sexpr>)
    requires ReadTail(t, s, k, acc).Ok?
    ensures Skip(t, s, k).Ok?
    ensures var r := ReadForm(t, Skip(t, s, k).value, k);
      r.Ok? && r.value.0.Some?
      && Skip(t, r.value.1, k).Ok?
      && var s2 := Skip(t, r.value.1, k).value;
         s2 != [] && s2[0] == ')' && ReadTail(t, s, k, acc) == Ok((SDotted(acc, r.value.0.value), s2[1..]))
  {
    hide Skip, ReadForm;
  }

  lemma {:induction false} LoneSeparates(t: Lexicon, s: string)
    requires LoneDot(t, s)
    ensures s == "." + s[1..] && Separated(t, s[1..])
  {
    assert s == [s[0]] + s[1..];
  }

  lemma {:induction false} DotFor(t: Lexicon, s: string, k: nat, acc: seq<Sexpr>, g: Gap) returns (items: Items)
    requires Sane(t) && Ordinary(t) && k <= 512 && Skip(t, s, k).Ok? && LoneDot(t, Skip(t, s, k).value)
    requires var s1 := Skip(t, s, k).value;
      ReadTail(t, s1[1..], k, acc).Ok? && s == SpellGap(g) + s1 && WellGap(t, g, s1) && k + GapDepth(g) <= 512
      && |s1| <= |s|
    ensures var (y, rest) := ReadTail(t, Skip(t, s, k).value[1..], k, acc).value;
      s == SpellItems(items) + rest && WellItems(t, items, rest) && !DotNamed(items)
      && y == DenotedList(items, acc) && k + ItemsDepth(items) <= 512
    decreases |s|, 2
  {
    hide Skip, ReadForm, ReadTail, Suffix, Well, WellGap, Spell, SpellGap, Denoted, Deep, GapDepth, LeadOf, LoneDot;
    var s1 := Skip(t, s, k).value;
    LoneSeparates(t, s1);
    var tail := s1[1..];
    TailSucceeds(t, tail, k, acc);
    var body := Skip(t, tail, k).value;
    EndOfText(t, k);
    var g0 := GapFor(t, tail, k);
    SkippedForm(t, tail, body, k);
    var g1, x := FormFor(t, tail, k);
    var end := ReadForm(t, body, k).value.1;
    var g2 := GapFor(t, end, k);
    var s2 := Skip(t, end, k).value;
    assert s2 == ")" + s2[1..];
    items := Dot(g, g1, x, g2);
    DotText(items, s2[1..]);
  }

  lemma {:induction false} DotText(items: Items, rest: string)
    requires items.Dot?
    ensures SpellItems(items) + rest
         == SpellGap(items.gap)
            + ("." + (SpellGap(items.gap1) + (Spell(items.x) + (SpellGap(items.gap2) + (")" + rest)))))
  {
    hide SpellGap, Spell;
    var a, b, c, d := SpellGap(items.gap), SpellGap(items.gap1), Spell(items.x), SpellGap(items.gap2);
    assert a + ("." + (b + (c + (d + ")")))) + rest == a + ("." + (b + (c + (d + (")" + rest)))));
  }

  lemma {:induction false} VectorSucceeds(t: Lexicon, s: string, k: nat, acc: seq<Sexpr>)
    requires ReadVector(t, s, k, acc).Ok?
    ensures Skip(t, s, k).Ok? && Skip(t, s, k).value != []
    ensures var s1 := Skip(t, s, k).value;
      if s1[0] == ')' then ReadVector(t, s, k, acc) == Ok((SVector(acc), s1[1..]))
      else
        ReadForm(t, s1, k).Ok? && ReadForm(t, s1, k).value.0.Some?
        && ReadVector(t, s, k, acc)
           == ReadVector(t, ReadForm(t, s1, k).value.1, k, acc + [ReadForm(t, s1, k).value.0.value])
  {
    hide Skip, ReadForm;
    if Skip(t, s, k).Ok? && Skip(t, s, k).value == [] {
      EndOfText(t, k);
    }
  }

  lemma {:induction false} VectorFor(t: Lexicon, s: string, k: nat, acc: seq<Sexpr>) returns (items: Items)
    requires Sane(t) && Ordinary(t) && k <= 512 && ReadVector(t, s, k, acc).Ok?
    ensures var (y, rest) := ReadVector(t, s, k, acc).value;
      s == SpellItems(items) + rest && WellItems(t, items, rest) && !Dotted(items)
      && y == SVector(acc + DenotedItems(items)) && k + ItemsDepth(items) <= 512
    decreases |s|, 3
  {
    hide Skip, ReadForm, ReadVector, Suffix, Well, WellGap, Spell, SpellGap, Denoted, Deep, GapDepth, LeadOf;
    VectorSucceeds(t, s, k, acc);
    var s1 := Skip(t, s, k).value;
    var g := GapFor(t, s, k);
    if s1[0] == ')' {
      items := Close(g);
      assert s1 == ")" + s1[1..] && acc + [] == acc;
    } else {
      SkippedForm(t, s, s1, k);
      var rest := ReadForm(t, s1, k).value.1;
      var g1, x := FormFor(t, s, k);
      var more := VectorFor(t, rest, k, acc + [Denoted(x)]);
      items := Item(g1, x, more);
      assert acc + [Denoted(x)] + DenotedItems(more) == acc + ([Denoted(x)] + DenotedItems(more));
    }
  }

  /** A text spells `y` in front of `rest`, within the nesting limit. */
  ghost predicate Spells(t: Lexicon, s: string, k: nat, y: Sexpr, rest: string) {
    exists g, x ::
      s == SpellGap(g) + (Spell(x) + rest) && WellGap(t, g, Spell(x) + rest) && Well(t, x, rest) && Denoted(x) == y
      && k + GapDepth(g) <= 512 && k + Deep(x) <= 512
  }

  /**
   The reader reads a datum, and leaves a rest, if and only if the text before the rest is
   a spelling of the datum, behind any white space and comments.
   */
  lemma {:induction false} ReadsExactlySpellings(t: Lexicon, s: string, k: nat, y: Sexpr, rest: string)
    requires Sane(t) && Ordinary(t)
    ensures ReadForm(t, s, k) == Ok((Some(y), rest)) <==> Spells(t, s, k, y, rest)
  {
    hide ReadForm, Well, WellGap, Spell, SpellGap, Denoted, Deep, GapDepth;
    if ReadForm(t, s, k) == Ok((Some(y), rest)) {
      var g, x := FormFor(t, s, k);
    }
    if Spells(t, s, k, y, rest) {
      var g, x :|
        s == SpellGap(g) + (Spell(x) + rest) && WellGap(t, g, Spell(x) + rest) && Well(t, x, rest) && Denoted(x) == y
        && k + GapDepth(g) <= 512 && k + Deep(x) <= 512;
      SpellingReads(t, g, x, rest, k);
    }
  }

  // ----- the end of the text -----

  /** Nothing is left but white space and comments, the last line comment perhaps not ended. */
  ghost predicate OnlyGap(t: Lexicon, s: string, k: nat) {
    exists g, u ::
      s == SpellGap(g) + u && WellGap(t, g, u) && k + GapDepth(g) <= 512
      && (u == "" || (u[0] == ';' && '\n' !in u))
  }

  /** What was skipped to the end of the text. */
  lemma {:induction false} EndFor(t: Lexicon, s: string, k: nat) returns (g: Gap, u: string)
    requires Sane(t) && Ordinary(t) && Skip(t, s, k) == Ok([]) && k <= 512
    ensures s == SpellGap(g) + u && WellGap(t, g, u) && k + GapDepth(g) <= 512
    ensures u == "" || (u[0] == ';' && '\n' !in u)
    decreases |s|
  {
    hide ReadForm, Suffix, Well, Skip, Spell, SpellNest, Deep, SkipLine, SkipBlock, LeadOf, Denoted;
    hide SpellGap, WellGap, GapDepth, WellNest;
    SkipStep(t, s, k);
    SkipSucceeds(t, s, k);
    LeadIs(t, s);
    match LeadOf(t, s)
    case White =>
      var more;
      more, u := EndFor(t, s[1..], k);
      g := Blank(s[0], more);
      GapParts(t, g, u);
      assert s == [s[0]] + s[1..];
    case Line =>
      assert s == ";" + s[1..];
      if '\n' in s[1..] {
        var text := LineFor(s[1..]);
        var more;
        more, u := EndFor(t, SkipLine(s[1..]), k);
        g := LineComment(text, more);
        GapParts(t, g, u);
      } else {
        g, u := NoGap, s;
        EmptyGap(t, s);
      }
    case Block =>
      var body, v := NestFor(s[2..], 1);
      var more;
      more, u := EndFor(t, v, k);
      g := BlockComment(body, more);
      GapParts(t, g, u);
      assert s == "#|" + s[2..];
    case Hidden =>
      var rest := ReadForm(t, s[2..], k).value.1;
      var before, x := FormFor(t, s[2..], k);
      var more;
      more, u := EndFor(t, rest, k);
      assert s == "#;" + s[2..];
      g := HiddenDatum(before, x, more);
      GapParts(t, g, u);
    case Other =>
      g, u := NoGap, s;
      EmptyGap(t, s);
  }

  /** The reader finds no datum, and no error, if and only if there is none to be found. */
  lemma {:induction false} EndsExactlyGaps(t: Lexicon, s: string, k: nat)
    requires Sane(t) && Ordinary(t) && k <= 512
    ensures ReadForm(t, s, k) == Ok((None, "")) <==> OnlyGap(t, s, k)
  {
    hide Well, WellGap, Spell, SpellGap, Denoted, Deep, GapDepth, ReadBody, Suffix, SkipLine, LeadOf, SkipBlock;
    if ReadForm(t, s, k) == Ok((None, "")) {
      var g, u := EndFor(t, s, k);
    }
    if OnlyGap(t, s, k) {
      var g, u :|
        s == SpellGap(g) + u && WellGap(t, g, u) && k + GapDepth(g) <= 512
        && (u == "" || (u[0] == ';' && '\n' !in u));
      GapSkips(t, g, u, k);
      EndOfText(t, k);
      SkipStep(t, u, k);
      LeadIs(t, []);
      assert Skip(t, [], k) == Ok([]);
      if u != "" {
        NoLine(u[1..]);
        GapLead(t, u);
      }
    }
  }
}
