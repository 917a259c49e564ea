/**
 All the ways to spell a datum: quote marks, radix prefixes, escapes, character names, dots,
 white space and comments of every kind between tokens.  A spelling is a tree of choices that
 says both what text it gives and what datum that text stands for.  The reader reads exactly
 the spellings: each as its datum, and nothing else.
 */
module Spelling {
  import opened Prelude
  import opened Reader
  import opened BoundaryProof
  import opened Printer
  import opened RoundTrip

  /** The body of a block comment, which may hold others, up to and including its end. */
  datatype Nest = EndBlock | Inside(c: char, more: Nest) | Inner(body: Nest, more: Nest)

  /** What may stand between tokens. */
  datatype Gap =
    | NoGap
    | Blank(c: char, more: Gap)
    | LineComment(text: string, more: Gap)
    | BlockComment(body: Nest, more: Gap)
    | HiddenDatum(before: Gap, x: Spelling, more: Gap)

  datatype Mark = QuoteMark | BackQuote | Comma | CommaAt

  datatype Sign = NoSign | Plus | Minus

  /** A digit, behind nine a letter of either case. */
  datatype Digit = Digit(d: nat, upper: bool)

  datatype StrChar = Raw(c: char) | Escaped(c: char)

  datatype Spelling =
    | Number(prefix: Option<(nat, char)>, sign: Sign, digits: seq<Digit>)
    | Float(text: string, bits: int)
    | Truth(b: bool, long: bool)
    | Name(s: string)
    | Character(c: char, named: bool)
    | Str(chars: seq<StrChar>)
    | Quoted(mark: Mark, gap: Gap, x: Spelling)
    | ListOf(items: Items)
    | VectorOf(items: Items)

  /** The elements of a list or vector up to its closing parenthesis. */
  datatype Items =
    | Close(gap: Gap)
    | Item(gap: Gap, x: Spelling, more: Items)
    | Dot(gap: Gap, gap1: Gap, x: Spelling, gap2: Gap)

  // ----- the text -----

  function SpellNest(b: Nest): string {
    match b
    case EndBlock => "|#"
    case Inside(c, more) => [c] + SpellNest(more)
    case Inner(body, more) => "#|" + (SpellNest(body) + SpellNest(more))
  }

  function SpellGap(g: Gap): string {
    match g
    case NoGap => ""
    case Blank(c, more) => [c] + SpellGap(more)
    case LineComment(text, more) => ";" + (text + ("\n" + SpellGap(more)))
    case BlockComment(body, more) => "#|" + (SpellNest(body) + SpellGap(more))
    case HiddenDatum(before, x, more) => "#;" + (SpellGap(before) + (Spell(x) + SpellGap(more)))
  }

  function DigitText(g: Digit): char {
    if g.d >= 16 then '0' else if g.upper then "0123456789ABCDEF"[g.d] else "0123456789abcdef"[g.d]
  }

  function DigitsText(ds: seq<Digit>): string {
    if ds == [] then "" else [DigitText(ds[0])] + DigitsText(ds[1..])
  }

  function SignText(g: Sign): string {
    match g
    case NoSign => ""
    case Plus => "+"
    case Minus => "-"
  }

  function SpellNumber(prefix: Option<(nat, char)>, sign: Sign, digits: seq<Digit>): string {
    (if prefix.Some? then ['#', prefix.value.1] else "") + (SignText(sign) + DigitsText(digits))
  }

  function SpellChar(c: char, named: bool): string {
    if !named then [c] else if c == ' ' then "space" else if c == '\n' then "newline" else "tab"
  }

  function SpellStr(chars: seq<StrChar>): string {
    if chars == [] then "\""
    else
      match chars[0]
      case Raw(c) => [c] + SpellStr(chars[1..])
      case Escaped(c) =>
        ['\\', if c == '\n' then 'n' else if c == '\t' then 't' else if c == '\r' then 'r' else c]
        + SpellStr(chars[1..])
  }

  function SpellMark(m: Mark): string {
    match m
    case QuoteMark => "'"
    case BackQuote => "`"
    case Comma => ","
    case CommaAt => ",@"
  }

  function Spell(x: Spelling): string {
    match x
    case Number(prefix, sign, digits) => SpellNumber(prefix, sign, digits)
    case Float(text, _) => text
    case Truth(b, long) => if long then if b then "true" else "false" else if b then "#t" else "#f"
    case Name(s) => s
    case Character(c, named) => "#\\" + SpellChar(c, named)
    case Str(chars) => "\"" + SpellStr(chars)
    case Quoted(mark, gap, y) => SpellMark(mark) + (SpellGap(gap) + Spell(y))
    case ListOf(items) => "(" + SpellItems(items)
    case VectorOf(items) => "#(" + SpellItems(items)
  }

  function SpellItems(items: Items): string {
    match items
    case Close(gap) => SpellGap(gap) + ")"
    case Item(gap, x, more) => SpellGap(gap) + (Spell(x) + SpellItems(more))
    case Dot(gap, gap1, x, gap2) => SpellGap(gap) + ("." + (SpellGap(gap1) + (Spell(x) + (SpellGap(gap2) + ")"))))
  }

  // ----- the datum -----

  function Value(ds: seq<Digit>, base: nat, acc: nat): nat {
    if ds == [] then acc else Value(ds[1..], base, acc * base + ds[0].d)
  }

  function Integer(prefix: Option<(nat, char)>, sign: Sign, digits: seq<Digit>): int {
    var n: int := Value(digits, if prefix.Some? then prefix.value.0 else 10, 0);
    if sign.Minus? then -n else n
  }

  function Content(chars: seq<StrChar>): string {
    if chars == [] then "" else [chars[0].c] + Content(chars[1..])
  }

  function Tag(m: Mark): string {
    match m
    case QuoteMark => "quote"
    case BackQuote => "quasiquote"
    case Comma => "unquote"
    case CommaAt => "unquote-splicing"
  }

  function Denoted(x: Spelling): Sexpr {
    match x
    case Number(prefix, sign, digits) => SInt(Integer(prefix, sign, digits))
    case Float(_, bits) => SFloat(bits)
    case Truth(b, _) => SBool(b)
    case Name(s) => SSymbol(s)
    case Character(c, _) => SChar(c)
    case Str(chars) => SStr(Content(chars))
    case Quoted(mark, _, y) => SList([SSymbol(Tag(mark)), Denoted(y)])
    case ListOf(items) => DenotedList(items, [])
    case VectorOf(items) => SVector(DenotedItems(items))
  }

  function DenotedItems(items: Items): seq<Sexpr> {
    match items
    case Item(_, x, more) => [Denoted(x)] + DenotedItems(more)
    case _ => []
  }

  /** A list with `acc` in front. */
  function DenotedList(items: Items, acc: seq<Sexpr>): Sexpr {
    match items
    case Close(_) => SList(acc)
    case Item(_, x, more) => DenotedList(more, acc + [Denoted(x)])
    case Dot(_, _, x, _) => SDotted(acc, Denoted(x))
  }

  // ----- which spellings hold together -----

  /** No marker arises between a character of a comment and what follows it. */
  predicate WellNest(b: Nest) {
    match b
    case EndBlock => true
    case Inside(c, more) =>
      WellNest(more) && !(c == '#' && SpellNest(more)[..1] == "|") && !(c == '|' && SpellNest(more)[..1] == "#")
    case Inner(body, more) => WellNest(body) && WellNest(more)
  }

  /** A token that goes on as long as no delimiter comes. */
  predicate Open(t: Lexicon, x: Spelling) {
    x.Number? || x.Float? || x.Truth? || x.Name? || (x.Character? && (x.named || t.alpha(x.c)))
  }

  ghost predicate WellGap(t: Lexicon, g: Gap, after: string) {
    match g
    case NoGap => true
    case Blank(c, more) => t.white(c) && WellGap(t, more, after)
    case LineComment(text, more) => '\n' !in text && WellGap(t, more, after)
    case BlockComment(body, more) => WellNest(body) && WellGap(t, more, after)
    case HiddenDatum(before, x, more) =>
      WellGap(t, before, Spell(x) + (SpellGap(more) + after)) && Well(t, x, SpellGap(more) + after)
      && WellGap(t, more, after)
  }

  predicate Digitlike(c: char) {
    '0' <= c <= '9'
  }

  /** A digit, a point and a digit, or either behind a sign. */
  predicate Numeric(s: string) {
    s != []
    && (Digitlike(s[0]) || (s[0] in "+-." && |s| > 1 && Digitlike(s[1]))
        || (s[0] in "+-" && |s| > 2 && s[1] == '.' && Digitlike(s[2])))
  }

  ghost predicate Token(t: Lexicon, s: string) {
    s != [] && forall i :: 0 <= i < |s| ==> !t.white(s[i]) && s[i] !in "()\";'`,"
  }

  /** A name that is no number, no truth value and no other token; `#` alone must not open anything. */
  ghost predicate WellName(t: Lexicon, s: string, after: string) {
    Token(t, s) && s !in ["true", "false", "#t", "#f"] && !Numeric(s)
    && (s[0] == '#' && |s| > 1 ==> s[1] !in "xXbBoO\\|")
    && (s == "#" && after != [] ==> after[0] !in "(;")
  }

  predicate WellPrefix(prefix: Option<(nat, char)>) {
    prefix.Some? ==>
      var (base, mark) := prefix.value;
      (base == 16 && mark in "xX") || (base == 2 && mark in "bB") || (base == 8 && mark in "oO")
  }

  predicate WellNumber(prefix: Option<(nat, char)>, sign: Sign, digits: seq<Digit>) {
    WellPrefix(prefix) && digits != []
    && -0x8000_0000_0000_0000 <= Integer(prefix, sign, digits) <= 0x7FFF_FFFF_FFFF_FFFF
    && forall i :: 0 <= i < |digits| ==> digits[i].d < if prefix.Some? then prefix.value.0 else 10
  }

  ghost predicate WellFloat(t: Lexicon, text: string, bits: int) {
    Token(t, text) && Numeric(text) && ('.' in text || 'e' in text || 'E' in text) && t.float(text) == Some(bits)
  }

  predicate WellStrChar(c: StrChar) {
    match c
    case Raw(ch) => ch !in "\"\\\n"
    case Escaped(ch) => ch in "\"\\\n\t\r"
  }

  /** `x`, followed by `after`, is read as one datum. */
  ghost predicate Well(t: Lexicon, x: Spelling, after: string) {
    (Open(t, x) ==> Separated(t, after))
    && match x
       case Number(prefix, sign, digits) => WellNumber(prefix, sign, digits)
       case Float(text, bits) => WellFloat(t, text, bits)
       case Truth(_, _) => true
       case Name(s) => WellName(t, s, after)
       case Character(c, named) => named ==> c in " \n\t"
       case Str(chars) => forall i :: 0 <= i < |chars| ==> WellStrChar(chars[i])
       case Quoted(mark, gap, y) =>
         WellGap(t, gap, Spell(y) + after) && Well(t, y, after)
         && (mark.Comma? ==> (SpellGap(gap) + Spell(y))[..1] != "@")
       case ListOf(items) => WellItems(t, items, after) && !DotNamed(items)
       case VectorOf(items) => WellItems(t, items, after) && !Dotted(items)
  }

  predicate Dotted(items: Items) {
    match items
    case Close(_) => false
    case Item(_, _, more) => Dotted(more)
    case Dot(_, _, _, _) => true
  }

  /** In a list a dot is not a name, unless behind a dot. */
  predicate DotNamed(items: Items) {
    items.Item? && (items.x == Name(".") || DotNamed(items.more))
  }

  ghost predicate WellItems(t: Lexicon, items: Items, after: string) {
    match items
    case Close(gap) => WellGap(t, gap, ")" + after)
    case Item(gap, x, more) =>
      WellGap(t, gap, Spell(x) + (SpellItems(more) + after)) && Well(t, x, SpellItems(more) + after)
      && WellItems(t, more, after)
    case Dot(gap, gap1, x, gap2) =>
      var end := SpellGap(gap2) + (")" + after);
      WellGap(t, gap, "." + (SpellGap(gap1) + (Spell(x) + end))) && WellGap(t, gap1, Spell(x) + end)
      && Well(t, x, end) && WellGap(t, gap2, ")" + after)
      && Separated(t, SpellGap(gap1) + (Spell(x) + end))
  }

  // ----- how deep it is nested -----

  function GapDepth(g: Gap): nat {
    match g
    case NoGap => 0
    case HiddenDatum(before, x, more) => Larger(GapDepth(before), Larger(Deep(x), GapDepth(more)))
    case Blank(_, more) => GapDepth(more)
    case LineComment(_, more) => GapDepth(more)
    case BlockComment(_, more) => GapDepth(more)
  }

  function Deep(x: Spelling): (n: nat)
    ensures n > 0
  {
    match x
    case Quoted(_, gap, y) => 1 + Larger(GapDepth(gap), Deep(y))
    case ListOf(items) => 1 + ItemsDepth(items)
    case VectorOf(items) => 1 + ItemsDepth(items)
    case _ => 1
  }

  function ItemsDepth(items: Items): nat {
    match items
    case Close(gap) => GapDepth(gap)
    case Item(gap, x, more) => Larger(GapDepth(gap), Larger(Deep(x), ItemsDepth(more)))
    case Dot(gap, gap1, x, gap2) =>
      Larger(Larger(GapDepth(gap), GapDepth(gap1)), Larger(Deep(x), GapDepth(gap2)))
  }

  // ----- tokens -----

  predicate Alphanumeric(c: char) {
    Digitlike(c) || 'A' <= c <= 'F' || 'a' <= c <= 'f'
  }

  lemma {:induction false} DigitIs(g: Digit)
    requires g.d < 16
    ensures DigitValue(DigitText(g)) == g.d && Alphanumeric(DigitText(g)) && (g.d < 10 ==> Digitlike(DigitText(g)))
  {
  }

  lemma {:induction false} DigitsAre(ds: seq<Digit>)
    ensures |DigitsText(ds)| == |ds| && forall i :: 0 <= i < |ds| ==> DigitsText(ds)[i] == DigitText(ds[i])
  {
    hide DigitText;
    if ds != [] {
      DigitsAre(ds[1..]);
    }
  }

  lemma {:induction false} DigitsParse(ds: seq<Digit>, base: nat, acc: nat)
    requires base <= 16 && forall i :: 0 <= i < |ds| ==> ds[i].d < base
    ensures ParseDigits(DigitsText(ds), base, acc) == Some(Value(ds, base, acc))
  {
    hide DigitText, DigitValue;
    if ds != [] {
      DigitIs(ds[0]);
      assert DigitsText(ds)[1..] == DigitsText(ds[1..]);
      DigitsParse(ds[1..], base, acc * base + ds[0].d);
    }
  }

  lemma {:induction false} DigitsPlain(ds: seq<Digit>, base: nat)
    requires base <= 16 && forall i :: 0 <= i < |ds| ==> ds[i].d < base
    ensures |DigitsText(ds)| == |ds| && forall i :: 0 <= i < |ds| ==> Alphanumeric(DigitsText(ds)[i])
    ensures base <= 10 ==> forall i :: 0 <= i < |ds| ==> Digitlike(DigitsText(ds)[i])
  {
    hide DigitText;
    DigitsAre(ds);
    forall i | 0 <= i < |ds|
      ensures Alphanumeric(DigitText(ds[i])) && (base <= 10 ==> Digitlike(DigitText(ds[i])))
    {
      DigitIs(ds[i]);
    }
  }

  function BaseOf(prefix: Option<(nat, char)>): nat {
    if prefix.Some? then prefix.value.0 else 10
  }

  lemma {:induction false} SignedParses(prefix: Option<(nat, char)>, sign: Sign, ds: seq<Digit>)
    requires WellNumber(prefix, sign, ds)
    ensures ParseInt(SignText(sign) + DigitsText(ds), BaseOf(prefix)) == Some(Integer(prefix, sign, ds))
  {
    hide DigitsText, ParseDigits, Value;
    DigitsParse(ds, BaseOf(prefix), 0);
    DigitsPlain(ds, BaseOf(prefix));
    var text := SignText(sign) + DigitsText(ds);
    assert Alphanumeric(DigitsText(ds)[0]);
    if sign.NoSign? {
      assert text == DigitsText(ds);
    } else {
      assert text[1..] == DigitsText(ds) && text[0] in "+-";
    }
  }

  lemma {:induction false} TwoPrefix(s: string, p: string)
    requires |p| == 2
    ensures p <= s <==> |s| >= 2 && s[0] == p[0] && s[1] == p[1]
  {
    if |s| >= 2 {
      assert s[..2] == [s[0], s[1]] && p == [p[0], p[1]];
    }
  }

  lemma {:induction false} NumericLooks(s: string)
    ensures Numeric(s) <==> LooksNumeric(s)
  {
    if s != [] && s[0] in "+-" {
      var body := s[1..];
      assert |s| > 1 ==> body[0] == s[1];
      assert |s| > 2 ==> body[1] == s[2];
    }
  }

  lemma {:induction false} LooksHidden(s: string)
    requires s != []
    ensures LooksNumeric(s) <==> Numeric(s)
  {
    NumericLooks(s);
  }

  predicate Radix(s: string) {
    |s| >= 2 && s[0] == '#' && s[1] in "xXbBoO"
  }

  /** Which kind of atom a token is, by its characters. */
  lemma {:induction false} AtomKinds(t: Lexicon, s: string)
    requires s != []
    ensures s == "true" || s == "#t" ==> AtomFromText(t, s) == Ok(SBool(true))
    ensures s == "false" || s == "#f" ==> AtomFromText(t, s) == Ok(SBool(false))
    ensures Radix(s) ==>
      AtomFromText(t, s) == RadixInt(s[2..], if s[1] in "xX" then 16 else if s[1] in "bB" then 2 else 8)
    ensures s !in ["true", "false", "#t", "#f"] && !Radix(s) ==>
      AtomFromText(t, s)
      == if !Numeric(s) then Ok(SSymbol(s))
         else if '.' in s || 'e' in s || 'E' in s then
           if t.float(s).Some? then Ok(SFloat(t.float(s).value)) else Err(BadNumber)
         else RadixInt(s, 10)
  {
    hide LooksNumeric, Numeric, ParseInt;
    LooksHidden(s);
    TwoPrefix(s, "#x");
    TwoPrefix(s, "#X");
    TwoPrefix(s, "#b");
    TwoPrefix(s, "#B");
    TwoPrefix(s, "#o");
    TwoPrefix(s, "#O");
    assert "true"[0] == 't' && "false"[0] == 'f' && "#t"[1] == 't' && "#f"[1] == 'f';
  }

  /** A number's first characters, and that it is one token. */
  lemma {:induction false} NumberPlain(t: Lexicon, prefix: Option<(nat, char)>, sign: Sign, ds: seq<Digit>)
    requires Sane(t) && Ordinary(t) && WellNumber(prefix, sign, ds)
    ensures var text := SpellNumber(prefix, sign, ds);
      Token(t, text) && text !in ["true", "false", "#t", "#f"]
      && (prefix.Some? ==> Radix(text) && text[1] == prefix.value.1 && text[2..] == SignText(sign) + DigitsText(ds))
      && (prefix.None? ==> text == SignText(sign) + DigitsText(ds) && text[0] in "+-0123456789" && Numeric(text)
                           && '.' !in text && 'e' !in text && 'E' !in text)
  {
    hide DigitsText, Integer, IsDelimiter;
    var text, body := SpellNumber(prefix, sign, ds), SignText(sign) + DigitsText(ds);
    DigitsPlain(ds, BaseOf(prefix));
    assert SignText(sign) == "" || SignText(sign) == "+" || SignText(sign) == "-";
    if prefix.Some? {
      assert text == ['#', prefix.value.1] + body && text[2..] == body;
      PlainToken(t, text);
      assert "true"[0] == 't' && "false"[0] == 'f' && "#t"[1] == 't' && "#f"[1] == 'f';
    } else {
      assert text == body;
      DecimalPlain(sign, DigitsText(ds));
      PlainToken(t, text);
      assert "true"[0] == 't' && "false"[0] == 'f' && "#t"[0] == '#' && "#f"[0] == '#';
    }
  }

  lemma {:induction false} PlainToken(t: Lexicon, text: string)
    requires Sane(t) && Ordinary(t) && text != []
    requires forall i :: 0 <= i < |text| ==> text[i] in "+-#xXbBoO" || Alphanumeric(text[i])
    ensures Token(t, text)
  {
    forall i | 0 <= i < |text|
      ensures !IsDelimiter(t, text[i])
    {
      assert '!' <= text[i] <= '~';
    }
  }

  lemma {:induction false} DecimalPlain(sign: Sign, digits: string)
    requires digits != [] && forall i :: 0 <= i < |digits| ==> Digitlike(digits[i])
    ensures var text := SignText(sign) + digits;
      text != [] && text[0] in "+-0123456789" && Numeric(text) && '.' !in text && 'e' !in text && 'E' !in text
      && forall i :: 0 <= i < |text| ==> text[i] in "+-" || Digitlike(text[i])
  {
    var text := SignText(sign) + digits;
    assert forall i :: 0 <= i < |text| ==> text[i] in "+-" || Digitlike(text[i]);
    assert text[0] == if sign.NoSign? then digits[0] else SignText(sign)[0];
    assert !sign.NoSign? ==> text[1] == digits[0];
  }

  lemma {:induction false} NumberAtom(t: Lexicon, prefix: Option<(nat, char)>, sign: Sign, ds: seq<Digit>)
    requires Sane(t) && Ordinary(t) && WellNumber(prefix, sign, ds)
    ensures AtomFromText(t, SpellNumber(prefix, sign, ds)) == Ok(SInt(Integer(prefix, sign, ds)))
  {
    hide SpellNumber, ParseInt, AtomFromText, Numeric, Integer, DigitsText;
    NumberPlain(t, prefix, sign, ds);
    AtomKinds(t, SpellNumber(prefix, sign, ds));
    SignedParses(prefix, sign, ds);
  }

  /** The tokens that are read as atoms. */
  predicate Atomic(x: Spelling) {
    x.Number? || x.Float? || x.Truth? || x.Name?
  }

  lemma {:induction false} AtomSpelled(t: Lexicon, x: Spelling, rest: string)
    requires Sane(t) && Ordinary(t) && Well(t, x, rest) && Atomic(x)
    ensures Token(t, Spell(x)) && AtomFromText(t, Spell(x)) == Ok(Denoted(x))
    ensures var text := Spell(x);
      (text[0] == '#' ==> if |text| > 1 then text[1] !in "|\\" else rest == [] || rest[0] !in "(;|\\")
  {
    hide AtomFromText, SpellNumber, Integer, Numeric;
    match x
    case Number(prefix, sign, ds) =>
      NumberPlain(t, prefix, sign, ds);
      NumberAtom(t, prefix, sign, ds);
    case Float(text, _) =>
      FloatPlain(text);
      AtomKinds(t, text);
    case Truth(b, long) => TruthAtom(t, b, long);
    case Name(name) =>
      AtomKinds(t, name);
      HashAlone(t, name, rest);
    case _ =>
  }

  lemma {:induction false} FloatPlain(text: string)
    requires Numeric(text)
    ensures text[0] in "+-.0123456789" && text !in ["true", "false", "#t", "#f"] && !Radix(text)
  {
    assert "true"[0] == 't' && "false"[0] == 'f' && "#t"[0] == '#' && "#f"[0] == '#';
  }

  lemma {:induction false} TruthAtom(t: Lexicon, b: bool, long: bool)
    requires Sane(t) && Ordinary(t)
    ensures Token(t, Spell(Truth(b, long))) && AtomFromText(t, Spell(Truth(b, long))) == Ok(SBool(b))
    ensures |Spell(Truth(b, long))| > 1 && Spell(Truth(b, long))[1] !in "|\\"
  {
    hide AtomFromText;
    var text := Spell(Truth(b, long));
    forall i | 0 <= i < |text|
      ensures !IsDelimiter(t, text[i])
    {
      assert '!' <= text[i] <= '~';
    }
    AtomKinds(t, text);
  }

  lemma {:induction false} HashAlone(t: Lexicon, name: string, rest: string)
    requires Sane(t) && WellName(t, name, rest) && Separated(t, rest)
    ensures name[0] == '#' ==> if |name| > 1 then name[1] !in "|\\" else rest == [] || rest[0] !in "(;|\\"
  {
    hide Numeric;
    assert |name| == 1 ==> name == [name[0]];
  }

  lemma {:induction false} StrReads(chars: seq<StrChar>, rest: string)
    requires forall i :: 0 <= i < |chars| ==> WellStrChar(chars[i])
    ensures ReadString(SpellStr(chars) + rest) == Ok((Content(chars), rest))
    decreases |chars|
  {
    hide Suffix;
    var s := SpellStr(chars) + rest;
    if chars == [] {
      assert s[1..] == rest;
    } else {
      StrReads(chars[1..], rest);
      var more := SpellStr(chars[1..]) + rest;
      var c := chars[0].c;
      if chars[0].Raw? {
        assert s[0] == c && s[1..] == more;
      } else {
        assert s[0] == '\\' && s[2..] == more;
      }
    }
  }

  lemma {:induction false} CharacterReads(t: Lexicon, c: char, named: bool, rest: string)
    requires Sane(t) && Ordinary(t) && (named || t.alpha(c) ==> Separated(t, rest)) && (named ==> c in " \n\t")
    ensures ReadCharacter(t, SpellChar(c, named) + rest) == Ok((SChar(c), rest))
  {
    hide IsDelimiter;
    var name := SpellChar(c, named);
    if named {
      LettersArePlain(t, name);
      RoundTrip.NameReads(t, name, rest);
    } else {
      var s := [c] + rest;
      assert s[0] == c && s[1..] == rest && s[..1] == [c];
      if t.alpha(c) {
        NoToken(t, rest);
      }
    }
  }

  // ----- gaps -----

  lemma {:induction false} NestFilled(b: Nest)
    ensures |SpellNest(b)| >= 2
  {
    match b
    case EndBlock =>
    case Inside(_, more) => NestFilled(more);
    case Inner(body, more) => NestFilled(more);
  }

  /** A block comment ends where its own end is. */
  lemma {:induction false} NestSkips(b: Nest, u: string, d: nat)
    requires WellNest(b) && d > 0
    ensures SkipBlock(SpellNest(b) + u, d) == if d == 1 then Ok(u) else SkipBlock(u, d - 1)
    decreases b
  {
    hide Suffix;
    var s := SpellNest(b) + u;
    match b
    case EndBlock =>
      assert s[..2] == "|#" && s[2..] == u && s[0] == '|';
      assert !("#|" <= s);
    case Inside(c, more) =>
      NestFilled(more);
      var v := SpellNest(more) + u;
      assert s == [c] + v && s[1..] == v && s[0] == c && s[1] == SpellNest(more)[0];
      assert SpellNest(more)[..1] == [SpellNest(more)[0]];
      TwoPrefix(s, "#|");
      TwoPrefix(s, "|#");
      NestSkips(more, u, d);
    case Inner(body, more) =>
      var v := SpellNest(more) + u;
      assert s == "#|" + (SpellNest(body) + v) && s[2..] == SpellNest(body) + v && s[..2] == "#|";
      NestSkips(body, v, d + 1);
      NestSkips(more, u, d);
  }

  lemma {:induction false} LineSkips(text: string, u: string)
    requires '\n' !in text
    ensures SkipLine(text + ("\n" + u)) == u
    decreases |text|
  {
    hide Suffix;
    var s := text + ("\n" + u);
    if text == [] {
      assert s == "\n" + u && s[1..] == u;
    } else {
      assert s[0] == text[0] && s[1..] == text[1..] + ("\n" + u);
      LineSkips(text[1..], u);
    }
  }

  /** One step of skipping, by what the text starts with. */
  lemma {:induction false} SkipStep(t: Lexicon, s: string, k: nat)
    ensures LeadOf(t, s).White? ==> Skip(t, s, k) == Skip(t, s[1..], k)
    ensures LeadOf(t, s).Line? ==> Skip(t, s, k) == Skip(t, SkipLine(s[1..]), k)
    ensures LeadOf(t, s).Block? && SkipBlock(s[2..], 1).Ok? ==>
      Skip(t, s, k) == Skip(t, SkipBlock(s[2..], 1).value, k)
    ensures LeadOf(t, s).Hidden? && ReadForm(t, s[2..], k).Ok? && ReadForm(t, s[2..], k).value.0.Some? ==>
      Skip(t, s, k) == Skip(t, ReadForm(t, s[2..], k).value.1, k)
  {
    hide ReadForm, LeadOf, Suffix, SkipBlock, SkipLine;
  }

  lemma {:induction false} GapLead(t: Lexicon, s: string)
    requires Sane(t) && s != []
    ensures t.white(s[0]) ==> LeadOf(t, s).White?
    ensures s[0] == ';' ==> LeadOf(t, s).Line?
    ensures |s| > 1 && s[0] == '#' && s[1] == '|' ==> LeadOf(t, s).Block?
    ensures |s| > 1 && s[0] == '#' && s[1] == ';' ==> LeadOf(t, s).Hidden?
  {
    TwoPrefix(s, "#|");
    TwoPrefix(s, "#;");
  }

  /** Nothing in a gap is left when the text behind it is looked at. */
  lemma {:induction false} GapSkips(t: Lexicon, g: Gap, u: string, k: nat)
    requires Sane(t) && Ordinary(t) && WellGap(t, g, u) && k + GapDepth(g) <= 512
    ensures Skip(t, SpellGap(g) + u, k) == Skip(t, u, k)
    decreases g, 1
  {
    hide ReadForm, Suffix, Well, Skip, LeadOf, Spell, SpellNest, Deep, SkipLine, SkipBlock;
    var s := SpellGap(g) + u;
    if g.NoGap? {
      assert s == u;
    } else {
      var v := SpellGap(g.more) + u;
      GapLead(t, s);
      SkipStep(t, s, k);
      match g
      case Blank(c, more) => assert s[0] == c && s[1..] == v;
      case LineComment(text, more) =>
        assert s[0] == ';' && s[1..] == text + ("\n" + v);
        LineSkips(text, v);
      case BlockComment(body, more) =>
        assert s[0] == '#' && s[1] == '|' && s[2..] == SpellNest(body) + v;
        NestSkips(body, v, 1);
      case HiddenDatum(before, x, more) =>
        var body := Spell(x) + v;
        assert s[0] == '#' && s[1] == ';' && s[2..] == SpellGap(before) + body;
        GapSkips(t, before, body, k);
        SkippedForm(t, SpellGap(before) + body, body, k);
        FormReads(t, x, v, k);
    }
    if !g.NoGap? {
      GapSkips(t, g.more, u, k);
    }
  }

  // ----- data -----

  /** `s` starts a datum or its mark: nothing to skip, and not the end of a list. */
  ghost predicate Starts(t: Lexicon, s: string) {
    s != [] && LeadOf(t, s) == Other && s[0] != ')'
  }

  lemma {:induction false} Begins(t: Lexicon, s: string)
    requires s != [] && !t.white(s[0]) && s[0] !in ";)" && (s[0] == '#' && |s| > 1 ==> s[1] !in "|;")
    ensures Starts(t, s)
  {
    TwoPrefix(s, "#|");
    TwoPrefix(s, "#;");
  }

  lemma {:induction false} SpellStarts(t: Lexicon, x: Spelling, rest: string)
    requires Sane(t) && Ordinary(t) && Well(t, x, rest)
    ensures Spell(x) != [] && Starts(t, Spell(x) + rest)
  {
    hide WellGap, WellItems, SpellGap, SpellItems, SpellNumber;
    var s := Spell(x) + rest;
    if Atomic(x) {
      AtomSpelled(t, x, rest);
      assert s[0] == Spell(x)[0] && !IsDelimiter(t, s[0]);
      assert |s| > 1 ==> s[1] == if |Spell(x)| > 1 then Spell(x)[1] else rest[0];
      assert |Spell(x)| > 1 ==> !IsDelimiter(t, Spell(x)[1]);
    } else {
      assert s[0] == Spell(x)[0];
      assert x.Character? || x.VectorOf? ==> s[1] == Spell(x)[1];
    }
    Begins(t, s);
  }

  lemma {:induction false} FormOf(t: Lexicon, s: string, k: nat)
    requires Starts(t, s)
    ensures Skip(t, s, k) == Ok(s)
    ensures ReadForm(t, s, k)
         == if k + 1 > MAX_NESTING_DEPTH then Err(TooDeep)
            else if ReadBody(t, s, k + 1).Ok? then Ok((Some(ReadBody(t, s, k + 1).value.0),
              ReadBody(t, s, k + 1).value.1))
            else Err(ReadBody(t, s, k + 1).error)
  {
    hide ReadBody, LeadOf;
  }

  /** One element, and then the rest. */
  lemma {:induction false} ElementOf(t: Lexicon, s: string, k: nat, acc: seq<Sexpr>)
    requires Starts(t, s)
    ensures !LoneDot(t, s) ==>
      ReadList(t, s, k, acc)
      == match ReadForm(t, s, k)
         case Err(e) => Err(e)
         case Ok((x, rest)) => if x.None? then Err(UnterminatedList) else ReadList(t, rest, k, acc + [x.value])
    ensures ReadVector(t, s, k, acc)
         == match ReadForm(t, s, k)
            case Err(e) => Err(e)
            case Ok((x, rest)) => if x.None? then Err(UnterminatedVector) else ReadVector(t, rest, k, acc + [x.value])
  {
    hide ReadForm, LeadOf, LoneDot;
    FormOf(t, s, k);
  }

  /** Only the name of one dot looks like the dot of a list. */
  lemma {:induction false} NoLoneDot(t: Lexicon, x: Spelling, rest: string)
    requires Sane(t) && Ordinary(t) && Well(t, x, rest) && x != Name(".")
    ensures !LoneDot(t, Spell(x) + rest)
  {
    hide WellGap, WellItems, SpellGap, SpellItems, SpellNumber, AtomFromText;
    var s := Spell(x) + rest;
    if Atomic(x) {
      AtomSpelled(t, x, rest);
      assert s[0] == Spell(x)[0];
      if |Spell(x)| > 1 {
        assert s[1] == Spell(x)[1] && !IsDelimiter(t, s[1]);
      } else if s[0] == '.' {
        assert Spell(x) == ['.'];
        OneCharacter(t, x, rest);
      }
    } else {
      assert s[0] == Spell(x)[0] && "."[0] == '.';
    }
  }

  lemma {:induction false} OneCharacter(t: Lexicon, x: Spelling, rest: string)
    requires Sane(t) && Ordinary(t) && Well(t, x, rest) && Atomic(x) && Spell(x) == "."
    ensures x == Name(".")
  {
    hide AtomFromText, DigitsText;
    match x
    case Number(prefix, sign, ds) =>
      NumberPlain(t, prefix, sign, ds);
      assert false;
    case _ =>
  }

  /** A datum in any spelling, with `rest` behind it. */
  lemma {:induction false} FormReads(t: Lexicon, x: Spelling, rest: string, k: nat)
    requires Sane(t) && Ordinary(t) && Well(t, x, rest) && k + Deep(x) <= 512
    ensures ReadForm(t, Spell(x) + rest, k) == Ok((Some(Denoted(x)), rest))
    decreases x, 2
  {
    hide ReadBody, Skip, ReadForm, Well, Deep, Spell, Denoted;
    SpellStarts(t, x, rest);
    FormOf(t, Spell(x) + rest, k);
    BodyReads(t, x, rest, k);
  }

  /** The forms by their first characters. */
  lemma {:induction false} BodyStarts(t: Lexicon, s: string, k: nat)
    ensures ReadBody(t, "\"" + s, k)
         == if ReadString(s).Ok? then Ok((SStr(ReadString(s).value.0), ReadString(s).value.1))
            else Err(ReadString(s).error)
    ensures ReadBody(t, "#\\" + s, k) == ReadCharacter(t, s)
  {
    hide ReadList, ReadVector, ReadTagged, ReadAtom, ReadString, ReadCharacter;
    assert ("\"" + s)[1..] == s && ("#\\" + s)[2..] == s;
    TwoPrefix("#\\" + s, "#(");
    TwoPrefix("#\\" + s, "#\\");
  }

  lemma {:induction false} MarkStarts(t: Lexicon, m: Mark, s: string, k: nat)
    requires m.Comma? ==> s == [] || s[0] != '@'
    ensures ReadBody(t, SpellMark(m) + s, k) == ReadTagged(t, s, k, Tag(m))
  {
    hide ReadList, ReadVector, ReadTagged, ReadAtom, ReadString, ReadCharacter;
    var u := SpellMark(m) + s;
    TwoPrefix(u, ",@");
    if m.CommaAt? {
      assert u[2..] == s;
    } else {
      assert u[1..] == s;
    }
  }

  /** What starts none of the other forms is an atom. */
  lemma {:induction false} AtomBody(t: Lexicon, s: string, k: nat)
    requires s != [] && s[0] !in "()\"'`," && (s[0] == '#' && |s| > 1 ==> s[1] !in "(\\")
    ensures ReadBody(t, s, k + 1) == ReadAtom(t, s)
  {
    hide ReadList, ReadVector, ReadTagged, ReadAtom, ReadString, ReadCharacter;
    TwoPrefix(s, "#(");
    TwoPrefix(s, "#\\");
  }

  lemma {:induction false} AtomicReads(t: Lexicon, x: Spelling, rest: string, k: nat)
    requires Sane(t) && Ordinary(t) && Well(t, x, rest) && Atomic(x)
    ensures Spell(x) != [] && ReadBody(t, Spell(x) + rest, k + 1) == Ok((Denoted(x), rest))
  {
    hide ReadBody, AtomFromText, SpellNumber, Denoted;
    var s := Spell(x) + rest;
    AtomSpelled(t, x, rest);
    assert Separated(t, rest);
    AtomReads(t, Spell(x), rest);
    assert s[0] == Spell(x)[0] && !IsDelimiter(t, s[0]);
    assert |s| > 1 ==> s[1] == if |Spell(x)| > 1 then Spell(x)[1] else rest[0];
    assert |Spell(x)| > 1 ==> !IsDelimiter(t, Spell(x)[1]);
    AtomBody(t, s, k);
  }

  lemma {:induction false} LiteralReads(t: Lexicon, x: Spelling, rest: string, k: nat)
    requires Sane(t) && Ordinary(t) && Well(t, x, rest) && (x.Character? || x.Str?)
    ensures Spell(x) != [] && ReadBody(t, Spell(x) + rest, k + 1) == Ok((Denoted(x), rest))
  {
    hide ReadString, ReadCharacter, SpellStr, SpellChar, ReadBody, IsDelimiter;
    if x.Character? {
      CharacterReads(t, x.c, x.named, rest);
      assert Spell(x) + rest == "#\\" + (SpellChar(x.c, x.named) + rest);
      BodyStarts(t, SpellChar(x.c, x.named) + rest, k + 1);
    } else {
      StrReads(x.chars, rest);
      assert Spell(x) + rest == "\"" + (SpellStr(x.chars) + rest);
      BodyStarts(t, SpellStr(x.chars) + rest, k + 1);
    }
  }

  lemma {:induction false} BodyReads(t: Lexicon, x: Spelling, rest: string, k: nat)
    requires Sane(t) && Ordinary(t) && Well(t, x, rest) && k + Deep(x) <= 512
    ensures Spell(x) != [] && ReadBody(t, Spell(x) + rest, k + 1) == Ok((Denoted(x), rest))
    decreases x, 1
  {
    hide ReadForm, ReadList, ReadVector, ReadTagged, ReadAtom, ReadString, ReadCharacter, WellGap, WellItems;
    hide SpellItems, SpellGap, SpellNumber, SpellStr, SpellChar, ReadBody, AtomFromText, IsDelimiter;
    var s := Spell(x) + rest;
    if Atomic(x) {
      AtomicReads(t, x, rest, k);
    } else if x.Quoted? {
      QuotedReads(t, x, rest, k);
    } else if x.Character? || x.Str? {
      LiteralReads(t, x, rest, k);
    } else if x.ListOf? {
      ItemsRead(t, x.items, rest, k + 1, []);
      assert s == "(" + (SpellItems(x.items) + rest);
      OpenBody(t, SpellItems(x.items) + rest, k + 1);
    } else {
      VectorReads(t, x.items, rest, k + 1, []);
      assert [] + DenotedItems(x.items) == DenotedItems(x.items);
      assert s == "#(" + (SpellItems(x.items) + rest);
      OpenBody(t, SpellItems(x.items) + rest, k + 1);
    }
  }

  /** Skipping a gap first makes no difference to what is read. */
  lemma {:induction false} SkippedForm(t: Lexicon, s: string, u: string, k: nat)
    requires Skip(t, s, k) == Skip(t, u, k)
    ensures ReadForm(t, s, k) == ReadForm(t, u, k)
  {
    hide ReadBody, Skip;
  }

  lemma {:induction false} SkippedItems(t: Lexicon, s: string, u: string, k: nat, acc: seq<Sexpr>)
    requires Skip(t, s, k) == Skip(t, u, k)
    ensures ReadList(t, s, k, acc) == ReadList(t, u, k, acc) && ReadVector(t, s, k, acc) == ReadVector(t, u, k, acc)
  {
    hide ReadForm, Skip, ReadTail, LoneDot;
  }

  lemma {:induction false} QuotedReads(t: Lexicon, x: Spelling, rest: string, k: nat)
    requires x.Quoted? && Sane(t) && Ordinary(t) && Well(t, x, rest) && k + Deep(x) <= 512
    ensures Spell(x) != [] && ReadBody(t, Spell(x) + rest, k + 1) == Ok((Denoted(x), rest))
    decreases x, 0
  {
    hide ReadForm, ReadBody, WellGap, WellItems, SpellGap, Skip, SpellMark, SpellItems, SpellNumber, SpellStr;
    var body := Spell(x.x) + rest;
    var s, u := Spell(x) + rest, SpellGap(x.gap) + body;
    GapSkips(t, x.gap, body, k + 1);
    SkippedForm(t, u, body, k + 1);
    FormReads(t, x.x, rest, k + 1);
    BodyReads(t, x.x, rest, k + 1);
    assert s == SpellMark(x.mark) + u;
    if x.mark.Comma? {
      NotSplicing(SpellGap(x.gap), Spell(x.x), rest);
    }
    MarkStarts(t, x.mark, u, k + 1);
  }

  lemma {:induction false} NotSplicing(gap: string, body: string, rest: string)
    requires body != []
    ensures (gap + (body + rest))[0] != '@' <==> (gap + body)[..1] != "@"
  {
    var v := gap + body;
    assert v[..1] == [v[0]] && (gap + (body + rest))[0] == v[0];
  }

  /** The elements of a list, behind those in `acc`. */
  lemma {:induction false} ItemsRead(t: Lexicon, items: Items, rest: string, k: nat, acc: seq<Sexpr>)
    requires Sane(t) && Ordinary(t) && WellItems(t, items, rest) && !DotNamed(items) && k + ItemsDepth(items) <= 512
    ensures ReadList(t, SpellItems(items) + rest, k, acc) == Ok((DenotedList(items, acc), rest))
    decreases items, 2
  {
    hide ReadForm, ReadList, Skip, Well, WellGap, Spell, SpellGap, Denoted, Deep, GapDepth, LoneDot;
    match items
    case Close(gap) =>
      var u := ")" + rest;
      assert SpellItems(items) + rest == SpellGap(gap) + u;
      GapSkips(t, gap, u, k);
      SkippedItems(t, SpellGap(gap) + u, u, k, acc);
      CloseEnds(t, rest, k, acc);
    case Item(gap, x, more) =>
      var v := SpellItems(more) + rest;
      var u := Spell(x) + v;
      assert SpellItems(items) + rest == SpellGap(gap) + u;
      GapSkips(t, gap, u, k);
      SkippedItems(t, SpellGap(gap) + u, u, k, acc);
      SpellStarts(t, x, v);
      NoLoneDot(t, x, v);
      ElementOf(t, u, k, acc);
      FormReads(t, x, v, k);
      ItemsRead(t, more, rest, k, acc + [Denoted(x)]);
    case Dot(_, _, _, _) => DotReads(t, items, rest, k, acc);
  }

  lemma {:induction false} VectorReads(t: Lexicon, items: Items, rest: string, k: nat, acc: seq<Sexpr>)
    requires Sane(t) && Ordinary(t) && WellItems(t, items, rest) && !Dotted(items) && k + ItemsDepth(items) <= 512
    ensures ReadVector(t, SpellItems(items) + rest, k, acc) == Ok((SVector(acc + DenotedItems(items)), rest))
    decreases items, 2
  {
    hide ReadForm, ReadVector, Skip, Well, WellGap, Spell, SpellGap, Denoted, Deep, GapDepth;
    match items
    case Close(gap) =>
      var u := ")" + rest;
      assert SpellItems(items) + rest == SpellGap(gap) + u;
      GapSkips(t, gap, u, k);
      SkippedItems(t, SpellGap(gap) + u, u, k, acc);
      CloseEnds(t, rest, k, acc);
      assert acc + [] == acc;
    case Item(gap, x, more) =>
      var v := SpellItems(more) + rest;
      var u := Spell(x) + v;
      assert SpellItems(items) + rest == SpellGap(gap) + u;
      GapSkips(t, gap, u, k);
      SkippedItems(t, SpellGap(gap) + u, u, k, acc);
      SpellStarts(t, x, v);
      ElementOf(t, u, k, acc);
      FormReads(t, x, v, k);
      VectorReads(t, more, rest, k, acc + [Denoted(x)]);
      assert acc + [Denoted(x)] + DenotedItems(more) == acc + ([Denoted(x)] + DenotedItems(more));
  }

  lemma {:induction false} DotStarts(t: Lexicon, s: string, k: nat, acc: seq<Sexpr>)
    requires Sane(t) && Ordinary(t) && Separated(t, s)
    ensures ReadList(t, "." + s, k, acc) == ReadTail(t, s, k, acc)
  {
    hide ReadForm, ReadTail, LeadOf, LoneDot, Suffix, IsDelimiter;
    var u := "." + s;
    assert u[0] == '.' && u[1..] == s;
    DotStands(t, s);
  }

  lemma {:induction false} DotStands(t: Lexicon, s: string)
    requires Sane(t) && Ordinary(t) && Separated(t, s)
    ensures LeadOf(t, "." + s) == Other && LoneDot(t, "." + s)
  {
    var u := "." + s;
    TwoPrefix(u, "#|");
    TwoPrefix(u, "#;");
    assert u[0] == '.' && (s != [] ==> u[1] == s[0]);
  }

  lemma {:induction false} DotReads(t: Lexicon, items: Items, rest: string, k: nat, acc: seq<Sexpr>)
    requires items.Dot? && Sane(t) && Ordinary(t) && WellItems(t, items, rest) && k + ItemsDepth(items) <= 512
    ensures ReadList(t, SpellItems(items) + rest, k, acc) == Ok((DenotedList(items, acc), rest))
    decreases items, 1
  {
    hide ReadForm, ReadTail, Skip, Well, WellGap, Spell, SpellGap, Denoted, Deep, GapDepth, Suffix;
    var end := SpellGap(items.gap2) + (")" + rest);
    var body := Spell(items.x) + end;
    var tail := SpellGap(items.gap1) + body;
    var u := "." + tail;
    assert SpellItems(items) + rest == SpellGap(items.gap) + u;
    GapSkips(t, items.gap, u, k);
    SkippedItems(t, SpellGap(items.gap) + u, u, k, acc);
    DotStarts(t, tail, k, acc);
    GapSkips(t, items.gap1, body, k);
    SpellStarts(t, items.x, end);
    FormOf(t, body, k);
    FormReads(t, items.x, end, k);
    GapSkips(t, items.gap2, ")" + rest, k);
    CloseEnds(t, rest, k, acc);
    TailReads(t, tail, body, end, rest, Denoted(items.x), k, acc);
  }

  lemma {:induction false} TailReads(t: Lexicon, tail: string, body: string, end: string, rest: string, x: Sexpr,
        k: nat, acc: seq<Sexpr>)
    requires Skip(t, tail, k) == Ok(body) && ReadForm(t, body, k) == Ok((Some(x), end))
    requires Skip(t, end, k) == Ok(")" + rest)
    ensures ReadTail(t, tail, k, acc) == Ok((SDotted(acc, x), rest))
  {
    hide ReadForm, Skip, Suffix;
    assert (")" + rest)[1..] == rest;
  }

  /**
   Whatever way a datum is spelled, after whatever gap, reading it gives the datum and
   leaves exactly the text behind it.
   */
  lemma {:induction false} SpellingReads(t: Lexicon, g: Gap, x: Spelling, rest: string, k: nat)
    requires Sane(t) && Ordinary(t) && WellGap(t, g, Spell(x) + rest) && Well(t, x, rest)
    requires k + GapDepth(g) <= 512 && k + Deep(x) <= 512
    ensures ReadForm(t, SpellGap(g) + (Spell(x) + rest), k) == Ok((Some(Denoted(x)), rest))
  {
    hide ReadForm, Well, WellGap, Skip;
    GapSkips(t, g, Spell(x) + rest, k);
    SkippedForm(t, SpellGap(g) + (Spell(x) + rest), Spell(x) + rest, k);
    FormReads(t, x, rest, k);
  }
}
