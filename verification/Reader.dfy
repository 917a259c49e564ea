/**
 The grammar of source text as functions from a text to what is read and what is left.
 Character classes and float syntax are parameters; whether `#` may stand inside a token
 where it looks like a marker is one too, so that the texts without that can be singled out.
 */
module Reader {
  import opened Prelude

  const MAX_NESTING_DEPTH: nat := 512

  datatype Sexpr =
    | SInt(n: int)
    | SFloat(bits: int)
    | SBool(b: bool)
    | SChar(c: char)
    | SStr(s: string)
    | SSymbol(s: string)
    | SList(items: seq<Sexpr>)
    | SDotted(items: seq<Sexpr>, tail: Sexpr)
    | SVector(items: seq<Sexpr>)

  datatype ReadError =
    | UnterminatedComment
    | DatumExpected
    | TooDeep
    | UnexpectedClose
    | UnterminatedString
    | NewlineInString
    | BadEscape
    | CharacterExpected
    | UnknownCharacter
    | UnterminatedVector
    | UnterminatedList
    | CloseExpected
    | EmptyToken
    | BadNumber
    | MarkerInToken

  /** Unicode tables and the float parser, which this model leaves open. */
  datatype Lexicon = Lexicon(white: char -> bool, alpha: char -> bool, float: string -> Option<int>,
        markersInTokens: bool)

  type Text = seq<char>

  /** What a successful read consumed: the text up to where `rest` starts. */
  predicate Suffix(rest: Text, s: Text) {
    |rest| <= |s| && s[|s| - |rest|..] == rest
  }

  predicate IsDelimiter(t: Lexicon, c: char) {
    t.white(c) || c in "()\";'`,"
  }

  // ----- atoms -----

  function DigitValue(c: char): nat {
    if '0' <= c <= '9' then c as int - '0' as int
    else if 'a' <= c <= 'z' then c as int - 'a' as int + 10
    else if 'A' <= c <= 'Z' then c as int - 'A' as int + 10
    else 36
  }

  function ParseDigits(ds: Text, radix: nat, acc: nat): Option<nat> {
    if ds == [] then Some(acc)
    else if DigitValue(ds[0]) >= radix then None
    else ParseDigits(ds[1..], radix, acc * radix + DigitValue(ds[0]))
  }

  /** `i64::from_str_radix`: an optional sign, at least one digit, and a value in range. */
  function ParseInt(text: Text, radix: nat): Option<int> {
    var signed := text != [] && text[0] in "+-";
    var digits := if signed then text[1..] else text;
    if digits == [] then None
    else
      match ParseDigits(digits, radix, 0)
      case None => None
      case Some(n) =>
        var m: int := n;
        var v := if signed && text[0] == '-' then -m else m;
        if I64_MIN <= v <= I64_MAX then Some(v) else None
  }

  predicate AsciiDigit(c: char) {
    '0' <= c <= '9'
  }

  /** A digit, or a point and a digit, after an optional sign. */
  predicate LooksNumeric(text: Text) {
    var body := if text != [] && text[0] in "+-" then text[1..] else text;
    body != [] && (AsciiDigit(body[0]) || (body[0] == '.' && |body| > 1 && AsciiDigit(body[1])))
  }

  function AtomFromText(t: Lexicon, text: Text): Result<Sexpr, ReadError> {
    if text == "true" || text == "#t" then Ok(SBool(true))
    else if text == "false" || text == "#f" then Ok(SBool(false))
    else if "#x" <= text || "#X" <= text then RadixInt(text[2..], 16)
    else if "#b" <= text || "#B" <= text then RadixInt(text[2..], 2)
    else if "#o" <= text || "#O" <= text then RadixInt(text[2..], 8)
    else if LooksNumeric(text) then
      if '.' in text || 'e' in text || 'E' in text then
        var f := t.float(text);
        if f.Some? then Ok(SFloat(f.value)) else Err(BadNumber)
      else RadixInt(text, 10)
    else Ok(SSymbol(text))
  }

  function RadixInt(body: Text, radix: nat): Result<Sexpr, ReadError> {
    var n := ParseInt(body, radix);
    if n.Some? then Ok(SInt(n.value)) else Err(BadNumber)
  }

  /** The length of the token at the front of the text. */
  function TokenLen(t: Lexicon, s: Text): (n: nat)
    ensures n <= |s|
  {
    if s == [] || IsDelimiter(t, s[0]) then 0 else 1 + TokenLen(t, s[1..])
  }

  /** No `#` in the first `n` characters stands before one that could make it a marker. */
  predicate Tame(s: Text, n: nat)
    requires n <= |s|
  {
    forall i | 0 <= i < n && i + 1 < |s| && s[i] == '#' :: s[i + 1] !in "\\|;"
  }

  function ReadAtom(t: Lexicon, s: Text): (r: Result<(Sexpr, Text), ReadError>)
    ensures r.Ok? ==> |r.value.1| < |s| && Suffix(r.value.1, s)
  {
    var n := TokenLen(t, s);
    if n == 0 then Err(EmptyToken)
    else if !t.markersInTokens && !Tame(s, n) then Err(MarkerInToken)
    else
      var x :- AtomFromText(t, s[..n]);
      Ok((x, s[n..]))
  }

  /** After the opening quote. */
  function ReadString(s: Text): (r: Result<(string, Text), ReadError>)
    ensures r.Ok? ==> |r.value.1| < |s| && Suffix(r.value.1, s)
  {
    if s == [] then Err(UnterminatedString)
    else if s[0] == '"' then Ok(("", s[1..]))
    else if s[0] == '\n' then Err(NewlineInString)
    else if s[0] == '\\' then
      if |s| == 1 then Err(UnterminatedString)
      else
        var c :- Unescape(s[1]);
        var (text, rest) :- ReadString(s[2..]);
        Ok(([c] + text, rest))
    else
      var (text, rest) :- ReadString(s[1..]);
      Ok(([s[0]] + text, rest))
  }

  function Unescape(c: char): Result<char, ReadError> {
    match c
    case 'n' => Ok('\n')
    case 't' => Ok('\t')
    case 'r' => Ok('\r')
    case '"' => Ok('"')
    case '\\' => Ok('\\')
    case _ => Err(BadEscape)
  }

  /** After `#\`: one character, or a name when it starts with a letter. */
  function ReadCharacter(t: Lexicon, s: Text): (r: Result<(Sexpr, Text), ReadError>)
    ensures r.Ok? ==> |r.value.1| < |s| && Suffix(r.value.1, s)
  {
    if s == [] then Err(CharacterExpected)
    else
      var n := if t.alpha(s[0]) then 1 + TokenLen(t, s[1..]) else 1;
      var name := s[..n];
      if n == 1 then Ok((SChar(s[0]), s[1..]))
      else if name == "space" then Ok((SChar(' '), s[n..]))
      else if name == "newline" then Ok((SChar('\n'), s[n..]))
      else if name == "tab" then Ok((SChar('\t'), s[n..]))
      else Err(UnknownCharacter)
  }

  // ----- comments -----

  /** After a `;`: the text behind the next newline. */
  function SkipLine(s: Text): (r: Text)
    ensures |r| <= |s| && Suffix(r, s)
  {
    if s == [] then [] else if s[0] == '\n' then s[1..] else SkipLine(s[1..])
  }

  /** Inside `depth` block comments. */
  function SkipBlock(s: Text, depth: nat): (r: Result<Text, ReadError>)
    requires depth > 0
    ensures r.Ok? ==> |r.value| <= |s| && Suffix(r.value, s)
  {
    if s == [] then Err(UnterminatedComment)
    else if "#|" <= s then SkipBlock(s[2..], depth + 1)
    else if "|#" <= s then if depth == 1 then Ok(s[2..]) else SkipBlock(s[2..], depth - 1)
    else SkipBlock(s[1..], depth)
  }

  datatype Lead = White | Line | Block | Hidden | Other

  /** What kind of atmosphere the text starts with. */
  function LeadOf(t: Lexicon, s: Text): (r: Lead)
    ensures r.White? || r.Line? ==> s != []
    ensures r.Block? || r.Hidden? ==> |s| >= 2
  {
    if s == [] then Other
    else if t.white(s[0]) then White
    else if s[0] == ';' then Line
    else if "#|" <= s then Block
    else if "#;" <= s then Hidden
    else Other
  }

  /** White space, line and block comments, and `#;` with the datum it hides. */
  function Skip(t: Lexicon, s: Text, depth: nat): (r: Result<Text, ReadError>)
    ensures r.Ok? ==> |r.value| <= |s| && Suffix(r.value, s)
    decreases |s|, 1
  {
    match LeadOf(t, s)
    case White => Skip(t, s[1..], depth)
    case Line => Skip(t, SkipLine(s[1..]), depth)
    case Block =>
      var rest :- SkipBlock(s[2..], 1);
      Skip(t, rest, depth)
    case Hidden =>
      var (x, rest) :- ReadForm(t, s[2..], depth);
      if x.None? then Err(DatumExpected) else Skip(t, rest, depth)
    case Other => Ok(s)
  }

  // ----- data -----

  predicate LoneDot(t: Lexicon, s: Text) {
    s != [] && s[0] == '.' && (|s| == 1 || IsDelimiter(t, s[1]))
  }

  /** One datum, if any is left; `depth` counts the data around it. */
  function ReadForm(t: Lexicon, s: Text, depth: nat): (r: Result<(Option<Sexpr>, Text), ReadError>)
    ensures r.Ok? ==> |r.value.1| <= |s| && Suffix(r.value.1, s)
    ensures r.Ok? && r.value.0.Some? ==> |r.value.1| < |s|
    ensures r.Ok? && r.value.0.None? ==> r.value.1 == []
    decreases |s|, 2
  {
    var s1 :- Skip(t, s, depth);
    if s1 == [] then Ok((None, []))
    else if depth + 1 > MAX_NESTING_DEPTH then Err(TooDeep)
    else
      var (x, rest) :- ReadBody(t, s1, depth + 1);
      Ok((Some(x), rest))
  }

  function ReadBody(t: Lexicon, s: Text, depth: nat): (r: Result<(Sexpr, Text), ReadError>)
    requires s != []
    ensures r.Ok? ==> |r.value.1| < |s| && Suffix(r.value.1, s)
    decreases |s|, 0
  {
    match s[0]
    case '(' => ReadList(t, s[1..], depth, [])
    case ')' => Err(UnexpectedClose)
    case '"' =>
      var (text, rest) :- ReadString(s[1..]);
      Ok((SStr(text), rest))
    case '#' =>
      if "#(" <= s then ReadVector(t, s[2..], depth, [])
      else if "#\\" <= s then ReadCharacter(t, s[2..])
      else ReadAtom(t, s)
    case '\'' => ReadTagged(t, s[1..], depth, "quote")
    case '`' => ReadTagged(t, s[1..], depth, "quasiquote")
    case ',' =>
      if ",@" <= s then ReadTagged(t, s[2..], depth, "unquote-splicing") else ReadTagged(t, s[1..], depth, "unquote")
    case _ => ReadAtom(t, s)
  }

  /** A quote mark's datum. */
  function ReadTagged(t: Lexicon, s: Text, depth: nat, tag: string): (r: Result<(Sexpr, Text), ReadError>)
    ensures r.Ok? ==> |r.value.1| < |s| && Suffix(r.value.1, s)
    decreases |s|, 3
  {
    var (x, rest) :- ReadForm(t, s, depth);
    if x.None? then Err(DatumExpected) else Ok((SList([SSymbol(tag), x.value]), rest))
  }

  /** After `(` and the data in `items`. */
  function ReadList(t: Lexicon, s: Text, depth: nat, items: seq<Sexpr>): (r: Result<(Sexpr, Text), ReadError>)
    ensures r.Ok? ==> |r.value.1| < |s| && Suffix(r.value.1, s)
    decreases |s|, 3
  {
    var s1 :- Skip(t, s, depth);
    if s1 != [] && s1[0] == ')' then Ok((SList(items), s1[1..]))
    else if LoneDot(t, s1) then ReadTail(t, s1[1..], depth, items)
    else
      var (x, rest) :- ReadForm(t, s1, depth);
      if x.None? then Err(UnterminatedList) else ReadList(t, rest, depth, items + [x.value])
  }

  /** After the dot of a dotted list. */
  function ReadTail(t: Lexicon, s: Text, depth: nat, items: seq<Sexpr>): (r: Result<(Sexpr, Text), ReadError>)
    ensures r.Ok? ==> |r.value.1| < |s| && Suffix(r.value.1, s)
    decreases |s|, 3
  {
    var s1 :- Skip(t, s, depth);
    var (x, rest) :- ReadForm(t, s1, depth);
    if x.None? then Err(DatumExpected)
    else
      var s2 :- Skip(t, rest, depth);
      if s2 != [] && s2[0] == ')' then Ok((SDotted(items, x.value), s2[1..])) else Err(CloseExpected)
  }

  /** After `#(` and the data in `items`. */
  function ReadVector(t: Lexicon, s: Text, depth: nat, items: seq<Sexpr>): (r: Result<(Sexpr, Text), ReadError>)
    ensures r.Ok? ==> |r.value.1| < |s| && Suffix(r.value.1, s)
    decreases |s|, 3
  {
    var s1 :- Skip(t, s, depth);
    if s1 != [] && s1[0] == ')' then Ok((SVector(items), s1[1..]))
    else
      var (x, rest) :- ReadForm(t, s1, depth);
      if x.None? then Err(UnterminatedVector) else ReadVector(t, rest, depth, items + [x.value])
  }

  /** The first datum of a text, and the text behind it. */
  function ReadOne(t: Lexicon, s: Text): Result<(Option<Sexpr>, Text), ReadError> {
    ReadForm(t, s, 0)
  }
}
