/** Reading what was written gives back the datum, and leaves what follows it. */
module RoundTrip {
  import opened Prelude
  import opened Reader
  import opened BoundaryProof
  import opened Printer

  /** What may follow an atom: nothing, or a delimiter. */
  ghost predicate Separated(t: Lexicon, rest: string) {
    rest == [] || t.white(rest[0]) || rest[0] in "()\";'`,"
  }

  // ----- integers -----

  lemma {:induction false} DigitsConcat(p: string, q: string, acc: nat)
    ensures ParseDigits(p + q, 10, acc)
         == if ParseDigits(p, 10, acc).None? then None else ParseDigits(q, 10, ParseDigits(p, 10, acc).value)
    decreases |p|
  {
    if p == [] {
      assert p + q == q;
    } else {
      assert (p + q)[1..] == p[1..] + q;
      if DigitValue(p[0]) < 10 {
        DigitsConcat(p[1..], q, acc * 10 + DigitValue(p[0]));
      }
    }
  }

  lemma {:induction false} DigitParses(n: nat, acc: nat)
    requires n < 10
    ensures ParseDigits([DigitChar(n)], 10, acc) == Some(acc * 10 + n) && AsciiDigit(DigitChar(n))
  {
    var ds := [DigitChar(n)];
    assert ds[1..] == [] && DigitValue(DigitChar(n)) == n;
  }

  lemma {:induction false} NatParses(n: nat)
    ensures ParseDigits(NatText(n), 10, 0) == Some(n)
    ensures NatText(n) != [] && forall i :: 0 <= i < |NatText(n)| ==> AsciiDigit(NatText(n)[i])
  {
    DigitParses(n % 10, n / 10);
    if n >= 10 {
      NatParses(n / 10);
      DigitsConcat(NatText(n / 10), [DigitChar(n % 10)], 0);
    }
  }

  /** A token of digits, perhaps signed, reads as the integer it shows. */
  lemma {:induction false} IntReads(t: Lexicon, n: int)
    requires I64_MIN <= n <= I64_MAX
    ensures AtomFromText(t, IntText(n)) == Ok(SInt(n))
    ensures IntText(n) != [] && forall i :: 0 <= i < |IntText(n)| ==>
      AsciiDigit(IntText(n)[i]) || (i == 0 && IntText(n)[0] == '-')
  {
    var m: nat := if n < 0 then -n else n;
    NatParses(m);
    var text := IntText(n);
    var c := NatText(m)[0];
    assert AsciiDigit(c);
    if n < 0 {
      assert text[1..] == NatText(m) && text[0] == '-';
    } else {
      assert text[0] == c;
    }
    assert ParseInt(text, 10) == Some(n);
    IntIsNumeric(t, text, n);
  }

  lemma {:induction false} IntIsNumeric(t: Lexicon, text: string, n: int)
    requires text != [] && (AsciiDigit(text[0]) || (text[0] == '-' && |text| > 1 && AsciiDigit(text[1])))
    requires forall i :: 0 <= i < |text| ==> AsciiDigit(text[i]) || (i == 0 && text[0] == '-')
    requires ParseInt(text, 10) == Some(n)
    ensures AtomFromText(t, text) == Ok(SInt(n))
  {
    assert text[0] != 't' && text[0] != 'f' && text[0] != '#';
    assert "true"[0] == 't' && "false"[0] == 'f' && "#t"[0] == '#' && "#f"[0] == '#';
    NotPrefix(text, "#x");
    NotPrefix(text, "#X");
    NotPrefix(text, "#b");
    NotPrefix(text, "#B");
    NotPrefix(text, "#o");
    NotPrefix(text, "#O");
  }

  lemma {:induction false} NotPrefix(s: string, p: string)
    requires s != [] && p != [] && s[0] != p[0]
    ensures !(p <= s)
  {
  }

  // ----- tokens -----

  lemma {:induction false} TokenStops(t: Lexicon, text: string, rest: string)
    requires (forall i :: 0 <= i < |text| ==> !IsDelimiter(t, text[i])) && Separated(t, rest)
    ensures TokenLen(t, text + rest) == |text|
  {
    if text == [] {
      assert text + rest == rest;
    } else {
      assert (text + rest)[1..] == text[1..] + rest;
      TokenStops(t, text[1..], rest);
    }
  }

  lemma {:induction false} AtomReads(t: Lexicon, text: string, rest: string)
    requires t.markersInTokens && text != [] && (forall i :: 0 <= i < |text| ==> !IsDelimiter(t, text[i]))
      && Separated(t, rest)
    ensures ReadAtom(t, text + rest)
         == if AtomFromText(t, text).Ok? then Ok((AtomFromText(t, text).value, rest))
            else Err(AtomFromText(t, text).error)
  {
    hide AtomFromText;
    TokenStops(t, text, rest);
    assert (text + rest)[..|text|] == text && (text + rest)[|text|..] == rest;
  }

  // ----- strings -----

  /** One escaped or plain character of a string literal. */
  lemma {:induction false} EscapeReads(c: char, more: string)
    requires ReadString(more).Ok?
    ensures ReadString(Escape(c) + more) == Ok(([c] + ReadString(more).value.0, ReadString(more).value.1))
  {
    hide Suffix;
    var e := Escape(c);
    var u := e + more;
    assert u[0] == e[0] && u[|e|..] == more;
    if |e| == 2 {
      assert u[1] == e[1];
    }
  }

  lemma {:induction false} StringReads(s: string, rest: string)
    ensures ReadString(Escaped(s) + rest) == Ok((s, rest))
  {
    hide ReadString, Escape;
    if s == [] {
      QuoteReads(rest);
    } else {
      StringReads(s[1..], rest);
      EscapeReads(s[0], Escaped(s[1..]) + rest);
      assert Escaped(s) + rest == Escape(s[0]) + (Escaped(s[1..]) + rest);
      assert [s[0]] + s[1..] == s;
    }
  }

  lemma {:induction false} QuoteReads(rest: string)
    ensures ReadString("\"" + rest) == Ok(([], rest))
  {
    assert ("\"" + rest)[1..] == rest;
  }

  // ----- characters -----

  lemma {:induction false} NameReads(t: Lexicon, name: string, rest: string)
    requires |name| > 1 && t.alpha(name[0]) && (forall i :: 0 <= i < |name| ==> !IsDelimiter(t, name[i]))
      && Separated(t, rest)
    requires name == "space" || name == "newline" || name == "tab"
    ensures ReadCharacter(t, name + rest)
         == Ok((SChar(if name == "space" then ' ' else if name == "newline" then '\n' else '\t'), rest))
  {
    var s := name + rest;
    assert s[1..] == name[1..] + rest && s[0] == name[0];
    TokenStops(t, name[1..], rest);
    assert s[..|name|] == name && s[|name|..] == rest;
  }

  lemma {:induction false} LettersArePlain(t: Lexicon, name: string)
    requires Ordinary(t) && forall i :: 0 <= i < |name| ==> 'a' <= name[i] <= 'z'
    ensures forall i :: 0 <= i < |name| ==> !IsDelimiter(t, name[i])
  {
    forall i | 0 <= i < |name|
      ensures !IsDelimiter(t, name[i])
    {
      var c := name[i];
      assert '!' <= c <= '~';
    }
  }

  lemma {:induction false} CharReads(t: Lexicon, c: char, rest: string)
    requires Ordinary(t) && Separated(t, rest)
    ensures "#\\" <= CharText(c) && ReadCharacter(t, CharText(c)[2..] + rest) == Ok((SChar(c), rest))
  {
    hide IsDelimiter;
    if c == ' ' {
      assert CharText(c)[2..] == "space";
      LettersArePlain(t, "space");
      NameReads(t, "space", rest);
    } else if c == '\n' {
      assert CharText(c)[2..] == "newline";
      LettersArePlain(t, "newline");
      NameReads(t, "newline", rest);
    } else if c == '\t' {
      assert CharText(c)[2..] == "tab";
      LettersArePlain(t, "tab");
      NameReads(t, "tab", rest);
    } else {
      assert CharText(c)[2..] == [c];
      var s := [c] + rest;
      assert s[0] == c && s[1..] == rest && s[..1] == [c];
      NoToken(t, rest);
    }
  }

  lemma {:induction false} NoToken(t: Lexicon, rest: string)
    requires Separated(t, rest)
    ensures TokenLen(t, rest) == 0
  {
  }

  // ----- data -----

  /** `s` starts an element: nothing to skip, and neither the end of a list nor its dot. */
  ghost predicate StartsElement(t: Lexicon, s: string) {
    s != [] && LeadOf(t, s) == Other && s[0] != ')' && !LoneDot(t, s)
  }

  lemma {:induction false} AtomStarts(t: Lexicon, text: string, rest: string)
    requires Ordinary(t) && Separated(t, rest) && text != [] && text != "." && text[0] != ')'
    requires !t.white(text[0]) && text[0] != ';' && (text[0] == '#' ==> |text| > 1 && text[1] !in "|;")
    requires text[0] == '.' ==> |text| > 1 && !IsDelimiter(t, text[1])
    ensures StartsElement(t, text + rest)
  {
    var s := text + rest;
    assert s[0] == text[0] && (|text| > 1 ==> s[1] == text[1]);
  }

  lemma {:induction false} TextStarts(t: Lexicon, d: Datum, rest: string)
    requires Sane(t) && Ordinary(t) && Printable(t, d) && Separated(t, rest)
    ensures StartsElement(t, Written(d) + rest)
  {
    hide AtomFromText;
    match d
    case DInt(n) =>
      IntReads(t, n);
      assert Written(d)[0] != '.' && "."[0] == '.';
      AtomStarts(t, Written(d), rest);
    case DSymbol(s) =>
      assert !IsDelimiter(t, s[0]) && (|s| > 1 ==> !IsDelimiter(t, s[1]));
      if s[0] == '#' {
        SymbolHash(t, s);
      }
      AtomStarts(t, s, rest);
    case DBool(b) => AtomStarts(t, Written(d), rest);
    case DChar(c) => AtomStarts(t, Written(d), rest);
    case _ =>
      assert Written(d)[0] in "(#\"" && "."[0] == '.';
      AtomStarts(t, Written(d), rest);
  }

  lemma {:induction false} SymbolHash(t: Lexicon, s: string)
    requires Readable(t, s) && s[0] == '#'
    ensures |s| > 1 && s[1] !in "|;(\\"
  {
    assert |s| > 1 && !IsDelimiter(t, s[1]);
    assert s[..2] == [s[0], s[1]];
  }

  /** Nothing is skipped before an element. */
  lemma {:induction false} FormAt(t: Lexicon, s: string, k: nat)
    requires StartsElement(t, s)
    ensures Skip(t, s, k) == Ok(s)
    ensures ReadForm(t, s, k)
         == if k + 1 > MAX_NESTING_DEPTH then Err(TooDeep)
            else if ReadBody(t, s, k + 1).Ok? then Ok((Some(ReadBody(t, s, k + 1).value.0),
              ReadBody(t, s, k + 1).value.1))
            else Err(ReadBody(t, s, k + 1).error)
  {
    hide ReadBody, LeadOf, LoneDot;
  }

  /** One element of a list, and then the rest of the list. */
  lemma {:induction false} ListElement(t: Lexicon, s: string, k: nat, acc: seq<Sexpr>)
    requires StartsElement(t, s)
    ensures ReadList(t, s, k, acc)
         == match ReadForm(t, s, k)
            case Err(e) => Err(e)
            case Ok((x, rest)) => if x.None? then Err(UnterminatedList) else ReadList(t, rest, k, acc + [x.value])
    ensures ReadVector(t, s, k, acc)
         == match ReadForm(t, s, k)
            case Err(e) => Err(e)
            case Ok((x, rest)) => if x.None? then Err(UnterminatedVector) else ReadVector(t, rest, k, acc + [x.value])
  {
    hide ReadForm, LeadOf;
    FormAt(t, s, k);
  }

  /** What reading `d`, written at nesting depth `k` and followed by `rest`, must give. */
  ghost function Expected(d: Datum, k: nat, rest: string): Result<(Option<Sexpr>, string), ReadError> {
    if k + Depth(d) <= MAX_NESTING_DEPTH then Ok((Some(ToSexpr(d)), rest)) else Err(TooDeep)
  }

  lemma {:induction false} AtomBack(t: Lexicon, d: Datum, rest: string, k: nat)
    requires Sane(t) && Ordinary(t) && Printable(t, d) && Separated(t, rest)
    requires d.DInt? || d.DBool? || d.DChar? || d.DStr? || d.DSymbol?
    ensures ReadForm(t, Written(d) + rest, k) == Expected(d, k, rest)
  {
    hide ReadBody, Skip, ReadForm;
    TextStarts(t, d, rest);
    FormAt(t, Written(d) + rest, k);
    match d
    case DInt(n) => IntBack(t, n, rest, k);
    case DBool(b) => BoolBack(t, b, rest, k);
    case DChar(c) =>
      CharReads(t, c, rest);
      CharBack(t, c, rest, k);
    case DStr(text) => StrBack(t, text, rest, k);
    case DSymbol(name) => SymbolBack(t, name, rest, k);
    case _ =>
  }

  lemma {:induction false} IntBack(t: Lexicon, n: int, rest: string, k: nat)
    requires Sane(t) && Ordinary(t) && I64_MIN <= n <= I64_MAX && Separated(t, rest)
    ensures ReadBody(t, IntText(n) + rest, k + 1) == Ok((SInt(n), rest))
  {
    hide AtomFromText, ReadList, ReadVector, ReadTagged, IntText;
    IntReads(t, n);
    AtomReads(t, IntText(n), rest);
    assert (IntText(n) + rest)[0] == IntText(n)[0];
  }

  lemma {:induction false} StrBack(t: Lexicon, text: string, rest: string, k: nat)
    ensures ReadBody(t, Written(DStr(text)) + rest, k + 1) == Ok((SStr(text), rest))
  {
    hide ReadString, ReadList, ReadVector, ReadTagged, Escaped;
    StringReads(text, rest);
    assert (Written(DStr(text)) + rest)[1..] == Escaped(text) + rest;
  }

  lemma {:induction false} BoolBack(t: Lexicon, b: bool, rest: string, k: nat)
    requires Sane(t) && Ordinary(t) && Separated(t, rest)
    ensures ReadBody(t, Written(DBool(b)) + rest, k + 1) == Ok((SBool(b), rest))
  {
    hide ReadList, ReadVector, ReadTagged;
    var text := Written(DBool(b));
    var s := text + rest;
    assert s[0] == text[0] && s[1] == text[1] && s[..2] == [s[0], s[1]];
    AtomReads(t, text, rest);
  }

  lemma {:induction false} CharBack(t: Lexicon, c: char, rest: string, k: nat)
    requires "#\\" <= CharText(c) && ReadCharacter(t, CharText(c)[2..] + rest) == Ok((SChar(c), rest))
    ensures ReadBody(t, CharText(c) + rest, k + 1) == Ok((SChar(c), rest))
  {
    hide ReadList, ReadVector, ReadTagged, ReadCharacter, ReadAtom;
    var s := CharText(c) + rest;
    assert s[..2] == CharText(c)[..2] == "#\\";
    assert s[0] == s[..2][0] && s[1] == s[..2][1] && s[2..] == CharText(c)[2..] + rest;
  }

  lemma {:induction false} SymbolBack(t: Lexicon, name: string, rest: string, k: nat)
    requires Sane(t) && Ordinary(t) && Readable(t, name) && Separated(t, rest)
    ensures ReadBody(t, name + rest, k + 1) == Ok((SSymbol(name), rest))
  {
    hide ReadList, ReadVector, ReadTagged, AtomFromText;
    var s := name + rest;
    AtomReads(t, name, rest);
    assert s[0] == name[0] && !IsDelimiter(t, name[0]);
    if s[0] == '#' {
      SymbolHash(t, name);
      assert s[1] == name[1] && s[..2] == [s[0], s[1]];
    }
  }

  lemma {:induction false} TailSeparates(t: Lexicon, b: Datum, rest: string)
    requires Ordinary(t)
    ensures Separated(t, TailText(b) + rest)
  {
    hide Written;
  }

  lemma {:induction false} MoreSeparates(t: Lexicon, items: seq<Datum>, rest: string)
    requires Ordinary(t)
    ensures Separated(t, MoreText(items) + rest)
  {
    hide Written;
  }

  lemma {:induction false} Regroup(p: string, q: string, r: string, s: string)
    ensures p + (q + r) + s == p + (q + (r + s))
  {
  }

  lemma {:induction false} SpaceSkips(t: Lexicon, s: string, k: nat)
    requires t.white(' ')
    ensures Skip(t, " " + s, k) == Skip(t, s, k)
  {
    hide ReadForm, SkipLine, SkipBlock, Suffix;
    var u := " " + s;
    assert u[0] == ' ' && u[1..] == s && LeadOf(t, u) == White;
  }

  /** White space before an element changes nothing. */
  lemma {:induction false} SpaceSkipped(t: Lexicon, s: string, k: nat, acc: seq<Sexpr>)
    requires t.white(' ')
    ensures ReadList(t, " " + s, k, acc) == ReadList(t, s, k, acc)
    ensures ReadVector(t, " " + s, k, acc) == ReadVector(t, s, k, acc)
    ensures ReadTail(t, " " + s, k, acc) == ReadTail(t, s, k, acc)
  {
    hide ReadForm, Skip, Suffix;
    SpaceSkips(t, s, k);
  }

  lemma {:induction false} CloseEnds(t: Lexicon, rest: string, k: nat, acc: seq<Sexpr>)
    requires Sane(t) && Ordinary(t)
    ensures ReadList(t, ")" + rest, k, acc) == Ok((SList(acc), rest))
    ensures ReadVector(t, ")" + rest, k, acc) == Ok((SVector(acc), rest))
    ensures Skip(t, ")" + rest, k) == Ok(")" + rest)
  {
    hide ReadForm;
    var s := ")" + rest;
    assert s[0] == ')' && s[1..] == rest && LeadOf(t, s) == Other;
  }

  lemma {:induction false} OpenBody(t: Lexicon, s: string, k: nat)
    ensures ReadBody(t, "(" + s, k) == ReadList(t, s, k, [])
    ensures ReadBody(t, "#(" + s, k) == ReadVector(t, s, k, [])
  {
    hide ReadList, ReadVector, ReadTagged, ReadAtom, ReadCharacter;
    assert ("(" + s)[1..] == s && ("#(" + s)[2..] == s && ("#(" + s)[..2] == "#(";
  }

  lemma {:induction false} NilBack(t: Lexicon, rest: string, k: nat)
    requires Sane(t) && Ordinary(t) && Separated(t, rest)
    ensures ReadForm(t, "()" + rest, k) == Expected(DNil, k, rest)
  {
    hide Suffix, ReadBody, Skip, ReadForm, ReadList;
    TextStarts(t, DNil, rest);
    FormAt(t, "()" + rest, k);
    assert "()" + rest == "(" + (")" + rest);
    OpenBody(t, ")" + rest, k + 1);
    CloseEnds(t, rest, k + 1, []);
  }

  /** An opening parenthesis and the first element. */
  lemma {:induction false} ConsBack(t: Lexicon, d: Datum, rest: string, k: nat)
    requires Sane(t) && Ordinary(t) && Printable(t, d) && d.DCons? && Separated(t, rest)
    ensures ReadForm(t, Written(d) + rest, k) == Expected(d, k, rest)
    decreases d, 0
  {
    hide Suffix, ReadBody, Skip, ReadForm, ReadList, ReadVector, Printable, LeadOf, LoneDot;
    var a, b := d.car, d.cdr;
    assert Printable(t, a) && Printable(t, b) by {
      PrintableParts(t, d);
    }
    var more := TailText(b) + rest;
    TextStarts(t, d, rest);
    FormAt(t, Written(d) + rest, k);
    Regroup("(", Written(a), TailText(b), rest);
    OpenBody(t, Written(a) + more, k + 1);
    FirstAndTailBack(t, a, b, rest, k + 1);
  }

  /** The first element of a list and what follows it. */
  lemma {:induction false} FirstAndTailBack(t: Lexicon, a: Datum, b: Datum, rest: string, k: nat)
    requires Sane(t) && Ordinary(t) && Printable(t, a) && Printable(t, b) && Separated(t, rest)
    ensures ReadList(t, Written(a) + (TailText(b) + rest), k, [])
         == if k + Depth(a) > MAX_NESTING_DEPTH then Err(TooDeep)
            else if k + TailDepth(b) <= MAX_NESTING_DEPTH || b.DNil? then Ok((ListOf([ToSexpr(a)], b), rest))
            else Err(TooDeep)
    decreases DCons(a, b), -1
  {
    hide Suffix, ReadBody, Skip, ReadForm, ReadList, ReadVector, Printable, LeadOf, LoneDot;
    var more := TailText(b) + rest;
    TailSeparates(t, b, rest);
    TextStarts(t, a, more);
    ListElement(t, Written(a) + more, k, []);
    ReadBack(t, a, more, k);
    TailBack(t, b, rest, k, [ToSexpr(a)]);
    assert [] + [ToSexpr(a)] == [ToSexpr(a)];
  }

  lemma {:induction false} PrintableParts(t: Lexicon, d: Datum)
    requires Printable(t, d)
    ensures d.DCons? ==> Printable(t, d.car) && Printable(t, d.cdr)
  {
  }

  /** The rest of a list, up to its closing parenthesis. */
  lemma {:induction false} TailBack(t: Lexicon, d: Datum, rest: string, k: nat, acc: seq<Sexpr>)
    requires Sane(t) && Ordinary(t) && Printable(t, d)
    ensures ReadList(t, TailText(d) + rest, k, acc)
         == if k + TailDepth(d) <= MAX_NESTING_DEPTH || d.DNil? then Ok((ListOf(acc, d), rest)) else Err(TooDeep)
    decreases d, 2
  {
    hide Suffix, ReadBody, Skip, ReadForm, ReadList, ReadTail, Printable;
    match d
    case DNil => CloseEnds(t, rest, k, acc);
    case DCons(a, b) =>
      PrintableParts(t, d);
      var more := TailText(b) + rest;
      Regroup(" ", Written(a), TailText(b), rest);
      SpaceSkipped(t, Written(a) + more, k, acc);
      TailSeparates(t, b, rest);
      TextStarts(t, a, more);
      ListElement(t, Written(a) + more, k, acc);
      ReadBack(t, a, more, k);
      TailBack(t, b, rest, k, acc + [ToSexpr(a)]);
    case _ => DottedBack(t, d, rest, k, acc);
  }

  /** A dot, a tail that is no list, and the closing parenthesis. */
  lemma {:induction false} DottedBack(t: Lexicon, d: Datum, rest: string, k: nat, acc: seq<Sexpr>)
    requires Sane(t) && Ordinary(t) && Printable(t, d) && !d.DNil? && !d.DCons?
    ensures ReadList(t, TailText(d) + rest, k, acc)
         == if k + TailDepth(d) <= MAX_NESTING_DEPTH then Ok((ListOf(acc, d), rest)) else Err(TooDeep)
    decreases d, 1, 1
  {
    hide Suffix, ReadBody, Skip, ReadForm, ReadList, ReadTail, Printable;
    var close := ")" + rest;
    var s := Written(d) + close;
    assert TailText(d) == " . " + (Written(d) + ")");
    Regroup(" . ", Written(d), ")", rest);
    assert " . " + s == " " + ("." + (" " + s));
    SpaceSkipped(t, "." + (" " + s), k, acc);
    DotReads(t, s, k, acc);
    SpaceSkipped(t, s, k, acc);
    TextStarts(t, d, close);
    ReadBack(t, d, close, k);
    TailCloses(t, d, rest, k, acc);
  }

  lemma {:induction false} DotReads(t: Lexicon, s: string, k: nat, acc: seq<Sexpr>)
    requires Sane(t) && Ordinary(t)
    ensures ReadList(t, "." + (" " + s), k, acc) == ReadTail(t, " " + s, k, acc)
  {
    hide ReadForm, ReadTail;
    var u := "." + (" " + s);
    assert u[0] == '.' && u[1] == ' ' && u[1..] == " " + s && LeadOf(t, u) == Other && LoneDot(t, u);
  }

  lemma {:induction false} TailCloses(t: Lexicon, d: Datum, rest: string, k: nat, acc: seq<Sexpr>)
    requires Sane(t) && Ordinary(t) && StartsElement(t, Written(d) + (")" + rest))
    requires ReadForm(t, Written(d) + (")" + rest), k) == Expected(d, k, ")" + rest)
    ensures ReadTail(t, Written(d) + (")" + rest), k, acc)
         == if k + Depth(d) <= MAX_NESTING_DEPTH then Ok((SDotted(acc, ToSexpr(d)), rest)) else Err(TooDeep)
  {
    hide ReadForm, Skip;
    FormAt(t, Written(d) + (")" + rest), k);
    CloseEnds(t, rest, k, acc);
    assert (")" + rest)[1..] == rest;
  }

  lemma {:induction false} VectorBack(t: Lexicon, d: Datum, rest: string, k: nat)
    requires Sane(t) && Ordinary(t) && Printable(t, d) && d.DVector? && Separated(t, rest)
    ensures ReadForm(t, Written(d) + rest, k) == Expected(d, k, rest)
    decreases d, 0
  {
    hide Suffix, ReadBody, Skip, ReadForm, ReadVector, ReadList, Printable, LeadOf, LoneDot;
    var items := d.items;
    TextStarts(t, d, rest);
    FormAt(t, Written(d) + rest, k);
    if items == [] {
      assert Written(d) + rest == "#(" + (")" + rest);
      OpenBody(t, ")" + rest, k + 1);
      CloseEnds(t, rest, k + 1, []);
    } else {
      FilledVectorBack(t, d, rest, k);
    }
  }

  lemma {:induction false} FilledVectorBack(t: Lexicon, d: Datum, rest: string, k: nat)
    requires Sane(t) && Ordinary(t) && Printable(t, d) && d.DVector? && d.items != [] && Separated(t, rest)
    ensures Written(d) + rest != []
    ensures ReadBody(t, Written(d) + rest, k + 1)
         == if k + Depth(d) <= MAX_NESTING_DEPTH then Ok((SVector(ToSexprs(d.items)), rest)) else Err(TooDeep)
    decreases d.items, 2
  {
    hide Suffix, ReadBody, Skip, ReadForm, ReadVector, ReadList, Printable, LeadOf, LoneDot;
    var items := d.items;
    ItemsPrintable(t, d);
    var more := MoreText(items[1..]) + rest;
    assert Written(d) + rest == "#(" + (Written(items[0]) + more) by {
      Regroup("#(", Written(items[0]), MoreText(items[1..]), rest);
    }
    OpenBody(t, Written(items[0]) + more, k + 1);
    FirstItemBack(t, items, rest, k + 1);
  }

  /** The elements of a vector from the first. */
  lemma {:induction false} FirstItemBack(t: Lexicon, items: seq<Datum>, rest: string, k: nat)
    requires Sane(t) && Ordinary(t) && items != [] && forall i :: 0 <= i < |items| ==> Printable(t, items[i])
    ensures ReadVector(t, Written(items[0]) + (MoreText(items[1..]) + rest), k, [])
         == if k + DepthAll(items) <= MAX_NESTING_DEPTH then Ok((SVector(ToSexprs(items)), rest)) else Err(TooDeep)
    decreases items, 1
  {
    hide Suffix, ReadBody, Skip, ReadForm, ReadVector, ReadList, Printable, LeadOf, LoneDot;
    var more := MoreText(items[1..]) + rest;
    MoreSeparates(t, items[1..], rest);
    TextStarts(t, items[0], more);
    ListElement(t, Written(items[0]) + more, k, []);
    ReadBack(t, items[0], more, k);
    MoreBack(t, items[1..], rest, k, [ToSexpr(items[0])]);
    assert [] + [ToSexpr(items[0])] == [ToSexpr(items[0])];
    assert ToSexprs(items) == [ToSexpr(items[0])] + ToSexprs(items[1..]);
    assert DepthAll(items) == Larger(Depth(items[0]), DepthAll(items[1..]));
  }

  lemma {:induction false} ItemsPrintable(t: Lexicon, d: Datum)
    requires Printable(t, d) && d.DVector?
    ensures forall i :: 0 <= i < |d.items| ==> Printable(t, d.items[i])
  {
  }

  /** The rest of a vector, up to its closing parenthesis. */
  lemma {:induction false} MoreBack(t: Lexicon, items: seq<Datum>, rest: string, k: nat, acc: seq<Sexpr>)
    requires Sane(t) && Ordinary(t) && forall i :: 0 <= i < |items| ==> Printable(t, items[i])
    ensures ReadVector(t, MoreText(items) + rest, k, acc)
         == if items == [] || k + DepthAll(items) <= MAX_NESTING_DEPTH then Ok((SVector(acc + ToSexprs(items)), rest))
            else Err(TooDeep)
    decreases items, 0
  {
    hide Suffix, ReadBody, Skip, ReadForm, ReadVector, Printable;
    if items == [] {
      CloseEnds(t, rest, k, acc);
      assert acc + [] == acc;
    } else {
      var a := items[0];
      var more := MoreText(items[1..]) + rest;
      Regroup(" ", Written(a), MoreText(items[1..]), rest);
      SpaceSkipped(t, Written(a) + more, k, acc);
      MoreSeparates(t, items[1..], rest);
      TextStarts(t, a, more);
      ListElement(t, Written(a) + more, k, acc);
      ReadBack(t, a, more, k);
      MoreBack(t, items[1..], rest, k, acc + [ToSexpr(a)]);
      assert acc + [ToSexpr(a)] + ToSexprs(items[1..]) == acc + ToSexprs(items);
    }
  }

  /**
   The printer and the reader undo each other.  Whatever delimiter-led text follows,
   reading a written datum gives exactly the datum and that text, if and only if its
   nesting stays within the limit.
   */
  lemma {:induction false} ReadBack(t: Lexicon, d: Datum, rest: string, k: nat)
    requires Sane(t) && Ordinary(t) && Printable(t, d) && Separated(t, rest)
    ensures ReadForm(t, Written(d) + rest, k) == Expected(d, k, rest)
    decreases d, 1, 0
  {
    match d
    case DNil => NilBack(t, rest, k);
    case DCons(_, _) => ConsBack(t, d, rest, k);
    case DVector(_) => VectorBack(t, d, rest, k);
    case _ => AtomBack(t, d, rest, k);
  }

  /** At top level: the datum read means the datum written. */
  lemma {:induction false} WriteThenRead(t: Lexicon, d: Datum, rest: string)
    requires Sane(t) && Ordinary(t) && Printable(t, d) && Separated(t, rest)
    ensures Depth(d) <= 512 ==>
      ReadOne(t, Written(d) + rest).Ok? && ReadOne(t, Written(d) + rest).value.0.Some?
      && Meaning(ReadOne(t, Written(d) + rest).value.0.value) == Some(d)
         && ReadOne(t, Written(d) + rest).value.1 == rest
    ensures Depth(d) > 512 ==> ReadOne(t, Written(d) + rest) == Err(TooDeep)
  {
    hide ReadForm, Written;
    ReadBack(t, d, rest, 0);
    MeaningOf(d);
  }
}
