/**
 The tracker keeps step with the reader: on texts in which `#` starts tokens only, it is
 outside every string and comment, at bracket depth zero, wherever a datum ends.
 */
module BoundaryProof {
  import opened Prelude
  import opened Reader
  import opened Stability
  import opened Boundary

  /** No character with a meaning of its own counts as white space. */
  ghost predicate Sane(t: Lexicon) {
    forall c :: t.white(c) ==> c !in "()\";'`,#\\|"
  }

  function FeedAll(t: Lexicon, x: Lex, s: Text): Lex
    decreases |s|
  {
    if s == [] then x else FeedAll(t, FeedLex(t, x, s[0]), s[1..])
  }

  lemma {:induction false} FeedAllConcat(t: Lexicon, x: Lex, p: Text, q: Text)
    ensures FeedAll(t, x, p + q) == FeedAll(t, FeedAll(t, x, p), q)
    decreases |p|
  {
    hide FeedLex;
    if p == [] {
      assert p + q == q;
    } else {
      assert (p + q)[1..] == p[1..] + q;
      FeedAllConcat(t, FeedLex(t, x, p[0]), p[1..], q);
    }
  }

  /** Outside every string, comment and literal, at depth `k`; a `#` just seen starts no marker in `rest`. */
  ghost predicate Neutral(x: Lex, k: int, rest: Text) {
    !x.charPending && !x.inString && !x.inComment && !x.escapeNext && x.block == 0 && !x.hashPending && !x.pipePending
    && x.depth == k && (x.afterHash && rest != [] ==> rest[0] !in "\\|;")
  }

  function Consumed(s: Text, rest: Text): Text
    requires Suffix(rest, s)
  {
    s[..|s| - |rest|]
  }

  /** Fed the text from `s` up to `rest`, the tracker changes its depth by `delta` and is neutral again. */
  ghost predicate Passes(t: Lexicon, s: Text, rest: Text, delta: int) {
    Suffix(rest, s)
    && forall x: Lex, k: int :: Neutral(x, k, s) ==> Neutral(FeedAll(t, x, Consumed(s, rest)), k + delta, rest)
  }

  lemma {:induction false} PassesThen(t: Lexicon, s: Text, mid: Text, rest: Text, d: int, d': int)
    requires Passes(t, s, mid, d) && Passes(t, mid, rest, d')
    ensures Passes(t, s, rest, d + d')
  {
    hide Neutral, FeedAll;
    assert rest == mid[|mid| - |rest|..] == s[|s| - |rest|..];
    assert Consumed(s, rest) == Consumed(s, mid) + Consumed(mid, rest);
    forall x: Lex, k: int | Neutral(x, k, s)
      ensures Neutral(FeedAll(t, x, Consumed(s, rest)), k + (d + d'), rest)
    {
      FeedAllConcat(t, x, Consumed(s, mid), Consumed(mid, rest));
      var y := FeedAll(t, x, Consumed(s, mid));
      assert Neutral(y, k + d, mid);
      assert Neutral(FeedAll(t, y, Consumed(mid, rest)), (k + d) + d', rest);
    }
  }

  lemma {:induction false} PassesNothing(t: Lexicon, s: Text)
    ensures Passes(t, s, s, 0)
  {
    assert Consumed(s, s) == [];
  }

  /** One character that is neither `#` nor the start of anything the tracker enters. */
  lemma {:induction false} PassesOne(t: Lexicon, s: Text)
    requires Sane(t) && s != [] && s[0] !in "#;\""
    ensures Passes(t, s, s[1..], if s[0] == '(' then 1 else if s[0] == ')' then -1 else 0)
  {
    assert Consumed(s, s[1..]) == [s[0]];
    forall x: Lex, k: int | Neutral(x, k, s)
      ensures FeedAll(t, x, [s[0]]) == FeedLex(t, x, s[0])
    {
      assert FeedAll(t, x, [s[0]]) == FeedAll(t, FeedLex(t, x, s[0]), [s[0]][1..]);
    }
  }

  // ----- comments -----

  /** Inside a line comment up to its newline. */
  lemma {:induction false} LinePasses(t: Lexicon, x: Lex, s: Text, k: int)
    requires x.inComment && !x.charPending && !x.inString && !x.escapeNext && x.block == 0 && !x.hashPending
      && !x.pipePending
    requires x.depth == k && !x.afterHash && SkipLine(s) != []
    ensures Neutral(FeedAll(t, x, Consumed(s, SkipLine(s))), k, SkipLine(s))
    decreases |s|
  {
    var rest := SkipLine(s);
    if s[0] == '\n' {
      assert Consumed(s, rest) == [s[0]];
      assert FeedAll(t, x, [s[0]]) == FeedAll(t, FeedLex(t, x, s[0]), [s[0]][1..]);
    } else {
      assert Consumed(s, rest)[1..] == Consumed(s[1..], rest);
      LinePasses(t, FeedLex(t, x, s[0]), s[1..], k);
    }
  }

  /** Between markers of a block comment; a pending half of a marker is not completed by what follows. */
  ghost predicate InBlock(x: Lex, level: nat, k: int, s: Text) {
    x.block == level && level > 0 && x.depth == k && !x.charPending && !x.inComment && !x.inString && !x.escapeNext
      && !x.afterHash
    && (x.hashPending && s != [] ==> s[0] != '|') && (x.pipePending && s != [] ==> s[0] != '#')
  }

  lemma {:induction false} MarkerFed(t: Lexicon, x: Lex, s: Text, level: nat, k: int)
    requires InBlock(x, level, k, s) && ("#|" <= s || "|#" <= s)
    ensures |s| >= 2 && s == [s[0]] + ([s[1]] + s[2..])
    ensures FeedLex(t, FeedLex(t, x, s[0]), s[1])
         == x.(hashPending := false, pipePending := false, block := if "#|" <= s then level + 1 else level - 1)
  {
    assert s[0] == s[..2][0] && s[1] == s[..2][1];
  }

  lemma {:induction false} OtherFed(t: Lexicon, x: Lex, s: Text, level: nat, k: int)
    requires InBlock(x, level, k, s) && s != [] && !("#|" <= s) && !("|#" <= s)
    ensures InBlock(FeedLex(t, x, s[0]), level, k, s[1..])
  {
    if |s| > 1 {
      assert s[..2] == [s[0], s[1]];
    }
  }

  lemma {:induction false} BlockPasses(t: Lexicon, x: Lex, s: Text, level: nat, k: int)
    requires InBlock(x, level, k, s) && SkipBlock(s, level).Ok?
    ensures Neutral(FeedAll(t, x, Consumed(s, SkipBlock(s, level).value)), k, SkipBlock(s, level).value)
    decreases |s|
  {
    hide FeedLex;
    var rest := SkipBlock(s, level).value;
    var u := Consumed(s, rest);
    if "#|" <= s || "|#" <= s {
      MarkerFed(t, x, s, level, k);
      var y := FeedLex(t, FeedLex(t, x, s[0]), s[1]);
      var s2 := s[2..];
      FeedTwo(t, x, s[0], s[1], Consumed(s2, rest));
      assert u == [s[0]] + ([s[1]] + Consumed(s2, rest));
      if "#|" <= s || level > 1 {
        BlockPasses(t, y, s2, if "#|" <= s then level + 1 else level - 1, k);
      } else {
        assert Consumed(s2, rest) == [];
      }
    } else {
      OtherFed(t, x, s, level, k);
      BlockPasses(t, FeedLex(t, x, s[0]), s[1..], level, k);
      assert u[1..] == Consumed(s[1..], rest);
    }
  }

  lemma {:induction false} FeedTwo(t: Lexicon, x: Lex, a: char, b: char, s: Text)
    ensures FeedAll(t, x, [a] + ([b] + s)) == FeedAll(t, FeedLex(t, FeedLex(t, x, a), b), s)
  {
    hide FeedLex;
    assert ([a] + ([b] + s))[1..] == [b] + s && ([b] + s)[1..] == s;
  }

  // ----- tokens, strings, character literals -----

  lemma {:induction false} FeedFirst(t: Lexicon, x: Lex, c: char, s: Text)
    ensures FeedAll(t, x, [c] + s) == FeedAll(t, FeedLex(t, x, c), s)
  {
    hide FeedLex;
    assert ([c] + s)[1..] == s;
  }

  predicate Closed(x: Lex) {
    !x.charPending && !x.inString && !x.inComment && !x.escapeNext && x.block == 0 && !x.hashPending && !x.pipePending
  }

  predicate Plain(t: Lexicon, s: Text) {
    '#' !in s && forall i :: 0 <= i < |s| ==> !IsDelimiter(t, s[i])
  }

  /** A character of a token: at most it leaves a `#` pending. */
  lemma {:induction false} FeedTokenChar(t: Lexicon, x: Lex, c: char)
    requires Closed(x) && !IsDelimiter(t, c) && (x.afterHash ==> c !in "\\|;")
    ensures var y := FeedLex(t, x, c); Closed(y) && y.depth == x.depth && (y.afterHash <==> c == '#')
  {
  }

  /** The rest of a character's name changes nothing the tracker cares about. */
  lemma {:induction false} PlainPasses(t: Lexicon, x: Lex, s: Text)
    requires Closed(x) && !x.afterHash && Plain(t, s)
    ensures var y := FeedAll(t, x, s); Closed(y) && !y.afterHash && y.depth == x.depth
    decreases |s|
  {
    hide FeedLex, Closed;
    if s != [] {
      assert s[0] in s && !IsDelimiter(t, s[0]);
      assert Plain(t, s[1..]);
      FeedTokenChar(t, x, s[0]);
      PlainPasses(t, FeedLex(t, x, s[0]), s[1..]);
    }
  }

  /** From its `k`-th character on, a tame token changes nothing the tracker cares about. */
  lemma {:induction false} TokenRuns(t: Lexicon, x: Lex, s: Text, k: nat, n: nat)
    requires k <= n <= |s| && Tame(s, n) && forall i :: k <= i < n ==> !IsDelimiter(t, s[i])
    requires Closed(x) && (x.afterHash && k < |s| ==> s[k] !in "\\|;")
    ensures var y := FeedAll(t, x, s[k..n]);
      Closed(y) && y.depth == x.depth && (y.afterHash && n < |s| ==> s[n] !in "\\|;")
    decreases n - k
  {
    hide FeedLex, Closed;
    if k == n {
      assert s[k..n] == [];
    } else {
      FeedTokenChar(t, x, s[k]);
      assert s[k..n] == [s[k]] + s[k + 1..n];
      FeedFirst(t, x, s[k], s[k + 1..n]);
      TokenRuns(t, FeedLex(t, x, s[k]), s, k + 1, n);
    }
  }

  lemma {:induction false} TokenChars(t: Lexicon, s: Text)
    ensures forall i :: 0 <= i < TokenLen(t, s) ==> !IsDelimiter(t, s[i])
    ensures TokenLen(t, s) < |s| ==> IsDelimiter(t, s[TokenLen(t, s)])
  {
    if s != [] && !IsDelimiter(t, s[0]) {
      TokenChars(t, s[1..]);
      assert forall i :: 0 < i < TokenLen(t, s) ==> s[i] == s[1..][i - 1];
    }
  }

  lemma {:induction false} TokenPasses(t: Lexicon, s: Text)
    requires Sane(t) && !t.markersInTokens && ReadAtom(t, s).Ok?
    ensures Passes(t, s, ReadAtom(t, s).value.1, 0)
  {
    hide AtomFromText, FeedLex, FeedAll;
    var n := TokenLen(t, s);
    TokenChars(t, s);
    forall x: Lex, k: int | Neutral(x, k, s)
      ensures Neutral(FeedAll(t, x, s[..n]), k, s[n..])
    {
      assert s[0..n] == s[..n];
      TokenRuns(t, x, s, 0, n);
    }
  }

  /** Inside a string up to its closing quote. */
  lemma {:induction false} StringPasses(t: Lexicon, x: Lex, s: Text)
    requires Closed(x.(inString := false)) && x.inString && !x.afterHash && ReadString(s).Ok?
    ensures var y := FeedAll(t, x, Consumed(s, ReadString(s).value.1)); Closed(y) && !y.afterHash && y.depth == x.depth
    decreases |s|
  {
    hide FeedLex, Unescape;
    var rest := ReadString(s).value.1;
    var u := Consumed(s, rest);
    var y := FeedLex(t, x, s[0]);
    FeedStringChar(t, x, s[0]);
    if s[0] == '"' {
      assert u == [s[0]] + [];
      FeedFirst(t, x, s[0], []);
    } else if s[0] == '\\' {
      assert u == [s[0]] + ([s[1]] + Consumed(s[2..], rest));
      FeedTwo(t, x, s[0], s[1], Consumed(s[2..], rest));
      FeedStringChar(t, y, s[1]);
      StringPasses(t, FeedLex(t, y, s[1]), s[2..]);
    } else {
      assert u == [s[0]] + Consumed(s[1..], rest);
      FeedFirst(t, x, s[0], Consumed(s[1..], rest));
      StringPasses(t, y, s[1..]);
    }
  }

  lemma {:induction false} FeedStringChar(t: Lexicon, x: Lex, c: char)
    requires x.inString && !x.charPending && x.block == 0 && !x.inComment
    ensures FeedLex(t, x, c)
         == if x.escapeNext then x.(escapeNext := false)
            else if c == '\\' then x.(escapeNext := true)
            else x.(inString := c != '"')
  {
  }

  lemma {:induction false} QuotedPasses(t: Lexicon, s: Text)
    requires s != [] && s[0] == '"' && ReadString(s[1..]).Ok?
    ensures Passes(t, s, ReadString(s[1..]).value.1, 0)
  {
    var rest := ReadString(s[1..]).value.1;
    assert Consumed(s, rest) == [s[0]] + Consumed(s[1..], rest);
    forall x: Lex, k: int | Neutral(x, k, s)
      ensures Neutral(FeedAll(t, x, Consumed(s, rest)), k, rest)
    {
      FeedFirst(t, x, s[0], Consumed(s[1..], rest));
      StringPasses(t, FeedLex(t, x, s[0]), s[1..]);
    }
  }

  lemma {:induction false} CharacterPasses(t: Lexicon, s: Text)
    requires Sane(t) && "#\\" <= s && ReadCharacter(t, s[2..]).Ok?
    ensures Passes(t, s, ReadCharacter(t, s[2..]).value.1, 0)
  {
    hide FeedAll;
    var v := s[2..];
    var rest := ReadCharacter(t, v).value.1;
    var n := |v| - |rest|;
    NameIsPlain(t, v);
    assert s[0] == s[..2][0] && s[1] == s[..2][1];
    assert Consumed(s, rest) == [s[0]] + ([s[1]] + ([v[0]] + v[1..n]));
    forall x: Lex, k: int | Neutral(x, k, s)
      ensures Neutral(FeedAll(t, x, Consumed(s, rest)), k, rest)
    {
      FeedTwo(t, x, s[0], s[1], [v[0]] + v[1..n]);
      var y := FeedLex(t, FeedLex(t, x, s[0]), s[1]);
      FeedFirst(t, y, v[0], v[1..n]);
      PlainPasses(t, FeedLex(t, y, v[0]), v[1..n]);
    }
  }

  lemma {:induction false} NameIsPlain(t: Lexicon, v: Text)
    requires ReadCharacter(t, v).Ok?
    ensures var n := |v| - |ReadCharacter(t, v).value.1|; n >= 1 && Plain(t, v[1..n])
  {
    var n := |v| - |ReadCharacter(t, v).value.1|;
    TokenChars(t, v[1..]);
    assert forall i :: 0 <= i < n - 1 ==> v[1..n][i] == v[1..][i];
    if n > 1 {
      assert v[1..n] == v[..n][1..];
      assert v[1..n] == "pace" || v[1..n] == "ewline" || v[1..n] == "ab";
    }
  }

  // ----- whole data -----

  lemma {:induction false} SkipStops(t: Lexicon, s: Text, depth: nat)
    requires Skip(t, s, depth).Ok?
    ensures LeadOf(t, Skip(t, s, depth).value) == Other
    decreases |s|
  {
    hide Suffix, LeadOf, ReadForm, SkipLine, SkipBlock;
    match LeadOf(t, s)
    case White => SkipStops(t, s[1..], depth);
    case Line => SkipStops(t, SkipLine(s[1..]), depth);
    case Block => SkipStops(t, SkipBlock(s[2..], 1).value, depth);
    case Hidden => SkipStops(t, ReadForm(t, s[2..], depth).value.1, depth);
    case Other =>
  }

  lemma {:induction false} PassesLine(t: Lexicon, s: Text)
    requires Sane(t) && LeadOf(t, s) == Line && SkipLine(s[1..]) != []
    ensures Passes(t, s, SkipLine(s[1..]), 0)
  {
    hide FeedAll;
    var rest := SkipLine(s[1..]);
    assert Consumed(s, rest) == [s[0]] + Consumed(s[1..], rest);
    forall x: Lex, k: int | Neutral(x, k, s)
      ensures Neutral(FeedAll(t, x, Consumed(s, rest)), k, rest)
    {
      FeedFirst(t, x, s[0], Consumed(s[1..], rest));
      LinePasses(t, FeedLex(t, x, s[0]), s[1..], k);
    }
  }

  lemma {:induction false} EnterBlock(t: Lexicon, x: Lex, s: Text, k: int)
    requires Neutral(x, k, s) && LeadOf(t, s) == Block
    ensures s == [s[0]] + ([s[1]] + s[2..]) && InBlock(FeedLex(t, FeedLex(t, x, s[0]), s[1]), 1, k, s[2..])
  {
    assert s[0] == s[..2][0] && s[1] == s[..2][1];
  }

  lemma {:induction false} PassesBlock(t: Lexicon, s: Text)
    requires LeadOf(t, s) == Block && SkipBlock(s[2..], 1).Ok?
    ensures Passes(t, s, SkipBlock(s[2..], 1).value, 0)
  {
    hide FeedAll, FeedLex, SkipBlock, InBlock, Neutral, LeadOf;
    var rest := SkipBlock(s[2..], 1).value;
    var inner := Consumed(s[2..], rest);
    assert Consumed(s, rest) == [s[0]] + ([s[1]] + inner);
    forall x: Lex, k: int | Neutral(x, k, s)
      ensures Neutral(FeedAll(t, x, Consumed(s, rest)), k, rest)
    {
      EnterBlock(t, x, s, k);
      FeedTwo(t, x, s[0], s[1], inner);
      BlockPasses(t, FeedLex(t, FeedLex(t, x, s[0]), s[1]), s[2..], 1, k);
    }
  }

  /** `#;` and `#(`: the `#` is taken up by the character behind it. */
  lemma {:induction false} PassesHash(t: Lexicon, s: Text)
    requires LeadOf(t, s) == Hidden || "#(" <= s
    ensures Passes(t, s, s[2..], if LeadOf(t, s) == Hidden then 0 else 1)
  {
    assert s[0] == s[..2][0] && s[1] == s[..2][1];
    assert Consumed(s, s[2..]) == [s[0]] + ([s[1]] + []);
    forall x: Lex, k: int | Neutral(x, k, s)
      ensures Neutral(FeedAll(t, x, Consumed(s, s[2..])), k + if LeadOf(t, s) == Hidden then 0 else 1, s[2..])
    {
      FeedTwo(t, x, s[0], s[1], []);
    }
  }

  lemma {:induction false} SkipPasses(t: Lexicon, s: Text, depth: nat)
    requires Sane(t) && !t.markersInTokens && Skip(t, s, depth).Ok? && Skip(t, s, depth).value != []
    ensures Passes(t, s, Skip(t, s, depth).value, 0)
    decreases |s|, 1
  {
    hide Suffix, LeadOf, ReadForm, SkipLine, SkipBlock, Passes;
    var rest := Skip(t, s, depth).value;
    EmptyEnds(t, depth, []);
    match LeadOf(t, s)
    case White =>
      PassesWhite(t, s);
      SkipPasses(t, s[1..], depth);
      PassesThen(t, s, s[1..], rest, 0, 0);
    case Line =>
      PassesLine(t, s);
      SkipPasses(t, SkipLine(s[1..]), depth);
      PassesThen(t, s, SkipLine(s[1..]), rest, 0, 0);
    case Block =>
      PassesBlock(t, s);
      SkipPasses(t, SkipBlock(s[2..], 1).value, depth);
      PassesThen(t, s, SkipBlock(s[2..], 1).value, rest, 0, 0);
    case Hidden =>
      var r := ReadForm(t, s[2..], depth).value.1;
      PassesHash(t, s);
      FormPasses(t, s[2..], depth);
      SkipPasses(t, r, depth);
      PassesThen(t, s, s[2..], r, 0, 0);
      PassesThen(t, s, r, rest, 0, 0);
    case Other => PassesNothing(t, s);
  }

  lemma {:induction false} PassesWhite(t: Lexicon, s: Text)
    requires Sane(t) && LeadOf(t, s) == White
    ensures Passes(t, s, s[1..], 0)
  {
    PassesOne(t, s);
  }

  lemma {:induction false} FormPasses(t: Lexicon, s: Text, depth: nat)
    requires Sane(t) && !t.markersInTokens && ReadForm(t, s, depth).Ok? && ReadForm(t, s, depth).value.0.Some?
    ensures Passes(t, s, ReadForm(t, s, depth).value.1, 0)
    decreases |s|, 2
  {
    hide Skip, ReadBody, Passes;
    var s1 := Skip(t, s, depth).value;
    SkipStops(t, s, depth);
    assert !t.white(s1[0]);
    SkipPasses(t, s, depth);
    BodyPasses(t, s1, depth + 1);
    PassesThen(t, s, s1, ReadForm(t, s, depth).value.1, 0, 0);
  }

  lemma {:induction false} BodyPasses(t: Lexicon, s: Text, depth: nat)
    requires Sane(t) && !t.markersInTokens && s != [] && ReadBody(t, s, depth).Ok? && LeadOf(t, s) == Other
      && !t.white(s[0])
    ensures Passes(t, s, ReadBody(t, s, depth).value.1, 0)
    decreases |s|, 0
  {
    hide ReadList, ReadVector, ReadTagged, ReadCharacter, ReadAtom, ReadString, Passes;
    var rest := ReadBody(t, s, depth).value.1;
    match s[0]
    case '(' =>
      PassesOne(t, s);
      ListPasses(t, s[1..], depth, []);
      PassesThen(t, s, s[1..], rest, 1, -1);
    case '"' => QuotedPasses(t, s);
    case '#' =>
      if "#(" <= s {
        PassesHash(t, s);
        VectorPasses(t, s[2..], depth, []);
        PassesThen(t, s, s[2..], rest, 1, -1);
      } else if "#\\" <= s {
        CharacterPasses(t, s);
      } else {
        TokenPasses(t, s);
      }
    case '\'' => QuoteMarkPasses(t, s, s[1..], depth, "quote");
    case '`' => QuoteMarkPasses(t, s, s[1..], depth, "quasiquote");
    case ',' =>
      if ",@" <= s {
        assert s[1] == s[..2][1];
        PassesOne(t, s);
        PassesOne(t, s[1..]);
        PassesThen(t, s, s[1..], s[2..], 0, 0);
        TaggedPasses(t, s[2..], depth, "unquote-splicing");
        PassesThen(t, s, s[2..], rest, 0, 0);
      } else {
        QuoteMarkPasses(t, s, s[1..], depth, "unquote");
      }
    case ')' =>
    case _ => TokenPasses(t, s);
  }

  lemma {:induction false} QuoteMarkPasses(t: Lexicon, s: Text, mid: Text, depth: nat, tag: string)
    requires Sane(t) && !t.markersInTokens && s != [] && s[0] in "'`," && mid == s[1..]
      && ReadTagged(t, mid, depth, tag).Ok?
    ensures Passes(t, s, ReadTagged(t, mid, depth, tag).value.1, 0)
    decreases |mid|, 4
  {
    hide ReadTagged, Passes;
    PassesOne(t, s);
    TaggedPasses(t, mid, depth, tag);
    PassesThen(t, s, mid, ReadTagged(t, mid, depth, tag).value.1, 0, 0);
  }

  lemma {:induction false} TaggedPasses(t: Lexicon, s: Text, depth: nat, tag: string)
    requires Sane(t) && !t.markersInTokens && ReadTagged(t, s, depth, tag).Ok?
    ensures Passes(t, s, ReadTagged(t, s, depth, tag).value.1, 0)
    decreases |s|, 3
  {
    hide ReadForm, Passes;
    FormPasses(t, s, depth);
  }

  lemma {:induction false} ListPasses(t: Lexicon, s: Text, depth: nat, items: seq<Sexpr>)
    requires Sane(t) && !t.markersInTokens && ReadList(t, s, depth, items).Ok?
    ensures Passes(t, s, ReadList(t, s, depth, items).value.1, -1)
    decreases |s|, 3
  {
    hide Skip, ReadForm, ReadTail, Passes;
    var s1 := Skip(t, s, depth).value;
    var rest := ReadList(t, s, depth, items).value.1;
    EmptyEnds(t, depth, items);
    SkipPasses(t, s, depth);
    if s1[0] == ')' {
      PassesOne(t, s1);
      PassesThen(t, s, s1, rest, 0, -1);
    } else if LoneDot(t, s1) {
      PassesOne(t, s1);
      TailPasses(t, s1[1..], depth, items);
      PassesThen(t, s, s1, s1[1..], 0, 0);
      PassesThen(t, s, s1[1..], rest, 0, -1);
    } else {
      var (x, r) := ReadForm(t, s1, depth).value;
      FormPasses(t, s1, depth);
      ListPasses(t, r, depth, items + [x.value]);
      PassesThen(t, s, s1, r, 0, 0);
      PassesThen(t, s, r, rest, 0, -1);
    }
  }

  lemma {:induction false} TailPasses(t: Lexicon, s: Text, depth: nat, items: seq<Sexpr>)
    requires Sane(t) && !t.markersInTokens && ReadTail(t, s, depth, items).Ok?
    ensures Passes(t, s, ReadTail(t, s, depth, items).value.1, -1)
    decreases |s|, 3
  {
    hide Skip, ReadForm, Passes;
    var s1 := Skip(t, s, depth).value;
    var r := ReadForm(t, s1, depth).value.1;
    var s2 := Skip(t, r, depth).value;
    EmptyEnds(t, depth, items);
    SkipPasses(t, s, depth);
    FormPasses(t, s1, depth);
    SkipPasses(t, r, depth);
    PassesOne(t, s2);
    PassesThen(t, s, s1, r, 0, 0);
    PassesThen(t, s, r, s2, 0, 0);
    PassesThen(t, s, s2, s2[1..], 0, -1);
  }

  lemma {:induction false} VectorPasses(t: Lexicon, s: Text, depth: nat, items: seq<Sexpr>)
    requires Sane(t) && !t.markersInTokens && ReadVector(t, s, depth, items).Ok?
    ensures Passes(t, s, ReadVector(t, s, depth, items).value.1, -1)
    decreases |s|, 3
  {
    hide Skip, ReadForm, Passes;
    var s1 := Skip(t, s, depth).value;
    var rest := ReadVector(t, s, depth, items).value.1;
    EmptyEnds(t, depth, items);
    SkipPasses(t, s, depth);
    if s1[0] == ')' {
      PassesOne(t, s1);
      PassesThen(t, s, s1, rest, 0, -1);
    } else {
      var (x, r) := ReadForm(t, s1, depth).value;
      FormPasses(t, s1, depth);
      VectorPasses(t, r, depth, items + [x.value]);
      PassesThen(t, s, s1, r, 0, 0);
      PassesThen(t, s, r, rest, 0, -1);
    }
  }

  // ----- reading without markers inside tokens is reading -----

  function Lenient(t: Lexicon): Lexicon {
    t.(markersInTokens := true)
  }

  lemma {:induction false} LenientToken(t: Lexicon, s: Text)
    ensures TokenLen(Lenient(t), s) == TokenLen(t, s)
  {
    if s != [] {
      LenientToken(t, s[1..]);
    }
  }

  lemma {:induction false} LenientAtom(t: Lexicon, s: Text)
    requires ReadAtom(t, s).Ok?
    ensures ReadAtom(Lenient(t), s) == ReadAtom(t, s)
  {
    LenientToken(t, s);
  }

  lemma {:induction false} LenientCharacter(t: Lexicon, s: Text)
    ensures ReadCharacter(Lenient(t), s) == ReadCharacter(t, s)
  {
    if s != [] {
      LenientToken(t, s[1..]);
    }
  }

  lemma {:induction false} LenientSkip(t: Lexicon, s: Text, depth: nat)
    requires Skip(t, s, depth).Ok?
    ensures Skip(Lenient(t), s, depth) == Skip(t, s, depth)
    decreases |s|, 1
  {
    hide Suffix, LeadOf, ReadForm, SkipLine, SkipBlock;
    assert LeadOf(Lenient(t), s) == LeadOf(t, s) by {
      LenientLead(t, s);
    }
    match LeadOf(t, s)
    case White => LenientSkip(t, s[1..], depth);
    case Line => LenientSkip(t, SkipLine(s[1..]), depth);
    case Block => LenientSkip(t, SkipBlock(s[2..], 1).value, depth);
    case Hidden =>
      LenientForm(t, s[2..], depth);
      LenientSkip(t, ReadForm(t, s[2..], depth).value.1, depth);
    case Other =>
  }

  lemma {:induction false} LenientLead(t: Lexicon, s: Text)
    ensures LeadOf(Lenient(t), s) == LeadOf(t, s)
  {
  }

  /** What is read when a token may hold no marker is what the reader reads. */
  lemma {:induction false} LenientForm(t: Lexicon, s: Text, depth: nat)
    requires ReadForm(t, s, depth).Ok?
    ensures ReadForm(Lenient(t), s, depth) == ReadForm(t, s, depth)
    decreases |s|, 2
  {
    hide Suffix, Skip, ReadBody;
    LenientSkip(t, s, depth);
    var s1 := Skip(t, s, depth).value;
    if s1 != [] {
      LenientBody(t, s1, depth + 1);
    }
  }

  lemma {:induction false} LenientBody(t: Lexicon, s: Text, depth: nat)
    requires s != [] && ReadBody(t, s, depth).Ok?
    ensures ReadBody(Lenient(t), s, depth) == ReadBody(t, s, depth)
    decreases |s|, 0
  {
    hide Suffix, ReadList, ReadVector, ReadTagged, ReadCharacter, ReadAtom, ReadString;
    match s[0]
    case '(' => LenientList(t, s[1..], depth, []);
    case '"' =>
    case '#' =>
      if "#(" <= s {
        LenientVector(t, s[2..], depth, []);
      } else if "#\\" <= s {
        LenientCharacter(t, s[2..]);
      } else {
        LenientAtom(t, s);
      }
    case '\'' => LenientTagged(t, s[1..], depth, "quote");
    case '`' => LenientTagged(t, s[1..], depth, "quasiquote");
    case ',' =>
      if ",@" <= s {
        LenientTagged(t, s[2..], depth, "unquote-splicing");
      } else {
        LenientTagged(t, s[1..], depth, "unquote");
      }
    case ')' =>
    case _ => LenientAtom(t, s);
  }

  lemma {:induction false} LenientTagged(t: Lexicon, s: Text, depth: nat, tag: string)
    requires ReadTagged(t, s, depth, tag).Ok?
    ensures ReadTagged(Lenient(t), s, depth, tag) == ReadTagged(t, s, depth, tag)
    decreases |s|, 3
  {
    hide Suffix, ReadForm;
    LenientForm(t, s, depth);
  }

  lemma {:induction false} LenientList(t: Lexicon, s: Text, depth: nat, items: seq<Sexpr>)
    requires ReadList(t, s, depth, items).Ok?
    ensures ReadList(Lenient(t), s, depth, items) == ReadList(t, s, depth, items)
    decreases |s|, 3
  {
    hide Suffix, Skip, ReadForm, ReadTail;
    var s1 := Skip(t, s, depth).value;
    LenientSkip(t, s, depth);
    if s1 != [] && s1[0] == ')' {
    } else if LoneDot(t, s1) {
      LenientTail(t, s1[1..], depth, items);
    } else {
      LenientForm(t, s1, depth);
      var (x, r) := ReadForm(t, s1, depth).value;
      LenientList(t, r, depth, items + [x.value]);
    }
  }

  lemma {:induction false} LenientTail(t: Lexicon, s: Text, depth: nat, items: seq<Sexpr>)
    requires ReadTail(t, s, depth, items).Ok?
    ensures ReadTail(Lenient(t), s, depth, items) == ReadTail(t, s, depth, items)
    decreases |s|, 3
  {
    hide Suffix, Skip, ReadForm;
    LenientSkip(t, s, depth);
    var s1 := Skip(t, s, depth).value;
    LenientForm(t, s1, depth);
    LenientSkip(t, ReadForm(t, s1, depth).value.1, depth);
  }

  lemma {:induction false} LenientVector(t: Lexicon, s: Text, depth: nat, items: seq<Sexpr>)
    requires ReadVector(t, s, depth, items).Ok?
    ensures ReadVector(Lenient(t), s, depth, items) == ReadVector(t, s, depth, items)
    decreases |s|, 3
  {
    hide Suffix, Skip, ReadForm;
    var s1 := Skip(t, s, depth).value;
    LenientSkip(t, s, depth);
    if s1 != [] && s1[0] == ')' {
    } else {
      LenientForm(t, s1, depth);
      var (x, r) := ReadForm(t, s1, depth).value;
      LenientVector(t, r, depth, items + [x.value]);
    }
  }

  // ----- the boundary is never missed -----

  /** The trackers that feeding `s` can lead to: an attempt to read may clear `seenToken` at any possible boundary. */
  ghost predicate Tracks(t: Lexicon, s: Text, x: Scan)
    decreases |s|
  {
    if s == [] then x == INITIAL
    else
      var n := |s| - 1;
      exists y :: Tracks(t, s[..n], y)
        && (x == Feed(t, y, s[n]) || (Possible(Feed(t, y, s[n])) && x == Feed(t, y, s[n]).(seenToken := false)))
  }

  lemma {:induction false} FeedAllLast(t: Lexicon, x: Lex, s: Text)
    requires s != []
    ensures FeedAll(t, x, s) == FeedLex(t, FeedAll(t, x, s[..|s| - 1]), s[|s| - 1])
  {
    hide FeedLex;
    var n := |s| - 1;
    assert s == s[..n] + [s[n]];
    FeedAllConcat(t, x, s[..n], [s[n]]);
    FeedFirst(t, FeedAll(t, x, s[..n]), s[n], []);
    assert [s[n]] + [] == [s[n]];
  }

  /** Clearing `seenToken` changes nothing else, and never happens inside a string. */
  lemma {:induction false} TracksFollows(t: Lexicon, s: Text, x: Scan)
    requires Tracks(t, s, x)
    ensures x.lex == FeedAll(t, INITIAL.lex, s) && (x.lex.inString ==> x.seenToken)
    decreases |s|
  {
    hide FeedLex, Sees;
    if s != [] {
      var n := |s| - 1;
      var y :| Tracks(t, s[..n], y)
        && (x == Feed(t, y, s[n]) || (Possible(Feed(t, y, s[n])) && x == Feed(t, y, s[n]).(seenToken := false)));
      TracksFollows(t, s[..n], y);
      FeedAllLast(t, INITIAL.lex, s);
      StringSeen(t, y, s[n]);
    }
  }

  lemma {:induction false} StringSeen(t: Lexicon, y: Scan, c: char)
    requires y.lex.inString ==> y.seenToken
    ensures Feed(t, y, c).lex.inString ==> Feed(t, y, c).seenToken
    ensures c in ")\"" && Feed(t, y, c).lex.block == 0 && !Feed(t, y, c).lex.inComment ==> Feed(t, y, c).seenToken
  {
  }

  /** The last character a read consumed. */
  function Last(s: Text, rest: Text): char
    requires Suffix(rest, s) && |rest| < |s|
  {
    s[|s| - |rest| - 1]
  }

  lemma {:induction false} LastOf(s: Text, mid: Text, rest: Text)
    requires Suffix(mid, s) && Suffix(rest, mid) && |rest| < |mid|
    ensures Suffix(rest, s) && |rest| < |s| && Last(s, rest) == Last(mid, rest)
  {
    assert rest == mid[|mid| - |rest|..] == s[|s| - |rest|..];
  }

  lemma {:induction false} StringEnds(s: Text)
    requires ReadString(s).Ok?
    ensures Last(s, ReadString(s).value.1) == '"'
    decreases |s|
  {
    if s[0] == '\\' {
      StringEnds(s[2..]);
    } else if s[0] != '"' {
      StringEnds(s[1..]);
    }
  }

  lemma {:induction false} ListEnds(t: Lexicon, s: Text, depth: nat, items: seq<Sexpr>)
    requires ReadList(t, s, depth, items).Ok?
    ensures Last(s, ReadList(t, s, depth, items).value.1) == ')'
    decreases |s|
  {
    hide Suffix, Skip, ReadForm, ReadTail, Last;
    var s1 := Skip(t, s, depth).value;
    var rest := ReadList(t, s, depth, items).value.1;
    if s1 != [] && s1[0] == ')' {
      LastOne(s1);
    } else if LoneDot(t, s1) {
      TailEnds(t, s1[1..], depth, items);
      DropSuffix(s1, 1);
      LastOf(s1, s1[1..], rest);
    } else {
      var (x, r) := ReadForm(t, s1, depth).value;
      ListEnds(t, r, depth, items + [x.value]);
      LastOf(s1, r, rest);
    }
    LastOf(s, s1, rest);
  }

  lemma {:induction false} DropSuffix(s: Text, k: nat)
    requires k <= |s|
    ensures Suffix(s[k..], s)
  {
  }

  lemma {:induction false} LastOne(s: Text)
    requires s != []
    ensures Suffix(s[1..], s) && Last(s, s[1..]) == s[0]
  {
  }

  lemma {:induction false} TailEnds(t: Lexicon, s: Text, depth: nat, items: seq<Sexpr>)
    requires ReadTail(t, s, depth, items).Ok?
    ensures Last(s, ReadTail(t, s, depth, items).value.1) == ')'
  {
    hide Suffix, Skip, ReadForm, Last;
    var s1 := Skip(t, s, depth).value;
    var r := ReadForm(t, s1, depth).value.1;
    var s2 := Skip(t, r, depth).value;
    LastOne(s2);
    LastOf(r, s2, s2[1..]);
    LastOf(s1, r, s2[1..]);
    LastOf(s, s1, s2[1..]);
  }

  lemma {:induction false} VectorEnds(t: Lexicon, s: Text, depth: nat, items: seq<Sexpr>)
    requires ReadVector(t, s, depth, items).Ok?
    ensures Last(s, ReadVector(t, s, depth, items).value.1) == ')'
    decreases |s|
  {
    hide Suffix, Skip, ReadForm, Last;
    var s1 := Skip(t, s, depth).value;
    var rest := ReadVector(t, s, depth, items).value.1;
    if s1 != [] && s1[0] == ')' {
      LastOne(s1);
    } else {
      var (x, r) := ReadForm(t, s1, depth).value;
      VectorEnds(t, r, depth, items + [x.value]);
      LastOf(s1, r, rest);
    }
    LastOf(s, s1, rest);
  }

  /** A datum that could not go on growing ends with a closing parenthesis or quote. */
  lemma {:induction false} FormEnds(t: Lexicon, s: Text, depth: nat)
    requires ReadForm(t, s, depth).Ok? && ReadForm(t, s, depth).value.0.Some?
    requires !Growing(ReadForm(t, s, depth).value.0.value)
    ensures Last(s, ReadForm(t, s, depth).value.1) in ")\""
    decreases |s|, 2
  {
    hide Suffix, Skip, ReadBody, Last, Growing;
    var s1 := Skip(t, s, depth).value;
    BodyEnds(t, s1, depth + 1);
    LastOf(s, s1, ReadForm(t, s, depth).value.1);
  }

  lemma {:induction false} BodyEnds(t: Lexicon, s: Text, depth: nat)
    requires s != [] && ReadBody(t, s, depth).Ok? && !Growing(ReadBody(t, s, depth).value.0)
    ensures Last(s, ReadBody(t, s, depth).value.1) in ")\""
    decreases |s|, 0
  {
    hide Suffix, ReadList, ReadVector, ReadTagged, ReadCharacter, ReadAtom, ReadString, Last, Growing;
    var rest := ReadBody(t, s, depth).value.1;
    DropSuffix(s, 1);
    match s[0]
    case '(' =>
      ListEnds(t, s[1..], depth, []);
      LastOf(s, s[1..], rest);
    case '"' =>
      StringEnds(s[1..]);
      LastOf(s, s[1..], rest);
    case '#' =>
      if "#(" <= s {
        VectorEnds(t, s[2..], depth, []);
        DropSuffix(s, 2);
        LastOf(s, s[2..], rest);
      } else if "#\\" <= s {
        CharacterGrows(t, s[2..]);
      } else {
        AtomReadGrows(t, s);
      }
    case '\'' => TaggedEnds(t, s, s[1..], depth, "quote");
    case '`' => TaggedEnds(t, s, s[1..], depth, "quasiquote");
    case ',' =>
      if ",@" <= s {
        DropSuffix(s, 2);
        TaggedEnds(t, s, s[2..], depth, "unquote-splicing");
      } else {
        TaggedEnds(t, s, s[1..], depth, "unquote");
      }
    case ')' =>
    case _ => AtomReadGrows(t, s);
  }

  lemma {:induction false} AtomReadGrows(t: Lexicon, s: Text)
    requires ReadAtom(t, s).Ok?
    ensures Growing(ReadAtom(t, s).value.0)
  {
    AtomGrows(t, s[..TokenLen(t, s)]);
  }

  lemma {:induction false} TaggedEnds(t: Lexicon, s: Text, mid: Text, depth: nat, tag: string)
    requires Suffix(mid, s) && tag in QUOTE_TAGS && ReadTagged(t, mid, depth, tag).Ok?
    requires !Growing(ReadTagged(t, mid, depth, tag).value.0)
    ensures Suffix(ReadTagged(t, mid, depth, tag).value.1, s)
    ensures Last(s, ReadTagged(t, mid, depth, tag).value.1) in ")\""
    decreases |mid|, 3
  {
    hide Suffix, ReadForm, Last;
    FormEnds(t, mid, depth);
    LastOf(s, mid, ReadTagged(t, mid, depth, tag).value.1);
  }

  /**
   No boundary is missed.  When the last character of a list, vector or string arrives,
   the tracker says that a datum may be complete, whatever earlier attempts to read
   have cleared.
   */
  lemma {:induction false} BoundaryNeverMissed(t: Lexicon, s: Text, x: Scan)
    requires Sane(t) && !t.markersInTokens && ReadOne(t, s).Ok? && ReadOne(t, s).value.0.Some?
      && ReadOne(t, s).value.1 == []
    requires !Growing(ReadOne(t, s).value.0.value)
    requires s != [] && Tracks(t, s[..|s| - 1], x)
    ensures Possible(Feed(t, x, s[|s| - 1]))
  {
    hide ReadForm, FeedLex, FeedAll, Tracks, Growing, Sees;
    var n := |s| - 1;
    FormPasses(t, s, 0);
    FormEnds(t, s, 0);
    assert Consumed(s, []) == s;
    assert Neutral(INITIAL.lex, 0, s);
    FeedAllLast(t, INITIAL.lex, s);
    TracksFollows(t, s[..n], x);
    assert Neutral(FeedAll(t, INITIAL.lex, s), 0 + 0, []);
    StringSeen(t, x, s[n]);
  }

  // ----- why tokens must be tame -----

  /** The tracker takes the `#|` inside a symbol for the start of a comment, and misses the end of the list. */
  lemma {:induction false} MarkerHidesEnd(t: Lexicon, x: Scan)
    requires Sane(t) && t.markersInTokens && !t.white('a') && Tracks(t, "(a#|", x)
    ensures ReadOne(t, "(a#|)") == Ok((Some(SList([SSymbol("a#|")])), []))
    ensures !Possible(Feed(t, x, ')'))
  {
    hide Tracks, FeedAll, ReadForm;
    MarkerReads(t);
    TracksFollows(t, "(a#|", x);
    MarkerOpens(t);
  }

  lemma {:induction false} MarkerOpens(t: Lexicon)
    ensures FeedAll(t, INITIAL.lex, "(a#|") == INITIAL.lex.(depth := 1, block := 1)
  {
    hide FeedLex;
    MarkerSteps(t);
    var named := INITIAL.lex.(depth := 1);
    FeedTwo(t, named, '#', '|', []);
    FeedTwo(t, INITIAL.lex, '(', 'a', "#|");
    assert ['#'] + (['|'] + []) == "#|" && ['('] + (['a'] + "#|") == "(a#|";
  }

  lemma {:induction false} MarkerSteps(t: Lexicon)
    ensures var named := INITIAL.lex.(depth := 1);
      FeedLex(t, FeedLex(t, INITIAL.lex, '('), 'a') == named
      && FeedLex(t, FeedLex(t, named, '#'), '|') == named.(block := 1)
  {
  }

  lemma {:induction false} MarkerReads(t: Lexicon)
    requires Sane(t) && t.markersInTokens && !t.white('a')
    ensures ReadOne(t, "(a#|)") == Ok((Some(SList([SSymbol("a#|")])), []))
  {
    hide ReadAtom, ReadVector, ReadTagged, ReadString, ReadCharacter, SkipLine, SkipBlock, Suffix;
    var s, inner := "(a#|)", "a#|)";
    assert s[1..] == inner;
    MarkerAtom(t);
    assert Skip(t, s, 0) == Ok(s) && Skip(t, inner, 1) == Ok(inner) && Skip(t, ")", 1) == Ok(")");
    assert ReadBody(t, inner, 2) == ReadAtom(t, inner);
    assert ReadForm(t, inner, 1) == Ok((Some(SSymbol("a#|")), ")"));
    CloseReads(t, [SSymbol("a#|")]);
    assert [] + [SSymbol("a#|")] == [SSymbol("a#|")];
    assert !LoneDot(t, inner);
    assert ReadList(t, inner, 1, []) == Ok((SList([SSymbol("a#|")]), []));
    assert ReadBody(t, s, 1) == ReadList(t, inner, 1, []);
  }

  lemma {:induction false} CloseReads(t: Lexicon, items: seq<Sexpr>)
    requires Sane(t)
    ensures ReadList(t, ")", 1, items) == Ok((SList(items), []))
  {
    hide ReadForm, ReadTail, SkipLine, SkipBlock, Suffix;
    assert ")"[0] == ')' && ")"[1..] == [];
    assert LeadOf(t, ")") == Other;
    assert Skip(t, ")", 1) == Ok(")");
  }

  lemma {:induction false} MarkerAtom(t: Lexicon)
    requires Sane(t) && t.markersInTokens && !t.white('a')
    ensures ReadAtom(t, "a#|)") == Ok((SSymbol("a#|"), ")"))
  {
    hide ParseInt, LooksNumeric;
    var s := "a#|)";
    assert s[1..] == "#|)" && "#|)"[1..] == "|)" && "|)"[1..] == ")";
    assert TokenLen(t, ")") == 0;
    assert TokenLen(t, "|)") == 1;
    assert TokenLen(t, "#|)") == 2;
    assert TokenLen(t, s) == 3;
    assert s[..3] == "a#|" && s[3..] == ")";
    NotNumeric(t);
  }

  lemma {:induction false} NotNumeric(t: Lexicon)
    ensures AtomFromText(t, "a#|") == Ok(SSymbol("a#|"))
  {
    hide ParseInt;
    assert "a#|"[0] == 'a';
  }
}
