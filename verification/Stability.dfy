/**
 A datum that has been read in full stays read when more text arrives, unless it is an
 atom at the very end of the text, which the new text might continue.
 */
module Stability {
  import opened Prelude
  import opened Reader

  const QUOTE_TAGS: set<string> := {"quote", "quasiquote", "unquote", "unquote-splicing"}

  /** An atom, or a quote form around one: where it ends is known only from what follows. */
  predicate Growing(x: Sexpr) {
    match x
    case SInt(_) | SFloat(_) | SSymbol(_) | SBool(_) | SChar(_) => true
    case SList(items) => |items| == 2 && items[0].SSymbol? && items[0].s in QUOTE_TAGS && Growing(items[1])
    case _ => false
  }

  lemma {:induction false} Drop(s: Text, ext: Text, k: nat)
    requires k <= |s|
    ensures (s + ext)[k..] == s[k..] + ext && (s + ext)[..k] == s[..k]
  {
  }

  lemma {:induction false} Starts(s: Text, ext: Text, p: Text)
    requires |p| <= |s|
    ensures p <= s + ext <==> p <= s
  {
    assert (s + ext)[..|p|] == s[..|p|];
  }

  lemma {:induction false} StableLine(s: Text, ext: Text)
    requires SkipLine(s) != []
    ensures SkipLine(s + ext) == SkipLine(s) + ext
  {
    Drop(s, ext, 1);
    if s[0] != '\n' {
      StableLine(s[1..], ext);
    }
  }

  lemma {:induction false} StableBlock(s: Text, ext: Text, depth: nat)
    requires depth > 0 && SkipBlock(s, depth).Ok?
    ensures SkipBlock(s + ext, depth) == Ok(SkipBlock(s, depth).value + ext)
    decreases |s|
  {
    Drop(s, ext, 1);
    if |s| > 1 {
      Drop(s, ext, 2);
      Starts(s, ext, "#|");
      Starts(s, ext, "|#");
      if "#|" <= s {
        StableBlock(s[2..], ext, depth + 1);
      } else if "|#" <= s {
        if depth > 1 {
          StableBlock(s[2..], ext, depth - 1);
        }
      } else {
        StableBlock(s[1..], ext, depth);
      }
    }
  }

  lemma {:induction false} StableString(s: Text, ext: Text)
    requires ReadString(s).Ok?
    ensures ReadString(s + ext) == Ok((ReadString(s).value.0, ReadString(s).value.1 + ext))
    decreases |s|
  {
    Drop(s, ext, 1);
    if s[0] == '\\' {
      Drop(s, ext, 2);
      StableString(s[2..], ext);
    } else if s[0] != '"' {
      StableString(s[1..], ext);
    }
  }

  lemma {:induction false} StableToken(t: Lexicon, s: Text, ext: Text)
    requires TokenLen(t, s) < |s|
    ensures TokenLen(t, s + ext) == TokenLen(t, s)
  {
    Drop(s, ext, 1);
    if !IsDelimiter(t, s[0]) {
      StableToken(t, s[1..], ext);
    }
  }

  lemma {:induction false} AtomGrows(t: Lexicon, text: Text)
    requires AtomFromText(t, text).Ok?
    ensures Growing(AtomFromText(t, text).value)
  {
  }

  lemma {:induction false} StableAtom(t: Lexicon, s: Text, ext: Text)
    requires ReadAtom(t, s).Ok? && (ReadAtom(t, s).value.1 != [] || !Growing(ReadAtom(t, s).value.0))
    ensures ReadAtom(t, s + ext) == Ok((ReadAtom(t, s).value.0, ReadAtom(t, s).value.1 + ext))
  {
    hide AtomFromText;
    var n := TokenLen(t, s);
    AtomGrows(t, s[..n]);
    StableToken(t, s, ext);
    Drop(s, ext, n);
    assert n < |s|;
    assert Tame(s, n) ==> Tame(s + ext, n) by {
      assert forall i | 0 <= i < |s| :: (s + ext)[i] == s[i];
    }
  }

  lemma {:induction false} StableCharacter(t: Lexicon, s: Text, ext: Text)
    requires ReadCharacter(t, s).Ok? && ReadCharacter(t, s).value.1 != []
    ensures ReadCharacter(t, s + ext) == Ok((ReadCharacter(t, s).value.0, ReadCharacter(t, s).value.1 + ext))
  {
    Drop(s, ext, 1);
    if t.alpha(s[0]) {
      var n := 1 + TokenLen(t, s[1..]);
      StableToken(t, s[1..], ext);
      Drop(s, ext, n);
    }
  }

  lemma {:induction false} CharacterGrows(t: Lexicon, s: Text)
    requires ReadCharacter(t, s).Ok?
    ensures Growing(ReadCharacter(t, s).value.0)
  {
  }

  lemma {:induction false} StableLead(t: Lexicon, s: Text, ext: Text)
    requires s != [] && s != "#"
    ensures LeadOf(t, s + ext) == LeadOf(t, s)
  {
    assert (s + ext)[0] == s[0];
    if |s| > 1 {
      Starts(s, ext, "#|");
      Starts(s, ext, "#;");
    }
  }

  /** Where white space and comments end, unless that is at the end of the text. */
  lemma {:induction false} StableSkip(t: Lexicon, s: Text, ext: Text, depth: nat)
    requires Skip(t, s, depth).Ok? && Skip(t, s, depth).value != [] && Skip(t, s, depth).value != "#"
    ensures Skip(t, s + ext, depth) == Ok(Skip(t, s, depth).value + ext)
    decreases |s|, 1
  {
    hide Suffix, LeadOf, ReadForm, SkipLine, SkipBlock, Growing;
    EmptyEnds(t, depth, []);
    assert s != "#" by {
      HashLeadsNowhere(t, depth);
    }
    StableLead(t, s, ext);
    match LeadOf(t, s)
    case White =>
      Drop(s, ext, 1);
      StableSkip(t, s[1..], ext, depth);
    case Line =>
      Drop(s, ext, 1);
      StableLine(s[1..], ext);
      StableSkip(t, SkipLine(s[1..]), ext, depth);
    case Block =>
      Drop(s, ext, 2);
      StableBlock(s[2..], ext, 1);
      StableSkip(t, SkipBlock(s[2..], 1).value, ext, depth);
    case Hidden =>
      Drop(s, ext, 2);
      StableForm(t, s[2..], ext, depth);
      StableSkip(t, ReadForm(t, s[2..], depth).value.1, ext, depth);
    case Other =>
  }

  lemma {:induction false} HashLeadsNowhere(t: Lexicon, depth: nat)
    ensures Skip(t, "#", depth) == Ok("#") || Skip(t, "#", depth) == Ok([])
  {
  }

  /** A text read in full is read the same whatever follows. */
  lemma {:induction false} StableForm(t: Lexicon, s: Text, ext: Text, depth: nat)
    requires ReadForm(t, s, depth).Ok? && ReadForm(t, s, depth).value.0.Some?
    requires ReadForm(t, s, depth).value.1 != [] || !Growing(ReadForm(t, s, depth).value.0.value)
    ensures ReadForm(t, s + ext, depth) == Ok((ReadForm(t, s, depth).value.0, ReadForm(t, s, depth).value.1 + ext))
    decreases |s|, 2
  {
    hide Skip, ReadBody, Growing;
    var s1 := Skip(t, s, depth).value;
    if s1 == "#" {
      LoneHash(t, depth + 1);
    }
    StableSkip(t, s, ext, depth);
    StableBody(t, s1, ext, depth + 1);
  }

  lemma {:induction false} LoneHash(t: Lexicon, depth: nat)
    requires ReadBody(t, "#", depth).Ok?
    ensures ReadBody(t, "#", depth).value.1 == [] && Growing(ReadBody(t, "#", depth).value.0)
  {
    AtomGrows(t, "#"[..TokenLen(t, "#")]);
  }

  lemma {:induction false} StableBody(t: Lexicon, s: Text, ext: Text, depth: nat)
    requires s != [] && ReadBody(t, s, depth).Ok?
    requires ReadBody(t, s, depth).value.1 != [] || !Growing(ReadBody(t, s, depth).value.0)
    ensures ReadBody(t, s + ext, depth) == Ok((ReadBody(t, s, depth).value.0, ReadBody(t, s, depth).value.1 + ext))
    decreases |s|, 0
  {
    hide ReadList, ReadVector, ReadTagged, ReadCharacter, ReadAtom, ReadString;
    Drop(s, ext, 1);
    if |s| > 1 {
      Drop(s, ext, 2);
      Starts(s, ext, "#(");
      Starts(s, ext, "#\\");
      Starts(s, ext, ",@");
    }
    match s[0]
    case '(' => StableList(t, s[1..], ext, depth, []);
    case '"' => StableString(s[1..], ext);
    case '#' =>
      if "#(" <= s {
        StableVector(t, s[2..], ext, depth, []);
      } else if "#\\" <= s {
        CharacterGrows(t, s[2..]);
        StableCharacter(t, s[2..], ext);
      } else {
        HashAlone(t, s);
        StableAtom(t, s, ext);
      }
    case '\'' => StableTagged(t, s[1..], ext, depth, "quote");
    case '`' => StableTagged(t, s[1..], ext, depth, "quasiquote");
    case ',' =>
      if ",@" <= s {
        StableTagged(t, s[2..], ext, depth, "unquote-splicing");
      } else {
        CommaAlone(t, s, depth);
        StableTagged(t, s[1..], ext, depth, "unquote");
      }
    case ')' =>
    case _ => StableAtom(t, s, ext);
  }

  lemma {:induction false} HashAlone(t: Lexicon, s: Text)
    requires s != [] && s[0] == '#' && ReadAtom(t, s).Ok?
    requires ReadAtom(t, s).value.1 != [] || !Growing(ReadAtom(t, s).value.0)
    ensures |s| > 1
  {
    AtomGrows(t, s[..TokenLen(t, s)]);
  }

  lemma {:induction false} CommaAlone(t: Lexicon, s: Text, depth: nat)
    requires s != [] && ReadTagged(t, s[1..], depth, "unquote").Ok?
    ensures |s| > 1
  {
    assert ReadForm(t, [], depth) == Ok((None, []));
  }

  lemma {:induction false} StableTagged(t: Lexicon, s: Text, ext: Text, depth: nat, tag: string)
    requires tag in QUOTE_TAGS && ReadTagged(t, s, depth, tag).Ok?
    requires ReadTagged(t, s, depth, tag).value.1 != [] || !Growing(ReadTagged(t, s, depth, tag).value.0)
    ensures ReadTagged(t, s + ext, depth, tag)
         == Ok((ReadTagged(t, s, depth, tag).value.0, ReadTagged(t, s, depth, tag).value.1 + ext))
    decreases |s|, 3
  {
    StableForm(t, s, ext, depth);
  }

  lemma {:induction false} EmptyEnds(t: Lexicon, depth: nat, items: seq<Sexpr>)
    ensures LeadOf(t, []) == Other && ReadForm(t, [], depth) == Ok((None, [])) && Skip(t, [], depth) == Ok([])
    ensures ReadList(t, [], depth, items).Err? && ReadVector(t, [], depth, items).Err?
      && ReadTail(t, [], depth, items).Err?
  {
  }

  lemma {:induction false} HashItem(t: Lexicon, depth: nat)
    requires ReadForm(t, "#", depth).Ok? && ReadForm(t, "#", depth).value.0.Some?
    ensures ReadForm(t, "#", depth).value.1 == []
  {
    if !t.white('#') {
      LoneHash(t, depth + 1);
    }
  }

  /** The atmosphere before an element ends at something that more text does not change. */
  lemma {:induction false} NotLoneHash(t: Lexicon, s1: Text, depth: nat)
    requires s1 == [] || s1 == "#"
    requires ReadForm(t, s1, depth).Ok? && ReadForm(t, s1, depth).value.0.Some?
    ensures ReadForm(t, s1, depth).value.1 == []
  {
    EmptyEnds(t, depth, []);
    if s1 == "#" {
      HashItem(t, depth);
    }
  }

  lemma {:induction false} StableList(t: Lexicon, s: Text, ext: Text, depth: nat, items: seq<Sexpr>)
    requires ReadList(t, s, depth, items).Ok?
    ensures ReadList(t, s + ext, depth, items)
         == Ok((ReadList(t, s, depth, items).value.0, ReadList(t, s, depth, items).value.1 + ext))
    decreases |s|, 3
  {
    hide Suffix, LeadOf, ReadForm, Skip, ReadTail;
    var s1 := Skip(t, s, depth).value;
    if s1 != [] && s1[0] == ')' {
      StableSkip(t, s, ext, depth);
      Drop(s1, ext, 1);
    } else if LoneDot(t, s1) {
      EmptyEnds(t, depth, items);
      StableSkip(t, s, ext, depth);
      Drop(s1, ext, 1);
      StableTail(t, s1[1..], ext, depth, items);
    } else {
      var (x, rest) := ReadForm(t, s1, depth).value;
      EmptyEnds(t, depth, items + [x.value]);
      if s1 == [] || s1 == "#" {
        NotLoneHash(t, s1, depth);
      }
      StableSkip(t, s, ext, depth);
      StableForm(t, s1, ext, depth);
      StableList(t, rest, ext, depth, items + [x.value]);
    }
  }

  lemma {:induction false} StableVector(t: Lexicon, s: Text, ext: Text, depth: nat, items: seq<Sexpr>)
    requires ReadVector(t, s, depth, items).Ok?
    ensures ReadVector(t, s + ext, depth, items)
         == Ok((ReadVector(t, s, depth, items).value.0, ReadVector(t, s, depth, items).value.1 + ext))
    decreases |s|, 3
  {
    var s1 := Skip(t, s, depth).value;
    if s1 != [] && s1[0] == ')' {
      StableSkip(t, s, ext, depth);
      Drop(s1, ext, 1);
    } else {
      var (x, rest) := ReadForm(t, s1, depth).value;
      EmptyEnds(t, depth, items + [x.value]);
      if s1 == [] || s1 == "#" {
        NotLoneHash(t, s1, depth);
      }
      StableSkip(t, s, ext, depth);
      StableForm(t, s1, ext, depth);
      StableVector(t, rest, ext, depth, items + [x.value]);
    }
  }

  lemma {:induction false} StableTail(t: Lexicon, s: Text, ext: Text, depth: nat, items: seq<Sexpr>)
    requires ReadTail(t, s, depth, items).Ok?
    ensures ReadTail(t, s + ext, depth, items)
         == Ok((ReadTail(t, s, depth, items).value.0, ReadTail(t, s, depth, items).value.1 + ext))
    decreases |s|, 3
  {
    var s1 := Skip(t, s, depth).value;
    var (x, rest) := ReadForm(t, s1, depth).value;
    EmptyEnds(t, depth, items);
    if s1 == [] || s1 == "#" {
      NotLoneHash(t, s1, depth);
    }
    StableSkip(t, s, ext, depth);
    StableForm(t, s1, ext, depth);
    StableSkip(t, rest, ext, depth);
    Drop(Skip(t, rest, depth).value, ext, 1);
  }
}
