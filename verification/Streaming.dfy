/**
 Reading one datum from standard input as its text arrives in chunks.

 A chunk may end inside a character; what has arrived of that character cannot be
 decoded until the next chunk completes it, and until then nothing is tried.
 */
module Streaming {
  import opened Prelude
  import opened Reader
  import opened Scanner
  import opened Stability
  import opened Boundary
  import opened BoundaryProof

  datatype Chunk = Chunk(text: Text, ragged: bool)

  datatype Reply = Datum(x: Sexpr) | EndOfFile | Failed(e: ReadError) | InvalidEncoding

  ghost function Concat(chunks: seq<Chunk>): Text {
    if chunks == [] then [] else chunks[0].text + Concat(chunks[1..])
  }

  class Input {
    var buffer: Text
    var ragged: bool
    var chunks: seq<Chunk>

    constructor (chunks: seq<Chunk>)
      ensures buffer == [] && !ragged && this.chunks == chunks
    {
      buffer, ragged, this.chunks := [], false, chunks;
    }

    /** All the text there is, in the buffer or still to come. */
    ghost function Stream(): Text
      reads this
    {
      buffer + Concat(chunks)
    }

    /** The stream breaks off inside a character. */
    ghost predicate EndsRagged()
      reads this
    {
      if chunks == [] then ragged else chunks[|chunks| - 1].ragged
    }
  }

  /** What a read of the whole stream yields, and the text it leaves. */
  ghost function Answer(t: Lexicon, s: Text): (Reply, Text) {
    match ReadOne(t, s)
    case Ok((Some(x), rest)) => (Datum(x), rest)
    case Ok((None, _)) => (EndOfFile, s)
    case Err(e) => (Failed(e), s)
  }

  /** A datum is at the front, and more text cannot change it. */
  ghost predicate Complete(t: Lexicon, s: Text) {
    ReadOne(t, s).Ok? && ReadOne(t, s).value.0.Some?
    && (ReadOne(t, s).value.1 != [] || !Growing(ReadOne(t, s).value.0.value))
  }

  lemma {:induction false} CompleteStays(t: Lexicon, s: Text, ext: Text)
    requires Complete(t, s)
    ensures Answer(t, s + ext) == (Answer(t, s).0, Answer(t, s).1 + ext)
  {
    hide ReadForm;
    StableForm(t, s, ext, 0);
  }

  /** `s` ends in a datum that the tracker cannot have missed. */
  ghost predicate Delimited(t: Lexicon, s: Text) {
    var strict := t.(markersInTokens := false);
    t.markersInTokens && ReadOne(strict, s).Ok? && ReadOne(strict, s).value.0.Some? && ReadOne(strict, s).value.1 == []
    && !Growing(ReadOne(strict, s).value.0.value)
  }

  lemma {:induction false} FeedIgnoresStrictness(t: Lexicon, x: Scan, c: char)
    ensures Feed(t.(markersInTokens := false), x, c) == Feed(t, x, c)
  {
  }

  lemma {:induction false} TracksIgnoresStrictness(t: Lexicon, s: Text, x: Scan)
    requires Tracks(t, s, x)
    ensures Tracks(t.(markersInTokens := false), s, x)
    decreases |s|
  {
    hide Feed, Possible;
    if s != [] {
      var n := |s| - 1;
      var y :| Tracks(t, s[..n], y)
        && (x == Feed(t, y, s[n]) || (Possible(Feed(t, y, s[n])) && x == Feed(t, y, s[n]).(seenToken := false)));
      TracksIgnoresStrictness(t, s[..n], y);
      FeedIgnoresStrictness(t, y, s[n]);
    }
  }

  lemma {:induction false} TracksNext(t: Lexicon, s: Text, c: char, y: Scan, x: Scan)
    requires Tracks(t, s, y)
    requires x == Feed(t, y, c) || (Possible(Feed(t, y, c)) && x == Feed(t, y, c).(seenToken := false))
    ensures Tracks(t, s + [c], x)
  {
    hide Feed, Possible;
    assert (s + [c])[..|s|] == s && (s + [c])[|s|] == c;
  }

  /** Where a delimited datum ends, a read is attempted. */
  lemma {:induction false} DelimitedIsPossible(t: Lexicon, s: Text, k: nat, x: Scan)
    requires Sane(t) && k < |s| && Tracks(t, s[..k], x) && Delimited(t, s[..k + 1])
    ensures Possible(Feed(t, x, s[k])) && Complete(t, s)
  {
    hide ReadForm, Feed, Possible, Tracks, Growing;
    var strict := t.(markersInTokens := false);
    var p := s[..k + 1];
    assert p[..|p| - 1] == s[..k] && p[|p| - 1] == s[k];
    TracksIgnoresStrictness(t, s[..k], x);
    BoundaryNeverMissed(strict, p, x);
    FeedIgnoresStrictness(t, x, s[k]);
    LenientForm(strict, p, 0);
    assert Lenient(strict) == t;
    StableForm(t, p, s[k + 1..], 0);
    assert s == p + s[k + 1..];
  }

  // ----- atoms that have been put off -----

  /** Fed `w`, the tracker reports a possible boundary somewhere. */
  predicate Wakes(t: Lexicon, x: Scan, w: Text)
    decreases |w|
  {
    w != [] && (Possible(Feed(t, x, w[0])) || Wakes(t, Feed(t, x, w[0]), w[1..]))
  }

  /** `s` ends in an atom, tried and put off because it might go on; the next text begins with its delimiter. */
  ghost predicate PutOff(t: Lexicon, s: Text, w: Text) {
    var strict := t.(markersInTokens := false);
    s != [] && w != [] && t.markersInTokens && IsDelimiter(t, w[0]) && ReadOne(strict, s + [w[0]]).Ok?
    && ReadOne(strict, s + [w[0]]).value.0.Some? && ReadOne(strict, s + [w[0]]).value.1 == [w[0]]
    && Growing(ReadOne(strict, s + [w[0]]).value.0.value)
  }

  /** The tracker after an attempt at the end of `s` has failed. */
  function Tried(t: Lexicon, s: Text): Scan {
    Scan(FeedAll(t, INITIAL.lex, s), false)
  }

  /**
   Which delimiters wake the tracker: a put-off atom is tried again at once when what ends
   it is a closing parenthesis or a quote mark, and only then.
   */
  lemma {:induction false} DelimiterWakes(t: Lexicon, x: Scan, c: char)
    requires Sane(t) && Neutral(x.lex, 0, [c]) && !x.seenToken && IsDelimiter(t, c)
    ensures Possible(Feed(t, x, c)) <==> c in ")'`,"
    ensures Wakes(t, x, [c]) <==> c in ")'`,"
  {
    assert [c][1..] == [];
  }

  lemma {:induction false} FeedAllIgnoresStrictness(t: Lexicon, x: Lex, s: Text)
    ensures FeedAll(t.(markersInTokens := false), x, s) == FeedAll(t, x, s)
    decreases |s|
  {
    hide FeedLex;
    if s != [] {
      FeedIgnoresStrictness(t, Scan(x, false), s[0]);
      FeedAllIgnoresStrictness(t, FeedLex(t, x, s[0]), s[1..]);
    }
  }

  /** At the end of a put-off atom the tracker is outside everything. */
  lemma {:induction false} PutOffIsNeutral(t: Lexicon, s: Text, w: Text)
    requires Sane(t) && PutOff(t, s, w)
    ensures Neutral(Tried(t, s).lex, 0, [w[0]])
  {
    hide ReadForm, FeedAll, Growing;
    var strict := t.(markersInTokens := false);
    var p := s + [w[0]];
    FormPasses(strict, p, 0);
    assert Consumed(p, [w[0]]) == s;
    assert Neutral(INITIAL.lex, 0, p);
    assert Neutral(FeedAll(strict, INITIAL.lex, s), 0 + 0, [w[0]]);
    FeedAllIgnoresStrictness(t, INITIAL.lex, s);
  }

  lemma {:induction false} PutOffTracked(t: Lexicon, s: Text, w: Text, x: Scan)
    requires Sane(t) && PutOff(t, s, w) && Tracks(t, s, x) && !Possible(x)
    ensures x == Tried(t, s)
  {
    hide FeedAll, PutOff;
    PutOffIsNeutral(t, s, w);
    TracksFollows(t, s, x);
  }

  /** With its delimiter the atom is complete; before, nothing was. */
  lemma {:induction false} PutOffCompletes(t: Lexicon, s: Text, w: Text)
    requires PutOff(t, s, w)
    ensures Complete(t, s + w)
    ensures forall k :: 0 <= k <= |s| ==> !Complete(t, s[..k])
  {
    hide ReadForm, Growing;
    var strict := t.(markersInTokens := false);
    var p := s + [w[0]];
    LenientForm(strict, p, 0);
    assert Lenient(strict) == t;
    assert Complete(t, p);
    CompleteStays(t, p, w[1..]);
    assert p + w[1..] == s + w;
    forall k | 0 <= k <= |s|
      ensures !Complete(t, s[..k])
    {
      assert s[..k] + p[k..] == p;
      if Complete(t, s[..k]) {
        CompleteStays(t, s[..k], p[k..]);
      }
    }
  }

  /**
   What feeding `text` from `fed` on has shown.  A datum is found only if it is complete;
   without one, no delimited datum ended in the part that was fed.  When a datum is
   complete, it is found just when the tracker wakes, and nothing stays untried.
   */
  ghost predicate Fed(t: Lexicon, text: Text, fed: nat, ragged: bool, x: Scan, found: bool, x': Scan)
    requires fed <= |text|
  {
    (found ==> Complete(t, text)) && (!found ==> Tracks(t, text, x'))
    && (!found && !ragged && Sane(t) ==> forall k :: fed < k <= |text| ==> !Delimited(t, text[..k]))
    && (!found && !ragged && fed < |text| ==> !Possible(x'))
    && (!ragged && Complete(t, text) ==> (found <==> Wakes(t, x, text[fed..])))
  }

  /**
   Feeds what has arrived to the tracker and tries to read at every possible boundary.
   Without a result, nothing was consumed, and no delimited datum is complete in the
   part of a cleanly decodable buffer that was fed.
   */
  method AdvanceAndMaybeRead(t: Lexicon, input: Input, scan: DatumBoundaryScan, fed: nat)
      returns (r: Option<Sexpr>, fed': nat)
    requires scan.t == t && fed <= |input.buffer| && Tracks(t, input.buffer[..fed], scan.View())
    modifies input`buffer, scan
    ensures r.None? ==> input.buffer == old(input.buffer) && fed' == |input.buffer|
    ensures r.Some? ==> Answer(t, old(input.buffer)) == (Datum(r.value), input.buffer)
    ensures Fed(t, old(input.buffer), fed, input.ragged, old(scan.View()), r.Some?, scan.View())
  {
    hide ReadForm, Feed, Tracks, Delimited, Growing;
    ghost var text, first := input.buffer, scan.View();
    fed' := fed;
    while fed' < |input.buffer|
      invariant input.buffer == text && fed <= fed' <= |text|
      invariant Tracks(t, text[..fed'], scan.View())
      invariant !input.ragged && Sane(t) ==> forall k :: fed < k <= fed' ==> !Delimited(t, text[..k])
      invariant !input.ragged && Complete(t, text) ==>
        (Wakes(t, first, text[fed..]) <==> Wakes(t, scan.View(), text[fed'..]))
      invariant !input.ragged && fed' > fed ==> !Possible(scan.View())
    {
      assert text[fed'..][0] == text[fed'] && text[fed'..][1..] == text[fed' + 1..];
      ghost var y := scan.View();
      ghost var k := fed';
      var c := input.buffer[fed'];
      scan.FeedChar(c);
      fed' := fed' + 1;
      assert text[..fed'] == text[..k] + [c];
      TracksNext(t, text[..k], c, y, scan.View());
      if Sane(t) && Delimited(t, text[..fed']) {
        DelimitedIsPossible(t, text, k, y);
      }
      if scan.PossibleBoundary() && !input.ragged {
        var parsed := ReadOneText(t, input.buffer);
        if parsed.Ok? && parsed.value.0.Some? && !(parsed.value.1 == [] && IsGrowing(parsed.value.0.value)) {
          input.buffer := parsed.value.1;
          return parsed.value.0, fed';
        }
        TracksNext(t, text[..k], c, y, scan.View().(seenToken := false));
        scan.seenToken := false;
      }
    }
    assert text[..fed'] == text;
    r := None;
  }

  /** `ends_in_a_possibly_growing_atom`. */
  function IsGrowing(x: Sexpr): (r: bool)
    ensures r == Growing(x)
  {
    match x
    case SInt(_) | SFloat(_) | SSymbol(_) | SBool(_) | SChar(_) => true
    case SList(items) => |items| == 2 && items[0].SSymbol? && items[0].s in QUOTE_TAGS && IsGrowing(items[1])
    case _ => false
  }

  lemma {:induction false} ConcatNext(chunks: seq<Chunk>, n: nat)
    requires n < |chunks|
    ensures Concat(chunks[n..]) == chunks[n].text + Concat(chunks[n + 1..])
    ensures Concat(chunks[..n + 1]) == Concat(chunks[..n]) + chunks[n].text
    decreases n
  {
    assert chunks[n..][1..] == chunks[n + 1..];
    if n == 0 {
      assert chunks[..1][1..] == [] && Concat(chunks[..1]) == chunks[0].text + Concat(chunks[..1][1..]);
      assert Concat(chunks[..0]) == [];
    } else {
      ConcatNext(chunks[1..], n - 1);
      assert chunks[..n + 1][1..] == chunks[1..][..n] && chunks[..n][1..] == chunks[1..][..n - 1];
      assert Concat(chunks[..n + 1]) == chunks[0].text + Concat(chunks[1..][..n]);
      assert Concat(chunks[..n]) == chunks[0].text + Concat(chunks[1..][..n - 1]);
    }
  }

  /** How much text is there once the first `n` chunks have arrived. */
  ghost function Arrived(buffer: Text, chunks: seq<Chunk>, n: nat): nat
    requires n <= |chunks|
  {
    |buffer| + |Concat(chunks[..n])|
  }

  /** No delimited datum was completed by the text that arrived with chunk `n`; the buffer itself counts as chunk 0. */
  ghost predicate NothingDue(t: Lexicon, buffer: Text, chunks: seq<Chunk>, whole: Text, n: nat)
    requires n <= |chunks|
  {
    var before := if n == 0 then 0 else Arrived(buffer, chunks, n - 1);
    forall k :: before < k <= Arrived(buffer, chunks, n) && k <= |whole| ==> !Delimited(t, whole[..k])
  }

  lemma {:induction false} NothingDueHere(t: Lexicon, buffer: Text, chunks: seq<Chunk>, whole: Text, n: nat,
        current: Text, fed: nat)
    requires n <= |chunks| && current == buffer + Concat(chunks[..n]) && current <= whole
    requires fed == if n == 0 then 0 else Arrived(buffer, chunks, n - 1)
    requires forall k :: fed < k <= |current| ==> !Delimited(t, current[..k])
    ensures NothingDue(t, buffer, chunks, whole, n)
  {
    hide Delimited;
    forall k | fed < k <= Arrived(buffer, chunks, n) && k <= |whole|
      ensures !Delimited(t, whole[..k])
    {
      assert whole[..k] == current[..k];
    }
  }

  /** The stream has ended: one read of what there is decides. */
  method ReadLast(t: Lexicon, input: Input) returns (r: Reply)
    requires input.chunks == []
    modifies input`buffer
    ensures (r, input.Stream()) == Answer(t, old(input.Stream()))
  {
    hide ReadForm;
    assert input.buffer + Concat([]) == input.buffer;
    var parsed := ReadOneText(t, input.buffer);
    if parsed.Ok? && parsed.value.0.Some? {
      input.buffer := parsed.value.1;
      assert input.buffer + Concat([]) == input.buffer;
      return Datum(parsed.value.0.value);
    }
    r := if parsed.Ok? then EndOfFile else Failed(parsed.error);
  }

  /** Each chunk asked for so far was asked for with nothing due. */
  ghost predicate Prompt(t: Lexicon, buffer: Text, ragged: bool, chunks: seq<Chunk>, whole: Text, taken: nat)
    requires taken <= |chunks|
  {
    forall n :: 0 <= n < taken && !(if n == 0 then ragged else chunks[n - 1].ragged) ==>
      NothingDue(t, buffer, chunks, whole, n)
  }

  /** Nothing has been returned: the buffer holds the first `taken` chunks, all of it fed. */
  ghost predicate Waiting(t: Lexicon, buffer: Text, chunks: seq<Chunk>, taken: nat, current: Text, left: seq<Chunk>,
        x: Scan) {
    taken <= |chunks| && left == chunks[taken..] && current == buffer + Concat(chunks[..taken]) && Tracks(t, current, x)
    && current + Concat(left) == buffer + Concat(chunks)
  }

  lemma {:induction false} WaitingStarts(t: Lexicon, buffer: Text, chunks: seq<Chunk>, x: Scan)
    requires Tracks(t, buffer, x)
    ensures Waiting(t, buffer, chunks, 0, buffer, chunks, x)
  {
    hide Tracks;
    assert chunks[..0] == [] && buffer + [] == buffer;
  }

  /** One more chunk. */
  lemma {:induction false} WaitingNext(t: Lexicon, buffer: Text, chunks: seq<Chunk>, taken: nat, current: Text,
                                       left: seq<Chunk>, x: Scan)
    requires Waiting(t, buffer, chunks, taken, current, left, x) && left != []
    ensures taken < |chunks| && left[0] == chunks[taken] && left[1..] == chunks[taken + 1..]
    ensures var next := current + left[0].text;
      next == buffer + Concat(chunks[..taken + 1]) && next[..|current|] == current
      && next + Concat(left[1..]) == buffer + Concat(chunks) && |current| == Arrived(buffer, chunks, taken)
  {
    hide Tracks, Concat;
    ConcatNext(chunks, taken);
    assert left[0] == chunks[taken] && left[1..] == chunks[taken + 1..];
    var text := chunks[taken].text;
    Associate(buffer, Concat(chunks[..taken]), text);
    Associate(current, text, Concat(chunks[taken + 1..]));
  }

  lemma {:induction false} PromptNext(t: Lexicon, buffer: Text, ragged: bool, chunks: seq<Chunk>, whole: Text,
        taken: nat)
    requires taken < |chunks| && Prompt(t, buffer, ragged, chunks, whole, taken)
    requires !(if taken == 0 then ragged else chunks[taken - 1].ragged) ==> NothingDue(t, buffer, chunks, whole, taken)
    ensures Prompt(t, buffer, ragged, chunks, whole, taken + 1)
  {
    hide NothingDue;
  }

  /** The text that is there once the first `n` chunks have arrived. */
  ghost function TextAt(buffer: Text, chunks: seq<Chunk>, n: nat): Text
    requires n <= |chunks|
  {
    buffer + Concat(chunks[..n])
  }

  ghost predicate Ragged(ragged: bool, chunks: seq<Chunk>, n: nat)
    requires n <= |chunks|
  {
    if n == 0 then ragged else chunks[n - 1].ragged
  }

  /** The text so far ends in a put-off atom, last tried when it ended, and chunk `n + 1` brings its delimiter. */
  ghost predicate AtomDue(t: Lexicon, buffer: Text, ragged: bool, chunks: seq<Chunk>, n: nat) {
    n < |chunks| && !Ragged(ragged, chunks, n) && !chunks[n].ragged
      && PutOff(t, TextAt(buffer, chunks, n), chunks[n].text)
    && (n == 0 || chunks[n - 1].text != [])
  }

  ghost predicate AtomWakes(t: Lexicon, buffer: Text, chunks: seq<Chunk>, n: nat)
    requires n < |chunks|
  {
    Wakes(t, Tried(t, TextAt(buffer, chunks, n)), chunks[n].text)
  }

  /** When the chunk is the delimiter alone, the four characters that wake the tracker are known. */
  lemma {:induction false} DelimiterAlone(t: Lexicon, buffer: Text, ragged: bool, chunks: seq<Chunk>, n: nat)
    requires Sane(t) && AtomDue(t, buffer, ragged, chunks, n) && |chunks[n].text| == 1
    ensures AtomWakes(t, buffer, chunks, n) <==> chunks[n].text[0] in ")'`,"
  {
    hide FeedAll, Wakes;
    var s, c := TextAt(buffer, chunks, n), chunks[n].text[0];
    assert chunks[n].text == [c];
    PutOffIsNeutral(t, s, [c]);
    DelimiterWakes(t, Tried(t, s), c);
  }

  /** No chunk so far has woken the tracker for a put-off atom. */
  ghost predicate Asleep(t: Lexicon, buffer: Text, ragged: bool, chunks: seq<Chunk>, taken: nat)
    requires taken <= |chunks|
  {
    forall n :: 0 <= n < taken && AtomDue(t, buffer, ragged, chunks, n) ==> !AtomWakes(t, buffer, chunks, n)
  }

  /**
   A put-off atom is returned with the chunk that brings its delimiter if that chunk wakes
   the tracker; otherwise another chunk is asked for when there is one.
   */
  ghost predicate Punctual(t: Lexicon, buffer: Text, ragged: bool, chunks: seq<Chunk>, taken: nat)
    requires taken <= |chunks|
  {
    forall n :: 0 <= n < |chunks| && AtomDue(t, buffer, ragged, chunks, n) ==>
      if AtomWakes(t, buffer, chunks, n) then taken == n + 1 else n + 1 < |chunks| ==> taken > n + 1
  }

  lemma {:induction false} TextGrows(buffer: Text, chunks: seq<Chunk>, m: nat, n: nat)
    requires m <= n <= |chunks|
    ensures TextAt(buffer, chunks, m) <= TextAt(buffer, chunks, n)
    decreases n - m
  {
    hide Concat;
    if m < n {
      TextGrows(buffer, chunks, m, n - 1);
      ConcatNext(chunks, n - 1);
      Associate(buffer, Concat(chunks[..n - 1]), chunks[n - 1].text);
    }
  }

  /** Where a datum is complete, no atom can have been put off later. */
  lemma {:induction false} NothingPutOff(t: Lexicon, buffer: Text, ragged: bool, chunks: seq<Chunk>, m: nat, n: nat)
    requires m <= n < |chunks| && Complete(t, TextAt(buffer, chunks, m))
    ensures !AtomDue(t, buffer, ragged, chunks, n)
  {
    hide PutOff, Complete, Concat;
    if AtomDue(t, buffer, ragged, chunks, n) {
      var s := TextAt(buffer, chunks, n);
      var k := |TextAt(buffer, chunks, m)|;
      TextGrows(buffer, chunks, m, n);
      assert s[..k] == TextAt(buffer, chunks, m);
      PutOffCompletes(t, s, chunks[n].text);
    }
  }

  /** A datum found in the first `taken` chunks: found in time for every atom. */
  lemma {:induction false} FoundPunctual(t: Lexicon, buffer: Text, ragged: bool, chunks: seq<Chunk>, taken: nat)
    requires taken <= |chunks| && Complete(t, TextAt(buffer, chunks, taken))
    requires taken > 0 ==> Asleep(t, buffer, ragged, chunks, taken - 1)
    requires taken > 0 && AtomDue(t, buffer, ragged, chunks, taken - 1) ==> AtomWakes(t, buffer, chunks, taken - 1)
    ensures Punctual(t, buffer, ragged, chunks, taken)
  {
    hide AtomDue, AtomWakes, Complete, TextAt;
    forall n | taken <= n < |chunks|
      ensures !AtomDue(t, buffer, ragged, chunks, n)
    {
      NothingPutOff(t, buffer, ragged, chunks, taken, n);
    }
  }

  /** The stream has ended: no chunk woke the tracker. */
  lemma {:induction false} EndedPunctual(t: Lexicon, buffer: Text, ragged: bool, chunks: seq<Chunk>)
    requires Asleep(t, buffer, ragged, chunks, |chunks|)
    ensures Punctual(t, buffer, ragged, chunks, |chunks|)
  {
    hide AtomDue, AtomWakes;
  }

  lemma {:induction false} NothingAsleep(t: Lexicon, buffer: Text, ragged: bool, chunks: seq<Chunk>)
    ensures Asleep(t, buffer, ragged, chunks, 0)
  {
  }

  /** One chunk fed: if it brought the delimiter of a put-off atom, it was returned just when the tracker woke. */
  lemma {:induction false} ChunkFed(t: Lexicon, buffer: Text, ragged: bool, chunks: seq<Chunk>, n: nat, current: Text,
        x: Scan, woke: bool)
    requires Sane(t) && n < |chunks| && current == TextAt(buffer, chunks, n) && Tracks(t, current, x)
    requires !Ragged(ragged, chunks, n) && current != [] && (n == 0 || chunks[n - 1].text != []) ==> !Possible(x)
    requires !chunks[n].ragged && Complete(t, current + chunks[n].text) ==> (woke <==> Wakes(t, x, chunks[n].text))
    ensures AtomDue(t, buffer, ragged, chunks, n) ==> (woke <==> AtomWakes(t, buffer, chunks, n))
  {
    hide Tracks, Complete, Wakes, Possible, Tried, PutOff;
    if AtomDue(t, buffer, ragged, chunks, n) {
      PutOffNonempty(t, current, chunks[n].text);
      PutOffTracked(t, current, chunks[n].text, x);
      PutOffCompletes(t, current, chunks[n].text);
    }
  }

  lemma {:induction false} PutOffNonempty(t: Lexicon, s: Text, w: Text)
    requires PutOff(t, s, w)
    ensures s != [] && w != []
  {
  }

  lemma {:induction false} AsleepNext(t: Lexicon, buffer: Text, ragged: bool, chunks: seq<Chunk>, n: nat)
    requires n < |chunks| && Asleep(t, buffer, ragged, chunks, n)
    requires AtomDue(t, buffer, ragged, chunks, n) ==> !AtomWakes(t, buffer, chunks, n)
    ensures Asleep(t, buffer, ragged, chunks, n + 1)
  {
    hide AtomDue, AtomWakes;
  }

  /** Nothing has been returned, and everything asked for so far was asked for in time. */
  ghost predicate Pending(t: Lexicon, buffer: Text, ragged: bool, chunks: seq<Chunk>, taken: nat, current: Text,
                          left: seq<Chunk>, x: Scan)
  {
    Waiting(t, buffer, chunks, taken, current, left, x)
    && (Sane(t) ==>
          Prompt(t, buffer, ragged, chunks, buffer + Concat(chunks), taken) && Asleep(t, buffer, ragged, chunks, taken)
          && (!Ragged(ragged, chunks, taken) ==> NothingDue(t, buffer, chunks, buffer + Concat(chunks), taken))
          && (!Ragged(ragged, chunks, taken) && current != [] && (taken == 0 || chunks[taken - 1].text != []) ==>
             !Possible(x)))
  }

  /** The read is over after `taken` chunks: nothing was asked for too late or waited for too long. */
  ghost predicate InTime(t: Lexicon, buffer: Text, ragged: bool, chunks: seq<Chunk>, taken: nat)
    requires taken <= |chunks|
  {
    Prompt(t, buffer, ragged, chunks, buffer + Concat(chunks), taken) && Punctual(t, buffer, ragged, chunks, taken)
  }

  lemma {:induction false} FirstFed(t: Lexicon, buffer: Text, ragged: bool, chunks: seq<Chunk>, found: bool, x: Scan)
    requires Fed(t, buffer, 0, ragged, INITIAL, found, x)
    ensures if found then InTime(t, buffer, ragged, chunks, 0)
            else Pending(t, buffer, ragged, chunks, 0, buffer, chunks, x)
  {
    hide Tracks, Delimited, Complete, NothingDue, Waiting, Prompt, Wakes, Possible, AtomDue, Asleep, Punctual, Concat;
    var whole := buffer + Concat(chunks);
    assert TextAt(buffer, chunks, 0) == buffer by { NoText(buffer, chunks); }
    NothingPrompt(t, buffer, ragged, chunks, whole);
    NothingAsleep(t, buffer, ragged, chunks);
    if found {
      FoundPunctual(t, buffer, ragged, chunks, 0);
    } else {
      WaitingStarts(t, buffer, chunks, x);
      if !ragged && Sane(t) {
        FirstNothingDue(t, buffer, chunks, whole);
      }
    }
  }

  lemma {:induction false} NoText(buffer: Text, chunks: seq<Chunk>)
    ensures TextAt(buffer, chunks, 0) == buffer
  {
    assert chunks[..0] == [];
    assert buffer + [] == buffer;
  }

  /** The next chunk arrives and is fed. */
  lemma {:induction false} ChunkArrives(t: Lexicon, buffer: Text, ragged: bool, chunks: seq<Chunk>, taken: nat,
        current: Text,
                                        left: seq<Chunk>, x: Scan, found: bool, x': Scan)
    requires Sane(t) && Pending(t, buffer, ragged, chunks, taken, current, left, x) && left != []
    requires Fed(t, current + left[0].text, |current|, left[0].ragged, x, found, x')
    ensures taken < |chunks|
    ensures if found then InTime(t, buffer, ragged, chunks, taken + 1)
            else Pending(t, buffer, ragged, chunks, taken + 1, current + left[0].text, left[1..], x')
  {
    hide Tracks, Delimited, Complete, NothingDue, Prompt, Wakes, Possible, AtomDue, AtomWakes, Asleep, Punctual, Concat;
    var whole := buffer + Concat(chunks);
    var next := current + left[0].text;
    WaitingNext(t, buffer, chunks, taken, current, left, x);
    PromptNext(t, buffer, ragged, chunks, whole, taken);
    assert next[|current|..] == left[0].text;
    ChunkFed(t, buffer, ragged, chunks, taken, current, x, found);
    if found {
      FoundPunctual(t, buffer, ragged, chunks, taken + 1);
    } else {
      AsleepNext(t, buffer, ragged, chunks, taken);
      WaitingOn(t, buffer, chunks, taken + 1, next, left[1..], x');
      if !left[0].ragged {
        NothingDueHere(t, buffer, chunks, whole, taken + 1, next, |current|);
      }
    }
  }

  /** Without promptness: the bookkeeping alone. */
  lemma {:induction false} ChunkArrivesAnyway(t: Lexicon, buffer: Text, ragged: bool, chunks: seq<Chunk>, taken: nat,
        current: Text,
                                              left: seq<Chunk>, x: Scan, x': Scan)
    requires !Sane(t) && Pending(t, buffer, ragged, chunks, taken, current, left, x) && left != []
    requires Tracks(t, current + left[0].text, x')
    ensures Pending(t, buffer, ragged, chunks, taken + 1, current + left[0].text, left[1..], x')
  {
    hide Tracks, Concat;
    WaitingNext(t, buffer, chunks, taken, current, left, x);
    WaitingOn(t, buffer, chunks, taken + 1, current + left[0].text, left[1..], x');
  }

  lemma {:induction false} StreamEnds(t: Lexicon, buffer: Text, ragged: bool, chunks: seq<Chunk>, taken: nat,
        current: Text, x: Scan)
    requires Sane(t) && Pending(t, buffer, ragged, chunks, taken, current, [], x)
    ensures InTime(t, buffer, ragged, chunks, taken)
  {
    hide NothingDue, Prompt, Asleep, Punctual, Concat;
    assert taken == |chunks|;
    EndedPunctual(t, buffer, ragged, chunks);
  }

  lemma {:induction false} PendingParts(t: Lexicon, buffer: Text, ragged: bool, chunks: seq<Chunk>, taken: nat,
        current: Text,
                                        left: seq<Chunk>, x: Scan)
    requires Pending(t, buffer, ragged, chunks, taken, current, left, x)
    ensures taken <= |chunks| && left == chunks[taken..] && current + Concat(left) == buffer + Concat(chunks)
    ensures Tracks(t, current, x)
    ensures left != [] ==> left[0] == chunks[taken] && left[1..] == chunks[taken + 1..]
    ensures left != [] ==> current + left[0].text + Concat(left[1..]) == buffer + Concat(chunks)
  {
    hide Tracks;
    if left != [] {
      Associate(current, left[0].text, Concat(left[1..]));
    }
  }

  /**
   Streaming does not depend on chunking: whatever the chunks, the reply and the text
   left unread are those of one read of the whole stream.  And it is in time: it asked for
   chunk `n + 1` only when the text of chunk `n` completed no delimited datum, and an atom
   that had been put off was returned with the chunk that brought its delimiter just when
   that chunk woke the tracker.
   */
  method NativeRead(t: Lexicon, input: Input) returns (r: Reply, ghost taken: nat)
    modifies input
    ensures taken <= |old(input.chunks)| && input.chunks == old(input.chunks)[taken..]
    ensures !old(input.EndsRagged()) ==> (r, input.Stream()) == Answer(t, old(input.Stream()))
    ensures (r == InvalidEncoding && input.Stream() == old(input.Stream()))
         || (r, input.Stream()) == Answer(t, old(input.Stream()))
    ensures Sane(t) ==> InTime(t, old(input.buffer), old(input.ragged), old(input.chunks), taken)
  {
    hide Tracks, Complete, Answer, Concat, Pending, InTime, Fed;
    ghost var buffer, chunks, whole, ragged := input.buffer, input.chunks, input.Stream(), input.ragged;
    taken := 0;
    var scan := new DatumBoundaryScan(t);
    NothingTracked(t);
    assert input.buffer[..0] == [];
    var found, fed := AdvanceAndMaybeRead(t, input, scan, 0);
    FirstFed(t, buffer, ragged, chunks, found.Some?, scan.View());
    if found.Some? {
      FoundNow(t, buffer, Concat(chunks), 0, ragged, INITIAL, scan.View());
      return Datum(found.value), 0;
    }
    while true
      invariant Pending(t, buffer, ragged, chunks, taken, input.buffer, input.chunks, scan.View())
        && fed == |input.buffer|
      invariant taken <= |chunks| && input.chunks == chunks[taken..]
      invariant input.ragged == if taken == 0 then ragged else chunks[taken - 1].ragged
      invariant input.Stream() == whole
      decreases |input.chunks|
    {
      PendingParts(t, buffer, ragged, chunks, taken, input.buffer, input.chunks, scan.View());
      if input.chunks == [] {
        if Sane(t) {
          StreamEnds(t, buffer, ragged, chunks, taken, input.buffer, scan.View());
        }
        if input.ragged {
          return InvalidEncoding, taken;
        }
        r := ReadLast(t, input);
        return;
      }
      ghost var current, left, x := input.buffer, input.chunks, scan.View();
      var chunk := input.chunks[0];
      input.chunks := input.chunks[1..];
      input.buffer := input.buffer + chunk.text;
      input.ragged := chunk.ragged;
      assert input.buffer[..fed] == current;
      found, fed := AdvanceAndMaybeRead(t, input, scan, fed);
      if Sane(t) {
        ChunkArrives(t, buffer, ragged, chunks, taken, current, left, x, found.Some?, scan.View());
      } else if found.None? {
        FedTracks(t, current + chunk.text, |current|, chunk.ragged, x, scan.View());
        ChunkArrivesAnyway(t, buffer, ragged, chunks, taken, current, left, x, scan.View());
      }
      taken := taken + 1;
      if found.Some? {
        FoundNow(t, current + chunk.text, Concat(input.chunks), |current|, chunk.ragged, x, scan.View());
        return Datum(found.value), taken;
      }
    }
  }

  lemma {:induction false} FoundNow(t: Lexicon, text: Text, ext: Text, fed: nat, ragged: bool, x: Scan, x': Scan)
    requires fed <= |text| && Fed(t, text, fed, ragged, x, true, x')
    ensures Answer(t, text + ext) == (Answer(t, text).0, Answer(t, text).1 + ext)
  {
    hide Complete, Answer;
    CompleteStays(t, text, ext);
  }

  lemma {:induction false} FedTracks(t: Lexicon, text: Text, fed: nat, ragged: bool, x: Scan, x': Scan)
    requires fed <= |text| && Fed(t, text, fed, ragged, x, false, x')
    ensures Tracks(t, text, x')
  {
  }

  lemma {:induction false} WaitingOn(t: Lexicon, buffer: Text, chunks: seq<Chunk>, taken: nat, current: Text,
                                     left: seq<Chunk>, x: Scan)
    requires taken <= |chunks| && left == chunks[taken..] && current == buffer + Concat(chunks[..taken])
    requires Tracks(t, current, x) && current + Concat(left) == buffer + Concat(chunks)
    ensures Waiting(t, buffer, chunks, taken, current, left, x)
  {
  }

  lemma {:induction false} NothingPrompt(t: Lexicon, buffer: Text, ragged: bool, chunks: seq<Chunk>, whole: Text)
    ensures Prompt(t, buffer, ragged, chunks, whole, 0)
  {
  }

  lemma {:induction false} FirstNothingDue(t: Lexicon, buffer: Text, chunks: seq<Chunk>, whole: Text)
    requires buffer <= whole && forall k :: 0 < k <= |buffer| ==> !Delimited(t, buffer[..k])
    ensures NothingDue(t, buffer, chunks, whole, 0)
  {
    hide Delimited;
    assert chunks[..0] == [] && buffer + [] == buffer;
    NothingDueHere(t, buffer, chunks, whole, 0, buffer, 0);
  }

  lemma {:induction false} NothingTracked(t: Lexicon)
    ensures Tracks(t, [], INITIAL)
  {
  }

  /**
   Promptness stops at atoms.  When `1` has been tried and put off because more digits
   might follow, a space that arrives later ends it, but the tracker does not notice: only
   the next token, or the end of the stream, makes it try again.
   */
  lemma {:induction false} AtomThenSpaceWaits(t: Lexicon) returns (x: Scan)
    requires Sane(t) && t.white(' ') && !t.white('1')
    ensures Tracks(t, "1", x) && Complete(t, "1 ") && !Possible(Feed(t, x, ' '))
  {
    x := Feed(t, INITIAL, '1').(seenToken := false);
    NothingTracked(t);
    TracksNext(t, [], '1', INITIAL, x);
    assert [] + ['1'] == "1";
    OneReads(t);
  }

  lemma {:induction false} OneReads(t: Lexicon)
    requires Sane(t) && t.white(' ') && !t.white('1')
    ensures ReadOne(t, "1 ") == Ok((Some(SInt(1)), " "))
  {
    hide ReadAtom, ReadList, ReadVector, ReadTagged, ReadString, ReadCharacter, SkipLine, SkipBlock, Suffix;
    var s := "1 ";
    OneAtom(t);
    assert LeadOf(t, s) == Other;
    assert Skip(t, s, 0) == Ok(s);
    assert ReadBody(t, s, 1) == ReadAtom(t, s);
  }

  lemma {:induction false} OneAtom(t: Lexicon)
    requires Sane(t) && t.white(' ') && !t.white('1')
    ensures ReadAtom(t, "1 ") == Ok((SInt(1), " "))
  {
    var s := "1 ";
    assert s[1..] == " " && s[..1] == "1" && "1"[1..] == "";
    assert TokenLen(t, " ") == 0;
    assert TokenLen(t, s) == 1;
    assert ParseDigits("", 10, 1) == Some(1);
    assert ParseDigits("1", 10, 0) == Some(1);
    assert AtomFromText(t, "1") == Ok(SInt(1));
  }
}
