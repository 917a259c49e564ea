/** The external form of finite data, and that the reader undoes it. */
module Printer {
  import opened Prelude
  import opened Reader

  /** A finite datum: proper lists are chains of pairs that end in `DNil`. */
  datatype Datum =
    | DInt(n: int)
    | DBool(b: bool)
    | DChar(c: char)
    | DStr(s: string)
    | DSymbol(s: string)
    | DNil
    | DCons(car: Datum, cdr: Datum)
    | DVector(items: seq<Datum>)

  function DigitChar(n: nat): char
    requires n < 10
  {
    "0123456789"[n]
  }

  function NatText(n: nat): string {
    if n < 10 then [DigitChar(n)] else NatText(n / 10) + [DigitChar(n % 10)]
  }

  function IntText(n: int): string {
    if n < 0 then "-" + NatText(-n) else NatText(n)
  }

  function Escape(c: char): string {
    match c
    case '"' => "\\\""
    case '\\' => "\\\\"
    case '\n' => "\\n"
    case '\t' => "\\t"
    case '\r' => "\\r"
    case _ => [c]
  }

  function Escaped(s: string): string {
    if s == [] then "\"" else Escape(s[0]) + Escaped(s[1..])
  }

  function CharText(c: char): string {
    match c
    case ' ' => "#\\space"
    case '\n' => "#\\newline"
    case '\t' => "#\\tab"
    case _ => "#\\" + [c]
  }

  /** `write`: the form that reads back. */
  function Written(d: Datum): string
    decreases d, 1
  {
    match d
    case DInt(n) => IntText(n)
    case DBool(b) => if b then "#t" else "#f"
    case DChar(c) => CharText(c)
    case DStr(s) => "\"" + Escaped(s)
    case DSymbol(s) => s
    case DNil => "()"
    case DCons(a, b) => "(" + (Written(a) + TailText(b))
    case DVector(items) => if items == [] then "#()" else "#(" + (Written(items[0]) + MoreText(items[1..]))
  }

  /** What follows the first element of a list: further elements, or a dot and the tail. */
  function TailText(d: Datum): string
    decreases d, 2
  {
    match d
    case DNil => ")"
    case DCons(a, b) => " " + (Written(a) + TailText(b))
    case _ => " . " + (Written(d) + ")")
  }

  function MoreText(items: seq<Datum>): string
    decreases items, 0
  {
    if items == [] then ")" else " " + (Written(items[0]) + MoreText(items[1..]))
  }

  /** `display`: strings and characters as they are, everything else as it is written. */
  function Displayed(d: Datum): string
    decreases d, 1
  {
    match d
    case DChar(c) => [c]
    case DStr(s) => s
    case DCons(a, b) => "(" + (Displayed(a) + DisplayedTail(b))
    case DVector(items) => if items == [] then "#()" else "#(" + (Displayed(items[0]) + DisplayedMore(items[1..]))
    case _ => Written(d)
  }

  function DisplayedTail(d: Datum): string
    decreases d, 2
  {
    match d
    case DNil => ")"
    case DCons(a, b) => " " + (Displayed(a) + DisplayedTail(b))
    case _ => " . " + (Displayed(d) + ")")
  }

  function DisplayedMore(items: seq<Datum>): string
    decreases items, 0
  {
    if items == [] then ")" else " " + (Displayed(items[0]) + DisplayedMore(items[1..]))
  }

  /** No string and no character in it. */
  predicate Plain(d: Datum)
    decreases d, 1
  {
    match d
    case DChar(_) | DStr(_) => false
    case DCons(a, b) => Plain(a) && Plain(b)
    case DVector(items) => PlainAll(items)
    case _ => true
  }

  predicate PlainAll(items: seq<Datum>)
    decreases items, 0
  {
    items == [] || (Plain(items[0]) && PlainAll(items[1..]))
  }

  /** `shown` is `written` where nothing is hidden, and shorter otherwise. */
  predicate Shortened(shown: string, written: string, plain: bool) {
    if plain then shown == written else |shown| < |written|
  }

  lemma {:induction false} EscapedLonger(s: string)
    ensures |s| < |Escaped(s)|
  {
    if s != [] {
      EscapedLonger(s[1..]);
    }
  }

  lemma {:induction false} DisplayShortens(d: Datum)
    ensures Shortened(Displayed(d), Written(d), Plain(d))
    decreases d, 1
  {
    match d
    case DStr(s) => EscapedLonger(s);
    case DCons(a, b) =>
      DisplayShortens(a);
      TailShortens(b);
    case DVector(items) =>
      assert PlainAll(items) == (items == [] || (Plain(items[0]) && PlainAll(items[1..])));
      if items != [] {
        DisplayShortens(items[0]);
        MoreShortens(items[1..]);
      }
    case _ =>
  }

  lemma {:induction false} TailShortens(d: Datum)
    ensures Shortened(DisplayedTail(d), TailText(d), Plain(d))
    decreases d, 2
  {
    match d
    case DNil =>
    case DCons(a, b) =>
      DisplayShortens(a);
      TailShortens(b);
    case _ => DisplayShortens(d);
  }

  lemma {:induction false} MoreShortens(items: seq<Datum>)
    ensures Shortened(DisplayedMore(items), MoreText(items), PlainAll(items))
    decreases items, 0
  {
    if items != [] {
      DisplayShortens(items[0]);
      MoreShortens(items[1..]);
    }
  }

  /** Both styles agree exactly on data without strings and characters. */
  lemma {:induction false} StylesAgree(d: Datum)
    ensures Displayed(d) == Written(d) <==> Plain(d)
  {
    hide Displayed, Written;
    DisplayShortens(d);
  }

  // ----- what the reader makes of it -----

  function ToSexpr(d: Datum): Sexpr
    decreases d, 1
  {
    match d
    case DInt(n) => SInt(n)
    case DBool(b) => SBool(b)
    case DChar(c) => SChar(c)
    case DStr(s) => SStr(s)
    case DSymbol(s) => SSymbol(s)
    case DNil => SList([])
    case DCons(a, b) => ListOf([ToSexpr(a)], b)
    case DVector(items) => SVector(ToSexprs(items))
  }

  function ListOf(items: seq<Sexpr>, d: Datum): Sexpr
    decreases d, 2
  {
    match d
    case DNil => SList(items)
    case DCons(a, b) => ListOf(items + [ToSexpr(a)], b)
    case _ => SDotted(items, ToSexpr(d))
  }

  function ToSexprs(ds: seq<Datum>): seq<Sexpr>
    decreases ds, 0
  {
    if ds == [] then [] else [ToSexpr(ds[0])] + ToSexprs(ds[1..])
  }

  /** The datum a text form stands for; floats are not among the data printed here. */
  function Meaning(x: Sexpr): Option<Datum>
    decreases x, 1
  {
    match x
    case SInt(n) => Some(DInt(n))
    case SBool(b) => Some(DBool(b))
    case SChar(c) => Some(DChar(c))
    case SStr(s) => Some(DStr(s))
    case SSymbol(s) => Some(DSymbol(s))
    case SList(items) => Chain(items, Some(DNil))
    case SDotted(items, tail) => Chain(items, Meaning(tail))
    case SVector(items) => var ds := Meanings(items); if ds.Some? then Some(DVector(ds.value)) else None
    case SFloat(_) => None
  }

  function Chain(items: seq<Sexpr>, tail: Option<Datum>): Option<Datum>
    decreases items, 0
  {
    if items == [] then tail
    else
      var a, b := Meaning(items[0]), Chain(items[1..], tail);
      if a.Some? && b.Some? then Some(DCons(a.value, b.value)) else None
  }

  function Meanings(items: seq<Sexpr>): Option<seq<Datum>>
    decreases items, 0
  {
    if items == [] then Some([])
    else
      var a, b := Meaning(items[0]), Meanings(items[1..]);
      if a.Some? && b.Some? then Some([a.value] + b.value) else None
  }

  lemma {:induction false} ChainAppends(items: seq<Sexpr>, x: Sexpr, tail: Option<Datum>)
    ensures Chain(items + [x], tail) == Chain(items, Chain([x], tail))
    decreases |items|
  {
    if items == [] {
      assert [] + [x] == [x];
    } else {
      assert (items + [x])[1..] == items[1..] + [x];
      ChainAppends(items[1..], x, tail);
    }
  }

  lemma {:induction false} MeaningOf(d: Datum)
    ensures Meaning(ToSexpr(d)) == Some(d)
    decreases d, 1
  {
    match d
    case DCons(a, b) =>
      MeaningOf(a);
      ListMeaning([ToSexpr(a)], b);
      assert Chain([ToSexpr(a)], Some(b)) == Some(DCons(a, b)) by {
        assert [ToSexpr(a)][1..] == [];
      }
    case DVector(items) => MeaningsOf(items);
    case _ =>
  }

  lemma {:induction false} MeaningsOf(ds: seq<Datum>)
    ensures Meanings(ToSexprs(ds)) == Some(ds)
    decreases ds, 0
  {
    if ds != [] {
      MeaningOf(ds[0]);
      MeaningsOf(ds[1..]);
      assert ToSexprs(ds)[1..] == ToSexprs(ds[1..]) && [ds[0]] + ds[1..] == ds;
    }
  }

  lemma {:induction false} ListMeaning(items: seq<Sexpr>, d: Datum)
    ensures Meaning(ListOf(items, d)) == Chain(items, Some(d))
    decreases d, 2
  {
    match d
    case DNil =>
    case DCons(a, b) =>
      MeaningOf(a);
      ListMeaning(items + [ToSexpr(a)], b);
      ChainAppends(items, ToSexpr(a), Some(b));
      assert Chain([ToSexpr(a)], Some(b)) == Some(d) by {
        assert [ToSexpr(a)][1..] == [];
      }
    case _ => MeaningOf(d);
  }

  // ----- what can be read back -----

  /** The facts about character classes that the printed forms rely on. */
  ghost predicate Ordinary(t: Lexicon) {
    t.markersInTokens && t.white(' ') && (forall c: char :: '!' <= c <= '~' ==> !t.white(c))
    && t.alpha('s') && t.alpha('n') && t.alpha('t')
  }

  /** A symbol whose text is a token of its own and no other kind of atom. */
  ghost predicate Readable(t: Lexicon, s: string) {
    s != [] && s != "." && s != "#" && (forall i :: 0 <= i < |s| ==> !IsDelimiter(t, s[i]))
    && !("#\\" <= s) && !("#|" <= s) && AtomFromText(t, s) == Ok(SSymbol(s))
  }

  ghost predicate Printable(t: Lexicon, d: Datum) {
    match d
    case DInt(n) => I64_MIN <= n <= I64_MAX
    case DSymbol(s) => Readable(t, s)
    case DCons(a, b) => Printable(t, a) && Printable(t, b)
    case DVector(items) => forall i :: 0 <= i < |items| ==> Printable(t, items[i])
    case _ => true
  }

  /** Nesting of data: going along a list does not count, its elements and dotted tail do. */
  function Depth(d: Datum): (n: nat)
    ensures n > 0
    decreases d, 1
  {
    match d
    case DCons(a, b) => 1 + Larger(Depth(a), TailDepth(b))
    case DVector(items) => 1 + DepthAll(items)
    case _ => 1
  }

  function TailDepth(d: Datum): nat
    decreases d, 2
  {
    match d
    case DNil => 0
    case DCons(a, b) => Larger(Depth(a), TailDepth(b))
    case _ => Depth(d)
  }

  function DepthAll(items: seq<Datum>): nat
    decreases items, 0
  {
    if items == [] then 0 else Larger(Depth(items[0]), DepthAll(items[1..]))
  }
}
