/**
 Structured code: what holds of every chunk the compiler makes, run or not.

 One instruction after the other the chunk decodes from its first byte to its last, and
 every instruction boundary has one height: the operands on the stack whenever control is
 there.  Jumps lead forward to boundaries of the height they leave.
 */
module Structure {
  import opened Prelude
  import opened Instr
  import opened Compile
  import opened Points

  /** A chunk's code and constants, with the function table it belongs to. */
  datatype Unit = Unit(code: seq<byte>, consts: seq<Data.Const>, fns: seq<Chunk>)

  /** `o` is reached from `from` one instruction after the other. */
  ghost predicate Walks(code: seq<byte>, from: nat, o: nat)
    decreases |code| - from
  {
    from == o || match Fetch(code, from)
                 case Got(_, next) => from < |code| && Walks(code, next, o)
                 case _ => false
  }

  function Pops(i: Instr): nat {
    match i
    case Call(argc) => argc + 1
    case TailCall(argc) => argc + 1
    case Swap | Eqv => 2
    case Pop | Dup | PushLocal | JumpIfFalse(_) | Return => 1
    case DefGlobal(_) | SetGlobal(_) | SetLocal(_) | SetUpvalue(_, _) => 1
    case _ => 0
  }

  function Pushes(i: Instr): nat {
    match i
    case Dup | Swap => 2
    case Pop | PushLocal | Jump(_) | JumpIfFalse(_) | Return | Halt => 0
    case _ => 1
  }

  /** The height after `i`, a call having returned its value. */
  function After(i: Instr, h: nat): nat
    requires Pops(i) <= h
  {
    h - Pops(i) + Pushes(i)
  }

  predicate Falls(i: Instr) {
    !i.Jump? && !i.Return? && !i.Halt?
  }

  function Target(i: Instr): Option<nat> {
    match i
    case Jump(t) => Some(t)
    case JumpIfFalse(t) => Some(t)
    case _ => None
  }

  /** Operands name constants and functions that exist; a tail call is followed by nothing but jumps to RETURN. */
  ghost predicate Allowed(u: Unit, i: Instr, next: nat) {
    match i
    case Const(k) => k < |u.consts|
    case GetGlobal(k) => k < |u.consts| && u.consts[k].CSymbol?
    case DefGlobal(k) => k < |u.consts| && u.consts[k].CSymbol?
    case SetGlobal(k) => k < |u.consts| && u.consts[k].CSymbol?
    case MakeFunction(f) => f < |u.fns|
    case TailCall(_) => Exits(u.code, next)
    case _ => true
  }

  // ----- a stretch of code -----

  /** Where `labels` promise heights for jumps that leave the stretch. */
  ghost predicate Led(t: nat, h: nat, heights: map<nat, nat>, labels: map<nat, nat>) {
    (t in heights && heights[t] == h) || (t in labels && labels[t] == h)
  }

  ghost predicate Good(u: Unit, o: nat, heights: map<nat, nat>, labels: map<nat, nat>)
    requires o in heights
  {
    match Fetch(u.code, o)
    case Got(i, next) =>
      Allowed(u, i, next) && Pops(i) <= heights[o] && next in heights
      && (Falls(i) ==> heights[next] == After(i, heights[o]))
      && (Target(i).Some? ==> o < Target(i).value && Led(Target(i).value, After(i, heights[o]), heights, labels))
    case _ => false
  }

  ghost predicate Fragment(u: Unit, lo: nat, hi: nat, heights: map<nat, nat>, labels: map<nat, nat>) {
    lo in heights && hi in heights
    && (forall o | o in heights :: lo <= o <= hi && Walks(u.code, lo, o))
    && (forall o | o in heights && o != hi :: Good(u, o, heights, labels))
  }

  /** The labels within the stretch are boundaries of their height. */
  ghost predicate Marks(heights: map<nat, nat>, lo: nat, hi: nat, labels: map<nat, nat>) {
    forall t | t in labels && lo <= t <= hi :: t in heights && heights[t] == labels[t]
  }

  ghost predicate Piece(u: Unit, lo: nat, hi: nat, labels: map<nat, nat>) {
    lo in labels && hi in labels
    && exists heights: map<nat, nat> :: Fragment(u, lo, hi, heights, labels) && Marks(heights, lo, hi, labels)
  }

  /** A closed stretch: its jumps stay within it. */
  ghost predicate Spans(u: Unit, lo: nat, hi: nat, h: nat, h': nat) {
    lo <= hi && (lo == hi ==> h == h') && Piece(u, lo, hi, map[lo := h, hi := h'])
  }

  /** No label is strictly between the ends. */
  ghost predicate Plain(labels: map<nat, nat>, lo: nat, hi: nat) {
    forall t | t in labels :: t <= lo || hi <= t
  }

  lemma {:induction false} WalksOn(code: seq<byte>, a: nat, b: nat, c: nat)
    requires Walks(code, a, b) && Walks(code, b, c)
    ensures Walks(code, a, c)
    decreases |code| - a
  {
    if a != b {
      WalksOn(code, Fetch(code, a).next, b, c);
    }
  }

  /** A boundary keeps its part when more boundaries are added. */
  lemma {:induction false} GoodWithin(u: Unit, o: nat, a: map<nat, nat>, b: map<nat, nat>, labels: map<nat, nat>)
    requires o in a && Good(u, o, a, labels)
    requires forall t | t in a :: t in b && b[t] == a[t]
    ensures Good(u, o, b, labels)
  {
    hide Allowed, Fetch, Pops, Pushes, Falls, Target;
  }

  lemma {:induction false} Joined(u: Unit, lo: nat, mid: nat, hi: nat, labels: map<nat, nat>)
    requires lo <= mid <= hi && Piece(u, lo, mid, labels) && Piece(u, mid, hi, labels)
    ensures Piece(u, lo, hi, labels)
  {
    hide Walks, Good;
    var a: map<nat, nat> :| Fragment(u, lo, mid, a, labels) && Marks(a, lo, mid, labels);
    var b: map<nat, nat> :| Fragment(u, mid, hi, b, labels) && Marks(b, mid, hi, labels);
    var c := a + b;
    assert a[mid] == labels[mid] == b[mid];
    forall o | o in c
      ensures lo <= o <= hi && Walks(u.code, lo, o)
      ensures o != hi ==> Good(u, o, c, labels)
    {
      if o in b {
        WalksOn(u.code, lo, mid, o);
        if o != hi {
          GoodWithin(u, o, b, c, labels);
        }
      } else {
        GoodWithin(u, o, a, c, labels);
      }
    }
    assert Fragment(u, lo, hi, c, labels) && Marks(c, lo, hi, labels);
  }

  /** The same stretch seen with other labels around it, or with fewer within it. */
  lemma {:induction false} Relabelled(u: Unit, lo: nat, hi: nat, labels: map<nat, nat>, labels': map<nat, nat>)
    requires Piece(u, lo, hi, labels) && lo in labels' && hi in labels'
    requires forall t | t in labels && !(lo <= t <= hi) :: t in labels' && labels'[t] == labels[t]
    requires forall t | t in labels' && lo <= t <= hi :: t in labels && labels[t] == labels'[t]
    ensures Piece(u, lo, hi, labels')
  {
    hide Walks, Allowed, Fetch, Pops, Pushes, Falls, Target;
    var a: map<nat, nat> :| Fragment(u, lo, hi, a, labels) && Marks(a, lo, hi, labels);
    forall o | o in a && o != hi
      ensures Good(u, o, a, labels')
    {
      assert Good(u, o, a, labels);
    }
    assert Fragment(u, lo, hi, a, labels') && Marks(a, lo, hi, labels');
  }

  lemma {:induction false} Closed(u: Unit, lo: nat, hi: nat, labels: map<nat, nat>)
    requires lo <= hi && lo in labels && hi in labels && Piece(u, lo, hi, labels)
    requires forall t | t in labels :: lo <= t <= hi
    ensures Spans(u, lo, hi, labels[lo], labels[hi])
  {
    hide Piece;
    Relabelled(u, lo, hi, labels, map[lo := labels[lo], hi := labels[hi]]);
  }

  lemma {:induction false} Placed(u: Unit, lo: nat, hi: nat, labels: map<nat, nat>)
    requires lo in labels && hi in labels && Spans(u, lo, hi, labels[lo], labels[hi]) && Plain(labels, lo, hi)
    ensures Piece(u, lo, hi, labels)
  {
    hide Piece;
    Relabelled(u, lo, hi, map[lo := labels[lo], hi := labels[hi]], labels);
  }

  lemma {:induction false} Empty(u: Unit, at: nat, labels: map<nat, nat>)
    requires at in labels
    ensures Piece(u, at, at, labels)
  {
    var a := map[at := labels[at]];
    assert Fragment(u, at, at, a, labels) && Marks(a, at, at, labels);
  }

  lemma {:induction false} EmptySpan(u: Unit, at: nat, h: nat)
    ensures Spans(u, at, at, h, h)
  {
    hide Piece;
    Empty(u, at, map[at := h, at := h]);
  }

  /** One instruction between two labels. */
  lemma {:induction false} InstrPiece(u: Unit, at: nat, i: Instr, labels: map<nat, nat>)
    requires Occurs(u.code, at, Enc(i)) && at in labels && at + Size(i) in labels && Plain(labels, at, at + Size(i))
    requires Allowed(u, i, at + Size(i)) && Pops(i) <= labels[at]
    requires Falls(i) ==> labels[at + Size(i)] == After(i, labels[at])
    requires Target(i).Some? ==>
      var t := Target(i).value; at < t && t in labels && labels[t] == After(i, labels[at])
    ensures Piece(u, at, at + Size(i), labels)
  {
    hide Enc, Allowed, Fetch, Pops, Pushes, Falls, Target;
    var next := at + Size(i);
    FetchEncoded(u.code, at, i);
    assert at < |u.code| && Walks(u.code, next, next) && Walks(u.code, at, at) && Walks(u.code, at, next);
    var a := map[at := labels[at], next := labels[next]];
    assert Good(u, at, a, labels);
    assert Fragment(u, at, next, a, labels) && Marks(a, at, next, labels);
  }

  lemma {:induction false} Then(u: Unit, lo: nat, mid: nat, hi: nat, h: nat, h': nat, h'': nat)
    requires Spans(u, lo, mid, h, h') && Spans(u, mid, hi, h', h'')
    ensures Spans(u, lo, hi, h, h'')
  {
    hide Piece;
    var labels := map[lo := h, mid := h', hi := h''];
    Placed(u, lo, mid, labels);
    Placed(u, mid, hi, labels);
    Joined(u, lo, mid, hi, labels);
    Closed(u, lo, hi, labels);
  }

  /** Consecutive pieces. */
  lemma {:induction false} Path(u: Unit, cuts: seq<nat>, labels: map<nat, nat>)
    requires cuts != [] && cuts[0] in labels
    requires forall k | 0 <= k < |cuts| - 1 :: cuts[k] <= cuts[k + 1] && Piece(u, cuts[k], cuts[k + 1], labels)
    ensures cuts[0] <= cuts[|cuts| - 1] && Piece(u, cuts[0], cuts[|cuts| - 1], labels)
    decreases |cuts|
  {
    hide Piece;
    var n := |cuts| - 1;
    if n == 0 {
      Empty(u, cuts[0], labels);
    } else {
      Path(u, cuts[..n], labels);
      Joined(u, cuts[0], cuts[n - 1], cuts[n], labels);
    }
  }

  /** Consecutive pieces, all jumps of which stay within them. */
  lemma {:induction false} ClosedPath(u: Unit, cuts: seq<nat>, labels: map<nat, nat>)
    requires cuts != [] && cuts[0] in labels && cuts[|cuts| - 1] in labels
    requires forall k | 0 <= k < |cuts| - 1 :: cuts[k] <= cuts[k + 1] && Piece(u, cuts[k], cuts[k + 1], labels)
    requires forall t | t in labels :: cuts[0] <= t <= cuts[|cuts| - 1]
    ensures Spans(u, cuts[0], cuts[|cuts| - 1], labels[cuts[0]], labels[cuts[|cuts| - 1]])
  {
    hide Piece;
    Path(u, cuts, labels);
    Closed(u, cuts[0], cuts[|cuts| - 1], labels);
  }

  /** One instruction that falls through. */
  lemma {:induction false} One(u: Unit, at: nat, i: Instr, h: nat)
    requires Occurs(u.code, at, Enc(i)) && Allowed(u, i, at + Size(i)) && Pops(i) <= h
    requires Falls(i) && Target(i).None?
    ensures Spans(u, at, at + Size(i), h, After(i, h))
  {
    hide Piece, Allowed, Enc;
    InstrPiece(u, at, i, map[at := h, at + Size(i) := After(i, h)]);
  }

  predicate Ready(u: Unit) {
    |u.code| < U32_LIMIT && |u.consts| < U32_LIMIT && |u.fns| < U32_LIMIT
  }

  lemma {:induction false} JumpPiece(u: Unit, at: nat, target: nat, labels: map<nat, nat>)
    requires Ready(u) && Occurs(u.code, at, JumpTo(target)) && at < target <= |u.code|
    requires at in labels && at + 5 in labels && target in labels && Plain(labels, at, at + 5)
    requires labels[target] == labels[at]
    ensures Piece(u, at, at + 5, labels)
  {
    hide Piece, Enc, Occurs;
    InstrPiece(u, at, Jump(target), labels);
  }

  lemma {:induction false} BranchPiece(u: Unit, at: nat, target: nat, labels: map<nat, nat>)
    requires Ready(u) && Occurs(u.code, at, BranchTo(target)) && at < target <= |u.code|
    requires at in labels && at + 5 in labels && target in labels && Plain(labels, at, at + 5)
    requires labels[target] + 1 == labels[at + 5] + 1 == labels[at]
    ensures Piece(u, at, at + 5, labels)
  {
    hide Piece, Enc, Occurs;
    InstrPiece(u, at, JumpIfFalse(target), labels);
  }

  /** A jump to a point from which jumps lead to RETURN. */
  lemma {:induction false} ExitsBefore(u: Unit, at: nat, target: nat)
    requires Ready(u) && Occurs(u.code, at, JumpTo(target)) && at < target <= |u.code| && Exits(u.code, target)
    ensures Exits(u.code, at)
  {
    hide Enc, Fetch;
    FetchEncoded(u.code, at, Jump(target));
  }

  // ----- whole chunks -----

  /** Each boundary of the chunk with its height. */
  ghost predicate Certified(u: Unit, heights: map<nat, nat>) {
    0 in heights && heights[0] == 0
    && (forall o | o in heights :: o < |u.code| && Walks(u.code, 0, o) && Sound(u, o, heights))
  }

  ghost predicate Sound(u: Unit, o: nat, heights: map<nat, nat>)
    requires o in heights
  {
    match Fetch(u.code, o)
    case Got(i, next) =>
      Allowed(u, i, next) && Pops(i) <= heights[o]
      && (next in heights || next == |u.code|)
      && (Falls(i) ==> next in heights && heights[next] == After(i, heights[o]))
      && (Target(i).Some? ==>
            var t := Target(i).value;
            o < t && t in heights && heights[t] == After(i, heights[o]))
    case _ => false
  }

  ghost function UnitOf(fns: seq<Chunk>, j: nat): Unit
    requires j < |fns|
  {
    Unit(fns[j].code, fns[j].consts, fns)
  }

  ghost predicate Structured(fns: seq<Chunk>, j: nat)
    requires j < |fns|
  {
    Walks(fns[j].code, 0, |fns[j].code|) && exists heights: map<nat, nat> :: Certified(UnitOf(fns, j), heights)
  }

  /** Every boundary has a height. */
  lemma {:induction false} WalkedHasHeight(u: Unit, heights: map<nat, nat>, from: nat, o: nat)
    requires Certified(u, heights) && from in heights && Walks(u.code, from, o) && o < |u.code|
    ensures o in heights
    decreases |u.code| - from
  {
    if from != o {
      assert Sound(u, from, heights);
      var next := Fetch(u.code, from).next;
      if next in heights {
        WalkedHasHeight(u, heights, next, o);
      }
    }
  }

  lemma {:induction false} WalkedIsSound(u: Unit, heights: map<nat, nat>, o: nat)
    requires Certified(u, heights) && Walks(u.code, 0, o) && o < |u.code|
    ensures o in heights && Sound(u, o, heights)
  {
    hide Walks, Sound;
    WalkedHasHeight(u, heights, 0, o);
  }

  lemma {:induction false} GoodIsSound(u: Unit, o: nat, heights: map<nat, nat>, labels: map<nat, nat>)
    requires o in heights && Good(u, o, heights, labels)
    requires forall t | t in labels :: t in heights && labels[t] == heights[t]
    ensures Sound(u, o, heights)
  {
    hide Allowed, Fetch, Pops, Pushes, Falls, Target;
  }

  /** A closed body followed by an instruction that ends the run of the chunk. */
  lemma {:induction false} Complete(u: Unit, n: nat, h: nat, last: Instr)
    requires Spans(u, 0, n, 0, h) && Occurs(u.code, n, Enc(last)) && |u.code| == n + Size(last)
    requires Pops(last) <= h && (last.Return? || last.Halt?)
    ensures Walks(u.code, 0, |u.code|) && exists heights: map<nat, nat> :: Certified(u, heights)
  {
    hide Enc, Fetch, Good;
    var labels: map<nat, nat> := map[0 := 0, n := h];
    var a: map<nat, nat> :| Fragment(u, 0, n, a, labels) && Marks(a, 0, n, labels);
    FetchEncoded(u.code, n, last);
    assert Walks(u.code, |u.code|, |u.code|) && Walks(u.code, n, |u.code|);
    WalksOn(u.code, 0, n, |u.code|);
    forall o | o in a
      ensures o < |u.code| && Walks(u.code, 0, o) && Sound(u, o, a)
    {
      if o != n {
        GoodIsSound(u, o, a, labels);
      }
    }
    assert Certified(u, a);
  }
}
