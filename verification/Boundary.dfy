/** The per-character tracker that tells when a complete datum may have arrived. */
module Boundary {
  import opened Reader

  /** Where the tracker thinks it is. */
  datatype Lex = Lex(depth: int, inString: bool, inComment: bool, escapeNext: bool, afterHash: bool,
                     charPending: bool, block: nat, hashPending: bool, pipePending: bool)

  /** `seenToken`: something other than white space has come since the last attempt to read. */
  datatype Scan = Scan(lex: Lex, seenToken: bool)

  const INITIAL := Scan(Lex(0, false, false, false, false, false, 0, false, false), false)

  function Feed(t: Lexicon, x: Scan, c: char): Scan {
    Scan(FeedLex(t, x.lex, c), x.seenToken || Sees(t, x.lex, c))
  }

  function FeedLex(t: Lexicon, x: Lex, c: char): Lex {
    if x.charPending then x.(charPending := false)
    else if x.block > 0 then FeedBlock(x, c)
    else if x.inComment then x.(inComment := c != '\n')
    else if x.inString then
      if x.escapeNext then x.(escapeNext := false)
      else if c == '\\' then x.(escapeNext := true)
      else x.(inString := c != '"')
    else
      var y := x.(afterHash := false);
      if x.afterHash && c == '\\' then y.(charPending := true)
      else if x.afterHash && c == '|' then y.(block := 1)
      else if x.afterHash && c == ';' then y
      else FeedPlain(y, c)
  }

  /** A character outside strings and comments that completes no marker. */
  function FeedPlain(x: Lex, c: char): Lex {
    match c
    case '#' => x.(afterHash := true)
    case ';' => x.(inComment := true)
    case '"' => x.(inString := true)
    case '(' => x.(depth := x.depth + 1)
    case ')' => x.(depth := x.depth - 1)
    case _ => x
  }

  function FeedBlock(x: Lex, c: char): Lex
    requires x.block > 0
  {
    if x.hashPending && c == '|' then x.(hashPending := false, block := x.block + 1)
    else if x.pipePending && c == '#' then x.(hashPending := false, pipePending := false, block := x.block - 1)
    else x.(hashPending := c == '#', pipePending := c == '|')
  }

  /** Does the character count as content? */
  predicate Sees(t: Lexicon, x: Lex, c: char) {
    x.charPending
    || (x.block == 0 && !x.inComment && !x.inString
        && ((x.afterHash && c in "\\|;") || c in "#\"()" || (c != ';' && !t.white(c))))
  }

  /** A datum may be complete here. */
  predicate Possible(x: Scan) {
    x.seenToken && !x.lex.inString && !x.lex.inComment && x.lex.block == 0 && x.lex.depth <= 0
  }

  class DatumBoundaryScan {
    const t: Lexicon
    var depth: int
    var inString: bool
    var inComment: bool
    var escapeNext: bool
    var afterHash: bool
    var charPending: bool
    var seenToken: bool
    var block: nat
    var hashPending: bool
    var pipePending: bool

    function View(): Scan
      reads this
    {
      Scan(Lex(depth, inString, inComment, escapeNext, afterHash, charPending, block, hashPending, pipePending),
        seenToken)
    }

    constructor (t: Lexicon)
      ensures View() == INITIAL && this.t == t
    {
      this.t := t;
      depth, block := 0, 0;
      inString, inComment, escapeNext, afterHash := false, false, false, false;
      charPending, seenToken, hashPending, pipePending := false, false, false, false;
    }

    /** Inside a block comment only further markers count. */
    method FeedInBlock(c: char)
      requires block > 0
      modifies this
      ensures View() == Scan(FeedBlock(old(View()).lex, c), old(seenToken))
    {
      var hash := hashPending;
      hashPending := false;
      if hash && c == '|' {
        block := block + 1;
        return;
      }
      var pipe := pipePending;
      pipePending := false;
      if pipe && c == '#' {
        block := block - 1;
        return;
      }
      if c == '#' {
        hashPending := true;
      } else if c == '|' {
        pipePending := true;
      }
    }

    method FeedToken(c: char)
      modifies this
      ensures View().lex == FeedPlain(old(View()).lex, c)
      ensures seenToken <==> old(seenToken) || c in "#\"()" || (c != ';' && !t.white(c))
    {
      match c
      case '#' => afterHash, seenToken := true, true;
      case ';' => inComment := true;
      case '"' => inString, seenToken := true, true;
      case '(' => depth, seenToken := depth + 1, true;
      case ')' => depth, seenToken := depth - 1, true;
      case _ =>
        if !t.white(c) {
          seenToken := true;
        }
    }

    /** Feeds one character that has arrived. */
    method FeedChar(c: char)
      modifies this
      ensures View() == Feed(t, old(View()), c)
    {
      hide FeedBlock, FeedPlain;
      if charPending {
        charPending, seenToken := false, true;
      } else if block > 0 {
        FeedInBlock(c);
      } else if inComment {
        if c == '\n' {
          inComment := false;
        }
      } else if inString {
        if escapeNext {
          escapeNext := false;
        } else if c == '\\' {
          escapeNext := true;
        } else if c == '"' {
          inString := false;
        }
      } else {
        var hash := afterHash;
        afterHash := false;
        if hash && c == '\\' {
          charPending, seenToken := true, true;
        } else if hash && c == '|' {
          block, seenToken := 1, true;
        } else if hash && c == ';' {
          seenToken := true;
        } else {
          FeedToken(c);
        }
      }
    }

    predicate PossibleBoundary()
      reads this
      ensures PossibleBoundary() == Possible(View())
    {
      seenToken && !inString && !inComment && block == 0 && depth <= 0
    }
  }
}
