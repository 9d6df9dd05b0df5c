/**
 * The script lexer (`tokenizer` in src/commands/script_parser.rs).
 *
 * A script is a sequence of bytes. `Lex` is the reference reading of the
 * token grammar, one token at a time from the front of the remaining bytes;
 * `Tokenize` is the cursor loop of the Rust code, proved to produce exactly
 * the tokens of `Lex`, each annotated with the line counter the loop keeps.
 */
module Tokenizer {
  import opened Wrappers

  newtype byte = b: int | 0 <= b < 256
  type Bytes = seq<byte>

  const TAB: byte := 9         // '\t'
  const LF: byte := 10         // '\n'
  const CR: byte := 13         // '\r'
  const SPACE: byte := 32      // ' '
  const QUOTE: byte := 34      // '"'
  const HASH: byte := 35       // '#'
  const DOLLAR: byte := 36     // '$'
  const MINUS: byte := 45      // '-'
  const COLON: byte := 58      // ':'
  const SEMICOLON: byte := 59  // ';'
  const EQUALS: byte := 61     // '='
  const AT: byte := 64         // '@'
  const LBRACE: byte := 123    // '{'
  const RBRACE: byte := 125    // '}'

  /** The token kinds. `Colon` exists in the source's enum but is never produced. */
  datatype Token =
    | SetOpen
    | SetClose
    | String(value: Bytes)
    | Colon
    | Variable(name: Bytes)
    | Directive(name: Bytes)
    | AddTag(tag: Bytes)
    | RemoveTag(tag: Bytes)
    | Assignment
    | LineBreak
    | StatementEnd

  datatype TokenInfo = TokenInfo(line: int, token: Token)

  /** The one way lexing fails: a `"` with no closing `"` (the source panics here). */
  datatype LexError = UnmatchedQuote

  predicate IsWhitespace(b: byte)
  {
    b == SPACE || b == CR || b == LF || b == TAB
  }

  /** A byte that ends a bareword, `@word`, `$word` or `-word`. */
  predicate IsTerminator(b: byte)
  {
    IsWhitespace(b) || b == SEMICOLON
  }

  /** Length of the longest prefix of `s` that holds no terminator. */
  function WordLength(s: Bytes): (n: nat)
    ensures n <= |s|
    ensures forall i :: 0 <= i < n ==> !IsTerminator(s[i])
    ensures n == |s| || IsTerminator(s[n])
  {
    if s == [] || IsTerminator(s[0]) then 0 else 1 + WordLength(s[1..])
  }

  /** Position of the first `"` in `s`, if any. */
  function QuoteIndex(s: Bytes): (r: Option<nat>)
    ensures r.Some? ==> r.value < |s| && s[r.value] == QUOTE && QUOTE !in s[..r.value]
    ensures r.None? ==> QUOTE !in s
  {
    if s == [] then None
    else if s[0] == QUOTE then Some(0)
    else
      match QuoteIndex(s[1..])
      case None => None
      case Some(q) =>
        assert s[..q + 1] == [s[0]] + s[1..][..q];
        Some(q + 1)
  }

  /** Length of the longest prefix of `s` that holds no newline. */
  function LineLength(s: Bytes): (n: nat)
    ensures n <= |s|
    ensures forall i :: 0 <= i < n ==> s[i] != LF
    ensures n == |s| || s[n] == LF
  {
    if s == [] || s[0] == LF then 0 else 1 + LineLength(s[1..])
  }

  function Cons(t: Token, r: Result<seq<Token>, LexError>): Result<seq<Token>, LexError>
  {
    Prepend([t], r)
  }

  function Prepend(ts: seq<Token>, r: Result<seq<Token>, LexError>): Result<seq<Token>, LexError>
  {
    match r
    case Ok(rest) => Ok(ts + rest)
    case Err(e) => Err(e)
  }

  /**
   * The tokens of `s`, dispatching on its first byte exactly as the loop in
   * `tokenize` does: a quoted string runs to the next `"`; `@`, `$`, `-` and
   * any other non-structural byte start a word that runs to whitespace or
   * `;`; `{ } = ;` and newline are one-byte tokens; `#` drops the rest of
   * the line except the newline; `:` and the other whitespace bytes vanish.
   */
  function Lex(s: Bytes): Result<seq<Token>, LexError>
    decreases |s|
  {
    if s == [] then Ok([])
    else
      var c := s[0];
      if c == QUOTE then
        match QuoteIndex(s[1..])
        case None => Err(UnmatchedQuote)
        case Some(q) => Cons(String(s[1..q + 1]), Lex(s[q + 2..]))
      else if c == AT then
        var n := WordLength(s);
        Cons(Directive(s[..n]), Lex(s[n..]))
      else if c == DOLLAR then
        var n := WordLength(s);
        Cons(Variable(s[..n]), Lex(s[n..]))
      else if c == MINUS then
        var n := WordLength(s[1..]);
        Cons(RemoveTag(s[1..n + 1]), Lex(s[n + 1..]))
      else if c == EQUALS then Cons(Assignment, Lex(s[1..]))
      else if c == LBRACE then Cons(SetOpen, Lex(s[1..]))
      else if c == RBRACE then Cons(SetClose, Lex(s[1..]))
      else if c == SEMICOLON then Cons(StatementEnd, Lex(s[1..]))
      else if c == HASH then Lex(s[LineLength(s)..])
      else if c == LF then Cons(LineBreak, Lex(s[1..]))
      else if c == COLON || IsWhitespace(c) then Lex(s[1..])
      else
        var n := WordLength(s);
        Cons(AddTag(s[..n]), Lex(s[n..]))
  }

  lemma PrependCons(ks: seq<Token>, k: Token, r: Result<seq<Token>, LexError>)
    ensures Prepend(ks, Cons(k, r)) == Prepend(ks + [k], r)
  {
    if r.Ok? {
      assert ks + ([k] + r.value) == (ks + [k]) + r.value;
    }
  }

  /** The bookkeeping of one token pushed by `tokenize`. */
  lemma Advance(bytes: Bytes, kinds: seq<Token>, pos: nat, next: nat, k: Token)
    requires pos <= next <= |bytes|
    requires Lex(bytes) == Prepend(kinds, Lex(bytes[pos..]))
    requires Lex(bytes[pos..]) == Cons(k, Lex(bytes[next..]))
    ensures Lex(bytes) == Prepend(kinds + [k], Lex(bytes[next..]))
    ensures Annotate(kinds + [k]) == Annotate(kinds) + [TokenInfo(1 + Breaks(kinds), k)]
    ensures Breaks(kinds + [k]) == Breaks(kinds) + (if k == LineBreak then 1 else 0)
  {
    PrependCons(kinds, k, Lex(bytes[next..]));
    assert (kinds + [k])[..|kinds|] == kinds;
  }

  /** Number of `LineBreak` tokens in `ks`. */
  function Breaks(ks: seq<Token>): nat
  {
    if ks == [] then 0
    else Breaks(ks[..|ks| - 1]) + (if ks[|ks| - 1] == LineBreak then 1 else 0)
  }

  /**
   * The token infos the line counter of `tokenize` attaches to `ks`: the
   * counter starts at 1 and goes up by one after each `LineBreak`.
   */
  function Annotate(ks: seq<Token>): (ts: seq<TokenInfo>)
    ensures |ts| == |ks|
  {
    if ks == [] then []
    else Annotate(ks[..|ks| - 1]) + [TokenInfo(1 + Breaks(ks[..|ks| - 1]), ks[|ks| - 1])]
  }

  /** Each token keeps its kind, and stands on 1 + the number of line breaks before it. */
  lemma {:induction false} AnnotateLines(ks: seq<Token>, i: nat)
    requires i < |ks|
    ensures Annotate(ks)[i].token == ks[i]
    ensures Annotate(ks)[i].line == 1 + Breaks(ks[..i])
  {
    if i < |ks| - 1 {
      AnnotateLines(ks[..|ks| - 1], i);
      assert ks[..|ks| - 1][..i] == ks[..i];
    }
  }

  lemma WordLengthIs(s: Bytes, n: nat)
    requires n <= |s|
    requires forall i :: 0 <= i < n ==> !IsTerminator(s[i])
    requires n == |s| || IsTerminator(s[n])
    ensures WordLength(s) == n
  {
  }

  lemma LineLengthIs(s: Bytes, n: nat)
    requires n <= |s|
    requires forall i :: 0 <= i < n ==> s[i] != LF
    requires n == |s| || s[n] == LF
    ensures LineLength(s) == n
  {
  }

  lemma QuoteIndexIs(s: Bytes, n: nat)
    requires n < |s| && s[n] == QUOTE
    requires QUOTE !in s[..n]
    ensures QuoteIndex(s) == Some(n)
  {
    assert s[n] in s;
  }

  /** One step of `Lex` on a word that keeps its first byte (`@word`, `$word`, bareword). */
  lemma LexWordStep(s: Bytes, t: Token)
    requires s != [] && s[0] != QUOTE && s[0] != MINUS && s[0] != EQUALS && s[0] != LBRACE
    requires s[0] != RBRACE && s[0] != SEMICOLON && s[0] != HASH && s[0] != LF
    requires s[0] != COLON && !IsWhitespace(s[0])
    requires t == (if s[0] == AT then Directive(s[..WordLength(s)])
                   else if s[0] == DOLLAR then Variable(s[..WordLength(s)])
                   else AddTag(s[..WordLength(s)]))
    ensures Lex(s) == Cons(t, Lex(s[WordLength(s)..]))
  {
  }

  /** One step of `Lex` on a `-word`. */
  lemma LexRemoveStep(s: Bytes)
    requires s != [] && s[0] == MINUS
    ensures Lex(s) == Cons(RemoveTag(s[1..WordLength(s[1..]) + 1]), Lex(s[WordLength(s[1..]) + 1..]))
  {
  }

  /** One step of `Lex` on a quoted string. */
  lemma LexQuoteStep(s: Bytes)
    requires s != [] && s[0] == QUOTE
    ensures QuoteIndex(s[1..]).None? ==> Lex(s) == Err(UnmatchedQuote)
    ensures QuoteIndex(s[1..]).Some? ==>
              var q := QuoteIndex(s[1..]).value;
              Lex(s) == Cons(String(s[1..q + 1]), Lex(s[q + 2..]))
  {
  }

  /** One step of `Lex` on a one-byte token, a comment, or a byte that is skipped. */
  lemma LexByteStep(s: Bytes)
    requires s != []
    ensures s[0] == EQUALS ==> Lex(s) == Cons(Assignment, Lex(s[1..]))
    ensures s[0] == LBRACE ==> Lex(s) == Cons(SetOpen, Lex(s[1..]))
    ensures s[0] == RBRACE ==> Lex(s) == Cons(SetClose, Lex(s[1..]))
    ensures s[0] == SEMICOLON ==> Lex(s) == Cons(StatementEnd, Lex(s[1..]))
    ensures s[0] == HASH ==> Lex(s) == Lex(s[LineLength(s)..])
    ensures s[0] == LF ==> Lex(s) == Cons(LineBreak, Lex(s[1..]))
    ensures s[0] == COLON || (IsWhitespace(s[0]) && s[0] != LF) ==> Lex(s) == Lex(s[1..])
  {
  }

  /**
   * `parse_whitespace_terminated`: scan from `pos` to the first whitespace
   * byte or `;` (which stays unread) or the end; the word is what was scanned.
   */
  method ParseWhitespaceTerminated(bytes: Bytes, pos: nat) returns (word: Bytes, next: nat)
    requires pos <= |bytes|
    ensures next == pos + WordLength(bytes[pos..])
    ensures word == bytes[pos..next]
  {
    var strLen := 0;
    while pos + strLen < |bytes|
      invariant pos + strLen <= |bytes|
      invariant forall i :: pos <= i < pos + strLen ==> !IsTerminator(bytes[i])
    {
      var b := bytes[pos + strLen];
      if !IsWhitespace(b) && b != SEMICOLON {
        strLen := strLen + 1;
      } else {
        break;
      }
    }
    WordLengthIs(bytes[pos..], strLen);
    word := bytes[pos..pos + strLen];
    next := pos + strLen;
  }

  /**
   * `parse_quoted_string`: skip the opening byte, then read to the next `"`,
   * consuming it; there are no escapes. Running out of bytes first fails.
   */
  method ParseQuotedString(bytes: Bytes, pos: nat) returns (r: Result<Bytes, LexError>, next: nat)
    requires pos < |bytes|
    ensures QuoteIndex(bytes[pos + 1..]).None? ==> r == Err(UnmatchedQuote)
    ensures QuoteIndex(bytes[pos + 1..]).Some? ==>
              var q := QuoteIndex(bytes[pos + 1..]).value;
              r == Ok(bytes[pos + 1..pos + 1 + q]) && next == pos + q + 2
  {
    var cur := pos + 1;
    var strLen := 0;
    while cur < |bytes|
      invariant cur == pos + 1 + strLen <= |bytes|
      invariant QUOTE !in bytes[pos + 1..cur]
    {
      var b := bytes[cur];
      cur := cur + 1;
      if b != QUOTE {
        strLen := strLen + 1;
      } else {
        assert bytes[pos + 1..][..strLen] == bytes[pos + 1..cur - 1];
        QuoteIndexIs(bytes[pos + 1..], strLen);
        return Ok(bytes[pos + 1..pos + 1 + strLen]), cur;
      }
    }
    assert bytes[pos + 1..] == bytes[pos + 1..cur];
    return Err(UnmatchedQuote), cur;
  }

  /** `skip_comment`: advance to the next newline, leaving it unread. */
  method SkipComment(bytes: Bytes, pos: nat) returns (next: nat)
    requires pos <= |bytes|
    ensures next == pos + LineLength(bytes[pos..])
  {
    next := pos;
    while next < |bytes|
      invariant pos <= next <= |bytes|
      invariant forall i :: pos <= i < next ==> bytes[i] != LF
    {
      if bytes[next] == LF {
        break;
      } else {
        next := next + 1;
      }
    }
    LineLengthIs(bytes[pos..], next - pos);
  }

  function PrependOpt(t: Option<Token>, r: Result<seq<Token>, LexError>): Result<seq<Token>, LexError>
  {
    match t
    case None => r
    case Some(k) => Cons(k, r)
  }

  /** `LexWordStep` at `pos` of `bytes`, for the word `bytes[pos..next]`. */
  lemma WordStepAt(bytes: Bytes, pos: nat, next: nat, t: Token)
    requires pos < |bytes| && next == pos + WordLength(bytes[pos..])
    requires var c := bytes[pos];
             c != QUOTE && c != MINUS && c != EQUALS && c != LBRACE && c != RBRACE && c != SEMICOLON &&
             c != HASH && c != LF && c != COLON && !IsWhitespace(c)
    requires t == (if bytes[pos] == AT then Directive(bytes[pos..next])
                   else if bytes[pos] == DOLLAR then Variable(bytes[pos..next])
                   else AddTag(bytes[pos..next]))
    ensures next > pos
    ensures Lex(bytes[pos..]) == Cons(t, Lex(bytes[next..]))
  {
    var s := bytes[pos..];
    assert s[..next - pos] == bytes[pos..next];
    assert s[next - pos..] == bytes[next..];
    LexWordStep(s, t);
  }

  /** `LexRemoveStep` at `pos` of `bytes`, for the tag `bytes[pos + 1..next]`. */
  lemma RemoveStepAt(bytes: Bytes, pos: nat, next: nat)
    requires pos < |bytes| && bytes[pos] == MINUS
    requires next == pos + 1 + WordLength(bytes[pos + 1..])
    ensures next > pos
    ensures Lex(bytes[pos..]) == Cons(RemoveTag(bytes[pos + 1..next]), Lex(bytes[next..]))
  {
    var s := bytes[pos..];
    assert s[1..] == bytes[pos + 1..];
    assert s[1..next - pos] == bytes[pos + 1..next];
    assert s[next - pos..] == bytes[next..];
    LexRemoveStep(s);
  }

  /** `LexQuoteStep` at `pos` of `bytes`. */
  lemma QuoteStepAt(bytes: Bytes, pos: nat)
    requires pos < |bytes| && bytes[pos] == QUOTE
    ensures QuoteIndex(bytes[pos + 1..]).None? ==> Lex(bytes[pos..]) == Err(UnmatchedQuote)
    ensures QuoteIndex(bytes[pos + 1..]).Some? ==>
              var next := pos + QuoteIndex(bytes[pos + 1..]).value + 2;
              Lex(bytes[pos..]) == Cons(String(bytes[pos + 1..next - 1]), Lex(bytes[next..]))
  {
    var s := bytes[pos..];
    assert s[1..] == bytes[pos + 1..];
    LexQuoteStep(s);
    if QuoteIndex(s[1..]).Some? {
      var next := pos + QuoteIndex(s[1..]).value + 2;
      assert s[1..next - pos - 1] == bytes[pos + 1..next - 1];
      assert s[next - pos..] == bytes[next..];
    }
  }

  /** `LexByteStep` at `pos` of `bytes`. */
  lemma ByteStepAt(bytes: Bytes, pos: nat)
    requires pos < |bytes|
    ensures var c := bytes[pos];
            var rest := Lex(bytes[pos + 1..]);
            && (c == EQUALS ==> Lex(bytes[pos..]) == Cons(Assignment, rest))
            && (c == LBRACE ==> Lex(bytes[pos..]) == Cons(SetOpen, rest))
            && (c == RBRACE ==> Lex(bytes[pos..]) == Cons(SetClose, rest))
            && (c == SEMICOLON ==> Lex(bytes[pos..]) == Cons(StatementEnd, rest))
            && (c == LF ==> Lex(bytes[pos..]) == Cons(LineBreak, rest))
            && (c == COLON || (IsWhitespace(c) && c != LF) ==> Lex(bytes[pos..]) == rest)
    ensures bytes[pos] == HASH ==>
              Lex(bytes[pos..]) == Lex(bytes[pos + LineLength(bytes[pos..])..])
  {
    var s := bytes[pos..];
    assert s[1..] == bytes[pos + 1..];
    assert s[LineLength(s)..] == bytes[pos + LineLength(s)..];
    LexByteStep(s);
  }

  /**
   * The arms of the `match` in `tokenize` that read a word: `@name`,
   * `$name`, `-tag` and a bare tag.
   */
  method ReadWordToken(bytes: Bytes, pos: nat) returns (t: Token, next: nat)
    requires pos < |bytes|
    requires var c := bytes[pos];
             c != QUOTE && c != EQUALS && c != LBRACE && c != RBRACE && c != SEMICOLON &&
             c != HASH && c != LF && c != COLON && !IsWhitespace(c)
    ensures pos < next <= |bytes|
    ensures Lex(bytes[pos..]) == Cons(t, Lex(bytes[next..]))
  {
    var b := bytes[pos];
    if b == AT {
      var name;
      name, next := ParseWhitespaceTerminated(bytes, pos);
      t := Directive(name);
      WordStepAt(bytes, pos, next, t);
    } else if b == DOLLAR {
      var name;
      name, next := ParseWhitespaceTerminated(bytes, pos);
      t := Variable(name);
      WordStepAt(bytes, pos, next, t);
    } else if b == MINUS {
      var tag;
      tag, next := ParseWhitespaceTerminated(bytes, pos + 1);
      t := RemoveTag(tag);
      RemoveStepAt(bytes, pos, next);
    } else {
      var tag;
      tag, next := ParseWhitespaceTerminated(bytes, pos);
      t := AddTag(tag);
      WordStepAt(bytes, pos, next, t);
    }
  }

  /**
   * One pass of the loop in `tokenize`: the `match` on the peeked byte. It
   * reads the token starting at `pos` (`None` for a comment, `:` or
   * whitespace other than a newline) and says where the next one starts.
   */
  method NextToken(bytes: Bytes, pos: nat) returns (r: Result<Option<Token>, LexError>, next: nat)
    requires pos < |bytes|
    ensures r.Err? ==> Lex(bytes[pos..]) == Err(r.error)
    ensures r.Ok? ==> pos < next <= |bytes| && Lex(bytes[pos..]) == PrependOpt(r.value, Lex(bytes[next..]))
  {
    var b := bytes[pos];
    if b == QUOTE {
      var value;
      value, next := ParseQuotedString(bytes, pos);
      QuoteStepAt(bytes, pos);
      if value.Err? {
        return Err(value.error), next;
      }
      r := Ok(Some(String(value.value)));
    } else if b == EQUALS {
      ByteStepAt(bytes, pos);
      r, next := Ok(Some(Assignment)), pos + 1;
    } else if b == LBRACE {
      ByteStepAt(bytes, pos);
      r, next := Ok(Some(SetOpen)), pos + 1;
    } else if b == RBRACE {
      ByteStepAt(bytes, pos);
      r, next := Ok(Some(SetClose)), pos + 1;
    } else if b == SEMICOLON {
      ByteStepAt(bytes, pos);
      r, next := Ok(Some(StatementEnd)), pos + 1;
    } else if b == HASH {
      next := SkipComment(bytes, pos);
      ByteStepAt(bytes, pos);
      r := Ok(None);
    } else if b == LF {
      ByteStepAt(bytes, pos);
      r, next := Ok(Some(LineBreak)), pos + 1;
    } else if b == COLON || IsWhitespace(b) {
      ByteStepAt(bytes, pos);
      r, next := Ok(None), pos + 1;
    } else {
      var t;
      t, next := ReadWordToken(bytes, pos);
      r := Ok(Some(t));
    }
  }

  /**
   * `tokenize`: the tokens of `Lex(bytes)` with the lines `Annotate` gives
   * them (see `AnnotateLines`), or the failure of an unterminated quoted
   * string.
   */
  method Tokenize(bytes: Bytes) returns (r: Result<seq<TokenInfo>, LexError>)
    ensures Lex(bytes).Err? ==> r == Err(Lex(bytes).error)
    ensures Lex(bytes).Ok? ==> r == Ok(Annotate(Lex(bytes).value))
  {
    var tokens: seq<TokenInfo> := [];
    ghost var kinds: seq<Token> := [];
    var curLine := 1;
    var pos := 0;
    assert bytes[0..] == bytes;
    assert Lex(bytes) == Prepend([], Lex(bytes[0..])) by {
      if Lex(bytes).Ok? {
        assert [] + Lex(bytes).value == Lex(bytes).value;
      }
    }
    while pos < |bytes|
      invariant pos <= |bytes|
      invariant tokens == Annotate(kinds)
      invariant curLine == 1 + Breaks(kinds)
      invariant Lex(bytes) == Prepend(kinds, Lex(bytes[pos..]))
      decreases |bytes| - pos
    {
      var token, next := NextToken(bytes, pos);
      if token.Err? {
        return Err(token.error);
      }
      if token.value.Some? {
        var k := token.value.value;
        Advance(bytes, kinds, pos, next, k);
        tokens := tokens + [TokenInfo(curLine, k)];
        kinds := kinds + [k];
        if k == LineBreak {
          curLine := curLine + 1;
        }
      }
      pos := next;
    }
    assert bytes[pos..] == [];
    assert kinds + [] == kinds;
    assert Lex(bytes) == Ok(kinds);
    return Ok(tokens);
  }
}
