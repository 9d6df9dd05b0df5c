/**
 * What the token grammar of the script lexer guarantees: the shape of every
 * token it produces, and that printing tokens back out and lexing them
 * again gives the same tokens.
 */
module TokenizerProperties {
  import opened Wrappers
  import opened Tokenizer

  predicate NoTerminator(w: Bytes)
  {
    forall i :: 0 <= i < |w| ==> !IsTerminator(w[i])
  }

  /** A byte that starts a bareword (an `AddTag`) rather than another token. */
  predicate StartsBareword(b: byte)
  {
    b != QUOTE && b != AT && b != DOLLAR && b != MINUS && b != EQUALS && b != LBRACE &&
    b != RBRACE && b != SEMICOLON && b != HASH && b != COLON && !IsWhitespace(b)
  }

  /**
   * The tokens the lexer can produce: strings hold no `"`; directive and
   * variable names keep their sigil; a bareword is never empty and starts
   * with no special byte; no word holds whitespace or `;`; `Colon` never
   * appears.
   */
  predicate Lexable(k: Token)
  {
    match k
    case String(v) => QUOTE !in v
    case Directive(n) => |n| >= 1 && n[0] == AT && NoTerminator(n)
    case Variable(n) => |n| >= 1 && n[0] == DOLLAR && NoTerminator(n)
    case AddTag(t) => |t| >= 1 && StartsBareword(t[0]) && NoTerminator(t)
    case RemoveTag(t) => NoTerminator(t)
    case Colon => false
    case _ => true
  }

  predicate AllLexable(ks: seq<Token>)
  {
    forall i :: 0 <= i < |ks| ==> Lexable(ks[i])
  }

  lemma ConsLexable(k: Token, r: Result<seq<Token>, LexError>)
    requires Lexable(k) && (r.Ok? ==> AllLexable(r.value))
    ensures Cons(k, r).Ok? ==> AllLexable(Cons(k, r).value)
  {
    if r.Ok? {
      assert forall i :: 1 <= i < |[k] + r.value| ==> ([k] + r.value)[i] == r.value[i - 1];
    }
  }

  /** Every token `Lex` produces is `Lexable`. */
  lemma {:induction false} LexLexable(s: Bytes)
    ensures Lex(s).Ok? ==> AllLexable(Lex(s).value)
    decreases |s|
  {
    if s != [] {
      var c := s[0];
      if c == QUOTE {
        match QuoteIndex(s[1..])
        case None =>
        case Some(q) =>
          assert s[1..][..q] == s[1..q + 1];
          LexLexable(s[q + 2..]);
          ConsLexable(String(s[1..q + 1]), Lex(s[q + 2..]));
      } else if c == AT || c == DOLLAR {
        var n := WordLength(s);
        LexLexable(s[n..]);
        var k := if c == AT then Directive(s[..n]) else Variable(s[..n]);
        LexWordStep(s, k);
        ConsLexable(k, Lex(s[n..]));
      } else if c == MINUS {
        var n := WordLength(s[1..]);
        assert s[1..n + 1] == s[1..][..n];
        LexLexable(s[n + 1..]);
        ConsLexable(RemoveTag(s[1..n + 1]), Lex(s[n + 1..]));
      } else if c == EQUALS || c == LBRACE || c == RBRACE || c == SEMICOLON || c == LF {
        LexByteStep(s);
        LexLexable(s[1..]);
        var k := if c == EQUALS then Assignment else if c == LBRACE then SetOpen
                 else if c == RBRACE then SetClose else if c == SEMICOLON then StatementEnd else LineBreak;
        ConsLexable(k, Lex(s[1..]));
      } else if c == HASH {
        LexByteStep(s);
        LexLexable(s[LineLength(s)..]);
      } else if c == COLON || IsWhitespace(c) {
        LexByteStep(s);
        LexLexable(s[1..]);
      } else {
        var n := WordLength(s);
        LexLexable(s[n..]);
        LexWordStep(s, AddTag(s[..n]));
        ConsLexable(AddTag(s[..n]), Lex(s[n..]));
      }
    }
  }

  /** The script text of one token. */
  function Render(k: Token): Bytes
  {
    match k
    case String(v) => [QUOTE] + v + [QUOTE]
    case Directive(n) => n
    case Variable(n) => n
    case AddTag(t) => t
    case RemoveTag(t) => [MINUS] + t
    case SetOpen => [LBRACE]
    case SetClose => [RBRACE]
    case Assignment => [EQUALS]
    case LineBreak => [LF]
    case StatementEnd => [SEMICOLON]
    case Colon => [COLON]
  }

  /** The tokens printed one after another, each followed by a space. */
  function Unlex(ks: seq<Token>): Bytes
  {
    if ks == [] then [] else Render(ks[0]) + [SPACE] + Unlex(ks[1..])
  }

  lemma SpaceSkipped(rest: Bytes)
    ensures Lex([SPACE] + rest) == Lex(rest)
  {
    LexByteStep([SPACE] + rest);
    assert ([SPACE] + rest)[1..] == rest;
  }

  lemma WordRendered(w: Bytes, rest: Bytes)
    requires NoTerminator(w)
    ensures WordLength(w + [SPACE] + rest) == |w|
    ensures (w + [SPACE] + rest)[..|w|] == w
    ensures (w + [SPACE] + rest)[|w|..] == [SPACE] + rest
  {
    var s := w + ([SPACE] + rest);
    assert s == w + [SPACE] + rest;
    assert s[|w|] == SPACE;
    assert s[..|w|] == w;
    assert forall i :: 0 <= i < |w| ==> s[i] == w[i];
    WordLengthIs(s, |w|);
  }

  lemma StringRendered(v: Bytes, rest: Bytes)
    requires QUOTE !in v
    ensures Lex([QUOTE] + v + [QUOTE] + [SPACE] + rest) == Cons(String(v), Lex([SPACE] + rest))
  {
    var s := [QUOTE] + v + [QUOTE] + [SPACE] + rest;
    assert s[1..] == v + [QUOTE] + ([SPACE] + rest);
    assert s[1..][..|v|] == v;
    QuoteIndexIs(s[1..], |v|);
    assert s[1..|v| + 1] == v;
    assert s[|v| + 2..] == [SPACE] + rest;
    LexQuoteStep(s);
  }

  lemma RemoveRendered(t: Bytes, rest: Bytes)
    requires NoTerminator(t)
    ensures Lex([MINUS] + t + [SPACE] + rest) == Cons(RemoveTag(t), Lex([SPACE] + rest))
  {
    var s := [MINUS] + t + [SPACE] + rest;
    assert s[1..] == t + [SPACE] + rest;
    WordRendered(t, rest);
    assert s[1..|t| + 1] == t;
    assert s[|t| + 1..] == [SPACE] + rest;
    LexRemoveStep(s);
  }

  lemma ByteRendered(k: Token, rest: Bytes)
    requires k.SetOpen? || k.SetClose? || k.Assignment? || k.LineBreak? || k.StatementEnd?
    ensures Lex(Render(k) + [SPACE] + rest) == Cons(k, Lex([SPACE] + rest))
  {
    var s := Render(k) + [SPACE] + rest;
    assert s[1..] == [SPACE] + rest;
    LexByteStep(s);
  }

  /** A printed token, then a space, lexes back to that token. */
  lemma LexRender(k: Token, rest: Bytes)
    requires Lexable(k)
    ensures Lex(Render(k) + [SPACE] + rest) == Cons(k, Lex(rest))
  {
    SpaceSkipped(rest);
    match k
    case String(v) => StringRendered(v, rest);
    case RemoveTag(t) => RemoveRendered(t, rest);
    case Directive(n) =>
      WordRendered(n, rest);
      LexWordStep(n + [SPACE] + rest, k);
    case Variable(n) =>
      WordRendered(n, rest);
      LexWordStep(n + [SPACE] + rest, k);
    case AddTag(t) =>
      WordRendered(t, rest);
      LexWordStep(t + [SPACE] + rest, k);
    case _ => ByteRendered(k, rest);
  }

  /** Lexing inverts printing, for every sequence of `Lexable` tokens. */
  lemma {:induction false} LexUnlex(ks: seq<Token>)
    requires AllLexable(ks)
    ensures Lex(Unlex(ks)) == Ok(ks)
  {
    if ks != [] {
      assert AllLexable(ks[1..]) by {
        assert forall i :: 0 <= i < |ks[1..]| ==> ks[1..][i] == ks[i + 1];
      }
      LexUnlex(ks[1..]);
      LexRender(ks[0], Unlex(ks[1..]));
      assert [ks[0]] + ks[1..] == ks;
    }
  }

  /** Printing the tokens of any script and lexing the print gives the same tokens. */
  lemma RelexTokens(s: Bytes)
    requires Lex(s).Ok?
    ensures Lex(Unlex(Lex(s).value)) == Lex(s)
  {
    LexLexable(s);
    LexUnlex(Lex(s).value);
  }

  /** A comment drops everything up to, and not including, the newline that ends it. */
  lemma CommentKeepsNewline(c: Bytes, rest: Bytes)
    requires LF !in c
    ensures Lex([HASH] + c + [LF] + rest) == Cons(LineBreak, Lex(rest))
  {
    var s := [HASH] + c + [LF] + rest;
    assert s[|c| + 1] == LF;
    assert forall i :: 0 <= i < |c| + 1 ==> s[i] == HASH || s[i] == c[i - 1];
    LineLengthIs(s, |c| + 1);
    LexByteStep(s);
    var t := s[|c| + 1..];
    assert t == [LF] + rest;
    LexByteStep(t);
    assert t[1..] == rest;
  }

  /** The first token stands on line 1. */
  lemma FirstLine(ks: seq<Token>)
    requires ks != []
    ensures Annotate(ks)[0].line == 1
  {
    AnnotateLines(ks, 0);
  }
}
