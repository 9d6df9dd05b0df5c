/**
 * The document builder of the script format (`Data` in
 * src/commands/script_parser.rs).
 *
 * The token vector and its peekable iterator become a sequence and an
 * index into it. Each `handle_*` method has a reference reading as a
 * function from the document before the call and the cursor to an
 * `Outcome`: the document after the call, where the cursor stands, and the
 * result. The `Data` methods are proved to produce exactly that outcome,
 * and `FromTokens` to produce `Parse(tokens)`.
 */
module ScriptParser {
  import opened Wrappers
  import opened Tokenizer

  /** "@autotag" */
  const AUTOTAG: Bytes := [64, 97, 117, 116, 111, 116, 97, 103]

  datatype File = File(file: Bytes, tags: set<Bytes>)

  /** A set: indices into the file list, and the set's own tags. */
  datatype Set = Set(files: seq<nat>, tags: set<Bytes>)

  /** The fields of `Data`, as a value. */
  datatype Doc = Doc(
    directives: map<Bytes, Bytes>,
    variables: map<Bytes, seq<Token>>,
    files: seq<File>,
    sets: seq<Set>,
    tags: set<Bytes>,
    fileSet: set<Bytes>)

  /** `Data::new`. */
  const Empty: Doc := Doc(map[], map[], [], [], {}, {})

  /** The errors `from_tokens` reports; the source formats each one as "Line <line>: ...". */
  datatype ParseError =
    | UndefinedVariable(line: int, name: Bytes)
    | UnexpectedDirective(line: int, name: Bytes)
    | UnexpectedToken(line: int, token: Token)
    | RepeatedFile(line: int, path: Bytes)
    | EmptyDirective(line: int, name: Bytes)

  /** What a handler leaves behind: the document, the cursor, and the result. */
  datatype Outcome<T> = Outcome(doc: Doc, next: nat, result: Result<T, ParseError>)

  predicate IsTagOp(t: Token)
  {
    t.AddTag? || t.RemoveTag?
  }

  predicate AllTagOps(ops: seq<Token>)
  {
    forall k :: 0 <= k < |ops| ==> IsTagOp(ops[k])
  }

  /** Every stored variable value is a list of tag operations. */
  predicate VarsHoldTagOps(vars: map<Bytes, seq<Token>>)
  {
    forall v :: v in vars ==> AllTagOps(vars[v])
  }

  /** The tokens `handle_tag_list` reads; it stops, without consuming, at any other. */
  predicate InTagList(t: Token)
  {
    t.Variable? || t.AddTag? || t.RemoveTag? || t.LineBreak?
  }

  /** The tokens `handle_variable` reads into a definition; any other one ends it. */
  predicate InDefinition(t: Token)
  {
    t.Variable? || t.AddTag? || t.RemoveTag?
  }

  /** The first index from `i` on whose token is not `InTagList`, or the end. */
  function TagListEnd(tokens: seq<TokenInfo>, i: nat): (j: nat)
    requires i <= |tokens|
    ensures i <= j <= |tokens|
    ensures forall k :: i <= k < j ==> InTagList(tokens[k].token)
    ensures j == |tokens| || !InTagList(tokens[j].token)
    decreases |tokens| - i
  {
    if i == |tokens| || !InTagList(tokens[i].token) then i else TagListEnd(tokens, i + 1)
  }

  /** The first index from `i` on whose token is not `InDefinition`, or the end. */
  function DefinitionEnd(tokens: seq<TokenInfo>, i: nat): (j: nat)
    requires i <= |tokens|
    ensures i <= j <= |tokens|
    ensures forall k :: i <= k < j ==> InDefinition(tokens[k].token)
    ensures j == |tokens| || !InDefinition(tokens[j].token)
    decreases |tokens| - i
  {
    if i == |tokens| || !InDefinition(tokens[i].token) then i else DefinitionEnd(tokens, i + 1)
  }

  lemma TagListEndIs(tokens: seq<TokenInfo>, i: nat, j: nat)
    requires i <= j <= |tokens|
    requires forall k :: i <= k < j ==> InTagList(tokens[k].token)
    requires j == |tokens| || !InTagList(tokens[j].token)
    ensures TagListEnd(tokens, i) == j
    decreases j - i
  {
    if i < j {
      TagListEndIs(tokens, i + 1, j);
    }
  }

  lemma DefinitionEndIs(tokens: seq<TokenInfo>, i: nat, j: nat)
    requires i <= j <= |tokens|
    requires forall k :: i <= k < j ==> InDefinition(tokens[k].token)
    requires j == |tokens| || !InDefinition(tokens[j].token)
    ensures DefinitionEnd(tokens, i) == j
    decreases j - i
  {
    if i < j {
      DefinitionEndIs(tokens, i + 1, j);
    }
  }

  /**
   * The tag operations a run of tokens stands for: `AddTag` and `RemoveTag`
   * themselves, a `$variable` its stored operations, anything else none.
   * The first undefined variable fails, citing its own line.
   */
  function Expand(vars: map<Bytes, seq<Token>>, run: seq<TokenInfo>): (r: Result<seq<Token>, ParseError>)
    ensures VarsHoldTagOps(vars) && r.Ok? ==> AllTagOps(r.value)
    ensures r.Err? ==> r.error.UndefinedVariable?
    decreases |run|
  {
    if run == [] then Ok([])
    else
      match Expand(vars, run[..|run| - 1])
      case Err(e) => Err(e)
      case Ok(ops) => Extend(vars, ops, run[|run| - 1])
  }

  /** A `$variable` token whose name has no definition. */
  predicate Undefined(vars: map<Bytes, seq<Token>>, ti: TokenInfo)
  {
    ti.token.Variable? && ti.token.name !in vars
  }

  /** One token's contribution to `Expand`, after the operations `ops` of the tokens before it. */
  function Extend(vars: map<Bytes, seq<Token>>, ops: seq<Token>, ti: TokenInfo): (r: Result<seq<Token>, ParseError>)
    ensures VarsHoldTagOps(vars) && AllTagOps(ops) && r.Ok? ==> AllTagOps(r.value)
    ensures r.Ok? ==> ops <= r.value
    ensures r.Err? <==> Undefined(vars, ti)
    ensures r.Err? ==> r.error == UndefinedVariable(ti.line, ti.token.name)
  {
    match ti.token
    case Variable(v) => if v in vars then Ok(ops + vars[v]) else Err(UndefinedVariable(ti.line, v))
    case AddTag(_) => Ok(ops + [ti.token])
    case RemoveTag(_) => Ok(ops + [ti.token])
    case _ => Ok(ops)
  }

  /** Once a prefix of the run fails, the whole run fails the same way. */
  lemma {:induction false} ExpandErr(vars: map<Bytes, seq<Token>>, run: seq<TokenInfo>, rest: seq<TokenInfo>)
    requires Expand(vars, run).Err?
    ensures Expand(vars, run + rest) == Expand(vars, run)
    decreases |rest|
  {
    if rest != [] {
      var front := rest[..|rest| - 1];
      assert (run + rest)[..|run + rest| - 1] == run + front;
      ExpandErr(vars, run, front);
    } else {
      assert run + rest == run;
    }
  }

  /** Expanding one more token of a run: `Extend` applied after the tokens before it. */
  lemma ExpandNext(vars: map<Bytes, seq<Token>>, tokens: seq<TokenInfo>, pos: nat, next: nat)
    requires pos <= next < |tokens| && Expand(vars, tokens[pos..next]).Ok?
    ensures Expand(vars, tokens[pos..next + 1]) == Extend(vars, Expand(vars, tokens[pos..next]).value, tokens[next])
  {
    assert tokens[pos..next + 1][..next - pos] == tokens[pos..next];
  }

  /** A run whose prefix up to `m` fails expands to that same error. */
  lemma ExpandStops(vars: map<Bytes, seq<Token>>, tokens: seq<TokenInfo>, pos: nat, m: nat, j: nat)
    requires pos <= m <= j <= |tokens|
    requires Expand(vars, tokens[pos..m]).Err?
    ensures Expand(vars, tokens[pos..j]) == Expand(vars, tokens[pos..m])
  {
    assert tokens[pos..j] == tokens[pos..m] + tokens[m..j];
    ExpandErr(vars, tokens[pos..m], tokens[m..j]);
  }

  /**
   * The run `tokens[lo..hi]` fails to expand exactly when it holds an
   * undefined variable, and the error then names the first one and cites
   * its line.
   */
  lemma {:induction false} ExpandFails(vars: map<Bytes, seq<Token>>, tokens: seq<TokenInfo>, lo: nat, hi: nat)
    requires lo <= hi <= |tokens|
    ensures Expand(vars, tokens[lo..hi]).Ok? <==> forall k :: lo <= k < hi ==> !Undefined(vars, tokens[k])
    ensures Expand(vars, tokens[lo..hi]).Err? ==>
      exists k :: lo <= k < hi && Undefined(vars, tokens[k]) && (forall m :: lo <= m < k ==> !Undefined(vars, tokens[m]))
                  && Expand(vars, tokens[lo..hi]).error == UndefinedVariable(tokens[k].line, tokens[k].token.name)
    decreases hi - lo
  {
    if lo < hi {
      ExpandFails(vars, tokens, lo, hi - 1);
      if Expand(vars, tokens[lo..hi - 1]).Err? {
        ExpandStops(vars, tokens, lo, hi - 1, hi);
      } else {
        ExpandNext(vars, tokens, lo, hi - 1);
      }
    } else {
      assert tokens[lo..hi] == [];
    }
  }

  /** The tag set left by applying `ops` to `acc` left to right: insert on `AddTag`, remove on `RemoveTag`. */
  function Replay(acc: set<Bytes>, ops: seq<Token>): set<Bytes>
  {
    if ops == [] then acc
    else
      var before := Replay(acc, ops[..|ops| - 1]);
      match ops[|ops| - 1]
      case AddTag(t) => before + {t}
      case RemoveTag(t) => before - {t}
      case _ => before
  }

  lemma {:induction false} ReplayAppend(acc: set<Bytes>, a: seq<Token>, b: seq<Token>)
    ensures Replay(acc, a + b) == Replay(Replay(acc, a), b)
    decreases |b|
  {
    if b == [] {
      assert a + b == a;
    } else {
      assert (a + b)[..|a + b| - 1] == a + b[..|b| - 1];
      ReplayAppend(acc, a, b[..|b| - 1]);
    }
  }

  /** Nothing the document accumulates is ever lost. */
  ghost predicate Grows(d: Doc, e: Doc)
  {
    d.tags <= e.tags && d.fileSet <= e.fileSet && d.files <= e.files && d.sets <= e.sets
  }

  /**
   * `handle_tag_list`: the tags of the run of tag-list tokens at `i`, which
   * are also added to the document's tags.
   */
  function TagListOutcome(d: Doc, tokens: seq<TokenInfo>, i: nat): (o: Outcome<set<Bytes>>)
    requires i <= |tokens|
    ensures Grows(d, o.doc) && o.doc.variables == d.variables
    ensures o.result.Ok? ==> o.next == TagListEnd(tokens, i) && o.doc == d.(tags := d.tags + o.result.value)
    ensures o.result.Err? ==> o.doc == d
  {
    var j := TagListEnd(tokens, i);
    match Expand(d.variables, tokens[i..j])
    case Err(e) => Outcome(d, i, Err(e))
    case Ok(ops) =>
      var tagList := Replay({}, ops);
      Outcome(d.(tags := d.tags + tagList), j, Ok(tagList))
  }

  /**
   * `handle_file`, with a `String` token at `i`: a path already declared
   * fails; otherwise the path is recorded and the file is appended with the
   * tags of the tag list that follows it.
   */
  function FileOutcome(d: Doc, tokens: seq<TokenInfo>, i: nat): (o: Outcome<()>)
    requires i < |tokens| && tokens[i].token.String?
    ensures Grows(d, o.doc) && o.doc.variables == d.variables
    ensures o.result.Ok? ==> o.next == TagListEnd(tokens, i + 1) && |o.doc.files| == |d.files| + 1
    ensures o.doc.sets == d.sets
  {
    var path := tokens[i].token.value;
    if path in d.fileSet then Outcome(d, i, Err(RepeatedFile(tokens[i].line, path)))
    else
      var t := TagListOutcome(d.(fileSet := d.fileSet + {path}), tokens, i + 1);
      match t.result
      case Err(e) => Outcome(t.doc, t.next, Err(e))
      case Ok(tagList) => Outcome(t.doc.(files := t.doc.files + [File(path, tagList)]), t.next, Ok(()))
  }

  /**
   * `handle_variable`, with a `Variable` token at `i`: the definition is the
   * expansion of the `InDefinition` run after the name; the token that ends
   * the run, whatever it is, is consumed; the value overwrites any earlier one.
   */
  function VariableOutcome(d: Doc, tokens: seq<TokenInfo>, i: nat): (o: Outcome<()>)
    requires i < |tokens| && tokens[i].token.Variable?
    ensures Grows(d, o.doc)
    ensures VarsHoldTagOps(d.variables) ==> VarsHoldTagOps(o.doc.variables)
    ensures o.result.Ok? ==> i < o.next <= |tokens|
    ensures o.result.Ok? ==>
      var e := Expand(d.variables, tokens[i + 1..DefinitionEnd(tokens, i + 1)]);
      e.Ok? && o.doc == d.(variables := d.variables[tokens[i].token.name := e.value])
    ensures o.result.Err? ==> o.doc == d
  {
    var j := DefinitionEnd(tokens, i + 1);
    match Expand(d.variables, tokens[i + 1..j])
    case Err(e) => Outcome(d, j, Err(e))
    case Ok(ops) =>
      Outcome(d.(variables := d.variables[tokens[i].token.name := ops]), if j < |tokens| then j + 1 else j, Ok(()))
  }

  /** `handle_directive`, with a `Directive` token at `i`: it needs a `String` right after it. */
  function DirectiveOutcome(d: Doc, tokens: seq<TokenInfo>, i: nat): (o: Outcome<()>)
    requires i < |tokens| && tokens[i].token.Directive?
    ensures Grows(d, o.doc) && o.doc.variables == d.variables
    ensures o.result.Ok? ==> o.next == i + 2 <= |tokens|
    ensures o.result.Err? <==> !(i + 1 < |tokens| && tokens[i + 1].token.String?)
    ensures o.result.Err? ==> o.result.error == EmptyDirective(tokens[i].line, tokens[i].token.name) && o.doc == d
    ensures o.result.Ok? ==>
      o.doc == d.(directives := d.directives[tokens[i].token.name := tokens[i + 1].token.value])
  {
    var name := tokens[i].token.name;
    if i + 1 < |tokens| && tokens[i + 1].token.String? then
      Outcome(d.(directives := d.directives[name := tokens[i + 1].token.value]), i + 2, Ok(()))
    else
      Outcome(d, i + 1, Err(EmptyDirective(tokens[i].line, name)))
  }

  /**
   * The loop of `handle_set` from cursor `i`, with `store` telling whether
   * `@autotag` was seen, the file indices and the tags gathered so far. It
   * ends at `}` (consumed) or at the end of the tokens.
   */
  function SetBody(d: Doc, tokens: seq<TokenInfo>, i: nat, openLine: int, store: bool,
                   indices: seq<nat>, acc: set<Bytes>): (o: Outcome<(seq<nat>, set<Bytes>)>)
    requires i <= |tokens|
    ensures Grows(d, o.doc) && o.doc.variables == d.variables && o.doc.sets == d.sets
    ensures o.result.Ok? ==> i <= o.next <= |tokens|
    decreases |tokens| - i
  {
    if i == |tokens| then Outcome(d, i, Ok((indices, acc)))
    else
      var ti := tokens[i];
      match ti.token
      case Directive(name) =>
        if name != AUTOTAG then Outcome(d, i, Err(UnexpectedDirective(ti.line, name)))
        else SetBody(d, tokens, i + 1, openLine, true, indices, acc)
      case SetClose => Outcome(d, i + 1, Ok((indices, acc)))
      case String(_) =>
        var f := FileOutcome(d, tokens, i);
        if f.result.Err? then Outcome(f.doc, f.next, Err(f.result.error))
        else
          var acc' := if store then acc + f.doc.files[|f.doc.files| - 1].tags else acc;
          SetBody(f.doc, tokens, f.next, openLine, store, indices + [|d.files|], acc')
      case LineBreak => SetBody(d, tokens, i + 1, openLine, store, indices, acc)
      case _ => Outcome(d, i, Err(UnexpectedToken(openLine, ti.token)))
  }

  /**
   * `handle_set`, with `{` at `i`: the body, then a trailing tag list whose
   * tags join the set's, then exactly one set pushed. An error inside the
   * body cites the line of the `{`.
   */
  function SetOutcome(d: Doc, tokens: seq<TokenInfo>, i: nat): (o: Outcome<()>)
    requires i < |tokens| && tokens[i].token == SetOpen
    ensures Grows(d, o.doc) && o.doc.variables == d.variables
    ensures o.result.Ok? ==> i < o.next <= |tokens|
  {
    var b := SetBody(d, tokens, i + 1, tokens[i].line, false, [], {});
    match b.result
    case Err(e) => Outcome(b.doc, b.next, Err(e))
    case Ok((indices, acc)) =>
      var t := TagListOutcome(b.doc, tokens, b.next);
      match t.result
      case Err(e) => Outcome(t.doc, t.next, Err(e))
      case Ok(trailing) => Outcome(t.doc.(sets := t.doc.sets + [Set(indices, acc + trailing)]), t.next, Ok(()))
  }

  /** One turn of the loop in `from_tokens`: dispatch on the token at `i`; any other token is skipped. */
  function Step(d: Doc, tokens: seq<TokenInfo>, i: nat): (o: Outcome<()>)
    requires i < |tokens|
    ensures Grows(d, o.doc)
    ensures VarsHoldTagOps(d.variables) ==> VarsHoldTagOps(o.doc.variables)
    ensures o.result.Ok? ==> i < o.next <= |tokens|
    ensures var t := tokens[i].token;
            !(t.Variable? || t.String? || t.Directive? || t == SetOpen) ==> o == Outcome(d, i + 1, Ok(()))
  {
    match tokens[i].token
    case Variable(_) => VariableOutcome(d, tokens, i)
    case String(_) => FileOutcome(d, tokens, i)
    case Directive(_) => DirectiveOutcome(d, tokens, i)
    case SetOpen => SetOutcome(d, tokens, i)
    case _ => Outcome(d, i + 1, Ok(()))
  }

  /** The rest of `from_tokens` from cursor `i`; the first error aborts. */
  function Run(d: Doc, tokens: seq<TokenInfo>, i: nat): Result<Doc, ParseError>
    requires i <= |tokens|
    decreases |tokens| - i
  {
    if i == |tokens| then Ok(d)
    else
      var o := Step(d, tokens, i);
      match o.result
      case Err(e) => Err(e)
      case Ok(_) => Run(o.doc, tokens, o.next)
  }

  /** `Data::from_tokens`, as a value. */
  function Parse(tokens: seq<TokenInfo>): Result<Doc, ParseError>
  {
    Run(Empty, tokens, 0)
  }

  /** A handler's observable effect agrees with outcome `o`: the new document, the result, and (on success) the cursor. */
  ghost predicate Yields<T>(o: Outcome<T>, d: Doc, r: Result<T, ParseError>, next: nat)
  {
    d == o.doc && r == o.result && (r.Ok? ==> next == o.next)
  }

  /** `for tag in from { into.insert(tag) }`. */
  method InsertAll(into: set<Bytes>, from: set<Bytes>) returns (r: set<Bytes>)
    ensures r == into + from
  {
    r := into;
    var rest := from;
    while rest != {}
      invariant rest <= from
      invariant r == into + (from - rest)
      decreases |rest|
    {
      var t :| t in rest;
      r := r + {t};
      rest := rest - {t};
    }
  }

  /**
   * The replay of a stored variable value in `handle_tag_list`; a token
   * that is not a tag operation would panic there.
   */
  method ApplyOps(acc: set<Bytes>, ops: seq<Token>) returns (r: set<Bytes>)
    requires AllTagOps(ops)
    ensures r == Replay(acc, ops)
  {
    r := acc;
    var k := 0;
    while k < |ops|
      invariant k <= |ops|
      invariant r == Replay(acc, ops[..k])
    {
      assert ops[..k + 1][..k] == ops[..k];
      match ops[k] {
        case AddTag(t) => r := r + {t};
        case RemoveTag(t) => r := r - {t};
        case _ => assert false;
      }
      k := k + 1;
    }
    assert ops[..k] == ops;
  }

  /**
   * One token of the loop of `handle_tag_list`, applied to the tags
   * `tagList` gathered so far (the replay of `ops`).
   */
  method ApplyToken(vars: map<Bytes, seq<Token>>, tagList: set<Bytes>, ghost ops: seq<Token>, ti: TokenInfo)
    returns (r: Result<set<Bytes>, ParseError>, ghost ops': seq<Token>)
    requires VarsHoldTagOps(vars) && tagList == Replay({}, ops)
    ensures match Extend(vars, ops, ti)
            case Err(e) => r == Err(e)
            case Ok(o) => r == Ok(Replay({}, o)) && ops' == o
  {
    ops' := ops;
    match ti.token {
      case Variable(v) =>
        if v !in vars {
          return Err(UndefinedVariable(ti.line, v)), ops;
        }
        var t := ApplyOps(tagList, vars[v]);
        ReplayAppend({}, ops, vars[v]);
        assert Extend(vars, ops, ti) == Ok(ops + vars[v]);
        r, ops' := Ok(t), ops + vars[v];
      case AddTag(t) =>
        assert Extend(vars, ops, ti) == Ok(ops + [ti.token]);
        r, ops' := Ok(tagList + {t}), ops + [ti.token];
      case RemoveTag(t) =>
        assert Extend(vars, ops, ti) == Ok(ops + [ti.token]);
        r, ops' := Ok(tagList - {t}), ops + [ti.token];
      case _ =>
        assert Extend(vars, ops, ti) == Ok(ops);
        r := Ok(tagList);
    }
  }

  /**
   * The loop of `handle_tag_list`: resolve the tag-list run at `pos`
   * against the variables `vars`.
   */
  method ResolveTagList(vars: map<Bytes, seq<Token>>, tokens: seq<TokenInfo>, pos: nat)
    returns (r: Result<set<Bytes>, ParseError>, next: nat)
    requires VarsHoldTagOps(vars) && pos <= |tokens|
    ensures var j := TagListEnd(tokens, pos);
            match Expand(vars, tokens[pos..j])
            case Err(e) => r == Err(e)
            case Ok(ops) => r == Ok(Replay({}, ops)) && next == j
  {
    var tagList: set<Bytes> := {};
    ghost var ops: seq<Token> := [];
    next := pos;
    while next < |tokens| && InTagList(tokens[next].token)
      invariant pos <= next <= |tokens|
      invariant forall k :: pos <= k < next ==> InTagList(tokens[k].token)
      invariant Expand(vars, tokens[pos..next]) == Ok(ops)
      invariant tagList == Replay({}, ops)
      decreases |tokens| - next
    {
      var ti := tokens[next];
      ExpandNext(vars, tokens, pos, next);
      var step;
      ghost var ops';
      step, ops' := ApplyToken(vars, tagList, ops, ti);
      if step.Err? {
        assert next < TagListEnd(tokens, pos);
        ExpandStops(vars, tokens, pos, next + 1, TagListEnd(tokens, pos));
        return step, next;
      }
      tagList, ops := step.value, ops';
      next := next + 1;
    }
    TagListEndIs(tokens, pos, next);
    r := Ok(tagList);
  }

  /**
   * The loop of `handle_variable` up to the token that ends the definition
   * (`next`, not yet consumed): the operations the definition stands for.
   */
  method ReadDefinition(vars: map<Bytes, seq<Token>>, tokens: seq<TokenInfo>, pos: nat)
    returns (r: Result<seq<Token>, ParseError>, next: nat)
    requires pos <= |tokens|
    ensures next == DefinitionEnd(tokens, pos)
    ensures r == Expand(vars, tokens[pos..next])
  {
    var tokenVec: seq<Token> := [];
    next := pos;
    while next < |tokens| && InDefinition(tokens[next].token)
      invariant pos <= next <= |tokens|
      invariant forall k :: pos <= k < next ==> InDefinition(tokens[k].token)
      invariant Expand(vars, tokens[pos..next]) == Ok(tokenVec)
      decreases |tokens| - next
    {
      var ti := tokens[next];
      ExpandNext(vars, tokens, pos, next);
      match ti.token {
        case Variable(v) =>
          if v !in vars {
            var j := DefinitionEnd(tokens, pos);
            assert next < j;
            ExpandStops(vars, tokens, pos, next + 1, j);
            return Err(UndefinedVariable(ti.line, v)), j;
          }
          tokenVec := tokenVec + vars[v];
        case AddTag(_) => tokenVec := tokenVec + [ti.token];
        case RemoveTag(_) => tokenVec := tokenVec + [ti.token];
        case _ => assert false;
      }
      next := next + 1;
    }
    DefinitionEndIs(tokens, pos, next);
    r := Ok(tokenVec);
  }

  class Data {
    var directives: map<Bytes, Bytes>
    var variables: map<Bytes, seq<Token>>
    var files: seq<File>
    var sets: seq<Set>
    var tags: set<Bytes>
    var fileSet: set<Bytes>

    function Snapshot(): Doc
      reads this
    {
      Doc(directives, variables, files, sets, tags, fileSet)
    }

    /** Every stored variable value is a list of tag operations, so `handle_tag_list` never panics. */
    ghost predicate Valid()
      reads this
    {
      VarsHoldTagOps(variables)
    }

    /** `Data::new`. */
    constructor ()
      ensures Snapshot() == Empty && Valid()
    {
      directives, variables := map[], map[];
      files, sets := [], [];
      tags, fileSet := {}, {};
      assert VarsHoldTagOps(map[]);
    }

    method HandleTagList(tokens: seq<TokenInfo>, pos: nat) returns (r: Result<set<Bytes>, ParseError>, next: nat)
      requires Valid() && pos <= |tokens|
      modifies this
      ensures Valid()
      ensures Yields(TagListOutcome(old(Snapshot()), tokens, pos), Snapshot(), r, next)
    {
      r, next := ResolveTagList(variables, tokens, pos);
      if r.Ok? {
        tags := InsertAll(tags, r.value);
      }
    }

    method HandleFile(tokens: seq<TokenInfo>, pos: nat) returns (r: Result<(), ParseError>, next: nat)
      requires Valid() && pos < |tokens| && tokens[pos].token.String?
      modifies this
      ensures Valid()
      ensures Yields(FileOutcome(old(Snapshot()), tokens, pos), Snapshot(), r, next)
    {
      var path := tokens[pos].token.value;
      if path in fileSet {
        return Err(RepeatedFile(tokens[pos].line, path)), pos;
      }
      fileSet := fileSet + {path};
      var tagList;
      tagList, next := HandleTagList(tokens, pos + 1);
      if tagList.Err? {
        return Err(tagList.error), next;
      }
      files := files + [File(path, tagList.value)];
      r := Ok(());
    }

    method HandleVariable(tokens: seq<TokenInfo>, pos: nat) returns (r: Result<(), ParseError>, next: nat)
      requires Valid() && pos < |tokens| && tokens[pos].token.Variable?
      modifies this
      ensures Valid()
      ensures Yields(VariableOutcome(old(Snapshot()), tokens, pos), Snapshot(), r, next)
    {
      var name := tokens[pos].token.name;
      var tokenVec;
      tokenVec, next := ReadDefinition(variables, tokens, pos + 1);
      if tokenVec.Err? {
        return Err(tokenVec.error), next;
      }
      if next < |tokens| {
        next := next + 1;
      }
      variables := variables[name := tokenVec.value];
      r := Ok(());
    }

    method HandleDirective(tokens: seq<TokenInfo>, pos: nat) returns (r: Result<(), ParseError>, next: nat)
      requires Valid() && pos < |tokens| && tokens[pos].token.Directive?
      modifies this
      ensures Valid()
      ensures Yields(DirectiveOutcome(old(Snapshot()), tokens, pos), Snapshot(), r, next)
    {
      var directive := tokens[pos].token.name;
      if pos + 1 < |tokens| && tokens[pos + 1].token.String? {
        directives := directives[directive := tokens[pos + 1].token.value];
        return Ok(()), pos + 2;
      }
      return Err(EmptyDirective(tokens[pos].line, directive)), pos + 1;
    }

    method HandleSet(tokens: seq<TokenInfo>, pos: nat) returns (r: Result<(), ParseError>, next: nat)
      requires Valid() && pos < |tokens| && tokens[pos].token == SetOpen
      modifies this
      ensures Valid()
      ensures Yields(SetOutcome(old(Snapshot()), tokens, pos), Snapshot(), r, next)
    {
      var openLine := tokens[pos].line;
      var fileIndices: seq<nat> := [];
      var tagList: set<Bytes> := {};
      var storeFileTags := false;
      ghost var body := SetBody(Snapshot(), tokens, pos + 1, openLine, false, [], {});
      next := pos + 1;
      while next < |tokens|
        invariant pos + 1 <= next <= |tokens| && Valid()
        invariant body == SetBody(Snapshot(), tokens, next, openLine, storeFileTags, fileIndices, tagList)
        decreases |tokens| - next
      {
        var ti := tokens[next];
        match ti.token {
          case Directive(d) =>
            if d != AUTOTAG {
              return Err(UnexpectedDirective(ti.line, d)), next;
            }
            storeFileTags := true;
            next := next + 1;
          case SetClose =>
            next := next + 1;
            break;
          case String(_) =>
            fileIndices := fileIndices + [|files|];
            var fileResult;
            fileResult, next := HandleFile(tokens, next);
            if fileResult.Err? {
              return Err(fileResult.error), next;
            }
            if storeFileTags {
              tagList := InsertAll(tagList, files[|files| - 1].tags);
            }
          case LineBreak =>
            next := next + 1;
          case _ =>
            return Err(UnexpectedToken(openLine, ti.token)), next;
        }
      }
      assert body == Outcome(Snapshot(), next, Ok((fileIndices, tagList)));
      var trailing;
      trailing, next := HandleTagList(tokens, next);
      if trailing.Err? {
        return Err(trailing.error), next;
      }
      tagList := InsertAll(tagList, trailing.value);
      sets := sets + [Set(fileIndices, tagList)];
      r := Ok(());
    }

    /** `Data::from_tokens`: `Parse(tokens)`, built in a fresh `Data`. */
    static method FromTokens(tokens: seq<TokenInfo>) returns (r: Result<Data, ParseError>)
      ensures Parse(tokens).Err? ==> r == Err(Parse(tokens).error)
      ensures Parse(tokens).Ok? ==> r.Ok? && fresh(r.value) && r.value.Valid() && r.value.Snapshot() == Parse(tokens).value
    {
      var data := new Data();
      var i := 0;
      while i < |tokens|
        invariant i <= |tokens| && fresh(data) && data.Valid()
        invariant Parse(tokens) == Run(data.Snapshot(), tokens, i)
        decreases |tokens| - i
      {
        var step: Result<(), ParseError>;
        match tokens[i].token {
          case Variable(_) => step, i := data.HandleVariable(tokens, i);
          case String(_) => step, i := data.HandleFile(tokens, i);
          case Directive(_) => step, i := data.HandleDirective(tokens, i);
          case SetOpen => step, i := data.HandleSet(tokens, i);
          case _ => step, i := Ok(()), i + 1;
        }
        if step.Err? {
          return Err(step.error);
        }
      }
      return Ok(data);
    }
  }
}
