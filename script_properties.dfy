/**
 * What a successful parse of a script guarantees about the document it
 * builds, and what tag-list resolution means.
 */
module ScriptProperties {
  import opened Wrappers
  import opened Tokenizer
  import opened ScriptParser

  /** `[a, a + 1, ..., b - 1]`. */
  function Range(a: nat, b: nat): (r: seq<nat>)
    requires a <= b
    ensures |r| == b - a
    ensures forall k :: 0 <= k < |r| ==> r[k] == a + k
    decreases b - a
  {
    if a == b then [] else Range(a, b - 1) + [b - 1]
  }

  function Paths(files: seq<File>): set<Bytes>
  {
    if files == [] then {} else Paths(files[..|files| - 1]) + {files[|files| - 1].file}
  }

  function FileTags(files: seq<File>): set<Bytes>
  {
    if files == [] then {} else FileTags(files[..|files| - 1]) + files[|files| - 1].tags
  }

  function SetTags(sets: seq<Set>): set<Bytes>
  {
    if sets == [] then {} else SetTags(sets[..|sets| - 1]) + sets[|sets| - 1].tags
  }

  predicate DistinctPaths(files: seq<File>)
  {
    forall i, j :: 0 <= i < j < |files| ==> files[i].file != files[j].file
  }

  predicate Consecutive(xs: seq<nat>)
  {
    forall k :: 0 < k < |xs| ==> xs[k] == xs[k - 1] + 1
  }

  predicate Below(xs: seq<nat>, n: nat)
  {
    forall k :: 0 <= k < |xs| ==> xs[k] < n
  }

  /**
   * Every set lists consecutive indices of existing files, and the files
   * of an earlier set all come before those of a later one.
   */
  predicate SetsLayout(sets: seq<Set>, n: nat)
  {
    && (forall p :: 0 <= p < |sets| ==> Consecutive(sets[p].files) && Below(sets[p].files, n))
    && (forall p, q, x, y :: 0 <= p < q < |sets| && 0 <= x < |sets[p].files| && 0 <= y < |sets[q].files| ==>
          sets[p].files[x] < sets[q].files[y])
  }

  /** The invariants of a document built by `from_tokens`. */
  predicate WellFormed(d: Doc)
  {
    && VarsHoldTagOps(d.variables)
    && d.fileSet == Paths(d.files)
    && DistinctPaths(d.files)
    && SetsLayout(d.sets, |d.files|)
    && d.tags == FileTags(d.files) + SetTags(d.sets)
  }

  lemma {:induction false} PathsHas(files: seq<File>, i: nat)
    requires i < |files|
    ensures files[i].file in Paths(files)
    decreases |files|
  {
    if i < |files| - 1 {
      PathsHas(files[..|files| - 1], i);
    }
  }

  lemma {:induction false} FileTagsHas(files: seq<File>, i: nat)
    requires i < |files|
    ensures files[i].tags <= FileTags(files)
    decreases |files|
  {
    if i < |files| - 1 {
      FileTagsHas(files[..|files| - 1], i);
    }
  }

  lemma EmptyWellFormed()
    ensures WellFormed(Empty)
  {
    assert VarsHoldTagOps(map[]);
  }

  /** A declared file is appended, its path recorded, its tags counted. */
  lemma FileWellFormed(d: Doc, tokens: seq<TokenInfo>, i: nat)
    requires i < |tokens| && tokens[i].token.String? && WellFormed(d)
    ensures var o := FileOutcome(d, tokens, i);
            o.result.Ok? ==>
              && WellFormed(o.doc) && o.doc.sets == d.sets
              && |o.doc.files| == |d.files| + 1 && o.doc.files[..|d.files|] == d.files
              && o.doc.files[|d.files|].file == tokens[i].token.value
  {
    var path := tokens[i].token.value;
    var o := FileOutcome(d, tokens, i);
    if o.result.Ok? {
      var t := TagListOutcome(d.(fileSet := d.fileSet + {path}), tokens, i + 1);
      var files' := d.files + [File(path, t.result.value)];
      assert o.doc == t.doc.(files := files');
      assert files'[..|d.files|] == d.files;
      forall k | 0 <= k < |d.files|
        ensures d.files[k].file != path
      {
        PathsHas(d.files, k);
      }
      assert SetsLayout(d.sets, |files'|);
    }
  }

  /** A line break or `@autotag` inside a set body is passed over; `@autotag` turns on tag collection. */
  lemma SetBodySkip(d: Doc, tokens: seq<TokenInfo>, i: nat, openLine: int, store: bool,
                    indices: seq<nat>, acc: set<Bytes>)
    requires i < |tokens| && (tokens[i].token == LineBreak || tokens[i].token == Directive(AUTOTAG))
    ensures SetBody(d, tokens, i, openLine, store, indices, acc) ==
            SetBody(d, tokens, i + 1, openLine, store || tokens[i].token.Directive?, indices, acc)
  {
  }

  /** A file declared inside a set body: the body goes on after it, with the file's index recorded. */
  lemma SetBodyFile(d: Doc, tokens: seq<TokenInfo>, i: nat, openLine: int, store: bool,
                    indices: seq<nat>, acc: set<Bytes>)
    requires i < |tokens| && tokens[i].token.String?
    ensures var f := FileOutcome(d, tokens, i);
            f.result.Ok? ==>
              SetBody(d, tokens, i, openLine, store, indices, acc) ==
              SetBody(f.doc, tokens, f.next, openLine, store, indices + [|d.files|],
                      if store then acc + f.doc.files[|d.files|].tags else acc)
  {
  }

  /** A file declared inside a set body keeps the invariants `SetBodyWellFormed` carries. */
  lemma FileInSet(d: Doc, tokens: seq<TokenInfo>, i: nat, store: bool, indices: seq<nat>, acc: set<Bytes>, s0: nat)
    requires i < |tokens| && tokens[i].token.String? && WellFormed(d)
    requires s0 <= |d.files| && indices == Range(s0, |d.files|)
    requires SetsLayout(d.sets, s0) && acc <= FileTags(d.files)
    ensures var f := FileOutcome(d, tokens, i);
            f.result.Ok? ==>
              var acc' := if store then acc + f.doc.files[|d.files|].tags else acc;
              && WellFormed(f.doc) && f.doc.sets == d.sets && s0 <= |f.doc.files|
              && indices + [|d.files|] == Range(s0, |f.doc.files|)
              && acc' <= FileTags(f.doc.files)
  {
    var f := FileOutcome(d, tokens, i);
    if f.result.Ok? {
      FileWellFormed(d, tokens, i);
      var n := |d.files|;
      assert f.doc.files == d.files + [f.doc.files[n]];
      assert FileTags(f.doc.files) == FileTags(d.files) + f.doc.files[n].tags;
      assert indices + [n] == Range(s0, n + 1);
    }
  }

  /** The recorded paths are exactly the paths of the files. */
  lemma {:induction false} PathsAre(files: seq<File>, p: Bytes)
    ensures p in Paths(files) <==> exists k :: 0 <= k < |files| && files[k].file == p
    decreases |files|
  {
    if files != [] {
      var front := files[..|files| - 1];
      PathsAre(front, p);
      if exists k :: 0 <= k < |front| && front[k].file == p {
        var k :| 0 <= k < |front| && front[k].file == p;
        assert files[k].file == p;
      }
      if exists k :: 0 <= k < |files| && files[k].file == p {
        var k :| 0 <= k < |files| && files[k].file == p;
        if k < |front| {
          assert front[k].file == p;
        }
      }
    }
  }

  /**
   * In a well-formed document, a file declaration fails as a repeat, citing
   * its own line, exactly when an earlier file has the same path.
   */
  lemma RepeatedFileRejected(d: Doc, tokens: seq<TokenInfo>, i: nat)
    requires i < |tokens| && tokens[i].token.String? && WellFormed(d)
    ensures FileOutcome(d, tokens, i).result == Err(RepeatedFile(tokens[i].line, tokens[i].token.value)) <==>
      exists k :: 0 <= k < |d.files| && d.files[k].file == tokens[i].token.value
  {
    PathsAre(d.files, tokens[i].token.value);
  }

  /**
   * A variable name followed directly by a token that cannot be part of a
   * definition (`$x = a;` has `=` there) stores an empty definition, and
   * that token is consumed.
   */
  lemma EmptyDefinition(d: Doc, tokens: seq<TokenInfo>, i: nat)
    requires i + 1 < |tokens| && tokens[i].token.Variable? && !InDefinition(tokens[i + 1].token)
    ensures VariableOutcome(d, tokens, i) ==
      Outcome(d.(variables := d.variables[tokens[i].token.name := []]), i + 2, Ok(()))
  {
    DefinitionEndIs(tokens, i + 1, i + 1);
    assert tokens[i + 1..i + 1] == [];
  }

  /**
   * The body of a set that opened when there were `s0` files: the indices
   * gathered are exactly the files declared since, and the tags gathered
   * are tags of files.
   */
  lemma {:induction false} SetBodyWellFormed(d: Doc, tokens: seq<TokenInfo>, i: nat, openLine: int, store: bool,
                                            indices: seq<nat>, acc: set<Bytes>, s0: nat)
    requires i <= |tokens| && WellFormed(d)
    requires s0 <= |d.files| && indices == Range(s0, |d.files|)
    requires SetsLayout(d.sets, s0) && acc <= FileTags(d.files)
    ensures var o := SetBody(d, tokens, i, openLine, store, indices, acc);
            o.result.Ok? ==>
              && WellFormed(o.doc) && o.doc.sets == d.sets && s0 <= |o.doc.files|
              && o.result.value.0 == Range(s0, |o.doc.files|)
              && o.result.value.1 <= FileTags(o.doc.files)
    decreases |tokens| - i
  {
    if i < |tokens| {
      match tokens[i].token
      case Directive(name) =>
        if name == AUTOTAG {
          SetBodySkip(d, tokens, i, openLine, store, indices, acc);
          SetBodyWellFormed(d, tokens, i + 1, openLine, true, indices, acc, s0);
        }
      case String(_) =>
        var f := FileOutcome(d, tokens, i);
        if f.result.Ok? {
          var acc' := if store then acc + f.doc.files[|d.files|].tags else acc;
          FileInSet(d, tokens, i, store, indices, acc, s0);
          SetBodyFile(d, tokens, i, openLine, store, indices, acc);
          SetBodyWellFormed(f.doc, tokens, f.next, openLine, store, indices + [|d.files|], acc', s0);
        }
      case LineBreak =>
        SetBodySkip(d, tokens, i, openLine, store, indices, acc);
        SetBodyWellFormed(d, tokens, i + 1, openLine, store, indices, acc, s0);
      case _ =>
    }
  }

  /** A set over the files from `n0` to `n` goes after every earlier set. */
  lemma PushSetLayout(sets: seq<Set>, s: Set, n0: nat, n: nat)
    requires SetsLayout(sets, n0) && n0 <= n && s.files == Range(n0, n)
    ensures SetsLayout(sets + [s], n)
  {
    var sets' := sets + [s];
    assert Consecutive(s.files) && Below(s.files, n);
    forall p | 0 <= p < |sets'|
      ensures Consecutive(sets'[p].files) && Below(sets'[p].files, n)
    {
      if p < |sets| {
        assert sets'[p] == sets[p];
      }
    }
    forall p, q, x, y | 0 <= p < q < |sets'| && 0 <= x < |sets'[p].files| && 0 <= y < |sets'[q].files|
      ensures sets'[p].files[x] < sets'[q].files[y]
    {
      assert sets'[p] == sets[p];
      if q == |sets| {
        assert sets[p].files[x] < n0;
      } else {
        assert sets'[q] == sets[q];
      }
    }
  }

  /**
   * A set declaration pushes exactly one set, whose indices are exactly the
   * files declared between its braces.
   */
  lemma SetWellFormed(d: Doc, tokens: seq<TokenInfo>, i: nat)
    requires i < |tokens| && tokens[i].token == SetOpen && WellFormed(d)
    ensures var o := SetOutcome(d, tokens, i);
            o.result.Ok? ==>
              && WellFormed(o.doc)
              && |o.doc.sets| == |d.sets| + 1 && o.doc.sets[..|d.sets|] == d.sets
              && o.doc.sets[|d.sets|].files == Range(|d.files|, |o.doc.files|)
  {
    var o := SetOutcome(d, tokens, i);
    var b := SetBody(d, tokens, i + 1, tokens[i].line, false, [], {});
    SetBodyWellFormed(d, tokens, i + 1, tokens[i].line, false, [], {}, |d.files|);
    if o.result.Ok? {
      var (indices, acc) := b.result.value;
      var t := TagListOutcome(b.doc, tokens, b.next);
      var s := Set(indices, acc + t.result.value);
      var sets' := d.sets + [s];
      assert o.doc == t.doc.(sets := sets');
      assert sets'[..|d.sets|] == d.sets;
      assert SetTags(sets') == SetTags(d.sets) + s.tags;
      PushSetLayout(d.sets, s, |d.files|, |b.doc.files|);
    }
  }

  lemma StepWellFormed(d: Doc, tokens: seq<TokenInfo>, i: nat)
    requires i < |tokens| && WellFormed(d)
    ensures Step(d, tokens, i).result.Ok? ==> WellFormed(Step(d, tokens, i).doc)
  {
    match tokens[i].token
    case Variable(_) =>
    case String(_) => FileWellFormed(d, tokens, i);
    case Directive(_) =>
    case SetOpen => SetWellFormed(d, tokens, i);
    case _ =>
  }

  lemma {:induction false} RunWellFormed(d: Doc, tokens: seq<TokenInfo>, i: nat)
    requires i <= |tokens| && WellFormed(d)
    ensures Run(d, tokens, i).Ok? ==> WellFormed(Run(d, tokens, i).value)
    decreases |tokens| - i
  {
    if i < |tokens| {
      StepWellFormed(d, tokens, i);
      var o := Step(d, tokens, i);
      if o.result.Ok? {
        RunWellFormed(o.doc, tokens, o.next);
      }
    }
  }

  /**
   * Every document `from_tokens` returns is well formed: variables hold only
   * tag operations, `file_set` is the set of the file paths and no path is
   * declared twice, the sets index consecutive runs of existing files in
   * declaration order, and the tag union is that of all file and set tags.
   */
  lemma ParseWellFormed(tokens: seq<TokenInfo>)
    ensures Parse(tokens).Ok? ==> WellFormed(Parse(tokens).value)
  {
    EmptyWellFormed();
    RunWellFormed(Empty, tokens, 0);
  }

  /** No operation on `t` at or after `from`. */
  predicate NotRemovedFrom(ops: seq<Token>, from: nat, t: Bytes)
  {
    forall m :: from <= m < |ops| ==> ops[m] != RemoveTag(t)
  }

  /**
   * Replay keeps `t` exactly when some `AddTag(t)` is not followed by a
   * `RemoveTag(t)`, or `t` was there to start with and is never removed.
   */
  lemma {:induction false} ReplayMembership(acc: set<Bytes>, ops: seq<Token>, t: Bytes)
    ensures t in Replay(acc, ops) <==>
              (exists k :: 0 <= k < |ops| && ops[k] == AddTag(t) && NotRemovedFrom(ops, k + 1, t))
              || (t in acc && NotRemovedFrom(ops, 0, t))
    decreases |ops|
  {
    if ops != [] {
      var n := |ops| - 1;
      var front := ops[..n];
      ReplayMembership(acc, front, t);
      if ops[n] == AddTag(t) {
        assert NotRemovedFrom(ops, n + 1, t);
      } else if ops[n] == RemoveTag(t) {
        assert !NotRemovedFrom(ops, 0, t);
      } else {
        UnrelatedOp(ops, t);
      }
    }
  }

  /** An operation on another tag changes neither side of `ReplayMembership`. */
  lemma UnrelatedOp(ops: seq<Token>, t: Bytes)
    requires ops != [] && ops[|ops| - 1] != AddTag(t) && ops[|ops| - 1] != RemoveTag(t)
    ensures var front := ops[..|ops| - 1];
            && (NotRemovedFrom(ops, 0, t) <==> NotRemovedFrom(front, 0, t))
            && ((exists k :: 0 <= k < |ops| && ops[k] == AddTag(t) && NotRemovedFrom(ops, k + 1, t)) <==>
                (exists k :: 0 <= k < |front| && front[k] == AddTag(t) && NotRemovedFrom(front, k + 1, t)))
  {
    var n := |ops| - 1;
    var front := ops[..n];
    if exists k :: 0 <= k < |ops| && ops[k] == AddTag(t) && NotRemovedFrom(ops, k + 1, t) {
      var k :| 0 <= k < |ops| && ops[k] == AddTag(t) && NotRemovedFrom(ops, k + 1, t);
      assert k < n && front[k] == AddTag(t) && NotRemovedFrom(front, k + 1, t);
    }
    if exists k :: 0 <= k < |front| && front[k] == AddTag(t) && NotRemovedFrom(front, k + 1, t) {
      var k :| 0 <= k < |front| && front[k] == AddTag(t) && NotRemovedFrom(front, k + 1, t);
      assert ops[k] == AddTag(t) && NotRemovedFrom(ops, k + 1, t);
    }
  }

  /** Some `AddTag(t)` in `ops` is not followed by a `RemoveTag(t)`. */
  predicate Survives(ops: seq<Token>, t: Bytes)
  {
    exists k :: 0 <= k < |ops| && ops[k] == AddTag(t) && NotRemovedFrom(ops, k + 1, t)
  }

  /** A tag list resolves to the tags added and not removed afterwards. */
  lemma TagListMembership(d: Doc, tokens: seq<TokenInfo>, i: nat, t: Bytes)
    requires i <= |tokens|
    ensures var o := TagListOutcome(d, tokens, i);
            o.result.Ok? ==>
              (t in o.result.value <==> Survives(Expand(d.variables, tokens[i..TagListEnd(tokens, i)]).value, t))
  {
    var o := TagListOutcome(d, tokens, i);
    if o.result.Ok? {
      var r := Expand(d.variables, tokens[i..TagListEnd(tokens, i)]);
      assert r.Ok? && o.result.value == Replay({}, r.value);
      ReplayMembership({}, r.value, t);
    }
  }

  /**
   * After `@autotag`, the tags of every file declared inside the set body
   * join the tags the body gathers.
   */
  lemma {:induction false} AutotagCollects(d: Doc, tokens: seq<TokenInfo>, i: nat, openLine: int,
                                          indices: seq<nat>, acc: set<Bytes>, s0: nat)
    requires i <= |tokens| && s0 <= |d.files|
    requires forall x :: s0 <= x < |d.files| ==> d.files[x].tags <= acc
    ensures var o := SetBody(d, tokens, i, openLine, true, indices, acc);
            o.result.Ok? ==> forall x :: s0 <= x < |o.doc.files| ==> o.doc.files[x].tags <= o.result.value.1
    decreases |tokens| - i
  {
    if i < |tokens| {
      match tokens[i].token
      case Directive(name) =>
        if name == AUTOTAG {
          SetBodySkip(d, tokens, i, openLine, true, indices, acc);
          AutotagCollects(d, tokens, i + 1, openLine, indices, acc, s0);
        }
      case String(_) =>
        var f := FileOutcome(d, tokens, i);
        if f.result.Ok? {
          var n := |d.files|;
          var acc' := acc + f.doc.files[n].tags;
          assert f.doc.files[..n] == d.files;
          forall x | s0 <= x < |f.doc.files|
            ensures f.doc.files[x].tags <= acc'
          {
            if x < n {
              assert f.doc.files[x] == f.doc.files[..n][x];
            }
          }
          SetBodyFile(d, tokens, i, openLine, true, indices, acc);
          AutotagCollects(f.doc, tokens, f.next, openLine, indices + [n], acc', s0);
        }
      case LineBreak =>
        SetBodySkip(d, tokens, i, openLine, true, indices, acc);
        AutotagCollects(d, tokens, i + 1, openLine, indices, acc, s0);
      case _ =>
    }
  }

  /**
   * A definition fails exactly when its run holds an undefined variable,
   * naming the first one and citing its line; otherwise the name's value
   * becomes the expansion, the other variables are kept, and the token
   * that ends the run is consumed.
   */
  lemma VariableDefines(d: Doc, tokens: seq<TokenInfo>, i: nat)
    requires i < |tokens| && tokens[i].token.Variable?
    ensures var j := DefinitionEnd(tokens, i + 1);
            var o := VariableOutcome(d, tokens, i);
            && (o.result.Ok? <==> forall k :: i + 1 <= k < j ==> !Undefined(d.variables, tokens[k]))
            && (o.result.Err? ==>
                  exists k :: i + 1 <= k < j && Undefined(d.variables, tokens[k])
                              && (forall m :: i + 1 <= m < k ==> !Undefined(d.variables, tokens[m]))
                              && o.result.error == UndefinedVariable(tokens[k].line, tokens[k].token.name))
            && (o.result.Ok? ==>
                  && o.next == (if j < |tokens| then j + 1 else j)
                  && tokens[i].token.name in o.doc.variables
                  && forall v :: v != tokens[i].token.name && v in d.variables ==>
                       v in o.doc.variables && o.doc.variables[v] == d.variables[v])
  {
    ExpandFails(d.variables, tokens, i + 1, DefinitionEnd(tokens, i + 1));
  }

  /**
   * Inside a set body, a directive other than `@autotag` fails citing its
   * own line, and a token of any other unexpected kind fails citing the
   * line of the `{` (`openLine`).
   */
  lemma SetBodyRejects(d: Doc, tokens: seq<TokenInfo>, i: nat, openLine: int, store: bool,
                       indices: seq<nat>, acc: set<Bytes>)
    requires i < |tokens|
    ensures var t := tokens[i].token;
            t.Directive? && t.name != AUTOTAG ==>
              SetBody(d, tokens, i, openLine, store, indices, acc) == Outcome(d, i, Err(UnexpectedDirective(tokens[i].line, t.name)))
    ensures var t := tokens[i].token;
            !(t.String? || t.LineBreak? || t == SetClose || t.Directive?) ==>
              SetBody(d, tokens, i, openLine, store, indices, acc) == Outcome(d, i, Err(UnexpectedToken(openLine, t)))
  {
  }

  /** Right after `{`: an unexpected token cites the line of the `{`, a foreign directive its own line. */
  lemma SetRejectsAfterOpen(d: Doc, tokens: seq<TokenInfo>, i: nat)
    requires i + 1 < |tokens| && tokens[i].token == SetOpen
    ensures var t := tokens[i + 1].token;
            t.Directive? && t.name != AUTOTAG ==>
              SetOutcome(d, tokens, i).result == Err(UnexpectedDirective(tokens[i + 1].line, t.name))
    ensures var t := tokens[i + 1].token;
            !(t.String? || t.LineBreak? || t == SetClose || t.Directive?) ==>
              SetOutcome(d, tokens, i).result == Err(UnexpectedToken(tokens[i].line, t))
  {
    SetBodyRejects(d, tokens, i + 1, tokens[i].line, false, [], {});
  }

  /** The first `}` at or after `j`, or the end. */
  function FirstClose(tokens: seq<TokenInfo>, j: nat): (c: nat)
    requires j <= |tokens|
    ensures j <= c <= |tokens|
    ensures forall k :: j <= k < c ==> tokens[k].token != SetClose
    ensures c == |tokens| || tokens[c].token == SetClose
    decreases |tokens| - j
  {
    if j == |tokens| || tokens[j].token == SetClose then j else FirstClose(tokens, j + 1)
  }

  /** The first `@autotag` in `[j, c)`, or `c`. */
  function FirstAutotag(tokens: seq<TokenInfo>, j: nat, c: nat): (a: nat)
    requires j <= c <= |tokens|
    ensures j <= a <= c
    ensures forall k :: j <= k < a ==> tokens[k].token != Directive(AUTOTAG)
    ensures a == c || tokens[a].token == Directive(AUTOTAG)
    decreases c - j
  {
    if j == c || tokens[j].token == Directive(AUTOTAG) then j else FirstAutotag(tokens, j + 1, c)
  }

  /** The number of `String` tokens in `[lo, hi)`. */
  function CountStrings(tokens: seq<TokenInfo>, lo: nat, hi: nat): nat
    requires lo <= hi <= |tokens|
    decreases hi - lo
  {
    if lo == hi then 0 else (if tokens[lo].token.String? then 1 else 0) + CountStrings(tokens, lo + 1, hi)
  }

  lemma {:induction false} CloseSkip(tokens: seq<TokenInfo>, lo: nat, mid: nat)
    requires lo <= mid <= |tokens|
    requires forall k :: lo <= k < mid ==> InTagList(tokens[k].token)
    ensures FirstClose(tokens, lo) == FirstClose(tokens, mid)
    decreases mid - lo
  {
    if lo < mid {
      CloseSkip(tokens, lo + 1, mid);
    }
  }

  lemma {:induction false} AutotagSkip(tokens: seq<TokenInfo>, lo: nat, mid: nat, c: nat)
    requires lo <= mid <= c <= |tokens|
    requires forall k :: lo <= k < mid ==> InTagList(tokens[k].token)
    ensures FirstAutotag(tokens, lo, c) == FirstAutotag(tokens, mid, c)
    decreases mid - lo
  {
    if lo < mid {
      AutotagSkip(tokens, lo + 1, mid, c);
    }
  }

  lemma {:induction false} CountSkip(tokens: seq<TokenInfo>, lo: nat, mid: nat, h: nat)
    requires lo <= mid <= h <= |tokens|
    requires forall k :: lo <= k < mid ==> InTagList(tokens[k].token)
    ensures CountStrings(tokens, lo, h) == CountStrings(tokens, mid, h)
    decreases mid - lo
  {
    if lo < mid {
      CountSkip(tokens, lo + 1, mid, h);
    }
  }

  lemma {:induction false} FileTagsFront(files: seq<File>)
    requires files != []
    ensures FileTags(files) == files[0].tags + FileTags(files[1..])
    decreases |files|
  {
    if |files| > 1 {
      var front := files[..|files| - 1];
      FileTagsFront(front);
      assert front[1..] == files[1..][..|files[1..]| - 1];
    } else {
      assert files[1..] == [];
      assert files[..0] == [];
    }
  }

  /** A file declared in a set body, in the terms of `SetBodyTags`. */
  lemma FileStep(d: Doc, tokens: seq<TokenInfo>, j: nat)
    requires j < |tokens| && tokens[j].token.String?
    ensures var f := FileOutcome(d, tokens, j);
            var c := FirstClose(tokens, j);
            f.result.Ok? ==>
              && j < FirstAutotag(tokens, j, c) && f.next <= FirstAutotag(tokens, j, c)
              && FirstClose(tokens, f.next) == c
              && FirstAutotag(tokens, f.next, c) == FirstAutotag(tokens, j, c)
              && CountStrings(tokens, j, c) == 1 + CountStrings(tokens, f.next, c)
              && CountStrings(tokens, j, FirstAutotag(tokens, j, c)) == 1 + CountStrings(tokens, f.next, FirstAutotag(tokens, j, c))
  {
    var f := FileOutcome(d, tokens, j);
    if f.result.Ok? {
      var c := FirstClose(tokens, j);
      assert FirstClose(tokens, j) == FirstClose(tokens, j + 1);
      CloseSkip(tokens, j + 1, f.next);
      assert FirstAutotag(tokens, j, c) == FirstAutotag(tokens, j + 1, c);
      AutotagSkip(tokens, j + 1, f.next, c);
      var a := FirstAutotag(tokens, j, c);
      CountSkip(tokens, j + 1, f.next, c);
      CountSkip(tokens, j + 1, f.next, a);
    }
  }

  /** The tags of the files from `n` on, when the file `n` is followed by the files from `n + 1` on. */
  lemma TagsFrom(files: seq<File>, n: nat)
    requires n < |files|
    ensures FileTags(files[n..]) == files[n].tags + FileTags(files[n + 1..])
  {
    FileTagsFront(files[n..]);
    assert files[n..][1..] == files[n + 1..];
  }

  /**
   * What a set body from `j` leaves when it succeeds: it has read up to the
   * first `}` (and consumed it); one file is declared per `String` token
   * before it; and the tags gathered are `acc` plus those of the files
   * declared after the first `@autotag`, or of all of them once `store` is on.
   */
  ghost predicate BodyTags(n: nat, tokens: seq<TokenInfo>, j: nat, store: bool, acc: set<Bytes>,
                           o: Outcome<(seq<nat>, set<Bytes>)>)
    requires j <= |tokens|
  {
    var c := FirstClose(tokens, j);
    var m := if store then n else n + CountStrings(tokens, j, FirstAutotag(tokens, j, c));
    o.result.Ok? ==>
      && o.next == (if c < |tokens| then c + 1 else c)
      && |o.doc.files| == n + CountStrings(tokens, j, c)
      && m <= |o.doc.files|
      && o.result.value.1 == acc + FileTags(o.doc.files[m..])
  }

  /** `BodyTags` across a line break or `@autotag`. */
  lemma SkipTags(d: Doc, tokens: seq<TokenInfo>, j: nat, openLine: int, store: bool,
                 indices: seq<nat>, acc: set<Bytes>)
    requires j < |tokens| && (tokens[j].token == LineBreak || tokens[j].token == Directive(AUTOTAG))
    requires var store' := store || tokens[j].token.Directive?;
             BodyTags(|d.files|, tokens, j + 1, store', acc, SetBody(d, tokens, j + 1, openLine, store', indices, acc))
    ensures BodyTags(|d.files|, tokens, j, store, acc, SetBody(d, tokens, j, openLine, store, indices, acc))
  {
    SetBodySkip(d, tokens, j, openLine, store, indices, acc);
    var c := FirstClose(tokens, j);
    assert c == FirstClose(tokens, j + 1);
    assert CountStrings(tokens, j, c) == CountStrings(tokens, j + 1, c);
    if tokens[j].token == LineBreak {
      assert FirstAutotag(tokens, j, c) == FirstAutotag(tokens, j + 1, c);
      assert CountStrings(tokens, j, FirstAutotag(tokens, j, c)) == CountStrings(tokens, j + 1, FirstAutotag(tokens, j, c));
    } else {
      assert FirstAutotag(tokens, j, c) == j;
    }
  }

  /**
   * `BodyTags` across a file declaration, stated for the file list `files`
   * the declaration leaves (`n` files before it, one after) and the cursor
   * `next` after its tag list.
   */
  lemma FileShift(tokens: seq<TokenInfo>, j: nat, next: nat, store: bool, acc: set<Bytes>, n: nat,
                  files: seq<File>, o: Outcome<(seq<nat>, set<Bytes>)>)
    requires j < next <= |tokens|
    requires var c := FirstClose(tokens, j);
             && next <= FirstAutotag(tokens, j, c)
             && FirstClose(tokens, next) == c
             && FirstAutotag(tokens, next, c) == FirstAutotag(tokens, j, c)
             && CountStrings(tokens, j, c) == 1 + CountStrings(tokens, next, c)
             && CountStrings(tokens, j, FirstAutotag(tokens, j, c)) == 1 + CountStrings(tokens, next, FirstAutotag(tokens, j, c))
    requires |files| == n + 1 && files <= o.doc.files
    requires BodyTags(n + 1, tokens, next, store, if store then acc + files[n].tags else acc, o)
    ensures BodyTags(n, tokens, j, store, acc, o)
  {
    if o.result.Ok? && store {
      assert o.doc.files[n] == files[n];
      TagsFrom(o.doc.files, n);
    }
  }

  /** `BodyTags` across a file declaration, with the rest of the body by `SetBodyTags`. */
  lemma {:induction false} FileTagsStep(d: Doc, tokens: seq<TokenInfo>, j: nat, openLine: int, store: bool,
                                       indices: seq<nat>, acc: set<Bytes>)
    requires j < |tokens| && tokens[j].token.String?
    ensures BodyTags(|d.files|, tokens, j, store, acc, SetBody(d, tokens, j, openLine, store, indices, acc))
    decreases |tokens| - j, 0
  {
    var f := FileOutcome(d, tokens, j);
    if f.result.Ok? {
      var n := |d.files|;
      var acc' := if store then acc + f.doc.files[n].tags else acc;
      SetBodyTags(f.doc, tokens, f.next, openLine, store, indices + [n], acc');
      FileStep(d, tokens, j);
      SetBodyFile(d, tokens, j, openLine, store, indices, acc);
      var o := SetBody(f.doc, tokens, f.next, openLine, store, indices + [n], acc');
      FileShift(tokens, j, f.next, store, acc, n, f.doc.files, o);
    }
  }

  lemma {:induction false} SetBodyTags(d: Doc, tokens: seq<TokenInfo>, j: nat, openLine: int, store: bool,
                                      indices: seq<nat>, acc: set<Bytes>)
    requires j <= |tokens|
    ensures BodyTags(|d.files|, tokens, j, store, acc, SetBody(d, tokens, j, openLine, store, indices, acc))
    decreases |tokens| - j, 1
  {
    if j == |tokens| || tokens[j].token == SetClose {
      var o := SetBody(d, tokens, j, openLine, store, indices, acc);
      assert o.doc.files[|d.files|..] == [];
    } else if tokens[j].token == LineBreak || tokens[j].token == Directive(AUTOTAG) {
      SetBodyTags(d, tokens, j + 1, openLine, store || tokens[j].token.Directive?, indices, acc);
      SkipTags(d, tokens, j, openLine, store, indices, acc);
    } else if tokens[j].token.String? {
      FileTagsStep(d, tokens, j, openLine, store, indices, acc);
    } else {
      assert SetBody(d, tokens, j, openLine, store, indices, acc).result.Err?;
    }
  }

  /** Where a set body from `j` ends: just after the first `}`, or at the end of the tokens. */
  function BodyEnd(tokens: seq<TokenInfo>, j: nat): nat
    requires j <= |tokens|
  {
    var c := FirstClose(tokens, j);
    if c < |tokens| then c + 1 else c
  }

  /** The number of files a set body from `j` declares. */
  function BodyFiles(tokens: seq<TokenInfo>, j: nat): nat
    requires j <= |tokens|
  {
    CountStrings(tokens, j, FirstClose(tokens, j))
  }

  /** The number of files a set body from `j` declares before its first `@autotag`. */
  function FilesBeforeAutotag(tokens: seq<TokenInfo>, j: nat): nat
    requires j <= |tokens|
  {
    CountStrings(tokens, j, FirstAutotag(tokens, j, FirstClose(tokens, j)))
  }

  /** The operations of the tag list at `e`. */
  function TrailingOps(vars: map<Bytes, seq<Token>>, tokens: seq<TokenInfo>, e: nat): Result<seq<Token>, ParseError>
    requires e <= |tokens|
  {
    Expand(vars, tokens[e..TagListEnd(tokens, e)])
  }

  /**
   * The tags of a pushed set: those of the files declared between its
   * braces after the first `@autotag` (none without one), plus the tags of
   * the tag list after the `}`.
   */
  lemma SetTagsAre(d: Doc, tokens: seq<TokenInfo>, i: nat)
    requires i < |tokens| && tokens[i].token == SetOpen
    ensures var o := SetOutcome(d, tokens, i);
            o.result.Ok? ==>
              && |o.doc.sets| == |d.sets| + 1
              && |o.doc.files| == |d.files| + BodyFiles(tokens, i + 1)
              && |d.files| + FilesBeforeAutotag(tokens, i + 1) <= |o.doc.files|
              && TrailingOps(d.variables, tokens, BodyEnd(tokens, i + 1)).Ok?
              && o.doc.sets[|d.sets|].tags ==
                   FileTags(o.doc.files[|d.files| + FilesBeforeAutotag(tokens, i + 1)..])
                   + Replay({}, TrailingOps(d.variables, tokens, BodyEnd(tokens, i + 1)).value)
  {
    var b := SetBody(d, tokens, i + 1, tokens[i].line, false, [], {});
    SetBodyTags(d, tokens, i + 1, tokens[i].line, false, [], {});
    assert BodyTags(|d.files|, tokens, i + 1, false, {}, b);
    PushedSet(d, tokens, i);
  }

  /** What `SetOutcome` pushes, in terms of the body's outcome `b` and the trailing tag list's `t`. */
  lemma PushedSet(d: Doc, tokens: seq<TokenInfo>, i: nat)
    requires i < |tokens| && tokens[i].token == SetOpen
    ensures var o := SetOutcome(d, tokens, i);
            var b := SetBody(d, tokens, i + 1, tokens[i].line, false, [], {});
            o.result.Ok? ==>
              && b.result.Ok? && b.next <= |tokens|
              && var t := TagListOutcome(b.doc, tokens, b.next);
                 && t.result.Ok? && b.doc.variables == d.variables
                 && o.doc.files == b.doc.files
                 && t.result.value == Replay({}, TrailingOps(d.variables, tokens, b.next).value)
                 && TrailingOps(d.variables, tokens, b.next).Ok?
                 && o.doc.sets == d.sets + [Set(b.result.value.0, b.result.value.1 + t.result.value)]
  {
  }
}
