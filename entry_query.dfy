/**
 * The SQL condition builder of the gallery search (`EntryQuery` in
 * src/database/models.rs): a search becomes a `where` condition with `?`
 * placeholders and the list of values bound to them, in order.
 */
module EntryQueries {
  import opened Wrappers
  import opened Text

  /** The search filters; timestamps are Unix seconds. */
  datatype EntryQuery = EntryQuery(
    tagsIncluded: seq<int>,
    tagsExcluded: seq<int>,
    createdAfter: Option<int>,
    createdBefore: Option<int>,
    updatedAfter: Option<int>,
    updatedBefore: Option<int>,
    isSet: bool,
    isFile: bool,
    untagged: bool,
    includeSetFiles: bool)

  /** `EntryQuery::default()`. */
  const Default: EntryQuery := EntryQuery([], [], None, None, None, None, false, false, false, false)

  datatype EntryQueryParam = String(s: string) | Int(i: int)

  // The condition texts keep the line breaks and indentation of the formatted
  // strings they model, written piece by piece.

  /** The text of the tag-inclusion condition around its placeholder list. */
  const IncludeHead: string :=
    "exists (\n"
    + "                        "
    + "select 1\n"
    + "                        "
    + "from entry_tag et\n"
    + "                        "
    + "where et.entry_id = e.entry_id\n"
    + "                        "
    + "and et.tag_id in "
  const IncludeTail: string :=
    "\n"
    + "                        "
    + "group by et.entry_id\n"
    + "                        "
    + "having count(distict et.tag_id) = 3\n"
    + "                    "
    + ")"
  /** The text of the tag-exclusion condition around its placeholder list. */
  const ExcludeHead: string :=
    "not exists (\n"
    + "                    "
    + "select 1\n"
    + "                    "
    + "from entry_tag et\n"
    + "                    "
    + "where et.entry_id = e.entry_id\n"
    + "                    "
    + "and et.tag_id in "
  const ExcludeTail: string :=
    "\n"
    + "                "
    + ")"
  const UntaggedCondition: string :=
    "not exists (\n"
    + "                        "
    + "select 1 from entry_tag et\n"
    + "                        "
    + "where et.entry_id = e.entry_id\n"
    + "                "
    + ")"
  const NotInSet: string := "e.parent_set is null"

  /** `n` copies of "?". */
  function Questions(n: nat): (qs: seq<string>)
    ensures |qs| == n && forall k :: 0 <= k < n ==> qs[k] == "?"
  {
    if n == 0 then [] else Questions(n - 1) + ["?"]
  }

  /** A parenthesised, comma-separated list of `number` placeholders; "()" when `number < 1`. */
  function Placeholders(number: int): string
  {
    "(" + Join(Questions(if number < 1 then 0 else number), ",") + ")"
  }

  /** One condition of the `where` clause, with the values its placeholders take. */
  datatype Condition = Condition(sql: string, params: seq<EntryQueryParam>)

  function Ints(ids: seq<int>): (ps: seq<EntryQueryParam>)
    ensures |ps| == |ids| && forall k :: 0 <= k < |ids| ==> ps[k] == Int(ids[k])
  {
    if ids == [] then [] else Ints(ids[..|ids| - 1]) + [Int(ids[|ids| - 1])]
  }

  function TimeCondition(t: Option<int>, sql: string): seq<Condition>
  {
    match t
    case None => []
    case Some(v) => [Condition(sql, [Int(v)])]
  }

  function IncludeCondition(ids: seq<int>): Condition
  {
    Condition(IncludeHead + Placeholders(|ids|) + IncludeTail, Ints(ids))
  }

  function ExcludeCondition(ids: seq<int>): Condition
  {
    Condition(ExcludeHead + Placeholders(|ids|) + ExcludeTail, Ints(ids))
  }

  function IncludePart(q: EntryQuery): seq<Condition>
  {
    if |q.tagsIncluded| > 0 then [IncludeCondition(q.tagsIncluded)] else []
  }

  function ExcludePart(q: EntryQuery): seq<Condition>
  {
    if |q.tagsExcluded| > 0 then [ExcludeCondition(q.tagsExcluded)] else []
  }

  function FlagCondition(on: bool, sql: string): seq<Condition>
  {
    if on then [Condition(sql, [])] else []
  }

  /** The tag conditions: inclusion, then exclusion. */
  function TagPart(q: EntryQuery): seq<Condition>
  {
    IncludePart(q) + ExcludePart(q)
  }

  /** The time-range conditions, each carrying its timestamp. */
  function TimePart(q: EntryQuery): seq<Condition>
  {
    TimeCondition(q.createdAfter, "e.time_created > ?")
    + TimeCondition(q.createdBefore, "e.time_created < ?")
    + TimeCondition(q.updatedAfter, "e.time_updated > ?")
    + TimeCondition(q.updatedBefore, "e.time_updated < ?")
  }

  /** The conditions that take no value. */
  function FlagPart(q: EntryQuery): seq<Condition>
  {
    FlagCondition(q.isSet, "e.entry_type = 2")
    + FlagCondition(q.isFile, "e.entry_type = 1")
    + FlagCondition(q.untagged, UntaggedCondition)
    + FlagCondition(!q.includeSetFiles, NotInSet)
  }

  /** The enabled conditions, one per filter in use, in the order `generate_query` considers them. */
  function Conditions(q: EntryQuery): seq<Condition>
  {
    TagPart(q) + TimePart(q) + FlagPart(q)
  }

  function SqlOf(cs: seq<Condition>): (parts: seq<string>)
    ensures |parts| == |cs| && forall k :: 0 <= k < |cs| ==> parts[k] == cs[k].sql
  {
    if cs == [] then [] else SqlOf(cs[..|cs| - 1]) + [cs[|cs| - 1].sql]
  }

  function ParamsOf(cs: seq<Condition>): seq<EntryQueryParam>
  {
    if cs == [] then [] else ParamsOf(cs[..|cs| - 1]) + cs[|cs| - 1].params
  }

  lemma {:induction false} Emit(cs: seq<Condition>, more: seq<Condition>)
    ensures SqlOf(cs + more) == SqlOf(cs) + SqlOf(more)
    ensures ParamsOf(cs + more) == ParamsOf(cs) + ParamsOf(more)
    decreases |more|
  {
    if more == [] {
      assert cs + more == cs;
    } else {
      var front := more[..|more| - 1];
      assert (cs + more)[..|cs + more| - 1] == cs + front;
      Emit(cs, front);
    }
  }

  /** Emitting the text of `cs` and then of `more` emits the text of `cs + more`. */
  lemma SqlStage(parts: seq<string>, cs: seq<Condition>, more: seq<Condition>, parts': seq<string>)
    requires parts' == parts + SqlOf(cs) + SqlOf(more)
    ensures parts' == parts + SqlOf(cs + more)
  {
    Emit(cs, more);
  }

  /** Binding the values of `cs` and then of `more` binds the values of `cs + more`. */
  lemma ParamsStage(params: seq<EntryQueryParam>, cs: seq<Condition>, more: seq<Condition>, params': seq<EntryQueryParam>)
    requires params' == params + ParamsOf(cs) + ParamsOf(more)
    ensures params' == params + ParamsOf(cs + more)
  {
    Emit(cs, more);
  }

  /** `question_mark_list`. */
  method QuestionMarkList(number: int) returns (s: string)
    ensures s == Placeholders(number)
  {
    if number < 1 {
      return "()";
    }
    s := "(?";
    assert Questions(1) == ["?"];
    var i := 1;
    while i < number
      invariant 1 <= i <= number
      invariant s == "(" + Join(Questions(i), ",")
    {
      JoinSnoc(Questions(i), ",", "?");
      s := s + ",?";
      i := i + 1;
    }
    s := s + ")";
  }

  /** `for id in ids { params.push(EntryQueryParam::Int(*id)) }`. */
  method PushIds(params: seq<EntryQueryParam>, ids: seq<int>) returns (r: seq<EntryQueryParam>)
    ensures r == params + Ints(ids)
  {
    r := params;
    var k := 0;
    while k < |ids|
      invariant k <= |ids|
      invariant r == params + Ints(ids[..k])
    {
      assert ids[..k + 1][..k] == ids[..k];
      r := r + [Int(ids[k])];
      k := k + 1;
    }
    assert ids[..k] == ids;
  }

  /** The first two blocks of `generate_query`: the tag conditions and their ids. */
  method TagConditions(q: EntryQuery) returns (queryParts: seq<string>, params: seq<EntryQueryParam>)
    ensures queryParts == SqlOf(TagPart(q)) && params == ParamsOf(TagPart(q))
  {
    queryParts := [];
    params := [];
    if |q.tagsIncluded| > 0 {
      params := PushIds(params, q.tagsIncluded);
      var list := QuestionMarkList(|q.tagsIncluded|);
      queryParts := queryParts + [IncludeHead + list + IncludeTail];
    }
    assert queryParts == SqlOf(IncludePart(q)) && params == ParamsOf(IncludePart(q));
    if |q.tagsExcluded| > 0 {
      params := PushIds(params, q.tagsExcluded);
      var list := QuestionMarkList(|q.tagsExcluded|);
      queryParts := queryParts + [ExcludeHead + list + ExcludeTail];
    }
    Emit(IncludePart(q), ExcludePart(q));
  }

  /** Appends one time condition when its bound is present. */
  method PushTime(queryParts: seq<string>, params: seq<EntryQueryParam>, t: Option<int>, sql: string)
    returns (parts': seq<string>, params': seq<EntryQueryParam>)
    ensures parts' == queryParts + SqlOf(TimeCondition(t, sql))
    ensures params' == params + ParamsOf(TimeCondition(t, sql))
  {
    parts', params' := queryParts, params;
    if t.Some? {
      params' := params' + [Int(t.value)];
      parts' := parts' + [sql];
    }
  }

  /** The four time-range blocks of `generate_query`. */
  method TimeConditions(q: EntryQuery, queryParts: seq<string>, params: seq<EntryQueryParam>)
    returns (parts': seq<string>, params': seq<EntryQueryParam>)
    ensures parts' == queryParts + SqlOf(TimePart(q))
    ensures params' == params + ParamsOf(TimePart(q))
  {
    ghost var a := TimeCondition(q.createdAfter, "e.time_created > ?");
    ghost var b := TimeCondition(q.createdBefore, "e.time_created < ?");
    ghost var c := TimeCondition(q.updatedAfter, "e.time_updated > ?");
    ghost var d := TimeCondition(q.updatedBefore, "e.time_updated < ?");
    var p1, q1 := PushTime(queryParts, params, q.createdAfter, "e.time_created > ?");
    var p2, q2 := PushTime(p1, q1, q.createdBefore, "e.time_created < ?");
    SqlStage(queryParts, a, b, p2);
    ParamsStage(params, a, b, q2);
    var p3, q3 := PushTime(p2, q2, q.updatedAfter, "e.time_updated > ?");
    SqlStage(queryParts, a + b, c, p3);
    ParamsStage(params, a + b, c, q3);
    parts', params' := PushTime(p3, q3, q.updatedBefore, "e.time_updated < ?");
    SqlStage(queryParts, a + b + c, d, parts');
    ParamsStage(params, a + b + c, d, params');
  }

  /** Appends one value-free condition when its flag is on. */
  method PushFlag(queryParts: seq<string>, on: bool, sql: string) returns (parts': seq<string>)
    ensures parts' == queryParts + SqlOf(FlagCondition(on, sql))
  {
    parts' := queryParts;
    if on {
      parts' := parts' + [sql];
    }
  }

  /** No flag condition takes a value. */
  lemma FlagParamsEmpty(q: EntryQuery)
    ensures ParamsOf(FlagPart(q)) == []
  {
    var a := FlagCondition(q.isSet, "e.entry_type = 2");
    var b := FlagCondition(q.isFile, "e.entry_type = 1");
    var c := FlagCondition(q.untagged, UntaggedCondition);
    var d := FlagCondition(!q.includeSetFiles, NotInSet);
    Emit(a, b);
    Emit(a + b, c);
    Emit(a + b + c, d);
  }

  /** The four flag blocks of `generate_query`. */
  method FlagConditions(q: EntryQuery, queryParts: seq<string>) returns (parts': seq<string>)
    ensures parts' == queryParts + SqlOf(FlagPart(q))
  {
    ghost var a := FlagCondition(q.isSet, "e.entry_type = 2");
    ghost var b := FlagCondition(q.isFile, "e.entry_type = 1");
    ghost var c := FlagCondition(q.untagged, UntaggedCondition);
    ghost var d := FlagCondition(!q.includeSetFiles, NotInSet);
    var p1 := PushFlag(queryParts, q.isSet, "e.entry_type = 2");
    var p2 := PushFlag(p1, q.isFile, "e.entry_type = 1");
    SqlStage(queryParts, a, b, p2);
    var p3 := PushFlag(p2, q.untagged, UntaggedCondition);
    SqlStage(queryParts, a + b, c, p3);
    parts' := PushFlag(p3, !q.includeSetFiles, NotInSet);
    SqlStage(queryParts, a + b + c, d, parts');
  }

  /** `generate_query`: the conditions joined with " and ", and their values in order. */
  method GenerateQuery(q: EntryQuery) returns (condition: string, params: seq<EntryQueryParam>)
    ensures condition == Join(SqlOf(Conditions(q)), " and ")
    ensures params == ParamsOf(Conditions(q))
  {
    var queryParts;
    queryParts, params := TagConditions(q);
    queryParts, params := TimeConditions(q, queryParts, params);
    queryParts := FlagConditions(q, queryParts);
    Emit(TagPart(q), TimePart(q));
    Emit(TagPart(q) + TimePart(q), FlagPart(q));
    FlagParamsEmpty(q);
    condition := Join(queryParts, " and ");
  }

  /** The value bound for an optional timestamp: one `Int`, or none. */
  function OptInt(t: Option<int>): seq<EntryQueryParam>
  {
    if t.Some? then [Int(t.value)] else []
  }

  /** A condition whose placeholders and values agree in number. */
  predicate Balanced(c: Condition)
  {
    CountChar(c.sql, '?') == |c.params|
  }

  lemma {:induction false} QuestionsCount(n: nat)
    ensures SumCounts(Questions(n), '?') == n
  {
    if n > 0 {
      QuestionsCount(n - 1);
      SumCountsAppend(Questions(n - 1), ["?"], '?');
      assert ["?"][1..] == [];
    }
  }

  /** `question_mark_list(n)` holds `n` placeholders, none when `n < 1`. */
  lemma PlaceholdersCount(number: int)
    ensures CountChar(Placeholders(number), '?') == if number < 1 then 0 else number
  {
    var k := if number < 1 then 0 else number;
    var body := Join(Questions(k), ",");
    CountCharJoin(Questions(k), ",", '?');
    QuestionsCount(k);
    CountCharAppend("(" + body, ")", '?');
    CountCharAppend("(", body, '?');
  }

  /** For `n >= 1` the list is "(?" followed by `n - 1` copies of ",?" and then ")". */
  lemma {:induction false} PlaceholdersShape(number: int)
    ensures number < 1 ==> Placeholders(number) == "()"
    ensures number >= 1 ==> |Placeholders(number)| == 2 * number + 1
    ensures number >= 1 ==> forall k :: 1 <= k < 2 * number ==>
      Placeholders(number)[k] == if k % 2 == 1 then '?' else ','
  {
    if number >= 1 {
      QuestionsJoin(number);
    }
  }

  lemma {:induction false} QuestionsJoin(n: nat)
    requires n >= 1
    ensures |Join(Questions(n), ",")| == 2 * n - 1
    ensures forall k :: 0 <= k < 2 * n - 1 ==> Join(Questions(n), ",")[k] == if k % 2 == 0 then '?' else ','
  {
    if n == 1 {
      assert Questions(1) == ["?"];
    } else {
      QuestionsJoin(n - 1);
      JoinSnoc(Questions(n - 1), ",", "?");
    }
  }

  lemma MarkFreeAppend(a: string, b: string)
    requires '?' !in a && '?' !in b
    ensures '?' !in a + b
  {
  }

  // The fixed condition texts hold no placeholder.

  lemma IncludeHeadFree()
    ensures '?' !in IncludeHead
  {
    var t := "exists (\n";
    MarkFreeAppend(t, "                        ");
    t := t + "                        ";
    MarkFreeAppend(t, "select 1\n");
    t := t + "select 1\n";
    MarkFreeAppend(t, "                        ");
    t := t + "                        ";
    MarkFreeAppend(t, "from entry_tag et\n");
    t := t + "from entry_tag et\n";
    MarkFreeAppend(t, "                        ");
    t := t + "                        ";
    MarkFreeAppend(t, "where et.entry_id = e.entry_id\n");
    t := t + "where et.entry_id = e.entry_id\n";
    MarkFreeAppend(t, "                        ");
    t := t + "                        ";
    MarkFreeAppend(t, "and et.tag_id in ");
    t := t + "and et.tag_id in ";
  }

  lemma IncludeTailFree()
    ensures '?' !in IncludeTail
  {
    var t := "\n";
    MarkFreeAppend(t, "                        ");
    t := t + "                        ";
    MarkFreeAppend(t, "group by et.entry_id\n");
    t := t + "group by et.entry_id\n";
    MarkFreeAppend(t, "                        ");
    t := t + "                        ";
    MarkFreeAppend(t, "having count(distict et.tag_id) = 3\n");
    t := t + "having count(distict et.tag_id) = 3\n";
    MarkFreeAppend(t, "                    ");
    t := t + "                    ";
    MarkFreeAppend(t, ")");
    t := t + ")";
  }

  lemma ExcludeHeadFree()
    ensures '?' !in ExcludeHead
  {
    var t := "not exists (\n";
    MarkFreeAppend(t, "                    ");
    t := t + "                    ";
    MarkFreeAppend(t, "select 1\n");
    t := t + "select 1\n";
    MarkFreeAppend(t, "                    ");
    t := t + "                    ";
    MarkFreeAppend(t, "from entry_tag et\n");
    t := t + "from entry_tag et\n";
    MarkFreeAppend(t, "                    ");
    t := t + "                    ";
    MarkFreeAppend(t, "where et.entry_id = e.entry_id\n");
    t := t + "where et.entry_id = e.entry_id\n";
    MarkFreeAppend(t, "                    ");
    t := t + "                    ";
    MarkFreeAppend(t, "and et.tag_id in ");
    t := t + "and et.tag_id in ";
  }

  lemma ExcludeTailFree()
    ensures '?' !in ExcludeTail
  {
    var t := "\n";
    MarkFreeAppend(t, "                ");
    t := t + "                ";
    MarkFreeAppend(t, ")");
    t := t + ")";
  }

  lemma UntaggedConditionFree()
    ensures '?' !in UntaggedCondition
  {
    var t := "not exists (\n";
    MarkFreeAppend(t, "                        ");
    t := t + "                        ";
    MarkFreeAppend(t, "select 1 from entry_tag et\n");
    t := t + "select 1 from entry_tag et\n";
    MarkFreeAppend(t, "                        ");
    t := t + "                        ";
    MarkFreeAppend(t, "where et.entry_id = e.entry_id\n");
    t := t + "where et.entry_id = e.entry_id\n";
    MarkFreeAppend(t, "                ");
    t := t + "                ";
    MarkFreeAppend(t, ")");
    t := t + ")";
  }

  lemma InsertionBalanced(head: string, tail: string, ids: seq<int>)
    requires '?' !in head && '?' !in tail
    ensures Balanced(Condition(head + Placeholders(|ids|) + tail, Ints(ids)))
  {
    PlaceholdersCount(|ids|);
    CountCharAppend(head + Placeholders(|ids|), tail, '?');
    CountCharAppend(head, Placeholders(|ids|), '?');
    CountCharAbsent(head, '?');
    CountCharAbsent(tail, '?');
  }

  lemma TrailingMark(head: string, s: string)
    requires s == head + "?" && '?' !in head
    ensures CountChar(s, '?') == 1
  {
    CountCharAppend(head, "?", '?');
    CountCharAbsent(head, '?');
  }

  predicate AllBalanced(cs: seq<Condition>)
  {
    forall i :: 0 <= i < |cs| ==> Balanced(cs[i])
  }

  lemma BalancedAppend(a: seq<Condition>, b: seq<Condition>)
    requires AllBalanced(a) && AllBalanced(b)
    ensures AllBalanced(a + b)
  {
    assert forall i :: |a| <= i < |a + b| ==> (a + b)[i] == b[i - |a|];
  }

  lemma TagBalanced(q: EntryQuery)
    ensures AllBalanced(TagPart(q))
  {
    IncludeHeadFree();
    IncludeTailFree();
    ExcludeHeadFree();
    ExcludeTailFree();
    InsertionBalanced(IncludeHead, IncludeTail, q.tagsIncluded);
    InsertionBalanced(ExcludeHead, ExcludeTail, q.tagsExcluded);
    BalancedAppend(IncludePart(q), ExcludePart(q));
  }

  lemma TimeConditionBalanced(t: Option<int>, head: string, sql: string)
    requires sql == head + "?" && '?' !in head
    ensures AllBalanced(TimeCondition(t, sql))
  {
    TrailingMark(head, sql);
  }

  lemma TimeBalanced(q: EntryQuery)
    ensures AllBalanced(TimePart(q))
  {
    var a := TimeCondition(q.createdAfter, "e.time_created > ?");
    var b := TimeCondition(q.createdBefore, "e.time_created < ?");
    var c := TimeCondition(q.updatedAfter, "e.time_updated > ?");
    var d := TimeCondition(q.updatedBefore, "e.time_updated < ?");
    TimeConditionBalanced(q.createdAfter, "e.time_created > ", "e.time_created > ?");
    TimeConditionBalanced(q.createdBefore, "e.time_created < ", "e.time_created < ?");
    TimeConditionBalanced(q.updatedAfter, "e.time_updated > ", "e.time_updated > ?");
    TimeConditionBalanced(q.updatedBefore, "e.time_updated < ", "e.time_updated < ?");
    BalancedAppend(a, b);
    BalancedAppend(a + b, c);
    BalancedAppend(a + b + c, d);
  }

  lemma FlagBalanced(q: EntryQuery)
    ensures AllBalanced(FlagPart(q))
  {
    var a := FlagCondition(q.isSet, "e.entry_type = 2");
    var b := FlagCondition(q.isFile, "e.entry_type = 1");
    var c := FlagCondition(q.untagged, UntaggedCondition);
    var d := FlagCondition(!q.includeSetFiles, NotInSet);
    CountCharAbsent("e.entry_type = 2", '?');
    CountCharAbsent("e.entry_type = 1", '?');
    UntaggedConditionFree();
    CountCharAbsent(UntaggedCondition, '?');
    CountCharAbsent(NotInSet, '?');
    BalancedAppend(a, b);
    BalancedAppend(a + b, c);
    BalancedAppend(a + b + c, d);
  }

  /** Every condition `generate_query` emits has as many placeholders as values. */
  lemma ConditionsBalanced(q: EntryQuery)
    ensures AllBalanced(Conditions(q))
  {
    TagBalanced(q);
    TimeBalanced(q);
    FlagBalanced(q);
    BalancedAppend(TagPart(q), TimePart(q));
    BalancedAppend(TagPart(q) + TimePart(q), FlagPart(q));
  }

  lemma {:induction false} BalancedSum(cs: seq<Condition>)
    requires AllBalanced(cs)
    ensures SumCounts(SqlOf(cs), '?') == |ParamsOf(cs)|
  {
    if cs != [] {
      var front := cs[..|cs| - 1];
      BalancedSum(front);
      SumCountsAppend(SqlOf(front), [cs[|cs| - 1].sql], '?');
      assert [cs[|cs| - 1].sql][1..] == [];
    }
  }

  /**
   * The generated condition holds exactly one `?` per bound value: the
   * placeholders and the parameter list always agree in number.
   */
  lemma PlaceholdersMatchParams(q: EntryQuery)
    ensures CountChar(Join(SqlOf(Conditions(q)), " and "), '?') == |ParamsOf(Conditions(q))|
  {
    ConditionsBalanced(q);
    BalancedSum(Conditions(q));
    CountCharJoin(SqlOf(Conditions(q)), " and ", '?');
  }

  /** The values are the included ids, the excluded ids, then the four timestamps present, in that order. */
  lemma ParamsOrder(q: EntryQuery)
    ensures ParamsOf(Conditions(q)) ==
      Ints(q.tagsIncluded) + Ints(q.tagsExcluded)
      + OptInt(q.createdAfter) + OptInt(q.createdBefore) + OptInt(q.updatedAfter) + OptInt(q.updatedBefore)
  {
    var tag, time, flag := TagPart(q), TimePart(q), FlagPart(q);
    Emit(tag, time);
    Emit(tag + time, flag);
    FlagParamsEmpty(q);
    assert ParamsOf(Conditions(q)) == ParamsOf(tag) + ParamsOf(time);
    TimeParams(q);
    TagParams(q);
    AppendAssoc(Ints(q.tagsIncluded) + Ints(q.tagsExcluded),
      OptInt(q.createdAfter), OptInt(q.createdBefore), OptInt(q.updatedAfter), OptInt(q.updatedBefore));
  }

  lemma AppendAssoc<T>(x: seq<T>, a: seq<T>, b: seq<T>, c: seq<T>, d: seq<T>)
    ensures x + (a + b + c + d) == x + a + b + c + d
  {
    calc {
      x + (a + b + c + d);
      x + (a + b + c) + d;
      x + (a + b) + c + d;
    }
  }

  lemma TagParams(q: EntryQuery)
    ensures ParamsOf(TagPart(q)) == Ints(q.tagsIncluded) + Ints(q.tagsExcluded)
  {
    Emit(IncludePart(q), ExcludePart(q));
    assert ParamsOf(IncludePart(q)) == Ints(q.tagsIncluded) by {
      if |q.tagsIncluded| > 0 { assert IncludePart(q)[..0] == []; }
    }
    assert ParamsOf(ExcludePart(q)) == Ints(q.tagsExcluded) by {
      if |q.tagsExcluded| > 0 { assert ExcludePart(q)[..0] == []; }
    }
  }

  lemma TimeParams(q: EntryQuery)
    ensures ParamsOf(TimePart(q)) ==
      OptInt(q.createdAfter) + OptInt(q.createdBefore) + OptInt(q.updatedAfter) + OptInt(q.updatedBefore)
  {
    var a := TimeCondition(q.createdAfter, "e.time_created > ?");
    var b := TimeCondition(q.createdBefore, "e.time_created < ?");
    var c := TimeCondition(q.updatedAfter, "e.time_updated > ?");
    var d := TimeCondition(q.updatedBefore, "e.time_updated < ?");
    Emit(a, b);
    Emit(a + b, c);
    Emit(a + b + c, d);
    OneParams(q.createdAfter, "e.time_created > ?");
    OneParams(q.createdBefore, "e.time_created < ?");
    OneParams(q.updatedAfter, "e.time_updated > ?");
    OneParams(q.updatedBefore, "e.time_updated < ?");
  }

  lemma OneParams(t: Option<int>, sql: string)
    ensures ParamsOf(TimeCondition(t, sql)) == OptInt(t)
  {
    if t.Some? {
      assert TimeCondition(t, sql)[..0] == [];
    }
  }

  function Count(on: bool): nat
  {
    if on then 1 else 0
  }

  /** One condition per filter in use. */
  lemma ConditionCount(q: EntryQuery)
    ensures |Conditions(q)| ==
      Count(|q.tagsIncluded| > 0) + Count(|q.tagsExcluded| > 0)
      + Count(q.createdAfter.Some?) + Count(q.createdBefore.Some?)
      + Count(q.updatedAfter.Some?) + Count(q.updatedBefore.Some?)
      + Count(q.isSet) + Count(q.isFile) + Count(q.untagged) + Count(!q.includeSetFiles)
  {
    assert |TagPart(q)| == Count(|q.tagsIncluded| > 0) + Count(|q.tagsExcluded| > 0);
    assert |TimePart(q)| == Count(q.createdAfter.Some?) + Count(q.createdBefore.Some?)
      + Count(q.updatedAfter.Some?) + Count(q.updatedBefore.Some?);
    assert |FlagPart(q)| == Count(q.isSet) + Count(q.isFile) + Count(q.untagged) + Count(!q.includeSetFiles);
  }

  /** The joined text of conditions ending in `c` ends with the text of `c`. */
  lemma JoinEndsWith(cs: seq<Condition>, c: Condition)
    ensures var s := Join(SqlOf(cs + [c]), " and ");
            |s| >= |c.sql| && s[|s| - |c.sql|..] == c.sql
  {
    assert (cs + [c])[..|cs|] == cs;
    assert SqlOf(cs + [c]) == SqlOf(cs) + [c.sql];
    if |cs| >= 1 {
      JoinSnoc(SqlOf(cs), " and ", c.sql);
    }
  }

  /** Unless set files are included, the condition ends with `e.parent_set is null`, which binds nothing. */
  lemma ParentSetLast(q: EntryQuery)
    requires !q.includeSetFiles
    ensures var cs := Conditions(q);
            |cs| >= 1 && cs[|cs| - 1] == Condition(NotInSet, [])
    ensures var s := Join(SqlOf(Conditions(q)), " and ");
            |s| >= |NotInSet| && s[|s| - |NotInSet|..] == NotInSet
  {
    var last := Condition(NotInSet, []);
    var flags := FlagCondition(q.isSet, "e.entry_type = 2")
      + FlagCondition(q.isFile, "e.entry_type = 1") + FlagCondition(q.untagged, UntaggedCondition);
    assert FlagPart(q) == flags + [last];
    var front := TagPart(q) + TimePart(q) + flags;
    assert Conditions(q) == front + [last];
    JoinEndsWith(front, last);
  }

  /** The default search keeps only the entries outside any set, and binds nothing. */
  lemma DefaultQuery()
    ensures Join(SqlOf(Conditions(Default)), " and ") == NotInSet
    ensures ParamsOf(Conditions(Default)) == []
  {
    assert Conditions(Default) == [Condition(NotInSet, [])];
    assert [Condition(NotInSet, [])][..0] == [];
  }
}
