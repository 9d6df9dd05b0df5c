/**
 * The gallery search box (src/query.rs): the words of a query are sorted
 * into included tags, excluded tags (`-name`) and meta-tags
 * (`@name[=value]`); the tag names are then resolved to ids and the
 * meta-tags interpreted into an `EntryQuery`, or a list of complaints.
 *
 * The tag table is a map from name to id, and the calendar arithmetic of
 * the date library is a `Calendar` parameter.
 */
module Query {
  import opened Wrappers
  import opened Text
  import opened EntryQueries

  datatype MetaTag = MetaTag(name: string, value: Option<string>)

  datatype QueryData = QueryData(tagsIncluded: seq<string>, tagsExcluded: seq<string>, metatags: seq<MetaTag>)

  const NoWords: QueryData := QueryData([], [], [])

  // ---------------------------------------------------------------------
  // Sorting the words

  /** `@body`: the name is the text before the first `=`, the value the text up to the second one. */
  function ToMetaTag(body: string): MetaTag
  {
    var base := Split(body, '=');
    if |base| < 2 then MetaTag(base[0], None) else MetaTag(base[0], Some(base[1]))
  }

  /** One word of the query added to the lists. */
  function Sort(d: QueryData, part: string): QueryData
  {
    if |part| == 0 then d
    else if part[0] == '-' then d.(tagsExcluded := d.tagsExcluded + [part[1..]])
    else if part[0] == '@' then d.(metatags := d.metatags + [ToMetaTag(part[1..])])
    else d.(tagsIncluded := d.tagsIncluded + [part])
  }

  /** The lists after the words of `query`, in order. */
  function Breakdown(query: seq<string>): QueryData
  {
    if query == [] then NoWords else Sort(Breakdown(query[..|query| - 1]), query[|query| - 1])
  }

  /** `parse_query`. */
  method ParseQuery(query: seq<string>) returns (r: QueryData)
    ensures r == Breakdown(query)
  {
    var tagsIncluded: seq<string> := [];
    var tagsExcluded: seq<string> := [];
    var metatags: seq<MetaTag> := [];
    for n := 0 to |query|
      invariant QueryData(tagsIncluded, tagsExcluded, metatags) == Breakdown(query[..n])
    {
      assert query[..n + 1][..n] == query[..n];
      var part := query[n];
      if |part| == 0 {
        continue;
      }
      if part[0] == '-' {
        tagsExcluded := tagsExcluded + [part[1..]];
      } else if part[0] == '@' {
        var base := Split(part[1..], '=');
        if |base| < 2 {
          metatags := metatags + [MetaTag(base[0], None)];
        } else {
          metatags := metatags + [MetaTag(base[0], Some(base[1]))];
        }
      } else {
        tagsIncluded := tagsIncluded + [part];
      }
    }
    assert query[..|query|] == query;
    r := QueryData(tagsIncluded, tagsExcluded, metatags);
  }

  function Size(d: QueryData): nat
  {
    |d.tagsIncluded| + |d.tagsExcluded| + |d.metatags|
  }

  /** Number of non-empty words. */
  function Words(query: seq<string>): nat
  {
    if query == [] then 0
    else Words(query[..|query| - 1]) + (if |query[|query| - 1]| == 0 then 0 else 1)
  }

  /** Every non-empty word lands in exactly one list; empty words in none. */
  lemma {:induction false} BreakdownSize(query: seq<string>)
    ensures Size(Breakdown(query)) == Words(query)
  {
    if query != [] {
      BreakdownSize(query[..|query| - 1]);
    }
  }

  /** Sorting a query in two pieces and concatenating the lists gives the lists of the whole query. */
  function Concat(a: QueryData, b: QueryData): QueryData
  {
    QueryData(a.tagsIncluded + b.tagsIncluded, a.tagsExcluded + b.tagsExcluded, a.metatags + b.metatags)
  }

  lemma SortConcat(x: QueryData, y: QueryData, part: string)
    ensures Sort(Concat(x, y), part) == Concat(x, Sort(y, part))
  {
    if |part| > 0 {
      if part[0] == '-' {
        assert x.tagsExcluded + y.tagsExcluded + [part[1..]] == x.tagsExcluded + (y.tagsExcluded + [part[1..]]);
      } else if part[0] == '@' {
        assert x.metatags + y.metatags + [ToMetaTag(part[1..])] == x.metatags + (y.metatags + [ToMetaTag(part[1..])]);
      } else {
        assert x.tagsIncluded + y.tagsIncluded + [part] == x.tagsIncluded + (y.tagsIncluded + [part]);
      }
    }
  }

  /** Each list keeps the words in query order. */
  lemma {:induction false} BreakdownAppend(a: seq<string>, b: seq<string>)
    ensures Breakdown(a + b) == Concat(Breakdown(a), Breakdown(b))
    decreases |b|
  {
    if b == [] {
      assert a + b == a;
      var d := Breakdown(a);
      assert d.tagsIncluded + [] == d.tagsIncluded;
      assert d.tagsExcluded + [] == d.tagsExcluded;
      assert d.metatags + [] == d.metatags;
    } else {
      var front := b[..|b| - 1];
      assert (a + b)[..|a + b| - 1] == a + front;
      assert (a + b)[|a + b| - 1] == b[|b| - 1];
      BreakdownAppend(a, front);
      SortConcat(Breakdown(a), Breakdown(front), b[|b| - 1]);
    }
  }

  /** A single word is sorted by its first character only. */
  lemma OneWord(part: string)
    ensures Breakdown([part]) == Sort(NoWords, part)
  {
    assert [part][..0] == [];
  }

  /** What a single word contributes. */
  lemma WordKinds(part: string)
    ensures |part| == 0 ==> Breakdown([part]) == NoWords
    ensures |part| > 0 && part[0] == '-' ==> Breakdown([part]) == QueryData([], [part[1..]], [])
    ensures |part| > 0 && part[0] == '@' ==> Breakdown([part]) == QueryData([], [], [ToMetaTag(part[1..])])
    ensures |part| > 0 && part[0] != '-' && part[0] != '@' ==> Breakdown([part]) == QueryData([part], [], [])
  {
    OneWord(part);
  }

  /**
   * The meta-tag of `@body`: its name is everything before the first `=`;
   * there is no value exactly when there is no `=`; otherwise the value is
   * the text between the first `=` and the next one (or the end).
   */
  lemma MetaTagShape(body: string)
    ensures ToMetaTag(body).name == body[..IndexOf(body, '=')]
    ensures ToMetaTag(body).value.None? <==> '=' !in body
    ensures '=' in body ==>
      var rest := body[IndexOf(body, '=') + 1..];
      ToMetaTag(body).value == Some(rest[..IndexOf(rest, '=')])
  {
    SplitHead(body, '=');
    var i := IndexOf(body, '=');
    if i < |body| {
      assert body == body[..i] + ['='] + body[i + 1..];
      SplitPrefix(body[..i], '=', body[i + 1..]);
      SplitHead(body[i + 1..], '=');
    }
  }

  // ---------------------------------------------------------------------
  // Dates

  /**
   * The date library: which dates and times exist, and the Unix timestamp
   * of a date and time taken as UTC.
   */
  datatype Calendar = Calendar(
    validDate: (int, int, int) -> bool,
    validTime: (int, int) -> bool,
    timestamp: (int, int, int, int, int) -> int)

  predicate IsDigit(c: char)
  {
    '0' <= c <= '9'
  }

  predicate AllDigits(s: string)
  {
    forall k :: 0 <= k < |s| ==> IsDigit(s[k])
  }

  /** The decimal value of a string of digits. */
  function DigitsValue(s: string): nat
    requires AllDigits(s)
  {
    if s == [] then 0 else 10 * DigitsValue(s[..|s| - 1]) + (s[|s| - 1] as int - '0' as int)
  }

  /** `str::parse::<u32>`: an optional `+`, then at least one digit, the value below 2^32. */
  function ParseU32(s: string): (r: Option<int>)
    ensures r.Some? ==> 0 <= r.value <= 0xFFFF_FFFF
  {
    var ds := if |s| > 0 && s[0] == '+' then s[1..] else s;
    if |ds| > 0 && AllDigits(ds) && DigitsValue(ds) <= 0xFFFF_FFFF then Some(DigitsValue(ds)) else None
  }

  /** `str::parse::<i32>`: an optional sign, then at least one digit, the value within 32 bits. */
  function ParseI32(s: string): (r: Option<int>)
    ensures r.Some? ==> -0x8000_0000 <= r.value <= 0x7FFF_FFFF
  {
    var negative := |s| > 0 && s[0] == '-';
    var ds := if |s| > 0 && (s[0] == '+' || s[0] == '-') then s[1..] else s;
    if |ds| > 0 && AllDigits(ds) then
      var v: int := DigitsValue(ds);
      if negative && v <= 0x8000_0000 then Some(-v)
      else if !negative && v <= 0x7FFF_FFFF then Some(v)
      else None
    else None
  }

  /** The decimal numeral of `n`, without sign or leading zeros. */
  function Decimal(n: nat): (s: string)
    ensures |s| >= 1 && AllDigits(s)
  {
    var d := [('0' as int + n % 10) as char];
    if n < 10 then d else Decimal(n / 10) + d
  }

  lemma {:induction false} DecimalValue(n: nat)
    ensures DigitsValue(Decimal(n)) == n
  {
    var s := Decimal(n);
    if n >= 10 {
      DecimalValue(n / 10);
      assert s[..|s| - 1] == Decimal(n / 10);
    }
  }

  /** Every `u32` reads back from its decimal numeral, with or without a `+`. */
  lemma ParseU32Decimal(n: nat)
    requires n <= 0xFFFF_FFFF
    ensures ParseU32(Decimal(n)) == Some(n)
    ensures ParseU32("+" + Decimal(n)) == Some(n)
  {
    DecimalValue(n);
    assert ("+" + Decimal(n))[1..] == Decimal(n);
  }

  /** Every `i32` reads back from its signed decimal numeral. */
  lemma ParseI32Decimal(v: int)
    requires -0x8000_0000 <= v <= 0x7FFF_FFFF
    ensures v >= 0 ==> ParseI32(Decimal(v)) == Some(v)
    ensures v < 0 ==> ParseI32("-" + Decimal(-v)) == Some(v)
  {
    if v >= 0 {
      DecimalValue(v);
    } else {
      DecimalValue(-v);
      assert ("-" + Decimal(-v))[1..] == Decimal(-v);
    }
  }

  /** Text that is not a numeral, and a numeral beyond 32 bits, do not read as a `u32`. */
  lemma ParseU32Rejects(s: string, n: nat)
    ensures s == [] ==> ParseU32(s) == None
    ensures |s| >= 1 && s[0] != '+' && !IsDigit(s[0]) ==> ParseU32(s) == None
    ensures n > 0xFFFF_FFFF ==> ParseU32(Decimal(n)) == None
  {
    DecimalValue(n);
  }

  /** `date_string_to_timestamp`: `dd-mm-yyyy_hh:mm` to a Unix timestamp. */
  function DateStringToTimestamp(dateStr: string, cal: Calendar): Result<int, string>
  {
    var parts := Split(dateStr, '_');
    if |parts| != 2 then Err("Invalid date format")
    else
      var dateParts := Split(parts[0], '-');
      if |dateParts| != 3 then Err("Invalid date format")
      else match (ParseU32(dateParts[0]), ParseU32(dateParts[1]), ParseI32(dateParts[2]))
        case (None, _, _) => Err("Failed to parse day")
        case (Some(_), None, _) => Err("Failed to parse month")
        case (Some(_), Some(_), None) => Err("Failed to parse year")
        case (Some(day), Some(month), Some(year)) =>
          var timeParts := Split(parts[1], ':');
          if |timeParts| != 2 then Err("Invalid time format")
          else match (ParseU32(timeParts[0]), ParseU32(timeParts[1]))
            case (None, _) => Err("Failed to parse hour")
            case (Some(_), None) => Err("Failed to parse minute")
            case (Some(hour), Some(minute)) =>
              if !cal.validDate(year, month, day) then Err("Invalid date")
              else if !cal.validTime(hour, minute) then Err("Invalid time")
              else Ok(cal.timestamp(year, month, day, hour, minute))
  }

  /**
   * A date string is accepted only if it has exactly one `_`, its date
   * part exactly two `-` and its time part exactly one `:`.
   */
  lemma DateShape(dateStr: string, cal: Calendar)
    ensures DateStringToTimestamp(dateStr, cal).Ok? ==>
      CountChar(dateStr, '_') == 1
      && CountChar(Split(dateStr, '_')[0], '-') == 2
      && CountChar(Split(dateStr, '_')[1], ':') == 1
  {
    SplitCount(dateStr, '_');
    var parts := Split(dateStr, '_');
    if |parts| == 2 {
      SplitCount(parts[0], '-');
      SplitCount(parts[1], ':');
    }
  }

  /** The pieces of a split are one more than the separators. */
  lemma {:induction false} SplitCount(s: string, sep: char)
    ensures |Split(s, sep)| == CountChar(s, sep) + 1
  {
    if s != [] {
      SplitCount(s[1..], sep);
      assert s == [s[0]] + s[1..];
      CountCharAppend([s[0]], s[1..], sep);
      assert [s[0]][..0] == [];
    }
  }

  /** Splitting `a + [sep] + b`, neither holding `sep`, gives `a` and `b`. */
  lemma SplitTwo(a: string, sep: char, b: string)
    requires sep !in a && sep !in b
    ensures Split(a + [sep] + b, sep) == [a, b]
  {
    SplitPrefix(a, sep, b);
    SplitNoSep(b, sep);
  }

  lemma SplitThree(a: string, sep: char, b: string, c: string)
    requires sep !in a && sep !in b && sep !in c
    ensures Split(a + [sep] + b + [sep] + c, sep) == [a, b, c]
  {
    assert a + [sep] + b + [sep] + c == a + [sep] + (b + [sep] + c);
    SplitPrefix(a, sep, b + [sep] + c);
    SplitTwo(b, sep, c);
  }

  /** The pieces of `d-m-y_h:mi`, when no piece holds a separator of its own. */
  lemma DateSplits(d: string, m: string, y: string, h: string, mi: string)
    requires '_' !in d + "-" + m + "-" + y && '_' !in h + ":" + mi
    requires '-' !in d && '-' !in m && '-' !in y && ':' !in h && ':' !in mi
    ensures Split(d + "-" + m + "-" + y + "_" + h + ":" + mi, '_') == [d + "-" + m + "-" + y, h + ":" + mi]
    ensures Split(d + "-" + m + "-" + y, '-') == [d, m, y]
    ensures Split(h + ":" + mi, ':') == [h, mi]
  {
    var date := d + "-" + m + "-" + y;
    var time := h + ":" + mi;
    assert d + "-" + m + "-" + y + "_" + h + ":" + mi == date + ['_'] + time;
    SplitTwo(date, '_', time);
    SplitThree(d, '-', m, y);
    SplitTwo(h, ':', mi);
  }

  /**
   * A well-shaped string with readable numbers and an existing date and time
   * gives the calendar's timestamp of those numbers.
   */
  lemma DateAccepted(d: string, m: string, y: string, h: string, mi: string, cal: Calendar)
    requires '_' !in d + "-" + m + "-" + y && '_' !in h + ":" + mi
    requires '-' !in d && '-' !in m && '-' !in y && ':' !in h && ':' !in mi
    requires ParseU32(d).Some? && ParseU32(m).Some? && ParseI32(y).Some?
    requires ParseU32(h).Some? && ParseU32(mi).Some?
    requires cal.validDate(ParseI32(y).value, ParseU32(m).value, ParseU32(d).value)
    requires cal.validTime(ParseU32(h).value, ParseU32(mi).value)
    ensures DateStringToTimestamp(d + "-" + m + "-" + y + "_" + h + ":" + mi, cal) ==
      Ok(cal.timestamp(ParseI32(y).value, ParseU32(m).value, ParseU32(d).value, ParseU32(h).value, ParseU32(mi).value))
  {
    DateSplits(d, m, y, h, mi);
  }

  /** The date is checked before the time: a string whose date does not exist is an invalid date. */
  lemma DateBeforeTime(d: string, m: string, y: string, h: string, mi: string, cal: Calendar)
    requires '_' !in d + "-" + m + "-" + y && '_' !in h + ":" + mi
    requires '-' !in d && '-' !in m && '-' !in y && ':' !in h && ':' !in mi
    requires ParseU32(d).Some? && ParseU32(m).Some? && ParseI32(y).Some?
    requires ParseU32(h).Some? && ParseU32(mi).Some?
    requires !cal.validDate(ParseI32(y).value, ParseU32(m).value, ParseU32(d).value)
    ensures DateStringToTimestamp(d + "-" + m + "-" + y + "_" + h + ":" + mi, cal) == Err("Invalid date")
  {
    DateSplits(d, m, y, h, mi);
  }

  // ---------------------------------------------------------------------
  // Resolving tags and interpreting meta-tags

  /** The ids of the names the tag table knows, in order. */
  function KnownIds(lookup: map<string, int>, names: seq<string>): seq<int>
  {
    if names == [] then []
    else
      var n := names[|names| - 1];
      KnownIds(lookup, names[..|names| - 1]) + (if n in lookup then [lookup[n]] else [])
  }

  /** The names the tag table does not know, in order. */
  function UnknownNames(lookup: map<string, int>, names: seq<string>): seq<string>
  {
    if names == [] then []
    else
      var n := names[|names| - 1];
      UnknownNames(lookup, names[..|names| - 1]) + (if n in lookup then [] else [n])
  }

  /** One tag loop of `parse_query_string`: known names give ids, the others are collected. */
  method LookupTags(lookup: map<string, int>, names: seq<string>, ids: seq<int>, unknown: seq<string>)
    returns (ids': seq<int>, unknown': seq<string>)
    ensures ids' == ids + KnownIds(lookup, names)
    ensures unknown' == unknown + UnknownNames(lookup, names)
  {
    ids', unknown' := ids, unknown;
    for k := 0 to |names|
      invariant ids' == ids + KnownIds(lookup, names[..k])
      invariant unknown' == unknown + UnknownNames(lookup, names[..k])
    {
      assert names[..k + 1][..k] == names[..k];
      var t := names[k];
      if t !in lookup {
        unknown' := unknown' + [t];
      } else {
        ids' := ids' + [lookup[t]];
      }
    }
    assert names[..|names|] == names;
  }

  /** A name is reported unknown exactly when it occurs and the table lacks it. */
  lemma {:induction false} UnknownNamesAre(lookup: map<string, int>, names: seq<string>, n: string)
    ensures n in UnknownNames(lookup, names) <==> n in names && n !in lookup
  {
    if names != [] {
      var front := names[..|names| - 1];
      UnknownNamesAre(lookup, front, n);
      assert names == front + [names[|names| - 1]];
    }
  }

  /** When every name is known, the ids are the table's ids of the names, in the same order. */
  lemma {:induction false} KnownIdsInOrder(lookup: map<string, int>, names: seq<string>)
    requires UnknownNames(lookup, names) == []
    ensures |KnownIds(lookup, names)| == |names|
    ensures forall k :: 0 <= k < |names| ==> names[k] in lookup && KnownIds(lookup, names)[k] == lookup[names[k]]
  {
    if names != [] {
      KnownIdsInOrder(lookup, names[..|names| - 1]);
    }
  }

  /** The search being built and the complaints so far. */
  datatype Reading = Reading(query: EntryQuery, log: seq<string>)

  /** The four meta-tags that take a date. */
  datatype DateField = CreatedAfter | CreatedBefore | UpdatedAfter | UpdatedBefore

  /** The four meta-tags that switch a filter on. */
  datatype Flag = IsSet | IsFile | Untagged | IncludeSetFiles

  /** How a meta-tag name is handled. */
  datatype MetaKind = DateTag(field: DateField) | FlagTag(flag: Flag) | UnknownTag

  function KindOf(name: string): MetaKind
  {
    if name == "created_after" then DateTag(CreatedAfter)
    else if name == "created_before" then DateTag(CreatedBefore)
    else if name == "updated_after" then DateTag(UpdatedAfter)
    else if name == "updated_before" then DateTag(UpdatedBefore)
    else if name == "is_set" then FlagTag(IsSet)
    else if name == "is_file" then FlagTag(IsFile)
    else if name == "untagged" then FlagTag(Untagged)
    else if name == "include_set_files" then FlagTag(IncludeSetFiles)
    else UnknownTag
  }

  function DateOf(q: EntryQuery, f: DateField): Option<int>
  {
    match f
    case CreatedAfter => q.createdAfter
    case CreatedBefore => q.createdBefore
    case UpdatedAfter => q.updatedAfter
    case UpdatedBefore => q.updatedBefore
  }

  function FlagOf(q: EntryQuery, g: Flag): bool
  {
    match g
    case IsSet => q.isSet
    case IsFile => q.isFile
    case Untagged => q.untagged
    case IncludeSetFiles => q.includeSetFiles
  }

  /** The search with one date bound set and nothing else changed. */
  function SetDate(q: EntryQuery, f: DateField, t: int): (q': EntryQuery)
    ensures DateOf(q', f) == Some(t)
    ensures forall g :: g != f ==> DateOf(q', g) == DateOf(q, g)
    ensures forall g :: FlagOf(q', g) == FlagOf(q, g)
    ensures q'.tagsIncluded == q.tagsIncluded && q'.tagsExcluded == q.tagsExcluded
  {
    match f
    case CreatedAfter => q.(createdAfter := Some(t))
    case CreatedBefore => q.(createdBefore := Some(t))
    case UpdatedAfter => q.(updatedAfter := Some(t))
    case UpdatedBefore => q.(updatedBefore := Some(t))
  }

  /** The search with one filter switched on and nothing else changed. */
  function SetFlag(q: EntryQuery, g: Flag): (q': EntryQuery)
    ensures FlagOf(q', g)
    ensures forall h :: h != g ==> FlagOf(q', h) == FlagOf(q, h)
    ensures forall f :: DateOf(q', f) == DateOf(q, f)
    ensures q'.tagsIncluded == q.tagsIncluded && q'.tagsExcluded == q.tagsExcluded
  {
    match g
    case IsSet => q.(isSet := true)
    case IsFile => q.(isFile := true)
    case Untagged => q.(untagged := true)
    case IncludeSetFiles => q.(includeSetFiles := true)
  }

  /** The timestamp of a date meta-tag, or the complaint line it causes. */
  function DateValue(mt: MetaTag, cal: Calendar): Result<int, string>
  {
    match mt.value
    case None => Err("@" + mt.name + " needs a value (`dd-mm-yyyy_hh:mm`)")
    case Some(v) =>
      match DateStringToTimestamp(v, cal)
      case Ok(time) => Ok(time)
      case Err(e) => Err("@" + mt.name + ": " + e)
  }

  /** A date meta-tag: the bound is set, or the complaint is logged. */
  function DateStep(s: Reading, f: DateField, v: Result<int, string>): Reading
  {
    match v
    case Ok(time) => s.(query := SetDate(s.query, f, time))
    case Err(line) => s.(log := s.log + [line])
  }

  /** What one meta-tag does to the search and the log. */
  function Interpret(s: Reading, mt: MetaTag, cal: Calendar): Reading
  {
    match KindOf(mt.name)
    case DateTag(f) => DateStep(s, f, DateValue(mt, cal))
    case FlagTag(g) => s.(query := SetFlag(s.query, g))
    case UnknownTag => s.(log := s.log + ["Unknown meta tag " + mt.name])
  }

  /** The meta-tags applied in order. */
  function InterpretAll(s: Reading, metas: seq<MetaTag>, cal: Calendar): Reading
  {
    if metas == [] then s else Interpret(InterpretAll(s, metas[..|metas| - 1], cal), metas[|metas| - 1], cal)
  }

  /** The meta-tag loop of `parse_query_string`. */
  method HandleMetaTags(query: EntryQuery, log: seq<string>, metas: seq<MetaTag>, cal: Calendar)
    returns (query': EntryQuery, log': seq<string>)
    ensures Reading(query', log') == InterpretAll(Reading(query, log), metas, cal)
  {
    query', log' := query, log;
    for k := 0 to |metas|
      invariant Reading(query', log') == InterpretAll(Reading(query, log), metas[..k], cal)
    {
      assert metas[..k + 1][..k] == metas[..k];
      var mt := metas[k];
      match KindOf(mt.name) {
        case DateTag(f) =>
          match mt.value {
            case None =>
              log' := log' + ["@" + mt.name + " needs a value (`dd-mm-yyyy_hh:mm`)"];
            case Some(v) =>
              match DateStringToTimestamp(v, cal) {
                case Ok(time) => query' := SetDate(query', f, time);
                case Err(e) => log' := log' + ["@" + mt.name + ": " + e];
              }
          }
        case FlagTag(g) =>
          query' := SetFlag(query', g);
        case UnknownTag =>
          log' := log' + ["Unknown meta tag " + mt.name];
      }
    }
    assert metas[..|metas|] == metas;
  }

  /** The unknown names among the included and then the excluded tags. */
  function Unknowns(lookup: map<string, int>, b: QueryData): seq<string>
  {
    UnknownNames(lookup, b.tagsIncluded) + UnknownNames(lookup, b.tagsExcluded)
  }

  /** The default search holding the ids of the known tags. */
  function Start(lookup: map<string, int>, b: QueryData): EntryQuery
  {
    Default.(tagsIncluded := KnownIds(lookup, b.tagsIncluded), tagsExcluded := KnownIds(lookup, b.tagsExcluded))
  }

  /** The search `parse_query_string` builds from the words of a query, or its complaints. */
  function QueryString(lookup: map<string, int>, query: seq<string>, cal: Calendar): Result<EntryQuery, seq<string>>
  {
    var b := Breakdown(query);
    if |Unknowns(lookup, b)| > 0 then Err(["Tag not found: " + Join(Unknowns(lookup, b), " ")])
    else
      var s := InterpretAll(Reading(Start(lookup, b), []), b.metatags, cal);
      if |s.log| > 0 then Err(s.log) else Ok(s.query)
  }

  /** `parse_query_string`, with the tag table given as a map. */
  method ParseQueryString(lookup: map<string, int>, query: seq<string>, cal: Calendar)
    returns (r: Result<EntryQuery, seq<string>>)
    ensures r == QueryString(lookup, query, cal)
  {
    var breakdown := ParseQuery(query);
    var queryData := Default;
    var log: seq<string> := [];
    var unknownTags: seq<string> := [];
    var ids;
    ids, unknownTags := LookupTags(lookup, breakdown.tagsIncluded, queryData.tagsIncluded, unknownTags);
    queryData := queryData.(tagsIncluded := ids);
    ids, unknownTags := LookupTags(lookup, breakdown.tagsExcluded, queryData.tagsExcluded, unknownTags);
    queryData := queryData.(tagsExcluded := ids);
    assert [] + KnownIds(lookup, breakdown.tagsIncluded) == KnownIds(lookup, breakdown.tagsIncluded);
    assert [] + KnownIds(lookup, breakdown.tagsExcluded) == KnownIds(lookup, breakdown.tagsExcluded);
    assert [] + UnknownNames(lookup, breakdown.tagsIncluded) == UnknownNames(lookup, breakdown.tagsIncluded);
    if |unknownTags| > 0 {
      log := log + ["Tag not found: " + Join(unknownTags, " ")];
      assert log == ["Tag not found: " + Join(unknownTags, " ")];
      return Err(log);
    }
    queryData, log := HandleMetaTags(queryData, log, breakdown.metatags, cal);
    if |log| > 0 {
      return Err(log);
    }
    return Ok(queryData);
  }

  // ---------------------------------------------------------------------
  // What `parse_query_string` guarantees

  /** Which names are which meta-tags. */
  lemma KindNames(name: string)
    ensures KindOf(name) == DateTag(CreatedAfter) <==> name == "created_after"
    ensures KindOf(name) == DateTag(CreatedBefore) <==> name == "created_before"
    ensures KindOf(name) == DateTag(UpdatedAfter) <==> name == "updated_after"
    ensures KindOf(name) == DateTag(UpdatedBefore) <==> name == "updated_before"
    ensures KindOf(name) == FlagTag(IsSet) <==> name == "is_set"
    ensures KindOf(name) == FlagTag(IsFile) <==> name == "is_file"
    ensures KindOf(name) == FlagTag(Untagged) <==> name == "untagged"
    ensures KindOf(name) == FlagTag(IncludeSetFiles) <==> name == "include_set_files"
  {
  }

  /** A meta-tag that adds a line to the log: an unknown name, or a date tag whose value is missing or bad. */
  predicate Complains(mt: MetaTag, cal: Calendar)
  {
    match KindOf(mt.name)
    case DateTag(_) => DateValue(mt, cal).Err?
    case FlagTag(_) => false
    case UnknownTag => true
  }

  /** Number of meta-tags that complain. */
  function Complaints(metas: seq<MetaTag>, cal: Calendar): nat
  {
    if metas == [] then 0
    else Complaints(metas[..|metas| - 1], cal) + (if Complains(metas[|metas| - 1], cal) then 1 else 0)
  }

  /** One meta-tag keeps the tag lists and adds one log line if it complains, none otherwise. */
  lemma InterpretStep(s: Reading, mt: MetaTag, cal: Calendar)
    ensures Interpret(s, mt, cal).query.tagsIncluded == s.query.tagsIncluded
    ensures Interpret(s, mt, cal).query.tagsExcluded == s.query.tagsExcluded
    ensures |Interpret(s, mt, cal).log| == |s.log| + (if Complains(mt, cal) then 1 else 0)
    ensures Interpret(s, mt, cal).log[..|s.log|] == s.log
  {
  }

  /** Interpreting keeps the tag lists, extends the log by one line per complaint, and keeps earlier lines. */
  lemma {:induction false} InterpretLog(s: Reading, metas: seq<MetaTag>, cal: Calendar)
    ensures InterpretAll(s, metas, cal).query.tagsIncluded == s.query.tagsIncluded
    ensures InterpretAll(s, metas, cal).query.tagsExcluded == s.query.tagsExcluded
    ensures |InterpretAll(s, metas, cal).log| == |s.log| + Complaints(metas, cal)
    ensures InterpretAll(s, metas, cal).log[..|s.log|] == s.log
  {
    if metas != [] {
      InterpretLog(s, metas[..|metas| - 1], cal);
      var t := InterpretAll(s, metas[..|metas| - 1], cal);
      InterpretStep(t, metas[|metas| - 1], cal);
      var u := Interpret(t, metas[|metas| - 1], cal);
      assert u.log[..|t.log|] == t.log;
      assert t.log[..|s.log|] == s.log;
      assert u.log[..|s.log|] == t.log[..|s.log|];
    }
  }

  /** No complaint at all exactly when no meta-tag complains. */
  lemma {:induction false} ComplaintsZero(metas: seq<MetaTag>, cal: Calendar)
    ensures Complaints(metas, cal) == 0 <==> forall k :: 0 <= k < |metas| ==> !Complains(metas[k], cal)
  {
    if metas != [] {
      var front := metas[..|metas| - 1];
      ComplaintsZero(front, cal);
      assert forall k :: 0 <= k < |front| ==> front[k] == metas[k];
    }
  }

  /** One meta-tag switches a filter on exactly when it names that filter. */
  lemma FlagStep(s: Reading, mt: MetaTag, cal: Calendar, g: Flag)
    ensures FlagOf(Interpret(s, mt, cal).query, g) <==> FlagOf(s.query, g) || KindOf(mt.name) == FlagTag(g)
  {
  }

  /** A filter is on afterwards exactly when it was on before or some meta-tag names it. */
  lemma {:induction false} FlagsFromNames(s: Reading, metas: seq<MetaTag>, cal: Calendar, g: Flag)
    ensures FlagOf(InterpretAll(s, metas, cal).query, g) <==>
      FlagOf(s.query, g) || exists k :: 0 <= k < |metas| && KindOf(metas[k].name) == FlagTag(g)
  {
    if metas != [] {
      var front := metas[..|metas| - 1];
      FlagsFromNames(s, front, cal, g);
      FlagStep(InterpretAll(s, front, cal), metas[|metas| - 1], cal, g);
      assert forall k :: 0 <= k < |front| ==> front[k] == metas[k];
    }
  }

  /** A date meta-tag that is read successfully. */
  predicate SetsDate(mt: MetaTag, f: DateField, cal: Calendar)
  {
    KindOf(mt.name) == DateTag(f) && DateValue(mt, cal).Ok?
  }

  /** One meta-tag sets a date bound exactly when it reads successfully for it; otherwise it keeps it. */
  lemma DateStepIs(s: Reading, mt: MetaTag, cal: Calendar, f: DateField)
    ensures SetsDate(mt, f, cal) ==> DateOf(Interpret(s, mt, cal).query, f) == Some(DateValue(mt, cal).value)
    ensures !SetsDate(mt, f, cal) ==> DateOf(Interpret(s, mt, cal).query, f) == DateOf(s.query, f)
  {
  }

  /** The last successfully read date meta-tag for a bound decides it; failed ones change nothing. */
  lemma {:induction false} LastDateWins(s: Reading, metas: seq<MetaTag>, cal: Calendar, f: DateField, k: nat)
    requires k < |metas| && SetsDate(metas[k], f, cal)
    requires forall j :: k < j < |metas| ==> !SetsDate(metas[j], f, cal)
    ensures DateOf(InterpretAll(s, metas, cal).query, f) == Some(DateValue(metas[k], cal).value)
    decreases |metas|
  {
    var front := metas[..|metas| - 1];
    DateStepIs(InterpretAll(s, front, cal), metas[|metas| - 1], cal, f);
    if k < |metas| - 1 {
      LastDateWins(s, front, cal, f, k);
    }
  }

  /** Without a successfully read date meta-tag for a bound, the bound keeps its value. */
  lemma {:induction false} DateKept(s: Reading, metas: seq<MetaTag>, cal: Calendar, f: DateField)
    requires forall j :: 0 <= j < |metas| ==> !SetsDate(metas[j], f, cal)
    ensures DateOf(InterpretAll(s, metas, cal).query, f) == DateOf(s.query, f)
  {
    if metas != [] {
      var front := metas[..|metas| - 1];
      DateKept(s, front, cal, f);
      DateStepIs(InterpretAll(s, front, cal), metas[|metas| - 1], cal, f);
    }
  }

  /**
   * Any unknown tag name, included or excluded, makes the result the single
   * line that lists the unknown names, whatever the meta-tags say.
   */
  lemma TagNotFound(lookup: map<string, int>, query: seq<string>, cal: Calendar, n: string)
    requires n in Breakdown(query).tagsIncluded || n in Breakdown(query).tagsExcluded
    requires n !in lookup
    ensures QueryString(lookup, query, cal) == Err(["Tag not found: " + Join(Unknowns(lookup, Breakdown(query)), " ")])
    ensures n in Unknowns(lookup, Breakdown(query))
  {
    var b := Breakdown(query);
    UnknownNamesAre(lookup, b.tagsIncluded, n);
    UnknownNamesAre(lookup, b.tagsExcluded, n);
  }

  /** The names listed are exactly the unknown ones among the included and excluded tags. */
  lemma UnknownsAre(lookup: map<string, int>, b: QueryData, u: string)
    ensures u in Unknowns(lookup, b) <==> (u in b.tagsIncluded || u in b.tagsExcluded) && u !in lookup
  {
    UnknownNamesAre(lookup, b.tagsIncluded, u);
    UnknownNamesAre(lookup, b.tagsExcluded, u);
  }

  /**
   * The search is accepted exactly when every tag name is known and no
   * meta-tag complains; otherwise the complaints are the result.
   */
  lemma QueryAccepted(lookup: map<string, int>, query: seq<string>, cal: Calendar)
    ensures QueryString(lookup, query, cal).Ok? <==>
      Unknowns(lookup, Breakdown(query)) == []
      && forall k :: 0 <= k < |Breakdown(query).metatags| ==> !Complains(Breakdown(query).metatags[k], cal)
  {
    var b := Breakdown(query);
    InterpretLog(Reading(Start(lookup, b), []), b.metatags, cal);
    ComplaintsZero(b.metatags, cal);
  }

  /** An accepted search holds the ids of the included and excluded names, in query order. */
  lemma AcceptedIds(lookup: map<string, int>, query: seq<string>, cal: Calendar)
    requires QueryString(lookup, query, cal).Ok?
    ensures var b := Breakdown(query);
      var q := QueryString(lookup, query, cal).value;
      && |q.tagsIncluded| == |b.tagsIncluded|
      && (forall k :: 0 <= k < |b.tagsIncluded| ==> b.tagsIncluded[k] in lookup && q.tagsIncluded[k] == lookup[b.tagsIncluded[k]])
      && |q.tagsExcluded| == |b.tagsExcluded|
      && (forall k :: 0 <= k < |b.tagsExcluded| ==> b.tagsExcluded[k] in lookup && q.tagsExcluded[k] == lookup[b.tagsExcluded[k]])
  {
    var b := Breakdown(query);
    InterpretLog(Reading(Start(lookup, b), []), b.metatags, cal);
    KnownIdsInOrder(lookup, b.tagsIncluded);
    KnownIdsInOrder(lookup, b.tagsExcluded);
  }
}
