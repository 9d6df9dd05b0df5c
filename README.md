# tag-water core in Dafny

tag-water is a self-hosted gallery of tagged media files. This project models four parts of it and proves their properties:

- **The tagging-script front end** (`src/commands/script_parser.rs`).
  - The lexer turns script bytes into tokens, annotated with the line each token stands on.
  - The document builder `Data` consumes the tokens. It collects:
    - files, with their resolved tag sets;
    - sets of files, with their own tags;
    - `$variables`, which hold tag add/remove operations;
    - directives;
    - the union of every tag referenced.
- **The gallery search box** (`src/query.rs`).
  - The words of a query are sorted into included tags, excluded tags (`-name`) and meta-tags (`@name[=value]`).
  - Tag names are resolved to ids, and meta-tags set date bounds and flags. Otherwise the search returns its list of complaints.
- **The SQL condition builder** (`src/database/models.rs`). A search becomes a `where` condition with `?` placeholders plus the list of values bound to them.
- **The media-kind classifier** (`src/media.rs`).

Each imperative routine of the source is a Dafny `method` with the same loops. Each one is proved equal to a reference function, and the properties of that function are proved as lemmas:

- `Tokenize` is proved equal to `Lex`, with the line annotation `Annotate`.
- The `Data` class keeps the source's fields. Each `Handle*` method is proved to produce the outcome of a handler function: `TagListOutcome`, `FileOutcome`, `VariableOutcome`, `DirectiveOutcome` or `SetOutcome`. `FromTokens` is proved to produce `Parse`.
- `ParseQuery`, `LookupTags`, `HandleMetaTags` and `ParseQueryString` are proved equal to `Breakdown`, `KnownIds`/`UnknownNames`, `InterpretAll` and `QueryString`.
- `QuestionMarkList` and `GenerateQuery` are proved equal to `Placeholders` and to the joined `Conditions`.

Files: `wrappers.dfy` (Option, Result), `text.dfy` (split, join and character counts with Rust's semantics), `tokenizer.dfy`, `tokenizer_properties.dfy`, `script_parser.dfy`, `script_properties.dfy`, `query.dfy`, `entry_query.dfy`, `media.dfy`.

The model follows the code wherever the code has a quirk:
- The `$`/`@` sigil stays in variable and directive names.
- The token that ends a variable definition is consumed, whatever it is. So `$x = a;` stores an empty definition.
- A missing `}` is not an error.
- A newline inside a quoted string does not advance the line counter.
- A `-` followed by whitespace is an empty `RemoveTag`.
- `@autotag` may appear anywhere in a set body. The files after it contribute their tags.
- An unexpected token inside a set reports the line of the `{`, not its own line.
- The SQL texts are kept character for character. That includes their line breaks and indentation, and the literal `having count(distict et.tag_id) = 3`.

## Model

| member | source | states |
|---|---|---|
| Tokenizer.WordLength | src/commands/script_parser.rs:294-309 | the length of a word scan: no space, CR, LF, tab or `;` before it, and one of them (or the end) right at it |
| Tokenizer.QuoteIndex | src/commands/script_parser.rs:277-292 | the position of the next `"`, with no `"` before it; `None` exactly when no `"` is left |
| Tokenizer.LineLength | src/commands/script_parser.rs:311-319 | the distance to the next newline: no newline before it, a newline (or the end) right at it |
| Tokenizer.ParseWhitespaceTerminated | src/commands/script_parser.rs:294-309 | the word is the bytes up to the first whitespace byte or `;`, and that terminator is left unread |
| Tokenizer.ParseQuotedString | src/commands/script_parser.rs:277-292 | the value is exactly the bytes between the opening `"` and the next `"` (no escapes); both quotes are consumed; end of input first gives `UnmatchedQuote` |
| Tokenizer.SkipComment | src/commands/script_parser.rs:311-319 | stops on the next newline without consuming it |
| Tokenizer.LexWordStep | src/commands/script_parser.rs:332-339 | a word starting with `@`, `$` or a plain byte becomes one `Directive`, `Variable` or `AddTag` token holding the whole word, sigil included, and lexing resumes at its terminator |
| Tokenizer.LexRemoveStep | src/commands/script_parser.rs:340-346 | `-word` becomes `RemoveTag(word)` without the `-` |
| Tokenizer.LexQuoteStep | src/commands/script_parser.rs:328-331 | a quote becomes one `String` token and lexing resumes after the closing quote, or lexing fails when no quote closes it |
| Tokenizer.LexByteStep | src/commands/script_parser.rs:347-371 | `= { } ;` and newline are single-byte tokens; `#` drops the line up to the newline; `:`, space, CR and tab produce nothing |
| Tokenizer.ReadWordToken | src/commands/script_parser.rs:332-346 | the word-token branches of the loop consume at least one byte and produce the token `Lex` reads there |
| Tokenizer.NextToken | src/commands/script_parser.rs:326-376 | one turn of the `tokenize` loop consumes at least one byte and agrees with `Lex` on what it emits or on the failure |
| Tokenizer.Tokenize | src/commands/script_parser.rs:321-380 | returns exactly the tokens of `Lex`, each annotated with the line counter, or the lexing failure |
| Tokenizer.AnnotateLines | src/commands/script_parser.rs:324-368 | every token keeps its kind and stands on line 1 + the number of `LineBreak` tokens before it |
| TokenizerProperties.FirstLine | src/commands/script_parser.rs:324 | the first token is on line 1 |
| TokenizerProperties.CommentKeepsNewline | src/commands/script_parser.rs:311-319 | a comment drops its bytes but keeps the newline that ends it, which still yields a `LineBreak` |
| TokenizerProperties.LexLexable | src/commands/script_parser.rs:321-380 | every token produced has the grammar's shape: an `AddTag` is non-empty and does not start with a special byte; no word holds whitespace or `;`; names keep their sigil; strings hold no `"`; `Colon` is never produced |
| TokenizerProperties.SpaceSkipped | src/commands/script_parser.rs:369-371 | a space before the rest of the input changes nothing |
| TokenizerProperties.LexRender | src/commands/script_parser.rs:321-380 | a printed token followed by a space lexes back to that token |
| TokenizerProperties.LexUnlex | src/commands/script_parser.rs:321-380 | lexing inverts printing for every sequence of well-shaped tokens |
| TokenizerProperties.RelexTokens | src/commands/script_parser.rs:321-380 | printing the tokens of any script and lexing the print gives the same tokens |
| ScriptParser.TagListEnd | src/commands/script_parser.rs:63-90 | a tag list runs over `$variable`, `AddTag`, `RemoveTag` and `LineBreak` tokens and stops, without consuming, at the first token of another kind |
| ScriptParser.DefinitionEnd | src/commands/script_parser.rs:194-207 | a definition runs over `AddTag`, `RemoveTag` and `$variable` tokens and stops at the first other token |
| ScriptParser.Expand | src/commands/script_parser.rs:64-88 | when every variable holds only tag operations, the expansion of a run holds only tag operations; the only failure is an undefined variable |
| ScriptParser.Extend | src/commands/script_parser.rs:195-204 | one token keeps the earlier operations and adds its own or its variable's stored ones; it fails exactly on an undefined variable, naming it and citing its line |
| ScriptParser.ExpandErr | src/commands/script_parser.rs:66-67 | once a prefix of the run fails, the whole run fails with that error |
| ScriptParser.ExpandFails | src/commands/script_parser.rs:64-67 | a run fails to expand exactly when it holds an undefined variable; the error then names the first one and cites that token's line |
| ScriptParser.ReplayAppend | src/commands/script_parser.rs:69-75 | replaying a variable's operations inline is replaying them after those before |
| ScriptParser.TagListOutcome | src/commands/script_parser.rs:55-98 | on success the cursor stops at the end of the run and the only change to the document is that the resolved tags join `tags`; on failure the document is unchanged |
| ScriptParser.FileOutcome | src/commands/script_parser.rs:158-180 | a file declaration appends exactly one file on success, leaves the cursor at the end of its tag list, leaves the sets alone and loses nothing the document held |
| ScriptParser.VariableOutcome | src/commands/script_parser.rs:182-211 | on success the name's stored value becomes the expansion of the definition run, overwriting any earlier value, and nothing else changes; on failure the document is unchanged; stored values stay lists of tag operations |
| ScriptParser.DirectiveOutcome | src/commands/script_parser.rs:213-239 | a directive fails with `EmptyDirective`, citing its line and leaving the document unchanged, exactly when no `String` follows it; otherwise it consumes the name and the value, and the value is stored under the name, overwriting any earlier one, with nothing else changed |
| ScriptParser.SetBody | src/commands/script_parser.rs:109-145 | the set-body loop loses nothing the document held and keeps the variables and the sets |
| ScriptParser.SetOutcome | src/commands/script_parser.rs:100-156 | a set declaration loses nothing the document held and consumes at least the `{` |
| ScriptParser.Step | src/commands/script_parser.rs:41-50 | one turn of `from_tokens` consumes at least one token and keeps every stored variable a list of tag operations; a token that starts no statement is skipped with the document unchanged |
| ScriptParser.InsertAll | src/commands/script_parser.rs:93-95 | the loop inserting every element of one set into another yields their union |
| ScriptParser.ApplyOps | src/commands/script_parser.rs:69-75 | replaying a stored definition inserts on `AddTag` and removes on `RemoveTag`, left to right |
| ScriptParser.ApplyToken | src/commands/script_parser.rs:64-88 | one token of the tag-list loop updates the tag set by the replay of its operations, or fails on an undefined variable |
| ScriptParser.ResolveTagList | src/commands/script_parser.rs:62-91 | the tag-list loop yields the left-to-right replay, from the empty set, of the run's expansion, and stops at the end of the run; otherwise it fails with the expansion's error, an undefined variable |
| ScriptParser.ReadDefinition | src/commands/script_parser.rs:193-208 | the definition loop yields the expansion of the definition run, or its first undefined variable |
| ScriptParser.Data.constructor | src/commands/script_parser.rs:27-36 | a new `Data` is the empty document |
| ScriptParser.Data.HandleTagList | src/commands/script_parser.rs:55-98 | the new state, result and cursor are those of `TagListOutcome` |
| ScriptParser.Data.HandleFile | src/commands/script_parser.rs:158-180 | the new state, result and cursor are those of `FileOutcome` |
| ScriptParser.Data.HandleVariable | src/commands/script_parser.rs:182-211 | the new state, result and cursor are those of `VariableOutcome` |
| ScriptParser.Data.HandleDirective | src/commands/script_parser.rs:213-239 | the new state, result and cursor are those of `DirectiveOutcome` |
| ScriptParser.Data.HandleSet | src/commands/script_parser.rs:100-156 | the new state, result and cursor are those of `SetOutcome` |
| ScriptParser.Data.FromTokens | src/commands/script_parser.rs:38-53 | `from_tokens` returns the first error of `Parse`, or a fresh `Data` holding the document of `Parse` |
| ScriptProperties.EmptyWellFormed | src/commands/script_parser.rs:27-36 | the empty document satisfies the document invariants |
| ScriptProperties.FileWellFormed | src/commands/script_parser.rs:158-180 | a file declaration keeps the invariants, appends exactly one file with the declared path and leaves the sets alone |
| ScriptProperties.RepeatedFileRejected | src/commands/script_parser.rs:169-171 | a declaration fails as a repeat, citing its own line, exactly when an earlier file has the same path |
| ScriptProperties.PathsAre | src/commands/script_parser.rs:169-172 | the recorded paths are exactly the paths of the files |
| ScriptProperties.EmptyDefinition | src/commands/script_parser.rs:194-209 | a name followed by a non-definition token (as in `$x = a;`) stores an empty definition and consumes that token |
| ScriptProperties.VariableDefines | src/commands/script_parser.rs:182-211 | a definition fails exactly when its run holds an undefined variable, naming the first one and citing its line; on success the name is defined, every other variable keeps its value, and the token ending the run is consumed |
| ScriptProperties.SetBodyWellFormed | src/commands/script_parser.rs:109-145 | the indices gathered in a set body are exactly the consecutive indices of the files declared since the `{`, and the tags gathered are tags of files |
| ScriptProperties.SetWellFormed | src/commands/script_parser.rs:100-156 | a set declaration keeps the invariants and pushes exactly one set, whose indices are exactly the files declared between its braces |
| ScriptProperties.AutotagCollects | src/commands/script_parser.rs:114-133 | once `@autotag` has been read, the tags the body gathers include those of every file declared from then on (`SetTagsAre` gives the exact set) |
| ScriptProperties.SetBodyRejects | src/commands/script_parser.rs:114-143 | inside a set body, a directive other than `@autotag` fails citing its own line, and any token other than a string, a line break, `}` or a directive fails citing the line of the `{` |
| ScriptProperties.SetRejectsAfterOpen | src/commands/script_parser.rs:100-143 | right after `{`, a foreign directive gives `UnexpectedDirective` with its own line and an unexpected token gives `UnexpectedToken` with the line of the `{` |
| ScriptProperties.SetTagsAre | src/commands/script_parser.rs:100-156 | the tags of a pushed set are exactly those of the files declared between its braces after the first `@autotag` (none without one), plus the tags of the tag list after the `}`; the body declares one file per string before the first `}` |
| ScriptProperties.StepWellFormed | src/commands/script_parser.rs:41-50 | every turn of `from_tokens` keeps the document invariants |
| ScriptProperties.RunWellFormed | src/commands/script_parser.rs:38-53 | every successful run keeps the document invariants |
| ScriptProperties.ParseWellFormed | src/commands/script_parser.rs:38-53 | a parsed document has: variables holding only tag operations, the recorded paths equal to the files' paths and pairwise distinct, set indices consecutive, increasing and below the file count, and `tags` equal to the union of the file and set tags |
| ScriptProperties.ReplayMembership | src/commands/script_parser.rs:62-91 | after a replay, a tag is present exactly when some `AddTag` of it is not followed by a `RemoveTag` of it, or it was there before and is never removed |
| ScriptProperties.TagListMembership | src/commands/script_parser.rs:55-98 | a tag list resolves to exactly the tags added and not removed afterwards |
| Query.ParseQuery | src/query.rs:57-93 | the loop builds exactly the three lists of `Breakdown` |
| Query.BreakdownSize | src/query.rs:61-86 | empty words are skipped, and every other word lands in exactly one list |
| Query.BreakdownAppend | src/query.rs:57-93 | each list keeps the words in query order: sorting two pieces of a query and concatenating gives the lists of the whole |
| Query.WordKinds | src/query.rs:62-86 | an empty word contributes nothing; `-x` adds `x` (possibly empty) to the excluded tags; `@x` adds one meta-tag; any other word goes whole into the included tags |
| Query.MetaTagShape | src/query.rs:69-81 | a meta-tag's name is the text before the first `=`; it has no value exactly when there is no `=`; otherwise its value is the text between the first `=` and the next one |
| Text.Split | src/query.rs:20 | splitting gives at least one piece, no piece holds the separator, and joining the pieces with it gives the text back |
| Query.ParseU32 | src/query.rs:33-34 | a day, month, hour or minute that reads is within the unsigned 32-bit range |
| Query.ParseI32 | src/query.rs:35 | a year that reads is within the signed 32-bit range |
| Query.ParseU32Decimal | src/query.rs:33-34 | every unsigned 32-bit value reads back from its decimal numeral, with or without a leading `+` |
| Query.ParseI32Decimal | src/query.rs:35 | every signed 32-bit value reads back from its signed decimal numeral |
| Query.ParseU32Rejects | src/query.rs:33-34 | the empty text, text starting with neither `+` nor a digit, and numerals of values beyond 32 bits do not read |
| Query.DateShape | src/query.rs:18-41 | an accepted date string has exactly one `_`, exactly two `-` in its date part and exactly one `:` in its time part |
| Query.DateAccepted | src/query.rs:18-54 | a well-shaped string of readable numbers naming an existing date and time gives the calendar's timestamp of those numbers |
| Query.DateBeforeTime | src/query.rs:48-50 | the date is checked before the time: a date that does not exist is "Invalid date", whatever the time |
| Query.LookupTags | src/query.rs:104-116 | a tag loop appends the ids of the known names and collects the unknown names, both in order |
| Query.UnknownNamesAre | src/query.rs:104-116 | a name is reported unknown exactly when it occurs and the table lacks it |
| Query.KnownIdsInOrder | src/query.rs:104-116 | when every name is known, the ids are the table's ids of the names, position by position |
| Query.SetDate | src/query.rs:128 | setting a date bound changes that bound only |
| Query.SetFlag | src/query.rs:153-164 | switching a filter on changes that flag only |
| Query.HandleMetaTags | src/query.rs:123-167 | the meta-tag loop yields exactly the search and log of `InterpretAll` |
| Query.ParseQueryString | src/query.rs:95-173 | returns exactly `QueryString`: the tag complaint, the meta-tag complaints, or the search |
| Query.KindNames | src/query.rs:124-165 | the eight meta-tag names and their meanings, one by one |
| Query.InterpretStep | src/query.rs:123-167 | one meta-tag keeps the tag lists and adds one log line if it complains, none otherwise |
| Query.InterpretLog | src/query.rs:123-167 | the meta-tags keep the tag lists and extend the log by one line per complaint, keeping earlier lines |
| Query.ComplaintsZero | src/query.rs:123-167 | there are no complaints exactly when no meta-tag complains |
| Query.FlagStep | src/query.rs:153-164 | one meta-tag switches a filter on exactly when it names it |
| Query.FlagsFromNames | src/query.rs:153-164 | a filter is on afterwards exactly when it was on before or some meta-tag names it |
| Query.DateStepIs | src/query.rs:125-152 | a date meta-tag sets its bound exactly when its value reads; otherwise the bound is kept |
| Query.LastDateWins | src/query.rs:125-152 | the last successfully read meta-tag for a bound decides it; later failed ones change nothing |
| Query.DateKept | src/query.rs:125-152 | without a successfully read meta-tag for a bound, the bound keeps its value |
| Query.TagNotFound | src/query.rs:103-120 | any unknown tag name, included or excluded, makes the result the single "Tag not found" line listing the unknown names, whatever the meta-tags say |
| Query.UnknownsAre | src/query.rs:103-120 | the names listed are exactly the unknown ones among the included and excluded tags |
| Query.QueryAccepted | src/query.rs:117-172 | the search is accepted exactly when every tag name is known and no meta-tag complains |
| Query.AcceptedIds | src/query.rs:103-120 | an accepted search holds the ids of the included and excluded names, in query order |
| EntryQueries.QuestionMarkList | src/database/models.rs:93-103 | the loop builds exactly `Placeholders(number)` |
| EntryQueries.PlaceholdersShape | src/database/models.rs:93-103 | "()" for `number < 1`; otherwise `2n+1` characters, "(" then `?` and `,` alternating, then ")" |
| EntryQueries.PlaceholdersCount | src/database/models.rs:93-103 | the list holds `n` placeholders, none when `n < 1` |
| EntryQueries.PushIds | src/database/models.rs:109-111 | the id loop appends one `Int` per id, in order |
| EntryQueries.TagConditions | src/database/models.rs:108-138 | the tag blocks emit the inclusion and then the exclusion condition, each only when its list is non-empty, with their ids |
| EntryQueries.PushTime | src/database/models.rs:140-143 | a time block emits its condition and timestamp only when the bound is present |
| EntryQueries.TimeConditions | src/database/models.rs:140-155 | the four time blocks emit their conditions and timestamps in the order of the code |
| EntryQueries.PushFlag | src/database/models.rs:157-159 | a flag block emits its condition only when its flag is on |
| EntryQueries.FlagConditions | src/database/models.rs:157-175 | the four flag blocks emit their conditions in the order of the code, the last one when set files are not included |
| EntryQueries.FlagParamsEmpty | src/database/models.rs:157-175 | no flag condition binds a value |
| EntryQueries.GenerateQuery | src/database/models.rs:105-178 | the condition is the enabled conditions joined with " and ", and the values are theirs, in order |
| EntryQueries.IncludeHeadFree | src/database/models.rs:113-117 | the fixed text before the inclusion list holds no placeholder |
| EntryQueries.IncludeTailFree | src/database/models.rs:118-120 | the fixed text after the inclusion list holds no placeholder |
| EntryQueries.ExcludeHeadFree | src/database/models.rs:130-134 | the fixed text before the exclusion list holds no placeholder |
| EntryQueries.ExcludeTailFree | src/database/models.rs:135 | the fixed text after the exclusion list holds no placeholder |
| EntryQueries.UntaggedConditionFree | src/database/models.rs:166-169 | the untagged condition holds no placeholder |
| EntryQueries.ConditionsBalanced | src/database/models.rs:105-175 | every condition holds as many placeholders as it binds values |
| EntryQueries.PlaceholdersMatchParams | src/database/models.rs:105-177 | the number of `?` in the returned condition equals the number of values |
| EntryQueries.ParamsOrder | src/database/models.rs:105-155 | the values are the included ids, the excluded ids, then the present bounds among created after, created before, updated after, updated before |
| EntryQueries.ConditionCount | src/database/models.rs:108-175 | one condition per filter in use |
| EntryQueries.ParentSetLast | src/database/models.rs:173-177 | unless set files are included, the last condition is `e.parent_set is null`, binding nothing, and the joined text ends with it |
| EntryQueries.DefaultQuery | src/database/models.rs:173-177 | the default search gives exactly "e.parent_set is null" and no values |
| Media.OfClassifies | src/media.rs:15-22 | "jpg", "jpeg" and "png" exactly are images; "webm", "mp4" and "gif" are animated; "mp3" and "wav" are sounds; every other string is a document |
| Media.OfIsExact | src/media.rs:16-20 | matching is exact: "JPG", ".jpg", "" and "Png" are documents |

## Left out

- The UTF-8 conversion of token text (`String::from_utf8(...).unwrap()`) is not modelled: tokens hold bytes, and the panic on invalid UTF-8 is absent.
- The unterminated-quote panic is modelled as the lexing failure `UnmatchedQuote`, so `Tokenize` returns an error where the source aborts.
- The handlers' `panic!("Invalid token")` guards are preconditions on the kind of the token under the cursor, which `from_tokens` always satisfies. The `panic!("Wrong usage")` at line 73 is proved unreachable by the invariant `Valid()`.
- Parse errors are a datatype (line plus kind plus name) rather than formatted "Line n: ..." strings.
- Token lines are unbounded integers; the `i64` counter cannot overflow on any real script.
- The tag table lookup (`db.get_tag`, async, over the database) is a `map<string, int>` parameter.
- Chrono's date and time validity and its Unix timestamp are the `Calendar` parameter. The model keeps the order of the checks and the error strings, not the calendar arithmetic.
- Query words are `seq<char>`. `part[1..]` drops the first character, which is also the first byte because it is `-` or `@`.
- The meaning of the SQL texts is not modelled, only their characters and placeholders. This includes the misspelt `distict` and the constant `3` in the inclusion condition, where the number of included tags appears to be meant.
- The orchestration in `src/commands.rs` (verifying tags and files, copying, creating entries and sets) is not part of this model; it is database and filesystem I/O.
- The database, vault and sync layers (`src/database.rs`, `src/sync_db.rs` and `src/vault.rs` with their submodules) are I/O behind a mutex. Their copies of `question_mark_list` are identical to the one modelled.
- Thumbnail generation (`src/media.rs:25-67`) runs external processes and is not modelled.
- The HTTP routes, templates, responders and upload script are not modelled.
- `src/scripts/util.rs` is not modelled: the crate does not declare it, and it duplicates the tokenizer helpers.
- The methods are factored into loops and helper methods, for example `ResolveTagList`, `ReadDefinition`, `NextToken` and the `generate_query` stages. The order of the state changes inside one handler is kept. Aliasing between a `Data` and other objects is not a concern, since `Data` holds only values.
