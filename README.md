# Calendar splitter: a verified model of its rule engine

The calendar splitter reads one upstream iCalendar feed and writes one feed
per course. It tags every `VEVENT` with a course code that it detects in the
event's summary or description. It then drops the events that the course's
match strategies reject and rewrites the summary and description of the kept
ones from the course's rule document. Finally it files each event into its
course's bucket, and each bucket becomes a file named after the course and a
secret token. Log lines are scrubbed of tokens, query strings and long hex
identifiers before they are written.

This project models that core in Dafny and proves what it promises:

- `CourseDetect`: course detection (`detect_course_code`).
- `MatchEngine`: the match-strategy evaluator (`matches_strategy`, `matches_item`).
- `Extraction`: number and kind extraction (`extract_number_and_kind`).
- `Rewrite`: summary and description rewriting (`rewrite_event`).
- `Templates`: `str.format` over the title and description templates.
- `Rules`: the rule-document loader (`detect_schema`, `CourseRules.from_json`,
  `load_course_rules_dir`).
- `Split`: the event loop of `split_and_write`, with its feed-naming step.
- `Tokens`: the token map (`ensure_token`).
- `LogSanitize`: log redaction (`_redact`).
- `SplitIcs`: the helpers of the older single-file script `split-ics.py`.
  Its `ensure_token` and `redact_text` are the same code as `tokens.py` and
  `log_sanitize.py`, so `Tokens` and `LogSanitize` model them too.

Supporting modules hold the shared pieces:

- `Json`: parsed JSON values and Python truthiness.
- `Text`: Python's `strip`, `join`, `int` and `str` of integers.
- `Patterns`: scanners for the fixed regular expressions.
- `KeyedFold`: the generic "last one wins" fold that all the dict-filling loops share.
- `EventTypes`: the configurable event-type records.
- `Regex`: user regular expressions, as an opaque engine passed in as a parameter.

Where the source changes state step by step, the model does too:

- `from_json`, `ingest`, the splitter loop, `apply_rewrite` and the loaders are methods with loops.
- Each of these methods is proved equal to a specification function, and the lemmas are about that function.
- The token map is a class whose `EnsureToken` updates its map in place.

An operation that raises in Python returns `None` or `Err` in the model, so
the error paths are modelled instead of excluded.

## Model

| member | source | states |
|---|---|---|
| Json.GetOr | scripts/rules.py:83 | `d.get(key, default)`: the stored value when the key is present, else the default |
| Json.PyIntOf | scripts/rules.py:82-91 | `int(v)` of an item number: an integer is kept, a boolean reads as 1 or 0, a string is read as `int(str)` reads it (`Text.PyInt`); `None`, lists and objects fail as `int` raises |
| Json.IterItems | scripts/rules.py:118 | `arr or []` iterated: falsy gives no items, a list gives its items, and only a truthy number or boolean fails |
| Text.Strip | scripts/rules.py:56 | `str.strip()`: empty exactly for a blank text; otherwise the longest inner slice that starts and ends with a non-blank character |
| Text.PyInt | scripts/rewrite.py:83 | `int(text)` fails on a blank text |
| Text.PyIntOfDigits | scripts/rewrite.py:83 | `int` of a non-empty run of digits is their decimal value |
| Patterns.FindKthCode | scripts/rewrite.py:15 | the position of the leftmost whole-word `[A-Z]{2}\d{4}` of a text, or none exactly when there is no such word |
| Patterns.FindParenCode | scripts/rewrite.py:19 | the position of the leftmost `(` code `)` whose code starts with two capitals and holds a digit, or none exactly when there is none |
| Patterns.DelimitedCode | scripts/rewrite.py:22 | the code between `/course/` and `/` (or `(` and `)`) has four or more characters from `[A-Z0-9-]` |
| Patterns.FindDelimitedCode | scripts/split-ics.py:237-238 | the position of the leftmost delimited code of four or more `[A-Z0-9-]` characters, or none exactly when there is none |
| Patterns.SearchKeywordNumber | scripts/split-ics.py:240-242 | `\bKeyword\s+(\d+)\b` ignoring case: a number is found exactly when some position matches, and it is the one at the leftmost match |
| CourseDetect.KthCodeIn | scripts/rewrite.py:37-40 | the first pattern: two capitals and four digits as a whole word, the leftmost one |
| CourseDetect.ParenCodeIn | scripts/rewrite.py:42-45 | the second pattern: the leftmost parenthesised code, which is at least three `[A-Z0-9]` characters |
| CourseDetect.CourseUrlCodeIn | scripts/rewrite.py:47-50 | the third pattern: the code of the leftmost `/course/<code>/`, at least four characters |
| CourseDetect.DetectCourseCode | scripts/rewrite.py:29-52 | the KTH code of the summary wins, then the parenthesised code, then the course path of the description; none exactly when all three patterns fail |
| CourseDetect.ParenCodeHasDigit | scripts/rewrite.py:17-19 | every parenthesised code holds a digit |
| CourseDetect.NoDigitsNoSummaryCode | scripts/rewrite.py:17-19 | a summary without digits (`(PDF)`, `(HTML)`) yields no summary code, so only the description can give a course |
| CourseDetect.NoCapitalPairNoSummaryCode | scripts/rewrite.py:13-19 | without two adjacent capitals (`(2024)`, lower-case codes) the summary yields no code |
| CourseDetect.KthCodeWins | scripts/rewrite.py:37-40 | a KTH code anywhere in the summary decides the course, at or before its position, over any parenthesised code or course path |
| CourseDetect.EmbeddedCodeIsNotDetected | scripts/rewrite.py:15 | a summary that is a single word of other than six characters has no whole-word KTH code and no parenthesised code, so with no description no course is found |
| CourseDetect.EmbeddedCodeExample | legacy/tests/test_rewrite.py:71 | `XIS1200X` yields no course |
| EventTypes.NewStrategy | legacy/tests/test_event_system.py:20-26 | a strategy read without a priority gets priority 99 |
| EventTypes.DisplayNameOr | legacy/tests/test_event_system.py:184-188 | an event type without a display name shows its type capitalised |
| EventTypes.LookupItem | scripts/rewrite.py:158 | `items.get(key)`: found exactly when an entry has the key, and then it is the item of the first entry with the key (the only one, in a dict) |
| EventTypes.FindType | scripts/rewrite.py:151-154 | the event type found has the given type and no earlier one has it; none exactly when no type has it |
| MatchEngine.DayNumber | scripts/rewrite.py:251-254 | a name whose lower-case form is the `d`-th of monday..sunday maps to `d`; any other name maps to -1 |
| MatchEngine.RemoveColons | scripts/rewrite.py:265 | the result has no colon and is the input when the input had none |
| MatchEngine.RemoveColonsAppend | scripts/rewrite.py:265 | `replace(":", "")` distributes over concatenation |
| MatchEngine.ParseTime | scripts/rewrite.py:264-266 | a time parses only when at least two characters remain after removing colons |
| MatchEngine.ClockTimes | scripts/rewrite.py:260-266 | `HH:MM` and `HHMM` both parse to hour `HH` and minute `MM` |
| MatchEngine.RangeCheck | scripts/rewrite.py:259-280 | the check raises exactly when a bound does not parse; it passes only when range start <= event minute < range end |
| MatchEngine.EvalTime | scripts/rewrite.py:238-282 | a time strategy raises only through its range bounds, and holds only for an event with a start, a structured timeslot and a matching day |
| MatchEngine.Eval | scripts/rewrite.py:238-335 | `matches_strategy` raises only when some time strategy in it, nested in `all`/`any` included, has an unparsable bound |
| MatchEngine.EvalAll | scripts/rewrite.py:316-323 | the `all` loop raises only through a sub-strategy that can raise |
| MatchEngine.EvalAny | scripts/rewrite.py:325-332 | the `any` loop raises only through a sub-strategy that can raise |
| MatchEngine.UnknownNeverMatches | scripts/rewrite.py:334-335 | a strategy of unknown kind is false |
| MatchEngine.EmptyTextNeverMatches | scripts/rewrite.py:284-308 | an empty description or url pattern, or an empty location, is false |
| MatchEngine.InvalidPatternNeverMatches | scripts/rewrite.py:290-314 | a pattern that does not compile is false rather than an error |
| MatchEngine.DescriptionSearchesBoth | scripts/rewrite.py:290-293 | a description strategy searches `summary + " " + description` |
| MatchEngine.UrlSearchesDescriptionOnly | scripts/rewrite.py:310-312 | a url strategy searches the description alone; events with the same description get the same verdict |
| MatchEngine.LocationMatchesSubstring | scripts/rewrite.py:297-302 | a non-empty location that occurs in the event's location matches |
| MatchEngine.LocationIgnoresCase | scripts/rewrite.py:302 | lower-casing the strategy's location and the event's location does not change the verdict |
| MatchEngine.ItemMatches | scripts/rewrite.py:357-368 | `matches_item` raises only through one of the item's strategies that can raise |
| MatchEngine.EvalAllMeaning | scripts/rewrite.py:316-323 | `all` holds exactly when every sub-strategy holds, so it holds over an empty list |
| MatchEngine.EvalAnyMeaning | scripts/rewrite.py:325-332 | without errors, `any` holds exactly when some sub-strategy holds, so it fails over an empty list |
| MatchEngine.TimeNeedsStartAndFields | scripts/rewrite.py:240-246 | a time strategy is false for an event without a start and for a free-text timeslot |
| MatchEngine.UnknownDayNeverMatches | scripts/rewrite.py:249-256 | a day name outside Monday..Sunday never matches a real weekday |
| MatchEngine.EmptyTimeslotMatches | scripts/rewrite.py:243-282 | a timeslot with neither day nor range matches every event with a start |
| MatchEngine.OneBoundIgnored | scripts/rewrite.py:259 | the range is checked only when both bounds are given |
| MatchEngine.RangeIsHalfOpen | scripts/rewrite.py:275-280 | an event at the start minute matches (when the range is non-empty); one at the end minute does not |
| MatchEngine.InsertByPriority | scripts/rewrite.py:361 | insertion by priority keeps every strategy (same multiset) and adds nothing else |
| MatchEngine.InsertIsStable | scripts/rewrite.py:361 | inserting into a sorted list puts the new strategy after every strategy of equal priority, whose order is kept |
| MatchEngine.InsertKeepsSorted | scripts/rewrite.py:361 | inserting into a priority-sorted list keeps it sorted |
| MatchEngine.SortByPriority | scripts/rewrite.py:361 | `sorted(..., key=priority)` is a permutation sorted by priority, and stable: the strategies of each priority keep their input order |
| MatchEngine.MatchesItem | scripts/rewrite.py:338-368 | the loop tries the sorted strategies and stops at the first match; it equals the item's verdict |
| MatchEngine.ItemMatchesMeaning | scripts/rewrite.py:357-368 | an item matches exactly when it has no strategies or one of them matches, so sorting does not change the verdict |
| Extraction.PatternDecision | scripts/rewrite.py:74-89 | a pattern decides only when it matches; an unnumbered type gives no number, and a number is `int` of the first group |
| Extraction.PatternDecisionCases | scripts/rewrite.py:76-89 | for a numbered type that matches: no group gives `(None, type)`; a first group gives `(int(group), type)`, or no decision (`continue`) when `int` fails |
| Extraction.PatternsDecision | scripts/rewrite.py:73-89 | the decision of the first deciding pattern of a type, in declared order |
| Extraction.TypesDecision | scripts/rewrite.py:71-90 | the decision of the first deciding type, in declared order; none exactly when no pattern of any type decides |
| Extraction.AsInt | scripts/rewrite.py:100-117 | a number read from a run of digits is a non-negative integer |
| Extraction.LegacyExtract | scripts/rewrite.py:92-118 | `summary_regex` (labelled lecture) wins, then Lecture, Lab, Exercise; no kind exactly when all fail, and a kind always comes with a number |
| Extraction.Extract | scripts/rewrite.py:55-118 | every kind returned is lecture, lab, exercise or one of the course's event types; no kind means no number |
| Extraction.ScanPatterns | scripts/rewrite.py:72-90 | the loop over one type's patterns, with its early returns and `continue`, yields the first deciding pattern's decision |
| Extraction.ScanTypes | scripts/rewrite.py:71-90 | the loop over the event types yields the first deciding type's decision, or none |
| Extraction.LegacyChain | scripts/rewrite.py:92-118 | the legacy chain of searches computes `LegacyExtract` |
| Extraction.ExtractNumberAndKind | scripts/rewrite.py:68-118 | the event types first, then the legacy chain, compute `Extract` |
| Extraction.EventTypesFirst | scripts/rewrite.py:70-90 | once an event-type pattern decides, no legacy pattern is consulted, and the kind is that type's |
| Extraction.FirstDecidingPattern | scripts/rewrite.py:71-89 | when no earlier type and no earlier pattern of its type decides, the first deciding pattern gives the result |
| Extraction.NoNumberWithoutGroup | scripts/rewrite.py:71-86 | the first matching pattern (of any type, at any position) yields `(None, type)` when its type is unnumbered or the pattern has no group |
| Extraction.GroupNumberRead | scripts/rewrite.py:71-83 | the first matching pattern of a numbered type whose first group is an integer yields `(int(group), type)` |
| Extraction.SummaryRegexBeforeBuiltins | scripts/rewrite.py:93-99 | when no event type decides, a number from `summary_regex` wins and is labelled lecture |
| Extraction.BuiltinOrder | scripts/rewrite.py:100-117 | Lecture beats Lab, which beats Exercise, wherever they occur in the summary |
| Extraction.NoMatchGivesNothing | scripts/rewrite.py:118 | when nothing matches the result is `(None, None)` |
| Extraction.LegacyNumbersNonNegative | scripts/rewrite.py:100-117 | numbers from the built-in patterns are never negative |
| Templates.FieldEnd | scripts/rewrite.py:197 | the end of a placeholder is the first `}` after its `{` |
| Templates.ParseTemplate | scripts/rewrite.py:197 | every placeholder of a parsed template is a plain field name |
| Templates.PlainTextParse | scripts/rewrite.py:197 | a template without braces parses to one run of literal text |
| Templates.Format | scripts/rewrite.py:197-206 | `str.format` leaves a template without braces unchanged |
| Templates.FormatPlainText | scripts/rewrite.py:197 | a template without braces formats to itself |
| Templates.FieldThenText | scripts/rewrite.py:197 | a placeholder followed by plain text formats to the value followed by the text |
| Templates.DefaultTitleFormat | scripts/rules.py:45 | the default title renders as `kind n - title - course` |
| Templates.DefaultDescriptionFormat | scripts/rules.py:46 | the default description renders as `module`, `\nCanvas: canvas`, a blank line, then `old_desc` |
| Rules.SchemaASpec | scripts/rules.py:55-109 | Schema A without `course` raises; a loaded record's course is `str(data["course"]).strip()` |
| Rules.SchemaBSpec | scripts/rules.py:110-158 | Schema B with a blank `course_code` raises; a loaded record's course is its stripped, non-empty `course_code` |
| Rules.FromJsonSpec | scripts/rules.py:52-158 | a record loads only from a JSON object whose schema is detected |
| Rules.DetectSchema | scripts/rules.py:14-36 | a marker A/a/1 gives A and B/b/2 gives B; otherwise `course` alone or with `course_code` gives A, `course_code` alone gives B, neither is an error |
| Rules.OptionalText | scripts/rules.py:58 | `(v or "").strip() or None`: falsy gives none, a result is stripped and non-empty, and only a truthy non-string raises |
| Rules.EntryOf | scripts/rules.py:150-153 | a string title or module is stored stripped; a missing one is stored as `""` |
| Rules.ItemEntry | scripts/rules.py:117-153 | an item contributes exactly when it is an object whose `int(number)` succeeds and is positive, and then it contributes that number and its entry |
| Rules.IngestSpec | scripts/rules.py:117-153 | ingesting fails exactly when the item collection cannot be iterated |
| Rules.Ingest | scripts/rules.py:117-153 | the loop that checks and stores the items one by one computes `IngestSpec` |
| Rules.FromJson | scripts/rules.py:52-158 | building the record field by field computes `FromJsonSpec`, errors included |
| Rules.IngestWellFormed | scripts/rules.py:135-153 | ingesting keeps every key positive and every stored title and module stripped |
| Rules.FromJsonWellFormed | scripts/rules.py:52-158 | a loaded record holds only positive numbers, stripped titles and modules, and an absent or stripped non-empty canvas |
| Rules.SchemaShapes | scripts/rules.py:55-158 | Schema A fills only `lectures`; Schema B keeps the default gate, regex and templates |
| Rules.MissingCourseFails | scripts/rules.py:55-113 | an explicit A marker without `course` fails, and Schema B with a blank `course_code` fails |
| Rules.SummaryRegexFallback | scripts/rules.py:64-69 | a falsy `summary_regex` gives none; one that does not compile gives the default Lecture pattern |
| Rules.SchemaBItemsNeverFail | scripts/rules.py:110-158 | bad items never abort a Schema B load whose arrays are lists or absent |
| Rules.SchemaALastWins | scripts/rules.py:100-108 | the entry under a number is that of the last valid item with that number |
| Rules.LoadCourseRulesDir | scripts/rules.py:161-177 | the loop over the parsed files computes the keyed fold `LoadDirSpec` |
| Rules.LoadDirKeyedByCourse | scripts/rules.py:169-173 | each loaded rule set is stored under its own course |
| Rules.LoadDirLastWins | scripts/rules.py:169-175 | a later file for the same course overwrites an earlier one |
| Rules.LoadDirSkipsFailures | scripts/rules.py:170-175 | a file that fails to parse or load changes nothing |
| KeyedFold.UpsertKeys | scripts/rules.py:169-175 | the keys after the fold are the old keys plus those of the contributing elements |
| KeyedFold.UpsertLastWins | scripts/rules.py:169-175 | the value under a key is that of the last element contributing the key |
| KeyedFold.UpsertPreserves | scripts/split-ics.py:221-231 | a property every contributed entry has holds of every stored entry |
| Rewrite.ModernItem | scripts/rewrite.py:148-163 | an item is found only when the course has event types, the kind is given and a type of that kind exists, and then it is `items.get(n)` of the first such type |
| Rewrite.LegacyEntry | scripts/rewrite.py:166-173 | the legacy entry comes from the map of the event's kind under its number |
| Rewrite.Resolve | scripts/rewrite.py:142-180 | the number and kind are those `extract_number_and_kind` returns; an item with non-empty metadata supplies title and module; otherwise the legacy entry for the number in the table of the event's kind (lectures, labs or exercises) supplies them stripped; with neither both are empty |
| Rewrite.Prefix | scripts/rewrite.py:187-195 | a found event type gives its display name, a kind without a type gives the capitalised kind; without event types or kind, lecture gives Lecture, lab gives Lab, anything else Exercise |
| Rewrite.TitleEnv | scripts/rewrite.py:197 | `format` gets exactly `kind`, `n`, `title` and `course` |
| Rewrite.DescriptionEnv | scripts/rewrite.py:202-206 | `format` gets exactly `module`, `canvas` and `old_desc` |
| Rewrite.FindEventType | scripts/rewrite.py:151-154 | the `for`/`break` search computes the first type with the kind |
| Rewrite.ResolveLookups | scripts/rewrite.py:142-180 | reassigning `title`, `module` and `metadata` step by step computes `Resolve` |
| Rewrite.RenderSummary | scripts/rewrite.py:183-197 | the prefix search with its `for`/`else`, then the title render, computes the new summary |
| Rewrite.RenderDescription | scripts/rewrite.py:200-216 | the rendered template, or the parts appended and joined, computes the new description |
| Rewrite.NewSummary | scripts/rewrite.py:182-197 | without a title or a number the summary is kept |
| Rewrite.NewDescription | scripts/rewrite.py:199-216 | the new description is always stripped |
| Rewrite.RewriteSpec | scripts/rewrite.py:121-216 | without rules, or when the gate rejects, the event is unchanged; otherwise the description comes out stripped |
| Rewrite.RewriteEvent | scripts/rewrite.py:121-216 | `rewrite_event` computes `RewriteSpec` |
| Rewrite.UnchangedWithoutRulesOrCourse | scripts/rewrite.py:135-140 | without rules, or when a required `(COURSE)` is absent, summary and description come back unchanged |
| Rewrite.CourseInSummaryPassesGate | scripts/rewrite.py:139 | a summary containing `(COURSE)` always passes the gate |
| Rewrite.SummaryChangesOnlyWithTitle | scripts/rewrite.py:183-197 | the summary changes only past the gate, with a resolved title and number |
| Rewrite.DefaultTitleSummary | scripts/rewrite.py:183-197 | with the default template the new summary is `prefix n - title - course` |
| Rewrite.LegacyLectureSummary | scripts/rewrite.py:166-197 | without event types, a lecture with a stored title gives `Lecture n - title - course` |
| Rewrite.ItemMetadataWins | scripts/rewrite.py:156-166 | an event-type item with metadata supplies title and module; the legacy maps are not read |
| Rewrite.NonBlankDescriptionDefault | scripts/rewrite.py:200-207 | a non-blank description is replaced by the stripped default rendering of module, canvas and old text |
| Rewrite.RewriteParts | scripts/rewrite.py:142-216 | past the gate the result is the new summary and new description of the resolved lookups |
| Rewrite.JoinedParts | scripts/rewrite.py:209-216 | the join of module and canvas line, each only when non-empty, separated by a blank line |
| Rewrite.BlankDescription | scripts/rewrite.py:209-216 | a blank description becomes the stripped join of the module and the canvas line |
| Split.PropGet | scripts/split.py:34-36 | a missing property reads as `""`; a present one reads as the value of its first occurrence |
| Split.Copied | scripts/split.py:50-54 | every property except SUMMARY, DESCRIPTION, BEGIN and END is copied, and nothing else |
| Split.CopiedAppend | scripts/split.py:50-53 | copying distributes over concatenation, so the copied properties keep their order and their repeats |
| Split.CopiedSingle | scripts/split.py:51-53 | one property is dropped exactly when its name is SUMMARY, DESCRIPTION, BEGIN or END, and otherwise kept as it is |
| Split.NewEvent | scripts/split.py:50-54 | the new event is the copied properties followed by the new SUMMARY and DESCRIPTION |
| Split.NumberedDecision | scripts/split.py:75-83 | a numbered event is skipped exactly when its item exists, has strategies and does not match |
| Split.ScanItems | scripts/split.py:87-92 | the first item with strategies that matches, in order; not found exactly when every item rejects |
| Split.UnnumberedDecision | scripts/split.py:84-96 | an unnumbered event is skipped exactly when some item has strategies and none matches |
| Split.FilterType | scripts/split.py:63-74 | filtering applies only with rules, to the type named by the extracted kind, when that type has items |
| Split.FilterDecision | scripts/split.py:58-96 | an event without a filtering type is kept |
| Split.ScanLoop | scripts/split.py:87-92 | the loop with `break` computes `ScanItems` |
| Split.AnyStrategiesLoop | scripts/split.py:95 | the `any(...)` test holds exactly when some item has strategies |
| Split.FilterEvent | scripts/split.py:59-96 | the filtering code, with `should_skip` and `matched_item` reassigned, computes `FilterDecision` |
| Split.NumberedFilter | scripts/split.py:75-83 | a numbered event is skipped exactly when its item has strategies and none holds; a missing item never filters |
| Split.UnnumberedFilter | scripts/split.py:84-96 | an unnumbered event is skipped exactly when some item has strategies and no strategy of any item holds |
| Split.RaiseNeedsFailingStrategy | scripts/split.py:80-89 | the filter raises only through a strategy that raises |
| Split.RulesFor | scripts/split.py:56 | `rules_by_course.get(course)` |
| Split.Step | scripts/split.py:29-31 | a component that is not a VEVENT changes nothing |
| Split.StepEffect | scripts/split.py:29-109 | one turn adds one to `total` per VEVENT and one to `kept` or `filtered` per event with a course; it creates only that course's bucket and touches no other |
| Split.Run | scripts/split.py:24-109 | after the loop `total` is the number of VEVENTs and `kept + filtered <= total` |
| Split.RunCounts | scripts/split.py:24-109 | `total` counts the VEVENTs, `kept + filtered <= total`, and the buckets are exactly the detected courses, filtered ones included |
| Split.NoRulesKeepsAll | scripts/split.py:56-101 | without rules nothing is filtered and nothing raises |
| Split.KeptEventAppended | scripts/split.py:98-109 | a kept event is appended to the end of its course's bucket, and `kept` grows by one |
| Split.ProcessEvent | scripts/split.py:47-109 | the loop body for an event with a course computes `EventStep` |
| Split.Settle | scripts/split.py:47-108 | creating the course's bucket, the counter updates and the append of the new event compute `Outcome` for the filter's decision |
| Split.ProcessComponent | scripts/split.py:29-45 | one turn computes `Step` |
| Split.RunNext | scripts/split.py:29 | one more component is one more step of the fold |
| Split.RunRaisedStays | scripts/split.py:29-109 | once the loop raises, the whole pass raises |
| Split.SplitEvents | scripts/split.py:24-109 | the loop over the components computes `Run` |
| Split.AsWrittenKeepsNothing | scripts/split.py:104 | as written, the pass completes only when it keeps no event, and then agrees with `Run` |
| Split.KeptEventRaisesAsWritten | scripts/split.py:104 | one event that passes the filter is kept by `Run` and makes the pass as written raise |
| Split.LexLeTotal | scripts/split.py:122 | Python string order is total |
| Split.LexLeAntisymmetric | scripts/split.py:122 | Python string order is antisymmetric |
| Split.LexLeTransitive | scripts/split.py:122 | Python string order is transitive |
| Split.InsertSorted | scripts/split.py:122 | insertion into an ascending list keeps it ascending and adds exactly the new key |
| Split.SortedCourses | scripts/split.py:122 | `sorted(buckets)` is strictly ascending and holds exactly the bucket keys |
| Split.Written | scripts/split.py:125-129 | no more files are counted than there are names |
| Split.EnsureTokens | scripts/split.py:122-131 | every course gets a non-empty token and the name `course--token.ics`; the map gains only these courses, existing non-empty tokens are kept, and a course without one gets the first 16 characters of its fresh UUID hex |
| Split.WriteFeeds | scripts/split.py:122-131 | the courses come in sorted order, each named after its token; afterwards the token map holds every bucketed course, a new one under the first 16 characters of its UUID hex |
| Tokens.EnsureTokenSpec | scripts/tokens.py:21-26 | an existing non-empty token is returned and the map is unchanged; otherwise 16 lower-case hex characters are stored and returned; other entries never change |
| Tokens.EnsureTokenIdempotent | scripts/tokens.py:21-26 | a second call for the same course returns the same token and leaves the map as it was |
| Tokens.EnsureTokenFrame | scripts/tokens.py:21-26 | only the course's entry can change, so the key set grows by at most one |
| Tokens.TokenMap.constructor | scripts/split.py:20 | the caller's token map |
| Tokens.TokenMap.EnsureToken | scripts/split-ics.py:328-334 | the in-place update computes `EnsureTokenSpec` |
| LogSanitize.StripQuery | scripts/log_sanitize.py:10 | a text without a query start is unchanged |
| LogSanitize.QueryFreeUnchanged | scripts/log_sanitize.py:15 | a text without `?` is unchanged by the first pass |
| LogSanitize.SingleLineQueryRemoved | scripts/log_sanitize.py:10-15 | on one line, everything from the first `?` on is removed |
| LogSanitize.SingleLineNoQuery | scripts/log_sanitize.py:15 | on one line, the first pass leaves no `?` |
| LogSanitize.FeedSubFrom | scripts/log_sanitize.py:16 | a text without feed paths is unchanged by the second pass |
| LogSanitize.FeedTokenMasked | scripts/log_sanitize.py:11-16 | the leftmost feed path keeps `/feeds/NAME` and its hex token of eight or more digits becomes `--***.ics`; the scan goes on after it |
| LogSanitize.IdSubFrom | scripts/log_sanitize.py:17 | a text without identifiers is unchanged by the third pass |
| LogSanitize.IdMasked | scripts/log_sanitize.py:6-9 | the leftmost whole-word hex run of 16 or more, or UUID, becomes `***` |
| LogSanitize.NoHexRunNoMatch | scripts/log_sanitize.py:6-11 | without eight hex digits in a row, neither feed paths nor identifiers occur |
| LogSanitize.NothingSecretUnchanged | scripts/log_sanitize.py:14-18 | a text with no `?` and no run of eight hex digits is returned unchanged |
| LogSanitize.FeedSubKeepsNoQuery | scripts/log_sanitize.py:16 | the feed pass adds no `?` |
| LogSanitize.IdSubKeepsNoQuery | scripts/log_sanitize.py:17 | the identifier pass adds no `?` |
| LogSanitize.Redact | scripts/log_sanitize.py:14-18 | a redacted single line contains no `?` |
| LogSanitize.QueryTailIgnored | scripts/log_sanitize.py:14-18 | on one line, whatever follows the first `?` (a UUID, say) has no effect on the output |
| SplitIcs.ExtractCourseCode | scripts/split-ics.py:244-251 | the leftmost parenthesised `[A-Z0-9-]{4,}` of the summary wins, then the course path of the description; none exactly when both fail |
| SplitIcs.ParenthesisedCodeFirst | scripts/split-ics.py:237-247 | the first parenthesised code of four or more such characters is the course, whatever the description holds |
| SplitIcs.YearIsACourseHere | scripts/split-ics.py:237 | `(2024)` is a course here, while the current detector rejects it |
| SplitIcs.DetectFrom | scripts/split-ics.py:273-281 | nothing is detected exactly when no pattern from the given one on occurs; a result is the rule key and the number of one that does |
| SplitIcs.DetectNumbering | scripts/split-ics.py:270-281 | the numbering loop with `break` computes the first matching pattern's kind and number |
| SplitIcs.NoNumbering | scripts/split-ics.py:273-281 | nothing is detected exactly when none of Lecture, Lab, Exercise matches |
| SplitIcs.NumberingOrder | scripts/split-ics.py:240-242 | Lecture beats Lab, which beats Exercise |
| SplitIcs.RuleItems | scripts/split-ics.py:261-262 | `rules.get(kind) or []`: falsy gives no items, a list gives its items, any other truthy value raises |
| SplitIcs.FindSpec | scripts/split-ics.py:260-265 | no matching item gives `(None, None)`; failure needs an item whose number cannot be read |
| SplitIcs.Lookup | scripts/split-ics.py:260-284 | without numbering the lookup gives `(None, None)`; it raises only when the rule value is truthy and not a list, or a listed item has no usable number |
| SplitIcs.FirstItemWins | scripts/split-ics.py:262-264 | the first item with the number supplies title and module |
| SplitIcs.FindTitleAndModule | scripts/split-ics.py:260-265 | the loop with early return computes `FindSpec` |
| SplitIcs.PrefixOf | scripts/split-ics.py:287 | the prefix is Lecture exactly for lectures, else Lab or Exercise |
| SplitIcs.ModulePart | scripts/split-ics.py:289-290 | a falsy module adds nothing; a text module adds itself |
| SplitIcs.ApplyRewriteSpec | scripts/split-ics.py:253-302 | empty rules return the event unchanged; otherwise the description comes out stripped |
| SplitIcs.LookupTitleAndModule | scripts/split-ics.py:273-284 | the detection and lookup compute the kind, number, title and module |
| SplitIcs.DescriptionParts | scripts/split-ics.py:289-299 | the parts are the module, the canvas line and the stripped original, in that order; a non-text module fails |
| SplitIcs.ApplyRewrite | scripts/split-ics.py:253-302 | `apply_rewrite` computes `ApplyRewriteSpec` |
| SplitIcs.SummaryNeedsTitle | scripts/split-ics.py:283-288 | the summary changes only with a numbering and a truthy title |
| SplitIcs.NumberedSummary | scripts/split-ics.py:283-288 | with a numbering and a truthy title the summary is `Prefix n - title - course` |
| SplitIcs.UnnumberedDescription | scripts/split-ics.py:292-301 | without a numbering, the summary is kept and the description still gets the canvas line and the original |
| SplitIcs.NothingToSay | scripts/split-ics.py:292-301 | without numbering, canvas link or original text, the description is empty |
| SplitIcs.RuleDocEntry | scripts/split-ics.py:222-228 | an object document is stored, with all its fields, under its `course_code` exactly when that code is truthy and hashable; nothing else is stored |
| SplitIcs.LoadCourseRules | scripts/split-ics.py:212-232 | the loop over the parsed files computes the keyed fold |
| SplitIcs.LoadedKeyedByCode | scripts/split-ics.py:224-228 | every stored document carries its key as its own `course_code`, and every key is truthy |
| SplitIcs.SkippedDocument | scripts/split-ics.py:225-227 | a document without a usable `course_code` changes nothing |
| SplitIcs.LaterDocumentWins | scripts/split-ics.py:228 | a later document with the same code overwrites the earlier one |

## Left out

- I/O is not modelled:
  - reading the upstream feed and iCalendar parsing and serialisation (`Calendar.from_ical`, `to_ical`, `clone_calendar_base`);
  - file writes and directory creation;
  - `load_token_map`/`save_token_map`;
  - `fetch_upstream_if_changed`;
  - the `main` functions.

  Components arrive as parsed records. Each rule file arrives as `Option<Json>`, with `None` for a file that cannot be read or parsed. A write that fails is a name in a `failing` set.
- Subcomponents (`VALARM` inside `VEVENT`) are not walked: the components are a flat sequence. `property_items` is reduced to the component's own name/value pairs.
- `uuid4()` is not modelled: the fresh UUID hex is a parameter.
- `datetime` is reduced to weekday, hour and minute.
- Logging (`safe_log`, `safe_warn`, `safe_error`) and warnings are dropped.
- User regular expressions are not modelled: event-type patterns, `summary_regex`, and the `description` and `url` strategies go through an opaque `Engine`, and every lemma holds for every engine. Only the fixed built-in patterns are written out.
- Case folding, `\d` and `\w` are ASCII only; `\s` and `strip` use Python's full `str.isspace` set.
- `str()` of a list or object gives a placeholder instead of Python's repr.
- Text.PyInt: Python's `int()` also accepts underscores between digits (`int("1_0")` is 10) and non-ASCII decimal digits; the model rejects both. Floats are not modelled.
- The Python identity of `True` and `1` as dictionary keys is not modelled in the legacy `load_course_rules`.
- The event-type classes (`EventType`, `EventItem`, `MatchStrategy`, and `CourseRules.event_types`) are not defined in rules.py, though rewrite.py imports and uses them. They are datatypes here and enter as input data. `from_json` loads every document with no event types. Their `from_dict` loaders are not part of this model.
- Rewrite.RewriteEvent: it requires templates whose placeholders are plain names that `format` is given. Templates with a format spec, a conversion, an index or an attribute (`{n:03d}`, `{title!r}`, `{kind[0]}`, `{title.upper}`) render in Python but are outside the model. Templates with unknown names, positional fields (`{}`, `{0}`) or unbalanced braces raise in Python, and that path is not modelled either. `Split.RulesOk` carries the same requirement into the splitter.
- Split.ProcessEvent: `rewrite_event` is called with the four arguments it declares; see Findings. The number and kind that the filter found (split.py:64, and the matched item's number at split.py:91) are discarded. `rewrite_event` extracts them again from the summary, so for an unnumbered event the matched item's number does not reach the rewrite.
- Regex.Engine: capture groups are strings, so a group that did not take part in the match (Python's `None`) cannot be represented. For an event-type pattern, `int(None)` raises `TypeError`, which rewrite.py:87 does not catch; that error is not modelled. In the `summary_regex` and built-in paths, `except Exception` catches it, and the model already treats a failed `int` as no match.
- The concrete log line of tests/test_log_sanitize.py:3-8 is not evaluated as a literal. Its effects are proved for all inputs. `LogSanitize.Redact` leaves no `?`. `LogSanitize.FeedTokenMasked` masks the feed token. The UUID sits after `?v=2`, so `LogSanitize.QueryTailIgnored` shows that it never reaches the identifier pass. `LogSanitize.IdMasked` covers an identifier outside a query string.
- legacy/scripts/split.py is the same code as scripts/split.py and is covered by `Split`.

## Findings

| source | as written | input that shows it | evidently intended | confidence | as-written member | corrected member |
|---|---|---|---|---|---|---|
| scripts/split.py:104 | calls `rewrite_event(summary, description, course, cr, n, kind)`, but rewrite.py:121 declares four parameters, so the call raises `TypeError` | any VEVENT with a detected course that the filter keeps | rewrite the kept event and append it to its bucket, passing the filter's `n` and `kind` as line 103 says; `rewrite_event` has no such parameters, so the corrected model calls it with the four declared arguments and discards them (see Left out) | not executed | Split.KeptEventRaisesAsWritten | Split.SplitEvents |
