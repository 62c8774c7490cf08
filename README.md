# Schedule and regulation extraction, modelled in Dafny

The system reads two kinds of PDF. From construction schedules it extracts
tasks (id, name, duration, start and finish dates). From planning circulars
it extracts regulatory rules (id, summary, measurement basis). Tables are
found by a cascade of readers: a lattice table reader, then a page table
reader, then OCR. Each table is parsed two ways, by hand-written rules and
by a language model that is sent the table in chunks of 25 rows. The two
result sets are merged by task id. The merged tasks are then grouped by
building and turned into text chunks for a vector index, and rules and
tasks are stored as database rows.

This project models that core in Dafny:

| file | module | models |
|---|---|---|
| `chars.dfy` | `Chars` | character classes, `strip`, `lower`, `in` on strings, `join`/`split`, decimal text |
| `seqs.dfy` | `Seqs` | flatten, fixed-size slicing (`s[i:i+n]` for `i` in `range(0, len(s), n)`), dedup, map, filter-map |
| `values.dfy` | `Values` | Python values (None, bool, int, str, date, list, dict), truthiness, `dict.get`, `str()`, `int()` |
| `dates.dfy` | `Dates` | calendar dates and `_parse_date_flexible` with its six `strptime` formats |
| `text_fields.dfy` | `TextFields` | `_clean_text`, `_clean_task_name`, `_parse_int_safe`, `_parse_duration` |
| `table_rows.dfy` | `TableRows` | `normalize_table_for_llm`, `_parse_raw_table_rows`, `_parse_text_block_for_tasks` |
| `schemas.dfy` | `Schemas` | `TaskSchema`/`RuleSchema` validation, `safe_task_to_dict` |
| `merge.dfy` | `Merge` | `merge_tasks` |
| `chunks.dfy` | `Chunks` | `aggregate_tasks_by_building`, `create_semantic_chunks`, `_sanitize_metadata` |
| `llm_client.dfy` | `LlmClient` | `_clean_and_extract_json`, `_make_llm_request`, `ask_json`, `parse_table_chunk` |
| `table_parser.dfy` | `TableParser` | `_build_chunk_prompt`, `parse_table_hybrid` |
| `extractor.dfy` | `Extractor` | `_collect_raw_tables`, `extract_project_schedule_hybrid`, `extract_ura_rules_with_llm` |
| `pipeline_tasks.dfy` | `PipelineTasks` | the five pipeline steps in `pipeline/tasks.py` |

The model's inputs stand in for what the program gets from outside:
- What the PDF readers would return is the datatype `Extractor.PdfReadings`. A reader that raises is `None`.
- The HTTP responses of the two model endpoints are a function from endpoint to response.
- The JSON decoder and `ast.literal_eval` are partial functions.
- The language model as seen by the table parser is a function from prompt to `Outcome`, which is either a returned value or `Raised`.
- The identifiers `uuid.uuid4()` would return are a function `ids: nat -> string`, read as the n-th identifier drawn.

Loops in the source are methods with `while` loops. Each is proved against a
specification function: `ensures result == Spec(inputs)`. The properties of
the program are lemmas about those specification functions.

Four behaviours of the code that a reader might not expect, each stated by a lemma:
- Feeding `merge_tasks` a list followed by a second copy of it can give a different result from merging the list once. A winning entry replaces the stored dict, so a date from an earlier, shorter-named duplicate is lost; the second copy then backfills it. `Merge.MergeNotIdempotent` exhibits a two-record list for which the results differ.
- The date cells of OCR pseudo-table rows are the text `"None"`, not empty, because `str(d.get('start_date', ''))` formats a present `None` value (`Extractor.PseudoRowCells`).
- The OCR clean-up in `_parse_date_flexible` replaces every `l` with `1`. This turns `"01-Jul-24"` into `"01-Ju1-24"`, which no format reads, so lower-case `Jul` dates are never parsed (`Dates.JulyLowerCaseLost`). Upper-case `"01-JUL-24"` is read (`Dates.JulyUpperCaseRead`).
- An OCR line whose id is followed by three or more spaces and then a duration, such as `"12   34d"`, gives a task with an empty name. The regex backtracks into the whitespace after the id, and the one-space name group strips to "" (`TableRows.MatchLineBlankName`).

## Model

| member | source | states |
|---|---|---|
| TextFields.CleanText | core/utils/parse_utils.py:12-18 | the cleaned text is single-spaced with no leading or trailing space (`IsClean`) |
| TextFields.Collapse | core/utils/parse_utils.py:17 | `re.sub(r"\s+", " ", s)`: the result has no two adjacent spaces, is empty exactly when the input is, and starts with a space exactly when the input starts with whitespace |
| TextFields.CleanTextIsJoinedWords | core/utils/parse_utils.py:12-18 | cleaning is joining the whitespace-separated words with single spaces |
| TextFields.CleanTextNoControl | core/utils/parse_utils.py:16 | no newline or tab survives cleaning |
| TextFields.CleanTextIdempotent | core/utils/parse_utils.py:12-18 | cleaning twice is cleaning once |
| TextFields.CleanTextFixed | core/utils/parse_utils.py:12-18 | already clean text is unchanged |
| TextFields.CleanTaskNameSpec | core/utils/parse_utils.py:20-31 | None or "" gives None; otherwise the name is rejected exactly when its cleaned text is over 200 characters, all digits and symbols, or a header word; an accepted name is the cleaned text and contains a letter or `_` |
| TextFields.CleanTaskNameIdempotent | core/utils/parse_utils.py:20-31 | a non-empty accepted name is accepted again unchanged |
| TextFields.BlankNameAccepted | core/utils/parse_utils.py:22-31 | an all-space name passes the emptiness test, cleans to "" and is accepted as ""; the empty name is rejected |
| TextFields.ParseIntSafe | core/utils/parse_utils.py:37-44 | a result exists exactly when the stripped text is a non-empty run of ASCII digits whose value is at most 99999, and it is that value |
| TextFields.ParseIntSafeRoundTrip | core/utils/parse_utils.py:37-44 | the decimal text of `n` parses back to `n` when `n <= 99999`, and to None otherwise |
| TextFields.FindDaysFirst | core/utils/parse_utils.py:51 | the search for `(\d+)\s*d` finds the leftmost position where a digit run, optional spaces and `d` follow, or reports that there is none |
| TextFields.FindDigitFirst | core/utils/parse_utils.py:51 | the fallback search for `(\d+)` finds the leftmost digit, or reports that there is none |
| TextFields.DurationDaysRoundTrip | core/utils/parse_utils.py:46-57 | `"<n> days"` parses to `n` |
| TextFields.DurationPrefersDays | core/utils/parse_utils.py:51 | `"2, 10d"` parses to 10: the days pattern is tried before the bare number |
| Dates.DateFlexible | core/utils/parse_utils.py:64-75 | None or "" gives None; any date returned is a valid calendar date |
| Dates.ParseDateFlexible | core/utils/parse_utils.py:64-75 | the loop over the formats returns exactly `DateFlexible` |
| Dates.FirstFormatFromFirst | core/utils/parse_utils.py:70-75 | the date returned comes from the first format that matches, and when none is returned, no format matches |
| Dates.MatchFormat | core/utils/parse_utils.py:59-62 | a format only reads text with exactly three separator-delimited fields, and only yields valid dates |
| Dates.DateIsoRoundTrip | core/utils/parse_utils.py:59-75 | the ISO text of any valid date parses back to that date |
| Dates.JulyLowerCaseLost | core/utils/parse_utils.py:68 | `"01-Jul-24"` is not parsed, because `l` is replaced by `1` |
| Dates.JulyUpperCaseRead | core/utils/parse_utils.py:59-75 | `"01-JUL-24"` is read as 1 July 2024 |
| Dates.SlashIsMonthFirst | core/utils/parse_utils.py:59-62 | `"01/02/03"` is read month first, as 2 January 2003 |
| Schemas.SafeTaskToDict | core/utils/parse_utils.py:81-94 | the conversion returns exactly `SafeTaskDict` for None, dict, schema and plain objects |
| Schemas.CopyAttributes | core/utils/parse_utils.py:88-94 | the attribute loop returns exactly `PlainFields` |
| Schemas.PlainFieldsGet | core/utils/parse_utils.py:88-94 | the copied dict holds a key exactly when it is one of the five task keys and the object has it, with datetimes replaced by the ISO text of their date |
| Schemas.SafeTaskDictPlain | core/utils/parse_utils.py:88-94 | `safe_task_to_dict` on a plain object holds a key exactly when it is one of the five task keys and the object has it, with datetimes replaced by the ISO text of their date |
| Schemas.SafeTaskDictSchema | core/utils/parse_utils.py:85 | dumping a task and validating the dump gives that task back |
| Schemas.ValidateTask | pipeline/schemas.py:10-15 | validation succeeds exactly when id and duration are ints, the name is a string and each date is absent, None or a date; the validated task then carries those values |
| Schemas.ValidateDumped | pipeline/schemas.py:10-15 | validating the dump of a task gives that task back |
| Schemas.DumpedRecord | pipeline/schemas.py:10-15 | the dump binds each of the five fields to that task's value, with None for a missing date |
| TableRows.NormalizeTableForLlm | core/utils/parse_utils.py:96-133 | the method returns exactly `NormalizedTable` |
| TableRows.FindHeader | core/utils/parse_utils.py:101-109 | the header search returns exactly `HeaderFrom(rows, 0)` |
| TableRows.HeaderFromFirst | core/utils/parse_utils.py:101-109 | the header is the first of the first five rows whose joined lower-case text contains "id" and either "task" or "description"; when none is found, no such row exists |
| TableRows.MapColumns | core/utils/parse_utils.py:111-119 | the column loop returns exactly `ColumnMap` |
| TableRows.LastColumnLast | core/utils/parse_utils.py:113-119 | each role is mapped to the last header cell with that role, or to nothing when no cell has it |
| TableRows.ProjectRows | core/utils/parse_utils.py:121-130 | the projection loop returns exactly `ProjectedRows` |
| TableRows.ProjectRowCells | core/utils/parse_utils.py:125-129 | the cell loop returns exactly `ProjectRow` |
| TableRows.NormalizeWithHeader | core/utils/parse_utils.py:111-130 | with a usable header there is one 5-cell row per row below the header, and cell `j` is that row's cell in the column of role `j`, or "" when that cell is missing |
| TableRows.NormalizeFallback | core/utils/parse_utils.py:132-133 | without a usable header, each row is its cleaned first five cells |
| TableRows.NormalizeCanonical | core/utils/parse_utils.py:111-130 | a header whose columns are already in canonical order gives the cleaned rows below it unchanged |
| TableRows.ParseRawTableRows | core/utils/parse_utils.py:139-177 | the method returns exactly `RawTableTasks` (None where the source raises on an empty first row) |
| TableRows.CollectRowTasks | core/utils/parse_utils.py:151-175 | the row loop returns exactly `RowsTasks` of the rows after the header |
| TableRows.RowToTask | core/utils/parse_utils.py:152-175 | one row's checks return exactly `RowTask` |
| TableRows.RowTaskSpec | core/utils/parse_utils.py:152-175 | a row is skipped exactly when it is rejected; a kept row's id is its first cell parsed (1 to 99999) and its name is its second cell cleaned |
| TableRows.RowTaskValid | core/utils/parse_utils.py:152-175 | every task kept has an id from 1 to 99999, a clean non-empty name of at most 200 characters, a non-negative duration and valid dates |
| TableRows.RowsTasksValid | core/utils/parse_utils.py:151-177 | the same holds for every task the rows give |
| TableRows.RawTableHeaderSkip | core/utils/parse_utils.py:147-151 | the first row is skipped exactly when its first cell contains "id" in lower case; there are never more tasks than rows |
| TableRows.RawTableEmptyFirstRow | core/utils/parse_utils.py:148 | an empty first row makes the parse raise |
| TableRows.ParseTextBlockForTasks | core/utils/parse_utils.py:179-198 | the line loop returns exactly `TextBlockTasks` |
| TableRows.MatchLine | core/utils/parse_utils.py:186-195 | a matched line gives non-negative id and duration and no dates |
| TableRows.MatchLineGivesBack | core/utils/parse_utils.py:186-191 | when the name cannot close after the whole whitespace run that follows the id, and that run has three or more characters, the regex backtracks into it and the task has the empty name |
| TableRows.MatchLineBlankName | core/utils/parse_utils.py:186-195 | `"12   34d"` gives id 12, name "" and duration 34 |
| TableRows.MatchLineBlankNameDays | core/utils/parse_utils.py:186-195 | `"5    10 days"` gives id 5, name "" and duration 10 |
| TableRows.MatchLineTwoSpaces | core/utils/parse_utils.py:186 | `"12  34d"` does not match: two spaces leave nothing to give back |
| TableRows.NameEndFirst | core/utils/parse_utils.py:186 | the lazy name group ends at the first position from which spaces, digits, optional spaces and `d` follow |
| TableRows.MatchTaskLine | core/utils/parse_utils.py:186-195 | a line `"<id> <name> <dur>d"` gives back exactly that id, name and duration |
| Merge.MergeTasks | core/utils/merge_utils.py:5-65 | the merge loop returns exactly `MergeResult` |
| Merge.MergeOne | core/utils/merge_utils.py:12-61 | one iteration performs exactly one `Step` |
| Merge.ParseStringDates | core/utils/merge_utils.py:34-38 | the date normalisation returns exactly `ParseDates` |
| Merge.Reconcile | core/utils/merge_utils.py:45-61 | the duplicate handling returns exactly `Combine` |
| Merge.MergeAllConsistent | core/utils/merge_utils.py:10-61 | every stored entry is keyed by its own id, has parsed dates, and the insertion order lists each key once |
| Merge.ParseDatesSpec | core/utils/merge_utils.py:34-38 | only string dates are replaced, each by its parsed value; every other field is kept |
| Merge.CombineName | core/utils/merge_utils.py:47-51 | the stored name is the incoming one exactly when it is strictly longer |
| Merge.CombineFields | core/utils/merge_utils.py:50-61 | a longer incoming name replaces the whole entry; otherwise the stored entry is kept, and each date and the duration is taken from the incoming entry only when the stored one is falsy and the incoming one is truthy |
| Merge.MergeOrder | core/utils/merge_utils.py:41-43 | the output order is the order in which each id first appears |
| Merge.FirstNameKept | core/utils/merge_utils.py:41-51 | the first entry of an id keeps its name when no later entry of that id has a longer name |
| Merge.MergeSkips | core/utils/merge_utils.py:18-30 | a candidate that is not a dict, or has a falsy or non-integer id, changes nothing |
| Merge.MergeResultIds | core/utils/merge_utils.py:63-65 | the output has one task per distinct id, in first-appearance order, with no id twice |
| Merge.ValidateAllIds | core/utils/merge_utils.py:65 | validation keeps each entry's id |
| Merge.FalsyIdSkipped | core/utils/merge_utils.py:22-24 | an id of None, 0, False or "" is skipped; "0" is truthy and becomes id 0 |
| Merge.MergePairName | core/utils/merge_utils.py:41-51 | of two entries with one id, the longer name wins and ties keep the first |
| Merge.MergePairBackfill | core/utils/merge_utils.py:53-61 | a kept entry takes a date or duration from the duplicate only when its own is falsy |
| Merge.MergeNotIdempotent | core/utils/merge_utils.py:50-57 | merging a list concatenated with itself can give a different result from merging it once |
| Chunks.AggregateTasksByBuilding | core/utils/chunk_utils.py:27-52 | the grouping and summary loops return exactly `Aggregate` |
| Chunks.GroupTasks | core/utils/chunk_utils.py:30-32 | the grouping loop keys groups by first appearance, and each group holds its building's tasks in order |
| Chunks.GroupMembers | core/utils/chunk_utils.py:30-32 | a group holds exactly the tasks whose building (or "UNSPECIFIED") is its key |
| Chunks.AggregatePartition | core/utils/chunk_utils.py:27-52 | the summaries' task counts add up to the number of tasks, and their durations to the total duration |
| Chunks.AggregateAt | core/utils/chunk_utils.py:36-50 | summary `j` is for the `j`-th building seen; it holds exactly that building's tasks, their count and total duration, and a longest task that is no shorter than any of them |
| Chunks.FirstLongestIsFirstMax | core/utils/chunk_utils.py:38 | `max` picks the first task of greatest duration |
| Chunks.SortDescFacts | core/utils/chunk_utils.py:93 | the summary's task list is a permutation of the group, in non-increasing duration, and tasks of equal duration keep their order |
| Chunks.CreateSemanticChunks | core/utils/chunk_utils.py:54-104 | the method returns exactly the row chunks and the summary chunks, drawing identifiers in order |
| Chunks.BuildRowText | core/utils/chunk_utils.py:59-82 | the text building returns exactly `RowText` |
| Chunks.BuildSummaryText | core/utils/chunk_utils.py:86-96 | the line loop returns exactly `SummaryText` |
| Chunks.BuildRowChunks | core/utils/chunk_utils.py:59-82 | one chunk per task, in order |
| Chunks.BuildSummaryChunks | core/utils/chunk_utils.py:85-102 | one chunk per summary, in order |
| Chunks.RowTextSentences | core/utils/chunk_utils.py:60-80 | a task's text is its sentences joined by ". " and ended by "." |
| Chunks.SummaryTextLines | core/utils/chunk_utils.py:86-96 | splitting a summary text at newlines gives back its lines, when no name contains a newline |
| Chunks.ChunksAt | core/utils/chunk_utils.py:54-104 | chunk `i` carries identifier `i`; a task chunk carries its task's text, id and building ("UNKNOWN" when there is none); a summary chunk carries its summary's text and building |
| Chunks.MetadataGet | core/utils/chunk_utils.py:71-101 | the metadata dicts map each key to the value the source writes |
| Chunks.SanitizeMetadata | core/utils/chunk_utils.py:107-118 | the loop returns exactly `Sanitized` |
| Chunks.SanitizedGet | core/utils/chunk_utils.py:107-118 | a key keeps its value except that None becomes "UNKNOWN"; no value is None afterwards |
| LlmClient.LastIndexIsLast | core/llm_client.py:25 | the greedy `.*` ends at the last occurrence of the closing bracket |
| LlmClient.SpanFromLeftmost | core/llm_client.py:25 | the match starts at the leftmost bracket that has a matching closer after it, and ends at that closer's last occurrence |
| LlmClient.CleanAndExtractJsonSpec | core/llm_client.py:22-28 | the result is the stripped content when no bracketed span exists, and otherwise the leftmost greedy `{...}` or `[...]` span |
| LlmClient.CleanAndExtractJsonIdempotent | core/llm_client.py:22-28 | extracting twice is extracting once |
| LlmClient.MakeLlmRequestCases | core/llm_client.py:42-54 | a failed request, a non-dict body, or missing or empty "choices" gives None; a result is never None |
| LlmClient.MakeLlmRequestContent | core/llm_client.py:50 | the content of the first choice's message is returned |
| LlmClient.AskJson | core/llm_client.py:56-115 | the method returns exactly `AskJsonResult` and makes exactly the calls in `CallsMade` |
| LlmClient.CallsFallback | core/llm_client.py:60-90 | OpenAI is called exactly when a key is set, and first; the local endpoint is called exactly when there is no key or OpenAI gave nothing; the content used is the last call's |
| LlmClient.AskJsonNoContent | core/llm_client.py:92-94 | when no endpoint gives content the answer is `{}` |
| LlmClient.ParseAttemptsOrder | core/llm_client.py:98-115 | decoding tries JSON, then JSON with newlines replaced by spaces, then `literal_eval`, and takes the first that succeeds; it fails only when all three fail |
| LlmClient.AskJsonStringContent | core/llm_client.py:96-115 | string content is cleaned and decoded, and `{}` is returned when decoding fails |
| LlmClient.ParseTableChunkNoInput | core/llm_client.py:121-126 | without a prompt and without rows, no call is made and the result is `{"tasks": []}` |
| LlmClient.ParseTableChunkShape | core/llm_client.py:128-132 | a returned result is a dict holding "tasks" or a string containing "tasks"; a list answer comes back wrapped under "tasks" |
| LlmClient.ChunkPromptChoice | core/llm_client.py:121-123 | a non-empty prompt is sent as given; otherwise the rows' CSV block ends the prompt built for them |
| TableParser.ChunkPromptRows | core/utils/table_parser.py:19-38 | the prompt does not depend on the page hint; it is the fixed text, then the rows one per line with cells joined by a spaced vertical bar, then the fixed tail |
| TableParser.ParseTableHybrid | core/utils/table_parser.py:40-69 | the method returns exactly `HybridTasks` and sends exactly the prompts in `HybridPrompts` |
| TableParser.EmptyTableNoCall | core/utils/table_parser.py:47-48 | an empty normalised table gives [] and sends no prompt |
| TableParser.ChunksCover | core/utils/table_parser.py:47-50 | the chunks concatenate back to the normalised table; there are ceil(n/25) of them, each of 1 to 25 rows and all but the last of exactly 25 |
| TableParser.FailedChunkIsolated | core/utils/table_parser.py:60-67 | a chunk whose call raises contributes nothing; the tasks of the other chunks are kept |
| TableParser.AnyCompletionOrder | core/utils/table_parser.py:60-65 | in whatever order the chunks complete, the collected tasks are the same multiset |
| Extractor.CollectRawTables | core/extractor.py:138-191 | the cascade returns exactly `RawTables` and runs exactly the tiers in `TiersRun` |
| Extractor.CollectPlumberTables | core/extractor.py:154-162 | the page loop returns exactly the non-empty tables of the pages read before the first failure |
| Extractor.KeepNonEmptyTables | core/extractor.py:159-160 | the loop returns exactly `KeptTables` |
| Extractor.CollectOcrTables | core/extractor.py:165-189 | the OCR loop returns exactly the pseudo-tables of the pages read before the first failure |
| Extractor.OcrPage | core/extractor.py:172-187 | one page adds exactly `PageTables` of its text |
| Extractor.BuildPseudoTable | core/extractor.py:176-185 | the row loop returns exactly `PseudoTable` |
| Extractor.TierCascade | core/extractor.py:144-191 | the lattice reader always runs; the page reader runs exactly when it found nothing; OCR runs exactly when both found nothing and OCR is enabled; the tables are those of the last tier run |
| Extractor.StopsAtFailure | core/extractor.py:155-162 | a failing page ends the tier, keeping the tables from the pages before it |
| Extractor.KeptTablesSpec | core/extractor.py:159-160 | a table is kept exactly when it is non-empty |
| Extractor.PseudoRowCells | core/extractor.py:178-185 | a pseudo-row is the id, name and duration as text, and "None" for each date |
| Extractor.PageTablesShape | core/extractor.py:174-187 | a page adds a table exactly when its text yields tasks, and the table has one pseudo-row per task |
| Extractor.TextTasksUndated | core/utils/parse_utils.py:193-194 | OCR tasks never carry dates |
| Extractor.ExtractProjectScheduleHybrid | core/extractor.py:34-65 | the method returns exactly `ScheduleHybrid`: the merge of the rule tasks of all tables followed by the model tasks of all tables |
| Extractor.CollectRuleTasks | core/extractor.py:42-48 | the rule loop returns exactly the concatenated rule tasks of the tables, a raising table giving none |
| Extractor.CollectLlmTasks | core/extractor.py:51-57 | the model loop returns exactly the concatenated hybrid results, table `i` parsed with page number `i + 1` |
| Extractor.FailedTableSkipped | core/extractor.py:44-48 | a table whose rule parse raises contributes nothing; the other tables' tasks are kept |
| Extractor.RuleCandidateFields | core/extractor.py:61 | a rule task enters the merge under its id (none when 0) and with its name |
| Extractor.RuleNameWinsTies | core/extractor.py:61-62 | a rule task that is the first of its id keeps its name when no model task of that id has a longer name |
| Extractor.ExtractUraRulesWithLlm | core/extractor.py:87-136 | the method returns exactly `UraRules`: [] when the PDF cannot be read, otherwise the rules of every 1500-character chunk, in order |
| Extractor.ReadDocumentText | core/extractor.py:93-95 | the page loop returns exactly `DocumentText` |
| Extractor.CollectChunkRules | core/extractor.py:116-129 | the item loop returns exactly `ChunkRules` |
| Extractor.UraChunksCover | core/extractor.py:95-101 | the document text is every page's text (or "") followed by a newline; the chunks concatenate back to it, each of at most 1500 characters and all but the last of exactly 1500 |
| Extractor.RuleOfFields | core/extractor.py:119-129 | a non-dict item is skipped; a dict item gives a rule whose missing fields default to "Unknown", "" and "N/A" and whose string fields are kept as they are |
| Extractor.FailedChunkAddsNoRules | core/extractor.py:115-133 | a chunk whose call raises adds no rules; the other chunks' rules are kept |
| PipelineTasks.ExtractRouteSpec | pipeline/tasks.py:24-35 | only "ura_circular" and "project_schedule" reach an extractor; any other type gives [] |
| PipelineTasks.TransformSchedule | pipeline/tasks.py:38-48 | the step returns exactly `ScheduleChunks`: None for no data, otherwise the row and summary chunks |
| PipelineTasks.ScheduleChunksShape | pipeline/tasks.py:38-48 | None exactly for no data; otherwise one chunk per task and at least one summary chunk, one per building, with identifiers drawn in order |
| PipelineTasks.TransformUra | pipeline/tasks.py:51-71 | the loop returns exactly `UraChunks` |
| PipelineTasks.UraChunkAt | pipeline/tasks.py:55-69 | chunk `i` carries identifier `i`; its metadata gives back the rule id, "URA-Circular" and "rule"; its text starts with "Rule <id>: " and ends with the measurement basis |
| PipelineTasks.LoadToPostgres | pipeline/tasks.py:74-107 | the step hands `bulk_create` exactly `PostgresRows` |
| PipelineTasks.TaskRowsLoop | pipeline/tasks.py:92-106 | the loop builds exactly one row per task, in order |
| PipelineTasks.PostgresRowsSpec | pipeline/tasks.py:74-107 | no data saves nothing; rules give one row each with the id clipped; tasks give one row each with every field kept |
| PipelineTasks.ClipIdSpec | pipeline/tasks.py:84 | the stored id is a prefix of at most 250 characters, the whole id when it fits; clipping twice changes nothing |
| PipelineTasks.SafeNameSpec | pipeline/tasks.py:96 | a falsy name is stored as "", a string as itself |
| PipelineTasks.IndexArgumentsSpec | pipeline/tasks.py:110-125 | falsy input indexes nothing; a tuple gives its two lists; a list gives row chunks only |
| PipelineTasks.TransformThenLoad | pipeline/tasks.py:110-125 | what the two transforms return is indexed exactly: the schedule pair as rows and summaries, the rule list as rows, and no data as nothing |

## Left out

- The PDF, image and OCR libraries (camelot, pdfplumber, pdf2image, OpenCV, Tesseract) are not modelled: their results are the inputs `PdfReadings` and the per-page text. `extract_images_from_ura` only writes image files and is not modelled.
- HTTP, `resp.json()`, `json.loads` and `ast.literal_eval` are parameters: the endpoint responses and two partial decoding functions. A failed decode is the error `ask_json` catches. Errors it does not catch are not modelled: `literal_eval`'s TypeError (an unhashable key such as `{[1]: 2}`), MemoryError and RecursionError, and the plain ValueError `json.loads` raises for an integer of more than 4300 digits. In the source these escape `ask_json`.
- The thread pool in `parse_table_hybrid` is modelled with completion in submission order. `TableParser.AnyCompletionOrder` shows that any other completion order collects the same multiset of tasks.
- `uuid.uuid4()` is the parameter `ids`. Chroma, the sentence-transformer model, the two module-level singletons, `index_chunks_to_chroma` and Django's `bulk_create` are not modelled. The model stops at the arguments handed to them.
- The vision extractors `extract_ura_rules_vision` and `extract_project_schedule_vision` are not defined in the source; `PipelineTasks.ExtractRoute` only says which one is called.
- Logging, `count`, `used_source`, the temperature and token arguments, and the environment configuration are not modelled. None of them affects a result.
- The `except` around the model parse in `extract_project_schedule_hybrid` is not modelled. `parse_table_hybrid` catches every chunk failure itself, so that handler is never reached in the model.
- A lattice-reader failure part-way through appending its tables is modelled as a failure before any table is appended.
- `merge_tasks` mutates the input dicts and stores them by reference. The model works on dict values, so aliasing between the caller's dicts and the merged entries is not captured.
- Chunks.Dur: `duration_days or 0` is modelled as the duration itself. A validated task's duration is an int, and `0 or 0` is 0.
- `aggregate_tasks_by_building` reads an optional `building` attribute that `TaskSchema` does not declare. Each task is paired with an optional building (`Chunks.Entry`).
- Floating-point temperatures and the HTTP timeout are not modelled.
- Values.Repr always writes a string in single quotes and does not escape it. Python's `repr` uses double quotes for a string that contains `'` and no `"`, and it escapes backslashes and non-printable characters. This reaches `Values.Str` of a list or dict, the name length `Merge.NameText` compares for a non-string name, and `Extractor.RuleOf` for a list or dict `rule_id` or `rule_summary`.
- CleanTaskNameSpec: the rejection of an all-digits-and-symbols name and the promise that an accepted name contains a letter or `_` use ASCII `\w`. Python's `re` uses Unicode `\w`, so a name made only of non-ASCII letters (Cyrillic, CJK) is accepted by the source and rejected by the model.
- Chars.IsWordChar, Chars.IsDigit, Chars.ToLower and Chars.Lower treat `\w`, `\d` and `str.lower()` as ASCII. Python applies them to all of Unicode. This affects `TextFields.CleanTaskName`, `TextFields.ParseIntSafe`, `TextFields.FindDays`, the strptime fields of `Dates.MatchFormat`, the digit runs of `TableRows.MatchLine` and the header detection of `TableRows.HeaderFrom`: a header cell such as "TAS\u212A" (Kelvin sign) lowers to "task" in Python but not in the model. The Unicode character database is not modelled.
- Integer text is converted at any length. Python 3.11 and later make `int()` raise ValueError on text of more than 4300 digits, leading zeros included. The model has no such limit, so it gives a value where the source raises. The members affected are listed below.
- ParseRawTableRows: an id cell of more than 4300 digits makes `_parse_int_safe` raise inside `_parse_raw_table_rows`. Nothing there catches it, so the source loses every rule task of that table. The model parses the cell and keeps the table's rows.
- TextFields.ParseIntSafe: a stripped digit run of more than 4300 characters makes the source raise. The model returns its value when that is at most 99999, and None otherwise.
- TextFields.ParseIntSafeRoundTrip: for `n` of more than 4300 digits the source raises rather than returning None.
- TextFields.DurationDaysRoundTrip: for `n` of more than 4300 digits the source's `except` returns 0, not `n`.
- TableRows.MatchTaskLine: a line whose id or duration has more than 4300 digits is skipped by the source's `except: continue`. The model returns the task (`TableRows.MatchLine` likewise).
- Values.ParseIntText: a string id of more than 4300 digits makes `int(tid)` raise in `merge_tasks`, which then skips the candidate. `Merge.RecordKey` keys it.
- ValidateTask: `Schemas.IntField` accepts what Python's `int()` accepts, and `Schemas.DateField` accepts only None, dates and midnight datetimes. Pydantic's lax validation also accepts floats with no fractional part, strings such as "10.0", and integer timestamps for dates. `Values.Value` has no float case, so a JSON value such as `10.0` cannot be represented.
