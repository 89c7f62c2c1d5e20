# Purchasing workflow: a Dafny model of the deterministic core

The modelled service turns a stock-risk CSV export into purchasing documents, one set per supplier:
- an analysis report;
- a purchase request;
- a supplier e-mail draft.

It works in these stages:
1. It reads the CSV rows, taking the snapshot date from the file name (DDMMYY) or from a column.
2. It groups the rows by supplier. For each item it computes a latest delivery date, a latest PO date, timing labels and a suggested order quantity.
3. It runs several chat-model "agents" per supplier group.
4. It renders their markdown into Word blocks. The results are saved to disk or returned in memory, optionally while streaming progress events.

Further endpoints:
- Ingest endpoints accept PDFs for a vector store. They take the supplier name and the item code from the text.
- A download endpoint serves generated files whose names match a safe pattern.
- An access check combines a shared token with a per-client daily quota.

This project models that deterministic layer in Dafny and proves what it promises. Outside systems become parameters of the model:
- the chat model and the JSON codec;
- the vector store's searches and whatever the vector store does internally;
- PDF text extraction and ZIP extraction;
- the file system and the calendar.

Modules, one per source file plus three helpers:

| module | file | models |
|---|---|---|
| `Wrappers` | wrappers.dfy | `Option` / `Result` |
| `Text` | text.dfy | the Python `str` operations used (`strip`, `split`, `join`, `lower` on ASCII letters, `str(int)`, `repr`) |
| `Json` | json.dfy | decoded JSON values and `dict.get` |
| `PyFloat` | pyfloat.dfy | Python `float(text)` on decimal text |
| `CsvUtils` | csv_utils.dfy | `utils/csv_utils.py` |
| `ItemGrouping` | item_grouping.dfy | `services/item_grouping.py` |
| `DocxUtils` | docx_utils.dfy | `utils/docx_utils.py` (names, table predicates, markdown-to-blocks walk) |
| `VectorStore` | vector_store.dfy | the collections and a store object that logs each ingested document |
| `Agents` | agents.dfy | `services/agents.py` |
| `Pipeline` | pipeline.dfy | `routers/pipeline.py` |
| `Ingest` | ingest.dfy | `routers/ingest.py` |
| `Output` | output.dfy | `routers/output.py` |
| `Security` | security.dfy | `services/security.py` |

## How the code's stateful parts are modelled

Code that works by changing things step by step is modelled as methods. Each such loop is a `method` whose `ensures` ties its result to a specification function. The properties are then proved about that function. The methods are:
- `FindField`, `ParseCsvRows`, `GroupBySupplier` (a supplier-to-group map plus its insertion order, as a Python dict keeps it), `ContentToBlocks`/`ReadTable`, `RunTools`, `RunPipeline`, `Relay`, `IngestUploads`, `ResolvePath` and `ListOutput`.

Two sources of state are modelled as classes:
- The rate limiter's `_usage_cache` is a `map` field of `Security.AccessGuard`, and `VerifyAccess` updates it in place.
- The chat backend (`Agents.Backend`) and the vector store (`VectorStore.Store`) are classes that log every call made to them. The agent and ingest methods state exactly what they add to those logs.

Where the code and its comments disagree, the model follows the code:
- **The date taken from a file name is day-first.** For `050425`, `snapshot_date_from_filename` gives `2025-04-05`. The comments at `utils/csv_utils.py:11` and `routers/pipeline.py:212` claim `2025-04-25`. `CsvUtils.FilenameDateAt` states the day-first layout.
- **A fenced JSON block that does not parse raises.** It never falls through to the bracketed or whole-text shapes (`Agents.FencedBlockDecides`).
- **The `report` progress event can never be observed.** It is emitted only when not in memory, and then there is no callback. `Pipeline.GroupsTraceShape` proves that no trace contains it.
- **An empty stock or weeks cell makes item construction raise.** Only an absent column gives `None` (`ItemGrouping.EmptyStockCellFails`).
- **A suggested quantity needs `stock > 0`.** Zero stock gives none (`ItemGrouping.QuantityExamples`).
- **An analysis output that decodes to a list fails at `.get`** (`Pipeline.AnalysisResultDefaults`).

## Model

| member | source | states |
|---|---|---|
| `CsvUtils.FirstSixDigits` | utils/csv_utils.py:15-17 | the search finds the leftmost index where six ASCII digits start, and finds none exactly when no such index exists |
| `CsvUtils.FilenameDateAt` | utils/csv_utils.py:15-22 | the date is the first DDMMYY run rearranged as `20YY-MM-DD` (day-first, no calendar check) |
| `CsvUtils.FilenameDateNone` | utils/csv_utils.py:13-17 | there is no date exactly when the name has no six-digit run, the empty name included |
| `CsvUtils.TwoDigitsRoundTrip` | utils/csv_utils.py:20-21 | `str(int(t)).zfill(2)` gives back any two-digit text `t` |
| `CsvUtils.YearDigits` | utils/csv_utils.py:19 | `str(2000 + int(yy))` is "20" followed by the two digits |
| `CsvUtils.NormalizeKeyIsReplaceLower` | utils/csv_utils.py:25-27 | the per-character normaliser is the source's three `replace` calls followed by `lower`, which folds the ASCII capitals A–Z |
| `CsvUtils.NormalizeKeyShape` | utils/csv_utils.py:25-27 | a normalised key has no BOM, space, underscore or upper-case letter, and normalising is idempotent |
| `CsvUtils.UnderscoreIgnored` | utils/csv_utils.py:27 | an underscore anywhere in a name does not change its normal form, so both spellings the callers try find the same column |
| `CsvUtils.KeyMatchesNormalize` | utils/csv_utils.py:32-35 | the character walk used for matching holds iff the two normalised names are equal |
| `CsvUtils.LookupFirst` | utils/csv_utils.py:30-37 | the lookup gives the value of the first column, in row order, whose normalised name equals the target's; it gives None iff no column matches |
| `CsvUtils.FindField` | utils/csv_utils.py:30-37 | the early-return loop gives exactly that lookup |
| `CsvUtils.SetField` | utils/csv_utils.py:57-59 | `r[key] = v` sets the key, keeps every other key's value and the key order, and appends a new key at the end |
| `CsvUtils.NormalizeFromAt` | utils/csv_utils.py:51-60 | one output row per input row, in order; row `i` is stamped with the date known after reading rows 0..i |
| `CsvUtils.ParseCsvRows` | utils/csv_utils.py:40-61 | the loop carrying `snapshot_date` returns exactly that row list |
| `CsvUtils.StampRow` | utils/csv_utils.py:53-59 | one pass of the loop: the carried date is set from the row only while unset, and the row is stamped with it when it is truthy |
| `CsvUtils.SnapshotAfterKeeps` | utils/csv_utils.py:56 | once known, the run's date never changes |
| `CsvUtils.FilenameDateStampsAll` | utils/csv_utils.py:49-59 | with a file-name date, every output row is its input row with "snapshot_date" set to that date |
| `CsvUtils.FirstRowDateStampsRest` | utils/csv_utils.py:54-59 | without a file-name date, the first row with a truthy snapshot column fixes the stripped date for itself and every later row; earlier rows are unchanged |
| `CsvUtils.NormalizeFromEmpty` | utils/csv_utils.py:58-59 | a date that strips to "" stamps no row |
| `CsvUtils.NoDateAnywhere` | utils/csv_utils.py:49-60 | with no date anywhere the rows pass through unchanged |
| `Text.ReprRoundTrip` | services/item_grouping.py:123-124 | the `repr` quoted in a `float` error message reads back as the original text: unquoting and undoing the escapes give it back |
| `Text.ReprPlain` | services/item_grouping.py:123-124 | text of printable characters without quotes or backslashes is its own `repr` between single quotes |
| `PyFloat.ParseFloat` | services/item_grouping.py:81-82 | `float(text)` succeeds only on text that is not blank |
| `PyFloat.ParseIgnoresSurroundingSpace` | services/item_grouping.py:81-82 | surrounding whitespace never changes the parsed value |
| `PyFloat.ParseDigits` | services/item_grouping.py:81-82 | a run of digits parses to its decimal value |
| `PyFloat.ExampleEmpty` | services/item_grouping.py:123-124 | `float("")` and `float("  ")` raise |
| `PyFloat.ExampleWord` | services/item_grouping.py:82-84 | non-numeric text raises |
| `PyFloat.ExampleFraction` | services/item_grouping.py:81-82 | "2.5" parses to 2.5 |
| `PyFloat.ExampleNegative` | services/item_grouping.py:81-82 | "-4" parses to -4 |
| `PyFloat.ExampleExponent` | services/item_grouping.py:81-82 | "1e3" parses to 1000 |
| `ItemGrouping.ErrorMessage` | services/item_grouping.py:21-31 | `str(e)` of each exception grouping raises: the "missing" message with the text, the parser's own `strptime` message, `float`'s message with the `repr` of the cell (which reads back as the cell), and the `int`/`timedelta`/date-range overflow messages, with the day count for an oversized `timedelta` |
| `ItemGrouping.ParseDate` | services/item_grouping.py:19-23 | an empty date string raises the "missing" error; otherwise the stripped text is parsed, and text that does not parse raises with the parser's message |
| `ItemGrouping.Trunc` | services/item_grouping.py:58 | `int(x)` truncates toward zero |
| `ItemGrouping.EffectiveWeeksDefault` | services/item_grouping.py:51-55 | a missing, non-numeric or non-positive weeks value becomes 16 + 2 = 18; a positive one is kept; the result is always positive |
| `ItemGrouping.ScheduleBounds` | services/item_grouping.py:58-62 | on success, delivery is the snapshot plus trunc(weeks × 7) days; PO is max(snapshot, delivery − 126); so snapshot ≤ PO ≤ delivery, both within 0001-01-01..9999-12-31 |
| `ItemGrouping.ScheduleRaises` | services/item_grouping.py:58-60 | for a snapshot in range the schedule raises iff weeks × 7 is infinite, or delivery passes 9999-12-31, or the unclamped PO date falls before 0001-01-01; the error is `int(inf)`'s, the C-int or `timedelta`-magnitude error, or the date-range error, in that order |
| `ItemGrouping.ScheduleOverflowExamples` | services/item_grouping.py:58-62 | 500000 weeks from 2025-01-01 and 1 week from 0001-01-05 overflow the date range; 150000000 weeks exceed `timedelta`, 1e9 weeks a C int, 1e400 weeks is infinite; 2 weeks gives delivery 14 days out |
| `ItemGrouping.ScheduleDefault` | services/item_grouping.py:54-62 | with no usable weeks value, delivery is 126 days out and the PO date is the snapshot, unless that delivery passes 9999-12-31, which raises |
| `ItemGrouping.RoundHalfEven` | services/item_grouping.py:45 | `round(x)` is within 0.5 of x, and a tie goes to the even integer |
| `ItemGrouping.DaysLabel` | services/item_grouping.py:34-45 | each label for a whole number of days d, using d/7 weeks with inclusive bounds 0.5/1/2/4/8; otherwise "within round(d/7) weeks" |
| `ItemGrouping.LabelBoundaries` | services/item_grouping.py:34-45 | the bounds are inclusive (0.5 → "immediately", 8 → "within 4–8 weeks"), and rounding is half-to-even (8.5 → 8, 9.5 → 10) |
| `ItemGrouping.BuildRecommendations` | services/item_grouping.py:48-72 | raises the date parse's error, else the schedule's overflow error; otherwise gives the formatted PO and delivery days and the labels of their distances from the snapshot in weeks |
| `ItemGrouping.DefaultRecommendationLabels` | services/item_grouping.py:48-72 | with no usable weeks value the call succeeds iff snapshot + 126 days is within the calendar, and then the PO is due "immediately" and delivery is "within 18 weeks" |
| `ItemGrouping.EighteenWeeks` | services/item_grouping.py:45 | 18 weeks is labelled "within 18 weeks" |
| `ItemGrouping.RoundUp` | services/item_grouping.py:92 | `int(q) + (1 if q % 1 else 0)` is the ceiling of a positive q |
| `ItemGrouping.SuggestedQuantitySpec` | services/item_grouping.py:75-92 | a quantity exists iff stock and weeks are both numbers > 0, and it is the ceiling of stock × 26 / weeks (at least 1) |
| `ItemGrouping.QuantityExamples` | services/item_grouping.py:80-92 | (130, 26) → 130; (100, 25) → 104; (10, 3) → 87; zero stock, negative weeks or no stock → None |
| `ItemGrouping.ReadCellsTrimmed` | services/item_grouping.py:105-107 | the snapshot, supplier and risk cells are stripped |
| `ItemGrouping.ClassifyCellsSpec` | services/item_grouping.py:105-130 | a row is dropped iff its date or supplier is empty or its item code or name is absent; an unparseable date raises; a present non-numeric stock or weeks cell raises; a kept row carries its cells, "N/A" for an empty risk level, `float` of the stock and weeks cells, the recommendation and the quantity |
| `ItemGrouping.EmptyStockCellFails` | services/item_grouping.py:123-124 | a present but empty stock cell makes grouping raise |
| `ItemGrouping.OutcomesAt` | services/item_grouping.py:104 | the loop classifies each row in row order |
| `ItemGrouping.FirstIndex` | services/item_grouping.py:132-135 | finds the first entry of a supplier, and no earlier entry has that supplier |
| `ItemGrouping.GroupBySupplier` | services/item_grouping.py:95-140 | the loop over the map and its insertion order returns exactly the specified grouping, or the first row's error |
| `ItemGrouping.AddEntry` | services/item_grouping.py:132-138 | inserting a new supplier's group and appending the item keeps the map in step with the entries read so far |
| `ItemGrouping.Values` | services/item_grouping.py:140 | `list(groups.values())` in insertion order is the grouping |
| `ItemGrouping.GroupRowsErr` | services/item_grouping.py:116-124 | a row that raises ends the whole call with its error |
| `ItemGrouping.GroupRowsOk` | services/item_grouping.py:132-140 | once every row is read, the result is the grouping of the kept entries |
| `ItemGrouping.CollectErrSticky` | services/item_grouping.py:116-124 | after a row raises, no later row changes the outcome |
| `ItemGrouping.SuppliersMembership` | services/item_grouping.py:132-138 | a supplier has a group iff some kept row has that supplier |
| `ItemGrouping.SuppliersDistinct` | services/item_grouping.py:132-137 | no supplier has two groups |
| `ItemGrouping.SuppliersFirstSeenOrder` | services/item_grouping.py:132-140 | groups appear in the order of their suppliers' first rows |
| `ItemGrouping.GroupingShape` | services/item_grouping.py:132-140 | one group per distinct supplier; each group is non-empty, belongs to its supplier, takes the snapshot date of that supplier's first row, and lists that supplier's items in row order |
| `ItemGrouping.ItemsOfCount` | services/item_grouping.py:132-138 | a supplier has items iff it has a row, so no group is empty |
| `ItemGrouping.GroupingPartitions` | services/item_grouping.py:138 | the group sizes add up to the number of kept rows: every kept row lands in exactly one group |
| `DocxUtils.ReplaceForbidden` | utils/docx_utils.py:46 | each of `<>:"/\|?*` becomes '_' and every other character is kept |
| `DocxUtils.CollapseSpace` | utils/docx_utils.py:47 | the result has no whitespace; each character is '_' or comes from the input |
| `DocxUtils.LStripDots` | utils/docx_utils.py:47 | `lstrip("._")` leaves a suffix that does not start with '.' or '_' |
| `DocxUtils.RStripDots` | utils/docx_utils.py:47 | `rstrip("._")` leaves a prefix that does not end with '.' or '_' |
| `DocxUtils.SanitizeShape` | utils/docx_utils.py:44-48 | the sanitised name is never empty, has none of the forbidden characters and no whitespace, and does not start or end with '.' or '_' |
| `DocxUtils.SanitizeSafe` | utils/docx_utils.py:44-48 | a name that is already safe is left unchanged |
| `DocxUtils.SanitizeIdempotent` | utils/docx_utils.py:44-48 | sanitising twice equals sanitising once |
| `DocxUtils.TableRowExamples` | utils/docx_utils.py:51-54 | "\|a\|" and "\|" are not table rows; "\|a\|b\|" is |
| `DocxUtils.ParseTableRowCount` | utils/docx_utils.py:67-73 | a line that is not pipe-delimited gives [], otherwise one more cell than its interior has pipes |
| `DocxUtils.ParseTableRowTrimmed` | utils/docx_utils.py:73 | every cell is stripped |
| `DocxUtils.TableRowCells` | utils/docx_utils.py:51-73 | a table row has at least two cells |
| `DocxUtils.UnixNewlines` | utils/docx_utils.py:101 | replacing "\r\n" by "\n" never lengthens the text |
| `DocxUtils.RunEnd` | utils/docx_utils.py:124 | the inner loop's stopping index lies in range |
| `DocxUtils.RunEndShape` | utils/docx_utils.py:124-130 | the run is a maximal stretch of table-row lines |
| `DocxUtils.ContentToBlocks` | utils/docx_utils.py:99-135 | the while loop with its inner table loop produces exactly the specified block list |
| `DocxUtils.ReadTable` | utils/docx_utils.py:123-130 | the inner loop stops at the end of the run and gathers its parsed non-separator rows |
| `DocxUtils.LineBlockWellFormed` | utils/docx_utils.py:106-121 | a line's block is a paragraph or a heading of level 0–2, with stripped text |
| `DocxUtils.BlocksFromShape` | utils/docx_utils.py:99-135 | each line makes at most one block, and every block is well formed |
| `DocxUtils.BlocksWithoutTables` | utils/docx_utils.py:99-135 | text without table rows makes exactly one block per line, in order |
| `DocxUtils.ArtifactFilename` | utils/docx_utils.py:165-166 | saved names start with analysis_/pr_/email_draft_ and end with ".docx" |
| `DocxUtils.SaveFolder` | utils/docx_utils.py:167 | a document goes to the temp folder exactly when temp output is on |
| `Json.DictGet` | routers/pipeline.py:93-95 | `.get(key, default)` gives the value of the key's first occurrence, or the default when the key is absent |
| `VectorStore.Store.constructor` | services/vector_store.py:47-51 | a new store has logged nothing |
| `VectorStore.Store.Ingest` | services/vector_store.py:54-99 | an `ingest_*` call appends its document to the log and raises as the store's outcome says |
| `Agents.Backend.constructor` | services/agents.py:30-35 | a new backend has received no request |
| `Agents.Backend.Invoke` | services/agents.py:81 | `llm.invoke` appends the request to the log and returns the backend's answer |
| `Agents.FindFrom` | services/agents.py:56 | gives the leftmost occurrence of a pattern at or after an index, or None when there is none |
| `Agents.FencedSpan` | services/agents.py:56 | the fenced match's content span lies within the text |
| `Agents.FencedSpanExists` | services/agents.py:56-57 | the fenced regex matches iff there are two fences, the later at least three characters after the earlier |
| `Agents.FencedSpanShape` | services/agents.py:56-58 | the content runs from just after the first fence (and an optional "json") up to the next fence, and contains no fence |
| `Agents.LastIndexOf` | services/agents.py:60 | gives the last index of a character, or None |
| `Agents.SpanFrom` | services/agents.py:60 | gives the leftmost position where the bracket pattern can start |
| `Agents.BracketSpan` | services/agents.py:60 | the bracketed span is a non-empty range of the text |
| `Agents.BracketSpanExists` | services/agents.py:60-61 | the bracket regex matches iff an opening bracket is followed somewhere later by a closer of its kind |
| `Agents.BracketSpanShape` | services/agents.py:60-62 | the span starts with an opener and ends with the last closer of that kind (greedy) |
| `Agents.FencedBlockDecides` | services/agents.py:56-58 | with a fenced block, the result is the decoding of its stripped content alone, with no fall-through |
| `Agents.UnfencedCandidates` | services/agents.py:59-63 | without a fence the bracketed span is decoded as is; without either, the stripped whole text is decoded |
| `Agents.CandidateTrimmed` | services/agents.py:58-63 | fenced and whole-text candidates are stripped |
| `Agents.ToolDispatch` | services/agents.py:86-95 | a call without a name goes to supplier_history; the queries default to the supplier and to "item_code: X" items; unknown names give "" |
| `Agents.HistoryToolOutput` | services/agents.py:40-50 | tool output is the k=5 documents joined by "\n\n", or the fixed "No … history found." message |
| `Agents.ToolMessages` | services/agents.py:84-96 | one tool message per call |
| `Agents.ToolMessagesAt` | services/agents.py:84-96 | message k answers call k and carries its id |
| `Agents.RunTools` | services/agents.py:84-96 | the for loop over the tool calls builds exactly those messages |
| `Agents.RunAnalysisAgent` | services/agents.py:66-107 | the backend log grows by exactly the specified requests, and the result is the specified outcome |
| `Agents.AnalysisRequestCount` | services/agents.py:81-98 | one request, and a second iff the first reply asks for tools; never more than two |
| `Agents.FollowUpShape` | services/agents.py:97 | the second request is the first two messages, the first reply, then the tool messages in call order |
| `Agents.SecondToolCallsIgnored` | services/agents.py:98-101 | only the second reply's text counts; its tool calls are ignored |
| `Agents.AnalysisFallbackShape` | services/agents.py:102-107 | unparseable text gives {markdown: text, critical_questions: [], replenishment_timeline: the input items} |
| `Agents.WithExamples` | services/agents.py:116-117 | the input is left alone iff there are no examples; otherwise it follows the heading and the examples |
| `Agents.ExamplesPrefix` | services/agents.py:112-117 | no examples leave the input alone; otherwise heading + examples joined by "\n\n" + "\n\nInput:\n" + input |
| `Agents.RunReportDocAgent` | services/agents.py:110-122 | exactly one chat-model request, and the result is its reply's text |
| `Agents.RunPrDraftAgent` | services/agents.py:125-152 | exactly one request; the draft is the reply's JSON or the fallback |
| `Agents.PrDraftFallbackShape` | services/agents.py:151-152 | unparseable text gives {"document_type": "purchase_request", supplier, snapshot_date, "purchase_requests": []} |
| `Agents.RunPrDocAgent` | services/agents.py:155-167 | exactly one request, and the result is its reply's text |
| `Agents.RunEmailDraftAgent` | services/agents.py:170-195 | exactly one request to gpt-4o-mini, and the result is its reply's text |
| `Pipeline.ErrorText` | routers/pipeline.py:259-260 | `str(e)` of a run's exception: an `HTTPException` text splits at its first colon into the status digits and ": " + detail; a grouping error gives its message; a backend failure its own text; a list analysis output `'list' object has no attribute 'get'` |
| `Pipeline.DocumentShape` | routers/pipeline.py:98-124 | a document carries its group's date, supplier and `{prefix}{date}_{sanitised supplier}.docx` name; saved_path is "" iff in memory, else the path under the artifact's folder |
| `Pipeline.AnalysisResultDefaults` | routers/pipeline.py:90-96 | missing analysis fields default to "" / [] / the group's items, and a list output raises at `.get` |
| `Pipeline.GroupOutcomeShape` | routers/pipeline.py:80-183 | a failed or non-object analysis stops the group; otherwise its report, request and e-mail are each made from its agent's reply |
| `Pipeline.GroupsOutcomeShape` | routers/pipeline.py:74-183 | a completed loop has one report, one request and one e-mail per group, in group order |
| `Pipeline.GroupsOutcomeFailure` | routers/pipeline.py:74-183 | the loop fails iff some group fails, and then with the first failing group's exception |
| `Pipeline.GroupsOutcomePrefixFails` | routers/pipeline.py:74 | a failure among the first k groups is the failure of the whole loop |
| `Pipeline.GroupsOutcomeNext` | routers/pipeline.py:74-183 | a successful pass appends its group's three documents; a failing pass ends the run with its error |
| `Pipeline.RunOutcomeShape` | routers/pipeline.py:54-193 | a completed run read rows, grouped them into at least one group, and made every group's three documents |
| `Pipeline.RunOutcomeRefusals` | routers/pipeline.py:55-67 | no rows → 400 "No valid CSV rows…"; a grouping error is raised; no groups → 400 "No groups by supplier…" |
| `Pipeline.GroupEventsShape` | routers/pipeline.py:80-173 | a streamed group reports nine events, none terminal and none `report` |
| `Pipeline.GroupsTraceShape` | routers/pipeline.py:80-173 | the streamed trace of the groups has 9 events per group, none terminal, and never a `report` event |
| `Pipeline.RunTraceShape` | routers/pipeline.py:54-193 | the streamed trace starts csv_parsing, item_grouping, item_grouping_done{count} and ends with its single complete event; its length is 4 + 9 × groups |
| `Pipeline.ReportStage` | routers/pipeline.py:88-124 | the report document, or the failure; only file events while streaming, and never the `report` event |
| `Pipeline.RequestStage` | routers/pipeline.py:126-154 | the request document; the `pr` event, then its file events while streaming |
| `Pipeline.RequestText` | routers/pipeline.py:127-128 | the request text: the draft agent, then the document agent on its draft, failing with the first backend failure |
| `Pipeline.EmailStage` | routers/pipeline.py:156-183 | the e-mail document; the `email` event, then its file events while streaming |
| `Pipeline.TraceOfShape` | routers/pipeline.py:80-183 | a pass reports nothing without streaming; streamed, it starts with `analysis`, has only quiet events, is `[analysis]` alone when the analysis or report fails, 4 events ending with `pr` when the request fails, 7 ending with `email` when the e-mail fails, and the group's nine events when it completes |
| `Pipeline.GroupTraceShape` | routers/pipeline.py:80-183 | the events of a pass that completes are exactly its group's events; every streamed pass starts with `analysis` and has only quiet events |
| `Pipeline.RunGroup` | routers/pipeline.py:74-183 | one pass has exactly the specified group outcome and the events up to the stage that raised, or all of them |
| `Pipeline.RunStages` | routers/pipeline.py:88-183 | after an analysis, the report, request and e-mail stages give the first failure or the three documents, and their events up to the stage that raised |
| `Pipeline.LoopEventsPrefixFails` | routers/pipeline.py:74-183 | once a group has raised, later groups add no events |
| `Pipeline.LoopEventsNext` | routers/pipeline.py:74-183 | a pass after groups that completed adds its events; when it raises they are the last events of the loop |
| `Pipeline.LoopEventsComplete` | routers/pipeline.py:74-183 | when every completed pass reports its group's events, a completed loop reports the trace of all groups |
| `Pipeline.TracesMatch` | routers/pipeline.py:80-183 | every pass that completes reports its group's events |
| `Pipeline.RunGroups` | routers/pipeline.py:74-183 | the group loop gives the specified result lists and, whatever its outcome, the earlier groups' events then those of the failing group up to its failing stage |
| `Pipeline.RunGrouped` | routers/pipeline.py:68-193 | the loop's outcome, and its events followed by `complete` when it completes |
| `Pipeline.RunEventsRefusals` | routers/pipeline.py:54-67 | a streamed run without rows reports `csv_parsing` only; one whose grouping raises or gives no group reports `csv_parsing`, `item_grouping` |
| `Pipeline.GroupedEventsComplete` | routers/pipeline.py:68-193 | a grouped run whose loop completes reports the whole trace of a completed run |
| `Pipeline.GroupedEventsFailure` | routers/pipeline.py:68-183 | a grouped run whose group k first raises reports the opening steps, the trace of groups before k, and group k's events |
| `Pipeline.RunEventsComplete` | routers/pipeline.py:54-193 | a streamed run that completes reports exactly its whole trace |
| `Pipeline.RunEventsGroupFailure` | routers/pipeline.py:54-183 | a streamed run whose group k first raises reports `csv_parsing`, `item_grouping`, `item_grouping_done`, the trace of groups before k, then group k's events up to the stage that raised |
| `Pipeline.RunPipeline` | routers/pipeline.py:38-194 | the response or exception is the specified outcome with in_memory = stream ∨ embed_files; the events are the specified callback calls whatever the outcome, so a completed streamed run emits the whole trace; without streaming there are no events |
| `Pipeline.RelayedShape` | routers/pipeline.py:265-279 | the relay forwards a prefix of the queue, in order, ending at the first complete or error event |
| `Pipeline.RelayedWhole` | routers/pipeline.py:265-279 | a queue whose only terminal event is its last is forwarded whole |
| `Pipeline.Relay` | routers/pipeline.py:265-279 | the loop sends one `data: …` frame per relayed event |
| `Pipeline.RelayedFrom` | routers/pipeline.py:272-279 | forwarding one queued event: after `complete` or `error` the relay is done, otherwise it continues with the next event |
| `Pipeline.StreamEvents` | routers/pipeline.py:249-281 | the queue is the run's callback calls, followed by error{str(e)} when the run raises; a completed run's queue is its whole trace ending with complete{result}; exactly one event is terminal, the last, and every event is forwarded |
| `Ingest.SkipSpace` | routers/ingest.py:27 | `\s*` skips to the first character that is not whitespace |
| `Ingest.SkipSpaceShape` | routers/ingest.py:27 | every skipped character is whitespace |
| `Ingest.LineEnd` | routers/ingest.py:27 | the lazy group's end lies in range |
| `Ingest.LineEndShape` | routers/ingest.py:27 | the name runs up to the first "\n" or "\r\n" or the end of the text |
| `Ingest.FirstMatchSpec` | routers/ingest.py:27 | a search succeeds iff some position matches, and then it gives the leftmost match |
| `Ingest.SupplierNameLeftmost` | routers/ingest.py:25-30 | raises "Missing 'Supplier: ...' header…" iff no case-insensitive header exists; otherwise it gives the leftmost header's name |
| `Ingest.SupplierGroupShape` | routers/ingest.py:27 | the header's group starts after "Supplier", the colon and the whitespace |
| `Ingest.SupplierAtShape` | routers/ingest.py:27-30 | the name is the stripped rest of the header line, holds no "\n", and is "" when nothing follows the whitespace |
| `Ingest.DigitRunEnd` | routers/ingest.py:35 | `\d+` ends within the text |
| `Ingest.DigitRunShape` | routers/ingest.py:35 | the run is all digits |
| `Ingest.ItemCodeLeftmost` | routers/ingest.py:33-36 | None iff no "ItemCode" header (any case, optional ':'/'-') is followed by digits; otherwise the leftmost code |
| `Ingest.ItemCodeAtShape` | routers/ingest.py:35-36 | the item code is a non-empty, maximal run of digits |
| `Ingest.UploadResultIngestion` | routers/ingest.py:64-77 | a missing or non-".pdf" name is refused ("PDF file required.", "(unknown)" for no name) and ingests nothing; an ingested file hands over exactly the document it reports |
| `Ingest.MissingHeaderRefused` | routers/ingest.py:69-77 | a supplier PDF without a header is recorded as failed with the header message and ingests nothing |
| `Ingest.ProcessPdf` | routers/ingest.py:69-77 | extract, take the metadata, ingest; any failure is recorded for that file; the store log grows by at most that document |
| `Ingest.ProcessUpload` | routers/ingest.py:64-77 | refusal by name, or the PDF processing |
| `Ingest.IngestUploads` | routers/ingest.py:55-79 | an empty list gives 400; otherwise one result per file, in order, with processed = len(results); a failed file does not stop the rest; the store log is the files' documents in order |
| `Ingest.ProcessUploads` | routers/ingest.py:63-78 | the loop over the files: result k is file k's result, and the store log grows by each file's document in order |
| `Ingest.IngestZip` | routers/ingest.py:81-104 | a non-".zip" name gives 400 and an archive without PDFs gives 400, both ingesting nothing; otherwise one result per PDF, in archive order |
| `Ingest.ProcessPdfs` | routers/ingest.py:93-103 | the loop over the archive's PDFs: result k is PDF k's result, and the store log grows by each PDF's document in order |
| `Output.SafeRunEnd` | routers/output.py:14 | the run of `[a-zA-Z0-9_\-\.]` characters ends within the name |
| `Output.SafeRunShape` | routers/output.py:14 | the run consists of safe characters only and is maximal |
| `Output.BodyMatchSpec` | routers/output.py:14 | the backtracking match of `[…]+\.docx$` succeeds iff some split of the tail is a safe body and ".docx" with an optional final "\n" |
| `Output.SafeMatchIff` | routers/output.py:14 | `_SAFE_FILENAME.match` holds iff the name is a prefix, a non-empty safe body, then ".docx", optionally followed by one "\n" (Python `$`) |
| `Output.SafeNameShape` | routers/output.py:14 | an accepted name has one of the three prefixes, is built from safe characters (no '/' or '\'), and ends in ".docx" |
| `Output.ArtifactDownloadable` | routers/output.py:14 | every file name the pipeline generates for a safe date passes the download pattern |
| `Output.ResolvePath` | routers/output.py:18-31 | unsafe names give None; in temp mode only the temp folder is looked at; otherwise analysis, pr and email_draft are searched in order, the first existing file wins, and None means no folder has the file |
| `Output.DownloadOutput` | routers/output.py:51-64 | 404 "File not found or invalid filename." iff path resolution fails; otherwise the Word media type and `attachment; filename="…"` |
| `Output.LastIndexOf` | routers/output.py:46 | `rfind`: the last index of the character, or -1 |
| `Output.DocxSuffixIff` | routers/output.py:46 | `suffix.lower() == ".docx"` iff the name ends in ".docx" in any case, with at least one character before it |
| `Output.DocxFilesShape` | routers/output.py:44-47 | exactly the directory's regular files with a .docx suffix are listed |
| `Output.ListOutput` | routers/output.py:34-48 | outside temp mode there are no files and expiry is 0; otherwise the .docx files of the temp folder, in listing order, with the configured expiry |
| `Security.IntToString` | services/security.py:33 | `str(i)` is the decimal digits, with '-' for a negative i |
| `Security.KeyFor` | services/security.py:25-27 | requests are keyed by client and day, with "unknown" for a missing client |
| `Security.AccessGuard.Count` | services/security.py:29 | `get(key, 0)`: 0 for an unseen key, and between 1 and the limit for a recorded one |
| `Security.AccessGuard.constructor` | services/security.py:10 | the usage map starts empty and satisfies the invariant |
| `Security.AccessGuard.VerifyAccess` | services/security.py:12-38 | a configured token the header does not match gives 403 with the map unchanged; a count at or above the limit gives 429 "Daily request limit reached (N)…" with the map unchanged; otherwise true, that key incremented by exactly 1, no other key changed, and no count above the limit |
| `Security.NegativeLimitRefuses` | services/security.py:29-34 | with a limit of zero or less nothing is ever recorded, and every request that passes the token check is refused |

## Left out

- CSV decoding is a parameter of the run. `csv.DictReader`, the UTF-8/cp1252 fallback and the upload reading are not modelled.
  - DictReader's `None` values for short rows are not modelled: a row is a list of text cells.
  - DictReader's `None` key for the extra cells of a long row is not modelled; on such a row `_normalize_key(None)` raises `AttributeError`, which no model member raises.
- Calendar validation and formatting inside `strptime`/`strftime` are abstract (`Calendar.parse`/`format` over day numbers). The parser's error message is part of that parameter.
- Text.Repr escapes the control characters and the Latin-1 characters Python prints as `\xhh`; the non-printable characters beyond U+00FF, which Python prints as `\uXXXX` or `\UXXXXXXXX`, are not escaped by the model.
- CsvUtils.NormalizeKeyIsReplaceLower: `lower` folds the ASCII capitals only; Python's Unicode lowering of other characters (U+212A KELVIN SIGN to 'k', accented capitals) is not modelled.
- `date.today()` and the client address are parameters of `VerifyAccess`.
- The configured token and the daily limit are constructor parameters, because the settings class does not declare them.
- `float()` is modelled on decimal text only:
  - "inf", "nan" and underscores in numbers count as not a number;
  - values are exact reals, so binary floating-point rounding is not modelled;
  - `round`, `int` and the ceiling step are written out on reals.
- ItemGrouping.BuildRecommendations: an "inf" weeks cell, on which Python's `int(inf * 7)` raises `OverflowError`, and a "nan" weeks cell, which Python keeps, are not numbers in the model, so grouping raises the `float` error on them instead.
- ItemGrouping.ScheduleFor: weeks × 7 is exact, so a product that becomes infinite only by double rounding just below 2^1024 is judged on the exact value.
- ItemGrouping.SuggestedQuantity: its quotient and product are exact reals, so the infinite result on which Python's `int` raises for extreme cells is not modelled.
- `re` character classes are ASCII:
  - `\d` means '0'–'9';
  - `re.IGNORECASE` folds ASCII letters only;
  - `\s` and `str.strip` use Python's whitespace set.
- Agents.FencedSpan: `\s*` after the optional "json" is folded into the final `strip()`. The content handed to `json.loads` is the same with or without it.
- Decoded JSON objects are key/value lists. Duplicate-key handling of `json.loads` is not modelled.
- The chat model, `json.loads` and `json.dumps`, vector search and the prompts are parameters of `Agents.Env`/`Backend`. A backend call that raises is an `Err` that ends the run.
  - Only string tool arguments are modelled: a tool call's query is present or absent.
- Pipeline.RunGroup, Pipeline.RunGroups and Pipeline.RunPipeline do not state the backend request log. Only the agent methods state what they send.
- Word output is a parameter: python-docx styling, `_add_table_to_doc`, saving and base64 encoding are not modelled. The .docx is the base64 text of the block list.
  - `_read_file_base64` is also a parameter that may give `None`.
  - Pipeline.DocumentFor takes the saved path as given; write failures are not modelled.
- `_ensure_dirs` (directory creation) is not modelled.
- `cleanup_temp_output` depends on the wall clock and deletes files. It is not modelled: path resolution and the listing see the directory as it stands.
- Output.ListOutput takes the directory listing as already sorted by modification time, newest first; the sort itself is not modelled.
- `FileResponse` streaming is not modelled.
- PDF text extraction (`utils/pdf_utils.py`) and ZIP extraction are parameters of `Ingest.IngestEnv`. Temp files, `BadZipFile` and deletion are not modelled.
  - A missing upload file name is modelled as "".
- The vector store's text splitting, embeddings, Chroma persistence and the no-API-key degradation are not modelled.
- The concurrency of the stream bridge is not modelled: the worker thread, `queue.get(timeout=0.3)`, `sleep` and `task.done()`. The relay is modelled as a sequential loop over the events the run queued.
- The FastAPI endpoint wrappers in front of `_run_pipeline` are not modelled:
  - the OPENAI_API_KEY and ".csv" checks;
  - the 500/400 responses;
  - CORS and app wiring.
