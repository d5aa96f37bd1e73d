# einstyn research assistant: a Dafny model of its decision logic

einstyn (ResearchlyAI) is a deep-research assistant. A query starts a
pipeline of event handlers, run on the Motia runtime:

- generate search queries;
- search the web through Firecrawl;
- scrape the hits;
- analyse them with an LLM;
- either go one level deeper with follow-up queries or compile a final
  report.

Around the pipeline sit:

- a status endpoint;
- a Postgres-backed backend with endpoints for querying stored sources,
  running quick actions on a source, switching a source's reading mode and
  reviewing a report;
- a mock Express server used by the backend's API test script
  (backend/test-apis.js);
- a React frontend whose findings panel filters and sorts findings, whose
  source chat keeps a message log, and whose research page runs a
  pipeline-step ticker.

This project models that logic as pure Dafny functions. Every external
service is a function-typed parameter (an "oracle"):

- the Firecrawl scraper and search;
- the OpenAI completions;
- the database connection;
- JSON parsing of model output;
- the clock.

Python and JavaScript objects are a small JSON value type (`Json.Json`).
Its objects are association lists, so insertion order and `{**a}`
overriding behave as in Python. Exceptions that escape a handler are `Err`
or a `Raised` outcome.

The pipeline's state store is a typed record (`Motia.Store`) with one map
per key family. For example, `analysis-depth-{d}` becomes `analyses[d]`.
An event handler returns the new store and one outcome:

- `Emitted(event)`: it emitted one event;
- `Raised`: it raised;
- `Quiet`: it returned without emitting.

`Pipeline.Run` drives the handlers from the `research-started` event with a
step budget (`fuel`). `Pipeline.ResearchIsBounded` proves the central
claim: a run causes at most `depth` follow-up rounds and always stops.

Files and modules:

| file | module | models |
|---|---|---|
| wrappers.dfy | Wrappers | Option / Result |
| text.dfy | Text | `str.strip`, `lower`, `split('\n')`, `join`, `int()` parsing |
| json.dfy | Json | dict `get`, truthiness, `len`, iteration, `str()` |
| http.dfy | Http | `{status, body}` responses |
| batching.dfy | Batching | `range(0, n, c)` chunking, filtering successes |
| firecrawl.dfy | Firecrawl | services/firecrawl_service.py |
| firecrawl_ts.dfy | FirecrawlTs | services/firecrawl.service.ts, including JavaScript `parseInt` |
| firecrawl_app.dfy | AppFirecrawl | app/services/firecrawl_service.py with the inter-batch delay |
| llm.dfy | Llm | services/openai_service.py reply handling and prompt text |
| motia.dfy | Motia | the state store, events and step outcomes |
| research_api.dfy … compile_report.dfy | ResearchApi, GenerateQueries, SearchWeb, ExtractStep, AnalyzeContent, FollowUpResearch, CompileReport | the steps/*.py handlers |
| pipeline.dfy | Pipeline | the event-driven run and its termination |
| status.dfy | PyRound, StatusApi, AppStatus | Python `round`, steps/status_api_step.py, app/api/status.py |
| source_details.dfy | SourceDetails | steps/source_details_api_step.py metadata extraction |
| database.dfy | Database | backend/src/services/database_service.py |
| research_query.dfy, source_action.dfy, source_mode.dfy, report_feedback.dfy | ResearchQuery, SourceAction, SourceMode, ReportFeedback | the backend/steps handlers |
| test_server.dfy | TestServer | backend/test-server.js routes |
| finding_card.dfy, findings.dfy, source_chat.dfy, ticker.dfy | FindingCard, FindingsPanel, SourceChat, ResearchTicker | the frontend components and the Index page |

## Model

| member | source | states |
|---|---|---|
| SourceDetails.Handle | steps/source_details_api_step.py:17-127 | A missing or empty sourceId gives 400 "Source ID is required" before anything is fetched. A scrape with content gives 200 with the extracted metadata. A ValueError mentioning "API key not set" gives 500 "API key not configured". Any other ValueError propagates. Every other failure, including a missing scrape result, gives 500. |
| SourceDetails.Title | steps/source_details_api_step.py:48-53 | The title is "" exactly when none of the first 10 lines is a title line: non-empty once stripped, not starting with '#', and longer than 10 characters. Otherwise it is the stripped text of the first such line. |
| SourceDetails.FirstTitleFinds | steps/source_details_api_step.py:48-53 | Over the whole scan, the first-match search returns "" exactly when no line qualifies, and otherwise returns the stripped text of the first qualifying line. |
| SourceDetails.Classified | steps/source_details_api_step.py:56-67 | Each line is classified independently: abstract marker, prose, stripped text. |
| SourceDetails.Collect | steps/source_details_api_step.py:56-67 | Accumulating the abstract only ever extends the accumulator, and never grows it past 1000 characters. |
| SourceDetails.CollectIsFit | steps/source_details_api_step.py:56-67 | The line-by-line loop equals fitting, under the 1000-character budget, the prose lines that come after the first marker. |
| SourceDetails.FitKeepsPrefix | steps/source_details_api_step.py:63-67 | What fits is always a prefix of the kept lines. The first line that does not fit ends the abstract. |
| SourceDetails.KeptFollowMarker | steps/source_details_api_step.py:58-65 | Every kept line is a prose line, and never a marker line. |
| SourceDetails.MarkedProseKept | steps/source_details_api_step.py:58-65 | Every prose line after a marker is kept. Blank and '#' lines are skipped rather than ending the abstract. |
| SourceDetails.NoMarkerKeepsNothing | steps/source_details_api_step.py:58-62 | Without an "abstract" marker line, nothing is kept. |
| SourceDetails.Abstract | steps/source_details_api_step.py:56-67 | The abstract is at most 1000 characters. |
| SourceDetails.AbstractIsKeptPrefix | steps/source_details_api_step.py:56-67 | The abstract is the stripped, space-joined longest prefix of the post-marker prose lines that stays under 1000 characters. It is "" when no line is a marker. |
| SourceDetails.Hits | steps/source_details_api_step.py:73-78 | A line scan records only matching lines, in strictly increasing line order. |
| SourceDetails.HitsFindAll | steps/source_details_api_step.py:73-78 | Every matching line is recorded. |
| SourceDetails.Capped | steps/source_details_api_step.py:102-103 | Capping keeps the first `limit` hits, in order, and drops only hits that come after them. |
| SourceDetails.Figures | steps/source_details_api_step.py:73-78 | At most 5 figure mentions are kept. Each is a line containing "figure" or "fig." in any case, with its index and stripped text, in line order, and no earlier mention is skipped. |
| SourceDetails.FenceEnd | steps/source_details_api_step.py:83-89 | A code block ends at the first following line containing ``` or at the end of the input. |
| SourceDetails.Blocks | steps/source_details_api_step.py:79-90 | At most 3 code blocks are kept. Each opens on a line with ``` and one of python, code or algorithm, in line order. |
| SourceDetails.BlockLines | steps/source_details_api_step.py:79-90 | A block's text is the lines strictly between its opener and the closing fence, joined by newlines. None of those lines contains a fence. |
| SourceDetails.Extract | steps/source_details_api_step.py:92-104 | pdfLink is the url exactly when the url ends with ".pdf". fullContent is the first 5000 characters. The abstract, figure and block limits hold. |
| Batching.ChunkSizes | services/firecrawl_service.py:73-74 | Every chunk has 1..c items, and every chunk but the last has exactly c. |
| Batching.ChunksConcat | services/firecrawl_service.py:73-74 | The chunks, concatenated, give back the input, so each item is in exactly one chunk. |
| Batching.ChunksCount | services/firecrawl_service.py:73 | There are ceil(n / c) chunks. |
| Batching.ChunkIsSlice | services/firecrawl_service.py:73-74 | Chunk k is the slice `[k*c : k*c + c]` of the input. |
| Batching.FilterMapMembers | services/firecrawl_service.py:76-80 | Every kept result comes from an input that succeeded, and every success is kept. |
| Batching.FilterMapNone | services/firecrawl_service.py:84-94 | When every item fails, the result is empty. |
| Batching.FilterMapAll | services/firecrawl_service.py:76-80 | When every item succeeds, nothing is lost. |
| Batching.FilterMapConcat | services/firecrawl_service.py:73-80 | Filtering commutes with appending. |
| Batching.FilterMapWaves | services/firecrawl_service.py:73-80 | Filtering chunk by chunk and concatenating equals filtering the whole input. |
| Batching.FilterMapPermutes | services/firecrawl.service.ts:63-67 | Reordering the inputs reorders the successes and does not change them. |
| Batching.ConcatPermutes | services/firecrawl.service.ts:60-71 | Reordering inside each chunk leaves the multiset of the concatenation unchanged. |
| Firecrawl.ApiKey | services/firecrawl_service.py:29-34 | A key exists exactly when the argument or the environment supplies a non-empty one, and the argument wins. Otherwise this raises "Firecrawl API key not set". |
| Firecrawl.Search | services/firecrawl_service.py:38-52 | Unsuccessful replies raise with the provider error, or "Search failed" when it has none. On success there is one result per document, in order, with snippet taken from description and "" for missing fields. |
| Firecrawl.ExtractContent | services/firecrawl_service.py:54-63 | The markdown is returned, or "" when absent. An unsuccessful reply raises with its error, or "Scrape failed" when it has none. |
| Firecrawl.ExtractSingle | services/firecrawl_service.py:84-94 | A result exists exactly when the scrape succeeds. It carries the input's url, title and query and the scraped content. |
| Firecrawl.ConcurrencyLimit | services/firecrawl_service.py:70 | The limit defaults to 2. Otherwise it is `int()` of the environment value, which raises when that is not an integer. |
| Firecrawl.Waves | services/firecrawl_service.py:73-74 | A limit of 0 raises, a negative limit gives no chunks, and a positive limit gives chunks that cover the input. |
| Firecrawl.BatchExtract | services/firecrawl_service.py:65-82 | The result is the input filtered to the successful extractions, in input order. Failures raise nothing. A limit of 0 raises. |
| Firecrawl.BatchExtractFromEnv | services/firecrawl_service.py:70-82 | Without the environment variable, the batch keeps exactly the successes, in input order. |
| Firecrawl.BatchExtractKeeps | services/firecrawl_service.py:76-94 | The output is never longer than the input. Each result is a successful scrape of some input. If every scrape fails, the output is empty. |
| FirecrawlTs.OrElse | services/firecrawl.service.ts:33-50 | `x \|\| fallback` gives the fallback exactly when the value is missing, empty or the fallback itself. |
| FirecrawlTs.ApiKeyTs | services/firecrawl.service.ts:20-27 | The constructor throws exactly when neither the argument nor the environment gives a non-empty key. It agrees with the Python service. |
| FirecrawlTs.Search | services/firecrawl.service.ts:29-41 | Failure throws with the error, or 'Search failed' when it is empty. Success maps each document, with '' for nullish fields, or gives [] without data. |
| FirecrawlTs.ExtractContent | services/firecrawl.service.ts:43-51 | Success gives the markdown or ''. Failure throws with the error, or 'Scrape failed' when it is empty. |
| FirecrawlTs.ExtractOne | services/firecrawl.service.ts:64-68 | An item yields a result exactly when its scrape succeeds, and the result is the item extended with its content. |
| FirecrawlTs.ParseIntJs | services/firecrawl.service.ts:57 | JavaScript `parseInt` gives NaN for input without a digit. |
| FirecrawlTs.ParseIntRendered | services/firecrawl.service.ts:57 | `parseInt` of a rendered natural number gives that number back. |
| FirecrawlTs.LimitFromEnv | services/firecrawl.service.ts:57 | The limit is 2 when the variable is unset or empty, and otherwise `parseInt` of it. |
| FirecrawlTs.BatchExtract | services/firecrawl.service.ts:53-74 | The results are a rearrangement of the successful items, whatever the completion order inside each chunk. A NaN limit gives []. |
| FirecrawlTs.BatchPermutes | services/firecrawl.service.ts:60-71 | Any per-chunk completion order gives the same multiset of results. |
| FirecrawlTs.BatchWaveOrder | services/firecrawl.service.ts:60-63 | Every result of an earlier chunk precedes every result of a later chunk. |
| FirecrawlTs.BatchAllFail | services/firecrawl.service.ts:65-69 | When every scrape fails, the result is empty and nothing is thrown. |
| AppFirecrawl.Search | app/services/firecrawl_service.py:13-32 | Failure raises "Search failed: {error}". Success gives the same results as the services/ version. |
| AppFirecrawl.ExtractContent | app/services/firecrawl_service.py:34-45 | Failure raises "Extraction failed: {error}". Success gives the markdown, or "" when absent. |
| AppFirecrawl.BatchExtract | app/services/firecrawl_service.py:47-87 | The results are the successes in input order. The activity log is scrape, sleep, scrape, …: one scrape per chunk and one sleep between consecutive chunks. |
| AppFirecrawl.Turn | app/services/firecrawl_service.py:58-85 | One loop turn handles exactly the next chunk. It appends that chunk's successes and logs its scrape and, when a chunk follows, one sleep. |
| AppFirecrawl.ScheduleLength | app/services/firecrawl_service.py:83-85 | A run over k chunks logs 2k-1 activities. |
| AppFirecrawl.ScheduleAlternates | app/services/firecrawl_service.py:58-85 | Scrapes and sleeps alternate: even positions scrape chunk p/2, and odd positions sleep. |
| AppFirecrawl.PausesBetweenWaves | app/services/firecrawl_service.py:83-85 | A sleep happens only between chunks. A single chunk never sleeps, and k chunks sleep k-1 times. |
| Llm.GenerateSearchQueries | services/openai_service.py:33-38 | Empty content raises "No content returned from OpenAI", and an API error is re-raised. Content that parses to an object gives exactly its "queries" value, or [] when absent. A decode error is re-raised, and a non-object reply raises. |
| Llm.SourceBlock | services/openai_service.py:49-54 | Each source block starts with its title, URL and query header. It adds at most 5000 characters of content. |
| Llm.BlockSeesPrefixOnly | services/openai_service.py:53 | Two contents that agree on their first 5000 characters give the same block. |
| Llm.Blocks | services/openai_service.py:47-54 | There is one block per source, in input order. A source without content raises. |
| Llm.Budget | services/openai_service.py:58-59 | Text over 100,000 characters is cut to 100,000 plus "...". Text within the budget is unchanged. The result is at most 100,003 characters. |
| Llm.BudgetIdempotent | services/openai_service.py:58-59 | Applying the budget twice is the same as once. |
| Llm.AnalysisText | services/openai_service.py:47-59 | The analysis text is the blocks joined by "\n\n", under the budget. |
| Llm.JoinKeepsOrder | services/openai_service.py:56 | Joining keeps the blocks' order: the join of the first k blocks is a prefix of the whole. |
| Llm.ParsedReply | services/openai_service.py:82-86 | Empty content raises the step's message, and an API error is re-raised. Otherwise the result is exactly json.loads of the content, success or decode error. |
| Motia.MaxDepth | steps/analyze_content_step.py:53 | maxDepth is the config's depth, or 0 without a config. |
| Motia.Rounds | steps/analyze_content_step.py:73-77 | The follow-up rounds still possible from depth d are maxDepth - d, or 0. |
| Motia.MeasureAll | steps/analyze_content_step.py:61-66 | Logging `len()` of the reply's fields raises exactly when one of them has no length. |
| ResearchApi.Handle | steps/research_api_step.py:15-49 | query defaults to "", breadth to 4 and depth to 2, both for a missing body and for a body without those keys; present keys are passed on as they are. Exactly one research-started event is emitted, with requestId = traceId. The response is always 200 with that requestId, and an empty query is accepted. |
| GenerateQueries.Handle | steps/generate_queries_step.py:17-59 | The stored config is {breadth, depth, currentDepth: 0}, and originalQuery is stored too. The emitted event has depth 0 and carries the generated queries. Failures re-raise and leave the store unchanged. |
| SearchWeb.Found | steps/search_web_step.py:40-51 | A query gives an entry exactly when its search succeeds, and the entry pairs the query with its results. |
| SearchWeb.SearchAll | steps/search_web_step.py:37-54 | There are at most as many entries as queries. |
| SearchWeb.SearchSkipsFailures | steps/search_web_step.py:37-54 | Entries come only from successful searches, and every success is kept. Processing is sequential: searching qs + more gives qs's entries followed by more's. |
| SearchWeb.Handle | steps/search_web_step.py:16-68 | Results are stored under this depth. Exactly one event is emitted, even when every search fails, carrying the same depth, requestId and originalQuery. |
| ExtractStep.TargetsOf | steps/extract_content_step.py:38-45 | One target per result, in order, with the entry's query. |
| ExtractStep.FlattenAt | steps/extract_content_step.py:37-45 | Result j of entry i lands at position (results before i) + j of the flattened list. |
| ExtractStep.FlattenCount | steps/extract_content_step.py:37-45 | The flattened count is the sum of the result-list lengths. |
| ExtractStep.Truncate | steps/extract_content_step.py:58-68 | Content over 10,000 characters becomes its first 10,000 characters followed by "\n... (content truncated)": it starts with that prefix, ends with the marker, and is exactly 10,000 plus the marker's length long. Shorter content is unchanged. Other fields are kept. |
| ExtractStep.TruncateIdempotent | steps/extract_content_step.py:58-68 | Truncating twice is the same as truncating once. |
| ExtractStep.TruncateInvisibleToAnalysis | steps/extract_content_step.py:58-68 | The analysis prompt only reads 5000 characters per source, so truncation never changes a source's block. |
| ExtractStep.TruncateAll | steps/extract_content_step.py:59-68 | The truncated list has the same length and order as the input, item by item. |
| ExtractStep.AnalysisSeesNoCut | steps/extract_content_step.py:77-88 | Analysing the emitted (truncated) list gives the same text as analysing the stored full list. |
| ExtractStep.Handle | steps/extract_content_step.py:16-92 | The untruncated list is stored under this depth. The emitted contents are its truncation. requestId, originalQuery and depth pass through unchanged. Nothing else in the store changes. |
| AnalyzeContent.Material | steps/analyze_content_step.py:41-44 | The stored full content is used when present, and otherwise the event's contents. |
| AnalyzeContent.Analysis | steps/analyze_content_step.py:51-66 | Raises when the analysis text cannot be built. Otherwise the analysis is exactly the parsed model reply whenever that is an object whose four logged members have a length. A reply that fails to parse, or is not an object, raises. |
| AnalyzeContent.Handle | steps/analyze_content_step.py:20-118 | The analysis is always stored under its depth. With an analysis and an integer limit, exactly one event is emitted, and the step continues exactly when depth < maxDepth and followUpQueries is a non-empty list. Then currentDepth becomes depth+1, and the follow-up event carries depth+1, the analysis's followUpQueries and its summary. Otherwise analysis-completed is emitted with the summarised analysis, the same depth and isComplete true. A limit that is not an integer raises after the write. |
| FollowUpResearch.Handle | steps/follow_up_research_step.py:14-48 | The queries are stored under this depth and re-emitted unchanged, with the same depth, requestId and originalQuery. It raises only when they have no length. |
| CompileReport.Merged | steps/compile_report_step.py:49-53 | A depth contributes exactly when something truthy is stored for it. |
| CompileReport.Gather | steps/compile_report_step.py:46-54 | Analyses are gathered for depths 0..depth in ascending order, skipping empty ones. |
| CompileReport.MergedReads | steps/compile_report_step.py:51-53 | Each gathered entry is the stored analysis with 'depth' = i prepended, so a stored 'depth' field overrides it. |
| CompileReport.GatherKeepsAll | steps/compile_report_step.py:48-54 | Every stored analysis in range is gathered, and only those are. |
| CompileReport.Report | steps/compile_report_step.py:46-70 | The report is the parsed model reply when it is an object whose four logged members all have a length. A reply that fails to parse, or is not an object, raises. Success also requires the gathering to succeed. |
| CompileReport.Handle | steps/compile_report_step.py:17-85 | When isComplete is false, nothing is stored or emitted. Otherwise exactly one report-completed event is emitted when the report succeeds, the report is stored and the event carries it. Errors re-raise with the store untouched. |
| Pipeline.Run | steps/analyze_content_step.py:79-115 | Each handled event comes from the previous step's emission, starting with the given event, within the budget. |
| Pipeline.StepShrinks | steps/analyze_content_step.py:73-92 | No step increases the remaining follow-up budget, and every follow-up uses one unit of it. |
| Pipeline.RunBounded | steps/analyze_content_step.py:73-92 | Any run has at most Bound follow-ups and at most Cost steps, and enough budget always reaches the end. |
| Pipeline.ResearchIsBounded | steps/analyze_content_step.py:73-92 | From a research request, the pipeline does at most `depth` follow-up rounds (2 by default) and always terminates within 4·depth+6 steps. |
| PyRound.RoundHalfEven | steps/status_api_step.py:43 | Python's `round` of p/q is the nearest integer, with ties going to the even one. |
| PyRound.RoundUnique | steps/status_api_step.py:43 | The nearest-integer rule with ties to even determines the result: any integer meeting it is PyRound.RoundHalfEven. |
| PyRound.RoundMonotone | steps/status_api_step.py:43 | Rounding is monotone. |
| PyRound.RoundExact | steps/status_api_step.py:43 | Rounding leaves exact quotients unchanged. |
| PyRound.PercentInRange | steps/status_api_step.py:43 | For 0 ≤ current ≤ total, the rounded percentage lies in 0..100. |
| PyRound.HalvesGoToEven | steps/status_api_step.py:43 | 12.5 rounds to 12 and 37.5 to 38. |
| StatusApi.Percent | steps/status_api_step.py:43 | percentComplete is 0 when totalDepth is not positive. Otherwise it is the integer nearest to currentDepth/totalDepth·100, with ties going to the even one. It lies in 0..100 when currentDepth ≤ totalDepth, and is 100 at the end. |
| StatusApi.Handle | steps/status_api_step.py:12-67 | 404 when originalQuery or researchConfig is missing. status is 'completed' exactly when a final report exists, and reportAvailable agrees. currentDepth and totalDepth are reported. A non-numeric depth gives 500. The requestId is always echoed. |
| StatusApi.ProgressInRange | steps/status_api_step.py:38-44 | Whenever the stored currentDepth lies between 0 and an integer depth, the percentage stays in 0..100. |
| AppStatus.RoundedQuotient | app/api/status.py:28 | For any non-zero divisor, negative ones included, the result is the integer nearest to p/q, with ties going to the even one. For a positive divisor it is PyRound.RoundHalfEven. |
| AppStatus.Progress | app/api/status.py:23-29 | A non-object config raises. current_depth defaults to 0. A stored depth of 0 raises division by zero. An absent depth divides by 1 and reports totalDepth 0. A present non-zero integer depth gives currentDepth, the stored depth, and the rounded current_depth/depth·100. A non-integer operand raises. |
| AppStatus.ProgressOf | app/api/status.py:20-29 | A missing config, or one that parses to a falsy value such as {}, gives progress None. A config that does not parse raises. A truthy config gives its progress object. |
| AppStatus.Found | app/api/status.py:31-37 | status is 'completed' exactly when a final report is present, and report_available agrees. |
| AppStatus.Handle | app/api/status.py:8-41 | 404 exactly when the original query is missing, and never for a missing config. Otherwise it is the 200 status response carrying the config's progress, or, when reading the progress fails, 500 "Failed to get status: " plus the error. The 404 is not rewrapped. |
| AppStatus.ZeroDepthFails | app/api/status.py:28-41 | A stored depth of 0 gives 500 "Failed to get status: division by zero". |
| Database.Active | backend/src/services/database_service.py:77-87 | One filter per present, truthy year, field or type, so at most 3. Falsy values add nothing. |
| Database.Params | backend/src/services/database_service.py:79-87 | One parameter per active filter, in order. |
| Database.SearchQuery | backend/src/services/database_service.py:70-89 | The parameters start with '%query%' for $1, followed by one per active filter. The k-th clause names $k+1, so numbering matches for every combination. The SQL ends with " ORDER BY created_at DESC". |
| Database.AddMemberBuilt | backend/src/services/database_service.py:77-87 | Each filter step of the code appends exactly one clause and one parameter, numbered by the new count. |
| Database.ClausesAppend | backend/src/services/database_service.py:82-86 | The appended clause uses placeholder $(count+1). |
| Database.SearchSources | backend/src/services/database_service.py:65-109 | Rows are mapped one to one, in the database's order. |
| Database.FromRow | backend/src/services/database_service.py:95-105 | Null authors become []. All other columns are copied. |
| Database.SourceById | backend/src/services/database_service.py:110-131 | Gives None exactly when no row matches, and otherwise the mapped row. |
| Database.InsertValues | backend/src/services/database_service.py:48-60 | Seven values in column order, with authors defaulting to []. |
| Database.InsertSource | backend/src/services/database_service.py:44-60 | The id is what the database returns for the values title, authors (default []), abstract, url, year, field and type, in that order, each null when missing. |
| Database.InsertThenRead | backend/src/services/database_service.py:44-131 | Reading back an inserted source gives its fields, with empty authors read as []. |
| ResearchQuery.Entry | backend/steps/research_query_api_step.py:48-57 | A stored source's entry has authors defaulting to [] and abstract and url to ''. |
| ResearchQuery.Collected | backend/steps/research_query_api_step.py:39-72 | Stored sources come first, in database order. Generation is asked for only when fewer than 5 were found. Generated sources are kept whatever the insert does. The lookup succeeds exactly when it finds 5 or more sources or generation succeeds. |
| ResearchQuery.Handle | backend/steps/research_query_api_step.py:18-90 | An empty query gives 400 'Query is required' before any database access. A 200 holds the first 10 collected sources. Failures give 500. |
| ResearchQuery.StoredFirst | backend/steps/research_query_api_step.py:60-78 | At most 10 sources, with the stored ones first. With 5 or more stored, the generator plays no part. |
| ResearchQuery.FewSourcesFail | backend/steps/research_query_api_step.py:60-62 | With the shipped service, fewer than 5 stored sources give a 500. |
| SourceAction.Invalid | backend/steps/source_action_api_step.py:28-60 | The checks run in order, each a 400: missing sourceId, missing actionType, then an actionType outside the 7 allowed. |
| SourceAction.FallbackUnreachable | backend/steps/source_action_api_step.py:81-157 | The allowed actions are exactly those with a dedicated prompt, so the generic prompt is unreachable. |
| SourceAction.Perform | backend/steps/source_action_api_step.py:67-191 | A missing source gives 404 'Source not found'. A non-numeric id, a database error or a model error gives 500 with that error. For a found source it is 200 exactly when the model answers, echoing actionType, sourceId, the source's id and title, and the answer to the action's prompt. |
| SourceAction.Handle | backend/steps/source_action_api_step.py:18-191 | Validation comes before any database access, and the valid path is Perform. |
| SourceAction.MissingSourceRejected | backend/test_source_action_api.py:27-38 | The test's first request gets a 400. |
| SourceAction.MissingActionRejected | backend/test_source_action_api.py:40-51 | The test's second request gets a 400. |
| SourceAction.UnknownActionRejected | backend/test_source_action_api.py:53-65 | The test's third request gets a 400. |
| SourceAction.ScriptedAcceptance | backend/test_source_action_api.py:67-80 | The test's valid request never gets a 400. |
| SourceMode.RejectionListsModes | backend/steps/source_mode_api_step.py:33-40 | The invalid-mode message lists the three modes. |
| SourceMode.Handle | backend/steps/source_mode_api_step.py:16-68 | A missing sourceId gives 400. An unknown mode gives 400 listing the valid modes. A 200 echoes sourceId and mode and changes nothing. |
| SourceMode.ModeDefaultsToSummary | backend/steps/source_mode_api_step.py:23 | mode defaults to 'summary'. |
| SourceMode.AcknowledgedModes | backend/steps/source_mode_api_step.py:33-58 | A request is acknowledged exactly when its mode is summary, explanation or implementation. |
| ReportFeedback.FlagsText | backend/steps/report_feedback_api_step.py:42-48 | The focus joins the replicability and evidence phrases with "; ", or is "General review" when neither flag is set. |
| ReportFeedback.Excerpt | backend/steps/report_feedback_api_step.py:53 | Only the first 10,000 characters of the report are used. |
| ReportFeedback.Prompt | backend/steps/report_feedback_api_step.py:50-65 | The prompt holds the focus and the excerpt at fixed positions. |
| ReportFeedback.Review | backend/steps/report_feedback_api_step.py:38-104 | A model answer that parses to an object always gives a 200 carrying its 'feedback', or [] when absent. An answer that does not parse raises. A ValueError with "API key not set" gives 500 'API key not configured'. Other ValueErrors propagate. Other failures give 500. |
| ReportFeedback.Handle | backend/steps/report_feedback_api_step.py:17-104 | An empty reportContent gives 400. Flags default to {}. |
| ReportFeedback.ModelErrors | backend/steps/report_feedback_api_step.py:85-104 | The three error paths, for any report and flags. |
| ReportFeedback.StandInGivesNoFeedback | backend/src/services/openai_service.py:14-35 | The service's stand-in reply has no 'feedback', so a 200 returns []. |
| TestServer.Find | backend/test-server.js:19-22 | Only sources '1' and '2' exist. |
| TestServer.Health | backend/test-server.js:25-37 | /health lists exactly 4 APIs. |
| TestServer.Query | backend/test-server.js:40-54 | A missing query gives 400 {error:'Query is required'}. Otherwise every mock source is returned, with total equal to their count and filters defaulting to {}. |
| TestServer.Chat | backend/test-server.js:57-76 | A missing message gives 400. An unknown source gives 404 'Source not found'. Otherwise the reply quotes the message, with mode defaulting to 'default'. |
| TestServer.Mode | backend/test-server.js:79-98 | A missing mode gives 400, then an unknown source 404. A present mode with source 1 or 2 always gives 200 echoing the mode. |
| TestServer.Action | backend/test-server.js:101-121 | A missing actionType gives 400, then an unknown source 404. A present actionType with source 1 or 2 always gives 200, with context defaulting to null. |
| TestServer.ValidationBeforeLookup | backend/test-server.js:61-112 | A missing field gives the same 400 whatever the sourceId. |
| TestServer.ChatQuotesMessage | backend/test-server.js:71-75 | The chat reply embeds the message text. |
| FindingCard.TrustBadge | frontend/src/components/research/FindingCard.tsx:31-39 | High when the score is ≥ 80, Medium for 50..79, Low otherwise. Every score gets exactly one tier. |
| FindingCard.TrustMonotone | frontend/src/components/research/FindingCard.tsx:31-39 | A higher score never gets a lower tier. |
| FindingCard.FactCheckBadge | frontend/src/components/research/FindingCard.tsx:41-50 | verified, pending and disputed map to Verified, Pending and Disputed with high, medium and low classes. |
| FindingCard.SourceTypeLabel | frontend/src/components/research/FindingCard.tsx:52-62 | A total map over the 6 types. Undefined gives 'Unknown', and nothing else does. |
| FindingCard.LabelsDistinct | frontend/src/components/research/FindingCard.tsx:52-62 | Different types get different labels. |
| FindingsPanel.Toggle | frontend/src/components/research/FindingsPanel.tsx:36-70 | A toggle flips membership of exactly the given element. |
| FindingsPanel.ToggleTwice | frontend/src/components/research/FindingsPanel.tsx:36-70 | Toggling twice restores the set. |
| FindingsPanel.ToggleExclude | frontend/src/components/research/FindingsPanel.tsx:36-46 | Toggling exclusion changes only the excluded set. |
| FindingsPanel.ToggleFactCheck | frontend/src/components/research/FindingsPanel.tsx:48-58 | Toggling a fact-check status changes only that filter set. |
| FindingsPanel.ToggleSourceType | frontend/src/components/research/FindingsPanel.tsx:60-70 | Toggling a source type changes only that filter set. |
| FindingsPanel.Filter | frontend/src/components/research/FindingsPanel.tsx:72-90 | The output holds only input findings that pass all five conditions, and every passing finding is kept. |
| FindingsPanel.Insert | frontend/src/components/research/FindingsPanel.tsx:92-106 | Insertion keeps the list non-increasing by the key and adds exactly one finding. |
| FindingsPanel.Sort | frontend/src/components/research/FindingsPanel.tsx:92-106 | The output is a permutation of the input, non-increasing by relevance (undefined = 0), trustScore or date (missing = 0). |
| FindingsPanel.Shown | frontend/src/components/research/FindingsPanel.tsx:72-106 | The displayed list is a permutation of the filtered findings, sorted by the chosen key. The input is not reordered. |
| FindingsPanel.ShownExactly | frontend/src/components/research/FindingsPanel.tsx:72-90 | A finding is displayed exactly when it is in the input and passes the filter. |
| FindingsPanel.ExclusionNeedsHide | frontend/src/components/research/FindingsPanel.tsx:75 | Excluded findings are dropped only when hideExcluded is on. |
| FindingsPanel.FilterIgnoresExcluded | frontend/src/components/research/FindingsPanel.tsx:75 | With hideExcluded off, the excluded set has no effect on the filter. |
| FindingsPanel.ActiveFilterCount | frontend/src/components/research/FindingsPanel.tsx:111-119 | The count is the number of the five filters that differ from their default: a slider above 0, a status or type deselected, or excluded findings hidden. So it is at most 5. |
| FindingsPanel.FactChecksBounded | frontend/src/components/research/FindingsPanel.tsx:116 | A status set is smaller than 3 exactly when it is not the full set. |
| FindingsPanel.SourceTypesBounded | frontend/src/components/research/FindingsPanel.tsx:117 | A type set is smaller than 6 exactly when it is not the full set. |
| FindingsPanel.NoActiveFilters | frontend/src/components/research/FindingsPanel.tsx:111-119 | The count is 0 exactly when every filter has its default. |
| FindingsPanel.ClearFilters | frontend/src/components/research/FindingsPanel.tsx:121-127 | Clearing resets the five filters, so the count is 0, and leaves excludedIds and sortBy unchanged. |
| FindingsPanel.DefaultsShowAll | frontend/src/components/research/FindingsPanel.tsx:21-106 | Under the default filters every finding with non-negative scores is shown. |
| FindingsPanel.DefaultsKeepAll | frontend/src/components/research/FindingsPanel.tsx:21-90 | The default filters keep every such finding, in order. |
| SourceChat.Start | frontend/src/components/research/SourceChat.tsx:50-59 | The chat starts with exactly one assistant message, empty input and implementation details hidden. |
| SourceChat.SummaryPoints | frontend/src/components/research/SourceChat.tsx:31-37 | There are five summary points. |
| SourceChat.ButtonsAnswered | frontend/src/components/research/SourceChat.tsx:64-93 | A quick action gets a dedicated reply exactly when it is one of the 4 buttons, and the fixed fallback otherwise. |
| SourceChat.Send | frontend/src/components/research/SourceChat.tsx:95-112 | Whitespace-only input changes nothing. Otherwise the user's input and then an assistant reply are appended, and the input is cleared. |
| SourceChat.Quick | frontend/src/components/research/SourceChat.tsx:71-93 | A quick action appends the user's action and then the assistant's reply, and changes nothing else. |
| SourceChat.LogGrowsInPairs | frontend/src/components/research/SourceChat.tsx:71-112 | Any sequence of events only extends the log, two messages at a time. |
| SourceChat.SummaryUntilFirstExchange | frontend/src/components/research/SourceChat.tsx:184 | The summary shows exactly until the first exchange. |
| SourceChat.GreetingStaysFirst | frontend/src/components/research/SourceChat.tsx:51-58 | The greeting stays the first message forever. |
| SourceChat.TrustColour | frontend/src/components/research/SourceChat.tsx:130-134 | Green at ≥ 80, yellow for 60..79, red below. |
| SourceChat.TiersDisagreeInFifties | frontend/src/components/research/SourceChat.tsx:130-134 | The chat's colours disagree with the card's tiers exactly for scores 50..59. |
| SourceChat.FactColoursMatchBadge | frontend/src/components/research/SourceChat.tsx:142-146 | Fact-check colours agree with the card's badge classes. |
| ResearchTicker.Search | frontend/src/pages/Index.tsx:71-73 | Starting a search sets step 0 and researching on. |
| ResearchTicker.Tick | frontend/src/pages/Index.tsx:75-84 | A tick advances by one below the last step. At the last step it keeps step 4, stops researching and clears its timer. |
| ResearchTicker.Skip | frontend/src/pages/Index.tsx:171 | Skip sets min(prev+1, 4) and stays in range. |
| ResearchTicker.StepStaysInRange | frontend/src/pages/Index.tsx:52-171 | Any sequence of ticks and skips keeps the step within 0..4. |
| ResearchTicker.ReachableInRange | frontend/src/pages/Index.tsx:64-171 | Every reachable page has its step in 0..4. |
| ResearchTicker.PauseIgnored | frontend/src/pages/Index.tsx:75-170 | Pausing only sets the flag, and ticks keep advancing. |
| ResearchTicker.TicksAdvance | frontend/src/pages/Index.tsx:76-83 | k ticks below the end advance by k. |
| ResearchTicker.SearchCompletes | frontend/src/pages/Index.tsx:71-85 | Four ticks reach the last step, and the fifth ends the research. |
| ResearchTicker.SearchHidesComplete | frontend/src/pages/Index.tsx:175 | The "Research Complete" panel is hidden while researching, and shows after completion when there are findings. |

## Left out

- Network, LLM, scraper, database and the Motia state and emit runtime: all are parameters. The model does not say what a model reply or a scrape contains.
- Concurrency: `asyncio.gather`, `Promise.all` and `run_in_executor` are folds over one chunk at a time.
- Timing: `asyncio.sleep` is an entry in an activity log, and `setInterval` is an explicit tick event with a timer count.
- Logging: omitted, except where a `len()` inside a log call can raise (Motia.MeasureAll).
- FirecrawlTs.BatchExtract: requires the loop to terminate. A limit of 0 or below loops forever in JavaScript, and the model leaves that case out.
- FirecrawlTs.BatchExtract: the completion order inside a chunk is a parameter. Only the multiset and the chunk order are stated.
- Pipeline.Run: bounded by a step budget (`fuel`). Pipeline.RunBounded shows that a budget of `Cost` always suffices.
- PyRound.RoundHalfEven: exact rational rounding. Floating-point error in `current / total * 100` is not modelled.
- Text.Lower: ASCII-only, whereas Python and JavaScript lower-case all of Unicode.
- Text.Strip: whitespace is the set Python's `str.strip` and JavaScript's `trim` share. U+001C..U+001F and U+0085 are not whitespace here, though Python strips them. U+FEFF is not whitespace here, though JavaScript trims it.
- Text.ParseInt: only ASCII digits are accepted. Python's `int()` also accepts underscores between digits ("1_000") and non-ASCII decimal digits, so SourceAction.Perform rejects such ids where Python would not.
- Json: numbers are integers. A fractional request depth or breadth, a fractional trustScore or relevance, and a float stored depth are outside the model.
- StatusApi.Percent: the rounding is of the exact rational currentDepth·100/totalDepth, not of the float `currentDepth / totalDepth * 100`. They can differ: for currentDepth 23 and totalDepth 40, Python computes 57.49999999999999 and rounds to 57, while the model rounds the exact 57.5 to the even 58.
- AppStatus.Progress: the percentage is the exact rational current_depth·100/depth rounded, not the floating-point `(current_depth / depth) * 100`.
- FindingsPanel.Sort: publishedDate is an optional integer timestamp rather than a parsed date string.
- FindingsPanel.Sort: the stability of JavaScript's sort is not stated.
- Timestamps and message ids come from a clock parameter.
- Icons and CSS classes are enum values.
- React rendering, the widgets and the landing pages are not modelled.
- Authentication is not modelled.
- The canvas animations are not modelled.
- The Celery/Redis variant under app/tasks, app/api/research.py and app/api/report.py is not modelled. The Motia steps carry the same logic.
- The static /api/docs route of backend/test-server.js is not modelled.
- The thin LLM pass-through handlers (source chat, source validation, user log, report) and the other OpenAI service variants are not modelled.
- ILIKE matching and SQL precedence belong to PostgreSQL, and only the text and parameters built are modelled. The setup scripts (setup_db.py, check_db.py) are not modelled.
- Python exceptions are `Err` values or a `Raised` outcome carrying a message. Exception classes are distinguished only where a handler branches on them.
- In the model, steps/research_query_api_step.py and steps/source_action_api_step.py appear through their backend/ versions.
- SourceAction prompts always show "Content not available": database rows have no `content` member, and the model states that directly.

## Findings

| source | as written | input that shows it | evidently intended | confidence | as-written member | corrected member |
|---|---|---|---|---|---|---|
| backend/steps/research_query_api_step.py:60-62 | calls `openai.research_sources`, which backend/src/services/openai_service.py:4-35 does not define | any truthy query that matches fewer than 5 stored sources (for example an empty table) | generated sources top up the stored ones | not executed | ResearchQuery.FewSourcesFail | ResearchQuery.StoredFirst |
