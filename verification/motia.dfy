/** The state and events of the Motia research flow (the step files under steps). The
    runtime's key-value store for one trace is a record with one slot per
    key the steps use; the per-depth keys `searchResults-depth-{d}`,
    `extractedContent-depth-{d}`, `analysis-depth-{d}` and
    `followUpQueries-depth-{d}` become maps from the depth. */
module Motia {
  import opened Wrappers
  import opened Json
  import opened Firecrawl
  import opened Llm

  /** `researchConfig` as the query generator writes it; breadth and depth
      are whatever the request carried. */
  datatype Config = Config(breadth: Json, depth: Json, currentDepth: int)

  /** One successful search: `{'query': q, 'results': [...]}`. */
  datatype SearchEntry = SearchEntry(query: Json, results: seq<SearchResult<Option<string>>>)

  /** The three members of an analysis passed along with an event. */
  datatype Summary = Summary(summary: Json, keyFindings: Json, sources: Json)

  datatype Store = Store(
    searchQueries: Option<Json>,
    originalQuery: Option<Json>,
    config: Option<Config>,
    searchResults: map<int, seq<SearchEntry>>,
    extracted: map<int, seq<PyItem>>,
    analyses: map<int, Json>,
    followUps: map<int, Json>,
    finalReport: Option<Json>)

  const Fresh := Store(None, None, None, map[], map[], map[], map[], None)

  /** The topics of the flow with their payloads. A research-started
      payload comes from a request body, so its members may be absent. */
  datatype Event =
    | ResearchStarted(topic: Option<Json>, breadth: Option<Json>, maxDepth: Option<Json>, traceId: Option<string>)
    | QueriesGenerated(queries: Json, requestId: string, originalQuery: Json, depth: int)
    | ResultsCollected(results: seq<SearchEntry>, requestId: string, originalQuery: Json, depth: int)
    | ContentExtracted(contents: seq<PyItem>, requestId: string, originalQuery: Json, depth: int)
    | FollowUpNeeded(queries: Json, requestId: string, originalQuery: Json, depth: int, previous: Summary)
    | AnalysisCompleted(analysis: Summary, requestId: string, originalQuery: Json, depth: int, isComplete: bool)
    | ReportCompleted(report: Json, requestId: string, originalQuery: Json)

  /** Everything a handler learns from outside: environment variables, and
      the scraper, search engine, language model and JSON decoder as
      functions of what is sent to them. */
  datatype World = World(
    firecrawlKey: Option<string>,
    concurrency: Option<string>,
    generate: (Json, Json) -> Reply,
    search: Json -> SearchReply,
    scrape: PyScraper,
    analyze: (Json, string, int, Json) -> Reply,
    report: (Json, seq<Json>) -> Reply,
    parse: Parser,
    repr: Repr)

  /** How a handler ended: with one emitted event, with none, or by raising. */
  datatype Outcome = Emitted(event: Event) | Quiet | Raised(error: string)

  datatype Step = Step(store: Store, outcome: Outcome)

  /** The depth limit the analysis step reads:
      `research_config.get('depth', 0) if research_config else 0`. */
  function MaxDepth(st: Store): (r: Json)
    ensures st.config.None? ==> r == JNum(0)
  {
    if st.config.Some? then st.config.value.depth else JNum(0)
  }

  /** How many more follow-up rounds the limit `m` allows from depth `d`;
      a limit Python cannot compare with an integer allows none, since the
      comparison raises. */
  function Rounds(m: Json, d: int): (r: nat)
    ensures AsInt(m).Some? && d < AsInt(m).value ==> r == AsInt(m).value - d
    ensures AsInt(m).None? || d >= AsInt(m).value ==> r == 0
  {
    match AsInt(m)
    case Some(n) => if d < n then n - d else 0
    case None => 0
  }

  /** `{'summary': a.get('summary', ''), 'keyFindings': ..., 'sources': ...}`
      for an analysis known to be an object. */
  function Summarise(fields: seq<(string, Json)>): Summary {
    Summary(Get(fields, "summary").GetOr(JStr("")),
            Get(fields, "keyFindings").GetOr(JArr([])),
            Get(fields, "sources").GetOr(JArr([])))
  }

  /** `len(v)` inside a logging call: a value without a length raises. */
  function Measured(v: Json): (r: Result<nat>)
    ensures r.Ok? <==> Len(v).Some?
  {
    match Len(v)
    case Some(n) => Ok(n)
    case None => Err("TypeError: object has no len()")
  }

  /** The `len(parsed.get(k, default))` calls a handler logs, in order; the
      first one that raises ends the handler. */
  function MeasureAll(fields: seq<(string, Json)>, keys: seq<(string, Json)>): (r: Result<()>)
    ensures r.Ok? <==> forall i :: 0 <= i < |keys| ==> Len(Get(fields, keys[i].0).GetOr(keys[i].1)).Some?
  {
    if |keys| == 0 then Ok(())
    else match Measured(Get(fields, keys[0].0).GetOr(keys[0].1))
      case Err(e) => Err(e)
      case Ok(_) =>
        assert forall i :: 1 <= i < |keys| ==> keys[i] == keys[1..][i - 1];
        MeasureAll(fields, keys[1..])
  }
}
