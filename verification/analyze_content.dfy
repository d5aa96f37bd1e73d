/** The content-extracted subscriber (steps/analyze_content_step.py): have
    the model analyse the sources, keep the analysis for the depth, and
    either go one level deeper with the model's follow-up queries or
    declare the research complete. */
module AnalyzeContent {
  import opened Wrappers
  import opened Json
  import opened Firecrawl
  import opened Llm
  import opened Motia

  /** The members whose lengths the step logs, with their defaults. */
  const Logged := [("summary", JStr("")), ("keyFindings", JArr([])), ("sources", JArr([])), ("followUpQueries", JArr([]))]

  /** The full texts the store kept for this depth, unless there are none;
      then the cut texts the event carried. */
  function Material(st: Store, contents: seq<PyItem>, depth: int): (r: seq<PyItem>)
    ensures depth in st.extracted && |st.extracted[depth]| > 0 ==> r == st.extracted[depth]
    ensures !(depth in st.extracted && |st.extracted[depth]| > 0) ==> r == contents
  {
    if depth in st.extracted && |st.extracted[depth]| > 0 then st.extracted[depth] else contents
  }

  /** Everything up to the first store write: the analysis text, the model
      call, the decode, and the logged lengths (an analysis that is not an
      object has no `get`). */
  function Analysis(w: World, st: Store, contents: seq<PyItem>, originalQuery: Json, depth: int): (r: Result<seq<(string, Json)>>)
    ensures AnalysisText(Material(st, contents, depth), w.repr).Err? ==> r.Err?
    ensures r.Ok? ==> AnalysisText(Material(st, contents, depth), w.repr).Ok?
    ensures r.Ok? ==>
      ParsedReply(w.analyze(originalQuery, AnalysisText(Material(st, contents, depth), w.repr).value, depth, MaxDepth(st)), w.parse, NoAnalysis)
        == Ok(JObj(r.value))
    ensures r.Ok? ==> Len(Get(r.value, "followUpQueries").GetOr(JArr([]))).Some?
    ensures r.Ok? ==> Len(Get(r.value, "summary").GetOr(JStr(""))).Some?
    ensures AnalysisText(Material(st, contents, depth), w.repr).Ok? ==>
      var p := ParsedReply(w.analyze(originalQuery, AnalysisText(Material(st, contents, depth), w.repr).value, depth, MaxDepth(st)), w.parse, NoAnalysis);
      (p.Ok? && p.value.JObj? && MeasureAll(p.value.fields, Logged).Ok? ==> r == Ok(p.value.fields)) &&
      (p.Err? || !p.value.JObj? ==> r.Err?)
  {
    var text :- AnalysisText(Material(st, contents, depth), w.repr);
    var parsed :- ParsedReply(w.analyze(originalQuery, text, depth, MaxDepth(st)), w.parse, NoAnalysis);
    if !parsed.JObj? then Err("AttributeError: object has no attribute 'get'")
    else
      var _ :- MeasureAll(parsed.fields, Logged);
      assert Logged[0].0 == "summary" && Logged[3].0 == "followUpQueries";
      Ok(parsed.fields)
  }

  /** `need_more_research` once the comparison has succeeded. */
  predicate GoDeeper(limit: int, depth: int, followUps: Json) {
    depth < limit && followUps.JArr? && |followUps.items| > 0
  }

  function FollowUps(fields: seq<(string, Json)>): Json {
    Get(fields, "followUpQueries").GetOr(JArr([]))
  }

  /** The handler. The analysis is stored before the depth comparison, so a
      limit Python cannot compare with an int raises after the write. */
  function Handle(w: World, st: Store, contents: seq<PyItem>, requestId: string, originalQuery: Json, depth: int): (r: Step)
    ensures !r.outcome.Quiet?
    ensures Analysis(w, st, contents, originalQuery, depth).Err? ==> r.outcome.Raised? && r.store == st
    ensures Analysis(w, st, contents, originalQuery, depth).Ok? ==>
      r.store.analyses == st.analyses[depth := JObj(Analysis(w, st, contents, originalQuery, depth).value)]
    ensures AsInt(MaxDepth(st)).None? ==> r.outcome.Raised?
    ensures r.outcome.Emitted? && r.outcome.event.FollowUpNeeded? ==>
      AsInt(MaxDepth(st)).Some? && depth < AsInt(MaxDepth(st)).value &&
      r.outcome.event.depth == depth + 1
    ensures r.outcome.Emitted? && r.outcome.event.FollowUpNeeded? ==>
      r.outcome.event.queries.JArr? && |r.outcome.event.queries.items| > 0
    ensures r.outcome.Emitted? && r.outcome.event.FollowUpNeeded? && st.config.Some? ==>
      r.store.config == Some(st.config.value.(currentDepth := depth + 1))
    ensures r.outcome.Emitted? && !r.outcome.event.FollowUpNeeded? ==>
      r.outcome.event.AnalysisCompleted? &&
      r.outcome.event == AnalysisCompleted(r.outcome.event.analysis, requestId, originalQuery, depth, true)
    ensures r.outcome.Emitted? && r.outcome.event.FollowUpNeeded? ==>
      r.outcome.event.requestId == requestId && r.outcome.event.originalQuery == originalQuery
    ensures r.outcome.Emitted? ==> (r.outcome.event.FollowUpNeeded? <==>
      GoDeeper(AsInt(MaxDepth(st)).value, depth, FollowUps(Analysis(w, st, contents, originalQuery, depth).value)))
    ensures r.outcome.Emitted? ==> r.outcome.event.FollowUpNeeded? || r.outcome.event.AnalysisCompleted?
    ensures Analysis(w, st, contents, originalQuery, depth).Ok? && AsInt(MaxDepth(st)).Some? ==> r.outcome.Emitted?
    ensures r.outcome.Emitted? && r.outcome.event.FollowUpNeeded? ==>
      var fields := Analysis(w, st, contents, originalQuery, depth).value;
      r.outcome.event.queries == FollowUps(fields) && r.outcome.event.previous == Summarise(fields)
    ensures r.outcome.Emitted? && r.outcome.event.AnalysisCompleted? ==>
      r.outcome.event.analysis == Summarise(Analysis(w, st, contents, originalQuery, depth).value)
    ensures MaxDepth(r.store) == MaxDepth(st) && r.store.config.Some? == st.config.Some?
    ensures r.store.extracted == st.extracted && r.store.searchResults == st.searchResults
    ensures r.store.followUps == st.followUps && r.store.finalReport == st.finalReport
    ensures r.store.originalQuery == st.originalQuery && r.store.searchQueries == st.searchQueries
  {
    match Analysis(w, st, contents, originalQuery, depth)
    case Err(e) => Step(st, Raised(e))
    case Ok(fields) =>
      var stored := st.(analyses := st.analyses[depth := JObj(fields)]);
      match AsInt(MaxDepth(st))
      case None => Step(stored, Raised("TypeError: '<' not supported between instances"))
      case Some(limit) =>
        var fu := FollowUps(fields);
        if GoDeeper(limit, depth, fu) then
          var deeper := if st.config.Some? then stored.(config := Some(st.config.value.(currentDepth := depth + 1))) else stored;
          Step(deeper, Emitted(FollowUpNeeded(fu, requestId, originalQuery, depth + 1, Summarise(fields))))
        else
          Step(stored, Emitted(AnalysisCompleted(Summarise(fields), requestId, originalQuery, depth, true)))
  }
  /** What the flow's termination rests on: the depth limit is kept, and
      the step either goes exactly one level deeper, using up one of the
      rounds left, or completes. */
  lemma DepthStep(w: World, st: Store, contents: seq<PyItem>, requestId: string, originalQuery: Json, depth: int)
    ensures var r := Handle(w, st, contents, requestId, originalQuery, depth);
      MaxDepth(r.store) == MaxDepth(st) &&
      (r.outcome.Emitted? && r.outcome.event.FollowUpNeeded? ==>
        r.outcome.event.depth == depth + 1 && Rounds(MaxDepth(st), depth + 1) + 1 == Rounds(MaxDepth(st), depth)) &&
      (r.outcome.Emitted? && !r.outcome.event.FollowUpNeeded? ==> r.outcome.event.AnalysisCompleted?)
  {
  }
}
