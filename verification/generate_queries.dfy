/** The research-started subscriber (steps/generate_queries_step.py): ask
    the model for search queries, record the topic and the research limits,
    and start the first round at depth 0. */
module GenerateQueries {
  import opened Wrappers
  import opened Json
  import opened Llm
  import opened Motia

  /** The three inputs with the step's own defaults (the same as the API's). */
  function Topic(query: Option<Json>): Json { query.GetOr(JStr("")) }
  function Breadth(breadth: Option<Json>): Json { breadth.GetOr(JNum(4)) }
  function Depth(depth: Option<Json>): Json { depth.GetOr(JNum(2)) }

  function Handle(w: World, st: Store, query: Option<Json>, breadth: Option<Json>, depth: Option<Json>, requestId: Option<string>): (r: Step)
    ensures var g := GenerateSearchQueries(w.generate(Topic(query), Breadth(breadth)), w.parse);
      r.outcome.Raised? <==> g.Err?
    ensures !r.outcome.Quiet?
    ensures r.outcome.Raised? ==> r.store == st
    ensures r.outcome.Emitted? ==> r.outcome.event.QueriesGenerated? && r.outcome.event.depth == 0
    ensures r.outcome.Emitted? ==> r.outcome.event.originalQuery == Topic(query) && r.outcome.event.requestId == requestId.GetOr("")
    ensures r.outcome.Emitted? ==> r.store.searchQueries == Some(r.outcome.event.queries)
    ensures r.outcome.Emitted? ==> r.store.originalQuery == Some(Topic(query))
    ensures r.outcome.Emitted? ==> r.store.config == Some(Config(Breadth(breadth), Depth(depth), 0))
    ensures r.outcome.Emitted? ==> MaxDepth(r.store) == Depth(depth)
    ensures r.outcome.Emitted? ==> r.store.analyses == st.analyses && r.store.extracted == st.extracted
    ensures r.outcome.Emitted? ==> r.store.searchResults == st.searchResults && r.store.followUps == st.followUps
    ensures r.outcome.Emitted? ==> r.store.finalReport == st.finalReport
  {
    var topic := Topic(query);
    match GenerateSearchQueries(w.generate(topic, Breadth(breadth)), w.parse)
    case Err(e) => Step(st, Raised(e))
    case Ok(qs) =>
      var st' := st.(searchQueries := Some(qs), originalQuery := Some(topic),
                     config := Some(Config(Breadth(breadth), Depth(depth), 0)));
      Step(st', Emitted(QueriesGenerated(qs, requestId.GetOr(""), topic, 0)))
  }
}
