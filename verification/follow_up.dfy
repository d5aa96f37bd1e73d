/** The follow-up-research-needed subscriber
    (steps/follow_up_research_step.py): record the follow-up queries for
    their depth and hand them to the search step as that depth's queries. */
module FollowUpResearch {
  import opened Wrappers
  import opened Json
  import opened Motia

  /** `len(follow_up_queries)` is logged before the `try`, so a value without
      a length raises; otherwise the queries go on unchanged and at the same
      depth, and the store gains exactly their record. */
  function Handle(st: Store, queries: Json, requestId: string, originalQuery: Json, depth: int): (r: Step)
    ensures r.outcome.Raised? <==> Len(queries).None?
    ensures !r.outcome.Quiet?
    ensures r.outcome.Raised? ==> r.store == st
    ensures r.outcome.Emitted? ==> r.outcome.event == QueriesGenerated(queries, requestId, originalQuery, depth)
    ensures r.outcome.Emitted? ==> depth in r.store.followUps && r.store.followUps[depth] == queries
    ensures r.outcome.Emitted? ==> r.store.(followUps := st.followUps) == st
  {
    if Len(queries).None? then Step(st, Raised("TypeError: object has no len()"))
    else Step(st.(followUps := st.followUps[depth := queries]),
              Emitted(QueriesGenerated(queries, requestId, originalQuery, depth)))
  }
}
