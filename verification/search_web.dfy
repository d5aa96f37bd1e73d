/** The search-queries-generated subscriber (steps/search_web_step.py): run
    the queries one after another, skip the ones whose search fails, record
    what was found for the depth and pass it on. */
module SearchWeb {
  import opened Wrappers
  import opened Batching
  import opened Json
  import opened Firecrawl
  import opened Motia

  /** One query of the loop: its entry, or None when the search raised. */
  function Found(search: Json -> SearchReply, q: Json): (r: Option<SearchEntry>)
    ensures r.Some? <==> Firecrawl.Search(search(q)).Ok?
    ensures r.Some? ==> r.value.query == q && r.value.results == Firecrawl.Search(search(q)).value
  {
    match Firecrawl.Search(search(q))
    case Ok(rs) => Some(SearchEntry(q, rs))
    case Err(_) => None
  }

  function Searcher(search: Json -> SearchReply): Json -> Option<SearchEntry> {
    q => Found(search, q)
  }

  /** The loop over the queries. */
  function SearchAll(search: Json -> SearchReply, qs: seq<Json>): (r: seq<SearchEntry>)
    ensures |r| <= |qs|
  {
    FilterMap(Searcher(search), qs)
  }

  /** The entries are exactly the successful searches: each one belongs to
      a query of the list and carries that query's results, every query
      whose search succeeded has its entry, and a failure anywhere does not
      cost the queries after it their entries. */
  lemma SearchSkipsFailures(search: Json -> SearchReply, qs: seq<Json>, more: seq<Json>)
    ensures forall e :: e in SearchAll(search, qs) ==>
      e.query in qs && Firecrawl.Search(search(e.query)) == Ok(e.results)
    ensures forall q :: q in qs && Firecrawl.Search(search(q)).Ok? ==>
      SearchEntry(q, Firecrawl.Search(search(q)).value) in SearchAll(search, qs)
    ensures SearchAll(search, qs + more) == SearchAll(search, qs) + SearchAll(search, more)
  {
    var f := Searcher(search);
    FilterMapMembers(f, qs);
    FilterMapConcat(f, qs, more);
    forall e | e in SearchAll(search, qs)
      ensures e.query in qs && Firecrawl.Search(search(e.query)) == Ok(e.results)
    {
      var i :| 0 <= i < |qs| && f(qs[i]) == Some(e);
    }
    forall q | q in qs && Firecrawl.Search(search(q)).Ok?
      ensures SearchEntry(q, Firecrawl.Search(search(q)).value) in SearchAll(search, qs)
    {
      var i :| 0 <= i < |qs| && qs[i] == q;
      assert f(qs[i]).Some?;
    }
  }

  /** The handler. `len(search_queries)` is logged before anything else, so
      a value without a length raises; the service is built outside the
      loop's `try`, so a missing key raises too. */
  function Handle(w: World, st: Store, queries: Json, requestId: string, originalQuery: Json, depth: int): (r: Step)
    ensures r.outcome.Raised? <==> Len(queries).None? || ApiKey(None, w.firecrawlKey).Err?
    ensures !r.outcome.Quiet?
    ensures r.outcome.Raised? ==> r.store == st
    ensures r.outcome.Emitted? ==> r.outcome.event.ResultsCollected?
    ensures r.outcome.Emitted? ==> r.outcome.event.depth == depth && r.outcome.event.requestId == requestId
    ensures r.outcome.Emitted? ==> r.outcome.event.originalQuery == originalQuery
    ensures r.outcome.Emitted? ==> r.outcome.event.results == SearchAll(w.search, Iterate(queries).value)
    ensures r.outcome.Emitted? ==> r.store == st.(searchResults := st.searchResults[depth := r.outcome.event.results])
    ensures queries.JArr? && r.outcome.Emitted? ==> |r.outcome.event.results| <= |queries.items|
  {
    if Len(queries).None? then Step(st, Raised("TypeError: object has no len()"))
    else match ApiKey(None, w.firecrawlKey)
      case Err(e) => Step(st, Raised(e))
      case Ok(_) =>
        var entries := SearchAll(w.search, Iterate(queries).value);
        Step(st.(searchResults := st.searchResults[depth := entries]),
             Emitted(ResultsCollected(entries, requestId, originalQuery, depth)))
  }
}
