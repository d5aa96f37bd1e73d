/** The backend's research query endpoint
    (backend/steps/research_query_api_step.py): look the query up among the
    stored sources first, top up with generated sources when fewer than five
    were found, and answer with at most ten, stored ones first. */
module ResearchQuery {
  import opened Wrappers
  import opened Text
  import opened Json
  import opened Http
  import opened Database

  const Enough := 5
  const MaxSources := 10

  /** `v or default`. */
  function Or(v: Json, default: Json): Json {
    if Truthy(v) then v else default
  }

  /** The response entry for a stored source: authors default to `[]`,
      abstract and url to "". */
  function Entry(s: Source): (r: Json)
    ensures r.JObj? && |r.fields| == 7
    ensures Get(r.fields, "authors") == Some(Or(s.authors, JArr([])))
    ensures Get(r.fields, "abstract") == Some(Or(s.abstractText, JStr("")))
    ensures Get(r.fields, "url") == Some(Or(s.url, JStr("")))
    ensures Get(r.fields, "title") == Some(s.title)
  {
    var fields := [("title", s.title), ("authors", Or(s.authors, JArr([]))),
                   ("abstract", Or(s.abstractText, JStr(""))), ("url", Or(s.url, JStr(""))),
                   ("year", s.year), ("field", s.field), ("type", s.kind)];
    assert DistinctKeys(fields);
    GetDistinct(fields, 0);
    GetDistinct(fields, 1);
    GetDistinct(fields, 2);
    GetDistinct(fields, 3);
    JObj(fields)
  }

  function Entries(found: seq<Source>): (r: seq<Json>)
    ensures |r| == |found| && forall i :: 0 <= i < |found| ==> r[i] == Entry(found[i])
  {
    seq(|found|, i requires 0 <= i < |found| => Entry(found[i]))
  }

  /** Everything inside the `try`: the stored sources as entries, followed
      by the generated ones when there are fewer than five. A generated
      source is kept whether or not storing it succeeds, so the insert
      outcome plays no part. */
  function Collected(conn: Connection, query: Json, filters: Json,
                     generate: (Json, Json) -> Result<seq<Json>>, repr: Json -> string): (r: Result<seq<Json>>)
    ensures conn.createTable.Some? ==> r == Err(conn.createTable.value)
    ensures conn.createTable.None? && SearchSources(conn, query, filters, repr).Err? ==> r.Err?
    ensures r.Ok? ==> SearchSources(conn, query, filters, repr).Ok?
    ensures r.Ok? ==> var found := SearchSources(conn, query, filters, repr).value;
      |found| <= |r.value| && r.value[..|found|] == Entries(found)
    ensures r.Ok? ==> var found := SearchSources(conn, query, filters, repr).value;
      if |found| < Enough then generate(query, filters).Ok? && r.value == Entries(found) + generate(query, filters).value
      else r.value == Entries(found)
    ensures conn.createTable.None? && SearchSources(conn, query, filters, repr).Ok? ==>
      var found := SearchSources(conn, query, filters, repr).value;
      (|found| >= Enough || generate(query, filters).Ok? <==> r.Ok?)
  {
    if conn.createTable.Some? then Err(conn.createTable.value)
    else
      var found :- SearchSources(conn, query, filters, repr);
      var stored := Entries(found);
      if |found| < Enough then
        var generated :- generate(query, filters);
        assert (stored + generated)[..|found|] == stored;
        Ok(stored + generated)
      else
        assert stored[..|found|] == stored;
        Ok(stored)
  }

  /** The handler, with the source generator as `generate`. A body or a
      member that is not a mapping raises before the `try` (`Err`). */
  function Handle(body: Option<Json>, conn: Connection, generate: (Json, Json) -> Result<seq<Json>>,
                  repr: Json -> string): (r: Result<Response>)
    ensures BodyOf(body).JObj? <==> r.Ok?
    ensures r.Ok? ==> r.value.status in {200, 400, 500}
    ensures r.Ok? ==> var query := Get(BodyOf(body).fields, "query").GetOr(JStr(""));
      (r.value.status == 400 <==> !Truthy(query)) &&
      (!Truthy(query) ==> r.value == Message(400, "message", "Query is required"))
    ensures r.Ok? && r.value.status == 200 ==>
      var query := Get(BodyOf(body).fields, "query").GetOr(JStr(""));
      var filters := Get(BodyOf(body).fields, "filters").GetOr(JObj([]));
      Collected(conn, query, filters, generate, repr).Ok? &&
      r.value == Response(200, JObj([("message", JStr("Sources retrieved successfully")),
                                     ("sources", JArr(Take(Collected(conn, query, filters, generate, repr).value, MaxSources)))]))
    ensures r.Ok? && r.value.status == 500 ==>
      var query := Get(BodyOf(body).fields, "query").GetOr(JStr(""));
      var filters := Get(BodyOf(body).fields, "filters").GetOr(JObj([]));
      Collected(conn, query, filters, generate, repr).Err? &&
      r.value == Failure(500, "Failed to query sources", Collected(conn, query, filters, generate, repr).error)
  {
    var b := BodyOf(body);
    var query :- GetOr(b, "query", JStr(""));
    var filters := Get(b.fields, "filters").GetOr(JObj([]));
    if !Truthy(query) then Ok(Message(400, "message", "Query is required"))
    else match Collected(conn, query, filters, generate, repr)
      case Ok(all) =>
        Ok(Response(200, JObj([("message", JStr("Sources retrieved successfully")), ("sources", JArr(Take(all, MaxSources)))])))
      case Err(e) => Ok(Failure(500, "Failed to query sources", e))
  }

  /** The returned list: at most ten sources, the stored ones first and in
      the database's order; the generator is asked only when fewer than five
      were stored, so with five or more stored it plays no part. */
  lemma StoredFirst(body: Option<Json>, conn: Connection, generate: (Json, Json) -> Result<seq<Json>>,
                    other: (Json, Json) -> Result<seq<Json>>, repr: Json -> string)
    requires Handle(body, conn, generate, repr).Ok? && Handle(body, conn, generate, repr).value.status == 200
    ensures var query := Get(BodyOf(body).fields, "query").GetOr(JStr(""));
      var filters := Get(BodyOf(body).fields, "filters").GetOr(JObj([]));
      var found := SearchSources(conn, query, filters, repr).value;
      var sent := Take(Collected(conn, query, filters, generate, repr).value, MaxSources);
      |sent| <= MaxSources &&
      (forall i :: 0 <= i < |sent| && i < |found| ==> sent[i] == Entry(found[i])) &&
      (|found| >= Enough ==> Handle(body, conn, other, repr) == Handle(body, conn, generate, repr))
  {
    var query := Get(BodyOf(body).fields, "query").GetOr(JStr(""));
    var filters := Get(BodyOf(body).fields, "filters").GetOr(JObj([]));
    var all := Collected(conn, query, filters, generate, repr).value;
    var found := SearchSources(conn, query, filters, repr).value;
    assert forall i :: 0 <= i < |found| ==> all[..|found|][i] == all[i];
  }

  /** The generator as the backend ships it: its OpenAI service has no
      `research_sources`, so asking for sources raises `AttributeError`. */
  function MissingGenerator(query: Json, filters: Json): Result<seq<Json>> {
    Err("'OpenAIService' object has no attribute 'research_sources'")
  }

  /** As written, any query that finds fewer than five stored sources (an
      empty table, say) is answered with a 500 instead of generated
      sources. */
  lemma FewSourcesFail(body: Option<Json>, conn: Connection, repr: Json -> string)
    requires body.Some? && body.value.JObj?
    requires Truthy(Get(body.value.fields, "query").GetOr(JStr("")))
    requires conn.createTable.None?
    requires var filters := Get(body.value.fields, "filters").GetOr(JObj([]));
      var found := SearchSources(conn, Get(body.value.fields, "query").GetOr(JStr("")), filters, repr);
      found.Ok? && |found.value| < Enough
    ensures var r := Handle(body, conn, MissingGenerator, repr);
      r.Ok? && r.value.status == 500 && Get(r.value.body.fields, "message") == Some(JStr("Failed to query sources"))
  {
  }
}
