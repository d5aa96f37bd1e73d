/** The POST /research step (steps/research_api_step.py): read the request
    body, announce the research, and answer at once with the trace id. */
module ResearchApi {
  import opened Wrappers
  import opened Json
  import opened Motia
  import opened Http

  const DefaultBreadth := JNum(4)
  const DefaultDepth := JNum(2)

  /** `body.get(k, default)` on a body known to be an object. */
  function Member(fields: seq<(string, Json)>, k: string, default: Json): Json {
    Get(fields, k).GetOr(default)
  }

  /** The response and the research-started event. `body` is None when the
      request has no body, which reads as `{}`; a body that is not an object
      has no `get` and the handler raises. */
  function Handle(body: Option<Json>, traceId: string): (r: Result<(Response, Event)>)
    ensures r.Ok? <==> body.None? || body.value.JObj?
    ensures r.Ok? ==> r.value.0.status == 200
    ensures r.Ok? ==> r.value.0.body == JObj([("message", JStr("Research process started")), ("requestId", JStr(traceId))])
    ensures r.Ok? ==> r.value.1.ResearchStarted? && r.value.1.traceId == Some(traceId)
    ensures r.Ok? ==> r.value.1.topic.Some? && r.value.1.breadth.Some? && r.value.1.maxDepth.Some?
    ensures body.None? ==> r.value.1.topic == Some(JStr("")) && r.value.1.maxDepth == Some(DefaultDepth)
    ensures body.None? ==> r.value.1.breadth == Some(DefaultBreadth)
    ensures r.Ok? && body.Some? ==> (HasKey(body.value.fields, "depth") ==> r.value.1.maxDepth == Get(body.value.fields, "depth"))
    ensures r.Ok? && body.Some? ==> (!HasKey(body.value.fields, "depth") ==> r.value.1.maxDepth == Some(DefaultDepth))
    ensures r.Ok? && body.Some? ==> (HasKey(body.value.fields, "breadth") ==> r.value.1.breadth == Get(body.value.fields, "breadth"))
    ensures r.Ok? && body.Some? ==> (!HasKey(body.value.fields, "breadth") ==> r.value.1.breadth == Some(DefaultBreadth))
    ensures r.Ok? && body.Some? ==> (HasKey(body.value.fields, "query") ==> r.value.1.topic == Get(body.value.fields, "query"))
    ensures r.Ok? && body.Some? ==> (!HasKey(body.value.fields, "query") ==> r.value.1.topic == Some(JStr("")))
  {
    var fields :- match body {
      case None => Ok([])
      case Some(JObj(fs)) => Ok(fs)
      case Some(_) => Err("AttributeError: object has no attribute 'get'")
    };
    var ev := ResearchStarted(Some(Member(fields, "query", JStr(""))),
                              Some(Member(fields, "breadth", DefaultBreadth)),
                              Some(Member(fields, "depth", DefaultDepth)),
                              Some(traceId));
    Ok((Response(200, JObj([("message", JStr("Research process started")), ("requestId", JStr(traceId))])), ev))
  }
}
