/** The Express stand-in for the source APIs (backend/test-server.js): each
    route is a function of the path's `sourceId`, the parsed JSON body and
    the clock reading, to a status and a JSON body. The mock source list is
    a constant, so no route can change it. */
module TestServer {
  import opened Wrappers
  import opened Text
  import opened Json
  import opened Http

  datatype MockSource = MockSource(id: string, title: string, content: string)

  const MockSources := [
    MockSource("1", "Machine Learning in Healthcare", "Research on ML applications..."),
    MockSource("2", "AI Ethics", "Ethical considerations in AI...")
  ]

  const Apis := [
    "POST /api/research/query",
    "POST /api/source/:sourceId/chat",
    "POST /api/source/:sourceId/mode",
    "POST /api/source/:sourceId/action"
  ]

  function SourceJson(s: MockSource): Json {
    JObj([("id", JStr(s.id)), ("title", JStr(s.title)), ("content", JStr(s.content))])
  }

  /** A member of the destructured body; `None` is `undefined` (also for a
      body that is a JSON array). */
  function Field(body: Json, k: string): Option<Json> {
    if body.JObj? then Get(body.fields, k) else None
  }

  /** `!!v` for a possibly undefined value. */
  predicate Present(v: Option<Json>) {
    v.Some? && JsTruthy(v.value)
  }

  /** `mockSources.find(s => s.id === sourceId)`. */
  function Find(sourceId: string): (r: Option<MockSource>)
    ensures r.Some? <==> sourceId in {"1", "2"}
    ensures r.Some? ==> r.value in MockSources && r.value.id == sourceId
  {
    if sourceId == MockSources[0].id then Some(MockSources[0])
    else if sourceId == MockSources[1].id then Some(MockSources[1])
    else None
  }

  /** JavaScript's `String(v)` as a template literal applies it: numbers in
      decimal, arrays joined with commas (holes and nulls empty), objects as
      `[object Object]`. */
  function JsString(v: Json): string
    decreases v
  {
    match v
    case JNull => "null"
    case JBool(b) => if b then "true" else "false"
    case JNum(n) => IntToString(n)
    case JStr(s) => s
    case JArr(items) => Join(",", seq(|items|, i requires 0 <= i < |items| =>
                                        if items[i].JNull? then "" else JsString(items[i])))
    case JObj(_) => "[object Object]"
  }

  function Error(status: int, message: string): (r: Response)
    ensures r.status == status && r.body.JObj? && Get(r.body.fields, "error") == Some(JStr(message))
  {
    Message(status, "error", message)
  }

  /** `GET /health`: the four source APIs and the time. */
  function Health(now: string): (r: Response)
    ensures r.status == 200 && r.body.JObj?
    ensures Get(r.body.fields, "apis") == Some(JArr([JStr(Apis[0]), JStr(Apis[1]), JStr(Apis[2]), JStr(Apis[3])]))
  {
    var apis := JArr([JStr(Apis[0]), JStr(Apis[1]), JStr(Apis[2]), JStr(Apis[3])]);
    var fields := [("status", JStr("healthy")), ("timestamp", JStr(now)), ("version", JStr("1.0.0")), ("apis", apis)];
    assert Get(fields, "apis") == Some(apis);
    Response(200, JObj(fields))
  }

  /** `POST /api/research/query`: every mock source, whatever the query. */
  function Query(body: Json): (r: Response)
    ensures r.status in {200, 400}
    ensures r.status == 400 <==> !Present(Field(body, "query"))
    ensures r.status == 400 ==> r == Error(400, "Query is required")
    ensures r.status == 200 ==> (r.body.JObj?
      && Get(r.body.fields, "sources") == Some(JArr([SourceJson(MockSources[0]), SourceJson(MockSources[1])]))
      && Get(r.body.fields, "total") == Some(JNum(|MockSources|))
      && Get(r.body.fields, "query") == Field(body, "query")
      && Get(r.body.fields, "filters") == Some(if Present(Field(body, "filters")) then Field(body, "filters").value else JObj([])))
  {
    var query := Field(body, "query");
    var filters := Field(body, "filters");
    if !Present(query) then Error(400, "Query is required")
    else
      var fields := [("sources", JArr([SourceJson(MockSources[0]), SourceJson(MockSources[1])])),
                     ("total", JNum(|MockSources|)), ("query", query.value),
                     ("filters", if Present(filters) then filters.value else JObj([]))];
      assert DistinctKeys(fields);
      GetDistinct(fields, 0);
      GetDistinct(fields, 1);
      GetDistinct(fields, 2);
      GetDistinct(fields, 3);
      Response(200, JObj(fields))
  }

  /** The chat reply: the message quoted, in the requested mode or
      `default`. */
  function ChatReply(message: Json, mode: Option<Json>): string {
    "AI response to: \"" + JsString(message) + "\" in "
      + (if Present(mode) then JsString(mode.value) else "default") + " mode"
  }

  function ChatBody(sourceId: string, message: Json, mode: Option<Json>, now: string): (r: Json)
    ensures r.JObj? && Get(r.fields, "sourceId") == Some(JStr(sourceId))
    ensures Get(r.fields, "response") == Some(JStr(ChatReply(message, mode)))
  {
    var fields := [("sourceId", JStr(sourceId)), ("response", JStr(ChatReply(message, mode))),
                   ("timestamp", JStr(now))];
    assert DistinctKeys(fields);
    GetDistinct(fields, 0);
    GetDistinct(fields, 1);
    JObj(fields)
  }

  /** `POST /api/source/:sourceId/chat`: the message is checked first, then
      the source is looked up. */
  function Chat(sourceId: string, body: Json, now: string): (r: Response)
    ensures r.status in {200, 400, 404}
    ensures !Present(Field(body, "message")) ==> r == Error(400, "Message is required")
    ensures Present(Field(body, "message")) ==> (r.status == 404 <==> sourceId !in {"1", "2"})
    ensures r.status == 404 ==> r == Error(404, "Source not found")
    ensures r.status == 200 ==> (Present(Field(body, "message"))
      && r.body == ChatBody(sourceId, Field(body, "message").value, Field(body, "mode"), now))
  {
    var message := Field(body, "message");
    if !Present(message) then Error(400, "Message is required")
    else if Find(sourceId).None? then Error(404, "Source not found")
    else Response(200, ChatBody(sourceId, message.value, Field(body, "mode"), now))
  }

  function ModeBody(sourceId: string, mode: Json, now: string): (r: Json)
    ensures r.JObj? && Get(r.fields, "mode") == Some(mode)
    ensures Get(r.fields, "message") == Some(JStr("Mode changed to " + JsString(mode)))
  {
    var fields := [("sourceId", JStr(sourceId)), ("mode", mode),
                   ("message", JStr("Mode changed to " + JsString(mode))), ("timestamp", JStr(now))];
    assert DistinctKeys(fields);
    GetDistinct(fields, 1);
    GetDistinct(fields, 2);
    JObj(fields)
  }

  /** `POST /api/source/:sourceId/mode`: any truthy mode is accepted. */
  function Mode(sourceId: string, body: Json, now: string): (r: Response)
    ensures r.status in {200, 400, 404}
    ensures !Present(Field(body, "mode")) ==> r == Error(400, "Mode is required")
    ensures Present(Field(body, "mode")) ==> (r.status == 404 <==> sourceId !in {"1", "2"})
    ensures Present(Field(body, "mode")) && sourceId in {"1", "2"} ==> r.status == 200
    ensures r.status == 404 ==> r == Error(404, "Source not found")
    ensures r.status == 200 ==> (Present(Field(body, "mode"))
      && r.body == ModeBody(sourceId, Field(body, "mode").value, now))
  {
    var mode := Field(body, "mode");
    if !Present(mode) then Error(400, "Mode is required")
    else if Find(sourceId).None? then Error(404, "Source not found")
    else Response(200, ModeBody(sourceId, mode.value, now))
  }

  function ActionBody(sourceId: string, action: Json, context: Option<Json>, now: string): (r: Json)
    ensures r.JObj? && Get(r.fields, "action") == Some(action)
    ensures Get(r.fields, "result") == Some(JStr("Action \"" + JsString(action) + "\" performed on source"))
    ensures Get(r.fields, "context") == Some(if Present(context) then context.value else JNull)
  {
    var fields := [("sourceId", JStr(sourceId)), ("action", action),
                   ("result", JStr("Action \"" + JsString(action) + "\" performed on source")),
                   ("context", if Present(context) then context.value else JNull), ("timestamp", JStr(now))];
    assert DistinctKeys(fields);
    GetDistinct(fields, 1);
    GetDistinct(fields, 2);
    GetDistinct(fields, 3);
    JObj(fields)
  }

  /** `POST /api/source/:sourceId/action`: the context is echoed, `null`
      when it is missing or falsy. */
  function Action(sourceId: string, body: Json, now: string): (r: Response)
    ensures r.status in {200, 400, 404}
    ensures !Present(Field(body, "actionType")) ==> r == Error(400, "Action type is required")
    ensures Present(Field(body, "actionType")) ==> (r.status == 404 <==> sourceId !in {"1", "2"})
    ensures Present(Field(body, "actionType")) && sourceId in {"1", "2"} ==> r.status == 200
    ensures r.status == 404 ==> r == Error(404, "Source not found")
    ensures r.status == 200 ==> (Present(Field(body, "actionType"))
      && r.body == ActionBody(sourceId, Field(body, "actionType").value, Field(body, "context"), now))
  {
    var action := Field(body, "actionType");
    if !Present(action) then Error(400, "Action type is required")
    else if Find(sourceId).None? then Error(404, "Source not found")
    else Response(200, ActionBody(sourceId, action.value, Field(body, "context"), now))
  }

  /** Validation comes before the lookup: a request missing its required
      member is a 400 for every source id, known or not, and a complete one
      is a 404 exactly for the unknown ids. */
  lemma ValidationBeforeLookup(sourceId: string, other: string, body: Json, now: string)
    ensures !Present(Field(body, "message")) ==> Chat(sourceId, body, now) == Chat(other, body, now)
    ensures !Present(Field(body, "mode")) ==> Mode(sourceId, body, now) == Mode(other, body, now)
    ensures !Present(Field(body, "actionType")) ==> Action(sourceId, body, now) == Action(other, body, now)
    ensures Present(Field(body, "message")) ==> (Chat(sourceId, body, now).status == 200 <==> sourceId in {"1", "2"})
  {
  }

  /** A chat message that is a plain string is quoted verbatim, and the
      mode reads `default` when none is given. */
  lemma ChatQuotesMessage(sourceId: string, message: string, now: string)
    requires message != "" && sourceId in {"1", "2"}
    ensures var r := Chat(sourceId, JObj([("message", JStr(message))]), now);
      r.status == 200 && Get(r.body.fields, "response") == Some(JStr("AI response to: \"" + message + "\" in default mode"))
  {
    assert Field(JObj([("message", JStr(message))]), "mode") == None;
    assert ChatReply(JStr(message), None) == "AI response to: \"" + message + "\" in default mode";
  }
}
