/** The backend's quick-action endpoint
    (backend/steps/source_action_api_step.py): validate the request, look
    the source up, build the prompt for the action and have the model carry
    it out. */
module SourceAction {
  import opened Wrappers
  import opened Text
  import opened Json
  import opened Http
  import opened Database

  /** The actions the endpoint accepts, in the order its message lists them. */
  const Actions := ["generate_code_snippet", "highlight_method", "explain_term",
                    "summarize_section", "extract_quotes", "find_references", "create_outline"]

  /** What a source dictionary from the database shows for `content`: it
      never has that member. */
  const NoContent := "Content not available"

  /** One action's prompt: the request, the heading of the context line, and
      the closing instructions. */
  datatype Template = Template(request: string, heading: string, closing: string)

  const Templates: map<string, Template> := map[
    "generate_code_snippet" := Template(
      "Based on this research source, generate a practical code snippet that demonstrates the key concepts discussed.",
      "Context",
      "Please provide a complete, runnable code snippet with comments explaining how it relates to the research."),
    "highlight_method" := Template(
      "Analyze this research source and highlight the key methods, algorithms, or approaches discussed.",
      "Context",
      "Please provide:\n1. Key methods identified\n2. How they work\n3. Their significance to the research\n4. Any limitations mentioned"),
    "explain_term" := Template(
      "Explain the following term or concept from this research source.",
      "Term/Concept to explain",
      "Please provide a clear, comprehensive explanation with examples if relevant."),
    "summarize_section" := Template(
      "Summarize the section or topic specified from this research source.",
      "Section/Topic",
      "Please provide a concise but comprehensive summary."),
    "extract_quotes" := Template(
      "Extract the most important or relevant quotes from this research source.",
      "Context",
      "Please extract 3-5 key quotes that best represent the main findings or conclusions."),
    "find_references" := Template(
      "Find and list relevant references or citations from this research source.",
      "Context",
      "Please identify and list key references, related works, or citations mentioned."),
    "create_outline" := Template(
      "Create a structured outline of this research source.",
      "Context",
      "Please create a hierarchical outline showing the main sections, subsections, and key points.")
  ]

  /** A template filled in for a source and the request's context. */
  function Fill(t: Template, s: Source, context: Json, repr: Json -> string): string {
    t.request + "\n\nSource Title: " + Show(s.title, repr) + "\nSource Abstract: " + Show(s.abstractText, repr)
      + "\nSource Content: " + NoContent + "\n\n" + t.heading + ": " + Show(context, repr) + "\n\n" + t.closing
  }

  /** The prompt for anything without a template. */
  function Fallback(action: string, s: Source, context: Json, repr: Json -> string): string {
    "Perform action '" + action + "' on this source: " + Show(s.title, repr) + "\n\nContent: " + NoContent
      + "\n\nContext: " + Show(context, repr)
  }

  /** `action_prompts.get(action_type, fallback)`. */
  function PromptFor(action: string, s: Source, context: Json, repr: Json -> string): string {
    if action in Templates then Fill(Templates[action], s, context, repr) else Fallback(action, s, context, repr)
  }

  /** Every accepted action has a template, and nothing else does, so the
      fallback prompt is never used for a request that passes validation. */
  lemma FallbackUnreachable(action: string, s: Source, context: Json, repr: Json -> string)
    ensures action in Templates <==> action in Actions
    ensures action in Actions ==> PromptFor(action, s, context, repr) == Fill(Templates[action], s, context, repr)
  {
    assert Templates.Keys == set a | a in Actions;
  }

  /** The three checks, in order; `None` when the request passes them. */
  function Invalid(sourceId: string, actionType: Json): (r: Option<Response>)
    ensures sourceId == "" ==> r == Some(Message(400, "message", "Source ID is required"))
    ensures sourceId != "" && !Truthy(actionType) ==> r == Some(Message(400, "message", "Action type is required"))
    ensures sourceId != "" && Truthy(actionType) ==> (r.None? <==> actionType.JStr? && actionType.s in Actions)
    ensures r.Some? ==> r.value.status == 400
  {
    if sourceId == "" then Some(Message(400, "message", "Source ID is required"))
    else if !Truthy(actionType) then Some(Message(400, "message", "Action type is required"))
    else if !(actionType.JStr? && actionType.s in Actions) then
      Some(Message(400, "message", "Invalid action type. Must be one of: " + Join(", ", Actions)))
    else None
  }

  /** The body of a completed action. */
  function Completed(action: string, sourceId: string, answer: string, s: Source): Json {
    JObj([("message", JStr("Action completed successfully")), ("actionType", JStr(action)),
          ("sourceId", JStr(sourceId)), ("response", JStr(answer)),
          ("source", JObj([("id", JNum(s.id)), ("title", s.title)]))])
  }

  /** Everything inside the `try`: `int(sourceId)`, the lookup, the prompt
      and the model call; every failure is a 500. */
  function Perform(sourceId: string, action: string, context: Json, conn: Connection,
                   complete: string -> Result<string>, repr: Json -> string): (r: Response)
    ensures r.status in {200, 404, 500}
    ensures ParseInt(sourceId).None? ==> r.status == 500
    ensures r.status == 404 <==> ParseInt(sourceId).Some? && SourceById(conn, ParseInt(sourceId).value) == Ok(None)
    ensures r.status == 404 ==> r == Message(404, "message", "Source not found")
    ensures r.status == 200 ==> (ParseInt(sourceId).Some?
      && SourceById(conn, ParseInt(sourceId).value).Ok? && SourceById(conn, ParseInt(sourceId).value).value.Some?)
    ensures r.status == 200 ==> var s := SourceById(conn, ParseInt(sourceId).value).value.value;
      var prompt := PromptFor(action, s, context, repr);
      complete(prompt).Ok? && r == Response(200, Completed(action, sourceId, complete(prompt).value, s))
    ensures ParseInt(sourceId).Some? && SourceById(conn, ParseInt(sourceId).value).Err? ==>
      r == Failure(500, "Failed to perform action", SourceById(conn, ParseInt(sourceId).value).error)
    ensures ParseInt(sourceId).Some? && SourceById(conn, ParseInt(sourceId).value).Ok? && SourceById(conn, ParseInt(sourceId).value).value.Some? ==>
      var answer := complete(PromptFor(action, SourceById(conn, ParseInt(sourceId).value).value.value, context, repr));
      (r.status == 200 <==> answer.Ok?) && (answer.Err? ==> r == Failure(500, "Failed to perform action", answer.error))
  {
    match ParseInt(sourceId)
    case None => Failure(500, "Failed to perform action", "invalid literal for int() with base 10: '" + sourceId + "'")
    case Some(id) =>
      match SourceById(conn, id)
      case Err(e) => Failure(500, "Failed to perform action", e)
      case Ok(None) => Message(404, "message", "Source not found")
      case Ok(Some(s)) =>
        match complete(PromptFor(action, s, context, repr))
        case Err(e) => Failure(500, "Failed to perform action", e)
        case Ok(answer) => Response(200, Completed(action, sourceId, answer, s))
  }

  /** The handler, with the path's `sourceId`, the request body, the
      database and the model. A body that is not a mapping raises before
      any check (`Err`); the checks come before any database access. */
  function Handle(sourceId: Option<string>, body: Option<Json>, conn: Connection,
                  complete: string -> Result<string>, repr: Json -> string): (r: Result<Response>)
    ensures r.Ok? <==> BodyOf(body).JObj?
    ensures r.Ok? ==> var action := Get(BodyOf(body).fields, "actionType").GetOr(JStr(""));
      match Invalid(sourceId.GetOr(""), action)
      case Some(bad) => r.value == bad
      case None => r.value == Perform(sourceId.value, action.s, Get(BodyOf(body).fields, "context").GetOr(JStr("")), conn, complete, repr)
  {
    var b := BodyOf(body);
    var action :- GetOr(b, "actionType", JStr(""));
    var context := Get(b.fields, "context").GetOr(JStr(""));
    match Invalid(sourceId.GetOr(""), action)
    case Some(bad) => Ok(bad)
    case None => Ok(Perform(sourceId.value, action.s, context, conn, complete, repr))
  }

  /** The test script's first request, without a source id: a 400
      whatever the database and the model do. */
  lemma MissingSourceRejected(conn: Connection, complete: string -> Result<string>, repr: Json -> string)
    ensures var body := JObj([("actionType", JStr("explain_term")), ("context", JStr("machine learning"))]);
      Handle(None, Some(body), conn, complete, repr) == Ok(Message(400, "message", "Source ID is required"))
  {
  }

  /** The script's second request, without an action type. */
  lemma MissingActionRejected(conn: Connection, complete: string -> Result<string>, repr: Json -> string)
    ensures Handle(Some("1"), Some(JObj([("context", JStr("machine learning"))])), conn, complete, repr)
      == Ok(Message(400, "message", "Action type is required"))
  {
  }

  /** The script's third request, with an action outside the list. */
  lemma UnknownActionRejected(conn: Connection, complete: string -> Result<string>, repr: Json -> string)
    ensures var body := JObj([("actionType", JStr("invalid_action")), ("context", JStr("machine learning"))]);
      var r := Handle(Some("1"), Some(body), conn, complete, repr);
      r.Ok? && r.value.status == 400
  {
    var invalid := JObj([("actionType", JStr("invalid_action")), ("context", JStr("machine learning"))]);
    assert Get(invalid.fields, "actionType") == Some(JStr("invalid_action"));
    assert "invalid_action" != Actions[0] && "invalid_action" != Actions[1] && "invalid_action" != Actions[2];
    assert "invalid_action" != Actions[3] && "invalid_action" != Actions[4] && "invalid_action" != Actions[5];
    assert "invalid_action" != Actions[6];
    assert Invalid("1", JStr("invalid_action")).Some?;
  }

  /** The script's last request, a well-formed `explain_term`, passes
      validation: it is never a 400. */
  lemma ScriptedAcceptance(conn: Connection, complete: string -> Result<string>, repr: Json -> string)
    ensures var body := JObj([("actionType", JStr("explain_term")), ("context", JStr("machine learning"))]);
      var r := Handle(Some("1"), Some(body), conn, complete, repr);
      r.Ok? && r.value.status != 400
  {
    var valid := JObj([("actionType", JStr("explain_term")), ("context", JStr("machine learning"))]);
    assert Get(valid.fields, "actionType") == Some(JStr("explain_term"));
    assert Actions[2] == "explain_term";
    assert Invalid("1", JStr("explain_term")).None?;
  }
}
