/** The backend's report review endpoint
    (backend/steps/report_feedback_api_step.py): build a review prompt from
    the report and the requested checks, ask the model, and return the
    `feedback` list of its JSON answer. */
module ReportFeedback {
  import opened Wrappers
  import opened Text
  import opened Json
  import opened Http

  /** How much of the report the prompt quotes. */
  const ExcerptLimit := 10000

  /** What `create_completion` does: answer with message content, or raise
      (a `ValueError` or any other exception). */
  datatype Completion = Answered(content: string) | Raised(valueError: bool, message: string)

  /** The focus line: one phrase per requested check, in this order, or
      `General review` when none is requested. */
  function FlagsText(replicability: bool, evidence: bool): (r: string)
    ensures replicability && evidence ==> r == "Check for replicability issues; Verify evidence and citations"
    ensures replicability && !evidence ==> r == "Check for replicability issues"
    ensures !replicability && evidence ==> r == "Verify evidence and citations"
    ensures !replicability && !evidence ==> r == "General review"
  {
    var phrases := (if replicability then ["Check for replicability issues"] else [])
                   + (if evidence then ["Verify evidence and citations"] else []);
    if |phrases| == 0 then "General review"
    else if |phrases| == 1 then phrases[0]
    else
      assert Join("; ", phrases) == phrases[0] + "; " + Join("; ", phrases[1..]);
      Join("; ", phrases)
  }

  /** `report_content[:10000]` as the f-string shows it: a string is cut to
      its first 10000 characters, a list to its first 10000 items (shown by
      `repr`); slicing a mapping raises `TypeError` (`Err`). */
  function Excerpt(report: Json, repr: Json -> string): (r: Result<string>)
    ensures r.Err? <==> report.JObj?
    ensures report.JStr? ==> r == Ok(Take(report.s, ExcerptLimit))
  {
    match report
    case JStr(s) => Ok(Take(s, ExcerptLimit))
    case JArr(items) => Ok(repr(JArr(if |items| <= ExcerptLimit then items else items[..ExcerptLimit])))
    case JObj(_) => Err("TypeError: unhashable type: 'slice'")
    case _ => Ok(Show(report, repr))
  }

  const Instructions :=
    "\n\nProvide feedback in JSON format with the following structure:\n{\n  \"feedback\": [\n    {\n"
    + "      \"section\": \"section name or 'general'\",\n"
    + "      \"issueType\": \"replicability|evidence|citation|methodology|clarity|other\",\n"
    + "      \"suggestion\": \"specific improvement suggestion\",\n"
    + "      \"confidence\": 0.0-1.0\n    }\n  ]\n}"

  /** The user prompt. */
  function Prompt(focus: string, excerpt: string): (r: string)
    ensures |r| == |Lead| + |focus| + |Heading| + |excerpt| + |Instructions|
    ensures r[..|Lead|] == Lead
    ensures r[|Lead| + |focus| + |Heading|..][..|excerpt|] == excerpt
  {
    var before := Lead + focus + Heading;
    var r := before + (excerpt + Instructions);
    assert r[|before|..] == excerpt + Instructions;
    assert r[..|Lead|] == before[..|Lead|];
    r
  }

  const Heading := "\n\nReport Content:\n"

  const Lead := "Review this research report and provide structured feedback. Focus on: "

  /** The reply as the service's stand-in gives it when no API key is set:
      valid JSON, but without a `feedback` member. */
  const MockReply := "{\"validation_report\": {\"confidence\": 0.8, \"issues\": [\"Mock validation result\"]}}"

  /** The stand-in model: every prompt gets `MockReply`. */
  function StandIn(prompt: string): Completion {
    Answered(MockReply)
  }

  /** Everything in the `try`: the flags, the prompt, the model call and
      parsing its answer (`parse` is `json.loads`; `None` is its
      `JSONDecodeError`, a `ValueError` without the API-key text, which is
      re-raised). */
  function Review(report: Json, flags: Json, complete: string -> Completion,
                  parse: string -> Option<Json>, repr: Json -> string): (r: Result<Response>)
    ensures !flags.JObj? ==> r.Ok? && r.value.status == 500
    ensures r.Ok? ==> r.value.status in {200, 500}
    ensures r.Ok? && r.value.status == 200 ==> (flags.JObj? && Excerpt(report, repr).Ok?
      && var focus := FlagsText(Truthy(Get(flags.fields, "replicability").GetOr(JNull)),
                                Truthy(Get(flags.fields, "evidence_check").GetOr(JNull)));
         var c := complete(Prompt(focus, Excerpt(report, repr).value));
         (c.Answered? && parse(c.content).Some? && parse(c.content).value.JObj?
          && r.value == Response(200, JObj([("message", JStr("Feedback generated successfully")),
                                            ("feedback", Get(parse(c.content).value.fields, "feedback").GetOr(JArr([])))]))))
    ensures flags.JObj? && Excerpt(report, repr).Ok? ==>
      var focus := FlagsText(Truthy(Get(flags.fields, "replicability").GetOr(JNull)),
                             Truthy(Get(flags.fields, "evidence_check").GetOr(JNull)));
      var c := complete(Prompt(focus, Excerpt(report, repr).value));
      (c.Answered? && parse(c.content).Some? && parse(c.content).value.JObj? ==> r.Ok? && r.value.status == 200) &&
      (c.Answered? && parse(c.content).None? ==> r.Err?)
  {
    if !flags.JObj? then Ok(Failure(500, "Failed to generate feedback", "AttributeError: object has no attribute 'get'"))
    else
      var fields := flags.fields;
      var focus := FlagsText(Truthy(Get(fields, "replicability").GetOr(JNull)),
                             Truthy(Get(fields, "evidence_check").GetOr(JNull)));
      match Excerpt(report, repr)
      case Err(e) => Ok(Failure(500, "Failed to generate feedback", e))
      case Ok(excerpt) =>
        match complete(Prompt(focus, excerpt))
        case Raised(true, m) =>
          if Contains(m, "API key not set") then Ok(Failure(500, "API key not configured", "OpenAI API key is required"))
          else Err(m)
        case Raised(false, m) => Ok(Failure(500, "Failed to generate feedback", m))
        case Answered(content) =>
          match parse(content)
          case None => Err("JSONDecodeError")
          case Some(JObj(data)) =>
            Ok(Response(200, JObj([("message", JStr("Feedback generated successfully")),
                                   ("feedback", Get(data, "feedback").GetOr(JArr([])))])))
          case Some(_) => Ok(Failure(500, "Failed to generate feedback", "AttributeError: object has no attribute 'get'"))
  }

  /** The handler. A body that is not a mapping raises (`Err`); an empty
      report is a 400; a non-empty report without a length (a number or
      `True`) raises when it is logged, before the `try`. */
  function Handle(body: Option<Json>, complete: string -> Completion, parse: string -> Option<Json>,
                  repr: Json -> string): (r: Result<Response>)
    ensures !BodyOf(body).JObj? ==> r.Err?
    ensures BodyOf(body).JObj? ==> var report := Get(BodyOf(body).fields, "reportContent").GetOr(JStr(""));
      && (!Truthy(report) ==> r == Ok(Message(400, "message", "Report content is required")))
      && (Truthy(report) && Len(report).None? ==> r.Err?)
      && (Truthy(report) && Len(report).Some? ==>
            r == Review(report, Get(BodyOf(body).fields, "flags").GetOr(JObj([])), complete, parse, repr))
    ensures r.Ok? && r.value.status == 400 ==> r.value == Message(400, "message", "Report content is required")
  {
    var b := BodyOf(body);
    var report :- GetOr(b, "reportContent", JStr(""));
    var flags := Get(b.fields, "flags").GetOr(JObj([]));
    if !Truthy(report) then Ok(Message(400, "message", "Report content is required"))
    else if Len(report).None? then Err("TypeError: object has no len()")
    else Review(report, flags, complete, parse, repr)
  }

  /** Which 500 an exception from the model call becomes: only a
      `ValueError` about the missing key gets the configuration message;
      any other `ValueError` propagates; everything else is the generic
      failure. */
  lemma ModelErrors(report: string, flags: Json, complete: string -> Completion,
                    parse: string -> Option<Json>, repr: Json -> string)
    requires flags.JObj?
    ensures var focus := FlagsText(Truthy(Get(flags.fields, "replicability").GetOr(JNull)),
                                   Truthy(Get(flags.fields, "evidence_check").GetOr(JNull)));
      var c := complete(Prompt(focus, Take(report, ExcerptLimit)));
      var r := Review(JStr(report), flags, complete, parse, repr);
      && (c.Raised? && c.valueError && Contains(c.message, "API key not set") ==>
            r == Ok(Failure(500, "API key not configured", "OpenAI API key is required")))
      && (c.Raised? && c.valueError && !Contains(c.message, "API key not set") ==> r == Err(c.message))
      && (c.Raised? && !c.valueError ==> r == Ok(Failure(500, "Failed to generate feedback", c.message)))
  {
  }

  /** Without an API key the service answers every prompt with its stand-in
      reply, which has no `feedback` member: the review succeeds with an
      empty list. */
  lemma StandInGivesNoFeedback(body: Option<Json>, parse: string -> Option<Json>, repr: Json -> string)
    requires BodyOf(body).JObj?
    requires var report := Get(BodyOf(body).fields, "reportContent").GetOr(JStr(""));
      report.JStr? && report.s != ""
    requires Get(BodyOf(body).fields, "flags").GetOr(JObj([])).JObj?
    requires parse(MockReply).Some? && parse(MockReply).value.JObj?
    requires !HasKey(parse(MockReply).value.fields, "feedback")
    ensures var r := Handle(body, StandIn, parse, repr);
      r.Ok? && r.value.status == 200 && Get(r.value.body.fields, "feedback") == Some(JArr([]))
  {
    var b := BodyOf(body);
    var report := Get(b.fields, "reportContent").GetOr(JStr(""));
    var flags := Get(b.fields, "flags").GetOr(JObj([]));
    assert Handle(body, StandIn, parse, repr) == Review(report, flags, StandIn, parse, repr);
    var f := [("message", JStr("Feedback generated successfully")), ("feedback", JArr([]))];
    assert Review(report, flags, StandIn, parse, repr) == Ok(Response(200, JObj(f)));
    assert Get(f, "feedback") == Some(JArr([]));
  }
}
