/** The backend's mode toggle (backend/steps/source_mode_api_step.py):
    acknowledge one of three interaction modes for a source. */
module SourceMode {
  import opened Wrappers
  import opened Text
  import opened Json
  import opened Http

  const Modes := ["summary", "explanation", "implementation"]
  const DefaultMode := "summary"

  /** The message for a mode outside the list. */
  const ModeList := "summary, explanation, implementation"
  const Rejection := "Invalid mode. Must be one of: " + ModeList

  /** The message lists the accepted modes, comma-separated, in order. */
  lemma RejectionListsModes()
    ensures Rejection == "Invalid mode. Must be one of: " + Join(", ", Modes)
  {
    var tail := Modes[1..];
    assert tail[1..] == ["implementation"];
    assert Join(", ", tail) == "explanation" + ", " + "implementation";
    assert Join(", ", Modes) == "summary" + ", " + Join(", ", tail);
    assert "summary" + ", " + ("explanation" + ", " + "implementation") == ModeList;
  }

  predicate Valid(mode: Json) {
    mode.JStr? && mode.s in Modes
  }

  /** The handler, with the query's `sourceId` and the request body. The
      mode is read before the source id is checked, so a body that is not a
      mapping raises (`Err`) even without a source id; nothing in the `try`
      can fail, so there is no 500. */
  function Handle(sourceId: Option<string>, body: Option<Json>): (r: Result<Response>)
    ensures r.Ok? <==> BodyOf(body).JObj?
    ensures r.Ok? ==> r.value.status in {200, 400}
    ensures r.Ok? ==> var mode := Get(BodyOf(body).fields, "mode").GetOr(JStr(DefaultMode));
      (r.value.status == 200 <==> sourceId.GetOr("") != "" && Valid(mode)) &&
      (sourceId.GetOr("") == "" ==> r.value == Message(400, "message", "Source ID is required")) &&
      (sourceId.GetOr("") != "" && !Valid(mode) ==>
         r.value == Message(400, "message", Rejection))
    ensures r.Ok? && r.value.status == 200 ==>
      r.value.body == JObj([("message", JStr("Mode updated successfully")), ("sourceId", JStr(sourceId.value)),
                            ("mode", Get(BodyOf(body).fields, "mode").GetOr(JStr(DefaultMode)))])
  {
    var mode :- GetOr(BodyOf(body), "mode", JStr(DefaultMode));
    var id := sourceId.GetOr("");
    if id == "" then Ok(Message(400, "message", "Source ID is required"))
    else if !Valid(mode) then
      Ok(Message(400, "message", Rejection))
    else Ok(Response(200, JObj([("message", JStr("Mode updated successfully")), ("sourceId", JStr(id)),
                                ("mode", mode)])))
  }

  /** A request that names a source but no mode switches it to `summary`. */
  lemma ModeDefaultsToSummary(sourceId: string, body: Option<Json>)
    requires sourceId != ""
    requires BodyOf(body).JObj? && !HasKey(BodyOf(body).fields, "mode")
    ensures var r := Handle(Some(sourceId), body);
      r.Ok? && r.value.status == 200 && Get(r.value.body.fields, "mode") == Some(JStr("summary"))
  {
    assert DefaultMode in Modes;
    var f := [("message", JStr("Mode updated successfully")), ("sourceId", JStr(sourceId)), ("mode", JStr(DefaultMode))];
    assert Get(f, "mode") == Some(JStr(DefaultMode));
  }

  /** Every mode the endpoint acknowledges is one of the three, and every
      one of the three is acknowledged for any source id. */
  lemma AcknowledgedModes(sourceId: string, mode: Json)
    requires sourceId != ""
    ensures var r := Handle(Some(sourceId), Some(JObj([("mode", mode)])));
      r.Ok? && (r.value.status == 200 <==> mode in [JStr("summary"), JStr("explanation"), JStr("implementation")])
  {
    assert Get([("mode", mode)], "mode") == Some(mode);
    if mode in [JStr("summary"), JStr("explanation"), JStr("implementation")] {
      assert Valid(mode);
    }
  }
}
