/** Python's `round` of a quotient, computed exactly. */
module PyRound {
  /** The integer nearest to p/q, halves going to the even neighbour. */
  function RoundHalfEven(p: int, q: int): (r: int)
    requires q > 0
    ensures r == p / q || r == p / q + 1
    ensures -q <= 2 * (p - r * q) <= q
    ensures 2 * (p - r * q) == q || 2 * (p - r * q) == -q ==> r % 2 == 0
  {
    var f := p / q;
    var m := p % q;
    assert p == f * q + m;
    if 2 * m < q then f
    else if 2 * m > q then f + 1
    else if f % 2 == 0 then f
    else f + 1
  }

  /** A positive multiple of q is at least q. */
  lemma {:induction false} MulAtLeast(a: int, q: int)
    requires a >= 1 && q > 0
    ensures a * q >= q
    decreases a
  {
    if a > 1 {
      MulAtLeast(a - 1, q);
      assert a * q == (a - 1) * q + q;
    }
  }

  /** Euclidean division by a positive number is monotone. */
  lemma DivMonotone(p: int, p': int, q: int)
    requires q > 0 && p <= p'
    ensures p / q <= p' / q
  {
    var f, f' := p / q, p' / q;
    var a, b := f * q, f' * q;
    assert p == a + p % q && p' == b + p' % q;
    if f > f' {
      MulAtLeast(f - f', q);
      assert false;
    }
  }

  /** Rounding is monotone in the numerator. */
  lemma RoundMonotone(p: int, p': int, q: int)
    requires q > 0 && p <= p'
    ensures RoundHalfEven(p, q) <= RoundHalfEven(p', q)
  {
    DivMonotone(p, p', q);
    var f, f' := p / q, p' / q;
    if f == f' {
      var a := f * q;
      assert p == a + p % q && p' == a + p' % q;
      assert p % q <= p' % q;
    }
  }

  /** A whole multiple of q rounds to itself. */
  lemma RoundExact(k: int, q: int)
    requires q > 0
    ensures RoundHalfEven(k * q, q) == k
  {
    var p := k * q;
    var f, m := p / q, p % q;
    var a := f * q;
    assert p == a + m;
    if f < k {
      MulAtLeast(k - f, q);
      assert false;
    } else if f > k {
      MulAtLeast(f - k, q);
      assert false;
    }
    assert m == 0;
  }

  /** A percentage of a part no bigger than the whole lies in 0..100. */
  lemma PercentInRange(part: int, whole: int)
    requires 0 <= part <= whole && whole > 0
    ensures 0 <= RoundHalfEven(part * 100, whole) <= 100
  {
    RoundExact(0, whole);
    RoundExact(100, whole);
    RoundMonotone(0, part * 100, whole);
    RoundMonotone(part * 100, 100 * whole, whole);
  }

  /** The nearest-integer rule pins the result down: any integer within
      half of q of p/q, and even on a tie, is the rounded quotient. */
  lemma RoundUnique(p: int, q: int, r': int)
    requires q > 0
    requires -q <= 2 * (p - r' * q) <= q
    requires 2 * (p - r' * q) == q || 2 * (p - r' * q) == -q ==> r' % 2 == 0
    ensures r' == RoundHalfEven(p, q)
  {
    var r := RoundHalfEven(p, q);
    if r' > r {
      NoCloserNeighbour(p, q, r, r');
    } else if r' < r {
      NoCloserNeighbour(p, q, r', r);
    }
  }

  /** Two distinct integers both within half of q of p/q are neighbours
      sitting on the two sides of a tie, so they cannot both be even. */
  lemma NoCloserNeighbour(p: int, q: int, lo: int, hi: int)
    requires q > 0 && lo < hi
    requires -q <= 2 * (p - lo * q) <= q && -q <= 2 * (p - hi * q) <= q
    ensures hi == lo + 1 && 2 * (p - lo * q) == q && 2 * (p - hi * q) == -q
  {
    var d := hi - lo;
    assert hi * q == lo * q + d * q;
    MulAtLeast(d, q);
    if d > 1 {
      assert d * q == (d - 1) * q + q;
      MulAtLeast(d - 1, q);
    }
  }

  /** 12.5 rounds down to 12, 37.5 up to 38. */
  lemma HalvesGoToEven()
    ensures RoundHalfEven(100, 8) == 12
    ensures RoundHalfEven(300, 8) == 38
  {
  }
}

/** The status endpoint of the Motia flow (steps/status_api_step.py). */
module StatusApi {
  import opened Wrappers
  import opened Json
  import opened Http
  import opened Motia
  import opened PyRound

  /** The research is known when its topic is truthy and its config was
      written. */
  predicate Known(st: Store) {
    st.originalQuery.Some? && Truthy(st.originalQuery.value) && st.config.Some?
  }

  predicate Reported(st: Store) {
    st.finalReport.Some? && Truthy(st.finalReport.value)
  }

  /** `round(cd / td * 100) if td > 0 else 0`. */
  function Percent(cd: int, td: int): (r: int)
    ensures td <= 0 ==> r == 0
    ensures td > 0 ==> -td <= 2 * (cd * 100 - r * td) <= td
    ensures td > 0 && (2 * (cd * 100 - r * td) == td || 2 * (cd * 100 - r * td) == -td) ==> r % 2 == 0
    ensures td > 0 && 0 <= cd <= td ==> 0 <= r <= 100
    ensures td > 0 && cd == td ==> r == 100
  {
    if td > 0 then
      PercentInRange(if 0 <= cd <= td then cd else 0, td);
      RoundExact(100, td);
      RoundHalfEven(cd * 100, td)
    else 0
  }

  /** The handler; `requestId` is the query parameter, if any. The state of
      an unknown trace reads as empty. */
  function Handle(stores: map<string, Store>, requestId: Option<string>): (r: Response)
    ensures var id := requestId.GetOr("");
      var st := if id in stores then stores[id] else Fresh;
      (r.status == 404 <==> !Known(st)) &&
      (r.status == 500 <==> Known(st) && AsInt(st.config.value.depth).None?) &&
      (r.status == 404 || r.status == 200 || r.status == 500) &&
      r.body.JObj? && Get(r.body.fields, "requestId") == Some(JStr(id))
    ensures var id := requestId.GetOr("");
      var st := if id in stores then stores[id] else Fresh;
      r.status == 200 ==>
        Get(r.body.fields, "status") == Some(JStr(if Reported(st) then "completed" else "in-progress")) &&
        Get(r.body.fields, "reportAvailable") == Some(JBool(Reported(st)))
    ensures var id := requestId.GetOr("");
      var st := if id in stores then stores[id] else Fresh;
      r.status == 200 ==>
        var cfg := st.config.value;
        Get(r.body.fields, "progress") == Some(JObj([
          ("currentDepth", JNum(cfg.currentDepth)),
          ("totalDepth", cfg.depth),
          ("percentComplete", JNum(Percent(cfg.currentDepth, AsInt(cfg.depth).value)))]))
  {
    var id := requestId.GetOr("");
    var st := if id in stores then stores[id] else Fresh;
    if !Known(st) then
      var fs := [("message", JStr("Research not found")), ("requestId", JStr(id))];
      GetDistinct(fs, 1);
      Response(404, JObj(fs))
    else
      var cfg := st.config.value;
      match AsInt(cfg.depth)
      case None =>
        var fs := [("message", JStr("Failed to check research status")), ("requestId", JStr(id)),
                   ("error", JStr("'>' not supported between instances"))];
        assert DistinctKeys(fs);
        GetDistinct(fs, 1);
        Response(500, JObj(fs))
      case Some(td) =>
        var progress := JObj([("currentDepth", JNum(cfg.currentDepth)), ("totalDepth", cfg.depth),
                              ("percentComplete", JNum(Percent(cfg.currentDepth, td)))]);
        var fs := [
          ("message", JStr("Research status retrieved successfully")),
          ("requestId", JStr(id)),
          ("originalQuery", st.originalQuery.value),
          ("status", JStr(if Reported(st) then "completed" else "in-progress")),
          ("progress", progress),
          ("reportAvailable", JBool(Reported(st)))];
        assert DistinctKeys(fs);
        GetDistinct(fs, 1);
        GetDistinct(fs, 3);
        GetDistinct(fs, 4);
        GetDistinct(fs, 5);
        Response(200, JObj(fs))
  }

  /** The percentage lies in 0..100 whenever the stored current depth is
      between 0 and an integer depth limit. */
  lemma ProgressInRange(stores: map<string, Store>, requestId: Option<string>)
    requires var id := requestId.GetOr("");
      id in stores && stores[id].config.Some? &&
      AsInt(stores[id].config.value.depth).Some? &&
      0 <= stores[id].config.value.currentDepth <= AsInt(stores[id].config.value.depth).value
    ensures var r := Handle(stores, requestId);
      r.status == 200 ==> exists p :: 0 <= p <= 100 && Get(Get(r.body.fields, "progress").value.fields, "percentComplete") == Some(JNum(p))
  {
    var id := requestId.GetOr("");
    var cfg := stores[id].config.value;
    var p := Percent(cfg.currentDepth, AsInt(cfg.depth).value);
    var r := Handle(stores, requestId);
    if r.status == 200 {
      var prog := [("currentDepth", JNum(cfg.currentDepth)), ("totalDepth", cfg.depth), ("percentComplete", JNum(p))];
      assert Get(prog, "percentComplete") == Some(JNum(p));
    }
  }
}

/** The status endpoint of the FastAPI application (app/api/status.py): the
    stored values are Redis strings, the config a JSON text. */
module AppStatus {
  import opened Wrappers
  import opened Json
  import opened Http
  import opened Llm
  import opened PyRound

  /** The three Redis values of a request, None when the key is unset. */
  datatype Stored = Stored(originalQuery: Option<string>, config: Option<string>, finalReport: Option<string>)

  const Failure := "Failed to get status: "
  const DivisionByZero := "division by zero"

  predicate Present(v: Option<string>) {
    v.Some? && v.value != ""
  }

  /** Python's true division of two ints followed by `round`. */
  function RoundedQuotient(p: int, q: int): (r: int)
    requires q != 0
    ensures q > 0 ==> r == RoundHalfEven(p, q)
    ensures var a := if q > 0 then q else -q;
      -a <= 2 * (p - r * q) <= a
    ensures 2 * (p - r * q) == q || 2 * (p - r * q) == -q ==> r % 2 == 0
  {
    if q > 0 then RoundHalfEven(p, q)
    else
      var r := RoundHalfEven(-p, -q);
      assert r * (-q) == -(r * q);
      r
  }

  /** The progress object of a truthy config, or the message of the
      exception computing it raises. */
  function Progress(config: Json): (r: Result<Json>)
    requires Truthy(config)
    ensures !config.JObj? ==> r.Err?
    ensures (config.JObj? && AsInt(Get(config.fields, "current_depth").GetOr(JNum(0))).Some? &&
             Get(config.fields, "depth").Some? && AsInt(Get(config.fields, "depth").value) == Some(0)) ==> r == Err(DivisionByZero)
    ensures config.JObj? ==>
      var cd := Get(config.fields, "current_depth").GetOr(JNum(0));
      var td := Get(config.fields, "depth");
      AsInt(cd).Some? && td.Some? && AsInt(td.value).Some? && AsInt(td.value).value != 0 ==>
        r == Ok(JObj([("currentDepth", cd), ("totalDepth", td.value),
                      ("percentComplete", JNum(RoundedQuotient(AsInt(cd).value * 100, AsInt(td.value).value)))]))
    ensures config.JObj? ==>
      var td := Get(config.fields, "depth");
      AsInt(Get(config.fields, "current_depth").GetOr(JNum(0))).None? || (td.Some? && AsInt(td.value).None?) ==> r.Err?
    ensures config.JObj? && !HasKey(config.fields, "depth") && AsInt(Get(config.fields, "current_depth").GetOr(JNum(0))).Some? ==>
      r.Ok? && r.value == JObj([
        ("currentDepth", Get(config.fields, "current_depth").GetOr(JNum(0))),
        ("totalDepth", JNum(0)),
        ("percentComplete", JNum(AsInt(Get(config.fields, "current_depth").GetOr(JNum(0))).value * 100))])
  {
    match config
    case JObj(fields) =>
      var cd := Get(fields, "current_depth").GetOr(JNum(0));
      var td := Get(fields, "depth").GetOr(JNum(0));
      var divisor := Get(fields, "depth").GetOr(JNum(1));
      (match (AsInt(cd), AsInt(divisor))
       case (Some(c), Some(d)) =>
         if d == 0 then Err(DivisionByZero)
         else
           assert !HasKey(fields, "depth") ==> d == 1;
           RoundExact(c * 100, 1);
           Ok(JObj([("currentDepth", cd), ("totalDepth", td), ("percentComplete", JNum(RoundedQuotient(c * 100, d)))]))
       case _ => Err("unsupported operand type(s) for /"))
    case _ => Err("AttributeError: object has no attribute 'get'")
  }

  /** The config as read: `json.loads` of the stored text, or `{}`. */
  function Config(stored: Stored, parse: Parser): Result<Json> {
    if Present(stored.config) then parse(stored.config.value) else Ok(JObj([]))
  }

  /** The progress member: None for a falsy config. */
  function ProgressOf(stored: Stored, parse: Parser): (r: Result<Json>)
    ensures !Present(stored.config) ==> r == Ok(JNull)
    ensures Config(stored, parse).Err? ==> r == Config(stored, parse)
    ensures Config(stored, parse).Ok? && Truthy(Config(stored, parse).value) ==> r == Progress(Config(stored, parse).value)
    ensures Config(stored, parse).Ok? && !Truthy(Config(stored, parse).value) ==> r == Ok(JNull)
  {
    var config :- Config(stored, parse);
    if Truthy(config) then Progress(config) else Ok(JNull)
  }

  /** The 200 body: a `StatusResponse`. */
  function Found(requestId: string, query: string, done: bool, progress: Json): (r: Response)
    ensures r.status == 200 && r.body.JObj?
    ensures Get(r.body.fields, "status") == Some(JStr(if done then "completed" else "in-progress"))
    ensures Get(r.body.fields, "report_available") == Some(JBool(done))
    ensures Get(r.body.fields, "progress") == Some(progress)
  {
    var fs := [
      ("request_id", JStr(requestId)),
      ("original_query", JStr(query)),
      ("status", JStr(if done then "completed" else "in-progress")),
      ("progress", progress),
      ("report_available", JBool(done))];
    assert DistinctKeys(fs);
    GetDistinct(fs, 2);
    GetDistinct(fs, 3);
    GetDistinct(fs, 4);
    Response(200, JObj(fs))
  }

  /** The handler: a missing topic is 404 and stays 404; any other failure
      becomes 500 "Failed to get status: …". A missing config is no error
      and gives no progress. */
  function Handle(requestId: string, stored: Stored, parse: Parser): (r: Response)
    ensures r.status == 404 <==> !Present(stored.originalQuery)
    ensures r.status == 404 ==> r == Message(404, "detail", "Research not found")
    ensures r.status == 200 || r.status == 404 || r.status == 500
    ensures r.status == 500 ==> r.body.JObj? && |r.body.fields| == 1 && r.body.fields[0].0 == "detail"
    ensures Present(stored.originalQuery) && !Present(stored.config) ==> r.status == 200
    ensures Present(stored.originalQuery) && !Present(stored.config) ==> r.body.JObj? && Get(r.body.fields, "progress") == Some(JNull)
    ensures r.status == 200 ==> r.body.JObj?
    ensures r.status == 200 ==> Get(r.body.fields, "status") == Some(JStr(if Present(stored.finalReport) then "completed" else "in-progress"))
    ensures r.status == 200 ==> Get(r.body.fields, "report_available") == Some(JBool(Present(stored.finalReport)))
    ensures Present(stored.originalQuery) && ProgressOf(stored, parse).Ok? ==>
      r == Found(requestId, stored.originalQuery.value, Present(stored.finalReport), ProgressOf(stored, parse).value)
    ensures Present(stored.originalQuery) && ProgressOf(stored, parse).Err? ==>
      r == Message(500, "detail", Failure + ProgressOf(stored, parse).error)
  {
    if !Present(stored.originalQuery) then Message(404, "detail", "Research not found")
    else
      match ProgressOf(stored, parse)
      case Err(e) => Message(500, "detail", Failure + e)
      case Ok(progress) => Found(requestId, stored.originalQuery.value, Present(stored.finalReport), progress)
  }

  /** A stored depth of 0 is divided by, not defaulted: the request fails
      with 500 rather than reporting progress. */
  lemma ZeroDepthFails(requestId: string, stored: Stored, parse: Parser)
    requires Present(stored.originalQuery) && Present(stored.config)
    requires parse(stored.config.value).Ok? && parse(stored.config.value).value.JObj?
    requires AsInt(Get(parse(stored.config.value).value.fields, "current_depth").GetOr(JNum(0))).Some?
    requires Get(parse(stored.config.value).value.fields, "depth") == Some(JNum(0))
    ensures Handle(requestId, stored, parse) == Message(500, "detail", Failure + DivisionByZero)
  {
    var config := parse(stored.config.value).value;
    assert HasKey(config.fields, "depth");
    assert Truthy(config);
    assert Progress(config) == Err(DivisionByZero);
    assert ProgressOf(stored, parse) == Err(DivisionByZero);
  }
}
