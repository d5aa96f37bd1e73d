/** The analysis-completed subscriber (steps/compile_report_step.py): once
    the research is complete, gather the analyses of every depth, have the
    model write the report, keep it and announce it. */
module CompileReport {
  import opened Wrappers
  import opened Batching
  import opened Json
  import opened Llm
  import opened Motia

  /** The members whose lengths the step logs, with their defaults. */
  const Logged := [("overview", JStr("")), ("sections", JArr([])), ("keyTakeaways", JArr([])), ("sources", JArr([]))]

  /** `range(n)`. */
  function Range(n: nat): (r: seq<int>)
    ensures |r| == n && forall i :: 0 <= i < n ==> r[i] == i
  {
    seq(n, i => i)
  }

  /** The number of loop turns of `range(depth + 1)`. */
  function Turns(depth: int): nat {
    if depth + 1 > 0 then depth + 1 else 0
  }

  /** `{'depth': i, **analysis}` for a stored truthy object analysis;
      None when the depth has nothing truthy stored. */
  function Merged(a: map<int, Json>, i: int): (r: Option<Json>)
    ensures r.Some? <==> i in a && Truthy(a[i]) && a[i].JObj?
  {
    if i in a && Truthy(a[i]) && a[i].JObj? then Some(JObj([("depth", JNum(i))] + a[i].fields)) else None
  }

  function Merger(a: map<int, Json>): int -> Option<Json> {
    i => Merged(a, i)
  }

  /** The merged analyses of depths `0..n-1` in increasing depth; a truthy
      analysis that is not a mapping cannot be unpacked with `**`. */
  function Gather(a: map<int, Json>, n: nat): (r: Result<seq<Json>>)
    ensures r.Ok? <==> forall i :: 0 <= i < n && i in a && Truthy(a[i]) ==> a[i].JObj?
    ensures r.Ok? ==> r.value == FilterMap(Merger(a), Range(n))
  {
    if n == 0 then Ok([])
    else
      var i := n - 1;
      match Gather(a, i)
      case Err(e) => Err(e)
      case Ok(prev) =>
        if i in a && Truthy(a[i]) && !a[i].JObj? then Err("TypeError: 'depth' argument after ** must be a mapping")
        else
          assert Range(n) == Range(i) + [i];
          FilterMapConcat(Merger(a), Range(i), [i]);
          assert [i][1..] == [];
          Ok(prev + (if Merged(a, i).Some? then [Merged(a, i).value] else []))
  }

  /** What a merged analysis reads: its own members, and the depth it was
      stored under unless it had a "depth" member of its own (a later key
      wins in a dict display). */
  lemma MergedReads(a: map<int, Json>, i: int, k: string)
    requires Merged(a, i).Some?
    ensures HasKey(a[i].fields, k) ==> Get(Merged(a, i).value.fields, k) == Get(a[i].fields, k)
    ensures !HasKey(a[i].fields, "depth") ==> Get(Merged(a, i).value.fields, "depth") == Some(JNum(i))
  {
    GetAppend([("depth", JNum(i))], a[i].fields, k);
    GetAppend([("depth", JNum(i))], a[i].fields, "depth");
  }

  /** Every stored truthy analysis of depths `0..n-1` is in the gathered
      list, and everything in it is one of them. */
  lemma GatherKeepsAll(a: map<int, Json>, n: nat)
    requires Gather(a, n).Ok?
    ensures forall i :: 0 <= i < n && i in a && Truthy(a[i]) ==> Merged(a, i).value in Gather(a, n).value
    ensures forall m :: m in Gather(a, n).value ==> exists i :: 0 <= i < n && Merged(a, i) == Some(m)
  {
    var f := Merger(a);
    var rs := Range(n);
    FilterMapMembers(f, rs);
    forall i | 0 <= i < n && i in a && Truthy(a[i])
      ensures Merged(a, i).value in Gather(a, n).value
    {
      assert rs[i] == i;
      assert f(rs[i]).Some?;
    }
    forall m | m in Gather(a, n).value
      ensures exists i :: 0 <= i < n && Merged(a, i) == Some(m)
    {
      var j :| 0 <= j < |rs| && f(rs[j]) == Some(m);
      assert Merged(a, j) == Some(m);
    }
  }

  /** The report request through the logged lengths; a report that is not
      an object has no `get`. */
  function Report(w: World, st: Store, originalQuery: Json, depth: int): (r: Result<seq<(string, Json)>>)
    ensures Gather(st.analyses, Turns(depth)).Err? ==> r.Err?
    ensures r.Ok? ==> Gather(st.analyses, Turns(depth)).Ok?
    ensures r.Ok? ==>
      ParsedReply(w.report(originalQuery, Gather(st.analyses, Turns(depth)).value), w.parse, NoReport) == Ok(JObj(r.value))
    ensures r.Ok? ==> forall i :: 0 <= i < |Logged| ==> Len(Get(r.value, Logged[i].0).GetOr(Logged[i].1)).Some?
    ensures Gather(st.analyses, Turns(depth)).Ok? ==>
      var p := ParsedReply(w.report(originalQuery, Gather(st.analyses, Turns(depth)).value), w.parse, NoReport);
      (p.Ok? && p.value.JObj? && MeasureAll(p.value.fields, Logged).Ok? ==> r == Ok(p.value.fields)) &&
      (p.Err? || !p.value.JObj? ==> r.Err?)
  {
    var analyses :- Gather(st.analyses, Turns(depth));
    var parsed :- ParsedReply(w.report(originalQuery, analyses), w.parse, NoReport);
    if !parsed.JObj? then Err("AttributeError: object has no attribute 'get'")
    else
      var _ :- MeasureAll(parsed.fields, Logged);
      Ok(parsed.fields)
  }

  /** The handler: an incomplete analysis is acknowledged and dropped;
      otherwise the report is stored and announced, or the step raises with
      the store untouched. */
  function Handle(w: World, st: Store, requestId: string, originalQuery: Json, depth: int, isComplete: bool): (r: Step)
    ensures !isComplete ==> r == Step(st, Quiet)
    ensures isComplete ==> (r.outcome.Raised? <==> Report(w, st, originalQuery, depth).Err?)
    ensures isComplete ==> (r.outcome.Emitted? <==> Report(w, st, originalQuery, depth).Ok?)
    ensures r.outcome.Raised? ==> r.store == st
    ensures r.outcome.Emitted? ==> isComplete && r.outcome.event.ReportCompleted?
    ensures r.outcome.Emitted? ==> r.outcome.event == ReportCompleted(r.outcome.event.report, requestId, originalQuery)
    ensures r.outcome.Emitted? ==> r.store == st.(finalReport := Some(r.outcome.event.report))
    ensures r.outcome.Emitted? ==> r.outcome.event.report == JObj(Report(w, st, originalQuery, depth).value)
  {
    if !isComplete then Step(st, Quiet)
    else match Report(w, st, originalQuery, depth)
      case Err(e) => Step(st, Raised(e))
      case Ok(fields) =>
        Step(st.(finalReport := Some(JObj(fields))), Emitted(ReportCompleted(JObj(fields), requestId, originalQuery)))
  }
}
