/** The research flow as the Motia runtime drives it for one trace: each
    event goes to the step that subscribes to its topic, and what that step
    emits is handled next. Every step emits at most one event, so a run is
    a chain. The flow is bounded: a request for depth D leads to at most
    max(D, 0) follow-up rounds, and the chain ends within a number of steps
    linear in that bound. */
module Pipeline {
  import opened Wrappers
  import opened Json
  import opened Motia
  import Firecrawl
  import ResearchApi
  import GenerateQueries
  import SearchWeb
  import ExtractStep
  import AnalyzeContent
  import FollowUpResearch
  import CompileReport

  /** The subscription table of the flow; report-completed has no
      subscriber. */
  function Dispatch(w: World, st: Store, ev: Event): Step {
    match ev
    case ResearchStarted(q, b, d, id) => GenerateQueries.Handle(w, st, q, b, d, id)
    case QueriesGenerated(qs, id, oq, d) => SearchWeb.Handle(w, st, qs, id, oq, d)
    case ResultsCollected(es, id, oq, d) => ExtractStep.Handle(w, st, es, id, oq, d)
    case ContentExtracted(cs, id, oq, d) => AnalyzeContent.Handle(w, st, cs, id, oq, d)
    case FollowUpNeeded(fu, id, oq, d, _) => FollowUpResearch.Handle(st, fu, id, oq, d)
    case AnalysisCompleted(_, id, oq, d, done) => CompileReport.Handle(w, st, id, oq, d, done)
    case ReportCompleted(_, _, _) => Step(st, Quiet)
  }

  /** How a chain ended: no further event, a step raised, or the model's
      step budget ran out first. */
  datatype End = Finished | Failed(error: string) | OutOfFuel

  /** The final store, the events handled in order, and how it ended. */
  datatype Trace = Trace(store: Store, handled: seq<Event>, end: End)

  /** The handler table with the outside world fixed. */
  function Flow(w: World): (Store, Event) -> Step {
    (st, ev) => Dispatch(w, st, ev)
  }

  /** Handling `ev` and then whatever each step emits, for at most `fuel`
      steps, with `flow` as the handler table. */
  function Run(flow: (Store, Event) -> Step, st: Store, ev: Event, fuel: nat): (t: Trace)
    ensures fuel == 0 <==> t.end.OutOfFuel? && t.handled == []
    ensures |t.handled| <= fuel
    ensures fuel > 0 ==> |t.handled| > 0 && t.handled[0] == ev
    decreases fuel
  {
    if fuel == 0 then Trace(st, [], OutOfFuel)
    else
      var s := flow(st, ev);
      match s.outcome
      case Quiet => Trace(s.store, [ev], Finished)
      case Raised(e) => Trace(s.store, [ev], Failed(e))
      case Emitted(next) =>
        var t := Run(flow, s.store, next, fuel - 1);
        Trace(t.store, [ev] + t.handled, t.end)
  }

  /** The follow-up rounds among handled events. */
  function FollowUps(evs: seq<Event>): nat {
    if |evs| == 0 then 0 else (if evs[0].FollowUpNeeded? then 1 else 0) + FollowUps(evs[1..])
  }

  /** The most follow-up rounds the chain from `ev` can still contain. */
  function Bound(st: Store, ev: Event): nat {
    match ev
    case ResearchStarted(_, _, d, _) => Rounds(GenerateQueries.Depth(d), 0)
    case QueriesGenerated(_, _, _, d) => Rounds(MaxDepth(st), d)
    case ResultsCollected(_, _, _, d) => Rounds(MaxDepth(st), d)
    case ContentExtracted(_, _, _, d) => Rounds(MaxDepth(st), d)
    case FollowUpNeeded(_, _, _, d, _) => 1 + Rounds(MaxDepth(st), d)
    case _ => 0
  }

  /** The most events the chain from `ev` can still handle: four per round
      left, plus the steps to the report. */
  function Cost(st: Store, ev: Event): nat {
    match ev
    case ResearchStarted(_, _, d, _) => 4 * Rounds(GenerateQueries.Depth(d), 0) + 6
    case QueriesGenerated(_, _, _, d) => 4 * Rounds(MaxDepth(st), d) + 5
    case ResultsCollected(_, _, _, d) => 4 * Rounds(MaxDepth(st), d) + 4
    case ContentExtracted(_, _, _, d) => 4 * Rounds(MaxDepth(st), d) + 3
    case FollowUpNeeded(_, _, _, d, _) => 4 * Rounds(MaxDepth(st), d) + 6
    case AnalysisCompleted(_, _, _, _, _) => 2
    case ReportCompleted(_, _, _) => 1
  }

  /** One step of `flow` does not raise the bounds: what the emitted event
      may still cause, plus what this step did, is within what `ev`
      allowed. */
  predicate Shrinks(flow: (Store, Event) -> Step, st: Store, ev: Event) {
    var s := flow(st, ev);
    s.outcome.Emitted? ==>
      Bound(s.store, s.outcome.event) + (if ev.FollowUpNeeded? then 1 else 0) <= Bound(st, ev) &&
      Cost(s.store, s.outcome.event) + 1 <= Cost(st, ev)
  }

  /** Every step of the research flow shrinks the bounds. */
  lemma StepShrinks(w: World, st: Store, ev: Event)
    ensures Shrinks(Flow(w), st, ev)
  {
    match ev
    case ResearchStarted(q, b, d, id) => StartShrinks(w, st, q, b, d, id);
    case ContentExtracted(cs, id, oq, d) => AnalysisShrinks(w, st, cs, id, oq, d);
    case QueriesGenerated(_, _, _, _) => SearchShrinks(w, st, ev);
    case ResultsCollected(_, _, _, _) => SearchShrinks(w, st, ev);
    case _ => TailShrinks(w, st, ev);
  }

  /** Generating queries records the requested depth as the limit. */
  lemma StartShrinks(w: World, st: Store, q: Option<Json>, b: Option<Json>, d: Option<Json>, id: Option<string>)
    ensures Shrinks(Flow(w), st, ResearchStarted(q, b, d, id))
  {
    var s := GenerateQueries.Handle(w, st, q, b, d, id);
    assert s.outcome.Emitted? ==> MaxDepth(s.store) == GenerateQueries.Depth(d);
  }

  /** The analysis step only goes one level deeper while a round is left. */
  lemma AnalysisShrinks(w: World, st: Store, cs: seq<Firecrawl.PyItem>, id: string, oq: Json, d: int)
    ensures Shrinks(Flow(w), st, ContentExtracted(cs, id, oq, d))
  {
    AnalyzeContent.DepthStep(w, st, cs, id, oq, d);
    DeeperShrinks(st, ContentExtracted(cs, id, oq, d), AnalyzeContent.Handle(w, st, cs, id, oq, d));
  }

  /** The bound arithmetic for a step that keeps the limit and either goes
      one level deeper or completes. */
  lemma DeeperShrinks(st: Store, ev: Event, s: Step)
    requires ev.ContentExtracted?
    requires MaxDepth(s.store) == MaxDepth(st)
    requires s.outcome.Emitted? && s.outcome.event.FollowUpNeeded? ==>
      s.outcome.event.depth == ev.depth + 1 && Rounds(MaxDepth(st), ev.depth + 1) + 1 == Rounds(MaxDepth(st), ev.depth)
    requires s.outcome.Emitted? && !s.outcome.event.FollowUpNeeded? ==> s.outcome.event.AnalysisCompleted?
    ensures s.outcome.Emitted? ==>
      Bound(s.store, s.outcome.event) <= Bound(st, ev) && Cost(s.store, s.outcome.event) + 1 <= Cost(st, ev)
  {
  }

  /** Searching and extracting keep the depth and the limit. */
  lemma SearchShrinks(w: World, st: Store, ev: Event)
    requires ev.QueriesGenerated? || ev.ResultsCollected?
    ensures Shrinks(Flow(w), st, ev)
  {
  }

  /** A follow-up keeps its depth and uses the round it was counted with;
      compiling and the report end the chain. */
  lemma TailShrinks(w: World, st: Store, ev: Event)
    requires ev.FollowUpNeeded? || ev.AnalysisCompleted? || ev.ReportCompleted?
    ensures Shrinks(Flow(w), st, ev)
  {
  }

  /** With a handler table whose every step shrinks the bounds, a chain
      holds at most `Bound` follow-up rounds and handles at most `Cost`
      events; given that many steps of budget it always ends by itself,
      finished or failed. */
  lemma {:induction false} RunBounded(flow: (Store, Event) -> Step, st: Store, ev: Event, fuel: nat)
    requires forall st', ev' :: Shrinks(flow, st', ev')
    ensures FollowUps(Run(flow, st, ev, fuel).handled) <= Bound(st, ev)
    ensures |Run(flow, st, ev, fuel).handled| <= Cost(st, ev)
    ensures fuel >= Cost(st, ev) ==> !Run(flow, st, ev, fuel).end.OutOfFuel?
    decreases fuel
  {
    if fuel > 0 {
      var s := flow(st, ev);
      var t := Run(flow, st, ev, fuel);
      assert Shrinks(flow, st, ev);
      if s.outcome.Emitted? {
        var next := s.outcome.event;
        var rest := Run(flow, s.store, next, fuel - 1);
        RunBounded(flow, s.store, next, fuel - 1);
        assert t.handled == [ev] + rest.handled;
        assert t.handled[1..] == rest.handled;
      } else {
        assert t.handled == [ev];
        assert t.handled[1..] == [];
      }
    }
  }

  /** End to end: a POST /research whose body asks for depth D (2 when it
      asks for none) leads to at most max(D, 0) follow-up rounds, whatever
      the search engine, the scraper and the model answer, and with
      4·max(D, 0) + 6 steps of budget the flow ends by itself. */
  lemma ResearchIsBounded(w: World, st: Store, body: Option<Json>, traceId: string, fuel: nat)
    requires ResearchApi.Handle(body, traceId).Ok?
    ensures var ev := ResearchApi.Handle(body, traceId).value.1;
      var t := Run(Flow(w), st, ev, fuel);
      FollowUps(t.handled) <= Rounds(GenerateQueries.Depth(ev.maxDepth), 0) &&
      (fuel >= 4 * Rounds(GenerateQueries.Depth(ev.maxDepth), 0) + 6 ==> !t.end.OutOfFuel?)
    ensures body.None? || !HasKey(body.value.fields, "depth") ==>
      FollowUps(Run(Flow(w), st, ResearchApi.Handle(body, traceId).value.1, fuel).handled) <= 2
    ensures body.Some? && Get(body.value.fields, "depth").Some? && Get(body.value.fields, "depth").value.JNum? ==>
      var n := Get(body.value.fields, "depth").value.n;
      FollowUps(Run(Flow(w), st, ResearchApi.Handle(body, traceId).value.1, fuel).handled) <= if n > 0 then n else 0
  {
    var ev := ResearchApi.Handle(body, traceId).value.1;
    forall st', ev' ensures Shrinks(Flow(w), st', ev') {
      StepShrinks(w, st', ev');
    }
    RunBounded(Flow(w), st, ev, fuel);
  }
}
