/** The search-results-collected subscriber
    (steps/extract_content_step.py): one extraction target per search hit,
    scrape them all in waves, keep the full texts in the store and send
    them on cut to 10,000 characters each. */
module ExtractStep {
  import opened Wrappers
  import opened Text
  import opened Batching
  import opened Json
  import opened Firecrawl
  import opened Llm
  import opened Motia

  /** `MAX_CONTENT_LENGTH` and the marker appended to a cut text. */
  const MaxContent := 10000
  const Marker := "\n... (content truncated)"

  /** The targets of one entry: each hit's url and title with the entry's
      query. */
  function TargetsOf(e: SearchEntry): (r: seq<PyTarget>)
    ensures |r| == |e.results|
    ensures forall j :: 0 <= j < |r| ==> r[j] == Target(e.results[j].url, e.results[j].title, e.query)
  {
    seq(|e.results|, j requires 0 <= j < |e.results| => Target(e.results[j].url, e.results[j].title, e.query))
  }

  /** The nested loop over entries and their hits. */
  function Flatten(es: seq<SearchEntry>): seq<PyTarget> {
    if |es| == 0 then [] else TargetsOf(es[0]) + Flatten(es[1..])
  }

  function CountHits(es: seq<SearchEntry>): nat {
    if |es| == 0 then 0 else |es[0].results| + CountHits(es[1..])
  }

  lemma {:induction false} CountHitsAppend(a: seq<SearchEntry>, b: seq<SearchEntry>)
    ensures CountHits(a + b) == CountHits(a) + CountHits(b)
  {
    if |a| == 0 {
      assert a + b == b;
    } else {
      assert (a + b)[1..] == a[1..] + b;
      CountHitsAppend(a[1..], b);
    }
  }

  /** Hit `j` of entry `i` becomes target number (hits before entry `i`) +
      `j`: one target per hit, in order, each tagged with its own entry's
      query. */
  lemma {:induction false} FlattenAt(es: seq<SearchEntry>, i: nat, j: nat)
    requires i < |es| && j < |es[i].results|
    ensures |Flatten(es)| == CountHits(es)
    ensures CountHits(es[..i]) + j < |Flatten(es)|
    ensures Flatten(es)[CountHits(es[..i]) + j] == Target(es[i].results[j].url, es[i].results[j].title, es[i].query)
  {
    FlattenCount(es);
    if i == 0 {
      assert es[..i] == [];
    } else {
      FlattenAt(es[1..], i - 1, j);
      assert es[..i] == [es[0]] + es[1..][..i - 1];
      CountHitsAppend([es[0]], es[1..][..i - 1]);
      assert CountHits([es[0]]) == |es[0].results| by {
        assert [es[0]][1..] == [];
      }
    }
  }

  lemma {:induction false} FlattenCount(es: seq<SearchEntry>)
    ensures |Flatten(es)| == CountHits(es)
  {
    if |es| > 0 {
      FlattenCount(es[1..]);
    }
  }

  /** The cut applied to one item before it goes on the event. Measuring a
      None content raises `TypeError`. */
  function Truncate(e: PyItem): (r: Result<PyItem>)
    ensures r.Ok? <==> e.content.Some?
    ensures r.Ok? ==> r.value.url == e.url && r.value.title == e.title && r.value.query == e.query
    ensures r.Ok? ==> r.value.content.Some? && |r.value.content.value| <= MaxContent + |Marker|
    ensures r.Ok? && |e.content.value| <= MaxContent ==> r.value == e
    ensures r.Ok? && |e.content.value| > MaxContent ==>
      StartsWith(r.value.content.value, e.content.value[..MaxContent]) && EndsWith(r.value.content.value, Marker) &&
      |r.value.content.value| == MaxContent + |Marker|
  {
    match e.content
    case None => Err("TypeError: object of type 'NoneType' has no len()")
    case Some(c) =>
      if |c| > MaxContent then Ok(e.(content := Some(c[..MaxContent] + Marker))) else Ok(e)
  }

  /** Cutting an already cut item changes nothing. */
  lemma TruncateIdempotent(e: PyItem)
    requires e.content.Some?
    ensures Truncate(Truncate(e).value) == Truncate(e)
  {
    var c := e.content.value;
    if |c| > MaxContent {
      assert (c[..MaxContent] + Marker)[..MaxContent] == c[..MaxContent];
    }
  }

  /** The cut keeps the first 10,000 characters, more than the 5,000 the
      analysis reads: an analysis block built from the cut item is the
      block of the full one. */
  lemma TruncateInvisibleToAnalysis(e: PyItem, repr: Repr)
    requires e.content.Some?
    ensures SourceBlock(Truncate(e).value, repr) == SourceBlock(e, repr)
  {
    var c := e.content.value;
    if |c| > MaxContent {
      var t := c[..MaxContent] + Marker;
      assert Take(t, ContentSlice) == Take(c, ContentSlice) by {
        assert t[..ContentSlice] == c[..ContentSlice];
      }
      BlockSeesPrefixOnly(e, t, c, repr);
      assert e.(content := Some(c)) == e;
    }
  }

  /** The loop building `truncated_contents`. */
  function TruncateAll(items: seq<PyItem>): (r: Result<seq<PyItem>>)
    ensures r.Ok? <==> forall i :: 0 <= i < |items| ==> items[i].content.Some?
    ensures r.Ok? ==> |r.value| == |items|
    ensures r.Ok? ==> forall i :: 0 <= i < |items| ==> Truncate(items[i]) == Ok(r.value[i])
  {
    if |items| == 0 then Ok([])
    else
      match Truncate(items[0])
      case Err(e) => Err(e)
      case Ok(t) =>
        match TruncateAll(items[1..])
        case Err(e) => Err(e)
        case Ok(ts) =>
          assert forall i :: 1 <= i < |items| ==> items[i] == items[1..][i - 1];
          Ok([t] + ts)
  }

  /** The analysis text built from the event's cut items is the one built
      from the full items the store keeps, so it does not matter which of
      the two the analysis step falls back on. */
  lemma AnalysisSeesNoCut(items: seq<PyItem>, repr: Repr)
    requires TruncateAll(items).Ok?
    ensures AnalysisText(TruncateAll(items).value, repr) == AnalysisText(items, repr)
  {
    var cut := TruncateAll(items).value;
    forall i | 0 <= i < |items|
      ensures SourceBlock(cut[i], repr) == SourceBlock(items[i], repr)
    {
      TruncateInvisibleToAnalysis(items[i], repr);
    }
    var a := Blocks(cut, repr);
    var b := Blocks(items, repr);
    assert a.Ok? && b.Ok?;
    assert a.value == b.value by {
      forall i | 0 <= i < |items|
        ensures a.value[i] == b.value[i]
      {
        assert SourceBlock(cut[i], repr) == Ok(a.value[i]);
        assert SourceBlock(items[i], repr) == Ok(b.value[i]);
      }
    }
  }

  /** The handler: the key check, the extraction, and the cut, in that
      order; any of them raising ends the step before the store is
      written. */
  function Handle(w: World, st: Store, entries: seq<SearchEntry>, requestId: string, originalQuery: Json, depth: int): (r: Step)
    ensures ApiKey(None, w.firecrawlKey).Err? ==> r.outcome.Raised?
    ensures ApiKey(None, w.firecrawlKey).Ok? ==> (r.outcome.Raised? <==>
      BatchExtractFromEnv(Flatten(entries), w.concurrency, w.scrape).Err? ||
      TruncateAll(BatchExtractFromEnv(Flatten(entries), w.concurrency, w.scrape).value).Err?)
    ensures !r.outcome.Quiet?
    ensures r.outcome.Raised? ==> r.store == st
    ensures r.outcome.Emitted? ==> r.outcome.event.ContentExtracted? && r.outcome.event.depth == depth
    ensures r.outcome.Emitted? ==> r.outcome.event.requestId == requestId && r.outcome.event.originalQuery == originalQuery
    ensures r.outcome.Emitted? ==> depth in r.store.extracted && TruncateAll(r.store.extracted[depth]) == Ok(r.outcome.event.contents)
    ensures r.outcome.Emitted? ==> r.store == st.(extracted := st.extracted[depth := r.store.extracted[depth]])
    ensures r.outcome.Emitted? && w.concurrency.None? ==>
      r.store.extracted[depth] == FilterMap(t => ExtractSingle(w.scrape, t), Flatten(entries))
  {
    match ApiKey(None, w.firecrawlKey)
    case Err(e) => Step(st, Raised(e))
    case Ok(_) =>
      match BatchExtractFromEnv(Flatten(entries), w.concurrency, w.scrape)
      case Err(e) => Step(st, Raised(e))
      case Ok(items) =>
        match TruncateAll(items)
        case Err(e) => Step(st, Raised(e))
        case Ok(cut) =>
          Step(st.(extracted := st.extracted[depth := items]),
               Emitted(ContentExtracted(cut, requestId, originalQuery, depth)))
  }
}
