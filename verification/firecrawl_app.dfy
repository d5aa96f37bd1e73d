/** The Firecrawl client of the Celery application
    (app/services/firecrawl_service.py): failures carry a "… failed: <error>"
    message, the limit and the pause come from the settings, and the batch
    loop pauses between waves. */
module AppFirecrawl {
  import opened Wrappers
  import opened Batching
  import opened Firecrawl

  /** `settings.firecrawl_concurrency_limit` and
      `settings.firecrawl_batch_delay_ms` when nothing overrides them. */
  const DefaultLimit := 2
  const DefaultDelayMs := 2000

  type AppTarget = Target<string, string>
  type AppItem = Extracted<string, Option<string>, string>

  /** `f"{response.get('error')}"`: an absent key renders as None. */
  function ErrorText(f: Field): string {
    TextOr(f, "None")
  }

  function Search(reply: SearchReply): (r: Result<seq<SearchResult<Option<string>>>>)
    ensures !reply.success ==> r == Err("Search failed: " + ErrorText(reply.error))
    ensures reply.success ==> r == Firecrawl.Search(reply)
  {
    if !reply.success then Err("Search failed: " + ErrorText(reply.error))
    else Firecrawl.Search(reply)
  }

  function ExtractContent(reply: ScrapeReply): (r: Result<Option<string>>)
    ensures r.Ok? <==> reply.success
    ensures r.Err? ==> r.error == "Extraction failed: " + ErrorText(reply.error)
    ensures r.Ok? ==> r.value == PyGet(reply.markdown)
  {
    if !reply.success then Err("Extraction failed: " + ErrorText(reply.error))
    else Ok(PyGet(reply.markdown))
  }

  /** One item of a wave: an exception from `gather` is logged and skipped,
      so only whether the scrape succeeded matters, not the message, and the
      item is the one the Motia client builds. */
  function Keep(scrape: string -> ScrapeReply): AppTarget -> Option<AppItem> {
    t => ExtractSingle(scrape, t)
  }

  /** What the batch loop does, in order: scrape a wave, or pause. */
  datatype Activity = Scrape(wave: seq<AppTarget>) | Sleep(ms: int)

  /** The intended schedule: the waves in order with one pause between two
      consecutive waves and none after the last. */
  function Schedule(ws: seq<seq<AppTarget>>, ms: int): seq<Activity>
  {
    if |ws| == 0 then []
    else if |ws| == 1 then [Scrape(ws[0])]
    else [Scrape(ws[0]), Sleep(ms)] + Schedule(ws[1..], ms)
  }

  /** The schedule has a wave for every wave and a pause between each two. */
  lemma {:induction false} ScheduleLength(ws: seq<seq<AppTarget>>, ms: int)
    ensures |Schedule(ws, ms)| == if |ws| == 0 then 0 else 2 * |ws| - 1
  {
    if |ws| > 1 {
      ScheduleLength(ws[1..], ms);
    }
  }

  /** Position `2k` is wave `k` and every odd position is a pause, so the
      schedule starts and ends with a wave. */
  lemma {:induction false} ScheduleAlternates(ws: seq<seq<AppTarget>>, ms: int, p: nat)
    requires p < |Schedule(ws, ms)|
    ensures p / 2 < |ws|
    ensures p % 2 == 0 ==> Schedule(ws, ms)[p] == Scrape(ws[p / 2])
    ensures p % 2 == 1 ==> Schedule(ws, ms)[p] == Sleep(ms)
  {
    ScheduleLength(ws, ms);
    if p >= 2 {
      ScheduleAlternates(ws[1..], ms, p - 2);
      assert Schedule(ws, ms)[p] == Schedule(ws[1..], ms)[p - 2];
      assert (p - 2) / 2 + 1 == p / 2;
    }
  }

  /** `batch_extract_content` with the settings read: the results, and the
      waves and pauses it went through. A zero limit raises in `range`. */
  method BatchExtract(urls: seq<AppTarget>, c: int, delayMs: int, scrape: string -> ScrapeReply)
    returns (r: Result<seq<AppItem>>, log: seq<Activity>)
    ensures r.Err? <==> c == 0
    ensures c < 0 ==> r == Ok([]) && log == []
    ensures c > 0 ==> r == Ok(FilterMap(Keep(scrape), urls))
    ensures c > 0 ==> log == Schedule(Chunks(urls, c), delayMs)
  {
    if c == 0 {
      return Err("ValueError: range() arg 3 must not be zero"), [];
    }
    if c < 0 {
      return Ok([]), [];
    }
    var f := Keep(scrape);
    var results: seq<AppItem> := [];
    log := [];
    var i := 0;
    while i < |urls|
      invariant 0 <= i <= |urls|
      invariant results == FilterMap(f, urls[..i])
      invariant log + Schedule(Chunks(urls[i..], c), delayMs) == Schedule(Chunks(urls, c), delayMs)
      decreases |urls| - i
    {
      var got, step, hi := Turn(urls, i, c, delayMs, scrape);
      ghost var later := Schedule(Chunks(urls[hi..], c), delayMs);
      assert (log + step) + later == log + (step + later);
      results := results + got;
      log := log + step;
      i := hi;
    }
    assert urls[..i] == urls;
    return Ok(results), log;
  }

  /** The body of the loop at offset `i`: scrape one wave, pause if input
      remains. */
  method Turn(urls: seq<AppTarget>, i: nat, c: nat, delayMs: int, scrape: string -> ScrapeReply)
    returns (got: seq<AppItem>, step: seq<Activity>, hi: nat)
    requires c >= 1 && i < |urls|
    ensures i < hi <= |urls|
    ensures FilterMap(Keep(scrape), urls[..hi]) == FilterMap(Keep(scrape), urls[..i]) + got
    ensures Schedule(Chunks(urls[i..], c), delayMs) == step + Schedule(Chunks(urls[hi..], c), delayMs)
  {
    var f := Keep(scrape);
    hi := if i + c <= |urls| then i + c else |urls|;
    var batch := urls[i..hi];
    WaveStep(urls, i, c, delayMs);
    FilterMapConcat(f, urls[..i], batch);
    assert urls[..hi] == urls[..i] + batch;
    got := FilterMap(f, batch);
    step := [Scrape(batch)];
    if i + c < |urls| {
      step := step + [Sleep(delayMs)];
    }
  }

  /** One turn of the loop at offset `i`: the wave it scrapes, then a pause
      exactly when input remains. */
  lemma WaveStep(urls: seq<AppTarget>, i: nat, c: nat, ms: int)
    requires c >= 1 && i < |urls|
    ensures var hi := if i + c <= |urls| then i + c else |urls|;
      Schedule(Chunks(urls[i..], c), ms) ==
        [Scrape(urls[i..hi])] + (if i + c < |urls| then [Sleep(ms)] else []) + Schedule(Chunks(urls[hi..], c), ms)
  {
    var rest := urls[i..];
    var hi := if i + c <= |urls| then i + c else |urls|;
    if i + c < |urls| {
      assert rest[c..] == urls[i + c..];
      assert rest[..c] == urls[i..hi];
      assert Chunks(rest, c) == [urls[i..hi]] + Chunks(urls[i + c..], c);
      assert Chunks(rest, c)[1..] == Chunks(urls[i + c..], c);
    } else {
      assert rest == urls[i..hi];
      assert urls[hi..] == [];
    }
  }

  /** The pause rule of the loop: there is one pause fewer than there are
      waves, so a single wave, or no input, never sleeps. */
  lemma {:induction false} PausesBetweenWaves(ws: seq<seq<AppTarget>>, ms: int)
    ensures |ws| <= 1 ==> forall a :: a in Schedule(ws, ms) ==> a.Scrape?
    ensures |ws| >= 1 ==> CountSleeps(Schedule(ws, ms)) == |ws| - 1
  {
    if |ws| > 1 {
      PausesBetweenWaves(ws[1..], ms);
      var tail := Schedule(ws[1..], ms);
      CountSleepsAppend([Scrape(ws[0]), Sleep(ms)], tail);
    }
  }

  function CountSleeps(log: seq<Activity>): nat {
    if |log| == 0 then 0 else (if log[0].Sleep? then 1 else 0) + CountSleeps(log[1..])
  }

  lemma {:induction false} CountSleepsAppend(a: seq<Activity>, b: seq<Activity>)
    ensures CountSleeps(a + b) == CountSleeps(a) + CountSleeps(b)
  {
    if |a| == 0 {
      assert a + b == b;
    } else {
      assert (a + b)[0] == a[0];
      assert (a + b)[1..] == a[1..] + b;
      CountSleepsAppend(a[1..], b);
    }
  }
}
