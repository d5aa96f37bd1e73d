/** The scraper replies every Firecrawl client reads, the extraction targets
    and results they pass around, and the Motia-side Python client
    (services/firecrawl_service.py). */
module Firecrawl {
  import opened Wrappers
  import opened Text
  import opened Batching
  import opened Json

  /** One key of a provider reply: absent, present but null, or a string. */
  datatype Field = Missing | Null | Text(s: string)

  /** The `data` member of a search reply. */
  datatype DocList = NoData | NullData | Docs(docs: seq<Doc>)

  datatype Doc = Doc(url: Field, title: Field, description: Field)

  /** `success` is read for its truthiness only, so a flag is enough. */
  datatype SearchReply = SearchReply(success: bool, data: DocList, error: Field)

  datatype ScrapeReply = ScrapeReply(success: bool, markdown: Field, error: Field)

  /** A normalised search hit; `S` is `string` for the TypeScript client and
      `Option<string>` (None being Python's None) for the Python clients. */
  datatype SearchResult<S> = SearchResult(url: S, title: S, snippet: S)

  /** An extraction request: a url and title of type `S`, and the query that
      found it, of type `Q`. */
  datatype Target<S, Q> = Target(url: S, title: S, query: Q)

  /** A target with the text scraped from it. */
  datatype Extracted<S, C, Q> = Extracted(url: S, title: S, content: C, query: Q)

  /** The Motia pipeline's targets: url and title straight from
      `result.get(...)` (so possibly None) and the query as the model
      produced it. */
  type PyTarget = Target<Option<string>, Json>
  type PyItem = Extracted<Option<string>, Option<string>, Json>

  /** A scraper reply for each url it can be asked about. */
  type PyScraper = Option<string> -> ScrapeReply

  /** `d.get(k, "")`: the stored value when the key is there, even a null. */
  function PyGet(f: Field): (r: Option<string>)
    ensures r == None <==> f.Null?
    ensures f.Missing? ==> r == Some("")
  {
    match f
    case Missing => Some("")
    case Null => None
    case Text(s) => Some(s)
  }

  /** Python `str()` of a string-or-None value. */
  function PyShow(v: Option<string>): (r: string)
    ensures v.Some? ==> r == v.value
    ensures v.None? ==> r == "None"
  {
    match v
    case Some(s) => s
    case None => "None"
  }

  /** A string member, or `absent` when it is missing or null. */
  function TextOr(f: Field, absent: string): (r: string)
    ensures f.Text? ==> r == f.s
    ensures !f.Text? ==> r == absent
  {
    if f.Text? then f.s else absent
  }

  /** `d.get(k, default)` used as an exception argument. */
  function PyMessage(f: Field, default: string): (r: string)
    ensures f.Text? ==> r == f.s
    ensures f.Missing? ==> r == default
    ensures f.Null? ==> r == "None"
  {
    match f
    case Missing => default
    case Null => "None"
    case Text(s) => s
  }

  /** `api_key or os.getenv(...)`; an empty string counts as absent. */
  function ApiKey(given: Option<string>, env: Option<string>): (r: Result<string>)
    ensures r.Ok? <==> (given.Some? && given.value != "") || (env.Some? && env.value != "")
    ensures r.Ok? ==> r.value != "" && (r.value == given.GetOr("") || r.value == env.GetOr(""))
    ensures given.Some? && given.value != "" ==> r == Ok(given.value)
    ensures r.Err? ==> r.error == "Firecrawl API key not set"
  {
    if given.Some? && given.value != "" then Ok(given.value)
    else if env.Some? && env.value != "" then Ok(env.value)
    else Err("Firecrawl API key not set")
  }

  function PyResult(d: Doc): SearchResult<Option<string>> {
    SearchResult(PyGet(d.url), PyGet(d.title), PyGet(d.description))
  }

  /** `FirecrawlService.search` once the reply is in. */
  function Search(reply: SearchReply): (r: Result<seq<SearchResult<Option<string>>>>)
    ensures !reply.success ==> r == Err(PyMessage(reply.error, "Search failed"))
    ensures reply.success && reply.data.NoData? ==> r == Ok([])
    ensures reply.success && reply.data.NullData? ==> r.Err?
    ensures reply.success && reply.data.Docs? ==> r.Ok? && |r.value| == |reply.data.docs|
    ensures r.Ok? && reply.data.Docs? ==> forall i :: 0 <= i < |r.value| ==>
      r.value[i].snippet == PyGet(reply.data.docs[i].description) &&
      r.value[i].url == PyGet(reply.data.docs[i].url) &&
      r.value[i].title == PyGet(reply.data.docs[i].title)
  {
    if !reply.success then Err(PyMessage(reply.error, "Search failed"))
    else match reply.data
      case NoData => Ok([])
      case NullData => Err("TypeError: 'NoneType' object is not iterable")
      case Docs(ds) => Ok(seq(|ds|, i requires 0 <= i < |ds| => PyResult(ds[i])))
  }

  /** `FirecrawlService.extract_content` once the reply is in. */
  function ExtractContent(reply: ScrapeReply): (r: Result<Option<string>>)
    ensures r.Ok? <==> reply.success
    ensures r.Err? ==> r.error == PyMessage(reply.error, "Scrape failed")
    ensures r.Ok? ==> r.value == PyGet(reply.markdown)
  {
    if !reply.success then Err(PyMessage(reply.error, "Scrape failed"))
    else Ok(PyGet(reply.markdown))
  }

  /** `_extract_single`: any failure becomes None. */
  function ExtractSingle<S, Q>(scrape: S -> ScrapeReply, t: Target<S, Q>): (r: Option<Extracted<S, Option<string>, Q>>)
    ensures r.Some? <==> scrape(t.url).success
    ensures r.Some? ==> r.value == Extracted(t.url, t.title, PyGet(scrape(t.url).markdown), t.query)
  {
    match ExtractContent(scrape(t.url))
    case Ok(c) => Some(Extracted(t.url, t.title, c, t.query))
    case Err(_) => None
  }

  /** `int(os.getenv("FIRECRAWL_CONCURRENCY_LIMIT", "2"))`. */
  function ConcurrencyLimit(env: Option<string>): (r: Result<int>)
    ensures env.None? ==> r == Ok(2)
    ensures env.Some? ==> (r.Ok? <==> ParseInt(env.value).Some?)
    ensures env.Some? && r.Ok? ==> r.value == ParseInt(env.value).value
  {
    match env
    case None => Ok(2)
    case Some(s) =>
      match ParseInt(s)
      case Some(n) => Ok(n)
      case None => Err("ValueError: invalid literal for int()")
  }

  /** The waves of `range(0, len(xs), c)` with Python's rules for the step:
      zero raises, a negative step gives no wave at all. */
  function Waves<T>(xs: seq<T>, c: int): (r: Result<seq<seq<T>>>)
    ensures r.Err? <==> c == 0
    ensures c < 0 ==> r == Ok([])
    ensures c > 0 ==> r.Ok? && Concat(r.value) == xs
    ensures c > 0 ==> r.Ok? && forall k :: 0 <= k < |r.value| ==>
      Offset(k, c) < |xs| && r.value[k] == Window(xs, Offset(k, c), c)
  {
    if c == 0 then Err("ValueError: range() arg 3 must not be zero")
    else if c < 0 then Ok([])
    else
      var ws := Chunks(xs, c);
      ChunksConcat(xs, c);
      forall k | 0 <= k < |ws|
        ensures Offset(k, c) < |xs| && ws[k] == Window(xs, Offset(k, c), c)
      {
        ChunkIsSlice(xs, c, k);
      }
      Ok(ws)
  }

  /** `batch_extract_content` with the limit already read. */
  function BatchExtract(targets: seq<PyTarget>, c: int, scrape: PyScraper): (r: Result<seq<PyItem>>)
    ensures r.Err? <==> c == 0
    ensures c < 0 ==> r == Ok([])
    ensures c > 0 ==> r == Ok(FilterMap(t => ExtractSingle(scrape, t), targets))
  {
    match Waves(targets, c)
    case Err(e) => Err(e)
    case Ok(ws) =>
      var f := t => ExtractSingle(scrape, t);
      FilterMapWaves(f, ws);
      Ok(Concat(MapFilter(f, ws)))
  }

  /** The whole coordinator, environment lookup included. */
  function BatchExtractFromEnv(targets: seq<PyTarget>, env: Option<string>, scrape: PyScraper): (r: Result<seq<PyItem>>)
    ensures env.None? ==> r == Ok(FilterMap(t => ExtractSingle(scrape, t), targets))
  {
    match ConcurrencyLimit(env)
    case Err(e) => Err(e)
    case Ok(c) => BatchExtract(targets, c, scrape)
  }

  /** `e` is what a successful scrape of `t` turns into. */
  predicate Scraped(scrape: PyScraper, t: PyTarget, e: PyItem) {
    scrape(t.url).success && e == Extracted(t.url, t.title, PyGet(scrape(t.url).markdown), t.query)
  }

  /** Every result is a target that scraped successfully, carrying that
      target's url, title and query; every such target yields one; and when
      every scrape fails nothing comes back and nothing is raised. */
  lemma BatchExtractKeeps(targets: seq<PyTarget>, c: int, scrape: PyScraper)
    requires c > 0
    ensures BatchExtract(targets, c, scrape).Ok?
    ensures var out := BatchExtract(targets, c, scrape).value;
      |out| <= |targets| &&
      (forall e :: e in out ==> exists i :: 0 <= i < |targets| && Scraped(scrape, targets[i], e)) &&
      (forall i :: 0 <= i < |targets| && scrape(targets[i].url).success ==>
         Extracted(targets[i].url, targets[i].title, PyGet(scrape(targets[i].url).markdown), targets[i].query) in out)
    ensures (forall i :: 0 <= i < |targets| ==> !scrape(targets[i].url).success) ==>
      BatchExtract(targets, c, scrape) == Ok([])
  {
    var f := t => ExtractSingle(scrape, t);
    FilterMapMembers(f, targets);
    if forall i :: 0 <= i < |targets| ==> !scrape(targets[i].url).success {
      FilterMapNone(f, targets);
    }
  }
}
