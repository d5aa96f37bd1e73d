/** The TypeScript Firecrawl client (services/firecrawl.service.ts). It
    differs from the Python one in JavaScript's `||` and `??` defaults, in
    `parseInt` for the concurrency limit, and in collecting results in the
    order extractions finish. */
module FirecrawlTs {
  import opened Wrappers
  import opened Text
  import opened Batching
  import opened Firecrawl

  type TsTarget = Target<string, string>
  type TsItem = Extracted<string, string, string>

  /** `f ?? ''`: null and undefined become the empty string. */
  function Nullish(f: Field): string {
    TextOr(f, "")
  }

  /** `f || fallback`: the empty string is falsy too. */
  function OrElse(f: Field, fallback: string): (r: string)
    ensures r == fallback <==> !f.Text? || f.s == "" || f.s == fallback
    ensures r != fallback ==> f.Text? && r == f.s
  {
    if f.Text? && f.s != "" then f.s else fallback
  }

  /** `new FirecrawlService(apiKey)`: the same rule as the Python client. */
  function ApiKeyTs(given: Option<string>, env: Option<string>): (r: Result<string>)
    ensures r == ApiKey(given, env)
    ensures r.Err? <==> given.GetOr("") == "" && env.GetOr("") == ""
  {
    ApiKey(given, env)
  }

  /** `search`: `(data || [])` then `??` on every field. */
  function Search(reply: SearchReply): (r: Result<seq<SearchResult<string>>>)
    ensures r.Err? <==> !reply.success
    ensures r.Err? ==> r.error == OrElse(reply.error, "Search failed")
    ensures r.Ok? && !reply.data.Docs? ==> r.value == []
    ensures r.Ok? && reply.data.Docs? ==> |r.value| == |reply.data.docs|
    ensures r.Ok? && reply.data.Docs? ==> forall i :: 0 <= i < |r.value| ==>
      r.value[i] == SearchResult(Nullish(reply.data.docs[i].url), Nullish(reply.data.docs[i].title),
                                 Nullish(reply.data.docs[i].description))
  {
    if !reply.success then Err(OrElse(reply.error, "Search failed"))
    else match reply.data
      case Docs(ds) =>
        Ok(seq(|ds|, i requires 0 <= i < |ds| =>
          SearchResult(Nullish(ds[i].url), Nullish(ds[i].title), Nullish(ds[i].description))))
      case _ => Ok([])
  }

  /** `extractContent`: `markdown || ''`. */
  function ExtractContent(reply: ScrapeReply): (r: Result<string>)
    ensures r.Ok? <==> reply.success
    ensures r.Err? ==> r.error == OrElse(reply.error, "Scrape failed")
    ensures r.Ok? ==> r.value == OrElse(reply.markdown, "")
  {
    if !reply.success then Err(OrElse(reply.error, "Scrape failed"))
    else Ok(OrElse(reply.markdown, ""))
  }

  /** One item of the batch: the `try` with an empty `catch`. */
  function ExtractOne(scrape: string -> ScrapeReply, t: TsTarget): (r: Option<TsItem>)
    ensures r.Some? <==> scrape(t.url).success
    ensures r.Some? ==> r.value == Extracted(t.url, t.title, OrElse(scrape(t.url).markdown, ""), t.query)
  {
    match ExtractContent(scrape(t.url))
    case Ok(c) => Some(Extracted(t.url, t.title, c, t.query))
    case Err(_) => None
  }

  /** A JavaScript number as `parseInt` can return it. */
  datatype Limit = NaN | Int(n: int)

  predicate IsHexDigit(c: char) {
    IsDigit(c) || 'a' <= c <= 'f' || 'A' <= c <= 'F'
  }

  function HexValue(c: char): nat
    requires IsHexDigit(c)
  {
    if IsDigit(c) then DigitValue(c)
    else if 'a' <= c <= 'f' then c as int - 'a' as int + 10
    else c as int - 'A' as int + 10
  }

  predicate IsRadixDigit(c: char, hex: bool) {
    if hex then IsHexDigit(c) else IsDigit(c)
  }

  /** The longest prefix of radix digits: `parseInt` ignores the rest. */
  function DigitRun(s: string, hex: bool): (r: string)
    ensures r <= s
    ensures forall i :: 0 <= i < |r| ==> IsRadixDigit(r[i], hex)
    ensures |r| < |s| ==> !IsRadixDigit(s[|r|], hex)
  {
    if |s| > 0 && IsRadixDigit(s[0], hex) then [s[0]] + DigitRun(s[1..], hex) else []
  }

  function RunValue(r: string, hex: bool): nat
    requires forall i :: 0 <= i < |r| ==> IsRadixDigit(r[i], hex)
  {
    if |r| == 0 then 0
    else
      var last := r[|r| - 1];
      assert IsRadixDigit(last, hex);
      var d := if hex then HexValue(last) else DigitValue(last);
      (if hex then 16 else 10) * RunValue(r[..|r| - 1], hex) + d
  }

  /** `parseInt(s)` with no radix: leading white space, an optional sign, a
      `0x` prefix selecting base 16, then as many digits as there are; no
      digit at all gives NaN. */
  function ParseIntJs(s: string): (r: Limit)
    ensures NoDigit(s) ==> r == NaN
  {
    NoDigitTrimLeft(s);
    ParseSignedJs(TrimLeft(s))
  }

  function ParseSignedJs(t: string): (r: Limit)
    ensures NoDigit(t) ==> r == NaN
  {
    if |t| > 0 && t[0] == '-' then
      match ParseUnsignedJs(t[1..])
      case Some(v) => Int(-(v as int))
      case None => NaN
    else if |t| > 0 && t[0] == '+' then
      match ParseUnsignedJs(t[1..])
      case Some(v) => Int(v)
      case None => NaN
    else
      match ParseUnsignedJs(t)
      case Some(v) => Int(v)
      case None => NaN
  }

  function ParseUnsignedJs(u: string): (r: Option<nat>)
    ensures NoDigit(u) ==> r == None
  {
    var hex := |u| >= 2 && u[0] == '0' && (u[1] == 'x' || u[1] == 'X');
    var run := DigitRun(if hex then u[2..] else u, hex);
    if |run| == 0 then None
    else
      assert hex || IsDigit(run[0]);
      Some(RunValue(run, hex))
  }

  lemma NoDigitTrimLeft(s: string)
    ensures NoDigit(s) ==> NoDigit(TrimLeft(s))
  {
    var t := TrimLeft(s);
    assert t == s[|s| - |t|..];
    if NoDigit(s) {
      forall i | 0 <= i < |t| ensures !IsDigit(t[i]) {
        assert t[i] == s[|s| - |t| + i];
      }
    }
  }

  lemma {:induction false} DigitRunOfDigits(s: string)
    requires AllDigits(s)
    ensures DigitRun(s, false) == s
  {
    if |s| > 0 {
      DigitRunOfDigits(s[1..]);
      assert [s[0]] + s[1..] == s;
    }
  }

  lemma {:induction false} RunValueDecimal(s: string)
    requires AllDigits(s)
    ensures RunValue(s, false) == DigitsValue(s)
  {
    if |s| > 0 {
      RunValueDecimal(s[..|s| - 1]);
    }
  }

  lemma UnsignedOfDigits(s: string)
    requires |s| > 0 && AllDigits(s)
    ensures ParseUnsignedJs(s) == Some(DigitsValue(s))
  {
    assert |s| >= 2 ==> IsDigit(s[1]);
    DigitRunOfDigits(s);
    RunValueDecimal(s);
  }

  /** `parseInt(String(n)) === n` for the decimal rendering of a count. */
  lemma ParseIntRendered(n: nat)
    ensures ParseIntJs(NatToString(n)) == Int(n)
  {
    var s := NatToString(n);
    assert IsDigit(s[0]);
    TrimLeftKeeps(s);
    UnsignedOfDigits(s);
    NatToStringValue(n);
  }

  /** `parseInt(process.env.FIRECRAWL_CONCURRENCY_LIMIT || '2')`. */
  function LimitFromEnv(env: Option<string>): (r: Limit)
    ensures env.None? || env == Some("") ==> r == Int(2)
    ensures env.Some? && env.value != "" ==> r == ParseIntJs(env.value)
  {
    var raw := if env.Some? && env.value != "" then env.value else "2";
    ParseIntRendered(2);
    assert NatToString(2) == "2";
    ParseIntJs(raw)
  }

  /** `for (i = 0; i < urls.length; i += limit)` ends: a NaN step leaves the
      loop after one empty slice, a step below one never does unless there
      is nothing to do. */
  predicate LoopEnds(urls: seq<TsTarget>, limit: Limit) {
    |urls| == 0 || limit.NaN? || limit.n >= 1
  }

  /** The order in which the items of each wave finished: one rearrangement
      per wave, chosen by the runtime. */
  predicate Arrival(waves: seq<seq<TsTarget>>, arrival: seq<seq<TsTarget>>) {
    |arrival| == |waves| && forall k :: 0 <= k < |waves| ==> multiset(arrival[k]) == multiset(waves[k])
  }

  /** `batchExtractContent` with the limit read: each wave's successes are
      pushed as they finish, waves one after another. */
  function BatchExtract(urls: seq<TsTarget>, limit: Limit, scrape: string -> ScrapeReply,
                        arrival: seq<seq<TsTarget>>): (r: seq<TsItem>)
    requires LoopEnds(urls, limit)
    requires limit.Int? && limit.n >= 1 ==> Arrival(Chunks(urls, limit.n), arrival)
    ensures |r| <= |urls|
    ensures limit.NaN? ==> r == []
    ensures limit.Int? ==> multiset(r) == multiset(FilterMap(t => ExtractOne(scrape, t), urls))
  {
    if |urls| == 0 || limit.NaN? then []
    else
      var f := t => ExtractOne(scrape, t);
      var ws := Chunks(urls, limit.n);
      var got := Concat(MapFilter(f, arrival));
      BatchPermutes(f, ws, arrival);
      ChunksConcat(urls, limit.n);
      FilterMapWaves(f, ws);
      assert |got| == |multiset(got)| == |multiset(FilterMap(f, urls))| == |FilterMap(f, urls)|;
      got
  }

  lemma BatchPermutes(f: TsTarget -> Option<TsItem>, ws: seq<seq<TsTarget>>, arrival: seq<seq<TsTarget>>)
    requires Arrival(ws, arrival)
    ensures multiset(Concat(MapFilter(f, arrival))) == multiset(Concat(MapFilter(f, ws)))
  {
    forall k | 0 <= k < |ws|
      ensures multiset(MapFilter(f, arrival)[k]) == multiset(MapFilter(f, ws)[k])
    {
      FilterMapPermutes(f, arrival[k], ws[k]);
    }
    ConcatPermutes(MapFilter(f, arrival), MapFilter(f, ws));
  }

  /** Results of an earlier wave come before those of a later one: the output
      is the waves' results laid end to end, each a rearrangement of the
      successes of its wave. */
  lemma BatchWaveOrder(urls: seq<TsTarget>, n: int, scrape: string -> ScrapeReply, arrival: seq<seq<TsTarget>>)
    requires |urls| > 0 && n >= 1 && Arrival(Chunks(urls, n), arrival)
    ensures var f := t => ExtractOne(scrape, t);
      var parts := MapFilter(f, arrival);
      BatchExtract(urls, Int(n), scrape, arrival) == Concat(parts) &&
      |parts| == |Chunks(urls, n)| &&
      forall k :: 0 <= k < |parts| ==> multiset(parts[k]) == multiset(FilterMap(f, Chunks(urls, n)[k]))
  {
    var f := t => ExtractOne(scrape, t);
    var ws := Chunks(urls, n);
    forall k | 0 <= k < |ws|
      ensures multiset(MapFilter(f, arrival)[k]) == multiset(FilterMap(f, ws[k]))
    {
      FilterMapPermutes(f, arrival[k], ws[k]);
    }
  }

  /** The whole coordinator. A failing item is dropped silently; when every
      scrape fails the result is empty. */
  lemma BatchAllFail(urls: seq<TsTarget>, limit: Limit, scrape: string -> ScrapeReply, arrival: seq<seq<TsTarget>>)
    requires LoopEnds(urls, limit)
    requires limit.Int? && limit.n >= 1 ==> Arrival(Chunks(urls, limit.n), arrival)
    requires forall i :: 0 <= i < |urls| ==> !scrape(urls[i].url).success
    ensures BatchExtract(urls, limit, scrape, arrival) == []
  {
    if limit.Int? {
      FilterMapNone(t => ExtractOne(scrape, t), urls);
    }
  }
}
