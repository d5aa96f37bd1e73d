/** The deterministic part of the Motia pipeline's OpenAI client
    (services/openai_service.py): reading the completion, and assembling
    the text an analysis request sends. The completion itself and
    `json.loads` are parameters. */
module Llm {
  import opened Wrappers
  import opened Text
  import opened Json
  import opened Firecrawl

  /** `response.choices[0].message.content`, or the error the API call
      raised. */
  datatype Reply = Content(text: Option<string>) | ApiError(message: string)

  /** `json.loads`: a value, or the decode error. */
  type Parser = string -> Result<Json>

  /** Python's repr of lists and dicts in an f-string. */
  type Repr = Json -> string

  /** Each source contributes at most this many characters of content. */
  const ContentSlice := 5000
  /** The analysis text is cut beyond this many characters. */
  const TextBudget := 100000

  /** The completion text; None and "" are both rejected with the message of
      the calling operation. */
  function Completed(reply: Reply, whenEmpty: string): (r: Result<string>)
    ensures r.Ok? <==> reply.Content? && reply.text.Some? && reply.text.value != ""
    ensures r.Ok? ==> r.value == reply.text.value
    ensures reply.Content? && !r.Ok? ==> r == Err(whenEmpty)
  {
    match reply
    case ApiError(m) => Err(m)
    case Content(t) => if t.None? || t.value == "" then Err(whenEmpty) else Ok(t.value)
  }

  /** `generate_search_queries`: the "queries" member of the parsed
      completion, or [] when there is none. */
  function GenerateSearchQueries(reply: Reply, parse: Parser): (r: Result<Json>)
    ensures reply.Content? && (reply.text == None || reply.text == Some("")) ==>
      r == Err("No content returned from OpenAI")
    ensures r.Ok? ==> Completed(reply, "").Ok? && parse(reply.text.value).Ok? && parse(reply.text.value).value.JObj?
    ensures r.Ok? ==> var fields := parse(reply.text.value).value.fields;
      r.value == if HasKey(fields, "queries") then Get(fields, "queries").value else JArr([])
    ensures Completed(reply, "").Ok? && parse(reply.text.value).Ok? && parse(reply.text.value).value.JObj? ==> r.Ok?
    ensures Completed(reply, "").Ok? && parse(reply.text.value).Err? ==> r == parse(reply.text.value)
    ensures reply.ApiError? ==> r == Err(reply.message)
  {
    match Completed(reply, "No content returned from OpenAI")
    case Err(e) => Err(e)
    case Ok(text) =>
      match parse(text)
      case Err(e) => Err(e)
      case Ok(parsed) => GetOr(parsed, "queries", JArr([]))
  }

  /** The text before a source's content. */
  function BlockHeader(e: PyItem, repr: Repr): string {
    "SOURCE: " + PyShow(e.title) + "\nURL: " + PyShow(e.url) + "\nRELATED QUERY: " + Show(e.query, repr) + "\nCONTENT:\n"
  }

  /** One source's block; slicing a None content raises `TypeError`. */
  function SourceBlock(e: PyItem, repr: Repr): (r: Result<string>)
    ensures r.Ok? <==> e.content.Some?
    ensures r.Ok? ==> StartsWith(r.value, BlockHeader(e, repr))
    ensures r.Ok? ==> |r.value| <= |BlockHeader(e, repr)| + ContentSlice
  {
    match e.content
    case None => Err("TypeError: 'NoneType' object is not subscriptable")
    case Some(c) => Ok(BlockHeader(e, repr) + Take(c, ContentSlice))
  }

  /** Only the first 5000 characters of a source's content reach the model:
      two sources that agree on those give the same block. */
  lemma BlockSeesPrefixOnly(e: PyItem, c1: string, c2: string, repr: Repr)
    requires Take(c1, ContentSlice) == Take(c2, ContentSlice)
    ensures SourceBlock(e.(content := Some(c1)), repr) == SourceBlock(e.(content := Some(c2)), repr)
  {
    assert BlockHeader(e.(content := Some(c1)), repr) == BlockHeader(e.(content := Some(c2)), repr);
  }

  /** The blocks of all sources in input order, or the first `TypeError`. */
  function Blocks(items: seq<PyItem>, repr: Repr): (r: Result<seq<string>>)
    ensures r.Ok? <==> forall i :: 0 <= i < |items| ==> items[i].content.Some?
    ensures r.Ok? ==> |r.value| == |items|
    ensures r.Ok? ==> forall i :: 0 <= i < |items| ==> SourceBlock(items[i], repr) == Ok(r.value[i])
  {
    if |items| == 0 then Ok([])
    else
      match SourceBlock(items[0], repr)
      case Err(e) => Err(e)
      case Ok(b) =>
        match Blocks(items[1..], repr)
        case Err(e) => Err(e)
        case Ok(bs) =>
          BlocksCons(items, repr, b, bs);
          Ok([b] + bs)
  }

  /** The step of `Blocks`: the head's block before the tail's. */
  lemma BlocksCons(items: seq<PyItem>, repr: Repr, b: string, bs: seq<string>)
    requires |items| > 0 && SourceBlock(items[0], repr) == Ok(b)
    requires |bs| == |items| - 1 && forall i :: 0 <= i < |bs| ==> SourceBlock(items[1..][i], repr) == Ok(bs[i])
    ensures forall i :: 0 <= i < |items| ==> SourceBlock(items[i], repr) == Ok(([b] + bs)[i])
  {
    forall i | 0 <= i < |items| ensures SourceBlock(items[i], repr) == Ok(([b] + bs)[i]) {
      if i > 0 { assert items[i] == items[1..][i - 1]; }
    }
  }

  /** The 100,000-character cut, marked with "...". */
  function Budget(t: string): (r: string)
    ensures |r| <= TextBudget + 3
    ensures |t| <= TextBudget ==> r == t
    ensures |t| > TextBudget ==> r == t[..TextBudget] + "..."
  {
    if |t| > TextBudget then t[..TextBudget] + "..." else t
  }

  /** Cutting twice is cutting once. */
  lemma BudgetIdempotent(t: string)
    ensures Budget(Budget(t)) == Budget(t)
  {
    if |t| > TextBudget {
      assert Budget(t)[..TextBudget] == t[..TextBudget];
    }
  }

  /** `content_for_analysis`: the blocks joined by a blank line, then cut. */
  function AnalysisText(items: seq<PyItem>, repr: Repr): (r: Result<string>)
    ensures r.Ok? <==> forall i :: 0 <= i < |items| ==> items[i].content.Some?
    ensures r.Ok? ==> |r.value| <= TextBudget + 3
    ensures r.Ok? ==> r.value == Budget(Join("\n\n", Blocks(items, repr).value))
  {
    match Blocks(items, repr)
    case Err(e) => Err(e)
    case Ok(bs) => Ok(Budget(Join("\n\n", bs)))
  }

  /** Blocks keep input order: the text joined from the first `k` blocks
      opens the text joined from all of them. */
  lemma {:induction false} JoinKeepsOrder(sep: string, bs: seq<string>, k: nat)
    requires 1 <= k <= |bs|
    ensures StartsWith(Join(sep, bs), Join(sep, bs[..k]))
  {
    if k == |bs| {
      assert bs[..k] == bs;
    } else if k == 1 {
      assert bs[..k] == [bs[0]];
    } else {
      JoinKeepsOrder(sep, bs[1..], k - 1);
      assert bs[..k][1..] == bs[1..][..k - 1];
      var head := bs[0] + sep;
      var whole := Join(sep, bs[1..]);
      var part := Join(sep, bs[1..][..k - 1]);
      assert Join(sep, bs) == head + whole;
      assert Join(sep, bs[..k]) == head + part;
      assert (head + whole)[..|head + part|] == head + whole[..|part|];
    }
  }

  /** `analyze_content` and `generate_research_report` once the completion
      is in: an empty completion raises with the operation's message. */
  function ParsedReply(reply: Reply, parse: Parser, whenEmpty: string): (r: Result<Json>)
    ensures reply.Content? && (reply.text == None || reply.text == Some("")) ==> r == Err(whenEmpty)
    ensures r.Ok? ==> Completed(reply, whenEmpty).Ok? && r == parse(reply.text.value)
    ensures Completed(reply, whenEmpty).Ok? ==> r == parse(reply.text.value)
    ensures reply.ApiError? ==> r == Err(reply.message)
  {
    match Completed(reply, whenEmpty)
    case Err(e) => Err(e)
    case Ok(text) => parse(text)
  }

  const NoAnalysis := "No analysis returned from OpenAI"
  const NoReport := "No report returned from OpenAI"
}
