/** The source-details endpoint (steps/source_details_api_step.py): scrape
    the source's url and derive, line by line from the markdown, a title,
    an abstract, the lines that mention figures and the fenced code blocks.
    The fence rules are the handler's own, not CommonMark's. */
module SourceDetails {
  import opened Wrappers
  import opened Text

  /** The page's markdown as the scraper service hands it over (`None` when
      the reply carried a null), or the exception it raised. */
  datatype Fetched = Got(content: Option<string>) | Threw(valueError: bool, message: string)

  /** A figure mention or a code block: the 0-based line it starts on, and
      its stripped text or its code. */
  datatype Entry = Entry(line: nat, text: string)

  datatype Metadata = Metadata(
    title: string, url: string, abstractText: string, pdfLink: Option<string>,
    figures: seq<Entry>, pseudocodeBlocks: seq<Entry>, fullContent: string)

  datatype Body =
    | Info(message: string)
    | Failure(message: string, error: string)
    | Details(message: string, sourceId: string, metadata: Metadata)

  datatype Reply = Reply(status: int, body: Body)

  const TitleLines := 10
  const AbstractLimit := 1000
  const MaxFigures := 5
  const MaxBlocks := 3
  const ContentLimit := 5000
  const Fence := "```"

  // ---------------------------------------------------------------- title

  /** A line that can be the title: once stripped, non-empty, not a
      heading, and longer than 10 characters. */
  predicate TitleLine(line: string) {
    var s := Strip(line);
    s != "" && !StartsWith(s, "#") && |s| > 10
  }

  function FirstTitle(lines: seq<string>): string {
    if |lines| == 0 then ""
    else if TitleLine(lines[0]) then Strip(lines[0])
    else FirstTitle(lines[1..])
  }

  /** The title: the stripped form of the first title line among the first
      10 lines, or "" when there is none. */
  function Title(lines: seq<string>): (r: string)
    ensures r == "" <==> forall i :: 0 <= i < |lines| && i < TitleLines ==> !TitleLine(lines[i])
    ensures r != "" ==> exists i :: (0 <= i < |lines| && i < TitleLines && TitleLine(lines[i]) && r == Strip(lines[i])
      && forall j :: 0 <= j < i ==> !TitleLine(lines[j]))
  {
    HeadTitle(lines);
    FirstTitle(Take(lines, TitleLines))
  }

  /** `FirstTitleFinds` on the first 10 lines, read back on the whole list. */
  lemma HeadTitle(lines: seq<string>)
    ensures var r := FirstTitle(Take(lines, TitleLines));
      (r == "" <==> forall i :: 0 <= i < |lines| && i < TitleLines ==> !TitleLine(lines[i])) &&
      (r != "" ==> exists i :: (0 <= i < |lines| && i < TitleLines && TitleLine(lines[i]) && r == Strip(lines[i])
        && forall j :: 0 <= j < i ==> !TitleLine(lines[j])))
  {
    HeadTitleNone(lines);
    HeadTitleSome(lines);
  }

  lemma HeadTitleNone(lines: seq<string>)
    ensures FirstTitle(Take(lines, TitleLines)) == "" <==> forall i :: 0 <= i < |lines| && i < TitleLines ==> !TitleLine(lines[i])
  {
    var head := Take(lines, TitleLines);
    FirstTitleFinds(head);
    HeadAgrees(lines, head);
  }

  lemma HeadTitleSome(lines: seq<string>)
    ensures var r := FirstTitle(Take(lines, TitleLines));
      r != "" ==> exists i :: (0 <= i < |lines| && i < TitleLines && TitleLine(lines[i]) && r == Strip(lines[i])
        && forall j :: 0 <= j < i ==> !TitleLine(lines[j]))
  {
    var head := Take(lines, TitleLines);
    var k := FirstIndex(head, TitleLine);
    FirstTitleAt(head);
    if k < |head| {
      assert head[k] == lines[k];
      forall j | 0 <= j < k ensures !TitleLine(lines[j]) {
        assert head[j] == lines[j];
      }
      assert 0 <= k < |lines| && k < TitleLines && TitleLine(lines[k]);
    }
  }

  /** A prefix of the lines says the same about each of its indices. */
  lemma HeadAgrees(lines: seq<string>, head: seq<string>)
    requires |head| <= |lines| && head == lines[..|head|]
    ensures forall i :: 0 <= i < |head| ==> TitleLine(head[i]) == TitleLine(lines[i]) && Strip(head[i]) == Strip(lines[i])
  {
    forall i | 0 <= i < |head| ensures head[i] == lines[i] {
    }
  }

  /** The index of the first element satisfying `p`, or the length when
      none does. */
  function FirstIndex<T>(xs: seq<T>, p: T -> bool): (k: nat)
    ensures k <= |xs|
    ensures k < |xs| ==> p(xs[k])
    ensures forall j :: 0 <= j < k ==> !p(xs[j])
  {
    if |xs| == 0 || p(xs[0]) then 0
    else
      var k := FirstIndex(xs[1..], p);
      assert forall j :: 1 <= j < k + 1 ==> xs[j] == xs[1..][j - 1];
      k + 1
  }

  /** The scan returns the stripped line at the first title index. */
  lemma {:induction false} FirstTitleAt(lines: seq<string>)
    ensures var k := FirstIndex(lines, TitleLine);
      FirstTitle(lines) == if k < |lines| then Strip(lines[k]) else ""
  {
    if |lines| > 0 && !TitleLine(lines[0]) {
      FirstTitleAt(lines[1..]);
      var k := FirstIndex(lines[1..], TitleLine);
      assert FirstIndex(lines, TitleLine) == k + 1;
      if k < |lines| - 1 {
        assert lines[k + 1] == lines[1..][k];
      }
    }
  }

  /** Over the whole list, the scan finds "" exactly when no line qualifies,
      and otherwise the stripped text of the first qualifying line. */
  lemma FirstTitleFinds(lines: seq<string>)
    ensures FirstTitle(lines) == "" <==> forall i :: 0 <= i < |lines| ==> !TitleLine(lines[i])
    ensures FirstTitle(lines) != "" ==> exists i :: (0 <= i < |lines| && TitleLine(lines[i])
      && FirstTitle(lines) == Strip(lines[i]) && forall j :: 0 <= j < i ==> !TitleLine(lines[j]))
  {
    var k := FirstIndex(lines, TitleLine);
    FirstTitleAt(lines);
    if k < |lines| {
      assert TitleLine(lines[k]) && FirstTitle(lines) == Strip(lines[k]);
      assert forall j :: 0 <= j < k ==> !TitleLine(lines[j]);
    } else {
      assert forall i :: 0 <= i < |lines| ==> !TitleLine(lines[i]);
    }
  }

  // ------------------------------------------------------------- abstract

  /** A line that switches abstract collection on; it is never part of the
      abstract itself. */
  predicate Marker(line: string) {
    StartsWith(Lower(Strip(line)), "abstract")
  }

  /** A line collection keeps: not blank, not a heading, not a marker. */
  predicate Prose(line: string) {
    var s := Strip(line);
    s != "" && !StartsWith(s, "#") && !Marker(line)
  }

  /** What the abstract loop needs to know of a line. */
  datatype Line = Line(marker: bool, prose: bool, text: string)

  function Classified(lines: seq<string>): (r: seq<Line>)
    ensures |r| == |lines|
    ensures forall i :: 0 <= i < |lines| ==> r[i] == Line(Marker(lines[i]), Prose(lines[i]), Strip(lines[i]))
  {
    seq(|lines|, i requires 0 <= i < |lines| => Line(Marker(lines[i]), Prose(lines[i]), Strip(lines[i])))
  }

  /** The loop over the lines, with the abstract so far and whether a marker
      has been seen; it breaks at the first kept line that would bring the
      abstract to 1000 characters. */
  function Collect(lines: seq<string>, acc: string, on: bool): (r: string)
    ensures |acc| <= AbstractLimit ==> |r| <= AbstractLimit
    ensures |r| >= |acc| && r[..|acc|] == acc
  {
    if |lines| == 0 then acc
    else
      var s := Strip(lines[0]);
      if Marker(lines[0]) then Collect(lines[1..], acc, true)
      else if on && s != "" && !StartsWith(s, "#") then
        if |acc| + |s| < AbstractLimit then
          var r := Collect(lines[1..], acc + s + " ", on);
          assert (acc + s + " ")[..|acc|] == acc;
          r
        else acc
      else Collect(lines[1..], acc, on)
  }

  /** The stripped lines collection would keep if there were no length
      limit: the prose lines after the first marker, in order. */
  function Kept(ls: seq<Line>, on: bool): seq<string> {
    if |ls| == 0 then []
    else if ls[0].marker then Kept(ls[1..], true)
    else if on && ls[0].prose then [ls[0].text] + Kept(ls[1..], on)
    else Kept(ls[1..], on)
  }

  /** Each piece followed by one space. */
  function Spaced(parts: seq<string>): string {
    if |parts| == 0 then "" else parts[0] + " " + Spaced(parts[1..])
  }

  /** Appending kept lines until the next one would reach the limit. */
  function Fit(acc: string, parts: seq<string>): string
    decreases |parts|
  {
    if |parts| == 0 then acc
    else if |acc| + |parts[0]| < AbstractLimit then Fit(acc + parts[0] + " ", parts[1..])
    else acc
  }

  /** The loop is a filter followed by a cut: the kept lines, appended while
      they fit. */
  lemma {:induction false} CollectIsFit(lines: seq<string>, acc: string, on: bool)
    ensures Collect(lines, acc, on) == Fit(acc, Kept(Classified(lines), on))
  {
    if |lines| > 0 {
      var ls := Classified(lines);
      assert ls[1..] == Classified(lines[1..]);
      assert ls[0] == Line(Marker(lines[0]), Prose(lines[0]), Strip(lines[0]));
      if Marker(lines[0]) {
        CollectIsFit(lines[1..], acc, true);
      } else if on && Prose(lines[0]) {
        var s := Strip(lines[0]);
        assert Kept(ls, on)[1..] == Kept(ls[1..], on);
        if |acc| + |s| < AbstractLimit {
          CollectIsFit(lines[1..], acc + s + " ", on);
        }
      } else {
        CollectIsFit(lines[1..], acc, on);
      }
    }
  }

  /** The cut keeps a prefix of the pieces, each followed by a space, and
      stops only at a piece that would reach the limit. */
  lemma {:induction false} FitKeepsPrefix(acc: string, parts: seq<string>)
    ensures exists n :: (0 <= n <= |parts| && Fit(acc, parts) == acc + Spaced(parts[..n])
      && (n < |parts| ==> |acc + Spaced(parts[..n])| + |parts[n]| >= AbstractLimit))
    decreases |parts|
  {
    if |parts| == 0 {
      assert Fit(acc, parts) == acc + Spaced(parts[..0]);
    } else if |acc| + |parts[0]| < AbstractLimit {
      var acc' := acc + parts[0] + " ";
      FitKeepsPrefix(acc', parts[1..]);
      var m :| 0 <= m <= |parts| - 1 && Fit(acc', parts[1..]) == acc' + Spaced(parts[1..][..m])
        && (m < |parts| - 1 ==> |acc' + Spaced(parts[1..][..m])| + |parts[1..][m]| >= AbstractLimit);
      assert parts[..m + 1][1..] == parts[1..][..m];
      assert Spaced(parts[..m + 1]) == parts[0] + " " + Spaced(parts[1..][..m]);
      assert acc' + Spaced(parts[1..][..m]) == acc + Spaced(parts[..m + 1]);
      assert m < |parts| - 1 ==> parts[1..][m] == parts[m + 1];
    } else {
      assert Fit(acc, parts) == acc + Spaced(parts[..0]);
    }
  }

  /** Every kept line is the text of a prose line that comes after a marker
      line, so no marker line and no heading is ever kept. */
  lemma {:induction false} KeptFollowMarker(ls: seq<Line>, on: bool, s: string)
    requires s in Kept(ls, on)
    ensures exists i :: (0 <= i < |ls| && ls[i].prose && !ls[i].marker && s == ls[i].text
      && (on || exists j :: 0 <= j < i && ls[j].marker))
  {
    var rest := ls[1..];
    if ls[0].marker {
      KeptFollowMarker(rest, true, s);
      var i :| 0 <= i < |rest| && rest[i].prose && !rest[i].marker && s == rest[i].text;
      assert ls[i + 1] == rest[i];
    } else if on && ls[0].prose && s == ls[0].text {
    } else {
      assert s in Kept(rest, on);
      KeptFollowMarker(rest, on, s);
      var i :| 0 <= i < |rest| && rest[i].prose && !rest[i].marker && s == rest[i].text
        && (on || exists j :: 0 <= j < i && rest[j].marker);
      assert ls[i + 1] == rest[i];
      if !on {
        var j :| 0 <= j < i && rest[j].marker;
        assert ls[j + 1] == rest[j];
      }
    }
  }

  /** Conversely, every prose line after a marker is kept. */
  lemma {:induction false} MarkedProseKept(ls: seq<Line>, on: bool, i: nat)
    requires i < |ls| && ls[i].prose && !ls[i].marker
    requires on || exists j :: 0 <= j < i && ls[j].marker
    ensures ls[i].text in Kept(ls, on)
  {
    if i > 0 {
      var rest := ls[1..];
      var on' := on || ls[0].marker;
      assert rest[i - 1] == ls[i];
      if !on' {
        var j :| 0 <= j < i && ls[j].marker;
        assert rest[j - 1] == ls[j];
      }
      MarkedProseKept(rest, on', i - 1);
    }
  }

  /** Without a marker line nothing is kept. */
  lemma {:induction false} NoMarkerKeepsNothing(ls: seq<Line>)
    requires forall i :: 0 <= i < |ls| ==> !ls[i].marker
    ensures Kept(ls, false) == []
  {
    if |ls| > 0 {
      NoMarkerKeepsNothing(ls[1..]);
    }
  }

  /** The abstract: the collected text without its trailing space. */
  function Abstract(lines: seq<string>): (r: string)
    ensures |r| <= AbstractLimit
  {
    Strip(Collect(lines, "", false))
  }

  /** The abstract is the kept lines, each with a space, up to the first
      one that would reach the limit, then stripped; with no marker line it
      is empty. */
  lemma AbstractIsKeptPrefix(lines: seq<string>)
    ensures var kept := Kept(Classified(lines), false);
      exists n :: (0 <= n <= |kept| && Abstract(lines) == Strip(Spaced(kept[..n]))
        && (n < |kept| ==> |Spaced(kept[..n])| + |kept[n]| >= AbstractLimit))
    ensures (forall i :: 0 <= i < |lines| ==> !Marker(lines[i])) ==> Abstract(lines) == ""
  {
    var kept := Kept(Classified(lines), false);
    CollectIsFit(lines, "", false);
    var n := FitCut(kept);
    assert Abstract(lines) == Strip(Spaced(kept[..n]));
    if forall i :: 0 <= i < |lines| ==> !Marker(lines[i]) {
      NoMarkerAbstract(lines);
    }
  }

  /** Where the fit stops, starting from an empty accumulator. */
  lemma FitCut(parts: seq<string>) returns (n: nat)
    ensures n <= |parts| && Fit("", parts) == Spaced(parts[..n])
    ensures n < |parts| ==> |Spaced(parts[..n])| + |parts[n]| >= AbstractLimit
  {
    FitKeepsPrefix("", parts);
    n :| 0 <= n <= |parts| && Fit("", parts) == "" + Spaced(parts[..n])
      && (n < |parts| ==> |"" + Spaced(parts[..n])| + |parts[n]| >= AbstractLimit);
    assert "" + Spaced(parts[..n]) == Spaced(parts[..n]);
  }

  lemma NoMarkerAbstract(lines: seq<string>)
    requires forall i :: 0 <= i < |lines| ==> !Marker(lines[i])
    ensures Abstract(lines) == ""
  {
    CollectIsFit(lines, "", false);
    NoMarkerKeepsNothing(Classified(lines));
    assert Collect(lines, "", false) == "";
    StripEmptyIffBlank("");
  }

  // ------------------------------------------------- figures and code blocks

  /** The entries `pick` yields for lines `0..n-1`, in line order. */
  function Hits(pick: nat -> Option<string>, n: nat): (r: seq<Entry>)
    ensures |r| <= n
    ensures forall k :: 0 <= k < |r| ==> r[k].line < n && pick(r[k].line) == Some(r[k].text)
    ensures forall k, m :: 0 <= k < m < |r| ==> r[k].line < r[m].line
  {
    if n == 0 then []
    else
      var prev := Hits(pick, n - 1);
      match pick(n - 1)
      case None => prev
      case Some(t) => prev + [Entry(n - 1, t)]
  }

  /** Every line `pick` yields an entry for has one among the hits. */
  lemma {:induction false} HitsFindAll(pick: nat -> Option<string>, n: nat, i: nat)
    requires i < n && pick(i).Some?
    ensures exists k :: 0 <= k < |Hits(pick, n)| && Hits(pick, n)[k].line == i
  {
    var prev := Hits(pick, n - 1);
    if i == n - 1 {
      assert Hits(pick, n)[|prev|].line == i;
    } else {
      HitsFindAll(pick, n - 1, i);
      var k :| 0 <= k < |prev| && prev[k].line == i;
      assert Hits(pick, n)[k] == prev[k];
    }
  }

  /** The first `limit` hits: each is a hit, and a hit is missing only when
      `limit` hits on earlier lines were returned. */
  function Capped(pick: nat -> Option<string>, n: nat, limit: nat): (r: seq<Entry>)
    ensures |r| <= limit
    ensures forall k :: 0 <= k < |r| ==> r[k].line < n && pick(r[k].line) == Some(r[k].text)
    ensures forall k, m :: 0 <= k < m < |r| ==> r[k].line < r[m].line
    ensures forall i :: 0 <= i < n && pick(i).Some? ==>
      (exists k :: 0 <= k < |r| && r[k].line == i) || (|r| == limit && forall k :: 0 <= k < |r| ==> r[k].line < i)
  {
    var h := Hits(pick, n);
    var r := Take(h, limit);
    forall i | 0 <= i < n && pick(i).Some?
      ensures (exists k :: 0 <= k < |r| && r[k].line == i) || (|r| == limit && forall k :: 0 <= k < |r| ==> r[k].line < i)
    {
      HitsFindAll(pick, n, i);
      var k :| 0 <= k < |h| && h[k].line == i;
      if k >= |r| {
        assert |r| == limit;
        forall m | 0 <= m < |r| ensures r[m].line < i {
          assert r[m] == h[m];
        }
      } else {
        assert r[k] == h[k];
      }
    }
    r
  }

  /** A line that mentions a figure ("figure" or "fig.", in any case). */
  predicate FigureLine(line: string) {
    Contains(Lower(line), "figure") || Contains(Lower(line), "fig.")
  }

  function FigurePick(lines: seq<string>): nat -> Option<string> {
    i => if 0 <= i < |lines| && FigureLine(lines[i]) then Some(Strip(lines[i])) else None
  }

  /** The figure mentions: at most 5, in line order, each a figure line with
      its stripped text; a figure line is left out only when 5 earlier ones
      were returned. */
  function Figures(lines: seq<string>): (r: seq<Entry>)
    ensures |r| <= MaxFigures
    ensures forall k :: 0 <= k < |r| ==> r[k].line < |lines| && FigureLine(lines[r[k].line]) && r[k].text == Strip(lines[r[k].line])
    ensures forall k, m :: 0 <= k < m < |r| ==> r[k].line < r[m].line
    ensures forall i :: 0 <= i < |lines| && FigureLine(lines[i]) ==>
      (exists k :: 0 <= k < |r| && r[k].line == i) || (|r| == MaxFigures && forall k :: 0 <= k < |r| ==> r[k].line < i)
  {
    var pick := FigurePick(lines);
    var r := Capped(pick, |lines|, MaxFigures);
    assert forall i :: 0 <= i < |lines| ==> (pick(i).Some? <==> FigureLine(lines[i]));
    r
  }

  /** A line that opens a code block: it holds a fence and names python,
      code or algorithm (in any case). */
  predicate Opener(line: string) {
    Contains(line, Fence) &&
    (Contains(Lower(line), "python") || Contains(Lower(line), "code") || Contains(Lower(line), "algorithm"))
  }

  /** The first line from `j` on that holds a fence, or the end. */
  function FenceEnd(lines: seq<string>, j: nat): (e: nat)
    requires j <= |lines|
    ensures j <= e <= |lines|
    ensures forall k :: j <= k < e ==> !Contains(lines[k], Fence)
    ensures e < |lines| ==> Contains(lines[e], Fence)
    decreases |lines| - j
  {
    if j == |lines| || Contains(lines[j], Fence) then j else FenceEnd(lines, j + 1)
  }

  /** The code of the block opened on line `i`: the lines after it up to,
      not including, the next fence line, joined with newlines. */
  function Code(lines: seq<string>, i: nat): string
    requires i < |lines|
  {
    Join("\n", lines[i + 1..FenceEnd(lines, i + 1)])
  }

  function BlockPick(lines: seq<string>): nat -> Option<string> {
    i => if 0 <= i < |lines| && Opener(lines[i]) then Some(Code(lines, i)) else None
  }

  /** The code blocks: at most 3, in line order, one per opening line, with
      no fence line inside any of them. */
  function Blocks(lines: seq<string>): (r: seq<Entry>)
    ensures |r| <= MaxBlocks
    ensures forall k :: 0 <= k < |r| ==> r[k].line < |lines| && Opener(lines[r[k].line]) && r[k].text == Code(lines, r[k].line)
    ensures forall k, m :: 0 <= k < m < |r| ==> r[k].line < r[m].line
    ensures forall i :: 0 <= i < |lines| && Opener(lines[i]) ==>
      (exists k :: 0 <= k < |r| && r[k].line == i) || (|r| == MaxBlocks && forall k :: 0 <= k < |r| ==> r[k].line < i)
  {
    var pick := BlockPick(lines);
    var r := Capped(pick, |lines|, MaxBlocks);
    assert forall i :: 0 <= i < |lines| ==> (pick(i).Some? <==> Opener(lines[i]));
    r
  }

  /** A block's code is exactly its lines: splitting it on newlines gives
      back the lines between the opener and the closing fence, none of which
      holds a fence. */
  lemma BlockLines(lines: seq<string>, i: nat)
    requires i < |lines|
    requires forall k :: 0 <= k < |lines| ==> '\n' !in lines[k]
    ensures var body := lines[i + 1..FenceEnd(lines, i + 1)];
      |body| >= 1 ==> Split(Code(lines, i), '\n') == body
    ensures forall k :: i < k < FenceEnd(lines, i + 1) ==> !Contains(lines[k], Fence)
  {
    var body := lines[i + 1..FenceEnd(lines, i + 1)];
    if |body| >= 1 {
      SplitJoin(body, '\n');
    }
  }

  // -------------------------------------------------------------- the reply

  /** The metadata derived from the scraped text of `url`. */
  function Extract(url: string, content: string): (m: Metadata)
    ensures m.url == url
    ensures m.pdfLink.Some? <==> EndsWith(url, ".pdf")
    ensures m.pdfLink.Some? ==> m.pdfLink.value == url
    ensures |m.fullContent| == if |content| <= ContentLimit then |content| else ContentLimit
    ensures m.fullContent == content[..|m.fullContent|]
    ensures |m.abstractText| <= AbstractLimit && |m.figures| <= MaxFigures && |m.pseudocodeBlocks| <= MaxBlocks
  {
    var lines := Split(content, '\n');
    Metadata(Title(lines), url, Abstract(lines),
             if EndsWith(url, ".pdf") then Some(url) else None,
             Figures(lines), Blocks(lines), Take(content, ContentLimit))
  }

  /** The handler, with the scrape of the source's url as `fetch`. A
      ValueError that is not about the API key propagates (`Err`); every
      other failure is a 500. */
  function Handle(sourceId: Option<string>, fetch: string -> Fetched): (r: Result<Reply>)
    ensures sourceId.None? || sourceId.value == "" ==> r == Ok(Reply(400, Info("Source ID is required")))
    ensures r.Ok? ==> r.value.status in {200, 400, 500}
    ensures sourceId.Some? && sourceId.value != "" ==> var f := fetch(sourceId.value);
      && (r.Err? <==> f.Threw? && f.valueError && !Contains(f.message, "API key not set"))
      && (r.Err? ==> r.error == f.message)
      && (f.Threw? && f.valueError && Contains(f.message, "API key not set") ==>
            r == Ok(Reply(500, Failure("API key not configured", "Firecrawl API key is required"))))
      && (f.Threw? && !f.valueError ==> r == Ok(Reply(500, Failure("Failed to fetch source details", f.message))))
      && (f == Got(None) ==> r.Ok? && r.value.status == 500)
      && (r.Ok? && r.value.status == 200 <==> f.Got? && f.content.Some?)
      && (f.Got? && f.content.Some? ==>
            r == Ok(Reply(200, Details("Source details retrieved successfully", sourceId.value, Extract(sourceId.value, f.content.value)))))
  {
    if sourceId.None? || sourceId.value == "" then Ok(Reply(400, Info("Source ID is required")))
    else
      var url := sourceId.value;
      match fetch(url)
      case Threw(true, e) =>
        if Contains(e, "API key not set") then Ok(Reply(500, Failure("API key not configured", "Firecrawl API key is required")))
        else Err(e)
      case Threw(false, e) => Ok(Reply(500, Failure("Failed to fetch source details", e)))
      case Got(None) => Ok(Reply(500, Failure("Failed to fetch source details", "'NoneType' object has no attribute 'split'")))
      case Got(Some(content)) => Ok(Reply(200, Details("Source details retrieved successfully", url, Extract(url, content))))
  }
}
