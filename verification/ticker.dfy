/** The research page's simulated progress (frontend/src/pages/Index.tsx):
    a search restarts the five-step pipeline at step 0, every timer tick
    advances one step until the last, where the tick stops its timer and
    ends the research; skip jumps ahead one step at most to the last; pause
    only sets a flag. Timers are counted, since every search starts one
    more. */
module ResearchTicker {
  import opened FindingCard

  const PipelineSteps := ["Query Analysis", "Source Discovery", "Content Extraction", "Fact Verification", "Synthesis"]

  /** The index of the last pipeline step. */
  const Last := |PipelineSteps| - 1

  datatype Page = Page(currentStep: int, isResearching: bool, isPaused: bool, timers: nat)

  /** The page as it first renders. */
  const Initial := Page(2, false, false, 0)

  predicate InRange(p: Page) {
    0 <= p.currentStep <= Last
  }

  /** `handleSearch`. */
  function Search(p: Page): (r: Page)
    ensures r.currentStep == 0 && r.isResearching && r.timers == p.timers + 1 && r.isPaused == p.isPaused
  {
    Page(0, true, p.isPaused, p.timers + 1)
  }

  /** One firing of a running timer: advance, or — at the last step — stop
      that timer and end the research. Paused or not makes no difference.
      With no timer running nothing fires. */
  function Tick(p: Page): (r: Page)
    ensures p.timers == 0 ==> r == p
    ensures p.timers > 0 && p.currentStep < Last ==> r == p.(currentStep := p.currentStep + 1)
    ensures p.timers > 0 && p.currentStep >= Last ==>
      r == p.(isResearching := false, timers := p.timers - 1)
  {
    if p.timers == 0 then p
    else if p.currentStep >= Last then p.(isResearching := false, timers := p.timers - 1)
    else p.(currentStep := p.currentStep + 1)
  }

  /** The pipeline's skip button: `min(prev + 1, last)`. */
  function Skip(p: Page): (r: Page)
    ensures r == p.(currentStep := if p.currentStep + 1 <= Last then p.currentStep + 1 else Last)
    ensures InRange(p) ==> InRange(r) && r.currentStep >= p.currentStep
  {
    p.(currentStep := if p.currentStep + 1 < Last then p.currentStep + 1 else Last)
  }

  function Pause(p: Page): Page { p.(isPaused := true) }

  function Resume(p: Page): Page { p.(isPaused := false) }

  datatype Event = SearchEvent | TickEvent | SkipEvent | PauseEvent | ResumeEvent

  function Apply(p: Page, e: Event): Page {
    match e
    case SearchEvent => Search(p)
    case TickEvent => Tick(p)
    case SkipEvent => Skip(p)
    case PauseEvent => Pause(p)
    case ResumeEvent => Resume(p)
  }

  function Run(p: Page, es: seq<Event>): Page
    decreases |es|
  {
    if |es| == 0 then p else Run(Apply(p, es[0]), es[1..])
  }

  /** Whatever happens, the current step stays a valid index into the
      five pipeline steps. */
  lemma {:induction false} StepStaysInRange(p: Page, es: seq<Event>)
    requires InRange(p)
    ensures InRange(Run(p, es))
    decreases |es|
  {
    if |es| > 0 {
      StepStaysInRange(Apply(p, es[0]), es[1..]);
    }
  }

  /** The page starts in range, so every reachable page is. */
  lemma ReachableInRange(es: seq<Event>)
    ensures InRange(Run(Initial, es))
  {
    StepStaysInRange(Initial, es);
  }

  /** Pausing does not stop the ticks: a paused page advances exactly as
      an unpaused one. */
  lemma PauseIgnored(p: Page)
    ensures Tick(Pause(p)) == Pause(Tick(p))
    ensures Tick(Resume(p)) == Resume(Tick(p))
  {
  }

  function Ticks(p: Page, n: nat): Page
    decreases n
  {
    if n == 0 then p else Ticks(Tick(p), n - 1)
  }

  /** `k` ticks from a running step `s` below the last reach step `s + k`
      while the research goes on. */
  lemma {:induction false} TicksAdvance(p: Page, k: nat)
    requires p.timers > 0 && 0 <= p.currentStep && p.currentStep + k <= Last
    ensures Ticks(p, k) == p.(currentStep := p.currentStep + k)
    decreases k
  {
    if k > 0 {
      TicksAdvance(Tick(p), k - 1);
    }
  }

  /** With one timer, a search runs through the steps in four ticks, and
      the fifth ends the research at the last step with no timer left. */
  lemma SearchCompletes(p: Page)
    requires p.timers == 0
    ensures Ticks(Search(p), 4) == Page(Last, true, p.isPaused, 1)
    ensures Ticks(Search(p), 5) == Page(Last, false, p.isPaused, 0)
  {
    TicksAdvance(Search(p), 4);
    assert Ticks(Search(p), 5) == Tick(Ticks(Search(p), 4)) by {
      TicksSplit(Search(p), 4);
    }
  }

  lemma {:induction false} TicksSplit(p: Page, n: nat)
    ensures Ticks(p, n + 1) == Tick(Ticks(p, n))
    decreases n
  {
    if n > 0 {
      TicksSplit(Tick(p), n - 1);
    }
  }

  /** The "Research Complete" panel: shown when no research is running, a
      finding exists and no source chat is open. */
  predicate ShowsComplete(p: Page, findings: seq<Finding>, chatOpen: bool) {
    !p.isResearching && |findings| > 0 && !chatOpen
  }

  /** A search hides the panel until a tick at the last step ends it. */
  lemma SearchHidesComplete(p: Page, findings: seq<Finding>, chatOpen: bool)
    ensures !ShowsComplete(Search(p), findings, chatOpen)
    ensures p.timers == 0 && |findings| > 0 && !chatOpen ==> ShowsComplete(Ticks(Search(p), 5), findings, chatOpen)
  {
    if p.timers == 0 {
      SearchCompletes(p);
    }
  }
}
