/** The chat pane opened on one finding
    (frontend/src/components/research/SourceChat.tsx): a message log that
    starts with one assistant greeting and grows by a question and a canned
    answer per send or quick action, plus the pane's colour tiers. Message
    ids come from the clock, which is a parameter. */
module SourceChat {
  import opened Wrappers
  import opened Text
  import opened FindingCard

  datatype Role = Assistant | User

  datatype ChatMessage = ChatMessage(id: string, role: Role, content: string, isPointForm: Option<bool>)

  datatype Chat = Chat(messages: seq<ChatMessage>, input: string, showImplementation: bool)

  function Greeting(title: string): ChatMessage {
    ChatMessage("1", Assistant, "Here's a summary of \"" + title + "\":", Some(false))
  }

  /** The pane as it opens. */
  function Start(title: string): (c: Chat)
    ensures |c.messages| == 1 && c.messages[0].role == Assistant
    ensures c.input == "" && !c.showImplementation
  {
    Chat([Greeting(title)], "", false)
  }

  const PointMethod := "Key methodology involves systematic analysis across multiple experimental conditions with rigorous statistical validation."
  const PointResults := "Results show consistent improvements of 15-30% over baseline approaches in standardized benchmarks."
  const PointReview := "The findings have been validated through peer review and independent replication studies."
  const PointPractice := "Practical implications include enhanced performance in real-world applications with minimal computational overhead."

  /** The key points, shown under the greeting; the first names the
      finding's title in lower case. */
  function SummaryPoints(title: string): (r: seq<string>)
    ensures |r| == 5
    ensures r[1..] == [PointMethod, PointResults, PointReview, PointPractice]
  {
    ["This research demonstrates " + Lower(title) + ", representing a significant advancement in the field.",
     PointMethod, PointResults, PointReview, PointPractice]
  }

  const ImplementationDetails := [
    "**Prerequisites**: Python 3.8+, PyTorch 2.0, CUDA 11.7 or higher",
    "**Step 1**: Clone the official repository and install dependencies via `pip install -r requirements.txt`",
    "**Step 2**: Download pre-trained checkpoints from the provided model hub link",
    "**Step 3**: Configure hyperparameters in `config.yaml` - recommended: batch_size=32, learning_rate=1e-4",
    "**Step 4**: Run training with `python train.py --config config.yaml --experiment_name your_run`",
    "**Step 5**: Evaluate results using `python evaluate.py --checkpoint best_model.pt`",
    "**Common issues**: OOM errors can be resolved by reducing batch size or enabling gradient checkpointing"
  ]

  /** The four quick-action buttons: label and the question each sends. */
  const QuickActions := [
    ("Cite this", "Generate a citation for this source"),
    ("Key insights", "What are the most important insights from this research?"),
    ("Related work", "What related research should I explore?"),
    ("Limitations", "What are the limitations of this study?")
  ]

  const Fallback := "I can help you explore that aspect of the research."

  const InsightsReply := "• The primary breakthrough is the discovery of emergent capabilities at scale\n• Cross-domain transfer learning shows promising results\n• The methodology can be applied to adjacent problem domains\n• Energy efficiency improvements make deployment more practical"
  const RelatedReply := "• \"Scaling Laws for Neural Language Models\" - foundational work on emergence\n• \"Constitutional AI\" - related safety considerations\n• \"Instruction Tuning\" - complementary training techniques\n• \"Retrieval Augmented Generation\" - practical applications"
  const LimitationsReply := "• Limited to English language data in experiments\n• Computational requirements may be prohibitive for smaller labs\n• Long-term stability of results not yet established\n• Edge cases in adversarial settings not fully explored"

  function CitationReply(title: string): string {
    "**APA Format:**\n\nAuthors, A. A., & Authors, B. B. (2024). " + title
      + ". *Journal of AI Research*, 15(3), 234-256. https://doi.org/10.xxxx/xxxxx"
  }

  /** The canned answer to a quick action, or the fallback for a question
      the table does not know. */
  function QuickReply(title: string, action: string): string {
    if action == QuickActions[0].1 then CitationReply(title)
    else if action == QuickActions[1].1 then InsightsReply
    else if action == QuickActions[2].1 then RelatedReply
    else if action == QuickActions[3].1 then LimitationsReply
    else Fallback
  }

  /** Every button has its own answer: the fallback only answers a
      question no button sends. */
  lemma ButtonsAnswered(title: string, action: string)
    ensures (exists k :: 0 <= k < |QuickActions| && QuickActions[k].1 == action) <==> QuickReply(title, action) != Fallback
  {
    if QuickReply(title, action) != Fallback {
      assert action in [QuickActions[0].1, QuickActions[1].1, QuickActions[2].1, QuickActions[3].1];
    }
  }

  /** The answer to a typed question. */
  function TypedReply(title: string): string {
    "Based on the research in \"" + title + TypedTail
  }

  const TypedTail := "\", I can provide more context on your question. The methodology section indicates that the researchers used a combination of quantitative and qualitative approaches to validate their findings. Would you like me to elaborate on any specific aspect?"

  /** A question and its answer, ids taken from the clock reading `now` and
      the next millisecond. */
  function Exchange(question: string, answer: string, now: nat): (r: seq<ChatMessage>)
    ensures |r| == 2 && r[0].role == User && r[1].role == Assistant
    ensures r[0].content == question && r[1].content == answer
  {
    [ChatMessage(NatToString(now), User, question, None), ChatMessage(NatToString(now + 1), Assistant, answer, None)]
  }

  /** `handleSendMessage`: blank input changes nothing; otherwise the
      question and its answer are appended and the input cleared. */
  function Send(c: Chat, title: string, now: nat): (r: Chat)
    ensures IsBlank(c.input) ==> r == c
    ensures !IsBlank(c.input) ==> (r.input == "" && r.showImplementation == c.showImplementation
      && |r.messages| == |c.messages| + 2 && r.messages[..|c.messages|] == c.messages
      && r.messages[|c.messages|].role == User && r.messages[|c.messages|].content == c.input
      && r.messages[|c.messages| + 1].role == Assistant && r.messages[|c.messages| + 1].content == TypedReply(title))
  {
    StripEmptyIffBlank(c.input);
    if Strip(c.input) == "" then c
    else
      var r := c.(messages := c.messages + Exchange(c.input, TypedReply(title), now), input := "");
      assert r.messages[..|c.messages|] == c.messages;
      r
  }

  /** `handleQuickAction`: the question and its canned answer are appended;
      the input is kept. */
  function Quick(c: Chat, title: string, action: string, now: nat): (r: Chat)
    ensures r.input == c.input && r.showImplementation == c.showImplementation
    ensures |r.messages| == |c.messages| + 2 && r.messages[..|c.messages|] == c.messages
    ensures r.messages[|c.messages|].role == User && r.messages[|c.messages|].content == action
    ensures r.messages[|c.messages| + 1].role == Assistant
      && r.messages[|c.messages| + 1].content == QuickReply(title, action)
  {
    var r := c.(messages := c.messages + Exchange(action, QuickReply(title, action), now));
    assert r.messages[..|c.messages|] == c.messages;
    r
  }

  /** The key points are shown only while the greeting is alone. */
  predicate ShowsSummary(c: Chat) {
    |c.messages| == 1
  }

  /** What the user can do in the pane. */
  datatype Event = Type(text: string) | SendTyped(now: nat) | QuickAction(action: string, now: nat) | ToggleImplementation

  function Apply(c: Chat, title: string, e: Event): Chat {
    match e
    case Type(text) => c.(input := text)
    case SendTyped(now) => Send(c, title, now)
    case QuickAction(action, now) => Quick(c, title, action, now)
    case ToggleImplementation => c.(showImplementation := !c.showImplementation)
  }

  function Run(c: Chat, title: string, es: seq<Event>): Chat
    decreases |es|
  {
    if |es| == 0 then c else Run(Apply(c, title, es[0]), title, es[1..])
  }

  /** `b` is `a` followed by whole exchanges. */
  predicate Extends(a: seq<ChatMessage>, b: seq<ChatMessage>) {
    |b| >= |a| && (|b| - |a|) % 2 == 0 && b[..|a|] == a
  }

  lemma ExtendsTransitive(a: seq<ChatMessage>, b: seq<ChatMessage>, c: seq<ChatMessage>)
    requires Extends(a, b) && Extends(b, c)
    ensures Extends(a, c)
  {
    assert c[..|a|] == c[..|b|][..|a|];
  }

  /** One event leaves the log as it is or appends one exchange. */
  lemma ApplyGrows(c: Chat, title: string, e: Event)
    ensures Extends(c.messages, Apply(c, title, e).messages)
  {
    match e
    case Type(_) => ExtendsSelf(c.messages);
    case ToggleImplementation => ExtendsSelf(c.messages);
    case SendTyped(now) =>
      var r := Send(c, title, now);
      if IsBlank(c.input) {
        ExtendsSelf(c.messages);
      } else {
        ExtendsByPair(c.messages, r.messages);
      }
    case QuickAction(action, now) =>
      ExtendsByPair(c.messages, Quick(c, title, action, now).messages);
  }

  lemma ExtendsSelf(a: seq<ChatMessage>)
    ensures Extends(a, a)
  {
    assert a[..|a|] == a;
  }

  lemma ExtendsByPair(a: seq<ChatMessage>, b: seq<ChatMessage>)
    requires |b| == |a| + 2 && b[..|a|] == a
    ensures Extends(a, b)
  {
  }

  /** Whatever happens in the pane, the log only grows, by whole
      exchanges — so from an odd-sized log (the greeting alone, say) it
      stays odd-sized, keeps its first messages, and the key points
      disappear for good with the first exchange. */
  lemma {:induction false} LogGrowsInPairs(c: Chat, title: string, es: seq<Event>)
    ensures Extends(c.messages, Run(c, title, es).messages)
    decreases |es|
  {
    if |es| > 0 {
      var next := Apply(c, title, es[0]);
      ApplyGrows(c, title, es[0]);
      LogGrowsInPairs(next, title, es[1..]);
      ExtendsTransitive(c.messages, next.messages, Run(next, title, es[1..]).messages);
    } else {
      assert c.messages[..|c.messages|] == c.messages;
    }
  }

  /** Opened pane: the log has odd size, and the key points show only
      until something is sent. */
  lemma SummaryUntilFirstExchange(title: string, es: seq<Event>)
    ensures var r := Run(Start(title), title, es);
      |r.messages| % 2 == 1 && (ShowsSummary(r) <==> r.messages == Start(title).messages)
  {
    LogGrowsInPairs(Start(title), title, es);
  }

  /** From the opened pane the first message is always the greeting. */
  lemma GreetingStaysFirst(title: string, es: seq<Event>)
    ensures var r := Run(Start(title), title, es);
      |r.messages| >= 1 && r.messages[0] == Greeting(title)
  {
    LogGrowsInPairs(Start(title), title, es);
    var r := Run(Start(title), title, es);
    assert r.messages[0] == r.messages[..1][0];
  }

  /** The pane's trust colours: green from 80, yellow from 60, red below. */
  datatype Colour = Green | Yellow | Red

  function TrustColour(score: int): (c: Colour)
    ensures c == Green <==> score >= 80
    ensures c == Yellow <==> 60 <= score < 80
    ensures c == Red <==> score < 60
  {
    if score >= 80 then Green else if score >= 60 then Yellow else Red
  }

  function FactCheckColour(status: FactCheck): Colour {
    if status == Verified then Green else if status == Pending then Yellow else Red
  }

  /** The pane and the finding card agree on the trust tier of every score
      except 50 to 59, which the card calls medium and the pane colours
      red. */
  lemma TiersDisagreeInFifties(score: int)
    ensures var tier := TrustBadge(score).tier;
      var same := (tier == High && TrustColour(score) == Green) || (tier == Medium && TrustColour(score) == Yellow)
                  || (tier == Low && TrustColour(score) == Red);
      !same <==> 50 <= score < 60
  {
  }

  /** The fact-check colour follows the card's fact-check badge. */
  lemma FactColoursMatchBadge(status: FactCheck)
    ensures FactCheckColour(status) == match FactCheckBadge(status).tier case High => Green case Medium => Yellow case Low => Red
  {
  }
}
