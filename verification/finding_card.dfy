/** The finding record of the research page and the badges a finding card
    shows for it (frontend/src/components/research/FindingCard.tsx). */
module FindingCard {
  import opened Wrappers

  datatype SourceType = Academic | News | Blog | Dataset | Government | Other

  datatype FactCheck = Verified | Pending | Disputed

  /** A finding. Scores are whole numbers; `publishedDate` is the
      timestamp its date string denotes. */
  datatype Finding = Finding(
    id: string,
    title: string,
    summary: string,
    source: string,
    trustScore: int,
    factCheckStatus: FactCheck,
    reasoning: Option<string>,
    relevance: Option<int>,
    publishedDate: Option<int>,
    sourceType: Option<SourceType>)

  /** The three styles badges use, from best to worst. */
  datatype Tier = High | Medium | Low {
    function Class(): string {
      match this
      case High => "trust-high"
      case Medium => "trust-medium"
      case Low => "trust-low"
    }
    /** 2 for the best tier, 0 for the worst. */
    function Rank(): nat {
      match this
      case High => 2
      case Medium => 1
      case Low => 0
    }
  }

  datatype Icon = ShieldIcon | AlertIcon | CheckIcon

  datatype Badge = Badge(tier: Tier, text: string, icon: Icon) {
    function Class(): string { tier.Class() }
  }

  /** `getTrustBadge`. */
  function TrustBadge(score: int): (b: Badge)
    ensures b.tier == High <==> score >= 80
    ensures b.tier == Medium <==> 50 <= score < 80
    ensures b.tier == Low <==> score < 50
    ensures b.text == match b.tier case High => "High Trust" case Medium => "Medium Trust" case Low => "Low Trust"
    ensures b.icon == if b.tier == High then ShieldIcon else AlertIcon
  {
    if score >= 80 then Badge(High, "High Trust", ShieldIcon)
    else if score >= 50 then Badge(Medium, "Medium Trust", AlertIcon)
    else Badge(Low, "Low Trust", AlertIcon)
  }

  /** A higher trust score never earns a worse badge. */
  lemma TrustMonotone(lower: int, higher: int)
    requires lower <= higher
    ensures TrustBadge(lower).tier.Rank() <= TrustBadge(higher).tier.Rank()
  {
  }

  /** `getFactCheckBadge`: the check's verdict, styled best to worst. */
  function FactCheckBadge(status: FactCheck): (b: Badge)
    ensures b.tier.Rank() == match status case Verified => 2 case Pending => 1 case Disputed => 0
    ensures b.text == match status case Verified => "Verified" case Pending => "Pending" case Disputed => "Disputed"
    ensures b.icon == if status == Verified then CheckIcon else AlertIcon
  {
    match status
    case Verified => Badge(High, "Verified", CheckIcon)
    case Pending => Badge(Medium, "Pending", AlertIcon)
    case Disputed => Badge(Low, "Disputed", AlertIcon)
  }

  function TypeLabel(t: SourceType): string {
    match t
    case Academic => "Academic Paper"
    case News => "News Article"
    case Blog => "Blog Post"
    case Dataset => "Dataset"
    case Government => "Government"
    case Other => "Other"
  }

  /** `getSourceTypeLabel`: `Unknown` for a finding without a type. */
  function SourceTypeLabel(t: Option<SourceType>): (r: string)
    ensures t.None? <==> r == "Unknown"
    ensures t.Some? ==> r == TypeLabel(t.value)
  {
    if t.Some? then TypeLabel(t.value) else "Unknown"
  }

  /** Every type has its own label, so a label names its type. */
  lemma LabelsDistinct(a: Option<SourceType>, b: Option<SourceType>)
    ensures SourceTypeLabel(a) == SourceTypeLabel(b) <==> a == b
  {
  }
}
