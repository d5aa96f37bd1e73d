/** The findings side panel (frontend/src/components/research/FindingsPanel.tsx):
    exclusion and filter toggles, the filter predicate, the three
    descending sort orders and the count of active filters. */
module FindingsPanel {
  import opened Wrappers
  import opened FindingCard

  datatype SortKey = ByRelevance | ByTrustScore | ByDate

  datatype Filters = Filters(
    minRelevance: int,
    minTrustScore: int,
    factChecks: set<FactCheck>,
    sourceTypes: set<SourceType>,
    hideExcluded: bool)

  datatype Panel = Panel(excluded: set<string>, filters: Filters, sortBy: SortKey)

  const AllFactChecks: set<FactCheck> := {Verified, Pending, Disputed}
  const AllSourceTypes: set<SourceType> := {Academic, News, Blog, Dataset, Government, Other}

  /** The filters a fresh panel starts with, and `clearFilters` restores. */
  const Defaults := Filters(0, 0, AllFactChecks, AllSourceTypes, false)

  const Initial := Panel({}, Defaults, ByRelevance)

  /** Flip the membership of one element. */
  function Toggle<T(!new)>(s: set<T>, x: T): (r: set<T>)
    ensures x in r <==> x !in s
    ensures forall y :: y != x ==> (y in r <==> y in s)
  {
    if x in s then s - {x} else s + {x}
  }

  /** Toggling the same element twice gives back the set. */
  lemma ToggleTwice<T(!new)>(s: set<T>, x: T)
    ensures Toggle(Toggle(s, x), x) == s
  {
  }

  function ToggleExclude(p: Panel, id: string): (r: Panel)
    ensures r.excluded == Toggle(p.excluded, id) && r.filters == p.filters && r.sortBy == p.sortBy
  {
    p.(excluded := Toggle(p.excluded, id))
  }

  function ToggleFactCheck(p: Panel, status: FactCheck): (r: Panel)
    ensures r.filters.factChecks == Toggle(p.filters.factChecks, status)
    ensures r == p.(filters := p.filters.(factChecks := r.filters.factChecks))
  {
    p.(filters := p.filters.(factChecks := Toggle(p.filters.factChecks, status)))
  }

  function ToggleSourceType(p: Panel, t: SourceType): (r: Panel)
    ensures r.filters.sourceTypes == Toggle(p.filters.sourceTypes, t)
    ensures r == p.(filters := p.filters.(sourceTypes := r.filters.sourceTypes))
  {
    p.(filters := p.filters.(sourceTypes := Toggle(p.filters.sourceTypes, t)))
  }

  /** The filter callback: every condition must hold. A finding without a
      relevance or without a type passes those two checks. */
  predicate Keep(f: Finding, filters: Filters, excluded: set<string>) {
    && !(filters.hideExcluded && f.id in excluded)
    && (f.relevance.None? || f.relevance.value >= filters.minRelevance)
    && f.trustScore >= filters.minTrustScore
    && f.factCheckStatus in filters.factChecks
    && (f.sourceType.None? || f.sourceType.value in filters.sourceTypes)
  }

  /** `findings.filter(...)`: the kept findings, in their order. */
  function Filter(fs: seq<Finding>, filters: Filters, excluded: set<string>): (r: seq<Finding>)
    ensures |r| <= |fs|
    ensures forall i :: 0 <= i < |r| ==> Keep(r[i], filters, excluded)
    ensures multiset(r) <= multiset(fs)
    ensures forall f :: f in fs && Keep(f, filters, excluded) ==> f in r
  {
    if |fs| == 0 then []
    else
      var rest := Filter(fs[1..], filters, excluded);
      assert fs == [fs[0]] + fs[1..];
      if Keep(fs[0], filters, excluded) then [fs[0]] + rest else rest
  }

  /** The sort key: an absent relevance or date counts as 0. */
  function Key(f: Finding, order: SortKey): int {
    match order
    case ByRelevance => f.relevance.GetOr(0)
    case ByTrustScore => f.trustScore
    case ByDate => f.publishedDate.GetOr(0)
  }

  predicate Descending(s: seq<Finding>, order: SortKey) {
    forall i, j :: 0 <= i < j < |s| ==> Key(s[i], order) >= Key(s[j], order)
  }

  /** Prepending an element no smaller than the first keeps a sequence
      descending. */
  lemma ConsDescending(x: Finding, t: seq<Finding>, order: SortKey)
    requires Descending(t, order)
    requires |t| == 0 || Key(x, order) >= Key(t[0], order)
    ensures Descending([x] + t, order)
  {
    var r := [x] + t;
    forall i, j | 0 <= i < j < |r| ensures Key(r[i], order) >= Key(r[j], order) {
      if i == 0 && j > 1 {
        assert Key(t[0], order) >= Key(t[j - 1], order);
      }
    }
  }

  /** Place `f` after every element whose key is at least its own — where
      a stable sort with the comparator `key(b) - key(a)` puts an element
      that came later. */
  function Insert(f: Finding, s: seq<Finding>, order: SortKey): (r: seq<Finding>)
    requires Descending(s, order)
    ensures Descending(r, order)
    ensures multiset(r) == multiset(s) + multiset{f}
    ensures |r| > 0 && (r[0] == f || (|s| > 0 && r[0] == s[0]))
  {
    if |s| == 0 then [f]
    else if Key(s[0], order) >= Key(f, order) then
      var rest := Insert(f, s[1..], order);
      ConsDescending(s[0], rest, order);
      assert s == [s[0]] + s[1..];
      [s[0]] + rest
    else
      ConsDescending(f, s, order);
      [f] + s
  }

  /** `result.sort(...)` for the chosen key: descending, and a permutation
      of its input. */
  function Sort(s: seq<Finding>, order: SortKey): (r: seq<Finding>)
    ensures Descending(r, order)
    ensures multiset(r) == multiset(s)
  {
    if |s| == 0 then []
    else
      var init := s[..|s| - 1];
      assert s == init + [s[|s| - 1]];
      Insert(s[|s| - 1], Sort(init, order), order)
  }

  /** `filteredFindings`: the kept findings, sorted; the findings passed in
      are left as they are. */
  function Shown(p: Panel, findings: seq<Finding>): (r: seq<Finding>)
    ensures Descending(r, p.sortBy)
    ensures multiset(r) == multiset(Filter(findings, p.filters, p.excluded))
  {
    Sort(Filter(findings, p.filters, p.excluded), p.sortBy)
  }

  /** A finding is shown exactly when it is one of the findings passed in
      and passes every filter. */
  lemma ShownExactly(p: Panel, findings: seq<Finding>, f: Finding)
    ensures f in Shown(p, findings) <==> f in findings && Keep(f, p.filters, p.excluded)
  {
    var kept := Filter(findings, p.filters, p.excluded);
    var r := Shown(p, findings);
    assert f in r <==> f in multiset(r);
    assert f in kept <==> f in multiset(kept);
    if f in kept {
      var i :| 0 <= i < |kept| && kept[i] == f;
      assert Keep(kept[i], p.filters, p.excluded);
      assert f in multiset(findings);
    }
  }

  /** Exclusion only hides a finding while `hideExcluded` is on: otherwise
      the excluded set makes no difference to what is shown. */
  lemma ExclusionNeedsHide(p: Panel, findings: seq<Finding>, excluded: set<string>)
    requires !p.filters.hideExcluded
    ensures Shown(p.(excluded := excluded), findings) == Shown(p, findings)
  {
    FilterIgnoresExcluded(findings, p.filters, p.excluded, excluded);
  }

  lemma {:induction false} FilterIgnoresExcluded(fs: seq<Finding>, filters: Filters, e1: set<string>, e2: set<string>)
    requires !filters.hideExcluded
    ensures Filter(fs, filters, e1) == Filter(fs, filters, e2)
  {
    if |fs| > 0 {
      FilterIgnoresExcluded(fs[1..], filters, e1, e2);
    }
  }

  /** The five filters the panel counts. */
  datatype FilterKind = RelevanceFloor | TrustFloor | FactCheckSet | SourceTypeSet | HidingExcluded

  const AllFilterKinds: set<FilterKind> := {RelevanceFloor, TrustFloor, FactCheckSet, SourceTypeSet, HidingExcluded}

  /** Whether filter `k` differs from its default: a slider raised above
      0, a status or type deselected, excluded findings hidden. */
  predicate Moved(f: Filters, k: FilterKind) {
    match k
    case RelevanceFloor => f.minRelevance > Defaults.minRelevance
    case TrustFloor => f.minTrustScore > Defaults.minTrustScore
    case FactCheckSet => f.factChecks != Defaults.factChecks
    case SourceTypeSet => f.sourceTypes != Defaults.sourceTypes
    case HidingExcluded => f.hideExcluded != Defaults.hideExcluded
  }

  function MovedFilters(f: Filters): set<FilterKind> {
    set k | k in AllFilterKinds && Moved(f, k)
  }

  /** `activeFilterCount`: one for each filter moved off its default. */
  function ActiveFilterCount(f: Filters): (r: nat)
    ensures r <= 5
    ensures r == |MovedFilters(f)|
  {
    CountMoved(f);
    (if f.minRelevance > 0 then 1 else 0)
    + (if f.minTrustScore > 0 then 1 else 0)
    + (if |f.factChecks| < 3 then 1 else 0)
    + (if |f.sourceTypes| < 6 then 1 else 0)
    + (if f.hideExcluded then 1 else 0)
  }

  /** Building the moved set one filter at a time. */
  lemma CountMoved(f: Filters)
    ensures |MovedFilters(f)| ==
      (if f.minRelevance > 0 then 1 else 0)
      + (if f.minTrustScore > 0 then 1 else 0)
      + (if |f.factChecks| < 3 then 1 else 0)
      + (if |f.sourceTypes| < 6 then 1 else 0)
      + (if f.hideExcluded then 1 else 0)
  {
    var b := Built(f);
    assert MovedFilters(f) == b by {
      forall k ensures k in MovedFilters(f) <==> k in b {
        MovedOne(f, k);
      }
    }
  }

  /** The moved set assembled filter by filter. */
  function Built(f: Filters): (r: set<FilterKind>)
    ensures |r| ==
      (if f.minRelevance > 0 then 1 else 0)
      + (if f.minTrustScore > 0 then 1 else 0)
      + (if |f.factChecks| < 3 then 1 else 0)
      + (if |f.sourceTypes| < 6 then 1 else 0)
      + (if f.hideExcluded then 1 else 0)
    ensures forall k :: k in r <==> match k
      case RelevanceFloor => f.minRelevance > 0
      case TrustFloor => f.minTrustScore > 0
      case FactCheckSet => |f.factChecks| < 3
      case SourceTypeSet => |f.sourceTypes| < 6
      case HidingExcluded => f.hideExcluded
  {
    var s1 := AddIf({}, RelevanceFloor, f.minRelevance > 0);
    var s2 := AddIf(s1, TrustFloor, f.minTrustScore > 0);
    var s3 := AddIf(s2, FactCheckSet, |f.factChecks| < 3);
    var s4 := AddIf(s3, SourceTypeSet, |f.sourceTypes| < 6);
    AddIf(s4, HidingExcluded, f.hideExcluded)
  }

  /** Each filter's default test, in the terms the count uses. */
  lemma MovedOne(f: Filters, k: FilterKind)
    ensures k in MovedFilters(f) <==> match k
      case RelevanceFloor => f.minRelevance > 0
      case TrustFloor => f.minTrustScore > 0
      case FactCheckSet => |f.factChecks| < 3
      case SourceTypeSet => |f.sourceTypes| < 6
      case HidingExcluded => f.hideExcluded
  {
    assert k in AllFilterKinds by {
      match k
      case RelevanceFloor =>
      case TrustFloor =>
      case FactCheckSet =>
      case SourceTypeSet =>
      case HidingExcluded =>
    }
    FactChecksBounded(f.factChecks);
    SourceTypesBounded(f.sourceTypes);
  }

  /** `s` with `x` added when `b` holds. */
  function AddIf(s: set<FilterKind>, x: FilterKind, b: bool): (r: set<FilterKind>)
    requires x !in s
    ensures |r| == |s| + (if b then 1 else 0)
    ensures forall y :: y in r <==> y in s || (b && y == x)
  {
    if b then s + {x} else s
  }

  lemma {:induction false} SubsetSize<T>(a: set<T>, b: set<T>)
    requires a <= b
    ensures |a| <= |b|
    ensures a != b ==> |a| < |b|
    decreases |a|
  {
    if a != b {
      var y :| y in b && y !in a;
      if a == {} {
        assert y in b;
      } else {
        var x :| x in a;
        SubsetSize(a - {x}, b - {x});
        assert y in b - {x} && y !in a - {x};
      }
    } else if a != {} {
      var x :| x in a;
      SubsetSize(a - {x}, b - {x});
    }
  }

  /** Fewer than three statuses exactly when one is deselected. */
  lemma FactChecksBounded(s: set<FactCheck>)
    ensures |s| < 3 <==> s != AllFactChecks
  {
    assert s <= AllFactChecks by {
      forall x | x in s ensures x in AllFactChecks {
        assert x == Verified || x == Pending || x == Disputed;
      }
    }
    assert |AllFactChecks| == 3;
    SubsetSize(s, AllFactChecks);
  }

  /** Fewer than six types exactly when one is deselected. */
  lemma SourceTypesBounded(s: set<SourceType>)
    ensures |s| < 6 <==> s != AllSourceTypes
  {
    assert s <= AllSourceTypes by {
      forall x | x in s ensures x in AllSourceTypes {
        assert x.Academic? || x.News? || x.Blog? || x.Dataset? || x.Government? || x.Other?;
      }
    }
    assert |AllSourceTypes| == 6;
    SubsetSize(s, AllSourceTypes);
  }

  /** No filter is counted exactly when the sliders are at most 0, every
      status and type is selected and excluded findings are not hidden. */
  lemma NoActiveFilters(f: Filters)
    ensures ActiveFilterCount(f) == 0 <==>
      f.minRelevance <= 0 && f.minTrustScore <= 0 && f.factChecks == AllFactChecks
      && f.sourceTypes == AllSourceTypes && !f.hideExcluded
  {
    FactChecksBounded(f.factChecks);
    SourceTypesBounded(f.sourceTypes);
  }

  /** `clearFilters`: the five filters back to their defaults, the
      exclusions and the sort order untouched. */
  function ClearFilters(p: Panel): (r: Panel)
    ensures ActiveFilterCount(r.filters) == 0
    ensures r.excluded == p.excluded && r.sortBy == p.sortBy
    ensures r.filters.minRelevance == 0 && r.filters.minTrustScore == 0 && !r.filters.hideExcluded
  {
    NoActiveFilters(Defaults);
    p.(filters := Defaults)
  }

  /** With the default filters every finding is shown. */
  lemma DefaultsShowAll(p: Panel, findings: seq<Finding>)
    requires p.filters == Defaults
    requires forall i :: 0 <= i < |findings| ==> (findings[i].trustScore >= 0
      && (findings[i].relevance.None? || findings[i].relevance.value >= 0))
    ensures multiset(Shown(p, findings)) == multiset(findings)
  {
    DefaultsKeepAll(findings, p.filters, p.excluded);
  }

  lemma DefaultKeeps(f: Finding, excluded: set<string>)
    requires f.trustScore >= 0 && (f.relevance.None? || f.relevance.value >= 0)
    ensures Keep(f, Defaults, excluded)
  {
    assert f.factCheckStatus == Verified || f.factCheckStatus == Pending || f.factCheckStatus == Disputed;
    if f.sourceType.Some? {
      var t := f.sourceType.value;
      assert t.Academic? || t.News? || t.Blog? || t.Dataset? || t.Government? || t.Other?;
    }
  }

  lemma {:induction false} DefaultsKeepAll(fs: seq<Finding>, filters: Filters, excluded: set<string>)
    requires filters == Defaults
    requires forall i :: 0 <= i < |fs| ==> (fs[i].trustScore >= 0
      && (fs[i].relevance.None? || fs[i].relevance.value >= 0))
    ensures Filter(fs, filters, excluded) == fs
  {
    if |fs| > 0 {
      DefaultsKeepAll(fs[1..], filters, excluded);
      DefaultKeeps(fs[0], excluded);
      assert fs == [fs[0]] + fs[1..];
    }
  }
}
