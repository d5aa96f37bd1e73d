/** Sequence plumbing shared by the three batch-extraction coordinators:
    cutting a list into consecutive waves of at most `c` items, flattening,
    and keeping only the items an extraction turned into a result. */
module Batching {
  import opened Wrappers

  function Concat<T>(ss: seq<seq<T>>): seq<T> {
    if |ss| == 0 then [] else ss[0] + Concat(ss[1..])
  }

  lemma {:induction false} ConcatAppend<T>(a: seq<seq<T>>, b: seq<seq<T>>)
    ensures Concat(a + b) == Concat(a) + Concat(b)
  {
    if |a| == 0 {
      assert a + b == b;
    } else {
      assert (a + b)[1..] == a[1..] + b;
      ConcatAppend(a[1..], b);
    }
  }

  /** The slices `xs[i:i+c]` for `i` in `range(0, len(xs), c)`. */
  function Chunks<T>(xs: seq<T>, c: nat): seq<seq<T>>
    requires c >= 1
    decreases |xs|
  {
    if |xs| == 0 then []
    else if |xs| <= c then [xs]
    else [xs[..c]] + Chunks(xs[c..], c)
  }

  /** Every wave is non-empty and holds at most `c` items, and all but the
      last hold exactly `c`. */
  lemma {:induction false} ChunkSizes<T>(xs: seq<T>, c: nat, k: nat)
    requires c >= 1 && k < |Chunks(xs, c)|
    ensures 1 <= |Chunks(xs, c)[k]| <= c
    ensures k < |Chunks(xs, c)| - 1 ==> |Chunks(xs, c)[k]| == c
    decreases |xs|
  {
    if |xs| > c && k > 0 {
      assert Chunks(xs, c)[k] == Chunks(xs[c..], c)[k - 1];
      ChunkSizes(xs[c..], c, k - 1);
    }
  }

  /** Flattening the waves gives back the list. */
  lemma {:induction false} ChunksConcat<T>(xs: seq<T>, c: nat)
    requires c >= 1
    ensures Concat(Chunks(xs, c)) == xs
    decreases |xs|
  {
    if |xs| > c {
      ChunksConcat(xs[c..], c);
      assert Chunks(xs, c)[1..] == Chunks(xs[c..], c);
    }
  }

  /** There are exactly ceil(|xs| / c) waves. */
  lemma {:induction false} ChunksCount<T>(xs: seq<T>, c: nat)
    requires c >= 1
    ensures |xs| <= |Chunks(xs, c)| * c
    ensures |Chunks(xs, c)| == 0 || (|Chunks(xs, c)| - 1) * c < |xs|
    decreases |xs|
  {
    if |xs| > c {
      ChunksCount(xs[c..], c);
      var n := |Chunks(xs[c..], c)|;
      assert |Chunks(xs, c)| == n + 1;
      MulStep(n + 1, c);
    }
  }

  /** Python's clamping slice `xs[lo:lo+c]`. */
  function Window<T>(xs: seq<T>, lo: nat, c: nat): (r: seq<T>)
    requires lo <= |xs|
    ensures |r| <= c && r <= xs[lo..]
  {
    if lo + c <= |xs| then xs[lo..lo + c] else xs[lo..]
  }

  /** The wave offsets `0, c, 2c, ...` of `range(0, len(xs), c)`. */
  function Offset(k: nat, c: nat): (r: nat)
    ensures r == k * c
  {
    if k == 0 then 0 else MulStep(k, c); c + Offset(k - 1, c)
  }

  /** Wave `k` is exactly the slice the source loop takes at offset `k * c`. */
  lemma {:induction false} ChunkIsSlice<T>(xs: seq<T>, c: nat, k: nat)
    requires c >= 1 && k < |Chunks(xs, c)|
    ensures Offset(k, c) < |xs|
    ensures Chunks(xs, c)[k] == Window(xs, Offset(k, c), c)
    decreases |xs|
  {
    if |xs| <= c {
      assert k == 0;
    } else if k > 0 {
      var tail := xs[c..];
      assert Chunks(xs, c) == [xs[..c]] + Chunks(tail, c);
      ChunkIsSlice(tail, c, k - 1);
      var lo := Offset(k - 1, c);
      assert Offset(k, c) == c + lo;
      assert Window(tail, lo, c) == Window(xs, c + lo, c);
    }
  }

  lemma MulStep(k: nat, c: nat)
    requires k >= 1
    ensures (k - 1) * c + c == k * c
  {
  }

  /** `f` applied to every item, keeping the `Some` results in order. */
  function FilterMap<A, B>(f: A -> Option<B>, xs: seq<A>): (r: seq<B>)
    ensures |r| <= |xs|
  {
    if |xs| == 0 then []
    else (match f(xs[0]) case Some(y) => [y] case None => []) + FilterMap(f, xs[1..])
  }

  /** Every kept result comes from some input, and every input `f` accepts
      contributes its result. */
  lemma {:induction false} FilterMapMembers<A, B>(f: A -> Option<B>, xs: seq<A>)
    ensures forall y :: y in FilterMap(f, xs) ==> exists i :: 0 <= i < |xs| && f(xs[i]) == Some(y)
    ensures forall i :: 0 <= i < |xs| && f(xs[i]).Some? ==> f(xs[i]).value in FilterMap(f, xs)
  {
    if |xs| > 0 {
      FilterMapMembers(f, xs[1..]);
      forall y | y in FilterMap(f, xs)
        ensures exists i :: 0 <= i < |xs| && f(xs[i]) == Some(y)
      {
        if f(xs[0]) != Some(y) {
          assert y in FilterMap(f, xs[1..]);
          var i :| 0 <= i < |xs[1..]| && f(xs[1..][i]) == Some(y);
          assert f(xs[i + 1]) == Some(y);
        }
      }
      forall i | 0 <= i < |xs| && f(xs[i]).Some?
        ensures f(xs[i]).value in FilterMap(f, xs)
      {
        if i > 0 {
          assert xs[1..][i - 1] == xs[i];
        }
      }
    }
  }

  /** When nothing succeeds nothing is kept, and no exception escapes. */
  lemma {:induction false} FilterMapNone<A, B>(f: A -> Option<B>, xs: seq<A>)
    requires forall i :: 0 <= i < |xs| ==> f(xs[i]).None?
    ensures FilterMap(f, xs) == []
  {
    if |xs| > 0 {
      FilterMapNone(f, xs[1..]);
    }
  }

  /** When everything succeeds every item is kept. */
  lemma {:induction false} FilterMapAll<A, B>(f: A -> Option<B>, xs: seq<A>)
    requires forall i :: 0 <= i < |xs| ==> f(xs[i]).Some?
    ensures |FilterMap(f, xs)| == |xs|
  {
    if |xs| > 0 {
      FilterMapAll(f, xs[1..]);
    }
  }

  lemma {:induction false} FilterMapConcat<A, B>(f: A -> Option<B>, a: seq<A>, b: seq<A>)
    ensures FilterMap(f, a + b) == FilterMap(f, a) + FilterMap(f, b)
  {
    if |a| == 0 {
      assert a + b == b;
    } else {
      assert (a + b)[1..] == a[1..] + b;
      FilterMapConcat(f, a[1..], b);
    }
  }

  function MapFilter<A, B>(f: A -> Option<B>, ss: seq<seq<A>>): (r: seq<seq<B>>)
    ensures |r| == |ss|
    ensures forall k :: 0 <= k < |ss| ==> r[k] == FilterMap(f, ss[k])
  {
    seq(|ss|, k requires 0 <= k < |ss| => FilterMap(f, ss[k]))
  }

  /** Filtering wave by wave and then flattening is filtering the whole
      list: the wave structure is invisible in the result. */
  lemma {:induction false} FilterMapWaves<A, B>(f: A -> Option<B>, ss: seq<seq<A>>)
    ensures Concat(MapFilter(f, ss)) == FilterMap(f, Concat(ss))
  {
    if |ss| > 0 {
      FilterMapWaves(f, ss[1..]);
      assert MapFilter(f, ss)[1..] == MapFilter(f, ss[1..]);
      FilterMapConcat(f, ss[0], Concat(ss[1..]));
    }
  }

  /** Filtering a rearrangement of a list gives a rearrangement of the
      filtered list. */
  lemma {:induction false} FilterMapPermutes<A, B>(f: A -> Option<B>, a: seq<A>, b: seq<A>)
    requires multiset(a) == multiset(b)
    ensures multiset(FilterMap(f, a)) == multiset(FilterMap(f, b))
    decreases |a|
  {
    if |a| > 0 {
      var x := a[0];
      assert x in multiset(b);
      var i :| 0 <= i < |b| && b[i] == x;
      var b' := b[..i] + b[i + 1..];
      assert b == b[..i] + [x] + b[i + 1..];
      assert a == [x] + a[1..];
      assert multiset(b) == multiset(b[..i]) + multiset{x} + multiset(b[i + 1..]);
      assert multiset(a) == multiset{x} + multiset(a[1..]);
      assert multiset(b') == multiset(b[..i]) + multiset(b[i + 1..]);
      assert multiset(a[1..]) == multiset(a) - multiset{x};
      assert multiset(b') == multiset(b) - multiset{x};
      FilterMapPermutes(f, a[1..], b');
      FilterMapConcat(f, b[..i] + [x], b[i + 1..]);
      FilterMapConcat(f, b[..i], [x]);
      FilterMapConcat(f, b[..i], b[i + 1..]);
    }
  }

  /** Flattening rearranged waves rearranges the flattened list. */
  lemma {:induction false} ConcatPermutes<T>(a: seq<seq<T>>, b: seq<seq<T>>)
    requires |a| == |b|
    requires forall k :: 0 <= k < |a| ==> multiset(a[k]) == multiset(b[k])
    ensures multiset(Concat(a)) == multiset(Concat(b))
  {
    if |a| > 0 {
      ConcatPermutes(a[1..], b[1..]);
    }
  }
}
