/** The histogram statistics over a batch of measurements (`quickAnalyze`
    and `analyze` in both programs): values are binned in steps of 20 with
    truncating division, counted per bin in a map ordered by bin (the C++
    `std::map`), the bins sorted by non-increasing count, and the peak bin,
    the top ten bins and the value range reported. Mean, variance and
    standard deviation are floating point and not modelled. */
module Statistics {
  import opened Common

  /** Integer division rounding toward zero, as C++ and Swift `/` do on
      Int; Dafny's own `/` rounds toward negative infinity for a positive
      divisor. */
  function TruncDiv(a: int, d: int): (q: int)
    requires d > 0
    ensures a >= 0 ==> q * d <= a < q * d + d
    ensures a < 0 ==> q * d - d < a <= q * d
  {
    if a >= 0 then a / d else -((-a) / d)
  }

  /** `(value / 20) * 20`: the multiple of 20 reached by moving the value
      toward zero, so -19 .. 19 all land in bin 0. */
  function BinOf(v: int): (b: int)
    ensures b % 20 == 0
    ensures v >= 0 ==> b <= v < b + 20
    ensures v < 0 ==> b - 20 < v <= b
  {
    var q := TruncDiv(v, 20);
    DivModUnique(q * 20, 20, q, 0);
    q * 20
  }

  lemma BinNearZero(v: int)
    requires -19 <= v <= 19
    ensures BinOf(v) == 0
  {
    var b := BinOf(v);
    DivModUnique(b, 20, b / 20, 0);
    MulAwayFromZero(b / 20, 20);
  }

  /** One bin of the histogram and its count. */
  datatype Entry = Entry(bin: int, count: nat)

  /** A histogram as the ordered map keeps it: bins strictly increasing. */
  ghost predicate Ordered(h: seq<Entry>)
  {
    forall i, j :: 0 <= i < j < |h| ==> h[i].bin < h[j].bin
  }

  predicate Positive(h: seq<Entry>)
  {
    forall i :: 0 <= i < |h| ==> h[i].count > 0
  }

  /** `histogram[b]` read without inserting: 0 for an absent bin. */
  function Lookup(h: seq<Entry>, b: int): nat
  {
    if |h| == 0 then 0 else if h[0].bin == b then h[0].count else Lookup(h[1..], b)
  }

  /** Some entry of h is for bin b. */
  ghost predicate HasBin(h: seq<Entry>, b: int)
  {
    exists i :: 0 <= i < |h| && h[i].bin == b
  }

  function Total(h: seq<Entry>): nat
  {
    if |h| == 0 then 0 else h[0].count + Total(h[1..])
  }

  /** `histogram[b] += 1` / `histogram[b]++`: a new bin is inserted in order
      with count 1, an existing one is incremented. */
  function Increment(h: seq<Entry>, b: int): seq<Entry>
  {
    if |h| == 0 then [Entry(b, 1)]
    else if h[0].bin == b then [Entry(b, h[0].count + 1)] + h[1..]
    else if b < h[0].bin then [Entry(b, 1)] + h
    else [h[0]] + Increment(h[1..], b)
  }

  /** Every bin of Increment(h, b) is above m when b and all of h's are. */
  lemma {:induction false} IncrementAbove(h: seq<Entry>, b: int, m: int)
    requires m < b && forall i :: 0 <= i < |h| ==> m < h[i].bin
    ensures forall j :: 0 <= j < |Increment(h, b)| ==> m < Increment(h, b)[j].bin
  {
    if |h| > 0 && h[0].bin != b && b >= h[0].bin {
      IncrementAbove(h[1..], b, m);
    }
  }

  lemma {:induction false} IncrementOrdered(h: seq<Entry>, b: int)
    requires Ordered(h)
    ensures Ordered(Increment(h, b))
  {
    if |h| > 0 && h[0].bin != b && b >= h[0].bin {
      IncrementOrdered(h[1..], b);
      IncrementAbove(h[1..], b, h[0].bin);
    }
  }

  lemma {:induction false} IncrementPositive(h: seq<Entry>, b: int)
    requires Positive(h)
    ensures Positive(Increment(h, b))
  {
    if |h| > 0 && h[0].bin != b && b >= h[0].bin {
      IncrementPositive(h[1..], b);
    }
  }

  lemma {:induction false} IncrementTotal(h: seq<Entry>, b: int)
    ensures Total(Increment(h, b)) == Total(h) + 1
  {
    var r := Increment(h, b);
    if |h| > 0 {
      if h[0].bin == b {
        assert r[1..] == h[1..];
      } else if b < h[0].bin {
        assert r[1..] == h;
      } else {
        IncrementTotal(h[1..], b);
        assert r[1..] == Increment(h[1..], b);
      }
    }
  }

  /** Incrementing bin b adds one to b's count and leaves every other bin's. */
  lemma {:induction false} IncrementLookup(h: seq<Entry>, b: int, k: int)
    requires Ordered(h)
    ensures Lookup(Increment(h, b), k) == Lookup(h, k) + (if k == b then 1 else 0)
  {
    var r := Increment(h, b);
    if |h| > 0 {
      if h[0].bin == b {
        assert r[1..] == h[1..];
      } else if b < h[0].bin {
        assert r[1..] == h;
        if k == b {
          LookupBelow(h, b);
        }
      } else {
        assert r[1..] == Increment(h[1..], b);
        IncrementLookup(h[1..], b, k);
      }
    }
  }

  /** A bin below every key of an ordered histogram is absent from it. */
  lemma {:induction false} LookupBelow(h: seq<Entry>, b: int)
    requires Ordered(h) && (|h| > 0 ==> b < h[0].bin)
    ensures Lookup(h, b) == 0
  {
    if |h| > 0 {
      if |h| > 1 {
        assert h[0].bin < h[1].bin;
      }
      LookupBelow(h[1..], b);
    }
  }

  /** The bin a lookup finds is the entry's own count. */
  lemma {:induction false} LookupFinds(h: seq<Entry>, i: nat)
    requires Ordered(h) && i < |h|
    ensures Lookup(h, h[i].bin) == h[i].count
  {
    if i > 0 {
      assert h[0].bin < h[i].bin;
      assert h[1..][i - 1] == h[i];
      LookupFinds(h[1..], i - 1);
    }
  }

  /** A bin with a non-zero lookup has an entry. */
  lemma {:induction false} LookupPresent(h: seq<Entry>, b: int)
    ensures Lookup(h, b) > 0 ==> HasBin(h, b)
  {
    if |h| > 0 && h[0].bin != b {
      LookupPresent(h[1..], b);
      if HasBin(h[1..], b) {
        var i :| 0 <= i < |h[1..]| && h[1..][i].bin == b;
        assert h[i + 1].bin == b;
      }
    }
  }

  /** How many values of data fall into bin b. */
  function CountOf(data: seq<int>, b: int): (c: nat)
    ensures c <= |data|
  {
    if |data| == 0 then 0
    else CountOf(data[..|data| - 1], b) + (if BinOf(data[|data| - 1]) == b then 1 else 0)
  }

  /** The histogram the counting loop builds, value by value. */
  function HistogramOf(data: seq<int>): seq<Entry>
  {
    if |data| == 0 then []
    else Increment(HistogramOf(data[..|data| - 1]), BinOf(data[|data| - 1]))
  }

  /** What the histogram of a batch holds: bins in increasing order, each
      with the number of values that fall into it, and counts that add up to
      the batch size. */
  lemma {:induction false} HistogramCorrect(data: seq<int>)
    ensures var h := HistogramOf(data);
      Ordered(h) && Positive(h)
      && Total(h) == |data|
      && (forall b :: Lookup(h, b) == CountOf(data, b))
  {
    if |data| > 0 {
      var init := data[..|data| - 1];
      var b := BinOf(data[|data| - 1]);
      HistogramCorrect(init);
      IncrementOrdered(HistogramOf(init), b);
      IncrementPositive(HistogramOf(init), b);
      IncrementTotal(HistogramOf(init), b);
      forall k ensures Lookup(HistogramOf(data), k) == CountOf(data, k) {
        IncrementLookup(HistogramOf(init), b, k);
      }
    }
  }

  /** Every entry carries its bin's count, and every bin some value falls
      into has an entry. */
  lemma HistogramEntries(data: seq<int>)
    ensures var h := HistogramOf(data);
      (forall i :: 0 <= i < |h| ==> h[i].count == CountOf(data, h[i].bin) > 0)
      && (forall b :: CountOf(data, b) > 0 ==> HasBin(h, b))
  {
    var h := HistogramOf(data);
    HistogramCorrect(data);
    forall i | 0 <= i < |h| ensures h[i].count == CountOf(data, h[i].bin) {
      LookupFinds(h, i);
    }
    forall b | CountOf(data, b) > 0 ensures HasBin(h, b) {
      LookupPresent(h, b);
    }
  }

  /** The counting loop: `for value in data { histogram[bin]++ }`. */
  method BuildHistogram(data: seq<int>) returns (h: seq<Entry>)
    ensures h == HistogramOf(data)
    ensures Ordered(h) && Positive(h) && Total(h) == |data|
    ensures forall b :: Lookup(h, b) == CountOf(data, b)
  {
    h := [];
    var i := 0;
    while i < |data|
      invariant 0 <= i <= |data|
      invariant h == HistogramOf(data[..i])
    {
      assert data[..i + 1][..i] == data[..i];
      h := Increment(h, BinOf(data[i]));
      i := i + 1;
    }
    assert data[..i] == data;
    HistogramCorrect(data);
  }

  /** Counts non-increasing along the sequence. */
  ghost predicate ByCount(s: seq<Entry>)
  {
    forall i, j :: 0 <= i < j < |s| ==> s[i].count >= s[j].count
  }

  /** e placed before the first entry with a smaller count. */
  function InsertByCount(s: seq<Entry>, e: Entry): (r: seq<Entry>)
    ensures |r| == |s| + 1
  {
    if |s| == 0 then [e]
    else if s[0].count >= e.count then [s[0]] + InsertByCount(s[1..], e)
    else [e] + s
  }

  lemma {:induction false} InsertByCountPermutes(s: seq<Entry>, e: Entry)
    ensures multiset(InsertByCount(s, e)) == multiset(s) + multiset{e}
  {
    if |s| > 0 {
      assert s == [s[0]] + s[1..];
      if s[0].count >= e.count {
        InsertByCountPermutes(s[1..], e);
      }
    }
  }

  /** Every count in the result is at most c when e's and all of s's are. */
  lemma {:induction false} InsertByCountBelow(s: seq<Entry>, e: Entry, c: nat)
    requires e.count <= c && forall i :: 0 <= i < |s| ==> s[i].count <= c
    ensures forall j :: 0 <= j < |InsertByCount(s, e)| ==> InsertByCount(s, e)[j].count <= c
  {
    if |s| > 0 && s[0].count >= e.count {
      InsertByCountBelow(s[1..], e, c);
    }
  }

  /** Inserting keeps the counts non-increasing. */
  lemma {:induction false} InsertByCountSorted(s: seq<Entry>, e: Entry)
    requires ByCount(s)
    ensures ByCount(InsertByCount(s, e))
  {
    if |s| > 0 && s[0].count >= e.count {
      InsertByCountSorted(s[1..], e);
      InsertByCountBelow(s[1..], e, s[0].count);
    }
  }

  /** The sort by `a.second > b.second` (C++) / `$0.value > $1.value`
      (Swift): a permutation of the bins with non-increasing counts. The
      order among equal counts is unspecified in both languages; this one
      keeps the bin order. */
  method SortByCount(h: seq<Entry>) returns (sorted: seq<Entry>)
    ensures multiset(sorted) == multiset(h)
    ensures ByCount(sorted)
  {
    sorted := [];
    var i := 0;
    while i < |h|
      invariant 0 <= i <= |h|
      invariant multiset(sorted) == multiset(h[..i])
      invariant ByCount(sorted)
    {
      assert h[..i + 1] == h[..i] + [h[i]];
      InsertByCountPermutes(sorted, h[i]);
      InsertByCountSorted(sorted, h[i]);
      sorted := InsertByCount(sorted, h[i]);
      i := i + 1;
    }
    assert h[..i] == h;
  }

  /** An entry of a histogram is found at some index of any permutation of it. */
  lemma EntryInPermutation(h: seq<Entry>, sorted: seq<Entry>, i: nat) returns (j: nat)
    requires multiset(sorted) == multiset(h) && i < |h|
    ensures j < |sorted| && sorted[j] == h[i]
  {
    assert h[i] in multiset(h);
    assert h[i] in sorted;
    j :| 0 <= j < |sorted| && sorted[j] == h[i];
  }

  /** The first entry of a non-increasing permutation of an ordered
      histogram is a bin with the largest count. */
  lemma PeakIsMaximal(h: seq<Entry>, sorted: seq<Entry>)
    requires Ordered(h) && ByCount(sorted) && multiset(sorted) == multiset(h) && |h| > 0
    ensures |sorted| > 0
    ensures forall b :: Lookup(h, b) <= sorted[0].count
    ensures Lookup(h, sorted[0].bin) == sorted[0].count
  {
    assert |sorted| == |multiset(sorted)| == |h|;
    forall b ensures Lookup(h, b) <= sorted[0].count {
      LookupPresent(h, b);
      if Lookup(h, b) > 0 {
        var i :| 0 <= i < |h| && h[i].bin == b;
        LookupFinds(h, i);
        var j := EntryInPermutation(h, sorted, i);
      }
    }
    assert sorted[0] in multiset(h);
    var i :| 0 <= i < |h| && h[i] == sorted[0];
    LookupFinds(h, i);
  }

  /** The integer part of `QuickStats`; the peak percentage is `None` for an
      empty batch, where the source divides 0 by 0. */
  datatype QuickStats = QuickStats(peakBin: int, peakCount: nat, peakPercent: Option<real>)

  /** What `quickAnalyze` reports about a batch: the peak bin is a bin with
      the largest count (0 when there are no values), reported with its
      share of the batch. */
  ghost predicate Summarises(data: seq<int>, stats: QuickStats)
  {
    if |data| == 0 then stats == QuickStats(0, 0, None)
    else
      && stats.peakCount > 0
      && CountOf(data, stats.peakBin) == stats.peakCount
      && (forall b :: CountOf(data, b) <= stats.peakCount)
      && stats.peakPercent == Some(stats.peakCount as real / |data| as real * 100.0)
  }

  /** `quickAnalyze(data)`. */
  method QuickAnalyze(data: seq<int>) returns (stats: QuickStats)
    ensures Summarises(data, stats)
  {
    var histogram := BuildHistogram(data);
    var sorted := SortByCount(histogram);
    if |sorted| == 0 {
      assert |histogram| == 0;
      assert Total(histogram) == 0 == |data|;
      stats := QuickStats(0, 0, if |data| == 0 then None else Some(0.0));
    } else {
      PeakIsMaximal(histogram, sorted);
      var peakCount := sorted[0].count;
      var share := if |data| == 0 then None else Some(peakCount as real / |data| as real * 100.0);
      stats := QuickStats(sorted[0].bin, peakCount, share);
      TotalPositive(histogram);
      PermutedEntries(data, sorted);
      assert peakCount > 0;
      assert |data| > 0 && share == Some(peakCount as real / |data| as real * 100.0);
    }
  }

  /** A histogram with entries and positive counts has a positive total. */
  lemma TotalPositive(h: seq<Entry>)
    requires Positive(h) && |h| > 0
    ensures Total(h) > 0
  {
  }

  /** The smallest and largest values of a non-empty batch. */
  function MinOf(data: seq<int>): (m: int)
    requires |data| > 0
    ensures m in data && forall i :: 0 <= i < |data| ==> m <= data[i]
  {
    if |data| == 1 then data[0]
    else
      var rest := MinOf(data[1..]);
      assert forall i :: 1 <= i < |data| ==> data[i] == data[1..][i - 1];
      if data[0] <= rest then data[0] else rest
  }

  function MaxOf(data: seq<int>): (m: int)
    requires |data| > 0
    ensures m in data && forall i :: 0 <= i < |data| ==> data[i] <= m
  {
    if |data| == 1 then data[0]
    else
      var rest := MaxOf(data[1..]);
      assert forall i :: 1 <= i < |data| ==> data[i] == data[1..][i - 1];
      if data[0] >= rest then data[0] else rest
  }

  /** What the top-ten list of `analyze` promises: min(10, #bins) distinct
      bins of the batch, each with its count, in non-increasing count order,
      and no bin left out has a larger count than the last one listed. */
  ghost predicate IsTopBins(data: seq<int>, top: seq<Entry>)
  {
    var bins := |HistogramOf(data)|;
    |top| == (if bins < 10 then bins else 10)
    && ByCount(top)
    && (forall i, j :: 0 <= i < j < |top| ==> top[i].bin != top[j].bin)
    && (forall i :: 0 <= i < |top| ==> top[i].count == CountOf(data, top[i].bin) > 0)
    && (forall b :: !HasBin(top, b) && |top| > 0 ==> CountOf(data, b) <= top[|top| - 1].count)
  }

  /** Every entry of a permutation of the histogram carries its bin's count. */
  lemma PermutedEntries(data: seq<int>, sorted: seq<Entry>)
    requires multiset(sorted) == multiset(HistogramOf(data))
    ensures forall j :: 0 <= j < |sorted| ==> sorted[j].count == CountOf(data, sorted[j].bin) > 0
  {
    var h := HistogramOf(data);
    HistogramEntries(data);
    forall j | 0 <= j < |sorted| ensures sorted[j].count == CountOf(data, sorted[j].bin) > 0 {
      assert sorted[j] in multiset(h);
      var m :| 0 <= m < |h| && h[m] == sorted[j];
    }
  }

  /** A bin outside the first k entries of the count-sorted bins has no
      larger count than entry k - 1. */
  lemma LeftOutBelow(data: seq<int>, sorted: seq<Entry>, k: nat, b: int)
    requires multiset(sorted) == multiset(HistogramOf(data)) && ByCount(sorted)
    requires 0 < k <= |sorted| && !HasBin(sorted[..k], b)
    ensures CountOf(data, b) <= sorted[k - 1].count
  {
    var h := HistogramOf(data);
    HistogramEntries(data);
    if CountOf(data, b) > 0 {
      var m :| 0 <= m < |h| && h[m].bin == b;
      var j := EntryInPermutation(h, sorted, m);
      assert forall i :: 0 <= i < k ==> sorted[..k][i] == sorted[i];
      assert j >= k;
    }
  }

  /** A prefix of a count-sorted list is count-sorted. */
  lemma PrefixByCount(sorted: seq<Entry>, k: nat)
    requires ByCount(sorted) && k <= |sorted|
    ensures ByCount(sorted[..k])
  {
    assert forall i :: 0 <= i < k ==> sorted[..k][i] == sorted[i];
  }

  /** Every entry of a prefix of the count-sorted bins carries its bin's count. */
  lemma PrefixEntries(data: seq<int>, sorted: seq<Entry>, k: nat)
    requires multiset(sorted) == multiset(HistogramOf(data)) && k <= |sorted|
    ensures forall i :: 0 <= i < |sorted[..k]| ==> sorted[..k][i].count == CountOf(data, sorted[..k][i].bin) > 0
  {
    PermutedEntries(data, sorted);
    assert forall i :: 0 <= i < k ==> sorted[..k][i] == sorted[i];
  }

  /** A prefix of the count-sorted bins is a top list. */
  lemma PrefixIsTop(data: seq<int>, sorted: seq<Entry>, k: nat)
    requires multiset(sorted) == multiset(HistogramOf(data)) && ByCount(sorted)
    requires k == if |sorted| < 10 then |sorted| else 10
    ensures IsTopBins(data, sorted[..k])
  {
    PermutationLength(sorted, HistogramOf(data));
    var bins := |HistogramOf(data)|;
    assert |sorted[..k]| == (if bins < 10 then bins else 10);
    PrefixByCount(sorted, k);
    PrefixDistinct(data, sorted, k);
    PrefixEntries(data, sorted, k);
    PrefixLeavesOutLess(data, sorted, k);
  }

  /** An ordered histogram holds each entry at most once. */
  lemma {:induction false} OrderedAtMostOnce(h: seq<Entry>, e: Entry)
    requires Ordered(h)
    ensures multiset(h)[e] <= 1
  {
    if |h| > 0 {
      assert h == [h[0]] + h[1..];
      assert forall i :: 0 <= i < |h| - 1 ==> h[1..][i] == h[i + 1];
      OrderedAtMostOnce(h[1..], e);
      assert h[0] !in h[1..];
    }
  }

  /** The entry at i is counted once, and twice when it recurs at j. */
  lemma CountAtLeast(s: seq<Entry>, i: nat, j: nat)
    requires i < j < |s|
    ensures multiset(s)[s[i]] >= if s[i] == s[j] then 2 else 1
  {
    assert s == s[..j] + s[j..];
    assert s[..j][i] == s[i] && s[j..][0] == s[j];
    assert multiset(s) == multiset(s[..j]) + multiset(s[j..]);
  }

  /** No bin appears twice among the first k of the count-sorted bins. */
  lemma PrefixDistinct(data: seq<int>, sorted: seq<Entry>, k: nat)
    requires multiset(sorted) == multiset(HistogramOf(data)) && k <= |sorted|
    ensures forall i, j :: 0 <= i < j < |sorted[..k]| ==> sorted[..k][i].bin != sorted[..k][j].bin
  {
    var h := HistogramOf(data);
    HistogramCorrect(data);
    PermutedEntries(data, sorted);
    forall i, j | 0 <= i < j < |sorted[..k]| ensures sorted[..k][i].bin != sorted[..k][j].bin {
      assert sorted[..k][i] == sorted[i] && sorted[..k][j] == sorted[j];
      OrderedAtMostOnce(h, sorted[i]);
      CountAtLeast(sorted, i, j);
      assert sorted[i] != sorted[j];
    }
  }

  lemma PermutationLength(s: seq<Entry>, t: seq<Entry>)
    requires multiset(s) == multiset(t)
    ensures |s| == |t|
  {
    assert |s| == |multiset(s)| == |multiset(t)| == |t|;
  }

  /** No bin outside a non-empty prefix of the count-sorted bins has a
      larger count than the prefix's last entry. */
  lemma PrefixLeavesOutLess(data: seq<int>, sorted: seq<Entry>, k: nat)
    requires multiset(sorted) == multiset(HistogramOf(data)) && ByCount(sorted) && k <= |sorted|
    ensures forall b :: !HasBin(sorted[..k], b) && |sorted[..k]| > 0 ==> CountOf(data, b) <= sorted[..k][|sorted[..k]| - 1].count
  {
    var top := sorted[..k];
    assert |top| == k && (k > 0 ==> top[k - 1] == sorted[k - 1]);
    forall b | !HasBin(top, b) && |top| > 0 ensures CountOf(data, b) <= top[|top| - 1].count {
      LeftOutBelow(data, sorted, k, b);
    }
  }

  /** The top-ten histogram of `analyze`: the first min(10, #bins) entries
      of the bins sorted by count. */
  method TopBins(data: seq<int>) returns (top: seq<Entry>)
    ensures IsTopBins(data, top)
  {
    var histogram := BuildHistogram(data);
    var sorted := SortByCount(histogram);
    var k := if |sorted| < 10 then |sorted| else 10;
    PrefixIsTop(data, sorted, k);
    top := sorted[..k];
  }

  /** The integer part of what `analyze` reports: the range and the top bins. */
  datatype Report = Report(minVal: int, maxVal: int, top: seq<Entry>)

  /** Swift `analyze`: `data.min() ?? 0` and `data.max() ?? 0` give 0 for an
      empty batch. */
  method SwiftAnalyze(data: seq<int>) returns (r: Report)
    ensures |data| == 0 ==> r.minVal == 0 && r.maxVal == 0 && r.top == []
    ensures |data| > 0 ==> r.minVal in data && r.maxVal in data
    ensures forall i :: 0 <= i < |data| ==> r.minVal <= data[i] <= r.maxVal
    ensures IsTopBins(data, r.top)
  {
    var lo := if |data| == 0 then 0 else MinOf(data);
    var hi := if |data| == 0 then 0 else MaxOf(data);
    var top := TopBins(data);
    r := Report(lo, hi, top);
  }

  /** C++ `analyze`: `*std::min_element` on an empty vector dereferences the
      end iterator, so the batch must not be empty. */
  method CppAnalyze(data: seq<int>) returns (r: Report)
    requires |data| > 0
    ensures r.minVal in data && r.maxVal in data
    ensures forall i :: 0 <= i < |data| ==> r.minVal <= data[i] <= r.maxVal
    ensures IsTopBins(data, r.top)
  {
    var top := TopBins(data);
    r := Report(MinOf(data), MaxOf(data), top);
  }
}
