/** Evidence metrics: the summary a generator derives from raw samples and the check that recomputes it.
    Arithmetic is over the reals. */
module Percentile {
  import opened Prelude

  // ---- Sorted samples ----------------------------------------------------------------------------------

  predicate Sorted(s: seq<real>) { forall i, j :: 0 <= i <= j < |s| ==> s[i] <= s[j] }

  lemma SortedCons(x: real, s: seq<real>)
    requires Sorted(s) && (s == [] || x <= s[0])
    ensures Sorted([x] + s)
  {
    var r := [x] + s;
    forall i, j | 0 <= i <= j < |r| ensures r[i] <= r[j] {
      if i > 0 {
        assert r[i] == s[i - 1] && r[j] == s[j - 1];
      } else if j > 0 {
        assert r[j] == s[j - 1] && s[0] <= s[j - 1];
      }
    }
  }

  lemma SplitFirst(s: seq<real>)
    requires s != []
    ensures s == [s[0]] + s[1..] && multiset(s) == multiset{s[0]} + multiset(s[1..])
  {
    assert s == [s[0]] + s[1..];
  }

  function Insert(x: real, s: seq<real>): (r: seq<real>)
    requires Sorted(s)
    ensures |r| == |s| + 1 && Sorted(r) && (r[0] == x || (s != [] && r[0] == s[0]))
  {
    if s == [] then [x]
    else if x <= s[0] then
      SortedCons(x, s);
      [x] + s
    else
      SortedCons(s[0], Insert(x, s[1..]));
      [s[0]] + Insert(x, s[1..])
  }

  lemma {:induction false} InsertKeepsAll(x: real, s: seq<real>)
    requires Sorted(s)
    ensures multiset(Insert(x, s)) == multiset{x} + multiset(s)
  {
    if s != [] && s[0] < x {
      InsertKeepsAll(x, s[1..]);
      SplitFirst(s);
      SplitFirst(Insert(x, s));
      assert Insert(x, s)[1..] == Insert(x, s[1..]);
    } else {
      SplitFirst([x] + s);
      assert ([x] + s)[1..] == s;
    }
  }

  /** `sorted`: any sorting function would do, by `SortIsUnique`. */
  function Sort(s: seq<real>): (r: seq<real>)
    ensures |r| == |s| && Sorted(r)
  {
    if s == [] then [] else Insert(s[0], Sort(s[1..]))
  }

  lemma {:induction false} SortKeepsAll(s: seq<real>)
    ensures multiset(Sort(s)) == multiset(s)
  {
    if s != [] {
      SortKeepsAll(s[1..]);
      InsertKeepsAll(s[0], Sort(s[1..]));
      SplitFirst(s);
    }
  }

  lemma LeastIsFirst(s: seq<real>, x: real)
    requires s != [] && Sorted(s) && x in multiset(s)
    ensures s[0] <= x
  {
    assert x in s;
  }

  /** Sorted samples are determined by which samples they are. */
  lemma {:induction false} SortIsUnique(a: seq<real>, b: seq<real>)
    requires Sorted(a) && Sorted(b) && multiset(a) == multiset(b)
    ensures a == b
  {
    assert |multiset(a)| == |multiset(b)|;
    if a != [] {
      SameFirst(a, b);
      SortIsUnique(a[1..], b[1..]);
      assert a == [a[0]] + a[1..] && b == [b[0]] + b[1..];
    }
  }

  lemma FirstEqual(a: seq<real>, b: seq<real>)
    requires Sorted(a) && Sorted(b) && multiset(a) == multiset(b) && a != [] && b != []
    ensures a[0] == b[0]
  {
    assert b[0] in multiset(b) && a[0] in multiset(a);
    LeastIsFirst(a, b[0]);
    LeastIsFirst(b, a[0]);
  }

  lemma SameFirst(a: seq<real>, b: seq<real>)
    requires Sorted(a) && Sorted(b) && multiset(a) == multiset(b) && a != [] && b != []
    ensures a[0] == b[0] && multiset(a[1..]) == multiset(b[1..])
  {
    FirstEqual(a, b);
    SplitFirst(a);
    SplitFirst(b);
    RestEqual(a[0], multiset(a[1..]), multiset(b[1..]));
  }

  lemma RestEqual(x: real, a: multiset<real>, b: multiset<real>)
    requires multiset{x} + a == multiset{x} + b
    ensures a == b
  {
    assert (multiset{x} + a) - multiset{x} == a && (multiset{x} + b) - multiset{x} == b;
  }

  lemma SameSamplesSortTheSame(a: seq<real>, b: seq<real>)
    requires multiset(a) == multiset(b)
    ensures Sort(a) == Sort(b) && |a| == |b|
  {
    SortKeepsAll(a);
    SortKeepsAll(b);
    SortIsUnique(Sort(a), Sort(b));
    assert |multiset(a)| == |multiset(b)|;
  }

  // ---- Percentiles -------------------------------------------------------------------------------------

  /** The value at a fractional rank, by linear interpolation. */
  function At(s: seq<real>, rank: real): real
    requires s != [] && 0.0 <= rank <= (|s| - 1) as real
  {
    var lower := rank.Floor;
    var upper := if lower + 1 <= |s| - 1 then lower + 1 else |s| - 1;
    Mix(s[lower], s[upper], rank - lower as real)
  }

  function Mix(a: real, b: real, weight: real): real { a * (1.0 - weight) + b * weight }

  function Rank(n: nat, p: real): (r: real)
    requires n > 0 && 0.0 <= p <= 1.0
    ensures 0.0 <= r <= (n - 1) as real
  {
    ScaleBounds((n - 1) as real, p);
    p * (n - 1) as real
  }

  /** compute_percentile */
  function Compute(s: seq<real>, p: real): real
    requires 0.0 <= p <= 1.0
  {
    if s == [] then 0.0 else if |s| == 1 then s[0] else At(s, Rank(|s|, p))
  }

  lemma Product(a: real, b: real)
    requires a >= 0.0 && b >= 0.0
    ensures a * b >= 0.0
  {}

  lemma ScaleBounds(m: real, p: real)
    requires 0.0 <= p <= 1.0 && 0.0 <= m
    ensures 0.0 <= p * m <= m
  {
    Product(p, m);
    Product(1.0 - p, m);
  }

  lemma MixBounds(a: real, b: real, w: real)
    requires a <= b && 0.0 <= w <= 1.0
    ensures a <= Mix(a, b, w) <= b
  {
    assert a * (1.0 - w) + b * w == a + (b - a) * w;
    Product(b - a, w);
    Product(b - a, 1.0 - w);
    assert b - (a + (b - a) * w) == (b - a) * (1.0 - w);
  }

  lemma MixMonotone(a: real, b: real, v: real, w: real)
    requires a <= b && v <= w
    ensures Mix(a, b, v) <= Mix(a, b, w)
  {
    Product(b - a, w - v);
    assert (a * (1.0 - w) + b * w) - (a * (1.0 - v) + b * v) == (b - a) * (w - v);
  }

  /** A value at a rank lies between its two neighbours. */
  lemma AtBetween(s: seq<real>, rank: real)
    requires s != [] && Sorted(s) && 0.0 <= rank <= (|s| - 1) as real
    ensures s[rank.Floor] <= At(s, rank)
    ensures forall j :: rank.Floor < j < |s| ==> At(s, rank) <= s[j]
    ensures At(s, rank) <= s[|s| - 1]
  {
    var lower := rank.Floor;
    var upper := if lower + 1 <= |s| - 1 then lower + 1 else |s| - 1;
    var value := Mix(s[lower], s[upper], rank - lower as real);
    assert At(s, rank) == value;
    MixBounds(s[lower], s[upper], rank - lower as real);
    forall j | lower < j < |s| ensures value <= s[j] {
      assert s[upper] <= s[j];
    }
  }

  lemma AtMonotone(s: seq<real>, x: real, y: real)
    requires s != [] && Sorted(s) && 0.0 <= x <= y <= (|s| - 1) as real
    ensures At(s, x) <= At(s, y)
  {
    if x.Floor == y.Floor {
      var lower := x.Floor;
      var upper := if lower + 1 <= |s| - 1 then lower + 1 else |s| - 1;
      MixMonotone(s[lower], s[upper], x - lower as real, y - lower as real);
    } else {
      AtBetween(s, x);
      AtBetween(s, y);
      assert At(s, x) <= s[y.Floor];
    }
  }

  /** Percentiles of the same samples are ordered like their levels and stay within the samples' range. */
  lemma PercentilesAreOrdered(s: seq<real>, p: real, q: real)
    requires s != [] && Sorted(s) && 0.0 <= p <= q <= 1.0
    ensures s[0] <= Compute(s, p) <= Compute(s, q) <= s[|s| - 1]
  {
    if |s| > 1 {
      var m := (|s| - 1) as real;
      assert q * m - p * m == (q - p) * m;
      Product(q - p, m);
      AtMonotone(s, Rank(|s|, p), Rank(|s|, q));
      AtBetween(s, Rank(|s|, p));
      AtBetween(s, Rank(|s|, q));
    }
  }

  /** What a percentile means: the samples up to p of the way through are no larger, and those from there on no
      smaller. */
  lemma PercentileSplitsSamples(s: seq<real>, p: real)
    requires |s| > 1 && Sorted(s) && 0.0 <= p <= 1.0
    ensures forall i {:trigger s[i]} :: 0 <= i < |s| && i as real <= p * (|s| - 1) as real ==> s[i] <= Compute(s, p)
    ensures forall j {:trigger s[j]} :: 0 <= j < |s| && p * (|s| - 1) as real <= j as real ==> Compute(s, p) <= s[j]
  {
    var rank := Rank(|s|, p);
    AtBetween(s, rank);
    forall i | 0 <= i < |s| && i as real <= rank ensures s[i] <= Compute(s, p) {
      assert i <= rank.Floor && s[i] <= s[rank.Floor];
    }
    forall j | 0 <= j < |s| && rank <= j as real ensures Compute(s, p) <= s[j] {
      if j == rank.Floor { AtWholeRank(s, j); }
    }
  }

  lemma AtWholeRank(s: seq<real>, k: nat)
    requires k < |s|
    ensures At(s, k as real) == s[k]
  {
    assert (k as real).Floor == k;
  }

  /** Position k + w, with k + 1 still a sample, is this fraction of the way through n samples. */
  predicate Locates(n: nat, p: real, k: nat, w: real) {
    k + 1 < n && 0.0 <= w <= 1.0 && k as real + w == p * (n - 1) as real
  }

  /** Which percentile it is: p of the way from the first sample to the last, on the line between the two samples
      there. */
  lemma PercentileInterpolates(s: seq<real>, p: real, k: nat, w: real)
    requires 0.0 <= p <= 1.0 && Locates(|s|, p, k, w)
    ensures Compute(s, p) == s[k] + (s[k + 1] - s[k]) * w
  {
    assert s[k] * (1.0 - w) + s[k + 1] * w == s[k] + (s[k + 1] - s[k]) * w;
  }

  /** In particular the samples themselves are the percentiles at equal distances. */
  lemma PercentileAtSample(s: seq<real>, k: nat)
    requires k < |s| && |s| > 1
    ensures 0.0 <= k as real / (|s| - 1) as real <= 1.0 && Compute(s, k as real / (|s| - 1) as real) == s[k]
  {
    var m := (|s| - 1) as real;
    var p := k as real / m;
    assert p * m == k as real;
    DivideBounds(0.0, k as real, 1.0, m);
    if k + 1 < |s| {
      PercentileInterpolates(s, p, k, 0.0);
    } else {
      PercentileInterpolates(s, p, k - 1, 1.0);
    }
  }

  /** Every level lies somewhere between two neighbours. */
  lemma Locate(n: nat, p: real) returns (k: nat, w: real)
    requires n > 1 && 0.0 <= p <= 1.0
    ensures Locates(n, p, k, w)
  {
    var rank := p * (n - 1) as real;
    ScaleBounds((n - 1) as real, p);
    var lower := rank.Floor;
    assert lower <= n - 1;
    if lower == n - 1 {
      assert lower as real <= rank && rank <= (n - 1) as real && lower as real == (n - 1) as real;
      k, w := n - 2, 1.0;
    } else {
      k, w := lower, rank - lower as real;
    }
  }

  // ---- Summaries ---------------------------------------------------------------------------------------

  function Sum(s: seq<real>): real {
    if s == [] then 0.0 else Sum(s[..|s| - 1]) + s[|s| - 1]
  }

  function Mean(s: seq<real>): real
    requires s != []
  {
    Sum(s) / |s| as real
  }

  /** A metric's summary as a manifest holds it: a number that is absent reads as zero. */
  datatype Summary = Summary(p50: real, p95: real, p99: real, mean: real, min: real, max: real, count: Option<nat>)

  const ABSENT := Summary(0.0, 0.0, 0.0, 0.0, 0.0, 0.0, None)

  function Of(s: seq<real>): Summary
    requires s != []
  {
    Summary(Compute(s, 0.50), Compute(s, 0.95), Compute(s, 0.99), Mean(s), s[0], s[|s| - 1], Some(|s|))
  }

  /** calculate_summary */
  function Calculate(samples: seq<real>): Summary {
    if samples == [] then ABSENT else Of(Sort(samples))
  }

  /** A summary depends on which samples were taken, not on their order. */
  lemma SummaryIgnoresOrder(a: seq<real>, b: seq<real>)
    requires multiset(a) == multiset(b)
    ensures Calculate(a) == Calculate(b)
  {
    SameSamplesSortTheSame(a, b);
  }

  /** This value is the level of `percent` hundredths among sorted samples. */
  ghost predicate AtLevel(s: seq<real>, percent: nat, v: real) {
    if |s| == 1 then v == s[0]
    else exists k: nat, w: real :: Locates(|s|, percent as real / 100.0, k, w) && v == Between(s, k, w)
  }

  /** The point w of the way from sample k to the next. */
  function Between(s: seq<real>, k: nat, w: real): real
    requires k + 1 < |s|
  {
    s[k] + (s[k + 1] - s[k]) * w
  }

  lemma ComputeIsAtLevel(s: seq<real>, percent: nat, p: real)
    requires s != [] && percent <= 100 && p == percent as real / 100.0
    ensures AtLevel(s, percent, Compute(s, p))
  {
    if |s| > 1 {
      var k, w := Locate(|s|, p);
      PercentileInterpolates(s, p, k, w);
      assert Compute(s, p) == Between(s, k, w);
    }
  }

  lemma {:induction false} SumConcat(a: seq<real>, b: seq<real>)
    ensures Sum(a + b) == Sum(a) + Sum(b)
    decreases |b|
  {
    if b == [] {
      assert a + b == a;
    } else {
      SumConcat(a, b[..|b| - 1]);
      assert (a + b)[..|a + b| - 1] == a + b[..|b| - 1];
    }
  }

  lemma SumAround(a: seq<real>, x: real, b: seq<real>)
    ensures Sum(a + [x] + b) == Sum(a + b) + x
  {
    SumConcat(a + [x], b);
    SumConcat(a, b);
    assert (a + [x])[..|a|] == a;
  }

  lemma SplitAt(s: seq<real>, x: real) returns (before: seq<real>, after: seq<real>)
    requires x in multiset(s)
    ensures s == before + [x] + after
    ensures multiset(s) == multiset{x} + multiset(before + after)
  {
    assert x in s;
    var k :| 0 <= k < |s| && s[k] == x;
    before, after := s[..k], s[k + 1..];
    assert s == before + [x] + after;
  }

  lemma SumFirst(s: seq<real>)
    requires s != []
    ensures Sum(s) == s[0] + Sum(s[1..])
  {
    SumAround([], s[0], s[1..]);
    assert [] + [s[0]] + s[1..] == s && [] + s[1..] == s[1..];
  }

  /** The sum does not depend on the order of the samples. */
  lemma {:induction false} SumIgnoresOrder(a: seq<real>, b: seq<real>)
    requires multiset(a) == multiset(b)
    ensures Sum(a) == Sum(b)
    decreases |a|
  {
    assert |multiset(a)| == |multiset(b)|;
    if a != [] {
      assert a[0] in multiset(a);
      var before, after := SplitAt(b, a[0]);
      SplitFirst(a);
      RestEqual(a[0], multiset(a[1..]), multiset(before + after));
      SumIgnoresOrder(a[1..], before + after);
      SumFirst(a);
      SumAround(before, a[0], after);
    }
  }

  lemma SortIsThis(samples: seq<real>, s: seq<real>)
    requires Sorted(s) && multiset(s) == multiset(samples)
    ensures Sort(samples) == s && |s| == |samples|
  {
    SortKeepsAll(samples);
    SortIsUnique(Sort(samples), s);
  }

  /** Each of these values is at its level. */
  lemma LevelsAreExact(s: seq<real>)
    requires s != []
    ensures AtLevel(s, 50, Of(s).p50) && AtLevel(s, 95, Of(s).p95) && AtLevel(s, 99, Of(s).p99)
  {
    ComputeIsAtLevel(s, 50, 0.50);
    ComputeIsAtLevel(s, 95, 0.95);
    ComputeIsAtLevel(s, 99, 0.99);
  }

  lemma RangeIsExact(s: seq<real>, samples: seq<real>)
    requires Sorted(s) && multiset(s) == multiset(samples) && s != []
    ensures Of(s).min in samples && Of(s).max in samples && forall x :: x in samples ==> Of(s).min <= x <= Of(s).max
  {
    forall x ensures x in samples <==> x in s { assert x in multiset(samples) <==> x in multiset(s); }
  }

  /** What a summary says about its samples, in whatever order they were taken; `s` is any sorted list of them. */
  lemma SummaryIsExact(samples: seq<real>, s: seq<real>)
    requires samples != [] && Sorted(s) && multiset(s) == multiset(samples)
    ensures var r := Calculate(samples);
            && AtLevel(s, 50, r.p50) && AtLevel(s, 95, r.p95) && AtLevel(s, 99, r.p99)
            && r.mean == Sum(samples) / |samples| as real
            && r.min in samples && r.max in samples && (forall x :: x in samples ==> r.min <= x <= r.max)
            && r.count == Some(|samples|)
  {
    SortIsThis(samples, s);
    LevelsAreExact(s);
    SumIgnoresOrder(s, samples);
    RangeIsExact(s, samples);
  }

  lemma {:induction false} SumBounds(s: seq<real>, lo: real, hi: real)
    requires forall i :: 0 <= i < |s| ==> lo <= s[i] <= hi
    ensures lo * |s| as real <= Sum(s) <= hi * |s| as real
  {
    if s != [] {
      var front := s[..|s| - 1];
      SumBounds(front, lo, hi);
      assert |s| as real == |front| as real + 1.0;
      assert lo * |s| as real == lo * |front| as real + lo && hi * |s| as real == hi * |front| as real + hi;
    }
  }

  lemma MeanBounds(s: seq<real>, lo: real, hi: real)
    requires s != [] && forall i :: 0 <= i < |s| ==> lo <= s[i] <= hi
    ensures lo <= Mean(s) <= hi
  {
    SumBounds(s, lo, hi);
    DivideBounds(lo, Sum(s), hi, |s| as real);
  }

  lemma DivideBounds(a: real, total: real, c: real, n: real)
    requires n > 0.0 && a * n <= total <= c * n
    ensures a <= total / n <= c
  {
    DivideAtLeast(a, total, n);
    DivideAtMost(total, c, n);
  }

  lemma DivideAtLeast(a: real, total: real, n: real)
    requires n > 0.0 && a * n <= total
    ensures a <= total / n
  {
    var q := total / n;
    assert q * n == total;
    assert (q - a) * n >= 0.0;
  }

  lemma DivideAtMost(total: real, c: real, n: real)
    requires n > 0.0 && total <= c * n
    ensures total / n <= c
  {
    var q := total / n;
    assert q * n == total;
    assert (c - q) * n >= 0.0;
  }
}
