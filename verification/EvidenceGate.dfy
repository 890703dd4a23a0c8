/** The release gate's check of evidence metrics: it recomputes every summary from the raw samples with code of its
    own. */
module EvidenceGate {
  import opened Prelude
  import opened Percentile

  // ---- The gate's own arithmetic ----------------------------------------------------------------------

  function Place(s: seq<real>, x: real): (r: seq<real>) {
    if s == [] || s[|s| - 1] <= x then s + [x] else Place(s[..|s| - 1], x) + [s[|s| - 1]]
  }

  /** The raw samples in order; like the generator's sort, any sort would do. */
  function Arrange(raw: seq<real>): (r: seq<real>) {
    if raw == [] then [] else Place(Arrange(raw[..|raw| - 1]), raw[|raw| - 1])
  }

  lemma {:induction false} PlaceKeepsSorted(s: seq<real>, x: real)
    requires Sorted(s)
    ensures Sorted(Place(s, x)) && |Place(s, x)| == |s| + 1
    ensures forall y :: y in Place(s, x) <==> y == x || y in s
  {
    if s != [] && s[|s| - 1] > x {
      var front, last := s[..|s| - 1], s[|s| - 1];
      PlaceKeepsSorted(front, x);
      assert s == front + [last];
      var r := Place(front, x);
      forall i | 0 <= i < |r| ensures r[i] <= last { assert r[i] in r; }
    }
  }

  lemma {:induction false} PlaceKeepsAll(s: seq<real>, x: real)
    ensures multiset(Place(s, x)) == multiset(s) + multiset{x}
  {
    if s != [] && s[|s| - 1] > x {
      PlaceKeepsAll(s[..|s| - 1], x);
      assert s == s[..|s| - 1] + [s[|s| - 1]];
    }
  }

  lemma {:induction false} ArrangeSorts(raw: seq<real>)
    ensures Sorted(Arrange(raw)) && |Arrange(raw)| == |raw| && multiset(Arrange(raw)) == multiset(raw)
  {
    if raw != [] {
      var front, last := raw[..|raw| - 1], raw[|raw| - 1];
      ArrangeSorts(front);
      PlaceKeepsSorted(Arrange(front), last);
      PlaceKeepsAll(Arrange(front), last);
      assert raw == front + [last];
    }
  }

  /** compute_percentile, as the gate writes it */
  function PercentileOf(s: seq<real>, p: real): real
    requires 0.0 <= p <= 1.0
  {
    if s == [] then 0.0
    else if |s| == 1 then s[0]
    else
      ScaleBounds((|s| - 1) as real, p);
      var rank := p * (|s| - 1) as real;
      var lower := rank.Floor;
      var upper := if lower + 1 < |s| - 1 then lower + 1 else |s| - 1;
      var weight := rank - lower as real;
      s[lower] * (1.0 - weight) + s[upper] * weight
  }

  function Total(s: seq<real>): real { if s == [] then 0.0 else s[0] + Total(s[1..]) }

  /** The values the gate expects in a summary. */
  function Expected(s: seq<real>): Summary
    requires s != []
  {
    Summary(PercentileOf(s, 0.50), PercentileOf(s, 0.95), PercentileOf(s, 0.99), Total(s) / |s| as real, s[0],
        s[|s| - 1], Some(|s|))
  }

  // ---- It agrees with the generator --------------------------------------------------------------------

  lemma SamePercentile(s: seq<real>, p: real)
    requires 0.0 <= p <= 1.0
    ensures PercentileOf(s, p) == Compute(s, p)
  {
  }

  lemma {:induction false} TotalSnoc(s: seq<real>, x: real)
    ensures Total(s + [x]) == Total(s) + x
  {
    if s == [] {
      assert s + [x] == [x] && [x][1..] == [];
    } else {
      TotalSnoc(s[1..], x);
      assert (s + [x])[1..] == s[1..] + [x];
    }
  }

  lemma {:induction false} SameTotal(s: seq<real>)
    ensures Total(s) == Sum(s)
  {
    if s != [] {
      SameTotal(s[..|s| - 1]);
      TotalSnoc(s[..|s| - 1], s[|s| - 1]);
      assert s == s[..|s| - 1] + [s[|s| - 1]];
    }
  }

  lemma SameSummary(s: seq<real>)
    requires s != []
    ensures Expected(s) == Of(s)
  {
    SamePercentile(s, 0.50);
    SamePercentile(s, 0.95);
    SamePercentile(s, 0.99);
    SameTotal(s);
  }

  /** From the same samples in any order, the gate expects what the generator writes. */
  lemma ExpectedIsCalculated(samples: seq<real>, raw: seq<real>)
    requires samples != [] && multiset(raw) == multiset(samples)
    ensures Arrange(raw) == Sort(samples) != [] && Expected(Arrange(raw)) == Calculate(samples) && |raw| == |samples|
  {
    ArrangeSorts(raw);
    SortKeepsAll(samples);
    SortIsUnique(Arrange(raw), Sort(samples));
    assert |multiset(raw)| == |multiset(samples)|;
    SameSummary(Arrange(raw));
  }

  // ---- The check ---------------------------------------------------------------------------------------

  const EPS: real := 0.001

  predicate Close(a: real, b: real) { -EPS <= a - b <= EPS }

  datatype Field = P50 | P95 | P99 | MeanField | MinField | MaxField

  function Value(s: Summary, field: Field): real {
    match field
    case P50 => s.p50
    case P95 => s.p95
    case P99 => s.p99
    case MeanField => s.mean
    case MinField => s.min
    case MaxField => s.max
  }

  datatype Complaint = NoRawData | Mismatch(field: Field) | CountMismatch | TargetAsSample | NoSummaries

  /** The single sample is the target itself. */
  predicate TargetAsMeasured(s: seq<real>, target: Option<real>) {
    target.Some? && |s| == 1 && -EPS < s[0] - target.value < EPS && target.value > 0.0
  }

  /** Every field is within the tolerance of the expected value, and the count is exact. */
  predicate Within(summary: Summary, e: Summary) {
    && Close(summary.p50, e.p50) && Close(summary.p95, e.p95) && Close(summary.p99, e.p99)
    && Close(summary.mean, e.mean) && Close(summary.min, e.min) && Close(summary.max, e.max)
    && summary.count == e.count
  }

  /** What the gate accepts for one metric. */
  predicate Accepted(raw: Option<seq<real>>, summary: Summary, target: Option<real>) {
    && raw.Some? && Arrange(raw.value) != []
    && Within(summary, Expected(Arrange(raw.value)))
    && !TargetAsMeasured(Arrange(raw.value), target)
  }

  /** One comparison. */
  method Complain(actual: real, expected: real, field: Field) returns (r: seq<Complaint>)
    ensures r == if Close(actual, expected) then [] else [Mismatch(field)]
  {
    r := [];
    var difference := if actual < expected then expected - actual else actual - expected;
    if difference > EPS {
      r := [Mismatch(field)];
    }
  }

  /** The six comparisons: a complaint for every value that is off. */
  method CheckValues(summary: Summary, s: seq<real>) returns (complaints: seq<Complaint>)
    requires s != []
    ensures forall c :: c in complaints <==>
              c.Mismatch? && !Close(Value(summary, c.field), Value(Expected(s), c.field))
  {
    ghost var e := Expected(s);
    var p50 := Complain(summary.p50, PercentileOf(s, 0.50), P50);
    var p95 := Complain(summary.p95, PercentileOf(s, 0.95), P95);
    var p99 := Complain(summary.p99, PercentileOf(s, 0.99), P99);
    var mean := Complain(summary.mean, Total(s) / |s| as real, MeanField);
    var min := Complain(summary.min, s[0], MinField);
    var max := Complain(summary.max, s[|s| - 1], MaxField);
    Collected(summary, e, p50, p95, p99, mean, min, max);
    complaints := p50 + p95 + p99 + mean + min + max;
  }

  ghost predicate Compared(summary: Summary, e: Summary, field: Field, r: seq<Complaint>) {
    r == if Close(Value(summary, field), Value(e, field)) then [] else [Mismatch(field)]
  }

  lemma Collected(summary: Summary, e: Summary, p50: seq<Complaint>, p95: seq<Complaint>, p99: seq<Complaint>,
                  mean: seq<Complaint>, min: seq<Complaint>, max: seq<Complaint>)
    requires Compared(summary, e, P50, p50) && Compared(summary, e, P95, p95) && Compared(summary, e, P99, p99)
    requires Compared(summary, e, MeanField, mean) && Compared(summary, e, MinField, min)
    requires Compared(summary, e, MaxField, max)
    ensures forall c :: c in p50 + p95 + p99 + mean + min + max <==>
              c.Mismatch? && !Close(Value(summary, c.field), Value(e, c.field))
  {
    forall c ensures c in p50 + p95 + p99 + mean + min + max <==>
              c.Mismatch? && !Close(Value(summary, c.field), Value(e, c.field))
    {
      assert c in p50 + p95 + p99 + mean + min + max <==>
               c in p50 || c in p95 || c in p99 || c in mean || c in min || c in max;
    }
  }

  /** What each complaint says, against the values expected of n samples. */
  predicate Says(c: Complaint, summary: Summary, e: Summary, n: nat, isTarget: bool) {
    match c
    case Mismatch(field) => !Close(Value(summary, field), Value(e, field))
    case CountMismatch => summary.count != Some(n)
    case TargetAsSample => isTarget
    case _ => false
  }

  ghost predicate Deserved(c: Complaint, raw: Option<seq<real>>, summary: Summary, target: Option<real>) {
    if raw.None? || Arrange(raw.value) == [] then c == NoRawData
    else
      var s := Arrange(raw.value);
      Says(c, summary, Expected(s), |s|, TargetAsMeasured(s, target))
  }

  lemma WithinIff(summary: Summary, e: Summary)
    ensures Within(summary, e) <==>
              (forall field: Field :: Close(Value(summary, field), Value(e, field))) && summary.count == e.count
  {
    if forall field: Field :: Close(Value(summary, field), Value(e, field)) {
      assert Close(Value(summary, P50), Value(e, P50)) && Close(Value(summary, P95), Value(e, P95));
      assert Close(Value(summary, P99), Value(e, P99)) && Close(Value(summary, MeanField), Value(e, MeanField));
      assert Close(Value(summary, MinField), Value(e, MinField)) && Close(Value(summary, MaxField), Value(e, MaxField));
    }
  }

  lemma SaysNothingIff(summary: Summary, e: Summary, n: nat, isTarget: bool)
    requires e.count == Some(n)
    ensures (forall c :: !Says(c, summary, e, n, isTarget)) <==> Within(summary, e) && !isTarget
  {
    WithinIff(summary, e);
    if forall c :: !Says(c, summary, e, n, isTarget) {
      assert !Says(CountMismatch, summary, e, n, isTarget) && !Says(TargetAsSample, summary, e, n, isTarget);
      forall field: Field ensures Close(Value(summary, field), Value(e, field)) {
        assert !Says(Mismatch(field), summary, e, n, isTarget);
      }
    }
  }

  lemma NoneDeservedIff(raw: Option<seq<real>>, summary: Summary, target: Option<real>)
    ensures (forall c :: !Deserved(c, raw, summary, target)) <==> Accepted(raw, summary, target)
  {
    if raw.None? || Arrange(raw.value) == [] {
      assert Deserved(NoRawData, raw, summary, target);
    } else {
      var s := Arrange(raw.value);
      SaysNothingIff(summary, Expected(s), |s|, TargetAsMeasured(s, target));
      forall c ensures Deserved(c, raw, summary, target) <==>
                         Says(c, summary, Expected(s), |s|, TargetAsMeasured(s, target)) {}
    }
  }

  /** The comparisons for a metric that has samples. */
  method CheckSamples(s: seq<real>, summary: Summary, target: Option<real>) returns (complaints: seq<Complaint>)
    requires s != []
    ensures forall c :: c in complaints <==> Says(c, summary, Expected(s), |s|, TargetAsMeasured(s, target))
  {
    ghost var e := Expected(s);
    complaints := CheckValues(summary, s);
    assert forall c :: c in complaints <==> c.Mismatch? && !Close(Value(summary, c.field), Value(e, c.field));
    if summary.count != Some(|s|) {
      complaints := complaints + [CountMismatch];
    }
    if target.Some? && |s| == 1 && -EPS < s[0] - target.value < EPS && target.value > 0.0 {
      complaints := complaints + [TargetAsSample];
    }
  }

  /** One metric: each complaint is made exactly when it is deserved. */
  method CheckMetric(raw: Option<seq<real>>, summary: Summary, target: Option<real>)
    returns (complaints: seq<Complaint>)
    ensures complaints == [] <==> Accepted(raw, summary, target)
    ensures forall c :: c in complaints <==> Deserved(c, raw, summary, target)
  {
    NoneDeservedIff(raw, summary, target);
    if raw.Some? { ArrangeSorts(raw.value); }
    if raw.None? || raw.value == [] {
      complaints := [NoRawData];
    } else {
      complaints := CheckSamples(Arrange(raw.value), summary, target);
    }
    assert complaints != [] ==> complaints[0] in complaints;
  }

  function Get<V>(m: map<string, V>, key: string): Option<V> {
    if key in m then Some(m[key]) else None
  }

  /** A metric by name: its raw samples, its summary and its target, as the manifest holds them. */
  datatype Evidence = Evidence(summaries: map<string, Summary>, raw: map<string, seq<real>>, targets: map<string, real>)

  predicate MetricAccepted(e: Evidence, name: string) {
    name in e.summaries && Accepted(Get(e.raw, name), e.summaries[name], Get(e.targets, name))
  }

  /** The whole manifest: every summary, in the order the manifest lists them. */
  method CheckManifest(names: seq<string>, e: Evidence) returns (complaints: seq<Complaint>)
    requires forall k :: 0 <= k < |names| ==> names[k] in e.summaries
    ensures complaints == [] <==> names != [] && forall k :: 0 <= k < |names| ==> MetricAccepted(e, names[k])
  {
    complaints := if names == [] then [NoSummaries] else [];
    for i := 0 to |names|
      invariant complaints == [] <==> names != [] && forall k :: 0 <= k < i ==> MetricAccepted(e, names[k])
    {
      var name := names[i];
      var more := CheckMetric(Get(e.raw, name), e.summaries[name], Get(e.targets, name));
      assert more == [] <==> MetricAccepted(e, name);
      complaints := complaints + more;
    }
  }

  lemma OneSample(samples: seq<real>, raw: seq<real>)
    requires samples != [] && multiset(raw) == multiset(samples)
    ensures |samples| == 1 ==> Arrange(raw) == samples
  {
    ExpectedIsCalculated(samples, raw);
    if |samples| == 1 { assert samples[1..] == []; }
  }

  lemma SummaryFitsItself(e: Summary)
    ensures Within(e, e)
  {
  }

  /** Exactly which generated summaries the gate accepts, the raw samples being listed in any order: those of at least
      one sample, unless the one sample is the target. */
  lemma GeneratedSummaryAcceptedIff(samples: seq<real>, raw: seq<real>, target: Option<real>)
    requires multiset(raw) == multiset(samples)
    ensures Accepted(Some(raw), Calculate(samples), target) <==> samples != [] && !TargetAsMeasured(samples, target)
  {
    if samples == [] {
      assert |multiset(raw)| == 0;
    } else {
      ExpectedIsCalculated(samples, raw);
      OneSample(samples, raw);
      SummaryFitsItself(Calculate(samples));
    }
  }

  /** In numbers: every value within a thousandth, and the exact count. */
  ghost predicate WithinThousandth(summary: Summary, e: Summary) {
    && (forall field: Field :: -0.001 <= Value(summary, field) - Value(e, field) <= 0.001)
    && summary.count == e.count
  }

  /** What the gate accepts for raw samples in any order is the generator's summary of them up to a thousandth in every
      value, with the exact count, unless the one sample is the target. */
  lemma AcceptedIff(raw: seq<real>, summary: Summary, target: Option<real>)
    ensures Accepted(Some(raw), summary, target) <==>
              && raw != [] && WithinThousandth(summary, Calculate(raw))
              && !(target.Some? && |raw| == 1 && -0.001 < raw[0] - target.value < 0.001 && target.value > 0.0)
  {
    if raw != [] {
      ExpectedIsCalculated(raw, raw);
      OneSample(raw, raw);
      WithinIff(summary, Calculate(raw));
    }
  }

  /** Any accepted summary, however it was made, is ordered and in range up to the tolerance. */
  lemma AcceptedSummaryIsOrdered(raw: Option<seq<real>>, summary: Summary, target: Option<real>)
    ensures Accepted(raw, summary, target) ==>
              && summary.min - 2.0 * EPS <= summary.p50 <= summary.p95 + 2.0 * EPS
              && summary.p95 - 2.0 * EPS <= summary.p99 <= summary.max + 2.0 * EPS
              && summary.min - 2.0 * EPS <= summary.mean <= summary.max + 2.0 * EPS
  {
    if Accepted(raw, summary, target) {
      var s := Arrange(raw.value);
      ArrangeSorts(raw.value);
      SameSummary(s);
      PercentilesAreOrdered(s, 0.50, 0.95);
      PercentilesAreOrdered(s, 0.95, 0.99);
      MeanBounds(s, s[0], s[|s| - 1]);
    }
  }

  /** The gate's verdict does not depend on the order of the raw samples either. */
  lemma VerdictIgnoresOrder(a: seq<real>, b: seq<real>, summary: Summary, target: Option<real>)
    requires multiset(a) == multiset(b)
    ensures Accepted(Some(a), summary, target) <==> Accepted(Some(b), summary, target)
  {
    ArrangeSorts(a);
    ArrangeSorts(b);
    SortIsUnique(Arrange(a), Arrange(b));
  }
}
