/** How far the weighted mean of per-pod percentiles can be from the percentile of all
    samples pooled: never further than the pods' own percentiles are apart. */
module Percentile {
  import opened Provider
  import opened Scanner
  import opened Aggregate

  type Samples = seq<real>

  /** The number of samples that do not exceed v. */
  function AtMost(s: Samples, v: real): (n: nat)
    ensures n <= |s|
  {
    if s == [] then 0 else AtMost(s[1..], v) + if s[0] <= v then 1 else 0
  }

  /** At least q percent of the samples do not exceed v. */
  ghost predicate Reaches(s: Samples, q: nat, v: real)
  {
    100 * AtMost(s, v) >= q * |s|
  }

  /** v is the nearest-rank q-th percentile of s: the smallest sample that reaches q percent. */
  ghost predicate IsPercentile(s: Samples, q: nat, v: real)
  {
    v in s && Reaches(s, q, v) && forall w :: w in s && w < v ==> !Reaches(s, q, w)
  }

  lemma {:induction false} AtMostMonotone(s: Samples, v: real, w: real)
    requires v <= w
    ensures AtMost(s, v) <= AtMost(s, w)
    ensures v < w && w in s ==> AtMost(s, v) < AtMost(s, w)
  {
    if s == [] {
    } else {
      AtMostMonotone(s[1..], v, w);
    }
  }

  lemma {:induction false} NothingExceeds(s: Samples, v: real)
    requires forall i :: 0 <= i < |s| ==> s[i] <= v
    ensures AtMost(s, v) == |s|
  {
    if s == [] {
    } else {
      NothingExceeds(s[1..], v);
    }
  }

  lemma {:induction false} LargestUpTo(s: Samples, v: real) returns (w: real)
    requires AtMost(s, v) > 0
    ensures w in s && w <= v && AtMost(s, w) == AtMost(s, v)
  {
    if AtMost(s[1..], v) == 0 {
      w := s[0];
      AtMostMonotone(s[1..], w, v);
    } else {
      w := LargestUpTo(s[1..], v);
      if w < s[0] <= v {
        AtMostMonotone(s[1..], w, s[0]);
        AtMostMonotone(s[1..], s[0], v);
        w := s[0];
      }
    }
  }

  lemma {:induction false} Largest(s: Samples) returns (m: real)
    requires s != []
    ensures m in s && forall i :: 0 <= i < |s| ==> s[i] <= m
  {
    m := s[0];
    if |s| == 1 {
    } else {
      var r := Largest(s[1..]);
      m := if r > s[0] then r else s[0];
      assert forall i :: 1 <= i < |s| ==> s[i] == s[1..][i - 1];
    }
  }

  lemma {:induction false} SmallestReaching(s: Samples, q: nat, top: real) returns (v: real)
    requires top in s && Reaches(s, q, top)
    ensures IsPercentile(s, q, v)
    decreases AtMost(s, top)
  {
    if w :| w in s && w < top && Reaches(s, q, w) {
      AtMostMonotone(s, w, top);
      v := SmallestReaching(s, q, w);
    } else {
      v := top;
    }
  }

  /** Every nonempty sample has a q-th percentile for every q up to 100, and only one. */
  lemma {:induction false} PercentileExists(s: Samples, q: nat) returns (v: real)
    requires s != [] && q <= 100
    ensures forall w :: IsPercentile(s, q, w) <==> w == v
  {
    var top := Largest(s);
    NothingExceeds(s, top);
    assert q * |s| <= 100 * |s|;
    v := SmallestReaching(s, q, top);
  }

  /** Below the percentile, at a sample or between two, q percent is not reached. */
  lemma {:induction false} BelowPercentile(s: Samples, q: nat, v: real, x: real)
    requires IsPercentile(s, q, v) && q > 0 && x < v
    ensures !Reaches(s, q, x)
  {
    if AtMost(s, x) > 0 {
      var w := LargestUpTo(s, x);
    } else {
      assert q * |s| > 0;
    }
  }

  // ---------- Pooling ----------

  function Pool(pods: seq<Samples>): Samples
  {
    if pods == [] then [] else Pool(pods[..|pods| - 1]) + pods[|pods| - 1]
  }

  lemma {:induction false} AtMostConcat(a: Samples, b: Samples, v: real)
    ensures AtMost(a + b, v) == AtMost(a, v) + AtMost(b, v)
  {
    if a == [] {
      assert a + b == b;
    } else {
      assert (a + b)[1..] == a[1..] + b;
      AtMostConcat(a[1..], b, v);
    }
  }

  ghost predicate PodPercentiles(pods: seq<Samples>, q: nat, ps: seq<real>)
  {
    |ps| == |pods| && forall i :: 0 <= i < |pods| && pods[i] != [] ==> IsPercentile(pods[i], q, ps[i])
  }

  lemma {:induction false} SumOfShares(q: nat, a: nat, b: nat)
    ensures q * (a + b) == q * a + q * b
  {}

  lemma {:induction false} PooledReaches(pods: seq<Samples>, q: nat, ps: seq<real>, hi: real)
    requires PodPercentiles(pods, q, ps)
    requires forall i :: 0 <= i < |pods| && pods[i] != [] ==> ps[i] <= hi
    ensures Reaches(Pool(pods), q, hi)
  {
    if pods == [] {
    } else {
      var n := |pods| - 1;
      var before, last := Pool(pods[..n]), pods[n];
      PooledReaches(pods[..n], q, ps[..n], hi);
      AtMostConcat(before, last, hi);
      if last != [] {
        AtMostMonotone(last, ps[n], hi);
      }
      SumOfShares(q, |before|, |last|);
    }
  }

  lemma {:induction false} PooledFallsShort(pods: seq<Samples>, q: nat, ps: seq<real>, x: real)
    requires PodPercentiles(pods, q, ps) && q > 0
    requires forall i :: 0 <= i < |pods| && pods[i] != [] ==> x < ps[i]
    ensures 100 * AtMost(Pool(pods), x) <= q * |Pool(pods)|
    ensures Pool(pods) != [] ==> !Reaches(Pool(pods), q, x)
  {
    if pods == [] {
    } else {
      var n := |pods| - 1;
      var before, last := Pool(pods[..n]), pods[n];
      PooledFallsShort(pods[..n], q, ps[..n], x);
      AtMostConcat(before, last, x);
      if last != [] {
        BelowPercentile(last, q, ps[n], x);
      }
      SumOfShares(q, |before|, |last|);
    }
  }

  /** The pooled percentile lies between the smallest and the largest of the pods' own. */
  lemma {:induction false} PooledPercentileBounds(
    pods: seq<Samples>, q: nat, ps: seq<real>, v: real, lo: real, hi: real)
    requires PodPercentiles(pods, q, ps) && q > 0 && IsPercentile(Pool(pods), q, v)
    requires forall i :: 0 <= i < |pods| && pods[i] != [] ==> lo <= ps[i] <= hi
    ensures lo <= v <= hi
  {
    PooledReaches(pods, q, ps, hi);
    if hi < v {
      BelowPercentile(Pool(pods), q, v, hi);
    }
    if v < lo {
      PooledFallsShort(pods, q, ps, v);
    }
  }

  // ---------- The error of the approximation ----------

  /** The key under which a summary carries a percentile: the median is "med", and "p(50)" only
      where that is missing. */
  function DurationKey(ms: Metrics, level: Level): string
  {
    match level
    case P50 => if HasValue(ms, "http_req_duration", "med") then "med" else "p(50)"
    case P95 => "p(95)"
    case P99 => "p(99)"
  }

  function DurationIn(ms: Metrics, level: Level): real {
    ValueOf(ms, "http_req_duration", DurationKey(ms, level))
  }

  /** A summary tells the truth about the pod's request durations at this level. */
  ghost predicate ReportsDurations(ms: Metrics, s: Samples, level: Level)
  {
    && ValueOf(ms, "http_reqs", "count") == |s| as real
    && (s != [] ==> IsPercentile(s, level.Percent(), DurationIn(ms, level)))
  }

  lemma {:induction false} WithinWhenReported(ms: Metrics, s: Samples, level: Level, lo: real, hi: real)
    requires ReportsDurations(ms, s, level)
    requires s != [] ==> lo <= DurationIn(ms, level) <= hi
    ensures Within(Extracted(ms), level, lo, hi)
    ensures s != [] ==> Extracted(ms).httpReqsCount > 0.0
  {}

  lemma {:induction false} SomethingCounted(ms: seq<SummaryMetrics>, pods: seq<Samples>)
    requires |ms| == |pods|
    requires forall i :: 0 <= i < |ms| ==> ms[i].httpReqsCount >= 0.0 && (pods[i] != [] ==> ms[i].httpReqsCount > 0.0)
    ensures Sum(ms, Count) >= 0.0
    ensures Pool(pods) != [] ==> Sum(ms, Count) > 0.0
  {
    if ms == [] {
    } else {
      SomethingCounted(ms[..|ms| - 1], pods[..|ms| - 1]);
    }
  }

  /** At every level that the pods' summaries report truthfully, both the percentile that
      extraction and aggregation give and the true one lie within the pods' own percentiles, so
      the approximation is never off by more than their spread; when the pods agree it is exact.
      The other levels may be missing. */
  lemma {:induction false} ApproximationError(
    summaries: seq<Metrics>, pods: seq<Samples>, level: Level, v: real, lo: real, hi: real)
    requires |summaries| == |pods|
    requires forall i :: 0 <= i < |pods| ==> ReportsDurations(summaries[i], pods[i], level)
    requires IsPercentile(Pool(pods), level.Percent(), v)
    requires forall i :: 0 <= i < |pods| && pods[i] != [] ==> lo <= DurationIn(summaries[i], level) <= hi
    ensures lo <= level.Of(Aggregated(ExtractedAll(summaries)).httpReqDuration) <= hi
    ensures lo <= v <= hi
    ensures -(hi - lo) <= level.Of(Aggregated(ExtractedAll(summaries)).httpReqDuration) - v <= hi - lo
  {
    var ms := ExtractedAll(summaries);
    forall i | 0 <= i < |ms|
      ensures Within(ms[i], level, lo, hi)
      ensures pods[i] != [] ==> ms[i].httpReqsCount > 0.0
    {
      WithinWhenReported(summaries[i], pods[i], level, lo, hi);
    }
    SomethingCounted(ms, pods);
    AggregatedPercentileBounds(ms, level, lo, hi);
    var ps := seq(|pods|, i requires 0 <= i < |pods| => DurationIn(summaries[i], level));
    forall i | 0 <= i < |pods| && pods[i] != [] ensures IsPercentile(pods[i], level.Percent(), ps[i]) {
      assert ReportsDurations(summaries[i], pods[i], level);
    }
    PooledPercentileBounds(pods, level.Percent(), ps, v, lo, hi);
  }

  /** The summary of a pod that sent one request. */
  function OneSample(x: real): Metrics
  {
    map["http_reqs" := K6Metric(map["count" := 1.0]),
        "http_req_duration" := K6Metric(map["med" := x, "p(95)" := x, "p(99)" := x])]
  }

  lemma {:induction false} ReportsOneSample(x: real)
    ensures forall level: Level :: ReportsDurations(OneSample(x), [x], level)
    ensures Extracted(OneSample(x)).httpReqDuration == Percentiles(x, x, x)
    ensures Extracted(OneSample(x)).httpReqsCount == 1.0
  {
    assert [x][1..] == [];
    assert AtMost([x], x) == 1;
    forall level: Level ensures DurationIn(OneSample(x), level) == x {}
  }

  lemma {:induction false} PoolOfTwo(a: Samples, b: Samples)
    ensures Pool([a, b]) == a + b
  {
    assert [a, b][..1] == [a] && [a][..0] == [];
    assert Pool([a]) == Pool([]) + a;
  }

  lemma {:induction false} SumOfTwo(a: SummaryMetrics, b: SummaryMetrics, f: SummaryMetrics -> real)
    ensures Sum([a, b], f) == f(a) + f(b)
  {
    assert [a, b][..1] == [a] && [a][..0] == [];
    assert Sum([a], f) == Sum([], f) + f(a);
  }

  lemma {:induction false} AggregateOfTwo(a: SummaryMetrics, b: SummaryMetrics)
    requires a.httpReqsCount == b.httpReqsCount == 1.0
    requires a.httpReqDuration.p50 == 0.0 && b.httpReqDuration.p50 == 10.0
    ensures Aggregated([a, b]).httpReqDuration.p50 == 5.0
  {
    SumOfTwo(a, b, Count);
    SumOfTwo(a, b, Weighted50);
  }

  /** The approximation is one: two truthful pods whose aggregate is not the true median. */
  lemma {:induction false} ApproximationIsNotExact()
    ensures exists summaries: seq<Metrics>, pods: seq<Samples>, v: real ::
              && |summaries| == |pods|
              && (forall i, level: Level :: 0 <= i < |pods| ==> ReportsDurations(summaries[i], pods[i], level))
              && IsPercentile(Pool(pods), 50, v)
              && Aggregated(ExtractedAll(summaries)).httpReqDuration.p50 != v
  {
    var summaries, pods := [OneSample(0.0), OneSample(10.0)], [[0.0], [10.0]];
    ReportsOneSample(0.0);
    ReportsOneSample(10.0);
    PoolOfTwo([0.0], [10.0]);
    assert [0.0, 10.0][1..] == [10.0] && [10.0][1..] == [];
    assert AtMost([10.0], 0.0) == 0 && AtMost([0.0, 10.0], 0.0) == 1;
    assert IsPercentile(Pool(pods), 50, 0.0);
    AggregateOfTwo(Extracted(summaries[0]), Extracted(summaries[1]));
    assert ExtractedAll(summaries) == [Extracted(summaries[0]), Extracted(summaries[1])];
    assert forall i, level: Level :: 0 <= i < |pods| ==> ReportsDurations(summaries[i], pods[i], level);
  }
}
