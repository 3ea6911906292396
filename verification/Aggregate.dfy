/** Extracting metrics from one summary and combining those of several pods
    (extractMetricsFromSummary and aggregateMetrics, internal/provider/operator/summary.go).
    Go's float64 numbers are modelled as exact reals. */
module Aggregate {
  import opened Wrappers
  import opened Provider
  import opened Scanner

  datatype SummaryMetrics = SummaryMetrics(
    httpReqFailed: real,
    httpReqDuration: Percentiles,
    httpReqs: real,
    httpReqsCount: real,
    httpReqFailedCount: real)

  const NO_METRICS := SummaryMetrics(0.0, Percentiles(0.0, 0.0, 0.0), 0.0, 0.0, 0.0)

  type Metrics = map<string, K6Metric>

  // ---------- Extraction ----------

  predicate HasValue(ms: Metrics, metric: string, key: string) {
    metric in ms && key in ms[metric].values
  }

  /** A value by metric and key; what is absent reads as zero. */
  function ValueOf(ms: Metrics, metric: string, key: string): real {
    if HasValue(ms, metric, key) then ms[metric].values[key] else 0.0
  }

  function Extracted(ms: Metrics): SummaryMetrics
  {
    SummaryMetrics(
      ValueOf(ms, "http_req_failed", "rate"),
      Percentiles(
        ValueOf(ms, "http_req_duration", if HasValue(ms, "http_req_duration", "med") then "med" else "p(50)"),
        ValueOf(ms, "http_req_duration", "p(95)"),
        ValueOf(ms, "http_req_duration", "p(99)")),
      ValueOf(ms, "http_reqs", "rate"),
      ValueOf(ms, "http_reqs", "count"),
      ValueOf(ms, "http_req_failed", "rate") * ValueOf(ms, "http_reqs", "count"))
  }

  method Lookup(values: map<string, real>, key: string) returns (v: real)
    ensures v == if key in values then values[key] else 0.0
  {
    if key in values {
      return values[key];
    }
    return 0.0;
  }

  method ExtractMetricsFromSummary(summary: K6Summary) returns (m: SummaryMetrics)
    ensures m == Extracted(if summary.metrics.Some? then summary.metrics.value else map[])
  {
    var ms := if summary.metrics.Some? then summary.metrics.value else map[];
    m := NO_METRICS;
    if "http_req_failed" in ms {
      var rate := Lookup(ms["http_req_failed"].values, "rate");
      m := m.(httpReqFailed := rate);
    }
    if "http_req_duration" in ms {
      var values := ms["http_req_duration"].values;
      var p50 := 0.0;
      if "med" in values {
        p50 := values["med"];
      } else if "p(50)" in values {
        p50 := values["p(50)"];
      }
      var p95 := Lookup(values, "p(95)");
      var p99 := Lookup(values, "p(99)");
      m := m.(httpReqDuration := Percentiles(p50, p95, p99));
    }
    if "http_reqs" in ms {
      var rate := Lookup(ms["http_reqs"].values, "rate");
      var count := Lookup(ms["http_reqs"].values, "count");
      m := m.(httpReqs := rate, httpReqsCount := count);
    }
    if "http_reqs" in ms {
      var count := Lookup(ms["http_reqs"].values, "count");
      m := m.(httpReqFailedCount := m.httpReqFailed * count);
    }
  }

  // ---------- Aggregation ----------

  /** The three duration percentiles, and the percentage of requests each speaks of. */
  datatype Level = P50 | P95 | P99
  {
    function Of(p: Percentiles): real {
      match this
      case P50 => p.p50
      case P95 => p.p95
      case P99 => p.p99
    }

    function Percent(): nat {
      match this
      case P50 => 50
      case P95 => 95
      case P99 => 99
    }
  }

  function Sum(ms: seq<SummaryMetrics>, f: SummaryMetrics -> real): real
  {
    if ms == [] then 0.0 else Sum(ms[..|ms| - 1], f) + f(ms[|ms| - 1])
  }

  function Count(m: SummaryMetrics): real { m.httpReqsCount }
  function FailedCount(m: SummaryMetrics): real { m.httpReqFailedCount }
  function ReqRate(m: SummaryMetrics): real { m.httpReqs }
  function Weighted50(m: SummaryMetrics): real { m.httpReqDuration.p50 * m.httpReqsCount }
  function Weighted95(m: SummaryMetrics): real { m.httpReqDuration.p95 * m.httpReqsCount }
  function Weighted99(m: SummaryMetrics): real { m.httpReqDuration.p99 * m.httpReqsCount }

  function WeightedAt(level: Level): SummaryMetrics -> real {
    match level
    case P50 => Weighted50
    case P95 => Weighted95
    case P99 => Weighted99
  }

  function Aggregated(ms: seq<SummaryMetrics>): SummaryMetrics
  {
    var total := Sum(ms, Count);
    if |ms| == 1 then ms[0]
    else if total == 0.0 then NO_METRICS
    else SummaryMetrics(
      Sum(ms, FailedCount) / total,
      Percentiles(Sum(ms, Weighted50) / total, Sum(ms, Weighted95) / total, Sum(ms, Weighted99) / total),
      Sum(ms, ReqRate),
      total,
      0.0)
  }

  method AggregateMetrics(metrics: seq<SummaryMetrics>) returns (r: SummaryMetrics)
    ensures r == Aggregated(metrics)
  {
    if |metrics| == 0 {
      return NO_METRICS;
    }
    if |metrics| == 1 {
      return metrics[0];
    }
    var totalCount, totalFailedCount, totalRate := 0.0, 0.0, 0.0;
    var weightedP50, weightedP95, weightedP99 := 0.0, 0.0, 0.0;
    for i := 0 to |metrics|
      invariant totalCount == Sum(metrics[..i], Count)
      invariant totalFailedCount == Sum(metrics[..i], FailedCount)
      invariant totalRate == Sum(metrics[..i], ReqRate)
      invariant weightedP50 == Sum(metrics[..i], Weighted50)
      invariant weightedP95 == Sum(metrics[..i], Weighted95)
      invariant weightedP99 == Sum(metrics[..i], Weighted99)
    {
      var m := metrics[i];
      assert metrics[..i + 1][..i] == metrics[..i];
      totalCount := totalCount + m.httpReqsCount;
      totalFailedCount := totalFailedCount + m.httpReqFailedCount;
      totalRate := totalRate + m.httpReqs;
      weightedP50 := weightedP50 + m.httpReqDuration.p50 * m.httpReqsCount;
      weightedP95 := weightedP95 + m.httpReqDuration.p95 * m.httpReqsCount;
      weightedP99 := weightedP99 + m.httpReqDuration.p99 * m.httpReqsCount;
    }
    assert metrics[..|metrics|] == metrics;
    if totalCount == 0.0 {
      return NO_METRICS;
    }
    return SummaryMetrics(
      totalFailedCount / totalCount,
      Percentiles(weightedP50 / totalCount, weightedP95 / totalCount, weightedP99 / totalCount),
      totalRate,
      totalCount,
      0.0);
  }

  // ---------- Order ----------

  lemma {:induction false} SumTakesOut(ms: seq<SummaryMetrics>, f: SummaryMetrics -> real, k: nat)
    requires k < |ms|
    ensures Sum(ms, f) == Sum(ms[..k] + ms[k + 1..], f) + f(ms[k])
  {
    var n := |ms| - 1;
    if k == n {
      assert ms[..k] + ms[k + 1..] == ms[..n];
    } else {
      var without := ms[..k] + ms[k + 1..];
      SumTakesOut(ms[..n], f, k);
      assert without[..|without| - 1] == ms[..n][..k] + ms[..n][k + 1..];
    }
  }

  lemma {:induction false} SumIgnoresOrder(a: seq<SummaryMetrics>, b: seq<SummaryMetrics>, f: SummaryMetrics -> real)
    requires multiset(a) == multiset(b)
    ensures Sum(a, f) == Sum(b, f)
    decreases |a|
  {
    PermutationHasSameLength(a, b);
    if a == [] {
    } else {
      var k := TakeOut(a, b);
      SumIgnoresOrder(a[..|a| - 1], b[..k] + b[k + 1..], f);
      SumTakesOut(b, f, k);
    }
  }

  /** Reordering the pods changes nothing in the aggregate. */
  lemma {:induction false} AggregationIgnoresOrder(a: seq<SummaryMetrics>, b: seq<SummaryMetrics>)
    requires multiset(a) == multiset(b)
    ensures Aggregated(a) == Aggregated(b)
  {
    PermutationHasSameLength(a, b);
    if |a| == 1 {
      assert a[0] in multiset(a) && a[0] in multiset(b);
    }
    SumIgnoresOrder(a, b, Count);
    SumIgnoresOrder(a, b, FailedCount);
    SumIgnoresOrder(a, b, ReqRate);
    SumIgnoresOrder(a, b, Weighted50);
    SumIgnoresOrder(a, b, Weighted95);
    SumIgnoresOrder(a, b, Weighted99);
  }

  // ---------- The error rate is exact ----------

  /** What one pod really sent; like every number of a summary, counts are float64 there. */
  datatype Traffic = Traffic(failed: real, total: real, perSecond: real)

  /** A summary that tells the truth about that pod's requests. */
  ghost predicate Reports(ms: Metrics, t: Traffic)
  {
    && 0.0 <= t.failed <= t.total
    && ValueOf(ms, "http_reqs", "count") == t.total
    && ValueOf(ms, "http_reqs", "rate") == t.perSecond
    && ValueOf(ms, "http_req_failed", "rate") == if t.total == 0.0 then 0.0 else t.failed / t.total
  }

  function AllFailed(ts: seq<Traffic>): real {
    if ts == [] then 0.0 else AllFailed(ts[..|ts| - 1]) + ts[|ts| - 1].failed
  }

  function AllRequests(ts: seq<Traffic>): real {
    if ts == [] then 0.0 else AllRequests(ts[..|ts| - 1]) + ts[|ts| - 1].total
  }

  function AllPerSecond(ts: seq<Traffic>): real {
    if ts == [] then 0.0 else AllPerSecond(ts[..|ts| - 1]) + ts[|ts| - 1].perSecond
  }

  function ExtractedAll(summaries: seq<Metrics>): (r: seq<SummaryMetrics>)
    ensures |r| == |summaries|
  {
    seq(|summaries|, i requires 0 <= i < |summaries| => Extracted(summaries[i]))
  }

  /** The failed count derived from a truthful rate is the real one. */
  lemma {:induction false} ExtractedCounts(ms: Metrics, t: Traffic)
    requires Reports(ms, t)
    ensures Extracted(ms).httpReqsCount == t.total
    ensures Extracted(ms).httpReqFailedCount == t.failed
  {
    if t.total != 0.0 {
      assert (t.failed / t.total) * t.total == t.failed;
    }
  }

  lemma {:induction false} TrafficSums(summaries: seq<Metrics>, ts: seq<Traffic>)
    requires |summaries| == |ts|
    requires forall i :: 0 <= i < |ts| ==> Reports(summaries[i], ts[i])
    ensures Sum(ExtractedAll(summaries), Count) == AllRequests(ts)
    ensures Sum(ExtractedAll(summaries), FailedCount) == AllFailed(ts)
    ensures Sum(ExtractedAll(summaries), ReqRate) == AllPerSecond(ts)
    ensures 0.0 <= AllFailed(ts) <= AllRequests(ts)
  {
    if ts == [] {
    } else {
      var n := |ts| - 1;
      assert Reports(summaries[n], ts[n]);
      TrafficSums(summaries[..n], ts[..n]);
      assert ExtractedAll(summaries)[..n] == ExtractedAll(summaries[..n]);
      ExtractedCounts(summaries[n], ts[n]);
    }
  }

  lemma {:induction false} FractionInUnit(a: real, b: real)
    requires 0.0 <= a <= b && b > 0.0
    ensures 0.0 <= a / b <= 1.0
  {}

  /** If every pod reports failed/total truthfully, extraction followed by aggregation gives
      the failed fraction of all requests pooled, a number between 0 and 1. */
  lemma {:induction false} ErrorRateIsExact(summaries: seq<Metrics>, ts: seq<Traffic>)
    requires |summaries| == |ts|
    requires forall i :: 0 <= i < |ts| ==> Reports(summaries[i], ts[i])
    requires AllRequests(ts) > 0.0
    ensures Aggregated(ExtractedAll(summaries)).httpReqFailed == AllFailed(ts) / AllRequests(ts)
    ensures 0.0 <= Aggregated(ExtractedAll(summaries)).httpReqFailed <= 1.0
  {
    TrafficSums(summaries, ts);
    FractionInUnit(AllFailed(ts), AllRequests(ts));
    if |ts| == 1 {
      assert Reports(summaries[0], ts[0]);
      assert ts[..0] == [];
      assert AllRequests(ts) == AllRequests(ts[..0]) + ts[0].total;
      assert AllFailed(ts) == AllFailed(ts[..0]) + ts[0].failed;
    }
  }

  /** The rates of the pods add up: extraction followed by aggregation gives the requests per
      second of all pods together, and their total. */
  lemma {:induction false} ThroughputIsExact(summaries: seq<Metrics>, ts: seq<Traffic>)
    requires |summaries| == |ts|
    requires forall i :: 0 <= i < |ts| ==> Reports(summaries[i], ts[i])
    requires AllRequests(ts) > 0.0
    ensures Aggregated(ExtractedAll(summaries)).httpReqs == AllPerSecond(ts)
    ensures Aggregated(ExtractedAll(summaries)).httpReqsCount == AllRequests(ts)
  {
    TrafficSums(summaries, ts);
    if |ts| == 1 {
      assert Reports(summaries[0], ts[0]);
      assert ts[..0] == [];
      assert AllRequests(ts) == AllRequests(ts[..0]) + ts[0].total;
      assert AllPerSecond(ts) == AllPerSecond(ts[..0]) + ts[0].perSecond;
    }
  }

  /** Several pods, or none, without a single request are zero in every metric; a single pod is
      passed on as it is. */
  lemma {:induction false} NoTrafficIsZero(summaries: seq<Metrics>, ts: seq<Traffic>)
    requires |summaries| == |ts|
    requires forall i :: 0 <= i < |ts| ==> Reports(summaries[i], ts[i])
    requires AllRequests(ts) == 0.0
    ensures |ts| != 1 ==> Aggregated(ExtractedAll(summaries))
                          == SummaryMetrics(0.0, Percentiles(0.0, 0.0, 0.0), 0.0, 0.0, 0.0)
    ensures |ts| == 1 ==> Aggregated(ExtractedAll(summaries)).httpReqs == ts[0].perSecond
                          && Aggregated(ExtractedAll(summaries)).httpReqFailed == 0.0
  {
    TrafficSums(summaries, ts);
    if |ts| == 1 {
      assert Reports(summaries[0], ts[0]);
      assert ts[..0] == [];
      assert AllRequests(ts) == AllRequests(ts[..0]) + ts[0].total;
    }
  }

  // ---------- Weighted percentiles ----------

  /** The combined percentile at a level, as the weighted mean it is. */
  lemma {:induction false} WeightedMean(ms: seq<SummaryMetrics>, level: Level)
    requires ms != [] && Sum(ms, Count) > 0.0
    ensures level.Of(Aggregated(ms).httpReqDuration) * Sum(ms, Count) == Sum(ms, WeightedAt(level))
  {
    if |ms| == 1 {
      assert ms[..0] == [];
    }
  }

  ghost predicate Within(m: SummaryMetrics, level: Level, lo: real, hi: real)
  {
    && m.httpReqsCount >= 0.0
    && (m.httpReqsCount > 0.0 ==> lo <= level.Of(m.httpReqDuration) <= hi)
  }

  lemma {:induction false} ScaleBoth(a: real, b: real, c: real)
    requires a <= b && c >= 0.0
    ensures a * c <= b * c
  {}

  lemma {:induction false} WeightBounds(m: SummaryMetrics, level: Level, lo: real, hi: real)
    requires Within(m, level, lo, hi)
    ensures lo * m.httpReqsCount <= WeightedAt(level)(m) <= hi * m.httpReqsCount
  {
    var p, c := level.Of(m.httpReqDuration), m.httpReqsCount;
    assert WeightedAt(level)(m) == p * c;
    if c > 0.0 {
      ScaleBoth(lo, p, c);
      ScaleBoth(p, hi, c);
    }
  }

  lemma {:induction false} Distribute(a: real, b: real, c: real)
    ensures a * (b + c) == a * b + a * c
  {}

  lemma {:induction false} WeightedSumBounds(ms: seq<SummaryMetrics>, level: Level, lo: real, hi: real)
    requires forall m :: m in ms ==> Within(m, level, lo, hi)
    ensures lo * Sum(ms, Count) <= Sum(ms, WeightedAt(level)) <= hi * Sum(ms, Count)
  {
    if ms == [] {
    } else {
      var n := |ms| - 1;
      var m, before := ms[n], ms[..n];
      WeightedSumBounds(before, level, lo, hi);
      WeightBounds(m, level, lo, hi);
      Distribute(lo, Sum(before, Count), Count(m));
      Distribute(hi, Sum(before, Count), Count(m));
    }
  }

  lemma {:induction false} DivideBoth(a: real, b: real, c: real)
    requires a * c <= b * c && c > 0.0
    ensures a <= b
  {}

  lemma {:induction false} MeanBounds(lo: real, p: real, hi: real, total: real, weighted: real)
    requires total > 0.0 && p * total == weighted && lo * total <= weighted <= hi * total
    ensures lo <= p <= hi
  {
    DivideBoth(lo, p, total);
    DivideBoth(p, hi, total);
  }

  lemma {:induction false} MeanInside(ms: seq<SummaryMetrics>, level: Level, lo: real, p: real, hi: real)
    requires Sum(ms, Count) > 0.0 && p * Sum(ms, Count) == Sum(ms, WeightedAt(level))
    requires forall m :: m in ms ==> Within(m, level, lo, hi)
    ensures lo <= p <= hi
  {
    WeightedSumBounds(ms, level, lo, hi);
    MeanBounds(lo, p, hi, Sum(ms, Count), Sum(ms, WeightedAt(level)));
  }

  /** A combined percentile lies between the smallest and the largest of the pods that saw
      any requests. */
  lemma {:induction false} AggregatedPercentileBounds(ms: seq<SummaryMetrics>, level: Level, lo: real, hi: real)
    requires ms != [] && Sum(ms, Count) > 0.0
    requires forall m :: m in ms ==> Within(m, level, lo, hi)
    ensures lo <= level.Of(Aggregated(ms).httpReqDuration) <= hi
  {
    WeightedMean(ms, level);
    MeanInside(ms, level, lo, level.Of(Aggregated(ms).httpReqDuration), hi);
  }

  lemma {:induction false} WeightsOrdered(m: SummaryMetrics, a: Level, b: Level)
    requires m.httpReqsCount >= 0.0 && a.Of(m.httpReqDuration) <= b.Of(m.httpReqDuration)
    ensures WeightedAt(a)(m) <= WeightedAt(b)(m)
  {
    var p, q, c := a.Of(m.httpReqDuration), b.Of(m.httpReqDuration), m.httpReqsCount;
    ScaleBoth(p, q, c);
    assert WeightedAt(a)(m) == p * c;
    assert WeightedAt(b)(m) == q * c;
  }

  lemma {:induction false} SumsOrdered(
    ms: seq<SummaryMetrics>, f: SummaryMetrics -> real, g: SummaryMetrics -> real)
    requires forall m :: m in ms ==> f(m) <= g(m)
    ensures Sum(ms, f) <= Sum(ms, g)
  {
    if ms == [] {
    } else {
      SumsOrdered(ms[..|ms| - 1], f, g);
    }
  }

  lemma {:induction false} CountsAddUp(ms: seq<SummaryMetrics>)
    requires forall m :: m in ms ==> m.httpReqsCount >= 0.0
    ensures Sum(ms, Count) >= 0.0
  {
    if ms == [] {
    } else {
      CountsAddUp(ms[..|ms| - 1]);
    }
  }

  lemma {:induction false} MeansOrdered(p: real, q: real, total: real, weightedP: real, weightedQ: real)
    requires total > 0.0 && p * total == weightedP && q * total == weightedQ && weightedP <= weightedQ
    ensures p <= q
  {
    DivideBoth(p, q, total);
  }

  /** When one percentile is at most another in every pod, it is in the aggregate, whatever
      became of the third: a summary without "p(99)" reads it as zero. */
  lemma {:induction false} AggregationKeepsPercentileOrder(ms: seq<SummaryMetrics>, a: Level, b: Level)
    requires forall m :: m in ms ==> m.httpReqsCount >= 0.0 && a.Of(m.httpReqDuration) <= b.Of(m.httpReqDuration)
    ensures a.Of(Aggregated(ms).httpReqDuration) <= b.Of(Aggregated(ms).httpReqDuration)
  {
    if |ms| == 1 {
      assert ms[0] in ms;
    } else if Sum(ms, Count) != 0.0 {
      CountsAddUp(ms);
      forall m | m in ms ensures WeightedAt(a)(m) <= WeightedAt(b)(m) {
        WeightsOrdered(m, a, b);
      }
      SumsOrdered(ms, WeightedAt(a), WeightedAt(b));
      WeightedMean(ms, a);
      WeightedMean(ms, b);
      MeansOrdered(a.Of(Aggregated(ms).httpReqDuration), b.Of(Aggregated(ms).httpReqDuration), Sum(ms, Count),
                   Sum(ms, WeightedAt(a)), Sum(ms, WeightedAt(b)));
    }
  }
}
