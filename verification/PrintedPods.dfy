/** From what k6 prints to what is measured: pods that print their summaries into their logs, among
    pods that print none, and the metrics the backend and the metric plugin make of them. */
module PrintedPods {
  import opened Wrappers
  import opened Provider
  import opened Strings
  import opened Scanner
  import opened Printer
  import opened PrintScan
  import opened Aggregate
  import opened Percentile
  import opened PodSummaries
  import opened RunID
  import opened Operator
  import Metric

  /** A pod's log: other lines, the pretty-printed object, and lines that close nothing. */
  datatype PodPrint = PodPrint(before: seq<string>, summary: Json, after: seq<string>)

  function LogOf(p: PodPrint): string {
    Join(p.before + Pretty(p.summary, 0) + p.after, '\n')
  }

  /** The print can be found, and parses to an object with both keys and these metrics. */
  ghost predicate Prints(p: PodPrint, parse: Unmarshal, ms: Metrics)
  {
    && IsObjectPrint(p.summary) && AllPlain(p.before) && AllPlain(p.after) && NothingCloses(p.after)
    && var parsed := parse(PrettyText(p.summary));
       parsed.Some? && parsed.value.metrics == Some(ms) && parsed.value.rootGroup.Some?
  }

  ghost predicate AllPrint(ps: seq<PodPrint>, parse: Unmarshal, summaries: seq<Metrics>) {
    |ps| == |summaries| && forall i :: 0 <= i < |ps| ==> Prints(ps[i], parse, summaries[i])
  }

  function LogsOf(ps: seq<PodPrint>): (logs: seq<PodLog>)
  {
    seq(|ps|, i requires 0 <= i < |ps| => Success(LogOf(ps[i])))
  }

  /** One printing pod contributes what is extracted from the metrics it printed. */
  lemma {:induction false} PrintingPodContributes(p: PodPrint, parse: Unmarshal, ms: Metrics)
    requires Prints(p, parse, ms)
    ensures Contribution(Success(LogOf(p)), parse) == Some(Extracted(ms))
  {
    PrintedSummaryIsFoundInText(p.before, p.summary, p.after, parse);
    SilentIff(Success(LogOf(p)), parse);
  }

  lemma {:induction false} OneMoreContributes(front: seq<PodPrint>, p: PodPrint, parse: Unmarshal, m: SummaryMetrics)
    requires Contribution(Success(LogOf(p)), parse) == Some(m)
    ensures Contributions(LogsOf(front + [p]), parse) == Contributions(LogsOf(front), parse) + [m]
    ensures Speaking(LogsOf(front + [p]), parse) == Speaking(LogsOf(front), parse) + [Success(LogOf(p))]
  {
    var logs := LogsOf(front + [p]);
    assert logs[..|logs| - 1] == LogsOf(front) && logs[|logs| - 1] == Success(LogOf(p));
  }

  lemma {:induction false} AllContribute(ps: seq<PodPrint>, parse: Unmarshal, ms: seq<SummaryMetrics>)
    requires |ps| == |ms|
    requires forall i :: 0 <= i < |ps| ==> Contribution(Success(LogOf(ps[i])), parse) == Some(ms[i])
    ensures Contributions(LogsOf(ps), parse) == ms && Speaking(LogsOf(ps), parse) == LogsOf(ps)
  {
    if ps == [] {
    } else {
      var n := |ps| - 1;
      AllContribute(ps[..n], parse, ms[..n]);
      OneMoreContributes(ps[..n], ps[n], parse, ms[n]);
      assert ps == ps[..n] + [ps[n]] && ms == ms[..n] + [ms[n]];
      assert LogsOf(ps) == LogsOf(ps[..n]) + [Success(LogOf(ps[n]))];
    }
  }

  /** Printing pods speak, and contribute what is extracted from what they printed. */
  lemma {:induction false} PrintingPodsContribute(ps: seq<PodPrint>, parse: Unmarshal, summaries: seq<Metrics>)
    requires AllPrint(ps, parse, summaries)
    ensures Contributions(LogsOf(ps), parse) == ExtractedAll(summaries) && Speaking(LogsOf(ps), parse) == LogsOf(ps)
  {
    var ms := ExtractedAll(summaries);
    forall i | 0 <= i < |ps| ensures Contribution(Success(LogOf(ps[i])), parse) == Some(ms[i]) {
      PrintingPodContributes(ps[i], parse, summaries[i]);
    }
    AllContribute(ps, parse, ms);
  }

  /** Whatever other pods there are, if their logs cannot be read or hold no summary, the metrics of
      the run are the aggregate of the extractions of exactly the printed summaries. */
  lemma {:induction false} PrintedSummariesAreMeasured(
    logs: seq<PodLog>, ps: seq<PodPrint>, parse: Unmarshal, summaries: seq<Metrics>)
    requires logs != [] && Speaking(logs, parse) == LogsOf(ps) && AllPrint(ps, parse, summaries)
    ensures RunMetrics(Success(logs), parse) == Success(Aggregated(ExtractedAll(summaries)))
  {
    MetricsOfSpeakingPods(logs, parse);
    PrintingPodsContribute(ps, parse, summaries);
  }

  // ---------- What the metric plugin measures ----------

  /** The pods' logs that a poll sees are those of these printing pods, and silent ones. */
  ghost predicate Logged(api: Api, ps: seq<PodPrint>, summaries: seq<Metrics>)
  {
    && api.podLogs.Success? && api.podLogs.value != []
    && Speaking(api.podLogs.value, api.parse) == LogsOf(ps) && AllPrint(ps, api.parse, summaries)
  }

  /** The poll answers that the run passed or failed. */
  ghost predicate Judged(runID: string, api: Api, store: Store)
  {
    var reply := PollReply(runID, api, store);
    reply.Success? && (reply.value.state == Passed || reply.value.state == Failed)
  }

  lemma {:induction false} PolledMetrics(
    runID: string, api: Api, store: Store, ps: seq<PodPrint>, summaries: seq<Metrics>)
    requires Judged(runID, api, store) && Logged(api, ps, summaries)
    ensures var r, m := PollReply(runID, api, store).value, Aggregated(ExtractedAll(summaries));
            && r.httpReqFailed == m.httpReqFailed && r.httpReqs == m.httpReqs && r.httpReqDuration == m.httpReqDuration
  {
    PrintedSummariesAreMeasured(api.podLogs.value, ps, api.parse, summaries);
    MetricsOfPoll(runID, api, store);
  }

  /** What Resume makes of one poll. */
  ghost function Measured(metric: Metric.MetricSpec, m: Metric.Measurement, api: Api, store: Store,
                          format: real -> string): string
  {
    var polled := PollReply(Metric.Get(m.metadata, "runId"), api, store);
    Metric.Resumed(Metric.ParseConfig(metric), m, polled, format).value
  }

  ghost predicate Measures(metric: Metric.MetricSpec, name: string) {
    metric.config.Some? && metric.config.value.metric == name && FieldsAccepted(metric.config.value)
  }

  /** End to end: for a finished run whose pods print truthful summaries, an "http_req_failed"
      measurement is the failed fraction of all requests, and an "http_reqs" measurement is the
      requests per second of all pods together. */
  lemma {:induction false} TrafficIsMeasured(
    metric: Metric.MetricSpec, m: Metric.Measurement, api: Api, store: Store, format: real -> string,
    ps: seq<PodPrint>, summaries: seq<Metrics>, ts: seq<Traffic>)
    requires Metric.Get(m.metadata, "runId") != "" && Judged(Metric.Get(m.metadata, "runId"), api, store)
    requires Logged(api, ps, summaries) && |ts| == |summaries| && AllRequests(ts) > 0.0
    requires forall i :: 0 <= i < |ts| ==> Reports(summaries[i], ts[i])
    ensures Measures(metric, "http_req_failed") ==>
              Measured(metric, m, api, store, format) == format(AllFailed(ts) / AllRequests(ts))
    ensures Measures(metric, "http_reqs") ==> Measured(metric, m, api, store, format) == format(AllPerSecond(ts))
  {
    var runID := Metric.Get(m.metadata, "runId");
    PolledMetrics(runID, api, store, ps, summaries);
    ErrorRateIsExact(summaries, ts);
    ThroughputIsExact(summaries, ts);
    Metric.ResumedMeaning(metric, m, PollReply(runID, api, store), format);
  }

  /** The aggregation a configuration names. */
  function AggregationOf(level: Level): string
  {
    match level
    case P50 => "p50"
    case P95 => "p95"
    case P99 => "p99"
  }

  lemma {:induction false} DurationValue(
    metric: Metric.MetricSpec, m: Metric.Measurement, api: Api, store: Store, format: real -> string,
    ps: seq<PodPrint>, summaries: seq<Metrics>, level: Level)
    requires Metric.Get(m.metadata, "runId") != "" && Judged(Metric.Get(m.metadata, "runId"), api, store)
    requires Logged(api, ps, summaries)
    requires Measures(metric, "http_req_duration") && metric.config.value.aggregation == AggregationOf(level)
    ensures Measured(metric, m, api, store, format)
            == format(level.Of(Aggregated(ExtractedAll(summaries)).httpReqDuration))
  {
    var runID := Metric.Get(m.metadata, "runId");
    PolledMetrics(runID, api, store, ps, summaries);
    Metric.ResumedMeaning(metric, m, PollReply(runID, api, store), format);
  }

  /** End to end: an "http_req_duration" measurement at a level the pods report truthfully is off
      the true percentile of all requests by no more than the spread of the pods' own. */
  lemma {:induction false} DurationIsMeasured(
    metric: Metric.MetricSpec, m: Metric.Measurement, api: Api, store: Store, format: real -> string,
    ps: seq<PodPrint>, summaries: seq<Metrics>, pods: seq<Samples>, level: Level, v: real, lo: real, hi: real)
    requires Metric.Get(m.metadata, "runId") != "" && Judged(Metric.Get(m.metadata, "runId"), api, store)
    requires Logged(api, ps, summaries) && |pods| == |summaries|
    requires Measures(metric, "http_req_duration") && metric.config.value.aggregation == AggregationOf(level)
    requires forall i :: 0 <= i < |pods| ==> ReportsDurations(summaries[i], pods[i], level)
    requires IsPercentile(Pool(pods), level.Percent(), v)
    requires forall i :: 0 <= i < |pods| && pods[i] != [] ==> lo <= DurationIn(summaries[i], level) <= hi
    ensures exists x :: Measured(metric, m, api, store, format) == format(x)
                        && lo <= x <= hi && lo <= v <= hi && -(hi - lo) <= x - v <= hi - lo
  {
    DurationValue(metric, m, api, store, format, ps, summaries, level);
    ApproximationError(summaries, pods, level, v, lo, hi);
    var x := level.Of(Aggregated(ExtractedAll(summaries)).httpReqDuration);
    assert Measured(metric, m, api, store, format) == format(x);
  }
}
