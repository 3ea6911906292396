/** Metrics of a whole run: the summaries of all runner pods, combined
    (parseSummaryFromPods, internal/provider/operator/summary.go). */
module PodSummaries {
  import opened Wrappers
  import opened Provider
  import opened Strings
  import opened Scanner
  import opened Aggregate

  /** What reading one pod's log gave. */
  type PodLog = Result<string, Error>

  /** The metrics one pod contributes, if its log can be read and holds a summary. */
  ghost function Contribution(log: PodLog, parse: Unmarshal): Option<SummaryMetrics>
  {
    if log.Failure? then None
    else match Outcome(Split(log.value, '\n'), parse)
      case Found(s) => Some(Extracted(if s.metrics.Some? then s.metrics.value else map[]))
      case _ => None
  }

  /** The contributions, in the order of the pods. */
  ghost function Contributions(logs: seq<PodLog>, parse: Unmarshal): seq<SummaryMetrics>
  {
    if logs == [] then []
    else
      var c := Contribution(logs[|logs| - 1], parse);
      Contributions(logs[..|logs| - 1], parse) + if c.Some? then [c.value] else []
  }

  ghost function RunMetrics(listing: Result<seq<PodLog>, Error>, parse: Unmarshal): Result<SummaryMetrics, Error>
  {
    match listing
    case Failure(_) => Failure(ListFailed)
    case Success(logs) =>
      if logs == [] then Failure(NoRunnerPods) else Success(Aggregated(Contributions(logs, parse)))
  }

  method ParseSummaryFromPods(listing: Result<seq<PodLog>, Error>, parse: Unmarshal)
    returns (r: Result<SummaryMetrics, Error>)
    ensures r == RunMetrics(listing, parse)
  {
    if listing.Failure? {
      return Failure(ListFailed);
    }
    var logs := listing.value;
    if |logs| == 0 {
      return Failure(NoRunnerPods);
    }
    var collected: seq<SummaryMetrics> := [];
    for i := 0 to |logs|
      invariant collected == Contributions(logs[..i], parse)
    {
      assert logs[..i + 1][..i] == logs[..i];
      if logs[i].Failure? {
        continue;
      }
      var scan, _ := FindSummaryJSON(logs[i].value, parse);
      match scan
      case Truncated => continue;
      case Malformed(_) => continue;
      case Nothing => continue;
      case Found(summary) =>
        var m := ExtractMetricsFromSummary(summary);
        collected := collected + [m];
    }
    assert logs[..|logs|] == logs;
    if |collected| == 0 {
      return Success(NO_METRICS);
    }
    var result := AggregateMetrics(collected);
    return Success(result);
  }

  // ---------- Pods that contribute nothing ----------

  ghost predicate Silent(log: PodLog, parse: Unmarshal) {
    Contribution(log, parse).None?
  }

  /** A pod contributes nothing exactly when its log cannot be read or no summary is found in it;
      otherwise it contributes what is extracted from the metrics of that summary. */
  lemma {:induction false} SilentIff(log: PodLog, parse: Unmarshal)
    ensures Silent(log, parse) <==> log.Failure? || !Outcome(Split(log.value, '\n'), parse).Found?
    ensures !Silent(log, parse) ==>
              var metrics := Outcome(Split(log.value, '\n'), parse).summary.metrics;
              metrics.Some? && Contribution(log, parse) == Some(Extracted(metrics.value))
  {
    if log.Success? {
      OutcomeMeaning(Split(log.value, '\n'), parse);
    }
  }

  /** There are metrics, zero or not, exactly when pods could be listed and there was one. */
  lemma {:induction false} MetricsFailIff(listing: Result<seq<PodLog>, Error>, parse: Unmarshal)
    ensures var r := RunMetrics(listing, parse);
            && (r.Failure? <==> listing.Failure? || listing.value == [])
            && (r.Failure? ==> r.error == if listing.Failure? then ListFailed else NoRunnerPods)
  {}

  lemma {:induction false} ContributionsConcat(a: seq<PodLog>, b: seq<PodLog>, parse: Unmarshal)
    ensures Contributions(a + b, parse) == Contributions(a, parse) + Contributions(b, parse)
  {
    if b == [] {
      assert a + b == a;
    } else {
      assert (a + b)[..|a + b| - 1] == a + b[..|b| - 1];
      ContributionsConcat(a, b[..|b| - 1], parse);
    }
  }

  lemma {:induction false} ContributionsOfOne(log: PodLog, parse: Unmarshal)
    ensures var c := Contribution(log, parse);
            Contributions([log], parse) == if c.Some? then [c.value] else []
  {
    assert [log][..0] == [];
  }

  /** Taking one pod out of a list takes out what it contributed. */
  lemma {:induction false} ContributionsAround(l: seq<PodLog>, log: PodLog, r: seq<PodLog>, parse: Unmarshal)
    ensures Contributions(l + [log] + r, parse)
            == Contributions(l, parse) + Contributions([log], parse) + Contributions(r, parse)
    ensures Contributions(l + r, parse) == Contributions(l, parse) + Contributions(r, parse)
  {
    ContributionsConcat(l + [log], r, parse);
    ContributionsConcat(l, [log], parse);
    ContributionsConcat(l, r, parse);
  }

  /** The pods that do contribute, in order. */
  ghost function Speaking(logs: seq<PodLog>, parse: Unmarshal): seq<PodLog>
  {
    if logs == [] then []
    else Speaking(logs[..|logs| - 1], parse) + if Silent(logs[|logs| - 1], parse) then [] else [logs[|logs| - 1]]
  }

  lemma {:induction false} OnlySpeakingPodsContribute(logs: seq<PodLog>, parse: Unmarshal)
    ensures Contributions(logs, parse) == Contributions(Speaking(logs, parse), parse)
    ensures |Contributions(logs, parse)| == |Speaking(logs, parse)|
  {
    if logs == [] {
    } else {
      var front, last := logs[..|logs| - 1], logs[|logs| - 1];
      OnlySpeakingPodsContribute(front, parse);
      ContributionsOfOne(last, parse);
      if Silent(last, parse) {
        assert Speaking(logs, parse) == Speaking(front, parse);
      } else {
        ContributionsConcat(Speaking(front, parse), [last], parse);
      }
    }
  }

  /** A run's metrics are the aggregate over the speaking pods in order, zero when there are none. */
  lemma {:induction false} MetricsOfSpeakingPods(logs: seq<PodLog>, parse: Unmarshal)
    requires logs != []
    ensures RunMetrics(Success(logs), parse) == Success(Aggregated(Contributions(Speaking(logs, parse), parse)))
    ensures Speaking(logs, parse) == [] ==> RunMetrics(Success(logs), parse) == Success(NO_METRICS)
  {
    OnlySpeakingPodsContribute(logs, parse);
  }

  /** Two nonempty pod lists that differ only in pods whose logs cannot be read, do not parse
      or hold no summary, wherever those stand, yield the same metrics. */
  lemma {:induction false} SilentPodsDoNotMatter(logs: seq<PodLog>, logs': seq<PodLog>, parse: Unmarshal)
    requires logs != [] && logs' != [] && Speaking(logs, parse) == Speaking(logs', parse)
    ensures RunMetrics(Success(logs), parse) == RunMetrics(Success(logs'), parse)
  {
    OnlySpeakingPodsContribute(logs, parse);
    OnlySpeakingPodsContribute(logs', parse);
  }

  /** In particular one silent pod may be inserted or removed anywhere. */
  lemma {:induction false} InsertSilentPod(before: seq<PodLog>, silent: PodLog, after: seq<PodLog>, parse: Unmarshal)
    requires Silent(silent, parse) && before + after != []
    ensures RunMetrics(Success(before + [silent] + after), parse) == RunMetrics(Success(before + after), parse)
  {
    ContributionsAround(before, silent, after, parse);
    ContributionsOfOne(silent, parse);
    assert Contributions(before, parse) + [] == Contributions(before, parse);
  }

  lemma {:induction false} RegroupMultisets<T>(f: seq<T>, x: seq<T>, l: seq<T>, r: seq<T>)
    requires multiset(f) == multiset(l + r)
    ensures multiset(f + x) == multiset(l + x + r)
  {}

  lemma {:induction false} ContributionsOfPermutation(a: seq<PodLog>, b: seq<PodLog>, parse: Unmarshal)
    requires multiset(a) == multiset(b)
    ensures multiset(Contributions(a, parse)) == multiset(Contributions(b, parse))
    decreases |a|
  {
    PermutationHasSameLength(a, b);
    if a == [] {
    } else {
      var front, x := a[..|a| - 1], a[|a| - 1];
      var k := TakeOut(a, b);
      var l, r := b[..k], b[k + 1..];
      ContributionsOfPermutation(front, l + r, parse);
      assert a == front + [x];
      ContributionsConcat(front, [x], parse);
      ContributionsAround(l, x, r, parse);
      RegroupMultisets(Contributions(front, parse), Contributions([x], parse),
                       Contributions(l, parse), Contributions(r, parse));
    }
  }

  /** The order in which the pods are listed does not matter either. */
  lemma {:induction false} PodOrderDoesNotMatter(a: seq<PodLog>, b: seq<PodLog>, parse: Unmarshal)
    requires multiset(a) == multiset(b)
    ensures RunMetrics(Success(a), parse) == RunMetrics(Success(b), parse)
  {
    PermutationHasSameLength(a, b);
    ContributionsOfPermutation(a, b, parse);
    AggregationIgnoresOrder(Contributions(a, parse), Contributions(b, parse));
  }
}
