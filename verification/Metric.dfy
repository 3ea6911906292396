/** The metric plugin on the k6-operator backend: the run ID a measurement carries from Run
    through Resume and Terminate, and the garbage collection that finally releases the
    resources (internal/metric/metric.go). */
module Metric {
  import opened Wrappers
  import opened Provider
  import opened RunID
  import opened Operator

  datatype AnalysisPhase = PhaseRunning | PhaseSuccessful | PhaseFailed | PhaseError

  datatype Note = NoNote | ErrorNote(error: Error) | RunEnded(state: RunState, runID: string) | Terminated

  datatype Measurement = Measurement(
    phase: AnalysisPhase,
    note: Note,
    value: string,
    metadata: map<string, string>,
    finished: bool)

  datatype MetricResult = MetricResult(name: string, measurements: seq<Measurement>)

  datatype OwnerRef = OwnerRef(kind: string, name: string, controller: bool)

  datatype AnalysisRun = AnalysisRun(
    name: string, namespace: string, uid: string, owners: seq<OwnerRef>, results: seq<MetricResult>)

  /** A metric and its decoded plugin configuration, None when absent or undecodable. */
  datatype MetricSpec = MetricSpec(name: string, config: Option<PluginConfig>)

  const RUN_ID := "runId"

  // ---------- Configuration ----------

  function ParseConfig(metric: MetricSpec): Result<PluginConfig, Error>
  {
    match metric.config
    case None => Failure(ConfigInvalid)
    case Some(cfg) =>
      if cfg.metric == "" then Failure(ConfigInvalid)
      else if cfg.IsGrafanaCloud() && !cfg.ValidGrafanaCloud() then Failure(ConfigInvalid)
      else if cfg.provider == "k6-operator" && !cfg.ValidK6Operator() then Failure(ConfigInvalid)
      else Success(cfg)
  }

  predicate Controls(o: OwnerRef) {
    o.kind == "Rollout" && o.controller
  }

  /** The name of the first owner that is a controlling Rollout. */
  function ControllingRollout(owners: seq<OwnerRef>): Option<string>
  {
    if owners == [] then None
    else if Controls(owners[0]) then Some(owners[0].name)
    else ControllingRollout(owners[1..])
  }

  /** Only controlling Rollouts count, and the first of them wins. */
  lemma {:induction false} ControllingRolloutIsFirst(owners: seq<OwnerRef>)
    ensures ControllingRollout(owners).None? <==> forall i :: 0 <= i < |owners| ==> !Controls(owners[i])
    ensures ControllingRollout(owners).Some? ==>
              exists i :: 0 <= i < |owners| && Controls(owners[i]) && owners[i].name == ControllingRollout(owners).value
                          && forall j :: 0 <= j < i ==> !Controls(owners[j])
  {
    if owners != [] && !Controls(owners[0]) {
      var rest := owners[1..];
      ControllingRolloutIsFirst(rest);
      assert forall i :: 0 <= i < |rest| ==> rest[i] == owners[i + 1];
      if ControllingRollout(rest).Some? {
        var i :| 0 <= i < |rest| && Controls(rest[i]) && rest[i].name == ControllingRollout(rest).value
                 && forall j :: 0 <= j < i ==> !Controls(rest[j]);
        forall j | 0 <= j < i + 1 ensures !Controls(owners[j]) {
          assert j > 0 ==> owners[j] == rest[j - 1];
        }
        assert Controls(owners[i + 1]) && owners[i + 1].name == ControllingRollout(owners).value;
      } else {
        assert forall i :: 1 <= i < |owners| ==> owners[i] == rest[i - 1];
      }
    }
  }

  function PopulateFromAnalysisRun(cfg: PluginConfig, ar: Option<AnalysisRun>): PluginConfig
  {
    match ar
    case None => cfg
    case Some(run) =>
      var named := cfg.(analysisRunName := run.name, analysisRunUID := run.uid,
                        namespace := OrDefault(cfg.namespace, run.namespace));
      var rollout := ControllingRollout(run.owners);
      if rollout.Some? then named.(rolloutName := rollout.value) else named
  }

  function ExtractMetricValue(r: RunResult, metric: string, aggregation: string): Result<real, Error>
  {
    if metric == "thresholds" then Success(if r.thresholdsPassed then 1.0 else 0.0)
    else if metric == "http_req_failed" then Success(r.httpReqFailed)
    else if metric == "http_req_duration" then
      if aggregation == "p50" then Success(r.httpReqDuration.p50)
      else if aggregation == "p95" then Success(r.httpReqDuration.p95)
      else if aggregation == "p99" then Success(r.httpReqDuration.p99)
      else Failure(ConfigInvalid)
    else if metric == "http_reqs" then Success(r.httpReqs)
    else Failure(ConfigInvalid)
  }

  /** A configuration is accepted as it is, exactly when it names a metric and its fields are
      acceptable. */
  lemma {:induction false} ParsesIff(metric: MetricSpec)
    ensures ParseConfig(metric).Success? <==>
            metric.config.Some? && metric.config.value.metric != "" && FieldsAccepted(metric.config.value)
    ensures ParseConfig(metric).Success? ==> ParseConfig(metric).value == metric.config.value
  {}

  /** The analysis run gives its name and UID, its namespace where none is configured, and the name
      of its controlling Rollout if it has one; nothing else changes. */
  lemma {:induction false} PopulatedIs(cfg: PluginConfig, run: AnalysisRun)
    ensures var r := PopulateFromAnalysisRun(cfg, Some(run));
            && r == cfg.(analysisRunName := run.name, analysisRunUID := run.uid,
                         namespace := r.namespace, rolloutName := r.rolloutName)
            && r.namespace == (if cfg.namespace == "" then run.namespace else cfg.namespace)
            && ((forall o :: o in run.owners ==> !(o.kind == "Rollout" && o.controller)) ==>
                r.rolloutName == cfg.rolloutName)
            && ((exists o :: o in run.owners && o.kind == "Rollout" && o.controller) ==>
                exists o :: o in run.owners && o.kind == "Rollout" && o.controller && r.rolloutName == o.name)
    ensures PopulateFromAnalysisRun(cfg, None) == cfg
  {
    ControllingRolloutIsFirst(run.owners);
    if o :| o in run.owners && o.kind == "Rollout" && o.controller {
      var i :| 0 <= i < |run.owners| && run.owners[i] == o;
      assert Controls(run.owners[i]);
    }
  }

  /** Which number of a result is measured, by the names in the configuration. */
  lemma {:induction false} MeasuredValue(r: RunResult, metric: string, aggregation: string)
    ensures ExtractMetricValue(r, "thresholds", aggregation) == Success(if r.thresholdsPassed then 1.0 else 0.0)
    ensures ExtractMetricValue(r, "http_req_failed", aggregation) == Success(r.httpReqFailed)
    ensures ExtractMetricValue(r, "http_reqs", aggregation) == Success(r.httpReqs)
    ensures ExtractMetricValue(r, "http_req_duration", "p50") == Success(r.httpReqDuration.p50)
    ensures ExtractMetricValue(r, "http_req_duration", "p95") == Success(r.httpReqDuration.p95)
    ensures ExtractMetricValue(r, "http_req_duration", "p99") == Success(r.httpReqDuration.p99)
    ensures ExtractMetricValue(r, metric, aggregation).Success? <==>
            || metric in {"thresholds", "http_req_failed", "http_reqs"}
            || (metric == "http_req_duration" && aggregation in {"p50", "p95", "p99"})
  {}

  // ---------- Measurements ----------

  function Get(metadata: map<string, string>, key: string): string {
    if key in metadata then metadata[key] else ""
  }

  function MarkError(m: Measurement, e: Error): Measurement {
    m.(phase := PhaseError, note := ErrorNote(e), finished := true)
  }

  const FRESH_MEASUREMENT := Measurement(PhaseRunning, NoNote, "", map[], false)

  function StateName(state: RunState): string
  {
    match state
    case Running => "Running"
    case Passed => "Passed"
    case Failed => "Failed"
    case Errored => "Errored"
    case Aborted => "Aborted"
  }

  function Ended(m: Measurement, state: RunState, runID: string): Measurement
  {
    match state
    case Running => m.(phase := PhaseRunning)
    case Passed => m.(phase := PhaseSuccessful, finished := true)
    case Failed => m.(phase := PhaseFailed, finished := true)
    case _ => m.(phase := PhaseError, note := RunEnded(state, runID), finished := true)
  }

  /** What Resume makes of a measurement, for any answer to the poll. */
  function Resumed(
    parsed: Result<PluginConfig, Error>, m: Measurement, polled: Result<RunResult, Error>, format: real -> string)
    : Measurement
  {
    var runID := Get(m.metadata, RUN_ID);
    if parsed.Failure? then MarkError(m, parsed.error)
    else if runID == "" then MarkError(m, RunIDInvalid)
    else if polled.Failure? then MarkError(m, polled.error)
    else
      var r := polled.value;
      var polledM := m.(metadata := m.metadata["testRunURL" := r.testRunURL]["runState" := StateName(r.state)]);
      match ExtractMetricValue(r, parsed.value.metric, parsed.value.aggregation)
      case Failure(e) => MarkError(polledM, e)
      case Success(v) =>
        Ended(polledM.(value := format(v), metadata := polledM.metadata["metricValue" := format(v)]), r.state, runID)
  }

  function TerminatedMeasurement(parsed: Result<PluginConfig, Error>, m: Measurement): Measurement
  {
    if parsed.Failure? then MarkError(m, parsed.error)
    else m.(phase := PhaseError, note := Terminated, finished := true)
  }

  // ---------- Garbage collection ----------

  /** The nonempty run IDs of a list of measurements, in order. */
  function RunIDs(ms: seq<Measurement>): seq<string>
  {
    if ms == [] then []
    else
      var runID := Get(ms[|ms| - 1].metadata, RUN_ID);
      RunIDs(ms[..|ms| - 1]) + if runID == "" then [] else [runID]
  }

  function MatchingRunIDs(results: seq<MetricResult>, name: string): seq<string>
  {
    if results == [] then []
    else
      var last := results[|results| - 1];
      MatchingRunIDs(results[..|results| - 1], name) + if last.name == name then RunIDs(last.measurements) else []
  }

  /** The calls garbage collection makes: one for every nonempty run ID of the metric. */
  function Collected(ar: Option<AnalysisRun>, metric: MetricSpec): seq<string>
  {
    if ar.None? || ParseConfig(metric).Failure? then [] else MatchingRunIDs(ar.value.results, metric.name)
  }

  /** The store after deleting by these run IDs in turn; the k-th delete may fail. */
  function AfterDeletes(runIDs: seq<string>, fails: nat -> bool, store: Store): Store
  {
    if runIDs == [] then store
    else
      var n := |runIDs| - 1;
      AfterDelete(runIDs[n], fails(n), AfterDeletes(runIDs[..n], fails, store))
  }

  // ---------- The plugin ----------

  lemma {:induction false} DeleteOneMore(runIDs: seq<string>, runID: string, fails: nat -> bool, store: Store)
    ensures AfterDeletes(runIDs + [runID], fails, store)
            == AfterDelete(runID, fails(|runIDs|), AfterDeletes(runIDs, fails, store))
  {
    assert (runIDs + [runID])[..|runIDs|] == runIDs;
  }

  class K6MetricProvider {
    const provider: K6OperatorProvider
    const format: real -> string

    constructor (p: K6OperatorProvider, format: real -> string)
      ensures provider == p && this.format == format
    {
      provider := p;
      this.format := format;
    }

    method Run(ar: Option<AnalysisRun>, metric: MetricSpec, api: Api) returns (m: Measurement)
      modifies provider.dynClient
      ensures if m.phase == PhaseRunning then !m.finished && m.note == NoNote && Get(m.metadata, "runId") != ""
              else m.phase == PhaseError && m.finished && m.note.ErrorNote? && m.metadata == map[]
      ensures ParseConfig(metric).Failure? ==>
                m == MarkError(FRESH_MEASUREMENT, ParseConfig(metric).error)
                && provider.dynClient.objects == old(provider.dynClient.objects)
      ensures ParseConfig(metric).Success? ==>
                var cfg := PopulateFromAnalysisRun(ParseConfig(metric).value, ar);
                var reply := TriggerReply(cfg, api, old(provider.dynClient.objects));
                if cfg.testRunID != "" then
                  m == FRESH_MEASUREMENT.(metadata := map[RUN_ID := cfg.testRunID])
                  && provider.dynClient.objects == old(provider.dynClient.objects)
                else
                  m == (if reply.Success? then FRESH_MEASUREMENT.(metadata := map[RUN_ID := reply.value])
                        else MarkError(FRESH_MEASUREMENT, reply.error))
                  && provider.dynClient.objects == AfterTrigger(cfg, api, old(provider.dynClient.objects))
    {
      m := FRESH_MEASUREMENT;
      var parsed := ParseConfig(metric);
      if parsed.Failure? {
        return MarkError(m, parsed.error);
      }
      var cfg := PopulateFromAnalysisRun(parsed.value, ar);
      var runID := cfg.testRunID;
      if cfg.testRunID == "" {
        ghost var store := provider.dynClient.objects;
        var triggered := provider.TriggerRun(cfg, api);
        if triggered.Failure? {
          return MarkError(m, triggered.error);
        }
        TriggerReturnsHandle(cfg, api, store);
        runID := triggered.value;
      }
      m := m.(metadata := m.metadata[RUN_ID := runID]);
      assert map[][RUN_ID := runID] == map[RUN_ID := runID];
    }

    method Resume(metric: MetricSpec, measurement: Measurement, api: Api) returns (m: Measurement)
      ensures m == Resumed(ParseConfig(metric), measurement,
                           PollReply(Get(measurement.metadata, RUN_ID), api, provider.dynClient.objects), format)
    {
      m := measurement;
      var cfg := ParseConfig(metric);
      if cfg.Failure? {
        return MarkError(m, cfg.error);
      }
      var runID := Get(m.metadata, RUN_ID);
      if runID == "" {
        return MarkError(m, RunIDInvalid);
      }
      var result := provider.GetRunResult(runID, api);
      if result.Failure? {
        return MarkError(m, result.error);
      }
      var r := result.value;
      m := m.(metadata := m.metadata["testRunURL" := r.testRunURL]);
      m := m.(metadata := m.metadata["runState" := StateName(r.state)]);
      var value := ExtractMetricValue(r, cfg.value.metric, cfg.value.aggregation);
      if value.Failure? {
        return MarkError(m, value.error);
      }
      m := m.(value := format(value.value));
      m := m.(metadata := m.metadata["metricValue" := format(value.value)]);
      match r.state {
        case Running =>
          m := m.(phase := PhaseRunning);
        case Passed =>
          m := m.(phase := PhaseSuccessful, finished := true);
        case Failed =>
          m := m.(phase := PhaseFailed, finished := true);
        case Errored =>
          m := m.(phase := PhaseError, note := RunEnded(r.state, runID), finished := true);
        case Aborted =>
          m := m.(phase := PhaseError, note := RunEnded(r.state, runID), finished := true);
      }
    }

    method Terminate(metric: MetricSpec, measurement: Measurement, api: Api) returns (m: Measurement)
      modifies provider.dynClient
      ensures m == TerminatedMeasurement(ParseConfig(metric), measurement)
      ensures provider.dynClient.objects ==
              if ParseConfig(metric).Failure? || Get(measurement.metadata, RUN_ID) == ""
              then old(provider.dynClient.objects)
              else AfterDelete(Get(measurement.metadata, RUN_ID), api.deleteFails, old(provider.dynClient.objects))
    {
      m := measurement;
      var cfg := ParseConfig(metric);
      if cfg.Failure? {
        return MarkError(m, cfg.error);
      }
      var runID := Get(m.metadata, RUN_ID);
      if runID != "" {
        var _ := provider.StopRun(runID, api);
      }
      m := m.(phase := PhaseError, note := Terminated, finished := true);
    }

    /** The inner loop: one result's measurements, after the calls already made. */
    method CollectMeasurements(ms: seq<Measurement>, api: Api, fails: nat -> bool, ghost before: seq<string>, made: nat,
                               ghost store: Store)
      returns (madeAfter: nat)
      requires made == |before| && provider.dynClient.objects == AfterDeletes(before, fails, store)
      modifies provider.dynClient
      ensures madeAfter == |before + RunIDs(ms)|
      ensures provider.dynClient.objects == AfterDeletes(before + RunIDs(ms), fails, store)
    {
      madeAfter := made;
      ghost var calls := before;
      assert before + RunIDs(ms[..0]) == before;
      for j := 0 to |ms|
        invariant calls == before + RunIDs(ms[..j]) && madeAfter == |calls|
        invariant provider.dynClient.objects == AfterDeletes(calls, fails, store)
      {
        assert ms[..j + 1][..j] == ms[..j];
        var runID := Get(ms[j].metadata, RUN_ID);
        if runID == "" {
          assert RunIDs(ms[..j + 1]) == RunIDs(ms[..j]);
          continue;
        }
        var _ := provider.Cleanup(runID, api.(deleteFails := fails(madeAfter)));
        DeleteOneMore(calls, runID, fails, store);
        assert before + RunIDs(ms[..j + 1]) == calls + [runID];
        calls := calls + [runID];
        madeAfter := madeAfter + 1;
      }
      assert ms[..|ms|] == ms;
    }

    /** Cleans up after every measurement of the metric, whatever individual deletes answer. */
    method GarbageCollect(ar: Option<AnalysisRun>, metric: MetricSpec, api: Api, fails: nat -> bool)
      returns (ghost calls: seq<string>)
      modifies provider.dynClient
      ensures calls == Collected(ar, metric)
      ensures provider.dynClient.objects == AfterDeletes(calls, fails, old(provider.dynClient.objects))
    {
      calls := [];
      if ar.None? {
        return;
      }
      var parsed := ParseConfig(metric);
      if parsed.Failure? {
        return;
      }
      ghost var store := provider.dynClient.objects;
      var results := ar.value.results;
      var made := 0;
      for i := 0 to |results|
        invariant calls == MatchingRunIDs(results[..i], metric.name) && made == |calls|
        invariant provider.dynClient.objects == AfterDeletes(calls, fails, store)
      {
        assert results[..i + 1][..i] == results[..i];
        if results[i].name != metric.name {
          assert calls + [] == calls;
          continue;
        }
        var ms := results[i].measurements;
        made := CollectMeasurements(ms, api, fails, calls, made, store);
        calls := calls + RunIDs(ms);
      }
      assert results[..|results|] == results;
    }
  }

  // ---------- Which calls ----------

  lemma {:induction false} RunIDsAre(ms: seq<Measurement>, runID: string)
    ensures runID in RunIDs(ms) <==> runID != "" && exists m :: m in ms && Get(m.metadata, RUN_ID) == runID
  {
    if ms == [] {
    } else {
      var front, last := ms[..|ms| - 1], ms[|ms| - 1];
      RunIDsAre(front, runID);
      assert forall m :: m in ms <==> m in front || m == last;
    }
  }

  /** A run ID is collected exactly when it is nonempty and some measurement of a result with
      the metric's name carries it. */
  lemma {:induction false} MatchingRunIDsAre(results: seq<MetricResult>, name: string, runID: string)
    ensures runID in MatchingRunIDs(results, name) <==>
            && runID != ""
            && exists r, m :: r in results && r.name == name && m in r.measurements && Get(m.metadata, RUN_ID) == runID
  {
    if results == [] {
    } else {
      var front, last := results[..|results| - 1], results[|results| - 1];
      MatchingRunIDsAre(front, name, runID);
      RunIDsAre(last.measurements, runID);
      assert forall r :: r in results <==> r in front || r == last;
    }
  }

  /** Run IDs are collected in the order of results and measurements, and as often as they occur:
      one list after another is collected as the two lists in turn, down to single measurements. */
  lemma {:induction false} RunIDsInOrder(a: seq<Measurement>, b: seq<Measurement>)
    ensures RunIDs(a + b) == RunIDs(a) + RunIDs(b)
  {
    if b == [] {
      assert a + b == a;
    } else {
      assert (a + b)[..|a + b| - 1] == a + b[..|b| - 1];
      RunIDsInOrder(a, b[..|b| - 1]);
    }
  }

  lemma {:induction false} CollectedInOrder(a: seq<MetricResult>, b: seq<MetricResult>, name: string)
    ensures MatchingRunIDs(a + b, name) == MatchingRunIDs(a, name) + MatchingRunIDs(b, name)
  {
    if b == [] {
      assert a + b == a;
    } else {
      var front, last := b[..|b| - 1], b[|b| - 1];
      assert (a + b)[..|a + b| - 1] == a + front && (a + b)[|a + b| - 1] == last;
      CollectedInOrder(a, front, name);
      var more := if last.name == name then RunIDs(last.measurements) else [];
      assert (MatchingRunIDs(a, name) + MatchingRunIDs(front, name)) + more
             == MatchingRunIDs(a, name) + (MatchingRunIDs(front, name) + more);
    }
  }

  lemma {:induction false} CollectedFromOne(r: MetricResult, m: Measurement, name: string)
    ensures MatchingRunIDs([r], name) == if r.name == name then RunIDs(r.measurements) else []
    ensures RunIDs([m]) == if Get(m.metadata, "runId") == "" then [] else [Get(m.metadata, "runId")]
  {
    assert [r][..0] == [] && [m][..0] == [];
  }

  /** Without an analysis run, or with a configuration that is not acceptable, nothing is called. */
  lemma {:induction false} NothingToCollect(ar: Option<AnalysisRun>, metric: MetricSpec)
    requires ar.None? || metric.config.None? || metric.config.value.metric == "" || !FieldsAccepted(metric.config.value)
    ensures Collected(ar, metric) == []
  {
    ParsesIff(metric);
  }

  // ---------- What is left ----------

  ghost predicate DeletedAt(runIDs: seq<string>, fails: nat -> bool, k: nat, key: Key)
  {
    k < |runIDs| && !fails(k) && DecodeRunID(runIDs[k]) == Success(key)
  }

  lemma {:induction false} LastDelete(front: seq<string>, runIDs: seq<string>, fails: nat -> bool, key: Key)
    requires runIDs != [] && front == runIDs[..|runIDs| - 1]
    ensures (forall k: nat :: !DeletedAt(runIDs, fails, k, key)) <==>
            !DeletedAt(runIDs, fails, |front|, key) && forall k: nat :: !DeletedAt(front, fails, k, key)
  {
    forall k: nat | DeletedAt(front, fails, k, key) ensures DeletedAt(runIDs, fails, k, key) {}
    forall k: nat | DeletedAt(runIDs, fails, k, key) && k != |front| ensures DeletedAt(front, fails, k, key) {}
  }

  /** A resource is gone exactly when one of the deletes that named it did not fail; every
      other one is untouched. */
  lemma {:induction false} DeletesAreExact(runIDs: seq<string>, fails: nat -> bool, store: Store, key: Key)
    ensures var after := AfterDeletes(runIDs, fails, store);
            && (key in after <==> key in store && forall k: nat :: !DeletedAt(runIDs, fails, k, key))
            && (key in after ==> after[key] == store[key])
  {
    if runIDs == [] {
      assert forall k: nat :: !DeletedAt(runIDs, fails, k, key);
    } else {
      var front := runIDs[..|runIDs| - 1];
      DeletesAreExact(front, fails, store, key);
      LastDelete(front, runIDs, fails, key);
    }
  }

  lemma {:induction false} DeletesWithoutErrors(runIDs: seq<string>, store: Store)
    ensures AfterDeletes(runIDs, (_: nat) => false, store) == store - KeysOf(runIDs)
  {
    var never := (_: nat) => false;
    var after := AfterDeletes(runIDs, never, store);
    forall key
      ensures key in after <==> key in store && key !in KeysOf(runIDs)
      ensures key in after ==> after[key] == store[key]
    {
      DeletesAreExact(runIDs, never, store, key);
      if key in KeysOf(runIDs) {
        var id :| id in runIDs && DecodeRunID(id) == Success(key);
        var k: nat :| k < |runIDs| && runIDs[k] == id;
        assert DeletedAt(runIDs, never, k, key);
      }
      forall k: nat | DeletedAt(runIDs, never, k, key) ensures key in KeysOf(runIDs) {
        assert runIDs[k] in runIDs;
      }
    }
    assert after.Keys == (store - KeysOf(runIDs)).Keys;
  }

  /** With no delete errors the store loses exactly the resources the run IDs name, and a
      second pass changes nothing. */
  lemma {:induction false} CollectionIsExactAndIdempotent(runIDs: seq<string>, store: Store)
    ensures var never := (_: nat) => false;
            && AfterDeletes(runIDs, never, store) == store - KeysOf(runIDs)
            && AfterDeletes(runIDs, never, AfterDeletes(runIDs, never, store)) == AfterDeletes(runIDs, never, store)
  {
    DeletesWithoutErrors(runIDs, store);
    DeletesWithoutErrors(runIDs, store - KeysOf(runIDs));
    assert (store - KeysOf(runIDs)) - KeysOf(runIDs) == store - KeysOf(runIDs);
  }

  // ---------- The life of a measurement ----------

  /** What may happen to a measurement after Run: any number of polls, and a termination. */
  datatype LifeEvent = Poll(polled: Result<RunResult, Error>) | Stop

  function Lived(
    parsed: Result<PluginConfig, Error>, m: Measurement, life: seq<LifeEvent>, format: real -> string): Measurement
  {
    if life == [] then m
    else
      var before := Lived(parsed, m, life[..|life| - 1], format);
      match life[|life| - 1]
      case Poll(polled) => Resumed(parsed, before, polled, format)
      case Stop => TerminatedMeasurement(parsed, before)
  }

  /** Whatever happens to a measurement, it keeps its run ID. */
  lemma {:induction false} RunIDIsCarried(
    parsed: Result<PluginConfig, Error>, m: Measurement, life: seq<LifeEvent>, format: real -> string)
    ensures Get(Lived(parsed, m, life, format).metadata, RUN_ID) == Get(m.metadata, RUN_ID)
  {
    if life == [] {
    } else {
      RunIDIsCarried(parsed, m, life[..|life| - 1], format);
      assert RUN_ID != "testRunURL" && RUN_ID != "runState" && RUN_ID != "metricValue";
    }
  }

  /** A resource created by Run is gone after garbage collection without delete errors, if the
      measurement, whatever became of it, is still among the metric's results. */
  lemma {:induction false} CollectedInTheEnd(
    cfg: PluginConfig, api: Api, atRun: Store, life: seq<LifeEvent>, format: real -> string,
    ar: AnalysisRun, metric: MetricSpec, r: MetricResult, atCollection: Store)
    requires TriggerReply(cfg, api, atRun).Success? && ParseConfig(metric).Success?
    requires r in ar.results && r.name == metric.name
    requires var started := FRESH_MEASUREMENT.(metadata := map[RUN_ID := TriggerReply(cfg, api, atRun).value]);
             Lived(ParseConfig(metric), started, life, format) in r.measurements
    ensures TriggerKey(cfg, api) !in AfterDeletes(Collected(Some(ar), metric), (_: nat) => false, atCollection)
  {
    var runID := TriggerReply(cfg, api, atRun).value;
    var started := FRESH_MEASUREMENT.(metadata := map[RUN_ID := runID]);
    TriggerReturnsHandle(cfg, api, atRun);
    RunIDIsCarried(ParseConfig(metric), started, life, format);
    MatchingRunIDsAre(ar.results, metric.name, runID);
    DeletesWithoutErrors(Collected(Some(ar), metric), atCollection);
    assert runID in Collected(Some(ar), metric);
  }

  /** The measurement after a poll, for every input: an error when the configuration, the run ID,
      the poll or the choice of value is at fault, and else the phase of the run's state; finished
      unless the run goes on. */
  lemma {:induction false} ResumedMeaning(
    metric: MetricSpec, m: Measurement, polled: Result<RunResult, Error>, format: real -> string)
    ensures var m' := Resumed(ParseConfig(metric), m, polled, format);
            var cfg := metric.config;
            if && cfg.Some? && cfg.value.metric != "" && FieldsAccepted(cfg.value)
               && Get(m.metadata, "runId") != "" && polled.Success?
               && ExtractMetricValue(polled.value, cfg.value.metric, cfg.value.aggregation).Success?
            then
              var r, v := polled.value, ExtractMetricValue(polled.value, cfg.value.metric, cfg.value.aggregation).value;
              && (m'.phase == PhaseRunning <==> r.state == Running)
              && (m'.phase == PhaseSuccessful <==> r.state == Passed)
              && (m'.phase == PhaseFailed <==> r.state == Failed)
              && (m'.phase == PhaseError <==> r.state in {Errored, Aborted})
              && m'.finished == (m.finished || r.state != Running)
              && m'.value == Get(m'.metadata, "metricValue") == format(v)
              && Get(m'.metadata, "testRunURL") == r.testRunURL
              && Get(m'.metadata, "runState") == (match r.state
                                                  case Running => "Running"
                                                  case Passed => "Passed"
                                                  case Failed => "Failed"
                                                  case Errored => "Errored"
                                                  case Aborted => "Aborted")
            else m'.phase == PhaseError && m'.finished && m'.note.ErrorNote? && m'.value == m.value
  {
    ParsesIff(metric);
  }

  /** A terminated measurement is an error, and over; it never counts as a success. */
  lemma {:induction false} TerminatedIsError(metric: MetricSpec, m: Measurement)
    ensures var m' := TerminatedMeasurement(ParseConfig(metric), m);
            && m'.phase == PhaseError && m'.finished
            && m'.value == m.value && m'.metadata == m.metadata
  {}

  /** A thresholds measurement that is not a configuration error is worth 1 exactly when it
      ends Successful, which is exactly when the run passed. */
  lemma {:induction false} ThresholdsValueIff(
    cfg: PluginConfig, m: Measurement, runID: string, api: Api, store: Store, format: real -> string)
    requires cfg.metric == "thresholds" && format(0.0) != format(1.0)
    requires Get(m.metadata, RUN_ID) == runID != "" && PollReply(runID, api, store).Success?
    ensures var m' := Resumed(Success(cfg), m, PollReply(runID, api, store), format);
            && (m'.value == format(1.0) <==> m'.phase == PhaseSuccessful)
            && (m'.phase == PhaseSuccessful <==> PollReply(runID, api, store).value.state == Passed)
  {
    PassedResultIff(runID, api, store);
  }
}
