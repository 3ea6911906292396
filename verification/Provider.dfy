/** The vocabulary shared by the plugins and the backends. */
module Provider {
  import opened Wrappers

  datatype RunState = Running | Passed | Failed | Errored | Aborted

  datatype Percentiles = Percentiles(p50: real, p95: real, p99: real)

  datatype RunResult = RunResult(
    state: RunState,
    testRunURL: string,
    thresholdsPassed: bool,
    httpReqFailed: real,
    httpReqDuration: Percentiles,
    httpReqs: real)

  datatype Error =
    | ConfigInvalid | ScriptUnavailable | CreateFailed | RunIDInvalid
    | GetFailed | DeleteFailed | ListFailed | NoRunnerPods
    | TimeoutInvalid | StatusUndecodable | TriggeredAtUnparseable

  datatype ConfigMapRef = ConfigMapRef(name: string, key: string)

  /** A configured timeout as text decoding leaves it, in nanoseconds when it parses. */
  datatype TimeoutSetting = Unset | Unparseable | Duration(ns: int)

  datatype PluginConfig = PluginConfig(
    testRunID: string,
    testID: string,
    apiToken: string,
    stackID: string,
    timeout: TimeoutSetting,
    metric: string,
    aggregation: string,
    provider: string,
    configMapRef: Option<ConfigMapRef>,
    namespace: string,
    parallelism: int,
    rolloutName: string,
    rolloutUID: string,
    analysisRunName: string,
    analysisRunUID: string)
  {
    predicate IsGrafanaCloud() {
      provider == "" || provider == "grafana-cloud"
    }

    predicate ValidGrafanaCloud() {
      (testID != "" || testRunID != "") && apiToken != "" && stackID != ""
    }

    predicate ValidK6Operator() {
      && configMapRef.Some? && configMapRef.value.name != "" && configMapRef.value.key != ""
      && parallelism >= 0
    }

    predicate IsCloudConnected() {
      apiToken != "" && stackID != ""
    }
  }

  predicate OperatorFieldsAccepted(c: PluginConfig) {
    c.configMapRef.Some? && c.configMapRef.value.name != "" && c.configMapRef.value.key != "" && c.parallelism >= 0
  }

  /** What the plugins ask of a configuration, field by field, by backend; one for a backend they
      do not know is passed on. */
  predicate FieldsAccepted(c: PluginConfig)
  {
    if c.provider == "" || c.provider == "grafana-cloud" then
      (c.testID != "" || c.testRunID != "") && c.apiToken != "" && c.stackID != ""
    else c.provider == "k6-operator" ==> OperatorFieldsAccepted(c)
  }

  /** What a later poll of the same run may answer: a running run may end in any way, a
      passed or failed one may still turn out to be broken, the rest is final. */
  predicate MayBecome(v: RunState, w: RunState) {
    v == w || v == Running || (v in {Passed, Failed} && w == Errored)
  }

  lemma {:induction false} MayBecomeTransitive(u: RunState, v: RunState, w: RunState)
    requires MayBecome(u, v) && MayBecome(v, w)
    ensures MayBecome(u, w)
  {}
}
