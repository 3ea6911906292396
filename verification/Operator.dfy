/** The k6-operator backend over a store of custom resources
    (internal/provider/operator/operator.go).

    The Kubernetes API server is a store that creates only under a fresh key, answers reads,
    and deletes; each call may fail, as the Api argument says. A custom resource carries the
    stage the operator last wrote and the runner pods that belong to it. */
module Operator {
  import opened Wrappers
  import opened Provider
  import opened RunID
  import opened ExitCode
  import opened Scanner
  import opened Aggregate
  import opened PodSummaries

  /** An absent stage field reads as "". */
  datatype CustomResource = CustomResource(stage: string, pods: seq<Pod>)

  type Store = map<Key, CustomResource>

  const FRESH := CustomResource("", [])

  /** The environment's side of the calls made on behalf of one request. */
  datatype Api = Api(
    scriptReadable: bool,
    short: string,
    createFails: bool,
    getFails: bool,
    listFails: bool,
    deleteFails: bool,
    podLogs: Result<seq<PodLog>, Error>,
    parse: Unmarshal)

  datatype DeleteReply = Deleted | NotFound | DeleteError

  class DynClient {
    var objects: Store

    constructor ()
      ensures objects == map[]
    {
      objects := map[];
    }

    /** Names with slashes are among those the API server rejects. */
    method Create(key: Key, obj: CustomResource, fails: bool) returns (created: bool)
      modifies this
      ensures created <==> !fails && key !in old(objects) && WellFormed(key)
      ensures objects == if created then old(objects)[key := obj] else old(objects)
    {
      created := !fails && key !in objects && WellFormed(key);
      if created {
        objects := objects[key := obj];
      }
    }

    method Get(key: Key, fails: bool) returns (r: Result<CustomResource, Error>)
      ensures r == if fails || key !in objects then Failure(GetFailed) else Success(objects[key])
    {
      if fails || key !in objects {
        return Failure(GetFailed);
      }
      return Success(objects[key]);
    }

    method Delete(key: Key, fails: bool) returns (r: DeleteReply)
      modifies this
      ensures r == if fails then DeleteError else if key in old(objects) then Deleted else NotFound
      ensures objects == if fails then old(objects) else old(objects) - {key}
    {
      if fails {
        return DeleteError;
      }
      r := if key in objects then Deleted else NotFound;
      objects := objects - {key};
    }
  }

  // ---------- Specification ----------

  function OrDefault(s: string, default: string): string {
    if s == "" then default else s
  }

  /** The resource a trigger with this configuration is about. */
  function TriggerKey(cfg: PluginConfig, api: Api): Key
  {
    Key(OrDefault(cfg.namespace, "default"),
        if cfg.IsCloudConnected() then PRIVATE_LOAD_ZONES else TEST_RUNS,
        TestRunName(OrDefault(cfg.rolloutName, "unknown"), api.short))
  }

  function TriggerReply(cfg: PluginConfig, api: Api, store: Store): Result<string, Error>
  {
    var key := TriggerKey(cfg, api);
    if !cfg.ValidK6Operator() then Failure(ConfigInvalid)
    else if !api.scriptReadable then Failure(ScriptUnavailable)
    else if api.createFails || key in store || !WellFormed(key) then Failure(CreateFailed)
    else Success(EncodeRunID(key))
  }

  function AfterTrigger(cfg: PluginConfig, api: Api, store: Store): Store
  {
    if TriggerReply(cfg, api, store).Success? then store[TriggerKey(cfg, api) := FRESH] else store
  }

  function StateOf(cr: CustomResource, listFails: bool): RunState
  {
    if cr.stage != "finished" then StageToRunState(cr.stage)
    else if listFails || cr.pods == [] then Errored
    else PodsVerdict(cr.pods)
  }

  ghost function PollResult(cr: CustomResource, api: Api): RunResult
  {
    var state := StateOf(cr, api.listFails);
    var metrics := RunMetrics(api.podLogs, api.parse);
    var shown := if state in {Passed, Failed} && metrics.Success? then metrics.value else NO_METRICS;
    RunResult(state, "", state == Passed, shown.httpReqFailed, shown.httpReqDuration, shown.httpReqs)
  }

  ghost function PollReply(runID: string, api: Api, store: Store): Result<RunResult, Error>
  {
    match DecodeRunID(runID)
    case Failure(e) => Failure(e)
    case Success(key) =>
      if api.getFails || key !in store then Failure(GetFailed) else Success(PollResult(store[key], api))
  }

  function DeleteFailure(runID: string, fails: bool): Option<Error>
  {
    match DecodeRunID(runID)
    case Failure(e) => Some(e)
    case Success(_) => if fails then Some(DeleteFailed) else None
  }

  function AfterDelete(runID: string, fails: bool, store: Store): Store
  {
    var key := DecodeRunID(runID);
    if key.Failure? || fails then store else store - {key.value}
  }

  /** The resources the run IDs lead to. */
  function KeysOf(ids: seq<string>): set<Key>
  {
    set id | id in ids && DecodeRunID(id).Success? :: DecodeRunID(id).value
  }

  // ---------- The provider ----------

  class K6OperatorProvider {
    const dynClient: DynClient

    constructor (client: DynClient)
      ensures dynClient == client
    {
      dynClient := client;
    }

    method TriggerRun(cfg: PluginConfig, api: Api) returns (r: Result<string, Error>)
      modifies dynClient
      ensures r == TriggerReply(cfg, api, old(dynClient.objects))
      ensures dynClient.objects == AfterTrigger(cfg, api, old(dynClient.objects))
    {
      if !cfg.ValidK6Operator() {
        return Failure(ConfigInvalid);
      }
      if !api.scriptReadable {
        return Failure(ScriptUnavailable);
      }
      var ns := cfg.namespace;
      if ns == "" {
        ns := "default";
      }
      var rolloutName := cfg.rolloutName;
      if rolloutName == "" {
        rolloutName := "unknown";
      }
      var crName := TestRunName(rolloutName, api.short);
      if cfg.IsCloudConnected() {
        var plz := Key(ns, PRIVATE_LOAD_ZONES, crName);
        var plzCreated := dynClient.Create(plz, FRESH, api.createFails);
        if !plzCreated {
          return Failure(CreateFailed);
        }
        return Success(EncodeRunID(plz));
      }
      var tr := Key(ns, TEST_RUNS, crName);
      var trCreated := dynClient.Create(tr, FRESH, api.createFails);
      if !trCreated {
        return Failure(CreateFailed);
      }
      return Success(EncodeRunID(tr));
    }

    method GetRunResult(runID: string, api: Api) returns (r: Result<RunResult, Error>)
      ensures r == PollReply(runID, api, dynClient.objects)
    {
      var key := DecodeRunID(runID);
      if key.Failure? {
        return Failure(key.error);
      }
      var cr := dynClient.Get(key.value, api.getFails);
      if cr.Failure? {
        return Failure(cr.error);
      }
      var state := StageToRunState(cr.value.stage);
      if cr.value.stage == "finished" {
        var exitState, exitErr :=
          CheckRunnerExitCodes(if api.listFails then Failure(ListFailed) else Success(cr.value.pods));
        if exitErr.Some? {
          return Success(RunResult(Errored, "", false, 0.0, Percentiles(0.0, 0.0, 0.0), 0.0));
        }
        state := exitState;
      }
      var result := RunResult(state, "", state == Passed, 0.0, Percentiles(0.0, 0.0, 0.0), 0.0);
      if state == Passed || state == Failed {
        var metrics := ParseSummaryFromPods(api.podLogs, api.parse);
        if metrics.Success? {
          result := result.(httpReqFailed := metrics.value.httpReqFailed);
          result := result.(httpReqDuration := metrics.value.httpReqDuration);
          result := result.(httpReqs := metrics.value.httpReqs);
        }
      }
      return Success(result);
    }

    method DeleteCR(runID: string, api: Api) returns (err: Option<Error>)
      modifies dynClient
      ensures err == DeleteFailure(runID, api.deleteFails)
      ensures dynClient.objects == AfterDelete(runID, api.deleteFails, old(dynClient.objects))
    {
      var key := DecodeRunID(runID);
      if key.Failure? {
        return Some(key.error);
      }
      var reply := dynClient.Delete(key.value, api.deleteFails);
      match reply
      case Deleted => return None;
      case NotFound => return None;
      case DeleteError => return Some(DeleteFailed);
    }

    method StopRun(runID: string, api: Api) returns (err: Option<Error>)
      modifies dynClient
      ensures err == DeleteFailure(runID, api.deleteFails)
      ensures dynClient.objects == AfterDelete(runID, api.deleteFails, old(dynClient.objects))
    {
      err := DeleteCR(runID, api);
    }

    method Cleanup(runID: string, api: Api) returns (err: Option<Error>)
      modifies dynClient
      ensures err == DeleteFailure(runID, api.deleteFails)
      ensures dynClient.objects == AfterDelete(runID, api.deleteFails, old(dynClient.objects))
    {
      err := DeleteCR(runID, api);
    }
  }

  // ---------- What the calls mean together ----------

  /** What a configuration creates and under which name: a PrivateLoadZone when both cloud
      credentials are set and a TestRun otherwise, in the configured namespace or "default". */
  lemma {:induction false} TriggerMeaning(cfg: PluginConfig, api: Api, store: Store)
    ensures var kind := if cfg.apiToken == "" || cfg.stackID == "" then "testruns" else "privateloadzones";
            var key := Key(if cfg.namespace == "" then "default" else cfg.namespace, kind,
                           TestRunName(if cfg.rolloutName == "" then "unknown" else cfg.rolloutName, api.short));
            var reply := TriggerReply(cfg, api, store);
            && (reply.Success? <==>
                && OperatorFieldsAccepted(cfg) && api.scriptReadable && !api.createFails
                && key !in store && '/' !in key.namespace && '/' !in key.name)
            && (reply.Success? ==>
                DecodeRunID(reply.value) == Success(key)
                && AfterTrigger(cfg, api, store) == store[key := CustomResource("", [])])
            && (reply.Failure? ==>
                && AfterTrigger(cfg, api, store) == store
                && (reply.error == ConfigInvalid <==> !OperatorFieldsAccepted(cfg))
                && (reply.error == ScriptUnavailable <==> OperatorFieldsAccepted(cfg) && !api.scriptReadable)
                && reply.error in {ConfigInvalid, ScriptUnavailable, CreateFailed})
  {
    if TriggerReply(cfg, api, store).Success? {
      DecodeEncode(TriggerKey(cfg, api));
    }
  }

  /** A successful trigger creates exactly one new resource, and the run ID it returns leads
      back to that resource and no other. */
  lemma {:induction false} TriggerReturnsHandle(cfg: PluginConfig, api: Api, store: Store)
    requires TriggerReply(cfg, api, store).Success?
    ensures var runID := TriggerReply(cfg, api, store).value;
            var key := TriggerKey(cfg, api);
            && runID != "" && DecodeRunID(runID) == Success(key)
            && key !in store
            && AfterTrigger(cfg, api, store) == store[key := FRESH]
  {
    DecodeEncode(TriggerKey(cfg, api));
  }

  /** Deleting through the returned run ID undoes the trigger, and doing it again is an
      accepted no-op. */
  lemma {:induction false} DeleteUndoesTrigger(cfg: PluginConfig, api: Api, store: Store)
    requires TriggerReply(cfg, api, store).Success?
    ensures var runID := TriggerReply(cfg, api, store).value;
            var after := AfterDelete(runID, false, AfterTrigger(cfg, api, store));
            after == store && AfterDelete(runID, false, after) == after && DeleteFailure(runID, false) == None
  {
    TriggerReturnsHandle(cfg, api, store);
    var key := TriggerKey(cfg, api);
    assert store[key := FRESH] - {key} == store;
    assert store - {key} == store;
  }

  /** A delete reports an error exactly when it could not do its work, and otherwise removes the
      resource the run ID names and nothing else. */
  lemma {:induction false} DeleteMeaning(runID: string, fails: bool, store: Store)
    ensures var key := DecodeRunID(runID);
            && (DeleteFailure(runID, fails).None? <==> key.Success? && !fails)
            && (DeleteFailure(runID, fails).Some? ==> AfterDelete(runID, fails, store) == store)
            && (DeleteFailure(runID, fails).None? ==> AfterDelete(runID, fails, store) == store - {key.value})
  {}

  /** The operator backend never reports an aborted run. */
  lemma {:induction false} NeverAborted(cr: CustomResource, listFails: bool)
    ensures StateOf(cr, listFails) != Aborted
  {}

  /** Every answer to a poll: whether there is one, and which. */
  lemma {:induction false} PollMeaning(runID: string, api: Api, store: Store)
    ensures var reply, key := PollReply(runID, api, store), DecodeRunID(runID);
            && (reply.Success? <==> key.Success? && key.value in store && !api.getFails)
            && (reply.Failure? ==> reply.error == if key.Failure? then RunIDInvalid else GetFailed)
    ensures PollReply(runID, api, store).Success? ==>
              var state, cr := PollReply(runID, api, store).value.state, store[DecodeRunID(runID).value];
              var listed := cr.stage == "finished" && !api.listFails && cr.pods != [];
              && state in {Running, Passed, Failed, Errored}
              && (state == Passed <==> listed && forall p :: p in cr.pods ==> ExitedWith(p, {0}))
              && (state == Failed <==>
                  && listed && (forall p :: p in cr.pods ==> ExitedWith(p, {0, 99}))
                  && exists p, c :: p in cr.pods && c in p.containers && c.terminated == Some(99))
              && (state == Errored <==>
                  cr.stage == "error" || (cr.stage == "finished" && (!listed || BrokenFirst(cr.pods))))
  {
    if PollReply(runID, api, store).Success? {
      var cr := store[DecodeRunID(runID).value];
      PassedIff(cr.pods);
      FailedIff(cr.pods);
      ErroredIff(cr.pods);
      NeverAborted(cr, api.listFails);
    }
  }

  /** A run that passed or failed carries the metrics of its pods, each under its own name, if
      they can be had; everything else carries zeros. */
  lemma {:induction false} MetricsOfPoll(runID: string, api: Api, store: Store)
    requires PollReply(runID, api, store).Success?
    ensures var r, metrics := PollReply(runID, api, store).value, RunMetrics(api.podLogs, api.parse);
            && r.testRunURL == ""
            && if (r.state == Passed || r.state == Failed) && metrics.Success? then
                 && r.httpReqFailed == metrics.value.httpReqFailed
                 && r.httpReqs == metrics.value.httpReqs
                 && r.httpReqDuration.p50 == metrics.value.httpReqDuration.p50
                 && r.httpReqDuration.p95 == metrics.value.httpReqDuration.p95
                 && r.httpReqDuration.p99 == metrics.value.httpReqDuration.p99
               else r.httpReqFailed == 0.0 && r.httpReqs == 0.0 && r.httpReqDuration == Percentiles(0.0, 0.0, 0.0)
  {}

  /** A run passed exactly when the result says thresholds passed, which is exactly when the
      stage is "finished" and every container of a nonempty, readable pod list ended with
      code 0 and no restart. */
  lemma {:induction false} PassedResultIff(runID: string, api: Api, store: Store)
    requires PollReply(runID, api, store).Success?
    ensures var r := PollReply(runID, api, store).value;
            var cr := store[DecodeRunID(runID).value];
            && (r.thresholdsPassed <==> r.state == Passed)
            && (r.state == Passed <==>
                && cr.stage == "finished" && !api.listFails && cr.pods != []
                && forall p :: p in cr.pods ==> ExitedWith(p, {0}))
  {
    PassedIff(store[DecodeRunID(runID).value].pods);
  }

  /** Whatever the logs contain and however they parse, the verdict stays the same. */
  lemma {:induction false} LogsNeverChangeVerdict(
    runID: string, api: Api, logs: Result<seq<PodLog>, Error>, parse: Unmarshal, store: Store)
    ensures var r := PollReply(runID, api, store);
            var r' := PollReply(runID, api.(podLogs := logs, parse := parse), store);
            && r.Success? == r'.Success?
            && (r.Success? ==> r.value.state == r'.value.state && r.value.thresholdsPassed == r'.value.thresholdsPassed)
            && (r.Success? && r.value.state !in {Passed, Failed} ==> r == r')
  {}

  // ---------- How a resource may evolve ----------

  /** Stages "finished" and "error" are final; from "finished" on the pod list is fixed and
      its containers only move forward. */
  ghost predicate ResourceAdvances(cr: CustomResource, cr': CustomResource)
  {
    && (cr.stage == "error" ==> cr'.stage == "error")
    && (cr.stage == "finished" ==> cr'.stage == "finished" && PodsAdvance(cr.pods, cr'.pods))
  }

  /** As long as pod lists can be read, polls of an advancing resource only move up. */
  lemma {:induction false} ResourceVerdictOnlyMovesUp(cr: CustomResource, cr': CustomResource)
    requires ResourceAdvances(cr, cr')
    ensures MayBecome(StateOf(cr, false), StateOf(cr', false))
  {
    if cr.stage == "finished" {
      VerdictOnlyMovesUp(cr.pods, cr'.pods);
    }
  }

  /** That reading is needed: a failed listing is reported as Errored, and the next poll of
      the unchanged resource takes it back. */
  lemma {:induction false} FailedListingIsNotFinal()
    ensures exists cr :: StateOf(cr, true) == Errored && StateOf(cr, false) == Passed
                         && !MayBecome(StateOf(cr, true), StateOf(cr, false))
  {
    var p := Showing(Passed, false);
    var cr := CustomResource("finished", [p]);
    VerdictOfOne(Passed);
    assert PodVerdicts(cr.pods) == [Passed];
    assert StateOf(cr, false) == Passed;
  }

  /** Exactly: as a resource advances, a later readable poll takes an earlier one back if and
      only if that one failed to list the pods of a finished run, and the pods listed later
      hold no broken container before all that still runs. */
  lemma {:induction false} TakenBackIff(cr: CustomResource, listFails: bool, cr': CustomResource)
    requires ResourceAdvances(cr, cr')
    ensures !MayBecome(StateOf(cr, listFails), StateOf(cr', false))
            <==> listFails && cr.stage == "finished" && cr'.pods != [] && !BrokenFirst(cr'.pods)
  {
    ResourceVerdictOnlyMovesUp(cr, cr');
    ErroredIff(cr'.pods);
  }
}
