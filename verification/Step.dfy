/** The step plugin: fire and wait, with everything it knows kept in a status blob that the
    controller stores between calls (internal/step/step.go).

    RunStep says what one Run returns and which provider calls it makes, for any answers a
    provider may give. K6StepPlugin is the source's imperative form on the k6-operator
    backend and is proved to do the same, call by call, to the resource store. */
module Step {
  import opened Wrappers
  import opened Provider
  import opened RunID
  import opened Operator

  const SECOND := 1_000_000_000
  const DEFAULT_TIMEOUT := 5 * 60 * SECOND
  const MAX_TIMEOUT := 2 * 60 * 60 * SECOND
  const REQUEUE_AFTER := 15 * SECOND

  /** A time in the persisted state: text in whole seconds (section 5.6 of RFC 3339). */
  datatype Timestamp = Seconds(s: int) | Garbled

  datatype FinalStatus = NoFinal | Reported(state: RunState) | TimedOut

  datatype StepState = StepState(
    runID: string,
    triggeredAt: Timestamp,
    testRunURL: string,
    finalStatus: FinalStatus,
    cleanupDone: bool)

  const FRESH_STATE := StepState("", Garbled, "", NoFinal, false)

  /** The status blob as it arrives: absent, decodable or not. */
  datatype Status = NoStatus | Stored(state: StepState) | Undecodable

  datatype Phase = NoPhase | PhaseRunning | PhaseSuccessful | PhaseFailed

  datatype Message = NoMessage | Text(text: string) | TimedOutAfter(ns: int) | Because(error: Error)

  datatype StepResult = StepResult(phase: Phase, message: Message, requeueAfter: int, status: Status)

  const NO_RESULT := StepResult(NoPhase, NoMessage, 0, NoStatus)

  datatype Rollout = Rollout(name: string, namespace: string, uid: string)

  /** A decoded configuration, or None when it is missing or does not decode. */
  datatype StepContext = StepContext(config: Option<PluginConfig>, status: Status)

  // ---------- Configuration ----------

  function ParseConfig(ctx: StepContext): Result<PluginConfig, Error>
  {
    match ctx.config
    case None => Failure(ConfigInvalid)
    case Some(cfg) =>
      if cfg.IsGrafanaCloud() && !cfg.ValidGrafanaCloud() then Failure(ConfigInvalid)
      else if cfg.provider == "k6-operator" && !cfg.ValidK6Operator() then Failure(ConfigInvalid)
      else Success(cfg)
  }

  function PopulateFromRollout(cfg: PluginConfig, rollout: Option<Rollout>): PluginConfig
  {
    match rollout
    case None => cfg
    case Some(r) =>
      var named := if r.uid != "" && r.name == "" then cfg else cfg.(rolloutName := r.name, rolloutUID := r.uid);
      if named.namespace == "" then named.(namespace := r.namespace) else named
  }

  function ParseTimeout(t: TimeoutSetting): Result<int, Error>
  {
    match t
    case Unset => Success(DEFAULT_TIMEOUT)
    case Unparseable => Failure(TimeoutInvalid)
    case Duration(d) =>
      if d <= 0 then Failure(TimeoutInvalid)
      else if d > MAX_TIMEOUT then Failure(TimeoutInvalid)
      else Success(d)
  }

  // ---------- One Run, for any provider ----------

  datatype Call =
    | TriggerRun(created: Result<string, Error>)
    | GetRunResult(runID: string, polled: Result<RunResult, Error>)
    | StopRun(runID: string)
    | Cleanup(runID: string)

  /** What the provider and the clock answer during one Run, times in nanoseconds. */
  datatype Answers = Answers(
    trigger: Result<string, Error>,
    poll: Result<RunResult, Error>,
    stampedAt: int,
    checkedAt: int)

  datatype Outcome = Outcome(result: StepResult, err: Option<Error>, calls: seq<Call>)

  function PhaseOf(state: RunState): Phase
  {
    match state
    case Running => PhaseRunning
    case Passed => PhaseSuccessful
    case _ => PhaseFailed
  }

  function MessageOf(state: RunState): Message
  {
    match state
    case Errored => Text("k6 run errored")
    case Aborted => Text("k6 run aborted")
    case _ => NoMessage
  }

  predicate WantsCleanup(state: RunState, st: StepState) {
    state in {Passed, Failed, Errored} && !st.cleanupDone && st.runID != ""
  }

  /** A poll that answered: the state is updated and, once, the run is cleaned up. */
  function Settled(st: StepState, r: RunResult): Outcome
  {
    var cleanup := WantsCleanup(r.state, st);
    var st' := st.(
      testRunURL := r.testRunURL,
      finalStatus := if r.state == Running then st.finalStatus else Reported(r.state),
      cleanupDone := st.cleanupDone || cleanup);
    Outcome(
      StepResult(PhaseOf(r.state), MessageOf(r.state), if r.state == Running then REQUEUE_AFTER else 0, Stored(st')),
      None,
      [GetRunResult(st.runID, Success(r))] + if cleanup then [Cleanup(st.runID)] else [])
  }

  predicate Late(timeout: int, st: StepState, checkedAt: int) {
    st.triggeredAt.Seconds? && checkedAt - st.triggeredAt.s * SECOND > timeout
  }

  /** A run that has a handle is stopped when it is late and polled otherwise. */
  function Watched(timeout: int, st: StepState, poll: Result<RunResult, Error>, checkedAt: int): Outcome
  {
    if st.triggeredAt.Garbled? then Outcome(NO_RESULT, Some(TriggeredAtUnparseable), [])
    else if Late(timeout, st, checkedAt) then
      Outcome(
        StepResult(PhaseFailed, TimedOutAfter(timeout), 0, Stored(st.(finalStatus := TimedOut))),
        None,
        [StopRun(st.runID)])
    else
      match poll
      case Failure(e) => Outcome(NO_RESULT, Some(e), [GetRunResult(st.runID, poll)])
      case Success(r) => Settled(st, r)
  }

  function WithCall(call: Call, o: Outcome): Outcome {
    o.(calls := [call] + o.calls)
  }

  function StateIn(status: Status): StepState {
    if status.Stored? then status.state else FRESH_STATE
  }

  function Adopt(st: StepState, runID: string, stampedAt: int): StepState {
    st.(runID := runID, triggeredAt := Seconds(stampedAt / SECOND))
  }

  function RunStep(cfg: PluginConfig, timeout: int, status: Status, a: Answers): Outcome
  {
    var st := StateIn(status);
    if status.Undecodable? then Outcome(NO_RESULT, Some(StatusUndecodable), [])
    else if st.runID != "" then Watched(timeout, st, a.poll, a.checkedAt)
    else if cfg.testRunID != "" then Watched(timeout, Adopt(st, cfg.testRunID, a.stampedAt), a.poll, a.checkedAt)
    else
      match a.trigger
      case Failure(e) => Outcome(NO_RESULT, Some(e), [TriggerRun(a.trigger)])
      case Success(runID) =>
        WithCall(TriggerRun(a.trigger), Watched(timeout, Adopt(st, runID, a.stampedAt), a.poll, a.checkedAt))
  }

  function ConfigFailure(e: Error): Outcome {
    Outcome(StepResult(PhaseFailed, Because(e), 0, NoStatus), None, [])
  }

  /** Terminate and Abort stop the run the state names, if any. */
  function StopStep(ctx: StepContext): seq<Call>
  {
    if ParseConfig(ctx).Failure? || ctx.status.Undecodable? || StateIn(ctx.status).runID == "" then []
    else [StopRun(StateIn(ctx.status).runID)]
  }

  // ---------- On the k6-operator backend ----------

  datatype World = World(api: Api, stampedAt: int, checkedAt: int)

  function AfterCall(call: Call, deleteFails: bool, store: Store): Store
  {
    match call
    case TriggerRun(Success(runID)) =>
      var key := DecodeRunID(runID);
      if key.Success? then store[key.value := FRESH] else store
    case TriggerRun(Failure(_)) => store
    case GetRunResult(_, _) => store
    case StopRun(runID) => AfterDelete(runID, deleteFails, store)
    case Cleanup(runID) => AfterDelete(runID, deleteFails, store)
  }

  function AfterCalls(calls: seq<Call>, deleteFails: bool, store: Store): Store
  {
    if calls == [] then store
    else AfterCalls(calls[1..], deleteFails, AfterCall(calls[0], deleteFails, store))
  }

  /** The answers the k6-operator backend gives during one Run that starts with this store. */
  ghost function OperatorAnswers(cfg: PluginConfig, status: Status, w: World, store: Store): Answers
  {
    var st := StateIn(status);
    var trigger := TriggerReply(cfg, w.api, store);
    var poll :=
      if st.runID != "" then PollReply(st.runID, w.api, store)
      else if cfg.testRunID != "" then PollReply(cfg.testRunID, w.api, store)
      else if trigger.Success? then PollReply(trigger.value, w.api, AfterTrigger(cfg, w.api, store))
      else Failure(GetFailed);
    Answers(trigger, poll, w.stampedAt, w.checkedAt)
  }

  ghost function OperatorRun(ctx: StepContext, rollout: Option<Rollout>, w: World, store: Store): Outcome
  {
    match ParseConfig(ctx)
    case Failure(e) => ConfigFailure(e)
    case Success(parsed) =>
      var cfg := PopulateFromRollout(parsed, rollout);
      match ParseTimeout(cfg.timeout)
      case Failure(e) => ConfigFailure(e)
      case Success(timeout) => RunStep(cfg, timeout, ctx.status, OperatorAnswers(cfg, ctx.status, w, store))
  }

  lemma {:induction false} AfterOneCall(call: Call, deleteFails: bool, store: Store)
    ensures AfterCalls([call], deleteFails, store) == AfterCall(call, deleteFails, store)
  {
    assert [call][1..] == [];
  }

  lemma {:induction false} AfterTwoCalls(call: Call, call': Call, deleteFails: bool, store: Store)
    ensures AfterCalls([call] + [call'], deleteFails, store)
            == AfterCall(call', deleteFails, AfterCall(call, deleteFails, store))
  {
    assert ([call] + [call'])[1..] == [call'];
    AfterOneCall(call', deleteFails, AfterCall(call, deleteFails, store));
  }

  /** The call log alone tells what a trigger did to the store. */
  lemma {:induction false} TriggerIsLogged(cfg: PluginConfig, api: Api, store: Store)
    ensures AfterCall(TriggerRun(TriggerReply(cfg, api, store)), api.deleteFails, store)
            == AfterTrigger(cfg, api, store)
  {
    if TriggerReply(cfg, api, store).Success? {
      TriggerReturnsHandle(cfg, api, store);
    }
  }

  class K6StepPlugin {
    const provider: K6OperatorProvider

    constructor (p: K6OperatorProvider)
      ensures provider == p
    {
      provider := p;
    }

    /** The rest of Run, once the state names a run: the timeout, the poll, the cleanup. */
    method Watch(timeout: int, start: StepState, w: World)
      returns (result: StepResult, err: Option<Error>, ghost calls: seq<Call>)
      modifies provider.dynClient
      ensures Outcome(result, err, calls) ==
              Watched(timeout, start, PollReply(start.runID, w.api, old(provider.dynClient.objects)), w.checkedAt)
      ensures provider.dynClient.objects == AfterCalls(calls, w.api.deleteFails, old(provider.dynClient.objects))
    {
      ghost var store := provider.dynClient.objects;
      var state := start;
      if state.triggeredAt.Garbled? {
        return NO_RESULT, Some(TriggeredAtUnparseable), [];
      }
      var elapsed := w.checkedAt - state.triggeredAt.s * SECOND;
      if elapsed > timeout {
        var _ := provider.StopRun(state.runID, w.api);
        AfterOneCall(StopRun(state.runID), w.api.deleteFails, store);
        state := state.(finalStatus := TimedOut);
        return StepResult(PhaseFailed, TimedOutAfter(timeout), 0, Stored(state)), None, [StopRun(state.runID)];
      }

      var polled := provider.GetRunResult(state.runID, w.api);
      calls := [GetRunResult(state.runID, polled)];
      AfterOneCall(calls[0], w.api.deleteFails, store);
      if polled.Failure? {
        return NO_RESULT, Some(polled.error), calls;
      }
      var r := polled.value;
      state := state.(testRunURL := r.testRunURL);

      var phase, message, requeue := NoPhase, NoMessage, 0;
      match r.state {
        case Running =>
          phase := PhaseRunning;
          requeue := REQUEUE_AFTER;
        case Passed =>
          phase := PhaseSuccessful;
          state := state.(finalStatus := Reported(Passed));
        case Failed =>
          phase := PhaseFailed;
          state := state.(finalStatus := Reported(Failed));
        case Errored =>
          phase := PhaseFailed;
          state := state.(finalStatus := Reported(Errored));
          message := Text("k6 run errored");
        case Aborted =>
          phase := PhaseFailed;
          state := state.(finalStatus := Reported(Aborted));
          message := Text("k6 run aborted");
      }

      var isSuccessPathTerminal := r.state == Passed || r.state == Failed || r.state == Errored;
      if isSuccessPathTerminal && !state.cleanupDone && state.runID != "" {
        var _ := provider.Cleanup(state.runID, w.api);
        AfterTwoCalls(calls[0], Cleanup(state.runID), w.api.deleteFails, store);
        calls := calls + [Cleanup(state.runID)];
        state := state.(cleanupDone := true);
      }
      return StepResult(phase, message, requeue, Stored(state)), None, calls;
    }

    method Run(rollout: Option<Rollout>, ctx: StepContext, w: World)
      returns (result: StepResult, err: Option<Error>, ghost calls: seq<Call>)
      modifies provider.dynClient
      ensures Outcome(result, err, calls) == OperatorRun(ctx, rollout, w, old(provider.dynClient.objects))
      ensures provider.dynClient.objects == AfterCalls(calls, w.api.deleteFails, old(provider.dynClient.objects))
    {
      var parsed := ParseConfig(ctx);
      if parsed.Failure? {
        return StepResult(PhaseFailed, Because(parsed.error), 0, NoStatus), None, [];
      }
      var cfg := PopulateFromRollout(parsed.value, rollout);
      var timeout := ParseTimeout(cfg.timeout);
      if timeout.Failure? {
        return StepResult(PhaseFailed, Because(timeout.error), 0, NoStatus), None, [];
      }

      var state := FRESH_STATE;
      if !ctx.status.NoStatus? {
        if ctx.status.Undecodable? {
          return NO_RESULT, Some(StatusUndecodable), [];
        }
        state := ctx.status.state;
      }

      if state.runID == "" {
        if cfg.testRunID != "" {
          state := state.(runID := cfg.testRunID);
        } else {
          ghost var store := provider.dynClient.objects;
          var runID := provider.TriggerRun(cfg, w.api);
          TriggerIsLogged(cfg, w.api, store);
          if runID.Failure? {
            AfterOneCall(TriggerRun(runID), w.api.deleteFails, store);
            return NO_RESULT, Some(runID.error), [TriggerRun(runID)];
          }
          state := state.(runID := runID.value);
          state := state.(triggeredAt := Seconds(w.stampedAt / SECOND));
          result, err, calls := Watch(timeout.value, state, w);
          calls := [TriggerRun(runID)] + calls;
          return;
        }
        state := state.(triggeredAt := Seconds(w.stampedAt / SECOND));
      }
      result, err, calls := Watch(timeout.value, state, w);
    }

    method StopActiveRun(rollout: Option<Rollout>, ctx: StepContext, w: World) returns (ghost calls: seq<Call>)
      modifies provider.dynClient
      ensures calls == StopStep(ctx)
      ensures provider.dynClient.objects == AfterCalls(calls, w.api.deleteFails, old(provider.dynClient.objects))
    {
      calls := [];
      var parsed := ParseConfig(ctx);
      if parsed.Failure? {
        return;
      }
      var cfg := PopulateFromRollout(parsed.value, rollout);
      var state := FRESH_STATE;
      if !ctx.status.NoStatus? {
        if ctx.status.Undecodable? {
          return;
        }
        state := ctx.status.state;
      }
      if state.runID == "" {
        return;
      }
      AfterOneCall(StopRun(state.runID), w.api.deleteFails, provider.dynClient.objects);
      calls := [StopRun(state.runID)];
      var _ := provider.StopRun(state.runID, w.api);
    }

    method Terminate(rollout: Option<Rollout>, ctx: StepContext, w: World)
      returns (result: StepResult, err: Option<Error>, ghost calls: seq<Call>)
      modifies provider.dynClient
      ensures result == NO_RESULT && err == None && calls == StopStep(ctx)
      ensures provider.dynClient.objects == AfterCalls(calls, w.api.deleteFails, old(provider.dynClient.objects))
    {
      calls := StopActiveRun(rollout, ctx, w);
      return NO_RESULT, None, calls;
    }

    method Abort(rollout: Option<Rollout>, ctx: StepContext, w: World)
      returns (result: StepResult, err: Option<Error>, ghost calls: seq<Call>)
      modifies provider.dynClient
      ensures result == NO_RESULT && err == None && calls == StopStep(ctx)
      ensures provider.dynClient.objects == AfterCalls(calls, w.api.deleteFails, old(provider.dynClient.objects))
    {
      calls := StopActiveRun(rollout, ctx, w);
      return NO_RESULT, None, calls;
    }
  }

  // ---------- What one Run means ----------

  /** A configured namespace wins over the rollout's, and a rollout never contributes a UID
      without a name, which would make an owner reference the API server refuses. */
  lemma {:induction false} PopulatedOwnerIsNamed(cfg: PluginConfig, rollout: Option<Rollout>)
    requires cfg.rolloutUID != "" ==> cfg.rolloutName != ""
    ensures var r := PopulateFromRollout(cfg, rollout);
            && (r.rolloutUID != "" ==> r.rolloutName != "")
            && r.namespace == (if cfg.namespace == "" && rollout.Some? then rollout.value.namespace else cfg.namespace)
            && r == cfg.(namespace := r.namespace, rolloutName := r.rolloutName, rolloutUID := r.rolloutUID)
            && (rollout.Some? && rollout.value.name != "" ==>
                r.rolloutName == rollout.value.name && r.rolloutUID == rollout.value.uid)
  {}

  lemma {:induction false} ParseTimeoutBounds(t: TimeoutSetting)
    ensures ParseTimeout(t).Success? ==> 0 < ParseTimeout(t).value <= MAX_TIMEOUT
    ensures ParseTimeout(t).Failure? <==> t.Unparseable? || (t.Duration? && !(0 < t.ns <= MAX_TIMEOUT))
  {}

  lemma {:induction false} AnswersIgnoreDeletes(cfg: PluginConfig, status: Status, w: World, fails: bool, store: Store)
    ensures OperatorAnswers(cfg, status, w, store)
            == OperatorAnswers(cfg, status, w.(api := w.api.(deleteFails := fails)), store)
  {
    var api := w.api.(deleteFails := fails);
    assert TriggerReply(cfg, w.api, store) == TriggerReply(cfg, api, store);
    forall runID, s ensures PollReply(runID, w.api, s) == PollReply(runID, api, s) {}
  }

  /** What became of the deletes is invisible in what Run returns and in the calls it makes. */
  lemma {:induction false} CleanupErrorsAreInvisible(
    ctx: StepContext, rollout: Option<Rollout>, w: World, fails: bool, store: Store)
    ensures OperatorRun(ctx, rollout, w, store)
            == OperatorRun(ctx, rollout, w.(api := w.api.(deleteFails := fails)), store)
  {
    if ParseConfig(ctx).Success? {
      AnswersIgnoreDeletes(PopulateFromRollout(ParseConfig(ctx).value, rollout), ctx.status, w, fails, store);
    }
  }
}
