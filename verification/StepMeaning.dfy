/** What one Run of the step plugin answers on the k6-operator backend, for every input and told
    from the outside: by the fields of the configuration, the stored status, the clock, and what
    the cluster holds. */
module StepMeaning {
  import opened Wrappers
  import opened Provider
  import opened RunID
  import opened ExitCode
  import opened Operator
  import opened Step

  // ---------- The configuration ----------

  /** The timeout a setting stands for, in nanoseconds: five minutes when there is none, at most
      two hours. */
  function Allowed(t: TimeoutSetting): Option<int>
  {
    match t
    case Unset => Some(300_000_000_000)
    case Unparseable => None
    case Duration(ns) => if 0 < ns <= 7_200_000_000_000 then Some(ns) else None
  }

  /** The call has a configuration whose fields and timeout are acceptable. */
  predicate Configured(ctx: StepContext) {
    ctx.config.Some? && FieldsAccepted(ctx.config.value) && Allowed(ctx.config.value.timeout).Some?
  }

  /** Parsing accepts the configurations it should, as they are. */
  lemma {:induction false} ParsesIff(ctx: StepContext)
    ensures ParseConfig(ctx).Success? <==> ctx.config.Some? && FieldsAccepted(ctx.config.value)
    ensures ParseConfig(ctx).Success? ==> ParseConfig(ctx).value == ctx.config.value
  {}

  /** An accepted timeout is the configured one, or the default when there is none. */
  lemma {:induction false} TimeoutIs(t: TimeoutSetting)
    ensures ParseTimeout(t) == match Allowed(t) case Some(ns) => Success(ns) case None => Failure(TimeoutInvalid)
  {}

  /** From a rollout come its name and UID, unless it has a UID without a name, and its namespace
      where none is configured; nothing else changes. */
  lemma {:induction false} PopulatedIs(cfg: PluginConfig, rollout: Option<Rollout>)
    ensures var r := PopulateFromRollout(cfg, rollout);
            && r == cfg.(namespace := r.namespace, rolloutName := r.rolloutName, rolloutUID := r.rolloutUID)
            && (cfg.namespace != "" || rollout.None? ==> r.namespace == cfg.namespace)
            && (cfg.namespace == "" && rollout.Some? ==> r.namespace == rollout.value.namespace)
            && (rollout.Some? && (rollout.value.name != "" || rollout.value.uid == "") ==>
                r.rolloutName == rollout.value.name && r.rolloutUID == rollout.value.uid)
            && (rollout.None? || (rollout.value.name == "" && rollout.value.uid != "") ==>
                r.rolloutName == cfg.rolloutName && r.rolloutUID == cfg.rolloutUID)
  {}

  /** A step whose configuration is missing or not acceptable fails at once: it reports failure
      and not an error, makes no call, stores nothing and does not ask to be called again. */
  lemma {:induction false} RefusedConfigurationFails(
    ctx: StepContext, rollout: Option<Rollout>, w: World, store: Store)
    requires !Configured(ctx)
    ensures var o := OperatorRun(ctx, rollout, w, store);
            && o.err == None && o.calls == [] && o.result.phase == PhaseFailed && o.result.message.Because?
            && o.result.status == NoStatus && o.result.requeueAfter == 0
  {
    ParsesIff(ctx);
    if ParseConfig(ctx).Success? {
      PopulatedIs(ctx.config.value, rollout);
      TimeoutIs(ctx.config.value.timeout);
    }
  }

  // ---------- The run that is asked about ----------

  predicate HasRun(status: Status) {
    status.Stored? && status.state.runID != ""
  }

  /** The stored run, else the configured one; "" when a run is to be triggered. */
  function KnownRun(ctx: StepContext): string
    requires ctx.config.Some?
  {
    if HasRun(ctx.status) then ctx.status.state.runID else ctx.config.value.testRunID
  }

  /** Since when it counts: as stored, else from now on, in whole seconds. */
  function Since(ctx: StepContext, w: World): Timestamp {
    if HasRun(ctx.status) then ctx.status.state.triggeredAt else Seconds(w.stampedAt / 1_000_000_000)
  }

  predicate TimedOutAt(since: Timestamp, now: int, limit: int) {
    since.Seconds? && now - since.s * 1_000_000_000 > limit
  }

  // ---------- What is read ----------

  /** A finished run whose pods can be listed. */
  ghost predicate Listed(cr: CustomResource, api: Api) {
    cr.stage == "finished" && !api.listFails && cr.pods != []
  }

  ghost predicate ShowsPassed(cr: CustomResource, api: Api) {
    Listed(cr, api) && forall p :: p in cr.pods ==> ExitedWith(p, {0})
  }

  ghost predicate ShowsFailed(cr: CustomResource, api: Api) {
    && Listed(cr, api) && (forall p :: p in cr.pods ==> ExitedWith(p, {0, 99}))
    && exists p, c :: p in cr.pods && c in p.containers && c.terminated == Some(99)
  }

  ghost predicate ShowsErrored(cr: CustomResource, api: Api) {
    cr.stage == "error" || (cr.stage == "finished" && (!Listed(cr, api) || BrokenFirst(cr.pods)))
  }

  /** The resource of a known run, if it can be read. */
  ghost function Readable(runID: string, api: Api, store: Store): Option<CustomResource>
  {
    var key := DecodeRunID(runID);
    if key.Success? && key.value in store && !api.getFails then Some(store[key.value]) else None
  }

  // ---------- Any provider ----------

  /** After the one poll the resource is deleted, or not. */
  ghost predicate CleansUp(o: Outcome, cleanup: bool, runID: string)
  {
    && |o.calls| == (if cleanup then 2 else 1)
    && o.calls[0].GetRunResult? && o.calls[0].runID == runID
    && (cleanup ==> o.calls[1] == Cleanup(runID))
  }

  /** What an answered poll means, for each state any provider may report. */
  lemma {:induction false} SettledSays(st: StepState, r: RunResult)
    requires st.runID != ""
    ensures var o := Settled(st, r);
            var result, state := o.result, o.result.status.state;
            && o.err == None && o.result.status.Stored?
            && state.runID == st.runID && state.triggeredAt == st.triggeredAt && state.testRunURL == r.testRunURL
            && match r.state
               case Running =>
                 && result.phase == PhaseRunning && result.message == NoMessage && result.requeueAfter == 15_000_000_000
                 && state.finalStatus == st.finalStatus && state.cleanupDone == st.cleanupDone && |o.calls| == 1
               case Passed =>
                 && result.phase == PhaseSuccessful && result.message == NoMessage && result.requeueAfter == 0
                 && state.finalStatus == Reported(Passed) && state.cleanupDone && CleansUp(o, !st.cleanupDone, st.runID)
               case Failed =>
                 && result.phase == PhaseFailed && result.message == NoMessage && result.requeueAfter == 0
                 && state.finalStatus == Reported(Failed) && state.cleanupDone && CleansUp(o, !st.cleanupDone, st.runID)
               case Errored =>
                 && result.phase == PhaseFailed && result.message == Text("k6 run errored") && result.requeueAfter == 0
                 && state.finalStatus == Reported(Errored) && state.cleanupDone
                 && CleansUp(o, !st.cleanupDone, st.runID)
               case Aborted =>
                 && result.phase == PhaseFailed && result.message == Text("k6 run aborted") && result.requeueAfter == 0
                 && state.finalStatus == Reported(Aborted) && state.cleanupDone == st.cleanupDone && |o.calls| == 1
  {}

  // ---------- What Run answers ----------

  const EMPTY_RESULT := StepResult(NoPhase, NoMessage, 0, NoStatus)

  /** What a Run reports and stores that has read this resource. */
  ghost predicate Reports(o: Outcome, cr: CustomResource, api: Api, runID: string, since: Timestamp, before: StepState)
  {
    && o.err == None && o.result.status.Stored?
    && o.result.status.state.runID == runID && o.result.status.state.triggeredAt == since
    && (ShowsPassed(cr, api) ==>
        o.result == StepResult(PhaseSuccessful, NoMessage, 0, o.result.status)
        && o.result.status.state.finalStatus == Reported(Passed))
    && (ShowsFailed(cr, api) ==>
        o.result == StepResult(PhaseFailed, NoMessage, 0, o.result.status)
        && o.result.status.state.finalStatus == Reported(Failed))
    && (ShowsErrored(cr, api) ==>
        o.result == StepResult(PhaseFailed, Text("k6 run errored"), 0, o.result.status)
        && o.result.status.state.finalStatus == Reported(Errored))
    && (!ShowsPassed(cr, api) && !ShowsFailed(cr, api) && !ShowsErrored(cr, api) ==>
        o.result == StepResult(PhaseRunning, NoMessage, 15_000_000_000, o.result.status)
        && o.result.status.state.finalStatus == before.finalStatus)
    && CleansUp(o, !before.cleanupDone && o.result.phase != PhaseRunning, runID)
    && (o.result.status.state.cleanupDone <==> before.cleanupDone || o.result.phase != PhaseRunning)
  }

  ghost predicate ReportsTimeout(o: Outcome, limit: int, runID: string)
  {
    && o.err == None && o.result == StepResult(PhaseFailed, TimedOutAfter(limit), 0, o.result.status)
    && o.result.status.Stored? && o.result.status.state.runID == runID
    && o.result.status.state.finalStatus == TimedOut
    && o.calls != [] && o.calls[|o.calls| - 1] == StopRun(runID)
  }

  /** Settling a poll of this resource reports it. */
  lemma {:induction false} SettledReports(st: StepState, cr: CustomResource, api: Api)
    requires st.runID != ""
    ensures Reports(Settled(st, PollResult(cr, api)), cr, api, st.runID, st.triggeredAt, st)
  {
    PassedIff(cr.pods);
    FailedIff(cr.pods);
    ErroredIff(cr.pods);
    NeverAborted(cr, api.listFails);
  }

  /** With an acceptable configuration, Run is one step on the backend's answers. */
  lemma {:induction false} ConfiguredRun(ctx: StepContext, rollout: Option<Rollout>, w: World, store: Store)
    requires Configured(ctx)
    ensures var cfg := PopulateFromRollout(ctx.config.value, rollout);
            && cfg.testRunID == ctx.config.value.testRunID
            && OperatorRun(ctx, rollout, w, store)
               == RunStep(cfg, Allowed(cfg.timeout).value, ctx.status, OperatorAnswers(cfg, ctx.status, w, store))
            && cfg.timeout == ctx.config.value.timeout
  {
    ParsesIff(ctx);
    PopulatedIs(ctx.config.value, rollout);
    TimeoutIs(ctx.config.value.timeout);
  }

  /** A status that cannot be read is an error. */
  lemma {:induction false} UndecodableIsError(ctx: StepContext, rollout: Option<Rollout>, w: World, store: Store)
    requires Configured(ctx) && ctx.status.Undecodable?
    ensures OperatorRun(ctx, rollout, w, store) == Outcome(EMPTY_RESULT, Some(StatusUndecodable), [])
  {
    ConfiguredRun(ctx, rollout, w, store);
  }

  /** What is answered about a run: a start that cannot be read is an error, then time decides,
      then whether the resource can be read, then what it shows. */
  ghost predicate Answers(
    o: Outcome, runID: string, since: Timestamp, w: World, limit: int, store: Store, before: StepState)
  {
    var cr := Readable(runID, w.api, store);
    if since.Garbled? then o == Outcome(EMPTY_RESULT, Some(TriggeredAtUnparseable), [])
    else if TimedOutAt(since, w.checkedAt, limit) then ReportsTimeout(o, limit, runID)
    else if cr.None? then
      o.result == EMPTY_RESULT && o.err.Some? && o.calls == [GetRunResult(runID, Failure(o.err.value))]
    else Reports(o, cr.value, w.api, runID, since, before)
  }

  lemma {:induction false} WatchedAnswers(limit: int, st: StepState, w: World, store: Store, before: StepState)
    requires before.finalStatus == st.finalStatus && before.cleanupDone == st.cleanupDone && st.runID != ""
    ensures Answers(Watched(limit, st, PollReply(st.runID, w.api, store), w.checkedAt), st.runID, st.triggeredAt, w,
                    limit, store, before)
  {
    var cr := Readable(st.runID, w.api, store);
    if cr.Some? {
      SettledReports(st, cr.value, w.api);
    }
  }

  /** Every answer about a known run, stored or configured. */
  lemma {:induction false} KnownRunAnswer(ctx: StepContext, rollout: Option<Rollout>, w: World, store: Store)
    requires Configured(ctx) && !ctx.status.Undecodable? && KnownRun(ctx) != ""
    ensures Answers(OperatorRun(ctx, rollout, w, store), KnownRun(ctx), Since(ctx, w), w,
                    Allowed(ctx.config.value.timeout).value, store, StateIn(ctx.status))
  {
    var st := StateIn(ctx.status).(runID := KnownRun(ctx), triggeredAt := Since(ctx, w));
    ConfiguredRun(ctx, rollout, w, store);
    WatchedAnswers(Allowed(ctx.config.value.timeout).value, st, w, store, StateIn(ctx.status));
  }

  lemma {:induction false} NewRunIsWatched(ctx: StepContext, rollout: Option<Rollout>, w: World, store: Store)
    requires Configured(ctx) && !ctx.status.Undecodable? && KnownRun(ctx) == ""
    requires TriggerReply(PopulateFromRollout(ctx.config.value, rollout), w.api, store).Success?
    ensures var trigger := TriggerReply(PopulateFromRollout(ctx.config.value, rollout), w.api, store);
            var poll := if w.api.getFails then Failure(GetFailed) else Success(PollResult(FRESH, w.api));
            var st := StateIn(ctx.status).(runID := trigger.value, triggeredAt := Since(ctx, w));
            && OperatorRun(ctx, rollout, w, store)
               == WithCall(TriggerRun(trigger), Watched(Allowed(ctx.config.value.timeout).value, st, poll, w.checkedAt))
            && PollResult(FRESH, w.api).state == Running
  {
    var cfg := PopulateFromRollout(ctx.config.value, rollout);
    ConfiguredRun(ctx, rollout, w, store);
    TriggerReturnsHandle(cfg, w.api, store);
  }

  /** Every answer when there is no run yet: the trigger decides, then time, then whether the new
      resource can be read, which has nothing to show yet. */
  lemma {:induction false} NewRunAnswer(ctx: StepContext, rollout: Option<Rollout>, w: World, store: Store)
    requires Configured(ctx) && !ctx.status.Undecodable? && KnownRun(ctx) == ""
    ensures var o, since := OperatorRun(ctx, rollout, w, store), Since(ctx, w);
            var limit := Allowed(ctx.config.value.timeout).value;
            var trigger := TriggerReply(PopulateFromRollout(ctx.config.value, rollout), w.api, store);
            if trigger.Failure? then o == Outcome(EMPTY_RESULT, Some(trigger.error), [TriggerRun(trigger)])
            else
              && o.calls != [] && o.calls[0] == TriggerRun(trigger)
              && if TimedOutAt(since, w.checkedAt, limit) then ReportsTimeout(o, limit, trigger.value)
                 else if w.api.getFails then o.result == EMPTY_RESULT && o.err == Some(GetFailed)
                 else
                   && o.err == None
                   && o.result == StepResult(PhaseRunning, NoMessage, 15_000_000_000, o.result.status)
                   && o.result.status.Stored? && o.result.status.state.runID == trigger.value
                   && o.result.status.state.triggeredAt == since
  {
    ConfiguredRun(ctx, rollout, w, store);
    if TriggerReply(PopulateFromRollout(ctx.config.value, rollout), w.api, store).Success? {
      NewRunIsWatched(ctx, rollout, w, store);
    }
  }

  // ---------- Over every input ----------

  /** The run is known, in time, and its resource can be read. */
  ghost predicate ReadsInTime(ctx: StepContext, w: World, store: Store)
  {
    && Configured(ctx) && !ctx.status.Undecodable? && Since(ctx, w).Seconds?
    && !TimedOutAt(Since(ctx, w), w.checkedAt, Allowed(ctx.config.value.timeout).value)
    && Readable(KnownRun(ctx), w.api, store).Some?
  }

  lemma {:induction false} EmptyRunIDIsUnreadable(api: Api, store: Store)
    ensures Readable("", api, store).None?
  {
    assert DecodeRunID("").Failure?;
  }

  /** End to end, for every input: Run reports success exactly when the configuration is
      acceptable, the run is known and in time, and its resource can be read, is finished, and
      every runner container of a nonempty, readable pod list ended with code 0 and no restart. */
  lemma {:induction false} SuccessfulIff(ctx: StepContext, rollout: Option<Rollout>, w: World, store: Store)
    ensures var o := OperatorRun(ctx, rollout, w, store);
            (o.err == None && o.result.phase == PhaseSuccessful) <==>
            ReadsInTime(ctx, w, store) && ShowsPassed(Readable(KnownRun(ctx), w.api, store).value, w.api)
  {
    if !Configured(ctx) {
      RefusedConfigurationFails(ctx, rollout, w, store);
    } else if ctx.status.Undecodable? {
      UndecodableIsError(ctx, rollout, w, store);
    } else if KnownRun(ctx) == "" {
      EmptyRunIDIsUnreadable(w.api, store);
      NewRunAnswer(ctx, rollout, w, store);
    } else {
      KnownRunAnswer(ctx, rollout, w, store);
    }
  }

  /** Run asks to be called again, after 15 seconds, exactly when it reports that the run is still
      going; it reports something exactly when it returns no error. */
  lemma {:induction false} RequeuesWhileRunning(ctx: StepContext, rollout: Option<Rollout>, w: World, store: Store)
    ensures var o := OperatorRun(ctx, rollout, w, store);
            && o.result.requeueAfter == (if o.result.phase == PhaseRunning then 15_000_000_000 else 0)
            && (o.result.phase == NoPhase <==> o.err.Some?)
            && (o.err.Some? ==> o.result == EMPTY_RESULT)
  {
    if !Configured(ctx) {
      RefusedConfigurationFails(ctx, rollout, w, store);
    } else if ctx.status.Undecodable? {
      UndecodableIsError(ctx, rollout, w, store);
    } else if KnownRun(ctx) == "" {
      NewRunAnswer(ctx, rollout, w, store);
    } else {
      KnownRunAnswer(ctx, rollout, w, store);
    }
  }

  /** Terminate and Abort stop a run exactly when the configuration is acceptable and the status
      names one. */
  lemma {:induction false} StopsIff(ctx: StepContext)
    ensures StopStep(ctx) != [] <==>
            ctx.config.Some? && FieldsAccepted(ctx.config.value) && HasRun(ctx.status)
    ensures StopStep(ctx) != [] ==> StopStep(ctx) == [StopRun(ctx.status.state.runID)]
  {
    ParsesIff(ctx);
  }
}
