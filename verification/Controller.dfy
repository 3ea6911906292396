/** Whole runs of a step, for any provider: the controller calls Run, Terminate and Abort in
    any order, any number of times. It stores the status Run returns unless the call failed,
    in which case it keeps the one it had. The configuration is fixed and the clock does not
    go backwards. */
module Controller {
  import opened Wrappers
  import opened Provider
  import opened Step

  datatype Event = RunCall(a: Answers) | StopCall

  /** The controller's view, and the history of the run so far. */
  datatype Ctl = Ctl(
    status: Status,
    clock: int,               // the latest clock reading
    calls: seq<Call>,         // every provider call made
    dropped: seq<string>,     // run IDs that were triggered and then forgotten
    stamped: int,             // real time of the stored TriggeredAt
    waits: nat,               // Run calls that returned Running
    phase: Phase)             // what the last Run returned, NoPhase when it failed

  const START := Ctl(NoStatus, 0, [], [], 0, 0, NoPhase)

  datatype Setup = Setup(cfg: PluginConfig, timeout: int)
  {
    predicate PollOnly() {
      cfg.testRunID != ""
    }
  }

  predicate HasHandle(status: Status) {
    status.Stored? && status.state.runID != ""
  }

  /** The run IDs of the successful triggers, in order. */
  function Triggered(calls: seq<Call>): seq<string>
  {
    if calls == [] then []
    else
      Triggered(calls[..|calls| - 1]) +
      match calls[|calls| - 1]
      case TriggerRun(Success(runID)) => [runID]
      case _ => []
  }

  function CtlStep(su: Setup, c: Ctl, e: Event): Ctl
  {
    match e
    case StopCall =>
      if HasHandle(c.status) then c.(calls := c.calls + [StopRun(c.status.state.runID)]) else c
    case RunCall(a) =>
      var o := RunStep(su.cfg, su.timeout, c.status, a);
      Ctl(
        if o.err.Some? then c.status else o.result.status,
        a.checkedAt,
        c.calls + o.calls,
        c.dropped + if o.err.Some? then Triggered(o.calls) else [],
        if o.err.None? && !HasHandle(c.status) then a.stampedAt else c.stamped,
        c.waits + if o.err.None? && o.result.phase == PhaseRunning then 1 else 0,
        if o.err.Some? then NoPhase else o.result.phase)
  }

  function After(su: Setup, events: seq<Event>): Ctl
  {
    if events == [] then START else CtlStep(su, After(su, events[..|events| - 1]), events[|events| - 1])
  }

  /** A clock that does not go backwards, and run IDs that are not empty. */
  predicate Admissible(c: Ctl, e: Event)
  {
    e.RunCall? ==>
      && c.clock <= e.a.stampedAt <= e.a.checkedAt
      && (e.a.trigger.Success? ==> e.a.trigger.value != "")
  }

  ghost predicate IsRun(su: Setup, events: seq<Event>)
  {
    events == [] ||
    (IsRun(su, events[..|events| - 1]) && Admissible(After(su, events[..|events| - 1]), events[|events| - 1]))
  }

  // ---------- Reading the call log ----------

  /** The run IDs passed to Cleanup, in order. */
  function Cleaned(calls: seq<Call>): seq<string>
  {
    if calls == [] then []
    else
      Cleaned(calls[..|calls| - 1]) +
      match calls[|calls| - 1]
      case Cleanup(runID) => [runID]
      case _ => []
  }

  /** The states the polls reported, in order. */
  function Verdicts(calls: seq<Call>): seq<RunState>
  {
    if calls == [] then []
    else
      Verdicts(calls[..|calls| - 1]) +
      match calls[|calls| - 1]
      case GetRunResult(_, Success(r)) => [r.state]
      case _ => []
  }

  lemma {:induction false} LogsConcat(a: seq<Call>, b: seq<Call>)
    ensures Triggered(a + b) == Triggered(a) + Triggered(b)
    ensures Cleaned(a + b) == Cleaned(a) + Cleaned(b)
    ensures Verdicts(a + b) == Verdicts(a) + Verdicts(b)
  {
    if b == [] {
      assert a + b == a;
    } else {
      assert (a + b)[..|a + b| - 1] == a + b[..|b| - 1];
      LogsConcat(a, b[..|b| - 1]);
    }
  }

  lemma {:induction false} LogOfOne(call: Call)
    ensures Triggered([call]) == if call.TriggerRun? && call.created.Success? then [call.created.value] else []
    ensures Cleaned([call]) == if call.Cleanup? then [call.runID] else []
    ensures Verdicts([call]) == if call.GetRunResult? && call.polled.Success? then [call.polled.value.state] else []
  {
    assert [call][..0] == [];
  }

  /** The state with its run ID once a Run has one: stored, configured or just triggered. */
  function Handled(cfg: PluginConfig, status: Status, a: Answers): Option<StepState>
  {
    var st := StateIn(status);
    if status.Undecodable? then None
    else if st.runID != "" then Some(st)
    else if cfg.testRunID != "" then Some(Adopt(st, cfg.testRunID, a.stampedAt))
    else if a.trigger.Success? then Some(Adopt(st, a.trigger.value, a.stampedAt))
    else None
  }

  /** The run ID that this Run triggered, if it did. */
  function NewRun(cfg: PluginConfig, status: Status, a: Answers): seq<string>
  {
    if !status.Undecodable? && StateIn(status).runID == "" && cfg.testRunID == "" && a.trigger.Success?
    then [a.trigger.value] else []
  }

  predicate Polled(o: Outcome) {
    o.err.None? && !o.result.message.TimedOutAfter?
  }

  /** The log of a Run that triggered these runs and then watched st. */
  ghost predicate Logged(o: Outcome, triggered: seq<string>, st: StepState, a: Answers)
  {
    && (Polled(o) ==> a.poll.Success?)
    && Triggered(o.calls) == triggered
    && Verdicts(o.calls) == (if Polled(o) then [a.poll.value.state] else [])
    && Cleaned(o.calls) == (if Polled(o) && WantsCleanup(a.poll.value.state, st) then [st.runID] else [])
  }

  /** The status a Run leaves behind when it does not fail. */
  ghost predicate Leaves(o: Outcome, st: StepState, timeout: int, a: Answers)
  {
    o.err.None? ==>
      && st.triggeredAt.Seconds? && o.result.status.Stored?
      && (o.result.message.TimedOutAfter? <==> Late(timeout, st, a.checkedAt))
      && (o.result.message.TimedOutAfter? ==> o.result.status.state == st.(finalStatus := TimedOut))
      && (Polled(o) ==>
          && a.poll.Success?
          && o.result.status.state == st.(
            testRunURL := a.poll.value.testRunURL,
            finalStatus := if a.poll.value.state == Running then st.finalStatus else Reported(a.poll.value.state),
            cleanupDone := st.cleanupDone || WantsCleanup(a.poll.value.state, st)))
      && (o.result.phase == PhaseRunning <==> Polled(o) && a.poll.value.state == Running)
      && o.result.phase != NoPhase
  }

  lemma {:induction false} WatchedLeaves(timeout: int, st: StepState, a: Answers)
    ensures Leaves(Watched(timeout, st, a.poll, a.checkedAt), st, timeout, a)
  {}

  lemma {:induction false} SettledLog(st: StepState, r: RunResult)
    ensures var calls := Settled(st, r).calls;
            && Triggered(calls) == [] && Verdicts(calls) == [r.state]
            && Cleaned(calls) == if WantsCleanup(r.state, st) then [st.runID] else []
  {
    var polled := GetRunResult(st.runID, Success(r));
    LogOfOne(polled);
    LogOfOne(Cleanup(st.runID));
    LogsConcat([polled], [Cleanup(st.runID)]);
    LogsConcat([polled], []);
  }

  lemma {:induction false} WatchedLog(timeout: int, st: StepState, a: Answers)
    ensures Logged(Watched(timeout, st, a.poll, a.checkedAt), [], st, a)
  {
    LogOfOne(StopRun(st.runID));
    LogOfOne(GetRunResult(st.runID, a.poll));
    if a.poll.Success? {
      SettledLog(st, a.poll.value);
    }
  }

  lemma {:induction false} TriggerLog(o: Outcome, runID: string, st: StepState, a: Answers)
    requires Logged(o, [], st, a)
    ensures Logged(WithCall(TriggerRun(Success(runID)), o), [runID], st, a)
  {
    LogOfOne(TriggerRun(Success(runID)));
    LogsConcat([TriggerRun(Success(runID))], o.calls);
  }

  /** What one Run adds to the log, and the status it leaves. */
  lemma {:induction false} RunLog(cfg: PluginConfig, timeout: int, status: Status, a: Answers)
    requires Handled(cfg, status, a).Some?
    ensures var o := RunStep(cfg, timeout, status, a);
            var st := Handled(cfg, status, a).value;
            Logged(o, NewRun(cfg, status, a), st, a) && Leaves(o, st, timeout, a)
  {
    var st := Handled(cfg, status, a).value;
    WatchedLog(timeout, st, a);
    WatchedLeaves(timeout, st, a);
    if NewRun(cfg, status, a) != [] {
      TriggerLog(Watched(timeout, st, a.poll, a.checkedAt), a.trigger.value, st, a);
    }
  }

  lemma {:induction false} UnhandledLog(cfg: PluginConfig, timeout: int, status: Status, a: Answers)
    requires Handled(cfg, status, a).None?
    ensures var o := RunStep(cfg, timeout, status, a);
            && o.err.Some? && o.result == NO_RESULT && NewRun(cfg, status, a) == []
            && Triggered(o.calls) == [] && Verdicts(o.calls) == [] && Cleaned(o.calls) == []
  {
    LogOfOne(TriggerRun(a.trigger));
  }

  lemma {:induction false} StopLog(c: Ctl, runID: string)
    ensures var calls := c.calls + [StopRun(runID)];
            && Triggered(calls) == Triggered(c.calls) && Cleaned(calls) == Cleaned(c.calls)
            && Verdicts(calls) == Verdicts(c.calls)
  {
    LogsConcat(c.calls, [StopRun(runID)]);
    LogOfOne(StopRun(runID));
  }

  // ---------- The invariant ----------

  /** The last Run told the controller that the step is over. */
  predicate Ended(c: Ctl) {
    c.phase in {PhaseSuccessful, PhaseFailed}
  }

  function FinalOf(status: Status): FinalStatus {
    if status.Stored? then status.state.finalStatus else NoFinal
  }

  ghost predicate TriggerAccounts(su: Setup, c: Ctl)
  {
    && Triggered(c.calls) == c.dropped + (if c.status.Stored? && !su.PollOnly() then [c.status.state.runID] else [])
    && (su.PollOnly() ==> c.dropped == [] && (c.status.Stored? ==> c.status.state.runID == su.cfg.testRunID))
  }

  ghost predicate CleanupAccounts(c: Ctl)
  {
    && Cleaned(c.calls) == (if c.status.Stored? && c.status.state.cleanupDone then [c.status.state.runID] else [])
    && (c.status.Stored? && c.status.state.finalStatus in {Reported(Passed), Reported(Failed), Reported(Errored)}
        ==> c.status.state.cleanupDone)
  }

  /** Every successful trigger is either the stored run or a dropped one; Cleanup was called
      for the stored run, once, exactly when the state says so. */
  ghost predicate Accounts(su: Setup, c: Ctl)
  {
    TriggerAccounts(su, c) && CleanupAccounts(c)
  }

  ghost predicate Times(su: Setup, c: Ctl)
  {
    && (c.status.NoStatus? ==> c.waits == 0)
    && (c.status.Stored? && c.status.state.triggeredAt.Seconds? ==>
        && c.status.state.triggeredAt.s == c.stamped / SECOND
        && c.stamped <= c.clock
        && (c.status.state.finalStatus == TimedOut ==> Late(su.timeout, c.status.state, c.clock)))
  }

  ghost predicate Inv(su: Setup, c: Ctl)
  {
    && !c.status.Undecodable?
    && (c.status.Stored? ==> c.status.state.runID != "" && c.status.state.triggeredAt.Seconds?)
    && Accounts(su, c)
    && Times(su, c)
    && (Ended(c) ==> FinalOf(c.status) != NoFinal)
  }

  /** Times and phase after a Run, from what it left behind alone. */
  lemma {:induction false} TimesStep(su: Setup, c: Ctl, a: Answers, o: Outcome, c': Ctl)
    requires Times(su, c) && !c.status.Undecodable?
    requires c.status.Stored? ==> c.status.state.runID != "" && c.status.state.triggeredAt.Seconds?
    requires c.clock <= a.stampedAt <= a.checkedAt && Handled(su.cfg, c.status, a).Some?
    requires Leaves(o, Handled(su.cfg, c.status, a).value, su.timeout, a)
    requires c'.status == (if o.err.Some? then c.status else o.result.status) && c'.clock == a.checkedAt
    requires c'.stamped == if o.err.None? && !HasHandle(c.status) then a.stampedAt else c.stamped
    requires c'.waits == c.waits + if o.err.None? && o.result.phase == PhaseRunning then 1 else 0
    requires c'.phase == if o.err.Some? then NoPhase else o.result.phase
    ensures Times(su, c')
    ensures Ended(c') ==> FinalOf(c'.status) != NoFinal
  {}

  lemma {:induction false} TriggerAccountsStep(su: Setup, c: Ctl, a: Answers, o: Outcome, c': Ctl)
    requires TriggerAccounts(su, c) && !c.status.Undecodable? && (c.status.Stored? ==> c.status.state.runID != "")
    requires Handled(su.cfg, c.status, a).Some?
    requires Triggered(o.calls) == NewRun(su.cfg, c.status, a)
    requires o.err.None? ==>
      o.result.status.Stored? && o.result.status.state.runID == Handled(su.cfg, c.status, a).value.runID
    requires c'.status == if o.err.Some? then c.status else o.result.status
    requires c'.dropped == c.dropped + if o.err.Some? then Triggered(o.calls) else []
    requires Triggered(c'.calls) == Triggered(c.calls) + Triggered(o.calls)
    ensures TriggerAccounts(su, c')
  {
    if c.status.Stored? {
      assert c'.dropped == c.dropped && Triggered(c'.calls) == Triggered(c.calls);
    } else if o.err.Some? {
      assert c.dropped + [] == c.dropped;
    } else {
      assert c.dropped + [] == c.dropped;
      assert c'.dropped == c.dropped;
    }
  }

  lemma {:induction false} CleanupAccountsStep(c: Ctl, st: StepState, o: Outcome, a: Answers, c': Ctl)
    requires CleanupAccounts(c) && st.runID != "" && (c.status.Stored? ==> st == c.status.state)
    requires !c.status.Stored? ==> !st.cleanupDone && st.finalStatus == NoFinal
    requires o.err.None? ==> o.result.status.Stored? && o.result.status.state.runID == st.runID
    requires Polled(o) ==> a.poll.Success?
    requires Cleaned(o.calls) == if Polled(o) && WantsCleanup(a.poll.value.state, st) then [st.runID] else []
    requires o.err.None? && !Polled(o) ==> o.result.status.state == st.(finalStatus := TimedOut)
    requires Polled(o) ==> var s := o.result.status.state;
      && s.cleanupDone == (st.cleanupDone || WantsCleanup(a.poll.value.state, st))
      && s.finalStatus == if a.poll.value.state == Running then st.finalStatus else Reported(a.poll.value.state)
    requires c'.status == if o.err.Some? then c.status else o.result.status
    requires Cleaned(c'.calls) == Cleaned(c.calls) + Cleaned(o.calls)
    ensures CleanupAccounts(c')
  {
    assert [] + Cleaned(o.calls) == Cleaned(o.calls);
    assert Cleaned(c.calls) + [] == Cleaned(c.calls);
  }

  /** The accounts after a Run, from what it logged and left behind alone. */
  lemma {:induction false} AccountsStep(su: Setup, c: Ctl, a: Answers, o: Outcome, c': Ctl)
    requires Inv(su, c) && Admissible(c, RunCall(a)) && Handled(su.cfg, c.status, a).Some?
    requires Logged(o, NewRun(su.cfg, c.status, a), Handled(su.cfg, c.status, a).value, a)
    requires Leaves(o, Handled(su.cfg, c.status, a).value, su.timeout, a)
    requires c'.status == if o.err.Some? then c.status else o.result.status
    requires c'.dropped == c.dropped + if o.err.Some? then Triggered(o.calls) else []
    requires Triggered(c'.calls) == Triggered(c.calls) + Triggered(o.calls)
    requires Cleaned(c'.calls) == Cleaned(c.calls) + Cleaned(o.calls)
    ensures Accounts(su, c')
  {
    TriggerAccountsStep(su, c, a, o, c');
    CleanupAccountsStep(c, Handled(su.cfg, c.status, a).value, o, a, c');
  }

  lemma {:induction false} RunKeepsInv(su: Setup, c: Ctl, a: Answers)
    requires Inv(su, c) && Admissible(c, RunCall(a)) && Handled(su.cfg, c.status, a).Some?
    ensures Inv(su, CtlStep(su, c, RunCall(a)))
  {
    var o := RunStep(su.cfg, su.timeout, c.status, a);
    var c' := CtlStep(su, c, RunCall(a));
    RunLog(su.cfg, su.timeout, c.status, a);
    LogsConcat(c.calls, o.calls);
    AccountsStep(su, c, a, o, c');
    TimesStep(su, c, a, o, c');
  }

  lemma {:induction false} StepKeepsInv(su: Setup, c: Ctl, e: Event)
    requires Inv(su, c) && Admissible(c, e)
    ensures Inv(su, CtlStep(su, c, e))
  {
    match e
    case StopCall =>
      if HasHandle(c.status) {
        StopLog(c, c.status.state.runID);
      }
    case RunCall(a) =>
      if Handled(su.cfg, c.status, a).Some? {
        RunKeepsInv(su, c, a);
      } else {
        UnhandledLog(su.cfg, su.timeout, c.status, a);
        LogsConcat(c.calls, RunStep(su.cfg, su.timeout, c.status, a).calls);
      }
  }

  lemma {:induction false} RunsKeepInv(su: Setup, events: seq<Event>)
    requires IsRun(su, events)
    ensures Inv(su, After(su, events))
  {
    if events == [] {
    } else {
      RunsKeepInv(su, events[..|events| - 1]);
      StepKeepsInv(su, After(su, events[..|events| - 1]), events[|events| - 1]);
    }
  }

  lemma {:induction false} PrefixIsRun(su: Setup, events: seq<Event>, n: nat)
    requires IsRun(su, events) && n <= |events|
    ensures IsRun(su, events[..n])
    decreases |events|
  {
    if n == |events| {
      assert events[..n] == events;
    } else {
      assert events[..|events| - 1][..n] == events[..n];
      PrefixIsRun(su, events[..|events| - 1], n);
    }
  }

  // ---------- Main results ----------

  /** In trigger mode every successful trigger of a run is accounted for: those whose first
      poll failed were dropped, and at most one more exists, the stored run. In poll-only
      mode nothing is ever triggered. */
  lemma {:induction false} TriggersAreAccountedFor(su: Setup, events: seq<Event>)
    requires IsRun(su, events)
    ensures var c := After(su, events);
            && (su.PollOnly() ==> Triggered(c.calls) == [])
            && (!su.PollOnly() && c.status.NoStatus? ==> Triggered(c.calls) == c.dropped)
            && (!su.PollOnly() && c.status.Stored? ==> Triggered(c.calls) == c.dropped + [c.status.state.runID])
            && |Triggered(c.calls)| <= |c.dropped| + 1
  {
    RunsKeepInv(su, events);
  }

  /** Cleanup is called at most once, for the stored run, exactly when the state records it,
      and it has been called once a verdict is stored. */
  lemma {:induction false} CleanupAtMostOnce(su: Setup, events: seq<Event>)
    requires IsRun(su, events)
    ensures var c := After(su, events);
            && |Cleaned(c.calls)| <= 1
            && (Cleaned(c.calls) != [] <==> c.status.Stored? && c.status.state.cleanupDone)
            && (FinalOf(c.status) in {Reported(Passed), Reported(Failed), Reported(Errored)} ==> Cleaned(c.calls) != [])
            && (Cleaned(c.calls) != [] ==> Cleaned(c.calls) == [c.status.state.runID])
  {
    RunsKeepInv(su, events);
  }

  /** What holds from one stored status to any later one. */
  ghost predicate Sticks(c: Ctl, c': Ctl)
  {
    c.status.Stored? ==>
      && c'.status.Stored?
      && c'.status.state.runID == c.status.state.runID
      && c'.status.state.triggeredAt == c.status.state.triggeredAt
      && Triggered(c'.calls) == Triggered(c.calls)
      && c'.dropped == c.dropped
      && c'.stamped == c.stamped
      && (c.status.state.cleanupDone ==> c'.status.state.cleanupDone)
  }

  lemma {:induction false} RunSticks(c: Ctl, st: StepState, a: Answers, o: Outcome, timeout: int, c': Ctl)
    requires c.status == Stored(st) && Logged(o, [], st, a) && Leaves(o, st, timeout, a)
    requires c'.status == if o.err.Some? then c.status else o.result.status
    requires c'.dropped == c.dropped + if o.err.Some? then Triggered(o.calls) else []
    requires Triggered(c'.calls) == Triggered(c.calls) + Triggered(o.calls)
    requires c'.stamped == c.stamped
    ensures Sticks(c, c')
  {
    assert Triggered(c.calls) + [] == Triggered(c.calls);
    assert c.dropped + [] == c.dropped;
  }

  lemma {:induction false} StepSticks(su: Setup, c: Ctl, e: Event)
    requires Inv(su, c) && Admissible(c, e)
    ensures Sticks(c, CtlStep(su, c, e))
    ensures c.clock <= CtlStep(su, c, e).clock
  {
    if c.status.Stored? {
      match e
      case StopCall =>
        StopLog(c, c.status.state.runID);
      case RunCall(a) =>
        var o := RunStep(su.cfg, su.timeout, c.status, a);
        RunLog(su.cfg, su.timeout, c.status, a);
        LogsConcat(c.calls, o.calls);
        RunSticks(c, c.status.state, a, o, su.timeout, CtlStep(su, c, e));
    }
  }

  /** From the first stored status on the handle and its trigger time never change, nothing
      is triggered or dropped again, and CleanupDone never goes back. */
  lemma {:induction false} HandleIsSticky(su: Setup, events: seq<Event>, n: nat)
    requires IsRun(su, events) && n <= |events|
    ensures Sticks(After(su, events[..n]), After(su, events))
    ensures After(su, events[..n]).clock <= After(su, events).clock
    decreases |events|
  {
    if n == |events| {
      assert events[..n] == events;
    } else {
      var front := events[..|events| - 1];
      assert front[..n] == events[..n];
      HandleIsSticky(su, front, n);
      RunsKeepInv(su, front);
      StepSticks(su, After(su, front), events[|events| - 1]);
    }
  }

  // ---------- Cleanup only after a verdict ----------

  ghost predicate CleanupFollows(calls: seq<Call>, k: int)
    requires 0 <= k < |calls| && calls[k].Cleanup?
  {
    && k > 0 && calls[k - 1].GetRunResult? && calls[k - 1].runID == calls[k].runID
    && calls[k - 1].polled.Success? && calls[k - 1].polled.value.state in {Passed, Failed, Errored}
  }

  /** Every Cleanup in the log directly follows a poll of the same run that said Passed,
      Failed or Errored. */
  ghost predicate CleanupsFollowVerdicts(calls: seq<Call>)
  {
    forall k :: 0 <= k < |calls| && calls[k].Cleanup? ==> CleanupFollows(calls, k)
  }

  lemma {:induction false} FollowConcat(a: seq<Call>, b: seq<Call>)
    requires CleanupsFollowVerdicts(a) && CleanupsFollowVerdicts(b)
    ensures CleanupsFollowVerdicts(a + b)
  {
    var calls := a + b;
    forall k | 0 <= k < |calls| && calls[k].Cleanup? ensures CleanupFollows(calls, k) {
      if k < |a| {
        assert CleanupFollows(a, k);
      } else {
        assert CleanupFollows(b, k - |a|);
      }
    }
  }

  lemma {:induction false} RunCleansAfterVerdict(su: Setup, status: Status, a: Answers)
    ensures CleanupsFollowVerdicts(RunStep(su.cfg, su.timeout, status, a).calls)
  {
    var handled := Handled(su.cfg, status, a);
    if handled.Some? {
      var o := Watched(su.timeout, handled.value, a.poll, a.checkedAt);
      assert CleanupsFollowVerdicts(o.calls);
      if NewRun(su.cfg, status, a) != [] {
        FollowConcat([TriggerRun(a.trigger)], o.calls);
      }
    }
  }

  lemma {:induction false} CleanupOnlyAfterVerdict(su: Setup, events: seq<Event>)
    ensures CleanupsFollowVerdicts(After(su, events).calls)
  {
    if events == [] {
    } else {
      var front, e := events[..|events| - 1], events[|events| - 1];
      CleanupOnlyAfterVerdict(su, front);
      var c := After(su, front);
      if e.RunCall? {
        RunCleansAfterVerdict(su, c.status, e.a);
        FollowConcat(c.calls, RunStep(su.cfg, su.timeout, c.status, e.a).calls);
      } else if HasHandle(c.status) {
        FollowConcat(c.calls, [StopRun(c.status.state.runID)]);
      }
    }
  }

  // ---------- The final status ----------

  /** From nothing, to verdicts that only move up, to TimedOut. */
  ghost predicate FinalMayBecome(f: FinalStatus, g: FinalStatus)
  {
    || f == g || f == NoFinal
    || (f.Reported? && g == TimedOut)
    || (f.Reported? && g.Reported? && MayBecome(f.state, g.state))
  }

  /** The verdicts a provider reports over the whole log only move up. */
  ghost predicate Rising(vs: seq<RunState>)
  {
    forall i, j :: 0 <= i < j < |vs| ==> MayBecome(vs[i], vs[j])
  }

  /** A reported final status is the last verdict of the log. */
  ghost predicate FinalIsLastVerdict(c: Ctl)
  {
    var vs := Verdicts(c.calls);
    && (FinalOf(c.status).Reported? ==> vs != [] && vs[|vs| - 1] == FinalOf(c.status).state != Running)
  }

  lemma {:induction false} FinalStep(su: Setup, c: Ctl, a: Answers, o: Outcome, c': Ctl)
    requires Inv(su, c) && Admissible(c, RunCall(a)) && FinalIsLastVerdict(c)
    requires Handled(su.cfg, c.status, a).Some?
    requires Logged(o, NewRun(su.cfg, c.status, a), Handled(su.cfg, c.status, a).value, a)
    requires Leaves(o, Handled(su.cfg, c.status, a).value, su.timeout, a)
    requires c'.status == if o.err.Some? then c.status else o.result.status
    requires Verdicts(c'.calls) == Verdicts(c.calls) + Verdicts(o.calls)
    requires Rising(Verdicts(c'.calls))
    ensures FinalIsLastVerdict(c')
    ensures FinalMayBecome(FinalOf(c.status), FinalOf(c'.status))
  {
    var vs := Verdicts(c.calls);
    if Polled(o) {
      assert Verdicts(c'.calls)[|vs|] == a.poll.value.state;
      if vs != [] {
        assert MayBecome(Verdicts(c'.calls)[|vs| - 1], Verdicts(c'.calls)[|vs|]);
      }
    } else {
      assert Verdicts(c'.calls) == vs;
    }
  }

  lemma {:induction false} StepMovesFinalUp(su: Setup, c: Ctl, e: Event)
    requires Inv(su, c) && Admissible(c, e) && FinalIsLastVerdict(c)
    requires Rising(Verdicts(CtlStep(su, c, e).calls))
    ensures FinalIsLastVerdict(CtlStep(su, c, e))
    ensures FinalMayBecome(FinalOf(c.status), FinalOf(CtlStep(su, c, e).status))
  {
    match e
    case StopCall =>
      if HasHandle(c.status) {
        StopLog(c, c.status.state.runID);
      }
    case RunCall(a) =>
      var o := RunStep(su.cfg, su.timeout, c.status, a);
      LogsConcat(c.calls, o.calls);
      if Handled(su.cfg, c.status, a).Some? {
        RunLog(su.cfg, su.timeout, c.status, a);
        FinalStep(su, c, a, o, CtlStep(su, c, e));
      } else {
        UnhandledLog(su.cfg, su.timeout, c.status, a);
      }
  }

  lemma {:induction false} VerdictsGrow(su: Setup, c: Ctl, e: Event)
    ensures Verdicts(c.calls) <= Verdicts(CtlStep(su, c, e).calls)
  {
    match e
    case RunCall(a) => LogsConcat(c.calls, RunStep(su.cfg, su.timeout, c.status, a).calls);
    case StopCall =>
      if HasHandle(c.status) {
        LogsConcat(c.calls, [StopRun(c.status.state.runID)]);
      }
  }

  lemma {:induction false} FinalMayBecomeTransitive(f: FinalStatus, g: FinalStatus, h: FinalStatus)
    requires FinalMayBecome(f, g) && FinalMayBecome(g, h)
    ensures FinalMayBecome(f, h)
  {}

  lemma {:induction false} RisingPrefix(vs: seq<RunState>, ws: seq<RunState>)
    requires vs <= ws && Rising(ws)
    ensures Rising(vs)
  {}

  lemma {:induction false} FinalStaysLastVerdict(su: Setup, events: seq<Event>)
    requires IsRun(su, events) && Rising(Verdicts(After(su, events).calls))
    ensures FinalIsLastVerdict(After(su, events))
    decreases |events|, 1
  {
    if events != [] {
      LastStepMovesFinalUp(su, events);
    }
  }

  lemma {:induction false} LastStepMovesFinalUp(su: Setup, events: seq<Event>)
    requires events != [] && IsRun(su, events) && Rising(Verdicts(After(su, events).calls))
    ensures Rising(Verdicts(After(su, events[..|events| - 1]).calls))
    ensures FinalIsLastVerdict(After(su, events))
    ensures FinalMayBecome(FinalOf(After(su, events[..|events| - 1]).status), FinalOf(After(su, events).status))
    decreases |events|, 0
  {
    var front, e := events[..|events| - 1], events[|events| - 1];
    var c := After(su, front);
    VerdictsGrow(su, c, e);
    RisingPrefix(Verdicts(c.calls), Verdicts(CtlStep(su, c, e).calls));
    RunsKeepInv(su, front);
    FinalStaysLastVerdict(su, front);
    StepMovesFinalUp(su, c, e);
  }

  /** If the provider's verdicts only move up, so does the stored final status: from nothing,
      to a verdict, to TimedOut, and TimedOut for good. */
  lemma {:induction false} FinalStatusOnlyRises(su: Setup, events: seq<Event>, n: nat)
    requires IsRun(su, events) && n <= |events| && Rising(Verdicts(After(su, events).calls))
    ensures FinalMayBecome(FinalOf(After(su, events[..n]).status), FinalOf(After(su, events).status))
    decreases |events|
  {
    if n == |events| {
      assert events[..n] == events;
    } else {
      var front := events[..|events| - 1];
      assert front[..n] == events[..n];
      LastStepMovesFinalUp(su, events);
      FinalStatusOnlyRises(su, front, n);
      FinalMayBecomeTransitive(FinalOf(After(su, events[..n]).status), FinalOf(After(su, front).status),
                               FinalOf(After(su, events).status));
    }
  }

  // ---------- Time ----------

  /** Once TimedOut is stored, every later Run of the same step returns TimedOut again. */
  lemma {:induction false} TimedOutForGood(su: Setup, events: seq<Event>, n: nat, a: Answers)
    requires IsRun(su, events + [RunCall(a)]) && n <= |events|
    requires FinalOf(After(su, events[..n]).status) == TimedOut
    ensures var o := RunStep(su.cfg, su.timeout, After(su, events).status, a);
            o.err == None && o.result.phase == PhaseFailed && o.result.message == TimedOutAfter(su.timeout)
  {
    assert (events + [RunCall(a)])[..|events|] == events;
    PrefixIsRun(su, events, n);
    RunsKeepInv(su, events[..n]);
    HandleIsSticky(su, events, n);
  }

  /** Cutting the trigger time to whole seconds moves the timeout forward by less than one
      second: TimedOut is never returned before timeout - 1s of real time has passed since the
      trigger, and always once more than the timeout has passed. */
  lemma {:induction false} TimedOutWithinOneSecond(su: Setup, events: seq<Event>, a: Answers)
    requires IsRun(su, events + [RunCall(a)]) && After(su, events).status.Stored?
    ensures var o := RunStep(su.cfg, su.timeout, After(su, events).status, a);
            var waited := a.checkedAt - After(su, events).stamped;
            && (o.result.message.TimedOutAfter? ==> waited > su.timeout - SECOND)
            && (waited > su.timeout ==> o.result.message == TimedOutAfter(su.timeout) && o.err == None)
  {
    assert (events + [RunCall(a)])[..|events|] == events;
    RunsKeepInv(su, events);
  }

  // ---------- Bounded waiting ----------

  /** Once a status is stored, Run calls come at least 15 seconds apart. */
  ghost predicate Spaced(su: Setup, events: seq<Event>)
  {
    events == [] ||
    (var c, e := After(su, events[..|events| - 1]), events[|events| - 1];
     && Spaced(su, events[..|events| - 1])
     && (e.RunCall? && c.status.Stored? ==> e.a.checkedAt >= c.clock + REQUEUE_AFTER))
  }

  /** n waits take at least n - 1 intervals. */
  ghost predicate WaitsTakeTime(c: Ctl)
  {
    c.waits > 0 ==>
      && c.status.Stored? && c.status.state.triggeredAt.Seconds?
      && c.clock >= c.status.state.triggeredAt.s * SECOND + (c.waits - 1) * REQUEUE_AFTER
  }

  ghost predicate InTime(su: Setup, c: Ctl)
  {
    c.status.Stored? && c.status.state.triggeredAt.Seconds? && !Late(su.timeout, c.status.state, c.clock)
  }

  lemma {:induction false} OneMoreInterval(waits: nat)
    ensures waits * REQUEUE_AFTER == (waits - 1) * REQUEUE_AFTER + REQUEUE_AFTER
  {}

  /** Waits and time after a Run, from what it left behind alone. */
  lemma {:induction false} RunTakesTime(su: Setup, c: Ctl, a: Answers, o: Outcome, c': Ctl)
    requires Times(su, c) && WaitsTakeTime(c)
    requires !c.status.Undecodable? && (c.status.Stored? ==> c.status.state.runID != "")
    requires Admissible(c, RunCall(a)) && Handled(su.cfg, c.status, a).Some?
    requires c.status.Stored? ==> a.checkedAt >= c.clock + REQUEUE_AFTER
    requires Leaves(o, Handled(su.cfg, c.status, a).value, su.timeout, a)
    requires c'.status == (if o.err.Some? then c.status else o.result.status) && c'.clock == a.checkedAt
    requires c'.waits == c.waits + if o.err.None? && o.result.phase == PhaseRunning then 1 else 0
    ensures WaitsTakeTime(c')
    ensures c'.waits > c.waits ==> InTime(su, c')
  {
    OneMoreInterval(c.waits);
  }

  lemma {:induction false} StepTakesTime(su: Setup, c: Ctl, e: Event)
    requires Inv(su, c) && Admissible(c, e) && WaitsTakeTime(c)
    requires e.RunCall? && c.status.Stored? ==> e.a.checkedAt >= c.clock + REQUEUE_AFTER
    ensures WaitsTakeTime(CtlStep(su, c, e))
    ensures CtlStep(su, c, e).waits > c.waits ==> InTime(su, CtlStep(su, c, e))
  {
    if e.RunCall? {
      if Handled(su.cfg, c.status, e.a).Some? {
        RunLog(su.cfg, su.timeout, c.status, e.a);
        RunTakesTime(su, c, e.a, RunStep(su.cfg, su.timeout, c.status, e.a), CtlStep(su, c, e));
      } else {
        UnhandledLog(su.cfg, su.timeout, c.status, e.a);
      }
    }
  }

  lemma {:induction false} IntervalsFit(k: nat, elapsed: int, timeout: int)
    requires k * REQUEUE_AFTER <= elapsed <= timeout
    ensures k <= timeout / REQUEUE_AFTER
  {}

  /** If Run calls come at least 15 seconds apart from the first stored status on, at most
      timeout / 15s + 1 of them report that the run is still going. */
  lemma {:induction false} WaitsAreBounded(su: Setup, events: seq<Event>)
    requires IsRun(su, events) && Spaced(su, events) && su.timeout > 0
    ensures WaitsTakeTime(After(su, events))
    ensures After(su, events).waits <= su.timeout / REQUEUE_AFTER + 1
  {
    if events == [] {
    } else {
      var front, e := events[..|events| - 1], events[|events| - 1];
      var c, c' := After(su, front), After(su, events);
      WaitsAreBounded(su, front);
      RunsKeepInv(su, front);
      StepTakesTime(su, c, e);
      if c'.waits > c.waits {
        IntervalsFit(c'.waits - 1, c'.clock - c'.status.state.triggeredAt.s * SECOND, su.timeout);
      }
    }
  }

  /** Under the plugin's own upper bound of two hours, a step never waits more than 481 times. */
  lemma {:induction false} NeverMoreThan481Waits(su: Setup, events: seq<Event>)
    requires IsRun(su, events) && Spaced(su, events)
    requires ParseTimeout(su.cfg.timeout) == Success(su.timeout)
    ensures After(su, events).waits <= su.timeout / REQUEUE_AFTER + 1 <= 481
  {
    ParseTimeoutBounds(su.cfg.timeout);
    WaitsAreBounded(su, events);
  }
}
