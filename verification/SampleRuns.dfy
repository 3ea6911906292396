/** Whole runs from an empty cluster: one that passes and gives everything back, one that leaves
    a resource behind for good, and one that reports Errored and then Passed. */
module SampleRuns {
  import opened Wrappers
  import opened Provider
  import opened RunID
  import opened ExitCode
  import opened Operator
  import opened Step
  import opened Controller
  import opened Ledger
  import opened Conservation
  import opened StableVerdicts

  const EMPTY := Sys(START, map[], map[])

  /** Finished, with one pod that ended with code 0. */
  const DONE := CustomResource("finished", [Pod([ContainerStatus(0, Some(0))])])

  lemma {:induction false} DonePassed()
    ensures StateOf(DONE, false) == Passed && StateOf(DONE, true) == Errored
  {
    var pod := Showing(Passed, false);
    VerdictOfOne(Passed);
    assert PodVerdicts([pod]) == [Passed];
  }

  /** A valid configuration and a first Run whose trigger goes through, polled in time. */
  ghost predicate CanStart(su: Setup, w: World)
  {
    && !su.PollOnly() && su.cfg.ValidK6Operator() && WellFormed(TriggerKey(su.cfg, w.api))
    && w.api.scriptReadable && !w.api.createFails
    && 0 <= w.stampedAt <= w.checkedAt && w.checkedAt - w.stampedAt / SECOND * SECOND <= su.timeout
  }

  lemma {:induction false} OneMore(su: Setup, init: Store, events: seq<SysEvent>, e: SysEvent)
    requires IsSysRun(su, init, events) && SysAdmissible(SysAfter(su, init, events), e)
    ensures IsSysRun(su, init, events + [e])
    ensures SysAfter(su, init, events + [e]) == SysStep(su, SysAfter(su, init, events), e)
  {
    var all := events + [e];
    assert all[..|all| - 1] == events && all[|all| - 1] == e;
  }

  // ---------- Started and finished ----------

  /** The step watches the one resource there is. */
  ghost predicate Watches(s: Sys, key: Key, cr: CustomResource, triggeredAt: int)
  {
    && s.store == map[key := cr] && s.shadow == map[] && s.ctl.dropped == []
    && HasHandle(s.ctl.status) && DecodeRunID(s.ctl.status.state.runID) == Success(key)
    && s.ctl.status.state.triggeredAt == Seconds(triggeredAt / SECOND) && !s.ctl.status.state.cleanupDone
  }

  lemma {:induction false} FirstRunSettles(su: Setup, w: World, a: Answers, st: StepState, r: RunResult)
    requires CanStart(su, w) && !w.api.getFails
    requires a == OperatorAnswers(su.cfg, NoStatus, w, map[]) && r == PollResult(FRESH, w.api)
    requires a.trigger.Success? ==> st == Adopt(FRESH_STATE, a.trigger.value, w.stampedAt)
    ensures a.trigger.Success? && r.state == Running
    ensures RunStep(su.cfg, su.timeout, NoStatus, a) == WithCall(TriggerRun(a.trigger), Settled(st, r))
  {
    TriggerReturnsHandle(su.cfg, w.api, map[]);
    assert a.poll == Success(r);
  }

  lemma {:induction false} FirstRun(su: Setup, w: World)
    requires CanStart(su, w) && !w.api.getFails
    ensures var s := SysStep(su, EMPTY, StepRun(w));
            Watches(s, TriggerKey(su.cfg, w.api), FRESH, w.stampedAt) && s.ctl.clock == w.checkedAt
  {
    var a := OperatorAnswers(su.cfg, NoStatus, w, map[]);
    TriggerReturnsHandle(su.cfg, w.api, map[]);
    var st, r := Adopt(FRESH_STATE, a.trigger.value, w.stampedAt), PollResult(FRESH, w.api);
    FirstRunSettles(su, w, a, st, r);
    RunOnStore(su, NoStatus, w, map[]);
  }

  lemma {:induction false} Finish(su: Setup, s: Sys, key: Key, triggeredAt: int)
    requires Watches(s, key, FRESH, triggeredAt)
    ensures var s' := SysStep(su, s, Env(Update(key, DONE)));
            s' == s.(store := map[key := DONE]) && Watches(s', key, DONE, triggeredAt)
  {}

  /** Triggered by a first Run and then finished by the operator. */
  lemma {:induction false} FinishedRun(su: Setup, w: World) returns (events: seq<SysEvent>)
    requires CanStart(su, w) && !w.api.getFails
    ensures IsSysRun(su, map[], events) && |events| == 2
    ensures var s := SysAfter(su, map[], events);
            Watches(s, TriggerKey(su.cfg, w.api), DONE, w.stampedAt) && s.ctl.clock == w.checkedAt
  {
    var key := TriggerKey(su.cfg, w.api);
    var first, env := StepRun(w), Env(Update(key, DONE));
    FirstRun(su, w);
    OneMore(su, map[], [], first);
    assert [] + [first] == [first];
    Finish(su, SysAfter(su, map[], [first]), key, w.stampedAt);
    OneMore(su, map[], [first], env);
    events := [first] + [env];
  }

  // ---------- A run that passes ----------

  ghost predicate EndedClean(s: Sys) {
    s.ctl.phase == PhaseSuccessful && s.ctl.dropped == [] && s.store == map[]
  }

  lemma {:induction false} LastRun(su: Setup, s: Sys, w: World, key: Key, triggeredAt: int)
    requires Watches(s, key, DONE, triggeredAt)
    requires !w.api.getFails && !w.api.listFails && !w.api.deleteFails
    requires !Late(su.timeout, s.ctl.status.state, w.checkedAt)
    ensures EndedClean(SysStep(su, s, StepRun(w)))
  {
    DonePassed();
    RunOnStore(su, s.ctl.status, w, s.store);
    assert s.store - {key} == map[];
  }

  /** On an empty cluster, with a valid configuration, a run is triggered, finishes with a
      passing pod, is reported as successful, and is gone. */
  lemma {:induction false} APassingRun(su: Setup, w: World, w': World) returns (events: seq<SysEvent>)
    requires CanStart(su, w) && !w.api.getFails
    requires !w'.api.getFails && !w'.api.listFails && !w'.api.deleteFails
    requires w.checkedAt <= w'.stampedAt <= w'.checkedAt
    requires w'.checkedAt - w.stampedAt / SECOND * SECOND <= su.timeout
    ensures IsSysRun(su, map[], events) && |events| == 3 && EndedClean(SysAfter(su, map[], events))
  {
    var front := FinishedRun(su, w);
    LastRun(su, SysAfter(su, map[], front), w', TriggerKey(su.cfg, w.api), w.stampedAt);
    OneMore(su, map[], front, StepRun(w'));
    events := front + [StepRun(w')];
  }

  // ---------- A run that takes a verdict back ----------

  /** A Run of a stored run that is in time and reads its resource. */
  lemma {:induction false} PollInTime(su: Setup, s: Sys, w: World, key: Key)
    requires HasHandle(s.ctl.status) && DecodeRunID(s.ctl.status.state.runID) == Success(key) && key in s.store
    requires s.ctl.status.state.triggeredAt.Seconds? && !Late(su.timeout, s.ctl.status.state, w.checkedAt)
    requires !w.api.getFails
    ensures var s', v := SysStep(su, s, StepRun(w)), StateOf(s.store[key], w.api.listFails);
            && Verdicts(s'.ctl.calls) == Verdicts(s.ctl.calls) + [v]
            && (w.api.deleteFails ==> s'.store == s.store)
            && HasHandle(s'.ctl.status) && s'.ctl.status.state.runID == s.ctl.status.state.runID
            && s'.ctl.status.state.triggeredAt == s.ctl.status.state.triggeredAt && s'.ctl.clock == w.checkedAt
  {
    var a := OperatorAnswers(su.cfg, s.ctl.status, w, s.store);
    var st, r := s.ctl.status.state, PollResult(s.store[key], w.api);
    assert RunStep(su.cfg, su.timeout, s.ctl.status, a) == Settled(st, r);
    SettledLog(st, r);
    SettledStore(st, r, w.api.deleteFails, s.store);
    LogsConcat(s.ctl.calls, Settled(st, r).calls);
  }

  /** The pods of a finished, passing run cannot be listed once, and the delete fails: the run is
      reported as Errored, and as Passed by the next Run. */
  lemma {:induction false} ATakenBackRun(su: Setup, w: World, w1: World, w2: World) returns (events: seq<SysEvent>)
    requires CanStart(su, w) && !w.api.getFails
    requires !w1.api.getFails && w1.api.listFails && w1.api.deleteFails && !w2.api.getFails && !w2.api.listFails
    requires w.checkedAt <= w1.stampedAt <= w1.checkedAt <= w2.stampedAt <= w2.checkedAt
    requires w2.checkedAt - w.stampedAt / SECOND * SECOND <= su.timeout
    ensures IsSysRun(su, map[], events) && |events| == 4
    ensures exists vs :: Verdicts(SysAfter(su, map[], events).ctl.calls) == vs + [Errored] + [Passed]
  {
    var key := TriggerKey(su.cfg, w.api);
    var e1, e2 := StepRun(w1), StepRun(w2);
    var front := FinishedRun(su, w);
    var s := SysAfter(su, map[], front);
    DonePassed();
    PollInTime(su, s, w1, key);
    OneMore(su, map[], front, e1);
    PollInTime(su, SysStep(su, s, e1), w2, key);
    OneMore(su, map[], front + [e1], e2);
    events := front + [e1] + [e2];
  }

  // ---------- A run that leaks ----------

  lemma {:induction false} FirstRunLeaks(su: Setup, w: World)
    requires CanStart(su, w) && w.api.getFails
    ensures var key := TriggerKey(su.cfg, w.api);
            var s := SysStep(su, EMPTY, StepRun(w));
            && s.store == map[key := FRESH] && s.shadow == map[] && s.ctl.status.NoStatus?
            && s.ctl.clock == w.checkedAt && DropGuard(su, EMPTY, w)
  {
    TriggerReturnsHandle(su.cfg, w.api, map[]);
    RunsKeepBalance(su, map[], []);
    assert SysAfter(su, map[], []) == EMPTY;
    FailedFirstPollLeaksResource(su, EMPTY, w);
  }

  /** A Run that triggers and is late already. */
  lemma {:induction false} LateRun(su: Setup, s: Sys, w: World)
    requires !su.PollOnly() && s.ctl.status.NoStatus? && TriggerReply(su.cfg, w.api, s.store).Success?
    requires w.checkedAt - w.stampedAt / SECOND * SECOND > su.timeout && !w.api.deleteFails
    ensures var s' := SysStep(su, s, StepRun(w));
            s'.store == s.store && FinalOf(s'.ctl.status) == TimedOut
  {
    var key := TriggerKey(su.cfg, w.api);
    TriggerReturnsHandle(su.cfg, w.api, s.store);
    RunOnStore(su, s.ctl.status, w, s.store);
    assert s.store[key := FRESH] - {key} == s.store;
  }

  /** The first poll after a successful trigger fails, and the next Run triggers again and times
      out: the step is over, every delete worked, nobody interfered, and the first resource stays. */
  lemma {:induction false} ALeakingRun(su: Setup, w: World, w': World) returns (events: seq<SysEvent>)
    requires CanStart(su, w) && w.api.getFails && !w.api.deleteFails && !w'.api.deleteFails
    requires WellFormed(TriggerKey(su.cfg, w'.api)) && w'.api.scriptReadable && !w'.api.createFails
    requires TriggerKey(su.cfg, w'.api) != TriggerKey(su.cfg, w.api)
    requires w.checkedAt <= w'.stampedAt <= w'.checkedAt
    requires w'.checkedAt - w'.stampedAt / SECOND * SECOND > su.timeout
    ensures IsSysRun(su, map[], events) && |events| == 2 && forall e :: e in events ==> DeletesWork(e) && !e.Env?
    ensures var s := SysAfter(su, map[], events);
            FinalOf(s.ctl.status) == TimedOut && s.store == map[TriggerKey(su.cfg, w.api) := FRESH]
  {
    var e, e' := StepRun(w), StepRun(w');
    FirstRunLeaks(su, w);
    OneMore(su, map[], [], e);
    assert [] + [e] == [e];
    LateRun(su, SysStep(su, EMPTY, e), w');
    OneMore(su, map[], [e], e');
    events := [e] + [e'];
  }
}
