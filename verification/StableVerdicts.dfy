/** The verdicts of whole runs on the k6-operator backend: there is at most one when deletes
    work, and otherwise they only rise unless a failed pod listing is believed and corrected. */
module StableVerdicts {
  import opened Wrappers
  import opened Provider
  import opened RunID
  import opened ExitCode
  import opened Operator
  import opened Step
  import opened Controller
  import opened Ledger
  import opened Conservation

  // ---------- One verdict ----------

  /** All polls but the last said Running, and a reported final status is what the last said. */
  ghost predicate JudgedOnce(vs: seq<RunState>, f: FinalStatus)
  {
    && (forall k :: 0 <= k < |vs| - 1 ==> vs[k] == Running)
    && (vs != [] && vs[|vs| - 1] != Running ==> f != NoFinal)
    && (f.Reported? ==> vs != [] && vs[|vs| - 1] == f.state != Running)
  }

  /** Nothing, then one verdict, then TimedOut: each stays until the next. */
  predicate FinalOnce(f: FinalStatus, g: FinalStatus) {
    f == g || f == NoFinal || g == TimedOut
  }

  /** A poll that answers finds the run's resource, so nothing was reported before. */
  lemma {:induction false} PollComesFirst(su: Setup, s: Sys, w: World)
    requires Balanced(su, s) && Released(s) && !su.PollOnly()
    requires Handled(su.cfg, s.ctl.status, OperatorAnswers(su.cfg, s.ctl.status, w, s.store)).Some?
    ensures var a := OperatorAnswers(su.cfg, s.ctl.status, w, s.store);
            && (a.poll.Success? ==> FinalOf(s.ctl.status) == NoFinal && a.poll.value.state != Aborted)
            && (FinalOf(s.ctl.status) != NoFinal ==> a.poll == Failure(GetFailed))
  {
    if s.ctl.status.Stored? {
      var key := DecodeRunID(s.ctl.status.state.runID).value;
      if key in s.store {
        NeverAborted(s.store[key], w.api.listFails);
      }
    } else {
      TriggerReturnsHandle(su.cfg, w.api, s.store);
    }
  }

  /** Verdicts and final status after a Run, from what it left behind alone. */
  lemma {:induction false} JudgedAfter(
    vs: seq<RunState>, status: Status, st: StepState, o: Outcome, timeout: int, a: Answers)
    requires JudgedOnce(vs, FinalOf(status)) && Leaves(o, st, timeout, a) && st.finalStatus == FinalOf(status)
    requires Polled(o) ==> a.poll.Success? && FinalOf(status) == NoFinal
    ensures var f' := FinalOf(if o.err.Some? then status else o.result.status);
            && JudgedOnce(vs + if Polled(o) then [a.poll.value.state] else [], f')
            && FinalOnce(FinalOf(status), f')
  {
    assert vs + [] == vs;
  }

  lemma {:induction false} RunJudgesOnce(su: Setup, s: Sys, w: World)
    requires Balanced(su, s) && Released(s) && !su.PollOnly()
    requires JudgedOnce(Verdicts(s.ctl.calls), FinalOf(s.ctl.status))
    ensures var s' := SysStep(su, s, StepRun(w));
            && JudgedOnce(Verdicts(s'.ctl.calls), FinalOf(s'.ctl.status))
            && FinalOnce(FinalOf(s.ctl.status), FinalOf(s'.ctl.status))
  {
    var a := OperatorAnswers(su.cfg, s.ctl.status, w, s.store);
    var o := RunStep(su.cfg, su.timeout, s.ctl.status, a);
    LogsConcat(s.ctl.calls, o.calls);
    if Handled(su.cfg, s.ctl.status, a).Some? {
      RunLog(su.cfg, su.timeout, s.ctl.status, a);
      PollComesFirst(su, s, w);
      JudgedAfter(Verdicts(s.ctl.calls), s.ctl.status, Handled(su.cfg, s.ctl.status, a).value, o, su.timeout, a);
    } else {
      UnhandledLog(su.cfg, su.timeout, s.ctl.status, a);
      assert Verdicts(s.ctl.calls) + [] == Verdicts(s.ctl.calls);
    }
  }

  lemma {:induction false} StepJudgesOnce(su: Setup, s: Sys, e: SysEvent)
    requires Balanced(su, s) && Released(s) && !su.PollOnly()
    requires JudgedOnce(Verdicts(s.ctl.calls), FinalOf(s.ctl.status))
    ensures var s' := SysStep(su, s, e);
            && JudgedOnce(Verdicts(s'.ctl.calls), FinalOf(s'.ctl.status))
            && FinalOnce(FinalOf(s.ctl.status), FinalOf(s'.ctl.status))
  {
    match e
    case StepRun(w) => RunJudgesOnce(su, s, w);
    case StepStop(_) =>
      if HasHandle(s.ctl.status) {
        StopLog(s.ctl, s.ctl.status.state.runID);
      }
    case Env(_) =>
  }

  /** When deletes work, a whole run reports at most one verdict, even when a failed pod listing
      produced it, and the stored final status goes from nothing to that verdict to TimedOut:
      the first verdict removes the resource that another one would have to be read from. */
  lemma {:induction false} OneVerdict(su: Setup, init: Store, events: seq<SysEvent>, n: nat)
    requires IsSysRun(su, init, events) && !su.PollOnly() && n <= |events|
    requires forall e :: e in events ==> DeletesWork(e)
    ensures var c := SysAfter(su, init, events).ctl;
            && JudgedOnce(Verdicts(c.calls), FinalOf(c.status))
            && FinalOnce(FinalOf(SysAfter(su, init, events[..n]).ctl.status), FinalOf(c.status))
    decreases |events|
  {
    if events == [] {
      assert events[..n] == events;
    } else {
      var front := events[..|events| - 1];
      var m := if n < |events| then n else |front|;
      assert front[..m] == events[..m];
      OneVerdict(su, init, front, m);
      RunsKeepBalance(su, init, front);
      RunsRelease(su, init, front);
      StepJudgesOnce(su, SysAfter(su, init, front), events[|events| - 1]);
      if n == |events| {
        assert events[..n] == events;
      }
    }
  }

  /** A Run after a stored verdict never polls successfully: in time it fails because the
      resource is gone, later it reports the timeout. */
  lemma {:induction false} ReplayAfterVerdict(su: Setup, init: Store, events: seq<SysEvent>, w: World)
    requires IsSysRun(su, init, events) && !su.PollOnly()
    requires forall e :: e in events ==> DeletesWork(e)
    requires FinalOf(SysAfter(su, init, events).ctl.status).Reported?
    ensures var s := SysAfter(su, init, events);
            var st := s.ctl.status.state;
            var o := RunStep(su.cfg, su.timeout, s.ctl.status, OperatorAnswers(su.cfg, s.ctl.status, w, s.store));
            if Late(su.timeout, st, w.checkedAt) then o.err == None && FinalOf(o.result.status) == TimedOut
            else o.err == Some(GetFailed) && o.calls == [GetRunResult(st.runID, Failure(GetFailed))]
  {
    RunsKeepBalance(su, init, events);
    RunsRelease(su, init, events);
    PollComesFirst(su, SysAfter(su, init, events), w);
  }

  // ---------- Verdicts that are taken back ----------

  /** Finished, with pods, none of which is broken before all that still runs. */
  ghost predicate Unbroken(cr: CustomResource) {
    cr.stage == "finished" && cr.pods != [] && !BrokenFirst(cr.pods)
  }

  /** The run a Run asks about, if it triggers none: the stored or the configured one. */
  function WatchedState(su: Setup, s: Sys, w: World): StepState
  {
    if HasHandle(s.ctl.status) then s.ctl.status.state
    else Adopt(FRESH_STATE, su.cfg.testRunID, w.stampedAt)
  }

  /** The resource that a Run reads: in time, stored, and the read goes through. */
  ghost function ReadBy(su: Setup, s: Sys, w: World): Option<CustomResource>
  {
    var st := WatchedState(su, s, w);
    var key := DecodeRunID(st.runID);
    if key.Success? && key.value in s.store && !w.api.getFails && !Late(su.timeout, st, w.checkedAt)
    then Some(s.store[key.value]) else None
  }

  /** The Run reads a finished resource and cannot list its pods. */
  ghost predicate Blind(su: Setup, s: Sys, w: World) {
    ReadBy(su, s, w).Some? && ReadBy(su, s, w).value.stage == "finished" && w.api.listFails
  }

  /** The Run reads an unbroken resource, pods and all. */
  ghost predicate Sighted(su: Setup, s: Sys, w: World) {
    ReadBy(su, s, w).Some? && Unbroken(ReadBy(su, s, w).value) && !w.api.listFails
  }

  ghost predicate BlindAt(su: Setup, init: Store, events: seq<SysEvent>, n: nat) {
    n < |events| && events[n].StepRun? && Blind(su, SysAfter(su, init, events[..n]), events[n].w)
  }

  ghost predicate SightedAt(su: Setup, init: Store, events: seq<SysEvent>, n: nat) {
    n < |events| && events[n].StepRun? && Sighted(su, SysAfter(su, init, events[..n]), events[n].w)
  }

  /** Positions of two kinds, one after the other. */
  ghost predicate InOrder(p: nat -> bool, q: nat -> bool) {
    exists i: nat, j: nat :: i < j && p(i) && q(j)
  }

  ghost predicate Occurs(p: nat -> bool) {
    exists i: nat :: p(i)
  }

  ghost predicate SomeBlind(su: Setup, init: Store, events: seq<SysEvent>) {
    Occurs((n: nat) => BlindAt(su, init, events, n))
  }

  /** A finished run is read blindly, and unbroken later. */
  ghost predicate SightedAfterBlind(su: Setup, init: Store, events: seq<SysEvent>) {
    InOrder((n: nat) => BlindAt(su, init, events, n), (n: nat) => SightedAt(su, init, events, n))
  }

  lemma {:induction false} SightedAfterBlindIs(su: Setup, init: Store, events: seq<SysEvent>)
    ensures SightedAfterBlind(su, init, events) <==>
            exists i: nat, j: nat :: i < j && BlindAt(su, init, events, i) && SightedAt(su, init, events, j)
  {
    var p, q := (n: nat) => BlindAt(su, init, events, n), (n: nat) => SightedAt(su, init, events, n);
    assert SightedAfterBlind(su, init, events) == InOrder(p, q);
    if i: nat, j: nat :| i < j && BlindAt(su, init, events, i) && SightedAt(su, init, events, j) {
      assert p(i) && q(j);
    }
    if i: nat, j: nat :| i < j && p(i) && q(j) {
      assert BlindAt(su, init, events, i) && SightedAt(su, init, events, j);
    }
  }

  lemma {:induction false} ReadsAgree(su: Setup, init: Store, events: seq<SysEvent>)
    requires events != []
    ensures forall n: nat :: n < |events| - 1 ==>
              BlindAt(su, init, events, n) == BlindAt(su, init, events[..|events| - 1], n)
    ensures forall n: nat :: n < |events| - 1 ==>
              SightedAt(su, init, events, n) == SightedAt(su, init, events[..|events| - 1], n)
  {
    forall n: nat | n < |events| - 1
      ensures BlindAt(su, init, events, n) == BlindAt(su, init, events[..|events| - 1], n)
      ensures SightedAt(su, init, events, n) == SightedAt(su, init, events[..|events| - 1], n)
    {
      assert events[..|events| - 1][..n] == events[..n];
    }
  }

  /** Both notions when one more position is looked at. */
  lemma {:induction false} OneMorePosition(p: nat -> bool, q: nat -> bool, p': nat -> bool, q': nat -> bool, last: nat)
    requires forall n: nat :: n < last ==> p(n) == p'(n) && q(n) == q'(n)
    requires forall n: nat :: n >= last ==> !p(n) && !q(n)
    requires forall n: nat :: n > last ==> !p'(n) && !q'(n)
    ensures Occurs(p') <==> Occurs(p) || p'(last)
    ensures InOrder(p', q') <==> InOrder(p, q) || (Occurs(p) && q'(last))
  {
    if i: nat :| p(i) {
      assert p'(i);
    }
    if i: nat :| p'(i) && i != last {
      assert p(i);
    }
    if i: nat, j: nat :| i < j && p(i) && q(j) {
      assert p'(i) && q'(j);
    }
    if i: nat, j: nat :| i < j && p'(i) && q'(j) {
      assert p(i);
      assert j != last ==> q(j);
    }
  }

  lemma {:induction false} ReadsStep(su: Setup, init: Store, events: seq<SysEvent>)
    requires events != []
    ensures var front, last := events[..|events| - 1], |events| - 1;
            && (SomeBlind(su, init, events) <==> SomeBlind(su, init, front) || BlindAt(su, init, events, last))
            && (SightedAfterBlind(su, init, events) <==>
                SightedAfterBlind(su, init, front) || (SomeBlind(su, init, front) && SightedAt(su, init, events, last)))
  {
    var front := events[..|events| - 1];
    ReadsAgree(su, init, events);
    OneMorePosition((n: nat) => BlindAt(su, init, front, n), (n: nat) => SightedAt(su, init, front, n),
                    (n: nat) => BlindAt(su, init, events, n), (n: nat) => SightedAt(su, init, events, n), |front|);
  }

  // ---------- What a Run says ----------

  lemma {:induction false} RunKeepsInvOnStore(su: Setup, s: Sys, w: World)
    requires Inv(su, s.ctl) && SysAdmissible(s, StepRun(w))
    ensures Inv(su, SysStep(su, s, StepRun(w)).ctl)
  {
    OperatorAnswersAreAdmissible(su, s, w);
    StepKeepsInv(su, s.ctl, RunCall(OperatorAnswers(su.cfg, s.ctl.status, w, s.store)));
  }

  lemma {:induction false} UnhandledReads(su: Setup, s: Sys, w: World)
    requires Inv(su, s.ctl)
    requires Handled(su.cfg, s.ctl.status, OperatorAnswers(su.cfg, s.ctl.status, w, s.store)).None?
    ensures ReadBy(su, s, w).None?
  {
    assert DecodeRunID("").Failure?;
  }

  /** A poll that answers shows what the Run reads, or the resource it has just created. */
  lemma {:induction false} PollIsRead(su: Setup, s: Sys, w: World)
    requires Inv(su, s.ctl)
    requires Handled(su.cfg, s.ctl.status, OperatorAnswers(su.cfg, s.ctl.status, w, s.store)).Some?
    ensures var a := OperatorAnswers(su.cfg, s.ctl.status, w, s.store);
            var key := DecodeRunID(Handled(su.cfg, s.ctl.status, a).value.runID);
            var watching := Watching(su, s.ctl.status, w, s.store);
            if Polled(RunStep(su.cfg, su.timeout, s.ctl.status, a)) && key.Success? && key.value in watching then
              && (Blind(su, s, w) <==> watching[key.value].stage == "finished" && w.api.listFails)
              && (Sighted(su, s, w) <==> Unbroken(watching[key.value]) && !w.api.listFails)
            else ReadBy(su, s, w).None?
  {
    assert DecodeRunID("").Failure?;
    if !s.ctl.status.Stored? && !su.PollOnly() {
      TriggerReturnsHandle(su.cfg, w.api, s.store);
    }
  }

  // ---------- Rising verdicts ----------

  /** What others do to the run's own resource only moves it on. */
  ghost predicate Advancing(s: Sys, e: SysEvent)
  {
    e.Env? && HasHandle(s.ctl.status) ==>
      var key := DecodeRunID(s.ctl.status.state.runID);
      && (key.Success? && e.edit.Put? ==> e.edit.key != key.value)
      && (key.Success? && e.edit.Update? && e.edit.key == key.value && key.value in s.store ==>
          ResourceAdvances(s.store[key.value], e.edit.cr))
  }

  ghost predicate AdvancingThroughout(su: Setup, init: Store, events: seq<SysEvent>)
  {
    events == [] ||
    (var front := events[..|events| - 1];
     AdvancingThroughout(su, init, front) && Advancing(SysAfter(su, init, front), events[|events| - 1]))
  }

  /** What the resource shows, over what was said: anything that may follow it, or once a
      finished run was read blindly, that it is finished. */
  ghost predicate ShownOver(vs: seq<RunState>, cr: CustomResource, blind: bool) {
    if blind then cr.stage == "finished" else forall v :: v in vs ==> MayBecome(v, StateOf(cr, false))
  }

  ghost predicate SaidSoFar(vs: seq<RunState>, blind: bool, taken: bool) {
    Aborted !in vs && (Rising(vs) <==> !taken) && (taken ==> blind) && (blind ==> Errored in vs)
  }

  ghost predicate ShownIn(vs: seq<RunState>, runID: string, store: Store, blind: bool)
  {
    var key := DecodeRunID(runID);
    key.Success? && key.value in store ==> ShownOver(vs, store[key.value], blind)
  }

  ghost predicate Tracked(su: Setup, s: Sys, blind: bool, taken: bool)
  {
    var vs := Verdicts(s.ctl.calls);
    && Inv(su, s.ctl) && SaidSoFar(vs, blind, taken)
    && (if HasHandle(s.ctl.status) then ShownIn(vs, s.ctl.status.state.runID, s.store, blind) else vs == [])
  }

  lemma {:induction false} RisingAppend(vs: seq<RunState>, v: RunState)
    requires Rising(vs) && forall u :: u in vs ==> MayBecome(u, v)
    ensures Rising(vs + [v])
  {
    var ws := vs + [v];
    forall i, j | 0 <= i < j < |ws| ensures MayBecome(ws[i], ws[j]) {
      if j == |vs| {
        assert ws[i] == vs[i] && vs[i] in vs;
      }
    }
  }

  /** One more poll: it takes something back exactly when it sees an unbroken run after a
      blind reading. */
  lemma {:induction false} OneMorePoll(vs: seq<RunState>, cr: CustomResource, listFails: bool, blind: bool, taken: bool)
    requires SaidSoFar(vs, blind, taken) && ShownOver(vs, cr, blind)
    ensures var vs' := vs + [StateOf(cr, listFails)];
            var blind' := blind || (cr.stage == "finished" && listFails);
            var taken' := taken || (blind && Unbroken(cr) && !listFails);
            SaidSoFar(vs', blind', taken') && ShownOver(vs', cr, blind')
  {
    var v := StateOf(cr, listFails);
    var vs' := vs + [v];
    NeverAborted(cr, listFails);
    ErroredIff(cr.pods);
    if Rising(vs') {
      RisingPrefix(vs, vs');
    }
    if v == Errored || !blind {
      forall u | !taken && u in vs ensures MayBecome(u, v) {
        assert u in {Running, Passed, Failed, Errored};
      }
      if !taken {
        RisingAppend(vs, v);
      }
    } else {
      var i :| 0 <= i < |vs| && vs[i] == Errored;
      assert vs'[i] == Errored && vs'[|vs|] == v;
    }
  }

  lemma {:induction false} WatchedIsTracked(
    vs: seq<RunState>, o: Outcome, st: StepState, a: Answers, api: Api, watching: Store, store': Store,
    blind: bool, taken: bool)
    requires SaidSoFar(vs, blind, taken) && ShownIn(vs, st.runID, watching, blind)
    requires a.poll == PollReply(st.runID, api, watching) && PollAnswered(o, a)
    requires store' == if Deletes(o, st, a) then AfterDelete(st.runID, api.deleteFails, watching) else watching
    ensures !Polled(o) ==> ShownIn(vs, st.runID, store', blind)
    ensures Polled(o) ==>
              var key := DecodeRunID(st.runID);
              && key.Success? && key.value in watching
              && var cr := watching[key.value];
                 var vs' := vs + [a.poll.value.state];
                 var blind' := blind || (cr.stage == "finished" && api.listFails);
                 var taken' := taken || (blind && Unbroken(cr) && !api.listFails);
                 SaidSoFar(vs', blind', taken') && ShownIn(vs', st.runID, store', blind')
  {
    if Polled(o) {
      OneMorePoll(vs, watching[DecodeRunID(st.runID).value], api.listFails, blind, taken);
    }
  }

  lemma {:induction false} WatchingIsTracked(su: Setup, s: Sys, w: World, blind: bool, taken: bool)
    requires Tracked(su, s, blind, taken)
    requires Handled(su.cfg, s.ctl.status, OperatorAnswers(su.cfg, s.ctl.status, w, s.store)).Some?
    ensures var st := Handled(su.cfg, s.ctl.status, OperatorAnswers(su.cfg, s.ctl.status, w, s.store)).value;
            ShownIn(Verdicts(s.ctl.calls), st.runID, Watching(su, s.ctl.status, w, s.store), blind)
  {
    if !s.ctl.status.Stored? {
      assert Verdicts(s.ctl.calls) == [];
    }
  }

  lemma {:induction false} UnhandledIsTracked(su: Setup, s: Sys, w: World, blind: bool, taken: bool)
    requires Tracked(su, s, blind, taken) && SysAdmissible(s, StepRun(w))
    requires Handled(su.cfg, s.ctl.status, OperatorAnswers(su.cfg, s.ctl.status, w, s.store)).None?
    ensures Tracked(su, SysStep(su, s, StepRun(w)), blind || Blind(su, s, w), taken || (blind && Sighted(su, s, w)))
  {
    var a := OperatorAnswers(su.cfg, s.ctl.status, w, s.store);
    RunKeepsInvOnStore(su, s, w);
    UnhandledReads(su, s, w);
    UnhandledLog(su.cfg, su.timeout, s.ctl.status, a);
    RunOnStore(su, s.ctl.status, w, s.store);
    LogsConcat(s.ctl.calls, RunStep(su.cfg, su.timeout, s.ctl.status, a).calls);
    assert Verdicts(s.ctl.calls) + [] == Verdicts(s.ctl.calls);
  }

  /** What a Run that has something to watch adds to the log, and the store it leaves. */
  lemma {:induction false} WatchedRun(su: Setup, s: Sys, w: World)
    requires Handled(su.cfg, s.ctl.status, OperatorAnswers(su.cfg, s.ctl.status, w, s.store)).Some?
    ensures var a := OperatorAnswers(su.cfg, s.ctl.status, w, s.store);
            var o := RunStep(su.cfg, su.timeout, s.ctl.status, a);
            var st := Handled(su.cfg, s.ctl.status, a).value;
            var watching, s' := Watching(su, s.ctl.status, w, s.store), SysStep(su, s, StepRun(w));
            && PollAnswered(o, a) && a.poll == PollReply(st.runID, w.api, watching)
            && s'.store == (if Deletes(o, st, a) then AfterDelete(st.runID, w.api.deleteFails, watching) else watching)
            && Verdicts(s'.ctl.calls) == Verdicts(s.ctl.calls) + if Polled(o) then [a.poll.value.state] else []
  {
    var a := OperatorAnswers(su.cfg, s.ctl.status, w, s.store);
    RunLog(su.cfg, su.timeout, s.ctl.status, a);
    RunOnStore(su, s.ctl.status, w, s.store);
    LogsConcat(s.ctl.calls, RunStep(su.cfg, su.timeout, s.ctl.status, a).calls);
  }

  /** The log and the store after a Run that had something to watch. */
  lemma {:induction false} HandledIsTracked(su: Setup, s: Sys, w: World, blind: bool, taken: bool)
    requires Tracked(su, s, blind, taken)
    requires Handled(su.cfg, s.ctl.status, OperatorAnswers(su.cfg, s.ctl.status, w, s.store)).Some?
    ensures var st := Handled(su.cfg, s.ctl.status, OperatorAnswers(su.cfg, s.ctl.status, w, s.store)).value;
            var s' := SysStep(su, s, StepRun(w));
            var vs' := Verdicts(s'.ctl.calls);
            && SaidSoFar(vs', blind || Blind(su, s, w), taken || (blind && Sighted(su, s, w)))
            && ShownIn(vs', st.runID, s'.store, blind || Blind(su, s, w))
  {
    var a := OperatorAnswers(su.cfg, s.ctl.status, w, s.store);
    var o := RunStep(su.cfg, su.timeout, s.ctl.status, a);
    var st := Handled(su.cfg, s.ctl.status, a).value;
    var vs := Verdicts(s.ctl.calls);
    var watching, s' := Watching(su, s.ctl.status, w, s.store), SysStep(su, s, StepRun(w));
    WatchedRun(su, s, w);
    PollIsRead(su, s, w);
    WatchingIsTracked(su, s, w, blind, taken);
    WatchedIsTracked(vs, o, st, a, w.api, watching, s'.store, blind, taken);
    assert vs + [] == vs;
  }

  lemma {:induction false} HandleAfter(su: Setup, s: Sys, w: World)
    requires Inv(su, s.ctl)
    requires Handled(su.cfg, s.ctl.status, OperatorAnswers(su.cfg, s.ctl.status, w, s.store)).Some?
    ensures var st := Handled(su.cfg, s.ctl.status, OperatorAnswers(su.cfg, s.ctl.status, w, s.store)).value;
            var s' := SysStep(su, s, StepRun(w));
            && (HasHandle(s'.ctl.status) ==> s'.ctl.status.state.runID == st.runID)
            && (!HasHandle(s'.ctl.status) ==>
                Verdicts(s'.ctl.calls) == Verdicts(s.ctl.calls) && !HasHandle(s.ctl.status))
  {
    var a := OperatorAnswers(su.cfg, s.ctl.status, w, s.store);
    var o := RunStep(su.cfg, su.timeout, s.ctl.status, a);
    RunLog(su.cfg, su.timeout, s.ctl.status, a);
    WatchedRun(su, s, w);
    assert Verdicts(s.ctl.calls) + [] == Verdicts(s.ctl.calls);
  }

  lemma {:induction false} RunKeepsTracked(su: Setup, s: Sys, w: World, blind: bool, taken: bool)
    requires Tracked(su, s, blind, taken) && SysAdmissible(s, StepRun(w))
    ensures Tracked(su, SysStep(su, s, StepRun(w)), blind || Blind(su, s, w), taken || (blind && Sighted(su, s, w)))
  {
    RunKeepsInvOnStore(su, s, w);
    if Handled(su.cfg, s.ctl.status, OperatorAnswers(su.cfg, s.ctl.status, w, s.store)).Some? {
      HandledIsTracked(su, s, w, blind, taken);
      HandleAfter(su, s, w);
    } else {
      UnhandledIsTracked(su, s, w, blind, taken);
    }
  }

  lemma {:induction false} EditKeepsTracked(su: Setup, s: Sys, edit: Edit, blind: bool, taken: bool)
    requires Tracked(su, s, blind, taken) && Advancing(s, Env(edit))
    ensures Tracked(su, SysStep(su, s, Env(edit)), blind, taken)
  {
    var vs := Verdicts(s.ctl.calls);
    if HasHandle(s.ctl.status) && DecodeRunID(s.ctl.status.state.runID).Success? {
      var key := DecodeRunID(s.ctl.status.state.runID).value;
      if edit.Update? && edit.key == key && key in s.store && !blind {
        ResourceVerdictOnlyMovesUp(s.store[key], edit.cr);
        forall v | v in vs ensures MayBecome(v, StateOf(edit.cr, false)) {
          MayBecomeTransitive(v, StateOf(s.store[key], false), StateOf(edit.cr, false));
        }
      }
    }
  }

  lemma {:induction false} StopKeepsTracked(su: Setup, s: Sys, fails: bool, blind: bool, taken: bool)
    requires Tracked(su, s, blind, taken)
    ensures Tracked(su, SysStep(su, s, StepStop(fails)), blind, taken)
  {
    StepKeepsInv(su, s.ctl, StopCall);
    if HasHandle(s.ctl.status) {
      StopLog(s.ctl, s.ctl.status.state.runID);
    }
  }

  lemma {:induction false} LastStepKeepsTracked(
    su: Setup, init: Store, events: seq<SysEvent>, blind: bool, taken: bool)
    requires events != [] && IsSysRun(su, init, events) && AdvancingThroughout(su, init, events)
    requires Tracked(su, SysAfter(su, init, events[..|events| - 1]), blind, taken)
    ensures var last := |events| - 1;
            Tracked(su, SysAfter(su, init, events), blind || BlindAt(su, init, events, last),
                    taken || (blind && SightedAt(su, init, events, last)))
  {
    var s := SysAfter(su, init, events[..|events| - 1]);
    match events[|events| - 1]
    case StepRun(w) => RunKeepsTracked(su, s, w, blind, taken);
    case StepStop(fails) => StopKeepsTracked(su, s, fails, blind, taken);
    case Env(edit) => EditKeepsTracked(su, s, edit, blind, taken);
  }

  lemma {:induction false} RunsAreTracked(su: Setup, init: Store, events: seq<SysEvent>)
    requires IsSysRun(su, init, events) && AdvancingThroughout(su, init, events)
    ensures Tracked(su, SysAfter(su, init, events), SomeBlind(su, init, events), SightedAfterBlind(su, init, events))
  {
    if events == [] {
      assert Verdicts([]) == [];
    } else {
      var front := events[..|events| - 1];
      RunsAreTracked(su, init, front);
      LastStepKeepsTracked(su, init, events, SomeBlind(su, init, front), SightedAfterBlind(su, init, front));
      ReadsStep(su, init, events);
    }
  }

  /** On the k6-operator backend, while others only move the run's resource on, the verdicts of
      a whole run only move up if and only if no finished run is read without its pods and then
      read unbroken. Deletes may fail or not; the run may be triggered or configured. */
  lemma {:induction false} VerdictsRiseIff(su: Setup, init: Store, events: seq<SysEvent>)
    requires IsSysRun(su, init, events) && AdvancingThroughout(su, init, events)
    ensures Rising(Verdicts(SysAfter(su, init, events).ctl.calls)) <==>
            !exists i: nat, j: nat :: i < j && BlindAt(su, init, events, i) && SightedAt(su, init, events, j)
  {
    RunsAreTracked(su, init, events);
    SightedAfterBlindIs(su, init, events);
  }

  /** Then the stored final status only rises too: nothing, then Passed or Failed, then
      Errored, then TimedOut. */
  lemma {:induction false} OperatorVerdictsOnlyRise(su: Setup, init: Store, events: seq<SysEvent>, n: nat)
    requires IsSysRun(su, init, events) && AdvancingThroughout(su, init, events) && n <= |events|
    requires !exists i: nat, j: nat :: i < j && BlindAt(su, init, events, i) && SightedAt(su, init, events, j)
    ensures FinalMayBecome(FinalOf(SysAfter(su, init, events[..n]).ctl.status),
                           FinalOf(SysAfter(su, init, events).ctl.status))
  {
    VerdictsRiseIff(su, init, events);
    var m := SysPrefixIsPrefix(su, init, events, n);
    FinalStatusOnlyRises(su, SeenEvents(su, init, events), m);
  }
}
