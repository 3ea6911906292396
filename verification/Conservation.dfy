/** What a step leaves in the cluster, read off the calls it made: which of its resources are
    still there, and exactly when the cluster is as if the step had never run. */
module Conservation {
  import opened Wrappers
  import opened Provider
  import opened RunID
  import opened ExitCode
  import opened Operator
  import opened Step
  import opened Controller
  import opened Ledger

  // ---------- What is left, from the calls alone ----------

  predicate DeletesWork(e: SysEvent) {
    match e
    case StepRun(w) => !w.api.deleteFails
    case StepStop(fails) => !fails
    case Env(_) => true
  }

  /** The provider calls made during one event. */
  ghost function CallsOf(su: Setup, s: Sys, e: SysEvent): seq<Call>
  {
    match e
    case StepRun(w) =>
      RunStep(su.cfg, su.timeout, s.ctl.status, OperatorAnswers(su.cfg, s.ctl.status, w, s.store)).calls
    case StepStop(_) => if HasHandle(s.ctl.status) then [StopRun(s.ctl.status.state.runID)] else []
    case Env(_) => []
  }

  predicate Makes(c: Call, key: Key) {
    c.TriggerRun? && c.created.Success? && DecodeRunID(c.created.value) == Success(key)
  }

  /** A StopRun or Cleanup for this resource. */
  predicate Targets(c: Call, key: Key) {
    (c.StopRun? || c.Cleanup?) && DecodeRunID(c.runID) == Success(key)
  }

  ghost predicate MadeBy(su: Setup, s: Sys, e: SysEvent, key: Key) {
    exists c :: c in CallsOf(su, s, e) && Makes(c, key)
  }

  /** The step deleted the resource, and that did not fail, or others removed it. */
  ghost predicate ClearedBy(su: Setup, s: Sys, e: SysEvent, key: Key)
  {
    e == Env(Remove(key)) || (DeletesWork(e) && exists c :: c in CallsOf(su, s, e) && Targets(c, key))
  }

  ghost predicate MadeAt(su: Setup, init: Store, events: seq<SysEvent>, n: nat, key: Key) {
    n < |events| && MadeBy(su, SysAfter(su, init, events[..n]), events[n], key)
  }

  ghost predicate ClearedAt(su: Setup, init: Store, events: seq<SysEvent>, n: nat, key: Key) {
    n < |events| && ClearedBy(su, SysAfter(su, init, events[..n]), events[n], key)
  }

  /** Switched on before the bound, and not switched off then or since. */
  ghost predicate OnBefore(on: nat -> bool, off: nat -> bool, bound: nat) {
    exists n: nat :: n < bound && on(n) && forall m: nat :: n <= m < bound ==> !off(m)
  }

  lemma {:induction false} OnStep(
    on: nat -> bool, off: nat -> bool, on': nat -> bool, off': nat -> bool, last: nat)
    requires forall n: nat :: n < last ==> on(n) == on'(n) && off(n) == off'(n)
    ensures OnBefore(on', off', last + 1) <==> (OnBefore(on, off, last) || on'(last)) && !off'(last)
  {
    if OnBefore(on', off', last + 1) {
      var n: nat :| n < last + 1 && on'(n) && forall m: nat :: n <= m < last + 1 ==> !off'(m);
      assert !off'(last);
    }
    if OnBefore(on, off, last) && !off'(last) {
      var n: nat :| n < last && on(n) && forall m: nat :: n <= m < last ==> !off(m);
      assert on'(n);
    }
  }

  /** The step made the resource, and neither then nor later was it cleared. */
  ghost predicate LeftBehind(su: Setup, init: Store, events: seq<SysEvent>, key: Key)
  {
    OnBefore((n: nat) => MadeAt(su, init, events, n, key), (n: nat) => ClearedAt(su, init, events, n, key), |events|)
  }

  lemma {:induction false} HistoryOfPrefix(su: Setup, init: Store, events: seq<SysEvent>, key: Key, n: nat)
    requires n < |events| - 1
    ensures MadeAt(su, init, events, n, key) == MadeAt(su, init, events[..|events| - 1], n, key)
    ensures ClearedAt(su, init, events, n, key) == ClearedAt(su, init, events[..|events| - 1], n, key)
  {
    assert events[..|events| - 1][..n] == events[..n];
  }

  lemma {:induction false} LeftBehindStep(su: Setup, init: Store, events: seq<SysEvent>, key: Key)
    requires events != []
    ensures var front, last := events[..|events| - 1], |events| - 1;
            LeftBehind(su, init, events, key) <==>
            && (LeftBehind(su, init, front, key) || MadeAt(su, init, events, last, key))
            && !ClearedAt(su, init, events, last, key)
  {
    var front := events[..|events| - 1];
    forall n: nat | n < |front|
      ensures MadeAt(su, init, events, n, key) == MadeAt(su, init, front, n, key)
      ensures ClearedAt(su, init, events, n, key) == ClearedAt(su, init, front, n, key)
    {
      HistoryOfPrefix(su, init, events, key, n);
    }
    OnStep((n: nat) => MadeAt(su, init, front, n, key), (n: nat) => ClearedAt(su, init, front, n, key),
             (n: nat) => MadeAt(su, init, events, n, key), (n: nat) => ClearedAt(su, init, events, n, key), |front|);
  }

  lemma {:induction false} WatchedTargets(timeout: int, st: StepState, a: Answers, key: Key)
    ensures var o := Watched(timeout, st, a.poll, a.checkedAt);
            && ((exists c :: c in o.calls && Targets(c, key)) <==>
                Deletes(o, st, a) && DecodeRunID(st.runID) == Success(key))
            && !exists c :: c in o.calls && Makes(c, key)
  {
    var o := Watched(timeout, st, a.poll, a.checkedAt);
    if Deletes(o, st, a) {
      var last := o.calls[|o.calls| - 1];
      assert last in o.calls && last.runID == st.runID && (last.StopRun? || last.Cleanup?);
    }
  }

  ghost predicate RunDeletes(su: Setup, status: Status, a: Answers, key: Key)
  {
    var handled := Handled(su.cfg, status, a);
    && handled.Some? && Deletes(RunStep(su.cfg, su.timeout, status, a), handled.value, a)
    && DecodeRunID(handled.value.runID) == Success(key)
  }

  /** What one Run makes and deletes, by its calls. */
  lemma {:induction false} RunTargets(su: Setup, status: Status, a: Answers, key: Key)
    ensures var o := RunStep(su.cfg, su.timeout, status, a);
            && ((exists c :: c in o.calls && Makes(c, key)) <==> key in KeysOf(NewRun(su.cfg, status, a)))
            && ((exists c :: c in o.calls && Targets(c, key)) <==> RunDeletes(su, status, a, key))
  {
    var o := RunStep(su.cfg, su.timeout, status, a);
    var handled := Handled(su.cfg, status, a);
    if handled.Some? {
      var watched := Watched(su.timeout, handled.value, a.poll, a.checkedAt);
      WatchedTargets(su.timeout, handled.value, a, key);
      if NewRun(su.cfg, status, a) != [] {
        assert o.calls == [TriggerRun(a.trigger)] + watched.calls;
        assert NewRun(su.cfg, status, a) == [a.trigger.value];
        assert TriggerRun(a.trigger) in o.calls;
      }
    }
  }

  /** Made by the step and still there. */
  ghost predicate Remains(s: Sys, key: Key) {
    key in Created(s.ctl) && key in s.store
  }

  lemma {:induction false} RunCreates(su: Setup, s: Sys, w: World)
    ensures var a := OperatorAnswers(su.cfg, s.ctl.status, w, s.store);
            Created(SysStep(su, s, StepRun(w)).ctl) == Created(s.ctl) + KeysOf(NewRun(su.cfg, s.ctl.status, a))
  {
    var a := OperatorAnswers(su.cfg, s.ctl.status, w, s.store);
    LogsConcat(s.ctl.calls, RunStep(su.cfg, su.timeout, s.ctl.status, a).calls);
    KeysOfConcat(Triggered(s.ctl.calls), NewRun(su.cfg, s.ctl.status, a));
    if Handled(su.cfg, s.ctl.status, a).Some? {
      RunLog(su.cfg, su.timeout, s.ctl.status, a);
    } else {
      UnhandledLog(su.cfg, su.timeout, s.ctl.status, a);
    }
  }

  lemma {:induction false} DeletedKey(deletes: bool, runID: string, fails: bool, store: Store, store': Store, key: Key)
    requires store' == if deletes then AfterDelete(runID, fails, store) else store
    ensures key in store' <==> key in store && !(deletes && !fails && DecodeRunID(runID) == Success(key))
  {}

  lemma {:induction false} WatchingAddsKey(su: Setup, s: Sys, w: World, key: Key)
    ensures var a := OperatorAnswers(su.cfg, s.ctl.status, w, s.store);
            key in Watching(su, s.ctl.status, w, s.store) <==>
            key in s.store || key in KeysOf(NewRun(su.cfg, s.ctl.status, a))
  {
    if TriggerReply(su.cfg, w.api, s.store).Success? {
      TriggerReturnsHandle(su.cfg, w.api, s.store);
      KeysOfOne(TriggerReply(su.cfg, w.api, s.store).value, TriggerKey(su.cfg, w.api));
    }
  }

  lemma {:induction false} RunStoresKey(su: Setup, s: Sys, w: World, key: Key)
    ensures var a := OperatorAnswers(su.cfg, s.ctl.status, w, s.store);
            key in SysStep(su, s, StepRun(w)).store <==>
            && (key in s.store || key in KeysOf(NewRun(su.cfg, s.ctl.status, a)))
            && (w.api.deleteFails || !RunDeletes(su, s.ctl.status, a, key))
  {
    var a := OperatorAnswers(su.cfg, s.ctl.status, w, s.store);
    var o := RunStep(su.cfg, su.timeout, s.ctl.status, a);
    var handled := Handled(su.cfg, s.ctl.status, a);
    RunOnStore(su, s.ctl.status, w, s.store);
    WatchingAddsKey(su, s, w, key);
    if handled.Some? {
      DeletedKey(Deletes(o, handled.value, a), handled.value.runID, w.api.deleteFails,
                 Watching(su, s.ctl.status, w, s.store), SysStep(su, s, StepRun(w)).store, key);
    }
  }

  lemma {:induction false} RunMakesOrClears(su: Setup, s: Sys, w: World, key: Key)
    ensures var a := OperatorAnswers(su.cfg, s.ctl.status, w, s.store);
            && (MadeBy(su, s, StepRun(w), key) <==> key in KeysOf(NewRun(su.cfg, s.ctl.status, a)))
            && (ClearedBy(su, s, StepRun(w), key) <==> !w.api.deleteFails && RunDeletes(su, s.ctl.status, a, key))
  {
    RunTargets(su, s.ctl.status, OperatorAnswers(su.cfg, s.ctl.status, w, s.store), key);
  }

  lemma {:induction false} RunMovesKey(su: Setup, s: Sys, w: World, key: Key)
    ensures var e := StepRun(w);
            Remains(SysStep(su, s, e), key) <==> (Remains(s, key) || MadeBy(su, s, e, key)) && !ClearedBy(su, s, e, key)
  {
    RunMakesOrClears(su, s, w, key);
    RunStoresKey(su, s, w, key);
    RunCreates(su, s, w);
  }

  lemma {:induction false} StopMovesKey(su: Setup, s: Sys, fails: bool, key: Key)
    ensures var e := StepStop(fails);
            Remains(SysStep(su, s, e), key) <==> (Remains(s, key) || MadeBy(su, s, e, key)) && !ClearedBy(su, s, e, key)
  {
    if HasHandle(s.ctl.status) {
      var runID := s.ctl.status.state.runID;
      StopLog(s.ctl, runID);
      DeletedKey(true, runID, fails, s.store, AfterDelete(runID, fails, s.store), key);
      assert StopRun(runID) in CallsOf(su, s, StepStop(fails));
    }
  }

  lemma {:induction false} EditMovesKey(su: Setup, s: Sys, edit: Edit, key: Key)
    requires SysAdmissible(s, Env(edit))
    ensures var e := Env(edit);
            Remains(SysStep(su, s, e), key) <==> (Remains(s, key) || MadeBy(su, s, e, key)) && !ClearedBy(su, s, e, key)
  {
    assert CallsOf(su, s, Env(edit)) == [];
  }

  lemma {:induction false} StepMovesKey(su: Setup, s: Sys, e: SysEvent, key: Key)
    requires SysAdmissible(s, e)
    ensures Remains(SysStep(su, s, e), key) <==> (Remains(s, key) || MadeBy(su, s, e, key)) && !ClearedBy(su, s, e, key)
  {
    match e
    case StepRun(w) => RunMovesKey(su, s, w, key);
    case StepStop(fails) => StopMovesKey(su, s, fails, key);
    case Env(edit) => EditMovesKey(su, s, edit, key);
  }

  lemma {:induction false} LastStepMovesKey(su: Setup, init: Store, events: seq<SysEvent>, key: Key)
    requires events != [] && IsSysRun(su, init, events)
    ensures var front, last := events[..|events| - 1], |events| - 1;
            Remains(SysAfter(su, init, events), key) <==>
            && (Remains(SysAfter(su, init, front), key) || MadeAt(su, init, events, last, key))
            && !ClearedAt(su, init, events, last, key)
  {
    var front, e := events[..|events| - 1], events[|events| - 1];
    StepMovesKey(su, SysAfter(su, init, front), e, key);
  }

  /** A resource the step made is still there if and only if no delete naming it went through
      since, and nobody else removed it. */
  lemma {:induction false} RemainsIff(su: Setup, init: Store, events: seq<SysEvent>, key: Key)
    requires IsSysRun(su, init, events)
    ensures Remains(SysAfter(su, init, events), key) <==> LeftBehind(su, init, events, key)
  {
    if events == [] {
      assert Triggered([]) == [];
    } else {
      RemainsIff(su, init, events[..|events| - 1], key);
      LastStepMovesKey(su, init, events, key);
      LeftBehindStep(su, init, events, key);
    }
  }

  lemma {:induction false} LedgerCloses(store: Store, shadow: Store, own: set<Key>)
    requires store - own == shadow
    ensures store == shadow <==> own !! store.Keys
  {
    if own !! store.Keys {
      assert store - own == store;
    }
  }

  /** Conservation: at every moment of every run in trigger mode, whatever fails and whatever
      others do, the cluster is as if the step had never run if and only if every resource a
      call of the step made was cleared in that call or later. */
  lemma {:induction false} RestoredIff(su: Setup, init: Store, events: seq<SysEvent>)
    requires IsSysRun(su, init, events) && !su.PollOnly()
    ensures var s := SysAfter(su, init, events);
            s.store == s.shadow <==> forall key :: !LeftBehind(su, init, events, key)
  {
    var s := SysAfter(su, init, events);
    RunsKeepBalance(su, init, events);
    LedgerCloses(s.store, s.shadow, Created(s.ctl));
    forall key ensures key in Created(s.ctl) && key in s.store <==> LeftBehind(su, init, events, key) {
      RemainsIff(su, init, events, key);
    }
  }

  // ---------- Dropped first attempts ----------

  /** A Run that loses what it triggers: the trigger succeeds, the first poll fails, and it is
      not late already. */
  ghost predicate DropGuard(su: Setup, s: Sys, w: World)
  {
    && s.ctl.status.NoStatus? && TriggerReply(su.cfg, w.api, s.store).Success? && w.api.getFails
    && w.checkedAt - w.stampedAt / SECOND * SECOND <= su.timeout
  }

  lemma {:induction false} GuardedRunFails(su: Setup, s: Sys, w: World)
    requires !su.PollOnly()
    requires Handled(su.cfg, s.ctl.status, OperatorAnswers(su.cfg, s.ctl.status, w, s.store)).Some?
    ensures var a := OperatorAnswers(su.cfg, s.ctl.status, w, s.store);
            s.ctl.status.NoStatus? ==>
              (RunStep(su.cfg, su.timeout, s.ctl.status, a).err.Some? <==> DropGuard(su, s, w))
  {
    if s.ctl.status.NoStatus? {
      TriggerReturnsHandle(su.cfg, w.api, s.store);
    }
  }

  /** The guard is exact. */
  lemma {:induction false} DroppedIff(su: Setup, s: Sys, w: World)
    requires Balanced(su, s) && SysAdmissible(s, StepRun(w)) && !su.PollOnly()
    ensures SysStep(su, s, StepRun(w)).ctl.dropped
            == s.ctl.dropped + if DropGuard(su, s, w) then [TriggerReply(su.cfg, w.api, s.store).value] else []
  {
    var a := OperatorAnswers(su.cfg, s.ctl.status, w, s.store);
    if Handled(su.cfg, s.ctl.status, a).None? {
      UnhandledLog(su.cfg, su.timeout, s.ctl.status, a);
    } else {
      RunLog(su.cfg, su.timeout, s.ctl.status, a);
      GuardedRunFails(su, s, w);
    }
  }

  /** A Run leaves a resource behind that no status names exactly when it meets the guard. */
  lemma {:induction false} FailedFirstPollLeaksResource(su: Setup, s: Sys, w: World)
    requires Balanced(su, s) && SysAdmissible(s, StepRun(w)) && !su.PollOnly()
    ensures var s' := SysStep(su, s, StepRun(w));
            && (s'.ctl.status.NoStatus? && s'.store != s.store <==> DropGuard(su, s, w))
            && (DropGuard(su, s, w) ==> s'.store == s.store[TriggerKey(su.cfg, w.api) := FRESH]
                                        && TriggerKey(su.cfg, w.api) !in s.store.Keys + s'.shadow.Keys)
  {
    var a := OperatorAnswers(su.cfg, s.ctl.status, w, s.store);
    RunOnStore(su, s.ctl.status, w, s.store);
    if Handled(su.cfg, s.ctl.status, a).None? {
      UnhandledLog(su.cfg, su.timeout, s.ctl.status, a);
    } else {
      RunLog(su.cfg, su.timeout, s.ctl.status, a);
      if s.ctl.status.NoStatus? {
        TriggerReturnsHandle(su.cfg, w.api, s.store);
        assert s.store - Created(s.ctl) == s.shadow;
      }
    }
  }

  ghost predicate DropsAt(su: Setup, init: Store, events: seq<SysEvent>, n: nat) {
    n < |events| && events[n].StepRun? && DropGuard(su, SysAfter(su, init, events[..n]), events[n].w)
  }

  lemma {:induction false} LastDrop(su: Setup, init: Store, events: seq<SysEvent>)
    requires events != [] && IsSysRun(su, init, events) && !su.PollOnly()
    ensures var front := events[..|events| - 1];
            SysAfter(su, init, events).ctl.dropped == [] <==>
            SysAfter(su, init, front).ctl.dropped == [] && !DropsAt(su, init, events, |front|)
  {
    var front, e := events[..|events| - 1], events[|events| - 1];
    RunsKeepBalance(su, init, front);
    if e.StepRun? {
      DroppedIff(su, SysAfter(su, init, front), e.w);
    }
  }

  lemma {:induction false} DropsIff(su: Setup, init: Store, front: seq<SysEvent>, events: seq<SysEvent>)
    requires events != [] && front == events[..|events| - 1]
    ensures (forall n: nat :: !DropsAt(su, init, events, n)) <==>
            !DropsAt(su, init, events, |front|) && forall n: nat :: !DropsAt(su, init, front, n)
  {
    forall n: nat | n < |front| ensures DropsAt(su, init, events, n) <==> DropsAt(su, init, front, n) {
      assert front[..n] == events[..n];
    }
    forall n: nat | DropsAt(su, init, front, n) ensures DropsAt(su, init, events, n) {}
    forall n: nat | DropsAt(su, init, events, n) && n != |front| ensures DropsAt(su, init, front, n) {}
  }

  /** Over a whole run, a run ID was dropped exactly when some Run met the guard. */
  lemma {:induction false} NothingDroppedIff(su: Setup, init: Store, events: seq<SysEvent>)
    requires IsSysRun(su, init, events) && !su.PollOnly()
    ensures SysAfter(su, init, events).ctl.dropped == [] <==> forall n: nat :: !DropsAt(su, init, events, n)
  {
    if events == [] {
    } else {
      var front := events[..|events| - 1];
      NothingDroppedIff(su, init, front);
      LastDrop(su, init, events);
      DropsIff(su, init, front, events);
    }
  }

  /** Dropped resources stay, and the stored run is none of them. */
  ghost predicate Kept(s: Sys)
  {
    && (forall id :: id in s.ctl.dropped ==> DecodeRunID(id).Success?)
    && KeysOf(s.ctl.dropped) <= s.store.Keys
    && OwnKey(s.ctl) !! KeysOf(s.ctl.dropped)
  }

  /** Others remove no resource of a dropped attempt. */
  ghost predicate Spared(s: Sys, e: SysEvent) {
    e.Env? && e.edit.Remove? ==> e.edit.key !in KeysOf(s.ctl.dropped)
  }

  ghost predicate SparedThroughout(su: Setup, init: Store, events: seq<SysEvent>)
  {
    events == [] ||
    (var front := events[..|events| - 1];
     SparedThroughout(su, init, front) && Spared(SysAfter(su, init, front), events[|events| - 1]))
  }

  lemma {:induction false} DeleteSpares(store: Store, dropped: set<Key>, runID: string, fails: bool)
    requires dropped <= store.Keys && KeysOf([runID]) !! dropped
    ensures dropped <= AfterDelete(runID, fails, store).Keys
  {
    if DecodeRunID(runID).Success? {
      KeysOfOne(runID, DecodeRunID(runID).value);
    }
  }

  /** The store a Run watches keeps what was dropped, and has what it drops itself. */
  lemma {:induction false} WatchingKeepsDropped(su: Setup, s: Sys, w: World)
    requires Balanced(su, s) && Kept(s) && !su.PollOnly()
    requires Handled(su.cfg, s.ctl.status, OperatorAnswers(su.cfg, s.ctl.status, w, s.store)).Some?
    ensures var a := OperatorAnswers(su.cfg, s.ctl.status, w, s.store);
            var runID := Handled(su.cfg, s.ctl.status, a).value.runID;
            var lost := if DropGuard(su, s, w) then [TriggerReply(su.cfg, w.api, s.store).value] else [];
            && KeysOf([runID]) !! KeysOf(s.ctl.dropped)
            && (forall id :: id in lost ==> DecodeRunID(id).Success?)
            && KeysOf(s.ctl.dropped + lost) <= Watching(su, s.ctl.status, w, s.store).Keys
  {
    var a := OperatorAnswers(su.cfg, s.ctl.status, w, s.store);
    if s.ctl.status.NoStatus? {
      TriggerReturnsHandle(su.cfg, w.api, s.store);
      KeysOfConcat(s.ctl.dropped, [a.trigger.value]);
      KeysOfOne(a.trigger.value, TriggerKey(su.cfg, w.api));
    }
    assert s.ctl.dropped + [] == s.ctl.dropped;
  }

  /** Dropped resources after a Run, from what it left behind alone. */
  lemma {:induction false} KeptAfter(
    s: Sys, st: StepState, lost: seq<string>, failed: bool, fails: bool, watching: Store, s': Sys)
    requires Kept(s) && KeysOf([st.runID]) !! KeysOf(s.ctl.dropped) && KeysOf(s.ctl.dropped + lost) <= watching.Keys
    requires forall id :: id in lost ==> DecodeRunID(id).Success?
    requires s'.ctl.dropped == s.ctl.dropped + lost && (!failed ==> lost == [])
    requires failed ==> s'.ctl.status == s.ctl.status && (lost != [] ==> s.ctl.status.NoStatus?)
    requires !failed ==> s'.ctl.status.Stored? && s'.ctl.status.state.runID == st.runID
    requires s'.store == watching || (!failed && s'.store == AfterDelete(st.runID, fails, watching))
    ensures Kept(s')
  {
    assert s.ctl.dropped + [] == s.ctl.dropped;
    if !failed {
      DeleteSpares(watching, KeysOf(s.ctl.dropped), st.runID, fails);
    }
  }

  lemma {:induction false} RunKeepsDropped(su: Setup, s: Sys, w: World)
    requires Balanced(su, s) && Kept(s) && SysAdmissible(s, StepRun(w)) && !su.PollOnly()
    ensures Kept(SysStep(su, s, StepRun(w)))
  {
    var a := OperatorAnswers(su.cfg, s.ctl.status, w, s.store);
    var o := RunStep(su.cfg, su.timeout, s.ctl.status, a);
    var handled := Handled(su.cfg, s.ctl.status, a);
    RunOnStore(su, s.ctl.status, w, s.store);
    DroppedIff(su, s, w);
    if handled.None? {
      UnhandledLog(su.cfg, su.timeout, s.ctl.status, a);
      assert s.ctl.dropped + [] == s.ctl.dropped;
    } else {
      var lost := if DropGuard(su, s, w) then [TriggerReply(su.cfg, w.api, s.store).value] else [];
      RunLog(su.cfg, su.timeout, s.ctl.status, a);
      WatchingKeepsDropped(su, s, w);
      GuardedRunFails(su, s, w);
      KeptAfter(s, handled.value, lost, o.err.Some?, w.api.deleteFails, Watching(su, s.ctl.status, w, s.store),
                SysStep(su, s, StepRun(w)));
    }
  }

  lemma {:induction false} StepKeepsDropped(su: Setup, s: Sys, e: SysEvent)
    requires Balanced(su, s) && Kept(s) && SysAdmissible(s, e) && Spared(s, e) && !su.PollOnly()
    ensures Kept(SysStep(su, s, e))
  {
    match e
    case StepRun(w) => RunKeepsDropped(su, s, w);
    case StepStop(fails) =>
      if HasHandle(s.ctl.status) {
        DeleteSpares(s.store, KeysOf(s.ctl.dropped), s.ctl.status.state.runID, fails);
      }
    case Env(_) =>
  }

  lemma {:induction false} RunsKeepDropped(su: Setup, init: Store, events: seq<SysEvent>)
    requires IsSysRun(su, init, events) && SparedThroughout(su, init, events) && !su.PollOnly()
    ensures Kept(SysAfter(su, init, events))
  {
    if events == [] {
    } else {
      var front := events[..|events| - 1];
      RunsKeepDropped(su, init, front);
      RunsKeepBalance(su, init, front);
      StepKeepsDropped(su, SysAfter(su, init, front), events[|events| - 1]);
    }
  }

  // ---------- The end of a step ----------

  predicate Terminal(f: FinalStatus) {
    f in {Reported(Passed), Reported(Failed), Reported(Errored), TimedOut}
  }

  ghost predicate Absent(runID: string, store: Store) {
    DecodeRunID(runID).Success? ==> DecodeRunID(runID).value !in store
  }

  ghost predicate ReleasedIn(status: Status, store: Store)
  {
    status.Stored? ==>
      && (status.state.finalStatus == NoFinal || Terminal(status.state.finalStatus))
      && (status.state.cleanupDone ==> Terminal(status.state.finalStatus))
      && (Terminal(status.state.finalStatus) ==> Absent(status.state.runID, store))
  }

  /** Once a final status is stored, its resource is gone. */
  ghost predicate Released(s: Sys) {
    ReleasedIn(s.ctl.status, s.store)
  }

  /** A Run that watched st in this store, leaves this status and this store. */
  lemma {:induction false} WatchedIsReleased(
    st: StepState, o: Outcome, timeout: int, a: Answers, api: Api, watching: Store, store': Store)
    requires ReleasedIn(Stored(st), watching) && o.err.None? && Leaves(o, st, timeout, a) && st.runID != ""
    requires a.poll == PollReply(st.runID, api, watching)
    requires store' == if Deletes(o, st, a) then AfterDelete(st.runID, false, watching) else watching
    ensures ReleasedIn(o.result.status, store')
  {
    if Polled(o) {
      var key := DecodeRunID(st.runID).value;
      assert key in watching;
      assert !Terminal(st.finalStatus);
      NeverAborted(watching[key], api.listFails);
    }
  }

  lemma {:induction false} HandledIsNamed(su: Setup, s: Sys, w: World)
    requires Balanced(su, s) && Released(s)
    requires Handled(su.cfg, s.ctl.status, OperatorAnswers(su.cfg, s.ctl.status, w, s.store)).Some? && !su.PollOnly()
    ensures var a := OperatorAnswers(su.cfg, s.ctl.status, w, s.store);
            var st := Handled(su.cfg, s.ctl.status, a).value;
            && st.runID != "" && ReleasedIn(Stored(st), Watching(su, s.ctl.status, w, s.store))
            && (s.ctl.status.Stored? ==> Watching(su, s.ctl.status, w, s.store) == s.store)
  {
    if !s.ctl.status.Stored? {
      TriggerReturnsHandle(su.cfg, w.api, s.store);
    }
  }

  lemma {:induction false} RunKeepsReleased(su: Setup, s: Sys, w: World)
    requires Balanced(su, s) && Released(s) && !su.PollOnly() && !w.api.deleteFails
    ensures Released(SysStep(su, s, StepRun(w)))
  {
    var a := OperatorAnswers(su.cfg, s.ctl.status, w, s.store);
    var o := RunStep(su.cfg, su.timeout, s.ctl.status, a);
    RunOnStore(su, s.ctl.status, w, s.store);
    var handled := Handled(su.cfg, s.ctl.status, a);
    if handled.Some? {
      RunLog(su.cfg, su.timeout, s.ctl.status, a);
      HandledIsNamed(su, s, w);
      if o.err.None? {
        var s' := SysStep(su, s, StepRun(w));
        WatchedIsReleased(handled.value, o, su.timeout, a, w.api, Watching(su, s.ctl.status, w, s.store), s'.store);
      } else {
        assert !Deletes(o, handled.value, a);
      }
    } else {
      UnhandledLog(su.cfg, su.timeout, s.ctl.status, a);
    }
  }

  lemma {:induction false} AbsentStaysAbsent(key: Key, store: Store, edit: Edit)
    requires key !in store && (edit.Put? ==> edit.key != key)
    ensures key !in Edited(edit, store)
  {}

  lemma {:induction false} EnvKeepsReleased(su: Setup, s: Sys, edit: Edit)
    requires Balanced(su, s) && Released(s) && SysAdmissible(s, Env(edit)) && !su.PollOnly()
    ensures Released(SysStep(su, s, Env(edit)))
  {
    if s.ctl.status.Stored? && Terminal(s.ctl.status.state.finalStatus) {
      var runID := s.ctl.status.state.runID;
      var key := DecodeRunID(runID).value;
      KeysOfConcat(s.ctl.dropped, [runID]);
      KeysOfOne(runID, key);
      AbsentStaysAbsent(key, s.store, edit);
    }
  }

  lemma {:induction false} StepKeepsReleased(su: Setup, s: Sys, e: SysEvent)
    requires Balanced(su, s) && Released(s) && SysAdmissible(s, e) && !su.PollOnly() && DeletesWork(e)
    ensures Released(SysStep(su, s, e))
  {
    match e
    case StepRun(w) => RunKeepsReleased(su, s, w);
    case StepStop(_) =>
    case Env(edit) => EnvKeepsReleased(su, s, edit);
  }

  lemma {:induction false} RunsRelease(su: Setup, init: Store, events: seq<SysEvent>)
    requires IsSysRun(su, init, events) && !su.PollOnly()
    requires forall e :: e in events ==> DeletesWork(e)
    ensures Released(SysAfter(su, init, events))
  {
    if events == [] {
    } else {
      var front := events[..|events| - 1];
      assert events[|events| - 1] in events;
      RunsRelease(su, init, front);
      RunsKeepBalance(su, init, front);
      StepKeepsReleased(su, SysAfter(su, init, front), events[|events| - 1]);
    }
  }

  lemma {:induction false} OwnIsGone(store: Store, shadow: Store, dropped: set<Key>, key: Key)
    requires store - (dropped + {key}) == shadow && dropped + {key} !! shadow.Keys && key !in store
    ensures store - dropped == shadow
  {
    assert forall x :: x in shadow <==> x in store && x !in dropped + {key};
    assert (store - dropped).Keys == shadow.Keys;
  }

  /** When deletes work and a final status is stored, the only resources left of the step are
      those of dropped first attempts, each of which is left unless it was cleared. */
  lemma {:induction false} EndedStepLeavesOnlyDroppedRuns(su: Setup, init: Store, events: seq<SysEvent>)
    requires IsSysRun(su, init, events) && !su.PollOnly() && FinalOf(SysAfter(su, init, events).ctl.status) != NoFinal
    requires forall e :: e in events ==> DeletesWork(e)
    ensures var s := SysAfter(su, init, events);
            && s.store - KeysOf(s.ctl.dropped) == s.shadow
            && (s.store == s.shadow <==>
                forall key :: key in KeysOf(s.ctl.dropped) ==> !LeftBehind(su, init, events, key))
  {
    RunsRelease(su, init, events);
    RunsKeepBalance(su, init, events);
    var s := SysAfter(su, init, events);
    var dropped, runID := KeysOf(s.ctl.dropped), s.ctl.status.state.runID;
    KeysOfConcat(s.ctl.dropped, [runID]);
    KeysOfOne(runID, DecodeRunID(runID).value);
    OwnIsGone(s.store, s.shadow, dropped, DecodeRunID(runID).value);
    forall key | key in dropped ensures key in s.store <==> LeftBehind(su, init, events, key) {
      RemainsIff(su, init, events, key);
    }
    LedgerCloses(s.store, s.shadow, dropped);
  }

  /** If others also leave dropped attempts alone, then from the first final status on, replays
      included, the cluster is as if the step had never run if and only if no Run met the guard. */
  lemma {:induction false} EndedStepRestoresStoreIff(su: Setup, init: Store, events: seq<SysEvent>)
    requires IsSysRun(su, init, events) && !su.PollOnly() && FinalOf(SysAfter(su, init, events).ctl.status) != NoFinal
    requires SparedThroughout(su, init, events) && forall e :: e in events ==> DeletesWork(e)
    ensures var s := SysAfter(su, init, events);
            s.store == s.shadow <==> forall n: nat :: !DropsAt(su, init, events, n)
  {
    var s := SysAfter(su, init, events);
    RunsKeepDropped(su, init, events);
    NothingDroppedIff(su, init, events);
    EndedStepLeavesOnlyDroppedRuns(su, init, events);
    LedgerCloses(s.store, s.shadow, KeysOf(s.ctl.dropped));
    if s.ctl.dropped == [] {
      assert KeysOf(s.ctl.dropped) == {};
    } else {
      var id := s.ctl.dropped[0];
      assert id in s.ctl.dropped;
      assert DecodeRunID(id).value in KeysOf(s.ctl.dropped);
    }
  }

  lemma {:induction false} ShadowWithoutOthers(su: Setup, init: Store, events: seq<SysEvent>)
    requires forall e :: e in events ==> !e.Env?
    ensures SysAfter(su, init, events).shadow == init
  {
    if events == [] {
    } else {
      assert events[|events| - 1] in events;
      ShadowWithoutOthers(su, init, events[..|events| - 1]);
    }
  }

  lemma {:induction false} QuietIsSpared(su: Setup, init: Store, events: seq<SysEvent>)
    requires forall e :: e in events ==> !e.Env?
    ensures SparedThroughout(su, init, events)
  {
    if events == [] {
    } else {
      assert events[|events| - 1] in events;
      QuietIsSpared(su, init, events[..|events| - 1]);
    }
  }

  /** In a quiet cluster, where deletes work, the store is from the first final status on exactly
      as it was before the step if and only if no Run met the guard. */
  lemma {:induction false} QuietStepRestoresStoreIff(su: Setup, init: Store, events: seq<SysEvent>)
    requires IsSysRun(su, init, events) && !su.PollOnly() && FinalOf(SysAfter(su, init, events).ctl.status) != NoFinal
    requires forall e :: e in events ==> DeletesWork(e) && !e.Env?
    ensures SysAfter(su, init, events).store == init <==> forall n: nat :: !DropsAt(su, init, events, n)
    ensures SysAfter(su, init, events).store == init <==> SysAfter(su, init, events).ctl.dropped == []
  {
    QuietIsSpared(su, init, events);
    EndedStepRestoresStoreIff(su, init, events);
    NothingDroppedIff(su, init, events);
    ShadowWithoutOthers(su, init, events);
  }
}
