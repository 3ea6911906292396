/** A step on the k6-operator backend, in a cluster that others use too: which custom
    resources exist because of the step, and when they are gone again.

    The shadow store is what the cluster would hold had the step never run: it starts equal
    to the real store and sees only the edits of others. */
module Ledger {
  import opened Wrappers
  import opened Provider
  import opened RunID
  import opened Operator
  import opened Step
  import opened Controller

  /** What others do: create a resource, update its status, remove it. */
  datatype Edit = Put(key: Key, cr: CustomResource) | Update(key: Key, cr: CustomResource) | Remove(key: Key)

  datatype SysEvent = StepRun(w: World) | StepStop(deleteFails: bool) | Env(edit: Edit)

  datatype Sys = Sys(ctl: Ctl, store: Store, shadow: Store)

  function Edited(edit: Edit, store: Store): Store
  {
    match edit
    case Put(key, cr) => if key in store then store else store[key := cr]
    case Update(key, cr) => if key in store then store[key := cr] else store
    case Remove(key) => store - {key}
  }

  ghost function SysStep(su: Setup, s: Sys, e: SysEvent): Sys
  {
    match e
    case StepRun(w) =>
      var a := OperatorAnswers(su.cfg, s.ctl.status, w, s.store);
      var o := RunStep(su.cfg, su.timeout, s.ctl.status, a);
      Sys(CtlStep(su, s.ctl, RunCall(a)), AfterCalls(o.calls, w.api.deleteFails, s.store), s.shadow)
    case StepStop(fails) =>
      Sys(CtlStep(su, s.ctl, StopCall),
          if HasHandle(s.ctl.status) then AfterDelete(s.ctl.status.state.runID, fails, s.store) else s.store,
          s.shadow)
    case Env(edit) =>
      Sys(s.ctl, Edited(edit, s.store), Edited(edit, s.shadow))
  }

  ghost function SysAfter(su: Setup, init: Store, events: seq<SysEvent>): Sys
  {
    if events == [] then Sys(START, init, init)
    else SysStep(su, SysAfter(su, init, events[..|events| - 1]), events[|events| - 1])
  }

  /** Every resource the step ever created. */
  function Created(c: Ctl): set<Key> {
    KeysOf(Triggered(c.calls))
  }

  /** The clock does not go backwards, and nobody else creates a resource under a name that
      the step has used: the names carry a hash of namespace, rollout and time. */
  ghost predicate SysAdmissible(s: Sys, e: SysEvent)
  {
    && (e.StepRun? ==> s.ctl.clock <= e.w.stampedAt <= e.w.checkedAt)
    && (e.Env? && e.edit.Put? ==> e.edit.key !in Created(s.ctl))
  }

  ghost predicate IsSysRun(su: Setup, init: Store, events: seq<SysEvent>)
  {
    events == [] ||
    (var front := events[..|events| - 1];
     IsSysRun(su, init, front) && SysAdmissible(SysAfter(su, init, front), events[|events| - 1]))
  }

  // ---------- A run for any provider ----------

  /** What the provider-independent model sees of an event. */
  ghost function Seen(su: Setup, s: Sys, e: SysEvent): seq<Event>
  {
    match e
    case StepRun(w) => [RunCall(OperatorAnswers(su.cfg, s.ctl.status, w, s.store))]
    case StepStop(_) => [StopCall]
    case Env(_) => []
  }

  ghost function SeenEvents(su: Setup, init: Store, events: seq<SysEvent>): seq<Event>
  {
    if events == [] then []
    else
      var front := events[..|events| - 1];
      SeenEvents(su, init, front) + Seen(su, SysAfter(su, init, front), events[|events| - 1])
  }

  /** A run ID that the backend triggered decodes. */
  lemma {:induction false} OperatorAnswersAreAdmissible(su: Setup, s: Sys, w: World)
    requires SysAdmissible(s, StepRun(w))
    ensures Admissible(s.ctl, RunCall(OperatorAnswers(su.cfg, s.ctl.status, w, s.store)))
  {
    if TriggerReply(su.cfg, w.api, s.store).Success? {
      TriggerReturnsHandle(su.cfg, w.api, s.store);
    }
  }

  lemma {:induction false} AfterOneMore(su: Setup, events: seq<Event>, e: Event)
    requires IsRun(su, events) && Admissible(After(su, events), e)
    ensures IsRun(su, events + [e]) && After(su, events + [e]) == CtlStep(su, After(su, events), e)
  {
    var all := events + [e];
    assert all[..|all| - 1] == events && all[|all| - 1] == e;
  }

  lemma {:induction false} SeenStep(su: Setup, seen: seq<Event>, s: Sys, e: SysEvent)
    requires IsRun(su, seen) && s.ctl == After(su, seen) && SysAdmissible(s, e)
    ensures IsRun(su, seen + Seen(su, s, e)) && SysStep(su, s, e).ctl == After(su, seen + Seen(su, s, e))
  {
    match e
    case StepRun(w) =>
      OperatorAnswersAreAdmissible(su, s, w);
      AfterOneMore(su, seen, RunCall(OperatorAnswers(su.cfg, s.ctl.status, w, s.store)));
    case StepStop(_) => AfterOneMore(su, seen, StopCall);
    case Env(_) => assert seen + [] == seen;
  }

  /** Every run on the backend is a run for an unknown provider, so all that holds of those
      holds here. */
  lemma {:induction false} SysRunsAreRuns(su: Setup, init: Store, events: seq<SysEvent>)
    requires IsSysRun(su, init, events)
    ensures IsRun(su, SeenEvents(su, init, events))
    ensures SysAfter(su, init, events).ctl == After(su, SeenEvents(su, init, events))
  {
    if events == [] {
    } else {
      var front := events[..|events| - 1];
      SysRunsAreRuns(su, init, front);
      SeenStep(su, SeenEvents(su, init, front), SysAfter(su, init, front), events[|events| - 1]);
    }
  }

  lemma {:induction false} SeenOfPrefix(su: Setup, init: Store, events: seq<SysEvent>, n: nat)
    requires n <= |events|
    ensures SeenEvents(su, init, events[..n]) <= SeenEvents(su, init, events)
    decreases |events|
  {
    if n == |events| {
      assert events[..n] == events;
    } else {
      assert events[..|events| - 1][..n] == events[..n];
      SeenOfPrefix(su, init, events[..|events| - 1], n);
    }
  }

  lemma {:induction false} PrefixIsSysRun(su: Setup, init: Store, events: seq<SysEvent>, n: nat)
    requires IsSysRun(su, init, events) && n <= |events|
    ensures IsSysRun(su, init, events[..n])
    decreases |events|
  {
    if n == |events| {
      assert events[..n] == events;
    } else {
      assert events[..|events| - 1][..n] == events[..n];
      PrefixIsSysRun(su, init, events[..|events| - 1], n);
    }
  }

  /** A prefix on the backend is a prefix for an unknown provider. */
  lemma {:induction false} SysPrefixIsPrefix(su: Setup, init: Store, events: seq<SysEvent>, n: nat) returns (m: nat)
    requires IsSysRun(su, init, events) && n <= |events|
    ensures var seen := SeenEvents(su, init, events);
            && IsRun(su, seen) && SysAfter(su, init, events).ctl == After(su, seen)
            && m <= |seen| && SysAfter(su, init, events[..n]).ctl == After(su, seen[..m])
  {
    PrefixIsSysRun(su, init, events, n);
    SysRunsAreRuns(su, init, events);
    SysRunsAreRuns(su, init, events[..n]);
    SeenOfPrefix(su, init, events, n);
    m := |SeenEvents(su, init, events[..n])|;
    assert SeenEvents(su, init, events)[..m] == SeenEvents(su, init, events[..n]);
  }

  // ---------- One Run on the store ----------

  /** Whether this Run ends with a delete: of a late run, or of one that reported a verdict
      and was not cleaned up yet. */
  ghost predicate Deletes(o: Outcome, st: StepState, a: Answers)
  {
    o.err.None? && (o.result.message.TimedOutAfter? || (a.poll.Success? && WantsCleanup(a.poll.value.state, st)))
  }

  ghost predicate PollAnswered(o: Outcome, a: Answers) {
    Polled(o) ==> a.poll.Success?
  }

  lemma {:induction false} SettledStore(st: StepState, r: RunResult, fails: bool, store: Store)
    ensures AfterCalls(Settled(st, r).calls, fails, store) ==
            if WantsCleanup(r.state, st) then AfterDelete(st.runID, fails, store) else store
  {
    var polled := GetRunResult(st.runID, Success(r));
    if WantsCleanup(r.state, st) {
      AfterTwoCalls(polled, Cleanup(st.runID), fails, store);
    } else {
      AfterOneCall(polled, fails, store);
      assert [polled] + [] == [polled];
    }
  }

  /** The store after watching a run: unchanged, or without that run's resource. */
  lemma {:induction false} WatchedStore(timeout: int, st: StepState, a: Answers, fails: bool, store: Store)
    ensures var o := Watched(timeout, st, a.poll, a.checkedAt);
            && PollAnswered(o, a)
            && AfterCalls(o.calls, fails, store) ==
               (if Deletes(o, st, a) then AfterDelete(st.runID, fails, store) else store)
  {
    if st.triggeredAt.Garbled? {
    } else if Late(timeout, st, a.checkedAt) {
      AfterOneCall(StopRun(st.runID), fails, store);
    } else if a.poll.Failure? {
      AfterOneCall(GetRunResult(st.runID, a.poll), fails, store);
    } else {
      SettledStore(st, a.poll.value, fails, store);
    }
  }

  /** The store in which a Run watches its run: with the new resource, if it triggered one. */
  ghost function Watching(su: Setup, status: Status, w: World, store: Store): Store
  {
    if !status.Undecodable? && StateIn(status).runID == "" && !su.PollOnly()
    then AfterTrigger(su.cfg, w.api, store) else store
  }

  /** One Run on the backend, in terms of the store alone. */
  lemma {:induction false} RunOnStore(su: Setup, status: Status, w: World, store: Store)
    ensures var a := OperatorAnswers(su.cfg, status, w, store);
            var o := RunStep(su.cfg, su.timeout, status, a);
            var handled := Handled(su.cfg, status, a);
            && (handled.None? ==> AfterCalls(o.calls, w.api.deleteFails, store) == store
                                  && Watching(su, status, w, store) == store)
            && (handled.Some? ==>
                && PollAnswered(o, a)
                && a.poll == PollReply(handled.value.runID, w.api, Watching(su, status, w, store))
                && AfterCalls(o.calls, w.api.deleteFails, store) ==
                   (if Deletes(o, handled.value, a)
                    then AfterDelete(handled.value.runID, w.api.deleteFails, Watching(su, status, w, store))
                    else Watching(su, status, w, store)))
  {
    var a := OperatorAnswers(su.cfg, status, w, store);
    var handled := Handled(su.cfg, status, a);
    var fails := w.api.deleteFails;
    TriggerIsLogged(su.cfg, w.api, store);
    if handled.None? {
      AfterOneCall(TriggerRun(a.trigger), fails, store);
    } else {
      var o := Watched(su.timeout, handled.value, a.poll, a.checkedAt);
      WatchedStore(su.timeout, handled.value, a, fails, Watching(su, status, w, store));
      if NewRun(su.cfg, status, a) != [] {
        assert ([TriggerRun(a.trigger)] + o.calls)[1..] == o.calls;
      }
    }
  }

  // ---------- The ledger ----------

  /** Outside the resources the step created, the cluster is as if the step had never run. */
  ghost predicate Balanced(su: Setup, s: Sys)
  {
    && Inv(su, s.ctl)
    && Created(s.ctl) !! s.shadow.Keys
    && s.store - Created(s.ctl) == s.shadow
    && (!su.PollOnly() && s.ctl.status.Stored? ==> DecodeRunID(s.ctl.status.state.runID).Success?)
  }

  lemma {:induction false} KeysOfConcat(a: seq<string>, b: seq<string>)
    ensures KeysOf(a + b) == KeysOf(a) + KeysOf(b)
  {}

  lemma {:induction false} KeysOfOne(runID: string, key: Key)
    requires DecodeRunID(runID) == Success(key)
    ensures KeysOf([runID]) == {key}
  {}

  lemma {:induction false} DeleteStaysInside(store: Store, own: set<Key>, runID: string, fails: bool)
    requires DecodeRunID(runID).Success? ==> DecodeRunID(runID).value in own
    ensures AfterDelete(runID, fails, store) - own == store - own
  {}

  lemma {:induction false} EditKeepsBalance(store: Store, shadow: Store, own: set<Key>, edit: Edit)
    requires own !! shadow.Keys && store - own == shadow
    requires edit.Put? ==> edit.key !in own
    ensures own !! Edited(edit, shadow).Keys && Edited(edit, store) - own == Edited(edit, shadow)
  {
    var k := edit.key;
    assert k !in own ==> (k in store <==> k in shadow);
    assert forall x :: x in shadow <==> x in store && x !in own;
    assert (Edited(edit, store) - own).Keys == Edited(edit, shadow).Keys;
  }

  /** A trigger adds one key to both sides of the ledger. */
  lemma {:induction false} TriggerKeepsBalance(store: Store, shadow: Store, own: set<Key>, key: Key)
    requires own !! shadow.Keys && store - own == shadow && key !in store
    ensures own + {key} !! shadow.Keys && store[key := FRESH] - (own + {key}) == shadow
  {
    assert forall x :: x in shadow <==> x in store && x !in own;
    assert (store[key := FRESH] - (own + {key})).Keys == shadow.Keys;
  }

  lemma {:induction false} WatchingKeepsBalance(su: Setup, s: Sys, w: World)
    requires Balanced(su, s) && !su.PollOnly()
    requires Handled(su.cfg, s.ctl.status, OperatorAnswers(su.cfg, s.ctl.status, w, s.store)).Some?
    ensures var a := OperatorAnswers(su.cfg, s.ctl.status, w, s.store);
            var runID := Handled(su.cfg, s.ctl.status, a).value.runID;
            var created := Created(s.ctl) + KeysOf(NewRun(su.cfg, s.ctl.status, a));
            && DecodeRunID(runID).Success? && DecodeRunID(runID).value in created
            && created !! s.shadow.Keys
            && Watching(su, s.ctl.status, w, s.store) - created == s.shadow
  {
    var a := OperatorAnswers(su.cfg, s.ctl.status, w, s.store);
    if s.ctl.status.Stored? {
      var runID := s.ctl.status.state.runID;
      KeysOfConcat(s.ctl.dropped, [runID]);
      KeysOfOne(runID, DecodeRunID(runID).value);
      assert Created(s.ctl) + {} == Created(s.ctl);
    } else {
      TriggerReturnsHandle(su.cfg, w.api, s.store);
      KeysOfOne(a.trigger.value, TriggerKey(su.cfg, w.api));
      TriggerKeepsBalance(s.store, s.shadow, Created(s.ctl), TriggerKey(su.cfg, w.api));
    }
  }

  /** Poll-only runs are watched, and deleted, but not created by the step. */
  lemma {:induction false} RunKeepsBalance(su: Setup, s: Sys, w: World)
    requires Balanced(su, s) && SysAdmissible(s, StepRun(w)) && !su.PollOnly()
    ensures Balanced(su, SysStep(su, s, StepRun(w)))
  {
    var a := OperatorAnswers(su.cfg, s.ctl.status, w, s.store);
    var o := RunStep(su.cfg, su.timeout, s.ctl.status, a);
    var s' := SysStep(su, s, StepRun(w));
    OperatorAnswersAreAdmissible(su, s, w);
    StepKeepsInv(su, s.ctl, RunCall(a));
    RunOnStore(su, s.ctl.status, w, s.store);
    LogsConcat(s.ctl.calls, o.calls);
    var handled := Handled(su.cfg, s.ctl.status, a);
    if handled.None? {
      UnhandledLog(su.cfg, su.timeout, s.ctl.status, a);
      assert Triggered(s'.ctl.calls) == Triggered(s.ctl.calls);
    } else {
      RunLog(su.cfg, su.timeout, s.ctl.status, a);
      KeysOfConcat(Triggered(s.ctl.calls), NewRun(su.cfg, s.ctl.status, a));
      var watching := Watching(su, s.ctl.status, w, s.store);
      WatchingKeepsBalance(su, s, w);
      if Deletes(o, handled.value, a) {
        DeleteStaysInside(watching, Created(s'.ctl), handled.value.runID, w.api.deleteFails);
      }
    }
  }

  lemma {:induction false} StepKeepsBalance(su: Setup, s: Sys, e: SysEvent)
    requires Balanced(su, s) && SysAdmissible(s, e) && !su.PollOnly()
    ensures Balanced(su, SysStep(su, s, e))
  {
    match e
    case StepRun(w) => RunKeepsBalance(su, s, w);
    case StepStop(fails) =>
      StepKeepsInv(su, s.ctl, StopCall);
      if HasHandle(s.ctl.status) {
        var runID := s.ctl.status.state.runID;
        StopLog(s.ctl, runID);
        KeysOfConcat(s.ctl.dropped, [runID]);
        KeysOfOne(runID, DecodeRunID(runID).value);
        DeleteStaysInside(s.store, Created(s.ctl), runID, fails);
      }
    case Env(edit) => EditKeepsBalance(s.store, s.shadow, Created(s.ctl), edit);
  }

  lemma {:induction false} RunsKeepBalance(su: Setup, init: Store, events: seq<SysEvent>)
    requires IsSysRun(su, init, events) && !su.PollOnly()
    ensures Balanced(su, SysAfter(su, init, events))
  {
    if events == [] {
      assert KeysOf([]) == {};
      assert init - {} == init;
    } else {
      RunsKeepBalance(su, init, events[..|events| - 1]);
      StepKeepsBalance(su, SysAfter(su, init, events[..|events| - 1]), events[|events| - 1]);
    }
  }

  /** The resource the stored run ID names, if there is one. */
  function OwnKey(c: Ctl): set<Key> {
    KeysOf(if c.status.Stored? then [c.status.state.runID] else [])
  }

  /** At every moment of every run in trigger mode, whatever fails, the cluster differs from
      one without the step only in resources the step created: the one named by its stored
      run ID and those of dropped first attempts. */
  lemma {:induction false} OnlyOwnResourcesChange(su: Setup, init: Store, events: seq<SysEvent>)
    requires IsSysRun(su, init, events) && !su.PollOnly()
    ensures var s := SysAfter(su, init, events);
            s.store - (KeysOf(s.ctl.dropped) + OwnKey(s.ctl)) == s.shadow
  {
    RunsKeepBalance(su, init, events);
    var c := SysAfter(su, init, events).ctl;
    KeysOfConcat(c.dropped, if c.status.Stored? then [c.status.state.runID] else []);
  }
}
