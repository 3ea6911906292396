/** The plugin as a controller drives it: any sequence of Run, Terminate and Abort on the real
    objects, with others editing the cluster in between, ends where the transition system of
    Ledger ends. What is proved there holds of the plugin. */
module Driver {
  import opened Wrappers
  import opened Provider
  import opened Operator
  import opened Step
  import opened Controller
  import opened Ledger

  /** The configuration and the rollout that a controller passes to every call. */
  datatype Request = Request(config: Option<PluginConfig>, rollout: Option<Rollout>)
  {
    function With(status: Status): StepContext {
      StepContext(config, status)
    }

    /** They are accepted and give this set-up. */
    predicate Gives(su: Setup)
    {
      var parsed := ParseConfig(With(NoStatus));
      && parsed.Success? && su.cfg == PopulateFromRollout(parsed.value, rollout)
      && ParseTimeout(su.cfg.timeout) == Success(su.timeout)
    }
  }

  /** One call on the plugin is one step of the transition system. */
  lemma {:induction false} PluginTakesSteps(su: Setup, r: Request, s: Sys, w: World)
    requires r.Gives(su)
    ensures var o := OperatorRun(r.With(s.ctl.status), r.rollout, w, s.store);
            var s' := SysStep(su, s, StepRun(w));
            && s'.ctl.status == (if o.err.Some? then s.ctl.status else o.result.status)
            && s'.ctl.calls == s.ctl.calls + o.calls
            && s'.store == AfterCalls(o.calls, w.api.deleteFails, s.store)
    ensures var calls := StopStep(r.With(s.ctl.status));
            var s' := SysStep(su, s, StepStop(w.api.deleteFails));
            && s'.ctl.status == s.ctl.status
            && s'.ctl.calls == s.ctl.calls + calls
            && s'.store == AfterCalls(calls, w.api.deleteFails, s.store)
  {
    if HasHandle(s.ctl.status) {
      AfterOneCall(StopRun(s.ctl.status.state.runID), w.api.deleteFails, s.store);
    } else {
      assert s.ctl.calls + [] == s.ctl.calls;
    }
  }

  lemma {:induction false} OneEventLater(su: Setup, init: Store, events: seq<SysEvent>, i: nat)
    requires i < |events|
    ensures SysAfter(su, init, events[..i + 1]) == SysStep(su, SysAfter(su, init, events[..i]), events[i])
  {
    assert events[..i + 1][..i] == events[..i];
  }

  /** The status is kept between calls and replaced unless a Run fails. */
  method Drive(
    plugin: K6StepPlugin, r: Request, ghost su: Setup, events: seq<SysEvent>, world: World, aborts: nat -> bool)
    returns (status: Status, ghost calls: seq<Call>)
    requires r.Gives(su)
    modifies plugin.provider.dynClient
    ensures var s := SysAfter(su, old(plugin.provider.dynClient.objects), events);
            status == s.ctl.status && calls == s.ctl.calls && plugin.provider.dynClient.objects == s.store
  {
    ghost var init := plugin.provider.dynClient.objects;
    status, calls := NoStatus, [];
    for i := 0 to |events|
      invariant status == SysAfter(su, init, events[..i]).ctl.status
      invariant calls == SysAfter(su, init, events[..i]).ctl.calls
      invariant plugin.provider.dynClient.objects == SysAfter(su, init, events[..i]).store
    {
      ghost var s := SysAfter(su, init, events[..i]);
      ghost var made := [];
      OneEventLater(su, init, events, i);
      match events[i] {
        case StepRun(w) =>
          PluginTakesSteps(su, r, s, w);
          var result, err;
          result, err, made := plugin.Run(r.rollout, r.With(status), w);
          if err.None? {
            status := result.status;
          }
          calls := calls + made;
        case StepStop(fails) =>
          var w := world.(api := world.api.(deleteFails := fails));
          PluginTakesSteps(su, r, s, w);
          var result, err;
          if aborts(i) {
            result, err, made := plugin.Abort(r.rollout, r.With(status), w);
          } else {
            result, err, made := plugin.Terminate(r.rollout, r.With(status), w);
          }
          calls := calls + made;
        case Env(edit) =>
          plugin.provider.dynClient.objects := Edited(edit, plugin.provider.dynClient.objects);
      }
    }
    assert events[..|events|] == events;
  }
}
