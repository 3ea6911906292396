/** The verdict over runner pods (internal/provider/operator/exitcode.go).

    CheckRunnerExitCodes walks pods and containers in listing order and returns early.
    Its answer is specified by Verdict, and the lemmas say when that answer depends on
    the order, what it means, and what later polls of the same pods may still answer. */
module ExitCode {
  import opened Wrappers
  import opened Provider

  const EXIT_CODE_SUCCESS := 0
  const EXIT_CODE_THRESHOLDS_FAILED := 99

  datatype ContainerStatus = ContainerStatus(restartCount: nat, terminated: Option<int>)

  datatype Pod = Pod(containers: seq<ContainerStatus>)

  function ExitCodeToRunState(code: int): RunState
  {
    if code == EXIT_CODE_SUCCESS then Passed
    else if code == EXIT_CODE_THRESHOLDS_FAILED then Failed
    else Errored
  }

  function StageToRunState(stage: string): RunState
  {
    if stage == "error" then Errored else Running
  }

  // ---------- Specification ----------

  function ContainerVerdict(c: ContainerStatus): (v: RunState)
    ensures v != Aborted
  {
    if c.restartCount > 0 then Errored
    else if c.terminated.None? then Running
    else ExitCodeToRunState(c.terminated.value)
  }

  /** Joins an answer so far (Passed or Failed) with the answer for what follows. */
  function Worse(v: RunState, rest: RunState): RunState
  {
    if v == Failed && rest == Passed then Failed else rest
  }

  /** The first answer that is neither Passed nor Failed decides; failing that, Failed wins. */
  function Verdict(vs: seq<RunState>): (v: RunState)
    ensures v == Passed || v in vs
  {
    if vs == [] then Passed
    else if vs[0] in {Passed, Failed} then Worse(vs[0], Verdict(vs[1..]))
    else vs[0]
  }

  function ContainerVerdicts(cs: seq<ContainerStatus>): (vs: seq<RunState>)
  {
    seq(|cs|, i requires 0 <= i < |cs| => ContainerVerdict(cs[i]))
  }

  function PodVerdict(p: Pod): (v: RunState)
    ensures v != Aborted
  {
    if p.containers == [] then Running else Verdict(ContainerVerdicts(p.containers))
  }

  function PodVerdicts(pods: seq<Pod>): (vs: seq<RunState>)
  {
    seq(|pods|, i requires 0 <= i < |pods| => PodVerdict(pods[i]))
  }

  function PodsVerdict(pods: seq<Pod>): RunState
  {
    Verdict(PodVerdicts(pods))
  }

  // ---------- The loop ----------

  /** What a pod's answer leaves of the answer for the pods after it. */
  function Then(v: RunState, rest: RunState): RunState
  {
    if v in {Passed, Failed} then Worse(v, rest) else v
  }

  lemma {:induction false} VerdictHead(pods: seq<Pod>)
    requires pods != []
    ensures PodsVerdict(pods) == Then(PodVerdict(pods[0]), PodsVerdict(pods[1..]))
  {
    assert PodVerdicts(pods)[1..] == PodVerdicts(pods[1..]);
  }

  method CheckRunnerExitCodes(listing: Result<seq<Pod>, Error>) returns (state: RunState, err: Option<Error>)
    ensures listing.Failure? ==> state == Errored && err == Some(ListFailed)
    ensures listing.Success? && listing.value == [] ==> state == Errored && err == Some(NoRunnerPods)
    ensures listing.Success? && listing.value != [] ==> state == PodsVerdict(listing.value) && err == None
  {
    if listing.Failure? {
      return Errored, Some(ListFailed);
    }
    var pods := listing.value;
    if |pods| == 0 {
      return Errored, Some(NoRunnerPods);
    }
    var worst := Passed;
    for i := 0 to |pods|
      invariant worst in {Passed, Failed}
      invariant PodsVerdict(pods) == Worse(worst, PodsVerdict(pods[i..]))
    {
      var cs := pods[i].containers;
      assert PodVerdicts(pods[i..])[1..] == PodVerdicts(pods[i + 1..]);
      if |cs| == 0 {
        return Running, None;
      }
      ghost var rest := PodsVerdict(pods[i + 1..]);
      VerdictHead(pods[i..]);
      for k := 0 to |cs|
        invariant worst in {Passed, Failed}
        invariant PodsVerdict(pods) == Worse(worst, Then(Verdict(ContainerVerdicts(cs[k..])), rest))
      {
        assert ContainerVerdicts(cs[k..])[1..] == ContainerVerdicts(cs[k + 1..]);
        if cs[k].restartCount > 0 {
          return Errored, None;
        }
        if cs[k].terminated.None? {
          return Running, None;
        }
        var state := ExitCodeToRunState(cs[k].terminated.value);
        if state == Errored {
          return Errored, None;
        }
        if state == Failed {
          worst := Failed;
        }
      }
    }
    return worst, None;
  }

  // ---------- What the verdict means ----------

  predicate Clean(v: RunState) {
    v in {Passed, Failed}
  }

  /** Every answer of Verdict, read off the sequence without recursion. */
  lemma {:induction false} VerdictMeaning(vs: seq<RunState>)
    ensures Verdict(vs) == Passed <==> forall k :: 0 <= k < |vs| ==> vs[k] == Passed
    ensures Verdict(vs) == Failed <==>
            Failed in vs && forall k :: 0 <= k < |vs| ==> Clean(vs[k])
    ensures forall v :: !Clean(v) ==>
            (Verdict(vs) == v <==> exists k :: 0 <= k < |vs| && vs[k] == v && forall j :: 0 <= j < k ==> Clean(vs[j]))
  {
    if vs == [] {
    } else {
      var tail := vs[1..];
      VerdictMeaning(tail);
      forall v | !Clean(v)
        ensures Verdict(vs) == v <==> exists k :: 0 <= k < |vs| && vs[k] == v && forall j :: 0 <= j < k ==> Clean(vs[j])
      {
        if Clean(vs[0]) {
          if Verdict(vs) == v {
            var k :| 0 <= k < |tail| && tail[k] == v && forall j :: 0 <= j < k ==> Clean(tail[j]);
            assert forall j :: 1 <= j < k + 1 ==> vs[j] == tail[j - 1];
            assert vs[k + 1] == v && forall j :: 0 <= j < k + 1 ==> Clean(vs[j]);
          }
          if k :| 0 <= k < |vs| && vs[k] == v && forall j :: 0 <= j < k ==> Clean(vs[j]) {
            assert tail[k - 1] == v && forall j :: 0 <= j < k - 1 ==> Clean(vs[j + 1]) && tail[j] == vs[j + 1];
          }
        }
      }
      assert forall k :: 0 <= k < |tail| ==> tail[k] == vs[k + 1];
      assert forall k :: 1 <= k < |vs| ==> vs[k] == tail[k - 1];
    }
  }

  ghost predicate ExitedWith(p: Pod, codes: set<int>)
  {
    p.containers != [] &&
    forall c :: c in p.containers ==> c.restartCount == 0 && c.terminated.Some? && c.terminated.value in codes
  }

  lemma {:induction false} PodPassedOrFailed(p: Pod)
    ensures PodVerdict(p) == Passed <==> ExitedWith(p, {0})
    ensures Clean(PodVerdict(p)) <==> ExitedWith(p, {0, 99})
    ensures PodVerdict(p) == Failed ==> exists c :: c in p.containers && c.terminated == Some(99)
  {
    if p.containers != [] {
      var vs := ContainerVerdicts(p.containers);
      VerdictMeaning(vs);
      assert forall k :: 0 <= k < |vs| ==> vs[k] == ContainerVerdict(p.containers[k]);
      if Verdict(vs) == Failed {
        var k :| 0 <= k < |vs| && vs[k] == Failed;
        assert p.containers[k] in p.containers && p.containers[k].terminated == Some(99);
      }
    }
  }

  /** Passed exactly when every pod reports containers and all of them ended with code 0
      and no restart. */
  lemma {:induction false} PassedIff(pods: seq<Pod>)
    ensures PodsVerdict(pods) == Passed <==> forall p :: p in pods ==> ExitedWith(p, {0})
  {
    var vs := PodVerdicts(pods);
    VerdictMeaning(vs);
    forall p | p in pods ensures PodVerdict(p) == Passed <==> ExitedWith(p, {0}) {
      PodPassedOrFailed(p);
    }
    assert forall k :: 0 <= k < |pods| ==> vs[k] == PodVerdict(pods[k]) && pods[k] in pods;
  }

  /** Failed exactly when all containers ended with 0 or 99, none restarted, and some ended
      with 99. */
  lemma {:induction false} FailedIff(pods: seq<Pod>)
    ensures PodsVerdict(pods) == Failed <==>
            && (forall p :: p in pods ==> ExitedWith(p, {0, 99}))
            && (exists p, c :: p in pods && c in p.containers && c.terminated == Some(99))
  {
    var vs := PodVerdicts(pods);
    VerdictMeaning(vs);
    assert forall k :: 0 <= k < |pods| ==> vs[k] == PodVerdict(pods[k]) && pods[k] in pods;
    forall p | p in pods
      ensures Clean(PodVerdict(p)) <==> ExitedWith(p, {0, 99})
      ensures PodVerdict(p) == Passed <==> ExitedWith(p, {0})
      ensures PodVerdict(p) == Failed ==> exists c :: c in p.containers && c.terminated == Some(99)
    {
      PodPassedOrFailed(p);
    }
    if Failed in vs {
      var k :| 0 <= k < |vs| && vs[k] == Failed;
      assert pods[k] in pods;
    }
    if (forall p :: p in pods ==> ExitedWith(p, {0, 99})) &&
       exists p, c :: p in pods && c in p.containers && c.terminated == Some(99) {
      var p, c :| p in pods && c in p.containers && c.terminated == Some(99);
      var k :| 0 <= k < |pods| && pods[k] == p;
      assert !ExitedWith(p, {0});
      assert vs[k] == Failed;
    }
  }

  predicate Broken(c: ContainerStatus) {
    c.restartCount > 0 || (c.terminated.Some? && c.terminated.value !in {0, 99})
  }

  predicate ExitedCleanly(c: ContainerStatus) {
    c.restartCount == 0 && c.terminated in {Some(0), Some(99)}
  }

  /** Some container of the pod is broken, and those listed before it ended with 0 or 99. */
  ghost predicate BreaksFirst(p: Pod)
  {
    exists m :: 0 <= m < |p.containers| && Broken(p.containers[m])
                && forall j :: 0 <= j < m ==> ExitedCleanly(p.containers[j])
  }

  /** The same for a list of pods: nothing still running is listed before the broken one. */
  ghost predicate BrokenFirst(pods: seq<Pod>)
  {
    exists k :: 0 <= k < |pods| && BreaksFirst(pods[k])
                && forall i :: 0 <= i < k ==> ExitedWith(pods[i], {0, 99})
  }

  /** The first entry that is not clean says Errored. */
  ghost predicate ErroredFirst(vs: seq<RunState>)
  {
    exists k :: 0 <= k < |vs| && vs[k] == Errored && forall j :: 0 <= j < k ==> Clean(vs[j])
  }

  lemma {:induction false} VerdictErroredIff(vs: seq<RunState>)
    ensures Verdict(vs) == Errored <==> ErroredFirst(vs)
  {
    VerdictMeaning(vs);
    assert !Clean(Errored);
  }

  lemma {:induction false} PodErroredIff(p: Pod)
    ensures PodVerdict(p) == Errored <==> BreaksFirst(p)
  {
    var cs, vs := p.containers, ContainerVerdicts(p.containers);
    VerdictErroredIff(vs);
    assert forall k :: 0 <= k < |cs| ==> vs[k] == ContainerVerdict(cs[k]);
    assert forall k :: 0 <= k < |cs| ==> (vs[k] == Errored <==> Broken(cs[k]));
    assert forall k :: 0 <= k < |cs| ==> (Clean(vs[k]) <==> ExitedCleanly(cs[k]));
  }

  /** Errored exactly when a container restarted or ended with another code, and everything
      listed before it ended with 0 or 99. */
  lemma {:induction false} ErroredIff(pods: seq<Pod>)
    ensures PodsVerdict(pods) == Errored <==> BrokenFirst(pods)
  {
    var vs := PodVerdicts(pods);
    VerdictErroredIff(vs);
    forall k | 0 <= k < |pods|
      ensures vs[k] == Errored <==> BreaksFirst(pods[k])
      ensures Clean(vs[k]) <==> ExitedWith(pods[k], {0, 99})
    {
      PodErroredIff(pods[k]);
      PodPassedOrFailed(pods[k]);
    }
  }

  /** Passed and Failed do not depend on the order the pods are listed in. */
  lemma {:induction false} PassedAndFailedIgnoreOrder(pods: seq<Pod>, pods': seq<Pod>)
    requires multiset(pods) == multiset(pods')
    ensures PodsVerdict(pods) == Passed <==> PodsVerdict(pods') == Passed
    ensures PodsVerdict(pods) == Failed <==> PodsVerdict(pods') == Failed
  {
    assert forall p :: p in pods <==> p in multiset(pods);
    assert forall p :: p in pods' <==> p in multiset(pods');
    PassedIff(pods);
    PassedIff(pods');
    FailedIff(pods);
    FailedIff(pods');
  }

  ghost predicate Has(pods: seq<Pod>, v: RunState)
  {
    exists p :: p in pods && PodVerdict(p) == v
  }

  lemma {:induction false} ErroredWhenNothingRuns(pods: seq<Pod>)
    ensures Has(pods, Errored) && !Has(pods, Running) ==> PodsVerdict(pods) == Errored
    ensures Has(pods, Running) && !Has(pods, Errored) ==> PodsVerdict(pods) == Running
    ensures PodsVerdict(pods) == Errored ==> Has(pods, Errored)
    ensures PodsVerdict(pods) == Running ==> Has(pods, Running)
  {
    var vs := PodVerdicts(pods);
    VerdictMeaning(vs);
    assert forall k :: 0 <= k < |pods| ==> vs[k] == PodVerdict(pods[k]) && pods[k] in pods;
    if Has(pods, Errored) {
      var p :| p in pods && PodVerdict(p) == Errored;
      var k :| 0 <= k < |pods| && pods[k] == p;
      assert vs[k] == Errored;
    }
    if Has(pods, Running) {
      var p :| p in pods && PodVerdict(p) == Running;
      var k :| 0 <= k < |pods| && pods[k] == p;
      assert vs[k] == Running;
    }
  }

  lemma {:induction false} MovedToFront(pods: seq<Pod>, p: Pod) returns (front: seq<Pod>)
    requires p in pods
    ensures front != [] && front[0] == p && multiset(front) == multiset(pods)
  {
    var k :| 0 <= k < |pods| && pods[k] == p;
    front := [p] + pods[..k] + pods[k + 1..];
    assert pods == pods[..k] + [p] + pods[k + 1..];
  }

  /** The answer is the same for every order of the pods exactly when no broken pod is
      listed together with one that is still running. */
  lemma {:induction false} OrderIndependentIff(pods: seq<Pod>)
    ensures (forall pods': seq<Pod> :: multiset(pods') == multiset(pods) ==> PodsVerdict(pods') == PodsVerdict(pods))
            <==> !(Has(pods, Errored) && Has(pods, Running))
  {
    if Has(pods, Errored) && Has(pods, Running) {
      var p :| p in pods && PodVerdict(p) == Errored;
      var q :| q in pods && PodVerdict(q) == Running;
      var a := MovedToFront(pods, p);
      var b := MovedToFront(pods, q);
      VerdictHead(a);
      VerdictHead(b);
    } else {
      forall pods': seq<Pod> | multiset(pods') == multiset(pods)
        ensures PodsVerdict(pods') == PodsVerdict(pods)
      {
        assert forall p :: p in pods' <==> p in multiset(pods');
        assert forall p :: p in pods <==> p in multiset(pods);
        PassedAndFailedIgnoreOrder(pods, pods');
        ErroredWhenNothingRuns(pods);
        ErroredWhenNothingRuns(pods');
      }
    }
  }

  function Rank(v: RunState): nat
  {
    match v
    case Running => 0
    case Passed => 1
    case Failed => 2
    case Errored => 3
    case Aborted => 4
  }

  /** A pod's verdict is the highest of its containers' and one of them. */
  ghost predicate PodMaximum(p: Pod)
  {
    && PodVerdict(p) in {Passed, Failed, Errored}
    && (forall c :: c in p.containers ==> Rank(ContainerVerdict(c)) <= Rank(PodVerdict(p)))
    && (exists c :: c in p.containers && ContainerVerdict(c) == PodVerdict(p))
  }

  lemma {:induction false} NoRunningIsMaximum(vs: seq<RunState>)
    requires vs != []
    requires forall k :: 0 <= k < |vs| ==> vs[k] in {Passed, Failed, Errored}
    ensures forall k :: 0 <= k < |vs| ==> Rank(vs[k]) <= Rank(Verdict(vs))
    ensures Verdict(vs) in vs
  {
    VerdictMeaning(vs);
    assert vs[0] in vs;
    if Errored in vs {
      assert Verdict(vs) == Errored;
    }
  }

  lemma {:induction false} PodsMaximum(pods: seq<Pod>)
    requires pods != [] && forall p :: p in pods ==> PodVerdict(p) in {Passed, Failed, Errored}
    ensures forall p :: p in pods ==> Rank(PodVerdict(p)) <= Rank(PodsVerdict(pods))
    ensures exists p :: p in pods && PodVerdict(p) == PodsVerdict(pods)
  {
    var vs := PodVerdicts(pods);
    assert forall k :: 0 <= k < |vs| ==> vs[k] == PodVerdict(pods[k]) && pods[k] in pods;
    NoRunningIsMaximum(vs);
    var k :| 0 <= k < |vs| && vs[k] == Verdict(vs);
    assert pods[k] in pods;
  }

  lemma {:induction false} PodTerminatedIsMaximum(p: Pod)
    requires p.containers != []
    requires forall c :: c in p.containers ==> c.terminated.Some?
    ensures PodMaximum(p)
  {
    var vs := ContainerVerdicts(p.containers);
    assert forall k :: 0 <= k < |vs| ==> vs[k] == ContainerVerdict(p.containers[k]) && p.containers[k] in p.containers;
    NoRunningIsMaximum(vs);
    var k :| 0 <= k < |vs| && vs[k] == Verdict(vs);
    assert p.containers[k] in p.containers;
  }

  /** Once every container has terminated, the answer is the highest of the containers'
      own answers under Errored > Failed > Passed, in whatever order they are listed. */
  lemma {:induction false} TerminatedIsMaximum(pods: seq<Pod>)
    requires pods != []
    requires forall p :: p in pods ==> p.containers != []
    requires forall p, c :: p in pods && c in p.containers ==> c.terminated.Some?
    ensures forall p, c :: p in pods && c in p.containers ==> Rank(ContainerVerdict(c)) <= Rank(PodsVerdict(pods))
    ensures exists p, c :: p in pods && c in p.containers && ContainerVerdict(c) == PodsVerdict(pods)
  {
    forall p | p in pods ensures PodMaximum(p) {
      PodTerminatedIsMaximum(p);
    }
    PodsMaximum(pods);
    var p :| p in pods && PodVerdict(p) == PodsVerdict(pods);
    assert PodMaximum(p);
    forall p, c | p in pods && c in p.containers
      ensures Rank(ContainerVerdict(c)) <= Rank(PodsVerdict(pods))
    {
      assert PodMaximum(p);
    }
  }

  // ---------- What later polls may answer ----------

  /** A container starts, terminates once, or restarts (and then counts one restart more). */
  ghost predicate ContainerAdvances(c: ContainerStatus, c': ContainerStatus)
  {
    && c.restartCount <= c'.restartCount
    && (c.restartCount == c'.restartCount && c.terminated.Some? ==> c'.terminated == c.terminated)
  }

  /** Container statuses appear all at once and are then updated one by one. */
  ghost predicate PodAdvances(p: Pod, p': Pod)
  {
    p.containers == [] ||
    (|p'.containers| == |p.containers| &&
     forall k :: 0 <= k < |p.containers| ==> ContainerAdvances(p.containers[k], p'.containers[k]))
  }

  ghost predicate PodsAdvance(pods: seq<Pod>, pods': seq<Pod>)
  {
    |pods'| == |pods| && forall k :: 0 <= k < |pods| ==> PodAdvances(pods[k], pods'[k])
  }

  lemma {:induction false} VerdictIsMonotone(vs: seq<RunState>, vs': seq<RunState>)
    requires |vs| == |vs'| && Aborted !in vs
    requires forall k :: 0 <= k < |vs| ==> MayBecome(vs[k], vs'[k])
    ensures MayBecome(Verdict(vs), Verdict(vs'))
  {
    if vs == [] {
    } else {
      VerdictIsMonotone(vs[1..], vs'[1..]);
    }
  }

  /** Whatever the early returns skipped, a later poll of the same pods may only move the
      verdict up: Errored stays, Passed and Failed stay or become Errored. */
  lemma {:induction false} VerdictOnlyMovesUp(pods: seq<Pod>, pods': seq<Pod>)
    requires PodsAdvance(pods, pods')
    ensures MayBecome(PodsVerdict(pods), PodsVerdict(pods'))
  {
    forall k | 0 <= k < |pods| ensures MayBecome(PodVerdict(pods[k]), PodVerdict(pods'[k])) {
      if pods[k].containers != [] {
        VerdictIsMonotone(ContainerVerdicts(pods[k].containers), ContainerVerdicts(pods'[k].containers));
      }
    }
    VerdictIsMonotone(PodVerdicts(pods), PodVerdicts(pods'));
  }

  /** The same over any number of polls. */
  lemma {:induction false} PollsOnlyMoveUp(polls: seq<seq<Pod>>, i: nat, j: nat)
    requires i <= j < |polls|
    requires forall n :: 0 <= n < |polls| - 1 ==> PodsAdvance(polls[n], polls[n + 1])
    ensures MayBecome(PodsVerdict(polls[i]), PodsVerdict(polls[j]))
    decreases j - i
  {
    if i == j {
    } else {
      VerdictOnlyMovesUp(polls[i], polls[i + 1]);
      PollsOnlyMoveUp(polls, i + 1, j);
      MayBecomeTransitive(PodsVerdict(polls[i]), PodsVerdict(polls[i + 1]), PodsVerdict(polls[j]));
    }
  }

  lemma {:induction false} VerdictOfOne(v: RunState)
    ensures Verdict([v]) == v
  {
    assert [v][1..] == [];
  }

  lemma {:induction false} Showing(v: RunState, restarted: bool) returns (p: Pod)
    requires v != Aborted && (restarted ==> v == Errored)
    ensures PodVerdict(p) == v && |p.containers| == 1
    ensures v == Running ==> p == Pod([ContainerStatus(0, None)])
    ensures v == Passed ==> p == Pod([ContainerStatus(0, Some(0))])
    ensures v == Failed ==> p == Pod([ContainerStatus(0, Some(99))])
    ensures v == Errored ==> p == Pod([if restarted then ContainerStatus(1, None) else ContainerStatus(0, Some(1))])
  {
    var c := if v == Running then ContainerStatus(0, None)
      else if v == Passed then ContainerStatus(0, Some(0))
      else if v == Failed then ContainerStatus(0, Some(99))
      else if restarted then ContainerStatus(1, None)
      else ContainerStatus(0, Some(1));
    p := Pod([c]);
    assert ContainerVerdicts([c]) == [v];
    VerdictOfOne(v);
  }

  /** No step allowed by MayBecome is missing: every allowed move is made by some pod. */
  lemma {:induction false} EveryMoveHappens(v: RunState, w: RunState)
    requires v != Aborted && w != Aborted && MayBecome(v, w)
    ensures exists pods, pods' :: PodsAdvance(pods, pods') && PodsVerdict(pods) == v && PodsVerdict(pods') == w
  {
    var a := Showing(v, false);
    var b := Showing(w, v != w && v != Running);
    assert PodAdvances(a, b);
    VerdictOfOne(v);
    VerdictOfOne(w);
    assert PodVerdicts([a]) == [v] && PodVerdicts([b]) == [w];
    assert PodsAdvance([a], [b]);
    assert PodsVerdict([a]) == v && PodsVerdict([b]) == w;
  }
}
