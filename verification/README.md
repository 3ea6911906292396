# A verified model of the k6 plugin for Argo Rollouts

The plugin starts k6 load tests for a rollout, polls them, judges them, and removes what it
created. This project models the parts of it where that is delicate and proves them correct.
It checks with `dafny verify dfyconfig.toml`.

- **Verdict** (`ExitCode.dfy`): the loop over runner pods, with its early returns, while the
  containers still move.
- **Run IDs** (`RunID.dfy`): the only handle on a custom resource, and resource names.
- **Log scanner** (`Scanner.dfy`, `Printer.dfy`, `PrintScan.dfy`, `CutEnd.dfy`): finding the k6
  summary in a pod log from the end, against printers for JSON trees on one line and on many, in
  whole logs and in logs cut at either end.
- **Metrics** (`Aggregate.dfy`, `Percentile.dfy`, `PodSummaries.dfy`, `PrintedPods.dfy`):
  extraction, weighted aggregation over pods, how far it is from the percentile of the pooled
  samples, and the whole way from what pods print to what is measured.
- **Backend** (`Operator.dfy`): the k6-operator provider over a store of custom resources, whose
  calls may fail.
- **Step plugin** (`Step.dfy`, `StepMeaning.dfy`, `Controller.dfy`): one Run, what it answers for
  every input, and whole runs under a controller that calls Run, Terminate and Abort in any order.
- **Step on the backend** (`Ledger.dfy`, `Driver.dfy`, `Conservation.dfy`, `StableVerdicts.dfy`,
  `SampleRuns.dfy`): the same in a cluster that others change too: which resources exist because
  of the step, when they are gone again, and which verdicts a whole run can report. `Driver` ties
  the transition system to the plugin's methods, `SampleRuns` shows that the failures happen.
- **Metric plugin** (`Metric.dfy`): the run ID's way through a measurement's life, and garbage
  collection.

## How to read it

Loops and state changes of the source are methods, each proved against a specification
function; the lemmas then say what that specification means. `Step.RunStep` and everything in
`Controller` hold for arbitrary provider answers; from `Ledger` on the answers come from the store.

The controller stores the status a Run returns when the call did not fail and keeps the old one
otherwise; configuration is fixed and the clock does not go backwards. Times are integers in
nanoseconds; the stored trigger time is cut to whole seconds (section 5.6 of RFC 3339). Numbers
that are float64 in the source are exact reals. JSON parsing, number formatting and the
hash in a resource name are parameters. That the percentiles pods report are nearest-rank
percentiles is an assumption about k6, not something the plugin computes. Strings are sequences of characters. Every lemma turns
automatic induction off: each proof is the one written.

Where the code and its documentation disagree, the model follows the code:

- `internal/provider/operator/summary.go:90` says a block that does not parse ends the search;
  the code goes on and reports the error only when no summary is found (lines 154-159, 171-173).
- `internal/provider/operator/exitcode.go:66-68` lists precedence Errored > Failed > Passed; with
  a running container in the list the answer depends on the order
  (`ExitCode.OrderIndependentIff`).
- `internal/provider/provider.go:50-52` says StopRun does nothing for a run that has ended; on the
  k6-operator backend it deletes the resource all the same.
- `internal/step/step.go:213-216` expects Run to be replayed after a terminal result; on the
  k6-operator backend the replay then fails to read the resource it deleted
  (`StableVerdicts.ReplayAfterVerdict`).
- `examples/k6-operator/README.md:133` says completed runs are not deleted; the step plugin
  deletes them (`internal/step/step.go:226-239`).

What turned out not to hold without a condition, and the exact condition:

- A printed summary is not always found, because braces inside strings are counted
  (`PrintScan.UnbalancedStringHidesObject`). A pretty-printed object is what the parser gets
  first if and only if the braces in its strings cancel in total and no proper tail of its lines
  balances, which is computed from the tree (`PrintScan.PrettyPrintIsFirstBlockIff`); on one line the first half is enough
  (`PrintScan.CompactPrintIsFirstBlockIff`).
- A verdict can be taken back after a failed pod listing (`Operator.FailedListingIsNotFinal`,
  `Operator.TakenBackIff`). Over a whole run of the step, while others only move the resource on,
  verdicts fail to rise if and only if a finished run is read without its pods and read unbroken
  later (`StableVerdicts.VerdictsRiseIff`; such a run is `SampleRuns.ATakenBackRun`). With working
  deletes the resource is gone by then, so there is one verdict at most
  (`StableVerdicts.OneVerdict`).
- A step does not always give back what it took: a trigger whose first poll fails in time is
  forgotten, under exactly that guard (`Conservation.FailedFirstPollLeaksResource`). With working
  deletes, and others leaving such resources alone, the cluster is restored from the first final
  status on if and only if no Run met the guard
  (`Conservation.EndedStepRestoresStoreIff`; a run that leaks is `SampleRuns.ALeakingRun`).
- A summary whose end is cut off is reported as truncated only if nothing that is left closes
  (`CutEnd.CutEndIsTruncatedIff`); it is never read as a whole (`CutEnd.OnlyNestedPartsAreFound`).
- A failed Cleanup is not repeated. At any moment, whatever fails, the cluster is restored if and
  only if everything the step's calls made was cleared by a later delete that went through, or by
  others (`Conservation.RestoredIff`).

## Model

| member | source | states |
|---|---|---|
| `Strings.JoinSplit` | internal/provider/operator/summary.go:96 | splitting a log into lines loses nothing, and no line holds a line break |
| `Strings.SplitJoin` | internal/provider/operator/summary.go:152 | lines joined with line breaks split into the same lines again |
| `Strings.TrimSpaceSuffix` | internal/provider/operator/summary.go:107-114 | a line counts as closing exactly when its last non-blank character is the brace |
| `Strings.BlanksDoNotMatter` | internal/provider/operator/summary.go:107-114 | spaces, tabs and carriage returns after a line do not change whether it closes |
| `ExitCode.CheckRunnerExitCodes` | internal/provider/operator/exitcode.go:75-127 | the double loop with early returns answers with the first container (or empty pod) that is running or broken, else Failed if any failed, else Passed; a failed or empty listing is Errored with an error |
| `ExitCode.VerdictMeaning` | internal/provider/operator/exitcode.go:87-126 | every answer read off the listing order without recursion: Passed, Failed, and Running or Errored by the first decisive entry |
| `ExitCode.PassedIff` | internal/provider/operator/exitcode.go:21-33 | Passed exactly when every pod has containers and all ended with code 0 and no restart |
| `ExitCode.FailedIff` | internal/provider/operator/exitcode.go:21-33 | Failed exactly when all ended with 0 or 99, none restarted, and some ended with 99 |
| `ExitCode.ErroredIff` | internal/provider/operator/exitcode.go:87-126 | Errored exactly when some container restarted or ended with another code and everything listed before it ended with 0 or 99 |
| `ExitCode.PassedAndFailedIgnoreOrder` | internal/provider/operator/exitcode.go:87-126 | Passed and Failed do not depend on the order of the pods |
| `ExitCode.OrderIndependentIff` | internal/provider/operator/exitcode.go:87-126 | the answer is the same for every order of the pods exactly when no broken pod is listed together with a running one |
| `ExitCode.TerminatedIsMaximum` | internal/provider/operator/exitcode.go:64-74 | once every container has terminated the answer is the maximum under Errored > Failed > Passed, in any order |
| `ExitCode.VerdictOnlyMovesUp` | internal/provider/operator/exitcode.go:87-126 | after containers start, terminate or restart, Errored stays Errored and Passed or Failed stay or become Errored, despite the early returns |
| `ExitCode.PollsOnlyMoveUp` | internal/provider/operator/exitcode.go:87-126 | the same between any two of any number of polls |
| `ExitCode.EveryMoveHappens` | internal/provider/operator/exitcode.go:95-118 | each move the previous rows allow is made by some pod |
| `RunID.DecodeEncode` | internal/provider/operator/testrun.go:102-123 | decoding undoes encoding for every slash-free namespace, recognised resource and slash-free name |
| `RunID.EncodeDecode` | internal/provider/operator/testrun.go:102-123 | encoding undoes decoding for every accepted string |
| `RunID.AcceptedIff` | internal/provider/operator/testrun.go:108-123 | a string is accepted exactly when it has two slashes and a recognised word between them |
| `RunID.TestRunNameKeepsHash` | internal/provider/operator/testrun.go:53-66 | names start with "k6-", carry the rollout name up to 241 characters and the whole hash, have at most 253 characters and no slash, and collide only when the hashes do |
| `Scanner.FindSummaryJSON` | internal/provider/operator/summary.go:91-186 | the backward scan returns Outcome of the lines of the log and visits each line at most twice |
| `Scanner.WalkBack` | internal/provider/operator/summary.go:119-144 | walking back from a closing line finds the nearest line from which the braces balance, or reports that there is none |
| `Scanner.CountBraces` | internal/provider/operator/summary.go:131-138 | the depth moves by the closing minus the opening braces of the line |
| `Scanner.NoSummary` | internal/provider/operator/summary.go:170-185 | at the top of the log: the parse error, else truncated if nothing closed but something opened, else nothing |
| `Scanner.OpenFrom` | internal/provider/operator/summary.go:122-144 | the line found is the nearest one that balances; when none is found, none balances |
| `Scanner.CuttingIsUnique` | internal/provider/operator/summary.go:96-168 | the cutting of a log is the only one into disjoint shortest balanced blocks that hold every closing line down to the first unbalanced tail |
| `Scanner.OutcomeStep` | internal/provider/operator/summary.go:151-168 | one block decides: unparseable records the error and goes on, both keys present ends the scan, otherwise it goes on |
| `Scanner.OutcomeMeaning` | internal/provider/operator/summary.go:96-186 | the answer from the blocks alone: found exactly when some block parses to an object with both keys, and then the one nearest to the end; else truncated, else the parse error of the topmost bad block, else nothing |
| `Scanner.CutIsLocal` | internal/provider/operator/summary.go:105-168 | cutting the first n lines depends on those lines only |
| `Printer.PrettyTails` | internal/provider/operator/summary.go:119-144 | the braces of every tail of a pretty print, computed from the tree: those in the keys and strings from there on, and one for every object still open |
| `Printer.CompactNet` | internal/provider/operator/summary.go:128-138 | the braces that do not cancel in a one-line print are those in its strings |
| `PrintScan.PrettyPrintIsFirstBlockIff` | internal/provider/operator/summary.go:96-152 | for any object tree, pretty-printed after arbitrary lines and before lines that close nothing, the printed lines are the first block if and only if the braces in its strings cancel in total and no proper tail of its lines balances |
| `PrintScan.BalancedIsRecoverable` | internal/provider/operator/summary.go:119-144 | objects whose strings each hold as many opening as closing braces meet that condition |
| `PrintScan.PrettyPrintIsFirstBlock` | internal/provider/operator/summary.go:96-152 | for such objects the parser gets exactly the printed text, and the scan goes on above it |
| `PrintScan.CompactPrintIsFirstBlockIff` | internal/provider/operator/summary.go:96-152 | a one-line print is the first block if and only if the braces in its strings cancel in total |
| `PrintScan.PrintedSummaryIsFound` | internal/provider/operator/summary.go:77-90 | a pretty-printed summary that meets the condition is found and parsed from its own text whatever precedes it |
| `PrintScan.CompactSummaryIsFound` | internal/provider/operator/summary.go:77-90 | a summary printed on one line is found and parsed from its own text |
| `PrintScan.PrintedSummaryIsFoundInText` | internal/provider/operator/summary.go:91-186 | the same for the log as one string, through joining and splitting |
| `PrintScan.LaterObjectsDoNotHideSummary` | internal/provider/operator/summary.go:161-168 | an object without both keys printed after the summary does not hide it |
| `PrintScan.CutPrintIsTruncated` | internal/provider/operator/summary.go:119-149 | a log that starts strictly inside a pretty-printed object, no proper tail of which balances, is reported as truncated, never as a nested object |
| `PrintScan.CutPrintsAreTruncatedIff` | internal/provider/operator/summary.go:119-149 | that is exact: every such log is reported as truncated if and only if no proper tail of the print balances |
| `PrintScan.TailNeverMisreads` | internal/provider/operator/summary.go:281-292 | for a log read from its last k lines: found when all printed lines are in, truncated when the cut is inside them, not found otherwise |
| `CutEnd.CutObjectIsNeverParsed` | internal/provider/operator/summary.go:281-292 | when the last lines of a print are missing, nothing handed to the parser starts at its first line, whatever precedes it |
| `CutEnd.OnlyNestedPartsAreFound` | internal/provider/operator/summary.go:281-292 | what is found in such a log is the text of a nested part below the first line |
| `CutEnd.CutEndIsTruncatedIff` | internal/provider/operator/summary.go:174-184 | for strings that balance, the missing end is reported as truncated if and only if no line that is left closes |
| `PrintScan.UnbalancedStringHidesObject` | internal/provider/operator/summary.go:129-130 | braces inside strings are counted: a complete object holding the string "}" is reported as truncated, one holding "{" loses its first line |
| `PrintScan.CancellingStringsDependOnOrder` | internal/provider/operator/summary.go:129-138 | strings that cancel only together are harmless when the opening brace comes first and lose the object when it comes second |
| `Aggregate.ExtractMetricsFromSummary` | internal/provider/operator/summary.go:195-227 | the fields are the values under the named metrics and keys, zero when absent, med before p(50), and rate times count as failed count |
| `Aggregate.AggregateMetrics` | internal/provider/operator/summary.go:242-279 | the accumulating loop computes the sums and quotients of Aggregated, with the empty, single and zero-total cases |
| `Aggregate.AggregationIgnoresOrder` | internal/provider/operator/summary.go:242-279 | reordering the pods changes nothing |
| `Aggregate.ErrorRateIsExact` | internal/provider/operator/summary.go:195-279 | if every pod reports failed/total, extraction and aggregation give the failed fraction of all requests pooled, between 0 and 1 |
| `Aggregate.ThroughputIsExact` | internal/provider/operator/summary.go:215-276 | if every pod reports its requests per second, extraction and aggregation give their sum |
| `Aggregate.NoTrafficIsZero` | internal/provider/operator/summary.go:242-265 | without a single request the aggregate of several pods is zero in every metric, and one pod is passed on as it is |
| `Aggregate.AggregatedPercentileBounds` | internal/provider/operator/summary.go:229-279 | a combined percentile lies between the smallest and largest of the pods that counted requests |
| `Aggregate.AggregationKeepsPercentileOrder` | internal/provider/operator/summary.go:229-279 | for any two levels, if one percentile is at most the other in every pod it is in the aggregate, whether or not the third is reported |
| `Percentile.PercentileExists` | internal/provider/operator/summary.go:236-241 | every nonempty sample has exactly one nearest-rank percentile, so the following rows speak of something |
| `Percentile.PooledPercentileBounds` | internal/provider/operator/summary.go:236-241 | the true percentile of all samples pooled lies between the smallest and largest per-pod percentile |
| `Percentile.ApproximationError` | internal/provider/operator/summary.go:195-279 | at any level the summaries report truthfully ("med" before "p(50)"), whatever the others, extraction and aggregation and the true percentile never differ by more than the spread of the per-pod percentiles |
| `Percentile.ApproximationIsNotExact` | internal/provider/operator/summary.go:236-241 | the combination is an approximation: truthful pods exist for which it is not the true median |
| `PodSummaries.ParseSummaryFromPods` | internal/provider/operator/summary.go:304-379 | metrics are the aggregate over the pods whose logs hold a summary, in order; a failed or empty listing is an error |
| `PodSummaries.SilentIff` | internal/provider/operator/summary.go:320-352 | a pod contributes nothing exactly when its log is unreadable or no summary is found in it, and else what is extracted from that summary |
| `PodSummaries.MetricsFailIff` | internal/provider/operator/summary.go:304-314 | there are no metrics exactly when pods cannot be listed or there is none |
| `PodSummaries.MetricsOfSpeakingPods` | internal/provider/operator/summary.go:316-362 | metrics equal the aggregate over the pods whose logs hold a summary, in order, and are zero when none does |
| `PodSummaries.SilentPodsDoNotMatter` | internal/provider/operator/summary.go:316-352 | nonempty pod lists that differ only in pods without a readable summary, at any positions, give the same metrics |
| `PodSummaries.InsertSilentPod` | internal/provider/operator/summary.go:316-352 | a pod without a readable summary may be inserted or removed anywhere |
| `PodSummaries.PodOrderDoesNotMatter` | internal/provider/operator/summary.go:304-379 | the order of the pods does not matter |
| `PrintedPods.PrintedSummariesAreMeasured` | internal/provider/operator/summary.go:304-379 | for pods that print their summaries, among any that print none, the metrics are the aggregate of the extractions of exactly those summaries |
| `PrintedPods.TrafficIsMeasured` | internal/metric/metric.go:168-235 | end to end, from printed truthful summaries through poll and Resume: an http_req_failed measurement is the failed fraction of all requests, an http_reqs measurement the requests per second of all pods |
| `PrintedPods.DurationIsMeasured` | internal/metric/metric.go:168-235 | end to end, an http_req_duration measurement is off the true percentile of all requests by no more than the spread of the pods' own |
| `Operator.DynClient.Create` | internal/provider/operator/operator.go:259-263 | creating needs a fresh key and a slash-free name |
| `Operator.DynClient.Get` | internal/provider/operator/operator.go:293-298 | reading an absent resource is an error |
| `Operator.DynClient.Delete` | internal/provider/operator/operator.go:426-440 | deleting removes the key, or reports that it was absent |
| `Operator.K6OperatorProvider.TriggerRun` | internal/provider/operator/operator.go:194-271 | validation, script, defaults, resource kind and creation in this order; the returned run ID and the new store |
| `Operator.K6OperatorProvider.GetRunResult` | internal/provider/operator/operator.go:280-376 | the poll answer for any store, with metrics for passed and failed runs only |
| `Operator.K6OperatorProvider.StopRun` | internal/provider/operator/operator.go:386-388 | deletes the resource of the run ID; absence is no error |
| `Operator.K6OperatorProvider.Cleanup` | internal/provider/operator/operator.go:402-404 | deletes the resource of the run ID; absence is no error |
| `Operator.K6OperatorProvider.DeleteCR` | internal/provider/operator/operator.go:413-451 | an undecodable run ID or a failed delete changes nothing and is an error |
| `Operator.TriggerReturnsHandle` | internal/provider/operator/operator.go:249-270 | a successful trigger adds one new resource and its run ID decodes to that resource |
| `Operator.TriggerMeaning` | internal/provider/operator/operator.go:194-271 | a TestRun, or a PrivateLoadZone exactly when both cloud credentials are set, in the configured namespace or "default", is created exactly when the fields, the script and the API server allow it; which error otherwise |
| `Operator.DeleteMeaning` | internal/provider/operator/operator.go:413-451 | a delete errs exactly when the run ID is bad or the call failed, and otherwise removes exactly the named resource |
| `Operator.DeleteUndoesTrigger` | internal/provider/operator/operator.go:378-451 | deleting through the run ID restores the store, and doing it twice is an accepted no-op |
| `Operator.PassedResultIff` | internal/provider/operator/operator.go:300-375 | ThresholdsPassed exactly when Passed, exactly when finished and every container of a nonempty readable pod list ended with 0 and no restart |
| `Operator.PollMeaning` | internal/provider/operator/operator.go:280-376 | when a poll answers, and which of the four states: Errored exactly on stage "error" or a finished run that is unlisted, without pods, or broken first; Failed and Passed by exit codes; else Running |
| `Operator.MetricsOfPoll` | internal/provider/operator/operator.go:343-373 | a passed or failed run carries every metric under its own name, and everything else carries zeros |
| `Operator.LogsNeverChangeVerdict` | internal/provider/operator/operator.go:343-373 | log contents and parsing can change metric fields of passed and failed runs only, never the verdict |
| `Operator.ResourceVerdictOnlyMovesUp` | internal/provider/operator/operator.go:309-336 | polls of a resource whose stage and containers move forward only move up |
| `Operator.FailedListingIsNotFinal` | internal/provider/operator/operator.go:322-334 | a failed pod listing reads as Errored and the next poll may take it back |
| `Operator.TakenBackIff` | internal/provider/operator/operator.go:322-336 | as a resource advances, a later readable poll takes a verdict back if and only if it came from a failed listing of a finished run and the pods listed later hold no broken container before all that still runs |
| `Step.K6StepPlugin.Run` | internal/step/step.go:84-248 | result, error and provider calls are those of RunStep on the backend's answers, and the store changes by exactly those calls |
| `Step.K6StepPlugin.Watch` | internal/step/step.go:139-247 | the part of Run after a run ID is known: timeout, poll, phase, cleanup |
| `Step.K6StepPlugin.Terminate` | internal/step/step.go:251-254 | an empty result, and the stored run stopped if there is one |
| `Step.K6StepPlugin.Abort` | internal/step/step.go:257-260 | an empty result, and the stored run stopped if there is one |
| `Step.K6StepPlugin.StopActiveRun` | internal/step/step.go:265-298 | stops the run of a decodable state with a run ID, otherwise does nothing |
| `Step.PopulatedOwnerIsNamed` | internal/step/step.go:311-341 | a configured namespace wins over the rollout's, and a UID is never taken without a name |
| `Step.ParseTimeoutBounds` | internal/step/step.go:376-395 | accepted timeouts are positive and at most two hours; exactly the others are refused |
| `Step.CleanupErrorsAreInvisible` | internal/step/step.go:219-238 | whether deletes fail changes nothing in what Run returns: result, error, calls |
| `StepMeaning.RefusedConfigurationFails` | internal/step/step.go:84-102 | a missing or unacceptable configuration or timeout reports failure without error, call, status or requeue |
| `StepMeaning.ParsesIff` | internal/step/step.go:348-371 | which configurations are accepted, field by field, and that they are taken as they are |
| `StepMeaning.TimeoutIs` | internal/step/step.go:376-395 | an accepted timeout is the configured one, or five minutes when there is none |
| `StepMeaning.PopulatedIs` | internal/step/step.go:311-341 | which fields a rollout gives, and that it changes no others |
| `StepMeaning.SettledSays` | internal/step/step.go:176-247 | for any provider and each of its five states: phase, message, requeue, final status and cleanup |
| `StepMeaning.KnownRunAnswer` | internal/step/step.go:139-247 | every answer about a known run: unreadable start, timeout, unreadable resource, and what the resource shows |
| `StepMeaning.NewRunAnswer` | internal/step/step.go:113-174 | every answer when a run is to be triggered |
| `StepMeaning.SuccessfulIff` | internal/step/step.go:84-248 | for every input Run reports success exactly when the configuration is acceptable, the run is known and in time, and its resource is readable, finished, and every container of a nonempty readable list ended with 0 and no restart |
| `StepMeaning.RequeuesWhileRunning` | internal/step/step.go:176-247 | for every input Run asks to be called again after 15s exactly when it reports Running, and reports nothing exactly when it errs |
| `StepMeaning.StopsIff` | internal/step/step.go:265-298 | Terminate and Abort stop a run exactly when the configuration is acceptable and the status names one |
| `Controller.TriggersAreAccountedFor` | internal/step/step.go:113-137 | over any run every successful trigger is the stored run or one whose first Run then failed; poll-only mode triggers nothing |
| `Controller.HandleIsSticky` | internal/step/step.go:113-137 | from the first stored status on, run ID and trigger time never change, nothing is triggered again, CleanupDone never goes back |
| `Controller.CleanupAtMostOnce` | internal/step/step.go:223-239 | Cleanup is called at most once, exactly when the state records it, and always once a verdict is stored |
| `Controller.CleanupOnlyAfterVerdict` | internal/step/step.go:223-239 | every Cleanup directly follows a poll of the same run that said Passed, Failed or Errored |
| `Controller.FinalStatusOnlyRises` | internal/step/step.go:139-202 | if the provider's verdicts only move up, the stored final status goes from nothing to verdicts to TimedOut and never back |
| `Controller.TimedOutForGood` | internal/step/step.go:146-164 | once TimedOut is stored every later Run returns it |
| `Controller.TimedOutWithinOneSecond` | internal/step/step.go:136-147 | whole seconds in the state move the timeout forward by less than one second, and never back |
| `Controller.WaitsAreBounded` | internal/step/step.go:147-187 | with Run calls at least 15s apart at most timeout/15s + 1 of them return Running |
| `Controller.NeverMoreThan481Waits` | internal/step/step.go:376-395 | never more than 481 under the two-hour maximum |
| `Ledger.SysRunsAreRuns` | internal/step/step.go:84-298 | every run on the backend is a run of the provider-independent model, with the same state, so the results on those hold of it |
| `Ledger.RunOnStore` | internal/step/step.go:114-248 | what one Run does to the store: the new resource if it triggered, minus the watched one if it timed out or cleaned up |
| `Driver.Drive` | internal/step/step.go:84-298 | any sequence of Run, Terminate and Abort on the plugin, with others editing the cluster in between, ends in the status, calls and store the transition system gives |
| `Ledger.OnlyOwnResourcesChange` | internal/provider/operator/operator.go:194-271 | at every moment, whatever fails and whatever others do, the cluster differs from one without the step only in the resource of the stored run ID and those of dropped first attempts |
| `Conservation.RemainsIff` | internal/step/step.go:223-247 | a resource the step made is still there if and only if no StopRun or Cleanup naming it went through then or later, and nobody else removed it |
| `Conservation.RestoredIff` | internal/step/step.go:223-247 | at every moment, whatever fails and whatever others do, the cluster is as without the step if and only if everything its calls made was cleared then or later |
| `Conservation.DroppedIff` | internal/step/step.go:166-174 | one Run drops a run ID exactly when nothing is stored, the trigger succeeds, the first poll fails to read, and it is not late |
| `Conservation.FailedFirstPollLeaksResource` | internal/step/step.go:166-174 | a Run leaves a new resource that no status names exactly under that guard |
| `Conservation.NothingDroppedIff` | internal/step/step.go:113-174 | over a whole run something was dropped exactly when some Run met the guard |
| `Conservation.EndedStepLeavesOnlyDroppedRuns` | internal/step/step.go:223-247 | with working deletes, from the first final status on, replays included, only dropped first attempts can remain, and each does unless it was cleared |
| `Conservation.EndedStepRestoresStoreIff` | internal/step/step.go:223-247 | with working deletes, and others leaving dropped attempts alone, from the first final status on the cluster is as without the step if and only if no Run met the guard |
| `Conservation.QuietStepRestoresStoreIff` | internal/step/step.go:223-247 | with nobody else active the store is from then on as it was before the step if and only if no Run met the guard |
| `SampleRuns.APassingRun` | internal/step/step.go:84-248 | such runs exist: triggered, finished by the operator with a passing pod, reported as successful, and gone |
| `SampleRuns.ALeakingRun` | internal/step/step.go:166-174 | a whole run in which every delete works, nobody interferes, the step times out, and a resource is left |
| `SampleRuns.ATakenBackRun` | internal/step/step.go:176-202 | a whole run that reports Errored and then Passed |
| `StableVerdicts.OneVerdict` | internal/step/step.go:176-239 | with working deletes a whole run reports at most one verdict, even one from a failed listing, and the stored final status goes from nothing to it to TimedOut and never to another |
| `StableVerdicts.ReplayAfterVerdict` | internal/step/step.go:146-174 | a Run after a stored verdict fails to read the deleted resource, or reports the timeout when late |
| `StableVerdicts.VerdictsRiseIff` | internal/step/step.go:176-239 | over a whole run in which others only move the resource on, whatever fails, the verdicts only rise if and only if no Run in time reads a finished resource without its pods and a later one reads it unbroken |
| `StableVerdicts.OperatorVerdictsOnlyRise` | internal/step/step.go:176-202 | then the stored final status only rises too, from any moment to the end |
| `Metric.ControllingRolloutIsFirst` | internal/metric/metric.go:296-301 | only controlling Rollout owners give the rollout name, and the first of them does |
| `Metric.ParsesIff` | internal/metric/metric.go:329-357 | which configurations are accepted, field by field |
| `Metric.PopulatedIs` | internal/metric/metric.go:281-301 | which fields an analysis run gives, and that it changes no others |
| `Metric.MeasuredValue` | internal/metric/metric.go:360-387 | which number each metric and aggregation name selects, and that no other name is accepted |
| `Metric.K6MetricProvider.Run` | internal/metric/metric.go:123-164 | a running measurement that carries the configured or the triggered run ID, or an error; the new store |
| `Metric.K6MetricProvider.Resume` | internal/metric/metric.go:168-235 | the measurement after one poll: metadata, value, phase and error cases |
| `Metric.ResumedMeaning` | internal/metric/metric.go:168-235 | for every input the phase, value, metadata and end of the measurement after a poll |
| `Metric.K6MetricProvider.Terminate` | internal/metric/metric.go:238-267 | an error measurement, and the run of the measurement stopped |
| `Metric.TerminatedIsError` | internal/metric/metric.go:238-267 | a terminated measurement is an error and over |
| `Metric.K6MetricProvider.GarbageCollect` | internal/metric/metric.go:77-118 | Cleanup is called for exactly the nonempty run IDs of the matching metric, in order, whatever individual calls answer |
| `Metric.K6MetricProvider.CollectMeasurements` | internal/metric/metric.go:97-115 | the inner loop over one result's measurements |
| `Metric.MatchingRunIDsAre` | internal/metric/metric.go:93-101 | which run IDs are collected: the nonempty ones of measurements in results with the metric's name |
| `Metric.CollectedInOrder` | internal/metric/metric.go:93-115 | run IDs are collected in the order of the results and as often as they occur |
| `Metric.DeletesAreExact` | internal/metric/metric.go:93-117 | a resource is gone exactly when a delete that named it did not fail; all others are untouched |
| `Metric.CollectionIsExactAndIdempotent` | internal/metric/metric.go:72-77 | with no delete errors the store loses exactly the named resources and a second pass changes nothing |
| `Metric.RunIDIsCarried` | internal/metric/metric.go:166-267 | any number of Resume and Terminate calls keep the measurement's run ID |
| `Metric.CollectedInTheEnd` | internal/metric/metric.go:57-118 | a resource created by Run is gone after collection, whatever happened to its measurement in between |
| `Metric.ThresholdsValueIff` | internal/metric/metric.go:205-223 | a thresholds measurement is worth 1 exactly when it ends Successful, exactly when the run passed |

## Left out

- Scanner.FindSummaryJSON: works on text as characters; bytes that are not valid UTF-8 are not modelled.
- CutEnd.CutEndIsTruncatedIff: the byte limit of a log read may cut inside a line; a partial last line that happens to end in a closing brace is not covered, nor are strings that do not balance.
- Controller.TriggersAreAccountedFor: assumes a provider never returns an empty run ID without an error; the k6-operator backend never does (`Operator.TriggerReturnsHandle`). A controller that loses a returned status is not modelled.
- Ledger.OnlyOwnResourcesChange: speaks of trigger mode; in poll-only mode the step deletes a resource it did not create. It assumes that nobody else creates a resource under a name the step has used, and that a failed create or delete changed nothing. `Conservation` and `StableVerdicts.OneVerdict` share this.
- StableVerdicts.VerdictsRiseIff: assumes stages "finished" and "error" are final and that pods do not disappear after "finished"; an empty list reads as Errored.
- Metric.CollectedInTheEnd: speaks of runs the plugin triggered and of deletes that work; the retention limit, which the code ignores, is not a parameter.
- Step.K6StepPlugin.Run: the plugin is wired to the k6-operator backend directly; dispatch by provider name in the router is not modelled. The configuration is decoded afresh on every call, so it is a value here, not an object that is written to.
- Operator.K6OperatorProvider.TriggerRun: the created object's labels, owner references, image, resources and arguments are not modelled; a new resource has no stage and no pods.
- Operator.K6OperatorProvider.GetRunResult: the pods belong to the resource in the store; label selectors and namespaces of pod lists are not modelled. The second listing, made for the logs, is an independent input.
- Aggregate.AggregateMetrics: float64 rounding, NaN and infinities are not modelled.
- The Grafana Cloud client, the Kubernetes clients and their lazy initialisation, contexts and call timeouts, ConfigMap reading and log streaming.
- Decoding of configuration and status, duration syntax, wall-clock reads, SHA-256; the status blob is a datatype that may also be absent or undecodable.
- sanitizeLabelValue, measurement timestamps and ResumeAt: settled by reading one branch.
- Logging, plugin handshake, main packages, the mock server and end-to-end tests.
