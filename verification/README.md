# Internal services controller: a verified model

The internal services controller watches `InternalRequest` objects (requests) in a remote cluster and drives one Tekton
`PipelineRun` (run) per request in a local cluster. This project models the whole reconcile protocol and proves what
holds in every state it can reach while users create, edit and delete requests, Tekton finishes runs, the config changes,
any API call fails with or without having taken effect, and the process crashes and restarts at any point.

Check everything with `dafny verify dfyconfig.toml` (Dafny 4.11).

## How the project is laid out

| module | contents |
|---|---|
| `Common`, `References` | shared values; `namespace/name` references and their first-slash split |
| `Metrics` | gauge, histogram counts and counter; the four register methods; order independence of detached goroutines |
| `Requests` | the request, its conditions, the lifecycle transitions, RFC 7396 merge of a status patch |
| `PipelineRuns` | building, finding and watching runs; results; the failure message |
| `Admission` | the config and the three allow lists |
| `Protocol` | the state machine: `World`, `Action`, `Step`, one step per API call |
| `Invariant`, `KeyPreservation`, `WritePreservation`, `EnvironmentPreservation`, `Preservation`, `Accounting`, `Runs` | the inductive invariant, and the proof that every step of every schedule keeps it |
| `Theorems`, `Incarnations`, `Origins`, `Provenance`, `Timestamps`, `Watches`, `Adoption` | safety over all reachable worlds and whole runs; which calls stand behind runs, verdicts and time stamps; what wakes the controller up; whose run a request reports |
| `Reporting`, `Flawless`, `Gauge`, `Attempts`, `Leak` | what each call reports; the gauge and attempt accounts of whole schedules; how the gauge leaks |
| `Leftover` | reachable worlds in which a run is adopted by another request, and a finalizer is lost |
| `Recovery`, `RecoveryWrites`, `Convergence`, `Listing`, `SilentFailure`, `Rest`, `Cleanup`, `Progress`, `Quiescence` | crash recovery and its one exception, the fixpoint of a reconcile, cleaning up after finished and deleted requests, termination, coming to rest |
| `Api`, `Reconciler` | the API servers as a reconcile meets them, and the adapter and `Reconcile` as imperative code, proved to be runs of the protocol |

`Protocol` keeps, for each reconcile in flight, the next call and the adapter's in-memory copy of the request.
`Reconciler.Adapter` is written after the source, method by method, and does not look at that program counter: each of
its methods is proved to make exactly the calls the protocol expects, with the same arguments, between arbitrary steps of
everybody else. So every theorem about reachable worlds is a theorem about executions of `Reconciler.Reconcile`.

## Assumptions about the environment

- Reads are fresh. One manager is active, and a key is reconciled by one worker at a time; different keys interleave freely.
- Only this controller writes request status and its own finalizer, and nobody else deletes its runs.
- A run that is done stays as it is, and so do its TaskRuns. Names the server generates for runs are never used twice.
- Every call may fail. A failed write may or may not have taken effect, patches included, which is more than the source
  needs to fear. A List does not answer NotFound. A successful status patch is an RFC 7396 merge patch (section 2), and
  the server's object is copied back into memory.
- The API server refuses new finalizers on an object that is being deleted, and removes such an object with its last one.
- A patch of the finalizers carries the whole list and no lock, as in the source: what somebody else added between the read
  and the patch that adds this controller's finalizer is dropped (`Theorems.AdditionKeepsOthersIff`).
- Every spec has a pipeline, which the source dereferences unchecked (controllers/internalrequest/adapter.go:246): the
  schema of the resource requires it (api/v1alpha1/internalrequest_types.go:33-35).
- Namespaces hold no slash. The request read by the client has its Kind set, so the owner annotations are written.
- `ReconcileHandler`, which is not part of the repository, runs the operations in order, requeues on an error or on
  `RequeueRequest`, and stops on `CancelRequest`.
- A goroutine is started together with the patch that follows it, as one step; its updates then run at any later time.
- A crash abandons an execution; each call of `Api.Server` is a step by itself, so every prefix of an execution is covered.

## Where comments and code disagree

The model follows the code.

- `MarkRunning` stores status False with reason Running; its comment says Unknown (api/v1alpha1/internalrequest_types.go:154-165).
- An empty allow list admits nothing; the comment says it admits everything (controllers/internalrequest/adapter.go:221-240, `Admission.EmptyAllowListAdmitsNothing`).
- `RegisterRejectedInternalRequest` says a rejected request never raised the gauge. A running request is rejected when the
  config changes under it, and the gauge then stays one too high for good (`Leak.GaugeCanLeak`; exact condition in
  `Gauge.GaugeWithoutLosses`).
- A failed List of TaskRuns is swallowed and the request is completed with the run's own message, so a retry never
  repairs it (`SilentFailure.ListingFailureShows`; `Listing.ListingFailureIsFinal` says exactly when that matters). This
  is the one failure that crash recovery does not make good, and only the message suffers (`Listing.CrashRecoveryUpToMessage`).

## Model

| member | source | states |
|---|---|---|
| `Theorems.NoLostWakeUp` | controllers/internalrequest/controller.go:62-128 | In every reachable world with an empty queue and nothing in flight, no stored request is being deleted, and each one is completed or running with exactly one run, whose condition is absent or Unknown |
| `Quiescence.RestIsReachableIff` | controllers/internalrequest/controller.go:62-128 | From a reachable world the controller alone can come to an empty queue with nothing in flight if and only if no request being deleted waits for a finalizer of somebody else; such a request is requeued for ever |
| `Theorems.AtMostOneRun` | controllers/internalrequest/adapter.go:177-219 | In every reachable world at most one run carries the labels of a key, and no incarnation of a request counts more than one creation, even if a Create fails after taking effect |
| `Incarnations.OneRunPerIncarnation` | controllers/internalrequest/adapter.go:177-198 | Two runs ever created for the same incarnation of a request are the same run |
| `Theorems.NoOrphanedWork` | controllers/internalrequest/adapter.go:64-150 | A run whose condition is absent or Unknown and that nobody cancelled belongs to a stored request that still carries the cleanup finalizer |
| `Theorems.WritesAreDue` | controllers/internalrequest/adapter.go:64-426 | In every reachable world each write is due only in the state it is meant for: a run is created only without any other, for a held and unstarted request that no list forbids; one is deleted only once it is decided and the verdict is stored; the finalizer goes only when every run is decided or cancelled |
| `Watches.QueueAfter` | controllers/internalrequest/controller.go:97-128 | The queue after every action of every reachable world: a new request, a changed spec, the start of a deletion and the decision on an owned run queue their key, a changed label or finalizer and anything else does not; a start queues every request |
| `Watches.FailedCallIsRetried` | controllers/internalrequest/controller.go:62-87 | Whatever call fails, the reconcile is over and asks to come back, except that a failed List of TaskRuns goes on to the tracking patch with the message of the run itself |
| `Watches.SuccessEndsIt` | controllers/internalrequest/adapter.go:81-106 | A reconcile that is over after a successful call asks to come back if and only if it finalized or met a request being deleted, or the server refused its finalizer |
| `Theorems.GaugeLedger` | metrics/internalrequest.go:56-102 | Gauge plus pending updates is the number of active requests, less those active at process start, plus rejected running requests and lost start patches, less lost finish and removal patches, all read off statuses and not off the updates |
| `Theorems.GaugeIsRightIff` | metrics/internalrequest.go:56-102 | Corollary of the ledger: with no update pending, the gauge equals the number of active requests if and only if those terms cancel out |
| `Gauge.CallTallies` | api/v1alpha1/internalrequest_types.go:131-196 | What each term counts, for every call in a state of the invariant: a landed rejection of a running copy, a lost start patch, a lost patch that tracks a done run, a lost finalizer removal of a running copy, and nothing else |
| `Gauge.GaugeDrift` | metrics/internalrequest.go:56-102 | For every schedule of one process, whatever fails: gauge plus pending is the change in active requests plus the drift summed over its calls |
| `Gauge.GaugeIsRightIff` | metrics/internalrequest.go:56-102 | Once drained, the gauge is right if and only if the drift of the schedule equals the requests active at process start |
| `Gauge.GaugeWithoutLosses` | api/v1alpha1/internalrequest_types.go:131-196 | In a process lifetime that starts with no active request and loses no status patch and no finalizer removal, whatever else fails, gauge plus pending is never below the active requests, and equal to them if and only if no action of the schedule performs a due rejection of a running copy |
| `Flawless.AttemptsCountedOnce` | controllers/internalrequest/adapter.go:87-101 | In a process lifetime that loses no status patch and no finalizer removal, whatever else fails, each incarnation whose finalizer was removed was reported as an attempt exactly once, or not again if it was closed before |
| `Leak.GaugeCanLeak` | metrics/internalrequest.go:92-102 | A schedule without any failed call ends with no active request, no pending update and a gauge above zero |
| `Theorems.AttemptAccounting` | controllers/internalrequest/adapter.go:87-101 | Since the process started, each incarnation whose finalizer was removed was reported once per lost closing patch, and once more for closing unless it was closed before the start; if it was not, at least once, and exactly once iff no patch was lost |
| `Reporting.AttemptsAreReported` | metrics/internalrequest.go:56-102 | Every call hands over one counter update when it ends an attempt (it tracks a run that is True or False, rejects, or removes the finalizer of a request that has not completed) and one histogram update when that attempt had a start and was not rejected, none otherwise; the book of the incarnation grows by the same |
| `Reporting.ReportsNameTheOutcome` | api/v1alpha1/internalrequest_types.go:131-206 | Every attempt counted or observed carries the pipeline and namespace of its request and the reason and success of the verdict written by the same call, or Deleted and no success for a removal |
| `Attempts.ReportsAddUp` | metrics/internalrequest.go:78-102 | In every reachable world, for the counter and for the histogram, the reports in the books of all incarnations add up to all updates handed over to that collector since the process started |
| `Theorems.ReportsAreConserved` | metrics/internalrequest.go:78-102 | For every label set, counter and histogram readings plus pending updates are the reports handed over since the process started |
| `Theorems.OutcomeAgreement` | controllers/internalrequest/adapter.go:389-426 | A persisted success names a run whose condition is True and holds its last-wins string results; a persisted failure names one whose condition is False, and its message is the combined one of the TaskRuns of that run or that of the run; results exist only on success |
| `Provenance.EveryRejectionWasDue` | controllers/internalrequest/adapter.go:224-293 | Behind every persisted rejection stands a call of the same schedule, for the same incarnation, whose reconcile had loaded, while it was in force, a config in which the namespace is not on the allow list, or the resolver is git and the first url parameter is missing from a non-empty list, or the account is missing from one; the stored message is the wording of the first of these checks |
| `Theorems.LookupAgreement` | controllers/internalrequest/adapter.go:111-136 | The reference in the status decodes to exactly the run the label lookup finds, or both find nothing |
| `Theorems.WellDefined` | metrics/internalrequest.go:64-64 | No run of the protocol reads a nil start time or condition or deletes a nil run |
| `Theorems.EveryRunWasAdmitted` | controllers/internalrequest/adapter.go:322-335 | Every run ever created, as it is stored: resolver and reference params of the recorded spec in order, two more for the cluster resolver only (namespace, then kind), exactly the params of the spec, its service account, and all within the lists of the recorded config |
| `Provenance.EveryRunWasCreated` | controllers/internalrequest/adapter.go:156-198 | Every record of a run goes back to one Create of the schedule, by a reconcile that had loaded the recorded config while it was in force |
| `Provenance.EveryRunIsInServiceNamespace` | tekton/pipeline_run.go:62-72 | Every run ever created lives in the namespace of the service |
| `Adoption.RunIsOwnIff` | tekton/pipeline_run.go:94-97 | The run a request refers to was created for its own incarnation if and only if the controller created one for it; otherwise it is a leftover of an earlier request of the same name |
| `Leftover.LeftoverCanBeAdopted` | loader/loader.go:43-57 | In a reachable world, without any failure, a request refers to a run created for an earlier request of the same name |
| `Theorems.KeyIsolation` | loader/loader.go:43-57 | A step of one key leaves request, runs, reconcile, queue entry and history of every other key unchanged |
| `Theorems.RemovalKeepsOthers` | controllers/internalrequest/adapter.go:96-98 | A finalizer removal never drops or restores a finalizer of somebody else |
| `Theorems.AdditionKeepsOthersIff` | controllers/internalrequest/adapter.go:65-71 | When the addition takes effect, the finalizers of others survive if and only if all of them were there when the request was read; otherwise nothing changes |
| `Theorems.AdditionCanDrop` | controllers/internalrequest/adapter.go:65-71 | A finalizer that somebody adds between the read and the patch is dropped, in every reachable world where an addition is due |
| `Leftover.FinalizerIsDropped` | controllers/internalrequest/adapter.go:65-71 | A reachable world in which that happens |
| `Incarnations.StatusIsWrittenOnce` | api/v1alpha1/internalrequest_types.go:93-178 | Along any run a completed status never changes again, and start time and run reference of an incarnation are written with one value only |
| `Timestamps.LandedPatchStamps` | api/v1alpha1/internalrequest_types.go:131-178 | A status patch that takes effect writes its own clock as start time when it marks running, as completion time when it tracks a decided run, and leaves every other time stamp alone |
| `Timestamps.EveryStampIsAClock` | api/v1alpha1/internalrequest_types.go:131-178 | Along every schedule, each stored start or completion time is the clock of one such call for the same incarnation |
| `Runs.StepKeepsInv` | controllers/internalrequest/controller.go:62-128 | Every enabled action of users, Tekton, process or reconcile keeps the protocol invariant |
| `Runs.RunKeepsInv` | controllers/internalrequest/controller.go:62-128 | Every legal schedule keeps the protocol invariant |
| `Runs.ReachableIsSound` | controllers/internalrequest/controller.go:62-128 | Every world that a schedule reaches from two empty clusters satisfies the invariant |
| `Convergence.CrashRecovery` | controllers/internalrequest/adapter.go:64-106 | In a frozen environment, a reconcile that goes through after crashes, restarts and failures of any call but the TaskRun List leaves the same request as an undisturbed one, up to time stamps and generated names; only a done run may remain in one and not in the other |
| `Listing.CrashRecoveryUpToMessage` | controllers/internalrequest/adapter.go:64-106 | With no call excepted, the two requests agree in phase, results, finalizers and everything else but time stamps, generated names and the message of a failure, and in the run that is not done |
| `Convergence.FrozenRunKeepsGoal` | controllers/internalrequest/adapter.go:64-317 | No schedule of the controller alone, with any failure but that of the TaskRun List of the key, changes the state a request is heading for |
| `Listing.RunStaysNear` | controllers/internalrequest/adapter.go:64-317 | No schedule of the controller alone, with any failure, changes that state up to the message of a failure |
| `Convergence.ReconcileArrives` | controllers/internalrequest/controller.go:77-86 | A reconcile without failures brings the request to the state it is heading for |
| `Listing.ListingFailureIsFinal` | controllers/internalrequest/adapter.go:405-415 | From every reachable world with an up-to-date reconcile: after a failing TaskRun List and a patch that lands, the request is completed, and is what it was heading for if and only if no TaskRun reports anything or the combined message equals the run's own |
| `SilentFailure.ListingFailureShows` | controllers/internalrequest/adapter.go:343-348 | In a reachable world, a failing TaskRun List leaves the request completed with a message other than the one it was heading for |
| `Rest.OneReconcileSettles` | controllers/internalrequest/controller.go:77-86 | From every reachable world, after one failure-free reconcile no schedule of the controller, with any failure, changes the request or its runs, and no further call on its behalf changes a cluster or hands over a metric update |
| `Cleanup.FinishedRunIsCleanedUp` | controllers/internalrequest/adapter.go:200-219 | A failure-free reconcile of an admitted request whose run is True or False stores the matching verdict, with the last-wins results or the failure message, and removes the run, or keeps it as it is in debug mode; a leftover run of an earlier request of the same name is adopted |
| `Cleanup.ObjectedRequestIsRejected` | controllers/internalrequest/adapter.go:224-293 | A failure-free reconcile of an uncompleted request that some list objects to rejects it with the message of the first such check |
| `Cleanup.NewRequestIsStarted` | controllers/internalrequest/adapter.go:177-198 | A failure-free reconcile of an uncompleted request that no list objects to and that has no run leaves it running with exactly one run in progress |
| `Cleanup.DeletedRequestIsReleased` | controllers/internalrequest/adapter.go:77-150 | A failure-free reconcile of a request being deleted takes this finalizer off, changes nothing else of the request, and leaves no run that is neither decided nor cancelled |
| `Progress.ReconcileIsBounded` | controllers/internalrequest/controller.go:77-86 | From Pick to Finish a reconcile makes at most 11 calls, whatever fails and whatever others do in between |
| `Progress.ReconcileCanSucceed` | controllers/internalrequest/controller.go:77-86 | A failure-free reconcile always exists, and left alone it makes at most 11 calls |
| `Progress.CallLowersRank` | controllers/internalrequest/controller.go:77-86 | Every call, successful or not, brings the reconcile strictly closer to its end |
| `Reconciler.Reconcile` | controllers/internalrequest/controller.go:62-87 | Every execution, in every environment, is a run of the protocol that ends with its reconcile returned, and asks for a requeue exactly when the protocol does |
| `Reconciler.ProcessNextWorkItem` | controllers/internalrequest/controller.go:62-87 | Picking a key, reconciling it and finishing leads from reachable worlds to reachable worlds |
| `Reconciler.Adapter.HandleOperations` | controllers/internalrequest/controller.go:77-86 | Running the eight operations in order with early exit follows the protocol to its end |
| `Reconciler.Adapter.EnsureFinalizersAreCalled` | controllers/internalrequest/adapter.go:81-106 | Makes the protocol's finalization calls in order; continues, without any effect, exactly when the request is not being deleted |
| `Reconciler.Adapter.FinalizeInternalRequest` | controllers/internalrequest/adapter.go:111-136 | Looks the run up by reference or labels and leaves the protocol ready to remove the finalizer, or failed |
| `Reconciler.Adapter.CancelPipelineRun` | controllers/internalrequest/adapter.go:139-150 | A run whose condition is absent or Unknown is cancelled on success; one that is True or False, or none at all, causes no call |
| `Reconciler.Adapter.EnsureFinalizerIsAdded` | controllers/internalrequest/adapter.go:64-75 | Continues only with the finalizer in place, on the stored object; makes no call when it is already there |
| `Reconciler.Adapter.EnsureRequestINotCompleted` | controllers/internalrequest/adapter.go:296-302 | Proceeds if and only if the request has not completed |
| `Reconciler.Adapter.EnsureConfigIsLoaded` | controllers/internalrequest/adapter.go:156-173 | Continues with the config object that is stored, or, when there is none, with one in the service namespace with three empty lists and no debug mode |
| `Reconciler.Adapter.EnsureRequestIsAllowed` | controllers/internalrequest/adapter.go:224-240 | The nested scans proceed if and only if none of the three lists objects to the request, an empty list of URLs or accounts never objecting, and otherwise make the rejecting patch the protocol expects |
| `Reconciler.Adapter.EnsureGitResolverURLIsAllowed` | controllers/internalrequest/adapter.go:245-270 | Proceeds, without any effect, if and only if the resolver is not git, the list of URLs is empty, or the first url parameter is in it |
| `Reconciler.Adapter.EnsureServiceAccountIsAllowed` | controllers/internalrequest/adapter.go:275-293 | Proceeds if and only if the list of accounts is empty, the request names none, or its account is in the list |
| `Reconciler.Adapter.EnsurePipelineRunIsCreated` | controllers/internalrequest/adapter.go:177-198 | Looks up, creates and marks in the protocol's order, and continues only with a running request |
| `Reconciler.Adapter.CreateInternalRequestPipelineRun` | controllers/internalrequest/adapter.go:322-335 | Sends a run built from the in-memory request |
| `Reconciler.Adapter.RegisterInternalRequestStatus` | controllers/internalrequest/adapter.go:376-386 | Patches the running status and continues with the stored object |
| `Reconciler.Adapter.EnsureStatusIsTracked` | controllers/internalrequest/adapter.go:306-317 | Looks up and tracks in the protocol's order, and leaves it where deletion begins |
| `Reconciler.Adapter.RegisterInternalRequestPipelineRunStatus` | controllers/internalrequest/adapter.go:389-426 | On success the stored status refers to the run and follows it: unchanged otherwise while the condition is absent or Unknown, succeeded with the last-wins results when it is True, failed when it is False; the start time stays |
| `Reconciler.Adapter.RecordVerdict` | controllers/internalrequest/adapter.go:399-418 | Marks the in-memory request exactly as the protocol tracks a done run, with results or failure message |
| `Reconciler.Adapter.FailedTaskRunMessage` | controllers/internalrequest/adapter.go:343-363 | Lists the TaskRuns once and yields their combined message of at most 4096 bytes, or nothing when the List fails, with the fallback message the protocol expects |
| `Reconciler.Adapter.EnsurePipelineRunIsDeleted` | controllers/internalrequest/adapter.go:202-219 | Makes no call for an unfinished request or in debug mode; otherwise deletes the run its lookup found, which always exists |
| `Api.Server.Perform` | controllers/internalrequest/controller.go:62-87 | Arbitrary steps of others followed by the due call lead from the old world to the new one by a legal schedule |
| `Api.Server.GetInternalRequestPipelineRun` | loader/loader.go:43-57 | Answers with one of the runs carrying the labels of the key, or with nothing exactly when there is none |
| `Api.Server.PatchRequestStatus` | controllers/internalrequest/adapter.go:420-423 | A successful status patch stores the marked status, and its reply is the stored object |
| `Requests.LifecycleTransitions` | api/v1alpha1/internalrequest_types.go:130-196 | The Mark methods move NotStarted to Running to Succeeded or Failed, NotStarted or Running to Rejected, and leave final phases, start time and metrics alone |
| `Requests.PhasesAreRecognised` | api/v1alpha1/internalrequest_types.go:92-128 | The four status predicates tell the five phases apart, and each status is in at most one phase |
| `Requests.PredicatesDivide` | api/v1alpha1/internalrequest_types.go:92-128 | Over every verdict a status can carry, Unknown and foreign reasons included: completed is succeeded or failed, never both, and running excludes it; True has succeeded, False has failed unless its reason is Running, Unknown is never completed |
| `Requests.FirstOfItsType` | api/v1alpha1/internalrequest_types.go:93-98 | The verdict is the condition at the least index of type Succeeded, and none only if there is no such condition |
| `Requests.RequestObject.MarkFailed` | api/v1alpha1/internalrequest_types.go:131-141 | In-place update equals the failed transition and starts its metric updates |
| `Requests.RequestObject.MarkRejected` | api/v1alpha1/internalrequest_types.go:144-152 | In-place update equals the rejected transition and starts its metric updates |
| `Requests.RequestObject.MarkRunning` | api/v1alpha1/internalrequest_types.go:155-166 | In-place update equals the running transition; a second call keeps the start time and reports nothing |
| `Requests.RequestObject.MarkSucceeded` | api/v1alpha1/internalrequest_types.go:169-178 | In-place update equals the succeeded transition and starts its metric updates |
| `Requests.RequestObject.RegisterDeletion` | api/v1alpha1/internalrequest_types.go:184-196 | Reports a deletion unless the request had completed, and changes no field |
| `Requests.MergeOfOwnCopy` | controllers/internalrequest/adapter.go:394-420 | Patching the status that was read stores the patched copy, results included |
| `Requests.MergeOfUnchangedCopy` | controllers/internalrequest/adapter.go:381-385 | Patching an unchanged copy leaves whatever the server holds |
| `Requests.PatchWritesItsChanges` | controllers/internalrequest/adapter.go:394-420 | A status patch writes each field and each member of the results that the copy changed, and leaves every other one as the server holds it |
| `Metrics.DrainOrderIsIrrelevant` | metrics/internalrequest.go:56-102 | Any two orders of the same pending updates leave the same gauge, histogram counts and counters |
| `Metrics.InterleavingIsIrrelevant` | api/v1alpha1/internalrequest_types.go:139-195 | Every complete interleaving of detached goroutines leaves the readings of running them one by one |
| `Metrics.Registry.RegisterCompletedInternalRequest` | metrics/internalrequest.go:56-66 | Lowers the gauge by one and, with a start time, raises exactly its label set in histogram and counter by one; without one it panics after the decrement |
| `Metrics.Registry.RegisterNewInternalRequest` | metrics/internalrequest.go:69-71 | Raises the gauge by one and touches nothing else |
| `Metrics.Registry.RegisterDeletedInternalRequest` | metrics/internalrequest.go:78-90 | Lowers the gauge and raises the histogram by one only if the request had started, and always raises the counter by one, under its label set only |
| `Metrics.Registry.RegisterRejectedInternalRequest` | metrics/internalrequest.go:95-102 | Raises the counter by one under its label set and leaves gauge and histogram as they are |
| `PipelineRuns.BuildRun` | controllers/internalrequest/adapter.go:322-327 | The builder yields a run with the type label, name and namespace labels and owner annotations of its request, all its params, its service account, and its pipeline reference with the two params of the cluster resolver |
| `PipelineRuns.Builder.WithInternalRequest` | tekton/pipeline_run.go:80-106 | Params list every entry of the map once in some order, and system labels override user labels |
| `PipelineRuns.Builder.WithOwner` | tekton/pipeline_run.go:109-113 | Adds the owner annotations and keeps the others |
| `PipelineRuns.Builder.WithPipelineRef` | tekton/pipeline_run.go:148-167 | The params of the reference come first and in order; the cluster resolver gets exactly two more, the namespace of the request and then the kind pipeline, any other resolver none |
| `PipelineRuns.EnumerationHoldsEveryName` | tekton/pipeline_run.go:81-89 | Params built in any iteration order hold exactly the entries of the map, without duplicates |
| `PipelineRuns.BuiltRunBelongs` | tekton/pipeline_run.go:80-113 | Whatever labels the user set, a built run matches the lookup of its own key and no other, stays in the cache and maps its events to its request |
| `PipelineRuns.LookupAndWatchRead` | loader/loader.go:43-57 | The lookup of a key selects the runs with the release type and its name and namespace as labels; events go to a key if and only if the two owner annotations name its kind and it |
| `PipelineRuns.OnlyOwnedRunsFire` | tekton/utils.go:45-58 | A run counts as owned if and only if the kind occurs in its owner type annotation, and the update of any other run never fires |
| `PipelineRuns.DoneMeansDecided` | tekton/utils.go:62-70 | Done means that the Succeeded condition is True or False, and not absent or Unknown |
| `PipelineRuns.EdgeDetection` | tekton/predicates.go:26-41 | Along versions of an owned run whose condition is absent or Unknown at first and that stays decided once it is, the update predicate fires once if the last one is True or False, and never otherwise |
| `PipelineRuns.GetResultsFromPipelineRun` | tekton/utils.go:31-41 | The loop yields the map of each name to its last string-typed value, and nothing else |
| `PipelineRuns.ResultsOfIsLastWins` | tekton/utils.go:31-41 | The specification of results is the last-wins map |
| `PipelineRuns.FailedTaskRunMessage` | controllers/internalrequest/adapter.go:350-362 | The loop yields the specified failure message |
| `PipelineRuns.FailureMessageBound` | controllers/internalrequest/adapter.go:343-363 | At most 4096 bytes; the full join when it fits, else its 4081-byte prefix and the 15-byte suffix; empty exactly when the List failed or no TaskRun reports |
| `PipelineRuns.SilentTaskRun` | controllers/internalrequest/adapter.go:350-357 | Inserting anywhere a TaskRun whose condition is absent, True or Unknown, or whose message is empty, leaves the failure message as it is |
| `PipelineRuns.LoneTaskRun` | controllers/internalrequest/adapter.go:351-362 | One False TaskRun with a message yields its name, its reason in parentheses and the message, cut to a prefix of 4081 bytes and the suffix if longer than 4096 |
| `PipelineRuns.JoinedMessages` | controllers/internalrequest/adapter.go:358-362 | The message of two lists in a row is their two messages in list order with a semicolon between them when neither is empty, cut the same way |
| `Admission.Scan` | controllers/internalrequest/adapter.go:259-263 | The loop finds an entry if and only if the list holds it |
| `Admission.FindURL` | controllers/internalrequest/adapter.go:251-257 | The loop yields the value of the first parameter named url |
| `Admission.FirstURLIsFirst` | controllers/internalrequest/adapter.go:251-257 | That value stands at the least such index, or is empty when there is none |
| `Admission.FirstURLIsUnique` | controllers/internalrequest/adapter.go:251-257 | No other value has that property |
| `Admission.AdmittedIff` | controllers/internalrequest/adapter.go:224-293 | A request is admitted if and only if none of the three lists objects to it, and each check passes if and only if its own list does not object |
| `Admission.MessageNamesCheck` | controllers/internalrequest/adapter.go:235-291 | The message of a rejection is the wording of the first check that objects, with the namespace, URL or account in parentheses and the list of URLs or accounts |
| `Admission.PrintedList` | controllers/internalrequest/adapter.go:266-267 | A list is printed in brackets, its items in order and one space apart |
| `References.RoundTrip` | controllers/internalrequest/adapter.go:396-397 | Decoding a written reference gives it back if and only if its namespace holds no slash |
| `References.EncodeIsInjective` | controllers/internalrequest/adapter.go:396-397 | Distinct references with slash-free namespaces are written differently |
| `References.SplitN` | controllers/internalrequest/adapter.go:113-118 | One part when there is no slash, otherwise the parts before and after the first slash |

## Left out

- main.go start-up, leader election flags, kubeconfig loading and health checks; only the cache selector is used, as a fact.
- Cache staleness, HTTP and logging: the clients are replaced by stores whose calls may fail.
- Generated deep copies, scheme registration and the mock loader: mechanical.
- tekton/utils: `pipelineName` in a spec stands for what the pipeline name derivation yields.
- WithPipeline, workspaces, volume claims and timeouts of a run: constant data that no operation reads back.
- Histogram buckets and durations: observations are counted, not measured.
- `lastTransitionTime` and `observedGeneration` of conditions, and the capitalisation and prefix of generated names.
- Update in place of the two clusters: they are values inside the field `world` of `Api.Server`, which its methods reassign.
- Requests.RequestObject.RegisterDeletion: the deletion time stamp is not modelled, because only the number of observations is.
- PipelineRuns.BuildRun: the namespace, workspaces and timeouts of the run are not part of its contract; where its run lives is `Provenance.EveryRunIsInServiceNamespace`.
- PipelineRuns.Builder.WithInternalRequest: the timeouts it copies are not modelled, because no operation reads them back.
- Api.Server.Perform: a scripted tick that does not fit the current world counts as a lost call instead of being refused.
