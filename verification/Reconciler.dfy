/**
  controllers/internalrequest: the adapter, its operations and Reconcile, statement by statement. Each operation is proved
  to make the calls of the protocol in the protocol's order, so that every execution of Reconcile is one of its runs.
*/
module Reconciler {
  import opened Common
  import opened References
  import opened Metrics
  import opened Requests
  import opened PipelineRuns
  import opened Admission
  import opened Protocol
  import opened Invariant
  import opened Runs
  import opened Origins
  import opened Api

  // ----- operator-toolkit: operation results and their handler -----

  /** `failed` stands for a non-nil error beside the result. */
  datatype OperationResult = OperationResult(requeueRequest: bool, cancelRequest: bool, failed: bool)

  function ContinueProcessing(): OperationResult { OperationResult(false, false, false) }
  function StopProcessing(): OperationResult { OperationResult(false, true, false) }
  function Requeue(): OperationResult { OperationResult(true, false, false) }
  function RequeueWithError(): OperationResult { OperationResult(true, false, true) }

  function RequeueOnErrorOrContinue(failed: bool): OperationResult {
    if failed then RequeueWithError() else ContinueProcessing()
  }

  function RequeueOnErrorOrStop(failed: bool): OperationResult {
    if failed then RequeueWithError() else StopProcessing()
  }

  predicate Proceeds(r: OperationResult) { !r.requeueRequest && !r.cancelRequest && !r.failed }

  datatype Operation =
    | EnsureFinalizersAreCalled | EnsureFinalizerIsAdded | EnsureRequestINotCompleted | EnsureConfigIsLoaded
    | EnsureRequestIsAllowed | EnsurePipelineRunIsCreated | EnsureStatusIsTracked | EnsurePipelineRunIsDeleted

  /** The order Reconcile hands to ReconcileHandler. */
  const OPERATIONS := [
    EnsureFinalizersAreCalled, EnsureFinalizerIsAdded, EnsureRequestINotCompleted, EnsureConfigIsLoaded,
    EnsureRequestIsAllowed, EnsurePipelineRunIsCreated, EnsureStatusIsTracked, EnsurePipelineRunIsDeleted]

  /** Where the protocol stands when an operation is entered. */
  function Entry(op: Operation, ir: InternalRequest, c: Config): Flight {
    match op
    case EnsureFinalizersAreCalled => AtFinalizers(ir)
    case EnsureFinalizerIsAdded => AtFinalizerAdded(ir)
    case EnsureRequestINotCompleted => AtNotCompleted(ir)
    case EnsureConfigIsLoaded => AtConfig(ir)
    case EnsureRequestIsAllowed => AtAllowed(ir, c)
    case EnsurePipelineRunIsCreated => AtCreated(ir, c)
    case EnsureStatusIsTracked => AtTracked(ir, c)
    case EnsurePipelineRunIsDeleted => AtDeleted(ir, c)
  }

  /** Where it stands when an operation lets processing continue. */
  function Exit(op: Operation, ir: InternalRequest, c: Config): Flight {
    match op
    case EnsureFinalizersAreCalled => AtFinalizerAdded(ir)
    case EnsureFinalizerIsAdded => AtNotCompleted(ir)
    case EnsureRequestINotCompleted => AtConfig(ir)
    case EnsureConfigIsLoaded => AtAllowed(ir, c)
    case EnsureRequestIsAllowed => AtCreated(ir, c)
    case EnsurePipelineRunIsCreated => AtTracked(ir, c)
    case EnsureStatusIsTracked => AtDeleted(ir, c)
    case EnsurePipelineRunIsDeleted => Returned(false)
  }

  /** Where the protocol stands before operation i of the list; after the last one the reconcile is over. */
  function EntryAt(i: nat, ir: InternalRequest, c: Config): Flight
    requires i <= |OPERATIONS|
  {
    if i < |OPERATIONS| then Entry(OPERATIONS[i], ir, c) else Returned(false)
  }

  /** The list is in the protocol's order: each operation ends where the next one begins. */
  lemma OperationsChain(i: nat, ir: InternalRequest, c: Config)
    requires i < |OPERATIONS|
    ensures Exit(OPERATIONS[i], ir, c) == EntryAt(i + 1, ir, c)
  {
  }

  /** os.Getenv("SERVICE_NAMESPACE") with its default. */
  function ServiceNamespace(variable: string): string {
    if variable == "" then "default" else variable
  }

  /** Only running requests are tracked. */
  lemma TrackingMeansRunning(w: World, ir: InternalRequest, c: Config)
    requires Inv(w) && FlightOf(w, ir.key) == Some(AtTracked(ir, c))
    ensures IsRunning(ir.status)
  {
    assert KeyOk(w, ir.key);
  }

  class Adapter {
    const server: Server
    const internalRequest: RequestObject
    const environment: string
    var config: Config

    /** NewAdapter. */
    constructor (server: Server, internalRequest: RequestObject, environment: string)
      ensures this.server == server && this.internalRequest == internalRequest && this.environment == environment
    {
      this.server, this.internalRequest, this.environment := server, internalRequest, environment;
      this.config := DefaultConfig("");
    }

    /** The protocol expects exactly what the adapter is about to do. */
    ghost predicate At(f: Flight)
      reads this, server, internalRequest
    {
      server.Due(internalRequest.ir.key, f) && server.world.serviceNamespace == ServiceNamespace(environment)
    }

    /** The protocol is where the result of an operation says. */
    ghost predicate Ends(r: OperationResult, next: Flight)
      reads this, server, internalRequest
    {
      At(if Proceeds(r) then next else Returned(r.requeueRequest || r.failed))
    }

    method EnsureFinalizersAreCalled() returns (r: OperationResult)
      requires At(AtFinalizers(internalRequest.ir))
      modifies server, internalRequest
      ensures MovesOn(old(server.world), server.world) && internalRequest.ir.key == old(internalRequest.ir.key)
      ensures Ends(r, AtFinalizerAdded(internalRequest.ir))
      ensures Proceeds(r) <==> !old(internalRequest.ir.deleting)
      ensures Proceeds(r) ==> server.world == old(server.world) && internalRequest.ir == old(internalRequest.ir)
    {
      NothingMoves(server.world);
      if !internalRequest.ir.deleting {
        return ContinueProcessing();
      }
      if FINALIZER in internalRequest.ir.finalizers {
        var failed := FinalizeInternalRequest();
        if failed {
          return RequeueWithError();
        }
        ghost var w1 := server.world;
        var spawned := internalRequest.RegisterDeletion();
        ghost var mem := internalRequest.ir;
        internalRequest.ir := internalRequest.ir.(finalizers := internalRequest.ir.finalizers - {FINALIZER});
        var ok := server.PatchFinalizerAway(internalRequest.ir.key, internalRequest.ir.finalizers, spawned,
                                            mem, DefaultConfig(""));
        MovesOnIsTransitive(old(server.world), w1, server.world);
        if !ok {
          return RequeueWithError();
        }
      }
      return Requeue();
    }

    /** Finds the run through the status reference, or by labels, and cancels it unless it is done. */
    method FinalizeInternalRequest() returns (failed: bool)
      requires internalRequest.ir.deleting && Held(internalRequest.ir) && At(AtFinalizers(internalRequest.ir))
      modifies server
      ensures MovesOn(old(server.world), server.world)
      ensures At(if failed then Returned(true) else Busy(RemoveFinalizer, internalRequest.ir, DefaultConfig("")))
    {
      var ir := internalRequest.ir;
      ghost var c := DefaultConfig("");
      var reply;
      if ir.status.pipelineRun != "" {
        var parts := SplitN(ir.status.pipelineRun);
        if |parts| == 2 {
          reply := server.GetRun(ir.key, NamespacedName(parts[0], parts[1]), ir, c);
          if reply.Failure? {
            return true;
          }
          ghost var w1 := server.world;
          failed := CancelPipelineRun(reply.value);
          MovesOnIsTransitive(old(server.world), w1, server.world);
          return;
        }
      }
      reply := server.GetInternalRequestPipelineRun(ir.key, FinalizeList, ir, c);
      if reply.Failure? {
        return true;
      }
      ghost var w1 := server.world;
      failed := CancelPipelineRun(reply.value);
      MovesOnIsTransitive(old(server.world), w1, server.world);
    }

    method CancelPipelineRun(pipelineRun: Option<(Ref, Run)>) returns (failed: bool)
      requires At(AfterFinalizeLookup(internalRequest.ir, DefaultConfig(""), pipelineRun))
      modifies server
      ensures MovesOn(old(server.world), server.world)
      ensures At(if failed then Returned(true) else Busy(RemoveFinalizer, internalRequest.ir, DefaultConfig("")))
      ensures pipelineRun.None? || Decided(pipelineRun.value.1) ==> !failed && server.world == old(server.world)
      ensures pipelineRun.Some? && UnderWay(pipelineRun.value.1) && !failed ==>
        pipelineRun.value.0 in server.world.runs && server.world.runs[pipelineRun.value.0].cancelled
    {
      if pipelineRun.None? || IsDone(pipelineRun.value.1) {
        NothingMoves(server.world);
        return false;
      }
      var ok := server.CancelRun(internalRequest.ir.key, pipelineRun.value.0, internalRequest.ir, DefaultConfig(""));
      failed := !ok;
    }

    method EnsureFinalizerIsAdded() returns (r: OperationResult)
      requires At(AtFinalizerAdded(internalRequest.ir))
      modifies server, internalRequest
      ensures MovesOn(old(server.world), server.world) && internalRequest.ir.key == old(internalRequest.ir.key)
      ensures Ends(r, AtNotCompleted(internalRequest.ir))
      ensures Proceeds(r) ==> Held(internalRequest.ir)
      ensures old(Held(internalRequest.ir)) ==>
        Proceeds(r) && server.world == old(server.world) && internalRequest.ir == old(internalRequest.ir)
    {
      if FINALIZER !in internalRequest.ir.finalizers {
        ghost var mem := internalRequest.ir;
        internalRequest.ir := internalRequest.ir.(finalizers := internalRequest.ir.finalizers + {FINALIZER});
        var reply := server.PatchFinalizerIn(internalRequest.ir.key, internalRequest.ir.finalizers, mem, DefaultConfig(""));
        if reply.Success? {
          internalRequest.ir := reply.value;
        }
        return RequeueOnErrorOrContinue(reply.Failure?);
      }
      NothingMoves(server.world);
      return ContinueProcessing();
    }

    method EnsureRequestINotCompleted() returns (r: OperationResult)
      requires At(AtNotCompleted(internalRequest.ir))
      ensures Ends(r, AtConfig(internalRequest.ir))
      ensures Proceeds(r) <==> !HasCompleted(internalRequest.ir.status)
    {
      if HasCompleted(internalRequest.ir.status) {
        return StopProcessing();
      }
      return ContinueProcessing();
    }

    method EnsureConfigIsLoaded() returns (r: OperationResult)
      requires At(AtConfig(internalRequest.ir))
      modifies server, this
      ensures MovesOn(old(server.world), server.world)
      ensures Ends(r, AtAllowed(internalRequest.ir, config))
      ensures Proceeds(r) && server.world.config.Some? ==> config == server.world.config.value
      ensures Proceeds(r) && server.world.config.None? ==>
        config == Config(if environment == "" then "default" else environment, [], [], [], false)
    {
      var namespace := if environment == "" then "default" else environment;
      var reply := server.GetInternalServicesConfig(internalRequest.ir.key, internalRequest.ir, DefaultConfig(""));
      if reply.Failure? {
        return RequeueWithError();
      }
      config := if reply.value.Some? then reply.value.value else DefaultConfig(namespace);
      return ContinueProcessing();
    }

    method EnsureRequestIsAllowed() returns (r: OperationResult)
      requires At(AtAllowed(internalRequest.ir, config))
      modifies server, internalRequest
      ensures MovesOn(old(server.world), server.world) && internalRequest.ir.key == old(internalRequest.ir.key)
      ensures Ends(r, AtCreated(internalRequest.ir, config))
      ensures Proceeds(r) <==> Admitted(config, old(internalRequest.ir.key.namespace), old(internalRequest.ir.spec))
      ensures var namespace, spec := old(internalRequest.ir.key.namespace), old(internalRequest.ir.spec);
        Proceeds(r) <==>
          forall check: Check, url :: FirstURLIs(spec.refParams, url) ==> !Objects(check, config, namespace, spec, url)
    {
      AdmittedUnlessObjected(config, internalRequest.ir.key.namespace, internalRequest.ir.spec);
      var namespace := internalRequest.ir.key.namespace;
      for i := 0 to |config.allowList|
        invariant namespace !in config.allowList[..i]
        invariant internalRequest.ir == old(internalRequest.ir) && server.world == old(server.world)
        invariant At(AtAllowed(internalRequest.ir, config))
      {
        if config.allowList[i] == namespace {
          r := EnsureGitResolverURLIsAllowed();
          if !Proceeds(r) { return; }
          r := EnsureServiceAccountIsAllowed();
          return;
        }
      }
      r := Reject("the internal request namespace (" + namespace + ") is not in the allow list");
    }

    method EnsureGitResolverURLIsAllowed() returns (r: OperationResult)
      requires At(AtAllowed(internalRequest.ir, config)) && NamespaceAllowed(config, internalRequest.ir.key.namespace)
      modifies server, internalRequest
      ensures MovesOn(old(server.world), server.world) && internalRequest.ir.key == old(internalRequest.ir.key)
      ensures Ends(r, AtAllowed(internalRequest.ir, config))
      ensures Proceeds(r) <==> URLAllowed(config, old(internalRequest.ir.spec))
      ensures var spec := old(internalRequest.ir.spec);
        Proceeds(r) <==> spec.resolver != "git" || |config.gitURLs| == 0 ||
                         forall url :: FirstURLIs(spec.refParams, url) ==> url in config.gitURLs
      ensures Proceeds(r) ==> internalRequest.ir == old(internalRequest.ir) && server.world == old(server.world)
    {
      NothingMoves(server.world);
      var spec := internalRequest.ir.spec;
      FirstURLHolds(config, spec);
      if spec.resolver != "git" || |config.gitURLs| == 0 {
        return ContinueProcessing();
      }
      var url := FindURL(spec.refParams);
      var allowed := Scan(config.gitURLs, url);
      if allowed {
        return ContinueProcessing();
      }
      r := Reject("the pipeline git resolver URL (" + url + ") is not in the allowed list: " + Listed(config.gitURLs));
    }

    method EnsureServiceAccountIsAllowed() returns (r: OperationResult)
      requires At(AtAllowed(internalRequest.ir, config)) && NamespaceAllowed(config, internalRequest.ir.key.namespace)
      requires URLAllowed(config, internalRequest.ir.spec)
      modifies server, internalRequest
      ensures MovesOn(old(server.world), server.world) && internalRequest.ir.key == old(internalRequest.ir.key)
      ensures Ends(r, AtCreated(internalRequest.ir, config))
      ensures Proceeds(r) <==> ServiceAccountAllowed(config, old(internalRequest.ir.spec))
      ensures var account := old(internalRequest.ir.spec.serviceAccount);
        Proceeds(r) <==> |config.serviceAccounts| == 0 || account == "" || account in config.serviceAccounts
    {
      NothingMoves(server.world);
      var spec := internalRequest.ir.spec;
      if |config.serviceAccounts| == 0 || spec.serviceAccount == "" {
        return ContinueProcessing();
      }
      var allowed := Scan(config.serviceAccounts, spec.serviceAccount);
      if allowed {
        return ContinueProcessing();
      }
      r := Reject("the ServiceAccount (" + spec.serviceAccount + ") is not in the allowed list: " +
                  Listed(config.serviceAccounts));
    }

    /** The ending the three checks share. */
    method Reject(message: string) returns (r: OperationResult)
      requires At(Busy(PatchRejected(message), internalRequest.ir, config))
      modifies server, internalRequest
      ensures MovesOn(old(server.world), server.world) && internalRequest.ir.key == old(internalRequest.ir.key)
      ensures !Proceeds(r) && At(Returned(r.requeueRequest || r.failed))
    {
      ghost var mem := internalRequest.ir;
      var spawned := internalRequest.MarkRejected(message);
      var reply := server.PatchRequestStatus(internalRequest.ir.key, Marked(internalRequest.ir.status, spawned),
                                             PatchRejected(message), mem, config);
      if reply.Success? {
        internalRequest.ir := reply.value;
      }
      return RequeueOnErrorOrStop(reply.Failure?);
    }

    method EnsurePipelineRunIsCreated() returns (r: OperationResult)
      requires At(AtCreated(internalRequest.ir, config))
      modifies server, internalRequest
      ensures MovesOn(old(server.world), server.world) && internalRequest.ir.key == old(internalRequest.ir.key)
      ensures Ends(r, AtTracked(internalRequest.ir, config))
      ensures Proceeds(r) ==> IsRunning(internalRequest.ir.status)
    {
      var ir := internalRequest.ir;
      var reply := server.GetInternalRequestPipelineRun(ir.key, ListForCreate, ir, config);
      if reply.Failure? {
        return RequeueWithError();
      }
      if reply.value.None? || !IsRunning(ir.status) {
        ghost var w1 := server.world;
        if reply.value.None? {
          var created := CreateInternalRequestPipelineRun();
          MovesOnIsTransitive(old(server.world), w1, server.world);
          if created.Failure? {
            return RequeueWithError();
          }
        }
        ghost var w2 := server.world;
        var failed := RegisterInternalRequestStatus();
        MovesOnIsTransitive(old(server.world), w2, server.world);
        if !failed { TrackingMeansRunning(server.world, internalRequest.ir, config); }
        return RequeueOnErrorOrContinue(failed);
      }
      return ContinueProcessing();
    }

    method CreateInternalRequestPipelineRun() returns (reply: Reply<Ref>)
      requires At(Busy(CreateRun, internalRequest.ir, config))
      modifies server
      ensures MovesOn(old(server.world), server.world)
      ensures At(if reply.Failure? then Returned(true) else Busy(PatchRunning, internalRequest.ir, config))
    {
      var pipelineRun := BuildRun(internalRequest.ir);
      reply := server.CreateRun(internalRequest.ir.key, pipelineRun, internalRequest.ir, config);
    }

    method RegisterInternalRequestStatus() returns (failed: bool)
      requires At(Busy(PatchRunning, internalRequest.ir, config))
      modifies server, internalRequest
      ensures MovesOn(old(server.world), server.world) && internalRequest.ir.key == old(internalRequest.ir.key)
      ensures At(if failed then Returned(true) else AtTracked(internalRequest.ir, config))
    {
      ghost var mem := internalRequest.ir;
      var spawned := internalRequest.MarkRunning(server.Clock());
      var reply := server.PatchRequestStatus(internalRequest.ir.key, Marked(internalRequest.ir.status, spawned),
                                             PatchRunning, mem, config);
      if reply.Success? {
        internalRequest.ir := reply.value;
      }
      failed := reply.Failure?;
    }

    method EnsureStatusIsTracked() returns (r: OperationResult)
      requires At(AtTracked(internalRequest.ir, config))
      modifies server, internalRequest
      ensures MovesOn(old(server.world), server.world) && internalRequest.ir.key == old(internalRequest.ir.key)
      ensures Ends(r, AtDeleted(internalRequest.ir, config))
    {
      var reply := server.GetInternalRequestPipelineRun(internalRequest.ir.key, ListForTrack, internalRequest.ir, config);
      if reply.Failure? {
        return RequeueWithError();
      }
      if reply.value.Some? {
        ghost var w1 := server.world;
        var failed := RegisterInternalRequestPipelineRunStatus(reply.value.value.0, reply.value.value.1);
        MovesOnIsTransitive(old(server.world), w1, server.world);
        return RequeueOnErrorOrContinue(failed);
      }
      return ContinueProcessing();
    }

    method RegisterInternalRequestPipelineRunStatus(ref: Ref, pipelineRun: Run) returns (failed: bool)
      requires At(AfterTrackLookup(internalRequest.ir, config, Some((ref, pipelineRun))))
      modifies server, internalRequest
      ensures MovesOn(old(server.world), server.world) && internalRequest.ir.key == old(internalRequest.ir.key)
      ensures At(if failed then Returned(true) else AtDeleted(internalRequest.ir, config))
      ensures !failed ==> Follows(old(internalRequest.ir.status), internalRequest.ir.status, ref, pipelineRun)
    {
      NothingMoves(server.world);
      TrackedIsRunning(server.world, internalRequest.ir, config, ref, pipelineRun);
      ghost var mem := internalRequest.ir;
      ghost var sent := "";
      var spawned: seq<Update> := [];
      internalRequest.ir := internalRequest.ir.(status := internalRequest.ir.status.(pipelineRun := Encode(ref)));
      if IsDone(pipelineRun) {
        spawned, sent := RecordVerdict(ref, pipelineRun, mem);
      }
      TrackingFollowsRun(mem, ref, pipelineRun, sent, server.Clock());
      ghost var w1 := server.world;
      var reply := server.PatchRequestStatus(internalRequest.ir.key, Marked(internalRequest.ir.status, spawned),
                                             PatchTracked(ref, pipelineRun, sent), mem, config);
      MovesOnIsTransitive(old(server.world), w1, server.world);
      if reply.Success? {
        internalRequest.ir := reply.value;
      }
      failed := reply.Failure?;
    }

    /** The branch for a run that is done: results and success, or the failure message; `sent` is that message. */
    method RecordVerdict(ref: Ref, pipelineRun: Run, ghost mem: InternalRequest)
      returns (spawned: seq<Update>, ghost sent: string)
      requires IsDone(pipelineRun) && internalRequest.ir == mem.(status := mem.status.(pipelineRun := Encode(ref)))
      requires At(AfterTrackLookup(mem, config, Some((ref, pipelineRun))))
      modifies server, internalRequest
      ensures MovesOn(old(server.world), server.world) && internalRequest.ir == mem.(status := internalRequest.ir.status)
      ensures At(Busy(PatchTracked(ref, pipelineRun, sent), mem, config))
      ensures Marked(internalRequest.ir.status, spawned) == Tracked(mem, ref, pipelineRun, sent, server.Clock())
    {
      NothingMoves(server.world);
      sent := "";
      if IsTrue(pipelineRun) {
        var results := GetResultsFromPipelineRun(pipelineRun);
        internalRequest.ir := internalRequest.ir.(status := internalRequest.ir.status.(results := results));
        spawned := internalRequest.MarkSucceeded(server.Clock());
      } else {
        var message := this.FailedTaskRunMessage(ref, pipelineRun, mem);
        if message == "" {
          message := pipelineRun.condition.value.message;
        }
        sent := message;
        spawned := internalRequest.MarkFailed(message, server.Clock());
      }
    }

    /** The combined message of the failed TaskRuns, empty when there is none or the List fails. */
    method FailedTaskRunMessage(ref: Ref, pipelineRun: Run, ghost mem: InternalRequest) returns (message: string)
      requires IsDone(pipelineRun) && At(Busy(ListTaskRuns(ref, pipelineRun), mem, config))
      modifies server
      ensures MovesOn(old(server.world), server.world)
      ensures |message| <= 4096
      ensures var runs := server.world.runs;
        message == "" || message == FailureMessage(Some(if ref in runs then runs[ref].taskRuns else []))
      ensures At(Busy(PatchTracked(ref, pipelineRun, if message == "" then pipelineRun.condition.value.message else message),
                      mem, config))
    {
      var listing := server.ListTaskRuns(internalRequest.ir.key, ref, pipelineRun, mem, config);
      message := PipelineRuns.FailedTaskRunMessage(listing);
      FailureMessageBound(listing);
    }

    method EnsurePipelineRunIsDeleted() returns (r: OperationResult)
      requires At(AtDeleted(internalRequest.ir, config))
      modifies server
      ensures MovesOn(old(server.world), server.world)
      ensures Ends(r, Returned(false))
      ensures !HasCompleted(internalRequest.ir.status) || config.debug ==> Proceeds(r) && server.world == old(server.world)
    {
      NothingMoves(server.world);
      var ir := internalRequest.ir;
      if !HasCompleted(ir.status) {
        return ContinueProcessing();
      }
      if config.debug {
        return ContinueProcessing();
      }
      var reply := server.GetInternalRequestPipelineRun(ir.key, ListForDelete, ir, config);
      if reply.Failure? {
        return RequeueWithError();
      }
      ghost var w1 := server.world;
      var ok := server.DeleteRun(ir.key, reply.value.value.0, ir, config);
      MovesOnIsTransitive(old(server.world), w1, server.world);
      return RequeueOnErrorOrContinue(!ok);
    }

    method Execute(op: Operation) returns (r: OperationResult)
      requires At(Entry(op, internalRequest.ir, config))
      modifies server, internalRequest, this
      ensures MovesOn(old(server.world), server.world) && internalRequest.ir.key == old(internalRequest.ir.key)
      ensures Ends(r, Exit(op, internalRequest.ir, config))
    {
      NothingMoves(server.world);
      match op
      case EnsureFinalizersAreCalled => r := this.EnsureFinalizersAreCalled();
      case EnsureFinalizerIsAdded => r := this.EnsureFinalizerIsAdded();
      case EnsureRequestINotCompleted => r := this.EnsureRequestINotCompleted();
      case EnsureConfigIsLoaded => r := this.EnsureConfigIsLoaded();
      case EnsureRequestIsAllowed => r := this.EnsureRequestIsAllowed();
      case EnsurePipelineRunIsCreated => r := this.EnsurePipelineRunIsCreated();
      case EnsureStatusIsTracked => r := this.EnsureStatusIsTracked();
      case EnsurePipelineRunIsDeleted => r := this.EnsurePipelineRunIsDeleted();
    }

    /** controller.ReconcileHandler over OPERATIONS. */
    method HandleOperations() returns (requeue: bool)
      requires At(EntryAt(0, internalRequest.ir, config))
      modifies server, internalRequest, this
      ensures MovesOn(old(server.world), server.world) && internalRequest.ir.key == old(internalRequest.ir.key)
      ensures At(Returned(requeue))
    {
      NothingMoves(server.world);
      for i := 0 to |OPERATIONS|
        invariant MovesOn(old(server.world), server.world) && internalRequest.ir.key == old(internalRequest.ir.key)
        invariant At(EntryAt(i, internalRequest.ir, config))
      {
        ghost var w1 := server.world;
        var r := Execute(OPERATIONS[i]);
        MovesOnIsTransitive(old(server.world), w1, server.world);
        OperationsChain(i, internalRequest.ir, config);
        if !Proceeds(r) {
          return r.requeueRequest || r.failed;
        }
      }
      return false;
    }
  }

  /** Reconcile, with ReconcileHandler: every execution, in every environment, is a run of the protocol. */
  method Reconcile(server: Server, key: Key, environment: string) returns (requeue: bool)
    requires server.Due(key, Fetching) && server.world.serviceNamespace == ServiceNamespace(environment)
    modifies server
    ensures server.Due(key, Returned(requeue)) && MovesOn(old(server.world), server.world)
  {
    var reply := server.GetRequest(key);
    if reply.Failure? {
      return true;
    }
    if reply.value.None? {
      return false;
    }
    var internalRequest := new RequestObject(reply.value.value);
    var adapter := new Adapter(server, internalRequest, environment);
    assert EntryAt(0, internalRequest.ir, adapter.config) == AtFinalizers(internalRequest.ir);
    ghost var w1 := server.world;
    requeue := adapter.HandleOperations();
    MovesOnIsTransitive(old(server.world), w1, server.world);
  }

  /** One work item: the worker takes a key off the queue, reconciles it, and puts it back if asked to. */
  method ProcessNextWorkItem(server: Server, key: Key, environment: string)
    requires Reachable(server.world) && Enabled(server.world, Pick(key))
    requires server.world.serviceNamespace == ServiceNamespace(environment)
    modifies server
    ensures Reachable(server.world) && key !in server.world.flights
  {
    ghost var w0 := server.world;
    ReachableIsSound(w0);
    StepKeepsInv(w0, Pick(key));
    StepLeads(w0, Pick(key));
    server.world := Step(server.world, Pick(key));
    ghost var w1 := server.world;
    var requeue := Reconcile(server, key, environment);
    ghost var w2 := server.world;
    server.world := Step(server.world, Finish(key));
    StepLeads(w2, Finish(key));
    LeadsIsTransitive(w0, w1, w2);
    LeadsIsTransitive(w0, w2, server.world);
    LeadsKeepsReachable(w0, server.world);
  }
}
