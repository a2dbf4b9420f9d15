/** What the protocol guarantees in every reachable world, failures, restarts and user deletions included. */
module Theorems {
  import opened Common
  import opened References
  import opened Metrics
  import opened Requests
  import opened PipelineRuns
  import opened Admission
  import opened Protocol
  import opened Invariant
  import opened KeyPreservation
  import opened Preservation
  import opened Runs

  /** With nothing queued and nothing in flight, only finished requests and requests whose run is under way are left. */
  lemma NoLostWakeUp(w: World, k: Key)
    requires Reachable(w) && w.up && w.queue == {} && w.flights == map[] && k in w.irs
    ensures !w.irs[k].deleting
    ensures HasCompleted(w.irs[k].status) ||
      (IsRunning(w.irs[k].status) && exists r :: RunsOf(w.runs, k).Keys == {r} && UnderWay(w.runs[r]))
  {
    ReachableIsSound(w);
    assert KeyOk(w, k);
    if !HasCompleted(w.irs[k].status) {
      var r :| r in RunsOf(w.runs, k);
      assert RunsOf(w.runs, k).Keys == {r};
      assert UnderWay(w.runs[r]);
    }
  }

  /** At most one run per key exists at any time, and no incarnation of a request makes the controller create two. */
  lemma AtMostOneRun(w: World, k: Key)
    requires Reachable(w)
    ensures |RunsOf(w.runs, k)| <= 1
    ensures forall i :: 0 <= i < |BooksOf(w, k)| ==> BooksOf(w, k)[i].creates <= 1
  {
    ReachableIsSound(w);
    assert KeyOk(w, k);
    var runs := RunsOf(w.runs, k);
    if r :| r in runs {
      assert runs.Keys == {r};
      assert |runs| == |runs.Keys|;
    }
    assert BooksOk(BooksOf(w, k));
  }

  predicate HasFinalizer(w: World, k: Key, finalizer: string) { k in w.irs && finalizer in w.irs[k].finalizers }

  /** A run in progress that nobody cancelled belongs to a stored request that still carries the cleanup finalizer. */
  lemma NoOrphanedWork(w: World, r: Ref)
    requires Reachable(w) && r in w.runs && UnderWay(w.runs[r]) && !w.runs[r].cancelled
    ensures exists k ::
      Matches(w.runs[r], k) && HasFinalizer(w, k, "internal-services.appstudio.openshift.io/pipelinerun-cleanup")
  {
    ReachableIsSound(w);
    assert NameOk(w.runs, w.retired, w.history.births, r);
    var k := w.history.births[r].key;
    assert KeyOk(w, k) && r in RunsOf(w.runs, k);
    assert HasFinalizer(w, k, FINALIZER);
  }

  /** When each write can be due, read off the stored request, the copy of it, the runs and the lists of the config. */
  ghost predicate WriteIsDue(c: Cell, call: Call, mem: InternalRequest, config: Config) {
    match call
    case AddFinalizer => !mem.deleting && FINALIZER !in mem.finalizers
    case RemoveFinalizer => mem.deleting && forall r :: r in c.runs ==> Decided(c.runs[r]) || c.runs[r].cancelled
    case CancelRun(ref) => mem.deleting && c.runs.Keys == {ref}
    case PatchRejected(_) => Undecided(c) && exists check, url :: Forbids(check, config, mem, url)
    case CreateRun => NotYetStarted(c) && c.runs == map[] && forall check, url :: !Forbids(check, config, mem, url)
    case PatchRunning => NotYetStarted(c) && c.runs != map[] && forall check, url :: !Forbids(check, config, mem, url)
    case PatchTracked(ref, _, _) => Undecided(c) && !NotYetStarted(c) && c.runs.Keys == {ref}
    case DeleteRun(ref) => !Undecided(c) && c.runs.Keys == {ref} && Decided(c.runs[ref])
    case _ => true
  }

  /** The stored request carries the finalizer and has no status yet. */
  predicate NotYetStarted(c: Cell) { c.ir.Some? && Held(c.ir.value) && c.ir.value.status == NO_STATUS }

  /** Or it has none but that it is running. */
  predicate Undecided(c: Cell) {
    c.ir.Some? && Held(c.ir.value) &&
    (c.ir.value.status == NO_STATUS || IsVerdict(c.ir.value.status, ConditionFalse, RunningReason))
  }

  /** One of the three checks objects to the request as it was read. */
  predicate Forbids(check: Check, c: Config, mem: InternalRequest, url: string) {
    FirstURLIs(mem.spec.refParams, url) && Objects(check, c, mem.key.namespace, mem.spec, url)
  }

  /** Every write is due only in the state it is meant for, in every reachable world. */
  lemma WritesAreDue(w: World, k: Key)
    requires Reachable(w) && k in w.flights && w.flights[k].Busy?
    ensures WriteIsDue(View(w, k), w.flights[k].call, w.flights[k].mem, w.flights[k].config)
  {
    ReachableIsSound(w);
    assert KeyOk(w, k);
    var Busy(call, mem, config) := w.flights[k];
    CellWriteIsDue(k, View(w, k), w.serviceNamespace, call, mem, config);
  }

  lemma CellWriteIsDue(k: Key, c: Cell, ns: string, call: Call, mem: InternalRequest, config: Config)
    requires CellOk(k, c, ns) && c.flight == Some(Busy(call, mem, config))
    ensures WriteIsDue(c, call, mem, config)
  {
    AdmittedUnlessForbidden(config, mem);
    match call {
      case CancelRun(ref) => assert c.runs.Keys == {ref};
      case PatchTracked(ref, _, _) => assert c.runs.Keys == {ref};
      case DeleteRun(ref) => assert c.runs.Keys == {ref};
      case _ =>
    }
  }

  lemma AdmittedUnlessForbidden(c: Config, mem: InternalRequest)
    ensures Admitted(c, mem.key.namespace, mem.spec) <==> forall check, url :: !Forbids(check, c, mem, url)
  {
    AdmittedUnlessObjected(c, mem.key.namespace, mem.spec);
    forall check, url ensures Forbids(check, c, mem, url) <==>
      FirstURLIs(mem.spec.refParams, url) && Objects(check, c, mem.key.namespace, mem.spec, url) {
    }
  }

  /** The gauge, plus what detached goroutines still owe it, is the number of active requests up to five counted terms. */
  lemma GaugeLedger(w: World)
    requires Reachable(w)
    ensures var l := w.history.ledger;
      w.meters.readings.gauge + GaugeSum(w.meters.pending) ==
        |ActiveKeys(w.irs)| - l.baseline + l.rejections + l.lostStarts - l.lostFinishes - l.lostRemovals
  {
    ReachableIsSound(w);
  }

  /** A corollary: once the goroutines are done, the gauge is right exactly when the deviations cancel out. */
  lemma GaugeIsRightIff(w: World)
    requires Reachable(w) && w.meters.pending == multiset{}
    ensures var l := w.history.ledger;
      w.meters.readings.gauge == |ActiveKeys(w.irs)| <==>
        l.rejections + l.lostStarts == l.baseline + l.lostFinishes + l.lostRemovals
  {
    GaugeLedger(w);
  }

  /**
    Every incarnation whose finalizer was removed has been reported once for its closing and once more for each closing
    patch that was lost; one that was closed before the process started only for the latter.
  */
  lemma AttemptAccounting(w: World, k: Key, i: nat)
    requires Reachable(w) && i < |BooksOf(w, k)| && BooksOf(w, k)[i].finalized
    ensures var b := BooksOf(w, k)[i];
      && b.attempts == b.dropped + Bit(!b.closedBefore)
      && (!b.closedBefore ==> b.attempts >= 1 && (b.attempts == 1 <==> b.dropped == 0))
  {
    ReachableIsSound(w);
    assert KeyOk(w, k);
    assert BookOk(BooksOf(w, k)[i]);
  }

  /** Counter and histogram readings plus pending updates are all the reports handed over since the process started. */
  lemma ReportsAreConserved(w: World, l: Labels)
    requires Reachable(w)
    ensures At(w.meters.readings.total, l) + w.meters.pending[Count(l)] == w.meters.emitted[Count(l)]
    ensures At(w.meters.readings.observed, l) + w.meters.pending[Observe(l)] == w.meters.emitted[Observe(l)]
  {
    ReachableIsSound(w);
  }

  /** A finished status tells what its run said, message included; results come from successful runs only. */
  lemma OutcomeAgreement(w: World, k: Key)
    requires Reachable(w) && k in w.irs
    ensures var s := w.irs[k].status;
      && (IsVerdict(s, ConditionTrue, SucceededReason) ==>
            exists r, run :: Names(w, s, r, run, k) && Says(run, ConditionTrue) && LastWins(run.results, s.results))
      && (IsVerdict(s, ConditionFalse, FailedReason) ==>
            exists r, run :: Names(w, s, r, run, k) && Says(run, ConditionFalse) && Tells(run, Verdict(s).value.message))
      && (s.results != map[] ==> IsVerdict(s, ConditionTrue, SucceededReason))
      && (HasSucceeded(s) <==> IsVerdict(s, ConditionTrue, SucceededReason))
  {
    ReachableIsSound(w);
    assert KeyOk(w, k);
    CellOutcome(k, View(w, k), w.serviceNamespace);
    var s := w.irs[k].status;
    if HasSucceeded(s) || IsVerdict(s, ConditionFalse, FailedReason) {
      var run := Referred(s, RunsOf(w.runs, k), RunsOf(w.retired, k));
      FinishedStatusNamesRun(w, k, s);
      ResultsOfIsLastWins(run.results);
      assert Says(run, if HasSucceeded(s) then ConditionTrue else ConditionFalse);
    }
  }

  lemma CellOutcome(k: Key, c: Cell, ns: string)
    requires CellOk(k, c, ns) && c.ir.Some?
    ensures var s := c.ir.value.status;
      && (HasSucceeded(s) || IsVerdict(s, ConditionFalse, FailedReason) ==>
            && s.pipelineRun != "" && ReferenceOk(s, c.runs, c.retired) && IsDone(Referred(s, c.runs, c.retired))
            && (HasSucceeded(s) <==> IsTrue(Referred(s, c.runs, c.retired)))
            && (HasSucceeded(s) ==> s.results == ResultsOf(Referred(s, c.runs, c.retired).results))
            && (!HasSucceeded(s) ==> Tells(Referred(s, c.runs, c.retired), Verdict(s).value.message)))
      && (s.results != map[] ==> HasSucceeded(s))
      && (HasSucceeded(s) ==> IsVerdict(s, ConditionTrue, SucceededReason))
  {
  }

  lemma FinishedStatusNamesRun(w: World, k: Key, s: Status)
    requires s.pipelineRun != "" && ReferenceOk(s, RunsOf(w.runs, k), RunsOf(w.retired, k))
    requires IsDone(Referred(s, RunsOf(w.runs, k), RunsOf(w.retired, k)))
    ensures Names(w, s, Decode(s.pipelineRun).value, Referred(s, RunsOf(w.runs, k), RunsOf(w.retired, k)), k)
  {
  }

  /** The status refers to a finished run of the key, still there or deleted by the controller in its last state. */
  predicate Names(w: World, s: Status, r: Ref, run: Run, k: Key) {
    && s.pipelineRun == Encode(r) && Matches(run, k) && IsDone(run)
    && ((r in w.runs && w.runs[r] == run) || (r in w.retired && w.retired[r] == run))
  }

  /** Finalization reaches the same run through the status reference and through the labels, or none through either. */
  lemma LookupAgreement(w: World, k: Key)
    requires Reachable(w) && k in w.irs && w.irs[k].status.pipelineRun != ""
    ensures Decode(w.irs[k].status.pipelineRun).Some?
    ensures var r := Decode(w.irs[k].status.pipelineRun).value;
      && w.irs[k].status.pipelineRun == Encode(r)
      && (if r in w.runs then RunsOf(w.runs, k) == map[r := w.runs[r]] else RunsOf(w.runs, k) == map[])
  {
    ReachableIsSound(w);
    assert KeyOk(w, k);
    ReferenceFindsOwnRun(w, k, w.irs[k].status);
    var r := Decode(w.irs[k].status.pipelineRun).value;
    if r in w.runs {
      assert RunsOf(w.runs, k) == map[r := w.runs[r]];
    }
  }

  /** No nil start time is ever read, no nil run is ever deleted, and a done run always has its condition. */
  lemma WellDefined(w: World)
    requires Reachable(w)
    ensures w.panics == 0 && NilDereference !in w.meters.emitted
  {
    ReachableIsSound(w);
  }

  /** The run itself, as it is stored, respects the lists of a config. */
  ghost predicate WithinLists(run: Run, namespace: string, c: Config) {
    && namespace in c.allowList
    && (run.resolver == "git" && c.gitURLs != [] ==> forall url :: FirstURLIs(run.refParams, url) ==> url in c.gitURLs)
    && (c.serviceAccounts != [] && run.serviceAccount != "" ==> run.serviceAccount in c.serviceAccounts)
  }

  /** It executes the spec it was created from, and nothing that the config of its reconcile forbids. */
  ghost predicate MadeWithinLists(run: Run, b: Birth) {
    && PointsAt(run.resolver, run.refParams, b.key.namespace, b.spec)
    && (forall x :: x in b.spec.params ==> Param(x, b.spec.params[x]) in run.params)
    && (forall p :: p in run.params ==> p.name in b.spec.params && b.spec.params[p.name] == p.value)
    && run.serviceAccount == b.spec.serviceAccount
    && WithinLists(run, b.key.namespace, b.config)
  }

  lemma ExecutionWithinLists(run: Run, b: Birth)
    requires Executes(run, b.key.namespace, b.spec) && Admitted(b.config, b.key.namespace, b.spec)
    ensures MadeWithinLists(run, b)
  {
    EnumerationHoldsEveryName(run.params, b.spec.params);
    forall url | FirstURLIs(run.refParams, url) ensures url == FirstURL(run.refParams) {
      FirstURLIsUnique(run.refParams, url);
    }
    assert "git" != "cluster" by { assert |"git"| != |"cluster"|; }
  }

  /** Every run ever created, deleted ones included, was admitted under the config its reconcile had loaded. */
  lemma EveryRunWasAdmitted(w: World, r: Ref)
    requires Reachable(w) && (r in w.runs || r in w.retired)
    ensures r in w.history.births
    ensures var b := w.history.births[r];
      && Admitted(b.config, b.key.namespace, b.spec)
      && (r in w.runs ==> Matches(w.runs[r], b.key) && MadeWithinLists(w.runs[r], b))
      && (r in w.retired ==> Matches(w.retired[r], b.key) && MadeWithinLists(w.retired[r], b))
  {
    ReachableIsSound(w);
    assert NameOk(w.runs, w.retired, w.history.births, r);
    var b := w.history.births[r];
    if r in w.runs { ExecutionWithinLists(w.runs[r], b); }
    if r in w.retired { ExecutionWithinLists(w.retired[r], b); }
  }

  lemma ControllerStepIsolation(w: World, a: Action, k: Key)
    requires Enabled(w, a) && (a.Pick? || a.Finish? || a.ConfigChange? || a.Drain?)
    requires (a.Pick? || a.Finish?) ==> a.key != k
    ensures View(Step(w, a), k) == View(w, k)
  {
  }

  /** A step of one key leaves the request, runs, reconcile, queue entry and history of every other key alone. */
  lemma KeyIsolation(w: World, a: Action, k: Key)
    requires Reachable(w) && Enabled(w, a) && !a.Crash? && !a.Start?
    requires Concerns(w, a) != Some(k)
    ensures View(Step(w, a), k) == View(w, k)
  {
    ReachableIsSound(w);
    match a
    case Perform(k0, i) => PerformIsolation(w, k0, i, k);
    case RunUpdate(ref, _, _, _) => RunUpdateKeepsInv(w, ref, UpdatedRun(w.runs[ref], a));
    case UserCreate(k0, spec, labels, finalizers) =>
      UserCreateIsRequestStep(w, k0, spec, labels, finalizers);
      RequestStepIsolation(w, DoUserCreate(w, k0, spec, labels, finalizers), k0, k);
    case UserUpdate(k0, spec, labels) =>
      UserUpdateIsRequestStep(w, k0, spec, labels);
      RequestStepIsolation(w, DoUserUpdate(w, k0, spec, labels), k0, k);
    case OtherFinalizers(k0, finalizers) =>
      OtherFinalizersIsRequestStep(w, k0, finalizers);
      RequestStepIsolation(w, DoOtherFinalizers(w, k0, finalizers), k0, k);
    case UserDelete(k0) =>
      UserDeleteIsRequestStep(w, k0);
      RequestStepIsolation(w, DoUserDelete(w, k0), k0, k);
    case _ => ControllerStepIsolation(w, a, k);
  }

  // ----- The finalizers of others -----

  /** The finalizers that are not this controller's. */
  function Others(ir: InternalRequest): set<string> { ir.finalizers - {FINALIZER} }

  /**
    Removing the finalizer never drops or brings back one of somebody else: the copy was taken when the request was
    already being deleted, and since then none can have been added.
  */
  lemma RemovalKeepsOthers(w: World, k: Key, i: Input)
    requires Reachable(w) && k in w.flights && w.flights[k].Busy? && w.flights[k].call.RemoveFinalizer?
    ensures k in w.irs
    ensures var w' := DoPerform(w, k, i);
      if k in w'.irs then Others(w'.irs[k]) == Others(w.irs[k]) else Others(w.irs[k]) == {}
  {
    ReachableIsSound(w);
    assert KeyOk(w, k);
    RemovalOfOwnCopy(w, k, i, w.flights[k].mem);
  }

  lemma RemovalOfOwnCopy(w: World, k: Key, i: Input, mem: InternalRequest)
    requires Coupled(k, mem, IrOf(w, k)) && mem.deleting
    ensures var w' := DoRemoveFinalizer(w, k, i, mem);
      if k in w'.irs then Others(w'.irs[k]) == Others(w.irs[k]) else Others(w.irs[k]) == {}
  {
  }

  /**
    Adding the finalizer sends the whole list as it was read, without a lock. If the patch takes effect, the other
    finalizers survive if and only if all of them were there when the request was read.
  */
  lemma AdditionKeepsOthersIff(w: World, k: Key, i: Input)
    requires Reachable(w) && k in w.flights && w.flights[k].Busy? && w.flights[k].call.AddFinalizer?
    ensures var mem, w' := w.flights[k].mem, DoPerform(w, k, i);
      if k in w.irs && !w.irs[k].deleting && i.outcome != Lost then
        && k in w'.irs && Held(w'.irs[k])
        && (Others(w.irs[k]) <= Others(w'.irs[k]) <==> w.irs[k].finalizers <= mem.finalizers)
        && (Others(w.irs[k]) == Others(w'.irs[k]) <==> w.irs[k].finalizers == mem.finalizers)
      else w'.irs == w.irs
  {
    ReachableIsSound(w);
    assert KeyOk(w, k);
    AdditionOfOldCopy(w, k, i, w.flights[k].mem);
  }

  lemma AdditionOfOldCopy(w: World, k: Key, i: Input, mem: InternalRequest)
    requires !Held(mem) && (k in w.irs ==> !Held(w.irs[k]))
    ensures var w' := DoAddFinalizer(w, k, i, mem);
      if k in w.irs && !w.irs[k].deleting && i.outcome != Lost
      then k in w'.irs && w'.irs[k].finalizers == mem.finalizers + {FINALIZER} && Others(w'.irs[k]) == mem.finalizers
      else w'.irs == w.irs
    ensures k in w.irs ==> Others(w.irs[k]) == w.irs[k].finalizers
  {
    if k in w.irs && w.irs[k].deleting {
      assert FINALIZER in mem.finalizers + {FINALIZER};
    }
  }

  /** That can fail: a finalizer that somebody adds between the read and the patch is dropped. */
  lemma AdditionCanDrop(w: World, k: Key, x: string, i: Input)
    requires Reachable(w) && k in w.flights && w.flights[k].Busy? && w.flights[k].call.AddFinalizer?
    requires k in w.irs && !w.irs[k].deleting && x !in w.flights[k].mem.finalizers && x != FINALIZER && i.outcome == Ok
    ensures var added := OtherFinalizers(k, w.irs[k].finalizers + {x});
      && Enabled(w, added) && PerformEnabled(Step(w, added), k, i)
      && k in Step(w, added).irs && x in Step(w, added).irs[k].finalizers
      && var w' := DoPerform(Step(w, added), k, i); k in w'.irs && x !in w'.irs[k].finalizers
  {
    ReachableIsSound(w);
    assert KeyOk(w, k);
    var w1 := w.(irs := w.irs[k := w.irs[k].(finalizers := w.irs[k].finalizers + {x})]);
    assert DoOtherFinalizers(w, k, w.irs[k].finalizers + {x}) == w1;
    AdditionOfOldCopy(w1, k, i, w.flights[k].mem);
  }
}
