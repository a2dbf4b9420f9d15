/** Crash recovery: in a frozen environment, failures and restarts do not change where a request ends up. */
module Convergence {
  import opened Common
  import opened Requests
  import opened PipelineRuns
  import opened Admission
  import opened Protocol
  import opened Invariant
  import opened Preservation
  import opened Runs
  import opened Recovery
  import opened RecoveryWrites

  // ----- One call -----

  lemma ListOnCourse(w: World, k: Key, i: Input)
    requires Inv(w) && InStep(w, k) && PerformEnabled(w, k, i) && IsList(w.flights[k])
    requires ListsTaskRuns(w, k) ==> i.outcome == Ok
    ensures OnCourse(w, DoPerform(w, k, i), k, i.outcome)
  {
    assert KeyOk(w, k);
    var Busy(call, mem, c) := w.flights[k];
    match call {
      case ListForCreate => ListForCreateKeepsGoal(w, k, i, mem, c);
      case ListForTrack => ListForTrackKeepsGoal(w, k, i, mem, c);
      case ListTaskRuns(ref, seen) => ListTaskRunsKeepsGoal(w, k, i, mem, c, ref, seen);
      case ListForDelete => ListForDeleteFinds(w, k, i, mem, c); ListForDeleteKeepsGoal(w, k, i, mem, c);
    }
  }

  lemma ListForDeleteFinds(w: World, k: Key, i: Input, mem: InternalRequest, c: Config)
    requires KeyOk(w, k) && FlightOf(w, k) == Some(Busy(ListForDelete, mem, c))
    ensures Lookup(w, k, i.ref).Some?
  {
  }

  lemma PatchOnCourse(w: World, k: Key, i: Input)
    requires Inv(w) && InStep(w, k) && PerformEnabled(w, k, i) && PatchesStatus(w.flights[k])
    ensures OnCourse(w, DoPerform(w, k, i), k, i.outcome)
  {
    assert KeyOk(w, k);
    var Busy(call, mem, c) := w.flights[k];
    match call {
      case PatchRejected(message) => PatchRejectedKeepsGoal(w, k, i, mem, c, message);
      case PatchRunning => PatchRunningKeepsGoal(w, k, i, mem, c);
      case PatchTracked(ref, seen, message) => PatchTrackedKeepsGoal(w, k, i, mem, c, ref, seen, message);
    }
  }

  lemma OtherWriteOnCourse(w: World, k: Key, i: Input)
    requires Inv(w) && InStep(w, k) && PerformEnabled(w, k, i) && Writes(w.flights[k]) && !PatchesStatus(w.flights[k])
    ensures OnCourse(w, DoPerform(w, k, i), k, i.outcome)
  {
    assert KeyOk(w, k);
    var Busy(call, mem, c) := w.flights[k];
    match call {
      case CancelRun(ref) => CancelRunKeepsGoal(w, k, i, mem, c, ref);
      case RemoveFinalizer => RemoveFinalizerKeepsGoal(w, k, i, mem, c);
      case AddFinalizer => AddFinalizerKeepsGoal(w, k, i, mem, c);
      case CreateRun =>
        if i.outcome != Lost { CreatedRunIsFresh(w, k, i, mem, c); }
        CreateRunKeepsGoal(w, k, i, mem, c);
      case DeleteRun(ref) => DeleteRunKeepsGoal(w, k, i, mem, c, ref);
    }
  }

  lemma PerformOnCourse(w: World, k: Key, i: Input)
    requires Inv(w) && InStep(w, k) && PerformEnabled(w, k, i)
    requires ListsTaskRuns(w, k) ==> i.outcome == Ok
    ensures OnCourse(w, DoPerform(w, k, i), k, i.outcome)
  {
    var f := w.flights[k];
    assert KeyOk(w, k);
    if IsList(f) {
      ListOnCourse(w, k, i);
    } else if PatchesStatus(f) {
      PatchOnCourse(w, k, i);
    } else if Writes(f) {
      OtherWriteOnCourse(w, k, i);
    } else if f.Fetching? {
      FetchKeepsGoal(w, k, i);
    } else {
      OtherReadsKeepGoal(w, k, i);
    }
  }

  // ----- Any frozen schedule -----

  lemma SameCellKeepsGoal(w: World, w': World, k: Key)
    requires InStep(w, k) && IrOf(w', k) == IrOf(w, k) && RunsOf(w'.runs, k) == RunsOf(w.runs, k)
    requires w'.config == w.config && w'.serviceNamespace == w.serviceNamespace
    requires FlightOf(w', k) == FlightOf(w, k) || FlightOf(w', k).None? || FlightOf(w', k) == Some(Fetching)
    ensures InStep(w', k) && GoalOf(w', k) == GoalOf(w, k)
  {
  }

  lemma FrozenStepKeepsGoal(w: World, a: Action, k: Key)
    requires Inv(w) && InStep(w, k) && Enabled(w, a) && Frozen(w, a, k)
    ensures InStep(Step(w, a), k) && GoalOf(Step(w, a), k) == GoalOf(w, k)
  {
    if a.Perform? {
      FrozenCallKeepsGoal(w, a.key, a.input, k);
    } else if a.Crash? {
      SameCellKeepsGoal(w, DoCrash(w), k);
    } else if a.Start? {
      SameCellKeepsGoal(w, DoStart(w), k);
    } else if a.Finish? {
      SameCellKeepsGoal(w, DoFinish(w, a.key), k);
    } else {
      QueueingKeepsGoal(w, a, k);
    }
  }

  lemma FrozenCallKeepsGoal(w: World, k0: Key, i: Input, k: Key)
    requires Inv(w) && InStep(w, k) && PerformEnabled(w, k0, i) && (k0 == k && ListsTaskRuns(w, k) ==> i.outcome == Ok)
    ensures InStep(DoPerform(w, k0, i), k) && GoalOf(DoPerform(w, k0, i), k) == GoalOf(w, k)
  {
    if k0 == k {
      PerformOnCourse(w, k, i);
    } else {
      PerformIsolation(w, k0, i, k);
      PerformKeepsConfig(w, k0, i);
      assert View(DoPerform(w, k0, i), k) == View(w, k);
      SameCellKeepsGoal(w, DoPerform(w, k0, i), k);
    }
  }

  lemma QueueingKeepsGoal(w: World, a: Action, k: Key)
    requires InStep(w, k) && Enabled(w, a) && (a.Pick? || a.Drain?)
    ensures InStep(Step(w, a), k) && GoalOf(Step(w, a), k) == GoalOf(w, k)
  {
    SameCellKeepsGoal(w, Step(w, a), k);
  }

  ghost predicate FrozenRun(w: World, actions: seq<Action>, k: Key)
    decreases |actions|
  {
    actions == [] ||
      (Enabled(w, actions[0]) && Frozen(w, actions[0], k) && FrozenRun(Step(w, actions[0]), actions[1..], k))
  }

  /** Failing calls other than the TaskRun List of this key, crashes and restarts leave the destination alone. */
  lemma {:induction false} FrozenRunKeepsGoal(w: World, actions: seq<Action>, k: Key)
    requires Inv(w) && InStep(w, k) && FrozenRun(w, actions, k) && Legal(w, actions)
    ensures Inv(After(w, actions)) && InStep(After(w, actions), k) && GoalOf(After(w, actions), k) == GoalOf(w, k)
    decreases |actions|
  {
    if actions != [] {
      StepKeepsInv(w, actions[0]);
      FrozenStepKeepsGoal(w, actions[0], k);
      FrozenRunKeepsGoal(Step(w, actions[0]), actions[1..], k);
    }
  }

  // ----- A reconcile without failures -----

  /** The calls of `k` all succeed until its reconcile returns. */
  ghost predicate FailureFree(w: World, k: Key, inputs: seq<Input>)
    decreases |inputs|
  {
    k in w.flights &&
    if w.flights[k].Returned? then inputs == []
    else
      && inputs != [] && PerformEnabled(w, k, inputs[0]) && inputs[0].outcome == Ok
      && FailureFree(DoPerform(w, k, inputs[0]), k, inputs[1..])
  }

  ghost function Reconciled(w: World, k: Key, inputs: seq<Input>): World
    requires FailureFree(w, k, inputs)
    decreases |inputs|
  {
    if w.flights[k].Returned? then w else Reconciled(DoPerform(w, k, inputs[0]), k, inputs[1..])
  }

  lemma {:induction false} ReconcileReturns(w: World, k: Key, inputs: seq<Input>)
    requires FailureFree(w, k, inputs)
    ensures k in Reconciled(w, k, inputs).flights && Reconciled(w, k, inputs).flights[k].Returned?
    decreases |inputs|
  {
    if !w.flights[k].Returned? {
      ReconcileReturns(DoPerform(w, k, inputs[0]), k, inputs[1..]);
    }
  }

  lemma {:induction false} ReconcileArrives(w: World, k: Key, inputs: seq<Input>)
    requires Inv(w) && InStep(w, k) && FailureFree(w, k, inputs) && !w.flights[k].Returned?
    ensures var w' := Reconciled(w, k, inputs);
      Inv(w') && InStep(w', k) && GoalOf(w', k) == GoalOf(w, k) && Here(w', k) == GoalOf(w, k)
    decreases |inputs|
  {
    var w1 := DoPerform(w, k, inputs[0]);
    PerformOnCourse(w, k, inputs[0]);
    PerformKeepsInv(w, k, inputs[0]);
    if !w1.flights[k].Returned? {
      ReconcileArrives(w1, k, inputs[1..]);
    }
  }

  /**
    From the same world, a reconcile of `k` that goes through at once, and one that goes through after any number of
    reconciles, failing at any call but the TaskRun List of `k`, crashes and restarts, leave the same request, up to time
    stamps and the name of its run. If only one of the two leaves a run, that run is done, and the request is completed or
    on its way out. `Listing.CrashRecoveryUpToMessage` admits every failure.
  */
  lemma CrashRecovery(w: World, k: Key, undisturbed: seq<Input>, disturbance: seq<Action>, retried: seq<Input>)
    requires Reachable(w) && FlightOf(w, k) == Some(Fetching)
    requires FailureFree(w, k, undisturbed)
    requires FrozenRun(w, disturbance, k) && Legal(w, disturbance)
    requires FlightOf(After(w, disturbance), k) == Some(Fetching)
    requires FailureFree(After(w, disturbance), k, retried)
    ensures var w1, w2 := Reconciled(w, k, undisturbed), Reconciled(After(w, disturbance), k, retried);
      && (k in w1.irs <==> k in w2.irs)
      && (k in w1.irs ==> DigestOf(w1.irs[k]) == DigestOf(w2.irs[k]))
      && Unfinished(RunsOf(w1.runs, k)) == Unfinished(RunsOf(w2.runs, k))
      && (RunsOf(w1.runs, k) == map[] ==> LeftoverIsDone(w2, k)) && (RunsOf(w2.runs, k) == map[] ==> LeftoverIsDone(w1, k))
  {
    ReachableIsSound(w);
    ReconcileArrives(w, k, undisturbed);
    FrozenRunKeepsGoal(w, disturbance, k);
    ReconcileArrives(After(w, disturbance), k, retried);
    var w1, w2 := Reconciled(w, k, undisturbed), Reconciled(After(w, disturbance), k, retried);
    assert KeyOk(w1, k) && KeyOk(w2, k);
    if RunsOf(w1.runs, k) == map[] { FinishedRunsAreLeftovers(w2, k); }
    if RunsOf(w2.runs, k) == map[] { FinishedRunsAreLeftovers(w1, k); }
  }

  /** Runs that are left are done, and belong to a request that is completed, being deleted or gone. */
  predicate LeftoverIsDone(w: World, k: Key) {
    forall r :: r in RunsOf(w.runs, k) ==>
      Decided(w.runs[r]) && (k in w.irs ==> HasCompleted(w.irs[k].status) || w.irs[k].deleting)
  }

  lemma FinishedRunsAreLeftovers(w: World, k: Key)
    requires AtMostOne(RunsOf(w.runs, k)) && Arrived(w, k) && Unfinished(RunsOf(w.runs, k)).None?
    ensures LeftoverIsDone(w, k)
  {
    forall r | r in RunsOf(w.runs, k)
      ensures Decided(w.runs[r]) && (k in w.irs ==> HasCompleted(w.irs[k].status) || w.irs[k].deleting)
    {
      OnlyRun(RunsOf(w.runs, k), r);
      if k in w.irs { ArrivedMeansAtRest(w.irs[k], RunsOf(w.runs, k), ConfigInForce(w)); }
    }
  }

  // ----- At rest -----

  ghost predicate Arrived(w: World, k: Key) { Here(w, k) == GoalOf(w, k) }

  /** A request that is where it was heading is gone, released, finished, or running an admitted run that is not done. */
  lemma ArrivedMeansAtRest(ir: InternalRequest, runs: map<Ref, Run>, c: Config)
    requires Goal(Some(ir), runs, c) == Destiny(Some(DigestOf(ir)), Unfinished(runs))
    ensures ir.deleting ==> !Held(ir)
    ensures !ir.deleting ==> Held(ir)
    ensures !ir.deleting && !HasCompleted(ir.status) ==>
      && Admitted(c, ir.key.namespace, ir.spec) && IsRunning(ir.status) && ir.status.pipelineRun != ""
      && runs != map[] && !IsDone(TheRun(runs))
  {
    assert FINALIZER !in ir.finalizers - {FINALIZER};
    if !ir.deleting {
      assert FINALIZER in Goal(Some(ir), runs, c).request.value.rest.finalizers;
      assert StatusGoal(ir, runs, c).conditions == ir.status.conditions;
    }
  }
}
