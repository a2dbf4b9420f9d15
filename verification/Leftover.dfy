/** Reachable worlds in which the controller's shortcuts show: a run adopted by another request, and a lost finalizer. */
module Leftover {
  import opened Common
  import opened References
  import opened Requests
  import opened PipelineRuns
  import opened Admission
  import opened Protocol
  import opened Invariant
  import opened KeyPreservation
  import opened Preservation
  import opened Runs
  import opened Recovery
  import opened Convergence
  import opened Progress
  import opened Theorems
  import opened Cleanup
  import opened Adoption
  import opened Leak

  // ----- A run that outlives its request -----

  /** No request of the name is stored, and its cancelled run is still there. */
  ghost predicate LeftBehind(w: World, k: Key) {
    && w.up && k !in w.irs && k !in w.flights && SEPARATOR !in k.namespace
    && Unfinished(RunsOf(w.runs, k)).Some? && Admitted(ConfigInForce(w), k.namespace, FirstRequest(k).spec)
  }

  /** The reconcile ends, the user deletes the request, and a worker picks it up. */
  lemma RequestIsDeleted(w: World, k: Key) returns (w': World)
    requires Inv(w) && RunsAlone(w, k) && Underway(w, k)
    ensures Inv(w') && w'.up && FlightOf(w', k) == Some(Fetching) && w'.runs == w.runs && ConfigInForce(w') == ConfigInForce(w)
    ensures k in w'.irs && w'.irs[k].deleting && w'.irs[k].finalizers == {FINALIZER}
    ensures forall v :: Gets(w', v) ==> Gets(w, v)
  {
    var w1 := DoFinish(w, k);
    var w2 := DoUserDelete(w1, k);
    assert k in w2.queue && k !in w2.flights;
    w' := w2.(queue := w2.queue - {k}, flights := w2.flights[k := Fetching]);
    StepKeepsInv(w, Finish(k));
    StepKeepsInv(w1, UserDelete(k));
    StepKeepsInv(w2, Pick(k));
    forall v | Gets(w', v) ensures Gets(w, v) {
      StepGets(w2, Pick(k), v);
      StepGets(w1, UserDelete(k), v);
      StepGets(w, Finish(k), v);
    }
  }

  lemma RequestIsReleased(w: World, k: Key) returns (w': World)
    requires Reachable(w) && w.up && FlightOf(w, k) == Some(Fetching) && SEPARATOR !in k.namespace
    requires k in w.irs && w.irs[k].deleting && w.irs[k].finalizers == {FINALIZER}
    requires Unfinished(RunsOf(w.runs, k)).Some? && Admitted(ConfigInForce(w), k.namespace, FirstRequest(k).spec)
    ensures Gets(w, w') && LeftBehind(w', k)
  {
    ReachableIsSound(w);
    var inputs := SomeReconcile(w, k);
    var w1 := Reconciled(w, k, inputs);
    DeletedRequestIsReleased(w, k, inputs);
    ReconcileArrives(w, k, inputs);
    ReconcileReturns(w, k, inputs);
    ReconcileStaysInPlace(w, k, inputs);
    ReconcileGets(w, k, inputs);
    assert Here(w1, k).unfinished == GoalOf(w, k).unfinished == Some(true);
    w' := DoFinish(w1, k);
    NoStepGets(w');
    StepGets(w1, Finish(k), w');
    GetsIsTransitive(w, w1, w');
  }

  // ----- A new request of the same name -----

  /** The run that is left is not done. */
  ghost predicate RunIsLeft(w: World, k: Key) {
    RunsOf(w.runs, k) != map[] && forall r :: r in RunsOf(w.runs, k) ==> !IsDone(w.runs[r])
  }

  lemma UnfinishedIsLeft(w: World, k: Key)
    requires KeyOk(w, k) && Unfinished(RunsOf(w.runs, k)).Some?
    ensures RunIsLeft(w, k)
  {
    forall r | r in RunsOf(w.runs, k) ensures !IsDone(w.runs[r]) {
      OnlyRun(RunsOf(w.runs, k), r);
    }
  }

  /** While a run that is not done is there, a reconcile neither creates nor deletes one. */
  lemma CallKeepsLeftover(w: World, k: Key, i: Input)
    requires Inv(w) && PerformEnabled(w, k, i) && RunIsLeft(w, k)
    ensures RunIsLeft(DoPerform(w, k, i), k) && DoPerform(w, k, i).history.births == w.history.births
  {
    assert KeyOk(w, k);
    var f := w.flights[k];
    if !Writes(f) {
      ReadsOnlyMove(w, k, i);
    } else if PatchesStatus(f) {
      PatchesMark(w, k, i);
    } else {
      WriteKeepsLeftover(w, k, i);
    }
  }

  lemma NoCreationDue(k: Key, c: Cell, ns: string)
    requires CellOk(k, c, ns) && c.flight.Some? && c.flight.value.Busy?
    requires c.runs != map[] && forall r :: r in c.runs ==> !IsDone(c.runs[r])
    ensures !c.flight.value.call.CreateRun? && !c.flight.value.call.DeleteRun?
  {
  }

  lemma CancelledRunIsOwn(k: Key, c: Cell, ns: string)
    requires CellOk(k, c, ns) && c.flight.Some? && c.flight.value.Busy?
    ensures c.flight.value.call.CancelRun? ==> c.flight.value.call.ref in c.runs
  {
  }

  lemma CancelKeepsLeftover(w: World, k: Key, i: Input, mem: InternalRequest, c: Config, ref: Ref)
    requires RunIsLeft(w, k) && ref in RunsOf(w.runs, k)
    ensures RunIsLeft(DoCancelRun(w, k, i, mem, c, ref), k)
  {
    var cancelled := w.runs[ref].(cancelled := true);
    RunsOfPut(w.runs, ref, cancelled, k);
    assert ref in RunsOf(w.runs, k)[ref := cancelled];
  }

  lemma WriteKeepsLeftover(w: World, k: Key, i: Input)
    requires KeyOk(w, k) && PerformEnabled(w, k, i) && RunIsLeft(w, k)
    requires Writes(w.flights[k]) && !PatchesStatus(w.flights[k])
    ensures RunIsLeft(DoPerform(w, k, i), k) && DoPerform(w, k, i).history.births == w.history.births
  {
    NoCreationDue(k, View(w, k), w.serviceNamespace);
    CancelledRunIsOwn(k, View(w, k), w.serviceNamespace);
    OtherWritesAreFramed(w, k, i);
    var Busy(call, mem, c) := w.flights[k];
    if call.CancelRun? {
      CancelKeepsLeftover(w, k, i, mem, c, call.ref);
    } else if call.AddFinalizer? {
      assert DoAddFinalizer(w, k, i, mem).runs == w.runs;
    } else {
      assert DoRemoveFinalizer(w, k, i, mem).runs == w.runs;
    }
  }

  lemma {:induction false} ReconcileKeepsBirths(w: World, k: Key, inputs: seq<Input>)
    requires Inv(w) && FailureFree(w, k, inputs) && RunIsLeft(w, k)
    ensures Reconciled(w, k, inputs).history.births == w.history.births
    decreases |inputs|
  {
    if !w.flights[k].Returned? {
      CallKeepsLeftover(w, k, inputs[0]);
      PerformKeepsInv(w, k, inputs[0]);
      ReconcileKeepsBirths(DoPerform(w, k, inputs[0]), k, inputs[1..]);
    }
  }

  /** A new request that the config admits, picked, with a leftover run older than it. */
  ghost predicate AboutToAdopt(w: World, k: Key) {
    && Inv(w) && FlightOf(w, k) == Some(Fetching) && k in w.irs && RunIsLeft(w, k)
    && !w.irs[k].deleting && w.irs[k].status == NO_STATUS && w.irs[k].key == k
    && Admitted(ConfigInForce(w), k.namespace, w.irs[k].spec)
    && forall r :: r in w.history.births && w.history.births[r].key == k ==> w.history.births[r].uid < w.irs[k].uid
  }

  lemma SameNameAgain(w: World, k: Key) returns (w': World)
    requires Reachable(w) && LeftBehind(w, k)
    ensures AboutToAdopt(w', k) && forall v :: Gets(w', v) ==> Gets(w, v)
  {
    ReachableOwns(w, k);
    assert KeyOk(w, k);
    UnfinishedIsLeft(w, k);
    var spec := FirstRequest(k).spec;
    var created := UserCreate(k, spec, map[], {});
    var w1 := DoUserCreate(w, k, spec, map[], {});
    w' := w1.(queue := w1.queue - {k}, flights := w1.flights[k := Fetching]);
    assert k in w1.queue;
    StepKeepsInv(w, created);
    StepKeepsInv(w1, Pick(k));
    forall v | Gets(w', v) ensures Gets(w, v) {
      StepGets(w1, Pick(k), v);
      StepGets(w, created, v);
    }
  }

  /** Where such a request is heading. */
  lemma AdoptionIsTheGoal(ir: InternalRequest, runs: map<Ref, Run>, c: Config)
    requires !ir.deleting && ir.status == NO_STATUS && Admitted(c, ir.key.namespace, ir.spec) && runs != map[]
    ensures var g := Goal(Some(ir), runs, c);
      g.request.Some? && g.request.value.status.hasRun && g.request.value.rest.uid == ir.uid
  {
  }

  lemma LeftoverIsAdopted(w: World, k: Key) returns (w': World)
    requires AboutToAdopt(w, k)
    ensures Gets(w, w') && k in w'.irs && w'.irs[k].status.pipelineRun != ""
    ensures forall r :: r in w'.history.births && w'.history.births[r].key == k ==> w'.history.births[r].uid < w'.irs[k].uid
  {
    var inputs := SomeReconcile(w, k);
    w' := Reconciled(w, k, inputs);
    AdoptionIsTheGoal(w.irs[k], RunsOf(w.runs, k), ConfigInForce(w));
    ReconcileArrives(w, k, inputs);
    ReconcileGets(w, k, inputs);
    ReconcileKeepsBirths(w, k, inputs);
    assert DigestOf(w'.irs[k]) == GoalOf(w, k).request.value;
  }

  /**
    In some reachable world, and without any failure on the way, a request refers to a run that was created for an earlier
    request of the same name.
  */
  lemma LeftoverCanBeAdopted(k: Key) returns (w: World)
    requires SEPARATOR !in k.namespace
    ensures Reachable(w) && k in w.irs && w.irs[k].status.pipelineRun != ""
    ensures Decode(w.irs[k].status.pipelineRun).Some?
    ensures var r := Decode(w.irs[k].status.pipelineRun).value;
      r in w.history.births && w.history.births[r].key == k && w.history.births[r].uid < w.irs[k].uid
  {
    var w1 := SomeRequestRuns(k);
    var w2 := RequestIsDeleted(w1, k);
    NoStepGets(w2);
    GetsIsTransitive(FirstWorld(k), w1, w2);
    GetsIsReachable(k, w2);
    SpecIsAdmitted(w1, w2, k);
    var w3 := RequestIsReleased(w2, k);
    GetsIsTransitive(FirstWorld(k), w2, w3);
    GetsIsReachable(k, w3);
    var w4 := SameNameAgain(w3, k);
    w := LeftoverIsAdopted(w4, k);
    GetsIsTransitive(FirstWorld(k), w3, w);
    GetsIsReachable(k, w);
    RunIsOwnIff(w, k);
  }

  lemma SpecIsAdmitted(w: World, w': World, k: Key)
    requires Underway(w, k) && ConfigInForce(w') == ConfigInForce(w) && w'.runs == w.runs
    requires Admitted(ConfigInForce(w), k.namespace, w.irs[k].spec)
    ensures Unfinished(RunsOf(w'.runs, k)).Some? && Admitted(ConfigInForce(w'), k.namespace, FirstRequest(k).spec)
  {
  }

  // ----- A finalizer that is lost -----

  lemma FetchedRequestNeedsFinalizer(k: Key)
    ensures var i := Input(Ok, 0, k, Run(map[], map[], [], "", "", [], false, None, [], []));
      DoFetch(PickedWorld(k), k, i) == Fly(PickedWorld(k), k, Busy(AddFinalizer, FirstRequest(k), DefaultConfig("")))
  {
  }

  /** In some reachable world the finalizer `x` of somebody else is stored, and the patch that is due drops it. */
  lemma FinalizerIsDropped(k: Key, x: string) returns (w: World, i: Input)
    requires SEPARATOR !in k.namespace && x != FINALIZER
    ensures Reachable(w) && k in w.irs && x in w.irs[k].finalizers && PerformEnabled(w, k, i) && i.outcome == Ok
    ensures var w' := DoPerform(w, k, i); k in w'.irs && x !in w'.irs[k].finalizers
  {
    i := Input(Ok, 0, k, Run(map[], map[], [], "", "", [], false, None, [], []));
    var w0 := PickedWorld(k);
    var w1 := Fly(w0, k, Busy(AddFinalizer, FirstRequest(k), DefaultConfig("")));
    FetchedRequestNeedsFinalizer(k);
    NoStepGets(w1);
    StepGets(w0, Perform(k, i), w1);
    OpeningGets(k, w1);
    GetsIsReachable(k, w1);
    AdditionCanDrop(w1, k, x, i);
    var added := OtherFinalizers(k, w1.irs[k].finalizers + {x});
    w := Step(w1, added);
    NoStepGets(w);
    StepGets(w1, added, w);
    GetsIsTransitive(FirstWorld(k), w1, w);
    GetsIsReachable(k, w);
  }
}
