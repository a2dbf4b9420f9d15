/**
  The gauge can drift without any failure. The comment on RegisterRejectedInternalRequest says that a rejected request
  never started running; a request that is running when its namespace leaves the allow list is rejected all the same.
*/
module Leak {
  import opened Common
  import opened References
  import opened Metrics
  import opened Requests
  import opened PipelineRuns
  import opened Admission
  import opened Protocol
  import opened Invariant
  import opened Preservation
  import opened Runs
  import opened Recovery
  import opened Convergence
  import opened Progress
  import opened Flawless

  /** No crash, and every call succeeds. */
  predicate Succeeds(w: World, a: Action) {
    !a.Crash? && (a.Perform? ==> a.input.outcome == Ok && !RemovalRefused(w, a.key))
  }

  predicate Smooth(w: World, actions: seq<Action>)
    decreases |actions|
  {
    actions == [] || (Enabled(w, actions[0]) && Succeeds(w, actions[0]) && Smooth(Step(w, actions[0]), actions[1..]))
  }

  lemma {:induction false} SmoothIsLossless(w: World, actions: seq<Action>)
    requires Smooth(w, actions)
    ensures Lossless(w, actions)
    decreases |actions|
  {
    if actions != [] {
      SmoothIsLossless(Step(w, actions[0]), actions[1..]);
    }
  }

  /** Some schedule without failures leads from `w` to `w'`. */
  ghost predicate Gets(w: World, w': World) {
    exists actions :: Smooth(w, actions) && Legal(w, actions) && After(w, actions) == w'
  }

  lemma NoStepGets(w: World)
    ensures Gets(w, w)
  {
    assert Smooth(w, []) && Legal(w, []) && After(w, []) == w;
  }

  lemma StepGets(w: World, a: Action, w': World)
    requires Enabled(w, a) && Succeeds(w, a) && Gets(Step(w, a), w')
    ensures Gets(w, w')
  {
    var rest :| Smooth(Step(w, a), rest) && Legal(Step(w, a), rest) && After(Step(w, a), rest) == w';
    var actions := [a] + rest;
    assert actions[0] == a && actions[1..] == rest;
    assert Smooth(w, actions) && Legal(w, actions) && After(w, actions) == w';
  }

  // ----- A request that runs -----

  /** Only `k` is stored, and it is running; its reconcile has just returned. */
  predicate RunsAlone(w: World, k: Key) {
    && w.up && k in w.flights && w.flights[k].Returned? && w.irs.Keys == {k}
    && IsRunning(w.irs[k].status) && w.irs[k].finalizers == {FINALIZER} && !w.irs[k].deleting
  }

  /** Its run is neither done nor cancelled, and the config still admits it. */
  ghost predicate Underway(w: World, k: Key) {
    && k in w.irs && Admitted(ConfigInForce(w), k.namespace, w.irs[k].spec)
    && Unfinished(RunsOf(w.runs, k)) == Some(false)
  }

  lemma {:induction false} ReconcileGets(w: World, k: Key, inputs: seq<Input>)
    requires Inv(w) && InStep(w, k) && FailureFree(w, k, inputs)
    ensures Gets(w, Reconciled(w, k, inputs))
    decreases |inputs|
  {
    if w.flights[k].Returned? {
      NoStepGets(w);
    } else {
      var i, w1 := inputs[0], DoPerform(w, k, inputs[0]);
      PerformOnCourse(w, k, i);
      PerformKeepsInv(w, k, i);
      ReconcileGets(w1, k, inputs[1..]);
      assert Succeeds(w, Perform(k, i)) by { FreshRemovalSucceeds(w, k); }
      StepGets(w, Perform(k, i), Reconciled(w, k, inputs));
    }
  }

  lemma FreshRemovalSucceeds(w: World, k: Key)
    requires InStep(w, k)
    ensures !RemovalRefused(w, k)
  {
  }

  lemma {:induction false} ReconcileStaysInPlace(w: World, k: Key, inputs: seq<Input>)
    requires Inv(w) && FailureFree(w, k, inputs)
    ensures Reconciled(w, k, inputs).up == w.up && ConfigInForce(Reconciled(w, k, inputs)) == ConfigInForce(w)
    ensures forall x :: x != k ==> IrOf(Reconciled(w, k, inputs), x) == IrOf(w, x)
    decreases |inputs|
  {
    if !w.flights[k].Returned? {
      var i, w1 := inputs[0], DoPerform(w, k, inputs[0]);
      PerformKeepsInv(w, k, i);
      CallKeepsUp(w, k, i);
      PerformKeepsConfig(w, k, i);
      forall x | x != k ensures IrOf(w1, x) == IrOf(w, x) {
        PerformIsolation(w, k, i, x);
        assert View(w1, x).ir == View(w, x).ir;
      }
      ReconcileStaysInPlace(w1, k, inputs[1..]);
    }
  }

  /** Where a new request heads that the config admits. */
  lemma NewRequestWillRun(ir: InternalRequest, c: Config)
    requires !ir.deleting && ir.status == NO_STATUS && Admitted(c, ir.key.namespace, ir.spec)
    ensures var g := Goal(Some(ir), map[], c);
      && g.request.Some? && g.request.value.rest.finalizers == ir.finalizers + {FINALIZER} && !g.request.value.rest.deleting
      && g.request.value.rest.spec == ir.spec && g.unfinished == Some(false)
      && g.request.value.status.conditions == [Condition(SucceededCondition, ConditionFalse, RunningReason, "")]
  {
  }

  lemma ReconcileRuns(w: World, k: Key, inputs: seq<Input>)
    requires Inv(w) && FlightOf(w, k) == Some(Fetching) && FailureFree(w, k, inputs)
    requires w.up && w.irs.Keys == {k} && RunsOf(w.runs, k) == map[]
    requires !w.irs[k].deleting && w.irs[k].status == NO_STATUS && w.irs[k].key == k && w.irs[k].finalizers == {}
    requires Admitted(ConfigInForce(w), k.namespace, w.irs[k].spec)
    ensures RunsAlone(Reconciled(w, k, inputs), k) && Underway(Reconciled(w, k, inputs), k)
  {
    var w' := Reconciled(w, k, inputs);
    ReconcileArrives(w, k, inputs);
    NewRequestArrives(w, w', k);
    ReconcileReturns(w, k, inputs);
    ReconcileStaysInPlace(w, k, inputs);
    OnlyOneKey(w, w', k);
  }

  lemma NewRequestArrives(w: World, w': World, k: Key)
    requires k in w.irs && RunsOf(w.runs, k) == map[] && Here(w', k) == GoalOf(w, k)
    requires !w.irs[k].deleting && w.irs[k].status == NO_STATUS && w.irs[k].key == k && w.irs[k].finalizers == {}
    requires Admitted(ConfigInForce(w), k.namespace, w.irs[k].spec)
    ensures k in w'.irs && IsRunning(w'.irs[k].status) && w'.irs[k].finalizers == {FINALIZER} && !w'.irs[k].deleting
    ensures w'.irs[k].spec == w.irs[k].spec && Unfinished(RunsOf(w'.runs, k)) == Some(false)
  {
    NewRequestWillRun(w.irs[k], ConfigInForce(w));
    assert Here(w', k).request.Some? && Here(w', k).unfinished == Some(false);
    DigestRuns(w'.irs[k]);
  }

  lemma OnlyOneKey(w: World, w': World, k: Key)
    requires w.irs.Keys == {k} && k in w'.irs && forall x :: x != k ==> IrOf(w', x) == IrOf(w, x)
    ensures w'.irs.Keys == {k}
  {
    forall x | x in w'.irs ensures x == k {
      assert IrOf(w', x).Some?;
    }
  }

  lemma DigestRuns(ir: InternalRequest)
    requires DigestOf(ir).status.conditions == [Condition(SucceededCondition, ConditionFalse, RunningReason, "")]
    ensures IsRunning(ir.status) && ir.finalizers == DigestOf(ir).rest.finalizers && ir.deleting == DigestOf(ir).rest.deleting
    ensures ir.spec == DigestOf(ir).rest.spec
  {
  }

  // ----- The opening: an empty world, a start, a request, and a worker that picks it -----

  function FirstWorld(k: Key): World {
    World(map[], map[], map[], Some(Config("default", [k.namespace], [], [], false)), "default",
          false, {}, map[], 0, Meters(ZERO, multiset{}, multiset{}), History(map[], Ledger(0, 0, 0, 0, 0), map[]))
  }

  function FirstRequest(k: Key): InternalRequest {
    InternalRequest(k, 0, 1, map[], {}, false, Spec("", "", [], map[], ""), NO_STATUS)
  }

  /** After the start. */
  function StartedWorld(k: Key): World { FirstWorld(k).(up := true) }

  /** After the creation of the request. */
  function RequestedWorld(k: Key): World {
    var w := StartedWorld(k);
    w.(irs := map[k := FirstRequest(k)], queue := {k},
       history := w.history.(books := map[k := [NEW_BOOK]]))
  }

  function PickedWorld(k: Key): World { RequestedWorld(k).(queue := {}, flights := map[k := Fetching]) }

  lemma CreationRequests(k: Key)
    ensures DoUserCreate(StartedWorld(k), k, FirstRequest(k).spec, map[], {}) == RequestedWorld(k)
  {
    var books: seq<Book> := [];
    assert books + [NEW_BOOK] == [NEW_BOOK];
  }

  lemma OpeningSteps(k: Key)
    requires SEPARATOR !in k.namespace
    ensures var created := UserCreate(k, FirstRequest(k).spec, map[], {});
      && Enabled(FirstWorld(k), Start) && Step(FirstWorld(k), Start) == StartedWorld(k)
      && Enabled(StartedWorld(k), created) && Step(StartedWorld(k), created) == RequestedWorld(k)
      && Enabled(RequestedWorld(k), Pick(k)) && Step(RequestedWorld(k), Pick(k)) == PickedWorld(k)
  {
    CreationRequests(k);
  }

  lemma OpeningIsSound(k: Key)
    requires SEPARATOR !in k.namespace
    ensures Inv(PickedWorld(k))
  {
    OpeningSteps(k);
    InitialWorldIsSound(FirstWorld(k));
    StepKeepsInv(FirstWorld(k), Start);
    StepKeepsInv(StartedWorld(k), UserCreate(k, FirstRequest(k).spec, map[], {}));
    StepKeepsInv(RequestedWorld(k), Pick(k));
  }

  lemma OpeningGets(k: Key, w: World)
    requires SEPARATOR !in k.namespace && Gets(PickedWorld(k), w)
    ensures Gets(FirstWorld(k), w)
  {
    OpeningSteps(k);
    StepGets(RequestedWorld(k), Pick(k), w);
    StepGets(StartedWorld(k), UserCreate(k, FirstRequest(k).spec, map[], {}), w);
    StepGets(FirstWorld(k), Start, w);
  }

  /** A new request, picked, with a config that admits it. */
  ghost predicate AboutToRun(w: World, k: Key) {
    && Inv(w) && FlightOf(w, k) == Some(Fetching) && w.up && w.irs.Keys == {k} && RunsOf(w.runs, k) == map[]
    && !w.irs[k].deleting && w.irs[k].status == NO_STATUS && w.irs[k].key == k && w.irs[k].finalizers == {}
    && Admitted(ConfigInForce(w), k.namespace, w.irs[k].spec)
  }

  lemma RequestRuns(w: World, k: Key) returns (w': World)
    requires AboutToRun(w, k)
    ensures Gets(w, w') && RunsAlone(w', k) && Underway(w', k) && Inv(w')
  {
    var inputs := SomeReconcile(w, k);
    w' := Reconciled(w, k, inputs);
    ReconcileGets(w, k, inputs);
    ReconcileArrives(w, k, inputs);
    ReconcileRuns(w, k, inputs);
  }

  lemma PickedIsAboutToRun(k: Key)
    requires Inv(PickedWorld(k))
    ensures AboutToRun(PickedWorld(k), k)
  {
  }

  lemma SomeRequestRuns(k: Key) returns (w: World)
    requires SEPARATOR !in k.namespace
    ensures Gets(FirstWorld(k), w) && RunsAlone(w, k) && Underway(w, k) && Inv(w)
  {
    OpeningIsSound(k);
    PickedIsAboutToRun(k);
    w := RequestRuns(PickedWorld(k), k);
    OpeningGets(k, w);
  }

  // ----- A running request that is rejected -----

  /** The reconcile of a running request under a config that admits nothing: Get, config, patch. */
  lemma RunningIsRejected(w: World, k: Key) returns (w': World)
    requires Doomed(w, k) && FlightOf(w, k) == Some(Fetching)
    ensures Gets(w, w') && w'.history.ledger.rejections == w.history.ledger.rejections + 1
    ensures w'.irs.Keys == w.irs.Keys && !IsRunning(w'.irs[k].status)
  {
    var i := Input(Ok, 0, k, Run(map[], map[], [], "", "", [], false, None, [], []));
    var mem, c := w.irs[k], DefaultConfig(w.serviceNamespace);
    assert KeyOk(w, k);
    var message := RejectionMessage(c, mem.key.namespace, mem.spec);
    var w1 := Fly(w, k, Busy(LoadConfig, mem, DefaultConfig("")));
    var w2 := Fly(w1, k, Busy(PatchRejected(message), mem, c));
    w' := DoPatchRejected(w2, k, i, mem, message);
    assert DoFetch(w, k, i) == w1;
    EmptyAllowListAdmitsNothing(c, mem.key.namespace, mem.spec);
    assert DoLoadConfig(w1, k, i, mem) == w2;
    RejectionRecorded(w2, k, i, mem, message);
    NoStepGets(w');
    StepGets(w2, Perform(k, i), w');
    StepGets(w1, Perform(k, i), w');
    StepGets(w, Perform(k, i), w');
  }

  lemma RejectionRecorded(w: World, k: Key, i: Input, mem: InternalRequest, message: string)
    requires i.outcome == Ok && IrOf(w, k) == Some(mem) && IsRunning(mem.status) && !HasCompleted(mem.status)
    ensures var w' := DoPatchRejected(w, k, i, mem, message);
      && w'.history.ledger.rejections == w.history.ledger.rejections + 1
      && w'.irs.Keys == w.irs.Keys && !IsRunning(w'.irs[k].status)
  {
    MergeOfOwnCopy(mem.status, MarkedRejected(mem, message).status);
  }

  /** A running request, alone, under a config that admits nothing. */
  ghost predicate Doomed(w: World, k: Key) {
    && Inv(w) && w.config == None && k in w.irs
    && IsRunning(w.irs[k].status) && Held(w.irs[k]) && !w.irs[k].deleting
  }

  /** The reconcile ends and the config object goes away. */
  lemma ConfigGoesAway(w: World, k: Key) returns (w': World)
    requires Inv(w) && RunsAlone(w, k)
    ensures Doomed(w', k) && w'.up && k !in w'.flights && w'.irs == w.irs
    ensures forall v :: Gets(w', v) ==> Gets(w, v)
  {
    var w1 := DoFinish(w, k);
    w' := w1.(config := None);
    StepKeepsInv(w, Finish(k));
    StepKeepsInv(w1, ConfigChange(None));
    forall v | Gets(w', v) ensures Gets(w, v) {
      StepGets(w1, ConfigChange(None), v);
      StepGets(w, Finish(k), v);
    }
  }

  lemma EditWakes(w: World, k: Key, spec: Spec)
    requires k in w.irs && w.up && spec != w.irs[k].spec
    ensures var w' := DoUserUpdate(w, k, spec, map[]);
      && w' == w.(irs := w'.irs, queue := w.queue + {k}) && w'.irs.Keys == w.irs.Keys
      && w'.irs[k] == w.irs[k].(spec := spec, labels := map[], generation := w.irs[k].generation + 1)
  {
  }

  /** The user edits the request, and a worker picks it up. */
  lemma EditIsPicked(w: World, k: Key) returns (w': World)
    requires Doomed(w, k) && w.up && k !in w.flights
    ensures Doomed(w', k) && FlightOf(w', k) == Some(Fetching) && w'.irs.Keys == w.irs.Keys
    ensures forall v :: Gets(w', v) ==> Gets(w, v)
  {
    var spec := w.irs[k].spec.(serviceAccount := w.irs[k].spec.serviceAccount + "x");
    assert spec.serviceAccount != w.irs[k].spec.serviceAccount;
    var edit := UserUpdate(k, spec, map[]);
    EditWakes(w, k, spec);
    var w1 := DoUserUpdate(w, k, spec, map[]);
    w' := w1.(queue := w1.queue - {k}, flights := w1.flights[k := Fetching]);
    StepKeepsInv(w, edit);
    StepKeepsInv(w1, Pick(k));
    forall v | Gets(w', v) ensures Gets(w, v) {
      StepGets(w1, Pick(k), v);
      StepGets(w, edit, v);
    }
  }

  // ----- The goroutines finish -----

  lemma {:induction false} DrainAll(w: World) returns (w': World)
    ensures Gets(w, w') && w' == w.(meters := w'.meters) && w'.meters.pending == multiset{}
    decreases |w.meters.pending|
  {
    if u :| u in w.meters.pending {
      w' := DrainAll(Step(w, Drain(u)));
      StepGets(w, Drain(u), w');
    } else {
      w' := w;
      NoStepGets(w);
    }
  }

  /**
    From an empty world, without a single failed call or lost patch: no request is active, no update is pending, and the
    gauge is above zero.
  */
  lemma GaugeCanLeak(k: Key) returns (w: World, actions: seq<Action>)
    requires SEPARATOR !in k.namespace
    ensures Initial(FirstWorld(k)) && Smooth(FirstWorld(k), actions) && Legal(FirstWorld(k), actions)
    ensures After(FirstWorld(k), actions) == w
    ensures w.meters.pending == multiset{} && ActiveKeys(w.irs) == {} && w.meters.readings.gauge > 0
  {
    var w1 := SomeRequestRuns(k);
    var w1' := ConfigGoesAway(w1, k);
    var w2 := EditIsPicked(w1', k);
    var w3 := RunningIsRejected(w2, k);
    w := DrainAll(w3);
    assert Gets(FirstWorld(k), w) by {
      GetsIsTransitive(w2, w3, w);
      GetsIsTransitive(FirstWorld(k), w1, w);
    }
    actions :| Smooth(FirstWorld(k), actions) && Legal(FirstWorld(k), actions) && After(FirstWorld(k), actions) == w;
    FirstWorldIsDown(k);
    SmoothIsLossless(FirstWorld(k), actions);
    RejectionsRemain(FirstWorld(k), actions);
    assert ActiveKeys(w.irs) == {};
  }

  /** Without losses, rejected running requests are all that the gauge keeps above the active ones. */
  lemma RejectionsRemain(w0: World, actions: seq<Action>)
    requires Reachable(w0) && !w0.up && ActiveKeys(w0.irs) == {} && Lossless(w0, actions) && Legal(w0, actions)
    ensures var w := After(w0, actions);
      w.meters.readings.gauge + GaugeSum(w.meters.pending) == |ActiveKeys(w.irs)| + w.history.ledger.rejections
  {
    DownIsFresh(w0);
    RunStaysClean(w0, actions);
  }

  lemma FirstWorldIsDown(k: Key)
    ensures Initial(FirstWorld(k)) && Reachable(FirstWorld(k)) && ActiveKeys(FirstWorld(k).irs) == {}
  {
    assert Legal(FirstWorld(k), []) && After(FirstWorld(k), []) == FirstWorld(k);
  }

  lemma {:induction false} SmoothCompose(w: World, a: seq<Action>, w1: World, w2: World)
    requires Smooth(w, a) && Legal(w, a) && After(w, a) == w1 && Gets(w1, w2)
    ensures Gets(w, w2)
    decreases |a|
  {
    if a != [] {
      SmoothCompose(Step(w, a[0]), a[1..], w1, w2);
      StepGets(w, a[0], w2);
    }
  }

  lemma GetsIsTransitive(w: World, w1: World, w2: World)
    requires Gets(w, w1) && Gets(w1, w2)
    ensures Gets(w, w2)
  {
    var a :| Smooth(w, a) && Legal(w, a) && After(w, a) == w1;
    SmoothCompose(w, a, w1, w2);
  }

  lemma GetsIsReachable(k: Key, w: World)
    requires SEPARATOR !in k.namespace && Gets(FirstWorld(k), w)
    ensures Reachable(w)
  {
    FirstWorldIsDown(k);
  }
}
