/** Whether the controller can come to rest: always, unless a request waits for somebody else's finalizer. */
module Quiescence {
  import opened Common
  import opened Requests
  import opened PipelineRuns
  import opened Admission
  import opened Protocol
  import opened Invariant
  import opened Preservation
  import opened Runs
  import opened Recovery
  import opened Convergence
  import opened Progress
  import opened Api
  import opened Origins
  import opened Theorems

  /** Some schedule of the controller alone leads from `w` to `w'`. */
  ghost predicate Works(w: World, w': World) {
    exists actions :: Legal(w, actions) && AllControllers(actions) && After(w, actions) == w'
  }

  lemma NoWork(w: World)
    ensures Works(w, w)
  {
    assert Legal(w, []) && AllControllers([]) && After(w, []) == w;
  }

  lemma StepWorks(w: World, a: Action, w': World)
    requires Enabled(w, a) && IsControllers(a) && Works(Step(w, a), w')
    ensures Works(w, w')
  {
    var rest :| Legal(Step(w, a), rest) && AllControllers(rest) && After(Step(w, a), rest) == w';
    var actions := [a] + rest;
    assert actions[0] == a && actions[1..] == rest;
    assert Legal(w, actions) && AllControllers(actions) && After(w, actions) == w';
  }

  lemma WorksIsTransitive(w: World, w1: World, w2: World)
    requires Works(w, w1) && Works(w1, w2)
    ensures Works(w, w2)
  {
    var a :| Legal(w, a) && AllControllers(a) && After(w, a) == w1;
    var b :| Legal(w1, b) && AllControllers(b) && After(w1, b) == w2;
    SchedulesCompose(w, a, b);
    assert AllControllers(a + b);
  }

  /** No request that is being deleted waits for somebody else's finalizer. */
  predicate NobodyWaits(irs: map<Key, InternalRequest>) {
    forall k :: k in irs && irs[k].deleting ==> Others(irs[k]) == {}
  }

  predicate Quiescent(w: World) { w.up && w.queue == {} && w.flights == map[] }

  // ----- What a call leaves alone -----

  /** The process state that no call touches, and the finalizers of others on requests that are being deleted. */
  predicate Tidy(w: World, w': World) {
    && w'.up == w.up && w'.queue == w.queue && w'.flights.Keys == w.flights.Keys
    && forall k :: k in w'.irs && w'.irs[k].deleting ==>
         k in w.irs && w.irs[k].deleting && Others(w'.irs[k]) == Others(w.irs[k])
  }

  lemma PatchIsTidy(w: World, k: Key, mem: InternalRequest, m: Marked, outcome: Outcome, f: Flight)
    requires k in w.flights
    ensures Tidy(w, MarkAndPatch(w, k, mem, m, outcome, f))
  {
    assert w.flights[k := f].Keys == w.flights.Keys;
  }

  lemma CancelIsTidy(w: World, k: Key, i: Input, mem: InternalRequest, c: Config, ref: Ref)
    requires k in w.flights
    ensures Tidy(w, DoCancelRun(w, k, i, mem, c, ref))
  {
    assert DoCancelRun(w, k, i, mem, c, ref).flights.Keys == w.flights.Keys + {k};
  }

  lemma CreationIsTidy(w: World, k: Key, i: Input, mem: InternalRequest, c: Config)
    requires k in w.flights
    ensures Tidy(w, DoCreateRun(w, k, i, mem, c))
  {
    assert DoCreateRun(w, k, i, mem, c).flights.Keys == w.flights.Keys + {k};
  }

  lemma DeletionIsTidy(w: World, k: Key, i: Input, ref: Ref)
    requires k in w.flights
    ensures Tidy(w, DoDeleteRun(w, k, i, ref))
  {
    assert DoDeleteRun(w, k, i, ref).flights.Keys == w.flights.Keys + {k};
  }

  lemma AdditionIsTidy(w: World, k: Key, i: Input, mem: InternalRequest)
    requires k in w.flights && !Held(mem) && (k in w.irs ==> !Held(w.irs[k]))
    ensures Tidy(w, DoAddFinalizer(w, k, i, mem))
  {
    AdditionOfOldCopy(w, k, i, mem);
    assert DoAddFinalizer(w, k, i, mem).flights.Keys == w.flights.Keys + {k};
  }

  lemma RemovalIsTidy(w: World, k: Key, i: Input, mem: InternalRequest)
    requires k in w.flights && Coupled(k, mem, IrOf(w, k)) && mem.deleting
    ensures Tidy(w, DoRemoveFinalizer(w, k, i, mem))
  {
    RemovalOfOwnCopy(w, k, i, mem);
    assert w.flights[k := Returned(true)].Keys == w.flights.Keys;
  }

  lemma MoveIsTidy(w: World, w': World, k: Key)
    requires k in w.flights && Moves(w, w', k)
    ensures Tidy(w, w')
  {
  }

  lemma FinalizerCallsAreDue(k: Key, c: Cell, ns: string, f: Flight)
    requires CellOk(k, c, ns) && c.flight == Some(f) && f.Busy?
    ensures f.call.AddFinalizer? ==> !Held(f.mem) && (c.ir.Some? ==> !Held(c.ir.value))
    ensures f.call.RemoveFinalizer? ==> Coupled(k, f.mem, c.ir) && f.mem.deleting
  {
  }

  lemma CallIsTidy(w: World, k: Key, i: Input)
    requires Inv(w) && PerformEnabled(w, k, i)
    ensures Tidy(w, DoPerform(w, k, i))
  {
    assert KeyOk(w, k);
    var f := w.flights[k];
    if !Writes(f) {
      ReadsOnlyMove(w, k, i);
      MoveIsTidy(w, DoPerform(w, k, i), k);
    } else if PatchesStatus(f) {
      PatchesMark(w, k, i);
      PatchIsTidy(w, k, f.mem, Marking(f, i.now), i.outcome, DoPerform(w, k, i).flights[k]);
    } else {
      FinalizerCallsAreDue(k, View(w, k), w.serviceNamespace, f);
      WriteIsTidy(w, k, i);
    }
  }

  lemma WriteIsTidy(w: World, k: Key, i: Input)
    requires PerformEnabled(w, k, i) && Writes(w.flights[k]) && !PatchesStatus(w.flights[k])
    requires var f := w.flights[k]; f.call.AddFinalizer? ==> !Held(f.mem) && (k in w.irs ==> !Held(w.irs[k]))
    requires var f := w.flights[k]; f.call.RemoveFinalizer? ==> Coupled(k, f.mem, IrOf(w, k)) && f.mem.deleting
    ensures Tidy(w, DoPerform(w, k, i))
  {
    var Busy(call, mem, c) := w.flights[k];
    match call {
      case AddFinalizer => AdditionIsTidy(w, k, i, mem);
      case RemoveFinalizer => RemovalIsTidy(w, k, i, mem);
      case CancelRun(ref) => CancelIsTidy(w, k, i, mem, c, ref);
      case CreateRun => CreationIsTidy(w, k, i, mem, c);
      case DeleteRun(ref) => DeletionIsTidy(w, k, i, ref);
    }
  }

  /** A reconcile that has begun can be completed. */
  lemma {:induction false} ReconcileWorks(w: World, k: Key, inputs: seq<Input>)
    requires Inv(w) && FailureFree(w, k, inputs) && NobodyWaits(w.irs)
    ensures var w' := Reconciled(w, k, inputs);
      Works(w, w') && Inv(w') && NobodyWaits(w'.irs) && w'.up == w.up && w'.queue == w.queue && w'.flights.Keys == w.flights.Keys
    decreases |inputs|
  {
    if w.flights[k].Returned? {
      NoWork(w);
    } else {
      var w1 := DoPerform(w, k, inputs[0]);
      PerformKeepsInv(w, k, inputs[0]);
      CallIsTidy(w, k, inputs[0]);
      ReconcileWorks(w1, k, inputs[1..]);
      StepWorks(w, Perform(k, inputs[0]), Reconciled(w, k, inputs));
    }
  }

  // ----- Reconciles in flight -----

  ghost predicate Workable(w: World) { Inv(w) && w.up && NobodyWaits(w.irs) }

  lemma FlightEnds(w: World, k: Key) returns (w': World)
    requires Workable(w) && k in w.flights
    ensures Works(w, w') && Workable(w') && w'.flights.Keys == w.flights.Keys - {k}
  {
    var inputs := SomeReconcile(w, k);
    var w1 := Reconciled(w, k, inputs);
    ReconcileWorks(w, k, inputs);
    ReconcileReturns(w, k, inputs);
    w' := DoFinish(w1, k);
    StepKeepsInv(w1, Finish(k));
    NoWork(w');
    StepWorks(w1, Finish(k), w');
    WorksIsTransitive(w, w1, w');
  }

  lemma {:induction false} FlightsEnd(w: World) returns (w': World)
    requires Workable(w)
    ensures Works(w, w') && Workable(w') && w'.flights == map[]
    decreases |w.flights.Keys|
  {
    if k :| k in w.flights {
      var w1 := FlightEnds(w, k);
      w' := FlightsEnd(w1);
      WorksIsTransitive(w, w1, w');
    } else {
      w' := w;
      NoWork(w);
    }
  }

  // ----- Keys in the queue -----

  /** A reconcile whose request is not being deleted: it will not ask to come back. */
  ghost predicate Quiet(w: World, k: Key) {
    InStep(w, k) && k in w.flights &&
    match w.flights[k]
    case Returned(requeue) => !requeue
    case Fetching => k in w.irs ==> !w.irs[k].deleting
    case Busy(call, _, _) => !Finalizing(call)
  }

  predicate QuietFlight(f: Flight) { f == Returned(false) || (f.Busy? && !Finalizing(f.call)) }

  lemma EntriesAreQuiet(mem: InternalRequest, c: Config, found: Option<(Ref, Run)>)
    requires !mem.deleting
    ensures QuietFlight(AtFinalizers(mem)) && QuietFlight(AtNotCompleted(mem)) && QuietFlight(AtAllowed(mem, c))
    ensures QuietFlight(AfterCreateLookup(mem, c, true)) && QuietFlight(AfterCreateLookup(mem, c, false))
    ensures QuietFlight(AfterTrackLookup(mem, c, found)) && QuietFlight(AtTracked(mem, c)) && QuietFlight(AtDeleted(mem, c))
  {
  }

  lemma FetchIsQuiet(w: World, k: Key, i: Input)
    requires i.outcome == Ok && (k in w.irs ==> !w.irs[k].deleting)
    ensures QuietFlight(DoFetch(w, k, i).flights[k])
  {
    if k in w.irs { EntriesAreQuiet(w.irs[k], DefaultConfig(""), None); }
  }

  lemma AdditionIsQuiet(w: World, k: Key, i: Input, mem: InternalRequest)
    requires i.outcome == Ok && IrOf(w, k) == Some(mem) && !mem.deleting
    ensures QuietFlight(DoAddFinalizer(w, k, i, mem).flights[k])
  {
    var p := PatchFinalizers(IrOf(w, k), mem.finalizers + {FINALIZER});
    assert p == Stored(mem.(finalizers := mem.finalizers + {FINALIZER}));
    EntriesAreQuiet(p.ir, DefaultConfig(""), None);
  }

  lemma LoadIsQuiet(w: World, k: Key, i: Input, mem: InternalRequest)
    requires i.outcome == Ok && !mem.deleting
    ensures QuietFlight(DoLoadConfig(w, k, i, mem).flights[k])
  {
    EntriesAreQuiet(mem, ConfigInForce(w), None);
  }

  lemma ListsAreQuiet(w: World, k: Key, i: Input, mem: InternalRequest, c: Config)
    requires i.outcome == Ok && !mem.deleting
    ensures QuietFlight(DoListForCreate(w, k, i, mem, c).flights[k])
    ensures QuietFlight(DoListForTrack(w, k, i, mem, c).flights[k])
  {
    var found := Lookup(w, k, i.ref);
    EntriesAreQuiet(mem, c, None);
    EntriesAreQuiet(mem, c, if found.Some? && found.value in w.runs then Some((found.value, w.runs[found.value])) else None);
  }

  lemma LaterListsAreQuiet(w: World, k: Key, i: Input)
    requires KeyOk(w, k) && PerformEnabled(w, k, i) && i.outcome == Ok && IsList(w.flights[k])
    requires w.flights[k].call.ListTaskRuns? || w.flights[k].call.ListForDelete?
    ensures k in DoPerform(w, k, i).flights && QuietFlight(DoPerform(w, k, i).flights[k])
  {
  }

  lemma RunWritesAreQuiet(w: World, k: Key, i: Input, mem: InternalRequest, c: Config, ref: Ref)
    requires i.outcome == Ok
    ensures QuietFlight(DoCreateRun(w, k, i, mem, c).flights[k])
    ensures ref in w.runs ==> QuietFlight(DoDeleteRun(w, k, i, ref).flights[k])
  {
  }

  lemma PatchesAreQuiet(w: World, k: Key, i: Input)
    requires KeyOk(w, k) && PerformEnabled(w, k, i) && i.outcome == Ok && PatchesStatus(w.flights[k])
    requires IrOf(w, k) == Some(w.flights[k].mem) && !w.flights[k].mem.deleting
    ensures k in DoPerform(w, k, i).flights && QuietFlight(DoPerform(w, k, i).flights[k])
  {
    StatusPatchFlight(w, k, i);
    PatchesMark(w, k, i);
    EntriesAreQuiet(DoPerform(w, k, i).irs[k], w.flights[k].config, None);
  }

  lemma CallStaysQuiet(w: World, k: Key, i: Input)
    requires Inv(w) && PerformEnabled(w, k, i) && i.outcome == Ok && Quiet(w, k)
    ensures Quiet(DoPerform(w, k, i), k)
  {
    assert KeyOk(w, k);
    PerformOnCourse(w, k, i);
    CallLowersRank(w, k, i);
    match w.flights[k]
    case Fetching => FetchIsQuiet(w, k, i);
    case Busy(call, mem, c) =>
      if call.AddFinalizer? {
        AdditionIsQuiet(w, k, i, mem);
      } else if call.LoadConfig? {
        LoadIsQuiet(w, k, i, mem);
      } else if PatchesStatus(w.flights[k]) {
        PatchesAreQuiet(w, k, i);
      } else if call.ListForCreate? || call.ListForTrack? {
        ListsAreQuiet(w, k, i, mem, c);
      } else if call.CreateRun? || call.DeleteRun? {
        RunWritesAreQuiet(w, k, i, mem, c, if call.DeleteRun? then call.ref else k);
      } else {
        LaterListsAreQuiet(w, k, i);
      }
  }

  lemma {:induction false} QuietReconcileReturns(w: World, k: Key, inputs: seq<Input>)
    requires Inv(w) && FailureFree(w, k, inputs) && Quiet(w, k)
    ensures Quiet(Reconciled(w, k, inputs), k)
    decreases |inputs|
  {
    if !w.flights[k].Returned? {
      CallStaysQuiet(w, k, inputs[0]);
      PerformKeepsInv(w, k, inputs[0]);
      QuietReconcileReturns(DoPerform(w, k, inputs[0]), k, inputs[1..]);
    }
  }

  /** A failure-free reconcile asks to come back only when it has just released its request, which is gone then. */
  lemma RequeueMeansGone(w: World, k: Key, inputs: seq<Input>)
    requires Inv(w) && FlightOf(w, k) == Some(Fetching) && FailureFree(w, k, inputs) && NobodyWaits(w.irs)
    ensures k in Reconciled(w, k, inputs).flights && Reconciled(w, k, inputs).flights[k].Returned?
    ensures Reconciled(w, k, inputs).flights[k].requeue ==> k !in Reconciled(w, k, inputs).irs
  {
    ReconcileReturns(w, k, inputs);
    if k in w.irs && w.irs[k].deleting {
      assert KeyOk(w, k);
      ReleaseIsTheGoal(w.irs[k], RunsOf(w.runs, k), ConfigInForce(w));
      ReconcileArrives(w, k, inputs);
    } else {
      QuietReconcileReturns(w, k, inputs);
    }
  }

  lemma ReleaseIsTheGoal(ir: InternalRequest, runs: map<Ref, Run>, c: Config)
    requires ir.deleting && ir.finalizers != {} && Others(ir) == {}
    ensures Goal(Some(ir), runs, c).request.None?
  {
    var x :| x in ir.finalizers;
    assert x == FINALIZER by { assert x !in Others(ir); }
  }

  lemma KeyIsReconciled(w: World, k: Key) returns (w': World)
    requires Workable(w) && w.flights == map[] && k in w.queue
    ensures Works(w, w') && Workable(w') && w'.flights == map[]
    ensures w'.queue == w.queue - {k} || (w'.queue == w.queue && k !in w'.irs)
  {
    var w1 := w.(queue := w.queue - {k}, flights := w.flights[k := Fetching]);
    assert Enabled(w, Pick(k)) && Step(w, Pick(k)) == w1;
    StepKeepsInv(w, Pick(k));
    w' := PickedKeyIsReconciled(w1, k);
    StepWorks(w, Pick(k), w');
  }

  lemma PickedKeyIsReconciled(w: World, k: Key) returns (w': World)
    requires Workable(w) && w.flights == map[k := Fetching]
    ensures Works(w, w') && Workable(w') && w'.flights == map[]
    ensures w'.queue == w.queue || (w'.queue == w.queue + {k} && k !in w'.irs)
  {
    var inputs := SomeReconcile(w, k);
    var w1 := Reconciled(w, k, inputs);
    ReconcileWorks(w, k, inputs);
    RequeueMeansGone(w, k, inputs);
    w' := DoFinish(w1, k);
    StepKeepsInv(w1, Finish(k));
    NoWork(w');
    StepWorks(w1, Finish(k), w');
    WorksIsTransitive(w, w1, w');
    assert w'.flights.Keys == {};
  }

  /** A key whose request is gone leaves the queue. */
  lemma GoneKeyLeaves(w: World, k: Key) returns (w': World)
    requires Workable(w) && w.flights == map[] && k in w.queue && k !in w.irs
    ensures Works(w, w') && Workable(w') && w'.flights == map[] && w'.queue == w.queue - {k}
  {
    var i := Input(Ok, 0, k, NO_RUN);
    var w1 := w.(queue := w.queue - {k}, flights := w.flights[k := Fetching]);
    var w2 := Fly(w1, k, Returned(false));
    w' := DoFinish(w2, k);
    assert DoFetch(w1, k, i) == w2;
    StepKeepsInv(w, Pick(k));
    StepKeepsInv(w1, Perform(k, i));
    StepKeepsInv(w2, Finish(k));
    NoWork(w');
    StepWorks(w2, Finish(k), w');
    StepWorks(w1, Perform(k, i), w');
    StepWorks(w, Pick(k), w');
    assert w'.flights.Keys == {};
  }

  lemma {:induction false} QueueDrains(w: World) returns (w': World)
    requires Workable(w) && w.flights == map[]
    ensures Works(w, w') && Workable(w') && w'.flights == map[] && w'.queue == {}
    decreases |w.queue|
  {
    if k :| k in w.queue {
      var w1 := KeyIsReconciled(w, k);
      var w2 := w1;
      NoWork(w1);
      if k in w1.queue { w2 := GoneKeyLeaves(w1, k); }
      w' := QueueDrains(w2);
      WorksIsTransitive(w1, w2, w');
      WorksIsTransitive(w, w1, w');
    } else {
      w' := w;
      NoWork(w);
    }
  }

  lemma ProcessStarts(w: World) returns (w': World)
    requires Inv(w) && NobodyWaits(w.irs)
    ensures Works(w, w') && Workable(w')
  {
    NoWork(w);
    w' := w;
    if !w.up {
      w' := DoStart(w);
      StepKeepsInv(w, Start);
      NoWork(w');
      StepWorks(w, Start, w');
    }
  }

  lemma RestIsReached(w: World) returns (w': World)
    requires Inv(w) && NobodyWaits(w.irs)
    ensures Works(w, w') && Quiescent(w')
  {
    var w1 := ProcessStarts(w);
    var w2 := FlightsEnd(w1);
    w' := QueueDrains(w2);
    WorksIsTransitive(w1, w2, w');
    WorksIsTransitive(w, w1, w');
  }

  // ----- Requests that wait -----

  predicate Waits(w: World, k: Key) { k in w.irs && w.irs[k].deleting && Others(w.irs[k]) != {} }

  lemma OwnCallKeepsWaiting(w: World, k: Key, i: Input)
    requires Inv(w) && PerformEnabled(w, k, i) && Waits(w, k)
    ensures Waits(DoPerform(w, k, i), k)
  {
    assert KeyOk(w, k);
    var f := w.flights[k];
    if !Writes(f) {
      ReadsOnlyMove(w, k, i);
    } else if PatchesStatus(f) {
      PatchesMark(w, k, i);
      PatchKeepsWaiting(w, k, f.mem, Marking(f, i.now), i.outcome, DoPerform(w, k, i).flights[k]);
    } else {
      FinalizerCallsAreDue(k, View(w, k), w.serviceNamespace, f);
      OtherWriteKeepsWaiting(w, k, i);
    }
  }

  lemma RemovalKeepsWaiting(w: World, k: Key, i: Input, mem: InternalRequest)
    requires Waits(w, k) && Coupled(k, mem, IrOf(w, k)) && mem.deleting
    ensures Waits(DoRemoveFinalizer(w, k, i, mem), k)
  {
    RemovalOfOwnCopy(w, k, i, mem);
  }

  lemma PatchKeepsWaiting(w: World, k: Key, mem: InternalRequest, m: Marked, outcome: Outcome, f: Flight)
    requires Waits(w, k)
    ensures Waits(MarkAndPatch(w, k, mem, m, outcome, f), k)
  {
  }

  lemma OtherWriteKeepsWaiting(w: World, k: Key, i: Input)
    requires PerformEnabled(w, k, i) && Writes(w.flights[k]) && !PatchesStatus(w.flights[k]) && Waits(w, k)
    requires var f := w.flights[k]; f.call.AddFinalizer? ==> !Held(f.mem) && !Held(w.irs[k])
    requires var f := w.flights[k]; f.call.RemoveFinalizer? ==> Coupled(k, f.mem, IrOf(w, k)) && f.mem.deleting
    ensures Waits(DoPerform(w, k, i), k)
  {
    var Busy(call, mem, c) := w.flights[k];
    match call {
      case AddFinalizer => AdditionOfOldCopy(w, k, i, mem);
      case RemoveFinalizer => RemovalKeepsWaiting(w, k, i, mem);
      case CancelRun(ref) => RunWritesKeepRequests(w, k, i, mem, c, ref);
      case CreateRun => RunWritesKeepRequests(w, k, i, mem, c, i.ref);
      case DeleteRun(ref) => RunWritesKeepRequests(w, k, i, mem, c, ref);
    }
  }

  lemma StepKeepsWaiting(w: World, a: Action, k: Key)
    requires Inv(w) && Enabled(w, a) && IsControllers(a) && Waits(w, k)
    ensures Waits(Step(w, a), k)
  {
    if a.Perform? {
      if a.key == k {
        OwnCallKeepsWaiting(w, k, a.input);
      } else {
        PerformIsolation(w, a.key, a.input, k);
        assert IrOf(Step(w, a), k) == View(w, k).ir == IrOf(w, k);
      }
    } else {
      ProcessStepKeepsRequests(w, a);
    }
  }

  lemma ProcessStepKeepsRequests(w: World, a: Action)
    requires Enabled(w, a) && IsControllers(a) && !a.Perform?
    ensures Step(w, a).irs == w.irs
  {
  }

  lemma {:induction false} RunKeepsWaiting(w: World, actions: seq<Action>, k: Key)
    requires Inv(w) && Legal(w, actions) && AllControllers(actions) && Waits(w, k)
    ensures Inv(After(w, actions)) && Waits(After(w, actions), k)
    decreases |actions|
  {
    if actions != [] {
      StepKeepsInv(w, actions[0]);
      StepKeepsWaiting(w, actions[0], k);
      RunKeepsWaiting(Step(w, actions[0]), actions[1..], k);
    }
  }

  /**
    From a reachable world, the controller alone can come to an empty queue with nothing in flight if and only if no
    request that is being deleted waits for somebody else's finalizer; such a request is requeued for ever.
  */
  lemma RestIsReachableIff(w: World)
    requires Reachable(w)
    ensures NobodyWaits(w.irs) <==>
      exists actions :: Legal(w, actions) && AllControllers(actions) && Quiescent(After(w, actions))
  {
    ReachableIsSound(w);
    if NobodyWaits(w.irs) {
      var w' := RestIsReached(w);
    } else {
      var k :| k in w.irs && w.irs[k].deleting && Others(w.irs[k]) != {};
      forall actions | Legal(w, actions) && AllControllers(actions) ensures !Quiescent(After(w, actions)) {
        RunKeepsWaiting(w, actions, k);
        WaitingIsAwake(After(w, actions), k);
      }
    }
  }

  lemma WaitingIsAwake(w: World, k: Key)
    requires Inv(w) && Waits(w, k)
    ensures !Quiescent(w)
  {
    assert KeyOk(w, k);
  }
}
