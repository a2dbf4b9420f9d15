/** The level-triggered fixpoint: once a request has arrived where it was heading, its reconciles change nothing. */
module Rest {
  import opened Common
  import opened References
  import opened Requests
  import opened PipelineRuns
  import opened Admission
  import opened Protocol
  import opened Invariant
  import opened KeyPreservation
  import opened Preservation
  import opened Runs
  import opened Recovery
  import opened Convergence

  /** The calls a reconcile can still come to once its request has arrived. */
  predicate Idle(flight: Option<Flight>) {
    flight.Some? && flight.value.Busy? ==>
      var call := flight.value.call;
      || call.LoadConfig? || call.ListForCreate? || call.ListForTrack?
      || (call.PatchTracked? && !IsDone(call.seen) && flight.value.mem.status.pipelineRun == Encode(call.ref))
  }

  ghost predicate Resting(w: World, k: Key) {
    Inv(w) && InStep(w, k) && Arrived(w, k) && Idle(FlightOf(w, k))
  }

  /** `w'` is `w` with the reconcile of `k` moved on. */
  predicate OnlyMoves(w: World, w': World, k: Key) {
    k in w'.flights && w' == w.(flights := w.flights[k := w'.flights[k]])
  }

  /** What a copy of a request at rest says. */
  lemma RestingRequest(w: World, k: Key)
    requires Arrived(w, k) && k in w.irs
    ensures var ir, runs := w.irs[k], RunsOf(w.runs, k);
      && (ir.deleting <==> !Held(ir))
      && (!ir.deleting && !HasCompleted(ir.status) ==>
            && Admitted(ConfigInForce(w), ir.key.namespace, ir.spec) && IsRunning(ir.status)
            && ir.status.pipelineRun != "" && runs != map[] && !IsDone(TheRun(runs)))
  {
    ArrivedMeansAtRest(w.irs[k], RunsOf(w.runs, k), ConfigInForce(w));
  }

  lemma FetchRests(w: World, k: Key, i: Input)
    requires Arrived(w, k) && FlightOf(w, k) == Some(Fetching)
    ensures OnlyMoves(w, DoFetch(w, k, i), k) && Idle(FlightOf(DoFetch(w, k, i), k))
  {
    if k in w.irs {
      RestingRequest(w, k);
    }
  }

  lemma LoadConfigRests(w: World, k: Key, i: Input, mem: InternalRequest, c: Config)
    requires KeyOk(w, k) && Arrived(w, k) && InStep(w, k) && FlightOf(w, k) == Some(Busy(LoadConfig, mem, c))
    ensures OnlyMoves(w, DoLoadConfig(w, k, i, mem), k) && Idle(FlightOf(DoLoadConfig(w, k, i, mem), k))
  {
    RestingRequest(w, k);
  }

  lemma ListForCreateRests(w: World, k: Key, i: Input, mem: InternalRequest, c: Config)
    requires KeyOk(w, k) && Arrived(w, k) && InStep(w, k) && FlightOf(w, k) == Some(Busy(ListForCreate, mem, c))
    ensures OnlyMoves(w, DoListForCreate(w, k, i, mem, c), k) && Idle(FlightOf(DoListForCreate(w, k, i, mem, c), k))
  {
    RestingRequest(w, k);
  }

  lemma ListForTrackRests(w: World, k: Key, i: Input, mem: InternalRequest, c: Config)
    requires KeyOk(w, k) && Arrived(w, k) && InStep(w, k) && FlightOf(w, k) == Some(Busy(ListForTrack, mem, c))
    requires i.outcome == Ok ==> LookupEnabled(w, k, i.ref)
    ensures OnlyMoves(w, DoListForTrack(w, k, i, mem, c), k) && Idle(FlightOf(DoListForTrack(w, k, i, mem, c), k))
  {
    RestingRequest(w, k);
    if i.outcome == Ok {
      OnlyRun(RunsOf(w.runs, k), i.ref);
      TrackLookupFinds(w, k, mem, c);
    }
  }

  /** Tracking a run that is not done, with its name already in the status, patches nothing. */
  lemma TrackingAgain(mem: InternalRequest, ref: Ref, seen: Run, message: string, now: int)
    requires !IsDone(seen) && mem.status.pipelineRun == Encode(ref)
    ensures Tracked(mem, ref, seen, message, now) == Marked(mem.status, [])
  {
  }

  lemma EmptyPatchRests(w: World, k: Key, mem: InternalRequest, outcome: Outcome, f: Flight)
    requires IrOf(w, k) == Some(mem)
    ensures MarkAndPatch(w, k, mem, Marked(mem.status, []), outcome, f) == Fly(w, k, f)
  {
    MergeOfOwnCopy(mem.status, mem.status);
    assert PatchStatus(w.irs, k, mem, mem.status, outcome) == w.irs;
    assert Spawn(w.meters, []) == w.meters;
    assert Recorded(w.history, k, mem, Marked(mem.status, []), k in w.irs && outcome != Lost) == w.history;
  }

  lemma PatchTrackedRests(w: World, k: Key, i: Input, mem: InternalRequest, c: Config, ref: Ref, seen: Run, message: string)
    requires KeyOk(w, k) && InStep(w, k) && FlightOf(w, k) == Some(Busy(PatchTracked(ref, seen, message), mem, c))
    requires Idle(FlightOf(w, k))
    ensures var w' := DoPatchTracked(w, k, i, mem, c, ref, seen, message); OnlyMoves(w, w', k) && Idle(FlightOf(w', k))
  {
    TrackingAgain(mem, ref, seen, message, i.now);
    var w' := DoPatchTracked(w, k, i, mem, c, ref, seen, message);
    EmptyPatchRests(w, k, mem, i.outcome, w'.flights[k]);
    MergeOfOwnCopy(mem.status, mem.status);
  }

  lemma CallRests(w: World, k: Key, i: Input)
    requires Resting(w, k) && PerformEnabled(w, k, i)
    ensures OnlyMoves(w, DoPerform(w, k, i), k) && Idle(FlightOf(DoPerform(w, k, i), k))
  {
    assert KeyOk(w, k);
    match w.flights[k]
    case Fetching => FetchRests(w, k, i);
    case Busy(call, mem, c) =>
      if call.LoadConfig? {
        LoadConfigRests(w, k, i, mem, c);
      } else if call.ListForCreate? {
        ListForCreateRests(w, k, i, mem, c);
      } else if call.ListForTrack? {
        ListForTrackRests(w, k, i, mem, c);
      } else {
        PatchTrackedRests(w, k, i, mem, c, call.ref, call.seen, call.message);
      }
  }

  // ----- Whole schedules -----

  /** The request of `k` and its runs, live and deleted, are what they were. */
  predicate Stays(w: World, w': World, k: Key) {
    IrOf(w', k) == IrOf(w, k) && RunsOf(w'.runs, k) == RunsOf(w.runs, k) && RunsOf(w'.retired, k) == RunsOf(w.retired, k)
  }

  lemma CallStays(w: World, k0: Key, i: Input, k: Key)
    requires Resting(w, k) && PerformEnabled(w, k0, i)
    ensures Stays(w, DoPerform(w, k0, i), k) && Idle(FlightOf(DoPerform(w, k0, i), k))
  {
    if k0 == k {
      CallRests(w, k, i);
    } else {
      PerformIsolation(w, k0, i, k);
      assert View(DoPerform(w, k0, i), k) == View(w, k);
    }
  }

  lemma ProcessStepStays(w: World, a: Action, k: Key)
    requires Enabled(w, a) && (a.Crash? || a.Start? || a.Drain? || a.Pick? || a.Finish?) && Idle(FlightOf(w, k))
    ensures Stays(w, Step(w, a), k) && Idle(FlightOf(Step(w, a), k))
  {
  }

  lemma FrozenStepRests(w: World, a: Action, k: Key)
    requires Resting(w, k) && Enabled(w, a) && Frozen(w, a, k)
    ensures Resting(Step(w, a), k) && Stays(w, Step(w, a), k)
  {
    if a.Perform? {
      CallStays(w, a.key, a.input, k);
    } else {
      ProcessStepStays(w, a, k);
    }
    FrozenStepKeepsGoal(w, a, k);
    StepKeepsInv(w, a);
    StillResting(w, Step(w, a), k);
  }

  lemma StillResting(w: World, w': World, k: Key)
    requires Arrived(w, k) && Stays(w, w', k) && GoalOf(w', k) == GoalOf(w, k)
    requires Inv(w') && InStep(w', k) && Idle(FlightOf(w', k))
    ensures Resting(w', k)
  {
  }

  lemma {:induction false} RunRests(w: World, actions: seq<Action>, k: Key)
    requires Resting(w, k) && AllControllers(actions) && Legal(w, actions)
    ensures Resting(After(w, actions), k) && Stays(w, After(w, actions), k)
    decreases |actions|
  {
    if actions != [] {
      assert !ListsTaskRuns(w, k);
      FrozenStepRests(w, actions[0], k);
      RunRests(Step(w, actions[0]), actions[1..], k);
    }
  }

  /**
    From every reachable world, one reconcile without failures settles a request: however the controller is scheduled
    and whatever fails or restarts afterwards, the request and its runs stay as they are, and each further call on its
    behalf changes nothing in either cluster and hands over no metric update. It only moves the reconcile along.
  */
  lemma OneReconcileSettles(w: World, k: Key, inputs: seq<Input>, later: seq<Action>)
    requires Reachable(w) && FlightOf(w, k) == Some(Fetching) && FailureFree(w, k, inputs)
    requires AllControllers(later) && Legal(Reconciled(w, k, inputs), later)
    ensures var v := After(Reconciled(w, k, inputs), later);
      && Stays(Reconciled(w, k, inputs), v, k)
      && forall i :: PerformEnabled(v, k, i) ==> OnlyMoves(v, DoPerform(v, k, i), k)
  {
    ReachableIsSound(w);
    ReconcileArrives(w, k, inputs);
    ReconcileReturns(w, k, inputs);
    RunRests(Reconciled(w, k, inputs), later, k);
    var v := After(Reconciled(w, k, inputs), later);
    forall i | PerformEnabled(v, k, i) ensures OnlyMoves(v, DoPerform(v, k, i), k) {
      CallRests(v, k, i);
    }
  }
}
