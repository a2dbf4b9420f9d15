/**
  The one failure that crash recovery does not make good: a failing List of the TaskRuns is swallowed, and the request is
  completed without their messages. Everything but the message of a failed request still recovers.
*/
module Listing {
  import opened Common
  import opened Requests
  import opened PipelineRuns
  import opened Admission
  import opened Protocol
  import opened Invariant
  import opened KeyPreservation
  import opened Preservation
  import opened Runs
  import opened Recovery
  import opened RecoveryWrites
  import opened Convergence

  // ----- When the failure shows -----

  /** What tracking a failed run leaves in the request. */
  lemma MessageIsKept(mem: InternalRequest, ref: Ref, seen: Run, message: string, now: int)
    requires !HasCompleted(mem.status) && IsDone(seen) && !IsTrue(seen)
    ensures var s := Tracked(mem, ref, seen, message, now).status;
      HasCompleted(s) && Verdict(s) == Some(Condition(SucceededCondition, ConditionFalse, FailedReason, message))
  {
  }

  /** The TaskRuns have nothing to add to what the run itself says. */
  predicate NothingToAdd(run: Run)
    requires IsDone(run)
  {
    (forall t :: t in run.taskRuns ==> !Reports(t)) ||
    FailureMessage(Some(run.taskRuns)) == run.condition.value.message
  }

  lemma SilenceIsHarmlessIff(mem: InternalRequest, runs: map<Ref, Run>, c: Config, ref: Ref, seen: Run, now: int)
    requires !mem.deleting && Held(mem) && InPhase(mem.status, Running) && Admitted(c, mem.key.namespace, mem.spec)
    requires AtMostOne(runs) && ref in runs && runs[ref] == seen && IsDone(seen) && !IsTrue(seen)
    ensures var ir := mem.(status := Tracked(mem, ref, seen, TrackMessage(seen, None), now).status);
      HasCompleted(ir.status) && (Goal(Some(mem), runs, c).request == Some(DigestOf(ir)) <==> NothingToAdd(seen))
  {
    var told, silent := TrackMessage(seen, Some(seen.taskRuns)), TrackMessage(seen, None);
    FailureMessageBound(Some(seen.taskRuns));
    MessageIsKept(mem, ref, seen, silent, now);
    MessageIsKept(mem, ref, seen, told, now);
    TrackingKeepsGoal(mem, runs, c, ref, seen, told, now);
    var ir, ir' := mem.(status := Tracked(mem, ref, seen, silent, now).status),
                   mem.(status := Tracked(mem, ref, seen, told, now).status);
    assert Goal(Some(mem), runs, c).request == Some(DigestOf(ir'));
    if DigestOf(ir) == DigestOf(ir') {
      assert ir.status.conditions == ir'.status.conditions;
      assert Verdict(ir.status) == Verdict(ir'.status);
    }
  }

  /**
    From every reachable world in which the TaskRuns of a failed run are about to be listed: if the List fails and the
    patch after it lands, the request is completed for good, and it is what it was heading for if and only if the TaskRuns
    had nothing to add.
  */
  lemma ListingFailureIsFinal(w: World, k: Key, i: Input, j: Input)
    requires Reachable(w) && InStep(w, k) && ListsTaskRuns(w, k)
    requires i.outcome != Ok && j.outcome != Lost
    ensures PerformEnabled(w, k, i) && PerformEnabled(DoPerform(w, k, i), k, j)
    ensures w.flights[k].call.seen.condition.Some? && IsDone(w.flights[k].call.seen)
    ensures var w' := DoPerform(DoPerform(w, k, i), k, j);
      && k in w'.irs && HasCompleted(w'.irs[k].status)
      && (GoalOf(w, k).request == Some(DigestOf(w'.irs[k])) <==> NothingToAdd(w.flights[k].call.seen))
  {
    ReachableIsSound(w);
    assert KeyOk(w, k);
    var Busy(call, mem, c) := w.flights[k];
    ListingIsDue(k, View(w, k), w.serviceNamespace, mem, c, call.ref, call.seen);
    FailedListing(w, k, i, j, mem, c, call.ref, call.seen);
    SilenceIsHarmlessIff(mem, RunsOf(w.runs, k), c, call.ref, call.seen, j.now);
  }

  lemma ListingIsDue(k: Key, cell: Cell, ns: string, mem: InternalRequest, c: Config, ref: Ref, seen: Run)
    requires CellOk(k, cell, ns) && cell.flight == Some(Busy(ListTaskRuns(ref, seen), mem, c))
    ensures Coupled(k, mem, cell.ir) && mem.uid < |cell.books| && AtMostOne(cell.runs)
    ensures InPhase(mem.status, Running) && SeenOk(ref, seen, cell.runs) && IsDone(seen) && !IsTrue(seen)
  {
  }

  lemma FailedListing(w: World, k: Key, i: Input, j: Input, mem: InternalRequest, c: Config, ref: Ref, seen: Run)
    requires FlightOf(w, k) == Some(Busy(ListTaskRuns(ref, seen), mem, c)) && i.outcome != Ok && j.outcome != Lost
    requires IrOf(w, k) == Some(mem) && Coupled(k, mem, IrOf(w, k)) && mem.uid < |BooksOf(w, k)| && IsDone(seen)
    ensures var w1 := DoPerform(w, k, i);
      && PerformEnabled(w1, k, j)
      && IrOf(DoPerform(w1, k, j), k) == Some(mem.(status := Tracked(mem, ref, seen, TrackMessage(seen, None), j.now).status))
  {
    var message := TrackMessage(seen, None);
    assert DoListTaskRuns(w, k, i, mem, c, ref, seen) == Fly(w, k, Busy(PatchTracked(ref, seen, message), mem, c));
    TrackingEffect(Fly(w, k, Busy(PatchTracked(ref, seen, message), mem, c)), k, j, mem, c, ref, seen, message);
  }

  // ----- Everything else recovers -----

  /** A digest without the message of a failure. */
  function Mute(d: StatusDigest): StatusDigest {
    var v := FindStatusCondition(d.conditions, SucceededCondition);
    if v.Some? && v.value.status == ConditionFalse && v.value.reason == FailedReason
    then Verdicted(d, ConditionFalse, FailedReason, "") else d
  }

  function MuteDestiny(x: Destiny): Destiny {
    if x.request.None? then x
    else x.(request := Some(x.request.value.(status := Mute(x.request.value.status))))
  }

  /** The reconcile as it would be if it had listed the TaskRuns. */
  function Corrected(f: Option<Flight>): Option<Flight> {
    if f.Some? && f.value.Busy? && f.value.call.PatchTracked? && IsDone(f.value.call.seen) && !IsTrue(f.value.call.seen) then
      var call := f.value.call;
      Some(f.value.(call := PatchTracked(call.ref, call.seen, TrackMessage(call.seen, Some(call.seen.taskRuns)))))
    else f
  }

  /** The reconcile has seen what is stored, except perhaps the TaskRuns. */
  ghost predicate Near(w: World, k: Key) {
    UpToDate(IrOf(w, k), RunsOf(w.runs, k), ConfigInForce(w), Corrected(FlightOf(w, k)))
  }

  ghost function MutedGoal(w: World, k: Key): Destiny { MuteDestiny(GoalOf(w, k)) }

  ghost predicate StaysNear(w: World, w': World, k: Key) {
    Near(w', k) && MutedGoal(w', k) == MutedGoal(w, k)
  }

  lemma InStepIsNear(w: World, k: Key)
    requires InStep(w, k)
    ensures Near(w, k)
  {
  }

  /** Whatever message it is given, a failed run leads to the same muted status, and a completed request stays put. */
  lemma MutedTracking(mem: InternalRequest, runs: map<Ref, Run>, c: Config, ref: Ref, seen: Run, message: string, now: int)
    requires !mem.deleting && Held(mem) && InPhase(mem.status, Running) && Admitted(c, mem.key.namespace, mem.spec)
    requires AtMostOne(runs) && ref in runs && runs[ref] == seen && IsDone(seen) && !IsTrue(seen)
    ensures var ir := mem.(status := Tracked(mem, ref, seen, message, now).status);
      MuteDestiny(Goal(Some(ir), runs, c)) == MuteDestiny(Goal(Some(mem), runs, c))
  {
    var told := TrackMessage(seen, Some(seen.taskRuns));
    TrackingKeepsGoal(mem, runs, c, ref, seen, told, now);
    MessageIsKept(mem, ref, seen, message, now);
    MessageIsKept(mem, ref, seen, told, now);
    assert mem.finalizers + {FINALIZER} == mem.finalizers;
    var muted := Condition(SucceededCondition, ConditionFalse, FailedReason, "");
    LastVerdictWins(mem.status.conditions, muted.(message := message), muted);
    LastVerdictWins(mem.status.conditions, muted.(message := told), muted);
  }

  lemma PatchStaysNear(w: World, k: Key, i: Input, mem: InternalRequest, c: Config, ref: Ref, seen: Run, message: string)
    requires KeyOk(w, k) && Near(w, k) && FlightOf(w, k) == Some(Busy(PatchTracked(ref, seen, message), mem, c))
    requires IsDone(seen) && !IsTrue(seen)
    ensures StaysNear(w, DoPatchTracked(w, k, i, mem, c, ref, seen, message), k)
  {
    TrackingIsDue(k, View(w, k), w.serviceNamespace, mem, c, ref, seen, message);
    NearCopy(IrOf(w, k), RunsOf(w.runs, k), ConfigInForce(w), mem, c, ref, seen, message);
    TrackingStaysNear(w, k, i, mem, c, ref, seen, message);
  }

  /** What a reconcile that is near knows when it tracks a failed run. */
  lemma NearCopy(ir: Option<InternalRequest>, runs: map<Ref, Run>, config: Config,
                 mem: InternalRequest, c: Config, ref: Ref, seen: Run, message: string)
    requires UpToDate(ir, runs, config, Corrected(Some(Busy(PatchTracked(ref, seen, message), mem, c))))
    ensures ir == Some(mem) && !mem.deleting && c == config && Admitted(c, mem.key.namespace, mem.spec)
    ensures ref in runs && runs[ref] == seen
  {
  }

  lemma TrackingStaysNear(w: World, k: Key, i: Input, mem: InternalRequest, c: Config, ref: Ref, seen: Run, message: string)
    requires IrOf(w, k) == Some(mem) && Coupled(k, mem, IrOf(w, k)) && mem.uid < |BooksOf(w, k)|
    requires !mem.deleting && c == ConfigInForce(w) && Admitted(c, mem.key.namespace, mem.spec)
    requires InPhase(mem.status, Running) && AtMostOne(RunsOf(w.runs, k)) && IsDone(seen) && !IsTrue(seen)
    requires ref in RunsOf(w.runs, k) && RunsOf(w.runs, k)[ref] == seen
    ensures StaysNear(w, DoPatchTracked(w, k, i, mem, c, ref, seen, message), k)
  {
    var m := Tracked(mem, ref, seen, message, i.now);
    var ir := mem.(status := m.status);
    TrackingEffect(w, k, i, mem, c, ref, seen, message);
    MutedTracking(mem, RunsOf(w.runs, k), c, ref, seen, message, i.now);
    TrackedFlightUpToDate(ir, RunsOf(w.runs, k), c);
    NearFromView(w, DoPatchTracked(w, k, i, mem, c, ref, seen, message), k,
                 Some(if i.outcome == Lost then mem else ir), TrackedFlight(mem, m, c, i.outcome));
  }

  lemma TrackingIsDue(k: Key, cell: Cell, ns: string, mem: InternalRequest, c: Config, ref: Ref, seen: Run, message: string)
    requires CellOk(k, cell, ns) && cell.flight == Some(Busy(PatchTracked(ref, seen, message), mem, c))
    ensures Coupled(k, mem, cell.ir) && mem.uid < |cell.books|
    ensures InPhase(mem.status, Running) && AtMostOne(cell.runs) && SeenOk(ref, seen, cell.runs)
  {
  }

  lemma TrackingEffect(w: World, k: Key, i: Input, mem: InternalRequest, c: Config, ref: Ref, seen: Run, message: string)
    requires IrOf(w, k) == Some(mem) && Coupled(k, mem, IrOf(w, k)) && mem.uid < |BooksOf(w, k)|
    ensures var m, w' := Tracked(mem, ref, seen, message, i.now), DoPatchTracked(w, k, i, mem, c, ref, seen, message);
      && IrOf(w', k) == Some(if i.outcome == Lost then mem else mem.(status := m.status))
      && RunsOf(w'.runs, k) == RunsOf(w.runs, k) && FlightOf(w', k) == Some(TrackedFlight(mem, m, c, i.outcome))
      && w'.config == w.config && w'.serviceNamespace == w.serviceNamespace
  {
    PatchTrackedView(w, k, i, mem, c, ref, seen, message);
  }

  lemma NearFromView(w: World, w': World, k: Key, ir: Option<InternalRequest>, f: Flight)
    requires IrOf(w', k) == ir && RunsOf(w'.runs, k) == RunsOf(w.runs, k) && FlightOf(w', k) == Some(f)
    requires ConfigInForce(w') == ConfigInForce(w) && !(f.Busy? && f.call.PatchTracked?)
    requires UpToDate(ir, RunsOf(w.runs, k), ConfigInForce(w), Some(f))
    requires MuteDestiny(Goal(ir, RunsOf(w.runs, k), ConfigInForce(w))) == MutedGoal(w, k)
    ensures StaysNear(w, w', k)
  {
  }

  lemma ListStaysNear(w: World, k: Key, i: Input, mem: InternalRequest, c: Config, ref: Ref, seen: Run)
    requires KeyOk(w, k) && Near(w, k) && FlightOf(w, k) == Some(Busy(ListTaskRuns(ref, seen), mem, c))
    ensures StaysNear(w, DoListTaskRuns(w, k, i, mem, c, ref, seen), k)
  {
    ListingIsDue(k, View(w, k), w.serviceNamespace, mem, c, ref, seen);
    var w' := DoListTaskRuns(w, k, i, mem, c, ref, seen);
    ListingMoves(w, k, i, mem, c, ref, seen);
    assert IrOf(w', k) == IrOf(w, k) && RunsOf(w'.runs, k) == RunsOf(w.runs, k);
  }

  lemma ListingMoves(w: World, k: Key, i: Input, mem: InternalRequest, c: Config, ref: Ref, seen: Run)
    requires IsDone(seen)
    ensures exists message :: DoListTaskRuns(w, k, i, mem, c, ref, seen) ==
                              Fly(w, k, Busy(PatchTracked(ref, seen, message), mem, c))
  {
    var listing := if i.outcome != Ok then None else if ref in w.runs then Some(w.runs[ref].taskRuns) else Some([]);
    assert DoListTaskRuns(w, k, i, mem, c, ref, seen) ==
           Fly(w, k, Busy(PatchTracked(ref, seen, TrackMessage(seen, listing)), mem, c));
  }

  lemma OwnCallStaysNear(w: World, k: Key, i: Input)
    requires Inv(w) && Near(w, k) && PerformEnabled(w, k, i)
    ensures StaysNear(w, DoPerform(w, k, i), k)
  {
    assert KeyOk(w, k);
    var f := w.flights[k];
    if f.Busy? && f.call.ListTaskRuns? {
      ListStaysNear(w, k, i, f.mem, f.config, f.call.ref, f.call.seen);
    } else if f.Busy? && f.call.PatchTracked? && IsDone(f.call.seen) && !IsTrue(f.call.seen) {
      PatchStaysNear(w, k, i, f.mem, f.config, f.call.ref, f.call.seen, f.call.message);
    } else {
      PerformOnCourse(w, k, i);
      InStepIsNear(DoPerform(w, k, i), k);
    }
  }

  lemma SameCellStaysNear(w: World, w': World, k: Key)
    requires Near(w, k) && IrOf(w', k) == IrOf(w, k) && RunsOf(w'.runs, k) == RunsOf(w.runs, k)
    requires w'.config == w.config && w'.serviceNamespace == w.serviceNamespace
    requires FlightOf(w', k) == FlightOf(w, k) || FlightOf(w', k).None? || FlightOf(w', k) == Some(Fetching)
    ensures StaysNear(w, w', k)
  {
  }

  lemma OtherCallStaysNear(w: World, k0: Key, i: Input, k: Key)
    requires Inv(w) && Near(w, k) && PerformEnabled(w, k0, i) && k0 != k
    ensures StaysNear(w, DoPerform(w, k0, i), k)
  {
    PerformIsolation(w, k0, i, k);
    PerformKeepsConfig(w, k0, i);
    assert View(DoPerform(w, k0, i), k) == View(w, k);
    SameCellStaysNear(w, DoPerform(w, k0, i), k);
  }

  lemma ProcessStepStaysNear(w: World, a: Action, k: Key)
    requires Near(w, k) && Enabled(w, a) && IsControllers(a) && !a.Perform?
    ensures StaysNear(w, Step(w, a), k)
  {
    SameCellStaysNear(w, Step(w, a), k);
  }

  lemma StepStaysNear(w: World, a: Action, k: Key)
    requires Inv(w) && Near(w, k) && Enabled(w, a) && IsControllers(a)
    ensures StaysNear(w, Step(w, a), k)
  {
    if a.Perform? {
      if a.key == k {
        OwnCallStaysNear(w, k, a.input);
      } else {
        OtherCallStaysNear(w, a.key, a.input, k);
      }
    } else {
      ProcessStepStaysNear(w, a, k);
    }
  }

  /** No schedule of the controller alone changes where a request is heading, up to the message of a failure. */
  lemma {:induction false} RunStaysNear(w: World, actions: seq<Action>, k: Key)
    requires Inv(w) && Near(w, k) && Legal(w, actions) && AllControllers(actions)
    ensures Inv(After(w, actions)) && StaysNear(w, After(w, actions), k)
    decreases |actions|
  {
    if actions != [] {
      StepKeepsInv(w, actions[0]);
      StepStaysNear(w, actions[0], k);
      RunStaysNear(Step(w, actions[0]), actions[1..], k);
    }
  }

  /** The two requests agree in everything but time stamps, the name of the run and the message of a failure. */
  predicate AgreeUpToMessage(a: InternalRequest, b: InternalRequest) {
    && a.(status := NO_STATUS) == b.(status := NO_STATUS)
    && a.status.results == b.status.results
    && (a.status.startTime.Some? <==> b.status.startTime.Some?)
    && (a.status.completionTime.Some? <==> b.status.completionTime.Some?)
    && (a.status.pipelineRun != "" <==> b.status.pipelineRun != "")
    && (Verdict(a.status) == Verdict(b.status) ||
        (IsVerdict(a.status, ConditionFalse, FailedReason) && IsVerdict(b.status, ConditionFalse, FailedReason)))
  }

  lemma MutedDigestsAgree(a: InternalRequest, b: InternalRequest)
    requires Mute(DigestOf(a).status) == Mute(DigestOf(b).status) && DigestOf(a).rest == DigestOf(b).rest
    ensures AgreeUpToMessage(a, b)
  {
    var x, y := DigestOf(a).status.conditions, DigestOf(b).status.conditions;
    assert FindStatusCondition(Mute(DigestOf(a).status).conditions, SucceededCondition) ==
           FindStatusCondition(Mute(DigestOf(b).status).conditions, SucceededCondition);
  }

  /**
    Crash recovery with no exception: a reconcile that goes through at once, and one that goes through after any number
    of reconciles that fail anywhere, crashes and restarts, leave the same request up to time stamps, the name of its run
    and the message of a failure. If only one of the two leaves a run, that run is done.
  */
  lemma CrashRecoveryUpToMessage(w: World, k: Key, undisturbed: seq<Input>, disturbance: seq<Action>, retried: seq<Input>)
    requires Reachable(w) && FlightOf(w, k) == Some(Fetching) && FailureFree(w, k, undisturbed)
    requires Legal(w, disturbance) && AllControllers(disturbance)
    requires FlightOf(After(w, disturbance), k) == Some(Fetching)
    requires FailureFree(After(w, disturbance), k, retried)
    ensures var w1, w2 := Reconciled(w, k, undisturbed), Reconciled(After(w, disturbance), k, retried);
      && (k in w1.irs <==> k in w2.irs)
      && (k in w1.irs ==> AgreeUpToMessage(w1.irs[k], w2.irs[k]))
      && Unfinished(RunsOf(w1.runs, k)) == Unfinished(RunsOf(w2.runs, k))
      && (RunsOf(w1.runs, k) == map[] ==> LeftoverIsDone(w2, k)) && (RunsOf(w2.runs, k) == map[] ==> LeftoverIsDone(w1, k))
  {
    ReachableIsSound(w);
    ReconcileArrives(w, k, undisturbed);
    RunStaysNear(w, disturbance, k);
    ReconcileArrives(After(w, disturbance), k, retried);
    SameMutedEnd(Reconciled(w, k, undisturbed), Reconciled(After(w, disturbance), k, retried), k);
  }

  lemma SameMutedEnd(w1: World, w2: World, k: Key)
    requires Inv(w1) && Inv(w2) && Arrived(w1, k) && Arrived(w2, k)
    requires MuteDestiny(Here(w1, k)) == MuteDestiny(Here(w2, k))
    ensures k in w1.irs <==> k in w2.irs
    ensures k in w1.irs ==> AgreeUpToMessage(w1.irs[k], w2.irs[k])
    ensures Unfinished(RunsOf(w1.runs, k)) == Unfinished(RunsOf(w2.runs, k))
    ensures RunsOf(w1.runs, k) == map[] ==> LeftoverIsDone(w2, k)
    ensures RunsOf(w2.runs, k) == map[] ==> LeftoverIsDone(w1, k)
  {
    assert KeyOk(w1, k) && KeyOk(w2, k);
    if k in w1.irs { MutedDigestsAgree(w1.irs[k], w2.irs[k]); }
    if RunsOf(w1.runs, k) == map[] { FinishedRunsAreLeftovers(w2, k); }
    if RunsOf(w2.runs, k) == map[] { FinishedRunsAreLeftovers(w1, k); }
  }
}
