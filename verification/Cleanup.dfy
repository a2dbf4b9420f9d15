/** What a reconcile without failures achieves: it rejects, starts, records and cleans up, or releases its request. */
module Cleanup {
  import opened Common
  import opened Requests
  import opened PipelineRuns
  import opened Admission
  import opened Protocol
  import opened Invariant
  import opened KeyPreservation
  import opened WritePreservation
  import opened Preservation
  import opened Runs
  import opened Recovery
  import opened Convergence
  import opened Origins

  /** A request whose run the controller still has to follow. */
  predicate Unserved(ir: Option<InternalRequest>, c: Config) {
    && ir.Some? && !ir.value.deleting && !HasCompleted(ir.value.status)
    && Admitted(c, ir.value.key.namespace, ir.value.spec)
  }

  /** The calls a reconcile of such a request can come to before the status is final. */
  predicate BeforeVerdict(call: Call) {
    call.AddFinalizer? || call.LoadConfig? || call.ListForCreate? || call.PatchRunning? || call.ListForTrack? ||
    call.ListTaskRuns? || call.PatchTracked?
  }

  /** On the way from finding the finished run in `all` to its removal. */
  predicate Cleaning(ir: Option<InternalRequest>, runs: map<Ref, Run>, c: Config, flight: Flight, all: map<Ref, Run>) {
    match flight
    case Returned(_) => runs == if c.debug then all else map[]
    case Fetching => runs == all && Unserved(ir, c)
    case Busy(call, _, _) =>
      runs == all && (if call.ListForDelete? || call.DeleteRun? then !c.debug else BeforeVerdict(call) && Unserved(ir, c))
  }

  ghost predicate Cleans(w: World, k: Key, all: map<Ref, Run>) {
    k in w.flights && Cleaning(IrOf(w, k), RunsOf(w.runs, k), ConfigInForce(w), w.flights[k], all)
  }

  ghost predicate Finished(all: map<Ref, Run>) {
    all != map[] && AtMostOne(all) && forall r :: r in all ==> IsDone(all[r])
  }

  lemma MoveCleans(w: World, k: Key, f: Flight, all: map<Ref, Run>)
    requires Cleaning(IrOf(w, k), RunsOf(w.runs, k), ConfigInForce(w), f, all)
    ensures Cleans(Fly(w, k, f), k, all)
  {
  }

  lemma FetchCleans(w: World, k: Key, i: Input, all: map<Ref, Run>)
    requires Cleans(w, k, all) && FlightOf(w, k) == Some(Fetching) && i.outcome == Ok
    ensures Cleans(DoFetch(w, k, i), k, all)
  {
    MoveCleans(w, k, AtFinalizers(w.irs[k]), all);
  }

  lemma LoadConfigCleans(w: World, k: Key, i: Input, mem: InternalRequest, c: Config, all: map<Ref, Run>)
    requires Cleans(w, k, all) && InStep(w, k) && FlightOf(w, k) == Some(Busy(LoadConfig, mem, c)) && i.outcome == Ok
    ensures Cleans(DoLoadConfig(w, k, i, mem), k, all)
  {
    MoveCleans(w, k, AtAllowed(mem, ConfigInForce(w)), all);
  }

  lemma ListForCreateCleans(w: World, k: Key, i: Input, mem: InternalRequest, c: Config, all: map<Ref, Run>)
    requires Cleans(w, k, all) && Finished(all) && FlightOf(w, k) == Some(Busy(ListForCreate, mem, c)) && i.outcome == Ok
    ensures Cleans(DoListForCreate(w, k, i, mem, c), k, all)
  {
    MoveCleans(w, k, AfterCreateLookup(mem, c, true), all);
  }

  lemma ListForTrackCleans(w: World, k: Key, i: Input, mem: InternalRequest, c: Config, all: map<Ref, Run>)
    requires KeyOk(w, k) && Cleans(w, k, all) && Finished(all) && FlightOf(w, k) == Some(Busy(ListForTrack, mem, c))
    requires i.outcome == Ok && LookupEnabled(w, k, i.ref)
    ensures Cleans(DoListForTrack(w, k, i, mem, c), k, all)
  {
    TrackLookupFinds(w, k, mem, c);
    MoveCleans(w, k, AfterTrackLookup(mem, c, Some((i.ref, w.runs[i.ref]))), all);
  }

  lemma LastListsClean(w: World, k: Key, i: Input, all: map<Ref, Run>)
    requires KeyOk(w, k) && Cleans(w, k, all) && Finished(all) && PerformEnabled(w, k, i) && i.outcome == Ok
    requires IsList(w.flights[k]) && (w.flights[k].call.ListTaskRuns? || w.flights[k].call.ListForDelete?)
    ensures Cleans(DoPerform(w, k, i), k, all)
  {
    ListsMove(w, k, i);
  }

  lemma AddFinalizerCleans(w: World, k: Key, i: Input, mem: InternalRequest, c: Config, all: map<Ref, Run>)
    requires Cleans(w, k, all) && InStep(w, k) && FlightOf(w, k) == Some(Busy(AddFinalizer, mem, c)) && i.outcome == Ok
    ensures Cleans(DoAddFinalizer(w, k, i, mem), k, all)
  {
    AddFinalizerView(w, k, i, mem);
    assert PatchFinalizers(Some(mem), mem.finalizers + {FINALIZER}).Stored?;
  }

  lemma PatchRunningCleans(w: World, k: Key, i: Input, mem: InternalRequest, c: Config, all: map<Ref, Run>)
    requires KeyOk(w, k) && Cleans(w, k, all) && FlightOf(w, k) == Some(Busy(PatchRunning, mem, c)) && i.outcome == Ok
    ensures Cleans(DoPatchRunning(w, k, i, mem, c), k, all)
  {
    var m := MarkedRunning(mem, i.now);
    PatchView(w, k, mem, m, i.outcome, RunningFlight(w.irs[k], m, c, i.outcome));
  }

  lemma PatchTrackedCleans(w: World, k: Key, i: Input, mem: InternalRequest, c: Config,
                           ref: Ref, seen: Run, message: string, all: map<Ref, Run>)
    requires KeyOk(w, k) && InStep(w, k) && Cleans(w, k, all) && Finished(all) && i.outcome == Ok
    requires FlightOf(w, k) == Some(Busy(PatchTracked(ref, seen, message), mem, c))
    ensures Cleans(DoPatchTracked(w, k, i, mem, c, ref, seen, message), k, all)
  {
    var m := Tracked(mem, ref, seen, message, i.now);
    var w' := DoPatchTracked(w, k, i, mem, c, ref, seen, message);
    FinishedIsFinal(mem, ref, seen, message, i.now);
    PatchTrackedView(w, k, i, mem, c, ref, seen, message);
    ViewCleans(w, w', k, AtDeleted(mem.(status := m.status), c), all);
  }

  lemma FinishedIsFinal(mem: InternalRequest, ref: Ref, seen: Run, message: string, now: int)
    requires IsDone(seen) && !HasCompleted(mem.status)
    ensures HasCompleted(Tracked(mem, ref, seen, message, now).status)
  {
  }

  lemma ViewCleans(w: World, w': World, k: Key, f: Flight, all: map<Ref, Run>)
    requires RunsOf(w'.runs, k) == RunsOf(w.runs, k) && ConfigInForce(w') == ConfigInForce(w) && FlightOf(w', k) == Some(f)
    requires Cleaning(IrOf(w', k), RunsOf(w.runs, k), ConfigInForce(w), f, all)
    ensures Cleans(w', k, all)
  {
  }

  lemma DeleteRunCleans(w: World, k: Key, i: Input, mem: InternalRequest, c: Config, ref: Ref, all: map<Ref, Run>)
    requires KeyOk(w, k) && Cleans(w, k, all) && FlightOf(w, k) == Some(Busy(DeleteRun(ref), mem, c)) && i.outcome == Ok
    ensures Cleans(DoDeleteRun(w, k, i, ref), k, all)
  {
    var w' := DoDeleteRun(w, k, i, ref);
    DeleteRunView(w, k, i, ref);
    LastRunGoes(RunsOf(w.runs, k), ref);
    ReturnedCleans(w', k, all, ConfigInForce(w));
  }

  lemma LastRunGoes(runs: map<Ref, Run>, ref: Ref)
    requires AtMostOne(runs) && ref in runs
    ensures runs - {ref} == map[]
  {
  }

  lemma ReturnedCleans(w: World, k: Key, all: map<Ref, Run>, c: Config)
    requires k in w.flights && w.flights[k].Returned? && RunsOf(w.runs, k) == map[] && ConfigInForce(w) == c && !c.debug
    ensures Cleans(w, k, all)
  {
  }

  lemma CallCleans(w: World, k: Key, i: Input, all: map<Ref, Run>)
    requires Inv(w) && InStep(w, k) && Cleans(w, k, all) && Finished(all) && PerformEnabled(w, k, i) && i.outcome == Ok
    ensures Cleans(DoPerform(w, k, i), k, all)
  {
    assert KeyOk(w, k);
    match w.flights[k]
    case Fetching => FetchCleans(w, k, i, all);
    case Busy(call, mem, c) =>
      if call.LoadConfig? {
        LoadConfigCleans(w, k, i, mem, c, all);
      } else if call.ListForCreate? {
        ListForCreateCleans(w, k, i, mem, c, all);
      } else if call.ListForTrack? {
        ListForTrackCleans(w, k, i, mem, c, all);
      } else if call.AddFinalizer? {
        AddFinalizerCleans(w, k, i, mem, c, all);
      } else if call.PatchRunning? {
        PatchRunningCleans(w, k, i, mem, c, all);
      } else if call.PatchTracked? {
        PatchTrackedCleans(w, k, i, mem, c, call.ref, call.seen, call.message, all);
      } else if call.DeleteRun? {
        DeleteRunCleans(w, k, i, mem, c, call.ref, all);
      } else {
        LastListsClean(w, k, i, all);
      }
  }

  lemma {:induction false} ReconcileCleans(w: World, k: Key, inputs: seq<Input>, all: map<Ref, Run>)
    requires Inv(w) && InStep(w, k) && Cleans(w, k, all) && Finished(all) && FailureFree(w, k, inputs)
    ensures Cleans(Reconciled(w, k, inputs), k, all)
    ensures ConfigInForce(Reconciled(w, k, inputs)) == ConfigInForce(w)
    decreases |inputs|
  {
    if !w.flights[k].Returned? {
      PerformOnCourse(w, k, inputs[0]);
      PerformKeepsInv(w, k, inputs[0]);
      PerformKeepsConfig(w, k, inputs[0]);
      CallCleans(w, k, inputs[0], all);
      ReconcileCleans(DoPerform(w, k, inputs[0]), k, inputs[1..], all);
    }
  }

  /** The status repeats what Tekton decided: success with the last-wins results, or failure with its message. */
  ghost predicate Repeats(s: Status, run: Run) {
    && (Says(run, ConditionTrue) ==> IsVerdict(s, ConditionTrue, SucceededReason) && LastWins(run.results, s.results))
    && (Says(run, ConditionFalse) ==>
          && IsVerdict(s, ConditionFalse, FailedReason)
          && var told := FailureMessage(Some(run.taskRuns));
             Verdict(s).value.message == if told == "" then run.condition.value.message else told)
  }

  /**
    A failure-free reconcile of an admitted request whose run is decided records that run and removes it, or keeps the run
    untouched in debug mode. The request may be new: a leftover run of an earlier one of the same name is adopted.
  */
  lemma FinishedRunIsCleanedUp(w: World, k: Key, inputs: seq<Input>, r: Ref)
    requires Reachable(w) && FlightOf(w, k) == Some(Fetching) && FailureFree(w, k, inputs)
    requires Unserved(IrOf(w, k), ConfigInForce(w))
    requires r in RunsOf(w.runs, k) && Decided(w.runs[r])
    ensures var w' := Reconciled(w, k, inputs);
      && k in w'.irs && Repeats(w'.irs[k].status, w.runs[r])
      && RunsOf(w'.runs, k) == if ConfigInForce(w).debug then RunsOf(w.runs, k) else map[]
  {
    ReachableIsSound(w);
    assert KeyOk(w, k);
    OnlyRunIsFinished(k, View(w, k), w.serviceNamespace, r);
    ReconcileRemoves(w, k, inputs);
    ReconcileRecords(w, k, inputs);
  }

  lemma OnlyRunIsFinished(k: Key, c: Cell, ns: string, r: Ref)
    requires CellOk(k, c, ns) && r in c.runs && Decided(c.runs[r])
    ensures Finished(c.runs) && TheRun(c.runs) == c.runs[r]
  {
    OnlyRun(c.runs, r);
  }

  lemma ReconcileRemoves(w: World, k: Key, inputs: seq<Input>)
    requires Inv(w) && FlightOf(w, k) == Some(Fetching) && FailureFree(w, k, inputs)
    requires Unserved(IrOf(w, k), ConfigInForce(w)) && Finished(RunsOf(w.runs, k))
    ensures RunsOf(Reconciled(w, k, inputs).runs, k) == if ConfigInForce(w).debug then RunsOf(w.runs, k) else map[]
  {
    var all := RunsOf(w.runs, k);
    assert Cleans(w, k, all);
    ReconcileCleans(w, k, inputs, all);
    ReconcileReturns(w, k, inputs);
  }

  lemma ReconcileRecords(w: World, k: Key, inputs: seq<Input>)
    requires Inv(w) && FlightOf(w, k) == Some(Fetching) && FailureFree(w, k, inputs)
    requires Unserved(IrOf(w, k), ConfigInForce(w)) && RunsOf(w.runs, k) != map[] && Decided(TheRun(RunsOf(w.runs, k)))
    ensures var w' := Reconciled(w, k, inputs); k in w'.irs && Repeats(w'.irs[k].status, TheRun(RunsOf(w.runs, k)))
  {
    ReconcileArrives(w, k, inputs);
    GoalRepeats(w.irs[k], RunsOf(w.runs, k), ConfigInForce(w));
    DigestRepeats(Reconciled(w, k, inputs), k, GoalOf(w, k).request.value, TheRun(RunsOf(w.runs, k)));
  }

  lemma GoalRepeats(ir: InternalRequest, runs: map<Ref, Run>, c: Config)
    requires Unserved(Some(ir), c) && runs != map[] && Decided(TheRun(runs))
    ensures var g := Goal(Some(ir), runs, c); g.request.Some? && Repeats(AsStatus(g.request.value.status), TheRun(runs))
  {
    ResultsOfIsLastWins(TheRun(runs).results);
  }

  /** A status with the conditions and results of a digest. */
  function AsStatus(d: StatusDigest): Status { NO_STATUS.(conditions := d.conditions, results := d.results) }

  lemma DigestRepeats(w: World, k: Key, d: Digest, run: Run)
    requires Here(w, k).request == Some(d) && Repeats(AsStatus(d.status), run)
    ensures k in w.irs && Repeats(w.irs[k].status, run)
  {
  }

  // ----- Requests that have no run -----

  /** A failure-free reconcile of a request that some list objects to rejects it, and the message names the first such check. */
  lemma ObjectedRequestIsRejected(w: World, k: Key, inputs: seq<Input>, check: Check, url: string)
    requires Reachable(w) && FlightOf(w, k) == Some(Fetching) && FailureFree(w, k, inputs)
    requires k in w.irs && !w.irs[k].deleting && !HasCompleted(w.irs[k].status) && FirstURLIs(w.irs[k].spec.refParams, url)
    requires FirstObjection(check, ConfigInForce(w), k.namespace, w.irs[k].spec, url)
    ensures var w' := Reconciled(w, k, inputs);
      && k in w'.irs && IsVerdict(w'.irs[k].status, ConditionFalse, RejectedReason)
      && Verdict(w'.irs[k].status).value.message == Wording(check, ConfigInForce(w), k.namespace, w.irs[k].spec, url)
  {
    ReachableIsSound(w);
    assert KeyOk(w, k);
    ReconcileArrives(w, k, inputs);
    GoalIsRejection(w.irs[k], RunsOf(w.runs, k), ConfigInForce(w), check, url);
    assert Here(Reconciled(w, k, inputs), k).request == GoalOf(w, k).request;
  }

  lemma GoalIsRejection(ir: InternalRequest, runs: map<Ref, Run>, c: Config, check: Check, url: string)
    requires !ir.deleting && !HasCompleted(ir.status)
    requires FirstURLIs(ir.spec.refParams, url) && FirstObjection(check, c, ir.key.namespace, ir.spec, url)
    ensures var g := Goal(Some(ir), runs, c);
      && g.request.Some? && IsVerdict(AsStatus(g.request.value.status), ConditionFalse, RejectedReason)
      && Verdict(AsStatus(g.request.value.status)).value.message == Wording(check, c, ir.key.namespace, ir.spec, url)
  {
    AdmittedIff(c, ir.key.namespace, ir.spec, url);
    var named := MessageNamesCheck(c, ir.key.namespace, ir.spec, url);
    assert named == check;
  }

  /** A failure-free reconcile of a request that no list objects to, and that has no run yet, leaves it running with one. */
  lemma NewRequestIsStarted(w: World, k: Key, inputs: seq<Input>, url: string)
    requires Reachable(w) && FlightOf(w, k) == Some(Fetching) && FailureFree(w, k, inputs)
    requires k in w.irs && !w.irs[k].deleting && !HasCompleted(w.irs[k].status) && FirstURLIs(w.irs[k].spec.refParams, url)
    requires forall check: Check :: !Objects(check, ConfigInForce(w), k.namespace, w.irs[k].spec, url)
    requires RunsOf(w.runs, k) == map[]
    ensures var w' := Reconciled(w, k, inputs);
      && k in w'.irs && IsVerdict(w'.irs[k].status, ConditionFalse, RunningReason)
      && exists r :: RunsOf(w'.runs, k).Keys == {r} && UnderWay(w'.runs[r]) && !w'.runs[r].cancelled
  {
    ReachableIsSound(w);
    assert KeyOk(w, k);
    ReconcileArrives(w, k, inputs);
    AdmittedIff(ConfigInForce(w), k.namespace, w.irs[k].spec, url);
    GoalIsStart(w.irs[k], ConfigInForce(w));
    var w' := Reconciled(w, k, inputs);
    assert Here(w', k) == GoalOf(w, k);
    assert KeyOk(w', k);
    OnlyRunIsKept(w', k);
  }

  lemma GoalIsStart(ir: InternalRequest, c: Config)
    requires !ir.deleting && !HasCompleted(ir.status) && Admitted(c, ir.key.namespace, ir.spec)
    ensures var g := Goal(Some(ir), map[], c);
      && g.unfinished == Some(false)
      && g.request.Some? && IsVerdict(AsStatus(g.request.value.status), ConditionFalse, RunningReason)
  {
  }

  lemma OnlyRunIsKept(w: World, k: Key)
    requires AtMostOne(RunsOf(w.runs, k)) && Unfinished(RunsOf(w.runs, k)) == Some(false)
    ensures exists r :: RunsOf(w.runs, k).Keys == {r} && UnderWay(w.runs[r]) && !w.runs[r].cancelled
  {
    var r :| r in RunsOf(w.runs, k);
    OnlyRun(RunsOf(w.runs, k), r);
    assert RunsOf(w.runs, k).Keys == {r};
  }

  // ----- Requests that are being deleted -----

  /** The reconcile finalizes its request, or is about to find that it must, or is over. */
  predicate Releasing(w: World, k: Key) {
    k in w.flights &&
    match w.flights[k]
    case Returned(_) => true
    case Fetching => k in w.irs ==> w.irs[k].deleting
    case Busy(call, _, _) => Finalizing(call)
  }

  lemma ReleasingReadKeepsStatus(w: World, k: Key, i: Input)
    requires PerformEnabled(w, k, i) && Releasing(w, k) && !Writes(w.flights[k])
    ensures Releasing(DoPerform(w, k, i), k) && DoPerform(w, k, i).irs == w.irs
  {
    OtherReadsMove(w, k, i);
  }

  lemma ReleasingCallKeepsStatus(w: World, k: Key, i: Input)
    requires PerformEnabled(w, k, i) && Releasing(w, k)
    ensures Releasing(DoPerform(w, k, i), k)
    ensures k in DoPerform(w, k, i).irs ==> SameStatus(w, DoPerform(w, k, i), k)
  {
    if !Writes(w.flights[k]) {
      ReleasingReadKeepsStatus(w, k, i);
    } else {
      OtherWriteKeepsStatus(w, k, i);
    }
  }

  lemma {:induction false} ReleaseKeepsStatus(w: World, k: Key, inputs: seq<Input>)
    requires FailureFree(w, k, inputs) && Releasing(w, k)
    ensures k in Reconciled(w, k, inputs).irs ==> SameStatus(w, Reconciled(w, k, inputs), k)
    decreases |inputs|
  {
    if !w.flights[k].Returned? {
      ReleasingCallKeepsStatus(w, k, inputs[0]);
      ReleaseKeepsStatus(DoPerform(w, k, inputs[0]), k, inputs[1..]);
    }
  }

  /**
    A failure-free reconcile of a request that is being deleted takes the finalizer off and changes nothing else of it, so
    that the request is gone or waits for others only, and leaves no run that is neither done nor cancelled.
  */
  lemma DeletedRequestIsReleased(w: World, k: Key, inputs: seq<Input>)
    requires Reachable(w) && FlightOf(w, k) == Some(Fetching) && FailureFree(w, k, inputs)
    requires k in w.irs && w.irs[k].deleting && Held(w.irs[k])
    ensures var w' := Reconciled(w, k, inputs);
      && (k in w'.irs <==> w.irs[k].finalizers != {FINALIZER})
      && (k in w'.irs ==> w'.irs[k] == w.irs[k].(finalizers := w.irs[k].finalizers - {FINALIZER}))
      && forall r :: r in RunsOf(w'.runs, k) ==> Decided(w'.runs[r]) || w'.runs[r].cancelled
  {
    ReachableIsSound(w);
    ReconcileArrives(w, k, inputs);
    ReleaseKeepsStatus(w, k, inputs);
    var w' := Reconciled(w, k, inputs);
    assert KeyOk(w', k);
    assert w.irs[k].finalizers - {FINALIZER} == {} <==> w.irs[k].finalizers == {FINALIZER};
    if k in w'.irs {
      assert DigestOf(w'.irs[k]).rest == w.irs[k].(finalizers := w.irs[k].finalizers - {FINALIZER}, status := NO_STATUS);
    }
    forall r | r in RunsOf(w'.runs, k) ensures Decided(w'.runs[r]) || w'.runs[r].cancelled {
      OnlyRun(RunsOf(w'.runs, k), r);
    }
  }
}
