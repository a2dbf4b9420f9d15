/** The writes of a reconcile do not change where its request is heading. */
module RecoveryWrites {
  import opened Common
  import opened References
  import opened Requests
  import opened PipelineRuns
  import opened Admission
  import opened Protocol
  import opened Invariant
  import opened KeyPreservation
  import opened WritePreservation
  import opened Recovery

  /** `w'` continues towards the goal of `w`; a call that succeeds and ends the reconcile has arrived. */
  ghost predicate OnCourse(w: World, w': World, k: Key, outcome: Outcome) {
    && InStep(w', k) && GoalOf(w', k) == GoalOf(w, k)
    && (outcome == Ok && k in w'.flights && w'.flights[k].Returned? ==> Here(w', k) == GoalOf(w, k))
  }

  // ----- Status patches -----

  lemma RejectionKeepsGoal(mem: InternalRequest, runs: map<Ref, Run>, c: Config)
    requires !mem.deleting && Held(mem) && !HasCompleted(mem.status) && !Admitted(c, mem.key.namespace, mem.spec)
    ensures var ir := mem.(status := MarkedRejected(mem, RejectionMessage(c, mem.key.namespace, mem.spec)).status);
      && Goal(Some(ir), runs, c) == Goal(Some(mem), runs, c)
      && Goal(Some(mem), runs, c) == Destiny(Some(DigestOf(ir)), Unfinished(runs))
  {
    assert mem.finalizers + {FINALIZER} == mem.finalizers;
  }

  lemma StartKeepsGoal(mem: InternalRequest, runs: map<Ref, Run>, c: Config, now: int)
    requires !mem.deleting && InPhase(mem.status, NotStarted) && Admitted(c, mem.key.namespace, mem.spec)
    requires runs != map[]
    ensures Goal(Some(mem.(status := MarkedRunning(mem, now).status)), runs, c) == Goal(Some(mem), runs, c)
  {
    var running := Condition(SucceededCondition, ConditionFalse, RunningReason, "");
    assert SetStatusCondition([], running) == [running];
    assert forall x: Condition :: x.kind == SucceededCondition ==> SetStatusCondition([running], x) == [x];
  }

  lemma TrackingKeepsGoal(mem: InternalRequest, runs: map<Ref, Run>, c: Config, ref: Ref, seen: Run, message: string, now: int)
    requires !mem.deleting && Held(mem) && InPhase(mem.status, Running) && Admitted(c, mem.key.namespace, mem.spec)
    requires AtMostOne(runs) && ref in runs && runs[ref] == seen
    requires IsDone(seen) && !IsTrue(seen) ==> message == TrackMessage(seen, Some(seen.taskRuns))
    ensures var ir := mem.(status := Tracked(mem, ref, seen, message, now).status);
      && Goal(Some(ir), runs, c) == Goal(Some(mem), runs, c)
      && Goal(Some(mem), runs, c) == Destiny(Some(DigestOf(ir)), Unfinished(runs))
  {
    RoundTrip(ref);
    OnlyRun(runs, ref);
    SameVerdictAgain(mem.status.conditions, Verdict(mem.status).value);
    assert mem.finalizers + {FINALIZER} == mem.finalizers;
  }

  lemma PatchRejectedKeepsGoal(w: World, k: Key, i: Input, mem: InternalRequest, c: Config, message: string)
    requires KeyOk(w, k) && InStep(w, k) && FlightOf(w, k) == Some(Busy(PatchRejected(message), mem, c))
    ensures OnCourse(w, DoPatchRejected(w, k, i, mem, message), k, i.outcome)
  {
    PatchView(w, k, mem, MarkedRejected(mem, message), i.outcome, Returned(i.outcome != Ok));
    RejectionKeepsGoal(mem, RunsOf(w.runs, k), c);
  }

  lemma PatchRunningKeepsGoal(w: World, k: Key, i: Input, mem: InternalRequest, c: Config)
    requires KeyOk(w, k) && InStep(w, k) && FlightOf(w, k) == Some(Busy(PatchRunning, mem, c))
    ensures OnCourse(w, DoPatchRunning(w, k, i, mem, c), k, i.outcome)
  {
    StartIsDue(k, View(w, k), w.serviceNamespace, mem, c);
    StartOnCourse(w, k, i, mem, c);
  }

  lemma StartIsDue(k: Key, cell: Cell, ns: string, mem: InternalRequest, c: Config)
    requires CellOk(k, cell, ns) && cell.flight == Some(Busy(PatchRunning, mem, c))
    ensures Coupled(k, mem, cell.ir) && mem.uid < |cell.books| && InPhase(mem.status, NotStarted) && cell.runs != map[]
  {
  }

  lemma StartOnCourse(w: World, k: Key, i: Input, mem: InternalRequest, c: Config)
    requires InStep(w, k) && FlightOf(w, k) == Some(Busy(PatchRunning, mem, c))
    requires Coupled(k, mem, IrOf(w, k)) && mem.uid < |BooksOf(w, k)|
    requires InPhase(mem.status, NotStarted) && RunsOf(w.runs, k) != map[]
    ensures OnCourse(w, DoPatchRunning(w, k, i, mem, c), k, i.outcome)
  {
    var m := MarkedRunning(mem, i.now);
    PatchView(w, k, mem, m, i.outcome, RunningFlight(w.irs[k], m, c, i.outcome));
    StartKeepsGoal(mem, RunsOf(w.runs, k), c, i.now);
  }

  lemma CourseFromView(w: World, w': World, k: Key, ir: Option<InternalRequest>, f: Flight, outcome: Outcome)
    requires IrOf(w', k) == ir && RunsOf(w'.runs, k) == RunsOf(w.runs, k) && FlightOf(w', k) == Some(f)
    requires ConfigInForce(w') == ConfigInForce(w)
    requires UpToDate(ir, RunsOf(w.runs, k), ConfigInForce(w), Some(f))
    requires Goal(ir, RunsOf(w.runs, k), ConfigInForce(w)) == GoalOf(w, k)
    requires outcome == Ok && f.Returned? ==>
      GoalOf(w, k) == Destiny(if ir.Some? then Some(DigestOf(ir.value)) else None, Unfinished(RunsOf(w.runs, k)))
    ensures OnCourse(w, w', k, outcome)
  {
  }

  lemma TrackedFlightUpToDate(ir: InternalRequest, runs: map<Ref, Run>, c: Config)
    requires !ir.deleting
    ensures UpToDate(Some(ir), runs, c, Some(AtDeleted(ir, c)))
  {
  }

  lemma PatchTrackedKeepsGoal(w: World, k: Key, i: Input, mem: InternalRequest, c: Config,
                              ref: Ref, seen: Run, message: string)
    requires KeyOk(w, k) && InStep(w, k) && FlightOf(w, k) == Some(Busy(PatchTracked(ref, seen, message), mem, c))
    ensures OnCourse(w, DoPatchTracked(w, k, i, mem, c, ref, seen, message), k, i.outcome)
  {
    var m := Tracked(mem, ref, seen, message, i.now);
    var ir := mem.(status := m.status);
    PatchTrackedView(w, k, i, mem, c, ref, seen, message);
    TrackingKeepsGoal(mem, RunsOf(w.runs, k), c, ref, seen, message, i.now);
    TrackedFlightUpToDate(ir, RunsOf(w.runs, k), c);
    CourseFromView(w, DoPatchTracked(w, k, i, mem, c, ref, seen, message), k,
                   Some(if i.outcome == Lost then mem else ir), TrackedFlight(mem, m, c, i.outcome), i.outcome);
  }

  // ----- Finalizer writes -----

  lemma AddFinalizerKeepsGoal(w: World, k: Key, i: Input, mem: InternalRequest, c: Config)
    requires InStep(w, k) && FlightOf(w, k) == Some(Busy(AddFinalizer, mem, c))
    ensures OnCourse(w, DoAddFinalizer(w, k, i, mem), k, i.outcome)
  {
    AddFinalizerView(w, k, i, mem);
    var ir := mem.(finalizers := mem.finalizers + {FINALIZER});
    assert PatchFinalizers(Some(mem), mem.finalizers + {FINALIZER}) == Stored(ir);
    assert ir.finalizers + {FINALIZER} == ir.finalizers;
  }

  lemma RemoveFinalizerKeepsGoal(w: World, k: Key, i: Input, mem: InternalRequest, c: Config)
    requires KeyOk(w, k) && InStep(w, k) && FlightOf(w, k) == Some(Busy(RemoveFinalizer, mem, c))
    ensures OnCourse(w, DoRemoveFinalizer(w, k, i, mem), k, i.outcome)
  {
    RemoveFinalizerView(w, k, i, mem);
    var left := mem.finalizers - {FINALIZER};
    assert PatchFinalizers(Some(mem), left) == if left == {} then Gone else Stored(mem.(finalizers := left));
  }

  // ----- Run writes -----

  lemma CancellingKeepsUnfinished(runs: map<Ref, Run>, ref: Ref)
    requires AtMostOne(runs) && ref in runs
    ensures var runs' := runs[ref := runs[ref].(cancelled := true)];
      Unfinished(runs') == if Unfinished(runs).None? then None else Some(true)
  {
    var runs' := runs[ref := runs[ref].(cancelled := true)];
    assert AtMostOne(runs') && ref in runs';
    OnlyRun(runs, ref);
    OnlyRun(runs', ref);
  }

  lemma CancelRunKeepsGoal(w: World, k: Key, i: Input, mem: InternalRequest, c: Config, ref: Ref)
    requires KeyOk(w, k) && InStep(w, k) && FlightOf(w, k) == Some(Busy(CancelRun(ref), mem, c))
    ensures OnCourse(w, DoCancelRun(w, k, i, mem, c, ref), k, i.outcome)
  {
    CancelRunView(w, k, i, mem, c, ref);
    CancellingKeepsUnfinished(RunsOf(w.runs, k), ref);
  }

  lemma CreationKeepsGoal(mem: InternalRequest, c: Config, ref: Ref, run: Run)
    requires !mem.deleting && !HasCompleted(mem.status) && Admitted(c, mem.key.namespace, mem.spec)
    requires !IsDone(run) && !run.cancelled
    ensures Goal(Some(mem), map[ref := run], c) == Goal(Some(mem), map[], c)
  {
    var runs := map[ref := run];
    assert ref in runs;
    OnlyRun(runs, ref);
  }

  lemma CreateRunKeepsGoal(w: World, k: Key, i: Input, mem: InternalRequest, c: Config)
    requires KeyOk(w, k) && InStep(w, k) && FlightOf(w, k) == Some(Busy(CreateRun, mem, c))
    requires i.outcome != Lost ==> Matches(i.run, k) && !IsDone(i.run) && !i.run.cancelled
    ensures OnCourse(w, DoCreateRun(w, k, i, mem, c), k, i.outcome)
  {
    if i.outcome == Lost {
      MoveKeepsGoal(w, k, Returned(true));
    } else {
      CreateRunView(w, k, i, mem, c);
      assert RunsOf(DoCreateRun(w, k, i, mem, c).runs, k) == map[i.ref := i.run];
      CreationKeepsGoal(mem, c, i.ref, i.run);
    }
  }

  lemma DeletionKeepsGoal(mem: InternalRequest, runs: map<Ref, Run>, ref: Ref, c: Config)
    requires !mem.deleting && Held(mem) && HasCompleted(mem.status) && ref in runs && AtMostOne(runs) && IsDone(runs[ref])
    ensures Goal(Some(mem), runs - {ref}, c) == Goal(Some(mem), runs, c) == Destiny(Some(DigestOf(mem)), None)
    ensures Unfinished(runs - {ref}) == None
  {
    OnlyRun(runs, ref);
    assert runs - {ref} == map[];
    assert mem.finalizers + {FINALIZER} == mem.finalizers;
  }

  lemma DeleteRunKeepsGoal(w: World, k: Key, i: Input, mem: InternalRequest, c: Config, ref: Ref)
    requires KeyOk(w, k) && InStep(w, k) && FlightOf(w, k) == Some(Busy(DeleteRun(ref), mem, c))
    ensures OnCourse(w, DoDeleteRun(w, k, i, ref), k, i.outcome)
  {
    DeleteRunView(w, k, i, ref);
    DeletionKeepsGoal(mem, RunsOf(w.runs, k), ref, c);
  }
}
