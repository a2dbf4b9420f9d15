/** A reachable world in which a failing List of TaskRuns costs a request its failure message. */
module SilentFailure {
  import opened Common
  import opened References
  import opened Requests
  import opened PipelineRuns
  import opened Admission
  import opened Protocol
  import opened Invariant
  import opened Runs
  import opened Recovery
  import opened Leak
  import opened Listing

  /** The TaskRun says more than its run. */
  const BROKEN_TASK := TaskRun("build", Some(RunCondition(ConditionFalse, "Failed", "exit code 1")))
  const SUMMARY := RunCondition(ConditionFalse, "Failed", "Tasks Completed: 1")

  lemma BrokenTaskAdds(run: Run)
    requires run.condition == Some(SUMMARY) && run.taskRuns == [BROKEN_TASK]
    ensures IsDone(run) && !IsTrue(run) && !NothingToAdd(run)
  {
    assert run.taskRuns == [] + [BROKEN_TASK];
    assert ReportsOf(run.taskRuns) == ReportsOf(run.taskRuns[..0]) + [Report(BROKEN_TASK)];
    assert Join([Report(BROKEN_TASK)], "; ") == Report(BROKEN_TASK);
    assert |Report(BROKEN_TASK)| == 27 && |SUMMARY.message| == 18;
    assert BROKEN_TASK in run.taskRuns;
  }

  // ----- The run fails -----

  /** A running request, alone, whose reconcile has returned, and its run. */
  ghost predicate FailedRunWaits(w: World, k: Key, ref: Ref) {
    && Inv(w) && w.up && k in w.irs && IsRunning(w.irs[k].status) && Held(w.irs[k]) && !w.irs[k].deleting
    && Admitted(ConfigInForce(w), k.namespace, w.irs[k].spec)
    && ref in RunsOf(w.runs, k) && w.runs[ref].condition == Some(SUMMARY) && w.runs[ref].taskRuns == [BROKEN_TASK]
  }

  lemma UnfinishedRun(runs: map<Ref, Run>) returns (ref: Ref)
    requires Unfinished(runs).Some?
    ensures ref in runs && !IsDone(runs[ref])
  {
    ref :| ref in runs && runs[ref] == TheRun(runs);
  }

  lemma RunFails(w: World, k: Key) returns (w': World, ref: Ref)
    requires Inv(w) && RunsAlone(w, k) && Underway(w, k)
    ensures FailedRunWaits(w', k, ref) && k in w'.queue && k !in w'.flights
    ensures forall v :: Gets(w', v) ==> Gets(w, v)
  {
    ref := UnfinishedRun(RunsOf(w.runs, k));
    var w1 := DoFinish(w, k);
    var fails := RunUpdate(ref, Some(SUMMARY), [], [BROKEN_TASK]);
    var newer := UpdatedRun(w1.runs[ref], fails);
    w' := DoRunUpdate(w1, ref, w1.runs[ref], newer);
    OwnRunBelongs(w, k, ref);
    FinishGets(w, k);
    FailureWakes(w1, k, ref, newer);
    FailureGets(w1, ref, fails);
  }

  lemma FinishGets(w: World, k: Key)
    requires Inv(w) && k in w.flights && w.flights[k].Returned?
    ensures Inv(DoFinish(w, k)) && forall v :: Gets(DoFinish(w, k), v) ==> Gets(w, v)
  {
    StepKeepsInv(w, Finish(k));
    forall v | Gets(DoFinish(w, k), v) ensures Gets(w, v) {
      StepGets(w, Finish(k), v);
    }
  }

  lemma FailureGets(w: World, ref: Ref, fails: Action)
    requires Inv(w) && fails.RunUpdate? && fails.ref == ref && Enabled(w, fails)
    ensures var w' := DoRunUpdate(w, ref, w.runs[ref], UpdatedRun(w.runs[ref], fails));
      Inv(w') && forall v :: Gets(w', v) ==> Gets(w, v)
  {
    StepKeepsInv(w, fails);
    var w' := Step(w, fails);
    forall v | Gets(w', v) ensures Gets(w, v) {
      StepGets(w, fails, v);
    }
  }

  lemma OwnRunBelongs(w: World, k: Key, ref: Ref)
    requires Inv(w) && ref in RunsOf(w.runs, k)
    ensures BelongsTo(w.runs[ref], k)
  {
    assert NameOk(w.runs, w.retired, w.history.births, ref);
  }

  lemma FailureWakes(w: World, k: Key, ref: Ref, newer: Run)
    requires w.up && ref in w.runs && BelongsTo(w.runs[ref], k) && !IsDone(w.runs[ref])
    requires newer == w.runs[ref].(condition := Some(SUMMARY), results := [], taskRuns := [BROKEN_TASK])
    ensures var w' := DoRunUpdate(w, ref, w.runs[ref], newer);
      w' == w.(runs := w.runs[ref := newer], queue := w.queue + {k}) && ref in RunsOf(w'.runs, k)
  {
    assert BelongsTo(newer, k);
  }

  // ----- Its TaskRuns are about to be listed -----

  /** Get, config, and the two lookups. */
  lemma ListingComesDue(w: World, k: Key, ref: Ref) returns (w': World)
    requires FailedRunWaits(w, k, ref) && FlightOf(w, k) == Some(Fetching)
    ensures Gets(w, w') && ListsTaskRuns(w', k) && w'.flights[k].call.seen == w.runs[ref] && InStep(w', k)
  {
    var i := Input(Ok, 0, ref, w.runs[ref]);
    var mem, c := w.irs[k], ConfigInForce(w);
    assert KeyOk(w, k);
    RunningIsUnfinished(k, View(w, k), w.serviceNamespace);
    w' := Fly(w, k, Busy(ListTaskRuns(ref, w.runs[ref]), mem, c));
    FlyAgain(w, k, AtCreated(mem, c), w'.flights[k]);
    LookupsGet(Fly(w, k, AtCreated(mem, c)), k, i, mem, c, w');
    FirstCallsGet(w, k, i, mem, c, w');
  }

  lemma FlyAgain(w: World, k: Key, f: Flight, g: Flight)
    ensures Fly(Fly(w, k, f), k, g) == Fly(w, k, g)
  {
  }

  lemma RunningIsUnfinished(k: Key, c: Cell, ns: string)
    requires CellOk(k, c, ns) && c.ir.Some? && IsRunning(c.ir.value.status)
    ensures !HasCompleted(c.ir.value.status) && c.ir.value.key == k
  {
  }

  lemma FirstCallsGet(w: World, k: Key, i: Input, mem: InternalRequest, c: Config, w': World)
    requires FlightOf(w, k) == Some(Fetching) && IrOf(w, k) == Some(mem) && i.outcome == Ok && c == ConfigInForce(w)
    requires Held(mem) && !mem.deleting && !HasCompleted(mem.status) && Admitted(c, mem.key.namespace, mem.spec)
    requires Gets(Fly(w, k, AtCreated(mem, c)), w')
    ensures Gets(w, w')
  {
    var w1 := Fly(w, k, AtConfig(mem));
    FlyAgain(w, k, AtConfig(mem), AtCreated(mem, c));
    assert DoFetch(w, k, i) == w1;
    assert DoLoadConfig(w1, k, i, mem) == Fly(w, k, AtCreated(mem, c));
    StepGets(w1, Perform(k, i), w');
    StepGets(w, Perform(k, i), w');
  }

  lemma LookupsGet(w: World, k: Key, i: Input, mem: InternalRequest, c: Config, w': World)
    requires FlightOf(w, k) == Some(AtCreated(mem, c)) && i.outcome == Ok && i.ref in RunsOf(w.runs, k)
    requires IsRunning(mem.status) && IsDone(w.runs[i.ref]) && !IsTrue(w.runs[i.ref])
    requires w' == Fly(w, k, Busy(ListTaskRuns(i.ref, w.runs[i.ref]), mem, c))
    ensures Gets(w, w')
  {
    var w3 := Fly(w, k, AtTracked(mem, c));
    LookupsSucceed(w, w3, k, i, mem, c);
    FlyAgain(w, k, AtTracked(mem, c), Busy(ListTaskRuns(i.ref, w.runs[i.ref]), mem, c));
    NoStepGets(w');
    StepGets(w3, Perform(k, i), w');
    StepGets(w, Perform(k, i), w');
  }

  lemma LookupsSucceed(w: World, w': World, k: Key, i: Input, mem: InternalRequest, c: Config)
    requires i.outcome == Ok && i.ref in RunsOf(w.runs, k) && w'.runs == w.runs && IsRunning(mem.status)
    requires IsDone(w.runs[i.ref]) && !IsTrue(w.runs[i.ref])
    ensures DoListForCreate(w, k, i, mem, c) == Fly(w, k, AtTracked(mem, c))
    ensures DoListForTrack(w', k, i, mem, c) == Fly(w', k, Busy(ListTaskRuns(i.ref, w.runs[i.ref]), mem, c))
  {
  }

  lemma FailedRunIsPicked(w: World, k: Key, ref: Ref) returns (w': World)
    requires FailedRunWaits(w, k, ref) && k in w.queue && k !in w.flights
    ensures FailedRunWaits(w', k, ref) && FlightOf(w', k) == Some(Fetching)
    ensures forall v :: Gets(w', v) ==> Gets(w, v)
  {
    w' := w.(queue := w.queue - {k}, flights := w.flights[k := Fetching]);
    StepKeepsInv(w, Pick(k));
    forall v | Gets(w', v) ensures Gets(w, v) {
      StepGets(w, Pick(k), v);
    }
  }

  /**
    In some reachable world, a failing List of the TaskRuns followed by a patch that succeeds completes the request with a
    message other than the one it was heading for: no later reconcile repairs that.
  */
  lemma ListingFailureShows(k: Key) returns (w: World, i: Input, j: Input)
    requires SEPARATOR !in k.namespace
    ensures Reachable(w) && InStep(w, k) && ListsTaskRuns(w, k) && i.outcome == Lost && j.outcome == Ok
    ensures PerformEnabled(w, k, i) && PerformEnabled(DoPerform(w, k, i), k, j)
    ensures var w' := DoPerform(DoPerform(w, k, i), k, j);
      k in w'.irs && HasCompleted(w'.irs[k].status) && GoalOf(w, k).request != Some(DigestOf(w'.irs[k]))
  {
    var w1 := SomeRequestRuns(k);
    var w2, ref := RunFails(w1, k);
    var w3 := FailedRunIsPicked(w2, k, ref);
    w := ListingComesDue(w3, k, ref);
    GetsIsTransitive(FirstWorld(k), w1, w);
    GetsIsReachable(k, w);
    i, j := Input(Lost, 0, ref, w3.runs[ref]), Input(Ok, 0, ref, w3.runs[ref]);
    BrokenTaskAdds(w3.runs[ref]);
    ListingFailureIsFinal(w, k, i, j);
  }
}
