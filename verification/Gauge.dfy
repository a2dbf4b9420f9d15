/** How far the concurrency gauge drifts from the number of active requests, read off the schedule of one process. */
module Gauge {
  import opened Common
  import opened Requests
  import opened PipelineRuns
  import opened Admission
  import opened Protocol
  import opened Invariant
  import opened Preservation
  import opened Runs
  import opened Flawless

  // ----- The four calls that can pull the gauge off -----

  /** A due patch that rejects a request whose copy says it is running. */
  predicate RejectsRunningCopy(f: Flight) { f.Busy? && f.call.PatchRejected? && IsRunning(f.mem.status) }

  /** A due patch that marks a request running. */
  predicate Starts(f: Flight) { f.Busy? && f.call.PatchRunning? }

  /** A due patch that tracks a run that is done. */
  predicate Finishes(f: Flight) { f.Busy? && f.call.PatchTracked? && IsDone(f.call.seen) }

  /** A due finalizer removal of a request whose copy says it is running. */
  predicate Removes(f: Flight) { f.Busy? && f.call.RemoveFinalizer? && IsRunning(f.mem.status) }

  lemma MarkingMeans(k: Key, c: Cell, ns: string, f: Flight, now: int)
    requires CellOk(k, c, ns) && c.flight == Some(f) && PatchesStatus(f)
    ensures Coupled(k, f.mem, c.ir)
    ensures var s := Marking(f, now).status;
      && (RejectsRunning(f.mem, s) <==> RejectsRunningCopy(f))
      && (StartsRun(f.mem, s) <==> Starts(f))
      && (FinishesRun(f.mem, s) <==> Finishes(f))
  {
    match f.call {
      case PatchRejected(message) =>
      case PatchRunning =>
      case PatchTracked(ref, seen, message) => TrackingMeans(f.mem, ref, seen, message, now);
    }
  }

  lemma TrackingMeans(mem: InternalRequest, ref: Ref, seen: Run, message: string, now: int)
    requires InPhase(mem.status, Running)
    ensures var s := Tracked(mem, ref, seen, message, now).status;
      !RejectsRunning(mem, s) && !StartsRun(mem, s) && (FinishesRun(mem, s) <==> IsDone(seen))
  {
  }

  /** What the counters of the ledger count, for every call: rejections that land, and the three kinds of lost patches. */
  predicate Tallies(l: Ledger, f: Flight, landed: bool, l': Ledger) {
    && l'.baseline == l.baseline
    && l'.rejections == l.rejections + Bit(RejectsRunningCopy(f) && landed)
    && l'.lostStarts == l.lostStarts + Bit(Starts(f) && !landed)
    && l'.lostFinishes == l.lostFinishes + Bit(Finishes(f) && !landed)
    && l'.lostRemovals == l.lostRemovals + Bit(Removes(f) && !landed)
  }

  lemma PatchTallies(w: World, k: Key, i: Input)
    requires KeyOk(w, k) && PerformEnabled(w, k, i) && PatchesStatus(w.flights[k])
    ensures Tallies(w.history.ledger, w.flights[k], TakesEffect(w, k, i), DoPerform(w, k, i).history.ledger)
  {
    var f := w.flights[k];
    MarkingMeans(k, View(w, k), w.serviceNamespace, f, i.now);
    PatchesMark(w, k, i);
    RecordTallies(w.history, k, f, Marking(f, i.now), i.outcome != Lost);
  }

  lemma RecordTallies(h: History, k: Key, f: Flight, m: Marked, landed: bool)
    requires PatchesStatus(f) && (RejectsRunning(f.mem, m.status) <==> RejectsRunningCopy(f))
    requires (StartsRun(f.mem, m.status) <==> Starts(f)) && (FinishesRun(f.mem, m.status) <==> Finishes(f))
    ensures Tallies(h.ledger, f, landed, Recorded(h, k, f.mem, m, landed).ledger)
  {
  }

  lemma OtherWriteTallies(w: World, k: Key, i: Input)
    requires KeyOk(w, k) && PerformEnabled(w, k, i) && Writes(w.flights[k]) && !PatchesStatus(w.flights[k])
    ensures Tallies(w.history.ledger, w.flights[k], TakesEffect(w, k, i), DoPerform(w, k, i).history.ledger)
  {
    var Busy(call, mem, c) := w.flights[k];
    match call {
      case RemoveFinalizer => RemovalTallies(w, k, i, mem, c);
      case AddFinalizer => assert DoAddFinalizer(w, k, i, mem).history == w.history;
      case CreateRun => assert DoCreateRun(w, k, i, mem, c).history.ledger == w.history.ledger;
      case CancelRun(ref) => assert DoCancelRun(w, k, i, mem, c, ref).history == w.history;
      case DeleteRun(ref) => assert DoDeleteRun(w, k, i, ref).history == w.history;
    }
  }

  lemma RemovalTallies(w: World, k: Key, i: Input, mem: InternalRequest, c: Config)
    requires FlightOf(w, k) == Some(Busy(RemoveFinalizer, mem, c))
    ensures Tallies(w.history.ledger, w.flights[k], TakesEffect(w, k, i), DoRemoveFinalizer(w, k, i, mem).history.ledger)
  {
  }

  lemma CallTallies(w: World, k: Key, i: Input)
    requires Inv(w) && PerformEnabled(w, k, i)
    ensures Tallies(w.history.ledger, w.flights[k], TakesEffect(w, k, i), DoPerform(w, k, i).history.ledger)
  {
    assert KeyOk(w, k);
    if !Writes(w.flights[k]) {
      ReadsOnlyMove(w, k, i);
    } else if PatchesStatus(w.flights[k]) {
      PatchTallies(w, k, i);
    } else {
      OtherWriteTallies(w, k, i);
    }
  }

  // ----- Drift along a schedule -----

  /** By how much one call raises the gauge, and what is owed to it, above the number of active requests. */
  function Deviation(f: Flight, landed: bool): int {
    Bit(RejectsRunningCopy(f) && landed) + Bit(Starts(f) && !landed)
      - Bit(Finishes(f) && !landed) - Bit(Removes(f) && !landed)
  }

  function Drift(w: World, actions: seq<Action>): int
    requires Legal(w, actions)
    decreases |actions|
  {
    if actions == [] then 0
    else
      var a := actions[0];
      (if a.Perform? then Deviation(w.flights[a.key], TakesEffect(w, a.key, a.input)) else 0)
        + Drift(Step(w, a), actions[1..])
  }

  predicate CrashFree(actions: seq<Action>) {
    forall i :: 0 <= i < |actions| ==> !actions[i].Crash?
  }

  function Net(l: Ledger): int {
    l.rejections + l.lostStarts - l.lostFinishes - l.lostRemovals
  }

  lemma StepDrifts(w: World, a: Action)
    requires Inv(w) && Enabled(w, a) && !a.Crash?
    ensures var l, l' := w.history.ledger, Step(w, a).history.ledger;
      && l'.baseline == l.baseline
      && Net(l') == Net(l) + if a.Perform? then Deviation(w.flights[a.key], TakesEffect(w, a.key, a.input)) else 0
  {
    if a.Perform? {
      CallTallies(w, a.key, a.input);
    } else if a.UserCreate? {
      assert DoUserCreate(w, a.key, a.spec, a.labels, a.finalizers).history.ledger == w.history.ledger;
    } else {
      OtherStepKeepsHistory(w, a);
    }
  }

  lemma {:induction false} RunDrifts(w: World, actions: seq<Action>)
    requires Inv(w) && Legal(w, actions) && CrashFree(actions)
    ensures var w' := After(w, actions);
      && Inv(w') && w'.history.ledger.baseline == w.history.ledger.baseline
      && Net(w'.history.ledger) == Net(w.history.ledger) + Drift(w, actions)
    decreases |actions|
  {
    if actions != [] {
      StepKeepsInv(w, actions[0]);
      StepDrifts(w, actions[0]);
      RunDrifts(Step(w, actions[0]), actions[1..]);
    }
  }

  /**
    One process lifetime, whatever fails: the gauge and what is still owed to it are the change in active requests plus
    the drift of the schedule.
  */
  lemma GaugeDrift(w0: World, actions: seq<Action>)
    requires Reachable(w0) && !w0.up && Legal(w0, actions) && CrashFree(actions)
    ensures var w := After(w0, actions);
      w.meters.readings.gauge + GaugeSum(w.meters.pending) ==
        |ActiveKeys(w.irs)| - |ActiveKeys(w0.irs)| + Drift(w0, actions)
  {
    DownIsFresh(w0);
    RunDrifts(w0, actions);
  }

  /** Once the goroutines are done, the gauge is right exactly when the drift makes up for what was active at the start. */
  lemma GaugeIsRightIff(w0: World, actions: seq<Action>)
    requires Reachable(w0) && !w0.up && Legal(w0, actions) && CrashFree(actions)
    requires After(w0, actions).meters.pending == multiset{}
    ensures After(w0, actions).meters.readings.gauge == |ActiveKeys(After(w0, actions).irs)| <==>
      Drift(w0, actions) == |ActiveKeys(w0.irs)|
  {
    GaugeDrift(w0, actions);
  }

  // ----- Without losses -----

  /** No action performs a due rejection of a running copy. */
  predicate NeverRejectsRunning(w: World, actions: seq<Action>)
    requires Legal(w, actions)
    decreases |actions|
  {
    actions == [] ||
      (!(actions[0].Perform? && RejectsRunningCopy(w.flights[actions[0].key])) &&
       NeverRejectsRunning(Step(w, actions[0]), actions[1..]))
  }

  lemma {:induction false} DriftWithoutLosses(w: World, actions: seq<Action>)
    requires Lossless(w, actions) && Legal(w, actions)
    ensures CrashFree(actions) && Drift(w, actions) >= 0
    ensures Drift(w, actions) == 0 <==> NeverRejectsRunning(w, actions)
    decreases |actions|
  {
    if actions != [] {
      DriftWithoutLosses(Step(w, actions[0]), actions[1..]);
    }
  }

  /**
    One process lifetime, from a start with no active request, in which no announced patch was lost: the gauge and what is
    still owed to it never fall below the number of active requests, and are equal to it if and only if the schedule never
    rejects a running request.
  */
  lemma GaugeWithoutLosses(w0: World, actions: seq<Action>)
    requires Reachable(w0) && !w0.up && ActiveKeys(w0.irs) == {} && Lossless(w0, actions) && Legal(w0, actions)
    ensures var w := After(w0, actions);
      && w.meters.readings.gauge + GaugeSum(w.meters.pending) >= |ActiveKeys(w.irs)|
      && (w.meters.readings.gauge + GaugeSum(w.meters.pending) == |ActiveKeys(w.irs)| <==>
            NeverRejectsRunning(w0, actions))
  {
    DriftWithoutLosses(w0, actions);
    GaugeDrift(w0, actions);
  }
}
