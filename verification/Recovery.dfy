/**
  Level-triggered behaviour. While users, Tekton and the config stand still, every state determines where a reconcile
  will lead; no step of the controller, failed or not, and no restart changes that destination, and a reconcile without
  failures reaches it.
*/
module Recovery {
  import opened Common
  import opened Requests
  import opened PipelineRuns
  import opened Admission
  import opened Protocol
  import opened Invariant
  import opened KeyPreservation
  import opened Preservation

  // ----- Where a request is heading -----

  /** A status without its time stamps and without the generated name of its run. */
  datatype StatusDigest = StatusDigest(conditions: seq<Condition>, started: bool, finished: bool, hasRun: bool,
                                       results: map<string, string>)

  /** A request with a digested status; `rest` is everything but the status. */
  datatype Digest = Digest(rest: InternalRequest, status: StatusDigest)

  /** `unfinished` tells whether a run that is not done is left, and whether it is cancelled. */
  datatype Destiny = Destiny(request: Option<Digest>, unfinished: Option<bool>)

  function DigestStatus(s: Status): StatusDigest {
    StatusDigest(s.conditions, s.startTime.Some?, s.completionTime.Some?, s.pipelineRun != "", s.results)
  }

  function DigestOf(ir: InternalRequest): Digest {
    Digest(ir.(status := NO_STATUS), DigestStatus(ir.status))
  }

  function Verdicted(d: StatusDigest, status: ConditionStatus, reason: Reason, message: string): StatusDigest {
    d.(conditions := SetStatusCondition(d.conditions, Condition(SucceededCondition, status, reason, message)))
  }

  ghost function TheRun(runs: map<Ref, Run>): (run: Run)
    requires runs != map[]
    ensures exists r :: r in runs && runs[r] == run
  {
    var r :| r in runs;
    runs[r]
  }

  ghost function Unfinished(runs: map<Ref, Run>): Option<bool> {
    if runs == map[] || IsDone(TheRun(runs)) then None else Some(TheRun(runs).cancelled)
  }

  /** The status an admitted request ends up with, given its run if it has one. */
  ghost function RunGoal(d: StatusDigest, runs: map<Ref, Run>): StatusDigest {
    var tracked := d.(started := true, hasRun := true);
    if runs == map[] || !IsDone(TheRun(runs)) then Verdicted(tracked, ConditionFalse, RunningReason, "")
    else
      var run := TheRun(runs);
      if IsTrue(run) then
        Verdicted(tracked.(finished := true, results := ResultsOf(run.results)), ConditionTrue, SucceededReason, "")
      else Verdicted(tracked.(finished := true), ConditionFalse, FailedReason, TrackMessage(run, Some(run.taskRuns)))
  }

  ghost function StatusGoal(ir: InternalRequest, runs: map<Ref, Run>, c: Config): StatusDigest {
    if HasCompleted(ir.status) then DigestStatus(ir.status)
    else if !Admitted(c, ir.key.namespace, ir.spec) then
      Verdicted(DigestStatus(ir.status), ConditionFalse, RejectedReason, RejectionMessage(c, ir.key.namespace, ir.spec))
    else RunGoal(DigestStatus(ir.status), runs)
  }

  ghost function Goal(request: Option<InternalRequest>, runs: map<Ref, Run>, c: Config): Destiny {
    match request
    case None => Destiny(None, Unfinished(runs))
    case Some(ir) =>
      var rest := ir.(status := NO_STATUS);
      if ir.deleting then
        if !Held(ir) then Destiny(Some(DigestOf(ir)), Unfinished(runs))
        else
          var left := ir.finalizers - {FINALIZER};
          Destiny(if left == {} then None else Some(Digest(rest.(finalizers := left), DigestStatus(ir.status))),
                  if Unfinished(runs).None? then None else Some(true))
      else
        Destiny(Some(Digest(rest.(finalizers := ir.finalizers + {FINALIZER}), StatusGoal(ir, runs, c))),
                if !HasCompleted(ir.status) && Admitted(c, ir.key.namespace, ir.spec) && runs == map[]
                then Some(false) else Unfinished(runs))
  }

  function ConfigInForce(w: World): Config {
    if w.config.Some? then w.config.value else DefaultConfig(w.serviceNamespace)
  }

  ghost function GoalOf(w: World, k: Key): Destiny {
    Goal(IrOf(w, k), RunsOf(w.runs, k), ConfigInForce(w))
  }

  /** What is stored for the key now, seen as a destiny. */
  ghost function Here(w: World, k: Key): Destiny {
    Destiny(if k in w.irs then Some(DigestOf(w.irs[k])) else None, Unfinished(RunsOf(w.runs, k)))
  }

  // ----- A frozen environment -----

  /** The reconcile of the key has seen exactly what is stored. */
  predicate UpToDate(ir: Option<InternalRequest>, runs: map<Ref, Run>, c: Config, flight: Option<Flight>) {
    flight.Some? && flight.value.Busy? ==>
      var Busy(call, mem, config) := flight.value;
      && ir == Some(mem)
      && (!Finalizing(call) ==> !mem.deleting)
      && (UsesConfig(call) ==> config == c)
      && (match call
          case PatchRejected(message) =>
            && !Admitted(c, mem.key.namespace, mem.spec)
            && message == RejectionMessage(c, mem.key.namespace, mem.spec)
          case PatchRunning => Admitted(c, mem.key.namespace, mem.spec)
          case ListForTrack => Admitted(c, mem.key.namespace, mem.spec)
          case ListTaskRuns(ref, seen) => Admitted(c, mem.key.namespace, mem.spec) && ref in runs && runs[ref] == seen
          case PatchTracked(ref, seen, message) =>
            && Admitted(c, mem.key.namespace, mem.spec) && ref in runs && runs[ref] == seen
            && (IsDone(seen) && !IsTrue(seen) ==> message == TrackMessage(seen, Some(seen.taskRuns)))
          case _ => true)
  }

  ghost predicate InStep(w: World, k: Key) {
    UpToDate(IrOf(w, k), RunsOf(w.runs, k), ConfigInForce(w), FlightOf(w, k))
  }

  /** A step of the controller or its process, with any outcome. */
  predicate IsControllers(a: Action) {
    a.Crash? || a.Start? || a.Drain? || a.Pick? || a.Finish? || a.Perform?
  }

  predicate AllControllers(actions: seq<Action>) {
    forall i :: 0 <= i < |actions| ==> IsControllers(actions[i])
  }

  /** Such a step, unless it fails to list the TaskRuns for the failure message of `k`. */
  predicate Frozen(w: World, a: Action, k: Key) {
    IsControllers(a) && !(a.Perform? && a.key == k && ListsTaskRuns(w, k) && a.input.outcome != Ok)
  }

  predicate ListsTaskRuns(w: World, k: Key) {
    k in w.flights && w.flights[k].Busy? && w.flights[k].call.ListTaskRuns?
  }

  lemma OnlyRun(runs: map<Ref, Run>, r: Ref)
    requires AtMostOne(runs) && r in runs
    ensures TheRun(runs) == runs[r]
  {
  }

  /** A later verdict overwrites an earlier one where it stands. */
  lemma {:induction false} LastVerdictWins(conditions: seq<Condition>, a: Condition, b: Condition)
    requires a.kind == b.kind
    ensures SetStatusCondition(SetStatusCondition(conditions, a), b) == SetStatusCondition(conditions, b)
  {
    if conditions != [] && conditions[0].kind != a.kind {
      LastVerdictWins(conditions[1..], a, b);
      assert SetStatusCondition(conditions, a)[1..] == SetStatusCondition(conditions[1..], a);
    } else if conditions != [] {
      assert SetStatusCondition(conditions, a)[1..] == conditions[1..];
    }
  }

  lemma {:induction false} SameVerdictAgain(conditions: seq<Condition>, c: Condition)
    requires FindStatusCondition(conditions, c.kind) == Some(c)
    ensures SetStatusCondition(conditions, c) == conditions
  {
    if conditions[0].kind != c.kind {
      SameVerdictAgain(conditions[1..], c);
    }
  }

  // ----- Reads -----

  lemma MoveKeepsGoal(w: World, k: Key, f: Flight)
    requires UpToDate(IrOf(w, k), RunsOf(w.runs, k), ConfigInForce(w), Some(f))
    ensures InStep(Fly(w, k, f), k) && GoalOf(Fly(w, k, f), k) == GoalOf(w, k) && Here(Fly(w, k, f), k) == Here(w, k)
  {
  }

  /** Entering Reconcile with a fresh copy; whoever leaves it at once has nothing to do. */
  lemma FreshCopy(ir: InternalRequest, runs: map<Ref, Run>, c: Config)
    ensures UpToDate(Some(ir), runs, c, Some(AtFinalizers(ir)))
    ensures AtFinalizers(ir).Returned? ==> Goal(Some(ir), runs, c) == Destiny(Some(DigestOf(ir)), Unfinished(runs))
  {
    if Held(ir) {
      assert ir.finalizers + {FINALIZER} == ir.finalizers;
    }
  }

  lemma FetchKeepsGoal(w: World, k: Key, i: Input)
    requires FlightOf(w, k) == Some(Fetching)
    ensures var w' := DoFetch(w, k, i);
      && InStep(w', k) && GoalOf(w', k) == GoalOf(w, k)
      && (i.outcome == Ok && w'.flights[k].Returned? ==> Here(w', k) == GoalOf(w, k))
  {
    if i.outcome == Ok && k in w.irs {
      FreshCopy(w.irs[k], RunsOf(w.runs, k), ConfigInForce(w));
      MoveKeepsGoal(w, k, AtFinalizers(w.irs[k]));
    } else {
      MoveKeepsGoal(w, k, Returned(i.outcome != Ok));
    }
  }

  lemma OtherReadsKeepGoal(w: World, k: Key, i: Input)
    requires KeyOk(w, k) && InStep(w, k) && PerformEnabled(w, k, i)
    requires w.flights[k].Busy? && !Writes(w.flights[k]) && !IsList(w.flights[k])
    ensures var w' := DoPerform(w, k, i);
      InStep(w', k) && GoalOf(w', k) == GoalOf(w, k) && (i.outcome == Ok ==> !w'.flights[k].Returned?)
  {
    var Busy(call, mem, c) := w.flights[k];
    if i.outcome != Ok {
      MoveKeepsGoal(w, k, Returned(true));
    } else {
      match call {
        case FinalizeGet(ref) => MoveKeepsGoal(w, k, AtCancel(w, mem, c, if ref in w.runs then Some(ref) else None));
        case FinalizeList => MoveKeepsGoal(w, k, AtCancel(w, mem, c, Lookup(w, k, i.ref)));
        case LoadConfig => MoveKeepsGoal(w, k, AtAllowed(mem, ConfigInForce(w)));
      }
    }
  }

  lemma ListForCreateKeepsGoal(w: World, k: Key, i: Input, mem: InternalRequest, c: Config)
    requires KeyOk(w, k) && InStep(w, k) && FlightOf(w, k) == Some(Busy(ListForCreate, mem, c))
    ensures var w' := DoListForCreate(w, k, i, mem, c);
      InStep(w', k) && GoalOf(w', k) == GoalOf(w, k) && (i.outcome == Ok ==> !w'.flights[k].Returned?)
  {
    MoveKeepsGoal(w, k, Returned(true));
    MoveKeepsGoal(w, k, AfterCreateLookup(mem, c, Lookup(w, k, i.ref).Some?));
  }

  lemma ListForTrackKeepsGoal(w: World, k: Key, i: Input, mem: InternalRequest, c: Config)
    requires KeyOk(w, k) && InStep(w, k) && FlightOf(w, k) == Some(Busy(ListForTrack, mem, c))
    requires i.outcome == Ok ==> LookupEnabled(w, k, i.ref)
    ensures var w' := DoListForTrack(w, k, i, mem, c);
      InStep(w', k) && GoalOf(w', k) == GoalOf(w, k) && (i.outcome == Ok ==> !w'.flights[k].Returned?)
  {
    if i.outcome != Ok {
      MoveKeepsGoal(w, k, Returned(true));
    } else {
      TrackLookupFinds(w, k, mem, c);
      MoveKeepsGoal(w, k, AfterTrackLookup(mem, c, Some((i.ref, w.runs[i.ref]))));
    }
  }

  lemma ListTaskRunsKeepsGoal(w: World, k: Key, i: Input, mem: InternalRequest, c: Config, ref: Ref, seen: Run)
    requires KeyOk(w, k) && InStep(w, k) && FlightOf(w, k) == Some(Busy(ListTaskRuns(ref, seen), mem, c))
    requires i.outcome == Ok
    ensures var w' := DoListTaskRuns(w, k, i, mem, c, ref, seen);
      InStep(w', k) && GoalOf(w', k) == GoalOf(w, k) && !w'.flights[k].Returned?
  {
    MoveKeepsGoal(w, k, Busy(PatchTracked(ref, seen, TrackMessage(seen, Some(seen.taskRuns))), mem, c));
  }

  lemma ListForDeleteKeepsGoal(w: World, k: Key, i: Input, mem: InternalRequest, c: Config)
    requires KeyOk(w, k) && InStep(w, k) && FlightOf(w, k) == Some(Busy(ListForDelete, mem, c))
    ensures var w' := DoListForDelete(w, k, i, mem, c);
      InStep(w', k) && GoalOf(w', k) == GoalOf(w, k) && (i.outcome == Ok ==> !w'.flights[k].Returned?)
  {
    MoveKeepsGoal(w, k, Returned(true));
    MoveKeepsGoal(w, k, Busy(DeleteRun(i.ref), mem, c));
  }
}
