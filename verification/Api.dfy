/**
  The two clusters as one reconcile meets them. Each method of `Server` is one client call: first any number of steps of
  users, Tekton and other reconciles, then the call itself, which is a step of the protocol.
*/
module Api {
  import opened Common
  import opened Metrics
  import opened Requests
  import opened PipelineRuns
  import opened Admission
  import opened Protocol
  import opened Invariant
  import opened Preservation
  import opened Runs

  /** What happens around one call: steps of others before it, and the fate of the call. */
  datatype Tick = Tick(others: seq<Action>, input: Input)

  datatype Reply<+T> = Failure | Success(value: T)

  // ----- Schedules -----

  ghost predicate Leads(w: World, w': World) {
    exists actions :: Legal(w, actions) && After(w, actions) == w'
  }

  lemma {:induction false} SchedulesCompose(w: World, a: seq<Action>, b: seq<Action>)
    requires Legal(w, a) && Legal(After(w, a), b)
    ensures Legal(w, a + b) && After(w, a + b) == After(After(w, a), b)
    decreases |a|
  {
    if a == [] {
      assert a + b == b;
    } else {
      assert (a + b)[0] == a[0] && (a + b)[1..] == a[1..] + b;
      var w1 := Step(w, a[0]);
      assert After(w, a) == After(w1, a[1..]);
      SchedulesCompose(w1, a[1..], b);
      assert Legal(w, a + b);
      assert After(w, a + b) == After(w1, a[1..] + b);
    }
  }

  lemma LeadsIsTransitive(w: World, w1: World, w2: World)
    requires Leads(w, w1) && Leads(w1, w2)
    ensures Leads(w, w2)
  {
    var a :| Legal(w, a) && After(w, a) == w1;
    var b :| Legal(w1, b) && After(w1, b) == w2;
    SchedulesCompose(w, a, b);
  }

  lemma StepLeads(w: World, a: Action)
    requires Enabled(w, a)
    ensures Leads(w, Step(w, a))
  {
    assert Legal(Step(w, a), []) && [a][1..] == [];
    assert Legal(w, [a]) && After(w, [a]) == Step(w, a);
  }

  lemma LeadsKeepsReachable(w: World, w': World)
    requires Reachable(w) && Leads(w, w')
    ensures Reachable(w')
  {
    var w0, a :| Initial(w0) && Legal(w0, a) && After(w0, a) == w;
    var b :| Legal(w, b) && After(w, b) == w';
    SchedulesCompose(w0, a, b);
  }

  /** Steps that neither belong to the reconcile of `k` nor kill its process. */
  predicate Foreign(a: Action, k: Key) {
    !a.Crash? && !(a.Perform? && a.key == k) && !(a.Finish? && a.key == k) && !(a.Pick? && a.key == k)
  }

  predicate AllForeign(actions: seq<Action>, k: Key) {
    forall i :: 0 <= i < |actions| ==> Foreign(actions[i], k)
  }

  lemma ForeignCallKeepsFlight(w: World, k0: Key, i: Input, k: Key)
    requires Inv(w) && PerformEnabled(w, k0, i) && k0 != k
    ensures FlightOf(DoPerform(w, k0, i), k) == FlightOf(w, k)
    ensures DoPerform(w, k0, i).serviceNamespace == w.serviceNamespace
  {
    PerformIsolation(w, k0, i, k);
    PerformKeepsConfig(w, k0, i);
    assert View(DoPerform(w, k0, i), k) == View(w, k);
  }

  lemma ForeignStepKeepsFlight(w: World, a: Action, k: Key)
    requires Inv(w) && Enabled(w, a) && Foreign(a, k)
    ensures FlightOf(Step(w, a), k) == FlightOf(w, k) && Step(w, a).serviceNamespace == w.serviceNamespace
  {
    if a.Perform? {
      ForeignCallKeepsFlight(w, a.key, a.input, k);
    } else {
      OtherForeignStepKeepsFlight(w, a, k);
    }
  }

  lemma OtherForeignStepKeepsFlight(w: World, a: Action, k: Key)
    requires Enabled(w, a) && Foreign(a, k) && !a.Perform?
    ensures FlightOf(Step(w, a), k) == FlightOf(w, k) && Step(w, a).serviceNamespace == w.serviceNamespace
  {
  }

  lemma {:induction false} ForeignStepsKeepFlight(w: World, actions: seq<Action>, k: Key)
    requires Inv(w) && Legal(w, actions) && AllForeign(actions, k)
    ensures var w' := After(w, actions);
      Inv(w') && FlightOf(w', k) == FlightOf(w, k) && w'.serviceNamespace == w.serviceNamespace
    decreases |actions|
  {
    if actions != [] {
      ForeignStepKeepsFlight(w, actions[0], k);
      StepKeepsInv(w, actions[0]);
      ForeignStepsKeepFlight(Step(w, actions[0]), actions[1..], k);
    }
  }

  /** The world moved on from `w` to `w'` around and with calls of the reconcile of some key. */
  ghost predicate MovesOn(w: World, w': World) {
    Inv(w') && Leads(w, w') && w'.serviceNamespace == w.serviceNamespace
  }

  lemma MovesOnIsTransitive(w: World, w1: World, w2: World)
    requires MovesOn(w, w1) && MovesOn(w1, w2)
    ensures MovesOn(w, w2)
  {
    LeadsIsTransitive(w, w1, w2);
  }

  lemma NothingMoves(w: World)
    requires Inv(w)
    ensures MovesOn(w, w)
  {
    assert Legal(w, []) && After(w, []) == w;
  }

  lemma CallMovesOn(w: World, others: seq<Action>, k: Key, i: Input)
    requires Inv(w) && Legal(w, others) && AllForeign(others, k) && PerformEnabled(After(w, others), k, i)
    ensures MovesOn(w, DoPerform(After(w, others), k, i))
  {
    var v := After(w, others);
    ForeignStepsKeepFlight(w, others, k);
    PerformKeepsInv(v, k, i);
    PerformKeepsConfig(v, k, i);
    StepLeads(v, Perform(k, i));
    assert Leads(w, v);
    LeadsIsTransitive(w, v, DoPerform(v, k, i));
  }

  // ----- What each call tells the protocol, in terms of its reply -----

  /** cancelPipelineRun, up to its patch. */
  function AfterFinalizeLookup(mem: InternalRequest, c: Config, found: Option<(Ref, Run)>): Flight {
    if found.Some? && !IsDone(found.value.1) then Busy(CancelRun(found.value.0), mem, c)
    else Busy(RemoveFinalizer, mem, c)
  }

  /** The four uses of GetInternalRequestPipelineRun. */
  predicate LooksUp(call: Call) {
    call.FinalizeList? || call.ListForCreate? || call.ListForTrack? || call.ListForDelete?
  }

  function AfterLookup(call: Call, mem: InternalRequest, c: Config, found: Option<(Ref, Run)>): Flight
    requires LooksUp(call) && (call.ListForDelete? ==> found.Some?)
  {
    match call
    case FinalizeList => AfterFinalizeLookup(mem, c, found)
    case ListForCreate => AfterCreateLookup(mem, c, found.Some?)
    case ListForTrack => AfterTrackLookup(mem, c, found)
    case _ => Busy(DeleteRun(found.value.0), mem, c)
  }

  function AfterStatusPatch(call: Call, stored: InternalRequest, c: Config): Flight {
    if call.PatchRejected? then Returned(false)
    else if call.PatchRunning? then AtTracked(stored, c)
    else AtDeleted(stored, c)
  }

  function FoundRun(w: World, k: Key, pick: Ref): Option<(Ref, Run)>
    requires LookupEnabled(w, k, pick)
  {
    if RunsOf(w.runs, k) == map[] then None else Some((pick, RunsOf(w.runs, k)[pick]))
  }

  /** One of the runs that carry the labels of `k`, or nothing if there is none. */
  predicate IsLookup(w: World, k: Key, found: Option<(Ref, Run)>) {
    match found
    case None => RunsOf(w.runs, k) == map[]
    case Some((ref, run)) => ref in RunsOf(w.runs, k) && RunsOf(w.runs, k)[ref] == run
  }

  lemma FinalizeListFlight(w: World, k: Key, i: Input, mem: InternalRequest, c: Config)
    requires i.outcome == Ok && LookupEnabled(w, k, i.ref)
    ensures DoFinalizeList(w, k, i, mem, c) == Fly(w, k, AfterFinalizeLookup(mem, c, FoundRun(w, k, i.ref)))
  {
  }

  lemma ListForTrackFlight(w: World, k: Key, i: Input, mem: InternalRequest, c: Config)
    requires i.outcome == Ok && LookupEnabled(w, k, i.ref)
    ensures DoListForTrack(w, k, i, mem, c) == Fly(w, k, AfterTrackLookup(mem, c, FoundRun(w, k, i.ref)))
  {
  }

  lemma LookupFlight(w: World, k: Key, i: Input)
    requires KeyOk(w, k) && PerformEnabled(w, k, i) && w.flights[k].Busy? && LooksUp(w.flights[k].call)
    requires i.outcome == Ok
    ensures LookupEnabled(w, k, i.ref)
    ensures w.flights[k].call.ListForDelete? ==> FoundRun(w, k, i.ref).Some?
    ensures var Busy(call, mem, c) := w.flights[k];
      FlightOf(DoPerform(w, k, i), k) == Some(AfterLookup(call, mem, c, FoundRun(w, k, i.ref)))
  {
    var Busy(call, mem, c) := w.flights[k];
    if call.FinalizeList? {
      FinalizeListFlight(w, k, i, mem, c);
    } else if call.ListForTrack? {
      ListForTrackFlight(w, k, i, mem, c);
    }
  }

  lemma LookupIsFresh(w: World, k: Key, i: Input)
    requires PerformEnabled(w, k, i) && w.flights[k].Busy? && LooksUp(w.flights[k].call) && LookupEnabled(w, k, i.ref)
    ensures IsLookup(DoPerform(w, k, i), k, FoundRun(w, k, i.ref))
  {
    ReadsOnlyMove(w, k, i);
    assert IsLookup(w, k, FoundRun(w, k, i.ref));
  }

  lemma FailedReadReturns(w: World, k: Key, i: Input)
    requires PerformEnabled(w, k, i) && i.outcome != Ok
    requires w.flights[k].Busy? ==> LooksUp(w.flights[k].call) || w.flights[k].call.FinalizeGet? || w.flights[k].call.LoadConfig?
    ensures FlightOf(DoPerform(w, k, i), k) == Some(Returned(true))
  {
  }

  lemma StatusPatchFlight(w: World, k: Key, i: Input)
    requires KeyOk(w, k) && PerformEnabled(w, k, i) && PatchesStatus(w.flights[k])
    ensures k in DoPerform(w, k, i).irs && DoPerform(w, k, i).irs[k].key == k
    ensures i.outcome == Ok ==> DoPerform(w, k, i).irs[k].status == Marking(w.flights[k], i.now).status
    ensures var Busy(call, mem, c) := w.flights[k];
      FlightOf(DoPerform(w, k, i), k) == Some(
        if i.outcome == Ok then AfterStatusPatch(call, DoPerform(w, k, i).irs[k], c) else Returned(true))
  {
    assert k in w.irs && w.irs[k].key == k && w.irs[k].status == w.flights[k].mem.status;
    MergeOfOwnCopy(w.flights[k].mem.status, Marking(w.flights[k], i.now).status);
    PatchesMark(w, k, i);
  }

  lemma FinalizerPatchFlight(w: World, k: Key, i: Input, mem: InternalRequest)
    requires k in w.irs ==> w.irs[k].key == k
    ensures var w' := DoAddFinalizer(w, k, i, mem);
      && (i.outcome == Ok && Accepts(w, k, mem.finalizers + {FINALIZER}) ==>
            k in w'.irs && w'.irs[k].key == k && Held(w'.irs[k]) && FlightOf(w', k) == Some(AtNotCompleted(w'.irs[k])))
      && (!(i.outcome == Ok && Accepts(w, k, mem.finalizers + {FINALIZER})) ==> FlightOf(w', k) == Some(Returned(true)))
    ensures var w' := DoRemoveFinalizer(w, k, i, mem);
      && FlightOf(w', k) == Some(Returned(true))
      && (i.outcome == Ok && PatchFinalizers(IrOf(w, k), mem.finalizers - {FINALIZER}) != Refused ==>
            !(k in w'.irs && Held(w'.irs[k])))
  {
  }

  /** The patched object survives its patch. */
  predicate Accepts(w: World, k: Key, finalizers: set<string>) {
    PatchFinalizers(IrOf(w, k), finalizers).Stored?
  }

  const NO_RUN := Run(map[], map[], [], "", "", [], false, None, [], [])

  class Server {
    var world: World
    var script: seq<Tick>

    constructor (world: World, script: seq<Tick>)
      ensures this.world == world && this.script == script
    {
      this.world, this.script := world, script;
    }

    /** What a reconcile reads from the clock before its next call. */
    function Clock(): int
      reads this
    {
      if script == [] then 0 else script[0].input.now
    }

    ghost predicate Due(k: Key, f: Flight)
      reads this
    {
      Inv(world) && FlightOf(world, k) == Some(f)
    }

    /** Steps of others, then the due call of `k`; a tick that does not fit the world counts as a lost call. */
    method Perform(k: Key, run: Option<Run>) returns (seen: World, i: Input)
      requires Inv(world) && k in world.flights && !world.flights[k].Returned?
      modifies this
      ensures Inv(seen) && FlightOf(seen, k) == old(FlightOf(world, k)) && PerformEnabled(seen, k, i)
      ensures world == DoPerform(seen, k, i) && MovesOn(old(world), world)
      ensures i.now == old(Clock()) && (run.Some? ==> i.run == run.value)
    {
      var tick := if script == [] then Tick([], Input(Lost, 0, k, NO_RUN)) else script[0];
      script := if script == [] then [] else script[1..];
      var others := if AllForeign(tick.others, k) && Legal(world, tick.others) then tick.others else [];
      seen := After(world, others);
      ForeignStepsKeepFlight(world, others, k);
      i := if run.Some? then tick.input.(run := run.value) else tick.input;
      if !PerformEnabled(seen, k, i) {
        i := i.(outcome := Lost);
      }
      CallMovesOn(world, others, k, i);
      world := DoPerform(seen, k, i);
    }

    /** Client.Get of the request. */
    method GetRequest(k: Key) returns (reply: Reply<Option<InternalRequest>>)
      requires Due(k, Fetching)
      modifies this
      ensures MovesOn(old(world), world)
      ensures reply.Success? ==> reply.value == IrOf(world, k) && (reply.value.Some? ==> reply.value.value.key == k)
      ensures Due(k, match reply
                     case Failure => Returned(true)
                     case Success(None) => Returned(false)
                     case Success(Some(ir)) => AtFinalizers(ir))
    {
      var seen, i := Perform(k, None);
      assert KeyOk(seen, k);
      if i.outcome != Ok { return Failure; }
      reply := Success(IrOf(seen, k));
    }

    /** InternalClient.Get of a run by name. */
    method GetRun(k: Key, ref: Ref, ghost mem: InternalRequest, ghost c: Config) returns (reply: Reply<Option<(Ref, Run)>>)
      requires Due(k, Busy(FinalizeGet(ref), mem, c))
      modifies this
      ensures MovesOn(old(world), world)
      ensures reply.Success? ==>
        reply.value == if ref in world.runs then Some((ref, world.runs[ref])) else None
      ensures Due(k, if reply.Failure? then Returned(true) else AfterFinalizeLookup(mem, c, reply.value))
    {
      var seen, i := Perform(k, None);
      if i.outcome != Ok {
        FailedReadReturns(seen, k, i);
        return Failure;
      }
      reply := Success(if ref in seen.runs then Some((ref, seen.runs[ref])) else None);
    }

    /** loader.GetInternalRequestPipelineRun: List by labels with Limit(1). */
    method GetInternalRequestPipelineRun(k: Key, ghost call: Call, ghost mem: InternalRequest, ghost c: Config)
      returns (reply: Reply<Option<(Ref, Run)>>)
      requires LooksUp(call) && Due(k, Busy(call, mem, c))
      modifies this
      ensures MovesOn(old(world), world)
      ensures reply.Success? ==> IsLookup(world, k, reply.value) && (call.ListForDelete? ==> reply.value.Some?)
      ensures Due(k, if reply.Failure? then Returned(true) else AfterLookup(call, mem, c, reply.value))
    {
      var seen, i := Perform(k, None);
      assert KeyOk(seen, k);
      if i.outcome != Ok {
        FailedReadReturns(seen, k, i);
        return Failure;
      }
      LookupFlight(seen, k, i);
      LookupIsFresh(seen, k, i);
      reply := Success(FoundRun(seen, k, i.ref));
    }

    /** Patch of a run to the Cancelled state. */
    method CancelRun(k: Key, ref: Ref, ghost mem: InternalRequest, ghost c: Config) returns (ok: bool)
      requires Due(k, Busy(Call.CancelRun(ref), mem, c))
      modifies this
      ensures MovesOn(old(world), world)
      ensures ok ==> ref in world.runs && world.runs[ref].cancelled
      ensures Due(k, if ok then Busy(RemoveFinalizer, mem, c) else Returned(true))
    {
      var seen, i := Perform(k, None);
      ok := i.outcome == Ok && ref in seen.runs;
    }

    /** Patch that removes the finalizer, after the goroutine with `spawned` was started. */
    method PatchFinalizerAway(k: Key, finalizers: set<string>, spawned: seq<Update>,
                              ghost mem: InternalRequest, ghost c: Config) returns (ok: bool)
      requires Due(k, Busy(RemoveFinalizer, mem, c))
      requires finalizers == mem.finalizers - {FINALIZER} && spawned == DeletionUpdates(mem)
      modifies this
      ensures MovesOn(old(world), world)
      ensures ok ==> !(k in world.irs && Held(world.irs[k]))
      ensures Due(k, Returned(true))
    {
      var seen, i := Perform(k, None);
      FinalizerKeys(seen, k);
      FinalizerPatchFlight(seen, k, i, mem);
      ok := i.outcome == Ok && PatchFinalizers(IrOf(seen, k), finalizers) != Refused;
    }

    /** Patch that adds the finalizer; the reply is the stored object. */
    method PatchFinalizerIn(k: Key, finalizers: set<string>, ghost mem: InternalRequest, ghost c: Config)
      returns (reply: Reply<InternalRequest>)
      requires Due(k, Busy(AddFinalizer, mem, c)) && finalizers == mem.finalizers + {FINALIZER}
      modifies this
      ensures MovesOn(old(world), world)
      ensures reply.Success? ==> Some(reply.value) == IrOf(world, k) && reply.value.key == k && Held(reply.value)
      ensures Due(k, if reply.Failure? then Returned(true) else AtNotCompleted(reply.value))
    {
      var seen, i := Perform(k, None);
      FinalizerKeys(seen, k);
      FinalizerPatchFlight(seen, k, i, mem);
      if i.outcome == Ok && Accepts(seen, k, finalizers) {
        return Success(world.irs[k]);
      }
      return Failure;
    }

    /** loader.GetInternalServicesConfig. */
    method GetInternalServicesConfig(k: Key, ghost mem: InternalRequest, ghost c: Config)
      returns (reply: Reply<Option<Config>>)
      requires Due(k, Busy(LoadConfig, mem, c))
      modifies this
      ensures MovesOn(old(world), world)
      ensures reply.Success? ==> reply.value == world.config
      ensures Due(k, match reply
                     case Failure => Returned(true)
                     case Success(None) => AtAllowed(mem, DefaultConfig(world.serviceNamespace))
                     case Success(Some(config)) => AtAllowed(mem, config))
    {
      var seen, i := Perform(k, None);
      if i.outcome != Ok {
        FailedReadReturns(seen, k, i);
        return Failure;
      }
      reply := Success(seen.config);
    }

    /** Status().Patch from `mem` to a marked copy, after the goroutine with its updates was started. */
    method PatchRequestStatus(k: Key, marked: Marked, ghost call: Call, ghost mem: InternalRequest, ghost c: Config)
      returns (reply: Reply<InternalRequest>)
      requires Due(k, Busy(call, mem, c)) && PatchesStatus(Busy(call, mem, c))
      requires marked == Marking(Busy(call, mem, c), Clock())
      modifies this
      ensures MovesOn(old(world), world)
      ensures reply.Success? ==>
        Some(reply.value) == IrOf(world, k) && reply.value.key == k && reply.value.status == marked.status
      ensures Due(k, if reply.Failure? then Returned(true) else AfterStatusPatch(call, reply.value, c))
    {
      var seen, i := Perform(k, None);
      assert KeyOk(seen, k);
      StatusPatchFlight(seen, k, i);
      if i.outcome != Ok { return Failure; }
      reply := Success(world.irs[k]);
    }

    /** Create of a run; the server picks the name. */
    method CreateRun(k: Key, run: Run, ghost mem: InternalRequest, ghost c: Config) returns (reply: Reply<Ref>)
      requires Due(k, Busy(Call.CreateRun, mem, c)) && BuiltFrom(run, mem)
      modifies this
      ensures MovesOn(old(world), world)
      ensures reply.Success? ==> reply.value in world.runs && world.runs[reply.value] == run
      ensures Due(k, if reply.Failure? then Returned(true) else Busy(PatchRunning, mem, c))
    {
      var seen, i := Perform(k, Some(run));
      if i.outcome != Ok { return Failure; }
      reply := Success(i.ref);
    }

    /** loader.GetInternalRequestPipelineRunTaskRuns; None when the List fails. */
    method ListTaskRuns(k: Key, ref: Ref, ghost seenRun: Run, ghost mem: InternalRequest, ghost c: Config)
      returns (listing: Option<seq<TaskRun>>)
      requires Due(k, Busy(Call.ListTaskRuns(ref, seenRun), mem, c)) && IsDone(seenRun)
      modifies this
      ensures MovesOn(old(world), world)
      ensures listing.Some? ==> listing.value == if ref in world.runs then world.runs[ref].taskRuns else []
      ensures Due(k, Busy(PatchTracked(ref, seenRun, TrackMessage(seenRun, listing)), mem, c))
    {
      var seen, i := Perform(k, None);
      listing := if i.outcome != Ok then None else if ref in seen.runs then Some(seen.runs[ref].taskRuns) else Some([]);
    }

    method DeleteRun(k: Key, ref: Ref, ghost mem: InternalRequest, ghost c: Config) returns (ok: bool)
      requires Due(k, Busy(Call.DeleteRun(ref), mem, c))
      modifies this
      ensures MovesOn(old(world), world)
      ensures ok ==> ref !in world.runs
      ensures Due(k, Returned(!ok))
    {
      var seen, i := Perform(k, None);
      ok := i.outcome == Ok && ref in seen.runs;
    }
  }

  lemma FinalizerKeys(w: World, k: Key)
    requires Inv(w)
    ensures k in w.irs ==> w.irs[k].key == k
  {
    assert KeyOk(w, k);
  }
}
