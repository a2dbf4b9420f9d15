/** Every reconcile ends after a bounded number of calls, and one without failures is always possible. */
module Progress {
  import opened Common
  import opened Requests
  import opened PipelineRuns
  import opened Admission
  import opened Protocol
  import opened Invariant
  import opened Runs
  import opened Api
  import opened Convergence

  /** An upper bound on the calls a reconcile still has to make. */
  function Rank(f: Flight): nat {
    match f
    case Fetching => 11
    case Returned(_) => 0
    case Busy(call, _, _) =>
      match call
      case AddFinalizer => 10
      case LoadConfig => 9
      case ListForCreate => 8
      case CreateRun => 7
      case PatchRunning => 6
      case ListForTrack => 5
      case ListTaskRuns(_, _) => 4
      case PatchTracked(_, _, _) => 3
      case ListForDelete => 2
      case DeleteRun(_) => 1
      case PatchRejected(_) => 1
      case FinalizeGet(_) => 3
      case FinalizeList => 3
      case CancelRun(_) => 2
      case RemoveFinalizer => 1
  }

  /** The reconcile of `k` has fewer than `n` calls left. */
  predicate Below(w: World, k: Key, n: nat) { k in w.flights && Rank(w.flights[k]) < n }

  lemma LateOperations(mem: InternalRequest, c: Config, found: Option<(Ref, Run)>)
    ensures Rank(AtDeleted(mem, c)) <= 2 && Rank(AfterTrackLookup(mem, c, found)) <= 4
    ensures Rank(AfterCreateLookup(mem, c, true)) <= 6 && Rank(AfterCreateLookup(mem, c, false)) == 7
    ensures Rank(AtAllowed(mem, c)) <= 8
  {
  }

  lemma EarlyOperations(w: World, mem: InternalRequest, c: Config, found: Option<Ref>)
    ensures Rank(AtNotCompleted(mem)) <= 9 && Rank(AtFinalizers(mem)) <= 10 && Rank(AtCancel(w, mem, c, found)) <= 2
  {
  }

  lemma FetchLowersRank(w: World, k: Key, i: Input)
    ensures Below(DoFetch(w, k, i), k, 11)
  {
    if k in w.irs { EarlyOperations(w, w.irs[k], DefaultConfig(""), None); }
  }

  lemma FinalizeGetLowersRank(w: World, k: Key, i: Input, mem: InternalRequest, c: Config, ref: Ref)
    ensures Below(DoFinalizeGet(w, k, i, mem, c, ref), k, 3) && Below(DoCancelRun(w, k, i, mem, c, ref), k, 2)
  {
    EarlyOperations(w, mem, c, if ref in w.runs then Some(ref) else None);
  }

  lemma FinalizeListLowersRank(w: World, k: Key, i: Input, mem: InternalRequest, c: Config)
    ensures Below(DoFinalizeList(w, k, i, mem, c), k, 3)
  {
    Flown(w, k, Returned(true), 3);
    EarlyOperations(w, mem, c, Lookup(w, k, i.ref));
    Flown(w, k, AtCancel(w, mem, c, Lookup(w, k, i.ref)), 3);
  }

  lemma FinalizerPatchesLowerRank(w: World, k: Key, i: Input, mem: InternalRequest)
    ensures Below(DoRemoveFinalizer(w, k, i, mem), k, 1) && Below(DoAddFinalizer(w, k, i, mem), k, 10)
  {
    var p := PatchFinalizers(IrOf(w, k), mem.finalizers + {FINALIZER});
    if p.Stored? { EarlyOperations(w, p.ir, DefaultConfig(""), None); }
  }

  lemma ListForCreateLowersRank(w: World, k: Key, i: Input, mem: InternalRequest, c: Config)
    ensures Below(DoListForCreate(w, k, i, mem, c), k, 8)
  {
    LateOperations(mem, c, None);
  }

  lemma Flown(w: World, k: Key, f: Flight, n: nat)
    requires Rank(f) < n
    ensures Below(Fly(w, k, f), k, n)
  {
  }

  lemma ListForTrackLowersRank(w: World, k: Key, i: Input, mem: InternalRequest, c: Config)
    ensures Below(DoListForTrack(w, k, i, mem, c), k, 5)
  {
    Flown(w, k, Returned(true), 5);
    if i.outcome == Ok {
      var found := Lookup(w, k, i.ref);
      var seen := if found.Some? && found.value in w.runs then Some((found.value, w.runs[found.value])) else None;
      LateOperations(mem, c, seen);
      Flown(w, k, AfterTrackLookup(mem, c, seen), 5);
    }
  }

  lemma ListTaskRunsLowersRank(w: World, k: Key, i: Input, mem: InternalRequest, c: Config, ref: Ref, seen: Run)
    ensures Below(DoListTaskRuns(w, k, i, mem, c, ref, seen), k, 4)
  {
  }

  lemma ListForDeleteLowersRank(w: World, k: Key, i: Input, mem: InternalRequest, c: Config)
    ensures Below(DoListForDelete(w, k, i, mem, c), k, 2)
  {
    Flown(w, k, Returned(true), 2);
    Flown(w, k, Busy(DeleteRun(i.ref), mem, c), 2);
  }

  lemma RunWritesLowerRank(w: World, k: Key, i: Input, mem: InternalRequest, c: Config, ref: Ref)
    ensures Below(DoCreateRun(w, k, i, mem, c), k, 7) && Below(DoDeleteRun(w, k, i, ref), k, 1)
  {
  }

  lemma FirstPatchesLowerRank(w: World, k: Key, i: Input, mem: InternalRequest, c: Config, message: string)
    ensures Below(DoPatchRejected(w, k, i, mem, message), k, 1) && Below(DoPatchRunning(w, k, i, mem, c), k, 6)
  {
  }

  lemma PatchTrackedLowersRank(w: World, k: Key, i: Input, mem: InternalRequest, c: Config,
                               ref: Ref, seen: Run, message: string)
    ensures Below(DoPatchTracked(w, k, i, mem, c, ref, seen, message), k, 3)
  {
    var irs := PatchStatus(w.irs, k, mem, Tracked(mem, ref, seen, message, i.now).status, i.outcome);
    if k in irs { LateOperations(irs[k], c, None); }
  }

  lemma LoadConfigLowersRank(w: World, k: Key, i: Input, mem: InternalRequest)
    ensures Below(DoLoadConfig(w, k, i, mem), k, 9)
  {
    LateOperations(mem, if w.config.Some? then w.config.value else DefaultConfig(w.serviceNamespace), None);
  }

  /** Every call, failed or not, brings the reconcile closer to its end. */
  lemma CallLowersRank(w: World, k: Key, i: Input)
    requires PerformEnabled(w, k, i)
    ensures Below(DoPerform(w, k, i), k, Rank(w.flights[k]))
  {
    match w.flights[k]
    case Fetching => FetchLowersRank(w, k, i);
    case Busy(call, mem, c) =>
      match call {
        case FinalizeGet(ref) => FinalizeGetLowersRank(w, k, i, mem, c, ref);
        case FinalizeList => FinalizeListLowersRank(w, k, i, mem, c);
        case CancelRun(ref) => FinalizeGetLowersRank(w, k, i, mem, c, ref);
        case RemoveFinalizer => FinalizerPatchesLowerRank(w, k, i, mem);
        case AddFinalizer => FinalizerPatchesLowerRank(w, k, i, mem);
        case LoadConfig => LoadConfigLowersRank(w, k, i, mem);
        case PatchRejected(message) => FirstPatchesLowerRank(w, k, i, mem, c, message);
        case PatchRunning => FirstPatchesLowerRank(w, k, i, mem, c, "");
        case PatchTracked(ref, seen, message) => PatchTrackedLowersRank(w, k, i, mem, c, ref, seen, message);
        case ListForCreate => ListForCreateLowersRank(w, k, i, mem, c);
        case ListForTrack => ListForTrackLowersRank(w, k, i, mem, c);
        case ListTaskRuns(ref, seen) => ListTaskRunsLowersRank(w, k, i, mem, c, ref, seen);
        case ListForDelete => ListForDeleteLowersRank(w, k, i, mem, c);
        case CreateRun => RunWritesLowerRank(w, k, i, mem, c, k);
        case DeleteRun(ref) => RunWritesLowerRank(w, k, i, mem, c, ref);
      }
  }

  /** The calls of one reconcile of `k`, each with any outcome, and nothing in between. */
  predicate Calls(w: World, k: Key, inputs: seq<Input>)
    decreases |inputs|
  {
    inputs == [] || (PerformEnabled(w, k, inputs[0]) && Calls(DoPerform(w, k, inputs[0]), k, inputs[1..]))
  }

  lemma {:induction false} ReconcileTerminates(w: World, k: Key, inputs: seq<Input>)
    requires k in w.flights && Calls(w, k, inputs)
    ensures |inputs| <= Rank(w.flights[k])
    decreases |inputs|
  {
    if inputs != [] {
      CallLowersRank(w, k, inputs[0]);
      ReconcileTerminates(DoPerform(w, k, inputs[0]), k, inputs[1..]);
    }
  }

  // ----- With everybody else in between -----

  /** The calls of the reconcile of `k` in a schedule. */
  function CallsOf(actions: seq<Action>, k: Key): nat {
    if actions == [] then 0 else Bit(actions[0].Perform? && actions[0].key == k) + CallsOf(actions[1..], k)
  }

  /** Neither the process nor the reconcile of `k` ends. */
  predicate Within(actions: seq<Action>, k: Key) {
    forall i :: 0 <= i < |actions| ==> !actions[i].Crash? && !(actions[i].Finish? && actions[i].key == k)
  }

  lemma StepLowersRank(w: World, a: Action, k: Key)
    requires Inv(w) && Enabled(w, a) && k in w.flights && !a.Crash? && !(a.Finish? && a.key == k)
    ensures k in Step(w, a).flights
    ensures Rank(Step(w, a).flights[k]) + Bit(a.Perform? && a.key == k) <= Rank(w.flights[k])
  {
    if a.Perform? && a.key == k {
      CallLowersRank(w, k, a.input);
    } else {
      ForeignStepKeepsFlight(w, a, k);
      assert FlightOf(Step(w, a), k) == FlightOf(w, k);
    }
  }

  lemma {:induction false} CallsAreBounded(w: World, actions: seq<Action>, k: Key)
    requires Inv(w) && Legal(w, actions) && k in w.flights && Within(actions, k)
    ensures k in After(w, actions).flights
    ensures CallsOf(actions, k) + Rank(After(w, actions).flights[k]) <= Rank(w.flights[k])
    decreases |actions|
  {
    if actions != [] {
      StepKeepsInv(w, actions[0]);
      StepLowersRank(w, actions[0], k);
      CallsAreBounded(Step(w, actions[0]), actions[1..], k);
    }
  }

  /** From the moment a worker picks a key until its reconcile ends, it makes at most 11 calls, whatever else happens. */
  lemma ReconcileIsBounded(w: World, k: Key, actions: seq<Action>)
    requires Reachable(w) && Enabled(w, Pick(k)) && Legal(Step(w, Pick(k)), actions) && Within(actions, k)
    ensures CallsOf(actions, k) <= 11
  {
    ReachableIsSound(w);
    StepKeepsInv(w, Pick(k));
    CallsAreBounded(Step(w, Pick(k)), actions, k);
  }

  // ----- The servers can always answer -----

  /** A name longer than all the given ones. */
  ghost function LongName(taken: set<Ref>): (name: string)
    ensures forall r :: r in taken ==> |r.name| < |name|
  {
    if taken == {} then "x"
    else
      var r :| r in taken;
      "x" + LongName(taken - {r}) + r.name
  }

  lemma {:induction false} SomeEnumeration(m: map<string, string>) returns (params: seq<Param>)
    ensures Enumerates(params, m)
    decreases |m|
  {
    params := [];
    if m != map[] {
      var x :| x in m;
      var rest := m - {x};
      assert m.Keys == rest.Keys + {x};
      assert |m| == |m.Keys| && |rest| == |rest.Keys|;
      var params' := SomeEnumeration(rest);
      params := [Param(x, m[x])] + params';
    }
  }

  /** Some successful answer to the call that is due. */
  lemma SomeAnswer(w: World, k: Key) returns (i: Input)
    requires k in w.flights && !w.flights[k].Returned?
    ensures PerformEnabled(w, k, i) && i.outcome == Ok
  {
    var nobody := Run(map[], map[], [], "", "", [], false, None, [], []);
    if w.flights[k].Busy? && w.flights[k].call.CreateRun? {
      var Busy(_, mem, c) := w.flights[k];
      var params := SomeEnumeration(mem.spec.params);
      var run := nobody.(labels := SystemLabels(mem), annotations := OwnerAnnotations(mem), params := params,
                         serviceAccount := mem.spec.serviceAccount, resolver := mem.spec.resolver,
                         refParams := RefParams(mem.key.namespace, mem.spec));
      i := Input(Ok, 0, NamespacedName(c.namespace, LongName(w.history.births.Keys)), run);
    } else if RunsOf(w.runs, k) != map[] {
      var r :| r in RunsOf(w.runs, k);
      i := Input(Ok, 0, r, nobody);
    } else {
      i := Input(Ok, 0, k, nobody);
    }
  }

  lemma {:induction false} SomeReconcile(w: World, k: Key) returns (inputs: seq<Input>)
    requires k in w.flights
    ensures FailureFree(w, k, inputs)
    decreases Rank(w.flights[k])
  {
    inputs := [];
    if !w.flights[k].Returned? {
      var i := SomeAnswer(w, k);
      CallLowersRank(w, k, i);
      var inputs' := SomeReconcile(DoPerform(w, k, i), k);
      inputs := [i] + inputs';
    }
  }

  /** From every world, a reconcile that has begun can complete without failures, and left alone it makes at most 11 calls. */
  lemma ReconcileCanSucceed(w: World, k: Key)
    requires FlightOf(w, k) == Some(Fetching)
    ensures exists inputs :: FailureFree(w, k, inputs)
    ensures forall inputs :: Calls(w, k, inputs) ==> |inputs| <= 11
  {
    var inputs := SomeReconcile(w, k);
    forall inputs | Calls(w, k, inputs) ensures |inputs| <= 11 {
      ReconcileTerminates(w, k, inputs);
    }
  }
}
