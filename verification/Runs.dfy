/** The invariant holds in every world any schedule can reach. */
module Runs {
  import opened References
  import opened Requests
  import opened PipelineRuns
  import opened Admission
  import opened Protocol
  import opened Invariant
  import opened EnvironmentPreservation
  import opened Preservation
  import opened Accounting

  lemma InitialWorldIsSound(w: World)
    requires Initial(w)
    ensures Inv(w)
  {
    assert ActiveKeys(w.irs) == {};
  }

  // ----- Performing a call -----

  lemma PerformKeepsKey(w: World, k: Key, i: Input)
    requires Inv(w) && PerformEnabled(w, k, i)
    ensures KeyOk(DoPerform(w, k, i), k) && DoPerform(w, k, i).panics == w.panics
  {
    var f := w.flights[k];
    assert KeyOk(w, k);
    if PatchesStatus(f) {
      PatchesKeepKey(w, k, i);
      PatchKeepsAccounts(w, k, i);
    } else if Writes(f) {
      WritesKeepKey(w, k, i);
      OtherWritesKeepAccounts(w, k, i);
    } else if IsList(f) {
      ListsKeepKey(w, k, i);
    } else {
      FinalizeReadsKeepKey(w, k, i);
    }
  }

  /** What a write other than a status patch leaves alone. */
  predicate Framed(w: World, w': World, spawns: bool, creates: bool) {
    && w'.serviceNamespace == w.serviceNamespace && w'.config == w.config && w'.up == w.up && w'.irs.Keys <= w.irs.Keys
    && (!spawns ==> w'.meters == w.meters) && (!creates ==> w'.history.births == w.history.births)
  }

  lemma FinalizerWritesAreFramed(w: World, k: Key, i: Input, mem: InternalRequest)
    ensures Framed(w, DoRemoveFinalizer(w, k, i, mem), true, false)
    ensures Framed(w, DoAddFinalizer(w, k, i, mem), false, false)
  {
  }

  lemma RunWritesAreFramed(w: World, k: Key, i: Input, mem: InternalRequest, c: Config, ref: Ref)
    ensures Framed(w, DoCancelRun(w, k, i, mem, c, ref), false, false)
    ensures Framed(w, DoCreateRun(w, k, i, mem, c), false, i.outcome != Lost)
    ensures Framed(w, DoDeleteRun(w, k, i, ref), false, false)
  {
  }

  lemma OtherWritesAreFramed(w: World, k: Key, i: Input)
    requires PerformEnabled(w, k, i) && Writes(w.flights[k]) && !PatchesStatus(w.flights[k])
    ensures var call := w.flights[k].call;
      Framed(w, DoPerform(w, k, i), call.RemoveFinalizer?, call.CreateRun? && i.outcome != Lost)
  {
    var Busy(call, mem, c) := w.flights[k];
    match call {
      case RemoveFinalizer => FinalizerWritesAreFramed(w, k, i, mem);
      case AddFinalizer => FinalizerWritesAreFramed(w, k, i, mem);
      case CancelRun(ref) => RunWritesAreFramed(w, k, i, mem, c, ref);
      case CreateRun => RunWritesAreFramed(w, k, i, mem, c, i.ref);
      case DeleteRun(ref) => RunWritesAreFramed(w, k, i, mem, c, ref);
    }
  }

  lemma PerformKeepsConfig(w: World, k: Key, i: Input)
    requires PerformEnabled(w, k, i)
    ensures ConfigOk(w) ==> ConfigOk(DoPerform(w, k, i))
    ensures DoPerform(w, k, i).serviceNamespace == w.serviceNamespace && DoPerform(w, k, i).config == w.config
  {
    var f := w.flights[k];
    if !Writes(f) {
      ReadsOnlyMove(w, k, i);
    } else if PatchesStatus(f) {
      PatchesMark(w, k, i);
      assert DoPerform(w, k, i).irs.Keys == w.irs.Keys;
    } else {
      OtherWritesAreFramed(w, k, i);
    }
  }

  lemma PerformKeepsOtherKey(w: World, k: Key, i: Input, k': Key)
    requires Inv(w) && PerformEnabled(w, k, i) && k' != k
    ensures KeyOk(DoPerform(w, k, i), k')
  {
    assert KeyOk(w, k');
    PerformIsolation(w, k, i, k');
    PerformKeepsConfig(w, k, i);
    SameViewKeepsKey(w, DoPerform(w, k, i), k');
  }

  lemma PerformKeepsInv(w: World, k: Key, i: Input)
    requires Inv(w) && PerformEnabled(w, k, i)
    ensures Inv(DoPerform(w, k, i))
  {
    var w' := DoPerform(w, k, i);
    forall k' ensures KeyOk(w', k') {
      if k' == k {
        PerformKeepsKey(w, k, i);
      } else {
        PerformKeepsOtherKey(w, k, i, k');
      }
    }
    PerformKeepsConfig(w, k, i);
    PerformKeepsKey(w, k, i);
    PerformKeepsRuns(w, k, i);
    PerformKeepsAccounts(w, k, i);
  }

  lemma SameViewKeepsKey(w: World, w': World, k: Key)
    requires KeyOk(w, k) && View(w', k) == View(w, k) && w'.serviceNamespace == w.serviceNamespace
    ensures KeyOk(w', k)
  {
  }

  // ----- The other actions -----

  /** Everything a step of one key leaves as it was, apart from that key. */
  lemma LocalStepKeepsKeys(w: World, w': World, k: Key)
    requires (forall x :: KeyOk(w, x)) && KeyOk(w', k) && w'.serviceNamespace == w.serviceNamespace
    requires forall x :: x != k ==> View(w', x) == View(w, x)
    ensures forall x :: KeyOk(w', x)
  {
    forall x ensures KeyOk(w', x) {
      assert KeyOk(w, x);
      if x != k {
        SameViewKeepsKey(w, w', x);
      }
    }
  }

  /** A step on the request of `k` that may also wake `k` and open a book for it. */
  ghost predicate RequestStep(w: World, w': World, k: Key) {
    && w' == w.(irs := w'.irs, queue := w'.queue, history := w.history.(books := w'.history.books))
    && (forall x :: x != k ==> IrOf(w', x) == IrOf(w, x) && BooksOf(w', x) == BooksOf(w, x))
    && (forall x :: x != k ==> (x in w'.queue <==> x in w.queue))
  }

  lemma RequestStepIsolation(w: World, w': World, k: Key, x: Key)
    requires RequestStep(w, w', k) && x != k
    ensures View(w', x) == View(w, x)
  {
  }

  lemma RequestStepKeepsInv(w: World, w': World, k: Key)
    requires Inv(w) && RequestStep(w, w', k) && SEPARATOR !in k.namespace
    requires KeyOk(w', k) && LedgerOk(w')
    ensures Inv(w')
  {
    forall x | x != k ensures View(w', x) == View(w, x) {
      RequestStepIsolation(w, w', k, x);
    }
    LocalStepKeepsKeys(w, w', k);
    forall x | x in w'.irs && x != k ensures SEPARATOR !in x.namespace {
      assert IrOf(w', x) == IrOf(w, x);
    }
  }

  lemma UserCreateIsRequestStep(w: World, k: Key, spec: Spec, labels: map<string, string>, finalizers: set<string>)
    ensures RequestStep(w, DoUserCreate(w, k, spec, labels, finalizers), k)
  {
  }

  lemma UserCreateKeepsInv(w: World, k: Key, spec: Spec, labels: map<string, string>, finalizers: set<string>)
    requires Inv(w) && Enabled(w, UserCreate(k, spec, labels, finalizers))
    ensures Inv(DoUserCreate(w, k, spec, labels, finalizers))
  {
    var w' := DoUserCreate(w, k, spec, labels, finalizers);
    assert KeyOk(w, k);
    UserCreateKeepsKey(w, k, spec, labels, finalizers);
    UserCreateKeepsLedger(w, k, spec, labels, finalizers);
    UserCreateIsRequestStep(w, k, spec, labels, finalizers);
    RequestStepKeepsInv(w, w', k);
  }

  lemma UserUpdateIsRequestStep(w: World, k: Key, spec: Spec, labels: map<string, string>)
    requires k in w.irs
    ensures RequestStep(w, DoUserUpdate(w, k, spec, labels), k)
  {
  }

  lemma UserUpdateKeepsInv(w: World, k: Key, spec: Spec, labels: map<string, string>)
    requires Inv(w) && k in w.irs
    ensures Inv(DoUserUpdate(w, k, spec, labels))
  {
    var w' := DoUserUpdate(w, k, spec, labels);
    assert KeyOk(w, k);
    UserUpdateKeepsKey(w, k, spec, labels);
    UserUpdateKeepsLedger(w, k, spec, labels);
    UserUpdateIsRequestStep(w, k, spec, labels);
    RequestStepKeepsInv(w, w', k);
  }

  lemma OtherFinalizersIsRequestStep(w: World, k: Key, finalizers: set<string>)
    ensures RequestStep(w, DoOtherFinalizers(w, k, finalizers), k)
  {
  }

  lemma OtherFinalizersKeepsInv(w: World, k: Key, finalizers: set<string>)
    requires Inv(w) && Enabled(w, OtherFinalizers(k, finalizers))
    ensures Inv(DoOtherFinalizers(w, k, finalizers))
  {
    var w' := DoOtherFinalizers(w, k, finalizers);
    assert KeyOk(w, k);
    OtherFinalizersKeepsKey(w, k, finalizers);
    OtherFinalizersKeepsLedger(w, k, finalizers);
    OtherFinalizersIsRequestStep(w, k, finalizers);
    RequestStepKeepsInv(w, w', k);
  }

  lemma UserDeleteIsRequestStep(w: World, k: Key)
    requires k in w.irs
    ensures RequestStep(w, DoUserDelete(w, k), k)
  {
  }

  lemma UserDeleteKeepsInv(w: World, k: Key)
    requires Inv(w) && k in w.irs
    ensures Inv(DoUserDelete(w, k))
  {
    var w' := DoUserDelete(w, k);
    assert KeyOk(w, k);
    UserDeleteKeepsKey(w, k);
    UserDeleteKeepsLedger(w, k);
    UserDeleteIsRequestStep(w, k);
    RequestStepKeepsInv(w, w', k);
  }

  lemma RunUpdateView(w: World, ref: Ref, newer: Run, k: Key, x: Key)
    requires ref in w.runs && BelongsTo(w.runs[ref], k) && BelongsTo(newer, k) && x != k
    ensures View(DoRunUpdate(w, ref, w.runs[ref], newer), x) == View(w, x)
  {
    OtherRuns(w.runs, ref, newer, k, x);
  }

  lemma RunUpdateKeepsNames(w: World, ref: Ref, newer: Run)
    requires RunsOk(w) && ref in w.runs && ref in w.history.births && MadeFrom(newer, w.history.births[ref])
    ensures RunsOk(DoRunUpdate(w, ref, w.runs[ref], newer))
  {
    var w' := DoRunUpdate(w, ref, w.runs[ref], newer);
    forall x ensures NameOk(w'.runs, w'.retired, w'.history.births, x) {
      assert NameOk(w.runs, w.retired, w.history.births, x) && NameOk(w.runs, w.retired, w.history.births, ref);
      PutKeepsNames(w.runs, w.retired, w.history.births, ref, newer, x);
    }
  }

  /** An event on a run reaches the key it was built for, and only that key. */
  lemma RunUpdateKeepsInv(w: World, ref: Ref, newer: Run)
    requires Inv(w) && ref in w.runs && !IsDone(w.runs[ref])
    requires newer == w.runs[ref].(condition := newer.condition, results := newer.results, taskRuns := newer.taskRuns)
    ensures Inv(DoRunUpdate(w, ref, w.runs[ref], newer))
    ensures WatchedBy(w.runs[ref]).Some?
    ensures forall x :: x != WatchedBy(w.runs[ref]).value ==> View(DoRunUpdate(w, ref, w.runs[ref], newer), x) == View(w, x)
  {
    var w' := DoRunUpdate(w, ref, w.runs[ref], newer);
    assert NameOk(w.runs, w.retired, w.history.births, ref);
    var k := w.history.births[ref].key;
    assert BelongsTo(w.runs[ref], k) && BelongsTo(newer, k);
    assert KeyOk(w, k);
    RunUpdateKeepsKey(w, k, ref, newer);
    forall x | x != k ensures View(w', x) == View(w, x) {
      RunUpdateView(w, ref, newer, k, x);
    }
    LocalStepKeepsKeys(w, w', k);
    RunUpdateKeepsNames(w, ref, newer);
  }

  lemma QueueStepsKeepInv(w: World, a: Action)
    requires Inv(w) && Enabled(w, a) && (a.Pick? || a.Finish?)
    ensures Inv(Step(w, a))
  {
    assert KeyOk(w, a.key);
    if a.Pick? {
      PickKeepsKey(w, a.key);
    } else {
      FinishKeepsKey(w, a.key);
    }
    LocalStepKeepsKeys(w, Step(w, a), a.key);
  }

  lemma ProcessStepsKeepInv(w: World, a: Action)
    requires Inv(w) && Enabled(w, a) && (a.Crash? || a.Start?)
    ensures Inv(Step(w, a))
  {
    var w' := Step(w, a);
    forall x ensures KeyOk(w', x) {
      assert KeyOk(w, x);
      if a.Crash? {
        CrashKeepsKey(w, x);
      } else {
        StartKeepsKey(w, x);
      }
    }
    assert RunsOk(w');
  }

  /** A step that changes nothing but the config or the meters. */
  lemma GlobalStepKeepsInv(w: World, w': World)
    requires Inv(w) && w' == w.(config := w'.config, meters := w'.meters) && w'.meters.emitted == w.meters.emitted
    requires MetersOk(w'.meters) && (w'.config.Some? ==> w'.config.value.namespace == w.serviceNamespace)
    ensures Inv(w')
  {
    forall x ensures KeyOk(w', x) {
      assert KeyOk(w, x);
      SameViewKeepsKey(w, w', x);
    }
    assert RunsOk(w');
  }

  lemma GlobalStepsKeepInv(w: World, a: Action)
    requires Inv(w) && Enabled(w, a) && (a.ConfigChange? || a.Drain?)
    ensures Inv(Step(w, a))
  {
    if a.Drain? {
      DrainKeepsMeters(w.meters, a.update);
    }
    GlobalStepKeepsInv(w, Step(w, a));
  }

  // ----- Runs -----

  lemma StepKeepsInv(w: World, a: Action)
    requires Inv(w) && Enabled(w, a)
    ensures Inv(Step(w, a))
  {
    match a
    case UserCreate(k, spec, labels, finalizers) => UserCreateKeepsInv(w, k, spec, labels, finalizers);
    case UserUpdate(k, spec, labels) => UserUpdateKeepsInv(w, k, spec, labels);
    case OtherFinalizers(k, finalizers) => OtherFinalizersKeepsInv(w, k, finalizers);
    case UserDelete(k) => UserDeleteKeepsInv(w, k);
    case RunUpdate(ref, _, _, _) => RunUpdateKeepsInv(w, ref, UpdatedRun(w.runs[ref], a));
    case ConfigChange(_) => GlobalStepsKeepInv(w, a);
    case Crash => ProcessStepsKeepInv(w, a);
    case Start => ProcessStepsKeepInv(w, a);
    case Drain(_) => GlobalStepsKeepInv(w, a);
    case Pick(_) => QueueStepsKeepInv(w, a);
    case Perform(k, i) => PerformKeepsInv(w, k, i);
    case Finish(_) => QueueStepsKeepInv(w, a);
  }

  lemma {:induction false} RunKeepsInv(w: World, actions: seq<Action>)
    requires Inv(w) && Legal(w, actions)
    ensures Inv(After(w, actions))
    decreases |actions|
  {
    if actions != [] {
      StepKeepsInv(w, actions[0]);
      RunKeepsInv(Step(w, actions[0]), actions[1..]);
    }
  }

  /** The worlds some schedule reaches from two empty clusters. */
  ghost predicate Reachable(w: World) {
    exists w0, actions :: Initial(w0) && Legal(w0, actions) && After(w0, actions) == w
  }

  lemma ReachableIsSound(w: World)
    requires Reachable(w)
    ensures Inv(w)
  {
    var w0, actions :| Initial(w0) && Legal(w0, actions) && After(w0, actions) == w;
    InitialWorldIsSound(w0);
    RunKeepsInv(w0, actions);
  }
}
