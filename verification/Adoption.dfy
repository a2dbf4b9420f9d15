/** Whose run a request reports: its own, or one that an earlier request of the same name left behind. */
module Adoption {
  import opened Common
  import opened References
  import opened Requests
  import opened PipelineRuns
  import opened Admission
  import opened Protocol
  import opened Invariant
  import opened Preservation
  import opened Runs
  import opened Incarnations
  import opened Origins

  /** The runs the controller created for the stored incarnation of `k`. */
  function CreatesOf(w: World, k: Key): nat
    requires k in w.irs
  {
    BookAt(w.history.books, k, w.irs[k].uid).creates
  }

  /** Run `r` was created for the stored incarnation of `k`. */
  predicate OwnRun(w: World, k: Key, r: Ref) {
    && k in w.irs && r in w.history.births
    && w.history.births[r].key == k && w.history.births[r].uid == w.irs[k].uid
  }

  /** The request refers to `r`, or will find it, unless it has completed without ever referring to a run. */
  predicate Follows(w: World, k: Key, r: Ref)
    requires k in w.irs
  {
    var s := w.irs[k].status;
    if s.pipelineRun != "" then s.pipelineRun == Encode(r) else HasCompleted(s) || r in RunsOf(w.runs, k)
  }

  ghost predicate Owns(w: World, k: Key) {
    k in w.irs && CreatesOf(w, k) == 1 ==> exists r :: OwnRun(w, k, r) && Follows(w, k, r)
  }

  // ----- Steps that leave the request, its runs and its books alone -----

  predicate BirthsGrow(w: World, w': World) {
    forall r :: r in w.history.births ==> r in w'.history.births && w'.history.births[r] == w.history.births[r]
  }

  /** Status, incarnation and creations of `k` are the same, and no run of an unfinished request goes. */
  predicate Calm(w: World, w': World, k: Key) {
    k in w'.irs ==>
      && SameStatus(w, w', k) && CreatesOf(w', k) == CreatesOf(w, k)
      && (HasCompleted(w.irs[k].status) || RunsOf(w.runs, k).Keys <= RunsOf(w'.runs, k).Keys)
  }

  lemma CalmKeepsOwn(w: World, w': World, k: Key)
    requires Owns(w, k) && Calm(w, w', k) && BirthsGrow(w, w')
    ensures Owns(w', k)
  {
    if k in w'.irs && CreatesOf(w', k) == 1 {
      var r :| OwnRun(w, k, r) && Follows(w, k, r);
      assert OwnRun(w', k, r) && Follows(w', k, r);
    }
  }

  lemma SameViewIsCalm(w: World, w': World, k: Key)
    requires View(w', k) == View(w, k)
    ensures Calm(w, w', k)
  {
    assert IrOf(w', k) == View(w, k).ir && BooksOf(w', k) == View(w, k).books && RunsOf(w'.runs, k) == View(w, k).runs;
  }

  lemma UserUpdateIsCalm(w: World, k0: Key, spec: Spec, labels: map<string, string>, k: Key)
    requires k0 in w.irs
    ensures Calm(w, DoUserUpdate(w, k0, spec, labels), k)
  {
  }

  lemma OtherFinalizersAreCalm(w: World, k0: Key, finalizers: set<string>, k: Key)
    ensures Calm(w, DoOtherFinalizers(w, k0, finalizers), k)
  {
  }

  lemma UserDeleteIsCalm(w: World, k0: Key, k: Key)
    requires k0 in w.irs
    ensures Calm(w, DoUserDelete(w, k0), k)
  {
  }

  lemma RunUpdateIsCalm(w: World, ref: Ref, newer: Run, k: Key)
    requires ref in w.runs && newer.labels == w.runs[ref].labels
    ensures Calm(w, DoRunUpdate(w, ref, w.runs[ref], newer), k)
  {
    var w' := DoRunUpdate(w, ref, w.runs[ref], newer);
    assert w'.runs == w.runs[ref := newer] && w'.irs == w.irs && w'.history == w.history;
    forall x | x in RunsOf(w.runs, k) ensures x in RunsOf(w'.runs, k) {}
  }

  lemma ProcessStepIsCalm(w: World, a: Action, k: Key)
    requires Enabled(w, a) && (a.ConfigChange? || a.Start? || a.Drain? || a.Pick? || a.Finish?)
    ensures Calm(w, Step(w, a), k)
  {
  }

  lemma CrashIsCalm(w: World, k: Key)
    ensures Calm(w, DoCrash(w), k)
  {
  }

  // ----- Calls -----

  lemma FinalizerWriteIsCalm(w: World, k: Key, i: Input, mem: InternalRequest)
    ensures Calm(w, DoAddFinalizer(w, k, i, mem), k)
    ensures Calm(w, DoRemoveFinalizer(w, k, i, mem), k)
  {
    var p := PatchFinalizers(IrOf(w, k), mem.finalizers - {FINALIZER});
    var b := Removing(BookAt(w.history.books, k, mem.uid), mem, p != Refused && i.outcome != Lost);
    assert DoRemoveFinalizer(w, k, i, mem).history.books == AmendBook(w.history.books, k, mem.uid, b);
  }

  lemma CancelIsCalm(w: World, k: Key, i: Input, mem: InternalRequest, c: Config, ref: Ref)
    ensures Calm(w, DoCancelRun(w, k, i, mem, c, ref), k)
  {
    var w' := DoCancelRun(w, k, i, mem, c, ref);
    forall x | x in RunsOf(w.runs, k) ensures x in RunsOf(w'.runs, k) {}
  }

  lemma DeletionIsCalm(w: World, k: Key, i: Input, mem: InternalRequest, c: Config, ref: Ref)
    requires KeyOk(w, k) && FlightOf(w, k) == Some(Busy(DeleteRun(ref), mem, c))
    ensures Calm(w, DoDeleteRun(w, k, i, ref), k)
  {
    assert HasCompleted(w.irs[k].status);
  }

  lemma CreationIsOwn(w: World, k: Key, i: Input, mem: InternalRequest, c: Config)
    requires KeyOk(w, k) && FlightOf(w, k) == Some(Busy(CreateRun, mem, c))
    requires i.outcome != Lost && i.ref !in w.runs && Matches(i.run, k)
    ensures Owns(DoCreateRun(w, k, i, mem, c), k)
  {
    var w' := DoCreateRun(w, k, i, mem, c);
    assert k in w.irs && w.irs[k].uid == mem.uid && w.irs[k].status == NO_STATUS;
    assert i.ref in RunsOf(w'.runs, k);
    assert OwnRun(w', k, i.ref) && Follows(w', k, i.ref);
  }

  /** What a status patch does to the reference: nothing, or it names the only run. */
  lemma MarkingFollows(k: Key, c: Cell, ns: string, f: Flight, now: int, r: Ref)
    requires CellOk(k, c, ns) && c.flight == Some(f) && PatchesStatus(f)
    requires var s := f.mem.status;
      if s.pipelineRun != "" then s.pipelineRun == Encode(r) else HasCompleted(s) || r in c.runs
    ensures Coupled(k, f.mem, c.ir) && f.mem.uid < |c.books|
    ensures var s := Marking(f, now).status;
      if s.pipelineRun != "" then s.pipelineRun == Encode(r) else HasCompleted(s) || r in c.runs
  {
    MarkingKeeps(k, c, ns, f, now);
    if f.call.PatchTracked? {
      TrackedReference(f.mem, f.call.ref, f.call.seen, f.call.message, now);
    }
  }

  lemma TrackedReference(mem: InternalRequest, ref: Ref, seen: Run, message: string, now: int)
    ensures Tracked(mem, ref, seen, message, now).status.pipelineRun == Encode(ref)
  {
  }

  lemma PatchEffect(w: World, k: Key, mem: InternalRequest, m: Marked, outcome: Outcome, f: Flight)
    requires Coupled(k, mem, IrOf(w, k))
    ensures var w' := MarkAndPatch(w, k, mem, m, outcome, f);
      && k in w'.irs && w'.irs[k].uid == w.irs[k].uid && CreatesOf(w', k) == CreatesOf(w, k)
      && w'.irs[k].status == (if outcome == Lost then w.irs[k].status else m.status)
      && w'.runs == w.runs && w'.history.births == w.history.births
  {
    MergeOfOwnCopy(mem.status, m.status);
  }

  lemma PatchKeepsOwn(w: World, k: Key, i: Input)
    requires KeyOk(w, k) && PerformEnabled(w, k, i) && PatchesStatus(w.flights[k]) && Owns(w, k)
    ensures Owns(DoPerform(w, k, i), k)
  {
    var f, w' := w.flights[k], DoPerform(w, k, i);
    assert Coupled(k, f.mem, IrOf(w, k));
    PatchesMark(w, k, i);
    PatchEffect(w, k, f.mem, Marking(f, i.now), i.outcome, w'.flights[k]);
    if CreatesOf(w', k) == 1 {
      var r :| OwnRun(w, k, r) && Follows(w, k, r);
      MarkingFollows(k, View(w, k), w.serviceNamespace, f, i.now, r);
      assert OwnRun(w', k, r) && Follows(w', k, r);
    }
  }

  lemma OtherWriteKeepsOwn(w: World, k: Key, i: Input)
    requires Inv(w) && PerformEnabled(w, k, i) && Writes(w.flights[k]) && !PatchesStatus(w.flights[k]) && Owns(w, k)
    requires BirthsGrow(w, DoPerform(w, k, i))
    ensures Owns(DoPerform(w, k, i), k)
  {
    assert KeyOk(w, k);
    var Busy(call, mem, c) := w.flights[k];
    if call.CreateRun? && i.outcome != Lost {
      CreatedRunIsFresh(w, k, i, mem, c);
      CreationIsOwn(w, k, i, mem, c);
    } else {
      OtherWriteIsCalm(w, k, i);
      CalmKeepsOwn(w, DoPerform(w, k, i), k);
    }
  }

  lemma OtherWriteIsCalm(w: World, k: Key, i: Input)
    requires KeyOk(w, k) && PerformEnabled(w, k, i) && Writes(w.flights[k]) && !PatchesStatus(w.flights[k])
    requires w.flights[k].call.CreateRun? ==> i.outcome == Lost
    ensures Calm(w, DoPerform(w, k, i), k)
  {
    var Busy(call, mem, c) := w.flights[k];
    match call {
      case CreateRun => assert DoCreateRun(w, k, i, mem, c) == Fly(w, k, Returned(true));
      case CancelRun(ref) => CancelIsCalm(w, k, i, mem, c, ref);
      case DeleteRun(ref) => DeletionIsCalm(w, k, i, mem, c, ref);
      case AddFinalizer => FinalizerWriteIsCalm(w, k, i, mem);
      case RemoveFinalizer => FinalizerWriteIsCalm(w, k, i, mem);
    }
  }

  // ----- Every step -----

  lemma StepGrowsBirths(w: World, a: Action)
    requires Inv(w) && Enabled(w, a)
    ensures BirthsGrow(w, Step(w, a))
  {
    if a.Perform? && w.flights[a.key].Busy? && w.flights[a.key].call.CreateRun? && a.input.outcome != Lost {
      var Busy(_, mem, c) := w.flights[a.key];
      assert Step(w, a) == DoCreateRun(w, a.key, a.input, mem, c);
    } else {
      OtherStepsCreateNothing(w, a);
    }
  }

  lemma CallKeepsOwn(w: World, k0: Key, i: Input, k: Key)
    requires Inv(w) && PerformEnabled(w, k0, i) && Owns(w, k) && BirthsGrow(w, DoPerform(w, k0, i))
    ensures Owns(DoPerform(w, k0, i), k)
  {
    var w' := DoPerform(w, k0, i);
    assert KeyOk(w, k);
    if k0 != k {
      PerformIsolation(w, k0, i, k);
      SameViewIsCalm(w, w', k);
      CalmKeepsOwn(w, w', k);
    } else if !Writes(w.flights[k]) {
      ReadsOnlyMove(w, k, i);
      CalmKeepsOwn(w, w', k);
    } else if PatchesStatus(w.flights[k]) {
      PatchKeepsOwn(w, k, i);
    } else {
      OtherWriteKeepsOwn(w, k, i);
    }
  }

  lemma NewRequestOwnsNothing(w: World, k0: Key, spec: Spec, labels: map<string, string>, finalizers: set<string>, k: Key)
    requires k0 !in w.irs && Owns(w, k)
    ensures Owns(DoUserCreate(w, k0, spec, labels, finalizers), k)
  {
    var w' := DoUserCreate(w, k0, spec, labels, finalizers);
    if k0 == k {
      assert CreatesOf(w', k) == 0;
    } else {
      assert Calm(w, w', k);
      CalmKeepsOwn(w, w', k);
    }
  }

  lemma OtherStepIsCalm(w: World, a: Action, k: Key)
    requires Enabled(w, a) && !a.Perform? && !a.UserCreate?
    ensures Calm(w, Step(w, a), k)
  {
    if a.RunUpdate? {
      RunUpdateIsCalm(w, a.ref, UpdatedRun(w.runs[a.ref], a), k);
    } else if a.Crash? {
      CrashIsCalm(w, k);
    } else if a.UserUpdate? {
      UserUpdateIsCalm(w, a.key, a.spec, a.labels, k);
    } else if a.OtherFinalizers? {
      OtherFinalizersAreCalm(w, a.key, a.finalizers, k);
    } else if a.UserDelete? {
      UserDeleteIsCalm(w, a.key, k);
    } else {
      ProcessStepIsCalm(w, a, k);
    }
  }

  lemma StepKeepsOwn(w: World, a: Action, k: Key)
    requires Inv(w) && Enabled(w, a) && Owns(w, k)
    ensures Owns(Step(w, a), k)
  {
    StepGrowsBirths(w, a);
    if a.Perform? {
      CallKeepsOwn(w, a.key, a.input, k);
    } else if a.UserCreate? {
      NewRequestOwnsNothing(w, a.key, a.spec, a.labels, a.finalizers, k);
    } else {
      OtherStepIsCalm(w, a, k);
      CalmKeepsOwn(w, Step(w, a), k);
    }
  }

  lemma {:induction false} RunKeepsOwn(w: World, actions: seq<Action>, k: Key)
    requires Inv(w) && BirthsCounted(w) && Legal(w, actions) && Owns(w, k)
    ensures Inv(After(w, actions)) && BirthsCounted(After(w, actions)) && Owns(After(w, actions), k)
    decreases |actions|
  {
    if actions != [] {
      StepKeepsInv(w, actions[0]);
      StepKeepsBirths(w, actions[0]);
      StepKeepsOwn(w, actions[0], k);
      RunKeepsOwn(Step(w, actions[0]), actions[1..], k);
    }
  }

  lemma ReachableOwns(w: World, k: Key)
    requires Reachable(w)
    ensures Inv(w) && BirthsCounted(w) && Owns(w, k)
  {
    var w0, actions :| Initial(w0) && Legal(w0, actions) && After(w0, actions) == w;
    InitialWorldIsSound(w0);
    RunKeepsOwn(w0, actions, k);
  }

  /**
    The run a request refers to was created for the very incarnation that is stored if and only if the controller created
    a run for that incarnation. Otherwise it is a leftover of an earlier request of the same name, whose spec it executes.
  */
  lemma RunIsOwnIff(w: World, k: Key)
    requires Reachable(w) && k in w.irs && w.irs[k].status.pipelineRun != ""
    ensures Decode(w.irs[k].status.pipelineRun).Some? && w.irs[k].uid < |BooksOf(w, k)|
    ensures var r := Decode(w.irs[k].status.pipelineRun).value;
      && r in w.history.births && w.history.births[r].key == k && w.history.births[r].uid <= w.irs[k].uid
      && (w.history.births[r].uid == w.irs[k].uid <==> BooksOf(w, k)[w.irs[k].uid].creates == 1)
  {
    ReachableOwns(w, k);
    assert KeyOk(w, k);
    var r := Decode(w.irs[k].status.pipelineRun).value;
    ReferenceIsBorn(w, k, r);
    assert BookOk(BooksOf(w, k)[w.irs[k].uid]);
    if CreatesOf(w, k) == 1 {
      var own :| OwnRun(w, k, own) && Follows(w, k, own);
      assert NameOk(w.runs, w.retired, w.history.births, own);
      RoundTrip(own);
    }
  }

  lemma ReferenceIsBorn(w: World, k: Key, r: Ref)
    requires Inv(w) && (r in RunsOf(w.runs, k) || r in RunsOf(w.retired, k))
    ensures r in w.history.births && w.history.births[r].key == k
  {
    assert NameOk(w.runs, w.retired, w.history.births, r);
    assert KeyOk(w, k);
  }
}
