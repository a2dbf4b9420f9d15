/** Facts about one incarnation of a request along whole runs: write-once fields, final statuses, a single creation. */
module Incarnations {
  import opened Common
  import opened Requests
  import opened PipelineRuns
  import opened Admission
  import opened Protocol
  import opened Invariant
  import opened Preservation
  import opened Runs

  /** A final status never changes, and the start time and the run reference are written with one value only. */
  predicate Keeps(s: Status, s': Status) {
    && (HasCompleted(s) ==> s' == s)
    && (s.startTime.Some? ==> s'.startTime == s.startTime)
    && (s.pipelineRun != "" ==> s'.pipelineRun == s.pipelineRun)
  }

  /** The request of `k` afterwards is the same incarnation, whose status went on, or a later one, or gone. */
  predicate Continues(w: World, w': World, k: Key) {
    && |BooksOf(w, k)| <= |BooksOf(w', k)|
    && (k in w'.irs ==>
          || w'.irs[k].uid >= |BooksOf(w, k)|
          || (k in w.irs && w'.irs[k].uid == w.irs[k].uid && Keeps(w.irs[k].status, w'.irs[k].status)))
    && forall i :: 0 <= i < |BooksOf(w, k)| ==> BooksOf(w, k)[i].creates <= BooksOf(w', k)[i].creates
  }

  lemma SameViewContinues(w: World, w': World, k: Key)
    requires View(w', k) == View(w, k)
    ensures Continues(w, w', k)
  {
    assert IrOf(w', k) == IrOf(w, k) && BooksOf(w', k) == BooksOf(w, k);
  }

  lemma MarkingKeeps(k: Key, c: Cell, ns: string, f: Flight, now: int)
    requires CellOk(k, c, ns) && c.flight == Some(f) && PatchesStatus(f)
    ensures Coupled(k, f.mem, c.ir) && f.mem.uid < |c.books|
    ensures Keeps(f.mem.status, Marking(f, now).status)
  {
    match f.call {
      case PatchRejected(message) =>
      case PatchRunning =>
      case PatchTracked(ref, seen, message) => TrackingKeeps(f.mem, c.runs, c.retired, ref, seen, message, now);
    }
  }

  /** The reference that tracking writes is the one that may already be there. */
  lemma TrackingKeeps(mem: InternalRequest, runs: map<Ref, Run>, retired: map<Ref, Run>,
                      ref: Ref, seen: Run, message: string, now: int)
    requires InPhase(mem.status, Running) && ReferenceOk(mem.status, runs, retired) && ref in runs
    ensures Keeps(mem.status, Tracked(mem, ref, seen, message, now).status)
  {
  }

  lemma PatchContinues(w: World, k: Key, i: Input)
    requires KeyOk(w, k) && PerformEnabled(w, k, i) && PatchesStatus(w.flights[k])
    ensures Continues(w, DoPerform(w, k, i), k)
  {
    var f := w.flights[k];
    MarkingKeeps(k, View(w, k), w.serviceNamespace, f, i.now);
    PatchesMark(w, k, i);
    MergeOfOwnCopy(f.mem.status, Marking(f, i.now).status);
  }

  lemma CancelRunContinues(w: World, k: Key, i: Input, mem: InternalRequest, c: Config, ref: Ref)
    ensures Continues(w, DoCancelRun(w, k, i, mem, c, ref), k)
  {
  }

  lemma CreateRunContinues(w: World, k: Key, i: Input, mem: InternalRequest, c: Config)
    ensures Continues(w, DoCreateRun(w, k, i, mem, c), k)
  {
  }

  lemma DeleteRunContinues(w: World, k: Key, i: Input, ref: Ref)
    ensures Continues(w, DoDeleteRun(w, k, i, ref), k)
  {
  }

  lemma AddFinalizerContinues(w: World, k: Key, i: Input, mem: InternalRequest)
    ensures Continues(w, DoAddFinalizer(w, k, i, mem), k)
  {
  }

  lemma RemoveFinalizerContinues(w: World, k: Key, i: Input, mem: InternalRequest)
    ensures Continues(w, DoRemoveFinalizer(w, k, i, mem), k)
  {
    var p := PatchFinalizers(IrOf(w, k), mem.finalizers - {FINALIZER});
    var landed := p != Refused && i.outcome != Lost;
    var b := BookAt(w.history.books, k, mem.uid);
    var b' := Removing(b, mem, landed);
    var w' := DoRemoveFinalizer(w, k, i, mem);
    assert w'.history.books == AmendBook(w.history.books, k, mem.uid, b') && b'.creates == b.creates;
    assert w'.irs == StoreIr(w.irs, k, if landed then p else Refused);
    assert |BooksOf(w', k)| == |BooksOf(w, k)|;
    assert forall j :: 0 <= j < |BooksOf(w, k)| ==> BooksOf(w', k)[j].creates == BooksOf(w, k)[j].creates;
  }

  lemma OtherWritesContinue(w: World, k: Key, i: Input)
    requires PerformEnabled(w, k, i) && Writes(w.flights[k]) && !PatchesStatus(w.flights[k])
    ensures Continues(w, DoPerform(w, k, i), k)
  {
    var Busy(call, mem, c) := w.flights[k];
    match call {
      case CancelRun(ref) => CancelRunContinues(w, k, i, mem, c, ref);
      case CreateRun => CreateRunContinues(w, k, i, mem, c);
      case DeleteRun(ref) => DeleteRunContinues(w, k, i, ref);
      case RemoveFinalizer => RemoveFinalizerContinues(w, k, i, mem);
      case AddFinalizer => AddFinalizerContinues(w, k, i, mem);
    }
  }

  lemma PerformContinues(w: World, k: Key, i: Input, k': Key)
    requires Inv(w) && PerformEnabled(w, k, i)
    ensures Continues(w, DoPerform(w, k, i), k')
  {
    assert KeyOk(w, k);
    if k' != k {
      PerformIsolation(w, k, i, k');
      SameViewContinues(w, DoPerform(w, k, i), k');
    } else if !Writes(w.flights[k]) {
      ReadsOnlyMove(w, k, i);
    } else if PatchesStatus(w.flights[k]) {
      PatchContinues(w, k, i);
    } else {
      OtherWritesContinue(w, k, i);
    }
  }

  lemma CreateContinues(w: World, k0: Key, spec: Spec, labels: map<string, string>, finalizers: set<string>, k: Key)
    requires k0 !in w.irs
    ensures Continues(w, DoUserCreate(w, k0, spec, labels, finalizers), k)
  {
  }

  lemma UpdateContinues(w: World, k0: Key, spec: Spec, labels: map<string, string>, k: Key)
    requires k0 in w.irs
    ensures Continues(w, DoUserUpdate(w, k0, spec, labels), k)
  {
  }

  lemma OtherFinalizersContinue(w: World, k0: Key, finalizers: set<string>, k: Key)
    ensures Continues(w, DoOtherFinalizers(w, k0, finalizers), k)
  {
  }

  lemma DeleteContinues(w: World, k0: Key, k: Key)
    requires k0 in w.irs
    ensures Continues(w, DoUserDelete(w, k0), k)
  {
  }

  lemma RunUpdateContinues(w: World, ref: Ref, older: Run, newer: Run, k: Key)
    ensures Continues(w, DoRunUpdate(w, ref, older, newer), k)
  {
  }

  lemma CrashContinues(w: World, k: Key)
    ensures Continues(w, DoCrash(w), k)
  {
  }

  lemma StepContinues(w: World, a: Action, k: Key)
    requires Inv(w) && Enabled(w, a)
    ensures Continues(w, Step(w, a), k)
  {
    match a
    case Perform(k0, i) => PerformContinues(w, k0, i, k);
    case UserCreate(k0, spec, labels, finalizers) => CreateContinues(w, k0, spec, labels, finalizers, k);
    case UserUpdate(k0, spec, labels) => UpdateContinues(w, k0, spec, labels, k);
    case OtherFinalizers(k0, finalizers) => OtherFinalizersContinue(w, k0, finalizers, k);
    case UserDelete(k0) => DeleteContinues(w, k0, k);
    case RunUpdate(ref, _, _, _) => RunUpdateContinues(w, ref, w.runs[ref], UpdatedRun(w.runs[ref], a), k);
    case Crash => CrashContinues(w, k);
    case _ => assert IrOf(Step(w, a), k) == IrOf(w, k) && BooksOf(Step(w, a), k) == BooksOf(w, k);
  }

  lemma ContinuesIsTransitive(w: World, w1: World, w2: World, k: Key)
    requires Continues(w, w1, k) && Continues(w1, w2, k)
    requires k in w1.irs ==> w1.irs[k].uid < |BooksOf(w1, k)|
    ensures Continues(w, w2, k)
  {
  }

  /** Along any run: once completed, a request keeps its status, and its start time and run reference never change. */
  lemma {:induction false} StatusIsWrittenOnce(w: World, actions: seq<Action>, k: Key)
    requires Inv(w) && Legal(w, actions)
    ensures Continues(w, After(w, actions), k)
    decreases |actions|
  {
    if actions != [] {
      var w1 := Step(w, actions[0]);
      StepContinues(w, actions[0], k);
      StepKeepsInv(w, actions[0]);
      assert KeyOk(w1, k);
      StatusIsWrittenOnce(w1, actions[1..], k);
      ContinuesIsTransitive(w, w1, After(w, actions), k);
    }
  }

  // ----- One creation per incarnation -----

  predicate SameBirth(w: World, r: Ref, r': Ref)
    requires r in w.history.births && r' in w.history.births
  {
    w.history.births[r].key == w.history.births[r'].key && w.history.births[r].uid == w.history.births[r'].uid
  }

  /** Each run counts as the creation of one incarnation, and two runs never count for the same one. */
  ghost predicate BirthsCounted(w: World) {
    && (forall r :: r in w.history.births ==> var b := w.history.births[r];
          b.uid < |BooksOf(w, b.key)| && BooksOf(w, b.key)[b.uid].creates >= 1)
    && (forall r, r' :: r in w.history.births && r' in w.history.births && SameBirth(w, r, r') ==> r == r')
  }

  lemma SameBirthsCounted(w: World, w': World)
    requires BirthsCounted(w) && w'.history.births == w.history.births && forall k :: Continues(w, w', k)
    ensures BirthsCounted(w')
  {
    forall r | r in w'.history.births
      ensures var b := w'.history.births[r]; b.uid < |BooksOf(w', b.key)| && BooksOf(w', b.key)[b.uid].creates >= 1
    {
      assert Continues(w, w', w.history.births[r].key);
    }
  }

  lemma CreationCounted(w: World, w': World, r: Ref, b: Birth)
    requires BirthsCounted(w) && w'.history.births == w.history.births[r := b] && forall k :: Continues(w, w', k)
    requires b.uid < |BooksOf(w, b.key)| <= |BooksOf(w', b.key)|
    requires BooksOf(w, b.key)[b.uid].creates == 0 && BooksOf(w', b.key)[b.uid].creates == 1
    ensures BirthsCounted(w')
  {
    forall x | x in w'.history.births
      ensures var b := w'.history.births[x]; b.uid < |BooksOf(w', b.key)| && BooksOf(w', b.key)[b.uid].creates >= 1
    {
      assert Continues(w, w', w'.history.births[x].key);
    }
    forall x, y | x in w'.history.births && y in w'.history.births && SameBirth(w', x, y) ensures x == y {
      assert x != r && y != r ==> SameBirth(w, x, y);
    }
  }

  lemma NothingCreatedYet(w: World, k: Key, mem: InternalRequest, c: Config)
    requires KeyOk(w, k) && FlightOf(w, k) == Some(Busy(CreateRun, mem, c))
    ensures mem.uid < |BooksOf(w, k)| && BooksOf(w, k)[mem.uid].creates == 0
    ensures forall i: Input :: i.outcome != Lost ==> BooksOf(DoCreateRun(w, k, i, mem, c), k)[mem.uid].creates == 1
  {
    assert BookOk(BooksOf(w, k)[mem.uid]);
  }

  lemma StepKeepsBirths(w: World, a: Action)
    requires Inv(w) && BirthsCounted(w) && Enabled(w, a)
    ensures BirthsCounted(Step(w, a))
  {
    var w' := Step(w, a);
    forall k ensures Continues(w, w', k) {
      StepContinues(w, a, k);
    }
    if a.Perform? && w.flights[a.key].Busy? && w.flights[a.key].call.CreateRun? && a.input.outcome != Lost {
      var Busy(_, mem, c) := w.flights[a.key];
      assert KeyOk(w, a.key);
      NothingCreatedYet(w, a.key, mem, c);
      assert w' == DoCreateRun(w, a.key, a.input, mem, c);
      CreationCounted(w, w', a.input.ref, Birth(a.key, mem.uid, mem.spec, c));
    } else {
      OtherStepsCreateNothing(w, a);
      SameBirthsCounted(w, w');
    }
  }

  lemma OtherStepsCreateNothing(w: World, a: Action)
    requires Enabled(w, a)
    requires !(a.Perform? && w.flights[a.key].Busy? && w.flights[a.key].call.CreateRun? && a.input.outcome != Lost)
    ensures Step(w, a).history.births == w.history.births
  {
    if a.Perform? {
      CallCreatesNothing(w, a.key, a.input);
    }
  }

  lemma CallCreatesNothing(w: World, k: Key, i: Input)
    requires PerformEnabled(w, k, i)
    requires !(w.flights[k].Busy? && w.flights[k].call.CreateRun? && i.outcome != Lost)
    ensures DoPerform(w, k, i).history.births == w.history.births
  {
    if !Writes(w.flights[k]) {
      ReadsOnlyMove(w, k, i);
    } else if PatchesStatus(w.flights[k]) {
      PatchesMark(w, k, i);
    } else {
      OtherWritesAreFramed(w, k, i);
    }
  }

  lemma {:induction false} RunKeepsBirths(w: World, actions: seq<Action>)
    requires Inv(w) && BirthsCounted(w) && Legal(w, actions)
    ensures BirthsCounted(After(w, actions))
    decreases |actions|
  {
    if actions != [] {
      StepKeepsInv(w, actions[0]);
      StepKeepsBirths(w, actions[0]);
      RunKeepsBirths(Step(w, actions[0]), actions[1..]);
    }
  }

  /** Over its whole life an incarnation causes at most one run to be created, whatever fails or restarts. */
  lemma OneRunPerIncarnation(w: World, r: Ref, r': Ref)
    requires Reachable(w) && r in w.history.births && r' in w.history.births
    requires SameBirth(w, r, r')
    ensures r == r'
  {
    var w0, actions :| Initial(w0) && Legal(w0, actions) && After(w0, actions) == w;
    InitialWorldIsSound(w0);
    RunKeepsBirths(w0, actions);
  }
}
