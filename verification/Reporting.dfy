/** What each call reports to the counter and to the histogram, under which labels, and for which incarnation. */
module Reporting {
  import opened Common
  import opened Metrics
  import opened Requests
  import opened PipelineRuns
  import opened Admission
  import opened Protocol
  import opened Invariant
  import opened Preservation
  import opened Runs

  datatype Collector = Counter | Histogram

  predicate ReportsTo(u: Update, c: Collector) {
    match c
    case Counter => u.Count?
    case Histogram => u.Observe?
  }

  function ReportsIn(us: seq<Update>, c: Collector): nat {
    if us == [] then 0 else Bit(ReportsTo(us[0], c)) + ReportsIn(us[1..], c)
  }

  /** What the book of an incarnation says it reported. */
  function Reported(b: Book, c: Collector): nat {
    match c
    case Counter => b.attempts
    case Histogram => b.observations
  }

  // ----- When a report is due, read off the call and its copies of the request and the run -----

  /** The copy of the run says True or False. */
  predicate TracksDecided(f: Flight) {
    && f.Busy? && f.call.PatchTracked?
    && f.call.seen.condition.Some? && f.call.seen.condition.value.status in {ConditionTrue, ConditionFalse}
  }

  /** An attempt ends: by a verdict of the run, by a rejection, or by a deletion before either. */
  predicate EndsAttempt(f: Flight) {
    TracksDecided(f) || (f.Busy? && f.call.PatchRejected?) ||
    (f.Busy? && f.call.RemoveFinalizer? && !HasCompleted(f.mem.status))
  }

  /** An attempt ends that has a duration: by a verdict of the run, or by a deletion after the start. */
  predicate EndsTimedAttempt(f: Flight) {
    TracksDecided(f) ||
    (f.Busy? && f.call.RemoveFinalizer? && !HasCompleted(f.mem.status) && f.mem.status.startTime.Some?)
  }

  predicate ReportDue(f: Flight, c: Collector) {
    match c
    case Counter => EndsAttempt(f)
    case Histogram => EndsTimedAttempt(f)
  }

  /**
    A call reports once to the counter when it ends an attempt and once to the histogram when that attempt had started to
    run, and not otherwise; the book of the incarnation says the same.
  */
  lemma AttemptsAreReported(w: World, k: Key, i: Input)
    requires Reachable(w) && PerformEnabled(w, k, i) && w.flights[k].Busy?
    ensures exists us :: HandsOver(w, DoPerform(w, k, i), k, w.flights[k].mem.uid, us) && IsDue(us, w.flights[k])
  {
    ReachableIsSound(w);
    CallReports(w, k, i);
  }

  lemma CallReports(w: World, k: Key, i: Input)
    requires Inv(w) && PerformEnabled(w, k, i) && w.flights[k].Busy?
    ensures exists us :: HandsOver(w, DoPerform(w, k, i), k, w.flights[k].mem.uid, us) && IsDue(us, w.flights[k])
  {
    assert KeyOk(w, k);
    var f := w.flights[k];
    if PatchesStatus(f) {
      PatchReports(w, k, i);
    } else if f.call.RemoveFinalizer? {
      assert f.mem.uid < |BooksOf(w, k)|;
      RemovalReports(w, k, i, f.mem, f.config);
    } else {
      QuietCallReports(w, k, i);
    }
  }

  /** The labels under which a call can report an attempt, given the verdict it writes if it writes one. */
  predicate Describes(l: Labels, ir: InternalRequest, reason: Reason, succeeded: bool) {
    l.request == ir.spec.pipelineName && l.namespace == ir.key.namespace && l.reason == reason && l.succeeded == succeeded
  }

  /** The call hands over a report of an attempt under these labels. */
  predicate Counts(m: Meters, m': Meters, l: Labels) {
    m'.emitted[Count(l)] > m.emitted[Count(l)] || m'.emitted[Observe(l)] > m.emitted[Observe(l)]
  }

  /** A counted or observed attempt carries the pipeline and namespace of its request and the outcome that is written. */
  lemma ReportsNameTheOutcome(w: World, k: Key, i: Input, l: Labels)
    requires Reachable(w) && PerformEnabled(w, k, i) && Counts(w.meters, DoPerform(w, k, i).meters, l)
    ensures w.flights[k].Busy?
    ensures var f := w.flights[k];
      if f.call.RemoveFinalizer? then Describes(l, f.mem, DeletedReason, false)
      else PatchesStatus(f) && Announces(l, f.mem, Marking(f, i.now).status)
  {
    ReachableIsSound(w);
    assert KeyOk(w, k);
    var f := w.flights[k];
    if PatchesStatus(f) {
      PatchAnnounces(w, k, i, l);
    } else if f.Busy? && f.call.RemoveFinalizer? {
      RemovalAnnounces(w, k, i, f.mem, l);
    } else {
      QuietMeters(w, k, i);
    }
  }

  /** The labels repeat the final verdict of a status. */
  predicate Announces(l: Labels, ir: InternalRequest, s: Status) {
    Verdict(s).Some? && HasCompleted(s) && Describes(l, ir, Verdict(s).value.reason, HasSucceeded(s))
  }

  lemma SpawnedIsThere(m: Meters, us: seq<Update>, l: Labels)
    requires Counts(m, Spawn(m, us), l)
    ensures Count(l) in us || Observe(l) in us
  {
    assert Count(l) in multiset(us) || Observe(l) in multiset(us);
  }

  lemma PatchAnnounces(w: World, k: Key, i: Input, l: Labels)
    requires KeyOk(w, k) && PerformEnabled(w, k, i) && PatchesStatus(w.flights[k])
    requires Counts(w.meters, DoPerform(w, k, i).meters, l)
    ensures Announces(l, w.flights[k].mem, Marking(w.flights[k], i.now).status)
  {
    PatchesMark(w, k, i);
    SpawnedIsThere(w.meters, Marking(w.flights[k], i.now).spawned, l);
    MarkingLabels(k, View(w, k), w.serviceNamespace, w.flights[k], i.now, l);
  }

  lemma RemovalAnnounces(w: World, k: Key, i: Input, mem: InternalRequest, l: Labels)
    requires Counts(w.meters, DoRemoveFinalizer(w, k, i, mem).meters, l)
    ensures Describes(l, mem, DeletedReason, false)
  {
    SpawnedIsThere(w.meters, DeletionUpdates(mem), l);
  }

  lemma QuietMeters(w: World, k: Key, i: Input)
    requires PerformEnabled(w, k, i) && !PatchesStatus(w.flights[k])
    requires w.flights[k].Busy? ==> !w.flights[k].call.RemoveFinalizer?
    ensures DoPerform(w, k, i).meters == w.meters
  {
    if !Writes(w.flights[k]) {
      ReadsOnlyMove(w, k, i);
    } else {
      OtherWritesAreFramed(w, k, i);
    }
  }

  lemma MarkingLabels(k: Key, c: Cell, ns: string, f: Flight, now: int, l: Labels)
    requires CellOk(k, c, ns) && c.flight == Some(f) && PatchesStatus(f)
    requires var us := Marking(f, now).spawned; Count(l) in us || Observe(l) in us
    ensures Announces(l, f.mem, Marking(f, now).status)
  {
    match f.call {
      case PatchRejected(message) => RejectionLabels(f.mem, message, l);
      case PatchRunning =>
      case PatchTracked(ref, seen, message) => TrackingLabels(f.mem, ref, seen, message, now, l);
    }
  }

  lemma RejectionLabels(mem: InternalRequest, message: string, l: Labels)
    requires !HasCompleted(mem.status)
    requires var us := MarkedRejected(mem, message).spawned; Count(l) in us || Observe(l) in us
    ensures Announces(l, mem, MarkedRejected(mem, message).status)
  {
  }

  lemma TrackingLabels(mem: InternalRequest, ref: Ref, seen: Run, message: string, now: int, l: Labels)
    requires InPhase(mem.status, Running)
    requires var us := Tracked(mem, ref, seen, message, now).spawned; Count(l) in us || Observe(l) in us
    ensures Announces(l, mem, Tracked(mem, ref, seen, message, now).status)
  {
  }

  /** `us` is handed over, and the book of the incarnation counts its reports. */
  predicate HandsOver(w: World, w': World, k: Key, uid: nat, us: seq<Update>) {
    && w'.meters == Spawn(w.meters, us)
    && forall c: Collector ::
         Reported(BookAt(w'.history.books, k, uid), c) == Reported(BookAt(w.history.books, k, uid), c) + ReportsIn(us, c)
  }

  predicate IsDue(us: seq<Update>, f: Flight) {
    forall c: Collector :: ReportsIn(us, c) == Bit(ReportDue(f, c))
  }

  lemma PatchReports(w: World, k: Key, i: Input)
    requires KeyOk(w, k) && PerformEnabled(w, k, i) && PatchesStatus(w.flights[k])
    ensures var us := Marking(w.flights[k], i.now).spawned;
      HandsOver(w, DoPerform(w, k, i), k, w.flights[k].mem.uid, us) && IsDue(us, w.flights[k])
  {
    var f := w.flights[k];
    var m := Marking(f, i.now);
    PatchIsDue(k, View(w, k), w.serviceNamespace, f);
    MarkingReports(f, i.now);
    MarkHandsOver(w, k, f.mem, m, i.outcome, DoPerform(w, k, i).flights[k]);
    assert DoPerform(w, k, i) == MarkAndPatch(w, k, f.mem, m, i.outcome, DoPerform(w, k, i).flights[k]) by {
      PatchesMark(w, k, i);
    }
  }

  lemma MarkHandsOver(w: World, k: Key, mem: InternalRequest, m: Marked, outcome: Outcome, f: Flight)
    requires mem.uid < |BooksOf(w, k)|
    requires ReportsIn(m.spawned, Counter) == Bit(Closes(mem, m))
    requires ReportsIn(m.spawned, Histogram) == Bit(Closes(mem, m) && FinishesRun(mem, m.status))
    ensures HandsOver(w, MarkAndPatch(w, k, mem, m, outcome, f), k, mem.uid, m.spawned)
  {
    RecordedReports(w.history, k, mem, m, k in w.irs && outcome != Lost);
  }

  lemma RecordedReports(h: History, k: Key, mem: InternalRequest, m: Marked, landed: bool)
    requires k in h.books && mem.uid < |h.books[k]|
    ensures var b, b' := BookAt(h.books, k, mem.uid), BookAt(Recorded(h, k, mem, m, landed).books, k, mem.uid);
      && b'.attempts == b.attempts + Bit(Closes(mem, m))
      && b'.observations == b.observations + Bit(Closes(mem, m) && FinishesRun(mem, m.status))
  {
  }

  /** The phase in which each status patch is due. */
  predicate PatchPhase(f: Flight)
    requires PatchesStatus(f)
  {
    match f.call
    case PatchRejected(_) => !HasCompleted(f.mem.status)
    case PatchRunning => InPhase(f.mem.status, NotStarted)
    case PatchTracked(_, _, _) => InPhase(f.mem.status, Running)
  }

  lemma PatchIsDue(k: Key, c: Cell, ns: string, f: Flight)
    requires CellOk(k, c, ns) && c.flight == Some(f) && PatchesStatus(f)
    ensures f.mem.uid < |c.books| && PatchPhase(f)
  {
  }

  lemma MarkingReports(f: Flight, now: int)
    requires PatchesStatus(f) && PatchPhase(f)
    ensures var m := Marking(f, now);
      && IsDue(m.spawned, f)
      && ReportsIn(m.spawned, Counter) == Bit(Closes(f.mem, m))
      && ReportsIn(m.spawned, Histogram) == Bit(Closes(f.mem, m) && FinishesRun(f.mem, m.status))
  {
    match f.call {
      case PatchRejected(message) => RejectionReports(f.mem, message);
      case PatchRunning => StartReports(f.mem, now);
      case PatchTracked(ref, seen, message) => TrackingReports(f.mem, ref, seen, message, now);
    }
  }

  lemma StartReports(mem: InternalRequest, now: int)
    requires InPhase(mem.status, NotStarted)
    ensures var m := MarkedRunning(mem, now);
      (forall c: Collector :: ReportsIn(m.spawned, c) == 0) && !Closes(mem, m)
  {
    OneUpdateReports(GaugeInc);
  }

  lemma RejectionReports(mem: InternalRequest, message: string)
    requires !HasCompleted(mem.status)
    ensures var m := MarkedRejected(mem, message);
      && ReportsIn(m.spawned, Counter) == 1 && ReportsIn(m.spawned, Histogram) == 0
      && Closes(mem, m) && !FinishesRun(mem, m.status)
  {
    OneUpdateReports(Count(LabelsFor(mem, RejectedReason, false)));
  }

  lemma TrackingReports(mem: InternalRequest, ref: Ref, seen: Run, message: string, now: int)
    requires InPhase(mem.status, Running)
    ensures var m := Tracked(mem, ref, seen, message, now);
      var decided := seen.condition.Some? && seen.condition.value.status in {ConditionTrue, ConditionFalse};
      && ReportsIn(m.spawned, Counter) == ReportsIn(m.spawned, Histogram) == Bit(decided)
      && (Closes(mem, m) <==> decided) && (FinishesRun(mem, m.status) <==> decided)
  {
    ClosingUpdatesReport(LabelsFor(mem, FailedReason, false), mem.status.startTime);
    ClosingUpdatesReport(LabelsFor(mem, SucceededReason, true), mem.status.startTime);
  }

  lemma OneUpdateReports(u: Update)
    ensures forall c: Collector :: ReportsIn([u], c) == Bit(ReportsTo(u, c))
  {
    assert [u][1..] == [];
  }

  lemma ClosingUpdatesReport(l: Labels, startTime: Option<int>)
    requires startTime.Some?
    ensures forall c: Collector :: ReportsIn(CompletedUpdates(l, startTime), c) == 1
    ensures forall c: Collector :: ReportsIn(DeletedUpdates(l, startTime), c) == 1
  {
    var us := CompletedUpdates(l, startTime);
    assert us[1..] == [Observe(l), Count(l)] && [Observe(l), Count(l)][1..] == [Count(l)];
    OneUpdateReports(Count(l));
    assert forall c: Collector ::
      ReportsIn([Observe(l), Count(l)], c) == Bit(ReportsTo(Observe(l), c)) + ReportsIn([Count(l)], c);
  }

  lemma DeletionReports(mem: InternalRequest)
    ensures ReportsIn(DeletionUpdates(mem), Counter) == Bit(!HasCompleted(mem.status))
    ensures ReportsIn(DeletionUpdates(mem), Histogram) == Bit(!HasCompleted(mem.status) && mem.status.startTime.Some?)
  {
    var l := LabelsFor(mem, DeletedReason, false);
    if mem.status.startTime.Some? {
      ClosingUpdatesReport(l, mem.status.startTime);
    }
    OneUpdateReports(Count(l));
  }

  lemma RemovalReports(w: World, k: Key, i: Input, mem: InternalRequest, c: Config)
    requires FlightOf(w, k) == Some(Busy(RemoveFinalizer, mem, c)) && mem.uid < |BooksOf(w, k)|
    ensures var us := DeletionUpdates(mem);
      HandsOver(w, DoRemoveFinalizer(w, k, i, mem), k, mem.uid, us) && IsDue(us, w.flights[k])
  {
    DeletionReports(mem);
    RemovalIsBooked(w, k, i, mem);
  }

  lemma RemovalIsBooked(w: World, k: Key, i: Input, mem: InternalRequest)
    requires mem.uid < |BooksOf(w, k)|
    ensures var w' := DoRemoveFinalizer(w, k, i, mem);
      && w'.meters == Spawn(w.meters, DeletionUpdates(mem))
      && exists landed ::
           BookAt(w'.history.books, k, mem.uid) == Removing(BookAt(w.history.books, k, mem.uid), mem, landed)
  {
    var landed := PatchFinalizers(IrOf(w, k), mem.finalizers - {FINALIZER}) != Refused && i.outcome != Lost;
    RemovalBook(w.history, k, mem, landed);
  }

  lemma RemovalBook(h: History, k: Key, mem: InternalRequest, landed: bool)
    requires k in h.books && mem.uid < |h.books[k]|
    ensures BookAt(RecordedRemoval(h, k, mem, landed).books, k, mem.uid) == Removing(BookAt(h.books, k, mem.uid), mem, landed)
  {
  }

  lemma QuietCallReports(w: World, k: Key, i: Input)
    requires PerformEnabled(w, k, i) && w.flights[k].Busy?
    requires !PatchesStatus(w.flights[k]) && !w.flights[k].call.RemoveFinalizer?
    ensures HandsOver(w, DoPerform(w, k, i), k, w.flights[k].mem.uid, []) && IsDue([], w.flights[k])
  {
    assert Spawn(w.meters, []) == w.meters;
    if !Writes(w.flights[k]) {
      ReadsOnlyMove(w, k, i);
    } else {
      QuietMeters(w, k, i);
      QuietWriteKeepsReports(w, k, i, w.flights[k].mem.uid);
    }
  }

  /** The books say the same of both collectors. */
  predicate SameReports(b: Book, b': Book) { b'.attempts == b.attempts && b'.observations == b.observations }

  lemma QuietWriteKeepsReports(w: World, k: Key, i: Input, uid: nat)
    requires PerformEnabled(w, k, i) && Writes(w.flights[k])
    requires !PatchesStatus(w.flights[k]) && !w.flights[k].call.RemoveFinalizer?
    ensures SameReports(BookAt(w.history.books, k, uid), BookAt(DoPerform(w, k, i).history.books, k, uid))
  {
    var Busy(call, mem, c) := w.flights[k];
    match call {
      case CreateRun => CreationKeepsReports(w, k, i, mem, c, uid);
      case CancelRun(_) =>
      case AddFinalizer =>
      case DeleteRun(_) =>
    }
  }

  lemma CreationKeepsReports(w: World, k: Key, i: Input, mem: InternalRequest, c: Config, uid: nat)
    ensures SameReports(BookAt(w.history.books, k, uid), BookAt(DoCreateRun(w, k, i, mem, c).history.books, k, uid))
  {
  }
}
