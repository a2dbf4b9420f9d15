/** Every step of the protocol keeps the invariant, and leaves alone every key but the one it concerns. */
module Preservation {
  import opened Common
  import opened References
  import opened Requests
  import opened PipelineRuns
  import opened Admission
  import opened Protocol
  import opened Invariant
  import opened KeyPreservation
  import opened WritePreservation

  /** The key an action concerns; process-wide actions concern none in particular. */
  function Concerns(w: World, a: Action): Option<Key>
    requires Enabled(w, a)
  {
    match a
    case UserCreate(k, _, _, _) => Some(k)
    case UserUpdate(k, _, _) => Some(k)
    case OtherFinalizers(k, _) => Some(k)
    case UserDelete(k) => Some(k)
    case RunUpdate(ref, _, _, _) => WatchedBy(w.runs[ref])
    case Pick(k) => Some(k)
    case Perform(k, _) => Some(k)
    case Finish(k) => Some(k)
    case _ => None
  }

  // ----- Isolation: other keys see nothing -----

  /** A run of one key can change, appear or go without another key noticing. */
  lemma OtherRuns(runs: map<Ref, Run>, r: Ref, run: Run, k: Key, k': Key)
    requires k != k' && Matches(run, k) && (r in runs ==> Matches(runs[r], k))
    ensures RunsOf(runs[r := run], k') == RunsOf(runs, k') && RunsOf(runs - {r}, k') == RunsOf(runs, k')
  {
    RunsOfPut(runs, r, run, k');
    RunsOfDrop(runs, r, k');
    assert r !in RunsOf(runs, k');
    assert RunsOf(runs, k') - {r} == RunsOf(runs, k');
  }

  lemma FlyIsolation(w: World, k: Key, f: Flight, k': Key)
    requires k != k'
    ensures View(Fly(w, k, f), k') == View(w, k')
  {
  }

  lemma MarkAndPatchIsolation(w: World, k: Key, mem: InternalRequest, m: Marked, outcome: Outcome, f: Flight, k': Key)
    requires k != k'
    ensures View(MarkAndPatch(w, k, mem, m, outcome, f), k') == View(w, k')
  {
  }

  lemma AdditionIsolation(w: World, k: Key, i: Input, mem: InternalRequest, k': Key)
    requires k != k'
    ensures View(DoAddFinalizer(w, k, i, mem), k') == View(w, k')
  {
  }

  lemma StoreElsewhere(irs: map<Key, InternalRequest>, k: Key, p: FinalizerPatch, k': Key)
    requires k != k'
    ensures k' in StoreIr(irs, k, p) <==> k' in irs
    ensures k' in irs ==> StoreIr(irs, k, p)[k'] == irs[k']
  {
  }

  lemma AmendElsewhere(books: map<Key, seq<Book>>, k: Key, uid: nat, b: Book, k': Key)
    requires k != k'
    ensures k' in AmendBook(books, k, uid, b) <==> k' in books
    ensures k' in books ==> AmendBook(books, k, uid, b)[k'] == books[k']
  {
  }

  lemma RemovalIsolation(w: World, k: Key, i: Input, mem: InternalRequest, k': Key)
    requires k != k'
    ensures View(DoRemoveFinalizer(w, k, i, mem), k') == View(w, k')
  {
    var p := PatchFinalizers(IrOf(w, k), mem.finalizers - {FINALIZER});
    var landed := p != Refused && i.outcome != Lost;
    StoreElsewhere(w.irs, k, if landed then p else Refused, k');
    AmendElsewhere(w.history.books, k, mem.uid,
                   Removing(BookAt(w.history.books, k, mem.uid), mem, landed), k');
    var w' := DoRemoveFinalizer(w, k, i, mem);
    assert IrOf(w', k') == IrOf(w, k') && BooksOf(w', k') == BooksOf(w, k');
    assert w'.runs == w.runs && w'.retired == w.retired;
  }

  lemma CancelRunIsolation(w: World, k: Key, i: Input, mem: InternalRequest, c: Config, ref: Ref, k': Key)
    requires k != k' && ref in RunsOf(w.runs, k)
    ensures View(DoCancelRun(w, k, i, mem, c, ref), k') == View(w, k')
  {
    OtherRuns(w.runs, ref, w.runs[ref].(cancelled := true), k, k');
  }

  lemma CreateRunIsolation(w: World, k: Key, i: Input, mem: InternalRequest, c: Config, k': Key)
    requires k != k' && (i.outcome != Lost ==> i.ref !in w.runs && Matches(i.run, k))
    ensures View(DoCreateRun(w, k, i, mem, c), k') == View(w, k')
  {
    if i.outcome != Lost {
      OtherRuns(w.runs, i.ref, i.run, k, k');
    }
  }

  lemma DeleteRunIsolation(w: World, k: Key, i: Input, ref: Ref, k': Key)
    requires k != k' && ref in RunsOf(w.runs, k) && ref !in w.retired
    ensures View(DoDeleteRun(w, k, i, ref), k') == View(w, k')
  {
    OtherRuns(w.runs, ref, w.runs[ref], k, k');
    OtherRuns(w.retired, ref, w.runs[ref], k, k');
  }

  /** Stored names are pairwise distinct and a due Create gets a new one, with a run that only its own key finds. */
  lemma CreatedRunIsFresh(w: World, k: Key, i: Input, mem: InternalRequest, c: Config)
    requires Inv(w) && FlightOf(w, k) == Some(Busy(CreateRun, mem, c)) && PerformEnabled(w, k, i) && i.outcome != Lost
    ensures i.ref !in w.runs && i.ref !in w.retired && SEPARATOR !in i.ref.namespace && SEPARATOR !in k.namespace
    ensures BelongsTo(i.run, k) && Executes(i.run, k.namespace, mem.spec)
  {
    assert KeyOk(w, k) && NameOk(w.runs, w.retired, w.history.births, i.ref);
    BuiltRunBelongs(i.run, mem);
  }

  predicate Writes(f: Flight) {
    f.Busy? && (f.call.CancelRun? || f.call.RemoveFinalizer? || f.call.AddFinalizer? || f.call.PatchRejected? ||
                f.call.CreateRun? || f.call.PatchRunning? || f.call.PatchTracked? || f.call.DeleteRun?)
  }

  predicate PatchesStatus(f: Flight) {
    f.Busy? && (f.call.PatchRejected? || f.call.PatchRunning? || f.call.PatchTracked?)
  }

  /** `w'` is `w` with the reconcile of `k` moved on, perhaps by a panic. */
  predicate Moves(w: World, w': World, k: Key) {
    k in w'.flights && w' == w.(flights := w.flights[k := w'.flights[k]], panics := w'.panics)
  }

  /** A call that does not write only moves the reconcile (or panics). */
  lemma ReadsOnlyMove(w: World, k: Key, i: Input)
    requires PerformEnabled(w, k, i) && !Writes(w.flights[k])
    ensures Moves(w, DoPerform(w, k, i), k)
  {
    if IsList(w.flights[k]) {
      ListsMove(w, k, i);
    } else {
      OtherReadsMove(w, k, i);
    }
  }

  predicate IsList(f: Flight) {
    f.Busy? && (f.call.ListForCreate? || f.call.ListForTrack? || f.call.ListTaskRuns? || f.call.ListForDelete?)
  }

  lemma CreateLookupMoves(w: World, k: Key, i: Input, mem: InternalRequest, c: Config)
    ensures Moves(w, DoListForCreate(w, k, i, mem, c), k)
  {
  }

  lemma TrackLookupMoves(w: World, k: Key, i: Input, mem: InternalRequest, c: Config)
    ensures Moves(w, DoListForTrack(w, k, i, mem, c), k)
  {
  }

  lemma DeleteLookupMoves(w: World, k: Key, i: Input, mem: InternalRequest, c: Config)
    ensures Moves(w, DoListForDelete(w, k, i, mem, c), k)
  {
  }

  lemma TaskRunListMoves(w: World, k: Key, i: Input, mem: InternalRequest, c: Config, ref: Ref, seen: Run)
    ensures Moves(w, DoListTaskRuns(w, k, i, mem, c, ref, seen), k)
  {
  }

  lemma ListsMove(w: World, k: Key, i: Input)
    requires PerformEnabled(w, k, i) && IsList(w.flights[k])
    ensures Moves(w, DoPerform(w, k, i), k)
  {
    var Busy(call, mem, c) := w.flights[k];
    match call {
      case ListTaskRuns(ref, seen) => TaskRunListMoves(w, k, i, mem, c, ref, seen);
      case ListForCreate => CreateLookupMoves(w, k, i, mem, c);
      case ListForTrack => TrackLookupMoves(w, k, i, mem, c);
      case ListForDelete => DeleteLookupMoves(w, k, i, mem, c);
    }
  }

  /** A move without a panic. */
  predicate CalmlyMoves(w: World, w': World, k: Key) {
    k in w'.flights && w' == w.(flights := w.flights[k := w'.flights[k]])
  }

  lemma FetchMoves(w: World, k: Key, i: Input)
    ensures CalmlyMoves(w, DoFetch(w, k, i), k)
  {
  }

  lemma FinalizeGetMoves(w: World, k: Key, i: Input, mem: InternalRequest, c: Config, ref: Ref)
    ensures CalmlyMoves(w, DoFinalizeGet(w, k, i, mem, c, ref), k)
  {
  }

  lemma FinalizeListMoves(w: World, k: Key, i: Input, mem: InternalRequest, c: Config)
    ensures CalmlyMoves(w, DoFinalizeList(w, k, i, mem, c), k)
  {
  }

  lemma LoadConfigMoves(w: World, k: Key, i: Input, mem: InternalRequest)
    ensures CalmlyMoves(w, DoLoadConfig(w, k, i, mem), k)
  {
  }

  lemma OtherReadsMove(w: World, k: Key, i: Input)
    requires PerformEnabled(w, k, i) && !Writes(w.flights[k]) && !IsList(w.flights[k])
    ensures CalmlyMoves(w, DoPerform(w, k, i), k)
  {
    match w.flights[k]
    case Fetching => FetchMoves(w, k, i);
    case Busy(call, mem, c) =>
      match call {
        case FinalizeGet(ref) => FinalizeGetMoves(w, k, i, mem, c, ref);
        case FinalizeList => FinalizeListMoves(w, k, i, mem, c);
        case LoadConfig => LoadConfigMoves(w, k, i, mem);
      }
  }

  /** What the status patches mark. */
  function Marking(f: Flight, now: int): Marked
    requires PatchesStatus(f)
  {
    match f.call
    case PatchRejected(message) => MarkedRejected(f.mem, message)
    case PatchRunning => MarkedRunning(f.mem, now)
    case PatchTracked(ref, seen, message) => Tracked(f.mem, ref, seen, message, now)
  }

  lemma PatchesMark(w: World, k: Key, i: Input)
    requires PerformEnabled(w, k, i) && PatchesStatus(w.flights[k])
    ensures var w' := DoPerform(w, k, i);
            && k in w'.flights
            && w' == MarkAndPatch(w, k, w.flights[k].mem, Marking(w.flights[k], i.now), i.outcome, w'.flights[k])
  {
  }

  lemma PerformIsolation(w: World, k: Key, i: Input, k': Key)
    requires Inv(w) && PerformEnabled(w, k, i) && k != k'
    ensures View(DoPerform(w, k, i), k') == View(w, k')
  {
    var f, w' := w.flights[k], DoPerform(w, k, i);
    if !Writes(f) {
      ReadsOnlyMove(w, k, i);
      FlyIsolation(w, k, w'.flights[k], k');
    } else if PatchesStatus(f) {
      PatchesMark(w, k, i);
      MarkAndPatchIsolation(w, k, f.mem, Marking(f, i.now), i.outcome, w'.flights[k], k');
    } else {
      WriteIsolation(w, k, i, k');
    }
  }

  lemma WriteIsolation(w: World, k: Key, i: Input, k': Key)
    requires Inv(w) && PerformEnabled(w, k, i) && Writes(w.flights[k]) && !PatchesStatus(w.flights[k]) && k != k'
    ensures View(DoPerform(w, k, i), k') == View(w, k')
  {
    var Busy(call, mem, c) := w.flights[k];
    match call {
      case CancelRun(ref) => DueRunIsOwn(w, k, mem, c, call, ref); CancelRunIsolation(w, k, i, mem, c, ref, k');
      case RemoveFinalizer => RemovalIsolation(w, k, i, mem, k');
      case AddFinalizer => AdditionIsolation(w, k, i, mem, k');
      case CreateRun =>
        if i.outcome != Lost { CreatedRunIsFresh(w, k, i, mem, c); }
        CreateRunIsolation(w, k, i, mem, c, k');
      case DeleteRun(ref) => DueRunIsOwn(w, k, mem, c, call, ref); DeleteRunIsolation(w, k, i, ref, k');
    }
  }

  lemma DueRunIsOwn(w: World, k: Key, mem: InternalRequest, c: Config, call: Call, ref: Ref)
    requires Inv(w) && FlightOf(w, k) == Some(Busy(call, mem, c)) && (call == CancelRun(ref) || call == DeleteRun(ref))
    ensures ref in RunsOf(w.runs, k) && ref !in w.retired
  {
    assert KeyOk(w, k) && NameOk(w.runs, w.retired, w.history.births, ref);
    assert ref in RunsOf(w.runs, k);
  }

  // ----- The key of the reconcile -----

  lemma RunNameIsValid(w: World, k: Key, mem: InternalRequest, c: Config, ref: Ref, seen: Run, message: string)
    requires Inv(w) && FlightOf(w, k) == Some(Busy(PatchTracked(ref, seen, message), mem, c))
    ensures SEPARATOR !in ref.namespace
  {
    assert KeyOk(w, k) && NameOk(w.runs, w.retired, w.history.births, ref);
    assert ref in RunsOf(w.runs, k);
  }

  lemma FinalizeReadsKeepKey(w: World, k: Key, i: Input)
    requires Inv(w) && PerformEnabled(w, k, i)
    requires !Writes(w.flights[k]) && !IsList(w.flights[k])
    ensures KeyOk(DoPerform(w, k, i), k) && DoPerform(w, k, i).panics == w.panics
  {
    assert KeyOk(w, k);
    match w.flights[k]
    case Fetching => FetchKeepsKey(w, k, i);
    case Busy(call, mem, c) =>
      match call {
        case FinalizeGet(ref) => FinalizeGetKeepsKey(w, k, i, mem, c, ref);
        case FinalizeList => FinalizeListKeepsKey(w, k, i, mem, c);
        case LoadConfig => LoadConfigKeepsKey(w, k, i, mem, c);
      }
  }

  lemma ListsKeepKey(w: World, k: Key, i: Input)
    requires Inv(w) && PerformEnabled(w, k, i)
    requires IsList(w.flights[k])
    ensures KeyOk(DoPerform(w, k, i), k) && DoPerform(w, k, i).panics == w.panics
  {
    assert KeyOk(w, k);
    var Busy(call, mem, c) := w.flights[k];
    match call {
      case ListForCreate => ListForCreateKeepsKey(w, k, i, mem, c);
      case ListForTrack => ListForTrackKeepsKey(w, k, i, mem, c);
      case ListTaskRuns(ref, seen) => ListTaskRunsKeepsKey(w, k, i, mem, c, ref, seen);
      case ListForDelete => ListForDeleteKeepsKey(w, k, i, mem, c);
    }
  }

  lemma PatchesKeepKey(w: World, k: Key, i: Input)
    requires Inv(w) && PerformEnabled(w, k, i) && PatchesStatus(w.flights[k])
    ensures KeyOk(DoPerform(w, k, i), k)
  {
    assert KeyOk(w, k);
    var Busy(call, mem, c) := w.flights[k];
    match call {
      case PatchRejected(message) => PatchRejectedKeepsKey(w, k, i, mem, c, message);
      case PatchRunning => PatchRunningKeepsKey(w, k, i, mem, c);
      case PatchTracked(ref, seen, message) =>
        RunNameIsValid(w, k, mem, c, ref, seen, message);
        PatchTrackedKeepsKey(w, k, i, mem, c, ref, seen, message);
    }
  }

  lemma WritesKeepKey(w: World, k: Key, i: Input)
    requires Inv(w) && PerformEnabled(w, k, i) && Writes(w.flights[k]) && !PatchesStatus(w.flights[k])
    ensures KeyOk(DoPerform(w, k, i), k)
  {
    assert KeyOk(w, k);
    var Busy(call, mem, c) := w.flights[k];
    match call {
      case CancelRun(ref) => CancelRunKeepsKey(w, k, i, mem, c, ref);
      case RemoveFinalizer => RemoveFinalizerKeepsKey(w, k, i, mem, c);
      case AddFinalizer => AddFinalizerKeepsKey(w, k, i, mem, c);
      case CreateRun =>
        if i.outcome != Lost { CreatedRunIsFresh(w, k, i, mem, c); }
        CreateRunKeepsKey(w, k, i, mem, c);
      case DeleteRun(ref) => DeleteRunKeepsKey(w, k, i, mem, c, ref);
    }
  }

  // ----- The runs -----

  lemma PutKeepsNames(runs: map<Ref, Run>, retired: map<Ref, Run>, births: map<Ref, Birth>, r: Ref, run: Run, x: Ref)
    requires NameOk(runs, retired, births, r) && NameOk(runs, retired, births, x)
    requires r in runs && MadeFrom(run, births[r])
    ensures NameOk(runs[r := run], retired, births, x)
  {
  }

  lemma CreateKeepsNames(runs: map<Ref, Run>, retired: map<Ref, Run>, births: map<Ref, Birth>,
                         r: Ref, run: Run, b: Birth, x: Ref)
    requires NameOk(runs, retired, births, r) && NameOk(runs, retired, births, x) && r !in births
    requires MadeFrom(run, b) && SEPARATOR !in r.namespace && SEPARATOR !in b.key.namespace
    requires Admitted(b.config, b.key.namespace, b.spec)
    ensures NameOk(runs[r := run], retired, births[r := b], x)
  {
  }

  lemma DeleteKeepsNames(runs: map<Ref, Run>, retired: map<Ref, Run>, births: map<Ref, Birth>, r: Ref, x: Ref)
    requires NameOk(runs, retired, births, r) && NameOk(runs, retired, births, x) && r in runs
    ensures NameOk(runs - {r}, retired[r := runs[r]], births, x)
  {
  }

  lemma PerformKeepsRuns(w: World, k: Key, i: Input)
    requires Inv(w) && PerformEnabled(w, k, i)
    ensures RunsOk(DoPerform(w, k, i))
  {
    var f := w.flights[k];
    if !Writes(f) {
      ReadsOnlyMove(w, k, i);
    } else if PatchesStatus(f) {
      PatchesMark(w, k, i);
    } else {
      match f.call {
        case CancelRun(ref) =>
          DueRunIsOwn(w, k, f.mem, f.config, f.call, ref);
          CancelKeepsRuns(w, k, i, f.mem, f.config, ref);
        case CreateRun =>
          if i.outcome != Lost { CreatedRunIsFresh(w, k, i, f.mem, f.config); }
          CreateKeepsRuns(w, k, i, f.mem, f.config);
        case DeleteRun(ref) =>
          DueRunIsOwn(w, k, f.mem, f.config, f.call, ref);
          DeleteKeepsRuns(w, k, i, ref);
        case _ =>
      }
    }
  }

  lemma CancelKeepsRuns(w: World, k: Key, i: Input, mem: InternalRequest, c: Config, ref: Ref)
    requires RunsOk(w) && ref in w.runs
    ensures RunsOk(DoCancelRun(w, k, i, mem, c, ref))
  {
    var w' := DoCancelRun(w, k, i, mem, c, ref);
    forall x ensures NameOk(w'.runs, w'.retired, w'.history.births, x) {
      assert NameOk(w.runs, w.retired, w.history.births, x) && NameOk(w.runs, w.retired, w.history.births, ref);
      PutKeepsNames(w.runs, w.retired, w.history.births, ref, w.runs[ref].(cancelled := true), x);
    }
  }

  lemma CreateKeepsRuns(w: World, k: Key, i: Input, mem: InternalRequest, c: Config)
    requires RunsOk(w) && KeyOk(w, k) && FlightOf(w, k) == Some(Busy(CreateRun, mem, c))
    requires i.outcome != Lost ==>
      && i.ref !in w.history.births && BelongsTo(i.run, k) && Executes(i.run, k.namespace, mem.spec)
      && SEPARATOR !in i.ref.namespace && SEPARATOR !in k.namespace
    ensures RunsOk(DoCreateRun(w, k, i, mem, c))
  {
    var w' := DoCreateRun(w, k, i, mem, c);
    if i.outcome != Lost {
      forall x ensures NameOk(w'.runs, w'.retired, w'.history.births, x) {
        assert NameOk(w.runs, w.retired, w.history.births, x) && NameOk(w.runs, w.retired, w.history.births, i.ref);
        CreateKeepsNames(w.runs, w.retired, w.history.births, i.ref, i.run, Birth(k, mem.uid, mem.spec, c), x);
      }
    }
  }

  lemma DeleteKeepsRuns(w: World, k: Key, i: Input, ref: Ref)
    requires RunsOk(w) && ref in w.runs
    ensures RunsOk(DoDeleteRun(w, k, i, ref))
  {
    var w' := DoDeleteRun(w, k, i, ref);
    forall x ensures NameOk(w'.runs, w'.retired, w'.history.births, x) {
      assert NameOk(w.runs, w.retired, w.history.births, x) && NameOk(w.runs, w.retired, w.history.births, ref);
      DeleteKeepsNames(w.runs, w.retired, w.history.births, ref, x);
    }
  }
}
