/** One process lifetime in which no announced patch is lost, whatever else fails: each attempt counts once. */
module Flawless {
  import opened Requests
  import opened Admission
  import opened Protocol
  import opened Invariant
  import opened Preservation
  import opened Runs

  /** The server refuses a removal whose list would bring back a finalizer that someone else removed meanwhile. */
  predicate RemovalRefused(w: World, k: Key) {
    && k in w.flights && w.flights[k].Busy? && w.flights[k].call.RemoveFinalizer?
    && PatchFinalizers(IrOf(w, k), w.flights[k].mem.finalizers - {FINALIZER}) == Refused
  }

  /** The call takes effect on the stored object, whatever the client is told. */
  predicate TakesEffect(w: World, k: Key, i: Input) { i.outcome != Lost && !RemovalRefused(w, k) }

  /** The patches that the metrics announce: those of the status, and the finalizer removal. */
  predicate Announced(f: Flight) { PatchesStatus(f) || (f.Busy? && f.call.RemoveFinalizer?) }

  /** No crash, and no loss of an announced patch; every other call may fail, and a patch may land with an error. */
  predicate Lands(w: World, a: Action) {
    !a.Crash? && (a.Perform? && a.key in w.flights && Announced(w.flights[a.key]) ==> TakesEffect(w, a.key, a.input))
  }

  predicate Lossless(w: World, actions: seq<Action>)
    decreases |actions|
  {
    actions == [] || (Enabled(w, actions[0]) && Lands(w, actions[0]) && Lossless(Step(w, actions[0]), actions[1..]))
  }

  // ----- The history of such a lifetime -----

  predicate CleanBook(b: Book) { b.dropped == 0 }

  /** Nothing was lost since the process started. */
  ghost predicate Clean(h: History) {
    && h.ledger.lostStarts == 0 && h.ledger.lostFinishes == 0 && h.ledger.lostRemovals == 0
    && forall k :: k in h.books ==> CleanBooks(h.books[k])
  }

  predicate CleanBooks(books: seq<Book>) {
    forall j :: 0 <= j < |books| ==> CleanBook(books[j])
  }

  lemma AmendedClean(h: History, h': History, k: Key, uid: nat, b: Book)
    requires Clean(h) && CleanBook(b) && h'.books == AmendBook(h.books, k, uid, b)
    requires h'.ledger == h.ledger.(rejections := h'.ledger.rejections)
    ensures Clean(h')
  {
    forall x | x in h'.books ensures CleanBooks(h'.books[x]) {
      assert CleanBooks(h.books[x]);
    }
  }

  lemma CleanBookAt(h: History, k: Key, uid: nat)
    requires Clean(h)
    ensures CleanBook(BookAt(h.books, k, uid))
  {
    if k in h.books { assert CleanBooks(h.books[k]); }
  }

  lemma PatchStaysClean(h: History, k: Key, mem: InternalRequest, m: Marked)
    requires Clean(h)
    ensures Clean(Recorded(h, k, mem, m, true))
  {
    CleanBookAt(h, k, mem.uid);
    if Closes(mem, m) {
      AmendedClean(h, Recorded(h, k, mem, m, true), k, mem.uid, Closing(BookAt(h.books, k, mem.uid), mem, m.status, true));
    }
  }

  lemma RemovalStaysClean(h: History, k: Key, mem: InternalRequest)
    requires Clean(h)
    ensures Clean(RecordedRemoval(h, k, mem, true))
  {
    CleanBookAt(h, k, mem.uid);
    AmendedClean(h, RecordedRemoval(h, k, mem, true), k, mem.uid,
                 Removing(BookAt(h.books, k, mem.uid), mem, true));
  }

  lemma CreationStaysClean(w: World, k: Key, i: Input, mem: InternalRequest, c: Config)
    requires Clean(w.history)
    ensures Clean(DoCreateRun(w, k, i, mem, c).history)
  {
    CleanBookAt(w.history, k, mem.uid);
    if i.outcome != Lost {
      var b := BookAt(w.history.books, k, mem.uid);
      AmendedClean(w.history, DoCreateRun(w, k, i, mem, c).history, k, mem.uid, b.(creates := b.creates + 1));
    }
  }

  lemma OtherWriteStaysClean(w: World, k: Key, i: Input)
    requires PerformEnabled(w, k, i) && Writes(w.flights[k]) && !PatchesStatus(w.flights[k])
    requires Clean(w.history) && Lands(w, Perform(k, i))
    ensures Clean(DoPerform(w, k, i).history)
    ensures DoPerform(w, k, i).history.ledger.baseline == w.history.ledger.baseline
  {
    var Busy(call, mem, c) := w.flights[k];
    match call {
      case CreateRun => CreationStaysClean(w, k, i, mem, c);
      case RemoveFinalizer => RemovalStaysClean(w.history, k, mem);
      case CancelRun(_) =>
      case AddFinalizer =>
      case DeleteRun(_) =>
    }
  }

  lemma CallStaysClean(w: World, k: Key, i: Input)
    requires Inv(w) && PerformEnabled(w, k, i) && Clean(w.history) && Lands(w, Perform(k, i))
    ensures Clean(DoPerform(w, k, i).history)
    ensures DoPerform(w, k, i).history.ledger.baseline == w.history.ledger.baseline
  {
    assert KeyOk(w, k);
    var f := w.flights[k];
    if !Writes(f) {
      ReadsOnlyMove(w, k, i);
    } else if PatchesStatus(f) {
      assert k in w.irs;
      PatchesMark(w, k, i);
      PatchStaysClean(w.history, k, f.mem, Marking(f, i.now));
    } else {
      OtherWriteStaysClean(w, k, i);
    }
  }

  lemma NewBookStaysClean(w: World, k: Key, spec: Spec, labels: map<string, string>, finalizers: set<string>)
    requires Clean(w.history)
    ensures Clean(DoUserCreate(w, k, spec, labels, finalizers).history)
  {
    var h' := DoUserCreate(w, k, spec, labels, finalizers).history;
    forall x | x in h'.books ensures CleanBooks(h'.books[x]) {
      if x in w.history.books { assert CleanBooks(w.history.books[x]); }
    }
  }

  lemma StepStaysClean(w: World, a: Action)
    requires Inv(w) && Enabled(w, a) && Lands(w, a) && Clean(w.history)
    ensures Clean(Step(w, a).history) && Step(w, a).history.ledger.baseline == w.history.ledger.baseline
  {
    if a.Perform? {
      CallStaysClean(w, a.key, a.input);
    } else if a.UserCreate? {
      NewBookStaysClean(w, a.key, a.spec, a.labels, a.finalizers);
    } else {
      OtherStepKeepsHistory(w, a);
    }
  }

  lemma OtherStepKeepsHistory(w: World, a: Action)
    requires Enabled(w, a) && !a.Perform? && !a.UserCreate? && !a.Crash?
    ensures Step(w, a).history == w.history && Step(w, a).meters.emitted == w.meters.emitted && (w.up ==> Step(w, a).up)
  {
  }

  lemma {:induction false} RunStaysClean(w: World, actions: seq<Action>)
    requires Inv(w) && Lossless(w, actions) && Legal(w, actions) && Clean(w.history)
    ensures Inv(After(w, actions)) && Clean(After(w, actions).history)
    ensures After(w, actions).history.ledger.baseline == w.history.ledger.baseline
    decreases |actions|
  {
    if actions != [] {
      StepKeepsInv(w, actions[0]);
      StepStaysClean(w, actions[0]);
      RunStaysClean(Step(w, actions[0]), actions[1..]);
    }
  }

  // ----- A process that has not started yet -----

  /** Before a process starts, it has handed over no update and counted no deviation. */
  ghost predicate Fresh(w: World) {
    !w.up ==> w.meters.emitted == multiset{} && w.history.ledger.rejections == 0 && Clean(w.history)
  }

  lemma CrashIsFresh(w: World)
    ensures Fresh(DoCrash(w))
  {
    forall k | k in w.history.books ensures CleanBooks(ResetBooks(w.history.books[k])) {}
  }

  lemma StepStaysFresh(w: World, a: Action)
    requires Inv(w) && Enabled(w, a) && Fresh(w)
    ensures Fresh(Step(w, a))
  {
    if a.Crash? {
      CrashIsFresh(w);
    } else if a.Perform? {
      assert KeyOk(w, a.key);
      CallKeepsUp(w, a.key, a.input);
    } else if a.UserCreate? {
      NewBookStaysFresh(w, a.key, a.spec, a.labels, a.finalizers);
    } else {
      OtherStepKeepsHistory(w, a);
    }
  }

  lemma NewBookStaysFresh(w: World, k: Key, spec: Spec, labels: map<string, string>, finalizers: set<string>)
    requires Fresh(w)
    ensures Fresh(DoUserCreate(w, k, spec, labels, finalizers))
  {
    if !w.up { NewBookStaysClean(w, k, spec, labels, finalizers); }
  }

  lemma CallKeepsUp(w: World, k: Key, i: Input)
    requires PerformEnabled(w, k, i)
    ensures DoPerform(w, k, i).up == w.up
  {
    if !Writes(w.flights[k]) {
      ReadsOnlyMove(w, k, i);
    } else if PatchesStatus(w.flights[k]) {
      PatchesMark(w, k, i);
    } else {
      OtherWritesAreFramed(w, k, i);
    }
  }

  lemma {:induction false} RunStaysFresh(w: World, actions: seq<Action>)
    requires Inv(w) && Legal(w, actions) && Fresh(w)
    ensures Inv(After(w, actions)) && Fresh(After(w, actions))
    decreases |actions|
  {
    if actions != [] {
      StepKeepsInv(w, actions[0]);
      StepStaysFresh(w, actions[0]);
      RunStaysFresh(Step(w, actions[0]), actions[1..]);
    }
  }

  lemma DownIsFresh(w: World)
    requires Reachable(w) && !w.up
    ensures Inv(w) && Clean(w.history) && w.history.ledger.rejections == 0
    ensures w.history.ledger.baseline == |ActiveKeys(w.irs)|
  {
    var w0, actions :| Initial(w0) && Legal(w0, actions) && After(w0, actions) == w;
    InitialWorldIsSound(w0);
    RunStaysFresh(w0, actions);
  }

  // ----- The theorem -----

  /**
    One process lifetime in which no announced patch was lost: each incarnation whose finalizer was removed was reported as an
    attempt exactly once, unless it had been closed before the process started, in which case it was not reported again.
  */
  lemma AttemptsCountedOnce(w0: World, actions: seq<Action>, k: Key, i: nat)
    requires Reachable(w0) && !w0.up && Lossless(w0, actions) && Legal(w0, actions)
    requires i < |BooksOf(After(w0, actions), k)| && BooksOf(After(w0, actions), k)[i].finalized
    ensures var b := BooksOf(After(w0, actions), k)[i]; b.attempts == if b.closedBefore then 0 else 1
  {
    DownIsFresh(w0);
    RunStaysClean(w0, actions);
    var w := After(w0, actions);
    assert KeyOk(w, k);
    assert BookOk(BooksOf(w, k)[i]) && CleanBooks(w.history.books[k]);
  }
}
