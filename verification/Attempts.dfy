/** The collectors against the books: over whole runs, each attempt or observation in a book is one update and vice versa. */
module Attempts {
  import opened Common
  import opened Metrics
  import opened Requests
  import opened Protocol
  import opened Invariant
  import opened Preservation
  import opened Runs
  import opened Flawless
  import opened Reporting

  // ----- All reports in a multiset of updates -----

  ghost function ReportTotal(us: multiset<Update>, c: Collector): nat
    decreases |us|
  {
    if us == multiset{} then 0
    else
      var u :| u in us;
      Bit(ReportsTo(u, c)) + ReportTotal(us - multiset{u}, c)
  }

  lemma TwoOut(us: multiset<Update>, u: Update, v: Update)
    requires u in us && v in us && u != v
    ensures u in us - multiset{v} && v in us - multiset{u}
    ensures |us - multiset{u}| < |us| && |us - multiset{v}| < |us|
    ensures us - multiset{v} - multiset{u} == us - multiset{u} - multiset{v}
  {
  }

  /** The order in which the updates are counted does not matter. */
  lemma {:induction false} ReportOut(us: multiset<Update>, u: Update, c: Collector)
    requires u in us
    ensures ReportTotal(us, c) == Bit(ReportsTo(u, c)) + ReportTotal(us - multiset{u}, c)
    decreases |us|
  {
    var v :| v in us && ReportTotal(us, c) == Bit(ReportsTo(v, c)) + ReportTotal(us - multiset{v}, c);
    if v != u {
      TwoOut(us, u, v);
      ReportOut(us - multiset{v}, u, c);
      ReportOut(us - multiset{u}, v, c);
    }
  }

  lemma {:induction false} ReportAdd(us: multiset<Update>, more: seq<Update>, c: Collector)
    ensures ReportTotal(us + multiset(more), c) == ReportTotal(us, c) + ReportsIn(more, c)
    decreases |more|
  {
    if more == [] {
      assert us + multiset(more) == us;
    } else {
      assert more == [more[0]] + more[1..];
      ReportAdd(us + multiset{more[0]}, more[1..], c);
      ReportOut(us + multiset{more[0]}, more[0], c);
      assert us + multiset{more[0]} - multiset{more[0]} == us;
      assert us + multiset(more) == us + multiset{more[0]} + multiset(more[1..]);
    }
  }

  // ----- All reports in all books -----

  function ReportedIn(books: seq<Book>, c: Collector): nat {
    if books == [] then 0 else ReportedIn(books[..|books| - 1], c) + Reported(books[|books| - 1], c)
  }

  ghost function ReportedTotal(books: map<Key, seq<Book>>, c: Collector): nat
    decreases |books|
  {
    if books == map[] then 0
    else
      var k :| k in books;
      WithoutIsSmaller(books, k);
      ReportedIn(books[k], c) + ReportedTotal(books - {k}, c)
  }

  lemma WithoutIsSmaller(books: map<Key, seq<Book>>, k: Key)
    requires k in books
    ensures |books - {k}| == |books| - 1
  {
    assert (books - {k}).Keys == books.Keys - {k};
    assert |books| == |books.Keys| && |books - {k}| == |(books - {k}).Keys|;
  }

  lemma {:induction false} ReportedOut(books: map<Key, seq<Book>>, k: Key, c: Collector)
    requires k in books
    ensures ReportedTotal(books, c) == ReportedIn(books[k], c) + ReportedTotal(books - {k}, c)
    decreases |books|
  {
    var x :| x in books && ReportedTotal(books, c) == ReportedIn(books[x], c) + ReportedTotal(books - {x}, c);
    if x != k {
      WithoutIsSmaller(books, x);
      WithoutIsSmaller(books, k);
      ReportedOut(books - {x}, k, c);
      ReportedOut(books - {k}, x, c);
      assert books - {x} - {k} == books - {k} - {x};
    }
  }

  /** Replacing the books of one key. */
  lemma ReportedOfPut(books: map<Key, seq<Book>>, k: Key, bs: seq<Book>, c: Collector)
    ensures ReportedTotal(books[k := bs], c) + (if k in books then ReportedIn(books[k], c) else 0) ==
            ReportedTotal(books, c) + ReportedIn(bs, c)
  {
    ReportedOut(books[k := bs], k, c);
    assert books[k := bs] - {k} == books - {k};
    if k in books {
      ReportedOut(books, k, c);
    } else {
      assert books - {k} == books;
    }
  }

  lemma {:induction false} ReportedOfAmended(bs: seq<Book>, i: nat, b: Book, c: Collector)
    requires i < |bs|
    ensures ReportedIn(bs[i := b], c) + Reported(bs[i], c) == ReportedIn(bs, c) + Reported(b, c)
  {
    var n := |bs| - 1;
    if i < n {
      ReportedOfAmended(bs[..n], i, b, c);
      assert bs[i := b][..n] == bs[..n][i := b];
    } else {
      assert bs[i := b][..n] == bs[..n];
    }
  }

  lemma ReportedOfAmend(books: map<Key, seq<Book>>, k: Key, uid: nat, b: Book, c: Collector)
    ensures var books' := AmendBook(books, k, uid, b);
      ReportedTotal(books', c) + Reported(BookAt(books, k, uid), c) ==
        ReportedTotal(books, c) + Reported(BookAt(books', k, uid), c)
  {
    if k in books && uid < |books[k]| {
      ReportedOfAmended(books[k], uid, b, c);
      ReportedOfPut(books, k, books[k][uid := b], c);
    }
  }

  // ----- The invariant -----

  ghost predicate AddsUp(w: World, c: Collector) {
    ReportTotal(w.meters.emitted, c) == ReportedTotal(w.history.books, c)
  }

  /** Only the book of one incarnation is amended. */
  predicate AmendsOne(books: map<Key, seq<Book>>, books': map<Key, seq<Book>>, k: Key, uid: nat) {
    books' == AmendBook(books, k, uid, BookAt(books', k, uid))
  }

  lemma AmendingIsOne(books: map<Key, seq<Book>>, k: Key, uid: nat, b: Book)
    ensures AmendsOne(books, AmendBook(books, k, uid, b), k, uid) && AmendsOne(books, books, k, uid)
  {
    if k in books && uid < |books[k]| {
      assert books[k][uid := books[k][uid]] == books[k];
      assert books[k := books[k]] == books;
    }
  }

  lemma CallAmendsOne(w: World, k: Key, i: Input)
    requires PerformEnabled(w, k, i) && w.flights[k].Busy?
    ensures AmendsOne(w.history.books, DoPerform(w, k, i).history.books, k, w.flights[k].mem.uid)
  {
    var Busy(call, mem, c) := w.flights[k];
    var b := BookAt(w.history.books, k, mem.uid);
    if !Writes(w.flights[k]) {
      ReadsOnlyMove(w, k, i);
      AmendingIsOne(w.history.books, k, mem.uid, b);
    } else if PatchesStatus(w.flights[k]) {
      PatchesMark(w, k, i);
      AmendingIsOne(w.history.books, k, mem.uid, Closing(b, mem, Marking(w.flights[k], i.now).status,
                                                                k in w.irs && i.outcome != Lost));
    } else {
      OtherWriteAmendsOne(w, k, i);
    }
  }

  lemma OtherWriteAmendsOne(w: World, k: Key, i: Input)
    requires PerformEnabled(w, k, i) && Writes(w.flights[k]) && !PatchesStatus(w.flights[k])
    ensures AmendsOne(w.history.books, DoPerform(w, k, i).history.books, k, w.flights[k].mem.uid)
  {
    var Busy(call, mem, c) := w.flights[k];
    var b := BookAt(w.history.books, k, mem.uid);
    match call {
      case RemoveFinalizer => RemovalAmendsOne(w, k, i, mem);
      case CreateRun => AmendingIsOne(w.history.books, k, mem.uid, b.(creates := b.creates + 1));
      case AddFinalizer => AmendingIsOne(w.history.books, k, mem.uid, b);
      case CancelRun(_) => AmendingIsOne(w.history.books, k, mem.uid, b);
      case DeleteRun(_) => AmendingIsOne(w.history.books, k, mem.uid, b);
    }
  }

  lemma RemovalAmendsOne(w: World, k: Key, i: Input, mem: InternalRequest)
    ensures AmendsOne(w.history.books, DoRemoveFinalizer(w, k, i, mem).history.books, k, mem.uid)
  {
    var p := PatchFinalizers(IrOf(w, k), mem.finalizers - {FINALIZER});
    AmendingIsOne(w.history.books, k, mem.uid, Removing(BookAt(w.history.books, k, mem.uid), mem,
                                                               p != Refused && i.outcome != Lost));
  }

  lemma CallAddsUp(w: World, k: Key, i: Input, c: Collector)
    requires Inv(w) && PerformEnabled(w, k, i) && AddsUp(w, c)
    ensures AddsUp(DoPerform(w, k, i), c)
  {
    if w.flights[k].Fetching? {
      ReadsOnlyMove(w, k, i);
    } else {
      CallReports(w, k, i);
      CallAmendsOne(w, k, i);
      var us :| HandsOver(w, DoPerform(w, k, i), k, w.flights[k].mem.uid, us);
      ReportAddsUp(w, DoPerform(w, k, i), k, w.flights[k].mem.uid, us, c);
    }
  }

  lemma ReportAddsUp(w: World, w': World, k: Key, uid: nat, us: seq<Update>, c: Collector)
    requires AddsUp(w, c) && HandsOver(w, w', k, uid, us) && AmendsOne(w.history.books, w'.history.books, k, uid)
    ensures AddsUp(w', c)
  {
    ReportAdd(w.meters.emitted, us, c);
    ReportedOfAmend(w.history.books, k, uid, BookAt(w'.history.books, k, uid), c);
  }

  lemma NewBookAddsUp(w: World, k: Key, spec: Spec, labels: map<string, string>, finalizers: set<string>, c: Collector)
    requires AddsUp(w, c)
    ensures AddsUp(DoUserCreate(w, k, spec, labels, finalizers), c)
  {
    var books, b := BooksOf(w, k), NEW_BOOK;
    ReportedOfPut(w.history.books, k, books + [b], c);
    assert (books + [b])[..|books|] == books;
  }

  lemma {:induction false} ResetReports(bs: seq<Book>, c: Collector)
    ensures ReportedIn(ResetBooks(bs), c) == 0
  {
    if bs != [] {
      ResetReports(bs[..|bs| - 1], c);
      assert ResetBooks(bs)[..|bs| - 1] == ResetBooks(bs[..|bs| - 1]);
    }
  }

  lemma {:induction false} NoReports(books: map<Key, seq<Book>>, c: Collector)
    requires forall k :: k in books ==> ReportedIn(books[k], c) == 0
    ensures ReportedTotal(books, c) == 0
    decreases |books|
  {
    if k :| k in books {
      ReportedOut(books, k, c);
      WithoutIsSmaller(books, k);
      NoReports(books - {k}, c);
    } else {
      assert books == map[];
    }
  }

  lemma CrashAddsUp(w: World, c: Collector)
    ensures AddsUp(DoCrash(w), c)
  {
    var books := DoCrash(w).history.books;
    forall k | k in books ensures ReportedIn(books[k], c) == 0 {
      ResetReports(w.history.books[k], c);
    }
    NoReports(books, c);
  }

  lemma StepAddsUp(w: World, a: Action, c: Collector)
    requires Inv(w) && Enabled(w, a) && AddsUp(w, c)
    ensures AddsUp(Step(w, a), c)
  {
    if a.Perform? {
      CallAddsUp(w, a.key, a.input, c);
    } else if a.UserCreate? {
      NewBookAddsUp(w, a.key, a.spec, a.labels, a.finalizers, c);
    } else if a.Crash? {
      CrashAddsUp(w, c);
    } else {
      OtherStepKeepsHistory(w, a);
    }
  }

  lemma {:induction false} RunAddsUp(w: World, actions: seq<Action>, c: Collector)
    requires Inv(w) && Legal(w, actions) && AddsUp(w, c)
    ensures AddsUp(After(w, actions), c)
    decreases |actions|
  {
    if actions != [] {
      StepKeepsInv(w, actions[0]);
      StepAddsUp(w, actions[0], c);
      RunAddsUp(Step(w, actions[0]), actions[1..], c);
    }
  }

  /** In every reachable world, what the books of all incarnations say they reported to a collector is all it was handed. */
  lemma ReportsAddUp(w: World, c: Collector)
    requires Reachable(w)
    ensures ReportTotal(w.meters.emitted, c) == ReportedTotal(w.history.books, c)
  {
    var w0, actions :| Initial(w0) && Legal(w0, actions) && After(w0, actions) == w;
    InitialWorldIsSound(w0);
    RunAddsUp(w0, actions, c);
  }
}
