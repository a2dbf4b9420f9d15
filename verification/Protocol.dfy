/**
  The reconcile protocol at the granularity of API calls. A `World` holds the two clusters, the controller (work queue
  and reconciles in flight), the metrics and a few history variables. An `Action` is one step of a user, of Tekton, of
  the process or of one in-flight reconcile, which performs one API call and all local work up to the next one.
*/
module Protocol {
  import opened Common
  import opened References
  import opened Metrics
  import opened Requests
  import opened PipelineRuns
  import opened Admission

  type Key = NamespacedName
  type Ref = NamespacedName

  /** `Lost`: the call failed without effect. `Applied`: it took effect but the client saw an error. */
  datatype Outcome = Ok | Lost | Applied

  /** What the environment supplies to one call: its fate, the clock, and the item a List picks or the run a Create stores. */
  datatype Input = Input(outcome: Outcome, now: int, ref: Ref, run: Run)

  /** The next API call of a reconcile, with the local variables it needs. */
  datatype Call =
    | FinalizeGet(ref: Ref)
    | FinalizeList
    | CancelRun(ref: Ref)
    | RemoveFinalizer
    | AddFinalizer
    | LoadConfig
    | PatchRejected(message: string)
    | ListForCreate
    | CreateRun
    | PatchRunning
    | ListForTrack
    | ListTaskRuns(ref: Ref, seen: Run)
    | PatchTracked(ref: Ref, seen: Run, message: string)
    | ListForDelete
    | DeleteRun(ref: Ref)

  /** `mem` is the adapter's copy of the request; `config` is the zero config until it has been loaded. */
  datatype Flight = Fetching | Busy(call: Call, mem: InternalRequest, config: Config) | Returned(requeue: bool)

  /**
    History of one incarnation of a request. `attempts` counts its attempt reports, `observations` those of them that had
    a run to time, and `dropped` its lost closing patches, all since the process started; `closed` says that it completed
    or was finalized.
  */
  datatype Book = Book(attempts: nat, observations: nat, dropped: nat, closed: bool, closedBefore: bool, finalized: bool,
                       creates: nat)

  const NEW_BOOK := Book(0, 0, 0, false, false, false, 0)

  /** Since the process started: requests that were running then, and the events that pull the gauge off the count. */
  datatype Ledger = Ledger(baseline: nat, rejections: nat, lostStarts: nat, lostFinishes: nat, lostRemovals: nat)

  /** What a run was created from. */
  datatype Birth = Birth(key: Key, uid: nat, spec: Spec, config: Config)

  /** The metrics of the current process: readings, updates not yet performed, and all updates ever handed over. */
  datatype Meters = Meters(readings: Snapshot, pending: multiset<Update>, emitted: multiset<Update>)

  datatype History = History(books: map<Key, seq<Book>>, ledger: Ledger, births: map<Ref, Birth>)

  datatype World = World(
    // remote cluster
    irs: map<Key, InternalRequest>,
    // local cluster: live runs, deleted runs (history), config object and the manager's namespace
    runs: map<Ref, Run>, retired: map<Ref, Run>, config: Option<Config>, serviceNamespace: string,
    // controller
    up: bool, queue: set<Key>, flights: map<Key, Flight>, panics: nat,
    meters: Meters, history: History)

  datatype Action =
    | UserCreate(key: Key, spec: Spec, labels: map<string, string>, finalizers: set<string>)
    | UserUpdate(key: Key, spec: Spec, labels: map<string, string>)
    | OtherFinalizers(key: Key, finalizers: set<string>)
    | UserDelete(key: Key)
    | RunUpdate(ref: Ref, condition: Option<RunCondition>, results: seq<RunResult>, taskRuns: seq<TaskRun>)
    | ConfigChange(config: Option<Config>)
    | Crash
    | Start
    | Drain(update: Update)
    | Pick(key: Key)
    | Perform(key: Key, input: Input)
    | Finish(key: Key)

  // ----- Reading the state -----

  function IrOf(w: World, k: Key): Option<InternalRequest> {
    if k in w.irs then Some(w.irs[k]) else None
  }

  function FlightOf(w: World, k: Key): Option<Flight> {
    if k in w.flights then Some(w.flights[k]) else None
  }

  function BooksOf(w: World, k: Key): seq<Book> {
    if k in w.history.books then w.history.books[k] else []
  }

  predicate Held(ir: InternalRequest) { FINALIZER in ir.finalizers }

  /** The population the concurrency gauge is meant to count. */
  predicate Active(ir: InternalRequest) { IsRunning(ir.status) && Held(ir) }

  function ActiveKeys(irs: map<Key, InternalRequest>): set<Key> {
    set k | k in irs && Active(irs[k])
  }

  /** The run a List with Limit(1) returns; `pick` is the item the server happens to choose. */
  function Lookup(w: World, k: Key, pick: Ref): Option<Ref> {
    if RunsOf(w.runs, k) == map[] then None else Some(pick)
  }

  predicate LookupEnabled(w: World, k: Key, pick: Ref) {
    RunsOf(w.runs, k) != map[] ==> pick in RunsOf(w.runs, k)
  }

  // ----- Local control flow: the state in which control reaches each operation of Reconcile -----

  /** EnsurePipelineRunIsDeleted. */
  function AtDeleted(mem: InternalRequest, c: Config): Flight {
    if !HasCompleted(mem.status) || c.debug then Returned(false) else Busy(ListForDelete, mem, c)
  }

  /** EnsureStatusIsTracked. */
  function AtTracked(mem: InternalRequest, c: Config): Flight { Busy(ListForTrack, mem, c) }

  /** EnsurePipelineRunIsCreated. */
  function AtCreated(mem: InternalRequest, c: Config): Flight { Busy(ListForCreate, mem, c) }

  /** EnsureRequestIsAllowed. */
  function AtAllowed(mem: InternalRequest, c: Config): Flight {
    if Admitted(c, mem.key.namespace, mem.spec) then AtCreated(mem, c)
    else Busy(PatchRejected(RejectionMessage(c, mem.key.namespace, mem.spec)), mem, c)
  }

  /** EnsureConfigIsLoaded. */
  function AtConfig(mem: InternalRequest): Flight { Busy(LoadConfig, mem, DefaultConfig("")) }

  /** EnsureRequestINotCompleted. */
  function AtNotCompleted(mem: InternalRequest): Flight {
    if HasCompleted(mem.status) then Returned(false) else AtConfig(mem)
  }

  /** EnsureFinalizerIsAdded. */
  function AtFinalizerAdded(mem: InternalRequest): Flight {
    if Held(mem) then AtNotCompleted(mem) else Busy(AddFinalizer, mem, DefaultConfig(""))
  }

  /** EnsureFinalizersAreCalled, with the two lookups of finalizeInternalRequest. */
  function AtFinalizers(mem: InternalRequest): Flight {
    if !mem.deleting then AtFinalizerAdded(mem)
    else if !Held(mem) then Returned(true)
    else if mem.status.pipelineRun != "" && Decode(mem.status.pipelineRun).Some? then
      Busy(FinalizeGet(Decode(mem.status.pipelineRun).value), mem, DefaultConfig(""))
    else Busy(FinalizeList, mem, DefaultConfig(""))
  }

  /** cancelPipelineRun, up to its patch. */
  function AtCancel(w: World, mem: InternalRequest, c: Config, found: Option<Ref>): Flight {
    if found.Some? && found.value in w.runs && !IsDone(w.runs[found.value])
    then Busy(CancelRun(found.value), mem, c) else Busy(RemoveFinalizer, mem, c)
  }

  /** EnsurePipelineRunIsCreated after its lookup. */
  function AfterCreateLookup(mem: InternalRequest, c: Config, found: bool): Flight {
    if !found then Busy(CreateRun, mem, c)
    else if !IsRunning(mem.status) then Busy(PatchRunning, mem, c)
    else AtTracked(mem, c)
  }

  /** EnsureStatusIsTracked after its lookup. */
  function AfterTrackLookup(mem: InternalRequest, c: Config, found: Option<(Ref, Run)>): Flight {
    match found
    case None => AtDeleted(mem, c)
    case Some((ref, run)) =>
      if IsDone(run) && !IsTrue(run) then Busy(ListTaskRuns(ref, run), mem, c)
      else Busy(PatchTracked(ref, run, ""), mem, c)
  }

  /** The message MarkFailed gets: that of the TaskRuns, or else that of the run. */
  function TrackMessage(seen: Run, listing: Option<seq<TaskRun>>): string
    requires seen.condition.Some?
  {
    var message := FailureMessage(listing);
    if message == "" then seen.condition.value.message else message
  }

  /** registerInternalRequestPipelineRunStatus, up to its patch. */
  function Tracked(mem: InternalRequest, ref: Ref, seen: Run, message: string, now: int): Marked {
    var ir := mem.(status := mem.status.(pipelineRun := Encode(ref)));
    if !IsDone(seen) then Marked(ir.status, [])
    else if IsTrue(seen) then
      MarkedSucceeded(ir.(status := ir.status.(results := ResultsOf(seen.results))), now)
    else MarkedFailed(ir, message, now)
  }

  // ----- API server -----

  /** A merge patch of the finalizer list. A deleting object refuses new finalizers and goes away with its last one. */
  datatype FinalizerPatch = Refused | Gone | Stored(ir: InternalRequest)

  function PatchFinalizers(stored: Option<InternalRequest>, finalizers: set<string>): FinalizerPatch {
    match stored
    case None => Refused
    case Some(ir) =>
      if ir.deleting && !(finalizers <= ir.finalizers) then Refused
      else if ir.deleting && finalizers == {} then Gone
      else Stored(ir.(finalizers := finalizers))
  }

  function StoreIr(irs: map<Key, InternalRequest>, k: Key, p: FinalizerPatch): map<Key, InternalRequest> {
    match p
    case Refused => irs
    case Gone => irs - {k}
    case Stored(ir) => irs[k := ir]
  }

  function Fly(w: World, k: Key, f: Flight): World {
    w.(flights := w.flights[k := f])
  }

  function Enqueue(w: World, k: Key, fires: bool): World {
    if w.up && fires then w.(queue := w.queue + {k}) else w
  }

  function Spawn(m: Meters, us: seq<Update>): Meters {
    m.(pending := m.pending + multiset(us), emitted := m.emitted + multiset(us))
  }

  // ----- History -----

  function BookAt(books: map<Key, seq<Book>>, k: Key, uid: nat): Book {
    if k in books && uid < |books[k]| then books[k][uid] else NEW_BOOK
  }

  function AmendBook(books: map<Key, seq<Book>>, k: Key, uid: nat, b: Book): map<Key, seq<Book>> {
    if k in books && uid < |books[k]| then books[k := books[k][uid := b]] else books
  }

  predicate Closes(mem: InternalRequest, m: Marked) {
    !HasCompleted(mem.status) && HasCompleted(m.status)
  }

  // What a status patch from `mem` to `after` means for the gauge, read off the two statuses.

  predicate StartsRun(mem: InternalRequest, after: Status) { !IsRunning(mem.status) && IsRunning(after) }

  predicate RejectsRunning(mem: InternalRequest, after: Status) {
    IsRunning(mem.status) && IsVerdict(after, ConditionFalse, RejectedReason)
  }

  predicate FinishesRun(mem: InternalRequest, after: Status) {
    IsRunning(mem.status) && HasCompleted(after) && !RejectsRunning(mem, after)
  }

  /** A closing patch reports one attempt, timed if it finishes a run, and closes the book if it lands. */
  function Closing(b: Book, mem: InternalRequest, after: Status, landed: bool): Book {
    b.(attempts := b.attempts + 1, observations := b.observations + Bit(FinishesRun(mem, after)),
       dropped := b.dropped + Bit(!landed), closed := b.closed || landed)
  }

  /** A finalizer removal reports an attempt unless the request had completed, timed if it had started. */
  function Removing(b: Book, mem: InternalRequest, landed: bool): Book {
    var reports := !HasCompleted(mem.status);
    b.(attempts := b.attempts + Bit(reports), observations := b.observations + Bit(reports && mem.status.startTime.Some?),
       dropped := b.dropped + Bit(reports && !landed),
       closed := b.closed || landed, finalized := b.finalized || landed)
  }

  /** Book-keeping of a status patch from `mem` to `m.status`. */
  function Recorded(h: History, k: Key, mem: InternalRequest, m: Marked, landed: bool): History {
    h.(books := if !Closes(mem, m) then h.books
                else AmendBook(h.books, k, mem.uid, Closing(BookAt(h.books, k, mem.uid), mem, m.status, landed)),
       ledger := h.ledger.(
         rejections := h.ledger.rejections + Bit(landed && RejectsRunning(mem, m.status)),
         lostStarts := h.ledger.lostStarts + Bit(!landed && StartsRun(mem, m.status)),
         lostFinishes := h.ledger.lostFinishes + Bit(!landed && FinishesRun(mem, m.status))))
  }

  /** Book-keeping of a finalizer removal. */
  function RecordedRemoval(h: History, k: Key, mem: InternalRequest, landed: bool): History {
    h.(books := AmendBook(h.books, k, mem.uid,
                  Removing(BookAt(h.books, k, mem.uid), mem, landed)),
       ledger := h.ledger.(
         lostRemovals := h.ledger.lostRemovals + Bit(!landed && IsRunning(mem.status))))
  }

  // ----- One API call of the reconcile of key k -----

  /** The stored requests after Client.Status().Patch from `mem` to `after`. */
  function PatchStatus(irs: map<Key, InternalRequest>, k: Key, mem: InternalRequest, after: Status, outcome: Outcome)
    : map<Key, InternalRequest>
  {
    if k in irs && outcome != Lost
    then irs[k := irs[k].(status := MergeStatus(irs[k].status, mem.status, after))] else irs
  }

  /** Mark the copy, start the goroutine, patch, and fly on. */
  function MarkAndPatch(w: World, k: Key, mem: InternalRequest, m: Marked, outcome: Outcome, f: Flight): World {
    w.(irs := PatchStatus(w.irs, k, mem, m.status, outcome),
       flights := w.flights[k := f],
       meters := Spawn(w.meters, m.spawned),
       history := Recorded(w.history, k, mem, m, k in w.irs && outcome != Lost))
  }

  function DoFetch(w: World, k: Key, i: Input): World {
    if i.outcome != Ok then Fly(w, k, Returned(true))
    else if k !in w.irs then Fly(w, k, Returned(false))
    else Fly(w, k, AtFinalizers(w.irs[k]))
  }

  function DoFinalizeGet(w: World, k: Key, i: Input, mem: InternalRequest, c: Config, ref: Ref): World {
    if i.outcome != Ok then Fly(w, k, Returned(true))
    else Fly(w, k, AtCancel(w, mem, c, if ref in w.runs then Some(ref) else None))
  }

  function DoFinalizeList(w: World, k: Key, i: Input, mem: InternalRequest, c: Config): World {
    if i.outcome != Ok then Fly(w, k, Returned(true))
    else Fly(w, k, AtCancel(w, mem, c, Lookup(w, k, i.ref)))
  }

  function DoCancelRun(w: World, k: Key, i: Input, mem: InternalRequest, c: Config, ref: Ref): World {
    if ref !in w.runs then Fly(w, k, Returned(true))
    else
      w.(runs := if i.outcome == Lost then w.runs else w.runs[ref := w.runs[ref].(cancelled := true)],
         flights := w.flights[k := if i.outcome == Ok then Busy(RemoveFinalizer, mem, c) else Returned(true)])
  }

  /** RegisterDeletion, then the removal patch; the operation asks for a requeue whether it succeeds or fails. */
  function DoRemoveFinalizer(w: World, k: Key, i: Input, mem: InternalRequest): World {
    var p := PatchFinalizers(IrOf(w, k), mem.finalizers - {FINALIZER});
    var landed := p != Refused && i.outcome != Lost;
    w.(irs := StoreIr(w.irs, k, if landed then p else Refused),
       flights := w.flights[k := Returned(true)],
       meters := Spawn(w.meters, DeletionUpdates(mem)),
       history := RecordedRemoval(w.history, k, mem, landed))
  }

  function DoAddFinalizer(w: World, k: Key, i: Input, mem: InternalRequest): World {
    var p := PatchFinalizers(IrOf(w, k), mem.finalizers + {FINALIZER});
    w.(irs := StoreIr(w.irs, k, if i.outcome == Lost then Refused else p),
       flights := w.flights[k := if i.outcome == Ok && p.Stored? then AtNotCompleted(p.ir) else Returned(true)])
  }

  function DoLoadConfig(w: World, k: Key, i: Input, mem: InternalRequest): World {
    if i.outcome != Ok then Fly(w, k, Returned(true))
    else Fly(w, k, AtAllowed(mem, if w.config.Some? then w.config.value else DefaultConfig(w.serviceNamespace)))
  }

  function DoPatchRejected(w: World, k: Key, i: Input, mem: InternalRequest, message: string): World {
    MarkAndPatch(w, k, mem, MarkedRejected(mem, message), i.outcome, Returned(!(i.outcome == Ok && k in w.irs)))
  }

  function DoListForCreate(w: World, k: Key, i: Input, mem: InternalRequest, c: Config): World {
    if i.outcome != Ok then Fly(w, k, Returned(true))
    else Fly(w, k, AfterCreateLookup(mem, c, Lookup(w, k, i.ref).Some?))
  }

  function DoCreateRun(w: World, k: Key, i: Input, mem: InternalRequest, c: Config): World {
    if i.outcome == Lost then Fly(w, k, Returned(true))
    else
      var b := BookAt(w.history.books, k, mem.uid);
      w.(runs := w.runs[i.ref := i.run],
         flights := w.flights[k := if i.outcome == Ok then Busy(PatchRunning, mem, c) else Returned(true)],
         history := w.history.(books := AmendBook(w.history.books, k, mem.uid, b.(creates := b.creates + 1)),
                               births := w.history.births[i.ref := Birth(k, mem.uid, mem.spec, c)]))
  }

  function DoPatchRunning(w: World, k: Key, i: Input, mem: InternalRequest, c: Config): World {
    var m := MarkedRunning(mem, i.now);
    var irs := PatchStatus(w.irs, k, mem, m.status, i.outcome);
    MarkAndPatch(w, k, mem, m, i.outcome, if i.outcome == Ok && k in irs then AtTracked(irs[k], c) else Returned(true))
  }

  function DoListForTrack(w: World, k: Key, i: Input, mem: InternalRequest, c: Config): World {
    if i.outcome != Ok then Fly(w, k, Returned(true))
    else
      var found := Lookup(w, k, i.ref);
      Fly(w, k, AfterTrackLookup(mem, c,
        if found.Some? && found.value in w.runs then Some((found.value, w.runs[found.value])) else None))
  }

  /** A failing TaskRun List is not an error of the operation: it only empties the message. */
  function DoListTaskRuns(w: World, k: Key, i: Input, mem: InternalRequest, c: Config, ref: Ref, seen: Run): World {
    if seen.condition.None? then Fly(w.(panics := w.panics + 1), k, Returned(true))
    else
      var listing := if i.outcome != Ok then None else if ref in w.runs then Some(w.runs[ref].taskRuns) else Some([]);
      Fly(w, k, Busy(PatchTracked(ref, seen, TrackMessage(seen, listing)), mem, c))
  }

  function DoPatchTracked(w: World, k: Key, i: Input, mem: InternalRequest, c: Config,
                          ref: Ref, seen: Run, message: string): World
  {
    var m := Tracked(mem, ref, seen, message, i.now);
    var irs := PatchStatus(w.irs, k, mem, m.status, i.outcome);
    MarkAndPatch(w, k, mem, m, i.outcome, if i.outcome == Ok && k in irs then AtDeleted(irs[k], c) else Returned(true))
  }

  /** Deleting a nil run is a panic. */
  function DoListForDelete(w: World, k: Key, i: Input, mem: InternalRequest, c: Config): World {
    if i.outcome != Ok then Fly(w, k, Returned(true))
    else
      match Lookup(w, k, i.ref)
      case None => Fly(w.(panics := w.panics + 1), k, Returned(true))
      case Some(ref) => Fly(w, k, Busy(DeleteRun(ref), mem, c))
  }

  function DoDeleteRun(w: World, k: Key, i: Input, ref: Ref): World {
    if ref !in w.runs then Fly(w, k, Returned(true))
    else
      w.(runs := if i.outcome == Lost then w.runs else w.runs - {ref},
         retired := if i.outcome == Lost then w.retired else w.retired[ref := w.runs[ref]],
         flights := w.flights[k := Returned(i.outcome != Ok)])
  }

  /** The input must be one the servers can supply to the call that is due. */
  predicate PerformEnabled(w: World, k: Key, i: Input) {
    k in w.flights && !w.flights[k].Returned? &&
    match w.flights[k]
    case Fetching => true
    case Busy(call, mem, c) =>
      (match call
       case FinalizeList => i.outcome == Ok ==> LookupEnabled(w, k, i.ref)
       case ListForCreate => i.outcome == Ok ==> LookupEnabled(w, k, i.ref)
       case ListForTrack => i.outcome == Ok ==> LookupEnabled(w, k, i.ref)
       case ListForDelete => i.outcome == Ok ==> LookupEnabled(w, k, i.ref)
       case CreateRun => i.outcome != Lost ==>
         i.ref.namespace == c.namespace && i.ref !in w.history.births && BuiltFrom(i.run, mem)
       case _ => true)
  }

  function DoPerform(w: World, k: Key, i: Input): World
    requires PerformEnabled(w, k, i)
  {
    match w.flights[k]
    case Fetching => DoFetch(w, k, i)
    case Busy(call, mem, c) =>
      match call
      case FinalizeGet(ref) => DoFinalizeGet(w, k, i, mem, c, ref)
      case FinalizeList => DoFinalizeList(w, k, i, mem, c)
      case CancelRun(ref) => DoCancelRun(w, k, i, mem, c, ref)
      case RemoveFinalizer => DoRemoveFinalizer(w, k, i, mem)
      case AddFinalizer => DoAddFinalizer(w, k, i, mem)
      case LoadConfig => DoLoadConfig(w, k, i, mem)
      case PatchRejected(message) => DoPatchRejected(w, k, i, mem, message)
      case ListForCreate => DoListForCreate(w, k, i, mem, c)
      case CreateRun => DoCreateRun(w, k, i, mem, c)
      case PatchRunning => DoPatchRunning(w, k, i, mem, c)
      case ListForTrack => DoListForTrack(w, k, i, mem, c)
      case ListTaskRuns(ref, seen) => DoListTaskRuns(w, k, i, mem, c, ref, seen)
      case PatchTracked(ref, seen, message) => DoPatchTracked(w, k, i, mem, c, ref, seen, message)
      case ListForDelete => DoListForDelete(w, k, i, mem, c)
      case DeleteRun(ref) => DoDeleteRun(w, k, i, ref)
  }

  // ----- Watches (Register in controller.go) -----

  predicate RequestUpdateFires(older: InternalRequest, newer: InternalRequest) {
    newer.generation != older.generation || (newer.deleting && !older.deleting)
  }

  // ----- Users, Tekton and the process -----

  function DoUserCreate(w: World, k: Key, spec: Spec, labels: map<string, string>, finalizers: set<string>): World {
    var books := BooksOf(w, k);
    var ir := InternalRequest(k, |books|, 1, labels, finalizers, false, spec, NO_STATUS);
    Enqueue(w.(irs := w.irs[k := ir],
               history := w.history.(books := w.history.books[k := books + [NEW_BOOK]])), k, true)
  }

  function DoUserUpdate(w: World, k: Key, spec: Spec, labels: map<string, string>): World
    requires k in w.irs
  {
    var older := w.irs[k];
    var newer := older.(spec := spec, labels := labels, generation := older.generation + Bit(spec != older.spec));
    Enqueue(w.(irs := w.irs[k := newer]), k, RequestUpdateFires(older, newer))
  }

  function DoOtherFinalizers(w: World, k: Key, finalizers: set<string>): World {
    w.(irs := StoreIr(w.irs, k, PatchFinalizers(IrOf(w, k), finalizers)))
  }

  function DoUserDelete(w: World, k: Key): World
    requires k in w.irs
  {
    var older := w.irs[k];
    if older.finalizers == {} then w.(irs := w.irs - {k})
    else
      var newer := older.(deleting := true, generation := older.generation + Bit(!older.deleting));
      Enqueue(w.(irs := w.irs[k := newer]), k, RequestUpdateFires(older, newer))
  }

  function DoRunUpdate(w: World, ref: Ref, older: Run, newer: Run): World {
    var w1 := w.(runs := w.runs[ref := newer]);
    if WatchedBy(newer).Some? then Enqueue(w1, WatchedBy(newer).value, UpdateFires(older, newer)) else w1
  }

  function ResetBook(b: Book): Book {
    b.(attempts := 0, observations := 0, dropped := 0, closedBefore := b.closed)
  }

  function ResetBooks(bs: seq<Book>): seq<Book> {
    seq(|bs|, i requires 0 <= i < |bs| => ResetBook(bs[i]))
  }

  /** The process dies with its queue, its reconciles, its goroutines and its metrics. */
  function DoCrash(w: World): World {
    w.(up := false, queue := {}, flights := map[],
       meters := Meters(ZERO, multiset{}, multiset{}),
       history := w.history.(books := map k | k in w.history.books :: ResetBooks(w.history.books[k]),
                             ledger := Ledger(|ActiveKeys(w.irs)|, 0, 0, 0, 0)))
  }

  /** The first List of the watch yields a create event for every request. */
  function DoStart(w: World): World {
    w.(up := true, queue := w.irs.Keys)
  }

  function DoFinish(w: World, k: Key): World
    requires k in w.flights && w.flights[k].Returned?
  {
    w.(flights := w.flights - {k}, queue := if w.flights[k].requeue then w.queue + {k} else w.queue)
  }

  /** Tekton's next version of a run; labels, annotations and spec are not its to change. */
  function UpdatedRun(run: Run, a: Action): Run
    requires a.RunUpdate?
  {
    run.(condition := a.condition, results := a.results, taskRuns := a.taskRuns)
  }

  predicate Enabled(w: World, a: Action) {
    match a
    case UserCreate(k, _, _, finalizers) => k !in w.irs && SEPARATOR !in k.namespace && FINALIZER !in finalizers
    case UserUpdate(k, _, _) => k in w.irs
    case OtherFinalizers(k, finalizers) => k in w.irs && (FINALIZER in finalizers <==> Held(w.irs[k]))
    case UserDelete(k) => k in w.irs
    case RunUpdate(ref, _, _, _) => ref in w.runs && !IsDone(w.runs[ref])
    case ConfigChange(config) => config.Some? ==> config.value.namespace == w.serviceNamespace
    case Crash => w.up
    case Start => !w.up
    case Drain(u) => u in w.meters.pending
    case Pick(k) => w.up && k in w.queue && k !in w.flights
    case Perform(k, i) => PerformEnabled(w, k, i)
    case Finish(k) => k in w.flights && w.flights[k].Returned?
  }

  function Step(w: World, a: Action): World
    requires Enabled(w, a)
  {
    match a
    case UserCreate(k, spec, labels, finalizers) => DoUserCreate(w, k, spec, labels, finalizers)
    case UserUpdate(k, spec, labels) => DoUserUpdate(w, k, spec, labels)
    case OtherFinalizers(k, finalizers) => DoOtherFinalizers(w, k, finalizers)
    case UserDelete(k) => DoUserDelete(w, k)
    case RunUpdate(ref, _, _, _) => DoRunUpdate(w, ref, w.runs[ref], UpdatedRun(w.runs[ref], a))
    case ConfigChange(config) => w.(config := config)
    case Crash => DoCrash(w)
    case Start => DoStart(w)
    case Drain(u) => w.(meters := w.meters.(readings := Apply(w.meters.readings, u), pending := w.meters.pending - multiset{u}))
    case Pick(k) => w.(queue := w.queue - {k}, flights := w.flights[k := Fetching])
    case Perform(k, i) => DoPerform(w, k, i)
    case Finish(k) => DoFinish(w, k)
  }

  /** Two empty clusters and a process that has not started yet. */
  predicate Initial(w: World) {
    && w.irs == map[] && w.runs == map[] && w.retired == map[] && w.history == History(map[], Ledger(0, 0, 0, 0, 0), map[])
    && w.serviceNamespace != "" && SEPARATOR !in w.serviceNamespace
    && (w.config.Some? ==> w.config.value.namespace == w.serviceNamespace)
    && !w.up && w.queue == {} && w.flights == map[] && w.panics == 0
    && w.meters == Meters(ZERO, multiset{}, multiset{})
  }

  /** A schedule: every action is enabled when its turn comes. */
  predicate Legal(w: World, actions: seq<Action>)
    decreases |actions|
  {
    actions == [] || (Enabled(w, actions[0]) && Legal(Step(w, actions[0]), actions[1..]))
  }

  function After(w: World, actions: seq<Action>): World
    requires Legal(w, actions)
    decreases |actions|
  {
    if actions == [] then w else After(Step(w, actions[0]), actions[1..])
  }
}
