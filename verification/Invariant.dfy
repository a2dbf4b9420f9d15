/** The inductive invariant of the protocol, stated key by key over the part of the world a key can see. */
module Invariant {
  import opened Common
  import opened References
  import opened Metrics
  import opened Requests
  import opened PipelineRuns
  import opened Admission
  import opened Protocol

  /** Everything in the world that concerns one key: its request, the runs its labels select, its reconcile, its history. */
  datatype Cell = Cell(ir: Option<InternalRequest>, runs: map<Ref, Run>, retired: map<Ref, Run>,
                       flight: Option<Flight>, queued: bool, up: bool, books: seq<Book>)

  function View(w: World, k: Key): Cell {
    Cell(IrOf(w, k), RunsOf(w.runs, k), RunsOf(w.retired, k), FlightOf(w, k), k in w.queue, w.up, BooksOf(w, k))
  }

  // ----- The persisted request -----

  /** Each status is that of one phase, and the finished ones name their run. */
  predicate StatusOk(s: Status) {
    || InPhase(s, NotStarted)
    || InPhase(s, Running)
    || (InPhase(s, Succeeded) && s.pipelineRun != "")
    || (InPhase(s, Failed) && s.pipelineRun != "")
    || InPhase(s, Rejected)
  }

  /** The run a status refers to is the only live run of the key, or one of its deleted runs while none is live. */
  predicate ReferenceOk(s: Status, runs: map<Ref, Run>, retired: map<Ref, Run>) {
    s.pipelineRun != "" ==>
      && Decode(s.pipelineRun).Some?
      && var r := Decode(s.pipelineRun).value;
         && s.pipelineRun == Encode(r)
         && (r in runs || r in retired)
         && forall x :: x in runs ==> x == r
  }

  function Referred(s: Status, runs: map<Ref, Run>, retired: map<Ref, Run>): Run
    requires s.pipelineRun != "" && ReferenceOk(s, runs, retired)
  {
    var r := Decode(s.pipelineRun).value;
    if r in runs then runs[r] else retired[r]
  }

  /** The failure message of a run: that of its TaskRuns if they could be listed and had something to say, or its own. */
  predicate Tells(run: Run, message: string)
    requires IsDone(run)
  {
    || message == run.condition.value.message
    || (message != "" && message == FailureMessage(Some(run.taskRuns)))
  }

  /** A finished status repeats what its run said. */
  predicate OutcomeOk(s: Status, runs: map<Ref, Run>, retired: map<Ref, Run>)
    requires ReferenceOk(s, runs, retired)
  {
    && (InPhase(s, Succeeded) && s.pipelineRun != "" ==>
          IsTrue(Referred(s, runs, retired)) && s.results == ResultsOf(Referred(s, runs, retired).results))
    && (InPhase(s, Failed) && s.pipelineRun != "" ==>
          && IsDone(Referred(s, runs, retired)) && !IsTrue(Referred(s, runs, retired))
          && Tells(Referred(s, runs, retired), Verdict(s).value.message))
  }

  predicate RequestOk(k: Key, ir: InternalRequest, runs: map<Ref, Run>, retired: map<Ref, Run>) {
    && ir.key == k
    && StatusOk(ir.status)
    && (!Held(ir) && !ir.deleting ==> ir.status == NO_STATUS)
    && (ir.deleting ==> ir.finalizers != {})
    && ReferenceOk(ir.status, runs, retired)
    && OutcomeOk(ir.status, runs, retired)
    && (InPhase(ir.status, Running) ==> runs != map[])
  }

  // ----- The runs -----

  predicate AtMostOne(runs: map<Ref, Run>) {
    forall a, b :: a in runs && b in runs ==> a == b
  }

  predicate Harmless(run: Run) { IsDone(run) || run.cancelled }

  predicate NoOrphan(ir: Option<InternalRequest>, runs: map<Ref, Run>) {
    (ir.Some? && Held(ir.value)) || forall r :: r in runs ==> Harmless(runs[r])
  }

  // ----- The history of the incarnations -----

  predicate BookOk(b: Book) {
    && b.attempts + Bit(b.closedBefore) == b.dropped + Bit(b.closed)
    && (b.finalized ==> b.closed)
    && b.creates <= 1
  }

  predicate BooksOk(books: seq<Book>) {
    forall i :: 0 <= i < |books| ==> BookOk(books[i])
  }

  /** The last book is that of the stored incarnation. */
  predicate CurrentBookOk(ir: InternalRequest, runs: map<Ref, Run>, books: seq<Book>) {
    && ir.uid == |books| - 1
    && var b := books[ir.uid];
       && (b.closed <==> HasCompleted(ir.status) || b.finalized)
       && (b.finalized ==> !Held(ir) && ir.deleting)
       && (b.creates == 1 ==> runs != map[] || HasCompleted(ir.status))
  }

  // ----- The reconcile in flight -----

  /** The adapter's copy agrees with the stored request on everything only this controller writes. */
  predicate Coupled(k: Key, mem: InternalRequest, ir: Option<InternalRequest>) {
    && ir.Some?
    && mem.key == k && mem.uid == ir.value.uid && mem.status == ir.value.status
    && Held(mem) && Held(ir.value)
    && (mem.deleting ==> ir.value.deleting && ir.value.finalizers <= mem.finalizers)
  }

  /** A copy of the run taken when it was done is still accurate. */
  predicate SeenOk(ref: Ref, seen: Run, runs: map<Ref, Run>) {
    ref in runs && (IsDone(seen) ==> runs[ref] == seen)
  }

  predicate ReadyToRun(k: Key, mem: InternalRequest, c: Config) {
    !HasCompleted(mem.status) && Admitted(c, k.namespace, mem.spec)
  }

  /** The calls of finalizeInternalRequest and of the removal. */
  predicate Finalizing(call: Call) {
    call.FinalizeGet? || call.FinalizeList? || call.CancelRun? || call.RemoveFinalizer?
  }

  predicate BusyOk(k: Key, c: Cell, call: Call, mem: InternalRequest, config: Config) {
    if call.AddFinalizer? then
      && mem.key == k && !mem.deleting && !Held(mem)
      && (c.ir.Some? ==> !Held(c.ir.value))
    else
      && Coupled(k, mem, c.ir)
      && (Finalizing(call) ==> mem.deleting)
      && match call
         case FinalizeGet(ref) => mem.status.pipelineRun != "" && Decode(mem.status.pipelineRun) == Some(ref)
         case FinalizeList => (mem.status.pipelineRun == "" || Decode(mem.status.pipelineRun).None?)
         case CancelRun(ref) => ref in c.runs
         case RemoveFinalizer => forall r :: r in c.runs ==> Harmless(c.runs[r])
         case LoadConfig => !HasCompleted(mem.status)
         case PatchRejected(message) =>
           && !HasCompleted(mem.status) && !Admitted(config, k.namespace, mem.spec)
           && message == RejectionMessage(config, k.namespace, mem.spec)
         case ListForCreate => ReadyToRun(k, mem, config)
         case CreateRun => ReadyToRun(k, mem, config) && c.runs == map[] && InPhase(mem.status, NotStarted)
         case PatchRunning => ReadyToRun(k, mem, config) && c.runs != map[] && InPhase(mem.status, NotStarted)
         case ListForTrack => InPhase(mem.status, Running)
         case ListTaskRuns(ref, seen) =>
           InPhase(mem.status, Running) && SeenOk(ref, seen, c.runs) && IsDone(seen) && !IsTrue(seen)
         case PatchTracked(ref, seen, message) =>
           && InPhase(mem.status, Running) && SeenOk(ref, seen, c.runs)
           && (IsDone(seen) && !IsTrue(seen) ==> Tells(seen, message))
         case ListForDelete => FinishedRun(mem.status, c.runs)
         case DeleteRun(ref) => FinishedRun(mem.status, c.runs) && ref in c.runs
  }

  /** The request has completed and its run is still there. */
  predicate FinishedRun(s: Status, runs: map<Ref, Run>) {
    && HasCompleted(s) && runs != map[]
    && forall r :: r in runs ==> IsDone(runs[r])
  }

  /** Calls that come after the config was loaded. */
  predicate UsesConfig(call: Call) {
    call.PatchRejected? || call.ListForCreate? || call.CreateRun? || call.PatchRunning? || call.ListForTrack? ||
    call.ListTaskRuns? || call.PatchTracked? || call.ListForDelete? || call.DeleteRun?
  }

  predicate FlightOk(k: Key, c: Cell, serviceNamespace: string) {
    match c.flight
    case None => true
    case Some(f) =>
      && c.up
      && (f.Busy? ==>
            && BusyOk(k, c, f.call, f.mem, f.config)
            && (UsesConfig(f.call) ==> f.config.namespace == serviceNamespace))
  }

  // ----- Wake-ups -----

  /** Nothing is left to do until the user deletes the request or the run finishes. */
  predicate Settled(ir: InternalRequest, runs: map<Ref, Run>) {
    && !ir.deleting
    && (HasCompleted(ir.status) || (InPhase(ir.status, Running) && forall r :: r in runs ==> !IsDone(runs[r])))
  }

  /** Whoever has work pending is queued, or in the hands of a reconcile that will see it or come back. */
  predicate WakeOk(c: Cell) {
    c.up && c.ir.Some? && !c.queued ==>
      match c.flight
      case None => Settled(c.ir.value, c.runs)
      case Some(Fetching) => true
      case Some(Returned(requeue)) => requeue || Settled(c.ir.value, c.runs)
      case Some(Busy(call, _, _)) =>
        && (c.ir.value.deleting ==> Finalizing(call))
        && (call.PatchTracked? && !IsDone(call.seen) ==> forall r :: r in c.runs ==> !IsDone(c.runs[r]))
  }

  /** The parts that do not mention the reconcile. */
  predicate StoreOk(k: Key, c: Cell) {
    && (c.ir.Some? ==> RequestOk(k, c.ir.value, c.runs, c.retired) && CurrentBookOk(c.ir.value, c.runs, c.books))
    && AtMostOne(c.runs)
    && NoOrphan(c.ir, c.runs)
    && BooksOk(c.books)
  }

  predicate CellOk(k: Key, c: Cell, serviceNamespace: string) {
    && StoreOk(k, c)
    && FlightOk(k, c, serviceNamespace)
    && WakeOk(c)
  }

  ghost predicate KeyOk(w: World, k: Key) { CellOk(k, View(w, k), w.serviceNamespace) }

  // ----- The shared parts -----

  /** The run is the one its birth record describes. */
  predicate MadeFrom(run: Run, b: Birth) {
    BelongsTo(run, b.key) && Executes(run, b.key.namespace, b.spec)
  }

  /** A name is that of one live run or one deleted run or free; its run was built for one key, and admitted. */
  predicate NameOk(runs: map<Ref, Run>, retired: map<Ref, Run>, births: map<Ref, Birth>, r: Ref) {
    && (r in births <==> r in runs || r in retired)
    && (r in births ==>
          && SEPARATOR !in r.namespace && SEPARATOR !in births[r].key.namespace
          && Admitted(births[r].config, births[r].key.namespace, births[r].spec))
    && (r in runs ==> r !in retired && MadeFrom(runs[r], births[r]))
    && (r in retired ==> MadeFrom(retired[r], births[r]))
  }

  ghost predicate RunsOk(w: World) {
    forall r :: NameOk(w.runs, w.retired, w.history.births, r)
  }

  /** The net effect of a multiset of updates on the gauge. */
  function GaugeSum(us: multiset<Update>): int {
    us[GaugeInc] as int - us[GaugeDec] as int
  }

  /** The gauge updates handed over so far amount to the change in active requests, plus the recorded deviations. */
  predicate LedgerOk(w: World) {
    GaugeSum(w.meters.emitted) ==
      |ActiveKeys(w.irs)| - w.history.ledger.baseline
      + w.history.ledger.rejections + w.history.ledger.lostStarts - w.history.ledger.lostFinishes - w.history.ledger.lostRemovals
  }

  /** Readings plus pending updates are the updates handed over. */
  ghost predicate MetersOk(m: Meters) {
    && m.readings.gauge + GaugeSum(m.pending) == GaugeSum(m.emitted)
    && (forall l :: At(m.readings.total, l) + m.pending[Count(l)] == m.emitted[Count(l)])
    && (forall l :: At(m.readings.observed, l) + m.pending[Observe(l)] == m.emitted[Observe(l)])
    && NilDereference !in m.emitted && NilDereference !in m.pending
  }

  ghost predicate ConfigOk(w: World) {
    && SEPARATOR !in w.serviceNamespace
    && (w.config.Some? ==> w.config.value.namespace == w.serviceNamespace)
    && (forall k :: k in w.irs ==> SEPARATOR !in k.namespace)
  }

  ghost predicate Inv(w: World) {
    && (forall k :: KeyOk(w, k))
    && RunsOk(w) && LedgerOk(w) && MetersOk(w.meters) && w.panics == 0 && ConfigOk(w)
  }
}
