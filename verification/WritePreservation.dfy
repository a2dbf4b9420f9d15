/** The finalizer and run writes of a reconcile keep the invariant of its key. */
module WritePreservation {
  import opened Common
  import opened Requests
  import opened PipelineRuns
  import opened Admission
  import opened Protocol
  import opened Invariant
  import opened KeyPreservation

  // ----- CancelRun -----

  function CancelledCell(c: Cell, ref: Ref, outcome: Outcome, f: Flight): Cell
    requires ref in c.runs
  {
    c.(runs := if outcome == Lost then c.runs else c.runs[ref := c.runs[ref].(cancelled := true)], flight := Some(f))
  }

  lemma CancelRunIsSound(k: Key, c: Cell, ns: string, mem: InternalRequest, config: Config, ref: Ref, outcome: Outcome)
    requires CellOk(k, c, ns) && c.flight == Some(Busy(CancelRun(ref), mem, config))
    ensures var f := if outcome == Ok then Busy(RemoveFinalizer, mem, config) else Returned(true);
            CellOk(k, CancelledCell(c, ref, outcome, f), ns)
  {
  }

  lemma CancelRunView(w: World, k: Key, i: Input, mem: InternalRequest, c: Config, ref: Ref)
    requires ref in RunsOf(w.runs, k)
    ensures var f := if i.outcome == Ok then Busy(RemoveFinalizer, mem, c) else Returned(true);
            View(DoCancelRun(w, k, i, mem, c, ref), k) == CancelledCell(View(w, k), ref, i.outcome, f)
  {
    RunsOfPut(w.runs, ref, w.runs[ref].(cancelled := true), k);
  }

  lemma CancelRunKeepsKey(w: World, k: Key, i: Input, mem: InternalRequest, c: Config, ref: Ref)
    requires KeyOk(w, k) && FlightOf(w, k) == Some(Busy(CancelRun(ref), mem, c))
    ensures KeyOk(DoCancelRun(w, k, i, mem, c, ref), k)
  {
    CancelRunIsSound(k, View(w, k), w.serviceNamespace, mem, c, ref, i.outcome);
    CancelRunView(w, k, i, mem, c, ref);
  }

  // ----- RemoveFinalizer -----

  function IrAfter(ir: Option<InternalRequest>, p: FinalizerPatch): Option<InternalRequest> {
    match p
    case Refused => ir
    case Gone => None
    case Stored(ir') => Some(ir')
  }

  function RemovedCell(c: Cell, mem: InternalRequest, outcome: Outcome): Cell
    requires mem.uid < |c.books|
  {
    var p := PatchFinalizers(c.ir, mem.finalizers - {FINALIZER});
    var landed := p != Refused && outcome != Lost;
    c.(ir := IrAfter(c.ir, if landed then p else Refused),
       books := c.books[mem.uid := Removing(c.books[mem.uid], mem, landed)],
       flight := Some(Returned(true)))
  }

  lemma RemoveFinalizerIsSound(k: Key, c: Cell, ns: string, mem: InternalRequest, config: Config, outcome: Outcome)
    requires CellOk(k, c, ns) && c.flight == Some(Busy(RemoveFinalizer, mem, config))
    ensures CellOk(k, RemovedCell(c, mem, outcome), ns)
  {
  }

  lemma RemoveFinalizerView(w: World, k: Key, i: Input, mem: InternalRequest)
    requires k in w.irs && mem.uid < |BooksOf(w, k)|
    ensures View(DoRemoveFinalizer(w, k, i, mem), k) == RemovedCell(View(w, k), mem, i.outcome)
  {
  }

  lemma RemoveFinalizerKeepsKey(w: World, k: Key, i: Input, mem: InternalRequest, c: Config)
    requires KeyOk(w, k) && FlightOf(w, k) == Some(Busy(RemoveFinalizer, mem, c))
    ensures KeyOk(DoRemoveFinalizer(w, k, i, mem), k)
  {
    RemoveFinalizerIsSound(k, View(w, k), w.serviceNamespace, mem, c, i.outcome);
    RemoveFinalizerView(w, k, i, mem);
  }

  // ----- AddFinalizer -----

  function AddedCell(c: Cell, mem: InternalRequest, outcome: Outcome): Cell {
    var p := PatchFinalizers(c.ir, mem.finalizers + {FINALIZER});
    c.(ir := IrAfter(c.ir, if outcome == Lost then Refused else p),
       flight := Some(if outcome == Ok && p.Stored? then AtNotCompleted(p.ir) else Returned(true)))
  }

  /** A request without this finalizer is untouched; a deleting one would refuse it. */
  lemma AddFinalizerIsSound(k: Key, c: Cell, ns: string, mem: InternalRequest, config: Config, outcome: Outcome)
    requires CellOk(k, c, ns) && c.flight == Some(Busy(AddFinalizer, mem, config))
    ensures CellOk(k, AddedCell(c, mem, outcome), ns)
  {
    var p := PatchFinalizers(c.ir, mem.finalizers + {FINALIZER});
    assert FINALIZER in mem.finalizers + {FINALIZER};
    if c.ir.None? || c.ir.value.deleting {
      assert p == Refused;
    } else {
      assert p == Stored(c.ir.value.(finalizers := mem.finalizers + {FINALIZER}));
    }
  }

  lemma AddFinalizerView(w: World, k: Key, i: Input, mem: InternalRequest)
    ensures View(DoAddFinalizer(w, k, i, mem), k) == AddedCell(View(w, k), mem, i.outcome)
  {
  }

  lemma AddFinalizerKeepsKey(w: World, k: Key, i: Input, mem: InternalRequest, c: Config)
    requires KeyOk(w, k) && FlightOf(w, k) == Some(Busy(AddFinalizer, mem, c))
    ensures KeyOk(DoAddFinalizer(w, k, i, mem), k)
  {
    AddFinalizerIsSound(k, View(w, k), w.serviceNamespace, mem, c, i.outcome);
    AddFinalizerView(w, k, i, mem);
  }

  // ----- CreateRun -----

  function CreatedCell(c: Cell, mem: InternalRequest, ref: Ref, run: Run, f: Flight): Cell
    requires mem.uid < |c.books|
  {
    c.(runs := c.runs[ref := run],
       books := c.books[mem.uid := c.books[mem.uid].(creates := c.books[mem.uid].creates + 1)],
       flight := Some(f))
  }

  lemma CreateRunIsSound(k: Key, c: Cell, ns: string, mem: InternalRequest, config: Config, ref: Ref, run: Run, f: Flight)
    requires CellOk(k, c, ns) && c.flight == Some(Busy(CreateRun, mem, config))
    requires f == Busy(PatchRunning, mem, config) || f == Returned(true)
    ensures CellOk(k, CreatedCell(c, mem, ref, run, f), ns)
  {
    assert ref in CreatedCell(c, mem, ref, run, f).runs;
  }

  lemma CreateRunView(w: World, k: Key, i: Input, mem: InternalRequest, c: Config)
    requires mem.uid < |BooksOf(w, k)| && Matches(i.run, k) && i.outcome != Lost
    ensures var f := if i.outcome == Ok then Busy(PatchRunning, mem, c) else Returned(true);
            View(DoCreateRun(w, k, i, mem, c), k) == CreatedCell(View(w, k), mem, i.ref, i.run, f)
  {
    RunsOfPut(w.runs, i.ref, i.run, k);
  }

  lemma CreateRunKeepsKey(w: World, k: Key, i: Input, mem: InternalRequest, c: Config)
    requires KeyOk(w, k) && FlightOf(w, k) == Some(Busy(CreateRun, mem, c))
    requires i.outcome != Lost ==> Matches(i.run, k)
    ensures KeyOk(DoCreateRun(w, k, i, mem, c), k)
  {
    if i.outcome == Lost {
      MoveKeepsKey(w, k, Returned(true));
    } else {
      CreateRunIsSound(k, View(w, k), w.serviceNamespace, mem, c, i.ref, i.run,
                       if i.outcome == Ok then Busy(PatchRunning, mem, c) else Returned(true));
      CreateRunView(w, k, i, mem, c);
    }
  }

  // ----- DeleteRun -----

  function DeletedCell(c: Cell, ref: Ref, outcome: Outcome): Cell
    requires ref in c.runs
  {
    c.(runs := if outcome == Lost then c.runs else c.runs - {ref},
       retired := if outcome == Lost then c.retired else c.retired[ref := c.runs[ref]],
       flight := Some(Returned(outcome != Ok)))
  }

  lemma DeleteRunIsSound(k: Key, c: Cell, ns: string, mem: InternalRequest, config: Config, ref: Ref, outcome: Outcome)
    requires CellOk(k, c, ns) && c.flight == Some(Busy(DeleteRun(ref), mem, config))
    ensures CellOk(k, DeletedCell(c, ref, outcome), ns)
  {
  }

  lemma DeleteRunView(w: World, k: Key, i: Input, ref: Ref)
    requires ref in RunsOf(w.runs, k)
    ensures View(DoDeleteRun(w, k, i, ref), k) == DeletedCell(View(w, k), ref, i.outcome)
  {
    RunsOfDrop(w.runs, ref, k);
    RunsOfPut(w.retired, ref, w.runs[ref], k);
  }

  lemma DeleteRunKeepsKey(w: World, k: Key, i: Input, mem: InternalRequest, c: Config, ref: Ref)
    requires KeyOk(w, k) && FlightOf(w, k) == Some(Busy(DeleteRun(ref), mem, c))
    ensures KeyOk(DoDeleteRun(w, k, i, ref), k)
  {
    DeleteRunIsSound(k, View(w, k), w.serviceNamespace, mem, c, ref, i.outcome);
    DeleteRunView(w, k, i, ref);
  }
}
