/** The gauge ledger and the conservation of metric updates, step by step. */
module Accounting {
  import opened Common
  import opened Metrics
  import opened Requests
  import opened PipelineRuns
  import opened Admission
  import opened Protocol
  import opened Invariant
  import opened Preservation

  // ----- Updates handed over -----

  lemma SpawnKeepsMeters(m: Meters, us: seq<Update>)
    requires MetersOk(m) && NilDereference !in us
    ensures MetersOk(Spawn(m, us))
    ensures GaugeSum(Spawn(m, us).emitted) == GaugeSum(m.emitted) + GaugeSum(multiset(us))
  {
    assert NilDereference !in multiset(us);
  }

  lemma DrainKeepsMeters(m: Meters, u: Update)
    requires MetersOk(m) && u in m.pending
    ensures MetersOk(m.(readings := Apply(m.readings, u), pending := m.pending - multiset{u}))
  {
    var m' := m.(readings := Apply(m.readings, u), pending := m.pending - multiset{u});
    forall l ensures At(m'.readings.total, l) + m'.pending[Count(l)] == m'.emitted[Count(l)] {
      assert At(m.readings.total, l) + m.pending[Count(l)] == m.emitted[Count(l)];
    }
    forall l ensures At(m'.readings.observed, l) + m'.pending[Observe(l)] == m'.emitted[Observe(l)] {
      assert At(m.readings.observed, l) + m.pending[Observe(l)] == m.emitted[Observe(l)];
    }
  }

  // ----- Active requests -----

  lemma SizeWithout(a: set<Key>, k: Key)
    ensures |a| == |a - {k}| + Bit(k in a)
  {
    if k in a {
      assert a == (a - {k}) + {k};
    } else {
      assert a == a - {k};
    }
  }

  lemma ActiveAfterPut(irs: map<Key, InternalRequest>, k: Key, ir: InternalRequest)
    ensures |ActiveKeys(irs[k := ir])| == |ActiveKeys(irs)| - Bit(k in irs && Active(irs[k])) + Bit(Active(ir))
  {
    SizeWithout(ActiveKeys(irs), k);
    SizeWithout(ActiveKeys(irs[k := ir]), k);
    assert ActiveKeys(irs[k := ir]) - {k} == ActiveKeys(irs) - {k};
  }

  lemma ActiveAfterDrop(irs: map<Key, InternalRequest>, k: Key)
    requires k in irs
    ensures |ActiveKeys(irs - {k})| == |ActiveKeys(irs)| - Bit(Active(irs[k]))
  {
    SizeWithout(ActiveKeys(irs), k);
    assert ActiveKeys(irs - {k}) == ActiveKeys(irs) - {k};
  }

  lemma ActiveAfterStore(irs: map<Key, InternalRequest>, k: Key, p: FinalizerPatch)
    requires k in irs
    ensures |ActiveKeys(StoreIr(irs, k, p))| == |ActiveKeys(irs)| +
      match p
      case Refused => 0
      case Gone => 0 - Bit(Active(irs[k]))
      case Stored(ir) => Bit(Active(ir)) - Bit(Active(irs[k]))
  {
    match p
    case Refused =>
    case Gone => ActiveAfterDrop(irs, k);
    case Stored(ir) => ActiveAfterPut(irs, k, ir);
  }

  // ----- Status patches -----

  /** A marking hands over an increment when it starts a run and a decrement when it finishes one, and that is all. */
  predicate Balanced(mem: InternalRequest, m: Marked) {
    && NilDereference !in m.spawned
    && GaugeSum(multiset(m.spawned)) == Bit(StartsRun(mem, m.status)) - Bit(FinishesRun(mem, m.status))
    && Bit(IsRunning(m.status)) + Bit(FinishesRun(mem, m.status)) + Bit(RejectsRunning(mem, m.status))
       == Bit(IsRunning(mem.status)) + Bit(StartsRun(mem, m.status))
  }

  lemma RejectionBalanced(mem: InternalRequest, message: string)
    requires StatusOk(mem.status) && !HasCompleted(mem.status)
    ensures Balanced(mem, MarkedRejected(mem, message))
  {
    var l := LabelsFor(mem, RejectedReason, false);
    assert multiset([Count(l)]) == multiset{Count(l)};
  }

  lemma StartBalanced(mem: InternalRequest, now: int)
    requires InPhase(mem.status, NotStarted)
    ensures Balanced(mem, MarkedRunning(mem, now))
  {
    assert multiset([GaugeInc]) == multiset{GaugeInc};
  }

  lemma ClosingUpdates(l: Labels, now: int)
    ensures var us := CompletedUpdates(l, Some(now));
      && NilDereference !in us && GaugeInc !in us && GaugeDec in us
      && us == DeletedUpdates(l, Some(now)) && GaugeSum(multiset(us)) + 1 == 0
  {
    var us := CompletedUpdates(l, Some(now));
    assert us[0] == GaugeDec;
    assert multiset(us) == multiset{GaugeDec, Observe(l), Count(l)};
  }

  lemma ClosingIsBalanced(mem: InternalRequest, m: Marked, l: Labels)
    requires IsRunning(mem.status) && mem.status.startTime.Some? && FinishesRun(mem, m.status) && !IsRunning(m.status)
    requires m.spawned == CompletedUpdates(l, mem.status.startTime)
    ensures Balanced(mem, m)
  {
    ClosingUpdates(l, mem.status.startTime.value);
  }

  lemma FinishBalanced(mem: InternalRequest, ref: Ref, seen: Run, message: string, now: int)
    requires InPhase(mem.status, Running)
    ensures Balanced(mem, Tracked(mem, ref, seen, message, now))
  {
    var m := Tracked(mem, ref, seen, message, now);
    if IsDone(seen) && IsTrue(seen) {
      ClosingIsBalanced(mem, m, LabelsFor(mem, SucceededReason, true));
    } else if IsDone(seen) {
      ClosingIsBalanced(mem, m, LabelsFor(mem, FailedReason, false));
    } else {
      assert m.spawned == [];
    }
  }

  lemma MarkingEffect(k: Key, c: Cell, ns: string, f: Flight, now: int)
    requires CellOk(k, c, ns) && c.flight == Some(f) && PatchesStatus(f)
    ensures Coupled(k, f.mem, c.ir) && Balanced(f.mem, Marking(f, now))
  {
    match f.call {
      case PatchRejected(message) => RejectionBalanced(f.mem, message);
      case PatchRunning => StartBalanced(f.mem, now);
      case PatchTracked(ref, seen, message) => FinishBalanced(f.mem, ref, seen, message, now);
    }
  }

  lemma PatchKeepsAccounts(w: World, k: Key, i: Input)
    requires LedgerOk(w) && MetersOk(w.meters) && KeyOk(w, k)
    requires PerformEnabled(w, k, i) && PatchesStatus(w.flights[k])
    ensures LedgerOk(DoPerform(w, k, i)) && MetersOk(DoPerform(w, k, i).meters)
    ensures DoPerform(w, k, i).panics == w.panics
  {
    var f := w.flights[k];
    var m := Marking(f, i.now);
    MarkingEffect(k, View(w, k), w.serviceNamespace, f, i.now);
    PatchesMark(w, k, i);
    MarkKeepsAccounts(w, k, f.mem, m, i.outcome, DoPerform(w, k, i).flights[k]);
  }

  lemma MarkKeepsAccounts(w: World, k: Key, mem: InternalRequest, m: Marked, outcome: Outcome, f: Flight)
    requires LedgerOk(w) && MetersOk(w.meters) && Coupled(k, mem, IrOf(w, k)) && Balanced(mem, m)
    ensures var w' := MarkAndPatch(w, k, mem, m, outcome, f); LedgerOk(w') && MetersOk(w'.meters)
  {
    SpawnKeepsMeters(w.meters, m.spawned);
    MergeOfOwnCopy(mem.status, m.status);
    ActiveAfterPut(w.irs, k, w.irs[k].(status := m.status));
  }

  // ----- Finalizer writes -----

  lemma RemovalEffect(k: Key, c: Cell, ns: string, f: Flight)
    requires CellOk(k, c, ns) && c.flight == Some(f) && f.Busy? && f.call.RemoveFinalizer?
    ensures var us := DeletionUpdates(f.mem);
      && Coupled(k, f.mem, c.ir)
      && NilDereference !in us
      && GaugeSum(multiset(us)) + Bit(IsRunning(f.mem.status)) == 0
      && (IsRunning(f.mem.status) <==> Active(c.ir.value))
  {
    var l := LabelsFor(f.mem, DeletedReason, false);
    assert multiset([GaugeDec, Observe(l), Count(l)]) == multiset{GaugeDec, Observe(l), Count(l)};
    assert multiset([Count(l)]) == multiset{Count(l)};
  }

  lemma RemovalKeepsAccounts(w: World, k: Key, i: Input, mem: InternalRequest, c: Config)
    requires LedgerOk(w) && MetersOk(w.meters) && KeyOk(w, k)
    requires FlightOf(w, k) == Some(Busy(RemoveFinalizer, mem, c))
    ensures LedgerOk(DoRemoveFinalizer(w, k, i, mem)) && MetersOk(DoRemoveFinalizer(w, k, i, mem).meters)
  {
    RemovalEffect(k, View(w, k), w.serviceNamespace, w.flights[k]);
    SpawnKeepsMeters(w.meters, DeletionUpdates(mem));
    var p := PatchFinalizers(IrOf(w, k), mem.finalizers - {FINALIZER});
    ActiveAfterStore(w.irs, k, if p != Refused && i.outcome != Lost then p else Refused);
  }

  lemma AdditionKeepsAccounts(w: World, k: Key, i: Input, mem: InternalRequest, c: Config)
    requires LedgerOk(w) && KeyOk(w, k) && FlightOf(w, k) == Some(Busy(AddFinalizer, mem, c))
    ensures LedgerOk(DoAddFinalizer(w, k, i, mem))
  {
    var p := PatchFinalizers(IrOf(w, k), mem.finalizers + {FINALIZER});
    if k in w.irs {
      assert FINALIZER in mem.finalizers + {FINALIZER};
      ActiveAfterStore(w.irs, k, if i.outcome == Lost then Refused else p);
    }
  }

  lemma PerformKeepsAccounts(w: World, k: Key, i: Input)
    requires Inv(w) && PerformEnabled(w, k, i)
    ensures LedgerOk(DoPerform(w, k, i)) && MetersOk(DoPerform(w, k, i).meters)
  {
    var f := w.flights[k];
    assert KeyOk(w, k);
    if !Writes(f) {
      ReadsOnlyMove(w, k, i);
    } else if PatchesStatus(f) {
      PatchKeepsAccounts(w, k, i);
    } else {
      OtherWritesKeepAccounts(w, k, i);
    }
  }

  lemma OtherWritesKeepAccounts(w: World, k: Key, i: Input)
    requires LedgerOk(w) && MetersOk(w.meters) && KeyOk(w, k)
    requires PerformEnabled(w, k, i) && Writes(w.flights[k]) && !PatchesStatus(w.flights[k])
    ensures LedgerOk(DoPerform(w, k, i)) && MetersOk(DoPerform(w, k, i).meters)
    ensures DoPerform(w, k, i).panics == w.panics
  {
    var f := w.flights[k];
    match f.call {
      case RemoveFinalizer => RemovalKeepsAccounts(w, k, i, f.mem, f.config);
      case AddFinalizer => AdditionKeepsAccounts(w, k, i, f.mem, f.config);
      case CancelRun(_) =>
      case CreateRun =>
      case DeleteRun(_) =>
    }
  }

  // ----- Users -----

  /** A step that neither creates nor ends an active request keeps the ledger. */
  lemma InactiveChange(w: World, w': World, k: Key)
    requires LedgerOk(w) && w'.meters == w.meters && w'.history.ledger == w.history.ledger
    requires k in w'.irs ==>
      w'.irs == w.irs[k := w'.irs[k]] && (Active(w'.irs[k]) <==> k in w.irs && Active(w.irs[k]))
    requires k !in w'.irs ==> w'.irs == w.irs - {k} && (k in w.irs ==> !Active(w.irs[k]))
    ensures LedgerOk(w')
  {
    if k in w'.irs {
      ActiveAfterPut(w.irs, k, w'.irs[k]);
    } else if k in w.irs {
      ActiveAfterDrop(w.irs, k);
    } else {
      assert w'.irs == w.irs;
    }
  }

  lemma UserCreateKeepsLedger(w: World, k: Key, spec: Spec, labels: map<string, string>, finalizers: set<string>)
    requires LedgerOk(w) && k !in w.irs
    ensures LedgerOk(DoUserCreate(w, k, spec, labels, finalizers))
  {
    InactiveChange(w, DoUserCreate(w, k, spec, labels, finalizers), k);
  }

  lemma UserUpdateKeepsLedger(w: World, k: Key, spec: Spec, labels: map<string, string>)
    requires LedgerOk(w) && k in w.irs
    ensures LedgerOk(DoUserUpdate(w, k, spec, labels))
  {
    InactiveChange(w, DoUserUpdate(w, k, spec, labels), k);
  }

  lemma OtherFinalizersKeepsLedger(w: World, k: Key, finalizers: set<string>)
    requires LedgerOk(w) && k in w.irs && (FINALIZER in finalizers <==> Held(w.irs[k]))
    ensures LedgerOk(DoOtherFinalizers(w, k, finalizers))
  {
    InactiveChange(w, DoOtherFinalizers(w, k, finalizers), k);
  }

  lemma UserDeleteKeepsLedger(w: World, k: Key)
    requires LedgerOk(w) && k in w.irs
    ensures LedgerOk(DoUserDelete(w, k))
  {
    InactiveChange(w, DoUserDelete(w, k), k);
  }
}
