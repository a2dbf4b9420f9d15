/** Every step of a key's own reconcile, user or run keeps the invariant of that key. */
module KeyPreservation {
  import opened Common
  import opened References
  import opened Requests
  import opened PipelineRuns
  import opened Admission
  import opened Protocol
  import opened Invariant

  // ----- The label lookup after a write -----

  lemma RunsOfPut(runs: map<Ref, Run>, r: Ref, run: Run, k: Key)
    ensures Matches(run, k) ==> RunsOf(runs[r := run], k) == RunsOf(runs, k)[r := run]
    ensures !Matches(run, k) ==> RunsOf(runs[r := run], k) == RunsOf(runs, k) - {r}
  {
    if Matches(run, k) {
      assert RunsOf(runs[r := run], k) == RunsOf(runs, k)[r := run];
    } else {
      assert RunsOf(runs[r := run], k) == RunsOf(runs, k) - {r};
    }
  }

  lemma RunsOfDrop(runs: map<Ref, Run>, r: Ref, k: Key)
    ensures RunsOf(runs - {r}, k) == RunsOf(runs, k) - {r}
  {
    assert RunsOf(runs - {r}, k) == RunsOf(runs, k) - {r};
  }

  // ----- API calls that only move the reconcile -----

  /** A reconcile that moves on without writing only has to justify its new position. */
  lemma MoveKeepsKey(w: World, k: Key, f: Flight)
    requires KeyOk(w, k)
    requires FlightOk(k, View(w, k).(flight := Some(f)), w.serviceNamespace)
    requires WakeOk(View(w, k).(flight := Some(f)))
    ensures KeyOk(Fly(w, k, f), k)
  {
    assert View(Fly(w, k, f), k) == View(w, k).(flight := Some(f));
  }

  lemma FetchIsSound(k: Key, c: Cell, ns: string, ir: InternalRequest)
    requires CellOk(k, c, ns) && c.up && c.flight == Some(Fetching) && c.ir == Some(ir)
    ensures FlightOk(k, c.(flight := Some(AtFinalizers(ir))), ns)
    ensures WakeOk(c.(flight := Some(AtFinalizers(ir))))
  {
    var f := AtFinalizers(ir);
    if !ir.deleting && HasCompleted(ir.status) {
      assert f == Returned(false) || f == Busy(AddFinalizer, ir, DefaultConfig(""));
    }
  }

  lemma FetchKeepsKey(w: World, k: Key, i: Input)
    requires KeyOk(w, k) && FlightOf(w, k) == Some(Fetching)
    ensures KeyOk(DoFetch(w, k, i), k)
  {
    if i.outcome == Ok && k in w.irs {
      FetchIsSound(k, View(w, k), w.serviceNamespace, w.irs[k]);
      MoveKeepsKey(w, k, AtFinalizers(w.irs[k]));
    } else {
      MoveKeepsKey(w, k, Returned(i.outcome != Ok));
    }
  }

  lemma CancelIsSound(k: Key, c: Cell, ns: string, mem: InternalRequest, config: Config, found: Option<Ref>, f: Flight)
    requires CellOk(k, c, ns) && c.up && Coupled(k, mem, c.ir) && mem.deleting
    requires c.flight.Some? && c.flight.value.Busy? && c.flight.value.mem == mem
    requires found.Some? ==> found.value in c.runs
    requires found.None? ==> c.runs == map[]
    requires f == if found.Some? && !IsDone(c.runs[found.value])
                  then Busy(CancelRun(found.value), mem, config) else Busy(RemoveFinalizer, mem, config)
    ensures FlightOk(k, c.(flight := Some(f)), ns) && WakeOk(c.(flight := Some(f)))
  {
  }

  /** The reference names the live run of this key, or a deleted one, whose name no live run carries. */
  lemma ReferenceFindsOwnRun(w: World, k: Key, s: Status)
    requires RunsOk(w) && s.pipelineRun != "" && ReferenceOk(s, RunsOf(w.runs, k), RunsOf(w.retired, k))
    ensures var ref := Decode(s.pipelineRun).value;
            if ref in w.runs then RunsOf(w.runs, k).Keys == {ref} else RunsOf(w.runs, k) == map[]
  {
    assert NameOk(w.runs, w.retired, w.history.births, Decode(s.pipelineRun).value);
  }

  lemma FinalizeGetKeepsKey(w: World, k: Key, i: Input, mem: InternalRequest, c: Config, ref: Ref)
    requires KeyOk(w, k) && FlightOf(w, k) == Some(Busy(FinalizeGet(ref), mem, c)) && RunsOk(w)
    ensures KeyOk(DoFinalizeGet(w, k, i, mem, c, ref), k)
  {
    if i.outcome != Ok {
      MoveKeepsKey(w, k, Returned(true));
    } else {
      ReferenceFindsOwnRun(w, k, mem.status);
      var found := if ref in w.runs then Some(ref) else None;
      assert found.Some? ==> ref in RunsOf(w.runs, k);
      CancelIsSound(k, View(w, k), w.serviceNamespace, mem, c, found, AtCancel(w, mem, c, found));
      MoveKeepsKey(w, k, AtCancel(w, mem, c, found));
    }
  }

  lemma FinalizeListKeepsKey(w: World, k: Key, i: Input, mem: InternalRequest, c: Config)
    requires KeyOk(w, k) && FlightOf(w, k) == Some(Busy(FinalizeList, mem, c))
    requires i.outcome == Ok ==> LookupEnabled(w, k, i.ref)
    ensures KeyOk(DoFinalizeList(w, k, i, mem, c), k)
  {
    if i.outcome != Ok {
      MoveKeepsKey(w, k, Returned(true));
    } else {
      var found := Lookup(w, k, i.ref);
      CancelIsSound(k, View(w, k), w.serviceNamespace, mem, c, found, AtCancel(w, mem, c, found));
      MoveKeepsKey(w, k, AtCancel(w, mem, c, found));
    }
  }

  /** The moves of a reconcile that is not finalizing its request. */
  lemma QuietMoveIsSound(k: Key, c: Cell, ns: string, mem: InternalRequest, call: Call, next: Call, config: Config)
    requires FlightOk(k, c, ns) && WakeOk(c)
    requires c.flight.Some? && c.flight.value.Busy? && c.flight.value.mem == mem && c.flight.value.call == call
    requires !next.AddFinalizer? && !Finalizing(call) && config.namespace == ns && BusyOk(k, c, next, mem, config)
    requires next.PatchTracked? && !IsDone(next.seen) ==> next.ref in c.runs && c.runs[next.ref] == next.seen && AtMostOne(c.runs)
    ensures FlightOk(k, c.(flight := Some(Busy(next, mem, config))), ns)
    ensures WakeOk(c.(flight := Some(Busy(next, mem, config))))
  {
  }

  lemma LoadConfigKeepsKey(w: World, k: Key, i: Input, mem: InternalRequest, c: Config)
    requires KeyOk(w, k) && FlightOf(w, k) == Some(Busy(LoadConfig, mem, c)) && ConfigOk(w)
    ensures KeyOk(DoLoadConfig(w, k, i, mem), k)
  {
    if i.outcome != Ok {
      MoveKeepsKey(w, k, Returned(true));
    } else {
      var config := if w.config.Some? then w.config.value else DefaultConfig(w.serviceNamespace);
      QuietMoveIsSound(k, View(w, k), w.serviceNamespace, mem, LoadConfig, AtAllowed(mem, config).call, config);
      MoveKeepsKey(w, k, AtAllowed(mem, config));
    }
  }

  lemma CreateLookupIsSound(k: Key, c: Cell, ns: string, mem: InternalRequest, config: Config)
    requires CellOk(k, c, ns) && c.flight == Some(Busy(ListForCreate, mem, config))
    ensures var f := AfterCreateLookup(mem, config, c.runs != map[]);
            FlightOk(k, c.(flight := Some(f)), ns) && WakeOk(c.(flight := Some(f)))
  {
    QuietMoveIsSound(k, c, ns, mem, ListForCreate, AfterCreateLookup(mem, config, c.runs != map[]).call, config);
  }

  lemma ListForCreateKeepsKey(w: World, k: Key, i: Input, mem: InternalRequest, c: Config)
    requires KeyOk(w, k) && FlightOf(w, k) == Some(Busy(ListForCreate, mem, c))
    ensures KeyOk(DoListForCreate(w, k, i, mem, c), k)
  {
    if i.outcome != Ok {
      MoveKeepsKey(w, k, Returned(true));
    } else {
      CreateLookupIsSound(k, View(w, k), w.serviceNamespace, mem, c);
      MoveKeepsKey(w, k, AfterCreateLookup(mem, c, RunsOf(w.runs, k) != map[]));
    }
  }

  lemma TrackLookupIsSound(k: Key, c: Cell, ns: string, mem: InternalRequest, config: Config, ref: Ref)
    requires CellOk(k, c, ns) && c.flight == Some(Busy(ListForTrack, mem, config)) && ref in c.runs
    ensures var f := AfterTrackLookup(mem, config, Some((ref, c.runs[ref])));
            FlightOk(k, c.(flight := Some(f)), ns) && WakeOk(c.(flight := Some(f)))
  {
    var f := AfterTrackLookup(mem, config, Some((ref, c.runs[ref])));
    QuietMoveIsSound(k, c, ns, mem, ListForTrack, f.call, config);
  }

  /** A running request has its run, so the lookup finds it. */
  lemma TrackLookupFinds(w: World, k: Key, mem: InternalRequest, c: Config)
    requires KeyOk(w, k) && FlightOf(w, k) == Some(Busy(ListForTrack, mem, c))
    ensures RunsOf(w.runs, k) != map[]
  {
  }

  lemma ListForTrackKeepsKey(w: World, k: Key, i: Input, mem: InternalRequest, c: Config)
    requires KeyOk(w, k) && FlightOf(w, k) == Some(Busy(ListForTrack, mem, c))
    requires i.outcome == Ok ==> LookupEnabled(w, k, i.ref)
    ensures KeyOk(DoListForTrack(w, k, i, mem, c), k)
  {
    if i.outcome != Ok {
      MoveKeepsKey(w, k, Returned(true));
    } else {
      TrackLookupFinds(w, k, mem, c);
      TrackLookupIsSound(k, View(w, k), w.serviceNamespace, mem, c, i.ref);
      MoveKeepsKey(w, k, AfterTrackLookup(mem, c, Some((i.ref, w.runs[i.ref]))));
    }
  }

  lemma ListTaskRunsKeepsKey(w: World, k: Key, i: Input, mem: InternalRequest, c: Config, ref: Ref, seen: Run)
    requires KeyOk(w, k) && FlightOf(w, k) == Some(Busy(ListTaskRuns(ref, seen), mem, c))
    ensures KeyOk(DoListTaskRuns(w, k, i, mem, c, ref, seen), k)
    ensures seen.condition.Some?
  {
    var listing := if i.outcome != Ok then None else if ref in w.runs then Some(w.runs[ref].taskRuns) else Some([]);
    MoveKeepsKey(w, k, Busy(PatchTracked(ref, seen, TrackMessage(seen, listing)), mem, c));
  }

  lemma ListForDeleteKeepsKey(w: World, k: Key, i: Input, mem: InternalRequest, c: Config)
    requires KeyOk(w, k) && FlightOf(w, k) == Some(Busy(ListForDelete, mem, c))
    requires i.outcome == Ok ==> LookupEnabled(w, k, i.ref)
    ensures KeyOk(DoListForDelete(w, k, i, mem, c), k)
    ensures Lookup(w, k, i.ref).Some?
  {
    MoveKeepsKey(w, k, Returned(true));
    if i.outcome == Ok {
      MoveKeepsKey(w, k, Busy(DeleteRun(i.ref), mem, c));
    }
  }

  // ----- Status patches -----

  /** The cell after a status patch: the book is amended when the patch closes the request. */
  function PatchedCell(c: Cell, mem: InternalRequest, m: Marked, landed: bool, f: Flight): Cell
    requires c.ir.Some? && mem.uid < |c.books|
  {
    c.(ir := if landed then Some(c.ir.value.(status := m.status)) else c.ir,
       books := if Closes(mem, m) then c.books[mem.uid := Closing(c.books[mem.uid], mem, m.status, landed)] else c.books,
       flight := Some(f))
  }

  lemma PatchView(w: World, k: Key, mem: InternalRequest, m: Marked, outcome: Outcome, f: Flight)
    requires Coupled(k, mem, IrOf(w, k)) && mem.uid < |BooksOf(w, k)|
    ensures View(MarkAndPatch(w, k, mem, m, outcome, f), k) == PatchedCell(View(w, k), mem, m, outcome != Lost, f)
    ensures outcome != Lost ==> PatchStatus(w.irs, k, mem, m.status, outcome)[k] == w.irs[k].(status := m.status)
  {
    MergeOfOwnCopy(mem.status, m.status);
  }

  /** A patch to an allowed status that does not reopen or restart the request. */
  lemma PatchedStoreOk(k: Key, c: Cell, mem: InternalRequest, m: Marked, landed: bool, f: Flight)
    requires StoreOk(k, c) && Coupled(k, mem, c.ir) && !HasCompleted(mem.status)
    requires StatusOk(m.status) && ReferenceOk(m.status, c.runs, c.retired) && OutcomeOk(m.status, c.runs, c.retired)
    requires InPhase(m.status, Running) ==> c.runs != map[]
    ensures StoreOk(k, PatchedCell(c, mem, m, landed, f))
  {
  }

  lemma PatchRejectedIsSound(k: Key, c: Cell, ns: string, mem: InternalRequest, config: Config, message: string, outcome: Outcome)
    requires CellOk(k, c, ns) && c.flight == Some(Busy(PatchRejected(message), mem, config))
    ensures CellOk(k, PatchedCell(c, mem, MarkedRejected(mem, message), outcome != Lost, Returned(outcome != Ok)), ns)
  {
    PatchedStoreOk(k, c, mem, MarkedRejected(mem, message), outcome != Lost, Returned(outcome != Ok));
  }

  lemma PatchRejectedKeepsKey(w: World, k: Key, i: Input, mem: InternalRequest, c: Config, message: string)
    requires KeyOk(w, k) && FlightOf(w, k) == Some(Busy(PatchRejected(message), mem, c))
    ensures KeyOk(DoPatchRejected(w, k, i, mem, message), k)
  {
    PatchRejectedIsSound(k, View(w, k), w.serviceNamespace, mem, c, message, i.outcome);
    PatchView(w, k, mem, MarkedRejected(mem, message), i.outcome, Returned(i.outcome != Ok));
  }

  function RunningFlight(ir: InternalRequest, m: Marked, c: Config, outcome: Outcome): Flight {
    if outcome == Ok then AtTracked(ir.(status := m.status), c) else Returned(true)
  }

  lemma PatchRunningIsSound(k: Key, c: Cell, ns: string, mem: InternalRequest, config: Config, now: int, outcome: Outcome)
    requires CellOk(k, c, ns) && c.flight == Some(Busy(PatchRunning, mem, config))
    ensures var m := MarkedRunning(mem, now);
            CellOk(k, PatchedCell(c, mem, m, outcome != Lost, RunningFlight(c.ir.value, m, config, outcome)), ns)
  {
    var m := MarkedRunning(mem, now);
    StartedStatus(mem, now);
    PatchedStoreOk(k, c, mem, m, outcome != Lost, RunningFlight(c.ir.value, m, config, outcome));
  }

  lemma StartedStatus(mem: InternalRequest, now: int)
    requires InPhase(mem.status, NotStarted)
    ensures var s := MarkedRunning(mem, now).status; InPhase(s, Running) && !HasCompleted(s) && s.pipelineRun == ""
  {
  }

  lemma PatchRunningKeepsKey(w: World, k: Key, i: Input, mem: InternalRequest, c: Config)
    requires KeyOk(w, k) && FlightOf(w, k) == Some(Busy(PatchRunning, mem, c))
    ensures KeyOk(DoPatchRunning(w, k, i, mem, c), k)
  {
    var m := MarkedRunning(mem, i.now);
    PatchRunningIsSound(k, View(w, k), w.serviceNamespace, mem, c, i.now, i.outcome);
    PatchView(w, k, mem, m, i.outcome, RunningFlight(w.irs[k], m, c, i.outcome));
  }

  lemma TrackedStatus(mem: InternalRequest, ref: Ref, seen: Run, message: string, now: int,
                      runs: map<Ref, Run>, retired: map<Ref, Run>)
    requires InPhase(mem.status, Running) && SeenOk(ref, seen, runs) && AtMostOne(runs) && SEPARATOR !in ref.namespace
    requires IsDone(seen) && !IsTrue(seen) ==> Tells(seen, message)
    ensures var s := Tracked(mem, ref, seen, message, now).status;
            && StatusOk(s) && ReferenceOk(s, runs, retired) && OutcomeOk(s, runs, retired)
            && (HasCompleted(s) <==> IsDone(seen)) && (!IsDone(seen) ==> InPhase(s, Running))
            && s.pipelineRun == Encode(ref)
  {
    RoundTrip(ref);
    var s := Tracked(mem, ref, seen, message, now).status;
    assert s.pipelineRun == Encode(ref);
    if IsDone(seen) {
      assert InPhase(s, if IsTrue(seen) then Succeeded else Failed);
      assert Referred(s, runs, retired) == seen;
    }
  }

  function TrackedFlight(ir: InternalRequest, m: Marked, c: Config, outcome: Outcome): Flight {
    if outcome == Ok then AtDeleted(ir.(status := m.status), c) else Returned(true)
  }

  lemma TrackedFlightOk(k: Key, c: Cell, ns: string, mem: InternalRequest, config: Config,
                        call: Call, m: Marked, outcome: Outcome)
    requires FlightOk(k, c, ns) && WakeOk(c)
    requires c.flight == Some(Busy(call, mem, config)) && call.PatchTracked? && mem.uid < |c.books|
    requires c.ir.Some? && c.ir.value.key == k
    requires AtMostOne(c.runs) && (HasCompleted(m.status) <==> IsDone(call.seen))
    requires !IsDone(call.seen) ==> InPhase(m.status, Running)
    ensures var c' := PatchedCell(c, mem, m, outcome != Lost, TrackedFlight(c.ir.value, m, config, outcome));
            FlightOk(k, c', ns) && WakeOk(c')
  {
  }

  lemma PatchTrackedIsSound(k: Key, c: Cell, ns: string, mem: InternalRequest, config: Config,
                            ref: Ref, seen: Run, message: string, now: int, outcome: Outcome)
    requires CellOk(k, c, ns) && c.flight == Some(Busy(PatchTracked(ref, seen, message), mem, config))
    requires SEPARATOR !in ref.namespace
    ensures var m := Tracked(mem, ref, seen, message, now);
            CellOk(k, PatchedCell(c, mem, m, outcome != Lost, TrackedFlight(c.ir.value, m, config, outcome)), ns)
  {
    var m := Tracked(mem, ref, seen, message, now);
    TrackedStatus(mem, ref, seen, message, now, c.runs, c.retired);
    PatchedStoreOk(k, c, mem, m, outcome != Lost, TrackedFlight(c.ir.value, m, config, outcome));
    TrackedFlightOk(k, c, ns, mem, config, PatchTracked(ref, seen, message), m, outcome);
  }

  lemma PatchTrackedView(w: World, k: Key, i: Input, mem: InternalRequest, c: Config,
                         ref: Ref, seen: Run, message: string)
    requires Coupled(k, mem, IrOf(w, k)) && mem.uid < |BooksOf(w, k)|
    ensures var m := Tracked(mem, ref, seen, message, i.now);
            View(DoPatchTracked(w, k, i, mem, c, ref, seen, message), k) ==
              PatchedCell(View(w, k), mem, m, i.outcome != Lost, TrackedFlight(w.irs[k], m, c, i.outcome))
  {
    var m := Tracked(mem, ref, seen, message, i.now);
    PatchView(w, k, mem, m, i.outcome, TrackedFlight(w.irs[k], m, c, i.outcome));
  }

  lemma PatchTrackedKeepsKey(w: World, k: Key, i: Input, mem: InternalRequest, c: Config,
                             ref: Ref, seen: Run, message: string)
    requires KeyOk(w, k) && FlightOf(w, k) == Some(Busy(PatchTracked(ref, seen, message), mem, c))
    requires SEPARATOR !in ref.namespace
    ensures KeyOk(DoPatchTracked(w, k, i, mem, c, ref, seen, message), k)
  {
    PatchTrackedIsSound(k, View(w, k), w.serviceNamespace, mem, c, ref, seen, message, i.now, i.outcome);
    PatchTrackedView(w, k, i, mem, c, ref, seen, message);
  }
}
