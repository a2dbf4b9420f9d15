/** What wakes the controller up: the events that its watches let through, action by action. */
module Watches {
  import opened Common
  import opened Protocol
  import opened Invariant
  import opened Preservation
  import opened Runs

  /**
    The keys that an action queues while the process is up: a new request; one whose spec changes, but not one whose labels
    or finalizers alone do; one whose deletion begins; the owner of a run that is decided on; and one that was put back.
  */
  function Woken(w: World, a: Action): set<Key>
    requires Enabled(w, a)
  {
    match a
    case UserCreate(k, _, _, _) => {k}
    case UserUpdate(k, spec, _) => if spec != w.irs[k].spec then {k} else {}
    case UserDelete(k) => if !w.irs[k].deleting && w.irs[k].finalizers != {} then {k} else {}
    case RunUpdate(ref, condition, _, _) =>
      if condition.Some? && condition.value.status in {ConditionTrue, ConditionFalse} && ref in w.history.births
      then {w.history.births[ref].key} else {}
    case Finish(k) => if w.flights[k].requeue then {k} else {}
    case _ => {}
  }

  /** The queue of the process after every action: what was queued, less what was picked, and what the action woke up. */
  lemma QueueAfter(w: World, a: Action)
    requires Reachable(w) && Enabled(w, a)
    ensures Step(w, a).queue ==
      match a
      case Crash => {}
      case Start => w.irs.Keys
      case Pick(k) => w.queue - {k}
      case _ => w.queue + if w.up then Woken(w, a) else {}
  {
    ReachableIsSound(w);
    if a.RunUpdate? {
      RunUpdateWakesOwner(w, a);
    } else if a.Perform? {
      CallQueuesNothing(w, a.key, a.input);
    } else if a.UserCreate? || a.UserUpdate? || a.OtherFinalizers? || a.UserDelete? {
      UserStepWakes(w, a);
    } else if a.Finish? {
      ReconcilesNeedTheProcess(w, a.key);
    }
  }

  /** Whatever call fails, the reconcile is over and comes back; only the failing List of the TaskRuns is passed over. */
  lemma FailedCallIsRetried(w: World, k: Key, i: Input)
    requires Reachable(w) && PerformEnabled(w, k, i) && i.outcome != Ok
    ensures if w.flights[k].Busy? && w.flights[k].call.ListTaskRuns?
            then var seen := w.flights[k].call.seen;
                 seen.condition.Some? && FlightOf(DoPerform(w, k, i), k) ==
                   Some(w.flights[k].(call := PatchTracked(w.flights[k].call.ref, seen, seen.condition.value.message)))
            else FlightOf(DoPerform(w, k, i), k) == Some(Returned(true))
  {
    ReachableIsSound(w);
    assert KeyOk(w, k);
    if w.flights[k].Busy? && w.flights[k].call.ListTaskRuns? {
      FailedListIsPassedOver(w, k, i);
    } else if Writes(w.flights[k]) {
      FailedWriteReturns(w, k, i);
    } else {
      FailedReadReturns(w, k, i);
    }
  }

  /** After a call that succeeds, a reconcile that is over comes back only for its deletion, or if the server refused. */
  lemma SuccessEndsIt(w: World, k: Key, i: Input)
    requires Reachable(w) && PerformEnabled(w, k, i) && i.outcome == Ok
    ensures var f := FlightOf(DoPerform(w, k, i), k);
      && f.Some?
      && (f.value.Returned? ==>
            (f.value.requeue <==>
               match w.flights[k]
               case Fetching => k in w.irs && w.irs[k].deleting
               case Busy(call, _, _) =>
                 call.RemoveFinalizer? || (call.AddFinalizer? && (k !in w.irs || w.irs[k].deleting))))
  {
    ReachableIsSound(w);
    assert KeyOk(w, k);
    if w.flights[k].Fetching? {
      FetchEndsIt(w, k, i);
    } else if PatchesStatus(w.flights[k]) {
      PatchedIsStored(w, k, i);
    } else if Writes(w.flights[k]) {
      WriteEndsIt(w, k, i);
    } else {
      ReadEndsIt(w, k, i);
    }
  }

  lemma FetchEndsIt(w: World, k: Key, i: Input)
    requires PerformEnabled(w, k, i) && i.outcome == Ok && w.flights[k].Fetching?
    ensures FlightOf(DoPerform(w, k, i), k).Some?
    ensures FlightOf(DoPerform(w, k, i), k) == Some(Returned(true)) ==> k in w.irs && w.irs[k].deleting
    ensures FlightOf(DoPerform(w, k, i), k) == Some(Returned(false)) ==> k !in w.irs || !w.irs[k].deleting
  {
  }

  lemma PatchedIsStored(w: World, k: Key, i: Input)
    requires KeyOk(w, k) && PerformEnabled(w, k, i) && i.outcome == Ok && PatchesStatus(w.flights[k])
    ensures FlightOf(DoPerform(w, k, i), k).Some? && FlightOf(DoPerform(w, k, i), k) != Some(Returned(true))
  {
    assert Coupled(k, w.flights[k].mem, IrOf(w, k));
  }

  lemma WriteEndsIt(w: World, k: Key, i: Input)
    requires KeyOk(w, k) && PerformEnabled(w, k, i) && i.outcome == Ok && Writes(w.flights[k]) && !PatchesStatus(w.flights[k])
    ensures var f, call := FlightOf(DoPerform(w, k, i), k), w.flights[k].call;
      && f.Some?
      && (call.RemoveFinalizer? ==> f == Some(Returned(true)))
      && (call.AddFinalizer? ==> (f == Some(Returned(true)) <==> k !in w.irs || w.irs[k].deleting))
      && (call.CancelRun? || call.CreateRun? || call.DeleteRun? ==> f != Some(Returned(true)))
  {
  }

  lemma ReadEndsIt(w: World, k: Key, i: Input)
    requires KeyOk(w, k) && PerformEnabled(w, k, i) && i.outcome == Ok && w.flights[k].Busy? && !Writes(w.flights[k])
    ensures FlightOf(DoPerform(w, k, i), k).Some? && FlightOf(DoPerform(w, k, i), k) != Some(Returned(true))
  {
  }

  lemma FailedListIsPassedOver(w: World, k: Key, i: Input)
    requires KeyOk(w, k) && PerformEnabled(w, k, i) && i.outcome != Ok && w.flights[k].Busy? && w.flights[k].call.ListTaskRuns?
    ensures var seen := w.flights[k].call.seen;
      seen.condition.Some? && FlightOf(DoPerform(w, k, i), k) ==
        Some(w.flights[k].(call := PatchTracked(w.flights[k].call.ref, seen, seen.condition.value.message)))
  {
  }

  lemma FailedWriteReturns(w: World, k: Key, i: Input)
    requires PerformEnabled(w, k, i) && i.outcome != Ok && Writes(w.flights[k])
    ensures FlightOf(DoPerform(w, k, i), k) == Some(Returned(true))
  {
  }

  lemma FailedReadReturns(w: World, k: Key, i: Input)
    requires PerformEnabled(w, k, i) && i.outcome != Ok && !Writes(w.flights[k])
    requires w.flights[k].Busy? ==> !w.flights[k].call.ListTaskRuns?
    ensures FlightOf(DoPerform(w, k, i), k) == Some(Returned(true))
  {
  }

  lemma UserStepWakes(w: World, a: Action)
    requires Enabled(w, a) && (a.UserCreate? || a.UserUpdate? || a.OtherFinalizers? || a.UserDelete?)
    ensures Step(w, a).queue == w.queue + if w.up then Woken(w, a) else {}
  {
  }

  lemma ReconcilesNeedTheProcess(w: World, k: Key)
    requires Inv(w) && k in w.flights
    ensures w.up
  {
    assert KeyOk(w, k);
  }

  /** The run is stored, so that it has a birth record, and its owner is the key it was created for. */
  lemma RunUpdateWakesOwner(w: World, a: Action)
    requires RunsOk(w) && Enabled(w, a) && a.RunUpdate?
    ensures a.ref in w.history.births && Step(w, a).queue == w.queue + if w.up then Woken(w, a) else {}
  {
    assert NameOk(w.runs, w.retired, w.history.births, a.ref);
  }

  lemma CallQueuesNothing(w: World, k: Key, i: Input)
    requires PerformEnabled(w, k, i)
    ensures DoPerform(w, k, i).queue == w.queue
  {
    if !Writes(w.flights[k]) {
      ReadsOnlyMove(w, k, i);
    } else if PatchesStatus(w.flights[k]) {
      PatchesMark(w, k, i);
    } else {
      OtherWritesAreFramed(w, k, i);
    }
  }
}
