/** The time stamps of a stored status: each is the clock of the call that started or closed its incarnation. */
module Timestamps {
  import opened Common
  import opened Requests
  import opened Protocol
  import opened Invariant
  import opened Preservation
  import opened Runs
  import opened Origins
  import opened Provenance
  import opened Reporting

  datatype Stamp = StartStamp | CompletionStamp

  function StampOf(s: Status, stamp: Stamp): Option<int> {
    match stamp
    case StartStamp => s.startTime
    case CompletionStamp => s.completionTime
  }

  /** The start is stamped by the running mark, the completion by tracking a decided run; a rejection stamps nothing. */
  predicate IsStamping(f: Flight, stamp: Stamp) {
    match stamp
    case StartStamp => f.Busy? && f.call.PatchRunning?
    case CompletionStamp => TracksDecided(f)
  }

  lemma MarkingStamps(k: Key, c: Cell, ns: string, f: Flight, now: int, stamp: Stamp)
    requires CellOk(k, c, ns) && c.flight == Some(f) && PatchesStatus(f)
    ensures StampOf(Marking(f, now).status, stamp) == if IsStamping(f, stamp) then Some(now) else StampOf(f.mem.status, stamp)
  {
    PatchIsDue(k, c, ns, f);
    match f.call {
      case PatchRejected(_) =>
      case PatchRunning =>
      case PatchTracked(ref, seen, message) => TrackingFollowsRun(f.mem, ref, seen, message, now);
    }
  }

  /** A status patch that takes effect writes its own clock to the stamp it is for, and leaves the other one alone. */
  lemma LandedPatchStamps(w: World, k: Key, i: Input, stamp: Stamp)
    requires Reachable(w) && PerformEnabled(w, k, i) && PatchesStatus(w.flights[k]) && i.outcome != Lost
    ensures k in w.irs && k in DoPerform(w, k, i).irs
    ensures StampOf(DoPerform(w, k, i).irs[k].status, stamp) ==
      if IsStamping(w.flights[k], stamp) then Some(i.now) else StampOf(w.irs[k].status, stamp)
  {
    ReachableIsSound(w);
    assert KeyOk(w, k);
    var f := w.flights[k];
    assert Coupled(k, f.mem, IrOf(w, k));
    MarkingStamps(k, View(w, k), w.serviceNamespace, f, i.now, stamp);
    PatchesMark(w, k, i);
    MergeOfOwnCopy(f.mem.status, Marking(f, i.now).status);
  }

  // ----- Along a schedule -----

  predicate HasStamp(w: World, k: Key, uid: nat, stamp: Stamp, t: int) {
    k in w.irs && w.irs[k].uid == uid && StampOf(w.irs[k].status, stamp) == Some(t)
  }

  /** The action stamps incarnation `uid` of `k` at time `t`. */
  predicate Stamps(w: World, a: Action, k: Key, uid: nat, stamp: Stamp, t: int) {
    && a.Perform? && a.key == k && k in w.flights && IsStamping(w.flights[k], stamp) && w.flights[k].mem.uid == uid
    && a.input.outcome != Lost && a.input.now == t
  }

  lemma StampOriginates(w: World, a: Action, k: Key, uid: nat, stamp: Stamp, t: int)
    requires Inv(w) && Enabled(w, a) && HasStamp(Step(w, a), k, uid, stamp, t)
    ensures HasStamp(w, k, uid, stamp, t) || Stamps(w, a, k, uid, stamp, t)
  {
    StepOriginates(w, a, k);
    if Wrote(w, a, Step(w, a), k) {
      assert KeyOk(w, k);
      assert Coupled(k, w.flights[k].mem, IrOf(w, k));
      MarkingStamps(k, View(w, k), w.serviceNamespace, w.flights[k], a.input.now, stamp);
    }
  }

  ghost predicate StampedAt(w: World, actions: seq<Action>, n: nat, k: Key, uid: nat, stamp: Stamp, t: int) {
    n < |actions| && Legal(w, actions[..n]) && Stamps(After(w, actions[..n]), actions[n], k, uid, stamp, t)
  }

  /** Every stored start or completion time is the clock of such a call of the schedule, for the same incarnation. */
  lemma {:induction false} EveryStampIsAClock(w: World, actions: seq<Action>, k: Key, uid: nat, stamp: Stamp, t: int)
    requires Initial(w) && Legal(w, actions) && HasStamp(After(w, actions), k, uid, stamp, t)
    ensures exists n :: StampedAt(w, actions, n, k, uid, stamp, t)
    decreases |actions|
  {
    if actions != [] {
      var n: nat := |actions| - 1;
      var front := actions[..n];
      LastStep(w, actions);
      InitialWorldIsSound(w);
      RunKeepsInv(w, front);
      StampOriginates(After(w, front), actions[n], k, uid, stamp, t);
      if Stamps(After(w, front), actions[n], k, uid, stamp, t) {
        assert StampedAt(w, actions, n, k, uid, stamp, t);
      } else {
        EveryStampIsAClock(w, front, k, uid, stamp, t);
        var m: nat :| StampedAt(w, front, m, k, uid, stamp, t);
        EarlierStamp(w, actions, m, k, uid, stamp, t);
      }
    }
  }

  lemma EarlierStamp(w: World, actions: seq<Action>, m: nat, k: Key, uid: nat, stamp: Stamp, t: int)
    requires actions != [] && StampedAt(w, actions[..|actions| - 1], m, k, uid, stamp, t)
    ensures StampedAt(w, actions, m, k, uid, stamp, t)
  {
    assert actions[..|actions| - 1][..m] == actions[..m];
  }
}
