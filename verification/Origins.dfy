/** Where a persisted verdict comes from: the call of the schedule that wrote it, and what that call had seen. */
module Origins {
  import opened Common
  import opened References
  import opened Requests
  import opened PipelineRuns
  import opened Admission
  import opened Protocol
  import opened Invariant
  import opened Preservation

  /** The stored request of `k` is the same incarnation with the same status. */
  predicate SameStatus(w: World, w': World, k: Key) {
    k in w.irs && k in w'.irs && w'.irs[k].uid == w.irs[k].uid && w'.irs[k].status == w.irs[k].status
  }

  /** The call due for `k` writes the status that is stored afterwards. */
  predicate Wrote(w: World, a: Action, w': World, k: Key) {
    && a.Perform? && a.key == k && k in w.flights && PatchesStatus(w.flights[k]) && a.input.outcome != Lost && k in w'.irs
    && w'.irs[k].uid == w.flights[k].mem.uid && w'.irs[k].status == Marking(w.flights[k], a.input.now).status
  }

  predicate Originates(w: World, a: Action, w': World, k: Key) {
    k in w'.irs ==> w'.irs[k].status == NO_STATUS || SameStatus(w, w', k) || Wrote(w, a, w', k)
  }

  lemma PatchOriginates(w: World, k: Key, i: Input)
    requires KeyOk(w, k) && PerformEnabled(w, k, i) && PatchesStatus(w.flights[k])
    ensures Originates(w, Perform(k, i), DoPerform(w, k, i), k)
  {
    var f := w.flights[k];
    assert Coupled(k, f.mem, IrOf(w, k));
    PatchesMark(w, k, i);
    MergeOfOwnCopy(f.mem.status, Marking(f, i.now).status);
  }

  lemma FinalizerWritesKeepStatus(w: World, k: Key, i: Input, mem: InternalRequest)
    ensures k in DoAddFinalizer(w, k, i, mem).irs ==> SameStatus(w, DoAddFinalizer(w, k, i, mem), k)
    ensures k in DoRemoveFinalizer(w, k, i, mem).irs ==> SameStatus(w, DoRemoveFinalizer(w, k, i, mem), k)
  {
  }

  lemma RunWritesKeepRequests(w: World, k: Key, i: Input, mem: InternalRequest, c: Config, ref: Ref)
    ensures DoCancelRun(w, k, i, mem, c, ref).irs == DoCreateRun(w, k, i, mem, c).irs == DoDeleteRun(w, k, i, ref).irs == w.irs
  {
  }

  lemma OtherWriteKeepsStatus(w: World, k: Key, i: Input)
    requires PerformEnabled(w, k, i) && Writes(w.flights[k]) && !PatchesStatus(w.flights[k])
    ensures k in DoPerform(w, k, i).irs ==> SameStatus(w, DoPerform(w, k, i), k)
  {
    var Busy(call, mem, c) := w.flights[k];
    match call {
      case RemoveFinalizer => FinalizerWritesKeepStatus(w, k, i, mem);
      case AddFinalizer => FinalizerWritesKeepStatus(w, k, i, mem);
      case CancelRun(ref) => RunWritesKeepRequests(w, k, i, mem, c, ref);
      case CreateRun => RunWritesKeepRequests(w, k, i, mem, c, i.ref);
      case DeleteRun(ref) => RunWritesKeepRequests(w, k, i, mem, c, ref);
    }
  }

  lemma CallOriginates(w: World, k0: Key, i: Input, k: Key)
    requires Inv(w) && PerformEnabled(w, k0, i)
    ensures Originates(w, Perform(k0, i), DoPerform(w, k0, i), k)
  {
    assert KeyOk(w, k0);
    if k0 != k {
      PerformIsolation(w, k0, i, k);
      assert IrOf(DoPerform(w, k0, i), k) == View(DoPerform(w, k0, i), k).ir == View(w, k).ir == IrOf(w, k);
    } else if !Writes(w.flights[k]) {
      ReadsOnlyMove(w, k, i);
    } else if PatchesStatus(w.flights[k]) {
      PatchOriginates(w, k, i);
    } else {
      OtherWriteKeepsStatus(w, k, i);
    }
  }

  lemma UserStepOriginates(w: World, a: Action, k: Key)
    requires Enabled(w, a) && (a.UserCreate? || a.UserUpdate? || a.OtherFinalizers? || a.UserDelete?)
    ensures Originates(w, a, Step(w, a), k)
  {
  }

  lemma QuietStepOriginates(w: World, a: Action, k: Key)
    requires Enabled(w, a) && !a.Perform? && !a.UserCreate? && !a.UserUpdate? && !a.OtherFinalizers? && !a.UserDelete?
    ensures Step(w, a).irs == w.irs
  {
  }

  lemma StepOriginates(w: World, a: Action, k: Key)
    requires Inv(w) && Enabled(w, a)
    ensures Originates(w, a, Step(w, a), k)
  {
    if a.Perform? {
      CallOriginates(w, a.key, a.input, k);
    } else if a.UserCreate? || a.UserUpdate? || a.OtherFinalizers? || a.UserDelete? {
      UserStepOriginates(w, a, k);
    } else {
      QuietStepOriginates(w, a, k);
    }
  }

  // ----- What tracking a run writes -----

  /** The status refers to the run, and has its verdict and results once Tekton has decided; until then it is unchanged. */
  ghost predicate Follows(before: Status, after: Status, ref: Ref, seen: Run) {
    && after.pipelineRun == ref.namespace + "/" + ref.name && after.startTime == before.startTime
    && (UnderWay(seen) ==> after == before.(pipelineRun := after.pipelineRun))
    && (Says(seen, ConditionTrue) ==>
          IsVerdict(after, ConditionTrue, SucceededReason) && LastWins(seen.results, after.results))
    && (Says(seen, ConditionFalse) ==>
          IsVerdict(after, ConditionFalse, FailedReason) && after.results == before.results)
  }

  lemma TrackingFollowsRun(mem: InternalRequest, ref: Ref, seen: Run, message: string, now: int)
    requires InPhase(mem.status, Running)
    ensures var after := Tracked(mem, ref, seen, message, now).status;
      && Follows(mem.status, after, ref, seen)
      && after.completionTime == (if Decided(seen) then Some(now) else None)
      && (Says(seen, ConditionFalse) ==> Verdict(after).value.message == message)
  {
    RoundTrip(ref);
    if Says(seen, ConditionTrue) {
      ResultsOfIsLastWins(seen.results);
    } else if Says(seen, ConditionFalse) {
      FailureIsRecorded(mem.(status := mem.status.(pipelineRun := Encode(ref))), message, now);
    }
  }

  lemma FailureIsRecorded(ir: InternalRequest, message: string, now: int)
    requires InPhase(ir.status, Running)
    ensures var after := MarkedFailed(ir, message, now).status;
      && IsVerdict(after, ConditionFalse, FailedReason) && Verdict(after).value.message == message
      && after == ir.status.(completionTime := Some(now), conditions := after.conditions)
  {
  }

  /** Only running requests are tracked. */
  lemma TrackedIsRunning(w: World, mem: InternalRequest, c: Config, ref: Ref, run: Run)
    requires Inv(w) && FlightOf(w, mem.key) == Some(AfterTrackLookup(mem, c, Some((ref, run))))
    ensures InPhase(mem.status, Running)
  {
    assert KeyOk(w, mem.key);
  }

  // ----- Rejections -----

  predicate IsRejected(w: World, k: Key) {
    k in w.irs && IsVerdict(w.irs[k].status, ConditionFalse, RejectedReason)
  }

  /** The action rejects incarnation `uid` of `k`, which is inadmissible under the config its reconcile loaded, and says why. */
  predicate Refuses(w: World, a: Action, k: Key, uid: nat, message: string) {
    && a.Perform? && a.key == k && k in w.flights && w.flights[k].Busy? && a.input.outcome != Lost
    && var Busy(call, mem, config) := w.flights[k];
       && call == PatchRejected(message) && mem.uid == uid
       && !Admitted(config, k.namespace, mem.spec) && message == RejectionMessage(config, k.namespace, mem.spec)
  }

  lemma WrittenRejection(k: Key, c: Cell, ns: string, f: Flight, now: int)
    requires CellOk(k, c, ns) && c.flight == Some(f) && PatchesStatus(f)
    requires IsVerdict(Marking(f, now).status, ConditionFalse, RejectedReason)
    ensures f.call == PatchRejected(Verdict(Marking(f, now).status).value.message)
    ensures !Admitted(f.config, k.namespace, f.mem.spec)
    ensures f.call.message == RejectionMessage(f.config, k.namespace, f.mem.spec)
  {
  }

  lemma RejectionOriginates(w: World, a: Action, k: Key)
    requires Inv(w) && Enabled(w, a) && IsRejected(Step(w, a), k)
    ensures var ir := Step(w, a).irs[k];
      SameStatus(w, Step(w, a), k) || Refuses(w, a, k, ir.uid, Verdict(ir.status).value.message)
  {
    StepOriginates(w, a, k);
    if Wrote(w, a, Step(w, a), k) {
      assert KeyOk(w, k);
      WrittenRejection(k, View(w, k), w.serviceNamespace, w.flights[k], a.input.now);
    }
  }
}
