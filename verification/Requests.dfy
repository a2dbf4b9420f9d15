/** api/v1alpha1/internalrequest_types.go: the InternalRequest, its status and the transitions of its lifecycle. */
module Requests {
  import opened Common
  import opened Metrics

  /** The finalizer that keeps an InternalRequest until its PipelineRun has been dealt with. */
  const FINALIZER := "internal-services.appstudio.openshift.io/pipelinerun-cleanup"

  /** `pipelineName` is what the pipeline's `pathInRepo` parameter yields; `resolver` and `refParams` are the PipelineRef. */
  datatype Spec = Spec(pipelineName: string, resolver: string, refParams: seq<Param>,
                       params: map<string, string>, serviceAccount: string)

  datatype ConditionType = SucceededCondition | OtherCondition(name: string)

  datatype Condition = Condition(kind: ConditionType, status: ConditionStatus, reason: Reason, message: string)

  datatype Status = Status(startTime: Option<int>, completionTime: Option<int>, pipelineRun: string,
                           conditions: seq<Condition>, results: map<string, string>)

  /** `uid` numbers the incarnations of one key; `deleting` is a non-nil deletion timestamp. */
  datatype InternalRequest = InternalRequest(key: NamespacedName, uid: nat, generation: nat, labels: map<string, string>,
                                             finalizers: set<string>, deleting: bool, spec: Spec, status: Status)

  const NO_STATUS := Status(None, None, "", [], map[])

  // ----- Conditions -----

  /** meta.FindStatusCondition: the first condition of the given type. */
  function FindStatusCondition(conditions: seq<Condition>, kind: ConditionType): (found: Option<Condition>)
    ensures found.Some? ==> found.value.kind == kind
  {
    if conditions == [] then None
    else if conditions[0].kind == kind then Some(conditions[0])
    else FindStatusCondition(conditions[1..], kind)
  }

  /** meta.SetStatusCondition: overwrite the condition of that type where it stands, or append it. */
  function SetStatusCondition(conditions: seq<Condition>, c: Condition): (r: seq<Condition>)
    ensures FindStatusCondition(r, c.kind) == Some(c)
    ensures forall kind :: kind != c.kind ==> FindStatusCondition(r, kind) == FindStatusCondition(conditions, kind)
  {
    if conditions == [] then [c]
    else if conditions[0].kind == c.kind then
      assert ([c] + conditions[1..])[1..] == conditions[1..];
      [c] + conditions[1..]
    else
      var rest := SetStatusCondition(conditions[1..], c);
      assert ([conditions[0]] + rest)[1..] == rest;
      [conditions[0]] + rest
  }

  /** What is found stands at the least index of its type; nothing is found only where no condition has the type. */
  lemma {:induction false} FirstOfItsType(conditions: seq<Condition>, kind: ConditionType)
    ensures match FindStatusCondition(conditions, kind)
            case None => forall i :: 0 <= i < |conditions| ==> conditions[i].kind != kind
            case Some(c) => exists i :: 0 <= i < |conditions| && conditions[i] == c && c.kind == kind &&
                                        forall j :: 0 <= j < i ==> conditions[j].kind != kind
  {
    if conditions != [] && conditions[0].kind != kind {
      var rest := conditions[1..];
      FirstOfItsType(rest, kind);
      assert forall i :: 0 <= i < |rest| ==> conditions[i + 1] == rest[i];
      if FindStatusCondition(rest, kind).Some? {
        var i :| 0 <= i < |rest| && rest[i] == FindStatusCondition(rest, kind).value
                 && forall j :: 0 <= j < i ==> rest[j].kind != kind;
        assert forall j :: 0 < j < i + 1 ==> conditions[j] == rest[j - 1];
        assert conditions[i + 1] == rest[i];
      } else {
        assert forall j :: 0 < j < |conditions| ==> conditions[j] == rest[j - 1];
      }
    }
  }

  function Verdict(s: Status): Option<Condition> {
    FindStatusCondition(s.conditions, SucceededCondition)
  }

  predicate HasCompleted(s: Status) {
    match Verdict(s)
    case None => false
    case Some(c) => c.status == ConditionTrue || (c.status == ConditionFalse && c.reason != RunningReason)
  }

  predicate HasFailed(s: Status) {
    match Verdict(s)
    case None => false
    case Some(c) => c.status != ConditionTrue && c.status == ConditionFalse && c.reason != RunningReason
  }

  predicate HasSucceeded(s: Status) {
    Verdict(s).Some? && Verdict(s).value.status == ConditionTrue
  }

  predicate IsRunning(s: Status) {
    Verdict(s).Some? && Verdict(s).value.status != ConditionTrue && Verdict(s).value.reason == RunningReason
  }

  // ----- Transitions: the new status and the updates handed to a detached goroutine -----

  datatype Marked = Marked(status: Status, spawned: seq<Update>)

  function WithVerdict(s: Status, status: ConditionStatus, reason: Reason, message: string): Status {
    s.(conditions := SetStatusCondition(s.conditions, Condition(SucceededCondition, status, reason, message)))
  }

  function LabelsFor(ir: InternalRequest, reason: Reason, succeeded: bool): Labels {
    Labels(ir.spec.pipelineName, ir.key.namespace, reason, succeeded)
  }

  function MarkedFailed(ir: InternalRequest, message: string, now: int): Marked {
    if HasCompleted(ir.status) then Marked(ir.status, [])
    else Marked(WithVerdict(ir.status.(completionTime := Some(now)), ConditionFalse, FailedReason, message),
                CompletedUpdates(LabelsFor(ir, FailedReason, false), ir.status.startTime))
  }

  function MarkedRejected(ir: InternalRequest, message: string): Marked {
    if HasCompleted(ir.status) then Marked(ir.status, [])
    else Marked(WithVerdict(ir.status, ConditionFalse, RejectedReason, message),
                RejectedUpdates(LabelsFor(ir, RejectedReason, false)))
  }

  function MarkedRunning(ir: InternalRequest, now: int): Marked {
    if HasCompleted(ir.status) then Marked(ir.status, [])
    else if IsRunning(ir.status) then Marked(WithVerdict(ir.status, ConditionFalse, RunningReason, ""), [])
    else Marked(WithVerdict(ir.status.(startTime := Some(now)), ConditionFalse, RunningReason, ""), NewUpdates())
  }

  function MarkedSucceeded(ir: InternalRequest, now: int): Marked {
    if HasCompleted(ir.status) then Marked(ir.status, [])
    else Marked(WithVerdict(ir.status.(completionTime := Some(now)), ConditionTrue, SucceededReason, ""),
                CompletedUpdates(LabelsFor(ir, SucceededReason, true), ir.status.startTime))
  }

  /** RegisterDeletion changes no field; it only reports a request that is deleted before it completed. */
  function DeletionUpdates(ir: InternalRequest): seq<Update> {
    if HasCompleted(ir.status) then []
    else DeletedUpdates(LabelsFor(ir, DeletedReason, false), ir.status.startTime)
  }

  /** The in-memory object the adapter works on. */
  class RequestObject {
    var ir: InternalRequest

    constructor (ir: InternalRequest)
      ensures this.ir == ir
    {
      this.ir := ir;
    }

    method MarkFailed(message: string, now: int) returns (spawned: seq<Update>)
      modifies this
      ensures Marked(ir.status, spawned) == MarkedFailed(old(ir), message, now)
      ensures ir == old(ir).(status := ir.status)
    {
      spawned := [];
      if HasCompleted(ir.status) { return; }
      ir := ir.(status := ir.status.(completionTime := Some(now)));
      SetCondition(ConditionFalse, FailedReason, message);
      spawned := CompletedUpdates(LabelsFor(ir, FailedReason, false), ir.status.startTime);
    }

    method MarkRejected(message: string) returns (spawned: seq<Update>)
      modifies this
      ensures Marked(ir.status, spawned) == MarkedRejected(old(ir), message)
      ensures ir == old(ir).(status := ir.status)
    {
      spawned := [];
      if HasCompleted(ir.status) { return; }
      SetCondition(ConditionFalse, RejectedReason, message);
      spawned := RejectedUpdates(LabelsFor(ir, RejectedReason, false));
    }

    method MarkRunning(now: int) returns (spawned: seq<Update>)
      modifies this
      ensures Marked(ir.status, spawned) == MarkedRunning(old(ir), now)
      ensures ir == old(ir).(status := ir.status)
    {
      spawned := [];
      if HasCompleted(ir.status) { return; }
      if !IsRunning(ir.status) {
        ir := ir.(status := ir.status.(startTime := Some(now)));
        spawned := NewUpdates();
      }
      SetCondition(ConditionFalse, RunningReason, "");
    }

    method MarkSucceeded(now: int) returns (spawned: seq<Update>)
      modifies this
      ensures Marked(ir.status, spawned) == MarkedSucceeded(old(ir), now)
      ensures ir == old(ir).(status := ir.status)
    {
      spawned := [];
      if HasCompleted(ir.status) { return; }
      ir := ir.(status := ir.status.(completionTime := Some(now)));
      SetCondition(ConditionTrue, SucceededReason, "");
      spawned := CompletedUpdates(LabelsFor(ir, SucceededReason, true), ir.status.startTime);
    }

    method RegisterDeletion() returns (spawned: seq<Update>)
      ensures spawned == DeletionUpdates(ir)
    {
      spawned := [];
      if HasCompleted(ir.status) { return; }
      spawned := DeletedUpdates(LabelsFor(ir, DeletedReason, false), ir.status.startTime);
    }

    method SetCondition(status: ConditionStatus, reason: Reason, message: string)
      modifies this
      ensures ir == old(ir).(status := WithVerdict(old(ir.status), status, reason, message))
    {
      ir := ir.(status := WithVerdict(ir.status, status, reason, message));
    }
  }

  /** The four source predicates over every verdict a status can carry, Unknown ones and foreign reasons included. */
  lemma PredicatesDivide(s: Status)
    ensures HasCompleted(s) <==> HasSucceeded(s) || HasFailed(s)
    ensures !(HasSucceeded(s) && HasFailed(s)) && !(HasCompleted(s) && IsRunning(s))
    ensures Verdict(s).None? ==> !HasCompleted(s) && !IsRunning(s)
    ensures Verdict(s).Some? ==>
      match Verdict(s).value.status
      case ConditionTrue => HasSucceeded(s)
      case ConditionFalse => if Verdict(s).value.reason == RunningReason then IsRunning(s) else HasFailed(s)
      case ConditionUnknown => !HasCompleted(s) && (IsRunning(s) <==> Verdict(s).value.reason == RunningReason)
  {
  }

  // ----- The lifecycle as a state machine -----

  datatype Phase = NotStarted | Running | Succeeded | Failed | Rejected

  /** Every status the controller can write has exactly the fields of one phase. */
  predicate InPhase(s: Status, p: Phase) {
    match p
    case NotStarted => s == NO_STATUS
    case Running =>
      && IsVerdict(s, ConditionFalse, RunningReason) && Verdict(s).value.message == ""
      && s.startTime.Some? && s.completionTime.None? && s.results == map[]
    case Succeeded =>
      && IsVerdict(s, ConditionTrue, SucceededReason)
      && s.startTime.Some? && s.completionTime.Some?
    case Failed =>
      && IsVerdict(s, ConditionFalse, FailedReason)
      && s.startTime.Some? && s.completionTime.Some? && s.results == map[]
    case Rejected =>
      && IsVerdict(s, ConditionFalse, RejectedReason)
      && s.completionTime.None? && s.results == map[]
  }

  predicate IsVerdict(s: Status, status: ConditionStatus, reason: Reason) {
    Verdict(s).Some? && Verdict(s).value.status == status && Verdict(s).value.reason == reason
  }

  /** The four source predicates tell the phases apart. */
  lemma PhasesAreRecognised(s: Status, p: Phase)
    requires InPhase(s, p)
    ensures HasCompleted(s) <==> p in {Succeeded, Failed, Rejected}
    ensures HasFailed(s) <==> p in {Failed, Rejected}
    ensures HasSucceeded(s) <==> p == Succeeded
    ensures IsRunning(s) <==> p == Running
    ensures forall q: Phase :: InPhase(s, q) ==> q == p
  {
  }

  /** NotStarted -> Running -> Succeeded | Failed, NotStarted | Running -> Rejected, and nothing leaves a final phase. */
  lemma LifecycleTransitions(ir: InternalRequest, p: Phase, message: string, now: int)
    requires InPhase(ir.status, p)
    ensures InPhase(MarkedRunning(ir, now).status, if p == NotStarted then Running else p)
    ensures p == Running ==> InPhase(MarkedSucceeded(ir, now).status, Succeeded)
    ensures p == Running ==> InPhase(MarkedFailed(ir, message, now).status, Failed)
    ensures InPhase(MarkedRejected(ir, message).status, if p in {NotStarted, Running} then Rejected else p)
    ensures p in {Succeeded, Failed, Rejected} ==>
      MarkedRunning(ir, now) == MarkedSucceeded(ir, now) == MarkedFailed(ir, message, now) ==
      MarkedRejected(ir, message) == Marked(ir.status, []) && DeletionUpdates(ir) == []
    ensures p == Running ==> MarkedRunning(ir, now).status.startTime == ir.status.startTime
    // Each move reports exactly one attempt when it closes the request, and only a start raises the gauge.
    ensures MarkedRunning(ir, now).spawned == if p == NotStarted then [GaugeInc] else []
    ensures p == Running ==> NilDereference !in MarkedSucceeded(ir, now).spawned + MarkedFailed(ir, message, now).spawned
  {
    PhasesAreRecognised(ir.status, p);
  }

  // ----- JSON merge patch (section 2 of RFC 7396) -----

  /** A member the patch does not mention keeps the stored value. */
  function MergeField<T(==)>(stored: T, before: T, after: T): T {
    if before == after then stored else after
  }

  /** `results` is an object: members are merged one by one, and a removed member is patched to null. */
  function MergeResults(stored: map<string, string>, before: map<string, string>, after: map<string, string>)
    : map<string, string>
  {
    (stored - (before.Keys - after.Keys)) + (map x | x in after && (x !in before || before[x] != after[x]) :: after[x])
  }

  /** What the server stores when a client that read `before` patches it to `after` (client.MergeFrom). */
  function MergeStatus(stored: Status, before: Status, after: Status): Status {
    Status(MergeField(stored.startTime, before.startTime, after.startTime),
           MergeField(stored.completionTime, before.completionTime, after.completionTime),
           MergeField(stored.pipelineRun, before.pipelineRun, after.pipelineRun),
           MergeField(stored.conditions, before.conditions, after.conditions),
           MergeResults(stored.results, before.results, after.results))
  }

  predicate Kept<T(==)>(stored: T, before: T, after: T, merged: T) {
    merged == if after == before then stored else after
  }

  /** The value of one member of `results`, if it has one. */
  function Member(m: map<string, string>, x: string): Option<string> { if x in m then Some(m[x]) else None }

  /** A patch writes what the copy changed, member by member, and leaves to the server whatever it did not change. */
  lemma PatchWritesItsChanges(stored: Status, before: Status, after: Status, x: string)
    ensures var merged := MergeStatus(stored, before, after);
      && Kept(stored.startTime, before.startTime, after.startTime, merged.startTime)
      && Kept(stored.completionTime, before.completionTime, after.completionTime, merged.completionTime)
      && Kept(stored.pipelineRun, before.pipelineRun, after.pipelineRun, merged.pipelineRun)
      && Kept(stored.conditions, before.conditions, after.conditions, merged.conditions)
      && Kept(Member(stored.results, x), Member(before.results, x), Member(after.results, x), Member(merged.results, x))
  {
    var merged := MergeResults(stored.results, before.results, after.results);
    assert x in merged <==> (x in after.results && (x !in before.results || before.results[x] != after.results[x]))
                            || (x in stored.results && !(x in before.results && x !in after.results));
  }

  /** Patching the very status that was read stores the patched copy as it is in memory. */
  lemma MergeOfOwnCopy(before: Status, after: Status)
    ensures MergeStatus(before, before, after) == after
  {
    assert MergeResults(before.results, before.results, after.results) == after.results;
  }

  /** An unchanged copy patches nothing, whatever the server holds by then. */
  lemma MergeOfUnchangedCopy(stored: Status, before: Status)
    ensures MergeStatus(stored, before, before) == stored
  {
    assert MergeResults(stored.results, before.results, before.results) == stored.results;
  }
}
