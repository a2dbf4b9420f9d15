/** The tekton package and the label lookup of the loader: what a PipelineRun is, how it is built, found and watched. */
module PipelineRuns {
  import opened Common
  import opened References
  import opened Requests

  const NAME_LABEL := "internal-services.appstudio.openshift.io/name"
  const NAMESPACE_LABEL := "internal-services.appstudio.openshift.io/namespace"
  const TYPE_LABEL := "pipelines.appstudio.openshift.io/type"
  const TYPE_RELEASE := "release"

  // Keys and value of the owner annotations (operator-lib handler).
  const OWNER_ANNOTATION := "operator-sdk/primary-resource"
  const OWNER_TYPE_ANNOTATION := "operator-sdk/primary-resource-type"
  const KIND := "InternalRequest"
  const GROUP_KIND := KIND + ".appstudio.redhat.com"

  datatype RunCondition = RunCondition(status: ConditionStatus, reason: string, message: string)

  datatype ResultValue = StringValue(text: string) | ArrayValue | ObjectValue

  datatype RunResult = RunResult(name: string, value: ResultValue)

  datatype TaskRun = TaskRun(name: string, condition: Option<RunCondition>)

  /** A PipelineRun with its Succeeded condition and its child TaskRuns; `cancelled` is `spec.status == Cancelled`. */
  datatype Run = Run(labels: map<string, string>, annotations: map<string, string>, params: seq<Param>,
                     serviceAccount: string, resolver: string, refParams: seq<Param>, cancelled: bool,
                     condition: Option<RunCondition>, results: seq<RunResult>, taskRuns: seq<TaskRun>)

  /** PipelineRun.IsDone: the Succeeded condition is neither absent nor Unknown. */
  predicate IsDone(run: Run) {
    run.condition.Some? && run.condition.value.status != ConditionUnknown
  }

  predicate IsTrue(run: Run) {
    run.condition.Some? && run.condition.value.status == ConditionTrue
  }

  // ----- Building (tekton/pipeline_run.go) -----

  function SystemLabels(ir: InternalRequest): map<string, string> {
    ir.labels[NAME_LABEL := ir.key.name][NAMESPACE_LABEL := ir.key.namespace][TYPE_LABEL := TYPE_RELEASE]
  }

  function OwnerAnnotations(ir: InternalRequest): map<string, string> {
    map[OWNER_ANNOTATION := Encode(ir.key), OWNER_TYPE_ANNOTATION := GROUP_KIND]
  }

  /** `params` lists every entry of the map once, in whatever order the map was iterated. */
  predicate Enumerates(params: seq<Param>, m: map<string, string>) {
    && (forall i :: 0 <= i < |params| ==> params[i].name in m && m[params[i].name] == params[i].value)
    && (forall i, j :: 0 <= i < j < |params| ==> params[i].name != params[j].name)
    && |params| == |m|
  }

  /** The parameters of the pipeline reference; the cluster resolver gets two more. */
  function RefParams(namespace: string, spec: Spec): seq<Param> {
    if spec.resolver == "cluster"
    then spec.refParams + [Param("namespace", namespace), Param("kind", "pipeline")] else spec.refParams
  }

  /** The reference of the run is that of the spec, plus, for the cluster resolver only, the namespace and the kind. */
  predicate PointsAt(resolver: string, refParams: seq<Param>, namespace: string, spec: Spec) {
    && resolver == spec.resolver && |refParams| >= |spec.refParams| && refParams[..|spec.refParams|] == spec.refParams
    && var extra := refParams[|spec.refParams|..];
       if spec.resolver == "cluster"
       then |extra| == 2 && extra[0] == Param("namespace", namespace) && extra[1] == Param("kind", "pipeline")
       else extra == []
  }

  /** The run executes what the spec asks for: its pipeline, with its params, under its service account. */
  predicate Executes(run: Run, namespace: string, spec: Spec) {
    && Enumerates(run.params, spec.params) && run.serviceAccount == spec.serviceAccount
    && run.resolver == spec.resolver && run.refParams == RefParams(namespace, spec)
  }

  /** What createInternalRequestPipelineRun sends: labels, owner and spec of the request, no status. */
  predicate BuiltFrom(run: Run, ir: InternalRequest) {
    && run.labels == SystemLabels(ir)
    && run.annotations == OwnerAnnotations(ir)
    && Executes(run, ir.key.namespace, ir.spec)
    && !run.cancelled && run.condition == None && run.results == [] && run.taskRuns == []
  }

  class Builder {
    var labels: map<string, string>
    var annotations: map<string, string>
    var params: seq<Param>
    var serviceAccount: string
    var resolver: string
    var refParams: seq<Param>

    /** NewInternalRequestPipelineRun. */
    constructor ()
      ensures labels == map[] && annotations == map[] && params == [] && serviceAccount == ""
      ensures resolver == "" && refParams == []
    {
      labels, annotations, params, serviceAccount, resolver, refParams := map[], map[], [], "", "", [];
    }

    /** Params in an arbitrary map order; user labels first, then the system labels over them. */
    method WithInternalRequest(ir: InternalRequest)
      requires params == []
      modifies this`labels, this`params, this`serviceAccount
      ensures labels == SystemLabels(ir)
      ensures Enumerates(params, ir.spec.params) && serviceAccount == ir.spec.serviceAccount
    {
      AppendParams(ir.spec.params);
      labels := ir.labels;
      labels := labels[NAME_LABEL := ir.key.name];
      labels := labels[NAMESPACE_LABEL := ir.key.namespace];
      labels := labels[TYPE_LABEL := TYPE_RELEASE];
      serviceAccount := ir.spec.serviceAccount;
    }

    method AppendParams(m: map<string, string>)
      requires params == []
      modifies this`params
      ensures Enumerates(params, m)
    {
      var todo := m.Keys;
      while todo != {}
        invariant todo <= m.Keys
        invariant forall i :: 0 <= i < |params| ==>
          params[i].name in m && params[i].name !in todo && m[params[i].name] == params[i].value
        invariant forall i, j :: 0 <= i < j < |params| ==> params[i].name != params[j].name
        invariant |params| + |todo| == |m|
        decreases todo
      {
        var name :| name in todo;
        params := params + [Param(name, m[name])];
        todo := todo - {name};
      }
    }

    method WithOwner(ir: InternalRequest)
      modifies this`annotations
      ensures annotations == old(annotations) + OwnerAnnotations(ir)
    {
      annotations := annotations[OWNER_ANNOTATION := Encode(ir.key)][OWNER_TYPE_ANNOTATION := GROUP_KIND];
      assert annotations == old(annotations) + OwnerAnnotations(ir);
    }

    /** The reference of the request, converted param by param, with the two extra params of the cluster resolver. */
    method WithPipelineRef(ir: InternalRequest)
      modifies this`resolver, this`refParams
      ensures resolver == ir.spec.resolver && refParams == RefParams(ir.key.namespace, ir.spec)
      ensures PointsAt(resolver, refParams, ir.key.namespace, ir.spec)
    {
      resolver, refParams := ir.spec.resolver, [];
      for i := 0 to |ir.spec.refParams|
        invariant resolver == ir.spec.resolver && refParams == ir.spec.refParams[..i]
      {
        refParams := refParams + [Param(ir.spec.refParams[i].name, ir.spec.refParams[i].value)];
      }
      assert ir.spec.refParams[..|ir.spec.refParams|] == ir.spec.refParams;
      if resolver == "cluster" {
        refParams := refParams + [Param("namespace", ir.key.namespace), Param("kind", "pipeline")];
      }
    }

    function AsPipelineRun(): Run
      reads this
    {
      Run(labels, annotations, params, serviceAccount, resolver, refParams, false, None, [], [])
    }
  }

  /** The labels and annotations of a run, by the keys that the cluster sees. */
  predicate Tagged(run: Run, key: NamespacedName) {
    && "internal-services.appstudio.openshift.io/name" in run.labels
    && run.labels["internal-services.appstudio.openshift.io/name"] == key.name
    && "internal-services.appstudio.openshift.io/namespace" in run.labels
    && run.labels["internal-services.appstudio.openshift.io/namespace"] == key.namespace
    && "pipelines.appstudio.openshift.io/type" in run.labels
    && run.labels["pipelines.appstudio.openshift.io/type"] == "release"
    && "operator-sdk/primary-resource" in run.annotations
    && run.annotations["operator-sdk/primary-resource"] == key.namespace + "/" + key.name
    && "operator-sdk/primary-resource-type" in run.annotations
    && run.annotations["operator-sdk/primary-resource-type"] == "InternalRequest.appstudio.redhat.com"
  }

  method BuildRun(ir: InternalRequest) returns (run: Run)
    ensures BuiltFrom(run, ir)
    ensures Tagged(run, ir.key) && PointsAt(run.resolver, run.refParams, ir.key.namespace, ir.spec)
    ensures forall x :: x in ir.spec.params ==> Param(x, ir.spec.params[x]) in run.params
    ensures run.serviceAccount == ir.spec.serviceAccount
  {
    var b := new Builder();
    b.WithInternalRequest(ir);
    b.WithOwner(ir);
    b.WithPipelineRef(ir);
    assert map[] + OwnerAnnotations(ir) == OwnerAnnotations(ir);
    run := b.AsPipelineRun();
    BuiltRunIsTagged(run, ir);
    EnumerationHoldsEveryName(run.params, ir.spec.params);
  }

  lemma BuiltRunIsTagged(run: Run, ir: InternalRequest)
    requires BuiltFrom(run, ir)
    ensures Tagged(run, ir.key)
  {
    LabelKeysDiffer();
    assert [SEPARATOR] == "/";
    assert GROUP_KIND == "InternalRequest.appstudio.redhat.com";
  }

  lemma {:induction false} EnumerationHoldsEveryName(params: seq<Param>, m: map<string, string>)
    requires Enumerates(params, m)
    ensures (set i | 0 <= i < |params| :: params[i].name) == m.Keys
    ensures forall x :: x in m ==> Param(x, m[x]) in params
  {
    var names := set i | 0 <= i < |params| :: params[i].name;
    NamesCount(params);
    SubsetOfSameSize(names, m.Keys);
    forall x | x in m ensures Param(x, m[x]) in params {
      assert x in names;
      var i :| 0 <= i < |params| && params[i].name == x;
      assert params[i] == Param(x, m[x]);
    }
  }

  lemma {:induction false} NamesCount(params: seq<Param>)
    requires forall i, j :: 0 <= i < j < |params| ==> params[i].name != params[j].name
    ensures |set i | 0 <= i < |params| :: params[i].name| == |params|
  {
    var names := set i | 0 <= i < |params| :: params[i].name;
    if params != [] {
      var n := |params| - 1;
      var front := params[..n];
      NamesCount(front);
      var frontNames := set i | 0 <= i < |front| :: front[i].name;
      assert names == frontNames + {params[n].name} by {
        forall x | x in names ensures x in frontNames + {params[n].name} {
          var i :| 0 <= i < |params| && params[i].name == x;
          if i < n { assert front[i].name == x; }
        }
        forall x | x in frontNames ensures x in names {
          var i :| 0 <= i < |front| && front[i].name == x;
          assert params[i].name == x;
        }
      }
      assert params[n].name !in frontNames;
    }
  }

  lemma SubsetOfSameSize<T>(a: set<T>, b: set<T>)
    requires a <= b && |a| == |b|
    ensures a == b
  {
    if x :| x in b && x !in a {
      SubsetIsSmaller(a, b - {x});
    }
  }

  lemma {:induction false} SubsetIsSmaller<T>(a: set<T>, b: set<T>)
    requires a <= b
    ensures |a| <= |b|
  {
    if a != {} {
      var x :| x in a;
      SubsetIsSmaller(a - {x}, b - {x});
    }
  }

  // ----- Finding and watching -----

  /** The cache of the manager only holds runs of type release (main.go). */
  predicate Cached(run: Run) {
    TYPE_LABEL in run.labels && run.labels[TYPE_LABEL] == TYPE_RELEASE
  }

  /** client.MatchingLabels of GetInternalRequestPipelineRun, over the cache. */
  predicate Matches(run: Run, key: NamespacedName) {
    && Cached(run)
    && NAME_LABEL in run.labels && run.labels[NAME_LABEL] == key.name
    && NAMESPACE_LABEL in run.labels && run.labels[NAMESPACE_LABEL] == key.namespace
  }

  /** What a List with the two labels selects. */
  function RunsOf(runs: map<NamespacedName, Run>, key: NamespacedName): map<NamespacedName, Run> {
    map r | r in runs && Matches(runs[r], key) :: runs[r]
  }

  /** strings.Contains. */
  predicate Contains(s: string, sub: string) {
    sub <= s || (s != [] && Contains(s[1..], sub))
  }

  /** It finds the substring wherever it stands, and only then. */
  lemma {:induction false} ContainsIff(s: string, sub: string)
    ensures Contains(s, sub) <==> exists a, b :: s == a + sub + b
  {
    if sub <= s {
      assert s == [] + sub + s[|sub|..];
    } else if s != [] {
      ContainsIff(s[1..], sub);
      if a, b :| s[1..] == a + sub + b {
        assert s == ([s[0]] + a) + sub + b;
      }
      if a, b :| s == a + sub + b {
        assert a == [] ==> s == sub + b;
        assert s[1..] == a[1..] + sub + b;
      }
    }
  }

  predicate IsInternalRequestsPipelineRun(run: Run) {
    OWNER_TYPE_ANNOTATION in run.annotations && Contains(run.annotations[OWNER_TYPE_ANNOTATION], KIND)
  }

  /** The request an event on the run is mapped to (EnqueueRequestForAnnotation). */
  function WatchedBy(run: Run): Option<NamespacedName> {
    if OWNER_TYPE_ANNOTATION in run.annotations && run.annotations[OWNER_TYPE_ANNOTATION] == GROUP_KIND &&
       OWNER_ANNOTATION in run.annotations
    then Decode(run.annotations[OWNER_ANNOTATION]) else None
  }

  predicate HasPipelineSucceeded(older: Run, newer: Run) {
    !IsDone(older) && IsDone(newer)
  }

  /** The update function of InternalRequestPipelineRunSucceededPredicate; its other functions are constantly false. */
  predicate UpdateFires(older: Run, newer: Run) {
    IsInternalRequestsPipelineRun(newer) && HasPipelineSucceeded(older, newer)
  }

  /** The run carries the labels and annotations of `key`. */
  predicate BelongsTo(run: Run, key: NamespacedName) {
    && Matches(run, key)
    && WatchedBy(run) == Some(key)
    && IsInternalRequestsPipelineRun(run)
  }

  /** A run is ours if and only if its owner type mentions the kind; the update of any other run never fires. */
  lemma OnlyOwnedRunsFire(older: Run, newer: Run)
    ensures IsInternalRequestsPipelineRun(newer) <==>
      "operator-sdk/primary-resource-type" in newer.annotations &&
      exists a, b :: newer.annotations["operator-sdk/primary-resource-type"] == a + "InternalRequest" + b
    ensures UpdateFires(older, newer) ==> IsInternalRequestsPipelineRun(newer)
  {
    if OWNER_TYPE_ANNOTATION in newer.annotations {
      ContainsIff(newer.annotations[OWNER_TYPE_ANNOTATION], KIND);
    }
  }

  /** The labels or annotations hold this value under this key. */
  predicate Carries(m: map<string, string>, key: string, value: string) { key in m && m[key] == value }

  /** Which labels the lookup of a key asks for, and which annotations send the events of a run to it. */
  lemma LookupAndWatchRead(run: Run, key: NamespacedName)
    requires SEPARATOR !in key.namespace
    ensures Matches(run, key) <==>
      && Carries(run.labels, "pipelines.appstudio.openshift.io/type", "release")
      && Carries(run.labels, "internal-services.appstudio.openshift.io/name", key.name)
      && Carries(run.labels, "internal-services.appstudio.openshift.io/namespace", key.namespace)
    ensures WatchedBy(run) == Some(key) <==>
      && Carries(run.annotations, "operator-sdk/primary-resource-type", "InternalRequest.appstudio.redhat.com")
      && Carries(run.annotations, "operator-sdk/primary-resource", key.namespace + "/" + key.name)
  {
    assert GROUP_KIND == "InternalRequest.appstudio.redhat.com";
    RoundTrip(key);
  }

  lemma LabelKeysDiffer()
    ensures NAME_LABEL != NAMESPACE_LABEL && NAME_LABEL != TYPE_LABEL && NAMESPACE_LABEL != TYPE_LABEL
    ensures OWNER_ANNOTATION != OWNER_TYPE_ANNOTATION
  {
    assert |NAME_LABEL| == 45 && |NAMESPACE_LABEL| == 50 && |TYPE_LABEL| == 37;
    assert |OWNER_ANNOTATION| == 29 && |OWNER_TYPE_ANNOTATION| == 34;
  }

  /** Whatever labels the user put on the request, its run is found by its own key, by no other, and stays in the cache. */
  lemma BuiltRunBelongs(run: Run, ir: InternalRequest)
    requires BuiltFrom(run, ir) && SEPARATOR !in ir.key.namespace
    ensures BelongsTo(run, ir.key)
    ensures forall k :: Matches(run, k) <==> k == ir.key
    ensures forall x :: x in ir.labels && x !in {NAME_LABEL, NAMESPACE_LABEL, TYPE_LABEL} ==>
      x in run.labels && run.labels[x] == ir.labels[x]
    ensures run.labels.Keys == ir.labels.Keys + {NAME_LABEL, NAMESPACE_LABEL, TYPE_LABEL}
    ensures run.annotations.Keys == {OWNER_ANNOTATION, OWNER_TYPE_ANNOTATION}
  {
    LabelKeysDiffer();
    RoundTrip(ir.key);
    assert KIND <= GROUP_KIND;
  }

  /** Along observed versions of one run that starts not done and stays done, the predicate fires once iff it ends done. */
  function Firings(versions: seq<Run>): nat {
    if |versions| < 2 then 0
    else Bit(UpdateFires(versions[0], versions[1])) + Firings(versions[1..])
  }

  lemma {:induction false} NoFiringOnceDone(versions: seq<Run>)
    requires versions != [] && forall i :: 0 <= i < |versions| ==> IsDone(versions[i])
    ensures Firings(versions) == 0
  {
    if |versions| >= 2 {
      NoFiringOnceDone(versions[1..]);
    }
  }

  /** The Succeeded condition says True or False. */
  predicate Decided(run: Run) {
    run.condition.Some? && run.condition.value.status in {ConditionTrue, ConditionFalse}
  }

  /** Tekton has not decided on the run yet. */
  predicate UnderWay(run: Run) { run.condition.None? || run.condition.value.status == ConditionUnknown }

  /** The Succeeded condition of the run has this status. */
  predicate Says(run: Run, status: ConditionStatus) { run.condition.Some? && run.condition.value.status == status }

  /** Done means decided: not without the condition, and not while it is Unknown. */
  lemma DoneMeansDecided(run: Run)
    ensures IsDone(run) <==> Decided(run)
    ensures IsTrue(run) <==> Says(run, ConditionTrue)
    ensures Decided(run) <==> Says(run, ConditionTrue) || Says(run, ConditionFalse)
    ensures UnderWay(run) <==> !Decided(run)
  {
  }

  lemma {:induction false} EdgeDetection(versions: seq<Run>)
    requires versions != [] && UnderWay(versions[0])
    requires forall i :: 0 <= i < |versions| ==> IsInternalRequestsPipelineRun(versions[i])
    requires forall i, j :: 0 <= i < j < |versions| && Decided(versions[i]) ==> Decided(versions[j])
    ensures Firings(versions) == Bit(Decided(versions[|versions| - 1]))
  {
    if |versions| >= 2 {
      var rest := versions[1..];
      assert rest[|rest| - 1] == versions[|versions| - 1];
      if Decided(versions[1]) {
        assert forall j :: 1 < j < |versions| ==> Decided(versions[j]);
        NoFiringOnceDone(rest);
      } else {
        EdgeDetection(rest);
      }
    }
  }

  // ----- Results (GetResultsFromPipelineRun) -----

  /** Result i is string-typed and no later string-typed result has its name. */
  predicate LastOfItsName(rs: seq<RunResult>, i: int, x: string) {
    && 0 <= i < |rs| && rs[i].value.StringValue? && rs[i].name == x
    && forall j :: i < j < |rs| && rs[j].name == x ==> !rs[j].value.StringValue?
  }

  /** `m` maps each name to its last string-typed value and has no other entry. */
  ghost predicate LastWins(rs: seq<RunResult>, m: map<string, string>) {
    && (forall i, x :: LastOfItsName(rs, i, x) ==> x in m && m[x] == rs[i].value.text)
    && (forall x :: x in m ==> exists i :: LastOfItsName(rs, i, x))
  }

  function ResultsOf(rs: seq<RunResult>): map<string, string> {
    if rs == [] then map[]
    else
      var n := |rs| - 1;
      var m := ResultsOf(rs[..n]);
      if rs[n].value.StringValue? then m[rs[n].name := rs[n].value.text] else m
  }

  lemma LastOfAppended(front: seq<RunResult>, r: RunResult, i: int, x: string)
    ensures LastOfItsName(front + [r], i, x) <==>
      if r.value.StringValue? && r.name == x then i == |front| else LastOfItsName(front, i, x)
  {
    var rs := front + [r];
    assert rs[|front|] == r;
    assert forall j :: 0 <= j < |front| ==> rs[j] == front[j];
  }

  lemma {:induction false} ResultsOfIsLastWins(rs: seq<RunResult>)
    ensures LastWins(rs, ResultsOf(rs))
  {
    if rs != [] {
      var n := |rs| - 1;
      var front, r := rs[..n], rs[n];
      assert rs == front + [r];
      ResultsOfIsLastWins(front);
      forall i, x | LastOfItsName(rs, i, x) ensures x in ResultsOf(rs) && ResultsOf(rs)[x] == rs[i].value.text {
        LastOfAppended(front, r, i, x);
      }
      forall x | x in ResultsOf(rs) ensures exists i :: LastOfItsName(rs, i, x) {
        if r.value.StringValue? && r.name == x {
          LastOfAppended(front, r, n, x);
        } else {
          var i :| LastOfItsName(front, i, x);
          LastOfAppended(front, r, i, x);
        }
      }
    }
  }

  method GetResultsFromPipelineRun(run: Run) returns (results: map<string, string>)
    ensures results == ResultsOf(run.results)
    ensures LastWins(run.results, results)
  {
    results := map[];
    for i := 0 to |run.results|
      invariant results == ResultsOf(run.results[..i])
    {
      assert run.results[..i + 1][..i] == run.results[..i];
      if run.results[i].value.StringValue? {
        results := results[run.results[i].name := run.results[i].value.text];
      }
    }
    assert run.results[..|run.results|] == run.results;
    ResultsOfIsLastWins(run.results);
  }

  // ----- The failure message (failedTaskRunMessage) -----

  const MESSAGE_LIMIT := 4096
  const MESSAGE_PREFIX := 4081
  const TRUNCATED := "... (truncated)"

  predicate Reports(t: TaskRun) {
    t.condition.Some? && t.condition.value.status == ConditionFalse && t.condition.value.message != ""
  }

  function Report(t: TaskRun): string
    requires t.condition.Some?
  {
    t.name + " (" + t.condition.value.reason + "): " + t.condition.value.message
  }

  function ReportsOf(ts: seq<TaskRun>): seq<string> {
    if ts == [] then []
    else
      var n := |ts| - 1;
      ReportsOf(ts[..n]) + if Reports(ts[n]) then [Report(ts[n])] else []
  }

  /** strings.Join. */
  function Join(parts: seq<string>, separator: string): string {
    if parts == [] then ""
    else if |parts| == 1 then parts[0]
    else parts[0] + separator + Join(parts[1..], separator)
  }

  function Truncate(message: string): string {
    if |message| > MESSAGE_LIMIT then message[..MESSAGE_PREFIX] + TRUNCATED else message
  }

  /** `listing` is None when the List call failed. */
  function FailureMessage(listing: Option<seq<TaskRun>>): string {
    if listing.None? then "" else Truncate(Join(ReportsOf(listing.value), "; "))
  }

  method FailedTaskRunMessage(listing: Option<seq<TaskRun>>) returns (message: string)
    ensures message == FailureMessage(listing)
  {
    if listing.None? { return ""; }
    var ts := listing.value;
    var messages: seq<string> := [];
    for i := 0 to |ts|
      invariant messages == ReportsOf(ts[..i])
    {
      assert ts[..i + 1][..i] == ts[..i];
      var c := ts[i].condition;
      if c.Some? && c.value.status == ConditionFalse && c.value.message != "" {
        messages := messages + [Report(ts[i])];
      }
    }
    assert ts[..|ts|] == ts;
    message := Join(messages, "; ");
    if |message| > MESSAGE_LIMIT {
      message := message[..MESSAGE_PREFIX] + TRUNCATED;
    }
  }

  lemma {:induction false} NoReportsIffNoneReports(ts: seq<TaskRun>)
    ensures ReportsOf(ts) == [] <==> forall t :: t in ts ==> !Reports(t)
    ensures forall m :: m in ReportsOf(ts) ==> m != ""
  {
    if ts != [] {
      var n := |ts| - 1;
      NoReportsIffNoneReports(ts[..n]);
      assert ts == ts[..n] + [ts[n]];
    }
  }

  lemma JoinIsEmptyIff(parts: seq<string>, separator: string)
    requires forall m :: m in parts ==> m != ""
    requires separator != ""
    ensures Join(parts, separator) == "" <==> parts == []
  {
    if |parts| == 1 { assert parts[0] in parts; }
  }

  /** Every listing: bounded, exact when it fits, a marked prefix when it does not, empty iff there is nothing to say. */
  lemma FailureMessageBound(listing: Option<seq<TaskRun>>)
    ensures |FailureMessage(listing)| <= MESSAGE_LIMIT
    ensures listing.Some? ==>
      var full := Join(ReportsOf(listing.value), "; ");
      && (|full| <= MESSAGE_LIMIT ==> FailureMessage(listing) == full)
      && (|full| > MESSAGE_LIMIT ==>
            && |FailureMessage(listing)| == MESSAGE_LIMIT
            && FailureMessage(listing)[..MESSAGE_PREFIX] == full[..MESSAGE_PREFIX]
            && FailureMessage(listing)[MESSAGE_PREFIX..] == TRUNCATED)
    ensures FailureMessage(listing) == "" <==> listing.None? || forall t :: t in listing.value ==> !Reports(t)
  {
    assert |TRUNCATED| == 15;
    if listing.Some? {
      NoReportsIffNoneReports(listing.value);
      JoinIsEmptyIff(ReportsOf(listing.value), "; ");
    }
  }

  lemma {:induction false} ReportsOfConcat(a: seq<TaskRun>, b: seq<TaskRun>)
    ensures ReportsOf(a + b) == ReportsOf(a) + ReportsOf(b)
  {
    if b == [] {
      assert a + b == a;
    } else {
      var n := |b| - 1;
      ReportsOfConcat(a, b[..n]);
      assert (a + b)[..|a + b| - 1] == a + b[..n] && (a + b)[|a + b| - 1] == b[n];
    }
  }

  lemma {:induction false} JoinConcat(p: seq<string>, q: seq<string>, separator: string)
    requires p != [] && q != []
    ensures Join(p + q, separator) == Join(p, separator) + separator + Join(q, separator)
  {
    if |p| == 1 {
      assert (p + q)[0] == p[0] && (p + q)[1..] == q;
    } else {
      JoinConcat(p[1..], q, separator);
      assert (p + q)[0] == p[0] && (p + q)[1..] == p[1..] + q;
    }
  }

  /** A TaskRun that has not failed, or has nothing to say, leaves the message as it is wherever it stands in the list. */
  lemma SilentTaskRun(a: seq<TaskRun>, t: TaskRun, b: seq<TaskRun>)
    requires t.condition.Some? ==> t.condition.value.status != ConditionFalse || t.condition.value.message == ""
    ensures FailureMessage(Some(a + [t] + b)) == FailureMessage(Some(a + b))
  {
    ReportsOfConcat(a + [t], b);
    ReportsOfConcat(a, [t]);
    ReportsOfConcat(a, b);
    assert [t][..0] == [] && ReportsOf([t]) == ReportsOf([t][..0]) == [];
    assert ReportsOf(a + [t]) == ReportsOf(a);
  }

  /** One failed TaskRun with a message is reported by its name, its reason and that message, cut if need be. */
  lemma LoneTaskRun(t: TaskRun)
    requires t.condition.Some? && t.condition.value.status == ConditionFalse && t.condition.value.message != ""
    ensures var full := t.name + " (" + t.condition.value.reason + "): " + t.condition.value.message;
      FailureMessage(Some([t])) == if |full| <= 4096 then full else full[..4081] + "... (truncated)"
  {
    assert [t][..0] == [] && ReportsOf([t]) == ReportsOf([t][..0]) + [Report(t)] == [Report(t)];
  }

  /** The full text behind a message: the message itself, or longer than any message with the same beginning. */
  lemma CutMessage(full: string)
    ensures var m := Truncate(full);
      if |full| <= 4096 then m == full else |m| == 4096 && m[..4081] == full[..4081]
  {
    assert |TRUNCATED| == 15;
  }

  /**
    The message of two lists one after the other is their two messages in that order, with "; " between them if neither is
    empty, cut if need be; no TaskRuns and no listing give the empty message.
  */
  lemma JoinedMessages(a: seq<TaskRun>, b: seq<TaskRun>)
    ensures FailureMessage(None) == FailureMessage(Some([])) == ""
    ensures var x, y := FailureMessage(Some(a)), FailureMessage(Some(b));
      var both := if x != "" && y != "" then x + "; " + y else x + y;
      FailureMessage(Some(a + b)) == if |both| <= 4096 then both else both[..4081] + "... (truncated)"
  {
    var p, q := ReportsOf(a), ReportsOf(b);
    ReportsOfConcat(a, b);
    NoReportsIffNoneReports(a);
    NoReportsIffNoneReports(b);
    JoinIsEmptyIff(p, "; ");
    JoinIsEmptyIff(q, "; ");
    CutMessage(Join(p, "; "));
    CutMessage(Join(q, "; "));
    if p == [] {
      assert p + q == q;
    } else if q == [] {
      assert p + q == p;
    } else {
      JoinConcat(p, q, "; ");
      CutOfCuts(Join(p, "; "), Join(q, "; "));
    }
  }

  /** Cutting the joined cuts is cutting the joined texts. */
  lemma CutOfCuts(full: string, full': string)
    requires full != "" && full' != ""
    ensures Truncate(Truncate(full) + "; " + Truncate(full')) == Truncate(full + "; " + full')
  {
    CutMessage(full);
    CutMessage(full');
    var cut, whole := Truncate(full) + "; " + Truncate(full'), full + "; " + full';
    if |full| <= 4096 && |full'| <= 4096 {
      assert cut == whole;
    } else {
      assert |cut| > 4096 && |whole| > 4096;
      assert cut[..4081] == whole[..4081];
    }
  }
}
