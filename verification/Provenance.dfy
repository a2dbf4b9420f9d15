/** The calls of a schedule that stand behind a run and behind a rejection, and the config their reconcile had loaded. */
module Provenance {
  import opened Common
  import opened Requests
  import opened Admission
  import opened Protocol
  import opened Invariant
  import opened Preservation
  import opened Runs
  import opened Recovery
  import opened Api
  import opened Incarnations
  import opened Origins

  // ----- Schedules from their end -----

  lemma {:induction false} LastStep(w: World, actions: seq<Action>)
    requires actions != [] && Legal(w, actions)
    ensures var front, last := actions[..|actions| - 1], actions[|actions| - 1];
      && Legal(w, front) && Enabled(After(w, front), last) && After(w, actions) == Step(After(w, front), last)
    decreases |actions|
  {
    var w1, front := Step(w, actions[0]), actions[..|actions| - 1];
    if |actions| == 1 {
      assert After(w, actions) == After(w1, []);
    } else {
      LastStep(w1, actions[1..]);
      assert actions[1..][..|actions| - 2] == front[1..] && front[0] == actions[0];
      assert Legal(w, front) && After(w, front) == After(w1, front[1..]);
    }
  }

  // ----- The config of a reconcile -----

  /** The action loads `c`, the config in force, for the reconcile of `k`. */
  predicate Loads(w: World, a: Action, k: Key, c: Config) {
    && a.Perform? && a.key == k && k in w.flights && w.flights[k].Busy? && w.flights[k].call.LoadConfig?
    && a.input.outcome == Ok && c == ConfigInForce(w)
  }

  /** The reconcile of `k` neither ends nor dies. */
  predicate GoesOn(a: Action, k: Key) { !a.Crash? && !(a.Finish? && a.key == k) }

  /** The reconcile that is in flight for `k` at the end of the schedule loaded `c` on the way. */
  ghost predicate Loaded(w: World, actions: seq<Action>, k: Key, c: Config)
    requires Legal(w, actions)
    decreases |actions|
  {
    actions != [] &&
      var n := |actions| - 1;
      LastStep(w, actions);
      (Loads(After(w, actions[..n]), actions[n], k, c) || (GoesOn(actions[n], k) && Loaded(w, actions[..n], k, c)))
  }

  predicate Carries(f: Option<Flight>, c: Config) {
    f.Some? && f.value.Busy? && UsesConfig(f.value.call) && f.value.config == c
  }

  lemma FetchCarriesNothing(w: World, k: Key, i: Input, c: Config)
    ensures !Carries(FlightOf(DoFetch(w, k, i), k), c)
  {
  }

  lemma FinalizingCarriesNothing(w: World, k: Key, i: Input, mem: InternalRequest, config: Config, ref: Ref, c: Config)
    ensures !Carries(FlightOf(DoFinalizeGet(w, k, i, mem, config, ref), k), c)
    ensures !Carries(FlightOf(DoFinalizeList(w, k, i, mem, config), k), c)
    ensures !Carries(FlightOf(DoRemoveFinalizer(w, k, i, mem), k), c)
  {
  }

  lemma CancelCarriesNothing(w: World, k: Key, i: Input, mem: InternalRequest, config: Config, ref: Ref, c: Config)
    requires ref in w.runs
    ensures !Carries(FlightOf(DoCancelRun(w, k, i, mem, config, ref), k), c)
  {
  }

  lemma AdditionCarriesNothing(w: World, k: Key, i: Input, mem: InternalRequest, c: Config)
    ensures !Carries(FlightOf(DoAddFinalizer(w, k, i, mem), k), c)
  {
  }

  lemma LoadCarries(w: World, k: Key, i: Input, mem: InternalRequest, c: Config)
    requires Carries(FlightOf(DoLoadConfig(w, k, i, mem), k), c)
    ensures i.outcome == Ok && c == ConfigInForce(w)
  {
  }

  lemma ListsCarry(w: World, k: Key, i: Input, config: Config, c: Config)
    requires PerformEnabled(w, k, i) && IsList(w.flights[k]) && w.flights[k].config == config
    requires Carries(FlightOf(DoPerform(w, k, i), k), c)
    ensures c == config
  {
  }

  lemma WritesCarry(w: World, k: Key, i: Input)
    requires PerformEnabled(w, k, i) && w.flights[k].Busy? && UsesConfig(w.flights[k].call) && Writes(w.flights[k])
    ensures forall c :: Carries(FlightOf(DoPerform(w, k, i), k), c) ==> c == w.flights[k].config
  {
  }

  lemma CallCarries(w: World, k: Key, i: Input, c: Config)
    requires KeyOk(w, k) && PerformEnabled(w, k, i) && Carries(FlightOf(DoPerform(w, k, i), k), c)
    ensures Loads(w, Perform(k, i), k, c) || Carries(FlightOf(w, k), c)
  {
    match w.flights[k]
    case Fetching => FetchCarriesNothing(w, k, i, c);
    case Busy(call, mem, config) =>
      if call.LoadConfig? {
        LoadCarries(w, k, i, mem, c);
      } else if call.AddFinalizer? {
        AdditionCarriesNothing(w, k, i, mem, c);
      } else if call.CancelRun? {
        CancelCarriesNothing(w, k, i, mem, config, call.ref, c);
      } else if Finalizing(call) {
        FinalizingCarriesNothing(w, k, i, mem, config, if call.FinalizeGet? then call.ref else k, c);
      } else if IsList(w.flights[k]) {
        ListsCarry(w, k, i, config, c);
      } else {
        WritesCarry(w, k, i);
      }
  }

  lemma StepCarries(w: World, a: Action, k: Key, c: Config)
    requires Inv(w) && Enabled(w, a) && Carries(FlightOf(Step(w, a), k), c)
    ensures Loads(w, a, k, c) || (GoesOn(a, k) && Carries(FlightOf(w, k), c))
  {
    assert KeyOk(w, k);
    if a.Perform? && a.key == k {
      CallCarries(w, k, a.input, c);
    } else if Foreign(a, k) {
      ForeignStepKeepsFlight(w, a, k);
    } else {
      EndsCarryNothing(w, a, k, c);
    }
  }

  lemma EndsCarryNothing(w: World, a: Action, k: Key, c: Config)
    requires Enabled(w, a) && (a.Crash? || (a.Pick? && a.key == k) || (a.Finish? && a.key == k))
    ensures !Carries(FlightOf(Step(w, a), k), c)
  {
  }

  /** Whatever config a reconcile carries, it loaded while that config was in force. */
  lemma {:induction false} ConfigWasLoaded(w: World, actions: seq<Action>, k: Key, c: Config)
    requires Initial(w) && Legal(w, actions) && Carries(FlightOf(After(w, actions), k), c)
    ensures Loaded(w, actions, k, c)
    decreases |actions|
  {
    if actions != [] {
      var n := |actions| - 1;
      LastStep(w, actions);
      InitialWorldIsSound(w);
      RunKeepsInv(w, actions[..n]);
      StepCarries(After(w, actions[..n]), actions[n], k, c);
      if !Loads(After(w, actions[..n]), actions[n], k, c) {
        ConfigWasLoaded(w, actions[..n], k, c);
      }
    }
  }

  // ----- Runs -----

  /** The action creates run `r` as `b` records it. */
  predicate Creates(w: World, a: Action, r: Ref, b: Birth) {
    && a.Perform? && a.key == b.key && a.key in w.flights && a.input.outcome != Lost && a.input.ref == r
    && w.flights[a.key].Busy? && w.flights[a.key].call.CreateRun?
    && b == Birth(a.key, w.flights[a.key].mem.uid, w.flights[a.key].mem.spec, w.flights[a.key].config)
  }

  /** Action n of the schedule creates the run, in a reconcile that loaded the recorded config before. */
  ghost predicate CreatedAt(w: World, actions: seq<Action>, n: nat, r: Ref, b: Birth) {
    && n < |actions| && Legal(w, actions[..n])
    && Creates(After(w, actions[..n]), actions[n], r, b) && Loaded(w, actions[..n], b.key, b.config)
  }

  lemma StepCreates(w: World, a: Action, r: Ref)
    requires Enabled(w, a) && r in Step(w, a).history.births
    ensures var b := Step(w, a).history.births[r];
      (r in w.history.births && w.history.births[r] == b) || Creates(w, a, r, b)
  {
    if a.Perform? && w.flights[a.key].Busy? && w.flights[a.key].call.CreateRun? && a.input.outcome != Lost {
      var Busy(_, mem, c) := w.flights[a.key];
      assert Step(w, a) == DoCreateRun(w, a.key, a.input, mem, c);
    } else {
      OtherStepsCreateNothing(w, a);
    }
  }

  /**
    Every run ever created goes back to one Create of the schedule, by a reconcile that had loaded the recorded config
    while it was in force; `Theorems.EveryRunWasAdmitted` adds that this config admitted it.
  */
  lemma {:induction false} EveryRunWasCreated(w: World, actions: seq<Action>, r: Ref)
    requires Initial(w) && Legal(w, actions) && r in After(w, actions).history.births
    ensures exists n :: CreatedAt(w, actions, n, r, After(w, actions).history.births[r])
    decreases |actions|
  {
    if actions != [] {
      var n := |actions| - 1;
      var front := actions[..n];
      var b := After(w, actions).history.births[r];
      LastStep(w, actions);
      StepCreates(After(w, front), actions[n], r);
      if Creates(After(w, front), actions[n], r, b) {
        CreationWasLoaded(w, front, actions[n], r, b);
        assert CreatedAt(w, actions, n, r, b);
      } else {
        EveryRunWasCreated(w, front, r);
        var m: nat :| CreatedAt(w, front, m, r, b);
        EarlierCreation(w, actions, m, r, b);
      }
    }
  }

  lemma EarlierCreation(w: World, actions: seq<Action>, m: nat, r: Ref, b: Birth)
    requires actions != [] && CreatedAt(w, actions[..|actions| - 1], m, r, b)
    ensures CreatedAt(w, actions, m, r, b)
  {
    assert actions[..|actions| - 1][..m] == actions[..m];
  }

  lemma CreationWasLoaded(w: World, front: seq<Action>, a: Action, r: Ref, b: Birth)
    requires Initial(w) && Legal(w, front) && Creates(After(w, front), a, r, b)
    ensures Loaded(w, front, b.key, b.config)
  {
    assert Carries(FlightOf(After(w, front), b.key), b.config);
    ConfigWasLoaded(w, front, b.key, b.config);
  }

  // ----- Where runs live -----

  lemma CreationStaysInNamespace(w: World, a: Action, r: Ref, b: Birth)
    requires Inv(w) && Enabled(w, a) && Creates(w, a, r, b)
    ensures r.namespace == w.serviceNamespace
  {
    assert KeyOk(w, a.key);
  }

  lemma StepKeepsServiceNamespace(w: World, a: Action)
    requires Enabled(w, a)
    ensures Step(w, a).serviceNamespace == w.serviceNamespace
  {
    if a.Perform? { PerformKeepsConfig(w, a.key, a.input); }
  }

  lemma {:induction false} BirthsAreInNamespace(w: World, actions: seq<Action>, r: Ref)
    requires Initial(w) && Legal(w, actions) && r in After(w, actions).history.births
    ensures r.namespace == After(w, actions).serviceNamespace
    decreases |actions|
  {
    if actions != [] {
      var n := |actions| - 1;
      LastStep(w, actions);
      InitialWorldIsSound(w);
      var w1 := After(w, actions[..n]);
      RunKeepsInv(w, actions[..n]);
      StepKeepsServiceNamespace(w1, actions[n]);
      StepCreates(w1, actions[n], r);
      if Creates(w1, actions[n], r, After(w, actions).history.births[r]) {
        CreationStaysInNamespace(w1, actions[n], r, After(w, actions).history.births[r]);
      } else {
        BirthsAreInNamespace(w, actions[..n], r);
      }
    }
  }

  /** Every run ever created, deleted ones included, lives in the namespace of the service. */
  lemma EveryRunIsInServiceNamespace(w: World, r: Ref)
    requires Reachable(w) && (r in w.runs || r in w.retired)
    ensures r.namespace == w.serviceNamespace
  {
    ReachableIsSound(w);
    assert NameOk(w.runs, w.retired, w.history.births, r);
    var w0, actions :| Initial(w0) && Legal(w0, actions) && After(w0, actions) == w;
    BirthsAreInNamespace(w0, actions, r);
  }

  // ----- Rejections -----

  /** Action n of the schedule rejects the incarnation, in a reconcile that loaded before the config that does not admit it. */
  ghost predicate RefusedAt(w: World, actions: seq<Action>, n: nat, k: Key, uid: nat, message: string) {
    && n < |actions| && Legal(w, actions[..n])
    && Refuses(After(w, actions[..n]), actions[n], k, uid, message)
    && Loaded(w, actions[..n], k, After(w, actions[..n]).flights[k].config)
  }

  lemma {:induction false} RejectionHasCall(w: World, actions: seq<Action>, k: Key)
    requires Initial(w) && Legal(w, actions) && IsRejected(After(w, actions), k)
    ensures var ir := After(w, actions).irs[k];
      exists n :: RefusedAt(w, actions, n, k, ir.uid, Verdict(ir.status).value.message)
    decreases |actions|
  {
    if actions != [] {
      var n: nat := |actions| - 1;
      var front := actions[..n];
      var ir := After(w, actions).irs[k];
      var message := Verdict(ir.status).value.message;
      LastRejection(w, actions, k);
      if !RefusedAt(w, actions, n, k, ir.uid, message) {
        RejectionHasCall(w, front, k);
        var m: nat :| RefusedAt(w, front, m, k, ir.uid, message);
        EarlierRefusal(w, actions, m, k, ir.uid, message);
      }
    }
  }

  /**
    The list behind the refusal: the namespace is not on the allow list, or the first URL of a git resolver is missing from
    a list of URLs, or the account from a list of accounts; the message names the first of the three that objects.
  */
  ghost predicate RefusedFor(w: World, actions: seq<Action>, n: nat, k: Key, uid: nat, message: string,
                             check: Check, url: string) {
    && RefusedAt(w, actions, n, k, uid, message)
    && var Busy(_, mem, c) := After(w, actions[..n]).flights[k];
       && FirstURLIs(mem.spec.refParams, url) && FirstObjection(check, c, k.namespace, mem.spec, url)
       && message == Wording(check, c, k.namespace, mem.spec, url)
  }

  /**
    Behind every persisted rejection stands a reconcile of the same incarnation that had loaded, while it was in force, a
    config with such a list, and the stored message says which.
  */
  lemma EveryRejectionWasDue(w: World, actions: seq<Action>, k: Key)
    requires Initial(w) && Legal(w, actions) && IsRejected(After(w, actions), k)
    ensures var ir := After(w, actions).irs[k];
      exists n, check, url :: RefusedFor(w, actions, n, k, ir.uid, Verdict(ir.status).value.message, check, url)
  {
    RejectionHasCall(w, actions, k);
    var ir := After(w, actions).irs[k];
    var message := Verdict(ir.status).value.message;
    var n: nat :| RefusedAt(w, actions, n, k, ir.uid, message);
    var Busy(_, mem, c) := After(w, actions[..n]).flights[k];
    var url := FirstURL(mem.spec.refParams);
    FirstURLIsUnique(mem.spec.refParams, url);
    var check := MessageNamesCheck(c, k.namespace, mem.spec, url);
    assert RefusedFor(w, actions, n, k, ir.uid, message, check, url);
  }

  lemma EarlierRefusal(w: World, actions: seq<Action>, m: nat, k: Key, uid: nat, message: string)
    requires actions != [] && RefusedAt(w, actions[..|actions| - 1], m, k, uid, message)
    ensures RefusedAt(w, actions, m, k, uid, message)
  {
    assert actions[..|actions| - 1][..m] == actions[..m];
  }

  lemma LastRejection(w: World, actions: seq<Action>, k: Key)
    requires actions != [] && Initial(w) && Legal(w, actions) && IsRejected(After(w, actions), k)
    ensures var front, ir := actions[..|actions| - 1], After(w, actions).irs[k];
      && Legal(w, front)
      && (SameStatus(After(w, front), After(w, actions), k) ||
          RefusedAt(w, actions, |actions| - 1, k, ir.uid, Verdict(ir.status).value.message))
  {
    var n := |actions| - 1;
    var ir := After(w, actions).irs[k];
    LastStep(w, actions);
    InitialWorldIsSound(w);
    RunKeepsInv(w, actions[..n]);
    RejectionOriginates(After(w, actions[..n]), actions[n], k);
    if !SameStatus(After(w, actions[..n]), After(w, actions), k) {
      RejectionWasLoaded(w, actions[..n], actions[n], k, ir.uid, Verdict(ir.status).value.message);
    }
  }

  lemma RejectionWasLoaded(w: World, front: seq<Action>, a: Action, k: Key, uid: nat, message: string)
    requires Initial(w) && Legal(w, front) && Refuses(After(w, front), a, k, uid, message)
    ensures Loaded(w, front, k, After(w, front).flights[k].config)
  {
    var c := After(w, front).flights[k].config;
    assert Carries(FlightOf(After(w, front), k), c);
    ConfigWasLoaded(w, front, k, c);
  }
}
