/** metrics/internalrequest.go: one gauge, one histogram (observations only) and one counter. */
module Metrics {
  import opened Common

  datatype Labels = Labels(request: string, namespace: string, reason: Reason, succeeded: bool)

  /** One atomic operation on a collector. `NilDereference` is the panic of reading a nil start time. */
  datatype Update = GaugeInc | GaugeDec | Observe(labels: Labels) | Count(labels: Labels) | NilDereference

  /** The readings of the three collectors; a label set that was never touched reads 0. */
  datatype Snapshot = Snapshot(gauge: int, observed: map<Labels, nat>, total: map<Labels, nat>)

  const ZERO := Snapshot(0, map[], map[])

  function At(m: map<Labels, nat>, l: Labels): nat {
    if l in m then m[l] else 0
  }

  function Bump(m: map<Labels, nat>, l: Labels): map<Labels, nat> {
    m[l := At(m, l) + 1]
  }

  /** The reading under `l` is `n` higher, and no other reading changed. */
  ghost predicate Grew(m: map<Labels, nat>, m': map<Labels, nat>, l: Labels, n: nat) {
    forall x: Labels :: At(m', x) == At(m, x) + if x == l then n else 0
  }

  function Apply(s: Snapshot, u: Update): Snapshot {
    match u
    case GaugeInc => s.(gauge := s.gauge + 1)
    case GaugeDec => s.(gauge := s.gauge - 1)
    case Observe(l) => s.(observed := Bump(s.observed, l))
    case Count(l) => s.(total := Bump(s.total, l))
    case NilDereference => s
  }

  function ApplyAll(s: Snapshot, us: seq<Update>): Snapshot
    decreases |us|
  {
    if us == [] then s else ApplyAll(Apply(s, us[0]), us[1..])
  }

  // The updates each Register function performs, in program order.

  function NewUpdates(): seq<Update> { [GaugeInc] }

  function CompletedUpdates(l: Labels, startTime: Option<int>): seq<Update> {
    if startTime.Some? then [GaugeDec, Observe(l), Count(l)] else [GaugeDec, NilDereference]
  }

  function DeletedUpdates(l: Labels, startTime: Option<int>): seq<Update> {
    if startTime.Some? then [GaugeDec, Observe(l), Count(l)] else [Count(l)]
  }

  function RejectedUpdates(l: Labels): seq<Update> { [Count(l)] }

  /** The package-level collectors. */
  class Registry {
    var gauge: int
    var observed: map<Labels, nat>
    var total: map<Labels, nat>

    constructor ()
      ensures Read() == ZERO
    {
      gauge, observed, total := 0, map[], map[];
    }

    function Read(): Snapshot
      reads this
    {
      Snapshot(gauge, observed, total)
    }

    method RegisterCompletedInternalRequest(request: string, namespace: string, reason: Reason,
                                            startTime: Option<int>, succeeded: bool) returns (panicked: bool)
      modifies this
      ensures Read() == ApplyAll(old(Read()), CompletedUpdates(Labels(request, namespace, reason, succeeded), startTime))
      ensures panicked <==> startTime.None?
      ensures gauge == old(gauge) - 1
      ensures Grew(old(observed), observed, Labels(request, namespace, reason, succeeded), Bit(startTime.Some?))
      ensures Grew(old(total), total, Labels(request, namespace, reason, succeeded), Bit(startTime.Some?))
    {
      var labels := Labels(request, namespace, reason, succeeded);
      gauge := gauge - 1;
      if startTime.None? {
        UnfoldTwo(old(Read()), GaugeDec, NilDereference);
        return true;
      }
      panicked := false;
      observed := Bump(observed, labels);
      total := Bump(total, labels);
      UnfoldThree(old(Read()), GaugeDec, Observe(labels), Count(labels));
    }

    method RegisterNewInternalRequest()
      modifies this
      ensures Read() == ApplyAll(old(Read()), NewUpdates())
      ensures gauge == old(gauge) + 1 && observed == old(observed) && total == old(total)
    {
      gauge := gauge + 1;
      assert ApplyAll(old(Read()), NewUpdates()) == ApplyAll(Apply(old(Read()), GaugeInc), []);
    }

    method RegisterDeletedInternalRequest(request: string, namespace: string, reason: Reason, startTime: Option<int>)
      modifies this
      ensures Read() == ApplyAll(old(Read()), DeletedUpdates(Labels(request, namespace, reason, false), startTime))
      ensures gauge == old(gauge) - Bit(startTime.Some?)
      ensures Grew(old(observed), observed, Labels(request, namespace, reason, false), Bit(startTime.Some?))
      ensures Grew(old(total), total, Labels(request, namespace, reason, false), 1)
    {
      var labels := Labels(request, namespace, reason, false);
      if startTime.Some? {
        gauge := gauge - 1;
        observed := Bump(observed, labels);
        UnfoldThree(old(Read()), GaugeDec, Observe(labels), Count(labels));
      } else {
        assert ApplyAll(old(Read()), [Count(labels)]) == ApplyAll(Apply(old(Read()), Count(labels)), []);
      }
      total := Bump(total, labels);
    }

    method RegisterRejectedInternalRequest(request: string, namespace: string, reason: Reason)
      modifies this
      ensures Read() == ApplyAll(old(Read()), RejectedUpdates(Labels(request, namespace, reason, false)))
      ensures gauge == old(gauge) && observed == old(observed)
      ensures Grew(old(total), total, Labels(request, namespace, reason, false), 1)
    {
      var labels := Labels(request, namespace, reason, false);
      total := Bump(total, labels);
      assert ApplyAll(old(Read()), [Count(labels)]) == ApplyAll(Apply(old(Read()), Count(labels)), []);
    }
  }

  lemma UnfoldTwo(s: Snapshot, a: Update, b: Update)
    ensures ApplyAll(s, [a, b]) == Apply(Apply(s, a), b)
  {
    assert [a, b][1..] == [b] && [b][1..] == [];
    assert ApplyAll(Apply(s, a), [b]) == Apply(Apply(s, a), b);
  }

  lemma UnfoldThree(s: Snapshot, a: Update, b: Update, c: Update)
    ensures ApplyAll(s, [a, b, c]) == Apply(Apply(Apply(s, a), b), c)
  {
    var us := [a, b, c];
    assert us[1..] == [b, c] && us[1..][1..] == [c] && us[1..][1..][1..] == [];
    assert ApplyAll(Apply(Apply(s, a), b), [c]) == Apply(Apply(Apply(s, a), b), c);
  }

  // ----- Goroutines: the order in which deferred updates run does not matter -----

  /** What a multiset of updates adds to the readings, with no mention of an order. */
  ghost predicate Adds(s: Snapshot, us: multiset<Update>, t: Snapshot) {
    && t.gauge == s.gauge + us[GaugeInc] - us[GaugeDec]
    && (forall l :: l in t.observed <==> l in s.observed || Observe(l) in us)
    && (forall l :: l in t.total <==> l in s.total || Count(l) in us)
    && (forall l :: l in t.observed ==> t.observed[l] == At(s.observed, l) + us[Observe(l)])
    && (forall l :: l in t.total ==> t.total[l] == At(s.total, l) + us[Count(l)])
  }

  lemma AddsOne(s: Snapshot, u: Update)
    ensures Adds(s, multiset{u}, Apply(s, u))
  {
    match u {
      case Observe(l) => assert Apply(s, u).total == s.total;
      case Count(l) => assert Apply(s, u).observed == s.observed;
      case _ =>
    }
  }

  lemma AddsCompose(s: Snapshot, us: multiset<Update>, t: Snapshot, vs: multiset<Update>, r: Snapshot)
    requires Adds(s, us, t) && Adds(t, vs, r)
    ensures Adds(s, us + vs, r)
  {
    forall l ensures l in r.observed <==> l in s.observed || Observe(l) in us + vs {}
    forall l ensures l in r.total <==> l in s.total || Count(l) in us + vs {}
    forall l | l in r.observed ensures r.observed[l] == At(s.observed, l) + (us + vs)[Observe(l)] {}
    forall l | l in r.total ensures r.total[l] == At(s.total, l) + (us + vs)[Count(l)] {}
  }

  lemma {:induction false} ApplyAllAdds(s: Snapshot, us: seq<Update>)
    ensures Adds(s, multiset(us), ApplyAll(s, us))
    decreases |us|
  {
    if us != [] {
      var u, rest := us[0], us[1..];
      assert us == [u] + rest;
      assert multiset(us) == multiset{u} + multiset(rest);
      AddsOne(s, u);
      ApplyAllAdds(Apply(s, u), rest);
      AddsCompose(s, multiset{u}, Apply(s, u), multiset(rest), ApplyAll(s, us));
    }
  }

  lemma AddsIsFunctional(s: Snapshot, us: multiset<Update>, t: Snapshot, t': Snapshot)
    requires Adds(s, us, t) && Adds(s, us, t')
    ensures t == t'
  {
    assert t.observed.Keys == t'.observed.Keys;
    assert t.total.Keys == t'.total.Keys;
    assert t.observed == t'.observed && t.total == t'.total;
  }

  /** Any two orders of the same pending updates leave the same gauge, histogram counts and counters. */
  lemma DrainOrderIsIrrelevant(s: Snapshot, us: seq<Update>, vs: seq<Update>)
    requires multiset(us) == multiset(vs)
    ensures ApplyAll(s, us) == ApplyAll(s, vs)
  {
    ApplyAllAdds(s, us);
    ApplyAllAdds(s, vs);
    AddsIsFunctional(s, multiset(us), ApplyAll(s, us), ApplyAll(s, vs));
  }

  /** All the updates of a list of goroutines, one goroutine after the other. */
  function Concat(gs: seq<seq<Update>>): seq<Update> {
    if gs == [] then [] else gs[0] + Concat(gs[1..])
  }

  /** `schedule[i]` names the goroutine that executes its next update at instant i. */
  ghost predicate Complete(gs: seq<seq<Update>>, schedule: seq<nat>)
    decreases |schedule|
  {
    if schedule == [] then forall i :: 0 <= i < |gs| ==> gs[i] == []
    else
      && schedule[0] < |gs|
      && gs[schedule[0]] != []
      && Complete(gs[schedule[0] := gs[schedule[0]][1..]], schedule[1..])
  }

  /** The updates in the order the schedule executes them. */
  ghost function Interleaved(gs: seq<seq<Update>>, schedule: seq<nat>): (us: seq<Update>)
    requires Complete(gs, schedule)
    decreases |schedule|
  {
    if schedule == [] then []
    else [gs[schedule[0]][0]] + Interleaved(gs[schedule[0] := gs[schedule[0]][1..]], schedule[1..])
  }

  lemma {:induction false} ConcatOfEmpties(gs: seq<seq<Update>>)
    requires forall i :: 0 <= i < |gs| ==> gs[i] == []
    ensures Concat(gs) == []
  {
    if gs != [] {
      ConcatOfEmpties(gs[1..]);
    }
  }

  lemma {:induction false} ConcatAfterOne(gs: seq<seq<Update>>, i: nat)
    requires i < |gs| && gs[i] != []
    ensures multiset(Concat(gs)) == multiset{gs[i][0]} + multiset(Concat(gs[i := gs[i][1..]]))
  {
    var hs := gs[i := gs[i][1..]];
    if i == 0 {
      assert gs[0] == [gs[0][0]] + gs[0][1..];
      assert hs[1..] == gs[1..];
    } else {
      ConcatAfterOne(gs[1..], i - 1);
      assert gs[1..][i - 1] == gs[i];
      assert hs[1..] == gs[1..][i - 1 := gs[i][1..]];
      assert hs[0] == gs[0];
    }
  }

  lemma {:induction false} InterleavingKeepsUpdates(gs: seq<seq<Update>>, schedule: seq<nat>)
    requires Complete(gs, schedule)
    ensures multiset(Interleaved(gs, schedule)) == multiset(Concat(gs))
    decreases |schedule|
  {
    if schedule == [] {
      ConcatOfEmpties(gs);
    } else {
      var i := schedule[0];
      InterleavingKeepsUpdates(gs[i := gs[i][1..]], schedule[1..]);
      ConcatAfterOne(gs, i);
    }
  }

  /** Every complete interleaving of the detached goroutines ends with the readings of running them one by one. */
  lemma InterleavingIsIrrelevant(s: Snapshot, gs: seq<seq<Update>>, schedule: seq<nat>)
    requires Complete(gs, schedule)
    ensures ApplyAll(s, Interleaved(gs, schedule)) == ApplyAll(s, Concat(gs))
  {
    InterleavingKeepsUpdates(gs, schedule);
    DrainOrderIsIrrelevant(s, Interleaved(gs, schedule), Concat(gs));
  }
}
