/** The steps of users, of Tekton, of the work queue and of the process keep the invariant of the key they touch. */
module EnvironmentPreservation {
  import opened Common
  import opened Requests
  import opened PipelineRuns
  import opened Protocol
  import opened Invariant
  import opened KeyPreservation

  lemma UserCreateIsSound(k: Key, c: Cell, ns: string, spec: Spec, labels: map<string, string>, finalizers: set<string>)
    requires CellOk(k, c, ns) && c.ir.None? && FINALIZER !in finalizers
    ensures CellOk(k, c.(ir := Some(InternalRequest(k, |c.books|, 1, labels, finalizers, false, spec, NO_STATUS)),
                         books := c.books + [NEW_BOOK], queued := c.up || c.queued), ns)
  {
  }

  lemma UserCreateKeepsKey(w: World, k: Key, spec: Spec, labels: map<string, string>, finalizers: set<string>)
    requires KeyOk(w, k) && k !in w.irs && FINALIZER !in finalizers
    ensures KeyOk(DoUserCreate(w, k, spec, labels, finalizers), k)
  {
    var c := View(w, k);
    UserCreateIsSound(k, c, w.serviceNamespace, spec, labels, finalizers);
    var c' := c.(ir := Some(InternalRequest(k, |c.books|, 1, labels, finalizers, false, spec, NO_STATUS)),
                 books := c.books + [NEW_BOOK], queued := c.up || c.queued);
    assert View(DoUserCreate(w, k, spec, labels, finalizers), k) == c';
  }

  /** A change of the request that this controller's invariant does not depend on; a deletion must wake the key. */
  lemma RequestChangeIsSound(k: Key, c: Cell, ns: string, ir: InternalRequest, queued: bool)
    requires CellOk(k, c, ns) && c.ir.Some?
    requires ir.key == k && ir.uid == c.ir.value.uid && ir.status == c.ir.value.status
    requires (Held(ir) <==> Held(c.ir.value))
    requires c.ir.value.deleting ==> ir.deleting && ir.finalizers <= c.ir.value.finalizers
    requires ir.deleting ==> ir.finalizers != {}
    requires (c.queued ==> queued) && (c.up && ir.deleting && !c.ir.value.deleting ==> queued)
    ensures CellOk(k, c.(ir := Some(ir), queued := queued), ns)
  {
  }

  lemma RequestGoneIsSound(k: Key, c: Cell, ns: string)
    requires CellOk(k, c, ns) && c.ir.Some? && !Held(c.ir.value)
    ensures CellOk(k, c.(ir := None), ns)
  {
  }

  lemma UserUpdateView(w: World, k: Key, spec: Spec, labels: map<string, string>)
    requires k in w.irs
    ensures var ir := w.irs[k].(spec := spec, labels := labels, generation := w.irs[k].generation + Bit(spec != w.irs[k].spec));
            var w' := DoUserUpdate(w, k, spec, labels);
            View(w', k) == View(w, k).(ir := Some(ir), queued := k in w'.queue) && (k in w.queue ==> k in w'.queue)
  {
  }

  lemma UserUpdateKeepsKey(w: World, k: Key, spec: Spec, labels: map<string, string>)
    requires KeyOk(w, k) && k in w.irs
    ensures KeyOk(DoUserUpdate(w, k, spec, labels), k)
  {
    var ir := w.irs[k].(spec := spec, labels := labels, generation := w.irs[k].generation + Bit(spec != w.irs[k].spec));
    UserUpdateView(w, k, spec, labels);
    RequestChangeIsSound(k, View(w, k), w.serviceNamespace, ir, k in DoUserUpdate(w, k, spec, labels).queue);
  }

  lemma OtherFinalizersKeepsKey(w: World, k: Key, finalizers: set<string>)
    requires KeyOk(w, k) && k in w.irs && (FINALIZER in finalizers <==> Held(w.irs[k]))
    ensures KeyOk(DoOtherFinalizers(w, k, finalizers), k)
  {
    var w' := DoOtherFinalizers(w, k, finalizers);
    if k in w'.irs {
      RequestChangeIsSound(k, View(w, k), w.serviceNamespace, w'.irs[k], k in w'.queue);
      assert View(w', k) == View(w, k).(ir := Some(w'.irs[k]), queued := k in w'.queue);
    } else {
      RequestGoneIsSound(k, View(w, k), w.serviceNamespace);
      assert View(w', k) == View(w, k).(ir := None);
    }
  }

  lemma UserDeleteView(w: World, k: Key)
    requires k in w.irs
    ensures var ir := w.irs[k].(deleting := true, generation := w.irs[k].generation + Bit(!w.irs[k].deleting));
            View(DoUserDelete(w, k), k) ==
              if w.irs[k].finalizers == {} then View(w, k).(ir := None)
              else View(w, k).(ir := Some(ir), queued := (w.up && !w.irs[k].deleting) || k in w.queue)
  {
  }

  lemma UserDeleteKeepsKey(w: World, k: Key)
    requires KeyOk(w, k) && k in w.irs
    ensures KeyOk(DoUserDelete(w, k), k)
  {
    UserDeleteView(w, k);
    if w.irs[k].finalizers == {} {
      RequestGoneIsSound(k, View(w, k), w.serviceNamespace);
    } else {
      var ir := w.irs[k].(deleting := true, generation := w.irs[k].generation + Bit(!w.irs[k].deleting));
      RequestChangeIsSound(k, View(w, k), w.serviceNamespace, ir, (w.up && !w.irs[k].deleting) || k in w.queue);
    }
  }

  lemma RunUpdateIsSound(k: Key, c: Cell, ns: string, ref: Ref, newer: Run, queued: bool)
    requires CellOk(k, c, ns) && ref in c.runs && !IsDone(c.runs[ref])
    requires newer.cancelled == c.runs[ref].cancelled
    requires (c.queued ==> queued) && (c.up && IsDone(newer) ==> queued)
    ensures CellOk(k, c.(runs := c.runs[ref := newer], queued := queued), ns)
  {
    var c' := c.(runs := c.runs[ref := newer], queued := queued);
    assert c'.runs.Keys == c.runs.Keys;
    assert StoreOk(k, c');
    assert FlightOk(k, c', ns);
  }

  lemma RunUpdateKeepsKey(w: World, k: Key, ref: Ref, newer: Run)
    requires KeyOk(w, k) && ref in RunsOf(w.runs, k) && !IsDone(w.runs[ref])
    requires BelongsTo(newer, k) && newer.cancelled == w.runs[ref].cancelled
    ensures KeyOk(DoRunUpdate(w, ref, w.runs[ref], newer), k)
  {
    var w' := DoRunUpdate(w, ref, w.runs[ref], newer);
    RunUpdateIsSound(k, View(w, k), w.serviceNamespace, ref, newer, k in w'.queue);
    RunsOfPut(w.runs, ref, newer, k);
    assert View(w', k) == View(w, k).(runs := RunsOf(w.runs, k)[ref := newer], queued := k in w'.queue);
  }

  lemma PickKeepsKey(w: World, k: Key)
    requires KeyOk(w, k) && w.up && k in w.queue && k !in w.flights
    ensures KeyOk(Step(w, Pick(k)), k)
  {
    assert View(Step(w, Pick(k)), k) == View(w, k).(queued := false, flight := Some(Fetching));
  }

  lemma FinishKeepsKey(w: World, k: Key)
    requires KeyOk(w, k) && k in w.flights && w.flights[k].Returned?
    ensures KeyOk(DoFinish(w, k), k)
  {
    assert View(DoFinish(w, k), k) == View(w, k).(queued := w.flights[k].requeue || k in w.queue, flight := None);
  }

  lemma CrashIsSound(k: Key, c: Cell, ns: string)
    requires CellOk(k, c, ns)
    ensures CellOk(k, c.(flight := None, queued := false, up := false, books := ResetBooks(c.books)), ns)
  {
  }

  lemma CrashKeepsKey(w: World, k: Key)
    requires KeyOk(w, k)
    ensures KeyOk(DoCrash(w), k)
  {
    CrashIsSound(k, View(w, k), w.serviceNamespace);
    assert BooksOf(DoCrash(w), k) == ResetBooks(BooksOf(w, k));
    assert View(DoCrash(w), k) ==
      View(w, k).(flight := None, queued := false, up := false, books := ResetBooks(View(w, k).books));
  }

  lemma StartKeepsKey(w: World, k: Key)
    requires KeyOk(w, k) && !w.up
    ensures KeyOk(DoStart(w), k)
  {
    assert View(DoStart(w), k) == View(w, k).(up := true, queued := k in w.irs);
  }
}
