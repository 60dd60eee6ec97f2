// How far runs of the trial protocol get: what bounds the work, what a crash can leave
// behind for good, and what can always still be finished.
module TrialProgress {
  import opened TrialProtocol
  import opened TrialSafety
  import opened TrialTheorems

  // ---------------------------------------------------------------------------
  // The work is bounded
  // ---------------------------------------------------------------------------

  // A step that allocates a number or writes a row.
  ghost predicate Productive(s: State, e: Event)
    requires |s.jobs| == |s.trials|
  {
    Step(s, e).Some? && (|Step(s, e).value.trials| > |s.trials| || |Step(s, e).value.rows| > |s.rows|)
  }

  lemma OrchGrowth(s: State, o: nat, act: OrchAction)
    requires |s.jobs| == |s.trials| && Step(s, Orch(o, act)).Some?
    ensures var t := Step(s, Orch(o, act)).value;
            t.rows == s.rows && |s.trials| <= |t.trials| <= |s.trials| + 1
  {
  }

  // Nothing shrinks, and a productive step adds exactly one number or one row.
  lemma StepGrowth(s: State, e: Event)
    requires |s.jobs| == |s.trials| && Step(s, e).Some?
    ensures var t := Step(s, e).value;
            && |t.trials| >= |s.trials| && s.rows <= t.rows
            && |t.trials| + |t.rows| == |s.trials| + |s.rows| + if Productive(s, e) then 1 else 0
  {
    match e
    case Orch(o, act) => OrchGrowth(s, o, act);
    case _ =>
  }

  ghost function ProductiveSteps(s: State, events: seq<Event>): nat
    requires |s.jobs| == |s.trials| && Run(s, events).Some?
    decreases |events|
  {
    if events == [] then 0
    else
      var last := |events| - 1;
      ProductiveSteps(s, events[..last]) + if Productive(Run(s, events[..last]).value, events[last]) then 1 else 0
  }

  lemma {:induction false} ProductiveStepsCount(s: State, events: seq<Event>)
    requires |s.jobs| == |s.trials| && Run(s, events).Some?
    ensures var t := Run(s, events).value;
            ProductiveSteps(s, events) == (|t.trials| - |s.trials|) + (|t.rows| - |s.rows|)
    decreases |events|
  {
    hide Step;
    if events != [] {
      var last := |events| - 1;
      ProductiveStepsCount(s, events[..last]);
      StepGrowth(Run(s, events[..last]).value, events[last]);
    }
  }

  // However long a run is, at most 2 * max_trials of its steps do anything to either store's
  // table.
  lemma ProductiveStepsAreBounded(setup: Setup, events: seq<Event>)
    requires setup.maxTrials.Some? && !setup.lookupMayBreak && Run(Init(setup), events).Some?
    ensures ProductiveSteps(Init(setup), events) <= 2 * setup.maxTrials.value
  {
    ProductiveStepsCount(Init(setup), events);
    ReachableInv(setup, events);
    var s := Run(Init(setup), events).value;
    StrictMeansOneRowEach(s);
    RowsBelowCountsAll(s.rows, |s.trials|);
    FullOnlyIfEach(s.rows, |s.trials|, 0);
  }

  // ---------------------------------------------------------------------------
  // What nobody will ever come back to
  // ---------------------------------------------------------------------------

  predicate BeingEnqueued(s: State, n: nat) {
    exists o :: 0 <= o < |s.orchs| && Enqueuing(s.orchs[o], n)
  }

  // Allocated, but with no job left and no orchestrator about to enqueue one: what a death
  // between ask and enqueue leaves, or a job given up.
  predicate Unattended(s: State, n: nat) {
    n < |s.trials| == |s.jobs| && !Live(s.jobs[n]) && !BeingEnqueued(s, n)
  }

  lemma UnattendedWork(s: State, m: nat, a: WorkAction, n: nat)
    requires Cells(s) && WorkStep(s, m, a).Some? && Unattended(s, n)
    ensures m != n
    ensures var t := WorkStep(s, m, a).value;
            && n < |t.trials| == |t.jobs| && t.trials[n] == s.trials[n] && t.jobs[n] == s.jobs[n]
            && RowsOf(t.rows, n) == RowsOf(s.rows, n) && t.orchs == s.orchs
  {
    WorkTouchesOneNumber(s, m, a);
    var r := RowsOf(s.rows, m);
    var e := JobStep(m, s.trials[m], s.jobs[m], r != [], OwnIn(r, m, s.jobs[m]), a).value;
    WrittenRowIsOwn(m, s.trials[m], s.jobs[m], r != [], OwnIn(r, m, s.jobs[m]), a);
    DeadJobsDoNothing(m, s.trials[m], s.jobs[m], r != [], OwnIn(r, m, s.jobs[m]), a);
    hide JobStep, WorkStep;
    if e.row.Some? { RowsOfAppend(s.rows, e.row.value, n); }
  }

  lemma DeadJobsDoNothing(n: nat, t: OptunaTrial, job: Job, found: bool, taken: bool, a: WorkAction)
    ensures JobStep(n, t, job, found, taken, a).Some? ==> Live(job)
  {
  }

  // Which number an orchestrator's next phase is about.
  lemma OrchEnqueuesOnlyNew(s: State, o: nat, act: OrchAction, n: nat)
    requires |s.jobs| == |s.trials| && Step(s, Orch(o, act)).Some? && n < |s.trials|
    ensures var t := Step(s, Orch(o, act)).value;
            && |t.orchs| == |s.orchs| && o < |s.orchs| && t.orchs == s.orchs[o := t.orchs[o]]
            && (Enqueuing(t.orchs[o], n) ==> Enqueuing(s.orchs[o], n))
  {
  }

  lemma UnattendedOrch(s: State, o: nat, act: OrchAction, n: nat)
    requires |s.jobs| == |s.trials| && Step(s, Orch(o, act)).Some? && Unattended(s, n)
    ensures var t := Step(s, Orch(o, act)).value;
            Unattended(t, n) && t.trials[n] == s.trials[n] && t.rows == s.rows
  {
    OrchTouchesOneNumber(s, o, act, n);
    OrchEnqueuesOnlyNew(s, o, act, n);
    var t := Step(s, Orch(o, act)).value;
    hide Step;
    forall p | 0 <= p < |t.orchs| ensures !Enqueuing(t.orchs[p], n) {
      assert !Enqueuing(s.orchs[p], n);
    }
  }

  lemma UnattendedStep(s: State, e: Event, n: nat)
    requires |s.jobs| == |s.trials| && Inv(s) && Step(s, e).Some? && Unattended(s, n)
    ensures var t := Step(s, e).value;
            Unattended(t, n) && t.trials[n] == s.trials[n] && RowsOf(t.rows, n) == RowsOf(s.rows, n)
  {
    match e
    case Work(m, a) => UnattendedWork(s, m, a, n);
    case Orch(o, act) => UnattendedOrch(s, o, act, n);
    case Spawn =>
      forall p | 0 <= p < |s.orchs| + 1 ensures !Enqueuing((s.orchs + [Entering])[p], n) {
        assert p < |s.orchs| ==> !Enqueuing(s.orchs[p], n);
      }
    case Cancel =>
  }

  // One death in that window is for good: no continuation gives the number a job, a result
  // or a row.
  lemma {:induction false} UnattendedForGood(s: State, events: seq<Event>, n: nat)
    requires |s.jobs| == |s.trials| && Inv(s) && Run(s, events).Some? && Unattended(s, n)
    ensures var t := Run(s, events).value;
            Unattended(t, n) && t.trials[n] == s.trials[n] && RowsOf(t.rows, n) == RowsOf(s.rows, n)
    decreases |events|
  {
    hide Step, Inv;
    if events != [] {
      var last := |events| - 1;
      UnattendedForGood(s, events[..last], n);
      RunKeepsInv(s, events[..last]);
      UnattendedStep(Run(s, events[..last]).value, events[last], n);
    }
  }

  // That is what a death between ask and enqueue leaves.
  lemma DeathInTheWindow(s: State, o: nat, n: nat)
    requires |s.jobs| == |s.trials| && Inv(s) && o < |s.orchs| && Enqueuing(s.orchs[o], n)
    ensures Step(s, Orch(o, Die)).Some?
    ensures var t := Step(s, Orch(o, Die)).value;
            Unattended(t, n) && !Finished(t.trials[n]) && RowsOf(t.rows, n) == []
  {
    assert PcBound(s, s.orchs[o]) && CellOf(s, n);
    var t := Step(s, Orch(o, Die)).value;
    forall p | 0 <= p < |t.orchs| ensures !Enqueuing(t.orchs[p], n) {
      if p != o { OthersOutside(s, o, p); }
    }
  }

  // A number nobody attends to and that has no row keeps the max_trials stop from ever firing.
  lemma LostNumberBlocksMaxTrialsStop(s: State, events: seq<Event>, n: nat)
    requires |s.jobs| == |s.trials| && Inv(s) && Strict(s) && Run(s, events).Some?
    requires Unattended(s, n) && RowsOf(s.rows, n) == []
    ensures Run(s, events).value.status != Completed(MaxTrialsReached)
  {
    UnattendedForGood(s, events, n);
    RunKeepsInv(s, events);
    RowlessIsNotReported(Run(s, events).value, n);
  }

  lemma RowlessIsNotReported(s: State, n: nat)
    requires Inv(s) && Strict(s) && n < |s.trials| && RowsOf(s.rows, n) == []
    ensures !Reported(s)
  {
    if Reported(s) {
      StrictMeansOneRowEach(s);
      ReportedIsExact(s);
    }
  }

  // ---------------------------------------------------------------------------
  // Unattended slots
  // ---------------------------------------------------------------------------

  // Nobody attends to any trial in flight, and they fill the parallelism.
  predicate Stalled(s: State) {
    && InFlight(s.trials) == s.setup.parallelism
    && forall n :: 0 <= n < |s.trials| && !Finished(s.trials[n]) ==> Unattended(s, n)
  }

  // As many of them as the parallelism stop allocation for good.
  lemma StalledStep(s: State, e: Event)
    requires |s.jobs| == |s.trials| && Inv(s) && Stalled(s) && Step(s, e).Some?
    ensures Step(s, e).value.trials == s.trials && Stalled(Step(s, e).value)
  {
    var t := Step(s, e).value;
    StalledTrials(s, e);
    forall n | 0 <= n < |t.trials| && !Finished(t.trials[n]) ensures Unattended(t, n) { UnattendedStep(s, e, n); }
  }

  lemma StalledTrials(s: State, e: Event)
    requires |s.jobs| == |s.trials| && Inv(s) && Stalled(s) && Step(s, e).Some?
    ensures Step(s, e).value.trials == s.trials && Step(s, e).value.setup == s.setup
  {
    match e
    case Work(m, a) =>
      WorkTouchesOneNumber(s, m, a);
      if Finished(s.trials[m]) { StepKeepsFinished(s, e, m); } else { UnattendedStep(s, e, m); }
    case Orch(o, act) => StalledOrch(s, o, act);
    case _ =>
  }

  lemma StalledOrch(s: State, o: nat, act: OrchAction)
    requires |s.jobs| == |s.trials| && Inv(s) && Stalled(s) && Step(s, Orch(o, act)).Some?
    ensures Step(s, Orch(o, act)).value.trials == s.trials
  {
    assert PcBound(s, s.orchs[o]);
    if s.orchs[o].Asked? || s.orchs[o].Suggested? {
      assert Enqueuing(s.orchs[o], s.orchs[o].number);
    }
  }

  lemma {:induction false} StalledForever(s: State, events: seq<Event>)
    requires |s.jobs| == |s.trials| && Inv(s) && Stalled(s) && Run(s, events).Some?
    ensures Run(s, events).value.trials == s.trials
    ensures Stalled(Run(s, events).value)
    decreases |events|
  {
    hide Step, Inv, Stalled;
    if events != [] {
      var last := |events| - 1;
      StalledForever(s, events[..last]);
      RunKeepsInv(s, events[..last]);
      StalledStep(Run(s, events[..last]).value, events[last]);
    }
  }
}
