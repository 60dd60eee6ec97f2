// When a study cannot stop moving: which single steps lose work for good, and that a run
// without one is never idle below max_trials.
module TrialLiveness {
  import opened Common
  import opened TrialProtocol
  import opened TrialSafety
  import opened TrialTheorems
  import opened TrialProgress

  // ---------------------------------------------------------------------------
  // What loses work
  // ---------------------------------------------------------------------------

  predicate Settled(s: State, n: nat)
    requires n < |s.trials|
  {
    Finished(s.trials[n]) && RowsOf(s.rows, n) != []
  }

  // Every number nobody will come back to is finished in Optuna and has its row.
  predicate NothingLost(s: State) {
    forall n :: 0 <= n < |s.trials| && Unattended(s, n) ==> Settled(s, n)
  }

  // The steps after which nobody comes back to a number that is not settled: a death between
  // ask and enqueue, an enqueue that never reached the queue, a job given up, and a job
  // acknowledged although its tell(FAIL) had been swallowed.
  predicate Loses(s: State, e: Event)
    requires |s.jobs| == |s.trials|
  {
    match e
    case Orch(o, act) =>
      o < |s.orchs| && (act == Enqueue(Lost) || (act == Die && (s.orchs[o].Asked? || s.orchs[o].Suggested?)))
    case Work(n, a) => (a == GiveUp || a == Ack) && n < |s.trials| && !Settled(s, n)
    case _ => false
  }

  ghost predicate Lossless(s: State, events: seq<Event>)
    requires |s.jobs| == |s.trials| && Run(s, events).Some?
    decreases |events|
  {
    events != [] ==>
      var last := |events| - 1;
      Lossless(s, events[..last]) && !Loses(Run(s, events[..last]).value, events[last])
  }

  // A job that dies is one that is given up or acknowledged.
  lemma DyingActions(n: nat, t: OptunaTrial, job: Job, found: bool, taken: bool, a: WorkAction)
    requires JobStep(n, t, job, found, taken, a).Some?
    ensures var e := JobStep(n, t, job, found, taken, a).value;
            && Live(job) && (!Live(e.job) <==> a == GiveUp || a == Ack)
            && (!Live(e.job) ==> e.trial == t && e.row.None?)
  {
  }

  // What a job's action means for its own number.
  lemma WorkOnOwnNumber(s: State, m: nat, a: WorkAction)
    requires Inv(s) && WorkStep(s, m, a).Some?
    ensures var t := WorkStep(s, m, a).value;
            && |t.trials| == |s.trials| == |t.jobs| == |s.jobs| && m < |s.trials| && t.orchs == s.orchs
            && (Unattended(t, m) <==> a == GiveUp || a == Ack)
            && (Unattended(t, m) ==> t.trials == s.trials && t.rows == s.rows)
            && (forall n :: 0 <= n < |s.trials| && n != m ==> t.jobs[n] == s.jobs[n])
  {
    WorkTouchesOneNumber(s, m, a);
    var r := RowsOf(s.rows, m);
    DyingActions(m, s.trials[m], s.jobs[m], r != [], OwnIn(r, m, s.jobs[m]), a);
    EnqueuedIsUnqueued(s, m);
    hide JobStep, Inv, RowsOf;
    assert BeingEnqueued(WorkStep(s, m, a).value, m) == BeingEnqueued(s, m);
  }

  lemma WorkLosesIff(s: State, m: nat, a: WorkAction)
    requires Inv(s) && NothingLost(s) && WorkStep(s, m, a).Some?
    ensures NothingLost(WorkStep(s, m, a).value) <==> !Loses(s, Work(m, a))
  {
    var t := WorkStep(s, m, a).value;
    WorkOnOwnNumber(s, m, a);
    hide WorkStep, Inv;
    forall n | 0 <= n < |t.trials| && n != m && Unattended(t, n) ensures Settled(t, n) {
      assert BeingEnqueued(t, n) == BeingEnqueued(s, n);
      assert Unattended(s, n);
      UnattendedWork(s, m, a, n);
    }
    hide RowsOf;
    if Unattended(t, m) { assert Settled(t, m) == Settled(s, m); }
  }

  // A number being enqueued has no job yet.
  lemma EnqueuedIsUnqueued(s: State, n: nat)
    requires Inv(s) && n < |s.trials| && Live(s.jobs[n])
    ensures !BeingEnqueued(s, n)
  {
    forall o | 0 <= o < |s.orchs| ensures !Enqueuing(s.orchs[o], n) {
      assert PcBound(s, s.orchs[o]);
    }
  }

  // An orchestrator comes between no other number and whoever attends to it.
  lemma OrchOnOthers(s: State, o: nat, act: OrchAction, n: nat)
    requires |s.jobs| == |s.trials| && Step(s, Orch(o, act)).Some? && n < |s.trials|
    requires o < |s.orchs| && !Enqueuing(s.orchs[o], n)
    ensures var t := Step(s, Orch(o, act)).value;
            n < |t.trials| == |t.jobs| && t.trials[n] == s.trials[n] && t.rows == s.rows && (Unattended(t, n) <==> Unattended(s, n))
  {
    OrchTouchesOneNumber(s, o, act, n);
    OrchEnqueuesOnlyNew(s, o, act, n);
    var t := Step(s, Orch(o, act)).value;
    hide Step;
    if BeingEnqueued(s, n) {
      var p :| 0 <= p < |s.orchs| && Enqueuing(s.orchs[p], n);
      assert t.orchs[p] == s.orchs[p];
    }
    if BeingEnqueued(t, n) {
      var p :| 0 <= p < |t.orchs| && Enqueuing(t.orchs[p], n);
      assert s.orchs[p] == t.orchs[p];
    }
  }

  // Where the number it is enqueuing itself ends up.
  lemma OrchEnqueuing(s: State, o: nat, act: OrchAction, n: nat)
    requires Inv(s) && |s.jobs| == |s.trials| && Step(s, Orch(o, act)).Some?
    requires o < |s.orchs| && Enqueuing(s.orchs[o], n)
    ensures var t := Step(s, Orch(o, act)).value;
            && |t.orchs| == |s.orchs| && t.orchs == s.orchs[o := t.orchs[o]] && n < |t.trials| == |t.jobs| && !Finished(t.trials[n])
            && (Live(t.jobs[n]) || Enqueuing(t.orchs[o], n) <==> !Loses(s, Orch(o, act)))
  {
    assert PcBound(s, s.orchs[o]);
  }

  lemma OrchOnOwnNumber(s: State, o: nat, act: OrchAction, n: nat)
    requires Inv(s) && |s.jobs| == |s.trials| && Step(s, Orch(o, act)).Some?
    requires o < |s.orchs| && Enqueuing(s.orchs[o], n)
    ensures var t := Step(s, Orch(o, act)).value;
            n < |t.trials| && !Finished(t.trials[n]) && (Unattended(t, n) <==> Loses(s, Orch(o, act)))
  {
    OrchEnqueuing(s, o, act, n);
    var t := Step(s, Orch(o, act)).value;
    forall p | 0 <= p < |s.orchs| && p != o ensures !Enqueuing(s.orchs[p], n) { OthersOutside(s, o, p); }
    hide Step, Inv;
  }

  // A number just asked for is being enqueued.
  lemma OrchOnNewNumber(s: State, o: nat, act: OrchAction, n: nat)
    requires |s.jobs| == |s.trials| && Step(s, Orch(o, act)).Some?
    requires |s.trials| <= n < |Step(s, Orch(o, act)).value.trials|
    ensures o < |s.orchs| == |Step(s, Orch(o, act)).value.orchs| && Enqueuing(Step(s, Orch(o, act)).value.orchs[o], n)
  {
  }

  // Only an orchestrator that is enqueuing a number can lose one.
  lemma OrchLosesOwn(s: State, o: nat, act: OrchAction)
    requires |s.jobs| == |s.trials| && Step(s, Orch(o, act)).Some? && Loses(s, Orch(o, act))
    ensures o < |s.orchs| && (s.orchs[o].Asked? || s.orchs[o].Suggested?)
  {
  }

  lemma OrchLosesIff(s: State, o: nat, act: OrchAction)
    requires Inv(s) && |s.jobs| == |s.trials| && o < |s.orchs| && NothingLost(s) && Step(s, Orch(o, act)).Some?
    ensures NothingLost(Step(s, Orch(o, act)).value) <==> !Loses(s, Orch(o, act))
  {
    var t := Step(s, Orch(o, act)).value;
    if Loses(s, Orch(o, act)) {
      OrchLosesOwn(s, o, act);
      OrchOnOwnNumber(s, o, act, s.orchs[o].number);
      hide Step, Inv;
      assert !Settled(t, s.orchs[o].number);
    } else {
      forall n | 0 <= n < |t.trials| && Unattended(t, n) ensures Settled(t, n) {
        if n >= |s.trials| {
          OrchOnNewNumber(s, o, act, n);
        } else if Enqueuing(s.orchs[o], n) {
          OrchOnOwnNumber(s, o, act, n);
        } else {
          OrchOnOthers(s, o, act, n);
        }
        hide Step, Inv;
      }
    }
  }

  // One step loses something exactly if it is one of those.
  lemma StepLosesIff(s: State, e: Event)
    requires |s.jobs| == |s.trials| && Inv(s) && NothingLost(s) && Step(s, e).Some?
    ensures NothingLost(Step(s, e).value) <==> !Loses(s, e)
  {
    match e
    case Work(n, a) => WorkLosesIff(s, n, a);
    case Orch(o, act) => OrchLosesIff(s, o, act);
    case Spawn =>
      forall n | 0 <= n < |s.trials| ensures Unattended(Step(s, e).value, n) ==> Unattended(s, n) {
        if BeingEnqueued(s, n) {
          var p :| 0 <= p < |s.orchs| && Enqueuing(s.orchs[p], n);
          assert (s.orchs + [Entering])[p] == s.orchs[p];
        }
      }
    case Cancel => assert forall n :: Unattended(Step(s, e).value, n) <==> Unattended(s, n);
  }

  lemma LossIsForGood(s: State, e: Event)
    requires |s.jobs| == |s.trials| && Inv(s) && !NothingLost(s) && Step(s, e).Some?
    ensures !NothingLost(Step(s, e).value)
  {
    var n :| 0 <= n < |s.trials| && Unattended(s, n) && !Settled(s, n);
    UnattendedStep(s, e, n);
    hide Step, Inv, RowsOf;
    assert !Settled(Step(s, e).value, n);
  }

  // In every run: after it nobody has been lost exactly if no step of it was one of those.
  lemma {:induction false} NothingLostIff(setup: Setup, events: seq<Event>)
    requires Run(Init(setup), events).Some?
    ensures NothingLost(Run(Init(setup), events).value) <==> Lossless(Init(setup), events)
    decreases |events|
  {
    hide Step;
    if events != [] {
      var last := |events| - 1;
      var s := Run(Init(setup), events[..last]).value;
      NothingLostIff(setup, events[..last]);
      ReachableInv(setup, events[..last]);
      hide Inv, NothingLost, Loses;
      if NothingLost(s) { StepLosesIff(s, events[last]); } else { LossIsForGood(s, events[last]); }
    }
  }

  // ---------------------------------------------------------------------------
  // Always something to do below max_trials
  // ---------------------------------------------------------------------------

  // Some job may still run, or some number is about to get one.
  predicate Attended(s: State) {
    exists n :: 0 <= n < |s.trials| == |s.jobs| && (Live(s.jobs[n]) || BeingEnqueued(s, n))
  }

  predicate OpenSlot(s: State) { SlotsOpen(s.setup, InFlight(s.trials), |s.trials|) > 0 }

  lemma {:induction false} NoneInFlight(trials: seq<OptunaTrial>)
    requires forall n :: 0 <= n < |trials| ==> Finished(trials[n])
    ensures InFlight(trials) == 0
  {
    if trials != [] { NoneInFlight(trials[..|trials| - 1]); }
  }

  lemma {:induction false} EachMeansFull(rows: seq<TrialRow>, m: nat)
    requires forall n :: 0 <= n < m ==> RowsOf(rows, n) != []
    ensures RowsBelow(rows, m) >= m
    decreases m
  {
    hide RowsOf;
    if m > 0 {
      EachMeansFull(rows, m - 1);
      assert RowsOf(rows, m - 1) != [];
    }
  }

  // With nobody at work and nothing lost, the next tick finds an open slot exactly below the
  // limit, and otherwise the limit is reported.
  lemma QuietMeansOpenOrReported(s: State)
    requires Inv(s) && s.setup.parallelism >= 1 && s.setup.maxTrials.Some?
    requires !Attended(s) && NothingLost(s)
    ensures OpenSlot(s) <==> |s.trials| < s.setup.maxTrials.value
    ensures OpenSlot(s) || Reported(s)
  {
    forall n | 0 <= n < |s.trials| ensures Finished(s.trials[n]) && RowsOf(s.rows, n) != [] {
      assert Unattended(s, n);
    }
    NoneInFlight(s.trials);
    EachMeansFull(s.rows, |s.trials|);
    RowsBelowCountsAll(s.rows, |s.trials|);
  }

  // A run without such a step is never idle: somebody is at work, the next tick finds an open
  // slot, or the max_trials stop is due.
  lemma LosslessRunsAreNeverIdle(setup: Setup, events: seq<Event>)
    requires setup.parallelism >= 1 && setup.maxTrials.Some?
    requires Run(Init(setup), events).Some? && Lossless(Init(setup), events)
    ensures var s := Run(Init(setup), events).value; Attended(s) || OpenSlot(s) || Reported(s)
  {
    ReachableInv(setup, events);
    NothingLostIff(setup, events);
    hide Lossless, Inv, NothingLost, Run;
    var s := Run(Init(setup), events).value;
    if !Attended(s) { QuietMeansOpenOrReported(s); }
  }

  // ---------------------------------------------------------------------------
  // In terms of what the processes do
  // ---------------------------------------------------------------------------

  // No death between ask and enqueue, no enqueue that vanishes, no job given up, and no
  // tell(FAIL) that is swallowed.
  predicate Careful(s: State, e: Event) {
    match e
    case Orch(o, act) => act != Enqueue(Lost) && (act == Die ==> o < |s.orchs| && !s.orchs[o].Asked? && !s.orchs[o].Suggested?)
    case Work(n, a) => a != GiveUp && a != TellFail(false)
    case _ => true
  }

  ghost predicate CarefulRun(s: State, events: seq<Event>)
    requires |s.jobs| == |s.trials| && Run(s, events).Some?
    decreases |events|
  {
    events != [] ==>
      var last := |events| - 1;
      CarefulRun(s, events[..last]) && Careful(Run(s, events[..last]).value, events[last])
  }

  // A row, or a failed row about to be written, only beside a finished trial.
  predicate Told(t: OptunaTrial, job: Job, written: bool) {
    (written || job.phase.FailInserting? || job.phase.Returned? ==> Finished(t))
  }

  ghost predicate AllTold(s: State) {
    |s.jobs| == |s.trials| && forall n :: 0 <= n < |s.trials| ==> Told(s.trials[n], s.jobs[n], RowsOf(s.rows, n) != [])
  }

  lemma JobStepKeepsTold(n: nat, t: OptunaTrial, job: Job, r: seq<TrialRow>, a: WorkAction)
    requires CellInv(true, n, t, job, r) && Told(t, job, r != [])
    requires a != TellFail(false) && !a.LookupBreaks?
    ensures var e := JobStep(n, t, job, r != [], OwnIn(r, n, job), a);
            e.Some? ==> Told(e.value.trial, e.value.job, Appended(r, e.value.row) != [])
  {
  }

  lemma WorkKeepsTold(s: State, m: nat, a: WorkAction)
    requires Inv(s) && Strict(s) && AllTold(s) && WorkStep(s, m, a).Some? && a != TellFail(false)
    ensures AllTold(WorkStep(s, m, a).value)
  {
    var t := WorkStep(s, m, a).value;
    WorkTouchesOneNumber(s, m, a);
    var r := RowsOf(s.rows, m);
    var e := JobStep(m, s.trials[m], s.jobs[m], r != [], OwnIn(r, m, s.jobs[m]), a).value;
    WrittenRowIsOwn(m, s.trials[m], s.jobs[m], r != [], OwnIn(r, m, s.jobs[m]), a);
    assert CellOf(s, m);
    JobStepKeepsTold(m, s.trials[m], s.jobs[m], r, a);
    hide JobStep, WorkStep, Inv, CellInv;
    forall n | 0 <= n < |t.trials| ensures Told(t.trials[n], t.jobs[n], RowsOf(t.rows, n) != []) {
      if e.row.Some? { RowsOfAppend(s.rows, e.row.value, n); }
    }
  }

  lemma OrchKeepsTold(s: State, o: nat, act: OrchAction)
    requires Inv(s) && |s.jobs| == |s.trials| && AllTold(s) && Step(s, Orch(o, act)).Some?
    ensures AllTold(Step(s, Orch(o, act)).value)
  {
    var t := Step(s, Orch(o, act)).value;
    OrchOnJobs(s, o, act, 0);
    forall n | 0 <= n < |t.trials| ensures Told(t.trials[n], t.jobs[n], RowsOf(t.rows, n) != []) {
      OrchOnJobs(s, o, act, n);
      if n >= |s.trials| { RowsOfUnknown(s.rows, |s.trials|, n); }
      hide Step, Inv, RowsOf;
    }
  }

  lemma StepKeepsTold(s: State, e: Event)
    requires Inv(s) && Strict(s) && AllTold(s) && |s.jobs| == |s.trials| && Step(s, e).Some? && Careful(s, e)
    ensures AllTold(Step(s, e).value)
  {
    match e
    case Work(n, a) => WorkKeepsTold(s, n, a);
    case Orch(o, act) => OrchKeepsTold(s, o, act);
    case _ =>
  }

  lemma {:induction false} CarefulRunIsTold(setup: Setup, events: seq<Event>)
    requires !setup.lookupMayBreak && Run(Init(setup), events).Some? && CarefulRun(Init(setup), events)
    ensures AllTold(Run(Init(setup), events).value)
    decreases |events|
  {
    hide Step;
    if events != [] {
      var last := |events| - 1;
      CarefulRunIsTold(setup, events[..last]);
      ReachableInv(setup, events[..last]);
      StepKeepsTold(Run(Init(setup), events[..last]).value, events[last]);
    }
  }

  // Such a step then loses nothing: an acknowledged job has its row beside a finished trial.
  lemma CarefulLosesNothing(s: State, e: Event)
    requires Inv(s) && |s.jobs| == |s.trials| && AllTold(s) && Step(s, e).Some? && Careful(s, e)
    ensures !Loses(s, e)
  {
    if e.Work? && e.a == Ack && e.n < |s.trials| { assert CellOf(s, e.n); }
  }

  lemma {:induction false} CarefulRunsAreLossless(setup: Setup, events: seq<Event>)
    requires !setup.lookupMayBreak && Run(Init(setup), events).Some? && CarefulRun(Init(setup), events)
    ensures Lossless(Init(setup), events)
    decreases |events|
  {
    hide Step;
    if events != [] {
      var last := |events| - 1;
      CarefulRunsAreLossless(setup, events[..last]);
      CarefulRunIsTold(setup, events[..last]);
      ReachableInv(setup, events[..last]);
      CarefulLosesNothing(Run(Init(setup), events[..last]).value, events[last]);
    }
  }

  // Progress: as long as no process dies between ask and enqueue, no enqueue vanishes, no job
  // is given up and every tell(FAIL) goes through, a study below its limit always has a job
  // that may run, a number about to get one, or an open slot.
  lemma CarefulRunsAreNeverIdle(setup: Setup, events: seq<Event>)
    requires setup.parallelism >= 1 && setup.maxTrials.Some? && !setup.lookupMayBreak
    requires Run(Init(setup), events).Some? && CarefulRun(Init(setup), events)
    ensures var s := Run(Init(setup), events).value; Attended(s) || OpenSlot(s) || Reported(s)
  {
    CarefulRunsAreLossless(setup, events);
    LosslessRunsAreNeverIdle(setup, events);
  }
}
