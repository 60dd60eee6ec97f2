// A number written twice: the one step that does it, where it comes from, and what it does to
// the max_trials stop.
module TrialDuplicates {
  import opened Common
  import opened TrialProtocol
  import opened TrialSafety
  import opened TrialTheorems
  import opened TrialRuns

  // ---------------------------------------------------------------------------
  // The step that writes a second row
  // ---------------------------------------------------------------------------

  // A failed row that lands although the number already has one of an earlier execution.
  predicate WritesTwice(s: State, e: Event)
    requires |s.jobs| == |s.trials|
  {
    && e.Work? && e.n < |s.trials| && e.a.FailInsert? && e.a.w != Lost && s.jobs[e.n].phase.FailInserting?
    && RowsOf(s.rows, e.n) != [] && !OwnIn(RowsOf(s.rows, e.n), e.n, s.jobs[e.n])
  }

  ghost predicate NeverTwice(s: State, events: seq<Event>)
    requires |s.jobs| == |s.trials| && Run(s, events).Some?
    decreases |events|
  {
    events != [] ==>
      var last := |events| - 1;
      NeverTwice(s, events[..last]) && !WritesTwice(Run(s, events[..last]).value, events[last])
  }

  // Within one number: an action writes beside a row exactly if it is that one.
  lemma SecondRowIff(n: nat, t: OptunaTrial, job: Job, r: seq<TrialRow>, a: WorkAction)
    requires CellInv(false, n, t, job, r) && r != []
    ensures var e := JobStep(n, t, job, true, OwnIn(r, n, job), a);
            e.Some? ==>
              (e.value.row.Some? <==> a.FailInsert? && a.w != Lost && job.phase.FailInserting? && !OwnIn(r, n, job))
  {
  }

  lemma WorkRows(s: State, m: nat, a: WorkAction, n: nat)
    requires Cells(s) && WorkStep(s, m, a).Some?
    ensures m < |s.trials|
    ensures var e := JobStep(m, s.trials[m], s.jobs[m], RowsOf(s.rows, m) != [], OwnIn(RowsOf(s.rows, m), m, s.jobs[m]), a);
            && e.Some?
            && RowsOf(WorkStep(s, m, a).value.rows, n) ==
               if n == m then Appended(RowsOf(s.rows, n), e.value.row) else RowsOf(s.rows, n)
  {
    WorkTouchesOneNumber(s, m, a);
    var r := RowsOf(s.rows, m);
    var e := JobStep(m, s.trials[m], s.jobs[m], r != [], OwnIn(r, m, s.jobs[m]), a).value;
    WrittenRowIsOwn(m, s.trials[m], s.jobs[m], r != [], OwnIn(r, m, s.jobs[m]), a);
    hide JobStep, WorkStep;
    if e.row.Some? { RowsOfAppend(s.rows, e.row.value, n); }
  }

  lemma WorkDuplicatesIff(s: State, m: nat, a: WorkAction)
    requires Inv(s) && OneRowEach(s.rows) && WorkStep(s, m, a).Some?
    ensures OneRowEach(WorkStep(s, m, a).value.rows) <==> !WritesTwice(s, Work(m, a))
  {
    var t := WorkStep(s, m, a).value;
    WorkRows(s, m, a, m);
    assert CellOf(s, m);
    var r := RowsOf(s.rows, m);
    if r != [] { WeakCell(s, m); SecondRowIff(m, s.trials[m], s.jobs[m], r, a); }
    forall n: nat | n != m ensures |RowsOf(t.rows, n)| <= 1 { WorkRows(s, m, a, n); }
    hide WorkStep, JobStep, RowsOf, Inv;
    assert OneRowEach(t.rows) <==> |RowsOf(t.rows, m)| <= 1;
    assert |r| <= 1;
  }

  lemma WeakCell(s: State, n: nat)
    requires Cells(s) && n < |s.trials|
    ensures CellInv(false, n, s.trials[n], s.jobs[n], RowsOf(s.rows, n))
  {
    assert CellOf(s, n);
    hide RowsOf, PhaseInv;
  }

  // One step gives some number a second row exactly if it is that one.
  lemma StepDuplicatesIff(s: State, e: Event)
    requires |s.jobs| == |s.trials| && Inv(s) && OneRowEach(s.rows) && Step(s, e).Some?
    ensures OneRowEach(Step(s, e).value.rows) <==> !WritesTwice(s, e)
  {
    match e
    case Work(n, a) => WorkDuplicatesIff(s, n, a);
    case Orch(o, act) => OrchWritesNothing(s, o, act);
    case _ =>
  }

  lemma OrchWritesNothing(s: State, o: nat, act: OrchAction)
    requires |s.jobs| == |s.trials| && Step(s, Orch(o, act)).Some?
    ensures Step(s, Orch(o, act)).value.rows == s.rows
  {
  }

  lemma DuplicatesStay(s: State, e: Event)
    requires |s.jobs| == |s.trials| && Inv(s) && !OneRowEach(s.rows) && Step(s, e).Some?
    ensures !OneRowEach(Step(s, e).value.rows)
  {
    var n: nat :| |RowsOf(s.rows, n)| > 1;
    match e
    case Work(m, a) =>
      WorkRows(s, m, a, n);
      hide JobStep, WorkStep, RowsOf, Inv;
      assert |RowsOf(Step(s, e).value.rows, n)| > 1;
    case Orch(o, act) => OrchWritesNothing(s, o, act);
    case _ =>
  }

  // In every run, whatever failed: each number has at most one row exactly if none of its
  // steps was such a write.
  lemma {:induction false} OneRowPerNumberIff(setup: Setup, events: seq<Event>)
    requires Run(Init(setup), events).Some?
    ensures OneRowEach(Run(Init(setup), events).value.rows) <==> NeverTwice(Init(setup), events)
    decreases |events|
  {
    hide Step;
    if events != [] {
      var last := |events| - 1;
      var s := Run(Init(setup), events[..last]).value;
      OneRowPerNumberIff(setup, events[..last]);
      ReachableInv(setup, events[..last]);
      hide Inv, OneRowEach, WritesTwice;
      if OneRowEach(s.rows) { StepDuplicatesIff(s, events[last]); } else { DuplicatesStay(s, events[last]); }
    }
  }

  // ---------------------------------------------------------------------------
  // Where it comes from
  // ---------------------------------------------------------------------------

  // The queries in front of the idempotency check break while the number has a row.
  predicate Blinded(s: State, e: Event)
    requires |s.jobs| == |s.trials|
  {
    e.Work? && e.a.LookupBreaks? && e.n < |s.trials| && RowsOf(s.rows, e.n) != []
  }

  ghost predicate NeverBlinded(s: State, events: seq<Event>)
    requires |s.jobs| == |s.trials| && Run(s, events).Some?
    decreases |events|
  {
    events != [] ==>
      var last := |events| - 1;
      NeverBlinded(s, events[..last]) && !Blinded(Run(s, events[..last]).value, events[last])
  }

  // Every number in the strict sense.
  ghost predicate StrictCells(s: State) {
    |s.jobs| == |s.trials| && forall n :: 0 <= n < |s.trials| ==> CellInv(true, n, s.trials[n], s.jobs[n], RowsOf(s.rows, n))
  }

  lemma SightedJobStep(n: nat, t: OptunaTrial, job: Job, r: seq<TrialRow>, a: WorkAction)
    requires CellInv(true, n, t, job, r) && (a.LookupBreaks? ==> r == [])
    ensures CellAfter(true, n, JobStep(n, t, job, r != [], OwnIn(r, n, job), a), r)
  {
    if !a.LookupBreaks? { JobStepKeepsCell(true, n, t, job, r, a); }
  }

  lemma SightedWork(s: State, m: nat, a: WorkAction)
    requires Inv(s) && StrictCells(s) && WorkStep(s, m, a).Some? && !Blinded(s, Work(m, a))
    ensures StrictCells(WorkStep(s, m, a).value)
  {
    var t := WorkStep(s, m, a).value;
    WorkTouchesOneNumber(s, m, a);
    var r := RowsOf(s.rows, m);
    SightedJobStep(m, s.trials[m], s.jobs[m], r, a);
    forall n | 0 <= n < |t.trials| ensures CellInv(true, n, t.trials[n], t.jobs[n], RowsOf(t.rows, n)) {
      WorkRows(s, m, a, n);
      hide WorkStep, JobStep, CellInv, Inv, RowsOf;
    }
  }

  lemma SightedOrch(s: State, o: nat, act: OrchAction)
    requires Inv(s) && StrictCells(s) && Step(s, Orch(o, act)).Some?
    ensures StrictCells(Step(s, Orch(o, act)).value)
  {
    var t := Step(s, Orch(o, act)).value;
    StepKeepsInv(s, Orch(o, act));
    OrchOnJobs(s, o, act, 0);
    forall n | 0 <= n < |t.trials| ensures CellInv(true, n, t.trials[n], t.jobs[n], RowsOf(t.rows, n)) {
      WeakCell(t, n);
      OrchOnJobs(s, o, act, n);
      if n >= |s.trials| { RowsOfUnknown(s.rows, |s.trials|, n); }
      hide Step, Inv, RowsOf, PhaseInv;
    }
  }

  lemma SightedStep(s: State, e: Event)
    requires |s.jobs| == |s.trials| && Inv(s) && StrictCells(s) && Step(s, e).Some? && !Blinded(s, e)
    ensures StrictCells(Step(s, e).value)
  {
    match e
    case Work(n, a) => SightedWork(s, n, a);
    case Orch(o, act) => SightedOrch(s, o, act);
    case _ =>
  }

  // A run in which that query never breaks on a number with a row writes no number twice,
  // however often it breaks elsewhere.
  lemma {:induction false} SightedRunsHaveOneRow(setup: Setup, events: seq<Event>)
    requires Run(Init(setup), events).Some? && NeverBlinded(Init(setup), events)
    ensures StrictCells(Run(Init(setup), events).value) && OneRowEach(Run(Init(setup), events).value.rows)
    decreases |events|
  {
    hide Step;
    if events != [] {
      var last := |events| - 1;
      SightedRunsHaveOneRow(setup, events[..last]);
      ReachableInv(setup, events[..last]);
      SightedStep(Run(Init(setup), events[..last]).value, events[last]);
    }
    ReachableInv(setup, events);
    StrictCellsHaveOneRow(Run(Init(setup), events).value);
  }

  lemma StrictCellsHaveOneRow(s: State)
    requires Inv(s) && StrictCells(s)
    ensures OneRowEach(s.rows)
  {
    forall n: nat ensures |RowsOf(s.rows, n)| <= 1 {
      if n >= |s.trials| { RowsOfUnknown(s.rows, |s.trials|, n); }
    }
  }

  // And one that breaks there does, unless the write of the failed row is stopped: whatever
  // the state, two more actions give the number another row.
  lemma BlindedRedeliveryDuplicates(s: State, n: nat)
    requires |s.jobs| == |s.trials| && Inv(s) && s.setup.lookupMayBreak && n < |s.trials|
    requires s.jobs[n].phase == Started && RowsOf(s.rows, n) != []
    ensures Blinded(s, Work(n, LookupBreaks))
    ensures var t := Run(s, Works(n, [LookupBreaks, FailInsert(Done)]));
            t.Some? && |RowsOf(t.value.rows, n)| == |RowsOf(s.rows, n)| + 1
  {
    var c := CellAt(s, n);
    var late := TrialRow(TrialId(n, c.job.attempt), n, RowFailed, None, map[]);
    assert CellOf(s, n);
    assert CellStep(n, c, LookupBreaks) == Some(At(c, FailInserting(map[])));
    assert CellStep(n, At(c, FailInserting(map[])), FailInsert(Done)) == Some(At(c.(rows := c.rows + [late]), Returned));
    TwoSteps(n, c, LookupBreaks, At(c, FailInserting(map[])), FailInsert(Done), At(c.(rows := c.rows + [late]), Returned));
    hide Inv, CellStep, CellRun;
    LiftRun(s, n, [LookupBreaks, FailInsert(Done)]);
  }

  // From the start: a run that ends with two rows of one number.
  lemma DuplicateRowIsReachable(setup: Setup) returns (events: seq<Event>)
    requires MayAllocate(setup) && setup.lookupMayBreak
    ensures Run(Init(setup), events).Some? && !OneRowEach(Run(Init(setup), events).value.rows)
  {
    DuplicatingRun();
    hide CellRun;
    events := FirstCellRuns(setup, DUPLICATING);
    assert |RowsOf(Run(Init(setup), events).value.rows, 0)| == 2;
  }

  // ---------------------------------------------------------------------------
  // When max_trials means every number
  // ---------------------------------------------------------------------------

  // What the max_trials stop reports: every number below the limit has exactly one row.
  predicate EveryNumberOnce(s: State) {
    && s.setup.maxTrials.Some? && |s.rows| == |s.trials| == s.setup.maxTrials.value
    && forall n :: 0 <= n < |s.trials| ==> |RowsOf(s.rows, n)| == 1
  }

  predicate StoppedOnMax(s: State) { s.status == Completed(MaxTrialsReached) }

  // The same state with one more orchestrator.
  function WithOne(s: State, pc: Pc): State { s.(orchs := s.orchs + [pc]) }

  lemma WithOneMove(s: State, a: Pc, b: Pc)
    ensures WithOne(s, a).orchs[|s.orchs| := b] == WithOne(s, b).orchs
  {
  }

  lemma JoinSteps(s: State)
    requires |s.jobs| == |s.trials| && s.status == Active && |s.rows| < CONSECUTIVE_FAILURE_THRESHOLD
    ensures Step(s, Spawn) == Some(WithOne(s, Entering))
    ensures Step(WithOne(s, Entering), Orch(|s.orchs|, Enter)) == Some(WithOne(s, Looping))
    ensures Step(WithOne(s, Looping), Orch(|s.orchs|, ReadStatus)) == Some(WithOne(s, StatusRead))
    ensures Step(WithOne(s, StatusRead), Orch(|s.orchs|, ReadSummary)) == Some(WithOne(s, Summarised(|s.rows|)))
  {
    WithOneMove(s, Entering, Looping);
    WithOneMove(s, Looping, StatusRead);
    WithOneMove(s, StatusRead, Summarised(|s.rows|));
  }

  // Fewer rows than either window: no streak.
  lemma NoStreakSteps(s: State, k: nat)
    requires |s.jobs| == |s.trials| && |s.rows| < CONSECUTIVE_FAILURE_THRESHOLD
    ensures Step(WithOne(s, Summarised(k)), Orch(|s.orchs|, CheckFailures)) == Some(WithOne(s, FailuresChecked(k)))
    ensures Step(WithOne(s, FailuresChecked(k)), Orch(|s.orchs|, CheckZeros)) == Some(WithOne(s, ZerosChecked(k)))
  {
    WithOneMove(s, Summarised(k), FailuresChecked(k));
    WithOneMove(s, FailuresChecked(k), ZerosChecked(k));
  }

  lemma StopSteps(s: State, k: nat)
    requires |s.jobs| == |s.trials| && s.status == Active && s.setup.maxTrials.Some? && k >= s.setup.maxTrials.value
    ensures Step(WithOne(s, ZerosChecked(k)), Orch(|s.orchs|, Decide(false))) == Some(WithOne(s, Stopping(MaxTrialsReached)))
    ensures Step(WithOne(s, Stopping(MaxTrialsReached)), Orch(|s.orchs|, CompleteStudy)) ==
            Some(WithOne(s, Exited).(status := Completed(MaxTrialsReached)))
  {
    WithOneMove(s, ZerosChecked(k), Stopping(MaxTrialsReached));
    WithOneMove(s, Stopping(MaxTrialsReached), Exited);
  }

  // A fresh orchestrator stops a study that has enough rows, too few for a streak.
  lemma StopsOnCount(init: State, events: seq<Event>, s: State) returns (more: seq<Event>)
    requires |init.jobs| == |init.trials| && |s.jobs| == |s.trials| && Run(init, events) == Some(s)
    requires s.status == Active && s.setup.maxTrials.Some?
    requires s.setup.maxTrials.value <= |s.rows| < CONSECUTIVE_FAILURE_THRESHOLD
    ensures Run(init, more) == Some(WithOne(s, Exited).(status := Completed(MaxTrialsReached)))
  {
    var o, k := |s.orchs|, |s.rows|;
    JoinSteps(s);
    NoStreakSteps(s, k);
    StopSteps(s, k);
    hide Step, Run;
    more := RunSnoc(init, events, s, Spawn, WithOne(s, Entering));
    more := RunSnoc(init, more, WithOne(s, Entering), Orch(o, Enter), WithOne(s, Looping));
    more := RunSnoc(init, more, WithOne(s, Looping), Orch(o, ReadStatus), WithOne(s, StatusRead));
    more := RunSnoc(init, more, WithOne(s, StatusRead), Orch(o, ReadSummary), WithOne(s, Summarised(k)));
    more := RunSnoc(init, more, WithOne(s, Summarised(k)), Orch(o, CheckFailures), WithOne(s, FailuresChecked(k)));
    more := RunSnoc(init, more, WithOne(s, FailuresChecked(k)), Orch(o, CheckZeros), WithOne(s, ZerosChecked(k)));
    more := RunSnoc(init, more, WithOne(s, ZerosChecked(k)), Orch(o, Decide(false)), WithOne(s, Stopping(MaxTrialsReached)));
    more := RunSnoc(init, more, WithOne(s, Stopping(MaxTrialsReached)), Orch(o, CompleteStudy),
                    WithOne(s, Exited).(status := Completed(MaxTrialsReached)));
  }

  // Two rows of one number complete a study of two trials while the second was never asked for.
  lemma MaxTrialsStopMayFireEarly(setup: Setup) returns (events: seq<Event>)
    requires setup.lookupMayBreak && setup.parallelism >= 1 && setup.maxTrials == Some(2)
    ensures Run(Init(setup), events).Some?
    ensures var s := Run(Init(setup), events).value; StoppedOnMax(s) && |s.trials| == 1
  {
    DuplicatingRun();
    hide CellRun;
    var first := FirstCellRuns(setup, DUPLICATING);
    events := StopsOnCount(Init(setup), first, Run(Init(setup), first).value);
  }

  // In every run that the max_trials stop has ended: every number below the limit has exactly
  // one row, exactly if no step of the run wrote a number twice.
  lemma MaxTrialsStopIsExactIff(setup: Setup, events: seq<Event>)
    requires Run(Init(setup), events).Some? && StoppedOnMax(Run(Init(setup), events).value)
    ensures EveryNumberOnce(Run(Init(setup), events).value) <==> NeverTwice(Init(setup), events)
  {
    var s := Run(Init(setup), events).value;
    OneRowPerNumberIff(setup, events);
    ReachableInv(setup, events);
    if OneRowEach(s.rows) { ReportedIsExact(s); }
    if EveryNumberOnce(s) { OnceMeansOneRow(s); }
  }

  lemma OnceMeansOneRow(s: State)
    requires Inv(s) && EveryNumberOnce(s)
    ensures OneRowEach(s.rows)
  {
    forall n: nat ensures |RowsOf(s.rows, n)| <= 1 {
      if n >= |s.trials| { RowsOfUnknown(s.rows, |s.trials|, n); }
    }
  }
}
