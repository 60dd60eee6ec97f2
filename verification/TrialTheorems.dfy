// The guarantees of the trial protocol, for every run: any number of orchestrators and jobs,
// any interleaving, any crash, redelivery or failed write.
module TrialTheorems {
  import opened Common
  import opened TrialProtocol
  import opened TrialSafety

  lemma ReachableInv(setup: Setup, events: seq<Event>)
    requires Run(Init(setup), events).Some?
    ensures Inv(Run(Init(setup), events).value)
  {
    InitInv(setup);
    RunKeepsInv(Init(setup), events);
  }

  // ---------------------------------------------------------------------------
  // Allocation
  // ---------------------------------------------------------------------------

  // Concurrent orchestrators together never exceed the two limits, although each compares
  // them with counts it read at different times.
  lemma AllocationStaysWithinLimits(setup: Setup, events: seq<Event>)
    requires Run(Init(setup), events).Some?
    ensures var s := Run(Init(setup), events).value;
            && InFlight(s.trials) <= setup.parallelism
            && (setup.maxTrials.Some? ==> |s.trials| <= setup.maxTrials.value)
  {
    ReachableInv(setup, events);
  }

  // An orchestrator about to enqueue a number never finds a job for it.
  lemma EnqueueIsNeverDuplicate(setup: Setup, events: seq<Event>, o: nat)
    requires Run(Init(setup), events).Some?
    requires var s := Run(Init(setup), events).value; o < |s.orchs| && s.orchs[o].Suggested?
    ensures var s := Run(Init(setup), events).value;
            var n := s.orchs[o].number;
            && n < |s.jobs| && s.jobs[n].phase.Unqueued?
            && forall p :: 0 <= p < |s.orchs| && p != o ==> !HoldsLock(s.orchs[p])
  {
    ReachableInv(setup, events);
    var s := Run(Init(setup), events).value;
    assert PcBound(s, s.orchs[o]);
    assert s.lock == Some(o);
  }

  // ---------------------------------------------------------------------------
  // The two stores agree
  // ---------------------------------------------------------------------------

  // A complete app row repeats a COMPLETE Optuna trial: same value, same parameters.
  lemma CompleteRowsMatchOptuna(setup: Setup, events: seq<Event>, i: nat)
    requires Run(Init(setup), events).Some?
    requires i < |Run(Init(setup), events).value.rows|
    ensures var s := Run(Init(setup), events).value;
            var r := s.rows[i];
            r.number < |s.trials| && MatchesOptuna(r, s.trials[r.number])
  {
    ReachableInv(setup, events);
    var s := Run(Init(setup), events).value;
    var r := s.rows[i];
    assert CellOf(s, r.number);
    RowsOfHasAll(s.rows, i);
    var own := RowsOf(s.rows, r.number);
    var k :| 0 <= k < |own| && own[k] == r;
  }

  // Whatever fails, at most one row of a number is not a failed one.
  lemma AtMostOneRowIsNotFailed(setup: Setup, events: seq<Event>, n: nat)
    requires Run(Init(setup), events).Some?
    ensures var r := RowsOf(Run(Init(setup), events).value.rows, n);
            forall i :: 1 <= i < |r| ==> r[i].status == RowFailed
  {
    ReachableInv(setup, events);
    var s := Run(Init(setup), events).value;
    if n < |s.trials| { assert CellOf(s, n); } else { RowsOfUnknown(s.rows, |s.trials|, n); }
  }

  // An orchestrator touches no number but the one it is enqueuing, and no row.
  lemma OrchTouchesOneNumber(s: State, o: nat, act: OrchAction, n: nat)
    requires |s.jobs| == |s.trials| && Step(s, Orch(o, act)).Some? && n < |s.trials|
    ensures var t := Step(s, Orch(o, act)).value;
            && o < |s.orchs| && n < |t.trials| && t.rows == s.rows
            && (!Enqueuing(s.orchs[o], n) ==> t.trials[n] == s.trials[n] && t.jobs[n] == s.jobs[n])
  {
  }

  // An orchestrator finishes no trial; it queues jobs and adds numbers, nothing else.
  lemma OrchOnJobs(s: State, o: nat, act: OrchAction, n: nat)
    requires |s.jobs| == |s.trials| && Step(s, Orch(o, act)).Some?
    ensures var t := Step(s, Orch(o, act)).value;
            && |s.trials| <= |t.trials| == |t.jobs| && t.rows == s.rows
            && (n < |t.trials| ==> t.jobs[n].phase in {Unqueued, Queued} || (n < |s.trials| && t.jobs[n] == s.jobs[n]))
            && (n < |s.trials| ==> t.trials[n].state == s.trials[n].state)
  {
  }

  predicate Enqueuing(pc: Pc, n: nat) { (pc.Asked? || pc.Suggested?) && pc.number == n }

  lemma StepKeepsFinished(s: State, e: Event, n: nat)
    requires |s.jobs| == |s.trials| && Inv(s) && Step(s, e).Some? && n < |s.trials|
    ensures n < |Step(s, e).value.trials|
    ensures Finished(s.trials[n]) ==> Step(s, e).value.trials[n] == s.trials[n]
  {
    match e
    case Work(m, a) =>
      WorkTouchesOneNumber(s, m, a);
      var r := RowsOf(s.rows, m);
      JobStepKeepsFinished(m, s.trials[m], s.jobs[m], r != [], OwnIn(r, m, s.jobs[m]), a);
    case Orch(o, act) => OrchKeepsFinished(s, o, act, n);
    case _ =>
  }

  lemma OrchKeepsFinished(s: State, o: nat, act: OrchAction, n: nat)
    requires |s.jobs| == |s.trials| && Step(s, Orch(o, act)).Some? && n < |s.trials|
    ensures n < |Step(s, Orch(o, act)).value.trials|
    ensures Finished(s.trials[n]) ==> Step(s, Orch(o, act)).value.trials[n] == s.trials[n]
  {
  }

  // A trial enters a terminal Optuna state at most once: afterwards no run changes it.
  lemma {:induction false} TerminalStateIsFinal(s: State, events: seq<Event>, n: nat)
    requires |s.jobs| == |s.trials| && Inv(s) && Run(s, events).Some?
    requires n < |s.trials| && Finished(s.trials[n])
    ensures n < |Run(s, events).value.trials| && Run(s, events).value.trials[n] == s.trials[n]
    decreases |events|
  {
    hide Step, Inv;
    if events != [] {
      var last := |events| - 1;
      TerminalStateIsFinal(s, events[..last], n);
      RunKeepsInv(s, events[..last]);
      StepKeepsFinished(Run(s, events[..last]).value, events[last], n);
    }
  }

  // ---------------------------------------------------------------------------
  // Once a number has its row
  // ---------------------------------------------------------------------------

  lemma SettledCellIsFrozen(n: nat, t: OptunaTrial, job: Job, r: seq<TrialRow>, a: WorkAction)
    requires CellInv(true, n, t, job, r) && r != [] && !a.LookupBreaks?
    ensures var e := JobStep(n, t, job, true, OwnIn(r, n, job), a);
            e.Some? ==> e.value.trial == t && e.value.row.None?
  {
  }

  // While the idempotency query never breaks, no step touches the trial or the rows of a
  // number that has a row.
  lemma SettledNumberIsFrozen(s: State, e: Event, n: nat)
    requires |s.jobs| == |s.trials| && Inv(s) && Strict(s) && Step(s, e).Some?
    requires n < |s.trials| && RowsOf(s.rows, n) != []
    ensures var t := Step(s, e).value;
            n < |t.trials| && t.trials[n] == s.trials[n] && RowsOf(t.rows, n) == RowsOf(s.rows, n)
  {
    assert CellOf(s, n);
    match e
    case Work(m, a) => WorkLeavesSettled(s, m, a, n);
    case Orch(o, act) =>
      OrchTouchesOneNumber(s, o, act, n);
      assert PcBound(s, s.orchs[o]) && PhaseInv(s.trials[n], s.jobs[n].phase, true, OwnIn(RowsOf(s.rows, n), n, s.jobs[n]));
      hide Step, CellInv;
    case _ =>
  }

  lemma WorkLeavesSettled(s: State, m: nat, a: WorkAction, n: nat)
    requires Cells(s) && Strict(s) && WorkStep(s, m, a).Some?
    requires n < |s.trials| && RowsOf(s.rows, n) != []
    ensures var t := WorkStep(s, m, a).value;
            n < |t.trials| && t.trials[n] == s.trials[n] && RowsOf(t.rows, n) == RowsOf(s.rows, n)
  {
    WorkTouchesOneNumber(s, m, a);
    var r := RowsOf(s.rows, m);
    var e := JobStep(m, s.trials[m], s.jobs[m], r != [], OwnIn(r, m, s.jobs[m]), a).value;
    assert CellOf(s, m);
    WrittenRowIsOwn(m, s.trials[m], s.jobs[m], r != [], OwnIn(r, m, s.jobs[m]), a);
    if m == n { SettledCellIsFrozen(m, s.trials[m], s.jobs[m], r, a); }
    hide JobStep, WorkStep;
    if e.row.Some? { RowsOfAppend(s.rows, e.row.value, n); }
  }

  // ---------------------------------------------------------------------------
  // The max_trials_reached stop
  // ---------------------------------------------------------------------------

  // How many rows the first m numbers have together.
  function RowsBelow(rows: seq<TrialRow>, m: nat): nat {
    if m == 0 then 0 else RowsBelow(rows, m - 1) + |RowsOf(rows, m - 1)|
  }

  lemma {:induction false} RowsBelowAppend(rows: seq<TrialRow>, row: TrialRow, m: nat)
    ensures RowsBelow(rows + [row], m) == RowsBelow(rows, m) + if row.number < m then 1 else 0
    decreases m
  {
    hide RowsOf;
    if m > 0 {
      RowsBelowAppend(rows, row, m - 1);
      RowsOfAppend(rows, row, m - 1);
    }
  }

  lemma {:induction false} RowsBelowEmpty(m: nat)
    ensures RowsBelow([], m) == 0
    decreases m
  {
    if m > 0 { RowsBelowEmpty(m - 1); }
  }

  lemma {:induction false} RowsBelowCountsAll(rows: seq<TrialRow>, m: nat)
    requires Known(rows, m)
    ensures RowsBelow(rows, m) == |rows|
    decreases |rows|
  {
    if rows == [] {
      RowsBelowEmpty(m);
    } else {
      var last := |rows| - 1;
      assert rows == rows[..last] + [rows[last]];
      RowsBelowCountsAll(rows[..last], m);
      RowsBelowAppend(rows[..last], rows[last], m);
    }
  }

  ghost predicate OneRowEach(rows: seq<TrialRow>) {
    forall n: nat :: |RowsOf(rows, n)| <= 1
  }

  lemma {:induction false} FullOnlyIfEach(rows: seq<TrialRow>, m: nat, n: nat)
    requires OneRowEach(rows)
    ensures RowsBelow(rows, m) <= m
    ensures RowsBelow(rows, m) == m && n < m ==> |RowsOf(rows, n)| == 1
    decreases m
  {
    if m > 0 {
      FullOnlyIfEach(rows, m - 1, n);
      assert |RowsOf(rows, m - 1)| <= 1;
    }
  }

  lemma StrictMeansOneRowEach(s: State)
    requires Inv(s) && Strict(s)
    ensures OneRowEach(s.rows)
  {
    forall n: nat ensures |RowsOf(s.rows, n)| <= 1 {
      if n < |s.trials| { assert CellOf(s, n); } else { RowsOfUnknown(s.rows, |s.trials|, n); }
    }
  }

  lemma {:induction false} KnownBelow(rows: seq<TrialRow>, a: nat, b: nat)
    requires Known(rows, a) && a <= b
    ensures Known(rows, b)
  {
  }

  lemma ReportedIsExact(s: State)
    requires Inv(s) && OneRowEach(s.rows) && Reported(s)
    ensures |s.rows| == s.setup.maxTrials.value == |s.trials|
    ensures forall n :: 0 <= n < |s.trials| ==> |RowsOf(s.rows, n)| == 1
  {
    var m := s.setup.maxTrials.value;
    KnownBelow(s.rows, |s.trials|, m);
    RowsBelowCountsAll(s.rows, |s.trials|);
    FullOnlyIfEach(s.rows, |s.trials|, 0);
    forall n | 0 <= n < |s.trials| ensures |RowsOf(s.rows, n)| == 1 {
      FullOnlyIfEach(s.rows, |s.trials|, n);
    }
  }

  // When a study stops on max_trials, every number below the limit has exactly one row.
  lemma MaxTrialsStopIsExact(setup: Setup, events: seq<Event>, n: nat)
    requires !setup.lookupMayBreak && Run(Init(setup), events).Some?
    requires Run(Init(setup), events).value.status == Completed(MaxTrialsReached)
    ensures setup.maxTrials.Some? && |Run(Init(setup), events).value.rows| == setup.maxTrials.value
    ensures n < setup.maxTrials.value <==> n < |Run(Init(setup), events).value.trials|
    ensures n < setup.maxTrials.value ==> |RowsOf(Run(Init(setup), events).value.rows, n)| == 1
  {
    ReachableInv(setup, events);
    StrictMeansOneRowEach(Run(Init(setup), events).value);
    ReportedIsExact(Run(Init(setup), events).value);
  }

  lemma ReportedStepIsQuiet(s: State, e: Event)
    requires |s.jobs| == |s.trials| && Inv(s) && Strict(s) && Reported(s) && Step(s, e).Some?
    ensures Step(s, e).value.trials == s.trials && Step(s, e).value.rows == s.rows
  {
    StrictMeansOneRowEach(s);
    ReportedIsExact(s);
    match e
    case Work(n, a) =>
      WorkTouchesOneNumber(s, n, a);
      assert CellOf(s, n);
      SettledCellIsFrozen(n, s.trials[n], s.jobs[n], RowsOf(s.rows, n), a);
      hide JobStep, CellInv;
    case Orch(o, act) => ReportedOrchIsQuiet(s, o, act);
    case _ =>
  }

  lemma SettledIsQueued(s: State, n: nat)
    requires Cells(s) && n < |s.trials| && RowsOf(s.rows, n) != []
    ensures s.jobs[n].phase != Unqueued
  {
    assert CellOf(s, n);
  }

  lemma ReportedOrchIsQuiet(s: State, o: nat, act: OrchAction)
    requires |s.jobs| == |s.trials| && Inv(s) && Step(s, Orch(o, act)).Some?
    requires forall n :: 0 <= n < |s.trials| ==> RowsOf(s.rows, n) != []
    requires s.setup.maxTrials == Some(|s.trials|)
    ensures Step(s, Orch(o, act)).value.trials == s.trials && Step(s, Orch(o, act)).value.rows == s.rows
  {
    assert PcBound(s, s.orchs[o]);
    forall n | 0 <= n < |s.trials| ensures s.jobs[n].phase != Unqueued { SettledIsQueued(s, n); }
    hide Cells;
  }

  // No job has anything left to do after it: whatever is redelivered, both stores stay as
  // they are, through every continuation.
  lemma {:induction false} MaxTrialsStopIsQuiet(s: State, events: seq<Event>)
    requires |s.jobs| == |s.trials| && Inv(s) && Strict(s) && s.status == Completed(MaxTrialsReached)
    requires Run(s, events).Some?
    ensures Run(s, events).value.trials == s.trials && Run(s, events).value.rows == s.rows
    decreases |events|
  {
    hide Step;
    if events != [] {
      var last := |events| - 1;
      MaxTrialsStopIsQuiet(s, events[..last]);
      RunKeepsInv(s, events[..last]);
      ReportedStepIsQuiet(Run(s, events[..last]).value, events[last]);
    }
  }

  // ---------------------------------------------------------------------------
  // The streak aborts
  // ---------------------------------------------------------------------------

  // The newest row cannot be both failed and complete: for any two positive windows the two
  // aborts exclude each other on one table, so the order of the checks does not matter.
  lemma StreaksExcludeEachOther(rows: seq<TrialRow>, failures: nat, zeros: nat)
    requires failures >= 1 && zeros >= 1
    ensures LastNAllFailed(rows, failures) ==> !LastNAllZero(rows, zeros)
  {
    if LastNAllFailed(rows, failures) {
      assert NewestFirst(rows)[0].status == RowFailed;
    }
  }

  // What the window holds: the rows of the n greatest numbers.
  predicate Descending(rows: seq<TrialRow>) {
    forall i, j :: 0 <= i < j < |rows| ==> rows[i].number >= rows[j].number
  }

  lemma {:induction false} PlaceKeepsRows(sorted: seq<TrialRow>, row: TrialRow)
    ensures multiset(Place(sorted, row)) == multiset(sorted) + multiset{row}
  {
    if sorted != [] && row.number < sorted[0].number {
      PlaceKeepsRows(sorted[1..], row);
      assert sorted == [sorted[0]] + sorted[1..];
    }
  }

  lemma {:induction false} PlaceSorts(sorted: seq<TrialRow>, row: TrialRow)
    requires Descending(sorted)
    ensures Descending(Place(sorted, row))
    ensures sorted != [] && row.number < sorted[0].number ==> Place(sorted, row)[0] == sorted[0]
    ensures sorted == [] || row.number >= sorted[0].number ==> Place(sorted, row)[0] == row
  {
    if sorted != [] && row.number < sorted[0].number {
      PlaceSorts(sorted[1..], row);
      var placed := Place(sorted[1..], row);
      assert forall j :: 0 <= j < |placed| ==> placed[0].number >= placed[j].number;
    }
  }

  lemma {:induction false} NewestFirstSorts(rows: seq<TrialRow>)
    ensures Descending(NewestFirst(rows)) && multiset(NewestFirst(rows)) == multiset(rows)
  {
    if rows != [] {
      var last := |rows| - 1;
      NewestFirstSorts(rows[..last]);
      PlaceSorts(NewestFirst(rows[..last]), rows[last]);
      PlaceKeepsRows(NewestFirst(rows[..last]), rows[last]);
      assert rows == rows[..last] + [rows[last]];
    }
  }

  // The numbers of the trials Optuna holds as RUNNING.
  ghost function RunningNumbers(trials: seq<OptunaTrial>): set<int> {
    set i | 0 <= i < |trials| && trials[i].state == Running
  }

  lemma RunningOneMore(trials: seq<OptunaTrial>, t: OptunaTrial)
    ensures RunningNumbers(trials + [t]) == RunningNumbers(trials) + if t.state == Running then {|trials|} else {}
    ensures |trials| !in RunningNumbers(trials)
  {
    var all := trials + [t];
    assert forall i :: 0 <= i < |trials| ==> all[i] == trials[i];
  }

  // The in-flight count counts them.
  lemma {:induction false} InFlightIsRunning(trials: seq<OptunaTrial>)
    ensures InFlight(trials) == |RunningNumbers(trials)|
  {
    if trials != [] {
      var init, last := trials[..|trials| - 1], trials[|trials| - 1];
      assert trials == init + [last];
      InFlightIsRunning(init);
      RunningOneMore(init, last);
      hide RunningNumbers;
    }
  }
}
