// Runs that exist: what can still be finished, and what a broken query or a swallowed tell
// can do.
module TrialRuns {
  import opened Common
  import opened TrialProtocol
  import opened TrialSafety
  import opened TrialTheorems
  import opened TrialProgress

  // ---------------------------------------------------------------------------
  // Runs of one job
  // ---------------------------------------------------------------------------

  // What the job of one number sees and changes.
  datatype Cell = Cell(trial: OptunaTrial, job: Job, rows: seq<TrialRow>)

  function CellAt(s: State, n: nat): Cell
    requires n < |s.trials| == |s.jobs|
  {
    Cell(s.trials[n], s.jobs[n], RowsOf(s.rows, n))
  }

  function CellStep(n: nat, c: Cell, a: WorkAction): Option<Cell> {
    match JobStep(n, c.trial, c.job, c.rows != [], OwnIn(c.rows, n, c.job), a)
    case None => None
    case Some(e) => Some(Cell(e.trial, e.job, Appended(c.rows, e.row)))
  }

  function CellRun(n: nat, c: Cell, actions: seq<WorkAction>): Option<Cell>
    decreases |actions|
  {
    if actions == [] then Some(c)
    else
      match CellStep(n, c, actions[0])
      case None => None
      case Some(d) => CellRun(n, d, actions[1..])
  }

  predicate AllowedAction(s: State, a: WorkAction) { a.LookupBreaks? ==> s.setup.lookupMayBreak }

  function Works(n: nat, actions: seq<WorkAction>): (events: seq<Event>)
    ensures |events| == |actions|
    ensures forall i :: 0 <= i < |actions| ==> events[i] == Work(n, actions[i])
  {
    seq(|actions|, i requires 0 <= i < |actions| => Work(n, actions[i]))
  }

  // A job leaves the study, the orchestrators and all other rows alone.
  predicate SameElsewhere(s: State, t: State, n: nat) {
    && t.status == s.status && t.orchs == s.orchs && |t.trials| == |s.trials|
    && |t.rows| - |RowsOf(t.rows, n)| == |s.rows| - |RowsOf(s.rows, n)|
  }

  lemma LiftStep(s: State, n: nat, a: WorkAction)
    requires |s.jobs| == |s.trials| && Inv(s) && n < |s.trials| && AllowedAction(s, a)
    requires CellStep(n, CellAt(s, n), a).Some?
    ensures var t := Step(s, Work(n, a));
            && t.Some? && Inv(t.value) && n < |t.value.trials| == |t.value.jobs| && t.value.setup == s.setup
            && CellAt(t.value, n) == CellStep(n, CellAt(s, n), a).value
            && SameElsewhere(s, t.value, n)
  {
    WorkIsEnabled(s, n, a);
    StepKeepsInv(s, Work(n, a));
    CellAfterWork(s, n, a);
    hide Inv, JobStep, CellStep;
  }

  lemma CellStepIs(n: nat, c: Cell, a: WorkAction, e: Effect)
    requires JobStep(n, c.trial, c.job, c.rows != [], OwnIn(c.rows, n, c.job), a) == Some(e)
    ensures CellStep(n, c, a) == Some(Cell(e.trial, e.job, Appended(c.rows, e.row)))
  {
    hide JobStep;
  }

  lemma CellAfterWork(s: State, n: nat, a: WorkAction)
    requires Cells(s) && n < |s.trials| && WorkStep(s, n, a).Some?
    ensures var t := WorkStep(s, n, a).value;
            && n < |t.trials| == |t.jobs| && t.setup == s.setup
            && Some(CellAt(t, n)) == CellStep(n, CellAt(s, n), a)
            && SameElsewhere(s, t, n)
  {
    var c := CellAt(s, n);
    var e := JobStep(n, c.trial, c.job, c.rows != [], OwnIn(c.rows, n, c.job), a).value;
    WorkTouchesOneNumber(s, n, a);
    WrittenRowIsOwn(n, c.trial, c.job, c.rows != [], OwnIn(c.rows, n, c.job), a);
    CellStepIs(n, c, a, e);
    hide JobStep, WorkStep, Cells, CellStep, OwnIn, RowsOf;
    if e.row.Some? { RowsOfAppend(s.rows, e.row.value, n); }
  }

  lemma WorkIsEnabled(s: State, n: nat, a: WorkAction)
    requires Cells(s) && n < |s.trials| && AllowedAction(s, a)
    requires CellStep(n, CellAt(s, n), a).Some?
    ensures WorkStep(s, n, a).Some?
  {
    TakenIsLocal(s.rows, |s.trials|, TrialId(n, s.jobs[n].attempt));
  }

  lemma RunFromFront(s: State, e: Event, rest: seq<Event>)
    requires |s.jobs| == |s.trials| && Step(s, e).Some?
    ensures |Step(s, e).value.jobs| == |Step(s, e).value.trials|
    ensures Run(s, [e] + rest) == Run(Step(s, e).value, rest)
  {
    StepKeepsShape(s, e);
    assert [e][..0] == [] && [e][0] == e;
    assert Run(s, [e]) == Step(s, e);
    RunsCompose(s, [e], rest);
  }

  // A run of one cell is a run of the system.
  lemma {:induction false} LiftRun(s: State, n: nat, actions: seq<WorkAction>)
    requires |s.jobs| == |s.trials| && Inv(s) && n < |s.trials|
    requires CellRun(n, CellAt(s, n), actions).Some?
    requires forall i :: 0 <= i < |actions| ==> AllowedAction(s, actions[i])
    ensures var t := Run(s, Works(n, actions));
            && t.Some? && n < |t.value.trials| == |t.value.jobs|
            && CellAt(t.value, n) == CellRun(n, CellAt(s, n), actions).value
            && SameElsewhere(s, t.value, n)
    decreases |actions|
  {
    hide Inv, Step, CellStep;
    if actions == [] {
      assert Works(n, actions) == [];
    } else {
      var a, rest := actions[0], actions[1..];
      LiftStep(s, n, a);
      var t := Step(s, Work(n, a)).value;
      LiftRun(t, n, rest);
      RunFromFront(s, Work(n, a), Works(n, rest));
      assert Works(n, actions) == [Work(n, a)] + Works(n, rest);
    }
  }

  lemma TwoSteps(n: nat, c0: Cell, a0: WorkAction, c1: Cell, a1: WorkAction, c2: Cell)
    requires CellStep(n, c0, a0) == Some(c1) && CellStep(n, c1, a1) == Some(c2)
    ensures CellRun(n, c0, [a0, a1]) == Some(c2)
  {
    hide CellStep;
    assert [a0, a1][1..] == [a1] && [a1][1..] == [];
    assert CellRun(n, c1, [a1]) == CellRun(n, c2, []);
  }

  lemma FourSteps(n: nat, c0: Cell, a0: WorkAction, c1: Cell, a1: WorkAction, c2: Cell,
                  a2: WorkAction, c3: Cell, a3: WorkAction, c4: Cell)
    requires CellStep(n, c0, a0) == Some(c1) && CellStep(n, c1, a1) == Some(c2)
    requires CellStep(n, c2, a2) == Some(c3) && CellStep(n, c3, a3) == Some(c4)
    ensures CellRun(n, c0, [a0, a1, a2, a3]) == Some(c4)
  {
    hide CellStep;
    TwoSteps(n, c0, a0, c1, a1, c2);
    TwoSteps(n, c2, a2, c3, a3, c4);
    CellCompose(n, c0, [a0, a1], [a2, a3]);
    assert [a0, a1] + [a2, a3] == [a0, a1, a2, a3];
  }

  lemma {:induction false} CellCompose(n: nat, c: Cell, a: seq<WorkAction>, b: seq<WorkAction>)
    requires CellRun(n, c, a).Some?
    ensures CellRun(n, c, a + b) == CellRun(n, CellRun(n, c, a).value, b)
    decreases |a|
  {
    hide CellStep;
    if a == [] {
      assert a + b == b;
    } else {
      assert (a + b)[1..] == a[1..] + b;
      CellCompose(n, CellStep(n, c, a[0]).value, a[1..], b);
    }
  }

  // ---------------------------------------------------------------------------
  // Every live job can still be finished
  // ---------------------------------------------------------------------------

  const REDELIVERED: seq<WorkAction> := [Crash, Deliver]

  lemma Redelivery(n: nat, c: Cell)
    requires Live(c.job)
    ensures CellRun(n, c, REDELIVERED) == Some(c.(job := Job(Started, c.job.attempt + 1)))
  {
    TwoSteps(n, c, Crash, c.(job := c.job.(phase := Queued)), Deliver, c.(job := Job(Started, c.job.attempt + 1)));
  }

  // The id of a new execution is in no row yet.
  predicate FreshAttempt(n: nat, c: Cell) { c.job.phase == Started && !OwnIn(c.rows, n, c.job) }

  lemma NewAttemptIsFresh(strict: bool, n: nat, c: Cell)
    requires CellInv(strict, n, c.trial, c.job, c.rows)
    ensures FreshAttempt(n, c.(job := Job(Started, c.job.attempt + 1)))
  {
  }

  function At(c: Cell, phase: Phase): Cell { c.(job := c.job.(phase := phase)) }

  // A row is there: the redelivered job sees it and is done.
  const NOTICING: seq<WorkAction> := [Lookup, Ack]

  lemma FinishFound(n: nat, c: Cell)
    requires FreshAttempt(n, c) && c.rows != []
    ensures CellRun(n, c, NOTICING) == Some(At(c, Acked))
  {
    TwoSteps(n, c, Lookup, At(c, Returned), Ack, At(c, Acked));
  }

  // Optuna is terminal but there is no row: the redelivered job reconstructs it.
  const RECONCILING: seq<WorkAction> := [Lookup, Load, Reconcile(Done, false), Ack]

  lemma FinishReconciling(n: nat, c: Cell)
    requires FreshAttempt(n, c) && c.rows == [] && Finished(c.trial)
    ensures CellRun(n, c, RECONCILING) ==
            Some(At(c.(rows := [ReconstructedRow(TrialId(n, c.job.attempt), n, c.trial)]), Acked))
  {
    var row := ReconstructedRow(TrialId(n, c.job.attempt), n, c.trial);
    var written := c.(rows := [row]);
    ReconcileStep(n, At(c, Reconciling(c.trial)), c.trial);
    assert CellStep(n, At(c, Checked), Load) == Some(At(c, Reconciling(c.trial)));
    FourSteps(n, c, Lookup, At(c, Checked), Load, At(c, Reconciling(c.trial)),
              Reconcile(Done, false), At(written, Returned), Ack, At(written, Acked));
  }

  lemma ReconcileStep(n: nat, c: Cell, snap: OptunaTrial)
    requires c.job.phase == Reconciling(snap) && Finished(snap) && c.rows == []
    ensures CellStep(n, c, Reconcile(Done, false)) ==
            Some(At(c.(rows := [ReconstructedRow(TrialId(n, c.job.attempt), n, snap)]), Returned))
  {
    assert !OwnIn([], n, c.job);
    assert Appended([], Some(ReconstructedRow(TrialId(n, c.job.attempt), n, snap))) ==
           [ReconstructedRow(TrialId(n, c.job.attempt), n, snap)];
  }

  function Told(t: OptunaTrial, v: real): OptunaTrial { t.(state := Complete, value := Some(v)) }

  // Optuna is RUNNING and there is no row: the redelivered job executes the trial.
  function Telling4(v: real): seq<WorkAction> { [Lookup, Load, Execute(v), Tell(Done, false)] }

  lemma ExecuteToTold(n: nat, c: Cell, v: real)
    requires FreshAttempt(n, c) && c.rows == [] && !Finished(c.trial)
    ensures CellRun(n, c, Telling4(v)) == Some(At(c.(trial := Told(c.trial, v)), Inserting(c.trial, v)))
  {
    assert CellStep(n, At(c, Checked), Load) == Some(At(c, Executing(c.trial)));
    TellStep(n, At(c, Telling(c.trial, v)), c.trial, v);
    FourSteps(n, c, Lookup, At(c, Checked), Load, At(c, Executing(c.trial)),
              Execute(v), At(c, Telling(c.trial, v)), Tell(Done, false), At(c.(trial := Told(c.trial, v)), Inserting(c.trial, v)));
  }

  lemma TellStep(n: nat, c: Cell, snap: OptunaTrial, v: real)
    requires c.job.phase == Telling(snap, v) && !Finished(c.trial)
    ensures CellStep(n, c, Tell(Done, false)) == Some(At(c.(trial := Told(c.trial, v)), Inserting(snap, v)))
  {
  }

  const INSERTING: seq<WorkAction> := [Insert(Done), Ack]

  lemma InsertToAcked(n: nat, c: Cell, snap: OptunaTrial, v: real)
    requires c.job.phase == Inserting(snap, v) && c.rows == []
    ensures CellRun(n, c, INSERTING) ==
            Some(At(c.(rows := [TrialRow(TrialId(n, c.job.attempt), n, RowComplete, Some(v), snap.params)]), Acked))
  {
    var row := TrialRow(TrialId(n, c.job.attempt), n, RowComplete, Some(v), snap.params);
    var written := c.(rows := [row]);
    assert !OwnIn([], n, c.job);
    assert Appended([], Some(row)) == [row];
    TwoSteps(n, c, Insert(Done), At(written, Returned), Ack, At(written, Acked));
  }

  // What a redelivered job does when nothing else goes wrong.
  function Finishing(c: Cell, v: real): seq<WorkAction> {
    REDELIVERED + if c.rows != [] then NOTICING else if Finished(c.trial) then RECONCILING else Telling4(v) + INSERTING
  }

  lemma FinishExecuting(n: nat, c: Cell, v: real)
    requires FreshAttempt(n, c) && c.rows == [] && !Finished(c.trial)
    ensures CellRun(n, c, Telling4(v) + INSERTING) ==
            Some(At(Cell(Told(c.trial, v), c.job, [TrialRow(TrialId(n, c.job.attempt), n, RowComplete, Some(v), c.trial.params)]), Acked))
  {
    var told := At(c.(trial := Told(c.trial, v)), Inserting(c.trial, v));
    ExecuteToTold(n, c, v);
    InsertToAcked(n, told, c.trial, v);
    hide CellRun;
    CellCompose(n, c, Telling4(v), INSERTING);
  }

  // Wherever a crash leaves a live job, a redelivery finishes it: acknowledged, with a row,
  // and with the Optuna trial terminal unless an earlier tell(FAIL) was swallowed.
  lemma LiveCellCanFinish(strict: bool, n: nat, c: Cell, v: real)
    requires CellInv(strict, n, c.trial, c.job, c.rows) && Live(c.job)
    ensures var d := CellRun(n, c, Finishing(c, v));
            && d.Some? && d.value.job.phase == Acked && d.value.rows != [] && c.rows <= d.value.rows
            && (c.rows == [] ==> Finished(d.value.trial))
  {
    var d := c.(job := Job(Started, c.job.attempt + 1));
    Redelivery(n, c);
    NewAttemptIsFresh(strict, n, c);
    hide CellInv, CellRun, FreshAttempt;
    if c.rows != [] {
      FinishFound(n, d);
      CellCompose(n, c, REDELIVERED, NOTICING);
    } else if Finished(c.trial) {
      FinishReconciling(n, d);
      CellCompose(n, c, REDELIVERED, RECONCILING);
    } else {
      FinishExecuting(n, d, v);
      CellCompose(n, c, REDELIVERED, Telling4(v) + INSERTING);
    }
  }

  // ---------------------------------------------------------------------------
  // What can still get a row
  // ---------------------------------------------------------------------------

  lemma LiveNumberCanFinish(s: State, n: nat, v: real) returns (events: seq<Event>)
    requires |s.jobs| == |s.trials| && Inv(s) && n < |s.trials| && Live(s.jobs[n])
    ensures Run(s, events).Some? && RowsOf(Run(s, events).value.rows, n) != []
  {
    var c := CellAt(s, n);
    assert CellOf(s, n);
    LiveCellCanFinish(Strict(s), n, c, v);
    hide Inv, CellRun;
    LiftRun(s, n, Finishing(c, v));
    events := Works(n, Finishing(c, v));
  }

  lemma EnqueueGoesThrough(s: State, o: nat, n: nat) returns (events: seq<Event>)
    requires |s.jobs| == |s.trials| && Inv(s) && o < |s.orchs| && s.orchs[o].Suggested? && s.orchs[o].number == n
    ensures Run(s, events).Some?
    ensures var t := Run(s, events).value; n < |t.trials| && Live(t.jobs[n])
  {
    assert PcBound(s, s.orchs[o]);
    events := [Orch(o, Enqueue(Done))];
    RunFromFront(s, events[0], []);
    assert events == [events[0]] + [];
  }

  lemma SuggestGoesThrough(s: State, o: nat, n: nat) returns (t: State)
    requires |s.jobs| == |s.trials| && Inv(s) && o < |s.orchs| && s.orchs[o].Asked? && s.orchs[o].number == n
    ensures Step(s, Orch(o, Suggest(map[]))) == Some(t) && |t.jobs| == |t.trials| && Inv(t)
    ensures o < |t.orchs| && t.orchs[o].Suggested? && t.orchs[o].number == n
  {
    assert PcBound(s, s.orchs[o]);
    t := Step(s, Orch(o, Suggest(map[]))).value;
    StepKeepsInv(s, Orch(o, Suggest(map[])));
  }

  lemma EnqueuedNumberCanBeLive(s: State, n: nat) returns (events: seq<Event>)
    requires |s.jobs| == |s.trials| && Inv(s) && BeingEnqueued(s, n)
    ensures Run(s, events).Some?
    ensures var t := Run(s, events).value; n < |t.trials| && Live(t.jobs[n])
  {
    var o :| 0 <= o < |s.orchs| && Enqueuing(s.orchs[o], n);
    hide Inv, Step;
    if s.orchs[o].Asked? {
      var t := SuggestGoesThrough(s, o, n);
      var rest := EnqueueGoesThrough(t, o, n);
      events := [Orch(o, Suggest(map[]))] + rest;
      RunFromFront(s, Orch(o, Suggest(map[])), rest);
    } else {
      events := EnqueueGoesThrough(s, o, n);
    }
  }

  // A number can still get a row exactly when it has one or somebody attends to it.
  lemma RowStillPossibleIff(s: State, n: nat)
    requires |s.jobs| == |s.trials| && Inv(s) && n < |s.trials|
    ensures (exists events :: Run(s, events).Some? && RowsOf(Run(s, events).value.rows, n) != []) <==>
            RowsOf(s.rows, n) != [] || !Unattended(s, n)
  {
    hide Inv, Step;
    if RowsOf(s.rows, n) != [] {
      assert Run(s, []) == Some(s);
    } else if Live(s.jobs[n]) {
      var events := LiveNumberCanFinish(s, n, 0.0);
    } else if BeingEnqueued(s, n) {
      var first := EnqueuedNumberCanBeLive(s, n);
      RunKeepsInv(s, first);
      var rest := LiveNumberCanFinish(Run(s, first).value, n, 0.0);
      RunsCompose(s, first, rest);
    } else {
      forall events | Run(s, events).Some? ensures RowsOf(Run(s, events).value.rows, n) == [] {
        UnattendedForGood(s, events, n);
      }
    }
  }

  // ---------------------------------------------------------------------------
  // A first number, from the start
  // ---------------------------------------------------------------------------

  // A study that may allocate at all.
  predicate MayAllocate(setup: Setup) { setup.parallelism >= 1 && setup.maxTrials != Some(0) }

  lemma RunSnoc(s: State, events: seq<Event>, t: State, e: Event, u: State) returns (more: seq<Event>)
    requires |s.jobs| == |s.trials| && |t.jobs| == |t.trials|
    requires Run(s, events) == Some(t) && Step(t, e) == Some(u)
    ensures more == events + [e] && Run(s, more) == Some(u)
  {
    more := events + [e];
    assert more[..|more| - 1] == events;
  }

  // One orchestrator, nothing allocated.
  function Alone(setup: Setup, pc: Pc, lock: Option<nat>): State { State(setup, Active, [], [], [], [pc], lock) }

  // One orchestrator, one number.
  function OneNumber(setup: Setup, pc: Pc, job: Job): State {
    State(setup, Active, [OptunaTrial(Running, None, map[])], [job], [], [pc], Some(0))
  }

  lemma EntrySteps(setup: Setup)
    ensures Step(Init(setup), Spawn) == Some(Init(setup).(orchs := [Entering]))
    ensures Step(Init(setup).(orchs := [Entering]), Orch(0, Enter)) == Some(Alone(setup, Looping, None))
    ensures Step(Alone(setup, Looping, None), Orch(0, ReadStatus)) == Some(Alone(setup, StatusRead, None))
  {
    assert [] + [Entering] == [Entering];
    assert [Entering][0 := Looping] == [Looping] && [Looping][0 := StatusRead] == [StatusRead];
  }

  // With no rows there is no streak.
  lemma CheckSteps(setup: Setup)
    ensures Step(Alone(setup, StatusRead, None), Orch(0, ReadSummary)) == Some(Alone(setup, Summarised(0), None))
    ensures Step(Alone(setup, Summarised(0), None), Orch(0, CheckFailures)) == Some(Alone(setup, FailuresChecked(0), None))
    ensures Step(Alone(setup, FailuresChecked(0), None), Orch(0, CheckZeros)) == Some(Alone(setup, ZerosChecked(0), None))
  {
    assert [StatusRead][0 := Summarised(0)] == [Summarised(0)];
    assert [Summarised(0)][0 := FailuresChecked(0)] == [FailuresChecked(0)];
    assert [FailuresChecked(0)][0 := ZerosChecked(0)] == [ZerosChecked(0)];
  }

  lemma LockSteps(setup: Setup)
    requires MayAllocate(setup)
    ensures Step(Alone(setup, ZerosChecked(0), None), Orch(0, Decide(false))) == Some(Alone(setup, BeforeLock, None))
    ensures Step(Alone(setup, BeforeLock, None), Orch(0, TryLock)) == Some(Alone(setup, Locked, Some(0)))
  {
    assert [ZerosChecked(0)][0 := BeforeLock] == [BeforeLock] && [BeforeLock][0 := Locked] == [Locked];
  }

  lemma CountSteps(setup: Setup)
    ensures Step(Alone(setup, Locked, Some(0)), Orch(0, ReadInFlight)) == Some(Alone(setup, Counted(0), Some(0)))
    ensures Step(Alone(setup, Counted(0), Some(0)), Orch(0, ReadTotal)) ==
            Some(Alone(setup, Filling(SlotsOpen(setup, 0, 0)), Some(0)))
  {
    assert [Locked][0 := Counted(0)] == [Counted(0)];
    assert [Counted(0)][0 := Filling(SlotsOpen(setup, 0, 0))] == [Filling(SlotsOpen(setup, 0, 0))];
  }

  lemma AskStep(setup: Setup, slots: int)
    requires slots >= 1
    ensures Step(Alone(setup, Filling(slots), Some(0)), Orch(0, Ask)) ==
            Some(OneNumber(setup, Asked(0, slots - 1), Job(Unqueued, 0)))
  {
    assert [Filling(slots)][0 := Asked(0, slots - 1)] == [Asked(0, slots - 1)];
    assert [] + [Job(Unqueued, 0)] == [Job(Unqueued, 0)];
    assert [] + [OptunaTrial(Running, None, map[])] == [OptunaTrial(Running, None, map[])];
  }

  lemma EnqueueSteps(setup: Setup, left: int)
    ensures Step(OneNumber(setup, Asked(0, left), Job(Unqueued, 0)), Orch(0, Suggest(map[]))) ==
            Some(OneNumber(setup, Suggested(0, left), Job(Unqueued, 0)))
    ensures Step(OneNumber(setup, Suggested(0, left), Job(Unqueued, 0)), Orch(0, Enqueue(Done))) ==
            Some(OneNumber(setup, Filling(left), Job(Queued, 0)))
  {
    var t := OptunaTrial(Running, None, map[]);
    assert [t][0 := t.(params := map[])] == [t];
    assert [Asked(0, left)][0 := Suggested(0, left)] == [Suggested(0, left)];
    assert [Suggested(0, left)][0 := Filling(left)] == [Filling(left)];
    assert [Job(Unqueued, 0)][0 := Job(Queued, 0)] == [Job(Queued, 0)];
  }

  lemma RunToChecks(setup: Setup) returns (events: seq<Event>)
    ensures Run(Init(setup), events) == Some(Alone(setup, ZerosChecked(0), None))
  {
    var s := Init(setup);
    EntrySteps(setup);
    CheckSteps(setup);
    assert Run(s, []) == Some(s);
    hide Step, Run;
    events := RunSnoc(s, [], s, Spawn, s.(orchs := [Entering]));
    events := RunSnoc(s, events, s.(orchs := [Entering]), Orch(0, Enter), Alone(setup, Looping, None));
    events := RunSnoc(s, events, Alone(setup, Looping, None), Orch(0, ReadStatus), Alone(setup, StatusRead, None));
    events := RunSnoc(s, events, Alone(setup, StatusRead, None), Orch(0, ReadSummary), Alone(setup, Summarised(0), None));
    events := RunSnoc(s, events, Alone(setup, Summarised(0), None), Orch(0, CheckFailures), Alone(setup, FailuresChecked(0), None));
    events := RunSnoc(s, events, Alone(setup, FailuresChecked(0), None), Orch(0, CheckZeros), Alone(setup, ZerosChecked(0), None));
  }

  lemma RunToLocked(setup: Setup) returns (events: seq<Event>)
    requires MayAllocate(setup)
    ensures Run(Init(setup), events) == Some(Alone(setup, Locked, Some(0)))
  {
    var s := Init(setup);
    LockSteps(setup);
    hide Step, Run;
    events := RunToChecks(setup);
    events := RunSnoc(s, events, Alone(setup, ZerosChecked(0), None), Orch(0, Decide(false)), Alone(setup, BeforeLock, None));
    events := RunSnoc(s, events, Alone(setup, BeforeLock, None), Orch(0, TryLock), Alone(setup, Locked, Some(0)));
  }

  // The first tick of the first orchestrator, up to the state between ask and enqueue.
  lemma RunToAsked(setup: Setup) returns (events: seq<Event>, left: int)
    requires MayAllocate(setup)
    ensures Run(Init(setup), events) == Some(OneNumber(setup, Asked(0, left), Job(Unqueued, 0)))
  {
    var s := Init(setup);
    var slots := SlotsOpen(setup, 0, 0);
    left := slots - 1;
    CountSteps(setup);
    AskStep(setup, slots);
    hide *;
    events := RunToLocked(setup);
    events := RunSnoc(s, events, Alone(setup, Locked, Some(0)), Orch(0, ReadInFlight), Alone(setup, Counted(0), Some(0)));
    events := RunSnoc(s, events, Alone(setup, Counted(0), Some(0)), Orch(0, ReadTotal), Alone(setup, Filling(slots), Some(0)));
    events := RunSnoc(s, events, Alone(setup, Filling(slots), Some(0)), Orch(0, Ask), OneNumber(setup, Asked(0, left), Job(Unqueued, 0)));
  }

  lemma RunToQueued(setup: Setup) returns (events: seq<Event>, pc: Pc)
    requires MayAllocate(setup)
    ensures Run(Init(setup), events) == Some(OneNumber(setup, pc, Job(Queued, 0)))
  {
    var s := Init(setup);
    var left: int;
    events, left := RunToAsked(setup);
    EnqueueSteps(setup, left);
    hide Step, Run;
    events := RunSnoc(s, events, OneNumber(setup, Asked(0, left), Job(Unqueued, 0)), Orch(0, Suggest(map[])),
                      OneNumber(setup, Suggested(0, left), Job(Unqueued, 0)));
    pc := Filling(left);
    events := RunSnoc(s, events, OneNumber(setup, Suggested(0, left), Job(Unqueued, 0)), Orch(0, Enqueue(Done)),
                      OneNumber(setup, pc, Job(Queued, 0)));
  }

  // ---------------------------------------------------------------------------
  // One row per number, exactly when
  // ---------------------------------------------------------------------------

  // The first number, as its job sees it.
  function FirstCell(phase: Phase, attempt: nat): Cell {
    Cell(OptunaTrial(Running, None, map[]), Job(phase, attempt), [])
  }

  lemma FirstCellRuns(setup: Setup, actions: seq<WorkAction>) returns (events: seq<Event>)
    requires MayAllocate(setup) && CellRun(0, FirstCell(Queued, 0), actions).Some?
    requires forall i :: 0 <= i < |actions| ==> actions[i].LookupBreaks? ==> setup.lookupMayBreak
    ensures var t := Run(Init(setup), events);
            && t.Some? && |t.value.jobs| == |t.value.trials| >= 1
            && CellAt(t.value, 0) == CellRun(0, FirstCell(Queued, 0), actions).value
            && t.value.status == Active && |t.value.trials| == 1 && |t.value.rows| == |RowsOf(t.value.rows, 0)|
  {
    var first, pc := RunToQueued(setup);
    var s := OneNumber(setup, pc, Job(Queued, 0));
    ReachableInv(setup, first);
    hide Inv, CellRun;
    assert CellAt(s, 0) == FirstCell(Queued, 0);
    LiftRun(s, 0, actions);
    RunsCompose(Init(setup), first, Works(0, actions));
    events := first + Works(0, actions);
  }

  const BREAKING: seq<WorkAction> := [LookupBreaks, FailInsert(Done)]
  const LANDING: seq<WorkAction> := [Insert(LandedButRaised), Crash]

  lemma LandingRun(c: Cell, v: real)
    requires c.job == Job(Inserting(FirstCell(Queued, 0).trial, v), 1) && c.rows == []
    ensures CellRun(0, c, LANDING) ==
            Some(Cell(c.trial, Job(Queued, 1), [TrialRow(TrialId(0, 1), 0, RowComplete, Some(v), map[])]))
  {
    var row := TrialRow(TrialId(0, 1), 0, RowComplete, Some(v), map[]);
    assert !OwnIn([], 0, c.job);
    assert Appended([], Some(row)) == [row];
    TwoSteps(0, c, Insert(LandedButRaised), At(c.(rows := [row]), Raised), Crash, At(c.(rows := [row]), Queued));
  }

  lemma BreakingRun(c: Cell, row: TrialRow)
    requires c.job == Job(Started, 2) && c.rows == [row] && row.id == TrialId(0, 1)
    ensures CellRun(0, c, BREAKING) ==
            Some(At(c.(rows := [row, TrialRow(TrialId(0, 2), 0, RowFailed, None, map[])]), Returned))
  {
    var late := TrialRow(TrialId(0, 2), 0, RowFailed, None, map[]);
    assert !OwnIn([row], 0, c.job);
    assert Appended([row], Some(late)) == [row, late];
    TwoSteps(0, c, LookupBreaks, At(c, FailInserting(map[])), FailInsert(Done), At(c.(rows := [row, late]), Returned));
  }

  // The row lands, the job is redelivered, and this time the query for it breaks.
  const DUPLICATING: seq<WorkAction> := (REDELIVERED + Telling4(1.0)) + (LANDING + (REDELIVERED + BREAKING))

  lemma DuplicatingRun()
    ensures var d := CellRun(0, FirstCell(Queued, 0), DUPLICATING); d.Some? && |d.value.rows| == 2
  {
    var c := FirstCell(Queued, 0);
    var started := FirstCell(Started, 1);
    Redelivery(0, c);
    ExecuteToTold(0, started, 1.0);
    CellCompose(0, c, REDELIVERED, Telling4(1.0));
    var told := At(started.(trial := Told(c.trial, 1.0)), Inserting(c.trial, 1.0));
    LandingRun(told, 1.0);
    var row := TrialRow(TrialId(0, 1), 0, RowComplete, Some(1.0), map[]);
    var landed := Cell(told.trial, Job(Queued, 1), [row]);
    Redelivery(0, landed);
    BreakingRun(landed.(job := Job(Started, 2)), row);
    hide CellRun;
    CellCompose(0, landed, REDELIVERED, BREAKING);
    CellCompose(0, told, LANDING, REDELIVERED + BREAKING);
    CellCompose(0, c, REDELIVERED + Telling4(1.0), LANDING + (REDELIVERED + BREAKING));
  }

  // ---------------------------------------------------------------------------
  // A failed row says nothing about Optuna
  // ---------------------------------------------------------------------------

  const SWALLOWING: seq<WorkAction> := REDELIVERED + (FAILING + [FailInsert(Done), Ack])

  lemma FailInsertRun(c: Cell)
    requires c.job == Job(FailInserting(map[]), 1) && c.rows == []
    ensures CellRun(0, c, [FailInsert(Done), Ack]) ==
            Some(At(c.(rows := [TrialRow(TrialId(0, 1), 0, RowFailed, None, map[])]), Acked))
  {
    var row := TrialRow(TrialId(0, 1), 0, RowFailed, None, map[]);
    var written := c.(rows := [row]);
    assert !OwnIn([], 0, c.job);
    assert Appended([], Some(row)) == [row];
    TwoSteps(0, c, FailInsert(Done), At(written, Returned), Ack, At(written, Acked));
  }

  const FAILING: seq<WorkAction> := [Lookup, Load, ExecuteFails, TellFail(false)]

  lemma FailSteps(c: Cell)
    requires c == FirstCell(Started, 1)
    ensures CellStep(0, At(c, Executing(c.trial)), ExecuteFails) == Some(At(c, FailTelling(map[])))
    ensures CellStep(0, At(c, FailTelling(map[])), TellFail(false)) == Some(At(c, FailInserting(map[])))
  {
  }

  lemma LoadSteps(c: Cell)
    requires c == FirstCell(Started, 1)
    ensures CellStep(0, c, Lookup) == Some(At(c, Checked))
    ensures CellStep(0, At(c, Checked), Load) == Some(At(c, Executing(c.trial)))
  {
  }

  lemma FailingRun(c: Cell)
    requires c == FirstCell(Started, 1)
    ensures CellRun(0, c, FAILING) == Some(At(c, FailInserting(map[])))
  {
    LoadSteps(c);
    FailSteps(c);
    hide CellStep;
    FourSteps(0, c, Lookup, At(c, Checked), Load, At(c, Executing(c.trial)),
              ExecuteFails, At(c, FailTelling(map[])), TellFail(false), At(c, FailInserting(map[])));
  }

  lemma SwallowingRun()
    ensures var d := CellRun(0, FirstCell(Queued, 0), SWALLOWING);
            d.Some? && !Live(d.value.job) && !Finished(d.value.trial) && |d.value.rows| == 1 && d.value.rows[0].status == RowFailed
  {
    var c := FirstCell(Started, 1);
    Redelivery(0, FirstCell(Queued, 0));
    FailingRun(c);
    FailInsertRun(At(c, FailInserting(map[])));
    hide CellRun;
    CellCompose(0, c, FAILING, [FailInsert(Done), Ack]);
    CellCompose(0, FirstCell(Queued, 0), REDELIVERED, FAILING + [FailInsert(Done), Ack]);
  }

  const MISHEARD: seq<WorkAction> := [Lookup, Load, Execute(1.0), Tell(LandedButRaised, false)]

  const UNHEARD: seq<WorkAction> := REDELIVERED + (MISHEARD + [TellFail(true), FailInsert(Done)])

  lemma UnheardTell(c: Cell)
    requires c == FirstCell(Started, 1)
    ensures CellStep(0, At(c, Telling(c.trial, 1.0)), Tell(LandedButRaised, false)) ==
            Some(At(c.(trial := Told(c.trial, 1.0)), FailTelling(map[])))
  {
  }

  lemma MisheardRun(c: Cell)
    requires c == FirstCell(Started, 1)
    ensures CellRun(0, c, MISHEARD) == Some(At(c.(trial := Told(c.trial, 1.0)), FailTelling(map[])))
  {
    LoadSteps(c);
    UnheardTell(c);
    FourSteps(0, c, Lookup, At(c, Checked), Load, At(c, Executing(c.trial)), Execute(1.0), At(c, Telling(c.trial, 1.0)),
              Tell(LandedButRaised, false), At(c.(trial := Told(c.trial, 1.0)), FailTelling(map[])));
  }

  lemma UnheardRun()
    ensures var d := CellRun(0, FirstCell(Queued, 0), UNHEARD);
            d.Some? && d.value.trial.state == Complete && |d.value.rows| == 1 && d.value.rows[0].status == RowFailed
  {
    var c := FirstCell(Started, 1);
    var row := TrialRow(TrialId(0, 1), 0, RowFailed, None, map[]);
    Redelivery(0, FirstCell(Queued, 0));
    MisheardRun(c);
    UnheardFail(c.(trial := Told(c.trial, 1.0)), row);
    hide CellRun;
    CellCompose(0, c, MISHEARD, [TellFail(true), FailInsert(Done)]);
    CellCompose(0, FirstCell(Queued, 0), REDELIVERED, MISHEARD + [TellFail(true), FailInsert(Done)]);
  }

  lemma UnheardFail(c: Cell, row: TrialRow)
    requires Finished(c.trial) && c.rows == [] && c.job.attempt == 1 && row == TrialRow(TrialId(0, 1), 0, RowFailed, None, map[])
    ensures CellRun(0, At(c, FailTelling(map[])), [TellFail(true), FailInsert(Done)]) == Some(At(c.(rows := [row]), Returned))
  {
    assert !OwnIn([], 0, c.job);
    assert Appended([], Some(row)) == [row];
    TwoSteps(0, At(c, FailTelling(map[])), TellFail(true), At(c, FailInserting(map[])), FailInsert(Done), At(c.(rows := [row]), Returned));
  }

  // The first number has one row, a failed one.
  predicate FirstFailed(s: State) {
    |s.jobs| == |s.trials| >= 1 && |RowsOf(s.rows, 0)| == 1 && RowsOf(s.rows, 0)[0].status == RowFailed
  }

  // A failed row may stand beside a trial that Optuna keeps RUNNING for good.
  lemma FailedRowBesideRunning(setup: Setup) returns (events: seq<Event>)
    requires MayAllocate(setup)
    ensures Run(Init(setup), events).Some?
    ensures var s := Run(Init(setup), events).value;
            FirstFailed(s) && s.trials[0].state == Running && !Live(s.jobs[0])
  {
    SwallowingRun();
    hide CellRun;
    events := FirstCellRuns(setup, SWALLOWING);
  }

  // And beside one it holds as COMPLETE.
  lemma FailedRowBesideComplete(setup: Setup) returns (events: seq<Event>)
    requires MayAllocate(setup)
    ensures Run(Init(setup), events).Some?
    ensures var s := Run(Init(setup), events).value;
            FirstFailed(s) && s.trials[0].state == Complete
  {
    UnheardRun();
    hide CellRun;
    events := FirstCellRuns(setup, UNHEARD);
  }
}
