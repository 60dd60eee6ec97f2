// What every run of the trial protocol keeps.
module TrialSafety {
  import opened Common
  import opened TrialProtocol

  // ---------------------------------------------------------------------------
  // One number: its Optuna trial, its job, its rows
  // ---------------------------------------------------------------------------

  // A complete row carries the value and the parameters Optuna holds as COMPLETE.
  predicate MatchesOptuna(r: TrialRow, t: OptunaTrial) {
    r.status == RowComplete ==> t.state == Complete && r.metric == t.value && t.value.Some? && r.params == t.params
  }

  // What the phase of a job says about the trial and the rows.
  predicate PhaseInv(t: OptunaTrial, phase: Phase, written: bool, taken: bool) {
    match phase
    case Unqueued => !written && t.state == Running
    case Checked => !written
    case Reconciling(snap) => !written && snap == t && Finished(t)
    case Executing(snap) => !written && snap == t && t.state == Running
    case Telling(snap, _) => !written && snap == t && t.state == Running
    case Inserting(snap, v) => !written && t.state == Complete && t.value == Some(v) && t.params == snap.params
    case FailTelling(_) => written ==> taken && Finished(t)
    case Returned => written
    case Acked => written
    case _ => true
  }

  // `strict`: the idempotency query never broke, so a row is only written where none was.
  predicate CellInv(strict: bool, n: nat, t: OptunaTrial, job: Job, r: seq<TrialRow>) {
    && (t.state == Complete ==> t.value.Some?)
    && (forall i :: 0 <= i < |r| ==> r[i].number == n == r[i].id.number && r[i].id.attempt <= job.attempt)
    && (forall i :: 0 <= i < |r| ==> MatchesOptuna(r[i], t))
    && (forall i :: 1 <= i < |r| ==> r[i].status == RowFailed)
    && PhaseInv(t, job.phase, r != [], OwnIn(r, n, job))
    && (job.phase.Started? ==> !OwnIn(r, n, job))
    && (strict ==> |r| <= 1 && (job.phase.FailInserting? && r != [] ==> OwnIn(r, n, job)))
  }

  predicate OwnIn(r: seq<TrialRow>, n: nat, job: Job) { Taken(r, TrialId(n, job.attempt)) }

  function Appended(r: seq<TrialRow>, row: Option<TrialRow>): seq<TrialRow> {
    if row.Some? then r + [row.value] else r
  }

  predicate CellAfter(strict: bool, n: nat, e: Option<Effect>, r: seq<TrialRow>) {
    e.Some? ==> CellInv(strict, n, e.value.trial, e.value.job, Appended(r, e.value.row))
  }

  lemma QuietStepKeepsCell(strict: bool, n: nat, t: OptunaTrial, job: Job, r: seq<TrialRow>, a: WorkAction)
    requires CellInv(strict, n, t, job, r)
    requires strict ==> !a.LookupBreaks?
    requires var e := JobStep(n, t, job, r != [], OwnIn(r, n, job), a); e.Some? ==> e.value.row.None?
    ensures CellAfter(strict, n, JobStep(n, t, job, r != [], OwnIn(r, n, job), a), r)
  {
  }

  lemma WritingStepFacts(strict: bool, n: nat, t: OptunaTrial, job: Job, r: seq<TrialRow>, a: WorkAction)
    requires CellInv(strict, n, t, job, r)
    ensures var e := JobStep(n, t, job, r != [], OwnIn(r, n, job), a);
            e.Some? && e.value.row.Some? ==>
              var row := e.value.row.value;
              && row.id == TrialId(n, job.attempt) && row.number == n && MatchesOptuna(row, t)
              && (strict || row.status != RowFailed ==> r == [])
              && e.value.trial == t && e.value.job == job.(phase := e.value.job.phase)
              && (e.value.job.phase in {Returned, Raised} || (e.value.job.phase.FailTelling? && Finished(t)))
  {
  }

  lemma AppendKeepsCell(strict: bool, n: nat, t: OptunaTrial, job: Job, r: seq<TrialRow>, row: TrialRow, phase: Phase)
    requires CellInv(strict, n, t, job, r)
    requires row.id == TrialId(n, job.attempt) && row.number == n && MatchesOptuna(row, t)
    requires strict || row.status != RowFailed ==> r == []
    requires phase in {Returned, Raised} || (phase.FailTelling? && Finished(t))
    ensures CellInv(strict, n, t, job.(phase := phase), r + [row])
  {
    var q := r + [row];
    assert q[|r|] == row;
    assert OwnIn(q, n, job.(phase := phase));
  }

  // Every action of a job keeps what holds of its number.
  lemma JobStepKeepsCell(strict: bool, n: nat, t: OptunaTrial, job: Job, r: seq<TrialRow>, a: WorkAction)
    requires CellInv(strict, n, t, job, r)
    requires strict ==> !a.LookupBreaks?
    ensures CellAfter(strict, n, JobStep(n, t, job, r != [], OwnIn(r, n, job), a), r)
  {
    var e := JobStep(n, t, job, r != [], OwnIn(r, n, job), a);
    if e.Some? && e.value.row.Some? {
      WritingStepFacts(strict, n, t, job, r, a);
      hide JobStep;
      AppendKeepsCell(strict, n, t, job, r, e.value.row.value, e.value.job.phase);
    } else {
      QuietStepKeepsCell(strict, n, t, job, r, a);
    }
  }

  // A terminal Optuna state is entered at most once and never left or edited.
  lemma JobStepKeepsFinished(n: nat, t: OptunaTrial, job: Job, found: bool, taken: bool, a: WorkAction)
    ensures match JobStep(n, t, job, found, taken, a)
            case None => true
            case Some(e) => (Finished(t) ==> e.trial == t) && e.trial.params == t.params && !job.phase.Unqueued?
  {
  }

  // ---------------------------------------------------------------------------
  // All numbers
  // ---------------------------------------------------------------------------

  ghost predicate Strict(s: State) { !s.setup.lookupMayBreak }

  predicate Known(rows: seq<TrialRow>, total: nat) {
    forall i :: 0 <= i < |rows| ==> rows[i].number < total && rows[i].id.number == rows[i].number
  }

  ghost predicate CellOf(s: State, n: nat)
    requires |s.jobs| == |s.trials| && n < |s.trials|
  {
    CellInv(Strict(s), n, s.trials[n], s.jobs[n], RowsOf(s.rows, n))
  }

  ghost predicate Cells(s: State) {
    && |s.jobs| == |s.trials|
    && Known(s.rows, |s.trials|)
    && forall n :: 0 <= n < |s.trials| ==> CellOf(s, n)
  }

  lemma RowsOfAppend(rows: seq<TrialRow>, row: TrialRow, n: nat)
    ensures RowsOf(rows + [row], n) == if row.number == n then RowsOf(rows, n) + [row] else RowsOf(rows, n)
  {
    assert (rows + [row])[..|rows|] == rows;
  }

  lemma {:induction false} RowsOfUnknown(rows: seq<TrialRow>, total: nat, n: nat)
    requires Known(rows, total) && n >= total
    ensures RowsOf(rows, n) == []
  {
    if rows != [] { RowsOfUnknown(rows[..|rows| - 1], total, n); }
  }

  lemma {:induction false} RowsOfHasAll(rows: seq<TrialRow>, i: nat)
    requires i < |rows|
    ensures rows[i] in RowsOf(rows, rows[i].number)
  {
    var last := |rows| - 1;
    if i < last {
      RowsOfHasAll(rows[..last], i);
      assert rows[..last][i] == rows[i];
    }
  }

  // Ids carry their number, so an id is taken only by a row of that number.
  lemma TakenIsLocal(rows: seq<TrialRow>, total: nat, id: TrialId)
    requires Known(rows, total)
    ensures Taken(rows, id) == Taken(RowsOf(rows, id.number), id)
  {
    var own := RowsOf(rows, id.number);
    if Taken(rows, id) {
      var i :| 0 <= i < |rows| && rows[i].id == id;
      RowsOfHasAll(rows, i);
      var k :| 0 <= k < |own| && own[k] == rows[i];
      assert own[k].id == id;
    }
    if Taken(own, id) {
      var k :| 0 <= k < |own| && own[k].id == id;
      var i :| 0 <= i < |rows| && rows[i] == own[k];
      assert rows[i].id == id;
    }
  }

  // A step of the job of number n changes nothing about the others.
  lemma WorkTouchesOneNumber(s: State, n: nat, a: WorkAction)
    requires Cells(s)
    ensures var t := WorkStep(s, n, a);
            t.Some? ==>
              var job := s.jobs[n];
              var e := JobStep(n, s.trials[n], job, RowsOf(s.rows, n) != [], OwnIn(RowsOf(s.rows, n), n, job), a);
              && n < |s.trials| && e.Some?
              && t.value.trials == s.trials[n := e.value.trial] && t.value.jobs == s.jobs[n := e.value.job]
              && t.value.rows == (if e.value.row.Some? then s.rows + [e.value.row.value] else s.rows)
              && (Strict(s) ==> !a.LookupBreaks?) && t.value.setup == s.setup
  {
    if n < |s.trials| { TakenIsLocal(s.rows, |s.trials|, TrialId(n, s.jobs[n].attempt)); }
  }

  lemma WrittenRowIsOwn(n: nat, t: OptunaTrial, job: Job, found: bool, taken: bool, a: WorkAction)
    ensures var e := JobStep(n, t, job, found, taken, a);
            e.Some? && e.value.row.Some? ==> e.value.row.value.number == n == e.value.row.value.id.number
  {
  }

  // One cell replaced by a good one, at most one row of its number added.
  lemma ReplaceKeepsCells(s: State, t: State, n: nat, e: Effect)
    requires Cells(s) && n < |s.trials| && t.setup == s.setup
    requires t.trials == s.trials[n := e.trial] && t.jobs == s.jobs[n := e.job] && t.rows == Appended(s.rows, e.row)
    requires e.row.Some? ==> e.row.value.number == n == e.row.value.id.number
    requires CellInv(Strict(s), n, e.trial, e.job, Appended(RowsOf(s.rows, n), e.row))
    ensures Cells(t)
  {
    hide CellInv;
    forall k | 0 <= k < |t.trials| ensures CellOf(t, k) {
      assert CellOf(s, k);
      if e.row.Some? { RowsOfAppend(s.rows, e.row.value, k); }
    }
  }

  lemma WorkKeepsCells(s: State, n: nat, a: WorkAction)
    requires Cells(s) && WorkStep(s, n, a).Some?
    ensures Cells(WorkStep(s, n, a).value)
  {
    WorkTouchesOneNumber(s, n, a);
    hide WorkStep, JobStep, CellInv;
    var job, r := s.jobs[n], RowsOf(s.rows, n);
    assert CellOf(s, n);
    JobStepKeepsCell(Strict(s), n, s.trials[n], job, r, a);
    WrittenRowIsOwn(n, s.trials[n], job, r != [], OwnIn(r, n, job), a);
    ReplaceKeepsCells(s, WorkStep(s, n, a).value, n, JobStep(n, s.trials[n], job, r != [], OwnIn(r, n, job), a).value);
  }

  lemma SameCells(s: State, t: State)
    requires Cells(s) && t.trials == s.trials && t.jobs == s.jobs && t.rows == s.rows && t.setup == s.setup
    ensures Cells(t)
  {
    hide CellInv;
    forall k | 0 <= k < |t.trials| ensures CellOf(t, k) { assert CellOf(s, k); }
  }

  lemma AskKeepsCells(s: State, t: State)
    requires Cells(s) && t.setup == s.setup && t.rows == s.rows
    requires t.trials == s.trials + [OptunaTrial(Running, None, map[])] && t.jobs == s.jobs + [Job(Unqueued, 0)]
    ensures Cells(t)
  {
    RowsOfUnknown(s.rows, |s.trials|, |s.trials|);
    forall k | 0 <= k < |t.trials| ensures CellOf(t, k) {
      if k < |s.trials| { assert CellOf(s, k); }
    }
  }

  // Parameters are only suggested, and the job only enqueued, while the number is Unqueued.
  lemma UnqueuedKeepsCells(s: State, t: State, n: nat, params: Params, job: Job)
    requires Cells(s) && n < |s.trials| && s.jobs[n].phase.Unqueued? && job in {s.jobs[n], Job(Queued, 0)}
    requires t.setup == s.setup && t.rows == s.rows
    requires t.trials == s.trials[n := s.trials[n].(params := params)] && t.jobs == s.jobs[n := job]
    ensures Cells(t)
  {
    assert CellOf(s, n);
    forall k | 0 <= k < |t.trials| ensures CellOf(t, k) { assert CellOf(s, k); }
  }

  // ---------------------------------------------------------------------------
  // The lock and the two bounds
  // ---------------------------------------------------------------------------

  // Only the lock's owner is between TryLock and Release.
  predicate LockInv(s: State) {
    && (forall o :: 0 <= o < |s.orchs| && HoldsLock(s.orchs[o]) ==> s.lock == Some(o))
    && (s.lock.Some? ==> s.lock.value < |s.orchs| && HoldsLock(s.orchs[s.lock.value]))
  }

  predicate WithinMax(s: State, total: int) { s.setup.maxTrials.Some? ==> total <= s.setup.maxTrials.value }

  // `slots` more trials may be asked for.
  predicate Room(s: State, slots: int) {
    slots > 0 ==> InFlight(s.trials) + slots <= s.setup.parallelism && WithinMax(s, |s.trials| + slots)
  }

  // The counts an orchestrator read earlier are still good enough.
  predicate PcBound(s: State, pc: Pc) {
    match pc
    case Counted(inFlight) => InFlight(s.trials) <= inFlight
    case Filling(slots) => Room(s, slots)
    case Asked(n, left) => Room(s, left) && n + 1 == |s.trials| == |s.jobs| && s.jobs[n].phase == Unqueued && !Finished(s.trials[n])
    case Suggested(n, left) => Room(s, left) && n + 1 == |s.trials| == |s.jobs| && s.jobs[n].phase == Unqueued && !Finished(s.trials[n])
    case _ => true
  }

  predicate Bounded(s: State) {
    && InFlight(s.trials) <= s.setup.parallelism
    && WithinMax(s, |s.trials|)
    && forall o :: 0 <= o < |s.orchs| ==> PcBound(s, s.orchs[o])
  }

  lemma {:induction false} InFlightUpdate(trials: seq<OptunaTrial>, n: nat, t: OptunaTrial)
    requires n < |trials|
    ensures InFlight(trials[n := t]) ==
            InFlight(trials) + (if Finished(t) then 0 else 1) - (if Finished(trials[n]) then 0 else 1)
  {
    var last := |trials| - 1;
    var updated := trials[n := t];
    if n < last {
      InFlightUpdate(trials[..last], n, t);
      assert updated[..last] == trials[..last][n := t];
    } else {
      assert updated[..last] == trials[..last];
    }
  }

  lemma InFlightAppend(trials: seq<OptunaTrial>, t: OptunaTrial)
    ensures InFlight(trials + [t]) == InFlight(trials) + if Finished(t) then 0 else 1
  {
    assert (trials + [t])[..|trials|] == trials;
  }

  // Jobs only ever take trials out of flight, and leave unqueued numbers alone.
  lemma WorkFreesSlots(s: State, n: nat, a: WorkAction)
    requires Cells(s) && WorkStep(s, n, a).Some?
    ensures var t := WorkStep(s, n, a).value;
            && |t.trials| == |s.trials| && InFlight(t.trials) <= InFlight(s.trials)
            && t.setup == s.setup && t.orchs == s.orchs && t.lock == s.lock && t.status == s.status
            && (forall k :: 0 <= k < |s.jobs| && s.jobs[k].phase == Unqueued ==>
                  t.jobs[k] == s.jobs[k] && t.trials[k] == s.trials[k])
  {
    WorkTouchesOneNumber(s, n, a);
    var job := s.jobs[n];
    var e := JobStep(n, s.trials[n], job, RowsOf(s.rows, n) != [], OwnIn(RowsOf(s.rows, n), n, job), a).value;
    JobStepKeepsFinished(n, s.trials[n], job, RowsOf(s.rows, n) != [], OwnIn(RowsOf(s.rows, n), n, job), a);
    hide JobStep;
    InFlightUpdate(s.trials, n, e.trial);
  }

  lemma WorkKeepsBounds(s: State, n: nat, a: WorkAction)
    requires Cells(s) && Bounded(s) && WorkStep(s, n, a).Some?
    ensures Bounded(WorkStep(s, n, a).value)
  {
    WorkFreesSlots(s, n, a);
    hide WorkStep;
    var t := WorkStep(s, n, a).value;
    forall o | 0 <= o < |t.orchs| ensures PcBound(t, t.orchs[o]) { assert PcBound(s, s.orchs[o]); }
  }

  // An orchestrator that goes to a phase outside the lock.
  lemma LeavingKeepsLock(s: State, t: State, o: nat, pc: Pc)
    requires LockInv(s) && o < |s.orchs| && !HoldsLock(pc) && t.orchs == s.orchs[o := pc]
    requires t.lock == if s.lock == Some(o) then None else s.lock
    ensures LockInv(t)
  {
  }

  // The number of trials the rows must reach has been reached.
  predicate Reported(s: State) { s.setup.maxTrials.Some? && |s.rows| >= s.setup.maxTrials.value }

  // The summaries orchestrators hold never exceed the table.
  predicate PcStop(s: State, pc: Pc) {
    match pc
    case Summarised(terminal) => terminal <= |s.rows|
    case FailuresChecked(terminal) => terminal <= |s.rows|
    case ZerosChecked(terminal) => terminal <= |s.rows|
    case Stopping(stop) => stop == MaxTrialsReached ==> Reported(s)
    case _ => true
  }

  predicate StopInv(s: State) {
    && (s.status == Completed(MaxTrialsReached) ==> Reported(s))
    && forall o :: 0 <= o < |s.orchs| ==> PcStop(s, s.orchs[o])
  }

  lemma DecisionStepFacts(s: State, o: nat, act: OrchAction)
    requires o < |s.orchs| && LockInv(s) && StopInv(s) && DecisionStep(s, o, act).Some?
    ensures var t := DecisionStep(s, o, act).value;
            && t.trials == s.trials && t.jobs == s.jobs && t.rows == s.rows && t.setup == s.setup
            && |t.orchs| == |s.orchs| && t.orchs == s.orchs[o := t.orchs[o]] && !HoldsLock(t.orchs[o])
            && t.lock == s.lock && s.lock != Some(o)
            && PcStop(t, t.orchs[o]) && (t.status == Completed(MaxTrialsReached) ==> Reported(t))
  {
  }

  // A move outside the lock.
  lemma OutsideMoveKeepsInv(s: State, t: State, o: nat, pc: Pc)
    requires Inv(s) && o < |s.orchs| && !HoldsLock(s.orchs[o]) && !HoldsLock(pc)
    requires t.trials == s.trials && t.jobs == s.jobs && t.rows == s.rows && t.setup == s.setup
    requires t.orchs == s.orchs[o := pc] && t.lock == s.lock
    requires PcStop(t, pc) && (t.status == Completed(MaxTrialsReached) ==> Reported(t))
    ensures Inv(t)
  {
    SameCells(s, t);
    LeavingKeepsLock(s, t, o, pc);
    hide LockInv, Cells;
    forall p | 0 <= p < |t.orchs| ensures PcBound(t, t.orchs[p]) && PcStop(t, t.orchs[p]) {
      if p != o { assert PcBound(s, s.orchs[p]) && PcStop(s, s.orchs[p]); }
    }
  }

  lemma DecisionKeepsInv(s: State, o: nat, act: OrchAction)
    requires o < |s.orchs| && Inv(s) && DecisionStep(s, o, act).Some?
    ensures Inv(DecisionStep(s, o, act).value)
  {
    DecisionStepFacts(s, o, act);
    var t := DecisionStep(s, o, act).value;
    hide DecisionStep;
    OutsideMoveKeepsInv(s, t, o, t.orchs[o]);
  }

  // The only phase in the lock is the owner's.
  lemma OthersOutside(s: State, o: nat, p: nat)
    requires LockInv(s) && o < |s.orchs| && p < |s.orchs| && p != o && (s.lock == Some(o) || s.lock.None?)
    ensures !HoldsLock(s.orchs[p])
  {
  }

  // Everything the safety argument carries along.
  ghost predicate Inv(s: State) { Cells(s) && LockInv(s) && Bounded(s) && StopInv(s) }

  // A move inside the lock, or out of it.
  lemma MoveKeepsInv(s: State, t: State, o: nat, pc: Pc)
    requires Inv(s) && o < |s.orchs| && (s.lock == Some(o) || s.lock.None?)
    requires Cells(t) && t.setup == s.setup && t.status == s.status && t.rows == s.rows && t.orchs == s.orchs[o := pc]
    requires t.lock == if HoldsLock(pc) then Some(o) else None
    requires PcBound(t, pc) && PcStop(t, pc)
    requires InFlight(t.trials) <= t.setup.parallelism && WithinMax(t, |t.trials|)
    ensures Inv(t)
  {
    hide Cells;
    forall p | 0 <= p < |t.orchs| && p != o
      ensures PcBound(t, t.orchs[p]) && PcStop(t, t.orchs[p]) && !HoldsLock(t.orchs[p])
    {
      OthersOutside(s, o, p);
      assert PcStop(s, s.orchs[p]);
    }
  }

  lemma TryLockKeepsInv(s: State, o: nat)
    requires o < |s.orchs| && Inv(s) && ReplenishStep(s, o, TryLock).Some?
    ensures Inv(ReplenishStep(s, o, TryLock).value)
  {
    var t := ReplenishStep(s, o, TryLock).value;
    if s.lock.None? {
      SameCells(s, t);
      MoveKeepsInv(s, t, o, Locked);
    } else {
      OutsideMoveKeepsInv(s, t, o, Looping);
    }
  }

  // Process death, in the lock or out of it, and restart.
  lemma DeathKeepsInv(s: State, o: nat, act: OrchAction)
    requires o < |s.orchs| && Inv(s) && act in {Die, Restart} && ReplenishStep(s, o, act).Some?
    ensures Inv(ReplenishStep(s, o, act).value)
  {
    var t := ReplenishStep(s, o, act).value;
    if HoldsLock(s.orchs[o]) {
      SameCells(s, t);
      MoveKeepsInv(s, t, o, Exited);
    } else {
      assert s.lock != Some(o);
      OutsideMoveKeepsInv(s, t, o, t.orchs[o]);
    }
  }

  // The two reads: what was counted first still bounds what is counted second.
  lemma ReadsKeepInv(s: State, o: nat, act: OrchAction)
    requires o < |s.orchs| && Inv(s) && act in {ReadInFlight, ReadTotal, Release} && ReplenishStep(s, o, act).Some?
    ensures Inv(ReplenishStep(s, o, act).value)
  {
    var t := ReplenishStep(s, o, act).value;
    assert PcBound(s, s.orchs[o]);
    assert s.lock == Some(o);
    SameCells(s, t);
    MoveKeepsInv(s, t, o, t.orchs[o]);
  }

  lemma AskKeepsInv(s: State, o: nat)
    requires o < |s.orchs| && Inv(s) && ReplenishStep(s, o, Ask).Some?
    ensures Inv(ReplenishStep(s, o, Ask).value)
  {
    var t := ReplenishStep(s, o, Ask).value;
    assert PcBound(s, s.orchs[o]);
    assert s.lock == Some(o);
    AskKeepsCells(s, t);
    InFlightAppend(s.trials, OptunaTrial(Running, None, map[]));
    MoveKeepsInv(s, t, o, t.orchs[o]);
  }

  lemma SuggestKeepsInv(s: State, o: nat, params: Params)
    requires o < |s.orchs| && Inv(s) && ReplenishStep(s, o, Suggest(params)).Some?
    ensures Inv(ReplenishStep(s, o, Suggest(params)).value)
  {
    var t := ReplenishStep(s, o, Suggest(params)).value;
    assert PcBound(s, s.orchs[o]);
    assert s.lock == Some(o);
    var n := s.orchs[o].number;
    UnqueuedKeepsCells(s, t, n, params, s.jobs[n]);
    InFlightUpdate(s.trials, n, t.trials[n]);
    MoveKeepsInv(s, t, o, t.orchs[o]);
  }

  lemma EnqueueKeepsInv(s: State, o: nat, w: Write)
    requires o < |s.orchs| && Inv(s) && ReplenishStep(s, o, Enqueue(w)).Some?
    ensures Inv(ReplenishStep(s, o, Enqueue(w)).value)
  {
    var t := ReplenishStep(s, o, Enqueue(w)).value;
    assert PcBound(s, s.orchs[o]);
    assert s.lock == Some(o);
    var n := s.orchs[o].number;
    assert t.trials == s.trials[n := s.trials[n].(params := s.trials[n].params)];
    UnqueuedKeepsCells(s, t, n, s.trials[n].params, t.jobs[n]);
    MoveKeepsInv(s, t, o, t.orchs[o]);
  }

  lemma ReplenishKeepsInv(s: State, o: nat, act: OrchAction)
    requires o < |s.orchs| && Inv(s) && ReplenishStep(s, o, act).Some?
    ensures Inv(ReplenishStep(s, o, act).value)
  {
    hide Inv;
    match act
    case TryLock => TryLockKeepsInv(s, o);
    case Ask => AskKeepsInv(s, o);
    case Suggest(params) => SuggestKeepsInv(s, o, params);
    case Enqueue(w) => EnqueueKeepsInv(s, o, w);
    case Die => DeathKeepsInv(s, o, act);
    case Restart => DeathKeepsInv(s, o, act);
    case _ => ReadsKeepInv(s, o, act);
  }

  lemma WorkRowsGrow(s: State, n: nat, a: WorkAction)
    requires Cells(s) && WorkStep(s, n, a).Some?
    ensures |s.rows| <= |WorkStep(s, n, a).value.rows| && s.rows <= WorkStep(s, n, a).value.rows
  {
    WorkTouchesOneNumber(s, n, a);
  }

  lemma WorkKeepsInv(s: State, n: nat, a: WorkAction)
    requires Inv(s) && WorkStep(s, n, a).Some?
    ensures Inv(WorkStep(s, n, a).value)
  {
    WorkKeepsCells(s, n, a);
    WorkKeepsBounds(s, n, a);
    WorkFreesSlots(s, n, a);
    WorkRowsGrow(s, n, a);
    hide WorkStep, Cells, Bounded;
    var t := WorkStep(s, n, a).value;
    forall o | 0 <= o < |t.orchs| ensures PcStop(t, t.orchs[o]) { assert PcStop(s, s.orchs[o]); }
  }

  lemma SpawnKeepsInv(s: State)
    requires Inv(s)
    ensures Inv(s.(orchs := s.orchs + [Entering]))
  {
    var t := s.(orchs := s.orchs + [Entering]);
    SameCells(s, t);
    hide Cells;
    forall o | 0 <= o < |t.orchs|
      ensures PcBound(t, t.orchs[o]) && PcStop(t, t.orchs[o]) && (HoldsLock(t.orchs[o]) ==> t.lock == Some(o))
    {
      if o < |s.orchs| { assert PcBound(s, s.orchs[o]) && PcStop(s, s.orchs[o]); }
    }
  }

  lemma CancelKeepsInv(s: State)
    requires Inv(s)
    ensures Inv(s.(status := Cancelled))
  {
    var t := s.(status := Cancelled);
    SameCells(s, t);
    hide Cells;
    forall o | 0 <= o < |t.orchs| ensures PcBound(t, t.orchs[o]) && PcStop(t, t.orchs[o]) {
      assert PcBound(s, s.orchs[o]) && PcStop(s, s.orchs[o]);
    }
  }

  lemma StepKeepsInv(s: State, e: Event)
    requires |s.jobs| == |s.trials| && Inv(s) && Step(s, e).Some?
    ensures Inv(Step(s, e).value)
  {
    hide Inv;
    match e
    case Spawn => SpawnKeepsInv(s);
    case Cancel => CancelKeepsInv(s);
    case Work(n, a) => WorkKeepsInv(s, n, a);
    case Orch(o, act) =>
      if DecisionStep(s, o, act).Some? { DecisionKeepsInv(s, o, act); } else { ReplenishKeepsInv(s, o, act); }
  }

  lemma {:induction false} RunKeepsInv(s: State, events: seq<Event>)
    requires |s.jobs| == |s.trials| && Inv(s) && Run(s, events).Some?
    ensures Inv(Run(s, events).value)
    decreases |events|
  {
    hide Step, Inv;
    if events != [] {
      RunKeepsInv(s, events[..|events| - 1]);
      StepKeepsInv(Run(s, events[..|events| - 1]).value, events[|events| - 1]);
    }
  }

  lemma InitInv(setup: Setup)
    ensures Inv(Init(setup))
  {
  }
}
