// The trial protocol of a study as a state machine: orchestrators that allocate Optuna
// numbers under a lock and stop the study, and jobs that execute a number, tell Optuna and
// insert the app row. Every commit, tell, ask and enqueue is a step of its own, and so is
// every crash and redelivery.
module TrialProtocol {
  import opened Common

  // ---------------------------------------------------------------------------
  // The two stores
  // ---------------------------------------------------------------------------

  type Params = map<string, string>

  datatype TrialState = Running | Complete | Fail | Pruned

  datatype OptunaTrial = OptunaTrial(state: TrialState, value: Option<real>, params: Params)

  predicate Finished(t: OptunaTrial) { t.state != Running }

  // The uuid an execution draws: no two executions share one.
  datatype TrialId = TrialId(number: nat, attempt: nat)

  datatype RowStatus = RowComplete | RowFailed | RowPruned

  datatype TrialRow = TrialRow(id: TrialId, number: nat, status: RowStatus, metric: Option<real>, params: Params)

  // The rows of one number, in insertion order.
  function RowsOf(rows: seq<TrialRow>, n: nat): (r: seq<TrialRow>)
    ensures |r| <= |rows|
    ensures forall i :: 0 <= i < |r| ==> r[i].number == n && r[i] in rows
  {
    if rows == [] then []
    else
      var init := RowsOf(rows[..|rows| - 1], n);
      if rows[|rows| - 1].number == n then init + [rows[|rows| - 1]] else init
  }

  // ---------------------------------------------------------------------------
  // Jobs
  // ---------------------------------------------------------------------------

  // Where the job of a number is. The phases from Started to FailInserting are the points
  // between two effects of one execution, with the local variables still needed.
  datatype Phase =
    | Unqueued
    | Queued
    | Started
    | Checked
    | Reconciling(snap: OptunaTrial)
    | Executing(snap: OptunaTrial)
    | Telling(snap: OptunaTrial, result: real)
    | Inserting(snap: OptunaTrial, result: real)
    | FailTelling(seen: Params)
    | FailInserting(seen: Params)
    | Returned
    | Raised
    | Acked
    | Abandoned

  datatype Job = Job(phase: Phase, attempt: nat)

  // A job that may still be executed (again).
  predicate Live(j: Job) { j.phase !in {Unqueued, Acked, Abandoned} }

  // How a write to a store ends: normally, with an error and no effect, or with an error
  // although the effect is durable.
  datatype Write = Done | Lost | LandedButRaised

  // `operational` says whether the error is an OperationalError, which is re-raised at once.
  datatype WorkAction =
    | Deliver
    | Lookup
    | LookupDown
    | LookupBreaks
    | Load
    | LoadDown
    | LoadBreaks
    | Reconcile(w: Write, operational: bool)
    | Execute(v: real)
    | ExecuteDown
    | ExecuteFails
    | Tell(w: Write, operational: bool)
    | TellFail(applied: bool)
    | Insert(w: Write)
    | FailInsert(w: Write)
    | Ack
    | Crash
    | GiveUp

  // What one action of a job changes: the job, its Optuna trial, and possibly a new row.
  datatype Effect = Effect(job: Job, trial: OptunaTrial, row: Option<TrialRow>)

  // `_reconstruct_from_optuna`.
  function ReconstructedRow(id: TrialId, n: nat, snap: OptunaTrial): (r: TrialRow)
    requires Finished(snap)
    ensures r.params == snap.params
  {
    match snap.state
    case Complete => TrialRow(id, n, RowComplete, snap.value, snap.params)
    case Fail => TrialRow(id, n, RowFailed, None, snap.params)
    case Pruned => TrialRow(id, n, RowPruned, snap.value, snap.params)
  }

  // The row a write leaves behind; an id that is taken violates the primary key.
  function Written(row: TrialRow, w: Write, taken: bool): Option<TrialRow> {
    if taken || w == Lost then None else Some(row)
  }

  predicate Raises(w: Write, taken: bool) { taken || w != Done }

  // One action of the job of number n. `found` is the answer of the idempotency query and
  // `taken` whether the execution's own id is already in the table.
  function JobStep(n: nat, t: OptunaTrial, job: Job, found: bool, taken: bool, a: WorkAction): Option<Effect> {
    var id := TrialId(n, job.attempt);
    var next := (p: Phase) => Some(Effect(job.(phase := p), t, None));
    match a
    case Deliver => if job.phase == Queued then Some(Effect(Job(Started, job.attempt + 1), t, None)) else None
    case Lookup => if job.phase == Started then next(if found then Returned else Checked) else None
    case LookupDown => if job.phase == Started then next(Raised) else None
    // The study object is not bound yet: the failure path's tell only raises.
    case LookupBreaks => if job.phase == Started then next(FailInserting(map[])) else None
    case Load =>
      if job.phase == Checked then next(if Finished(t) then Reconciling(t) else Executing(t)) else None
    case LoadDown => if job.phase == Checked then next(Raised) else None
    case LoadBreaks => if job.phase == Checked then next(FailTelling(map[])) else None
    case Reconcile(w, operational) =>
      if job.phase.Reconciling? && Finished(job.phase.snap) then
        var row := Written(ReconstructedRow(id, n, job.phase.snap), w, taken);
        var phase := if !Raises(w, taken) then Returned
                     else if operational then Raised else FailTelling(job.phase.snap.params);
        Some(Effect(job.(phase := phase), t, row))
      else None
    case Execute(v) => if job.phase.Executing? then next(Telling(job.phase.snap, v)) else None
    case ExecuteDown => if job.phase.Executing? then next(Raised) else None
    case ExecuteFails => if job.phase.Executing? then next(FailTelling(job.phase.snap.params)) else None
    case Tell(w, operational) =>
      if job.phase.Telling? then
        var applied := w != Lost && !Finished(t);
        var t' := if applied then t.(state := Complete, value := Some(job.phase.result)) else t;
        var phase := if w == Done && applied then Inserting(job.phase.snap, job.phase.result)
                     else if operational && w != Done then Raised else FailTelling(job.phase.snap.params);
        Some(Effect(job.(phase := phase), t', None))
      else None
    case TellFail(applied) =>
      if job.phase.FailTelling? then
        Some(Effect(job.(phase := FailInserting(job.phase.seen)),
                    if applied && !Finished(t) then t.(state := Fail) else t, None))
      else None
    case Insert(w) =>
      if job.phase.Inserting? then
        var row := TrialRow(id, n, RowComplete, Some(job.phase.result), job.phase.snap.params);
        Some(Effect(job.(phase := if Raises(w, taken) then Raised else Returned), t, Written(row, w, taken)))
      else None
    case FailInsert(w) =>
      if job.phase.FailInserting? then
        var row := TrialRow(id, n, RowFailed, None, job.phase.seen);
        Some(Effect(job.(phase := if Raises(w, taken) then Raised else Returned), t, Written(row, w, taken)))
      else None
    case Ack => if job.phase == Returned then next(Acked) else None
    case Crash => if Live(job) then next(Queued) else None
    case GiveUp => if Live(job) then next(Abandoned) else None
  }

  // ---------------------------------------------------------------------------
  // Orchestrators
  // ---------------------------------------------------------------------------

  datatype FailReason = ConsecutiveFailures | NoSignal

  datatype StopReason = MaxTrialsReached | TimeBudgetExceeded

  datatype Status = Pending | Active | Completed(stop: StopReason) | FailedStudy(why: FailReason) | Cancelled

  // Where an orchestrator is; the phases from Locked to Suggested hold the lock.
  datatype Pc =
    | Entering
    | Looping
    | StatusRead
    | Summarised(terminal: nat)
    | FailuresChecked(terminal: nat)
    | ZerosChecked(terminal: nat)
    | FailingStudy(why: FailReason)
    | Stopping(stop: StopReason)
    | BeforeLock
    | Locked
    | Counted(inFlight: nat)
    | Filling(slots: int)
    | Asked(number: nat, left: int)
    | Suggested(number: nat, left: int)
    | Exited

  predicate HoldsLock(pc: Pc) {
    pc.Locked? || pc.Counted? || pc.Filling? || pc.Asked? || pc.Suggested?
  }

  datatype OrchAction =
    | Enter
    | ReadStatus
    | ReadSummary
    | CheckFailures
    | CheckZeros
    | FailStudy
    | Decide(budgetSpent: bool)
    | CompleteStudy
    | TryLock
    | ReadInFlight
    | ReadTotal
    | Ask
    | Suggest(params: Params)
    | Enqueue(w: Write)
    | Release
    | Die
    | Restart

  const CONSECUTIVE_FAILURE_THRESHOLD := 5
  const ZERO_STREAK_THRESHOLD := 20

  // ORDER BY optuna_trial_number DESC.
  function NewestFirst(rows: seq<TrialRow>): (r: seq<TrialRow>)
    ensures |r| == |rows|
  {
    if rows == [] then [] else Place(NewestFirst(rows[..|rows| - 1]), rows[|rows| - 1])
  }

  function Place(sorted: seq<TrialRow>, row: TrialRow): (r: seq<TrialRow>)
    ensures |r| == |sorted| + 1
  {
    if sorted == [] || row.number >= sorted[0].number then [row] + sorted
    else [sorted[0]] + Place(sorted[1..], row)
  }

  predicate LastNAllFailed(rows: seq<TrialRow>, n: nat) {
    |rows| >= n && forall i :: 0 <= i < n ==> NewestFirst(rows)[i].status == RowFailed
  }

  predicate ScoredZero(r: TrialRow) { r.status == RowComplete && r.metric == Some(0.0) }

  predicate LastNAllZero(rows: seq<TrialRow>, n: nat) {
    |rows| >= n && forall i :: 0 <= i < n ==> ScoredZero(NewestFirst(rows)[i])
  }

  // Optuna trials allocated and not finished.
  function InFlight(trials: seq<OptunaTrial>): (k: nat)
    ensures k <= |trials|
  {
    if trials == [] then 0
    else InFlight(trials[..|trials| - 1]) + if Finished(trials[|trials| - 1]) then 0 else 1
  }

  // ---------------------------------------------------------------------------
  // The whole system
  // ---------------------------------------------------------------------------

  // `lookupMayBreak`: whether the study and idempotency queries may raise something other
  // than an OperationalError.
  datatype Setup = Setup(parallelism: nat, maxTrials: Option<nat>, hasBudget: bool, lookupMayBreak: bool)

  // jobs[n] is the job of Optuna number n.
  datatype State = State(
    setup: Setup,
    status: Status,
    trials: seq<OptunaTrial>,
    jobs: seq<Job>,
    rows: seq<TrialRow>,
    orchs: seq<Pc>,
    lock: Option<nat>)

  function Init(setup: Setup): State { State(setup, Pending, [], [], [], [], None) }

  function SlotsOpen(setup: Setup, inFlight: nat, total: nat): int {
    var free := setup.parallelism - inFlight;
    if setup.maxTrials.None? then free else Min(free, setup.maxTrials.value - total)
  }

  datatype Event = Spawn | Cancel | Orch(o: nat, act: OrchAction) | Work(n: nat, a: WorkAction)

  predicate Taken(rows: seq<TrialRow>, id: TrialId) {
    exists i :: 0 <= i < |rows| && rows[i].id == id
  }

  function WorkStep(s: State, n: nat, a: WorkAction): Option<State>
    requires |s.jobs| == |s.trials|
  {
    if n >= |s.trials| || (a.LookupBreaks? && !s.setup.lookupMayBreak) then None
    else
      var job := s.jobs[n];
      match JobStep(n, s.trials[n], job, RowsOf(s.rows, n) != [], Taken(s.rows, TrialId(n, job.attempt)), a)
      case None => None
      case Some(e) =>
        Some(s.(jobs := s.jobs[n := e.job],
                trials := s.trials[n := e.trial],
                rows := if e.row.Some? then s.rows + [e.row.value] else s.rows))
  }

  function Moved(s: State, o: nat, pc: Pc): Option<State>
    requires o < |s.orchs|
  {
    Some(s.(orchs := s.orchs[o := pc]))
  }

  // The transaction-scoped lock goes when the tick ends or its process dies.
  function Unlocked(s: State, o: nat): State {
    if s.lock == Some(o) then s.(lock := None) else s
  }

  // The entry transition and the stop decisions of one tick.
  function DecisionStep(s: State, o: nat, act: OrchAction): Option<State>
    requires o < |s.orchs|
  {
    var pc := s.orchs[o];
    match act
    case Enter =>
      if !pc.Entering? then None
      else if s.status.Pending? || s.status.Active? then Moved(s.(status := Active), o, Looping)
      else Moved(s, o, Exited)
    case ReadStatus => if pc.Looping? then Moved(s, o, if s.status.Active? then StatusRead else Exited) else None
    case ReadSummary => if pc.StatusRead? then Moved(s, o, Summarised(|s.rows|)) else None
    case CheckFailures =>
      if pc.Summarised? then
        Moved(s, o, if LastNAllFailed(s.rows, CONSECUTIVE_FAILURE_THRESHOLD)
              then FailingStudy(ConsecutiveFailures) else FailuresChecked(pc.terminal))
      else None
    case CheckZeros =>
      if pc.FailuresChecked? then
        Moved(s, o, if LastNAllZero(s.rows, ZERO_STREAK_THRESHOLD)
              then FailingStudy(NoSignal) else ZerosChecked(pc.terminal))
      else None
    case FailStudy =>
      if pc.FailingStudy? then
        Moved(if s.status.Active? then s.(status := FailedStudy(pc.why)) else s, o, Exited)
      else None
    case Decide(budgetSpent) =>
      if pc.ZerosChecked? then
        Moved(s, o, if s.setup.maxTrials.Some? && pc.terminal >= s.setup.maxTrials.value then Stopping(MaxTrialsReached)
              else if s.setup.hasBudget && budgetSpent then Stopping(TimeBudgetExceeded)
              else BeforeLock)
      else None
    case CompleteStudy =>
      if pc.Stopping? then
        Moved(if s.status.Active? then s.(status := Completed(pc.stop)) else s, o, Exited)
      else None
    case _ => None
  }

  // Replenishment under the lock, and the death and restart of the process.
  function ReplenishStep(s: State, o: nat, act: OrchAction): Option<State>
    requires o < |s.orchs| && |s.jobs| == |s.trials|
  {
    var pc := s.orchs[o];
    match act
    case TryLock =>
      if !pc.BeforeLock? then None
      else if s.lock.None? then Moved(s.(lock := Some(o)), o, Locked)
      else Moved(s, o, Looping)
    case ReadInFlight => if pc.Locked? then Moved(s, o, Counted(InFlight(s.trials))) else None
    case ReadTotal =>
      if pc.Counted? then Moved(s, o, Filling(SlotsOpen(s.setup, pc.inFlight, |s.trials|))) else None
    case Ask =>
      if pc.Filling? && pc.slots > 0 then
        Moved(s.(trials := s.trials + [OptunaTrial(Running, None, map[])], jobs := s.jobs + [Job(Unqueued, 0)]),
              o, Asked(|s.trials|, pc.slots - 1))
      else None
    case Suggest(params) =>
      if pc.Asked? && pc.number < |s.trials| && !Finished(s.trials[pc.number]) then
        Moved(s.(trials := s.trials[pc.number := s.trials[pc.number].(params := params)]), o, Suggested(pc.number, pc.left))
      else None
    case Enqueue(w) =>
      if pc.Suggested? && pc.number < |s.jobs| && s.jobs[pc.number].phase.Unqueued? then
        var t := if w == Lost then s else s.(jobs := s.jobs[pc.number := Job(Queued, 0)]);
        if w == Done then Moved(t, o, Filling(pc.left)) else Moved(Unlocked(t, o), o, Exited)
      else None
    case Release => if pc.Filling? && pc.slots <= 0 then Moved(Unlocked(s, o), o, Looping) else None
    case Die => if pc.Exited? then None else Moved(Unlocked(s, o), o, Exited)
    case Restart => if pc.Exited? then Moved(s, o, Entering) else None
    case _ => None
  }

  // None when the event cannot happen in this state.
  function Step(s: State, e: Event): Option<State>
    requires |s.jobs| == |s.trials|
  {
    match e
    case Spawn => Some(s.(orchs := s.orchs + [Entering]))
    case Cancel => if s.status.Pending? || s.status.Active? then Some(s.(status := Cancelled)) else None
    case Work(n, a) => WorkStep(s, n, a)
    case Orch(o, act) =>
      if o >= |s.orchs| then None
      else
        match DecisionStep(s, o, act)
        case Some(t) => Some(t)
        case None => ReplenishStep(s, o, act)
  }

  lemma StepKeepsShape(s: State, e: Event)
    requires |s.jobs| == |s.trials|
    ensures Step(s, e).Some? ==> |Step(s, e).value.jobs| == |Step(s, e).value.trials| && Step(s, e).value.setup == s.setup
  {
  }

  // The state a sequence of events leads to.
  function Run(s: State, events: seq<Event>): (r: Option<State>)
    requires |s.jobs| == |s.trials|
    ensures r.Some? ==> |r.value.jobs| == |r.value.trials| && r.value.setup == s.setup
    decreases |events|
  {
    if events == [] then Some(s)
    else
      match Run(s, events[..|events| - 1])
      case None => None
      case Some(t) => StepKeepsShape(t, events[|events| - 1]); Step(t, events[|events| - 1])
  }

  lemma {:induction false} RunsCompose(s: State, a: seq<Event>, b: seq<Event>)
    requires |s.jobs| == |s.trials|
    requires Run(s, a).Some?
    ensures Run(s, a + b) == Run(Run(s, a).value, b)
    decreases |b|
  {
    hide Step;
    if b == [] {
      assert a + b == a;
    } else {
      var c, last := a + b, |b| - 1;
      RunsCompose(s, a, b[..last]);
      assert c[..|c| - 1] == a + b[..last] && c[|c| - 1] == b[last];
    }
  }
}
