// The baseline trial of a study: one off-band execution per enqueued job, a partial unique
// index on complete rows, and three places that stamp the study with the winner.
module BaselineProtocol {
  import opened Common

  datatype BaselineRow = BaselineRow(id: nat, status: RowStatus)

  datatype RowStatus = CompleteRow(metric: real) | FailedRow

  // studies.baseline_trial_id and studies.baseline_metric
  datatype Stamp = Stamp(id: nat, metric: real)

  // Where one execution of the job is, between two effects.
  datatype Phase =
    | Queued
    | Started
    | Evaluating
    | Inserting(metric: real)
    | Stamping(metric: real)
    | FailInserting
    | Returned
    | Raised
    | Kept
    | Gone

  // The trial id is drawn by the orchestrator that enqueues the job. Once the job is done or
  // given up, the queue keeps its result for a while, and then forgets it.
  datatype Job = Job(id: nat, phase: Phase)

  // How a call ends: normally, with an OperationalError, or with another exception; in the
  // last two cases with or without a durable effect.
  datatype Write = Done | Down(landed: bool) | Breaks(landed: bool)

  predicate Lands(w: Write) { w.Done? || w.landed }

  datatype WorkAction =
    | Deliver
    | Check(w: Write)
    | Evaluate(v: real)
    | EvaluateFails
    | EvaluateDown
    | Insert(w: Write)
    | StampRow(w: Write)
    | FailInsert(w: Write)
    | Ack
    | Crash
    | GiveUp
    | Expire

  // Where an orchestrator's baseline phase is.
  datatype Pc =
    | Entering
    | StampRead
    | Enqueuing
    | WaitingById(id: nat)
    | WaitingByStudy
    | StampingFor(id: nat, metric: real)
    | Through

  // `pick` is the row a LIMIT 1 query without ORDER BY happens to return.
  datatype OrchAction =
    | ReadStamp
    | ReadRow(pick: nat)
    | Enqueue(resolved: bool)
    | SeeById(pick: nat)
    | SeeByStudy(pick: nat)
    | TimeOut
    | StampFor(w: Write)
    | Die

  datatype State = State(rows: seq<BaselineRow>, stamp: Option<Stamp>, jobs: seq<Job>, orchs: seq<Pc>, nextId: nat)

  const INIT := State([], None, [], [], 0)

  predicate HasId(rows: seq<BaselineRow>, id: nat) {
    exists i :: 0 <= i < |rows| && rows[i].id == id
  }

  predicate HasComplete(rows: seq<BaselineRow>, id: nat, metric: real) {
    exists i :: 0 <= i < |rows| && rows[i] == BaselineRow(id, CompleteRow(metric))
  }

  predicate AnyComplete(rows: seq<BaselineRow>) {
    exists i :: 0 <= i < |rows| && rows[i].status.CompleteRow?
  }

  // The row of an id; the primary key makes it the only one.
  function Find(rows: seq<BaselineRow>, id: nat): (r: Option<RowStatus>)
    ensures r.None? <==> !HasId(rows, id)
    ensures r.Some? ==> exists i :: 0 <= i < |rows| && rows[i] == BaselineRow(id, r.value)
  {
    if rows == [] then None
    else if rows[|rows| - 1].id == id then Some(rows[|rows| - 1].status)
    else
      assert forall i :: 0 <= i < |rows| - 1 ==> rows[..|rows| - 1][i] == rows[i];
      Find(rows[..|rows| - 1], id)
  }

  // The INSERT is refused by the primary key, or by the partial unique index on complete rows.
  predicate Refused(rows: seq<BaselineRow>, row: BaselineRow) {
    HasId(rows, row.id) || (row.status.CompleteRow? && AnyComplete(rows))
  }

  // `stamp_baseline_trial`: the UPDATE only takes effect on an unstamped study.
  function Stamped(stamp: Option<Stamp>, id: nat, metric: real): Option<Stamp> {
    if stamp.None? then Some(Stamp(id, metric)) else stamp
  }

  // Its preconditions: the row is there and complete.
  predicate Stampable(rows: seq<BaselineRow>, id: nat) {
    Find(rows, id).Some? && Find(rows, id).value.CompleteRow?
  }

  predicate Live(p: Phase) { !p.Kept? && !p.Gone? }

  // The job id of a study is refused while one of its jobs is pending or its result is kept.
  predicate JobKnown(s: State) {
    exists j :: 0 <= j < |s.jobs| && !s.jobs[j].phase.Gone?
  }

  function Moved(s: State, j: nat, phase: Phase): Option<State>
    requires j < |s.jobs|
  {
    Some(s.(jobs := s.jobs[j := s.jobs[j].(phase := phase)]))
  }

  // The phase after a call that may fail: OperationalError is re-raised, everything else ends
  // in the failure path.
  function AfterCall(w: Write, ok: Phase): Phase {
    match w case Done => ok case Down(_) => Raised case Breaks(_) => FailInserting
  }

  function WorkStep(s: State, j: nat, a: WorkAction): Option<State>
    requires j < |s.jobs|
  {
    var Job(id, phase) := s.jobs[j];
    match a
    case Deliver => if phase.Queued? then Moved(s, j, Started) else None
    case Check(w) =>
      if !phase.Started? then None
      else
        var found := Find(s.rows, id);
        Moved(s, j, AfterCall(w, if found.None? then Evaluating
                              else if found.value.CompleteRow? then Stamping(found.value.metric) else Returned))
    case Evaluate(v) => if phase.Evaluating? then Moved(s, j, Inserting(v)) else None
    case EvaluateFails => if phase.Evaluating? then Moved(s, j, FailInserting) else None
    case EvaluateDown => if phase.Evaluating? then Moved(s, j, Raised) else None
    case Insert(w) =>
      if !phase.Inserting? then None
      else
        var row := BaselineRow(id, CompleteRow(phase.metric));
        if Refused(s.rows, row) then Moved(s, j, Returned)
        else Moved(if Lands(w) then s.(rows := s.rows + [row]) else s, j, AfterCall(w, Stamping(phase.metric)))
    case StampRow(w) =>
      if !phase.Stamping? then None
      else if !Stampable(s.rows, id) then Moved(s, j, Returned)
      else Moved(if Lands(w) then s.(stamp := Stamped(s.stamp, id, phase.metric)) else s, j, AfterCall(w, Returned))
    case FailInsert(w) =>
      if !phase.FailInserting? then None
      else
        var row := BaselineRow(id, FailedRow);
        if Refused(s.rows, row) then Moved(s, j, Returned)
        else Moved(if Lands(w) then s.(rows := s.rows + [row]) else s, j, if w.Done? then Returned else Raised)
    case Ack => if phase.Returned? then Moved(s, j, Kept) else None
    case Crash => if Live(phase) then Moved(s, j, Queued) else None
    case GiveUp => if Live(phase) then Moved(s, j, Kept) else None
    case Expire => if phase.Kept? then Moved(s, j, Gone) else None
  }

  function At(s: State, o: nat, pc: Pc): Option<State>
    requires o < |s.orchs|
  {
    Some(s.(orchs := s.orchs[o := pc]))
  }

  // What a terminal row leads an orchestrator to.
  function Seen(row: BaselineRow): Pc {
    match row.status case CompleteRow(metric) => StampingFor(row.id, metric) case FailedRow => Through
  }

  function OrchStep(s: State, o: nat, a: OrchAction): Option<State>
    requires o < |s.orchs|
  {
    var pc := s.orchs[o];
    match a
    case ReadStamp => if pc.Entering? then At(s, o, if s.stamp.Some? then Through else StampRead) else None
    case ReadRow(pick) =>
      if !pc.StampRead? then None
      else if s.rows == [] then At(s, o, Enqueuing)
      else if pick < |s.rows| then At(s, o, Seen(s.rows[pick]))
      else None
    case Enqueue(resolved) =>
      if !pc.Enqueuing? then None
      else if !resolved then At(s, o, Through)
      else if JobKnown(s) then At(s.(nextId := s.nextId + 1), o, WaitingByStudy)
      else At(s.(nextId := s.nextId + 1, jobs := s.jobs + [Job(s.nextId, Queued)]), o, WaitingById(s.nextId))
    case SeeById(pick) =>
      if pc.WaitingById? && pick < |s.rows| && s.rows[pick].id == pc.id then At(s, o, Seen(s.rows[pick])) else None
    case SeeByStudy(pick) =>
      if pc.WaitingByStudy? && pick < |s.rows| then At(s, o, Seen(s.rows[pick])) else None
    case TimeOut => if pc.WaitingById? || pc.WaitingByStudy? then At(s, o, Through) else None
    case StampFor(w) =>
      if !pc.StampingFor? then None
      else if !Stampable(s.rows, pc.id) then At(s, o, Through)
      else At(if Lands(w) then s.(stamp := Stamped(s.stamp, pc.id, pc.metric)) else s, o, Through)
    case Die => if pc.Through? then None else At(s, o, Through)
  }

  datatype Event = Resume | Work(j: nat, a: WorkAction) | Orch(o: nat, act: OrchAction)

  // Resume: an orchestrator job for the study starts (again).
  function Step(s: State, e: Event): Option<State> {
    match e
    case Resume => Some(s.(orchs := s.orchs + [Entering]))
    case Work(j, a) => if j < |s.jobs| then WorkStep(s, j, a) else None
    case Orch(o, act) => if o < |s.orchs| then OrchStep(s, o, act) else None
  }

  function Run(s: State, events: seq<Event>): Option<State>
    decreases |events|
  {
    if events == [] then Some(s)
    else
      match Run(s, events[..|events| - 1])
      case None => None
      case Some(t) => Step(t, events[|events| - 1])
  }

  lemma {:induction false} RunsCompose(s: State, a: seq<Event>, b: seq<Event>)
    requires Run(s, a).Some?
    ensures Run(s, a + b) == Run(Run(s, a).value, b)
    decreases |b|
  {
    hide Step;
    if b == [] {
      assert a + b == a;
    } else {
      var c, last := a + b, |b| - 1;
      RunsCompose(s, a, b[..last]);
      assert c[..|c| - 1] == a + b[..last] && c[|c| - 1] == b[last];
    }
  }

  lemma RunOne(s: State, e: Event)
    ensures Run(s, [e]) == Step(s, e)
  {
    assert [e][..0] == [];
  }

  lemma RunSnoc(s: State, events: seq<Event>, t: State, e: Event, u: State) returns (more: seq<Event>)
    requires Run(s, events) == Some(t) && Step(t, e) == Some(u)
    ensures more == events + [e] && Run(s, more) == Some(u)
  {
    more := events + [e];
    assert more[..|more| - 1] == events;
  }

  // ---------------------------------------------------------------------------
  // What every run keeps
  // ---------------------------------------------------------------------------

  predicate UniqueIds(rows: seq<BaselineRow>) {
    forall i, j :: 0 <= i < j < |rows| ==> rows[i].id != rows[j].id
  }

  predicate OneComplete(rows: seq<BaselineRow>) {
    forall i, j :: 0 <= i < j < |rows| ==> !(rows[i].status.CompleteRow? && rows[j].status.CompleteRow?)
  }

  predicate JobInv(rows: seq<BaselineRow>, nextId: nat, job: Job) {
    job.id < nextId && (job.phase.Stamping? ==> HasComplete(rows, job.id, job.phase.metric))
  }

  predicate OrchInv(rows: seq<BaselineRow>, pc: Pc) {
    pc.StampingFor? ==> HasComplete(rows, pc.id, pc.metric)
  }

  predicate Inv(s: State) {
    && UniqueIds(s.rows) && OneComplete(s.rows)
    && (s.stamp.Some? ==> HasComplete(s.rows, s.stamp.value.id, s.stamp.value.metric))
    && (forall j :: 0 <= j < |s.jobs| ==> JobInv(s.rows, s.nextId, s.jobs[j]))
    && (forall o :: 0 <= o < |s.orchs| ==> OrchInv(s.rows, s.orchs[o]))
    && (forall i, j :: 0 <= i < j < |s.jobs| ==> s.jobs[i].id != s.jobs[j].id)
  }

  lemma AppendKeepsTable(rows: seq<BaselineRow>, row: BaselineRow)
    requires UniqueIds(rows) && OneComplete(rows) && !Refused(rows, row)
    ensures UniqueIds(rows + [row]) && OneComplete(rows + [row])
  {
  }

  lemma AppendKeepsComplete(rows: seq<BaselineRow>, row: BaselineRow, id: nat, metric: real)
    requires HasComplete(rows, id, metric)
    ensures HasComplete(rows + [row], id, metric)
  {
    var i :| 0 <= i < |rows| && rows[i] == BaselineRow(id, CompleteRow(metric));
    assert (rows + [row])[i] == rows[i];
  }

  // What a step of a job may do: append a row that is not refused, stamp what it may stamp.
  lemma WorkStepShape(s: State, j: nat, a: WorkAction)
    requires j < |s.jobs| && Inv(s) && WorkStep(s, j, a).Some?
    ensures var t := WorkStep(s, j, a).value;
            && t.orchs == s.orchs && t.nextId == s.nextId
            && t.jobs == s.jobs[j := s.jobs[j].(phase := t.jobs[j].phase)]
            && (t.stamp == s.stamp || (s.stamp.None? && s.jobs[j].phase.Stamping? &&
                                       t.stamp == Some(Stamp(s.jobs[j].id, s.jobs[j].phase.metric))))
            && (t.rows == s.rows || (exists row :: !Refused(s.rows, row) && row.id == s.jobs[j].id && t.rows == s.rows + [row]))
            && (t.jobs[j].phase.Stamping? ==> HasComplete(t.rows, s.jobs[j].id, t.jobs[j].phase.metric))
  {
    var Job(id, phase) := s.jobs[j];
    assert JobInv(s.rows, s.nextId, s.jobs[j]);
    if a.Insert? && phase.Inserting? {
      var row := BaselineRow(id, CompleteRow(phase.metric));
      assert (s.rows + [row])[|s.rows|] == row;
    }
  }

  lemma WorkKeepsInv(s: State, j: nat, a: WorkAction)
    requires j < |s.jobs| && Inv(s) && WorkStep(s, j, a).Some?
    ensures Inv(WorkStep(s, j, a).value)
  {
    WorkStepShape(s, j, a);
    hide WorkStep;
    var t := WorkStep(s, j, a).value;
    assert JobInv(s.rows, s.nextId, s.jobs[j]);
    if t.rows != s.rows {
      var row :| !Refused(s.rows, row) && t.rows == s.rows + [row];
      RowKeepsInv(s, row);
    }
  }

  // A new row alone keeps everything.
  lemma RowKeepsInv(s: State, row: BaselineRow)
    requires Inv(s) && !Refused(s.rows, row)
    ensures Inv(s.(rows := s.rows + [row]))
  {
    var t := s.(rows := s.rows + [row]);
    AppendKeepsTable(s.rows, row);
    forall id, metric | HasComplete(s.rows, id, metric) ensures HasComplete(t.rows, id, metric) {
      AppendKeepsComplete(s.rows, row, id, metric);
    }
  }

  lemma SeenIsComplete(s: State, pick: nat)
    requires pick < |s.rows|
    ensures OrchInv(s.rows, Seen(s.rows[pick]))
  {
  }

  lemma OrchKeepsInv(s: State, o: nat, a: OrchAction)
    requires o < |s.orchs| && Inv(s) && OrchStep(s, o, a).Some?
    ensures Inv(OrchStep(s, o, a).value)
  {
    assert OrchInv(s.rows, s.orchs[o]);
    hide JobKnown, Find, HasComplete;
    match a
    case ReadRow(pick) => if pick < |s.rows| { SeenIsComplete(s, pick); }
    case SeeById(pick) => SeenIsComplete(s, pick);
    case SeeByStudy(pick) => SeenIsComplete(s, pick);
    case _ =>
  }

  lemma StepKeepsInv(s: State, e: Event)
    requires Inv(s) && Step(s, e).Some?
    ensures Inv(Step(s, e).value)
  {
    hide Inv;
    match e
    case Work(j, a) => WorkKeepsInv(s, j, a);
    case Orch(o, act) => OrchKeepsInv(s, o, act);
    case Resume => ResumeKeepsInv(s);
  }

  lemma ResumeKeepsInv(s: State)
    requires Inv(s)
    ensures Inv(s.(orchs := s.orchs + [Entering]))
  {
  }

  lemma {:induction false} RunKeepsInv(s: State, events: seq<Event>)
    requires Inv(s) && Run(s, events).Some?
    ensures Inv(Run(s, events).value)
    decreases |events|
  {
    hide Inv, Step;
    if events != [] {
      RunKeepsInv(s, events[..|events| - 1]);
      StepKeepsInv(Run(s, events[..|events| - 1]).value, events[|events| - 1]);
    }
  }
}
