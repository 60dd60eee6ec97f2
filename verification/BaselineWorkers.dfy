// `run_baseline_trial` and the orchestrator's baseline phase, step by step on the database
// while every other process may act between any two steps.
module BaselineWorkers {
  import opened Common
  import opened BaselineProtocol
  import opened BaselineTheorems

  datatype Execution = Scores(v: real) | Fails | LosesDb

  // Everything that may go wrong in one execution of the job.
  datatype TrialFaults = TrialFaults(check: Write, execution: Execution, insert: Write, stamp: Write, failInsert: Write)

  class Deployment {
    var rows: seq<BaselineRow>
    var stamp: Option<Stamp>
    var jobs: seq<Job>
    var orchs: seq<Pc>
    var nextId: nat

    constructor ()
      ensures View() == INIT
    {
      rows, stamp, jobs, orchs, nextId := [], None, [], [], 0;
    }

    function View(): State
      reads this
    {
      State(rows, stamp, jobs, orchs, nextId)
    }

    // -------------------------------------------------------------------------
    // Everybody else
    // -------------------------------------------------------------------------

    // Other processes take the steps of `events` that are possible, leaving one job or one
    // orchestrator alone.
    method Others(events: seq<Event>, j: Option<nat>, o: Option<nat>) returns (ghost trace: seq<Event>)
      requires Inv(View()) && (j.Some? ==> j.value < |jobs|) && (o.Some? ==> o.value < |orchs|)
      modifies this
      ensures Inv(View()) && Run(old(View()), trace) == Some(View())
      ensures j.Some? ==> j.value < |jobs| && jobs[j.value] == old(jobs)[j.value]
      ensures o.Some? ==> o.value < |orchs| && orchs[o.value] == old(orchs)[o.value]
      ensures old(stamp).Some? ==> stamp == old(stamp)
      ensures events == [] ==> View() == old(View())
    {
      hide Step, Inv;
      trace := [];
      ghost var start := View();
      for i := 0 to |events|
        invariant Inv(View()) && Run(start, trace) == Some(View())
        invariant j.Some? ==> j.value < |jobs| && jobs[j.value] == old(jobs)[j.value]
        invariant o.Some? ==> o.value < |orchs| && orchs[o.value] == old(orchs)[o.value]
        invariant events == [] ==> View() == start
      {
        var e := events[i];
        var next := Step(View(), e);
        if next.Some? && Spares(e, j, o) {
          ghost var before := View();
          ForeignStep(before, e, j, o);
          StepKeepsInv(before, e);
          rows, stamp := next.value.rows, next.value.stamp;
          jobs, orchs, nextId := next.value.jobs, next.value.orchs, next.value.nextId;
          trace := RunSnoc(start, trace, before, e, View());
        }
      }
      StampIsForever(start, trace);
    }

    // After a step of our own, the others.
    method Yield(ghost before: State, ghost e: Event, j: Option<nat>, o: Option<nat>, meanwhile: seq<Event>)
      returns (ghost trace: seq<Event>)
      requires Inv(before) && Step(before, e) == Some(View())
      requires (j.Some? ==> j.value < |jobs|) && (o.Some? ==> o.value < |orchs|)
      modifies this
      ensures Inv(View()) && Run(before, trace) == Some(View())
      ensures j.Some? ==> j.value < |jobs| && jobs[j.value] == old(jobs)[j.value]
      ensures o.Some? ==> o.value < |orchs| && orchs[o.value] == old(orchs)[o.value]
      ensures old(stamp).Some? ==> stamp == old(stamp)
      ensures meanwhile == [] ==> View() == old(View())
    {
      hide Step, Inv;
      StepKeepsInv(before, e);
      ghost var rest := Others(meanwhile, j, o);
      RunOne(before, e);
      RunsCompose(before, [e], rest);
      trace := [e] + rest;
    }

    method MoveJob(j: nat, phase: Phase)
      requires j < |jobs|
      modifies `jobs
      ensures jobs == old(jobs)[j := old(jobs)[j].(phase := phase)]
    {
      jobs := jobs[j := jobs[j].(phase := phase)];
    }

    // INSERT and COMMIT; true when the primary key or the partial unique index refuses.
    method InsertRow(row: BaselineRow, w: Write) returns (integrityError: bool)
      modifies `rows
      ensures integrityError == Refused(old(rows), row)
      ensures rows == if !integrityError && Lands(w) then old(rows) + [row] else old(rows)
    {
      integrityError := Refused(rows, row);
      if !integrityError && Lands(w) {
        rows := rows + [row];
      }
    }

    // `stamp_baseline_trial` and COMMIT; true when the row is missing or not complete.
    method StampBaselineTrial(id: nat, metric: real, w: Write) returns (rejected: bool)
      modifies `stamp
      ensures rejected == !Stampable(rows, id)
      ensures stamp == if !rejected && Lands(w) then Stamped(old(stamp), id, metric) else old(stamp)
    {
      rejected := !Stampable(rows, id);
      if !rejected && stamp.None? && Lands(w) {
        stamp := Some(Stamp(id, metric));
      }
    }

    // -------------------------------------------------------------------------
    // run_baseline_trial
    // -------------------------------------------------------------------------

    method TakeJob(j: nat, meanwhile: seq<Event>) returns (ghost trace: seq<Event>)
      requires Inv(View()) && j < |jobs| && jobs[j].phase.Queued?
      modifies this
      ensures Inv(View()) && Run(old(View()), trace) == Some(View())
      ensures j < |jobs| && jobs[j] == Job(old(jobs)[j].id, Started)
      ensures meanwhile == [] ==> Same(old(View()), View())
    {
      hide Inv;
      ghost var before := View();
      MoveJob(j, Started);
      trace := Yield(before, Work(j, Deliver), Some(j), None, meanwhile);
    }

    // `_existing_terminal_row`
    method CheckExisting(j: nat, id: nat, w: Write, meanwhile: seq<Event>)
      returns (found: Option<RowStatus>, ghost trace: seq<Event>)
      requires Inv(View()) && j < |jobs| && jobs[j] == Job(id, Started)
      modifies this
      ensures Inv(View()) && Run(old(View()), trace) == Some(View())
      ensures found == Find(old(rows), id)
      ensures j < |jobs| && jobs[j] == Job(id, AfterCall(w, if found.None? then Evaluating
                                           else if found.value.CompleteRow? then Stamping(found.value.metric) else Returned))
      ensures meanwhile == [] ==> Same(old(View()), View())
    {
      hide Inv, Find;
      ghost var before := View();
      found := Find(rows, id);
      MoveJob(j, AfterCall(w, if found.None? then Evaluating
                           else if found.value.CompleteRow? then Stamping(found.value.metric) else Returned));
      trace := Yield(before, Work(j, Check(w)), Some(j), None, meanwhile);
    }

    method ExecuteQueries(j: nat, id: nat, result: Execution, meanwhile: seq<Event>) returns (ghost trace: seq<Event>)
      requires Inv(View()) && j < |jobs| && jobs[j] == Job(id, Evaluating)
      modifies this
      ensures Inv(View()) && Run(old(View()), trace) == Some(View())
      ensures j < |jobs| && jobs[j] == Job(id, match result case Scores(v) => Inserting(v) case Fails => FailInserting case LosesDb => Raised)
      ensures meanwhile == [] ==> Same(old(View()), View())
    {
      hide Inv;
      ghost var before := View();
      match result {
        case Scores(v) =>
          MoveJob(j, Inserting(v));
          trace := Yield(before, Work(j, Evaluate(v)), Some(j), None, meanwhile);
        case Fails =>
          MoveJob(j, FailInserting);
          trace := Yield(before, Work(j, EvaluateFails), Some(j), None, meanwhile);
        case LosesDb =>
          MoveJob(j, Raised);
          trace := Yield(before, Work(j, EvaluateDown), Some(j), None, meanwhile);
      }
    }

    method InsertComplete(j: nat, id: nat, v: real, w: Write, meanwhile: seq<Event>)
      returns (lostRace: bool, ghost trace: seq<Event>)
      requires Inv(View()) && j < |jobs| && jobs[j] == Job(id, Inserting(v))
      modifies this
      ensures Inv(View()) && Run(old(View()), trace) == Some(View())
      ensures j < |jobs| && jobs[j] == Job(id, if lostRace then Returned else AfterCall(w, Stamping(v)))
      ensures lostRace <==> Refused(old(rows), BaselineRow(id, CompleteRow(v)))
      ensures meanwhile == [] ==> Adds(old(View()), View(), !lostRace && Lands(w), BaselineRow(id, CompleteRow(v)))
    {
      hide Inv;
      ghost var before := View();
      lostRace := InsertRow(BaselineRow(id, CompleteRow(v)), w);
      MoveJob(j, if lostRace then Returned else AfterCall(w, Stamping(v)));
      hide Refused;
      trace := Yield(before, Work(j, Insert(w)), Some(j), None, meanwhile);
    }

    // The self-stamp, and the re-stamp of a retry.
    method SelfStamp(j: nat, id: nat, v: real, w: Write, meanwhile: seq<Event>)
      returns (rejected: bool, ghost trace: seq<Event>)
      requires Inv(View()) && j < |jobs| && jobs[j] == Job(id, Stamping(v))
      modifies this
      ensures Inv(View()) && Run(old(View()), trace) == Some(View())
      ensures !rejected
      ensures j < |jobs| && jobs[j] == Job(id, AfterCall(w, Returned))
      ensures w.Done? ==> stamp.Some?
      ensures meanwhile == [] ==> View() == old(View()).(jobs := jobs, stamp := if old(stamp).None? && Lands(w) then Some(Stamp(id, v)) else old(stamp))
      ensures HasId(old(rows), id) && (meanwhile == [] ==> HasId(rows, id))
    {
      StampingIsAccepted(View(), j);
      hide Inv, Stampable;
      ghost var before := View();
      rejected := StampBaselineTrial(id, v, w);
      MoveJob(j, if rejected then Returned else AfterCall(w, Returned));
      trace := Yield(before, Work(j, StampRow(w)), Some(j), None, meanwhile);
    }

    method InsertFailed(j: nat, id: nat, w: Write, meanwhile: seq<Event>) returns (raised: bool, ghost trace: seq<Event>)
      requires Inv(View()) && j < |jobs| && jobs[j] == Job(id, FailInserting)
      modifies this
      ensures Inv(View()) && Run(old(View()), trace) == Some(View())
      ensures j < |jobs| && jobs[j] == Job(id, if raised then Raised else Returned)
      ensures meanwhile == [] ==> FailsOver(old(View()), View(), id, w, raised)
    {
      hide Inv;
      ghost var before := View();
      var integrityError := InsertRow(BaselineRow(id, FailedRow), w);
      raised := !integrityError && !w.Done?;
      MoveJob(j, if raised then Raised else Returned);
      hide Refused;
      trace := Yield(before, Work(j, FailInsert(w)), Some(j), None, meanwhile);
    }

    // Executing one baseline trial end to end. `landed` says whether this execution found or
    // wrote the complete row; then the study is stamped unless the stamp itself fails.
    // Undisturbed, the faults alone decide what is written and stamped.
    method RunBaselineTrial(j: nat, f: TrialFaults, others: nat -> seq<Event>)
      returns (raised: bool, landed: bool, ghost trace: seq<Event>)
      requires Inv(View()) && j < |jobs| && jobs[j].phase.Queued?
      modifies this
      ensures Inv(View()) && Run(old(View()), trace) == Some(View())
      ensures j < |jobs| && jobs[j] == Job(old(jobs)[j].id, if raised then Raised else Returned)
      ensures landed && f.stamp.Done? ==> stamp.Some? && !raised
      ensures Undisturbed(others) ==> Ends(old(View()), View(), old(jobs)[j].id, f, raised)
    {
      hide Inv, Step, Run, Find, Tried, Ended;
      ghost var start := View();
      ghost var more: seq<Event>;
      var id := jobs[j].id;
      trace := TakeJob(j, others(0));
      ghost var begun := View();
      var phase: Phase;
      phase, more := TryTrial(j, id, f, others);
      trace := Joined(start, trace, begun, more, View());
      landed := phase.Stamping?;
      ghost var tried, first := View(), trace;
      raised, more := EndTrial(j, id, phase, f, others);
      trace := Joined(start, first, tried, more, View());
      if Undisturbed(others) { EndsSo(start, begun, tried, View(), id, f, phase, raised); }
    }

    // The stamp, or the failure path.
    method EndTrial(j: nat, id: nat, tried: Phase, f: TrialFaults, others: nat -> seq<Event>) returns (raised: bool, ghost trace: seq<Event>)
      requires Inv(View()) && j < |jobs| && jobs[j] == Job(id, tried)
      requires tried.Returned? || tried.Raised? || tried.FailInserting? || tried.Stamping?
      modifies this
      ensures Inv(View()) && Run(old(View()), trace) == Some(View())
      ensures j < |jobs| && jobs[j] == Job(id, if raised then Raised else Returned)
      ensures tried.Stamping? && f.stamp.Done? ==> stamp.Some? && !raised
      ensures Undisturbed(others) ==> Ended(old(View()), View(), id, f, tried, raised)
    {
      hide Inv, Step, Run, Find;
      ghost var start := View();
      ghost var more: seq<Event>;
      var phase := tried;
      trace := [];
      EmptyRun(start);
      if phase.Stamping? {
        var rejected: bool;
        rejected, trace := SelfStamp(j, id, phase.metric, f.stamp, others(4));
        phase := AfterCall(f.stamp, Returned);
      }
      raised := phase.Raised?;
      if phase.FailInserting? {
        ghost var middle := View();
        raised, more := InsertFailed(j, id, f.failInsert, others(5));
        trace := Joined(start, trace, middle, more, View());
      }
    }

    // Everything before the stamp.
    method TryTrial(j: nat, id: nat, f: TrialFaults, others: nat -> seq<Event>) returns (phase: Phase, ghost trace: seq<Event>)
      requires Inv(View()) && j < |jobs| && jobs[j] == Job(id, Started)
      modifies this
      ensures Inv(View()) && Run(old(View()), trace) == Some(View())
      ensures j < |jobs| && jobs[j] == Job(id, phase)
      ensures phase.Returned? || phase.Raised? || phase.FailInserting? || phase.Stamping?
      ensures Undisturbed(others) ==> Tried(old(View()), View(), id, f, phase)
    {
      hide Inv, Step, Run, Find;
      ghost var start := View();
      ghost var more: seq<Event>;
      var found: Option<RowStatus>;
      found, trace := CheckExisting(j, id, f.check, others(1));
      if !f.check.Done? || found.Some? {
        return jobs[j].phase, trace;
      }
      ghost var middle := View();
      more := ExecuteQueries(j, id, f.execution, others(2));
      trace := Joined(start, trace, middle, more, View());
      if !f.execution.Scores? {
        return jobs[j].phase, trace;
      }
      middle := View();
      var lostRace: bool;
      lostRace, more := InsertComplete(j, id, f.execution.v, f.insert, others(3));
      trace := Joined(start, trace, middle, more, View());
      phase := jobs[j].phase;
    }

    // -------------------------------------------------------------------------
    // The orchestrator's baseline phase
    // -------------------------------------------------------------------------

    method MoveOrch(o: nat, pc: Pc)
      requires o < |orchs|
      modifies `orchs
      ensures orchs == old(orchs)[o := pc]
    {
      orchs := orchs[o := pc];
    }

    // The resume check: stamped already, or a terminal row of this study. `looked`: the rows at
    // that query, and `seen` the one it returned.
    method LookForBaseline(o: nat, choose: nat -> nat, others: nat -> seq<Event>)
      returns (seen: Option<BaselineRow>, ghost looked: seq<BaselineRow>, ghost trace: seq<Event>)
      requires Inv(View()) && o < |orchs| && orchs[o].Entering?
      modifies this
      ensures Inv(View()) && Run(old(View()), trace) == Some(View())
      ensures o < |orchs| && orchs[o] == if old(stamp).Some? then Through else AfterLook(Enqueuing, seen)
      ensures if old(stamp).Some? then seen.None? else Finds(WaitingByStudy, looked, seen)
      ensures Undisturbed(others) ==> looked == old(rows)
    {
      hide Inv, Run;
      ghost var start := View();
      seen, looked := None, rows;
      MoveOrch(o, if stamp.Some? then Through else StampRead);
      trace := Yield(start, Orch(o, ReadStamp), None, Some(o), others(0));
      if orchs[o].StampRead? {
        ghost var before := View();
        var pick := if rows == [] then 0 else choose(|rows|) % |rows|;
        looked := rows;
        seen := if rows == [] then None else Some(rows[pick]);
        MoveOrch(o, if rows == [] then Enqueuing else Seen(rows[pick]));
        ghost var more := Yield(before, Orch(o, ReadRow(pick)), None, Some(o), others(1));
        trace := Joined(start, trace, before, more, View());
      }
    }

    // `_resolve_and_enqueue_baseline`
    method ResolveAndEnqueue(o: nat, resolved: bool, meanwhile: seq<Event>) returns (ghost trace: seq<Event>)
      requires Inv(View()) && o < |orchs| && orchs[o].Enqueuing?
      modifies this
      ensures Inv(View()) && Run(old(View()), trace) == Some(View())
      ensures o < |orchs| && (orchs[o].Through? || orchs[o].WaitingById? || orchs[o].WaitingByStudy?)
      ensures resolved <==> !orchs[o].Through?
      ensures orchs[o].WaitingById? <==> resolved && forall k :: 0 <= k < |old(jobs)| ==> old(jobs)[k].phase.Gone?
      ensures orchs[o].WaitingById? ==> orchs[o].id == old(nextId)
      ensures meanwhile == [] ==>
                && rows == old(rows) && stamp == old(stamp)
                && jobs == if orchs[o].WaitingById? then old(jobs) + [Job(old(nextId), Queued)] else old(jobs)
    {
      hide Inv, Run;
      ghost var before := View();
      if !resolved {
        MoveOrch(o, Through);
      } else {
        var id := nextId;
        nextId := nextId + 1;
        var known := exists k :: 0 <= k < |jobs| && !jobs[k].phase.Gone?;
        if known {
          MoveOrch(o, WaitingByStudy);
        } else {
          jobs := jobs + [Job(id, Queued)];
          MoveOrch(o, WaitingById(id));
        }
        assert known == JobKnown(before);
      }
      trace := Yield(before, Orch(o, Enqueue(resolved)), None, Some(o), meanwhile);
    }

    // One poll of either wait: it ends the wait exactly if it finds a row, and with that row.
    method Poll(o: nat, choose: nat -> nat, meanwhile: seq<Event>) returns (seen: Option<BaselineRow>, ghost trace: seq<Event>)
      requires Inv(View()) && o < |orchs| && (orchs[o].WaitingById? || orchs[o].WaitingByStudy?)
      modifies this
      ensures Inv(View()) && Run(old(View()), trace) == Some(View())
      ensures Finds(old(orchs)[o], old(rows), seen)
      ensures o < |orchs| && orchs[o] == AfterLook(old(orchs)[o], seen)
    {
      hide Inv, Run;
      ghost var before := View();
      seen := None;
      var pick := 0;
      if orchs[o].WaitingById? {
        while pick < |rows| && rows[pick].id != orchs[o].id
          invariant pick <= |rows| && unchanged(this)
          invariant forall k :: 0 <= k < pick ==> rows[k].id != orchs[o].id
        {
          pick := pick + 1;
        }
        if pick < |rows| {
          seen := Some(rows[pick]);
          MoveOrch(o, Seen(rows[pick]));
          trace := Yield(before, Orch(o, SeeById(pick)), None, Some(o), meanwhile);
          return;
        }
      } else if rows != [] {
        pick := choose(|rows|) % |rows|;
        seen := Some(rows[pick]);
        MoveOrch(o, Seen(rows[pick]));
        trace := Yield(before, Orch(o, SeeByStudy(pick)), None, Some(o), meanwhile);
        return;
      }
      trace := Others(meanwhile, None, Some(o));
    }

    // Polling, at least once, until a terminal row, the deadline or a cancel. It ends with what
    // its last poll found, which is its first one if the row is there already.
    method WaitForBaseline(o: nat, polls: nat, choose: nat -> nat, others: nat -> seq<Event>)
      returns (seen: Option<BaselineRow>, ghost looked: seq<BaselineRow>, ghost trace: seq<Event>)
      requires Inv(View()) && o < |orchs| && (orchs[o].WaitingById? || orchs[o].WaitingByStudy?)
      modifies this
      ensures Inv(View()) && Run(old(View()), trace) == Some(View())
      ensures Finds(old(orchs)[o], looked, seen)
      ensures Finds(old(orchs)[o], old(rows), None) || looked == old(rows)
      ensures o < |orchs| && orchs[o] == AfterLook(Through, seen)
    {
      hide Inv, Step, Run;
      ghost var start := View();
      ghost var more: seq<Event>;
      looked := rows;
      seen, trace := Poll(o, choose, others(3));
      if seen.Some? {
        return;
      }
      for k := 0 to polls
        invariant Inv(View()) && Run(start, trace) == Some(View())
        invariant o < |orchs| && orchs[o] == start.orchs[o]
        invariant Finds(start.orchs[o], looked, None)
      {
        ghost var middle := View();
        looked := rows;
        seen, more := Poll(o, choose, others(4 + k));
        trace := Joined(start, trace, middle, more, View());
        if seen.Some? {
          return;
        }
      }
      seen := None;
      ghost var before := View();
      MoveOrch(o, Through);
      TimeOutIsStep(before, o, View());
      more := Yield(before, Orch(o, TimeOut), None, Some(o), []);
      trace := Joined(start, trace, before, more, View());
    }

    method StampFromOrchestrator(o: nat, w: Write, meanwhile: seq<Event>) returns (ghost trace: seq<Event>)
      requires Inv(View()) && o < |orchs| && orchs[o].StampingFor?
      modifies this
      ensures Inv(View()) && Run(old(View()), trace) == Some(View())
      ensures o < |orchs| && orchs[o].Through?
      ensures w.Done? ==> stamp == Some(Stamp(old(orchs)[o].id, old(orchs)[o].metric))
    {
      SeenIsAccepted(View(), o);
      SeenIsTheStamp(View(), o);
      hide Inv, Run, Stampable;
      ghost var before := View();
      var rejected := StampBaselineTrial(orchs[o].id, orchs[o].metric, w);
      MoveOrch(o, Through);
      trace := Yield(before, Orch(o, StampFor(w)), None, Some(o), meanwhile);
    }

    // `_run_baseline_phase`: resume check, enqueue, wait, stamp. A complete row it has seen is
    // the study's baseline afterwards unless the stamp's write failed; undisturbed, a study
    // without stamp but with rows has one of them seen.
    method RunBaselinePhase(o: nat, resolved: bool, polls: nat, w: Write,
                            choose: nat -> nat, others: nat -> seq<Event>) returns (seen: Option<BaselineRow>, ghost trace: seq<Event>)
      requires Inv(View()) && o < |orchs| && orchs[o].Entering?
      modifies this
      ensures Inv(View()) && Run(old(View()), trace) == Some(View())
      ensures o < |orchs| && orchs[o].Through?
      ensures seen.Some? && seen.value.status.CompleteRow? && w.Done? ==>
                stamp == Some(Stamp(seen.value.id, seen.value.status.metric))
      ensures Undisturbed(others) && old(stamp).None? && old(rows) != [] ==> seen.Some? && seen.value in old(rows)
    {
      hide Inv, Step, Run;
      ghost var start := View();
      ghost var more: seq<Event>;
      ghost var looked: seq<BaselineRow>;
      seen, looked, trace := LookForBaseline(o, choose, others);
      if orchs[o].Enqueuing? {
        ghost var middle := View();
        more := ResolveAndEnqueue(o, resolved, others(2));
        trace := Joined(start, trace, middle, more, View());
        if resolved {
          middle := View();
          seen, looked, more := WaitForBaseline(o, polls, choose, others);
          trace := Joined(start, trace, middle, more, View());
        }
      }
      if orchs[o].StampingFor? {
        ghost var middle := View();
        more := StampFromOrchestrator(o, w, []);
        trace := Joined(start, trace, middle, more, View());
      }
    }
  }

  ghost predicate Undisturbed(others: nat -> seq<Event>) { forall k: nat :: others(k) == [] }

  // ---------------------------------------------------------------------------
  // What one undisturbed execution comes to
  // ---------------------------------------------------------------------------

  predicate Same(s: State, t: State) { t == s.(jobs := t.jobs) }

  predicate Adds(s: State, t: State, written: bool, row: BaselineRow) {
    t == s.(jobs := t.jobs, rows := if written then s.rows + [row] else s.rows)
  }

  // Everything before the stamp: a row of that id is not written again, and a score is written
  // unless the study has its complete row.
  predicate Tried(s: State, t: State, id: nat, f: TrialFaults, phase: Phase) {
    if f.check.Down? then phase.Raised? && Same(s, t)
    else if f.check.Breaks? then phase.FailInserting? && Same(s, t)
    else if HasId(s.rows, id) then
      && (phase.Returned? || (phase.Stamping? && BaselineRow(id, CompleteRow(phase.metric)) in s.rows))
      && (phase.Returned? ==> BaselineRow(id, FailedRow) in s.rows)
      && Same(s, t)
    else
      match f.execution
      case LosesDb => phase.Raised? && Same(s, t)
      case Fails => phase.FailInserting? && Same(s, t)
      case Scores(v) =>
        && Adds(s, t, !AnyComplete(s.rows) && Lands(f.insert), BaselineRow(id, CompleteRow(v)))
        && phase == if AnyComplete(s.rows) then Returned
                    else match f.insert case Done => Stamping(v) case Down(_) => Raised case Breaks(_) => FailInserting
  }

  // A failed row, unless there is one of that id.
  predicate FailsOver(s: State, t: State, id: nat, w: Write, raised: bool) {
    && Adds(s, t, !HasId(s.rows, id) && Lands(w), BaselineRow(id, FailedRow))
    && (raised <==> !HasId(s.rows, id) && !w.Done?)
  }

  // The stamp goes to a study without one; a stamp that breaks ends in the failure path, which
  // finds the row there.
  predicate Ended(s: State, t: State, id: nat, f: TrialFaults, tried: Phase, raised: bool) {
    match tried
    case Stamping(metric) =>
      && (raised <==> f.stamp.Down?)
      && t == s.(jobs := t.jobs, stamp := if s.stamp.None? && Lands(f.stamp) then Some(Stamp(id, metric)) else s.stamp)
    case FailInserting => FailsOver(s, t, id, f.failInsert, raised)
    case _ => (raised <==> tried.Raised?) && Same(s, t)
  }

  ghost predicate Ends(s: State, t: State, id: nat, f: TrialFaults, raised: bool) {
    exists tried, phase :: Tried(s, tried, id, f, phase) && Ended(tried, t, id, f, phase, raised)
  }

  lemma EndsSo(start: State, begun: State, tried: State, t: State, id: nat, f: TrialFaults, phase: Phase, raised: bool)
    requires Same(start, begun) && Tried(begun, tried, id, f, phase) && Ended(tried, t, id, f, phase, raised)
    ensures Ends(start, t, id, f, raised)
  {
    assert Tried(start, tried, id, f, phase);
    hide Tried, Ended;
  }

  // ---------------------------------------------------------------------------
  // What one look at the rows comes to
  // ---------------------------------------------------------------------------

  // A complete row goes on to the stamp, any other one ends the phase; without a row the
  // orchestrator is where it was to be.
  function AfterLook(otherwise: Pc, seen: Option<BaselineRow>): Pc {
    if seen.None? then otherwise
    else match seen.value.status case CompleteRow(metric) => StampingFor(seen.value.id, metric) case FailedRow => Through
  }

  // Nothing is found exactly if there is no row of the awaited id, or of the study.
  predicate Finds(waiting: Pc, rows: seq<BaselineRow>, seen: Option<BaselineRow>) {
    match waiting
    case WaitingById(id) =>
      && (seen.None? <==> forall k :: 0 <= k < |rows| ==> rows[k].id != id)
      && (seen.Some? ==> seen.value in rows && seen.value.id == id)
    case _ => (seen.None? <==> rows == []) && (seen.Some? ==> seen.value in rows)
  }

  predicate Spares(e: Event, j: Option<nat>, o: Option<nat>) {
    match e
    case Work(k, _) => j != Some(k)
    case Orch(p, _) => o != Some(p)
    case Resume => true
  }

  lemma ForeignStep(s: State, e: Event, j: Option<nat>, o: Option<nat>)
    requires Step(s, e).Some? && Spares(e, j, o)
    requires (j.Some? ==> j.value < |s.jobs|) && (o.Some? ==> o.value < |s.orchs|)
    ensures var t := Step(s, e).value;
            && (j.Some? ==> j.value < |t.jobs| && t.jobs[j.value] == s.jobs[j.value])
            && (o.Some? ==> o.value < |t.orchs| && t.orchs[o.value] == s.orchs[o.value])
  {
  }

  lemma StampingIsAccepted(s: State, j: nat)
    requires Inv(s) && j < |s.jobs| && s.jobs[j].phase.Stamping?
    ensures Stampable(s.rows, s.jobs[j].id)
  {
    assert JobInv(s.rows, s.nextId, s.jobs[j]);
    UniqueFind(s.rows, s.jobs[j].id, s.jobs[j].phase.metric);
  }

  lemma Joined(start: State, a: seq<Event>, middle: State, b: seq<Event>, end: State) returns (c: seq<Event>)
    requires Run(start, a) == Some(middle) && Run(middle, b) == Some(end)
    ensures c == a + b && Run(start, c) == Some(end)
  {
    RunsCompose(start, a, b);
    c := a + b;
  }

  lemma EmptyRun(s: State)
    ensures Run(s, []) == Some(s)
  {
  }

  lemma TimeOutIsStep(s: State, o: nat, t: State)
    requires o < |s.orchs| && (s.orchs[o].WaitingById? || s.orchs[o].WaitingByStudy?)
    requires t == s.(orchs := s.orchs[o := Through])
    ensures Step(s, Orch(o, TimeOut)) == Some(t)
  {
  }

  lemma SeenIsTheStamp(s: State, o: nat)
    requires Inv(s) && o < |s.orchs| && s.orchs[o].StampingFor?
    ensures s.stamp.Some? ==> s.stamp == Some(Stamp(s.orchs[o].id, s.orchs[o].metric))
  {
    assert OrchInv(s.rows, s.orchs[o]);
  }

  lemma SeenIsAccepted(s: State, o: nat)
    requires Inv(s) && o < |s.orchs| && s.orchs[o].StampingFor?
    ensures Stampable(s.rows, s.orchs[o].id)
  {
    assert OrchInv(s.rows, s.orchs[o]);
    UniqueFind(s.rows, s.orchs[o].id, s.orchs[o].metric);
  }
}
