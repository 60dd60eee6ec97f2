// The worker code itself: `run_trial` and one tick of the orchestrator's loop, working step
// by step on the two stores while every other process may act between any two steps.
module TrialWorkers {
  import opened Common
  import opened TrialProtocol
  import opened TrialSafety
  import opened TrialTheorems
  import opened TrialRuns

  // ---------------------------------------------------------------------------
  // The stores
  // ---------------------------------------------------------------------------

  class OptunaStudy {
    var trials: seq<OptunaTrial>

    constructor ()
      ensures trials == []
    {
      trials := [];
    }

    // study.ask()
    method Ask() returns (number: nat)
      modifies this
      ensures number == |old(trials)| && trials == old(trials) + [OptunaTrial(Running, None, map[])]
    {
      number := |trials|;
      trials := trials + [OptunaTrial(Running, None, map[])];
    }

    method SetParams(n: nat, params: Params)
      requires n < |trials|
      modifies this
      ensures trials == old(trials)[n := old(trials)[n].(params := params)]
    {
      trials := trials[n := trials[n].(params := params)];
    }

    // study.tell(n, v): raises on a finished trial, and may raise with or without effect.
    method Tell(n: nat, v: real, w: Write) returns (raised: bool)
      requires n < |trials|
      modifies this
      ensures raised <==> w != Done || Finished(old(trials)[n])
      ensures trials == if w != Lost && !Finished(old(trials)[n]) then old(trials)[n := Told(old(trials)[n], v)] else old(trials)
    {
      raised := w != Done || Finished(trials[n]);
      if w != Lost && !Finished(trials[n]) {
        trials := trials[n := trials[n].(state := Complete, value := Some(v))];
      }
    }

    // study.tell(n, state=FAIL), with whatever it raises swallowed by the caller.
    method TellFail(n: nat, applied: bool)
      requires n < |trials|
      modifies this
      ensures trials == if applied && !Finished(old(trials)[n]) then old(trials)[n := old(trials)[n].(state := Fail)] else old(trials)
    {
      if applied && !Finished(trials[n]) {
        trials := trials[n := trials[n].(state := Fail)];
      }
    }

    // The two sums of `_count_in_flight`; nothing here creates WAITING trials.
    method CountInFlight() returns (k: nat)
      ensures k == InFlight(trials)
    {
      k := 0;
      for i := 0 to |trials|
        invariant k == InFlight(trials[..i])
      {
        assert trials[..i + 1][..i] == trials[..i];
        if !Finished(trials[i]) {
          k := k + 1;
        }
      }
      assert trials[..|trials|] == trials;
    }
  }

  class AppDatabase {
    var status: Status
    var rows: seq<TrialRow>
    var lock: Option<nat>

    constructor ()
      ensures status == Pending && rows == [] && lock == None
    {
      status, rows, lock := Pending, [], None;
    }

    // `_existing_terminal_app_row`
    method HasTerminalRow(n: nat) returns (found: bool)
      ensures found == (RowsOf(rows, n) != [])
    {
      found := false;
      for i := 0 to |rows|
        invariant found == (RowsOf(rows[..i], n) != [])
      {
        assert rows[..i + 1][..i] == rows[..i];
        if rows[i].number == n {
          found := true;
        }
      }
      assert rows[..|rows|] == rows;
    }

    // INSERT and COMMIT under the primary key.
    method InsertTrial(row: TrialRow, w: Write) returns (raised: bool)
      modifies this
      ensures status == old(status) && lock == old(lock)
      ensures raised == Raises(w, Taken(old(rows), row.id))
      ensures rows == Appended(old(rows), Written(row, w, Taken(old(rows), row.id)))
    {
      var taken := exists i :: 0 <= i < |rows| && rows[i].id == row.id;
      raised := taken || w != Done;
      if !taken && w != Lost {
        rows := rows + [row];
      }
    }

    // pg_try_advisory_xact_lock
    method TryLock(o: nat) returns (got: bool)
      modifies this
      ensures status == old(status) && rows == old(rows)
      ensures got == old(lock).None? && lock == if got then Some(o) else old(lock)
    {
      got := lock.None?;
      if got {
        lock := Some(o);
      }
    }
  }

  // The queue and the processes: where each job and each orchestrator is.
  class Processes {
    var jobs: seq<Job>
    var orchs: seq<Pc>

    constructor ()
      ensures jobs == [] && orchs == []
    {
      jobs, orchs := [], [];
    }

    method MoveJob(n: nat, phase: Phase)
      requires n < |jobs|
      modifies this
      ensures jobs == old(jobs)[n := old(jobs)[n].(phase := phase)] && orchs == old(orchs)
    {
      jobs := jobs[n := jobs[n].(phase := phase)];
    }

    method MoveOrch(o: nat, pc: Pc)
      requires o < |orchs|
      modifies this
      ensures orchs == old(orchs)[o := pc] && jobs == old(jobs)
    {
      orchs := orchs[o := pc];
    }
  }

  // One deployment working on one study.
  class Deployment {
    const setup: Setup
    const optuna: OptunaStudy
    const db: AppDatabase
    const procs: Processes

    constructor (setup: Setup)
      ensures View() == Init(setup)
    {
      this.setup := setup;
      optuna := new OptunaStudy();
      db := new AppDatabase();
      procs := new Processes();
    }

    function View(): State
      reads optuna, db, procs
    {
      State(setup, db.status, optuna.trials, procs.jobs, db.rows, procs.orchs, db.lock)
    }

    ghost predicate Valid()
      reads optuna, db, procs
    {
      |procs.jobs| == |optuna.trials| && Inv(View())
    }

    // -------------------------------------------------------------------------
    // Everybody else
    // -------------------------------------------------------------------------

    // Other processes take the steps of `events` that are possible, leaving job n and
    // orchestrator o alone.
    method Others(events: seq<Event>, n: Option<nat>, o: Option<nat>) returns (ghost trace: seq<Event>)
      requires Valid() && (n.Some? ==> n.value < |procs.jobs|) && (o.Some? ==> o.value < |procs.orchs|)
      modifies optuna, db, procs
      ensures Valid()
      ensures Run(old(View()), trace) == Some(View())
      ensures n.Some? ==> n.value < |procs.jobs| && procs.jobs[n.value] == old(procs.jobs)[n.value]
      ensures o.Some? ==> o.value < |procs.orchs| && procs.orchs[o.value] == old(procs.orchs)[o.value]
      ensures o.Some? ==> Own(trace, o.value) == []
      ensures events == [] ==> trace == [] && View() == old(View())
    {
      hide Step, Inv;
      trace := [];
      ghost var start := View();
      for i := 0 to |events|
        invariant Valid() && View().setup == start.setup
        invariant Run(start, trace) == Some(View())
        invariant n.Some? ==> n.value < |procs.jobs| && procs.jobs[n.value] == old(procs.jobs)[n.value]
        invariant o.Some? ==> o.value < |procs.orchs| && procs.orchs[o.value] == old(procs.orchs)[o.value]
        invariant o.Some? ==> Own(trace, o.value) == []
        invariant events == [] ==> trace == [] && View() == start
      {
        var e := events[i];
        if SparesJob(View(), e, n) && SparesOrch(e, o) {
          ghost var before := View();
          var next := Step(View(), e);
          if next.Some? {
            ForeignStep(View(), e, n, o);
            StepKeepsInv(View(), e);
            db.status, db.rows, db.lock := next.value.status, next.value.rows, next.value.lock;
            optuna.trials := next.value.trials;
            procs.jobs, procs.orchs := next.value.jobs, next.value.orchs;
            if o.Some? { OwnSnoc(trace, e, o.value); }
            trace := RunSnoc(start, trace, before, e, View());
          }
        }
      }
    }

    // After a step of job n, the others.
    method Yield(ghost before: State, ghost a: WorkAction, n: nat, meanwhile: seq<Event>) returns (ghost trace: seq<Event>)
      requires |before.jobs| == |before.trials| && Inv(before) && n < |procs.jobs| && Worked(before, View(), n, a)
      modifies optuna, db, procs
      ensures Valid() && Run(before, trace) == Some(View())
      ensures n < |procs.jobs| && procs.jobs[n] == old(procs.jobs)[n]
      ensures meanwhile == [] ==> trace == [Work(n, a)] && View() == old(View())
    {
      hide Step, Inv;
      WorkedIsStep(before, View(), n, a);
      StepKeepsShape(before, Work(n, a));
      StepKeepsInv(before, Work(n, a));
      ghost var rest := Others(meanwhile, Some(n), None);
      RunFromFront(before, Work(n, a), rest);
      trace := [Work(n, a)] + rest;
    }

    // -------------------------------------------------------------------------
    // The effects of run_trial, one by one
    // -------------------------------------------------------------------------

    // The worker takes the job and draws a trial id.
    method TakeJob(n: nat, meanwhile: seq<Event>) returns (id: TrialId, ghost trace: seq<Event>)
      requires Valid() && n < |procs.jobs| && procs.jobs[n].phase == Queued
      modifies optuna, db, procs
      ensures Valid() && Run(old(View()), trace) == Some(View())
      ensures n < |procs.jobs| && procs.jobs[n] == Job(Started, old(procs.jobs)[n].attempt + 1)
      ensures id == TrialId(n, procs.jobs[n].attempt)
      ensures meanwhile == [] ==> Same(old(View()), View()) && !Taken(db.rows, id)
    {
      ghost var before := View();
      NextIdIsFree(before, n);
      hide Inv, Taken;
      id := TrialId(n, procs.jobs[n].attempt + 1);
      procs.jobs := procs.jobs[n := Job(Started, id.attempt)];
      trace := Yield(before, Deliver, n, meanwhile);
    }

    // The idempotency check.
    method CheckExistingRow(n: nat, fault: ReadFault, meanwhile: seq<Event>) returns (found: bool, ghost trace: seq<Event>)
      requires Valid() && n < |procs.jobs| && procs.jobs[n].phase == Started && (fault.Breaks? ==> setup.lookupMayBreak)
      modifies optuna, db, procs
      ensures Valid() && Run(old(View()), trace) == Some(View())
      ensures found == (RowsOf(old(db.rows), n) != [])
      ensures n < |procs.jobs| && procs.jobs[n].attempt == old(procs.jobs)[n].attempt
      ensures procs.jobs[n].phase == match fault
                                     case GoesDown => Raised
                                     case Breaks => FailInserting(map[])
                                     case Reads => if found then Returned else Checked
      ensures meanwhile == [] ==> Same(old(View()), View())
    {
      hide Inv;
      ghost var before := View();
      found := db.HasTerminalRow(n);
      match fault {
        case GoesDown =>
          procs.MoveJob(n, Raised);
          trace := Yield(before, LookupDown, n, meanwhile);
        case Breaks =>
          procs.MoveJob(n, FailInserting(map[]));
          trace := Yield(before, LookupBreaks, n, meanwhile);
        case Reads =>
          procs.MoveJob(n, if found then Returned else Checked);
          trace := Yield(before, Lookup, n, meanwhile);
      }
    }

    // `_snapshot_optuna_trial`
    method LoadSnapshot(n: nat, fault: ReadFault, meanwhile: seq<Event>) returns (snapshot: OptunaTrial, ghost trace: seq<Event>)
      requires Valid() && n < |procs.jobs| && procs.jobs[n].phase == Checked
      modifies optuna, db, procs
      ensures Valid() && Run(old(View()), trace) == Some(View())
      ensures n < |procs.jobs| && procs.jobs[n].attempt == old(procs.jobs)[n].attempt
      ensures procs.jobs[n].phase == match fault
                                     case GoesDown => Raised
                                     case Breaks => FailTelling(map[])
                                     case Reads => if Finished(snapshot) then Reconciling(snapshot) else Executing(snapshot)
      ensures snapshot == old(optuna.trials)[n]
      ensures meanwhile == [] ==> Same(old(View()), View())
    {
      hide Inv;
      ghost var before := View();
      snapshot := optuna.trials[n];
      match fault {
        case GoesDown =>
          procs.MoveJob(n, Raised);
          trace := Yield(before, LoadDown, n, meanwhile);
        case Breaks =>
          procs.MoveJob(n, FailTelling(map[]));
          trace := Yield(before, LoadBreaks, n, meanwhile);
        case Reads =>
          procs.MoveJob(n, if Finished(snapshot) then Reconciling(snapshot) else Executing(snapshot));
          trace := Yield(before, Load, n, meanwhile);
      }
    }

    // `_reconstruct_from_optuna`
    method ReconstructFromOptuna(n: nat, id: TrialId, snapshot: OptunaTrial, w: Write, operational: bool, meanwhile: seq<Event>)
      returns (raised: bool, ghost trace: seq<Event>)
      requires Valid() && n < |procs.jobs| && procs.jobs[n].phase == Reconciling(snapshot) && Finished(snapshot)
      requires id == TrialId(n, procs.jobs[n].attempt)
      modifies optuna, db, procs
      ensures Valid() && Run(old(View()), trace) == Some(View())
      ensures n < |procs.jobs| && procs.jobs[n].attempt == old(procs.jobs)[n].attempt
      ensures procs.jobs[n].phase ==
              if !raised then Returned else if operational then Raised else FailTelling(snapshot.params)
      ensures raised <==> Raises(w, Taken(old(db.rows), id))
      ensures meanwhile == [] ==>
                Adds(old(View()), View(), Written(ReconstructedRow(id, n, snapshot), w, Taken(old(db.rows), id)))
    {
      hide Inv;
      ghost var before := View();
      raised := db.InsertTrial(ReconstructedRow(id, n, snapshot), w);
      procs.MoveJob(n, if !raised then Returned else if operational then Raised else FailTelling(snapshot.params));
      trace := Yield(before, Reconcile(w, operational), n, meanwhile);
    }

    // Rendering, searching and scoring.
    method ExecuteQueries(n: nat, snapshot: OptunaTrial, result: Execution, meanwhile: seq<Event>)
      returns (ghost trace: seq<Event>)
      requires Valid() && n < |procs.jobs| && procs.jobs[n].phase == Executing(snapshot)
      modifies optuna, db, procs
      ensures Valid() && Run(old(View()), trace) == Some(View())
      ensures n < |procs.jobs| && procs.jobs[n].attempt == old(procs.jobs)[n].attempt
      ensures procs.jobs[n].phase == match result
                                     case Scores(v) => Telling(snapshot, v)
                                     case Fails => FailTelling(snapshot.params)
                                     case LosesDb => Raised
      ensures meanwhile == [] ==> Same(old(View()), View())
    {
      hide Inv;
      ghost var before := View();
      match result {
        case Scores(v) =>
          procs.MoveJob(n, Telling(snapshot, v));
          trace := Yield(before, Execute(v), n, meanwhile);
        case Fails =>
          procs.MoveJob(n, FailTelling(snapshot.params));
          trace := Yield(before, ExecuteFails, n, meanwhile);
        case LosesDb =>
          procs.MoveJob(n, Raised);
          trace := Yield(before, ExecuteDown, n, meanwhile);
      }
    }

    method TellComplete(n: nat, snapshot: OptunaTrial, v: real, w: Write, operational: bool, meanwhile: seq<Event>)
      returns (told: bool, ghost trace: seq<Event>)
      requires Valid() && n < |procs.jobs| && procs.jobs[n].phase == Telling(snapshot, v)
      modifies optuna, db, procs
      ensures Valid() && Run(old(View()), trace) == Some(View())
      ensures n < |procs.jobs| && procs.jobs[n].attempt == old(procs.jobs)[n].attempt
      ensures procs.jobs[n].phase == if told then Inserting(snapshot, v)
                                     else if operational && w != Done then Raised else FailTelling(snapshot.params)
      ensures told <==> w == Done && !Finished(old(optuna.trials)[n])
      ensures meanwhile == [] ==>
                if w != Lost && !Finished(old(optuna.trials)[n]) then Same(WithValue(old(View()), n, v), View())
                else Same(old(View()), View())
    {
      hide Inv;
      ghost var before := View();
      var raised := optuna.Tell(n, v, w);
      told := !raised;
      procs.MoveJob(n, if told then Inserting(snapshot, v)
                       else if operational && w != Done then Raised else FailTelling(snapshot.params));
      trace := Yield(before, Tell(w, operational), n, meanwhile);
    }

    method InsertComplete(n: nat, id: TrialId, snapshot: OptunaTrial, v: real, w: Write, meanwhile: seq<Event>)
      returns (raised: bool, ghost trace: seq<Event>)
      requires Valid() && n < |procs.jobs| && procs.jobs[n].phase == Inserting(snapshot, v)
      requires id == TrialId(n, procs.jobs[n].attempt)
      modifies optuna, db, procs
      ensures Valid() && Run(old(View()), trace) == Some(View())
      ensures n < |procs.jobs| && procs.jobs[n].attempt == old(procs.jobs)[n].attempt
      ensures procs.jobs[n].phase == if raised then Raised else Returned
      ensures raised <==> Raises(w, Taken(old(db.rows), id))
      ensures meanwhile == [] ==>
                Adds(old(View()), View(), Written(TrialRow(id, n, RowComplete, Some(v), snapshot.params), w, Taken(old(db.rows), id)))
    {
      hide Inv;
      ghost var before := View();
      raised := db.InsertTrial(TrialRow(id, n, RowComplete, Some(v), snapshot.params), w);
      procs.MoveJob(n, if raised then Raised else Returned);
      trace := Yield(before, Insert(w), n, meanwhile);
    }

    method TellFailure(n: nat, seen: Params, applied: bool, meanwhile: seq<Event>) returns (ghost trace: seq<Event>)
      requires Valid() && n < |procs.jobs| && procs.jobs[n].phase == FailTelling(seen)
      modifies optuna, db, procs
      ensures Valid() && Run(old(View()), trace) == Some(View())
      ensures n < |procs.jobs| && procs.jobs[n].attempt == old(procs.jobs)[n].attempt
      ensures procs.jobs[n].phase == FailInserting(seen)
      ensures meanwhile == [] ==> Same(WithFailure(old(View()), n, applied), View())
    {
      hide Inv;
      ghost var before := View();
      optuna.TellFail(n, applied);
      procs.MoveJob(n, FailInserting(seen));
      trace := Yield(before, TellFail(applied), n, meanwhile);
    }

    method InsertFailed(n: nat, id: TrialId, seen: Params, w: Write, meanwhile: seq<Event>)
      returns (raised: bool, ghost trace: seq<Event>)
      requires Valid() && n < |procs.jobs| && procs.jobs[n].phase == FailInserting(seen)
      requires id == TrialId(n, procs.jobs[n].attempt)
      modifies optuna, db, procs
      ensures Valid() && Run(old(View()), trace) == Some(View())
      ensures n < |procs.jobs| && procs.jobs[n].attempt == old(procs.jobs)[n].attempt
      ensures procs.jobs[n].phase == if raised then Raised else Returned
      ensures raised <==> Raises(w, Taken(old(db.rows), id))
      ensures meanwhile == [] ==>
                Adds(old(View()), View(), Written(TrialRow(id, n, RowFailed, None, seen), w, Taken(old(db.rows), id)))
    {
      hide Inv;
      ghost var before := View();
      raised := db.InsertTrial(TrialRow(id, n, RowFailed, None, seen), w);
      procs.MoveJob(n, if raised then Raised else Returned);
      trace := Yield(before, FailInsert(w), n, meanwhile);
    }

    // -------------------------------------------------------------------------
    // run_trial
    // -------------------------------------------------------------------------

    // The try block. A failure that is not re-raised reports whether the study object was
    // bound and which parameters had been seen.
    method TryTrial(n: nat, id: TrialId, f: TrialFaults, others: nat -> seq<Event>)
      returns (end: TryEnd, tellSucceeded: bool, ghost trace: seq<Event>)
      requires Valid() && n < |procs.jobs| && procs.jobs[n].phase == Started && id == TrialId(n, procs.jobs[n].attempt)
      requires f.lookup.Breaks? ==> setup.lookupMayBreak
      modifies optuna, db, procs
      ensures Valid() && Run(old(View()), trace) == Some(View())
      ensures n < |procs.jobs| && procs.jobs[n].attempt == old(procs.jobs)[n].attempt
      ensures procs.jobs[n].phase == match end
                                     case Returns => Returned
                                     case Reraises => Raised
                                     case Failure(bound, seen) => if bound then FailTelling(seen) else FailInserting(seen)
      ensures end.Failure? ==> !tellSucceeded
      ensures Undisturbed(others) && !Taken(old(db.rows), id) ==> Tried(old(View()), View(), n, id, f, end)
    {
      hide Inv, Step, Run, RowsOf, Taken, TriedLoaded;
      ghost var start := View();
      tellSucceeded := false;
      var found: bool;
      found, trace := CheckExistingRow(n, f.lookup, others(0));
      match f.lookup {
        case GoesDown => return Reraises, tellSucceeded, trace;
        case Breaks => return Failure(false, map[]), tellSucceeded, trace;
        case Reads =>
      }
      if found {
        return Returns, tellSucceeded, trace;
      }
      ghost var middle := View();
      ghost var more: seq<Event>;
      end, tellSucceeded, more := TryChecked(n, id, f, others);
      trace := Joined(start, trace, middle, more, View());
      TriedFrom(start, middle, View(), n, id, f, end);
    }

    // Its part after the idempotency check.
    method TryChecked(n: nat, id: TrialId, f: TrialFaults, others: nat -> seq<Event>)
      returns (end: TryEnd, tellSucceeded: bool, ghost trace: seq<Event>)
      requires Valid() && n < |procs.jobs| && procs.jobs[n].phase == Checked && id == TrialId(n, procs.jobs[n].attempt)
      modifies optuna, db, procs
      ensures Valid() && Run(old(View()), trace) == Some(View())
      ensures n < |procs.jobs| && procs.jobs[n].attempt == old(procs.jobs)[n].attempt
      ensures procs.jobs[n].phase == match end
                                     case Returns => Returned
                                     case Reraises => Raised
                                     case Failure(bound, seen) => if bound then FailTelling(seen) else FailInserting(seen)
      ensures end.Failure? ==> !tellSucceeded
      ensures Undisturbed(others) && !Taken(old(db.rows), id) ==> TriedLoaded(old(View()), View(), n, id, f, end)
    {
      hide Inv, Step, Run, Taken, ReconstructedRow, Ran;
      ghost var start := View();
      tellSucceeded := false;
      var snapshot: OptunaTrial;
      snapshot, trace := LoadSnapshot(n, f.load, others(1));
      match f.load {
        case GoesDown => return Reraises, tellSucceeded, trace;
        case Breaks => return Failure(true, map[]), tellSucceeded, trace;
        case Reads =>
      }
      ghost var middle := View();
      ghost var more: seq<Event>;
      if Finished(snapshot) {
        var raised: bool;
        raised, more := ReconstructFromOptuna(n, id, snapshot, f.reconcile, f.reconcileOperational, others(2));
        end := if !raised then Returns else if f.reconcileOperational then Reraises else Failure(true, snapshot.params);
      } else {
        end, tellSucceeded, more := RunLoaded(n, id, snapshot, f, others);
        RanFrom(start, middle, View(), n, id, f, end);
      }
      trace := Joined(start, trace, middle, more, View());
    }

    // Scoring, telling and the INSERT of a running trial.
    method RunLoaded(n: nat, id: TrialId, snapshot: OptunaTrial, f: TrialFaults, others: nat -> seq<Event>)
      returns (end: TryEnd, tellSucceeded: bool, ghost trace: seq<Event>)
      requires Valid() && n < |procs.jobs| && procs.jobs[n].phase == Executing(snapshot) && id == TrialId(n, procs.jobs[n].attempt)
      modifies optuna, db, procs
      ensures Valid() && Run(old(View()), trace) == Some(View())
      ensures n < |procs.jobs| && procs.jobs[n].attempt == old(procs.jobs)[n].attempt
      ensures procs.jobs[n].phase == match end
                                     case Returns => Returned
                                     case Reraises => Raised
                                     case Failure(bound, seen) => if bound then FailTelling(seen) else FailInserting(seen)
      ensures end.Failure? ==> !tellSucceeded
      ensures Undisturbed(others) && !Taken(old(db.rows), id) && snapshot == old(optuna.trials)[n] && !Finished(snapshot) ==>
                Ran(old(View()), View(), n, id, f, end)
    {
      hide Inv, Step, Run, Taken;
      ghost var start := View();
      ghost var more: seq<Event>;
      tellSucceeded := false;
      trace := ExecuteQueries(n, snapshot, f.execution, others(2));
      match f.execution {
        case LosesDb => return Reraises, tellSucceeded, trace;
        case Fails => return Failure(true, snapshot.params), tellSucceeded, trace;
        case Scores(_) =>
      }
      ghost var middle := View();
      tellSucceeded, more := TellComplete(n, snapshot, f.execution.v, f.tell, f.tellOperational, others(3));
      trace := Joined(start, trace, middle, more, View());
      if !tellSucceeded {
        end := if f.tellOperational && f.tell != Done then Reraises else Failure(true, snapshot.params);
        return;
      }
      middle := View();
      var raised: bool;
      raised, more := InsertComplete(n, id, snapshot, f.execution.v, f.insert, others(4));
      trace := Joined(start, trace, middle, more, View());
      end := if raised then Reraises else Returns;
    }

    // Executing one Optuna trial end to end. Whatever the faults and whatever the others do,
    // the execution is a run of the protocol, and a normal return leaves a row.
    method RunTrial(n: nat, f: TrialFaults, others: nat -> seq<Event>) returns (raised: bool, ghost trace: seq<Event>)
      requires Valid() && n < |procs.jobs| && procs.jobs[n].phase == Queued
      requires f.lookup.Breaks? ==> setup.lookupMayBreak
      modifies optuna, db, procs
      ensures Valid() && Run(old(View()), trace) == Some(View())
      ensures n < |procs.jobs| && procs.jobs[n] == Job(if raised then Raised else Returned, old(procs.jobs)[n].attempt + 1)
      ensures !raised ==> RowsOf(db.rows, n) != []
      ensures Undisturbed(others) ==> Ends(old(View()), View(), n, TrialId(n, old(procs.jobs)[n].attempt + 1), f, raised)
    {
      hide Inv, Step, Run, RowsOf, Taken, Tried, CleansUp;
      ghost var start := View();
      ghost var more: seq<Event>;
      var id: TrialId;
      id, trace := TakeJob(n, others(5));
      ghost var middle := View();
      ghost var begun := middle;
      var end: TryEnd, tellSucceeded: bool;
      end, tellSucceeded, more := TryTrial(n, id, f, others);
      trace := Joined(start, trace, middle, more, View());
      ghost var tried, first := View(), trace;
      raised, more := EndTrial(n, id, end, f, others);
      trace := Joined(start, first, tried, more, View());
      if !raised { ReturnedHasRow(View(), n); }
      if Undisturbed(others) { EndsSo(start, begun, tried, View(), n, id, f, end, raised); }
    }

    // The handler of the try block.
    method EndTrial(n: nat, id: TrialId, end: TryEnd, f: TrialFaults, others: nat -> seq<Event>) returns (raised: bool, ghost trace: seq<Event>)
      requires Valid() && n < |procs.jobs| && id == TrialId(n, procs.jobs[n].attempt)
      requires procs.jobs[n].phase == match end
                                      case Returns => Returned
                                      case Reraises => Raised
                                      case Failure(bound, seen) => if bound then FailTelling(seen) else FailInserting(seen)
      modifies optuna, db, procs
      ensures Valid() && Run(old(View()), trace) == Some(View())
      ensures n < |procs.jobs| && procs.jobs[n] == Job(if raised then Raised else Returned, old(procs.jobs)[n].attempt)
      ensures Undisturbed(others) ==> CleansUp(old(View()), View(), n, id, f, end, raised)
    {
      hide Inv, Step, Run, Taken;
      ghost var start := View();
      trace := [];
      EmptyRun(start);
      raised := end.Reraises?;
      if end.Failure? {
        ghost var more: seq<Event>;
        if end.bound {
          trace := TellFailure(n, end.seen, f.failTell, others(6));
        }
        ghost var middle := View();
        raised, more := InsertFailed(n, id, end.seen, f.failInsert, others(7));
        trace := Joined(start, trace, middle, more, View());
      }
    }

    // -------------------------------------------------------------------------
    // The effects of one tick, one by one
    // -------------------------------------------------------------------------

    // After a step of orchestrator o, the others.
    method YieldTick(ghost before: State, ghost act: OrchAction, o: nat, meanwhile: seq<Event>) returns (ghost trace: seq<Event>)
      requires |before.jobs| == |before.trials| && Inv(before) && o < |procs.orchs|
      requires Step(before, Orch(o, act)) == Some(View())
      modifies optuna, db, procs
      ensures Valid() && Run(before, trace) == Some(View())
      ensures o < |procs.orchs| && procs.orchs[o] == old(procs.orchs)[o]
      ensures Own(trace, o) == [act]
      ensures meanwhile == [] ==> trace == [Orch(o, act)] && View() == old(View())
    {
      hide Step, Inv;
      StepKeepsShape(before, Orch(o, act));
      StepKeepsInv(before, Orch(o, act));
      ghost var rest := Others(meanwhile, None, Some(o));
      RunFromFront(before, Orch(o, act), rest);
      OwnSnoc([], Orch(o, act), o);
      OwnConcat([Orch(o, act)], rest, o);
      trace := [Orch(o, act)] + rest;
    }

    // The entry transition: a queued study starts, a running one is resumed, any other is left.
    method EnterLoop(o: nat, meanwhile: seq<Event>) returns (entered: bool, ghost trace: seq<Event>)
      requires Valid() && o < |procs.orchs| && procs.orchs[o] == Entering
      modifies optuna, db, procs
      ensures Valid() && Run(old(View()), trace) == Some(View())
      ensures entered <==> old(db.status).Pending? || old(db.status).Active?
      ensures o < |procs.orchs| && procs.orchs[o] == if entered then Looping else Exited
      ensures Own(trace, o) == [Enter]
      ensures meanwhile == [] ==> View() == old(View()).(orchs := procs.orchs, status := if entered then Active else old(db.status))
    {
      hide Inv;
      ghost var before := View();
      entered := db.status.Pending? || db.status.Active?;
      if entered {
        db.status := Active;
      }
      procs.MoveOrch(o, if entered then Looping else Exited);
      trace := YieldTick(before, Enter, o, meanwhile);
    }

    method ReadStatusRow(o: nat, meanwhile: seq<Event>) returns (active: bool, ghost trace: seq<Event>)
      requires Valid() && o < |procs.orchs| && procs.orchs[o] == Looping
      modifies optuna, db, procs
      ensures Valid() && Run(old(View()), trace) == Some(View())
      ensures o < |procs.orchs| && procs.orchs[o] == if active then StatusRead else Exited
      ensures Own(trace, o) == [ReadStatus]
      ensures active <==> old(db.status).Active?
      ensures meanwhile == [] ==> View() == old(View()).(orchs := procs.orchs)
    {
      hide Inv;
      ghost var before := View();
      active := db.status.Active?;
      procs.MoveOrch(o, if active then StatusRead else Exited);
      trace := YieldTick(before, ReadStatus, o, meanwhile);
    }

    // `aggregate_trials_summary`: complete + failed + pruned.
    method Summarise(o: nat, meanwhile: seq<Event>) returns (terminal: nat, ghost trace: seq<Event>)
      requires Valid() && o < |procs.orchs| && procs.orchs[o] == StatusRead
      modifies optuna, db, procs
      ensures Valid() && Run(old(View()), trace) == Some(View())
      ensures o < |procs.orchs| && procs.orchs[o] == Summarised(terminal)
      ensures Own(trace, o) == [ReadSummary]
      ensures terminal == |old(db.rows)|
      ensures meanwhile == [] ==> View() == old(View()).(orchs := procs.orchs)
    {
      hide Inv;
      ghost var before := View();
      terminal := |db.rows|;
      procs.MoveOrch(o, Summarised(terminal));
      trace := YieldTick(before, ReadSummary, o, meanwhile);
    }

    // The two streak queries, in their order.
    method DetectFailures(o: nat, terminal: nat, meanwhile: seq<Event>) returns (streak: bool, ghost trace: seq<Event>)
      requires Valid() && o < |procs.orchs| && procs.orchs[o] == Summarised(terminal)
      modifies optuna, db, procs
      ensures Valid() && Run(old(View()), trace) == Some(View())
      ensures o < |procs.orchs| && procs.orchs[o] == if streak then FailingStudy(ConsecutiveFailures) else FailuresChecked(terminal)
      ensures Own(trace, o) == [CheckFailures]
      ensures streak <==> LastNAllFailed(old(db.rows), 5)
      ensures meanwhile == [] ==> View() == old(View()).(orchs := procs.orchs)
    {
      hide Inv;
      ghost var before := View();
      streak := LastNAllFailed(db.rows, CONSECUTIVE_FAILURE_THRESHOLD);
      hide LastNAllFailed;
      procs.MoveOrch(o, if streak then FailingStudy(ConsecutiveFailures) else FailuresChecked(terminal));
      trace := YieldTick(before, CheckFailures, o, meanwhile);
    }

    method DetectZeros(o: nat, terminal: nat, meanwhile: seq<Event>) returns (streak: bool, ghost trace: seq<Event>)
      requires Valid() && o < |procs.orchs| && procs.orchs[o] == FailuresChecked(terminal)
      modifies optuna, db, procs
      ensures Valid() && Run(old(View()), trace) == Some(View())
      ensures o < |procs.orchs| && procs.orchs[o] == if streak then FailingStudy(NoSignal) else ZerosChecked(terminal)
      ensures Own(trace, o) == [CheckZeros]
      ensures streak <==> LastNAllZero(old(db.rows), 20)
      ensures meanwhile == [] ==> View() == old(View()).(orchs := procs.orchs)
    {
      hide Inv;
      ghost var before := View();
      streak := LastNAllZero(db.rows, ZERO_STREAK_THRESHOLD);
      hide LastNAllZero;
      procs.MoveOrch(o, if streak then FailingStudy(NoSignal) else ZerosChecked(terminal));
      trace := YieldTick(before, CheckZeros, o, meanwhile);
    }

    // fail_study, with a lost race tolerated.
    method FailStudyRow(o: nat, why: FailReason, meanwhile: seq<Event>) returns (ghost trace: seq<Event>)
      requires Valid() && o < |procs.orchs| && procs.orchs[o] == FailingStudy(why)
      modifies optuna, db, procs
      ensures Valid() && Run(old(View()), trace) == Some(View())
      ensures o < |procs.orchs| && procs.orchs[o] == Exited
      ensures Own(trace, o) == [FailStudy]
      ensures meanwhile == [] ==> View() == old(View()).(orchs := procs.orchs, status := if old(db.status).Active? then FailedStudy(why) else old(db.status))
    {
      hide Inv;
      ghost var before := View();
      if db.status.Active? {
        db.status := FailedStudy(why);
      }
      procs.MoveOrch(o, Exited);
      trace := YieldTick(before, FailStudy, o, meanwhile);
    }

    method CheckStops(o: nat, terminal: nat, budgetSpent: bool, meanwhile: seq<Event>)
      returns (stop: Option<StopReason>, ghost trace: seq<Event>)
      requires Valid() && o < |procs.orchs| && procs.orchs[o] == ZerosChecked(terminal)
      modifies optuna, db, procs
      ensures Valid() && Run(old(View()), trace) == Some(View())
      ensures stop == if setup.maxTrials.Some? && terminal >= setup.maxTrials.value then Some(MaxTrialsReached)
                      else if setup.hasBudget && budgetSpent then Some(TimeBudgetExceeded) else None
      ensures o < |procs.orchs| && procs.orchs[o] == if stop.Some? then Stopping(stop.value) else BeforeLock
      ensures Own(trace, o) == [Decide(budgetSpent)]
      ensures meanwhile == [] ==> View() == old(View()).(orchs := procs.orchs)
    {
      hide Inv;
      ghost var before := View();
      stop := None;
      if setup.maxTrials.Some? && terminal >= setup.maxTrials.value {
        stop := Some(MaxTrialsReached);
      } else if setup.hasBudget && budgetSpent {
        stop := Some(TimeBudgetExceeded);
      }
      procs.MoveOrch(o, if stop.Some? then Stopping(stop.value) else BeforeLock);
      trace := YieldTick(before, Decide(budgetSpent), o, meanwhile);
    }

    // complete_study, with a lost race tolerated.
    method CompleteStudyRow(o: nat, stop: StopReason, meanwhile: seq<Event>) returns (ghost trace: seq<Event>)
      requires Valid() && o < |procs.orchs| && procs.orchs[o] == Stopping(stop)
      modifies optuna, db, procs
      ensures Valid() && Run(old(View()), trace) == Some(View())
      ensures o < |procs.orchs| && procs.orchs[o] == Exited
      ensures Own(trace, o) == [CompleteStudy]
      ensures meanwhile == [] ==> View() == old(View()).(orchs := procs.orchs, status := if old(db.status).Active? then Completed(stop) else old(db.status))
    {
      hide Inv;
      ghost var before := View();
      if db.status.Active? {
        db.status := Completed(stop);
      }
      procs.MoveOrch(o, Exited);
      trace := YieldTick(before, CompleteStudy, o, meanwhile);
    }

    method AcquireLock(o: nat, meanwhile: seq<Event>) returns (got: bool, ghost trace: seq<Event>)
      requires Valid() && o < |procs.orchs| && procs.orchs[o] == BeforeLock
      modifies optuna, db, procs
      ensures Valid() && Run(old(View()), trace) == Some(View())
      ensures o < |procs.orchs| && procs.orchs[o] == if got then Locked else Looping
      ensures got <==> old(db.lock).None?
      ensures Own(trace, o) == [TryLock]
      ensures meanwhile == [] ==> View() == old(View()).(orchs := procs.orchs, lock := if got then Some(o) else old(db.lock))
    {
      hide Inv;
      ghost var before := View();
      got := db.TryLock(o);
      procs.MoveOrch(o, if got then Locked else Looping);
      trace := YieldTick(before, TryLock, o, meanwhile);
    }

    method CountSlots(o: nat, meanwhile: seq<Event>, later: seq<Event>) returns (slots: int, ghost trace: seq<Event>)
      requires Valid() && o < |procs.orchs| && procs.orchs[o] == Locked
      modifies optuna, db, procs
      ensures Valid() && Run(old(View()), trace) == Some(View())
      ensures o < |procs.orchs| && procs.orchs[o] == Filling(slots)
      ensures Own(trace, o) == [ReadInFlight, ReadTotal]
      ensures meanwhile == later == [] ==>
                && View() == old(View()).(orchs := procs.orchs)
                && slots <= setup.parallelism - InFlight(optuna.trials)
                && (setup.maxTrials.Some? ==> slots <= setup.maxTrials.value - |optuna.trials|)
                && (slots == setup.parallelism - InFlight(optuna.trials)
                    || (setup.maxTrials.Some? && slots == setup.maxTrials.value - |optuna.trials|))
    {
      hide Inv, Run, Own, InFlight;
      ghost var start := View();
      var inFlight := optuna.CountInFlight();
      procs.MoveOrch(o, Counted(inFlight));
      trace := YieldTick(start, ReadInFlight, o, meanwhile);
      ghost var before := View();
      slots := setup.parallelism - inFlight;
      if setup.maxTrials.Some? {
        slots := Min(slots, setup.maxTrials.value - |optuna.trials|);
      }
      procs.MoveOrch(o, Filling(slots));
      ghost var more := YieldTick(before, ReadTotal, o, later);
      trace := OwnJoined(start, trace, before, more, View(), o);
    }

    method AskForTrial(o: nat, slots: int, meanwhile: seq<Event>) returns (number: nat, ghost trace: seq<Event>)
      requires Valid() && o < |procs.orchs| && procs.orchs[o] == Filling(slots) && slots > 0
      modifies optuna, db, procs
      ensures Valid() && Run(old(View()), trace) == Some(View())
      ensures o < |procs.orchs| && procs.orchs[o] == Asked(number, slots - 1)
      ensures Own(trace, o) == [Ask]
      ensures meanwhile == [] ==>
                && number == |old(optuna.trials)|
                && View() == old(View()).(orchs := procs.orchs, trials := old(optuna.trials) + [OptunaTrial(Running, None, map[])],
                                          jobs := old(procs.jobs) + [Job(Unqueued, 0)])
    {
      hide Inv;
      ghost var before := View();
      number := optuna.Ask();
      procs.jobs := procs.jobs + [Job(Unqueued, 0)];
      procs.MoveOrch(o, Asked(number, slots - 1));
      trace := YieldTick(before, Ask, o, meanwhile);
    }

    // apply_search_space
    method SuggestParams(o: nat, number: nat, left: int, params: Params, meanwhile: seq<Event>)
      returns (ghost trace: seq<Event>)
      requires Valid() && o < |procs.orchs| && procs.orchs[o] == Asked(number, left)
      modifies optuna, db, procs
      ensures Valid() && Run(old(View()), trace) == Some(View())
      ensures o < |procs.orchs| && procs.orchs[o] == Suggested(number, left)
      ensures Own(trace, o) == [Suggest(params)]
      ensures meanwhile == [] ==>
                && number < |old(optuna.trials)|
                && View() == old(View()).(orchs := procs.orchs,
                                          trials := old(optuna.trials)[number := old(optuna.trials)[number].(params := params)])
    {
      ghost var before := View();
      assert PcBound(before, before.orchs[o]);
      hide Inv;
      optuna.SetParams(number, params);
      procs.MoveOrch(o, Suggested(number, left));
      trace := YieldTick(before, Suggest(params), o, meanwhile);
    }

    // arq_pool.enqueue_job; an error ends the orchestrator's job and with it the lock.
    method EnqueueTrial(o: nat, number: nat, left: int, w: Write, meanwhile: seq<Event>)
      returns (raised: bool, ghost trace: seq<Event>)
      requires Valid() && o < |procs.orchs| && procs.orchs[o] == Suggested(number, left)
      modifies optuna, db, procs
      ensures Valid() && Run(old(View()), trace) == Some(View())
      ensures raised <==> w != Done
      ensures o < |procs.orchs| && procs.orchs[o] == if raised then Exited else Filling(left)
      ensures Own(trace, o) == [Enqueue(w)]
      ensures meanwhile == [] ==>
                && number < |old(procs.jobs)|
                && View() == old(View()).(orchs := procs.orchs,
                                          lock := if raised && old(db.lock) == Some(o) then None else old(db.lock),
                                          jobs := if w == Lost then old(procs.jobs) else old(procs.jobs)[number := Job(Queued, 0)])
    {
      ghost var before := View();
      assert PcBound(before, before.orchs[o]);
      hide Inv;
      if w != Lost {
        procs.jobs := procs.jobs[number := Job(Queued, 0)];
      }
      raised := w != Done;
      if raised && db.lock == Some(o) {
        db.lock := None;
      }
      procs.MoveOrch(o, if raised then Exited else Filling(left));
      trace := YieldTick(before, Enqueue(w), o, meanwhile);
    }

    method ReleaseLock(o: nat, slots: int, meanwhile: seq<Event>) returns (ghost trace: seq<Event>)
      requires Valid() && o < |procs.orchs| && procs.orchs[o] == Filling(slots) && slots <= 0
      modifies optuna, db, procs
      ensures Valid() && Run(old(View()), trace) == Some(View())
      ensures o < |procs.orchs| && procs.orchs[o] == Looping
      ensures Own(trace, o) == [Release]
      ensures meanwhile == [] ==> View() == old(View()).(orchs := procs.orchs, lock := if old(db.lock) == Some(o) then None else old(db.lock))
    {
      hide Inv;
      ghost var before := View();
      if db.lock == Some(o) {
        db.lock := None;
      }
      procs.MoveOrch(o, Looping);
      trace := YieldTick(before, Release, o, meanwhile);
    }

    // -------------------------------------------------------------------------
    // One tick of start_study's loop
    // -------------------------------------------------------------------------

    // The two streaks, each failing the study.
    method CheckStreaks(o: nat, terminal: nat, others: nat -> seq<Event>) returns (exited: bool, ghost trace: seq<Event>)
      requires Valid() && o < |procs.orchs| && procs.orchs[o] == Summarised(terminal)
      modifies optuna, db, procs
      ensures Valid() && Run(old(View()), trace) == Some(View())
      ensures o < |procs.orchs| && procs.orchs[o] == if exited then Exited else ZerosChecked(terminal)
      ensures !exited ==> Own(trace, o) == [CheckFailures, CheckZeros]
      ensures exited ==> Own(trace, o) == [CheckFailures, FailStudy] || Own(trace, o) == [CheckFailures, CheckZeros, FailStudy]
      ensures Undisturbed(others) ==>
                && View() == old(View()).(orchs := procs.orchs, status := db.status)
                && (exited <==> LastNAllFailed(old(db.rows), 5) || LastNAllZero(old(db.rows), 20))
                && (old(db.status).Active? ==>
                      db.status == if LastNAllFailed(old(db.rows), 5) then FailedStudy(ConsecutiveFailures)
                                   else if LastNAllZero(old(db.rows), 20) then FailedStudy(NoSignal) else Active)
    {
      hide Inv, Step, Run, Own;
      ghost var start := View();
      ghost var more: seq<Event>;
      var streak: bool;
      streak, trace := DetectFailures(o, terminal, others(2));
      ghost var middle := View();
      if streak {
        more := FailStudyRow(o, ConsecutiveFailures, others(3));
        trace := OwnJoined(start, trace, middle, more, View(), o);
        return true, trace;
      }
      streak, more := DetectZeros(o, terminal, others(3));
      trace := OwnJoined(start, trace, middle, more, View(), o);
      middle := View();
      exited := streak;
      if streak {
        more := FailStudyRow(o, NoSignal, others(4));
        trace := OwnJoined(start, trace, middle, more, View(), o);
      }
    }

    // The two limits, each completing the study.
    method CheckLimits(o: nat, terminal: nat, budgetSpent: bool, others: nat -> seq<Event>) returns (exited: bool, ghost trace: seq<Event>)
      requires Valid() && o < |procs.orchs| && procs.orchs[o] == ZerosChecked(terminal)
      modifies optuna, db, procs
      ensures Valid() && Run(old(View()), trace) == Some(View())
      ensures o < |procs.orchs| && procs.orchs[o] == if exited then Exited else BeforeLock
      ensures Own(trace, o) == if exited then [Decide(budgetSpent), CompleteStudy] else [Decide(budgetSpent)]
      ensures Undisturbed(others) ==>
                && View() == old(View()).(orchs := procs.orchs, status := db.status)
                && var enough := setup.maxTrials.Some? && terminal >= setup.maxTrials.value;
                   && (exited <==> enough || (setup.hasBudget && budgetSpent))
                   && (old(db.status).Active? ==>
                         db.status == if enough then Completed(MaxTrialsReached)
                                      else if setup.hasBudget && budgetSpent then Completed(TimeBudgetExceeded) else Active)
    {
      hide Inv, Step, Run, Own;
      ghost var start := View();
      var stop: Option<StopReason>;
      stop, trace := CheckStops(o, terminal, budgetSpent, others(4));
      exited := stop.Some?;
      if exited {
        ghost var middle := View();
        ghost var more := CompleteStudyRow(o, stop.value, others(5));
        trace := OwnJoined(start, trace, middle, more, View(), o);
      }
    }

    // The stop conditions: failure streak, zero streak, max_trials, time budget. The tick's own
    // steps are these checks in this order, up to the one that ends it.
    method DecideTick(o: nat, budgetSpent: bool, others: nat -> seq<Event>) returns (exited: bool, ghost trace: seq<Event>)
      requires Valid() && o < |procs.orchs| && procs.orchs[o] == Looping
      modifies optuna, db, procs
      ensures Valid() && Run(old(View()), trace) == Some(View())
      ensures o < |procs.orchs| && procs.orchs[o] == if exited then Exited else BeforeLock
      ensures InCheckOrder(Own(trace, o), exited, budgetSpent)
      ensures Undisturbed(others) ==>
                && View() == old(View()).(orchs := procs.orchs, status := db.status)
                && Verdict(setup, old(db.rows), budgetSpent, old(db.status), db.status, exited)
    {
      hide Inv, Step, Run, Own;
      ghost var start := View();
      ghost var more: seq<Event>;
      var active: bool, terminal: nat;
      active, trace := ReadStatusRow(o, others(0));
      if !active {
        return true, trace;
      }
      ghost var middle := View();
      terminal, more := Summarise(o, others(1));
      trace := OwnJoined(start, trace, middle, more, View(), o);
      middle := View();
      exited, more := CheckStreaks(o, terminal, others);
      ghost var first := Own(more, o);
      trace := OwnJoined(start, trace, middle, more, View(), o);
      if !exited {
        middle := View();
        exited, more := CheckLimits(o, terminal, budgetSpent, others);
        trace := OwnJoined(start, trace, middle, more, View(), o);
        ChecksInOrder(first, Own(more, o), false, exited, budgetSpent);
      } else {
        ChecksInOrder(first, [], true, true, budgetSpent);
      }
    }

    // One slot: ask, suggest, enqueue.
    method FillSlot(o: nat, left: nat, params: Params, w: Write, first: seq<Event>, second: seq<Event>, third: seq<Event>)
      returns (raised: bool, ghost trace: seq<Event>)
      requires Valid() && o < |procs.orchs| && procs.orchs[o] == Filling(left + 1)
      modifies optuna, db, procs
      ensures Valid() && Run(old(View()), trace) == Some(View())
      ensures raised <==> w != Done
      ensures o < |procs.orchs| && procs.orchs[o] == if raised then Exited else Filling(left)
      ensures Own(trace, o) == [Ask, Suggest(params), Enqueue(w)]
      ensures first == second == third == [] ==>
                View() == old(View()).(orchs := procs.orchs,
                                       lock := if raised && old(db.lock) == Some(o) then None else old(db.lock),
                                       trials := old(optuna.trials) + [OptunaTrial(Running, None, params)],
                                       jobs := old(procs.jobs) + [Job(if w == Lost then Unqueued else Queued, 0)])
    {
      hide Inv, Step, Run, Own;
      ghost var start := View();
      ghost var more: seq<Event>;
      var number: nat;
      number, trace := AskForTrial(o, left + 1, first);
      ghost var middle := View();
      more := SuggestParams(o, number, left, params, second);
      trace := OwnJoined(start, trace, middle, more, View(), o);
      middle := View();
      raised, more := EnqueueTrial(o, number, left, w, third);
      trace := OwnJoined(start, trace, middle, more, View(), o);
    }

    // Asking, suggesting and enqueuing, slot by slot. It goes through all slots unless an enqueue
    // raises; undisturbed, there is then one new running trial with a queued job for each.
    method FillSlots(o: nat, slots: int, params: nat -> Params, enqueue: nat -> Write, others: nat -> seq<Event>)
      returns (exited: bool, ghost filled: nat, ghost trace: seq<Event>)
      requires Valid() && o < |procs.orchs| && procs.orchs[o] == Filling(slots)
      modifies optuna, db, procs
      ensures Valid() && Run(old(View()), trace) == Some(View())
      ensures o < |procs.orchs| && procs.orchs[o] == if exited then Exited else Filling(Min(slots, 0))
      ensures if exited then 0 < filled <= slots && enqueue(filled - 1) != Done else filled == Max(0, slots)
      ensures Own(trace, o) == FillActs(params, enqueue, filled) && AllDone(enqueue, if exited then filled - 1 else filled)
      ensures Undisturbed(others) && !exited ==> Grown(old(View()), View(), params, filled)
      ensures Undisturbed(others) ==> db.status == old(db.status) && db.rows == old(db.rows)
    {
      hide Inv, Step, Run, Own, Grown, FillActs;
      ghost var start := View();
      ghost var more: seq<Event>;
      trace, filled := [], 0;
      EmptyRun(start);
      NothingFilled(start, params, enqueue, o);
      for i := 0 to Max(0, slots)
        invariant Valid() && Run(start, trace) == Some(View())
        invariant o < |procs.orchs| && procs.orchs[o] == Filling(slots - i)
        invariant filled == i && AllDone(enqueue, i)
        invariant Own(trace, o) == FillActs(params, enqueue, i)
        invariant Undisturbed(others) ==> Grown(start, View(), params, i) && db.status == start.status && db.rows == start.rows
      {
        ghost var middle := View();
        exited, more := FillSlot(o, slots - i - 1, params(i), enqueue(i), others(3 * i), others(3 * i + 1), others(3 * i + 2));
        trace := OwnJoined(start, trace, middle, more, View(), o);
        FillActsSnoc(params, enqueue, i);
        filled := i + 1;
        if exited {
          return;
        }
        GrownMore(start, middle, View(), params, i);
      }
      exited := false;
    }

    // The replenishment under the lock. Undisturbed and with no enqueue raising, it goes on until
    // the allocated trials reach max_trials or those in flight equal the parallelism.
    method Replenish(o: nat, params: nat -> Params, enqueue: nat -> Write, others: nat -> seq<Event>)
      returns (exited: bool, ghost trace: seq<Event>)
      requires Valid() && o < |procs.orchs| && procs.orchs[o] == BeforeLock
      modifies optuna, db, procs
      ensures Valid() && Run(old(View()), trace) == Some(View())
      ensures o < |procs.orchs| && procs.orchs[o] == if exited then Exited else Looping
      ensures ReplenishActs(Own(trace, o), exited, params, enqueue)
      ensures Undisturbed(others) ==> db.status == old(db.status) && db.rows == old(db.rows)
      ensures Undisturbed(others) && old(db.lock).Some? ==> !exited && View() == old(View()).(orchs := procs.orchs)
      ensures Undisturbed(others) && old(db.lock).None? && AllEnqueue(enqueue) ==>
                !exited && Full(View()) && Topped(old(View()), View(), params)
    {
      hide Inv, Step, Run, Own, FillActs, Full, Topped, LockedActs;
      ghost var start := View();
      var got: bool;
      got, trace := AcquireLock(o, others(6));
      exited := false;
      if got {
        ghost var middle := View();
        ghost var more: seq<Event>;
        exited, more := ReplenishLocked(o, params, enqueue, others);
        ghost var first := trace;
        trace := OwnJoined(start, first, middle, more, View(), o);
        LocksFirst(Own(more, o), exited, params, enqueue);
        ToppedFrom(start, middle, View(), params);
      }
    }

    method ReplenishLocked(o: nat, params: nat -> Params, enqueue: nat -> Write, others: nat -> seq<Event>)
      returns (exited: bool, ghost trace: seq<Event>)
      requires Valid() && o < |procs.orchs| && procs.orchs[o] == Locked
      modifies optuna, db, procs
      ensures Valid() && Run(old(View()), trace) == Some(View())
      ensures o < |procs.orchs| && procs.orchs[o] == if exited then Exited else Looping
      ensures LockedActs(Own(trace, o), exited, params, enqueue)
      ensures Undisturbed(others) ==> db.status == old(db.status) && db.rows == old(db.rows)
      ensures Undisturbed(others) && AllEnqueue(enqueue) ==> !exited && Full(View()) && Topped(old(View()), View(), params)
    {
      hide Inv, Step, Run, Own, FillActs, Grown, Full, Topped, LockedActs;
      ghost var start := View();
      ghost var more: seq<Event>;
      var slots: int;
      slots, trace := CountSlots(o, others(7), others(8));
      ghost var middle := View();
      InvBounds(middle);
      ghost var filled: nat;
      exited, filled, more := FillSlots(o, slots, params, enqueue, (i: nat) => others(10 + i));
      trace := OwnJoined(start, trace, middle, more, View(), o);
      ghost var last: seq<OrchAction> := [];
      if !exited {
        ghost var after := View();
        more := ReleaseLock(o, Min(slots, 0), others(9));
        trace := OwnJoined(start, trace, after, more, View(), o);
        last := Own(more, o);
        GrownIsFull(start, middle, after, View(), params, filled, slots);
      }
      LockedInOrder(last, exited, params, enqueue, filled);
    }

    // Whatever the others do meanwhile, a tick is a run of the protocol; it ends at the top of
    // the loop or has left it, and the limits hold. Undisturbed, the study's status is the one
    // its rows, limits and budget call for, and a study that goes on is filled up.
    method Tick(o: nat, budgetSpent: bool, params: nat -> Params, enqueue: nat -> Write, others: nat -> seq<Event>)
      returns (exited: bool, ghost decided: bool, ghost trace: seq<Event>)
      requires Valid() && o < |procs.orchs| && procs.orchs[o] == Looping
      modifies optuna, db, procs
      ensures Valid() && Run(old(View()), trace) == Some(View())
      ensures o < |procs.orchs| && procs.orchs[o] == if exited then Exited else Looping
      ensures InFlight(optuna.trials) <= setup.parallelism
      ensures setup.maxTrials.Some? ==> |optuna.trials| <= setup.maxTrials.value
      ensures TickActs(Own(trace, o), decided, exited, budgetSpent, params, enqueue)
      ensures Undisturbed(others) ==>
                && Verdict(setup, old(db.rows), budgetSpent, old(db.status), db.status, decided)
                && (decided ==> View() == old(View()).(orchs := procs.orchs, status := db.status))
      ensures Undisturbed(others) && !decided && old(db.lock).None? && AllEnqueue(enqueue) ==>
                !exited && Full(View()) && Topped(old(View()), View(), params)
    {
      hide Inv, Step, Run, Own, Topped, Full, ReplenishActs, InCheckOrder, LastNAllFailed, LastNAllZero;
      ghost var start := View();
      exited, trace := DecideTick(o, budgetSpent, others);
      decided := exited;
      ghost var first := trace;
      if !exited {
        ghost var middle := View();
        ghost var more: seq<Event>;
        exited, more := Replenish(o, params, enqueue, others);
        trace := OwnJoined(start, first, middle, more, View(), o);
        ToppedFrom(start, middle, View(), params);
        assert TickActs(Own(trace, o), decided, exited, budgetSpent, params, enqueue);
      }
      InvBounds(View());
    }
  }

  // ---------------------------------------------------------------------------
  // What one undisturbed execution comes to
  // ---------------------------------------------------------------------------

  // Nothing has changed but where the jobs are.
  predicate Same(s: State, t: State) { t == s.(jobs := t.jobs) }

  predicate Adds(s: State, t: State, row: Option<TrialRow>) {
    t == s.(jobs := t.jobs, rows := if row.Some? then s.rows + [row.value] else s.rows)
  }

  function WithValue(s: State, n: nat, v: real): State
    requires n < |s.trials|
  {
    s.(trials := s.trials[n := s.trials[n].(state := Complete, value := Some(v))])
  }

  function WithFailure(s: State, n: nat, applied: bool): State
    requires n < |s.trials|
  {
    if applied && !Finished(s.trials[n]) then s.(trials := s.trials[n := s.trials[n].(state := Fail)]) else s
  }

  // The try block: which fault ends it how, and what it has told and written by then. A number
  // with a row is left alone.
  predicate Tried(s: State, t: State, n: nat, id: TrialId, f: TrialFaults, end: TryEnd)
    requires n < |s.trials|
  {
    if f.lookup.GoesDown? then end == Reraises && Same(s, t)
    else if f.lookup.Breaks? then end == Failure(false, map[]) && Same(s, t)
    else if RowsOf(s.rows, n) != [] then end == Returns && Same(s, t)
    else TriedLoaded(s, t, n, id, f, end)
  }

  // A finished trial only gets the row of its state.
  predicate TriedLoaded(s: State, t: State, n: nat, id: TrialId, f: TrialFaults, end: TryEnd)
    requires n < |s.trials|
  {
    var trial := s.trials[n];
    if f.load.GoesDown? then end == Reraises && Same(s, t)
    else if f.load.Breaks? then end == Failure(true, map[]) && Same(s, t)
    else if Finished(trial) then
      && Adds(s, t, if f.reconcile.Lost? then None else Some(ReconstructedRow(id, n, trial)))
      && end == if f.reconcile.Done? then Returns else if f.reconcileOperational then Reraises else Failure(true, trial.params)
    else Ran(s, t, n, id, f, end)
  }

  // A running trial is scored, told complete and gets its row.
  predicate Ran(s: State, t: State, n: nat, id: TrialId, f: TrialFaults, end: TryEnd)
    requires n < |s.trials|
  {
    var params := s.trials[n].params;
    match f.execution
    case LosesDb => end == Reraises && Same(s, t)
    case Fails => end == Failure(true, params) && Same(s, t)
    case Scores(v) =>
      if f.tell.Done? then
        && Adds(WithValue(s, n, v), t, if f.insert.Lost? then None else Some(TrialRow(id, n, RowComplete, Some(v), params)))
        && end == if f.insert.Done? then Returns else Reraises
      else
        && Same(if f.tell.Lost? then s else WithValue(s, n, v), t)
        && end == if f.tellOperational then Reraises else Failure(true, params)
  }

  // The handler: a failure that is not re-raised is told to Optuna, if the study was bound, and
  // written as a failed row, unless the execution's row has landed already.
  predicate CleansUp(s: State, t: State, n: nat, id: TrialId, f: TrialFaults, end: TryEnd, raised: bool)
    requires n < |s.trials|
  {
    match end
    case Returns => !raised && Same(s, t)
    case Reraises => raised && Same(s, t)
    case Failure(bound, seen) =>
      && (raised <==> Taken(s.rows, id) || !f.failInsert.Done?)
      && Adds(if bound then WithFailure(s, n, f.failTell) else s, t,
              if Taken(s.rows, id) || f.failInsert.Lost? then None else Some(TrialRow(id, n, RowFailed, None, seen)))
  }

  ghost predicate Ends(s: State, t: State, n: nat, id: TrialId, f: TrialFaults, raised: bool)
    requires n < |s.trials|
  {
    exists tried, end {:trigger Tried(s, tried, n, id, f, end)} ::
      Tried(s, tried, n, id, f, end) && n < |tried.trials| && CleansUp(tried, t, n, id, f, end, raised)
  }

  // With its job moved on, it comes to the same.
  lemma RanFrom(start: State, s: State, t: State, n: nat, id: TrialId, f: TrialFaults, end: TryEnd)
    requires n < |start.trials| && n < |s.trials|
    ensures Same(start, s) && Ran(s, t, n, id, f, end) ==> Ran(start, t, n, id, f, end)
  {
  }

  lemma TriedFrom(start: State, s: State, t: State, n: nat, id: TrialId, f: TrialFaults, end: TryEnd)
    requires n < |start.trials| && n < |s.trials|
    ensures Same(start, s) && TriedLoaded(s, t, n, id, f, end) ==> TriedLoaded(start, t, n, id, f, end)
    ensures Same(start, s) && Tried(s, t, n, id, f, end) ==> Tried(start, t, n, id, f, end)
  {
    hide RowsOf, ReconstructedRow, Ran;
    RanFrom(start, s, t, n, id, f, end);
  }

  lemma EndsSo(start: State, begun: State, tried: State, t: State, n: nat, id: TrialId, f: TrialFaults, end: TryEnd, raised: bool)
    requires Same(start, begun) && n < |begun.trials| && n < |tried.trials|
    requires Tried(begun, tried, n, id, f, end) && CleansUp(tried, t, n, id, f, end, raised)
    ensures Ends(start, t, n, id, f, raised)
  {
    TriedFrom(start, begun, tried, n, id, f, end);
    hide Tried, CleansUp;
  }

  // The row carries the state of its trial.
  predicate StatesAgree(row: TrialRow, t: OptunaTrial) {
    && (row.status == RowComplete <==> t.state == Complete)
    && (row.status == RowFailed <==> t.state == Fail)
    && (row.status == RowPruned <==> t.state == Pruned)
    && row.params == t.params && row.metric == if t.state == Fail then None else t.value
  }

  // A trial that was told, but has no row, gets one with its state from the next undisturbed
  // delivery: a death between tell and INSERT loses nothing.
  lemma RedeliveryRebuilds(s: State, t: State, n: nat, id: TrialId, f: TrialFaults, raised: bool)
    requires n < |s.trials| && Finished(s.trials[n]) && RowsOf(s.rows, n) == [] && Ends(s, t, n, id, f, raised)
    requires f.lookup.Reads? && f.load.Reads? && f.reconcile.Done?
    ensures !raised && t.trials == s.trials && |t.rows| == |s.rows| + 1 && t.rows[..|s.rows|] == s.rows
    ensures var row := t.rows[|s.rows|]; row.id == id && row.number == n && StatesAgree(row, s.trials[n])
  {
    var tried, end :| Tried(s, tried, n, id, f, end) && n < |tried.trials| && CleansUp(tried, t, n, id, f, end, raised);
    assert t.rows == s.rows + [ReconstructedRow(id, n, s.trials[n])];
  }

  lemma NextIdIsFree(s: State, n: nat)
    requires Inv(s) && n < |s.jobs|
    ensures !Taken(s.rows, TrialId(n, s.jobs[n].attempt + 1))
  {
    assert CellOf(s, n);
    var id := TrialId(n, s.jobs[n].attempt + 1);
    if Taken(s.rows, id) {
      var i :| 0 <= i < |s.rows| && s.rows[i].id == id;
      RowIsAmongItsOwn(s.rows, i);
    }
  }

  lemma {:induction false} RowIsAmongItsOwn(rows: seq<TrialRow>, i: nat)
    requires i < |rows|
    ensures rows[i] in RowsOf(rows, rows[i].number)
  {
    if i < |rows| - 1 { RowIsAmongItsOwn(rows[..|rows| - 1], i); }
  }

  // ---------------------------------------------------------------------------
  // What one undisturbed tick comes to
  // ---------------------------------------------------------------------------

  ghost predicate Undisturbed(others: nat -> seq<Event>) { forall k: nat :: others(k) == [] }

  // What a tick makes of the study: failed on a streak of failures, else on one of zeros, else
  // completed at max_trials, else on its time budget, else it goes on.
  predicate Verdict(setup: Setup, rows: seq<TrialRow>, budgetSpent: bool, before: Status, after: Status, decided: bool) {
    if !before.Active? then decided && after == before
    else if LastNAllFailed(rows, 5) then decided && after == FailedStudy(ConsecutiveFailures)
    else if LastNAllZero(rows, 20) then decided && after == FailedStudy(NoSignal)
    else if setup.maxTrials.Some? && |rows| >= setup.maxTrials.value then decided && after == Completed(MaxTrialsReached)
    else if setup.hasBudget && budgetSpent then decided && after == Completed(TimeBudgetExceeded)
    else !decided && after == Active
  }

  // No slot is left.
  predicate Full(s: State) {
    InFlight(s.trials) == s.setup.parallelism || (s.setup.maxTrials.Some? && |s.trials| == s.setup.maxTrials.value)
  }

  // n new running trials, each with its parameters and a queued job; nothing else but places
  // and the lock.
  ghost predicate Grown(s: State, t: State, params: nat -> Params, n: nat) {
    && |t.trials| == |s.trials| + n && |t.jobs| == |s.jobs| + n && |s.jobs| == |s.trials|
    && t.trials[..|s.trials|] == s.trials && t.jobs[..|s.jobs|] == s.jobs
    && (forall i: nat :: i < n ==> NewAt(s, t, params, i))
    && InFlight(t.trials) == InFlight(s.trials) + n
    && t.status == s.status && t.rows == s.rows && t.setup == s.setup
  }

  predicate NewAt(s: State, t: State, params: nat -> Params, i: nat) {
    && |s.trials| + i < |t.trials| && t.trials[|s.trials| + i] == OptunaTrial(Running, None, params(i))
    && |s.jobs| + i < |t.jobs| && t.jobs[|s.jobs| + i] == Job(Queued, 0)
  }

  predicate AllDone(enqueue: nat -> Write, n: nat) { forall i :: 0 <= i < n ==> enqueue(i) == Done }

  // The own actions of n slots.
  function FillActs(params: nat -> Params, enqueue: nat -> Write, n: nat): seq<OrchAction> {
    if n == 0 then [] else FillActs(params, enqueue, n - 1) + [Ask, Suggest(params(n - 1)), Enqueue(enqueue(n - 1))]
  }

  ghost predicate AllEnqueue(enqueue: nat -> Write) { forall k: nat :: enqueue(k) == Done }

  // As many new ones as there are.
  ghost predicate Topped(s: State, t: State, params: nat -> Params) {
    |t.trials| >= |s.trials| && Grown(s, t, params, |t.trials| - |s.trials|)
  }

  // Of a replenishment: the lock, and if it was free the two counts, the slots one by one up to
  // an enqueue that raises, and the release.
  ghost predicate ReplenishActs(acts: seq<OrchAction>, exited: bool, params: nat -> Params, enqueue: nat -> Write) {
    || (acts == [TryLock] && !exited)
    || exists locked :: acts == [TryLock] + locked && LockedActs(locked, exited, params, enqueue)
  }

  ghost predicate LockedActs(acts: seq<OrchAction>, exited: bool, params: nat -> Params, enqueue: nat -> Write) {
    exists n: nat ::
      && acts == [ReadInFlight, ReadTotal] + FillActs(params, enqueue, n) + (if exited then [] else [Release])
      && AllDone(enqueue, if exited && n > 0 then n - 1 else n) && (exited ==> n > 0 && enqueue(n - 1) != Done)
  }

  // Of a tick: its checks, and a replenishment if they do not end it.
  ghost predicate TickActs(acts: seq<OrchAction>, decided: bool, exited: bool, budgetSpent: bool, params: nat -> Params, enqueue: nat -> Write) {
    if decided then exited && InCheckOrder(acts, true, budgetSpent)
    else exists a, b :: acts == a + b && InCheckOrder(a, false, budgetSpent) && ReplenishActs(b, exited, params, enqueue)
  }

  lemma NothingFilled(s: State, params: nat -> Params, enqueue: nat -> Write, o: nat)
    requires |s.jobs| == |s.trials|
    ensures Grown(s, s, params, 0) && FillActs(params, enqueue, 0) == [] && Own([], o) == []
  {
  }

  lemma FillActsSnoc(params: nat -> Params, enqueue: nat -> Write, n: nat)
    ensures FillActs(params, enqueue, n + 1) == FillActs(params, enqueue, n) + [Ask, Suggest(params(n)), Enqueue(enqueue(n))]
  {
  }

  lemma GrownMore(s: State, t: State, u: State, params: nat -> Params, n: nat)
    requires |t.jobs| == |t.trials|
    ensures Grown(s, t, params, n) && u == t.(orchs := u.orchs, trials := t.trials + [OptunaTrial(Running, None, params(n))], jobs := t.jobs + [Job(Queued, 0)])
            ==> Grown(s, u, params, n + 1)
  {
    InFlightAppend(t.trials, OptunaTrial(Running, None, params(n)));
    hide InFlight;
    if Grown(s, t, params, n) && u == t.(orchs := u.orchs, trials := t.trials + [OptunaTrial(Running, None, params(n))], jobs := t.jobs + [Job(Queued, 0)]) {
      forall i: nat | i < n + 1 ensures NewAt(s, u, params, i) {
        if i < n { assert NewAt(s, t, params, i); }
      }
    }
  }

  lemma GrownElsewhere(start: State, s: State, t: State, end: State, params: nat -> Params, n: nat)
    requires Grown(s, t, params, n)
    requires s == start.(orchs := s.orchs, lock := s.lock) && end == t.(orchs := end.orchs, lock := end.lock)
    ensures Grown(start, end, params, n) && |end.trials| - |start.trials| == n
  {
    hide InFlight;
    forall i: nat | i < n ensures NewAt(start, end, params, i) { assert NewAt(s, t, params, i); }
  }

  lemma GrownIsFull(start: State, s: State, t: State, end: State, params: nat -> Params, n: nat, slots: int)
    requires n == Max(0, slots) && InFlight(s.trials) <= s.setup.parallelism && WithinMax(s, |s.trials|)
    ensures (Grown(s, t, params, n) && s == start.(orchs := s.orchs, lock := s.lock) && end == t.(orchs := end.orchs, lock := end.lock)
             && (slots == s.setup.parallelism - InFlight(s.trials) || (s.setup.maxTrials.Some? && slots == s.setup.maxTrials.value - |s.trials|)))
            ==> Full(end) && Topped(start, end, params)
  {
    if Grown(s, t, params, n) && s == start.(orchs := s.orchs, lock := s.lock) && end == t.(orchs := end.orchs, lock := end.lock) {
      GrownElsewhere(start, s, t, end, params, n);
      assert InFlight(t.trials) == InFlight(s.trials) + n && |t.trials| == |s.trials| + n;
      hide Grown, InFlight;
    }
  }

  lemma ToppedFrom(start: State, middle: State, end: State, params: nat -> Params)
    ensures middle == start.(orchs := middle.orchs, status := start.status, lock := middle.lock) && Topped(middle, end, params)
            ==> Topped(start, end, params)
  {
    if middle == start.(orchs := middle.orchs, status := start.status, lock := middle.lock) && Topped(middle, end, params) {
      GrownElsewhere(start, middle, end, end, params, |end.trials| - |middle.trials|);
    }
  }

  lemma LocksFirst(locked: seq<OrchAction>, exited: bool, params: nat -> Params, enqueue: nat -> Write)
    requires LockedActs(locked, exited, params, enqueue)
    ensures ReplenishActs([TryLock] + locked, exited, params, enqueue)
  {
    hide LockedActs;
  }

  lemma LockedInOrder(last: seq<OrchAction>, exited: bool, params: nat -> Params, enqueue: nat -> Write, n: nat)
    requires last == if exited then [] else [Release]
    requires AllDone(enqueue, if exited && n > 0 then n - 1 else n) && (exited ==> n > 0 && enqueue(n - 1) != Done)
    ensures LockedActs([ReadInFlight, ReadTotal] + FillActs(params, enqueue, n) + last, exited, params, enqueue)
    ensures exited ==> LockedActs([ReadInFlight, ReadTotal] + FillActs(params, enqueue, n), exited, params, enqueue)
  {
    hide FillActs;
    assert exited ==> [ReadInFlight, ReadTotal] + FillActs(params, enqueue, n) + last == [ReadInFlight, ReadTotal] + FillActs(params, enqueue, n);
  }

  // How a read ends: normally, with an OperationalError, or with another exception.
  datatype ReadFault = Reads | GoesDown | Breaks

  datatype Execution = Scores(v: real) | Fails | LosesDb

  // Everything that may go wrong in one execution.
  datatype TrialFaults = TrialFaults(
    lookup: ReadFault, load: ReadFault, reconcile: Write, reconcileOperational: bool, execution: Execution,
    tell: Write, tellOperational: bool, insert: Write, failTell: bool, failInsert: Write)

  datatype TryEnd = Returns | Reraises | Failure(bound: bool, seen: Params)

  lemma Joined(start: State, a: seq<Event>, middle: State, b: seq<Event>, end: State) returns (c: seq<Event>)
    requires |start.jobs| == |start.trials| && |middle.jobs| == |middle.trials|
    requires Run(start, a) == Some(middle) && Run(middle, b) == Some(end)
    ensures c == a + b && Run(start, c) == Some(end)
  {
    RunsCompose(start, a, b);
    c := a + b;
  }

  // The actions of orchestrator o itself, in their order.
  ghost function Own(trace: seq<Event>, o: nat): seq<OrchAction> {
    if trace == [] then []
    else
      var last := trace[|trace| - 1];
      Own(trace[..|trace| - 1], o) + if last.Orch? && last.o == o then [last.act] else []
  }

  lemma OwnSnoc(trace: seq<Event>, e: Event, o: nat)
    ensures Own(trace + [e], o) == Own(trace, o) + if e.Orch? && e.o == o then [e.act] else []
  {
    assert (trace + [e])[..|trace|] == trace;
  }

  lemma {:induction false} OwnConcat(a: seq<Event>, b: seq<Event>, o: nat)
    ensures Own(a + b, o) == Own(a, o) + Own(b, o)
  {
    if b == [] {
      assert a + b == a;
    } else {
      hide Own;
      var init, e := b[..|b| - 1], b[|b| - 1];
      OwnConcat(a, init, o);
      OwnSnoc(a + init, e, o);
      OwnSnoc(init, e, o);
      assert b == init + [e] && a + b == (a + init) + [e];
    }
  }

  lemma OwnJoined(start: State, a: seq<Event>, middle: State, b: seq<Event>, end: State, o: nat) returns (c: seq<Event>)
    requires |start.jobs| == |start.trials| && |middle.jobs| == |middle.trials|
    requires Run(start, a) == Some(middle) && Run(middle, b) == Some(end)
    ensures Run(start, c) == Some(end) && Own(c, o) == Own(a, o) + Own(b, o)
  {
    c := Joined(start, a, middle, b, end);
    OwnConcat(a, b, o);
  }

  // Status, summary, failures, zeros, limits; the study is failed or completed right after the
  // check that says so.
  predicate InCheckOrder(acts: seq<OrchAction>, exited: bool, budgetSpent: bool) {
    if !exited then acts == [ReadStatus, ReadSummary, CheckFailures, CheckZeros, Decide(budgetSpent)]
    else
      || acts == [ReadStatus]
      || acts == [ReadStatus, ReadSummary, CheckFailures, FailStudy]
      || acts == [ReadStatus, ReadSummary, CheckFailures, CheckZeros, FailStudy]
      || acts == [ReadStatus, ReadSummary, CheckFailures, CheckZeros, Decide(budgetSpent), CompleteStudy]
  }

  lemma ChecksInOrder(streaks: seq<OrchAction>, limits: seq<OrchAction>, failed: bool, exited: bool, budgetSpent: bool)
    requires !failed ==> streaks == [CheckFailures, CheckZeros]
    requires failed ==> exited && limits == [] && (streaks == [CheckFailures, FailStudy] || streaks == [CheckFailures, CheckZeros, FailStudy])
    requires !failed ==> limits == if exited then [Decide(budgetSpent), CompleteStudy] else [Decide(budgetSpent)]
    ensures InCheckOrder([ReadStatus] + [ReadSummary] + streaks + limits, exited, budgetSpent)
    ensures failed ==> InCheckOrder([ReadStatus] + [ReadSummary] + streaks, exited, budgetSpent)
  {
    assert failed ==> [ReadStatus] + [ReadSummary] + streaks + limits == [ReadStatus] + [ReadSummary] + streaks;
  }

  // What the stores look like after an action of job n.
  ghost predicate Worked(s: State, t: State, n: nat, a: WorkAction) {
    && n < |s.jobs| == |s.trials| && AllowedAction(s, a)
    && var e := JobStep(n, s.trials[n], s.jobs[n], RowsOf(s.rows, n) != [], Taken(s.rows, TrialId(n, s.jobs[n].attempt)), a);
    && e.Some?
    && t.trials == s.trials[n := e.value.trial] && t.jobs == s.jobs[n := e.value.job]
    && t.rows == Appended(s.rows, e.value.row)
    && t == s.(trials := t.trials, jobs := t.jobs, rows := t.rows)
  }

  lemma WorkedIsStep(s: State, t: State, n: nat, a: WorkAction)
    requires Worked(s, t, n, a)
    ensures Step(s, Work(n, a)) == Some(t)
  {
    hide JobStep, RowsOf, Taken;
  }

  lemma EmptyRun(s: State)
    requires |s.jobs| == |s.trials|
    ensures Run(s, []) == Some(s)
  {
  }

  lemma InvBounds(s: State)
    requires Inv(s)
    ensures InFlight(s.trials) <= s.setup.parallelism && WithinMax(s, |s.trials|)
  {
  }

  lemma ReturnedHasRow(s: State, n: nat)
    requires Inv(s) && n < |s.jobs| && s.jobs[n].phase == Returned
    ensures RowsOf(s.rows, n) != []
  {
    assert CellOf(s, n);
  }

  predicate SparesJob(s: State, e: Event, n: Option<nat>) {
    n.None? || match e
      case Work(m, _) => m != n.value
      case Orch(o, _) => o < |s.orchs| && !Enqueuing(s.orchs[o], n.value)
      case _ => true
  }

  predicate SparesOrch(e: Event, o: Option<nat>) {
    o.None? || match e case Orch(p, _) => p != o.value case _ => true
  }

  lemma ForeignStep(s: State, e: Event, n: Option<nat>, o: Option<nat>)
    requires |s.jobs| == |s.trials| && Step(s, e).Some? && SparesJob(s, e, n) && SparesOrch(e, o)
    requires (n.Some? ==> n.value < |s.jobs|) && (o.Some? ==> o.value < |s.orchs|)
    ensures var t := Step(s, e).value;
            && |t.jobs| == |t.trials| && t.setup == s.setup
            && (n.Some? ==> n.value < |t.jobs| && t.jobs[n.value] == s.jobs[n.value])
            && (o.Some? ==> o.value < |t.orchs| && t.orchs[o.value] == s.orchs[o.value])
  {
    StepKeepsShape(s, e);
    match e
    case Orch(p, act) =>
      if n.Some? { OrchTouchesOneNumber(s, p, act, n.value); }
      if o.Some? { OrchMovesAlone(s, p, act, o.value); }
      hide Step;
    case _ =>
  }

  lemma OrchMovesAlone(s: State, o: nat, act: OrchAction, p: nat)
    requires |s.jobs| == |s.trials| && Step(s, Orch(o, act)).Some? && p < |s.orchs| && p != o
    ensures var t := Step(s, Orch(o, act)).value; p < |t.orchs| && t.orchs[p] == s.orchs[p]
  {
  }
}
