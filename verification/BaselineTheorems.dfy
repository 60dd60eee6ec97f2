// The guarantees of the baseline protocol, for every run: any number of orchestrators and
// jobs, crashes, redeliveries, failed writes and results the queue has forgotten.
module BaselineTheorems {
  import opened Common
  import opened BaselineProtocol

  lemma ReachableInv(events: seq<Event>)
    requires Run(INIT, events).Some?
    ensures Inv(Run(INIT, events).value)
  {
    RunKeepsInv(INIT, events);
  }

  // At most one complete baseline row, and a stamp names exactly that row and its metric.
  lemma StampNamesTheCompleteRow(events: seq<Event>)
    requires Run(INIT, events).Some?
    ensures var s := Run(INIT, events).value;
            && OneComplete(s.rows)
            && (s.stamp.Some? ==>
                  && HasComplete(s.rows, s.stamp.value.id, s.stamp.value.metric)
                  && forall i :: 0 <= i < |s.rows| && s.rows[i].status.CompleteRow? ==>
                                   s.rows[i] == BaselineRow(s.stamp.value.id, CompleteRow(s.stamp.value.metric)))
  {
    ReachableInv(events);
  }

  lemma StepKeepsStamp(s: State, e: Event)
    requires Step(s, e).Some?
    ensures s.stamp.Some? ==> Step(s, e).value.stamp == s.stamp
    ensures s.rows <= Step(s, e).value.rows
  {
  }

  // Once set, the stamp never changes; rows never change or go.
  lemma {:induction false} StampIsForever(s: State, events: seq<Event>)
    requires Run(s, events).Some?
    ensures s.stamp.Some? ==> Run(s, events).value.stamp == s.stamp
    ensures s.rows <= Run(s, events).value.rows
    decreases |events|
  {
    hide Step;
    if events != [] {
      var last := |events| - 1;
      StampIsForever(s, events[..last]);
      StepKeepsStamp(Run(s, events[..last]).value, events[last]);
    }
  }

  // ---------------------------------------------------------------------------
  // An unstamped complete row: retries
  // ---------------------------------------------------------------------------

  lemma UniqueFind(rows: seq<BaselineRow>, id: nat, metric: real)
    requires UniqueIds(rows) && HasComplete(rows, id, metric)
    ensures Find(rows, id) == Some(CompleteRow(metric)) && Stampable(rows, id)
  {
    var i :| 0 <= i < |rows| && rows[i] == BaselineRow(id, CompleteRow(metric));
    assert HasId(rows, id);
    var k :| 0 <= k < |rows| && rows[k] == BaselineRow(id, Find(rows, id).value);
    assert k == i;
  }

  function Retry(j: nat): seq<Event> {
    [Work(j, Crash), Work(j, Deliver), Work(j, Check(Done)), Work(j, StampRow(Done))]
  }

  lemma RetrySteps(s: State, j: nat, metric: real)
    requires Inv(s) && s.stamp.None? && j < |s.jobs| && Live(s.jobs[j].phase)
    requires HasComplete(s.rows, s.jobs[j].id, metric)
    ensures var id := s.jobs[j].id;
            var queued := s.(jobs := s.jobs[j := Job(id, Queued)]);
            var started := s.(jobs := s.jobs[j := Job(id, Started)]);
            var stamping := s.(jobs := s.jobs[j := Job(id, Stamping(metric))]);
            var done := s.(jobs := s.jobs[j := Job(id, Returned)], stamp := Some(Stamp(id, metric)));
            && Step(s, Work(j, Crash)) == Some(queued) && Step(queued, Work(j, Deliver)) == Some(started)
            && Step(started, Work(j, Check(Done))) == Some(stamping) && Step(stamping, Work(j, StampRow(Done))) == Some(done)
  {
    var id := s.jobs[j].id;
    UniqueFind(s.rows, id, metric);
    hide Find, Inv, HasComplete;
    forall p, q ensures s.jobs[j := Job(id, p)][j := Job(id, q)] == s.jobs[j := Job(id, q)] {}
  }

  // Wherever the job of a complete row is, its next undisturbed delivery stamps the study.
  lemma RetryStamps(s: State, j: nat, metric: real)
    requires Inv(s) && s.stamp.None? && j < |s.jobs| && Live(s.jobs[j].phase)
    requires HasComplete(s.rows, s.jobs[j].id, metric)
    ensures Run(s, Retry(j)).Some? && Run(s, Retry(j)).value.stamp == Some(Stamp(s.jobs[j].id, metric))
    ensures Run(s, Retry(j)).value.rows == s.rows
  {
    var id := s.jobs[j].id;
    var queued := s.(jobs := s.jobs[j := Job(id, Queued)]);
    var started := s.(jobs := s.jobs[j := Job(id, Started)]);
    var stamping := s.(jobs := s.jobs[j := Job(id, Stamping(metric))]);
    var done := s.(jobs := s.jobs[j := Job(id, Returned)], stamp := Some(Stamp(id, metric)));
    RetrySteps(s, j, metric);
    FourSteps(s, Work(j, Crash), queued, Work(j, Deliver), started, Work(j, Check(Done)), stamping, Work(j, StampRow(Done)), done);
  }

  lemma FourSteps(s0: State, e0: Event, s1: State, e1: Event, s2: State, e2: Event, s3: State, e3: Event, s4: State)
    requires Step(s0, e0) == Some(s1) && Step(s1, e1) == Some(s2) && Step(s2, e2) == Some(s3) && Step(s3, e3) == Some(s4)
    ensures Run(s0, [e0, e1, e2, e3]) == Some(s4)
  {
    hide Step;
    RunOne(s0, e0);
    var b := RunSnoc(s0, [e0], s1, e1, s2);
    var c := RunSnoc(s0, b, s2, e2, s3);
    var d := RunSnoc(s0, c, s3, e3, s4);
    assert d == [e0, e1, e2, e3];
  }

  // ---------------------------------------------------------------------------
  // An unstamped complete row: resumes
  // ---------------------------------------------------------------------------

  // A fresh orchestrator whose LIMIT 1 query returns row `pick`.
  function ResumeWith(s: State, pick: nat): seq<Event> {
    var o := |s.orchs|;
    [Resume, Orch(o, ReadStamp), Orch(o, ReadRow(pick)), Orch(o, StampFor(Done))]
  }

  predicate ResumeStamps(s: State, pick: nat) {
    var t := Run(s, ResumeWith(s, pick));
    t.Some? && t.value.stamp.Some?
  }

  function Resumed(s: State, pc: Pc): State { s.(orchs := s.orchs + [pc]) }

  lemma ResumeSteps(s: State, pick: nat)
    requires s.stamp.None? && pick < |s.rows|
    ensures var o := |s.orchs|;
            && Step(s, Resume) == Some(Resumed(s, Entering))
            && Step(Resumed(s, Entering), Orch(o, ReadStamp)) == Some(Resumed(s, StampRead))
            && Step(Resumed(s, StampRead), Orch(o, ReadRow(pick))) == Some(Resumed(s, Seen(s.rows[pick])))
  {
    hide JobKnown;
    var o := |s.orchs|;
    assert (s.orchs + [Entering])[o := StampRead] == s.orchs + [StampRead];
    assert (s.orchs + [StampRead])[o := Seen(s.rows[pick])] == s.orchs + [Seen(s.rows[pick])];
  }

  lemma ResumeLast(s: State, pick: nat)
    requires Inv(s) && s.stamp.None? && pick < |s.rows|
    ensures var last := Step(Resumed(s, Seen(s.rows[pick])), Orch(|s.orchs|, StampFor(Done)));
            && (s.rows[pick].status.CompleteRow? ==> last.Some? && last.value.stamp.Some?)
            && (s.rows[pick].status.FailedRow? ==> last.None?)
  {
    if s.rows[pick].status.CompleteRow? {
      assert HasComplete(s.rows, s.rows[pick].id, s.rows[pick].status.metric);
      UniqueFind(s.rows, s.rows[pick].id, s.rows[pick].status.metric);
    }
    hide Inv, Find, HasComplete;
  }

  lemma ResumeStampsWhenComplete(s: State, pick: nat)
    requires Inv(s) && s.stamp.None? && pick < |s.rows|
    ensures ResumeStamps(s, pick) <==> s.rows[pick].status.CompleteRow?
  {
    ResumeSteps(s, pick);
    ResumeLast(s, pick);
    hide Step, Inv, Seen;
    var o := |s.orchs|;
    RunOne(s, Resume);
    var b := RunSnoc(s, [Resume], Resumed(s, Entering), Orch(o, ReadStamp), Resumed(s, StampRead));
    var c := RunSnoc(s, b, Resumed(s, StampRead), Orch(o, ReadRow(pick)), Resumed(s, Seen(s.rows[pick])));
    assert ResumeWith(s, pick)[..3] == c;
  }

  // The next resume stamps an unstamped complete baseline, whichever row its query returns,
  // exactly if no failed baseline row stands beside it.
  lemma ResumeStampsIff(s: State)
    requires Inv(s) && s.stamp.None? && AnyComplete(s.rows)
    ensures (forall pick :: 0 <= pick < |s.rows| ==> ResumeStamps(s, pick)) <==>
            (forall i :: 0 <= i < |s.rows| ==> s.rows[i].status.CompleteRow?)
  {
    hide Inv, ResumeStamps;
    forall pick | 0 <= pick < |s.rows| ensures ResumeStamps(s, pick) <==> s.rows[pick].status.CompleteRow? {
      ResumeStampsWhenComplete(s, pick);
    }
  }

  // ---------------------------------------------------------------------------
  // A failed and a complete row side by side
  // ---------------------------------------------------------------------------

  // Two orchestrators, both past the row query before the first job ran.
  function Racing(rows: seq<BaselineRow>, jobs: seq<Job>, first: Pc, second: Pc): State {
    State(rows, None, jobs, [first, second], |jobs|)
  }

  lemma EntrySteps()
    ensures Step(INIT, Resume) == Some(INIT.(orchs := [Entering]))
    ensures Step(INIT.(orchs := [Entering]), Resume) == Some(Racing([], [], Entering, Entering))
    ensures Step(Racing([], [], Entering, Entering), Orch(0, ReadStamp)) == Some(Racing([], [], StampRead, Entering))
    ensures Step(Racing([], [], StampRead, Entering), Orch(0, ReadRow(0))) == Some(Racing([], [], Enqueuing, Entering))
  {
    assert [] + [Entering] == [Entering] && [Entering] + [Entering] == [Entering, Entering];
    assert [Entering, Entering][0 := StampRead] == [StampRead, Entering];
    assert [StampRead, Entering][0 := Enqueuing] == [Enqueuing, Entering];
  }

  lemma SecondEntrySteps()
    ensures Step(Racing([], [], Enqueuing, Entering), Orch(1, ReadStamp)) == Some(Racing([], [], Enqueuing, StampRead))
    ensures Step(Racing([], [], Enqueuing, StampRead), Orch(1, ReadRow(0))) == Some(Racing([], [], Enqueuing, Enqueuing))
  {
    assert [Enqueuing, Entering][1 := StampRead] == [Enqueuing, StampRead];
    assert [Enqueuing, StampRead][1 := Enqueuing] == [Enqueuing, Enqueuing];
  }

  lemma FirstEnqueue()
    ensures Step(Racing([], [], Enqueuing, Enqueuing), Orch(0, Enqueue(true))) ==
            Some(Racing([], [Job(0, Queued)], WaitingById(0), Enqueuing))
  {
    assert [] + [Job(0, Queued)] == [Job(0, Queued)];
    assert [Enqueuing, Enqueuing][0 := WaitingById(0)] == [WaitingById(0), Enqueuing];
    assert !JobKnown(Racing([], [], Enqueuing, Enqueuing));
  }

  lemma BothEnter() returns (events: seq<Event>)
    ensures Run(INIT, events) == Some(Racing([], [Job(0, Queued)], WaitingById(0), Enqueuing))
  {
    EntrySteps();
    SecondEntrySteps();
    FirstEnqueue();
    assert Run(INIT, []) == Some(INIT);
    hide Step, Run, Racing;
    events := RunSnoc(INIT, [], INIT, Resume, INIT.(orchs := [Entering]));
    events := RunSnoc(INIT, events, INIT.(orchs := [Entering]), Resume, Racing([], [], Entering, Entering));
    events := RunSnoc(INIT, events, Racing([], [], Entering, Entering), Orch(0, ReadStamp), Racing([], [], StampRead, Entering));
    events := RunSnoc(INIT, events, Racing([], [], StampRead, Entering), Orch(0, ReadRow(0)), Racing([], [], Enqueuing, Entering));
    events := RunSnoc(INIT, events, Racing([], [], Enqueuing, Entering), Orch(1, ReadStamp), Racing([], [], Enqueuing, StampRead));
    events := RunSnoc(INIT, events, Racing([], [], Enqueuing, StampRead), Orch(1, ReadRow(0)), Racing([], [], Enqueuing, Enqueuing));
    events := RunSnoc(INIT, events, Racing([], [], Enqueuing, Enqueuing), Orch(0, Enqueue(true)),
                      Racing([], [Job(0, Queued)], WaitingById(0), Enqueuing));
  }

  // The first job alone.
  function First(rows: seq<BaselineRow>, phase: Phase): State { Racing(rows, [Job(0, phase)], WaitingById(0), Enqueuing) }

  const FAILED: seq<BaselineRow> := [BaselineRow(0, FailedRow)]

  lemma FirstJobSteps()
    ensures Step(First([], Queued), Work(0, Deliver)) == Some(First([], Started))
    ensures Step(First([], Started), Work(0, Check(Done))) == Some(First([], Evaluating))
    ensures Step(First([], Evaluating), Work(0, EvaluateFails)) == Some(First([], FailInserting))
    ensures Step(First([], FailInserting), Work(0, FailInsert(Done))) == Some(First(FAILED, Returned))
  {
    forall p, q ensures [Job(0, p)][0 := Job(0, q)] == [Job(0, q)] {}
    assert [] + FAILED == FAILED;
    assert Find([], 0) == None && !Refused([], FAILED[0]);
  }

  lemma FirstJobEnds()
    ensures Step(First(FAILED, Returned), Work(0, Ack)) == Some(First(FAILED, Kept))
    ensures Step(First(FAILED, Kept), Work(0, Expire)) == Some(First(FAILED, Gone))
  {
    forall p, q ensures [Job(0, p)][0 := Job(0, q)] == [Job(0, q)] {}
    hide Find;
  }

  lemma FirstFails(start: seq<Event>) returns (events: seq<Event>)
    requires Run(INIT, start) == Some(First([], Queued))
    ensures Run(INIT, events) == Some(First(FAILED, Gone))
  {
    FirstJobSteps();
    FirstJobEnds();
    hide Step, Run, First;
    events := RunSnoc(INIT, start, First([], Queued), Work(0, Deliver), First([], Started));
    events := RunSnoc(INIT, events, First([], Started), Work(0, Check(Done)), First([], Evaluating));
    events := RunSnoc(INIT, events, First([], Evaluating), Work(0, EvaluateFails), First([], FailInserting));
    events := RunSnoc(INIT, events, First([], FailInserting), Work(0, FailInsert(Done)), First(FAILED, Returned));
    events := RunSnoc(INIT, events, First(FAILED, Returned), Work(0, Ack), First(FAILED, Kept));
    events := RunSnoc(INIT, events, First(FAILED, Kept), Work(0, Expire), First(FAILED, Gone));
  }

  // The second job, after the first failed.
  function Second(rows: seq<BaselineRow>, phase: Phase): State {
    Racing(rows, [Job(0, Gone), Job(1, phase)], WaitingById(0), WaitingById(1))
  }

  const BOTH: seq<BaselineRow> := [BaselineRow(0, FailedRow), BaselineRow(1, CompleteRow(1.0))]

  lemma SecondEnqueue()
    ensures Step(First(FAILED, Gone), Orch(1, Enqueue(true))) == Some(Second(FAILED, Queued))
  {
    assert [Job(0, Gone)] + [Job(1, Queued)] == [Job(0, Gone), Job(1, Queued)];
    assert [WaitingById(0), Enqueuing][1 := WaitingById(1)] == [WaitingById(0), WaitingById(1)];
    assert !JobKnown(First(FAILED, Gone));
  }

  lemma SecondJobSteps()
    ensures Step(Second(FAILED, Queued), Work(1, Deliver)) == Some(Second(FAILED, Started))
    ensures Step(Second(FAILED, Started), Work(1, Check(Done))) == Some(Second(FAILED, Evaluating))
    ensures Step(Second(FAILED, Evaluating), Work(1, Evaluate(1.0))) == Some(Second(FAILED, Inserting(1.0)))
    ensures Step(Second(FAILED, Inserting(1.0)), Work(1, Insert(Done))) == Some(Second(BOTH, Stamping(1.0)))
    ensures Step(Second(BOTH, Stamping(1.0)), Work(1, GiveUp)) == Some(Second(BOTH, Kept))
  {
    forall p, q ensures [Job(0, Gone), Job(1, p)][1 := Job(1, q)] == [Job(0, Gone), Job(1, q)] {}
    assert FAILED + [BaselineRow(1, CompleteRow(1.0))] == BOTH;
    assert !HasId(FAILED, 1) && !AnyComplete(FAILED);
  }

  // So the bad case is reachable, for an orchestrator that enqueues only after the queue has
  // forgotten the first job: a complete baseline nobody has stamped, its job done with, and a
  // resume that finds the failed row leaves it that way.
  lemma ResumeMayMissTheBaseline() returns (events: seq<Event>)
    ensures Run(INIT, events).Some?
    ensures var s := Run(INIT, events).value;
            && s.stamp.None? && AnyComplete(s.rows) && |s.jobs| == 2
            && (forall j :: 0 <= j < |s.jobs| ==> !Live(s.jobs[j].phase))
            && exists pick :: 0 <= pick < |s.rows| && !ResumeStamps(s, pick)
  {
    var a := BothEnter();
    var b := FirstFails(a);
    events := SecondCompletes(b);
    var s := Run(INIT, events).value;
    ReachableInv(events);
    ResumeStampsWhenComplete(s, 0);
    assert s.rows[1].status.CompleteRow?;
    hide ResumeStamps;
  }

  lemma SecondCompletes(start: seq<Event>) returns (events: seq<Event>)
    requires Run(INIT, start) == Some(First(FAILED, Gone))
    ensures Run(INIT, events) == Some(Second(BOTH, Kept))
  {
    SecondEnqueue();
    SecondJobSteps();
    hide Step, Run, First, Second;
    events := RunSnoc(INIT, start, First(FAILED, Gone), Orch(1, Enqueue(true)), Second(FAILED, Queued));
    events := RunSnoc(INIT, events, Second(FAILED, Queued), Work(1, Deliver), Second(FAILED, Started));
    events := RunSnoc(INIT, events, Second(FAILED, Started), Work(1, Check(Done)), Second(FAILED, Evaluating));
    events := RunSnoc(INIT, events, Second(FAILED, Evaluating), Work(1, Evaluate(1.0)), Second(FAILED, Inserting(1.0)));
    events := RunSnoc(INIT, events, Second(FAILED, Inserting(1.0)), Work(1, Insert(Done)), Second(BOTH, Stamping(1.0)));
    events := RunSnoc(INIT, events, Second(BOTH, Stamping(1.0)), Work(1, GiveUp), Second(BOTH, Kept));
  }

  // ---------------------------------------------------------------------------
  // When every resume stamps
  // ---------------------------------------------------------------------------

  predicate FromJobs(jobs: seq<Job>, id: nat) { exists j :: 0 <= j < |jobs| && jobs[j].id == id }

  // Every row was written by one of the jobs accepted.
  predicate RowsFromJobs(s: State) {
    forall i :: 0 <= i < |s.rows| ==> FromJobs(s.jobs, s.rows[i].id)
  }

  // Jobs stay, under the id they have.
  lemma JobsStay(s: State, e: Event, id: nat)
    requires Step(s, e).Some? && FromJobs(s.jobs, id)
    ensures FromJobs(Step(s, e).value.jobs, id)
  {
    var j :| 0 <= j < |s.jobs| && s.jobs[j].id == id;
    JobKeepsId(s, e, j);
  }

  lemma JobKeepsId(s: State, e: Event, j: nat)
    requires Step(s, e).Some? && j < |s.jobs|
    ensures j < |Step(s, e).value.jobs| && Step(s, e).value.jobs[j].id == s.jobs[j].id
  {
    hide Find, HasId;
  }

  // A new row is the row of a job.
  lemma NewRowFromJob(s: State, e: Event)
    requires Inv(s) && Step(s, e).Some? && Step(s, e).value.rows != s.rows
    ensures var t := Step(s, e).value;
            |t.rows| == |s.rows| + 1 && t.rows[..|s.rows|] == s.rows && FromJobs(s.jobs, t.rows[|s.rows|].id)
  {
    if e.Work? {
      WorkStepShape(s, e.j, e.a);
      hide WorkStep, Inv;
      var row :| !Refused(s.rows, row) && row.id == s.jobs[e.j].id && Step(s, e).value.rows == s.rows + [row];
    }
  }

  lemma StepKeepsOrigin(s: State, e: Event)
    requires Inv(s) && RowsFromJobs(s) && Step(s, e).Some?
    ensures RowsFromJobs(Step(s, e).value)
  {
    var t := Step(s, e).value;
    if t.rows != s.rows { NewRowFromJob(s, e); }
    forall i | 0 <= i < |t.rows| ensures FromJobs(t.jobs, t.rows[i].id) {
      if i < |s.rows| { assert t.rows[i] == s.rows[i]; }
      JobsStay(s, e, t.rows[i].id);
    }
  }

  lemma {:induction false} ReachableOrigin(events: seq<Event>)
    requires Run(INIT, events).Some?
    ensures RowsFromJobs(Run(INIT, events).value)
    decreases |events|
  {
    if events != [] {
      var last := |events| - 1;
      var s := Run(INIT, events[..last]).value;
      ReachableOrigin(events[..last]);
      ReachableInv(events[..last]);
      StepKeepsOrigin(s, events[last]);
    }
  }

  lemma OneIdOneRow(rows: seq<BaselineRow>, id: nat)
    requires forall i :: 0 <= i < |rows| ==> rows[i].id == id
    ensures UniqueIds(rows) ==> |rows| <= 1
  {
    if |rows| > 1 { assert rows[0].id == rows[1].id; }
  }

  // One accepted job writes one row.
  lemma OneJobOneRow(s: State)
    requires Inv(s) && RowsFromJobs(s) && |s.jobs| <= 1
    ensures |s.rows| <= 1
  {
    var id := if s.jobs == [] then 0 else s.jobs[0].id;
    forall i | 0 <= i < |s.rows| ensures s.rows[i].id == id { assert FromJobs(s.jobs, s.rows[i].id); }
    OneIdOneRow(s.rows, id);
  }

  ghost predicate EveryResumeStamps(s: State) {
    s.stamp.None? && AnyComplete(s.rows) ==> forall pick :: 0 <= pick < |s.rows| ==> ResumeStamps(s, pick)
  }

  // In every run in which at most `accepted` baseline jobs are accepted for the study, every
  // resume stamps an unstamped complete baseline: exactly if no second job is accepted.
  lemma EveryResumeStampsIff(accepted: nat)
    ensures (forall events :: Run(INIT, events).Some? && |Run(INIT, events).value.jobs| <= accepted ==>
                                EveryResumeStamps(Run(INIT, events).value)) <==>
            accepted <= 1
  {
    if accepted <= 1 {
      forall events | Run(INIT, events).Some? && |Run(INIT, events).value.jobs| <= accepted
        ensures EveryResumeStamps(Run(INIT, events).value)
      {
        OneJobRunsStamp(events);
      }
    } else {
      var events := ResumeMayMissTheBaseline();
      hide ResumeStamps;
      assert !EveryResumeStamps(Run(INIT, events).value);
    }
  }

  lemma OneJobRunsStamp(events: seq<Event>)
    requires Run(INIT, events).Some? && |Run(INIT, events).value.jobs| <= 1
    ensures EveryResumeStamps(Run(INIT, events).value)
  {
    var s := Run(INIT, events).value;
    ReachableInv(events);
    ReachableOrigin(events);
    OneJobOneRow(s);
    if s.stamp.None? && AnyComplete(s.rows) { ResumeStampsIff(s); }
    hide ResumeStamps, Run;
  }

  // The queue keeps every result it has.
  predicate NeverExpires(events: seq<Event>) {
    forall i :: 0 <= i < |events| ==> !(events[i].Work? && events[i].a.Expire?)
  }

  predicate AllKnown(s: State) { |s.jobs| <= 1 && forall j :: 0 <= j < |s.jobs| ==> !s.jobs[j].phase.Gone? }

  lemma StepKeepsKnown(s: State, e: Event)
    requires AllKnown(s) && Step(s, e).Some? && !(e.Work? && e.a.Expire?)
    ensures AllKnown(Step(s, e).value)
  {
    assert |s.jobs| == 1 ==> !s.jobs[0].phase.Gone?;
    assert |s.jobs| == 1 ==> JobKnown(s);
    hide Find, HasId, HasComplete;
  }

  // A second job is accepted only after the queue has forgotten the first.
  lemma {:induction false} SecondJobNeedsExpiry(events: seq<Event>)
    requires Run(INIT, events).Some? && NeverExpires(events)
    ensures AllKnown(Run(INIT, events).value)
    decreases |events|
  {
    hide Step, AllKnown;
    if events != [] {
      var last := |events| - 1;
      assert forall i :: 0 <= i < last ==> events[..last][i] == events[i];
      SecondJobNeedsExpiry(events[..last]);
      StepKeepsKnown(Run(INIT, events[..last]).value, events[last]);
    } else {
      NoJobsYet();
    }
  }

  lemma NoJobsYet()
    ensures AllKnown(INIT)
  {
  }
}
