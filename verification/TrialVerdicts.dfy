// Why a study ends as it does: in every run, the status an orchestrator writes is the one its
// own readings call for.
module TrialVerdicts {
  import opened Common
  import opened TrialProtocol

  // What one orchestrator has read last: how many terminal rows, whether the five and the
  // twenty newest rows were a streak, whether the time budget was spent, and under the lock how
  // many trials were in flight and allocated; `asked`: how many it has asked for since.
  datatype Readings = Readings(terminal: Option<nat>, failures: Option<bool>, zeros: Option<bool>, spent: Option<bool>,
                               inFlight: Option<nat>, total: Option<nat>, asked: nat)

  ghost function Read(s: State, events: seq<Event>, o: nat): Readings
    requires |s.jobs| == |s.trials| && Run(s, events).Some?
    decreases |events|
  {
    if events == [] then Readings(None, None, None, None, None, None, 0)
    else
      var init, e := events[..|events| - 1], events[|events| - 1];
      After(Read(s, init, o), Run(s, init).value, e, o)
  }

  ghost function After(r: Readings, s: State, e: Event, o: nat): Readings {
    if !e.Orch? || e.o != o then r
    else
      match e.act
      case ReadSummary => r.(terminal := Some(|s.rows|))
      case CheckFailures => r.(failures := Some(LastNAllFailed(s.rows, 5)))
      case CheckZeros => r.(zeros := Some(LastNAllZero(s.rows, 20)))
      case Decide(budgetSpent) => r.(spent := Some(budgetSpent))
      case ReadInFlight => r.(inFlight := Some(InFlight(s.trials)))
      case ReadTotal => r.(total := Some(|s.trials|), asked := 0)
      case Ask => r.(asked := r.asked + 1)
      case _ => r
  }

  // The verdict due on such readings, the streaks first.
  function Due(setup: Setup, r: Readings): Option<Status> {
    if r.failures == Some(true) then Some(FailedStudy(ConsecutiveFailures))
    else if r.zeros == Some(true) then Some(FailedStudy(NoSignal))
    else if setup.maxTrials.Some? && r.terminal.Some? && r.terminal.value >= setup.maxTrials.value then Some(Completed(MaxTrialsReached))
    else if setup.hasBudget && r.spent == Some(true) then Some(Completed(TimeBudgetExceeded))
    else None
  }

  // The trials to ask for on such readings: up to the parallelism, and not beyond max_trials.
  function Open(setup: Setup, inFlight: nat, total: nat): nat {
    var free := setup.parallelism - inFlight;
    var remaining := if setup.maxTrials.Some? then setup.maxTrials.value - total else free;
    if free <= 0 || remaining <= 0 then 0 else if remaining < free then remaining else free
  }

  predicate Left(setup: Setup, r: Readings, left: int) {
    && r.inFlight.Some? && r.total.Some?
    && if left >= 0 then r.asked + left == Open(setup, r.inFlight.value, r.total.value)
       else r.asked == 0 == Open(setup, r.inFlight.value, r.total.value)
  }

  // What the place of an orchestrator says about its readings.
  ghost predicate Tells(setup: Setup, pc: Pc, r: Readings) {
    match pc
    case Summarised(n) => r.terminal == Some(n)
    case FailuresChecked(n) => r.terminal == Some(n) && r.failures == Some(false)
    case ZerosChecked(n) => r.terminal == Some(n) && r.failures == Some(false) && r.zeros == Some(false)
    case FailingStudy(why) => Due(setup, r) == Some(FailedStudy(why))
    case Stopping(stop) => Due(setup, r) == Some(Completed(stop))
    case BeforeLock => Due(setup, r) == None
    case Counted(n) => r.inFlight == Some(n)
    case Filling(slots) => Left(setup, r, slots)
    case Asked(_, left) => Left(setup, r, left) && left >= 0
    case Suggested(_, left) => Left(setup, r, left) && left >= 0
    case _ => true
  }

  ghost predicate AllTell(s: State, events: seq<Event>)
    requires |s.jobs| == |s.trials| && Run(s, events).Some?
  {
    var t := Run(s, events).value;
    forall o: nat :: o < |t.orchs| ==> Tells(s.setup, t.orchs[o], Read(s, events, o))
  }

  lemma OwnStepTells(s: State, o: nat, act: OrchAction, r: Readings)
    requires |s.jobs| == |s.trials| && o < |s.orchs| && Tells(s.setup, s.orchs[o], r)
    requires Step(s, Orch(o, act)).Some?
    ensures var t := Step(s, Orch(o, act)).value;
            o < |t.orchs| && Tells(s.setup, t.orchs[o], After(r, s, Orch(o, act), o))
  {
    hide LastNAllFailed, LastNAllZero, InFlight;
  }

  lemma OtherStepTells(s: State, e: Event, o: nat)
    requires |s.jobs| == |s.trials| && Step(s, e).Some? && !(e.Orch? && e.o == o)
    ensures var t := Step(s, e).value;
            o < |t.orchs| ==> if o < |s.orchs| then t.orchs[o] == s.orchs[o] else t.orchs[o] == Entering
  {
    hide LastNAllFailed, LastNAllZero, JobStep;
  }

  lemma {:induction false} PlacesTell(s: State, events: seq<Event>)
    requires |s.jobs| == |s.trials| && Run(s, events).Some?
    requires forall o: nat :: o < |s.orchs| ==> s.orchs[o] in {Entering, Looping, Exited}
    ensures AllTell(s, events)
    decreases |events|
  {
    hide Step;
    if events != [] {
      var init, e := events[..|events| - 1], events[|events| - 1];
      PlacesTell(s, init);
      var t := Run(s, init).value;
      var u := Run(s, events).value;
      forall o: nat | o < |u.orchs| ensures Tells(s.setup, u.orchs[o], Read(s, events, o)) {
        if e.Orch? && e.o == o {
          ActorExists(t, o, e.act);
          OwnStepTells(t, o, e.act, Read(s, init, o));
        } else {
          OtherStepTells(t, e, o);
        }
      }
    }
  }

  lemma ActorExists(s: State, o: nat, act: OrchAction)
    requires |s.jobs| == |s.trials| && Step(s, Orch(o, act)).Some?
    ensures o < |s.orchs|
  {
  }

  // Whatever everybody else does: the status an orchestrator writes is the one due on its own
  // readings, and a study that has left the running state keeps the status it has.
  lemma VerdictIsDue(setup: Setup, events: seq<Event>, o: nat, act: OrchAction)
    requires Run(Init(setup), events).Some? && act in {FailStudy, CompleteStudy}
    requires Step(Run(Init(setup), events).value, Orch(o, act)).Some?
    ensures var t := Run(Init(setup), events).value;
            var due := Due(setup, Read(Init(setup), events, o));
            && due.Some?
            && Step(t, Orch(o, act)).value.status == if t.status.Active? then due.value else t.status
  {
    PlacesTell(Init(setup), events);
    var t := Run(Init(setup), events).value;
    ActorExists(t, o, act);
    assert Tells(setup, t.orchs[o], Read(Init(setup), events, o));
    hide Run, Read, LastNAllFailed, LastNAllZero, Due;
  }

  // And it goes on to replenish only when nothing is due.
  lemma NothingDueBeforeLock(setup: Setup, events: seq<Event>, o: nat)
    requires Run(Init(setup), events).Some? && Step(Run(Init(setup), events).value, Orch(o, TryLock)).Some?
    ensures Due(setup, Read(Init(setup), events, o)) == None
  {
    PlacesTell(Init(setup), events);
    var t := Run(Init(setup), events).value;
    ActorExists(t, o, TryLock);
    assert Tells(setup, t.orchs[o], Read(Init(setup), events, o));
    hide Run, Read, LastNAllFailed, LastNAllZero, Due;
  }

  // And it ends a replenishment only once it has asked for as many trials as its counts allow.
  lemma ReleaseWhenFilled(setup: Setup, events: seq<Event>, o: nat)
    requires Run(Init(setup), events).Some? && Step(Run(Init(setup), events).value, Orch(o, Release)).Some?
    ensures var r := Read(Init(setup), events, o);
            r.inFlight.Some? && r.total.Some? && r.asked == Open(setup, r.inFlight.value, r.total.value)
  {
    PlacesTell(Init(setup), events);
    var t := Run(Init(setup), events).value;
    ActorExists(t, o, Release);
    assert Tells(setup, t.orchs[o], Read(Init(setup), events, o));
    hide Run, Read, LastNAllFailed, LastNAllZero, Due, Open;
  }

  // The step that ended the study.
  ghost predicate Ended(setup: Setup, events: seq<Event>, k: nat, o: nat, status: Status)
    requires Run(Init(setup), events).Some?
  {
    && k < |events| && events[k] in {Orch(o, FailStudy), Orch(o, CompleteStudy)}
    && Run(Init(setup), events[..k]).Some? && Run(Init(setup), events[..k]).value.status.Active?
    && Due(setup, Read(Init(setup), events[..k], o)) == Some(status)
  }

  lemma StatusStep(s: State, e: Event)
    requires |s.jobs| == |s.trials| && Step(s, e).Some?
    ensures var t := Step(s, e).value;
            (t.status.FailedStudy? || t.status.Completed?) && t.status != s.status ==>
              e.Orch? && e.act in {FailStudy, CompleteStudy} && s.status.Active?
  {
    hide LastNAllFailed, LastNAllZero, JobStep;
  }

  // A failed or completed study has a running study's orchestrator whose readings called for
  // exactly that.
  lemma {:induction false} FinalStatusIsJustified(setup: Setup, events: seq<Event>)
    requires Run(Init(setup), events).Some?
    ensures var status := Run(Init(setup), events).value.status;
            status.FailedStudy? || status.Completed? ==> exists k: nat, o: nat :: Ended(setup, events, k, o, status)
    decreases |events|
  {
    if events != [] {
      var last := |events| - 1;
      var init, e := events[..last], events[last];
      FinalStatusIsJustified(setup, init);
      var t := Run(Init(setup), init).value;
      var u := Run(Init(setup), events).value;
      StatusStep(t, e);
      if u.status == t.status {
        if t.status.FailedStudy? || t.status.Completed? {
          var k: nat, o: nat :| Ended(setup, init, k, o, t.status);
          assert init[..k] == events[..k];
          assert Ended(setup, events, k, o, u.status);
        }
      } else if u.status.FailedStudy? || u.status.Completed? {
        VerdictIsDue(setup, init, e.o, e.act);
        assert Ended(setup, events, last, e.o, u.status);
      }
    }
  }
}
