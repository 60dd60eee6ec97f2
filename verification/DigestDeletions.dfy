// Which proposals a digest deletes: the DELETE goes by id alone.
module DigestDeletions {
  import opened Common
  import opened DigestHandoff
  import opened DigestTheorems

  predicate AllPending(proposals: seq<Proposal>) {
    forall i :: 0 <= i < |proposals| ==> proposals[i].status == Pending
  }

  // The row with an id is there and no longer pending.
  predicate LeftPending(proposals: seq<Proposal>, id: nat) {
    exists i :: 0 <= i < |proposals| && proposals[i].id == id && proposals[i].status != Pending
  }

  // A delete that lands on a row somebody has moved on since the worker selected it.
  predicate DeletesAnother(s: State, e: Event) {
    && e.Work? && e.w < |s.workers| && s.workers[e.w].Holding? && Landing(s, e.a)
    && (e.a.kind.ZeroTrials? || e.a.kind.AllDropped?) && (e.a.kind.ZeroTrials? <==> s.workers[e.w].zero)
    && !s.workers[e.w].inserted && LeftPending(s.proposals, s.workers[e.w].proposal.id)
  }

  ghost predicate NeverDeletesAnother(s: State, events: seq<Event>)
    requires Run(s, events).Some?
    decreases |events|
  {
    events != [] ==>
      var last := |events| - 1;
      NeverDeletesAnother(s, events[..last]) && !DeletesAnother(Run(s, events[..last]).value, events[last])
  }

  // What a worker holds it selected, or made, as a pending row.
  predicate SelectedPending(s: State) {
    forall w :: 0 <= w < |s.workers| && s.workers[w].Holding? ==> s.workers[w].proposal.status == Pending
  }

  lemma SelectedPendingStep(s: State, e: Event)
    requires SelectedPending(s) && Step(s, e).Some?
    ensures SelectedPending(Step(s, e).value)
  {
    match e
    case Work(w, a) =>
      if Landing(s, a) { LandingStep(s, w, a); } else { OtherWorkStep(s, w, a); }
      hide WorkStep;
    case _ =>
  }

  lemma DeletedArePendingIff(proposals: seq<Proposal>, id: nat)
    ensures AllPending(OnlyWith(proposals, id)) <==> !LeftPending(proposals, id)
  {
    var gone := OnlyWith(proposals, id);
    if LeftPending(proposals, id) {
      var i :| 0 <= i < |proposals| && proposals[i].id == id && proposals[i].status != Pending;
      assert proposals[i] in gone;
    } else {
      forall k | 0 <= k < |gone| ensures gone[k].status == Pending {
        assert gone[k] in proposals;
        var i :| 0 <= i < |proposals| && proposals[i] == gone[k];
      }
    }
  }

  lemma AllPendingAppend(a: seq<Proposal>, b: seq<Proposal>)
    ensures AllPending(a + b) <==> AllPending(a) && AllPending(b)
  {
    if AllPending(a + b) {
      assert forall i :: 0 <= i < |a| ==> a[i] == (a + b)[i];
      assert forall i :: 0 <= i < |b| ==> b[i] == (a + b)[|a| + i];
    }
  }

  // An inserted row is the only one of its id.
  lemma InsertedLeavesNoOther(s: State, w: nat)
    requires Inv(s) && SelectedPending(s) && w < |s.workers| && s.workers[w].Holding? && s.workers[w].inserted
    ensures !LeftPending(s.proposals + [s.workers[w].proposal], s.workers[w].proposal.id)
  {
    assert WorkerInv(s, w);
  }

  lemma PersistDeletesIff(s: State, w: nat, a: WorkAction)
    requires Inv(s) && SelectedPending(s) && AllPending(s.deleted)
    requires w < |s.workers| && Landing(s, a) && WorkStep(s, w, a).Some?
    ensures AllPending(WorkStep(s, w, a).value.deleted) <==> !DeletesAnother(s, Work(w, a))
  {
    var pc := s.workers[w];
    assert pc.Holding? && (a.kind.ZeroTrials? <==> pc.zero);
    LandingStep(s, w, a);
    var rows := if pc.inserted then s.proposals + [pc.proposal] else s.proposals;
    if pc.inserted { InsertedLeavesNoOther(s, w); }
    DeletedArePendingIff(rows, pc.proposal.id);
    AllPendingAppend(s.deleted, OnlyWith(rows, pc.proposal.id));
    hide WorkStep, Inv, OnlyWith, Without, LeftPending, AllPending, SelectedPending;
  }

  // One step deletes a proposal that is not pending exactly if it is such a delete.
  lemma StepDeletesIff(s: State, e: Event)
    requires Inv(s) && SelectedPending(s) && AllPending(s.deleted) && Step(s, e).Some?
    ensures AllPending(Step(s, e).value.deleted) <==> !DeletesAnother(s, e)
  {
    match e
    case Work(w, a) =>
      if Landing(s, a) { PersistDeletesIff(s, w, a); } else { OtherWorkStep(s, w, a); }
      hide WorkStep;
    case _ =>
  }

  lemma DeletedStaysDeleted(s: State, e: Event)
    requires Step(s, e).Some? && !AllPending(s.deleted)
    ensures !AllPending(Step(s, e).value.deleted)
  {
    match e
    case Work(w, a) =>
      if Landing(s, a) {
        LandingStep(s, w, a);
        AllPendingAppend(s.deleted, OnlyWith(if s.workers[w].inserted then s.proposals + [s.workers[w].proposal] else s.proposals,
                                             s.workers[w].proposal.id));
      } else {
        OtherWorkStep(s, w, a);
      }
      hide WorkStep, AllPending;
    case _ =>
  }

  // In every run: only pending proposals have been deleted exactly if none of its steps was
  // such a delete.
  lemma {:induction false} DeletesOnlyPendingIff(events: seq<Event>)
    requires Run(INIT, events).Some?
    ensures SelectedPending(Run(INIT, events).value)
    ensures AllPending(Run(INIT, events).value.deleted) <==> NeverDeletesAnother(INIT, events)
    decreases |events|
  {
    hide Step;
    if events != [] {
      var last := |events| - 1;
      var s := Run(INIT, events[..last]).value;
      DeletesOnlyPendingIff(events[..last]);
      ReachableInv(events[..last]);
      hide Inv, AllPending, DeletesAnother, SelectedPending;
      SelectedPendingStep(s, events[last]);
      if AllPending(s.deleted) { StepDeletesIff(s, events[last]); } else { DeletedStaysDeleted(s, events[last]); }
    }
  }

  // ---------------------------------------------------------------------------
  // Where it comes from
  // ---------------------------------------------------------------------------

  // A worker inside its lock has selected the row.
  predicate Selected(s: State, i: nat)
    requires i < |s.proposals|
  {
    exists w :: 0 <= w < |s.workers| && s.workers[w].Holding? && !s.workers[w].inserted && s.workers[w].proposal.id == s.proposals[i].id
  }

  // Nobody moves a proposal on while a digest worker holds it selected; any other may be.
  ghost predicate Calm(s: State, events: seq<Event>)
    requires Run(s, events).Some?
    decreases |events|
  {
    events != [] ==>
      var last := |events| - 1;
      var t := Run(s, events[..last]).value;
      Calm(s, events[..last]) && (events[last].Shift? ==> events[last].i < |t.proposals| && !Selected(t, events[last].i))
  }

  // The row a worker holds is still the pending row it selected.
  predicate HeldIsPending(s: State) {
    && AllPending(s.deleted)
    && forall w :: 0 <= w < |s.workers| && s.workers[w].Holding? ==>
         var pc := s.workers[w];
         pc.proposal.status == Pending && (!pc.inserted ==> pc.proposal in s.proposals)
  }

  lemma {:induction false} OnlyWithIsOne(proposals: seq<Proposal>, p: Proposal)
    requires DistinctIds(proposals) && p in proposals
    ensures forall q :: q in OnlyWith(proposals, p.id) ==> q == p
  {
  }

  lemma PersistDeletesPending(s: State, w: nat, kind: DigestKind)
    requires Inv(s) && HeldIsPending(s) && w < |s.workers| && s.workers[w].Holding?
    ensures var pc := s.workers[w];
            AllPending(Persisted(s, pc.zero, pc.proposal, pc.inserted, kind).deleted)
  {
    var pc := s.workers[w];
    assert WorkerInv(s, w);
    var rows := if pc.inserted then s.proposals + [pc.proposal] else s.proposals;
    if pc.inserted { AppendKeepsIds(s.proposals, pc.proposal, s.nextId); }
    assert pc.proposal in rows;
    OnlyWithIsOne(rows, pc.proposal);
    var gone := OnlyWith(rows, pc.proposal.id);
    assert forall i :: 0 <= i < |gone| ==> gone[i] in gone;
  }

  lemma NobodyHolds(s: State, w: nat)
    requires Inv(s) && (s.lock.None? || !s.completed) && w < |s.workers|
    ensures !s.workers[w].Holding?
  {
    assert WorkerInv(s, w);
  }

  lemma ShiftKeepsOthers(s: State, i: nat, to: ProposalStatus, p: Proposal)
    requires i < |s.proposals| && p in s.proposals && p.id != s.proposals[i].id
    ensures p in s.proposals[i := s.proposals[i].(status := to)]
  {
    var k :| 0 <= k < |s.proposals| && s.proposals[k] == p;
    assert s.proposals[i := s.proposals[i].(status := to)][k] == p;
  }

  lemma CalmShift(s: State, i: nat, to: ProposalStatus)
    requires Inv(s) && HeldIsPending(s) && i < |s.proposals| && !Selected(s, i)
    ensures HeldIsPending(Step(s, Shift(i, to)).value)
  {
    forall w | 0 <= w < |s.workers| && s.workers[w].Holding? && !s.workers[w].inserted
      ensures s.workers[w].proposal in Step(s, Shift(i, to)).value.proposals
    {
      ShiftKeepsOthers(s, i, to, s.workers[w].proposal);
    }
  }

  lemma CalmStep(s: State, e: Event)
    requires Inv(s) && HeldIsPending(s) && Step(s, e).Some? && (e.Shift? ==> e.i < |s.proposals| && !Selected(s, e.i))
    ensures HeldIsPending(Step(s, e).value)
  {
    match e
    case Work(w, a) => CalmWork(s, w, a);
    case Deliver =>
    case FastPath =>
    case BootScan =>
    case Shift(i, to) => CalmShift(s, i, to);
    case Complete(_, _) => forall w | 0 <= w < |s.workers| ensures !s.workers[w].Holding? { NobodyHolds(s, w); }
  }

  lemma CalmWork(s: State, w: nat, a: WorkAction)
    requires Inv(s) && HeldIsPending(s) && w < |s.workers| && WorkStep(s, w, a).Some?
    ensures HeldIsPending(WorkStep(s, w, a).value)
  {
    if Landing(s, a) {
      LandingStep(s, w, a);
      PersistDeletesPending(s, w, a.kind);
      assert WorkerInv(s, w);
      hide WorkStep, Persisted;
      forall v | 0 <= v < |s.workers| && v != w ensures !s.workers[v].Holding? { assert WorkerInv(s, v); }
    } else {
      OtherWorkStep(s, w, a);
      hide WorkStep, Persisted, Inv;
    }
  }

  // A run without that deletes only pending proposals.
  lemma {:induction false} CalmRunsDeleteOnlyPending(s: State, events: seq<Event>)
    requires Inv(s) && HeldIsPending(s) && Run(s, events).Some? && Calm(s, events)
    ensures HeldIsPending(Run(s, events).value)
    decreases |events|
  {
    hide Inv, Step, HeldIsPending;
    if events != [] {
      var last := |events| - 1;
      CalmRunsDeleteOnlyPending(s, events[..last]);
      RunKeepsInv(s, events[..last]);
      CalmStep(Run(s, events[..last]).value, events[last]);
    }
  }

  // A worker about to delete the proposal it selected, at the step before someone opens its
  // pull request.
  const SELECTED := State(true, false, [], [Proposal(0, Pending, false)], [], [Holding(true, Proposal(0, Pending, false), false)],
                          Some(0), 0, 1)

  lemma SelectingSteps()
    ensures Step(INIT, Complete(false, false)) == Some(State(true, false, [], SELECTED.proposals, [], [], None, 0, 1))
    ensures Step(State(true, false, [], SELECTED.proposals, [], [], None, 0, 1), FastPath) ==
            Some(State(true, false, [], SELECTED.proposals, [], [], None, 1, 1))
    ensures Step(State(true, false, [], SELECTED.proposals, [], [], None, 1, 1), Deliver) ==
            Some(SELECTED.(workers := [Delivered], lock := None))
    ensures Step(SELECTED.(workers := [Delivered], lock := None), Work(0, Guard)) == Some(SELECTED.(workers := [Guarded], lock := None))
  {
    assert [] + [Proposal(0, Pending, false)] == SELECTED.proposals;
    assert [] + [Delivered] == [Delivered];
    assert [Delivered][0 := Guarded] == [Guarded];
  }

  lemma HoldingSteps()
    ensures Step(SELECTED.(workers := [Guarded], lock := None), Work(0, TryLock)) == Some(SELECTED.(workers := [Locked]))
    ensures Step(SELECTED.(workers := [Locked]), Work(0, Recheck(true))) == Some(SELECTED.(workers := [Preparing(true)]))
    ensures Step(SELECTED.(workers := [Preparing(true)]), Work(0, Ensure(0))) == Some(SELECTED)
  {
    assert [Guarded][0 := Locked] == [Locked] && [Locked][0 := Preparing(true)] == [Preparing(true)];
    assert PendingIndex(SELECTED.proposals) == 0;
    assert [Preparing(true)][0 := SELECTED.workers[0]] == SELECTED.workers;
  }

  lemma RunToSelected() returns (events: seq<Event>)
    ensures Run(INIT, events) == Some(SELECTED)
  {
    SelectingSteps();
    HoldingSteps();
    assert Run(INIT, []) == Some(INIT);
    hide *;
    events := RunSnoc(INIT, [], INIT, Complete(false, false), State(true, false, [], SELECTED.proposals, [], [], None, 0, 1));
    events := RunSnoc(INIT, events, State(true, false, [], SELECTED.proposals, [], [], None, 0, 1), FastPath,
                      State(true, false, [], SELECTED.proposals, [], [], None, 1, 1));
    events := RunSnoc(INIT, events, State(true, false, [], SELECTED.proposals, [], [], None, 1, 1), Deliver,
                      SELECTED.(workers := [Delivered], lock := None));
    events := RunSnoc(INIT, events, SELECTED.(workers := [Delivered], lock := None), Work(0, Guard),
                      SELECTED.(workers := [Guarded], lock := None));
    events := RunSnoc(INIT, events, SELECTED.(workers := [Guarded], lock := None), Work(0, TryLock), SELECTED.(workers := [Locked]));
    events := RunSnoc(INIT, events, SELECTED.(workers := [Locked]), Work(0, Recheck(true)), SELECTED.(workers := [Preparing(true)]));
    events := RunSnoc(INIT, events, SELECTED.(workers := [Preparing(true)]), Work(0, Ensure(0)), SELECTED);
  }

  const OPENED := SELECTED.(proposals := [Proposal(0, PrOpened, false)])

  lemma DeletingSteps()
    ensures Step(SELECTED, Shift(0, PrOpened)) == Some(OPENED)
    ensures var t := Step(OPENED, Work(0, Persist(ZeroTrials, Committed)));
            t.Some? && t.value.deleted == [Proposal(0, PrOpened, false)]
  {
    assert SELECTED.proposals[0 := Proposal(0, PrOpened, false)] == OPENED.proposals;
    assert OnlyWith(OPENED.proposals, 0) == [Proposal(0, PrOpened, false)] + OnlyWith([], 0);
  }

  // One with it may not: the proposal of an opened pull request is deleted.
  lemma OpenedProposalIsDeleted() returns (events: seq<Event>)
    ensures Run(INIT, events).Some?
    ensures var s := Run(INIT, events).value; s.deleted != [] && s.deleted[0].status == PrOpened
  {
    events := RunToSelected();
    DeletingSteps();
    hide Step;
    events := RunSnoc(INIT, events, SELECTED, Shift(0, PrOpened), OPENED);
    var last := Step(OPENED, Work(0, Persist(ZeroTrials, Committed))).value;
    events := RunSnoc(INIT, events, OPENED, Work(0, Persist(ZeroTrials, Committed)), last);
  }
}
