// The guarantees of the digest handoff, for every run: lock contention, repeated deliveries,
// early returns, crashes, lost commits, and anything done to the proposals meanwhile.
module DigestTheorems {
  import opened Common
  import opened DigestHandoff

  lemma ReachableInv(events: seq<Event>)
    requires Run(INIT, events).Some?
    ensures Inv(Run(INIT, events).value)
  {
    RunKeepsInv(INIT, events);
  }

  // A completed study always has a proposal row or a digest, and never two digests.
  lemma HandoffIsNeverLost(events: seq<Event>)
    requires Run(INIT, events).Some?
    ensures var s := Run(INIT, events).value;
            && (s.completed ==> s.proposals != [] || s.digests != [])
            && |s.digests| <= 1
            && (s.deleted != [] ==> |s.digests| == 1)
  {
    ReachableInv(events);
  }

  // ---------------------------------------------------------------------------
  // Proposals go only with the digest
  // ---------------------------------------------------------------------------

  predicate HasId(proposals: seq<Proposal>, id: nat) {
    exists i :: 0 <= i < |proposals| && proposals[i].id == id
  }

  lemma HasIdIn(proposals: seq<Proposal>, id: nat)
    ensures HasId(proposals, id) <==> exists p :: p in proposals && p.id == id
  {
    if p :| p in proposals && p.id == id {
      var i :| 0 <= i < |proposals| && proposals[i] == p;
      assert proposals[i].id == id;
    }
  }

  lemma PersistedConserves(s: State, zero: bool, p: Proposal, inserted: bool, kind: DigestKind, id: nat)
    requires HasId(s.proposals, id)
    ensures var t := Persisted(s, zero, p, inserted, kind);
            HasId(t.proposals, id) || HasId(t.deleted, id)
  {
    var rows := if inserted then s.proposals + [p] else s.proposals;
    var t := Persisted(s, zero, p, inserted, kind);
    var i :| 0 <= i < |s.proposals| && s.proposals[i].id == id;
    assert rows[i] == s.proposals[i];
    var row := rows[i];
    if kind.ZeroTrials? || kind.AllDropped? {
      if row.id != p.id {
        assert row in t.proposals;
        HasIdIn(t.proposals, id);
      } else {
        assert row in OnlyWith(rows, p.id) && row in t.deleted;
        HasIdIn(t.deleted, id);
      }
    } else {
      assert t.proposals[i].id == id;
    }
  }

  // A persist that lands and finds no digest.
  predicate Landing(s: State, a: WorkAction) { a.Persist? && s.digests == [] && !a.commit.LostCommit? }

  lemma LandingStep(s: State, w: nat, a: WorkAction)
    requires w < |s.workers| && Landing(s, a) && WorkStep(s, w, a).Some?
    ensures var t, pc := WorkStep(s, w, a).value, s.workers[w];
            && t.workers == s.workers[w := Finished]
            && pc.Holding? && var p := Persisted(s, pc.zero, pc.proposal, pc.inserted, a.kind);
            t.proposals == p.proposals && t.deleted == p.deleted && t.digests == [a.kind]
  {
    hide Without, OnlyWith, Filled;
  }

  // Nothing else touches the tables, and what a worker comes to hold it has just selected.
  lemma OtherWorkStep(s: State, w: nat, a: WorkAction)
    requires w < |s.workers| && !Landing(s, a) && WorkStep(s, w, a).Some?
    ensures var t := WorkStep(s, w, a).value;
            && |t.workers| == |s.workers| && t.workers == s.workers[w := t.workers[w]]
            && t.proposals == s.proposals && t.deleted == s.deleted && t.digests == s.digests
            && var pc := t.workers[w];
               pc.Holding? ==> pc.proposal.status == Pending && (!pc.inserted ==> pc.proposal in s.proposals)
  {
    if a.Ensure? {
      EnsureStep(s, w, a.pick);
    } else {
      hide Persisted, PendingIndex;
    }
  }

  lemma EnsureStep(s: State, w: nat, pick: nat)
    requires w < |s.workers| && WorkStep(s, w, Ensure(pick)).Some?
    ensures var t := WorkStep(s, w, Ensure(pick)).value;
            && t.workers == s.workers[w := t.workers[w]] && t == s.(workers := t.workers, nextId := t.nextId)
            && var pc := t.workers[w];
               pc.Holding? && pc.proposal.status == Pending && (!pc.inserted ==> pc.proposal in s.proposals)
  {
  }

  lemma WorkConserves(s: State, w: nat, a: WorkAction, id: nat)
    requires Inv(s) && w < |s.workers| && WorkStep(s, w, a).Some? && HasId(s.proposals, id)
    ensures var t := WorkStep(s, w, a).value;
            HasId(t.proposals, id) || (HasId(t.deleted, id) && s.digests == [] && |t.digests| == 1)
  {
    var pc := s.workers[w];
    if Landing(s, a) {
      LandingStep(s, w, a);
      PersistedConserves(s, pc.zero, pc.proposal, pc.inserted, a.kind, id);
    } else {
      OtherWorkStep(s, w, a);
    }
    hide WorkStep, Inv, Persisted, HasId;
  }

  // No step loses a row: it stays, or the step that logs it as deleted also adds the digest.
  lemma DeletionComesWithDigest(s: State, e: Event, id: nat)
    requires Inv(s) && Step(s, e).Some? && HasId(s.proposals, id)
    ensures var t := Step(s, e).value;
            HasId(t.proposals, id) || (HasId(t.deleted, id) && s.digests == [] && |t.digests| == 1)
  {
    match e
    case Work(w, a) => WorkConserves(s, w, a, id);
    case Shift(k, to) =>
      var i :| 0 <= i < |s.proposals| && s.proposals[i].id == id;
      assert Step(s, e).value.proposals[i].id == id;
    case _ =>
  }

  lemma StepKeepsDigest(s: State, e: Event)
    requires Step(s, e).Some? && s.digests != []
    ensures Step(s, e).value.digests == s.digests
  {
    match e
    case Work(w, a) => OtherWorkStep(s, w, a);
    case _ =>
  }

  // A digest is final.
  lemma {:induction false} DigestIsFinal(s: State, events: seq<Event>)
    requires Run(s, events).Some?
    ensures s.digests != [] ==> Run(s, events).value.digests == s.digests
    decreases |events|
  {
    hide Step;
    if events != [] && s.digests != [] {
      var last := |events| - 1;
      DigestIsFinal(s, events[..last]);
      StepKeepsDigest(Run(s, events[..last]).value, events[last]);
    }
  }

  // ---------------------------------------------------------------------------
  // What the final transaction leaves
  // ---------------------------------------------------------------------------

  // The rows the transaction sees: its own defensive row is one of them.
  function Seen(before: seq<Proposal>, p: Proposal, inserted: bool): seq<Proposal> {
    if inserted then before + [p] else before
  }

  // A standard digest fills the row of that id if it is still pending, a degraded one writes no
  // row, the other two take the row of that id away; every other row stays.
  predicate RowsAfter(before: seq<Proposal>, after: seq<Proposal>, p: Proposal, inserted: bool, kind: DigestKind) {
    var rows := Seen(before, p, inserted);
    && (kind.Degraded? ==> after == rows)
    && (kind.Standard? ==> |after| == |rows| && forall i :: 0 <= i < |rows| ==>
                             after[i] == if rows[i].id == p.id && rows[i].status == Pending then rows[i].(filled := true) else rows[i])
    && (kind.ZeroTrials? || kind.AllDropped? ==>
          && (forall i :: 0 <= i < |rows| && rows[i].id == p.id ==> after == rows[..i] + rows[i + 1..])
          && ((forall i :: 0 <= i < |rows| ==> rows[i].id != p.id) ==> after == rows))
  }

  lemma {:induction false} FilledRows(proposals: seq<Proposal>, id: nat, i: nat)
    requires i < |proposals|
    ensures Filled(proposals, id)[i] ==
            if proposals[i].id == id && proposals[i].status == Pending then proposals[i].(filled := true) else proposals[i]
  {
    if i > 0 { FilledRows(proposals[1..], id, i - 1); }
  }

  lemma {:induction false} WithoutNone(proposals: seq<Proposal>, id: nat)
    requires forall k :: 0 <= k < |proposals| ==> proposals[k].id != id
    ensures Without(proposals, id) == proposals && OnlyWith(proposals, id) == []
  {
    if proposals != [] { WithoutNone(proposals[1..], id); }
  }

  lemma {:induction false} WithoutOne(proposals: seq<Proposal>, id: nat, i: nat)
    requires DistinctIds(proposals) && i < |proposals| && proposals[i].id == id
    ensures Without(proposals, id) == proposals[..i] + proposals[i + 1..] && OnlyWith(proposals, id) == [proposals[i]]
  {
    if i == 0 {
      WithoutNone(proposals[1..], id);
    } else {
      WithoutOne(proposals[1..], id, i - 1);
      assert proposals[..i] == [proposals[0]] + proposals[1..][..i - 1] && proposals[i + 1..] == proposals[1..][i..];
    }
  }

  // One commit: the digest, and the rows as its kind asks for.
  lemma PersistLeaves(s: State, zero: bool, p: Proposal, inserted: bool, kind: DigestKind)
    requires DistinctIds(Seen(s.proposals, p, inserted))
    ensures var t := Persisted(s, zero, p, inserted, kind);
            && t.digests == s.digests + [kind] && RowsAfter(s.proposals, t.proposals, p, inserted, kind)
            && t == s.(digests := t.digests, proposals := t.proposals, deleted := t.deleted)
  {
    var rows := Seen(s.proposals, p, inserted);
    forall i | 0 <= i < |rows|
      ensures Filled(rows, p.id)[i] == if rows[i].id == p.id && rows[i].status == Pending then rows[i].(filled := true) else rows[i]
    {
      FilledRows(rows, p.id, i);
    }
    forall i | 0 <= i < |rows| && rows[i].id == p.id ensures Without(rows, p.id) == rows[..i] + rows[i + 1..] {
      WithoutOne(rows, p.id, i);
    }
    if forall i :: 0 <= i < |rows| ==> rows[i].id != p.id { WithoutNone(rows, p.id); }
  }

  // In any run: the step in which a worker's commit lands writes the digest of its kind, the
  // rows as that kind asks for, and nothing else.
  lemma PersistStepLeaves(s: State, w: nat, kind: DigestKind, commit: Commit)
    requires Inv(s) && Step(s, Work(w, Persist(kind, commit))).Some? && !commit.LostCommit?
    ensures var t, pc := Step(s, Work(w, Persist(kind, commit))).value, s.workers[w];
            && pc.Holding? && s.digests == [] && t.digests == [kind]
            && RowsAfter(s.proposals, t.proposals, pc.proposal, pc.inserted, kind)
            && t == s.(digests := t.digests, proposals := t.proposals, deleted := t.deleted, workers := s.workers[w := Finished], lock := None)
  {
    assert WorkerInv(s, w);
    var pc := s.workers[w];
    if pc.inserted { AppendKeepsIds(s.proposals, pc.proposal, s.nextId); }
    PersistLeaves(s, pc.zero, pc.proposal, pc.inserted, kind);
    hide Persisted, RowsAfter, DistinctIds, IdsBelow;
  }

  // ---------------------------------------------------------------------------
  // Who can still produce the digest
  // ---------------------------------------------------------------------------

  // What happens without anybody touching a proposal or stopping the study again.
  predicate Unaided(e: Event) { e.BootScan? || e.Deliver? || e.Work? }

  predicate AllUnaided(events: seq<Event>) {
    forall i :: 0 <= i < |events| ==> Unaided(events[i])
  }

  predicate SomeoneWorks(s: State) {
    exists w :: 0 <= w < |s.workers| && !s.workers[w].Finished?
  }

  // Nothing queued, nobody at work, and nothing a boot scan would find.
  predicate Dormant(s: State) {
    s.digests == [] && s.waiting == 0 && !SomeoneWorks(s) && !HasPending(s.proposals)
  }

  lemma FinishedDoesNothing(s: State, w: nat, a: WorkAction)
    requires w < |s.workers| && s.workers[w].Finished?
    ensures WorkStep(s, w, a).None?
  {
  }

  lemma DormantStep(s: State, e: Event)
    requires Dormant(s) && Unaided(e)
    ensures Step(s, e).Some? ==> Step(s, e).value == s
  {
    if e.Work? && e.w < |s.workers| { FinishedDoesNothing(s, e.w, e.a); }
  }

  lemma {:induction false} DormantForGood(s: State, events: seq<Event>)
    requires Dormant(s) && AllUnaided(events) && Run(s, events).Some?
    ensures Run(s, events).value == s
    decreases |events|
  {
    hide Dormant, Step;
    if events != [] {
      var last := |events| - 1;
      DormantForGood(s, events[..last]);
      DormantStep(s, events[last]);
    }
  }

  // One more unaided step.
  lemma Onward(s: State, events: seq<Event>, t: State, e: Event) returns (more: seq<Event>, u: State)
    requires AllUnaided(events) && Run(s, events) == Some(t) && Inv(t) && Unaided(e) && Step(t, e).Some?
    ensures AllUnaided(more) && Run(s, more) == Some(u) && Inv(u) && Step(t, e) == Some(u)
  {
    hide Step, Inv;
    u := Step(t, e).value;
    more := RunSnoc(s, events, t, e, u);
    StepKeepsInv(t, e);
  }

  // Freeing the lock by the death of its holder.
  lemma FreeLock(s: State, events: seq<Event>, t: State) returns (more: seq<Event>, u: State)
    requires AllUnaided(events) && Run(s, events) == Some(t) && Inv(t) && t.completed && t.digests == [] && t.waiting > 0
    ensures AllUnaided(more) && Run(s, more) == Some(u) && Inv(u) && u.completed && u.digests == [] && u.waiting > 0
    ensures u.lock.None?
  {
    if t.lock.None? {
      more, u := events, t;
    } else {
      var w := t.lock.value;
      var e := Work(w, Die(true));
      assert Step(t, e).Some?;
      more, u := Onward(s, events, t, e);
    }
  }

  predicate AtPc(s: State, w: nat, pc: Pc) { w < |s.workers| && s.workers[w] == pc && s.completed && s.digests == [] }

  lemma TakeLock(s: State, events: seq<Event>, t: State) returns (more: seq<Event>, u: State, w: nat)
    requires AllUnaided(events) && Run(s, events) == Some(t) && Inv(t) && t.completed && t.digests == [] && t.waiting > 0
    requires t.lock.None?
    ensures AllUnaided(more) && Run(s, more) == Some(u) && Inv(u) && AtPc(u, w, Locked)
  {
    hide Inv;
    w := |t.workers|;
    more, u := Onward(s, events, t, Deliver);
    assert AtPc(u, w, Delivered) && u.lock.None?;
    more, u := Onward(s, more, u, Work(w, Guard));
    assert AtPc(u, w, Guarded) && u.lock.None?;
    more, u := Onward(s, more, u, Work(w, TryLock));
  }

  lemma WriteDigest(s: State, events: seq<Event>, t: State, w: nat) returns (more: seq<Event>, u: State)
    requires AllUnaided(events) && Run(s, events) == Some(t) && Inv(t) && AtPc(t, w, Locked)
    ensures AllUnaided(more) && Run(s, more) == Some(u) && |u.digests| == 1
  {
    hide Inv, PendingIndex;
    var zero := !t.best;
    more, u := Onward(s, events, t, Work(w, Recheck(true)));
    assert AtPc(u, w, Preparing(zero));
    more, u := Onward(s, more, u, Work(w, Ensure(PendingIndex(u.proposals))));
    assert u.workers[w].Holding? && u.workers[w].zero == zero && u.digests == [];
    hide Persisted;
    more, u := PersistOnward(s, more, u, w, if zero then ZeroTrials else Standard);
  }

  lemma PersistOnward(s: State, events: seq<Event>, t: State, w: nat, kind: DigestKind) returns (more: seq<Event>, u: State)
    requires AllUnaided(events) && Run(s, events) == Some(t) && Inv(t) && t.digests == []
    requires w < |t.workers| && t.workers[w].Holding? && (kind.ZeroTrials? <==> t.workers[w].zero)
    ensures AllUnaided(more) && Run(s, more) == Some(u) && |u.digests| == 1
  {
    hide Inv;
    more, u := Onward(s, events, t, Work(w, Persist(kind, Committed)));
  }

  lemma QueuedLeadsToDigest(s: State, events: seq<Event>, t: State) returns (more: seq<Event>)
    requires AllUnaided(events) && Run(s, events) == Some(t) && Inv(t) && t.completed && t.digests == [] && t.waiting > 0
    ensures AllUnaided(more) && Run(s, more).Some? && Run(s, more).value.digests != []
  {
    hide Inv, Step, Run;
    var u, w;
    more, u := FreeLock(s, events, t);
    more, u, w := TakeLock(s, more, u);
    more, u := WriteDigest(s, more, u, w);
  }

  // Unaided, a completed study can still get its digest exactly as long as it is not dormant:
  // a pending proposal, a queued job or a worker is enough, and one of them is needed.
  lemma DigestStillPossibleIff(s: State)
    requires Inv(s) && s.completed && s.digests == []
    ensures (exists events :: AllUnaided(events) && Run(s, events).Some? && Run(s, events).value.digests != []) <==> !Dormant(s)
  {
    if Dormant(s) {
      forall events | AllUnaided(events) && Run(s, events).Some? ensures Run(s, events).value.digests == [] {
        DormantForGood(s, events);
      }
    } else {
      var events, t := SomethingQueued(s);
      hide Inv, Step, Dormant;
      var more := QueuedLeadsToDigest(s, events, t);
    }
  }

  lemma SomethingQueued(s: State) returns (events: seq<Event>, t: State)
    requires Inv(s) && s.completed && s.digests == [] && !Dormant(s)
    ensures AllUnaided(events) && Run(s, events) == Some(t) && Inv(t) && t.completed && t.digests == [] && t.waiting > 0
  {
    events, t := [], s;
    if s.waiting == 0 {
      if HasPending(s.proposals) {
        events, t := Onward(s, [], s, BootScan);
      } else {
        var w :| 0 <= w < |s.workers| && !s.workers[w].Finished?;
        assert Step(s, Work(w, Die(true))).Some?;
        events, t := Onward(s, [], s, Work(w, Die(true)));
      }
    }
  }

  // Nothing promises that: the stop's own chain rollup supersedes the fresh proposal, and the
  // enqueue of the fast path is lost.
  lemma DormantIsReachable() returns (events: seq<Event>)
    ensures Run(INIT, events).Some? && Dormant(Run(INIT, events).value) && Run(INIT, events).value.completed
  {
    var s := Step(INIT, Complete(true, true)).value;
    assert Run(INIT, []) == Some(INIT);
    events := RunSnoc(INIT, [], INIT, Complete(true, true), s);
  }
}
