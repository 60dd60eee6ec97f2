// From a finished study to its digest: the stop transaction leaves a pending proposal as the
// durable handoff, and digest workers consume it under a lock.
module DigestHandoff {
  import opened Common

  datatype ProposalStatus = Pending | PrOpened | PrMerged | Rejected | Superseded

  // `filled`: the digest worker has written config_diff and metric_delta.
  datatype Proposal = Proposal(id: nat, status: ProposalStatus, filled: bool)

  datatype DigestKind = ZeroTrials | AllDropped | Degraded | Standard

  // Where a digest worker is. A row inserted defensively exists only inside the worker's open
  // transaction until it commits.
  datatype Pc =
    | Delivered
    | Guarded
    | Locked
    | Preparing(zero: bool)
    | Holding(zero: bool, proposal: Proposal, inserted: bool)
    | Finished

  // `best`: whether the completed study has a best metric. `deleted` logs the rows removed.
  datatype State = State(
    completed: bool,
    best: bool,
    digests: seq<DigestKind>,
    proposals: seq<Proposal>,
    deleted: seq<Proposal>,
    workers: seq<Pc>,
    lock: Option<nat>,
    waiting: nat,
    nextId: nat)

  const INIT := State(false, false, [], [], [], [], None, 0, 0)

  datatype Commit = Committed | LostCommit | LandedButRaised

  // `pick`: the row a LIMIT 1 query without an order returns, of those it may return.
  datatype WorkAction =
    | Guard
    | TryLock
    | Recheck(configured: bool)
    | LoadBest(missing: bool)
    | Ensure(pick: nat)
    | GiveUpEarly
    | Persist(kind: DigestKind, commit: Commit)
    | Die(requeued: bool)

  // Complete: `_stop`, whose chain rollup may supersede the fresh proposal at once. Shift: any
  // change an operator, `open_pr` or another study's rollup makes to a proposal.
  datatype Event =
    | Complete(best: bool, superseded: bool)
    | FastPath
    | BootScan
    | Deliver
    | Shift(i: nat, to: ProposalStatus)
    | Work(w: nat, a: WorkAction)

  function PendingIndex(proposals: seq<Proposal>): (i: nat)
    ensures i <= |proposals|
    ensures i < |proposals| ==> proposals[i].status == Pending
    ensures forall k :: 0 <= k < i ==> proposals[k].status != Pending
  {
    if proposals == [] || proposals[0].status == Pending then 0 else 1 + PendingIndex(proposals[1..])
  }

  predicate HasPending(proposals: seq<Proposal>) { PendingIndex(proposals) < |proposals| }

  // DELETE ... WHERE id = :id
  function Without(proposals: seq<Proposal>, id: nat): (r: seq<Proposal>)
    ensures forall p :: p in r <==> p in proposals && p.id != id
  {
    if proposals == [] then []
    else if proposals[0].id == id then Without(proposals[1..], id)
    else [proposals[0]] + Without(proposals[1..], id)
  }

  function OnlyWith(proposals: seq<Proposal>, id: nat): (r: seq<Proposal>)
    ensures forall p :: p in r <==> p in proposals && p.id == id
  {
    if proposals == [] then []
    else if proposals[0].id == id then [proposals[0]] + OnlyWith(proposals[1..], id)
    else OnlyWith(proposals[1..], id)
  }

  // UPDATE ... WHERE id = :id AND status = 'pending'
  function Filled(proposals: seq<Proposal>, id: nat): (r: seq<Proposal>)
    ensures |r| == |proposals|
    ensures forall i :: 0 <= i < |r| ==> r[i].id == proposals[i].id && r[i].status == proposals[i].status
  {
    if proposals == [] then []
    else
      var p := proposals[0];
      [if p.id == id && p.status == Pending then p.(filled := true) else p] + Filled(proposals[1..], id)
  }

  predicate HoldsLock(pc: Pc) { pc.Locked? || pc.Preparing? || pc.Holding? }

  function Unlocked(s: State, w: nat): State { if s.lock == Some(w) then s.(lock := None) else s }

  function At(s: State, w: nat, pc: Pc): Option<State>
    requires w < |s.workers|
  {
    Some(s.(workers := s.workers[w := pc]))
  }

  // Leaving the session: an open transaction is rolled back and its lock released.
  function Left(s: State, w: nat): Option<State>
    requires w < |s.workers|
  {
    At(Unlocked(s, w), w, Finished)
  }

  // What one committed persist leaves: the digest, and the proposal deleted, filled or kept.
  function Persisted(s: State, zero: bool, p: Proposal, inserted: bool, kind: DigestKind): State {
    var rows := if inserted then s.proposals + [p] else s.proposals;
    var t := s.(digests := s.digests + [kind]);
    match kind
    case ZeroTrials => t.(proposals := Without(rows, p.id), deleted := s.deleted + OnlyWith(rows, p.id))
    case AllDropped => t.(proposals := Without(rows, p.id), deleted := s.deleted + OnlyWith(rows, p.id))
    case Degraded => t.(proposals := rows)
    case Standard => t.(proposals := Filled(rows, p.id))
  }

  function WorkStep(s: State, w: nat, a: WorkAction): Option<State>
    requires w < |s.workers|
  {
    var pc := s.workers[w];
    match a
    case Guard =>
      if !pc.Delivered? then None
      else At(s, w, if s.completed && s.digests == [] then Guarded else Finished)
    case TryLock =>
      if !pc.Guarded? then None
      else if s.lock.None? then At(s.(lock := Some(w)), w, Locked)
      else At(s, w, Finished)
    case Recheck(configured) =>
      if !pc.Locked? then None
      else if s.digests != [] then Left(s, w)
      else if !s.best then At(s, w, Preparing(true))
      else if configured then At(s, w, Preparing(false))
      else Left(s, w)
    case LoadBest(missing) => if pc == Preparing(false) then At(s, w, Preparing(missing)) else None
    case Ensure(pick) =>
      if !pc.Preparing? then None
      else if HasPending(s.proposals) then
        if pick < |s.proposals| && s.proposals[pick].status == Pending then At(s, w, Holding(pc.zero, s.proposals[pick], false)) else None
      else At(s.(nextId := s.nextId + 1), w, Holding(pc.zero, Proposal(s.nextId, Pending, false), true))
    case GiveUpEarly => if HoldsLock(pc) then Left(s, w) else None
    case Persist(kind, commit) =>
      if !pc.Holding? || kind.ZeroTrials? != pc.zero then None
      else if s.digests != [] then Left(s, w)
      else Left(if commit.LostCommit? then s else Persisted(s, pc.zero, pc.proposal, pc.inserted, kind), w)
    case Die(requeued) =>
      if pc.Finished? then None
      else Left(if requeued then s.(waiting := s.waiting + 1) else s, w)
  }

  function Step(s: State, e: Event): Option<State> {
    match e
    case Complete(best, superseded) =>
      if s.completed then None
      else
        var p := Proposal(s.nextId, if superseded then Superseded else Pending, false);
        Some(s.(completed := true, best := best, proposals := s.proposals + [p], nextId := s.nextId + 1))
    case FastPath => if s.completed then Some(s.(waiting := s.waiting + 1)) else None
    case BootScan =>
      if HasPending(s.proposals) && s.digests == [] then Some(s.(waiting := s.waiting + 1)) else Some(s)
    case Deliver =>
      if s.waiting > 0 then Some(s.(waiting := s.waiting - 1, workers := s.workers + [Delivered])) else None
    case Shift(i, to) =>
      if i < |s.proposals| then Some(s.(proposals := s.proposals[i := s.proposals[i].(status := to)])) else None
    case Work(w, a) => if w < |s.workers| then WorkStep(s, w, a) else None
  }

  function Run(s: State, events: seq<Event>): Option<State>
    decreases |events|
  {
    if events == [] then Some(s)
    else
      match Run(s, events[..|events| - 1])
      case None => None
      case Some(t) => Step(t, events[|events| - 1])
  }

  lemma {:induction false} RunsCompose(s: State, a: seq<Event>, b: seq<Event>)
    requires Run(s, a).Some?
    ensures Run(s, a + b) == Run(Run(s, a).value, b)
    decreases |b|
  {
    hide Step;
    if b == [] {
      assert a + b == a;
    } else {
      var c, last := a + b, |b| - 1;
      RunsCompose(s, a, b[..last]);
      assert c[..|c| - 1] == a + b[..last] && c[|c| - 1] == b[last];
    }
  }

  lemma RunSnoc(s: State, events: seq<Event>, t: State, e: Event, u: State) returns (more: seq<Event>)
    requires Run(s, events) == Some(t) && Step(t, e) == Some(u)
    ensures more == events + [e] && Run(s, more) == Some(u)
  {
    more := events + [e];
    assert more[..|more| - 1] == events;
  }

  // ---------------------------------------------------------------------------
  // What every run keeps
  // ---------------------------------------------------------------------------

  predicate DistinctIds(proposals: seq<Proposal>) {
    forall i, j :: 0 <= i < j < |proposals| ==> proposals[i].id != proposals[j].id
  }

  predicate IdsBelow(proposals: seq<Proposal>, bound: nat) {
    forall i :: 0 <= i < |proposals| ==> proposals[i].id < bound
  }

  // A worker past the re-read holds the lock, the study is completed and has no digest; an
  // inserted row is new.
  predicate WorkerInv(s: State, w: nat)
    requires w < |s.workers|
  {
    var pc := s.workers[w];
    && (HoldsLock(pc) ==> s.lock == Some(w))
    && (pc.Guarded? || HoldsLock(pc) ==> s.completed)
    && (pc.Preparing? || pc.Holding? ==> s.digests == [])
    && (pc.Holding? ==> pc.proposal.id < s.nextId)
    && (pc.Holding? && pc.inserted ==> forall i :: 0 <= i < |s.proposals| ==> s.proposals[i].id != pc.proposal.id)
  }

  predicate Inv(s: State) {
    && |s.digests| <= 1
    && (!s.completed ==> s.proposals == [] && s.digests == [] && s.deleted == [])
    && (s.completed && s.digests == [] ==> s.proposals != [] && s.deleted == [])
    && DistinctIds(s.proposals) && IdsBelow(s.proposals, s.nextId)
    && (s.lock.Some? ==> s.lock.value < |s.workers| && HoldsLock(s.workers[s.lock.value]))
    && forall w :: 0 <= w < |s.workers| ==> WorkerInv(s, w)
  }

  lemma {:induction false} WithoutKeepsIds(proposals: seq<Proposal>, id: nat, bound: nat)
    requires DistinctIds(proposals) && IdsBelow(proposals, bound)
    ensures DistinctIds(Without(proposals, id)) && IdsBelow(Without(proposals, id), bound)
  {
    if proposals != [] {
      var rest := Without(proposals[1..], id);
      WithoutKeepsIds(proposals[1..], id, bound);
      forall k | 0 <= k < |rest| ensures rest[k].id != proposals[0].id {
        assert rest[k] in proposals[1..];
      }
    }
  }

  lemma AppendKeepsIds(proposals: seq<Proposal>, p: Proposal, bound: nat)
    requires DistinctIds(proposals) && IdsBelow(proposals, bound) && p.id < bound
    requires forall i :: 0 <= i < |proposals| ==> proposals[i].id != p.id
    ensures DistinctIds(proposals + [p]) && IdsBelow(proposals + [p], bound)
  {
  }

  lemma PersistKeepsIds(s: State, w: nat, kind: DigestKind)
    requires Inv(s) && w < |s.workers| && s.workers[w].Holding?
    ensures var pc := s.workers[w];
            var t := Persisted(s, pc.zero, pc.proposal, pc.inserted, kind);
            DistinctIds(t.proposals) && IdsBelow(t.proposals, s.nextId)
  {
    var pc := s.workers[w];
    assert WorkerInv(s, w);
    if pc.inserted { AppendKeepsIds(s.proposals, pc.proposal, s.nextId); }
    var rows := if pc.inserted then s.proposals + [pc.proposal] else s.proposals;
    hide Inv, WorkerInv;
    WithoutKeepsIds(rows, pc.proposal.id, s.nextId);
    hide Without;
  }

  // A worker's move that leaves the tables alone.
  lemma MoveKeepsInv(s: State, t: State, w: nat, pc: Pc)
    requires Inv(s) && w < |s.workers| && t.workers == s.workers[w := pc]
    requires t == s.(workers := t.workers, lock := t.lock, waiting := t.waiting, nextId := t.nextId) && s.nextId <= t.nextId
    requires t.lock == (if HoldsLock(pc) then Some(w) else if s.lock == Some(w) then None else s.lock)
    requires HoldsLock(pc) ==> s.lock == Some(w) || s.lock.None?
    requires WorkerInv(t, w)
    ensures Inv(t)
  {
    forall v | 0 <= v < |t.workers| ensures WorkerInv(t, v) {
      assert WorkerInv(s, v);
    }
  }

  lemma PersistKeepsInv(s: State, w: nat, kind: DigestKind)
    requires Inv(s) && w < |s.workers| && s.workers[w].Holding? && s.digests == []
    ensures var pc := s.workers[w];
            Inv(Left(Persisted(s, pc.zero, pc.proposal, pc.inserted, kind), w).value)
  {
    var pc := s.workers[w];
    PersistKeepsIds(s, w, kind);
    assert WorkerInv(s, w);
    var p := Persisted(s, pc.zero, pc.proposal, pc.inserted, kind);
    assert p == s.(digests := s.digests + [kind], proposals := p.proposals, deleted := p.deleted);
    var t := Left(p, w).value;
    hide DistinctIds, IdsBelow, Persisted, Without, OnlyWith, Filled;
    forall v | 0 <= v < |t.workers| ensures WorkerInv(t, v) {
      assert WorkerInv(s, v);
    }
  }

  lemma EnsureKeepsInv(s: State, w: nat, pick: nat)
    requires Inv(s) && w < |s.workers| && WorkStep(s, w, Ensure(pick)).Some?
    ensures Inv(WorkStep(s, w, Ensure(pick)).value)
  {
    assert WorkerInv(s, w);
    var t := WorkStep(s, w, Ensure(pick)).value;
    MoveKeepsInv(s, t, w, t.workers[w]);
  }

  lemma LeavingKeepsInv(s: State, w: nat, waiting: nat)
    requires Inv(s) && w < |s.workers|
    ensures Inv(Left(s.(waiting := waiting), w).value)
  {
    assert WorkerInv(s, w);
    MoveKeepsInv(s, Left(s.(waiting := waiting), w).value, w, Finished);
  }

  lemma WorkKeepsInv(s: State, w: nat, a: WorkAction)
    requires w < |s.workers| && Inv(s) && WorkStep(s, w, a).Some?
    ensures Inv(WorkStep(s, w, a).value)
  {
    assert WorkerInv(s, w);
    var t := WorkStep(s, w, a).value;
    LeavingKeepsInv(s, w, s.waiting);
    match a
    case Persist(kind, commit) =>
      if s.digests == [] && !commit.LostCommit? { PersistKeepsInv(s, w, kind); }
    case Die(requeued) => LeavingKeepsInv(s, w, s.waiting + 1);
    case Ensure(pick) => EnsureKeepsInv(s, w, pick);
    case GiveUpEarly =>
    case _ => if t.workers[w] != Finished { MoveKeepsInv(s, t, w, t.workers[w]); } else { FinishKeepsInv(s, w, a); }
  }

  lemma FinishKeepsInv(s: State, w: nat, a: WorkAction)
    requires w < |s.workers| && Inv(s) && WorkStep(s, w, a).Some? && (a.Guard? || a.TryLock? || a.Recheck? || a.LoadBest?)
    requires WorkStep(s, w, a).value.workers[w] == Finished
    ensures Inv(WorkStep(s, w, a).value)
  {
    assert WorkerInv(s, w);
    MoveKeepsInv(s, WorkStep(s, w, a).value, w, Finished);
  }

  lemma StepKeepsInv(s: State, e: Event)
    requires Inv(s) && Step(s, e).Some?
    ensures Inv(Step(s, e).value)
  {
    match e
    case Work(w, a) => WorkKeepsInv(s, w, a);
    case _ => OutsideKeepsInv(s, e);
  }

  lemma OutsideKeepsInv(s: State, e: Event)
    requires Inv(s) && !e.Work? && Step(s, e).Some?
    ensures Inv(Step(s, e).value)
  {
    var t := Step(s, e).value;
    forall v | 0 <= v < |t.workers| ensures WorkerInv(t, v) {
      if v < |s.workers| { assert WorkerInv(s, v); }
    }
  }

  lemma {:induction false} RunKeepsInv(s: State, events: seq<Event>)
    requires Inv(s) && Run(s, events).Some?
    ensures Inv(Run(s, events).value)
    decreases |events|
  {
    hide Inv, Step;
    if events != [] {
      RunKeepsInv(s, events[..|events| - 1]);
      StepKeepsInv(Run(s, events[..|events| - 1]).value, events[|events| - 1]);
    }
  }
}
