// `generate_digest` step by step on the database, while the orchestrator, operators and other
// digest workers may act between any two steps.
module DigestWorkers {
  import opened Common
  import opened DigestHandoff
  import opened DigestTheorems

  // What a worker meets on its way: whether key, pricing and budget allow the call, whether
  // the best trial's row is missing, whether the template is gone or the call fails, whether
  // the model is capable, the parameters of the best trial and those the template declares,
  // which pending row the query returns of several, and how the commit ends.
  datatype Plan = Plan(configured: bool, bestMissing: bool, abandons: bool, structured: bool, params: set<string>,
                       declared: set<string>, choice: nat, commit: Commit)

  // Which digest is due: a placeholder without a best trial, a degraded one from a model that is
  // not capable, an empty one if the template declares none of the parameters there are, else
  // the standard one.
  ghost predicate IsKind(kind: DigestKind, best: bool, plan: Plan) {
    var found := best && !plan.bestMissing;
    var drifted := plan.params != {} && forall p :: p in plan.params ==> p !in plan.declared;
    && (kind.ZeroTrials? <==> !found)
    && (kind.Degraded? <==> found && !plan.structured)
    && (kind.AllDropped? <==> found && plan.structured && drifted)
    && (kind.Standard? <==> found && plan.structured && !drifted)
  }

  // What gets a worker nobody disturbs to its digest.
  predicate Writes(s: State, plan: Plan) {
    && s.completed && s.digests == [] && s.lock.None? && !plan.commit.LostCommit?
    && (s.best ==> plan.configured && (plan.abandons ==> plan.bestMissing))
  }

  // The row used: a pending one, the queried one of several, or a new one if there is none.
  predicate Used(rows: seq<Proposal>, nextId: nat, choice: nat, p: Proposal, inserted: bool) {
    && p.status == Pending && (inserted <==> forall q :: q in rows ==> q.status != Pending)
    && (!inserted ==> p in rows)
    && (inserted ==> p == Proposal(nextId, Pending, false))
    && (choice < |rows| && rows[choice].status == Pending ==> p == rows[choice])
  }

  // The worker's own actions up to the proposal.
  function Entry(best: bool, plan: Plan): seq<WorkAction> {
    [Guard, TryLock, Recheck(plan.configured)] + if best then [LoadBest(plan.bestMissing)] else []
  }

  // All of them: an early return, or the way to the proposal and from there to a return or to
  // one commit of the digest that is due.
  ghost predicate InOrder(acts: seq<WorkAction>, best: bool, plan: Plan, wrote: bool) {
    || (acts <= [Guard, TryLock, Recheck(plan.configured)] && acts != [] && !wrote)
    || exists later :: acts == Entry(best, plan) + later && Ending(later, best, plan, wrote)
  }

  ghost predicate Ending(acts: seq<WorkAction>, best: bool, plan: Plan, wrote: bool) {
    if best && !plan.bestMissing && plan.abandons
    then !wrote && exists pick :: acts == [Ensure(pick), GiveUpEarly]
    else
      && (wrote <==> !plan.commit.LostCommit?)
      && exists pick, kind :: acts == [Ensure(pick), Persist(kind, plan.commit)] && IsKind(kind, best, plan)
  }

  predicate SameTables(s: State, t: State) {
    t.completed == s.completed && t.best == s.best && t.digests == s.digests && t.proposals == s.proposals && t.deleted == s.deleted
  }

  class Deployment {
    var completed: bool
    var best: bool
    var digests: seq<DigestKind>
    var proposals: seq<Proposal>
    var deleted: seq<Proposal>
    var workers: seq<Pc>
    var lock: Option<nat>
    var waiting: nat
    var nextId: nat

    constructor ()
      ensures View() == INIT
    {
      completed, best, digests, proposals, deleted := false, false, [], [], [];
      workers, lock, waiting, nextId := [], None, 0, 0;
    }

    function View(): State
      reads this
    {
      State(completed, best, digests, proposals, deleted, workers, lock, waiting, nextId)
    }

    // Everybody else takes the steps of `events` that are possible.
    method Others(events: seq<Event>, w: nat) returns (ghost trace: seq<Event>)
      requires Inv(View()) && w < |workers|
      modifies this
      ensures Inv(View()) && Run(old(View()), trace) == Some(View())
      ensures w < |workers| && workers[w] == old(workers)[w]
      ensures old(digests) != [] ==> digests == old(digests)
      ensures old(completed) ==> completed && best == old(best)
      ensures Own(trace, w) == [] && (events == [] ==> View() == old(View()))
    {
      hide Step, Inv, Own;
      NothingYet(w);
      trace := [];
      ghost var start := View();
      for i := 0 to |events|
        invariant Inv(View()) && Run(start, trace) == Some(View())
        invariant w < |workers| && workers[w] == old(workers)[w]
        invariant start.completed ==> completed && best == start.best
        invariant Own(trace, w) == [] && (events == [] ==> View() == start)
      {
        var e := events[i];
        var next := Step(View(), e);
        if next.Some? && !(e.Work? && e.w == w) {
          ghost var before := View();
          ForeignStep(before, e, w);
          StepKeepsInv(before, e);
          BestStays(before, e);
          OwnSnoc(trace, e, w);
          completed, best, digests := next.value.completed, next.value.best, next.value.digests;
          proposals, deleted, workers := next.value.proposals, next.value.deleted, next.value.workers;
          lock, waiting, nextId := next.value.lock, next.value.waiting, next.value.nextId;
          trace := RunSnoc(start, trace, before, e, View());
        }
      }
      DigestIsFinal(start, trace);
    }

    // After a step of worker w, the others.
    method Yield(ghost before: State, ghost a: WorkAction, w: nat, meanwhile: seq<Event>) returns (ghost trace: seq<Event>)
      requires Inv(before) && w < |workers| && Step(before, Work(w, a)) == Some(View())
      modifies this
      ensures Inv(View()) && Run(before, trace) == Some(View())
      ensures w < |workers| && workers[w] == old(workers)[w]
      ensures old(digests) != [] ==> digests == old(digests)
      ensures old(completed) ==> completed && best == old(best)
      ensures Own(trace, w) == [a] && (meanwhile == [] ==> View() == old(View()))
    {
      hide Step, Inv, Own;
      NothingYet(w);
      OwnSnoc([], Work(w, a), w);
      StepKeepsInv(before, Work(w, a));
      ghost var rest := Others(meanwhile, w);
      RunOne(before, Work(w, a));
      RunsCompose(before, [Work(w, a)], rest);
      OwnConcat([Work(w, a)], rest, w);
      assert [] + [Work(w, a)] == [Work(w, a)];
      trace := [Work(w, a)] + rest;
    }

    method Move(w: nat, pc: Pc)
      requires w < |workers|
      modifies `workers
      ensures workers == old(workers)[w := pc]
    {
      workers := workers[w := pc];
    }

    // Leaving the session rolls back and releases the lock.
    method Leave(w: nat)
      requires w < |workers|
      modifies `workers, `lock
      ensures workers == old(workers)[w := Finished]
      ensures lock == if old(lock) == Some(w) then None else old(lock)
    {
      if lock == Some(w) {
        lock := None;
      }
      workers := workers[w := Finished];
    }

    // Steps 1 and 2: the study is completed and has no digest.
    method GuardStudy(w: nat, meanwhile: seq<Event>) returns (proceed: bool, ghost trace: seq<Event>)
      requires Inv(View()) && w < |workers| && workers[w].Delivered?
      modifies this
      ensures Inv(View()) && Run(old(View()), trace) == Some(View())
      ensures w < |workers| && workers[w] == if proceed then Guarded else Finished
      ensures proceed <==> old(completed) && old(digests) == []
      ensures proceed ==> completed && best == old(best)
      ensures Own(trace, w) == [Guard] && (meanwhile == [] ==> SameTables(old(View()), View()) && lock == old(lock) && nextId == old(nextId))
    {
      hide Inv;
      ghost var before := View();
      proceed := completed && digests == [];
      Move(w, if proceed then Guarded else Finished);
      trace := Yield(before, Guard, w, meanwhile);
    }

    // Step 3: the advisory lock.
    method AcquireLock(w: nat, meanwhile: seq<Event>) returns (got: bool, ghost trace: seq<Event>)
      requires Inv(View()) && w < |workers| && workers[w].Guarded?
      modifies this
      ensures Inv(View()) && Run(old(View()), trace) == Some(View())
      ensures w < |workers| && workers[w] == if got then Locked else Finished
      ensures got <==> old(lock).None?
      ensures old(completed) ==> completed && best == old(best)
      ensures Own(trace, w) == [TryLock] && (meanwhile == [] ==> SameTables(old(View()), View()) && nextId == old(nextId))
    {
      hide Inv;
      ghost var before := View();
      got := lock.None?;
      if got {
        lock := Some(w);
      }
      Move(w, if got then Locked else Finished);
      trace := Yield(before, TryLock, w, meanwhile);
    }

    // The re-read inside the lock, the zero-trials branch and the early returns before the call.
    method RecheckInsideLock(w: nat, configured: bool, meanwhile: seq<Event>) returns (proceed: bool, zero: bool, ghost trace: seq<Event>)
      requires Inv(View()) && w < |workers| && workers[w].Locked?
      modifies this
      ensures Inv(View()) && Run(old(View()), trace) == Some(View())
      ensures w < |workers| && workers[w] == if proceed then Preparing(zero) else Finished
      ensures zero <==> !old(best)
      ensures proceed <==> old(digests) == [] && (zero || configured)
      ensures old(completed) ==> completed && best == old(best)
      ensures Own(trace, w) == [Recheck(configured)] && (meanwhile == [] ==> SameTables(old(View()), View()) && nextId == old(nextId))
    {
      hide Inv;
      ghost var before := View();
      zero := !best;
      proceed := digests == [] && (zero || configured);
      if proceed {
        Move(w, Preparing(zero));
      } else {
        Leave(w);
      }
      trace := Yield(before, Recheck(configured), w, meanwhile);
    }

    // Step 10: a missing best-trial row is treated as zero trials.
    method LoadBestTrial(w: nat, missing: bool, meanwhile: seq<Event>) returns (ghost trace: seq<Event>)
      requires Inv(View()) && w < |workers| && workers[w] == Preparing(false)
      modifies this
      ensures Inv(View()) && Run(old(View()), trace) == Some(View())
      ensures w < |workers| && workers[w] == Preparing(missing)
      ensures old(completed) ==> completed && best == old(best)
      ensures Own(trace, w) == [LoadBest(missing)] && (meanwhile == [] ==> SameTables(old(View()), View()) && nextId == old(nextId))
    {
      hide Inv;
      ghost var before := View();
      Move(w, Preparing(missing));
      trace := Yield(before, LoadBest(missing), w, meanwhile);
    }

    // `_ensure_pending_proposal`: a pending row, or one inserted in this transaction.
    method EnsurePendingProposal(w: nat, zero: bool, choice: nat, meanwhile: seq<Event>)
      returns (proposal: Proposal, inserted: bool, ghost trace: seq<Event>)
      requires Inv(View()) && w < |workers| && workers[w] == Preparing(zero)
      modifies this
      ensures Inv(View()) && Run(old(View()), trace) == Some(View())
      ensures Used(old(proposals), old(nextId), choice, proposal, inserted)
      ensures w < |workers| && workers[w] == Holding(zero, proposal, inserted)
      ensures exists pick :: Own(trace, w) == [Ensure(pick)]
      ensures meanwhile == [] ==> SameTables(old(View()), View())
    {
      hide Inv;
      ghost var before := View();
      var i := if choice < |proposals| && proposals[choice].status == Pending then choice else PendingIndex(proposals);
      inserted := i == |proposals|;
      if inserted {
        proposal := Proposal(nextId, Pending, false);
        nextId := nextId + 1;
      } else {
        proposal := proposals[i];
      }
      hide PendingIndex;
      Move(w, Holding(zero, proposal, inserted));
      trace := Yield(before, Ensure(i), w, meanwhile);
    }

    // The early returns after that: the defensive row is rolled back with the rest.
    method Abandon(w: nat, meanwhile: seq<Event>) returns (ghost trace: seq<Event>)
      requires Inv(View()) && w < |workers| && workers[w].Holding?
      modifies this
      ensures Inv(View()) && Run(old(View()), trace) == Some(View())
      ensures w < |workers| && workers[w].Finished?
      ensures Own(trace, w) == [GiveUpEarly] && (meanwhile == [] ==> SameTables(old(View()), View()))
    {
      hide Inv;
      ghost var before := View();
      Leave(w);
      trace := Yield(before, GiveUpEarly, w, meanwhile);
    }

    // The final transaction: INSERT the digest (UNIQUE on study_id), then delete, keep or fill
    // the proposal, then COMMIT.
    method PersistDigest(w: nat, zero: bool, proposal: Proposal, inserted: bool, kind: DigestKind, commit: Commit, meanwhile: seq<Event>)
      returns (wrote: bool, ghost trace: seq<Event>)
      requires Inv(View()) && w < |workers| && workers[w] == Holding(zero, proposal, inserted)
      requires kind.ZeroTrials? <==> zero
      modifies this
      ensures Inv(View()) && Run(old(View()), trace) == Some(View())
      ensures wrote <==> !commit.LostCommit?
      ensures w < |workers| && workers[w].Finished?
      ensures wrote ==> digests == [kind]
      ensures Own(trace, w) == [Persist(kind, commit)]
      ensures meanwhile == [] ==> if wrote then RowsAfter(old(proposals), proposals, proposal, inserted, kind) else SameTables(old(View()), View())
    {
      NoDigestYet(View(), w);
      HeldIdsAreDistinct(View(), w);
      hide Inv;
      ghost var before := View();
      wrote := !commit.LostCommit?;
      if wrote {
        WriteRows(zero, proposal, inserted, kind);
      }
      ghost var written := View();
      Leave(w);
      PersistIsStep(before, w, kind, commit, written, View());
      hide Persisted, RowsAfter;
      trace := Yield(before, Persist(kind, commit), w, meanwhile);
    }

    method WriteRows(ghost zero: bool, proposal: Proposal, inserted: bool, kind: DigestKind)
      requires DistinctIds(Seen(proposals, proposal, inserted))
      modifies `digests, `proposals, `deleted
      ensures View() == Persisted(old(View()), zero, proposal, inserted, kind)
      ensures digests == old(digests) + [kind] && RowsAfter(old(proposals), proposals, proposal, inserted, kind)
    {
      PersistLeaves(View(), zero, proposal, inserted, kind);
      hide RowsAfter, DistinctIds;
      var rows := if inserted then proposals + [proposal] else proposals;
      digests := digests + [kind];
      match kind {
        case ZeroTrials =>
          deleted, proposals := deleted + OnlyWith(rows, proposal.id), Without(rows, proposal.id);
        case AllDropped =>
          deleted, proposals := deleted + OnlyWith(rows, proposal.id), Without(rows, proposal.id);
        case Degraded =>
          proposals := rows;
        case Standard =>
          proposals := Filled(rows, proposal.id);
      }
    }

    // Generating the digest of one completed study. Whatever is met on the way and whatever
    // the others do, the job is a run of the handoff protocol in which it writes at most one
    // digest, of the kind that is due. Undisturbed, it writes exactly when nothing stands in its
    // way, and the rows are as that kind asks for.
    method GenerateDigest(w: nat, plan: Plan, others: nat -> seq<Event>)
      returns (wrote: bool, ghost used: Proposal, ghost inserted: bool, ghost trace: seq<Event>)
      requires Inv(View()) && w < |workers| && workers[w].Delivered?
      modifies this
      ensures Inv(View()) && Run(old(View()), trace) == Some(View())
      ensures w < |workers| && workers[w].Finished?
      ensures InOrder(Own(trace, w), old(best), plan, wrote)
      ensures wrote ==> |digests| == 1 && IsKind(digests[0], old(best), plan)
      ensures Undisturbed(others) ==> (wrote <==> Writes(old(View()), plan))
      ensures Undisturbed(others) && wrote ==>
                && Used(old(proposals), old(nextId), plan.choice, used, inserted)
                && RowsAfter(old(proposals), proposals, used, inserted, digests[0])
      ensures Undisturbed(others) && !wrote ==> SameTables(old(View()), View())
    {
      ghost var start := View();
      hide Inv, Step, Run, Own, Used, RowsAfter, IsKind, Ending;
      ghost var more: seq<Event>;
      used, inserted := Proposal(0, Pending, false), false;
      var proceed: bool, zero: bool;
      proceed, zero, trace := ReachProposal(w, plan, others);
      if proceed {
        ghost var middle, first := View(), trace;
        wrote, used, inserted, more := WriteDigestInLock(w, zero, start.best, plan, others(4), others(5));
        trace := OwnJoined(start, first, middle, more, View(), w);
        assert Own(trace, w) == Entry(start.best, plan) + Own(more, w) && Ending(Own(more, w), start.best, plan, wrote);
      } else {
        wrote := false;
      }
    }

    // Everything up to the proposal.
    method ReachProposal(w: nat, plan: Plan, others: nat -> seq<Event>) returns (proceed: bool, zero: bool, ghost trace: seq<Event>)
      requires Inv(View()) && w < |workers| && workers[w].Delivered?
      modifies this
      ensures Inv(View()) && Run(old(View()), trace) == Some(View())
      ensures w < |workers| && workers[w] == if proceed then Preparing(zero) else Finished
      ensures proceed ==> (zero <==> !old(best) || plan.bestMissing)
      ensures if proceed then Own(trace, w) == Entry(old(best), plan)
              else Own(trace, w) != [] && Own(trace, w) <= [Guard, TryLock, Recheck(plan.configured)]
      ensures Undisturbed(others) ==>
                && SameTables(old(View()), View()) && nextId == old(nextId)
                && (proceed <==> old(completed) && old(digests) == [] && old(lock).None? && (old(best) ==> plan.configured))
    {
      hide Inv, Step, Run, Own;
      ghost var start := View();
      ghost var more: seq<Event>;
      zero := false;
      proceed, trace := GuardStudy(w, others(0));
      if !proceed {
        return;
      }
      ghost var middle := View();
      proceed, more := AcquireLock(w, others(1));
      trace := OwnJoined(start, trace, middle, more, View(), w);
      if !proceed {
        return;
      }
      middle := View();
      proceed, zero, more := RecheckInsideLock(w, plan.configured, others(2));
      trace := OwnJoined(start, trace, middle, more, View(), w);
      if !proceed {
        return;
      }
      if !zero {
        middle := View();
        more := LoadBestTrial(w, plan.bestMissing, others(3));
        trace := OwnJoined(start, trace, middle, more, View(), w);
        zero := plan.bestMissing;
      }
    }

    method WriteDigestInLock(w: nat, zero: bool, ghost hadBest: bool, plan: Plan, meanwhile: seq<Event>, later: seq<Event>)
      returns (wrote: bool, ghost used: Proposal, ghost added: bool, ghost trace: seq<Event>)
      requires Inv(View()) && w < |workers| && workers[w] == Preparing(zero) && (zero <==> !hadBest || plan.bestMissing)
      modifies this
      ensures Inv(View()) && Run(old(View()), trace) == Some(View())
      ensures w < |workers| && workers[w].Finished?
      ensures Ending(Own(trace, w), hadBest, plan, wrote)
      ensures wrote <==> (zero || !plan.abandons) && !plan.commit.LostCommit?
      ensures wrote ==> |digests| == 1 && IsKind(digests[0], hadBest, plan)
      ensures meanwhile == later == [] && wrote ==>
                && Used(old(proposals), old(nextId), plan.choice, used, added)
                && RowsAfter(old(proposals), proposals, used, added, digests[0])
      ensures meanwhile == later == [] && !wrote ==> SameTables(old(View()), View())
    {
      hide Inv, Step, Run, Own, Used, RowsAfter;
      ghost var start := View();
      ghost var more: seq<Event>;
      var proposal: Proposal, inserted: bool;
      proposal, inserted, trace := EnsurePendingProposal(w, zero, plan.choice, meanwhile);
      used, added := proposal, inserted;
      ghost var middle := View();
      if !zero && plan.abandons {
        more := Abandon(w, later);
        wrote := false;
      } else {
        var recommended := plan.params * plan.declared;
        var allDropped := plan.params != {} && recommended == {};
        DriftedIff(plan.params, plan.declared);
        var kind := if zero then ZeroTrials else if !plan.structured then Degraded
                    else if allDropped then AllDropped else Standard;
        assert IsKind(kind, hadBest, plan);
        hide IsKind;
        wrote, more := PersistDigest(w, zero, proposal, inserted, kind, plan.commit, later);
      }
      trace := OwnJoined(start, trace, middle, more, View(), w);
    }
  }

  ghost predicate Undisturbed(others: nat -> seq<Event>) { forall k: nat :: others(k) == [] }

  lemma DriftedIff(params: set<string>, declared: set<string>)
    ensures params * declared == {} <==> forall p :: p in params ==> p !in declared
  {
    if params * declared == {} {
      forall p | p in params ensures p !in declared {
        assert p !in params * declared;
      }
    }
  }

  lemma PersistIsStep(s: State, w: nat, kind: DigestKind, commit: Commit, written: State, t: State)
    requires w < |s.workers| && s.workers[w].Holding? && s.digests == [] && (kind.ZeroTrials? <==> s.workers[w].zero)
    requires var pc := s.workers[w];
             written == if commit.LostCommit? then s else Persisted(s, pc.zero, pc.proposal, pc.inserted, kind)
    requires t == written.(workers := written.workers[w := Finished], lock := if written.lock == Some(w) then None else written.lock)
    ensures Step(s, Work(w, Persist(kind, commit))) == Some(t)
  {
  }

  lemma NoDigestYet(s: State, w: nat)
    requires Inv(s) && w < |s.workers| && s.workers[w].Holding?
    ensures s.digests == []
  {
    assert WorkerInv(s, w);
  }

  lemma HeldIdsAreDistinct(s: State, w: nat)
    requires Inv(s) && w < |s.workers| && s.workers[w].Holding?
    ensures DistinctIds(Seen(s.proposals, s.workers[w].proposal, s.workers[w].inserted))
  {
    assert WorkerInv(s, w);
    var pc := s.workers[w];
    if pc.inserted { AppendKeepsIds(s.proposals, pc.proposal, s.nextId); }
  }

  lemma BestStays(s: State, e: Event)
    requires Step(s, e).Some?
    ensures s.completed ==> Step(s, e).value.completed && Step(s, e).value.best == s.best
  {
    hide Without, OnlyWith, Filled;
  }

  // The actions of worker w itself, in their order.
  ghost function Own(trace: seq<Event>, w: nat): seq<WorkAction> {
    if trace == [] then []
    else
      var last := trace[|trace| - 1];
      Own(trace[..|trace| - 1], w) + if last.Work? && last.w == w then [last.a] else []
  }

  lemma NothingYet(w: nat)
    ensures Own([], w) == []
  {
  }

  lemma OwnSnoc(trace: seq<Event>, e: Event, w: nat)
    ensures Own(trace + [e], w) == Own(trace, w) + if e.Work? && e.w == w then [e.a] else []
  {
    assert (trace + [e])[..|trace|] == trace;
  }

  lemma {:induction false} OwnConcat(a: seq<Event>, b: seq<Event>, w: nat)
    ensures Own(a + b, w) == Own(a, w) + Own(b, w)
  {
    if b == [] {
      assert a + b == a;
    } else {
      hide Own;
      var init, e := b[..|b| - 1], b[|b| - 1];
      OwnConcat(a, init, w);
      OwnSnoc(a + init, e, w);
      OwnSnoc(init, e, w);
      assert b == init + [e] && a + b == (a + init) + [e];
    }
  }

  lemma OwnJoined(start: State, a: seq<Event>, middle: State, b: seq<Event>, end: State, w: nat) returns (c: seq<Event>)
    requires Run(start, a) == Some(middle) && Run(middle, b) == Some(end)
    ensures c == a + b && Run(start, c) == Some(end) && Own(c, w) == Own(a, w) + Own(b, w)
  {
    c := Joined(start, a, middle, b, end);
    OwnConcat(a, b, w);
  }

  lemma ForeignStep(s: State, e: Event, w: nat)
    requires Step(s, e).Some? && w < |s.workers| && !(e.Work? && e.w == w)
    ensures var t := Step(s, e).value; w < |t.workers| && t.workers[w] == s.workers[w]
  {
    match e
    case Work(v, a) =>
      if Landing(s, a) { LandingStep(s, v, a); } else { OtherWorkStep(s, v, a); }
      hide WorkStep;
    case _ =>
  }

  lemma RunOne(s: State, e: Event)
    ensures Run(s, [e]) == Step(s, e)
  {
    assert [e][..0] == [];
  }

  lemma Joined(start: State, a: seq<Event>, middle: State, b: seq<Event>, end: State) returns (c: seq<Event>)
    requires Run(start, a) == Some(middle) && Run(middle, b) == Some(end)
    ensures c == a + b && Run(start, c) == Some(end)
  {
    RunsCompose(start, a, b);
    c := a + b;
  }
}
