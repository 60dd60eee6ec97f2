// The life of a proposal once digest, operators, the pull-request worker, GitHub webhooks and
// the polling reconciler all write to it, and the pointer a config repo keeps to the proposal
// merged last.
module ProposalLifecycle {
  import opened Common

  datatype Status = Pending | PrOpened | PrMerged | Rejected | Superseded

  datatype PrState = Open | Closed | Merged

  // `repo`: the config repo of the proposal's cluster, if it has one. Timestamps are counted
  // from some epoch.
  datatype Proposal = Proposal(status: Status, pr: Option<PrState>, mergedAt: Option<int>, polledAt: Option<int>, repo: Option<nat>)

  datatype Verdict = Reject | Reinstate

  // An operator request between its read and its write.
  datatype Request = Request(i: nat, verdict: Verdict) | Answered

  // pointers[r]: config_repos.last_merged_proposal_id.
  datatype State = State(proposals: seq<Proposal>, pointers: map<nat, nat>, requests: seq<Request>)

  const INIT := State([], map[], [])

  datatype Event =
    | Create(repo: Option<nat>)
    | Supersede(i: nat)
    | OpenPr(i: nat)
    | HookMerged(i: nat, stamp: Option<int>)
    | HookClosed(i: nat)
    | HookReopened(i: nat)
    | PollMerged(i: nat, selectedClosed: bool, at: int)
    | PollClosed(i: nat, selectedClosed: bool, now: int)
    | Read(i: nat, verdict: Verdict)
    | Write(k: nat)

  function Put(s: State, i: nat, p: Proposal): State
    requires i < |s.proposals|
  {
    s.(proposals := s.proposals[i := p])
  }

  predicate IsOpen(p: Proposal) { p.status == PrOpened && p.pr == Some(Open) }

  predicate IsClosed(p: Proposal) { p.status == PrOpened && p.pr == Some(Closed) }

  // mark_proposal_pr_merged / _from_closed once their WHERE clause has matched.
  function MergedRow(p: Proposal, at: int): Proposal { p.(status := PrMerged, pr := Some(Merged), mergedAt := Some(at)) }

  // `update_config_repo_last_merged_pointer`: strictly newer wins.
  function Pointed(s: State, i: nat, at: int): map<nat, nat>
    requires i < |s.proposals|
  {
    var r := s.proposals[i].repo;
    if r.None? then s.pointers
    else if r.value !in s.pointers then s.pointers[r.value := i]
    else
      var j := s.pointers[r.value];
      if j < |s.proposals| && s.proposals[j].mergedAt.Some? && s.proposals[j].mergedAt.value >= at then s.pointers
      else s.pointers[r.value := i]
  }

  // The merge and the pointer, in one transaction.
  function MergeInto(s: State, i: nat, at: int): State
    requires i < |s.proposals|
  {
    var t := Put(s, i, MergedRow(s.proposals[i], at));
    t.(pointers := Pointed(t, i, at))
  }

  // The status an operator's verdict starts from, and the one it writes.
  function From(v: Verdict): Status { if v.Reject? then Pending else Superseded }

  function To(v: Verdict): Status { if v.Reject? then Rejected else Pending }

  // What one conditional UPDATE does to its row.
  datatype Change = NoMatch | Update(p: Proposal) | Merge(at: int)

  function UpdateWhen(matches: bool, p: Proposal): Change { if matches then Update(p) else NoMatch }

  function ChangeOf(p: Proposal, e: Event): Change {
    match e
    case Supersede(_) => UpdateWhen(p.status == Pending, p.(status := Superseded))
    case OpenPr(_) => UpdateWhen(p.status == Pending, p.(status := PrOpened, pr := Some(Open)))
    case HookMerged(_, stamp) =>
      if stamp.None? then UpdateWhen(IsOpen(p), p.(pr := Some(Closed)))
      else if IsOpen(p) then Merge(stamp.value) else NoMatch
    case HookClosed(_) => UpdateWhen(IsOpen(p), p.(pr := Some(Closed)))
    case HookReopened(_) => UpdateWhen(IsClosed(p), p.(pr := Some(Open)))
    case PollMerged(_, selectedClosed, at) =>
      if (if selectedClosed then IsClosed(p) else IsOpen(p)) then Merge(at) else NoMatch
    case PollClosed(_, selectedClosed, now) =>
      if selectedClosed then UpdateWhen(IsClosed(p), p.(polledAt := Some(now)))
      else UpdateWhen(IsOpen(p), p.(pr := Some(Closed)))
    case _ => NoMatch
  }

  function Applied(s: State, i: nat, c: Change): State
    requires i < |s.proposals|
  {
    match c case NoMatch => s case Update(p) => Put(s, i, p) case Merge(at) => MergeInto(s, i, at)
  }

  // An operator's request checks the status it has read; its write names the row by id alone.
  function Step(s: State, e: Event): Option<State> {
    match e
    case Create(repo) => Some(s.(proposals := s.proposals + [Proposal(Pending, None, None, None, repo)]))
    case Read(i, v) =>
      if i < |s.proposals| && s.proposals[i].status == From(v)
      then Some(s.(requests := s.requests + [Request(i, v)]))
      else None
    case Write(k) =>
      if k < |s.requests| && s.requests[k].Request? && s.requests[k].i < |s.proposals| then
        var Request(i, v) := s.requests[k];
        Some(Put(s, i, s.proposals[i].(status := To(v))).(requests := s.requests[k := Answered]))
      else None
    case _ => if e.i < |s.proposals| then Some(Applied(s, e.i, ChangeOf(s.proposals[e.i], e))) else None
  }

  function Run(s: State, events: seq<Event>): Option<State>
    decreases |events|
  {
    if events == [] then Some(s)
    else
      match Run(s, events[..|events| - 1])
      case None => None
      case Some(t) => Step(t, events[|events| - 1])
  }

  lemma RunSnoc(s: State, events: seq<Event>, t: State, e: Event, u: State) returns (more: seq<Event>)
    requires Run(s, events) == Some(t) && Step(t, e) == Some(u)
    ensures more == events + [e] && Run(s, more) == Some(u)
  {
    more := events + [e];
    assert more[..|more| - 1] == events;
  }

  // ---------------------------------------------------------------------------
  // Rows
  // ---------------------------------------------------------------------------

  // Status and pull-request state agree; only merged rows carry a merge time.
  predicate Consistent(p: Proposal) {
    && (p.status == PrMerged <==> p.pr == Some(Merged))
    && (p.status == PrMerged <==> p.mergedAt.Some?)
    && (p.status == PrOpened <==> p.pr in {Some(Open), Some(Closed)})
  }

  // The moves the lifecycle allows.
  predicate Allowed(from: Status, to: Status) {
    || from == to
    || (from == Pending && to in {PrOpened, Rejected, Superseded})
    || (from == Superseded && to == Pending)
    || (from == PrOpened && to == PrMerged)
  }

  // ---------------------------------------------------------------------------
  // The pointer
  // ---------------------------------------------------------------------------

  // Merged proposals of repo r.
  predicate MergedIn(p: Proposal, r: nat) { p.status == PrMerged && p.mergedAt.Some? && p.repo == Some(r) }

  // The pointer of r names a merged proposal of r, and none of r's is newer.
  predicate PointsAtNewest(s: State, r: nat) {
    if r in s.pointers then
      var j := s.pointers[r];
      && j < |s.proposals| && MergedIn(s.proposals[j], r)
      && forall i :: 0 <= i < |s.proposals| && MergedIn(s.proposals[i], r) ==>
                       s.proposals[i].mergedAt.value <= s.proposals[j].mergedAt.value
    else forall i :: 0 <= i < |s.proposals| ==> !MergedIn(s.proposals[i], r)
  }

  ghost predicate PointersInv(s: State) { forall r: nat :: PointsAtNewest(s, r) }

  predicate RowsInv(s: State) {
    forall i :: 0 <= i < |s.proposals| ==> Consistent(s.proposals[i])
  }

  ghost predicate Inv(s: State) { RowsInv(s) && PointersInv(s) }

  // No conditional UPDATE leaves the lifecycle: a row changes along an allowed move and stays
  // consistent, a merged row not at all, and only an opened one is merged.
  lemma ChangeKeepsRow(p: Proposal, e: Event)
    requires Consistent(p)
    ensures match ChangeOf(p, e)
            case NoMatch => true
            case Update(q) => Consistent(q) && q.repo == p.repo && Allowed(p.status, q.status) && p.status != PrMerged && q.status != PrMerged
            case Merge(at) => p.status == PrOpened && Consistent(MergedRow(p, at))
  {
  }

  lemma UpdateKeepsInv(s: State, i: nat, p: Proposal)
    requires Inv(s) && i < |s.proposals| && Consistent(p) && p.status != PrMerged && s.proposals[i].status != PrMerged
    ensures Inv(Put(s, i, p))
  {
    var t := Put(s, i, p);
    forall r: nat ensures PointsAtNewest(t, r) { assert PointsAtNewest(s, r); }
  }

  lemma MergeKeepsPointer(s: State, i: nat, at: int, r: nat)
    requires Inv(s) && i < |s.proposals| && s.proposals[i].status == PrOpened
    ensures PointsAtNewest(MergeInto(s, i, at), r)
  {
    var t := MergeInto(s, i, at);
    assert PointsAtNewest(s, r);
    assert Consistent(s.proposals[i]);
    if s.proposals[i].repo == Some(r) { assert MergedIn(t.proposals[i], r); }
  }

  lemma MergeKeepsInv(s: State, i: nat, at: int)
    requires Inv(s) && i < |s.proposals| && s.proposals[i].status == PrOpened
    ensures Inv(MergeInto(s, i, at))
  {
    forall r: nat ensures PointsAtNewest(MergeInto(s, i, at), r) { MergeKeepsPointer(s, i, at, r); }
    assert Consistent(MergedRow(s.proposals[i], at));
    hide PointsAtNewest;
  }

  lemma CreateKeepsInv(s: State, repo: Option<nat>)
    requires Inv(s)
    ensures Inv(s.(proposals := s.proposals + [Proposal(Pending, None, None, None, repo)]))
  {
    var t := s.(proposals := s.proposals + [Proposal(Pending, None, None, None, repo)]);
    forall r: nat ensures PointsAtNewest(t, r) { assert PointsAtNewest(s, r); }
  }

  // ---------------------------------------------------------------------------
  // Operator requests
  // ---------------------------------------------------------------------------

  // The row a request is about to write.
  predicate Writing(s: State, e: Event) {
    e.Write? && e.k < |s.requests| && s.requests[e.k].Request? && s.requests[e.k].i < |s.proposals|
  }

  function Written(s: State, e: Event): nat
    requires Writing(s, e)
  {
    s.requests[e.k].i
  }

  // The row has an opened or merged pull request by the time the request writes.
  predicate Clobbers(s: State, e: Event) {
    Writing(s, e) && s.proposals[Written(s, e)].status in {PrOpened, PrMerged}
  }

  // The row has gone anywhere but where the request found it or sends it.
  predicate Outdated(s: State, e: Event) {
    Writing(s, e) && s.proposals[Written(s, e)].status !in {From(s.requests[e.k].verdict), To(s.requests[e.k].verdict)}
  }

  lemma WriteIsConsistentIff(p: Proposal, v: Verdict)
    requires Consistent(p)
    ensures Consistent(p.(status := To(v))) <==> p.status !in {PrOpened, PrMerged}
  {
  }

  // A step that is not a write keeps everything.
  lemma OtherStepKeepsInv(s: State, e: Event)
    requires Inv(s) && !e.Write? && Step(s, e).Some?
    ensures Inv(Step(s, e).value)
  {
    if e.Create? {
      CreateKeepsInv(s, e.repo);
    } else if e.Read? {
      RequestsDoNotMatter(s, Step(s, e).value);
    } else {
      ChangeKeepsRow(s.proposals[e.i], e);
      var c := ChangeOf(s.proposals[e.i], e);
      hide Inv, ChangeOf;
      match c
      case NoMatch =>
      case Update(p) => UpdateKeepsInv(s, e.i, p);
      case Merge(at) => MergeKeepsInv(s, e.i, at);
    }
  }

  lemma RequestsDoNotMatter(s: State, t: State)
    requires Inv(s) && t.proposals == s.proposals && t.pointers == s.pointers
    ensures Inv(t)
  {
    forall r: nat ensures PointsAtNewest(t, r) { assert PointsAtNewest(s, r); }
  }

  lemma WriteKeepsInvIff(s: State, e: Event)
    requires Inv(s) && Writing(s, e)
    ensures Step(s, e).Some? && (Inv(Step(s, e).value) <==> !Clobbers(s, e))
    ensures RowsInv(Step(s, e).value) <==> !Clobbers(s, e)
  {
    var i, v := Written(s, e), s.requests[e.k].verdict;
    var t, p := Step(s, e).value, s.proposals[i].(status := To(v));
    WriteIsConsistentIff(s.proposals[i], v);
    assert t.proposals == Put(s, i, p).proposals && t.pointers == s.pointers && t.proposals[i] == p;
    if Consistent(p) {
      UpdateKeepsInv(s, i, p);
      RequestsDoNotMatter(Put(s, i, p), t);
    }
  }

  // One step keeps rows consistent and pointers at the newest merge exactly if it does not
  // clobber a pull request.
  lemma StepKeepsInvIff(s: State, e: Event)
    requires Inv(s) && Step(s, e).Some?
    ensures Inv(Step(s, e).value) <==> !Clobbers(s, e)
    ensures RowsInv(Step(s, e).value) <==> !Clobbers(s, e)
  {
    if e.Write? {
      WriteKeepsInvIff(s, e);
    } else {
      OtherStepKeepsInv(s, e);
      hide Step;
    }
  }

  ghost predicate NeverClobbers(s: State, events: seq<Event>)
    requires Run(s, events).Some?
    decreases |events|
  {
    events != [] ==>
      var last := |events| - 1;
      NeverClobbers(s, events[..last]) && !Clobbers(Run(s, events[..last]).value, events[last])
  }

  // Every state on the way has consistent rows.
  ghost predicate RowsAlways(s: State, events: seq<Event>)
    requires Run(s, events).Some?
    decreases |events|
  {
    RowsInv(Run(s, events).value) && (events != [] ==> RowsAlways(s, events[..|events| - 1]))
  }

  lemma {:induction false} RunKeepsInv(s: State, events: seq<Event>)
    requires Inv(s) && Run(s, events).Some? && NeverClobbers(s, events)
    ensures Inv(Run(s, events).value)
    decreases |events|
  {
    hide Inv, Step;
    if events != [] {
      RunKeepsInv(s, events[..|events| - 1]);
      StepKeepsInvIff(Run(s, events[..|events| - 1]).value, events[|events| - 1]);
    }
  }

  // In every run, status and pull-request state agree on every row at all times exactly if no
  // operator request writes over an opened or merged pull request: reject and reinstate are
  // the only writes without a WHERE on the status.
  lemma {:induction false} RowsConsistentIff(s: State, events: seq<Event>)
    requires Inv(s) && Run(s, events).Some?
    ensures RowsAlways(s, events) <==> NeverClobbers(s, events)
    decreases |events|
  {
    hide Inv, Step, RowsInv, Clobbers;
    if events != [] {
      var last := |events| - 1;
      RowsConsistentIff(s, events[..last]);
      if NeverClobbers(s, events[..last]) {
        RunKeepsInv(s, events[..last]);
        StepKeepsInvIff(Run(s, events[..last]).value, events[last]);
      }
    } else {
      InvHasRows(s);
    }
  }

  lemma InvHasRows(s: State)
    requires Inv(s)
    ensures RowsInv(s)
  {
  }

  lemma InitInv()
    ensures Inv(INIT)
  {
  }

  // The pointer of a repo survives a write exactly if the row written is not the one it names
  // as merged.
  lemma PointerSurvivesWriteIff(s: State, e: Event, r: nat)
    requires Inv(s) && Writing(s, e)
    ensures Step(s, e).Some?
    ensures PointsAtNewest(Step(s, e).value, r) <==> !(r in s.pointers && s.pointers[r] == Written(s, e))
  {
    assert PointsAtNewest(s, r);
  }

  // ---------------------------------------------------------------------------
  // The guarantees
  // ---------------------------------------------------------------------------

  // Every row stays, and moves along the lifecycle.
  predicate Follows(s: State, t: State) {
    |s.proposals| <= |t.proposals| && forall i :: 0 <= i < |s.proposals| ==> Allowed(s.proposals[i].status, t.proposals[i].status)
  }

  lemma ChangeIsAllowed(p: Proposal, e: Event)
    ensures match ChangeOf(p, e)
            case NoMatch => true
            case Update(q) => Allowed(p.status, q.status)
            case Merge(at) => p.status == PrOpened
  {
  }

  // One step of any writer, in any state: rows move along the lifecycle exactly if the step
  // is not an outdated write.
  lemma StepFollowsLifecycleIff(s: State, e: Event)
    requires Step(s, e).Some?
    ensures Follows(s, Step(s, e).value) <==> !Outdated(s, e)
  {
    var t := Step(s, e).value;
    if Writing(s, e) {
      var i := Written(s, e);
      assert t.proposals == s.proposals[i := s.proposals[i].(status := To(s.requests[e.k].verdict))];
      assert Allowed(s.proposals[i].status, t.proposals[i].status) <==> !Outdated(s, e);
    } else if !e.Create? && !e.Read? {
      ChangeIsAllowed(s.proposals[e.i], e);
      hide ChangeOf;
    }
  }

  ghost predicate NeverOutdated(s: State, events: seq<Event>)
    requires Run(s, events).Some?
    decreases |events|
  {
    events != [] ==>
      var last := |events| - 1;
      NeverOutdated(s, events[..last]) && !Outdated(Run(s, events[..last]).value, events[last])
  }

  ghost predicate FollowsAlways(s: State, events: seq<Event>)
    requires Run(s, events).Some?
    decreases |events|
  {
    events != [] ==>
      var last := |events| - 1;
      FollowsAlways(s, events[..last]) && Follows(Run(s, events[..last]).value, Run(s, events).value)
  }

  // In every run, from any state: proposals move along the lifecycle only, exactly if none of
  // its operator writes is outdated.
  lemma {:induction false} LifecycleIff(s: State, events: seq<Event>)
    requires Run(s, events).Some?
    ensures FollowsAlways(s, events) <==> NeverOutdated(s, events)
    decreases |events|
  {
    hide Step, Follows, Outdated;
    if events != [] {
      var last := |events| - 1;
      LifecycleIff(s, events[..last]);
      StepFollowsLifecycleIff(Run(s, events[..last]).value, events[last]);
    }
  }

  // Then a proposal once opened is never anything but opened or merged, and a rejected one
  // stays rejected.
  lemma {:induction false} LeftForGood(s: State, events: seq<Event>, i: nat)
    requires Run(s, events).Some? && NeverOutdated(s, events) && i < |s.proposals|
    ensures i < |Run(s, events).value.proposals|
    ensures s.proposals[i].status in {PrOpened, PrMerged} ==> Run(s, events).value.proposals[i].status in {PrOpened, PrMerged}
    ensures s.proposals[i].status == Rejected ==> Run(s, events).value.proposals[i].status == Rejected
    decreases |events|
  {
    hide Step;
    if events != [] {
      var last := |events| - 1;
      LeftForGood(s, events[..last], i);
      StepFollowsLifecycleIff(Run(s, events[..last]).value, events[last]);
      hide Outdated;
    }
  }

  lemma MergedStepIff(s: State, e: Event, i: nat)
    requires Step(s, e).Some? && i < |s.proposals| && s.proposals[i].status == PrMerged
    ensures i < |Step(s, e).value.proposals|
    ensures Step(s, e).value.proposals[i].status == PrMerged <==> !(Writing(s, e) && Written(s, e) == i)
    ensures Step(s, e).value.proposals[i].status == PrMerged ==> Step(s, e).value.proposals[i] == s.proposals[i]
  {
    if !e.Create? && !e.Read? && !e.Write? && e.i == i { assert ChangeOf(s.proposals[i], e) == NoMatch; }
  }

  // No operator request writes proposal i.
  ghost predicate NeverWritten(s: State, events: seq<Event>, i: nat)
    requires Run(s, events).Some?
    decreases |events|
  {
    events != [] ==>
      var last, t := |events| - 1, Run(s, events[..|events| - 1]).value;
      NeverWritten(s, events[..last], i) && !(Writing(t, events[last]) && Written(t, events[last]) == i)
  }

  ghost predicate MergedAlways(s: State, events: seq<Event>, i: nat)
    requires Run(s, events).Some?
    decreases |events|
  {
    var t := Run(s, events).value;
    && i < |t.proposals| && t.proposals[i].status == PrMerged
    && (events != [] ==> MergedAlways(s, events[..|events| - 1], i))
  }

  // Merged is absorbing, through every continuation, exactly if no request from before the
  // merge is written after it; and then the row does not change at all.
  lemma {:induction false} MergedForGoodIff(s: State, events: seq<Event>, i: nat)
    requires Run(s, events).Some? && i < |s.proposals| && s.proposals[i].status == PrMerged
    ensures MergedAlways(s, events, i) <==> NeverWritten(s, events, i)
    ensures MergedAlways(s, events, i) ==> Run(s, events).value.proposals[i] == s.proposals[i]
    decreases |events|
  {
    hide Step, Writing, Written;
    if events != [] {
      var last := |events| - 1;
      MergedForGoodIff(s, events[..last], i);
      if MergedAlways(s, events[..last], i) { MergedStepIff(Run(s, events[..last]).value, events[last], i); }
    }
  }

  // A tick that selected a row as closed never closes it: whatever happened meanwhile, an open
  // row stays open.
  lemma SelectedClosedNeverCloses(s: State, e: Event, i: nat)
    requires (e.PollClosed? || e.PollMerged?) && e.selectedClosed && Step(s, e).Some?
    requires i < |s.proposals| && IsOpen(s.proposals[i])
    ensures i < |Step(s, e).value.proposals| && Step(s, e).value.proposals[i] == s.proposals[i]
  {
  }

  // A row the webhook closed for want of a merge time is merged by the next poll that has one.
  lemma PollRecoversClosed(s: State, i: nat, at: int)
    requires i < |s.proposals| && IsOpen(s.proposals[i])
    ensures var t := Step(s, HookMerged(i, None)).value;
            && IsClosed(t.proposals[i])
            && Step(t, HookMerged(i, Some(at))).value == t
            && Step(t, PollMerged(i, true, at)).value.proposals[i] == MergedRow(t.proposals[i], at)
  {
  }

  // The pointer's merge time depends only on what has been merged, not on the order in which
  // the merges were observed.
  lemma PointerIgnoresOrder(s: State, t: State, r: nat)
    requires Inv(s) && Inv(t)
    requires forall p :: MergedIn(p, r) ==> (p in s.proposals <==> p in t.proposals)
    ensures r in s.pointers <==> r in t.pointers
    ensures r in s.pointers ==>
              s.pointers[r] < |s.proposals| && t.pointers[r] < |t.proposals| &&
              s.proposals[s.pointers[r]].mergedAt == t.proposals[t.pointers[r]].mergedAt
  {
    assert PointsAtNewest(s, r) && PointsAtNewest(t, r);
    if r in s.pointers { assert s.proposals[s.pointers[r]] in t.proposals; }
    if r in t.pointers { assert t.proposals[t.pointers[r]] in s.proposals; }
  }

  // An equal merge time never moves the pointer, a newer one always does.
  lemma PointerMovesIff(s: State, i: nat, at: int, r: nat)
    requires Inv(s) && i < |s.proposals| && s.proposals[i].status == PrOpened && s.proposals[i].repo == Some(r) && r in s.pointers
    ensures s.pointers[r] < |s.proposals| && s.proposals[s.pointers[r]].mergedAt.Some?
    ensures r in MergeInto(s, i, at).pointers
    ensures MergeInto(s, i, at).pointers[r] == i <==> at > s.proposals[s.pointers[r]].mergedAt.value
    ensures MergeInto(s, i, at).pointers[r] in {i, s.pointers[r]}
  {
    assert PointsAtNewest(s, r);
  }

  // ---------------------------------------------------------------------------
  // A request that comes too late
  // ---------------------------------------------------------------------------

  function One(p: Proposal, requests: seq<Request>): State { State([p], map[], requests) }

  const FRESH := Proposal(Pending, None, None, None, None)

  lemma StaleSteps()
    ensures Step(INIT, Create(None)) == Some(One(FRESH, []))
    ensures Step(One(FRESH, []), Read(0, Reject)) == Some(One(FRESH, [Request(0, Reject)]))
    ensures Step(One(FRESH, [Request(0, Reject)]), OpenPr(0)) ==
            Some(One(FRESH.(status := PrOpened, pr := Some(Open)), [Request(0, Reject)]))
  {
    assert [] + [FRESH] == [FRESH] && [] + [Request(0, Reject)] == [Request(0, Reject)];
    assert [FRESH][0 := FRESH.(status := PrOpened, pr := Some(Open))] == [FRESH.(status := PrOpened, pr := Some(Open))];
  }

  lemma StaleMerge(live: Proposal)
    requires live == FRESH.(status := PrOpened, pr := Some(Open))
    ensures var merged := MergedRow(live, 1);
            && Step(One(live, [Request(0, Reject)]), HookMerged(0, Some(1))) == Some(One(merged, [Request(0, Reject)]))
            && Step(One(merged, [Request(0, Reject)]), Write(0)) == Some(One(merged.(status := Rejected), [Answered]))
  {
    var merged := MergedRow(live, 1);
    assert [live][0 := merged] == [merged] && [merged][0 := merged.(status := Rejected)] == [merged.(status := Rejected)];
    assert [Request(0, Reject)][0 := Answered] == [Answered];
  }

  // From the start: a proposal merged on GitHub ends rejected.
  lemma MergedProposalIsRejected() returns (events: seq<Event>)
    ensures Run(INIT, events).Some?
    ensures var s := Run(INIT, events).value; s.proposals != [] && s.proposals[0].status == Rejected && s.proposals[0].pr == Some(Merged)
  {
    var live := FRESH.(status := PrOpened, pr := Some(Open));
    var merged := MergedRow(live, 1);
    StaleSteps();
    StaleMerge(live);
    assert Run(INIT, []) == Some(INIT);
    hide Step, Run;
    events := RunSnoc(INIT, [], INIT, Create(None), One(FRESH, []));
    events := RunSnoc(INIT, events, One(FRESH, []), Read(0, Reject), One(FRESH, [Request(0, Reject)]));
    events := RunSnoc(INIT, events, One(FRESH, [Request(0, Reject)]), OpenPr(0), One(live, [Request(0, Reject)]));
    events := RunSnoc(INIT, events, One(live, [Request(0, Reject)]), HookMerged(0, Some(1)), One(merged, [Request(0, Reject)]));
    events := RunSnoc(INIT, events, One(merged, [Request(0, Reject)]), Write(0), One(merged.(status := Rejected), [Answered]));
    assert One(merged.(status := Rejected), [Answered]).proposals[0] == merged.(status := Rejected);
  }

  // ---------------------------------------------------------------------------
  // Webhook and poll
  // ---------------------------------------------------------------------------

  lemma RunTwo(s: State, a: Event, b: Event)
    ensures Run(s, [a]) == Step(s, a)
    ensures Run(s, [a, b]) == if Step(s, a).Some? then Step(Step(s, a).value, b) else None
  {
    hide Step;
    assert [a][..0] == [] && [a, b][..1] == [a];
  }

  // Whoever observes a merge, and also after a close that came first because GitHub did not tell
  // the merge time yet, the outcome is the same: the row merged at that time and its repo's
  // pointer moved. A close that is reopened leaves no trace.
  lemma {:induction false} ObserversAgree(s: State, i: nat, at: int)
    requires i < |s.proposals| && IsOpen(s.proposals[i])
    ensures var merged := Run(s, [PollMerged(i, false, at)]);
            && merged.Some? && merged.value.proposals == s.proposals[i := s.proposals[i].(status := PrMerged, pr := Some(Merged), mergedAt := Some(at))]
            && Run(s, [HookMerged(i, Some(at))]) == merged
            && Run(s, [HookMerged(i, None), PollMerged(i, true, at)]) == merged
            && Run(s, [HookClosed(i), PollMerged(i, true, at)]) == merged
            && Run(s, [PollClosed(i, false, 0), PollMerged(i, true, at)]) == merged
    ensures Run(s, [HookClosed(i), HookReopened(i)]) == Some(s)
  {
    var p := s.proposals[i];
    var closed := Put(s, i, p.(pr := Some(Closed)));
    RunTwo(s, PollMerged(i, false, at), HookClosed(i));
    RunTwo(s, HookMerged(i, Some(at)), HookClosed(i));
    RunTwo(s, HookMerged(i, None), PollMerged(i, true, at));
    RunTwo(s, HookClosed(i), PollMerged(i, true, at));
    RunTwo(s, PollClosed(i, false, 0), PollMerged(i, true, at));
    RunTwo(s, HookClosed(i), HookReopened(i));
    MergeAfterClose(s, i, at);
    hide Run;
    assert Step(s, HookClosed(i)) == Step(s, HookMerged(i, None)) == Step(s, PollClosed(i, false, 0)) == Some(closed);
    assert closed.proposals[i := p] == s.proposals;
  }

  lemma MergeAfterClose(s: State, i: nat, at: int)
    requires i < |s.proposals|
    ensures var closed := Put(s, i, s.proposals[i].(pr := Some(Closed))); MergeInto(closed, i, at) == MergeInto(s, i, at)
  {
    var closed := Put(s, i, s.proposals[i].(pr := Some(Closed)));
    assert closed.proposals[i := MergedRow(s.proposals[i], at)] == s.proposals[i := MergedRow(s.proposals[i], at)];
  }
}
