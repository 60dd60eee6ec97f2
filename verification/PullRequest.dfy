// Opening pull requests: workers that push a branch and create its pull request under one
// lock per config repo, with retries, redeliveries and crashes at any step.
module PullRequest {
  import opened Common

  // ---------------------------------------------------------------------------
  // Branch names
  // ---------------------------------------------------------------------------

  const STUDY_PREFIX := "relyloop/study-"
  const PROPOSAL_PREFIX := "relyloop/proposal-"

  // `_branch_name`: an empty study id counts as none.
  function BranchName(proposalId: string, studyId: Option<string>): string {
    if studyId.Some? && studyId.value != "" then STUDY_PREFIX + studyId.value else PROPOSAL_PREFIX + proposalId
  }

  // What a branch belongs to: a study, or a manual proposal.
  datatype Owner = OfStudy(id: string) | OfProposal(id: string)

  function OwnerOf(proposalId: string, studyId: Option<string>): Owner {
    if studyId.Some? && studyId.value != "" then OfStudy(studyId.value) else OfProposal(proposalId)
  }

  // Two proposals share a branch exactly when they belong to the same study (or are the same
  // manual proposal).
  lemma SameBranchIff(p: string, s: Option<string>, q: string, t: Option<string>)
    ensures BranchName(p, s) == BranchName(q, t) <==> OwnerOf(p, s) == OwnerOf(q, t)
  {
    var a, b := BranchName(p, s), BranchName(q, t);
    assert STUDY_PREFIX[9] == 's' && PROPOSAL_PREFIX[9] == 'p';
    if a == b {
      assert a[9] == b[9];
      var cut := if OwnerOf(p, s).OfStudy? then |STUDY_PREFIX| else |PROPOSAL_PREFIX|;
      assert a[cut..] == OwnerOf(p, s).id && b[cut..] == OwnerOf(q, t).id;
    }
  }

  // ---------------------------------------------------------------------------
  // The system of one config repo
  // ---------------------------------------------------------------------------

  datatype Status = Pending | PrOpened | Other

  // A proposal and the branch it is pushed to.
  datatype Proposal = Proposal(status: Status, branch: string)

  // A pull request on GitHub.
  datatype Pr = Pr(branch: string, open: bool)

  const HTTP_RETRY_MAX := 3

  // Where a worker is. From Locked on it holds the repo's lock.
  datatype Pc =
    | Started(p: nat)
    | Loaded(p: nat)
    | Locked(p: nat)
    | Confirmed(p: nat)
    | Clear(p: nat)
    | Pushed(p: nat, attempt: nat)
    | Created(p: nat)
    | Finished

  predicate HoldsLock(pc: Pc) { pc.Locked? || pc.Confirmed? || pc.Clear? || pc.Pushed? || pc.Created? }

  datatype State = State(proposals: seq<Proposal>, heads: set<string>, prs: seq<Pr>, workers: seq<Pc>, lock: Option<nat>, queue: multiset<nat>)

  const INIT := State([], {}, [], [], None, multiset{})

  datatype Push = PushDone | PushLost | PushLanded

  // One POST: created with the answer seen or lost, failed without a trace (then retried up to
  // HTTP_RETRY_MAX times), or refused for good by GitHub, as it also is for a branch that is
  // missing or has an open pull request.
  datatype Post = PostAnswered | PostAnswerLost | PostFailed | PostRefused

  datatype WorkAction =
    | Load
    | TryLock
    | Reread
    | Prepare(ok: bool)
    | PushBranch(push: Push)
    | PostPr(post: Post)
    | Mark
    | Die(requeued: bool)

  datatype Event =
    | Propose(branch: string)
    | Shift(i: nat, to: Status)
    | Request(i: nat)
    | Deliver(i: nat)
    | ClosePr(k: nat)
    | DeleteBranch(branch: string)
    | Work(w: nat, a: WorkAction)

  predicate HasOpen(prs: seq<Pr>, branch: string) {
    exists k :: 0 <= k < |prs| && prs[k].branch == branch && prs[k].open
  }

  // How many pull requests a branch has ever had.
  function PrCount(prs: seq<Pr>, branch: string): nat {
    if prs == [] then 0
    else PrCount(prs[..|prs| - 1], branch) + if prs[|prs| - 1].branch == branch then 1 else 0
  }

  predicate Retrying(s: State, branch: string) {
    exists w :: 0 <= w < |s.workers| && s.workers[w].Pushed? && s.workers[w].p < |s.proposals|
                && s.proposals[s.workers[w].p].branch == branch
  }

  function At(s: State, w: nat, pc: Pc): Option<State>
    requires w < |s.workers|
  {
    Some(s.(workers := s.workers[w := pc]))
  }

  // Leaving the session releases the lock.
  function Left(s: State, w: nat): Option<State>
    requires w < |s.workers|
  {
    At(if s.lock == Some(w) then s.(lock := None) else s, w, Finished)
  }

  function WorkStep(s: State, w: nat, a: WorkAction): Option<State>
    requires w < |s.workers|
  {
    var pc := s.workers[w];
    if pc.Finished? || pc.p >= |s.proposals| then None
    else
      var p := s.proposals[pc.p];
      match a
      case Load => if pc.Started? then At(s, w, if p.status == Pending then Loaded(pc.p) else Finished) else None
      case TryLock =>
        if !pc.Loaded? then None
        else if s.lock.None? then At(s.(lock := Some(w)), w, Locked(pc.p))
        else At(s.(queue := s.queue + multiset{pc.p}), w, Finished)
      case Reread => if !pc.Locked? then None else if p.status == Pending then At(s, w, Confirmed(pc.p)) else Left(s, w)
      case Prepare(ok) =>
        if !pc.Confirmed? then None
        else if !ok || p.branch in s.heads then Left(s, w)
        else At(s, w, Clear(pc.p))
      case PushBranch(push) =>
        if !pc.Clear? then None
        else if push.PushDone? then At(s.(heads := s.heads + {p.branch}), w, Pushed(pc.p, 0))
        else Left(if push.PushLanded? then s.(heads := s.heads + {p.branch}) else s, w)
      case PostPr(post) =>
        if !pc.Pushed? then None
        else if post.PostFailed? then (if pc.attempt + 1 < HTTP_RETRY_MAX then At(s, w, Pushed(pc.p, pc.attempt + 1)) else Left(s, w))
        else if post.PostRefused? || p.branch !in s.heads || HasOpen(s.prs, p.branch) then Left(s, w)
        else
          var t := s.(prs := s.prs + [Pr(p.branch, true)]);
          if post.PostAnswered? then At(t, w, Created(pc.p))
          else if pc.attempt + 1 < HTTP_RETRY_MAX then At(t, w, Pushed(pc.p, pc.attempt + 1))
          else Left(t, w)
      case Mark =>
        if !pc.Created? then None
        else Left(if p.status == Pending then s.(proposals := s.proposals[pc.p := p.(status := PrOpened)]) else s, w)
      case Die(requeued) => Left(if requeued then s.(queue := s.queue + multiset{pc.p}) else s, w)
  }

  function Step(s: State, e: Event): Option<State> {
    match e
    case Propose(branch) => Some(s.(proposals := s.proposals + [Proposal(Pending, branch)]))
    case Shift(i, to) =>
      if i < |s.proposals| then Some(s.(proposals := s.proposals[i := s.proposals[i].(status := to)])) else None
    case Request(i) => if i < |s.proposals| then Some(s.(queue := s.queue + multiset{i})) else None
    case Deliver(i) =>
      if s.queue[i] > 0 then Some(s.(queue := s.queue - multiset{i}, workers := s.workers + [Started(i)])) else None
    case ClosePr(k) =>
      if k < |s.prs| then Some(s.(prs := s.prs[k := s.prs[k].(open := false)])) else None
    case DeleteBranch(branch) => Some(s.(heads := s.heads - {branch}))
    case Work(w, a) => if w < |s.workers| then WorkStep(s, w, a) else None
  }

  function Run(s: State, events: seq<Event>): Option<State>
    decreases |events|
  {
    if events == [] then Some(s)
    else
      match Run(s, events[..|events| - 1])
      case None => None
      case Some(t) => Step(t, events[|events| - 1])
  }

  lemma RunSnoc(s: State, events: seq<Event>, t: State, e: Event, u: State) returns (more: seq<Event>)
    requires Run(s, events) == Some(t) && Step(t, e) == Some(u)
    ensures more == events + [e] && Run(s, more) == Some(u)
  {
    more := events + [e];
    assert more[..|more| - 1] == events;
  }

  // ---------------------------------------------------------------------------
  // What every run keeps
  // ---------------------------------------------------------------------------

  // Every job and worker is about a proposal there is.
  predicate InRange(s: State) {
    && (forall w :: 0 <= w < |s.workers| && !s.workers[w].Finished? ==> s.workers[w].p < |s.proposals|)
    && (forall i :: i in s.queue ==> i < |s.proposals|)
  }

  // Only the lock's owner is past TryLock, and it has seen its branch absent.
  predicate WorkerInv(s: State, w: nat)
    requires w < |s.workers|
  {
    var pc := s.workers[w];
    && (HoldsLock(pc) ==> s.lock == Some(w))
    && (!pc.Finished? ==> pc.p < |s.proposals|)
    && (pc.Clear? ==> s.proposals[pc.p].branch !in s.heads)
  }

  predicate Inv(s: State) {
    && (forall w :: 0 <= w < |s.workers| ==> WorkerInv(s, w))
    && (s.lock.Some? ==> s.lock.value < |s.workers| && HoldsLock(s.workers[s.lock.value]))
    && (forall i :: i in s.queue ==> i < |s.proposals|)
  }

  // What a worker's step does to the lock and to itself.
  lemma WorkLocks(s: State, w: nat, a: WorkAction)
    requires Inv(s) && w < |s.workers| && WorkStep(s, w, a).Some?
    ensures var t := WorkStep(s, w, a).value;
            && |t.workers| == |s.workers| && t.workers == s.workers[w := t.workers[w]]
            && t.lock == (if HoldsLock(t.workers[w]) then Some(w) else if s.lock == Some(w) then None else s.lock)
            && (HoldsLock(t.workers[w]) ==> s.lock == Some(w) || s.lock.None?)
            && (t.heads == s.heads || s.lock == Some(w))
  {
    hide HasOpen;
    assert WorkerInv(s, w);
  }

  lemma WorkRows(s: State, w: nat, a: WorkAction)
    requires w < |s.workers| && WorkStep(s, w, a).Some?
    ensures var t, pc := WorkStep(s, w, a).value, s.workers[w];
            && pc.p < |s.proposals| == |t.proposals| && |t.workers| == |s.workers|
            && (forall i :: 0 <= i < |s.proposals| ==> t.proposals[i].branch == s.proposals[i].branch)
            && (forall i :: i in t.queue ==> i in s.queue || i == pc.p)
            && (!t.workers[w].Finished? ==> t.workers[w].p == pc.p)
            && (t.workers[w].Clear? ==> s.proposals[pc.p].branch !in s.heads && t.heads == s.heads)
  {
    hide HasOpen;
  }

  lemma WorkKeepsInv(s: State, w: nat, a: WorkAction)
    requires Inv(s) && w < |s.workers| && WorkStep(s, w, a).Some?
    ensures Inv(WorkStep(s, w, a).value)
  {
    WorkLocks(s, w, a);
    WorkRows(s, w, a);
    hide WorkStep;
    var t := WorkStep(s, w, a).value;
    forall v | 0 <= v < |t.workers| ensures WorkerInv(t, v) { assert WorkerInv(s, v); }
  }

  lemma StepKeepsInv(s: State, e: Event)
    requires Inv(s) && Step(s, e).Some?
    ensures Inv(Step(s, e).value)
  {
    if e.Work? {
      WorkKeepsInv(s, e.w, e.a);
    } else {
      hide WorkStep;
      var t := Step(s, e).value;
      forall v | 0 <= v < |t.workers| ensures WorkerInv(t, v) {
        if v < |s.workers| { assert WorkerInv(s, v); }
      }
    }
  }

  lemma {:induction false} RunKeepsInv(s: State, events: seq<Event>)
    requires Inv(s) && Run(s, events).Some?
    ensures Inv(Run(s, events).value)
    decreases |events|
  {
    hide Inv, Step;
    if events != [] {
      var last := |events| - 1;
      RunKeepsInv(s, events[..last]);
      StepKeepsInv(Run(s, events[..last]).value, events[last]);
    }
  }

  lemma InitInv()
    ensures Inv(INIT)
  {
  }

  lemma CountAppend(prs: seq<Pr>, pr: Pr, branch: string)
    ensures PrCount(prs + [pr], branch) == PrCount(prs, branch) + if pr.branch == branch then 1 else 0
  {
    assert (prs + [pr])[..|prs|] == prs;
  }

  lemma {:induction false} CountUpdate(prs: seq<Pr>, k: nat, branch: string)
    requires k < |prs|
    ensures PrCount(prs[k := prs[k].(open := false)], branch) == PrCount(prs, branch)
  {
    var last := |prs| - 1;
    var t := prs[k := prs[k].(open := false)];
    if k < last {
      CountUpdate(prs[..last], k, branch);
      assert t[..last] == prs[..last][k := prs[k].(open := false)];
    } else {
      assert t[..last] == prs[..last];
    }
  }

  // ---------------------------------------------------------------------------
  // One pull request per branch, exactly when
  // ---------------------------------------------------------------------------

  ghost predicate OnePrEach(s: State) { forall branch :: PrCount(s.prs, branch) <= 1 }

  // The POST of a worker that is about to create a pull request.
  predicate Creates(s: State, e: Event) {
    && e.Work? && e.a.PostPr? && e.a.post in {PostAnswered, PostAnswerLost} && e.w < |s.workers| && s.workers[e.w].Pushed? && s.workers[e.w].p < |s.proposals|
    && s.proposals[s.workers[e.w].p].branch in s.heads && !HasOpen(s.prs, s.proposals[s.workers[e.w].p].branch)
  }

  // Of a branch whose pull requests are all closed, and which has had one.
  predicate CreatesAgain(s: State, e: Event) {
    Creates(s, e) && PrCount(s.prs, s.proposals[s.workers[e.w].p].branch) >= 1
  }

  ghost predicate NeverAgain(s: State, events: seq<Event>)
    requires Run(s, events).Some?
    decreases |events|
  {
    events != [] ==>
      var last := |events| - 1;
      NeverAgain(s, events[..last]) && !CreatesAgain(Run(s, events[..last]).value, events[last])
  }

  // What a step does to the pull requests.
  lemma StepPrs(s: State, e: Event)
    requires Step(s, e).Some?
    ensures var t := Step(s, e).value;
            if Creates(s, e) then t.prs == s.prs + [Pr(s.proposals[s.workers[e.w].p].branch, true)]
            else if e.ClosePr? then e.k < |s.prs| && t.prs == s.prs[e.k := s.prs[e.k].(open := false)]
            else t.prs == s.prs
  {
    hide HasOpen;
  }

  lemma StepCounts(s: State, e: Event, branch: string)
    requires Step(s, e).Some?
    ensures PrCount(Step(s, e).value.prs, branch) ==
            PrCount(s.prs, branch) + if Creates(s, e) && s.proposals[s.workers[e.w].p].branch == branch then 1 else 0
  {
    StepPrs(s, e);
    if Creates(s, e) {
      CountAppend(s.prs, Pr(s.proposals[s.workers[e.w].p].branch, true), branch);
    } else if e.ClosePr? {
      CountUpdate(s.prs, e.k, branch);
    }
    hide Step, PrCount;
  }

  // In any state, one step gives some branch a second pull request exactly if it is such a POST.
  lemma StepOnePrIff(s: State, e: Event)
    requires OnePrEach(s) && Step(s, e).Some?
    ensures OnePrEach(Step(s, e).value) <==> !CreatesAgain(s, e)
  {
    var t := Step(s, e).value;
    hide Step, PrCount;
    forall branch ensures PrCount(t.prs, branch) <= 1 || (CreatesAgain(s, e) && branch == s.proposals[s.workers[e.w].p].branch) {
      StepCounts(s, e, branch);
    }
    if CreatesAgain(s, e) { StepCounts(s, e, s.proposals[s.workers[e.w].p].branch); }
  }

  lemma CountsStay(s: State, e: Event)
    requires !OnePrEach(s) && Step(s, e).Some?
    ensures !OnePrEach(Step(s, e).value)
  {
    hide Step, PrCount;
    var branch :| PrCount(s.prs, branch) > 1;
    StepCounts(s, e, branch);
  }

  // In every run, over all retries, crashes and concurrent workers: a branch has at most one
  // pull request exactly if none of its POSTs found all the pull requests of the branch closed.
  lemma {:induction false} OnePrPerBranchIff(events: seq<Event>)
    requires Run(INIT, events).Some?
    ensures OnePrEach(Run(INIT, events).value) <==> NeverAgain(INIT, events)
    decreases |events|
  {
    hide Step, CreatesAgain;
    if events != [] {
      var last := |events| - 1;
      var s := Run(INIT, events[..last]).value;
      OnePrPerBranchIff(events[..last]);
      hide OnePrEach;
      if OnePrEach(s) { StepOnePrIff(s, events[last]); } else { CountsStay(s, events[last]); }
    }
  }

  // ---------------------------------------------------------------------------
  // Where it comes from
  // ---------------------------------------------------------------------------

  // A push of a branch that has had a pull request, or a close while its creation is retried.
  predicate Invites(s: State, e: Event) {
    || (e.Work? && e.a.PushBranch? && !e.a.push.PushLost? && e.w < |s.workers| && s.workers[e.w].Clear?
        && s.workers[e.w].p < |s.proposals| && PrCount(s.prs, s.proposals[s.workers[e.w].p].branch) >= 1)
    || (e.ClosePr? && e.k < |s.prs| && Retrying(s, s.prs[e.k].branch))
  }

  ghost predicate NeverInvites(s: State, events: seq<Event>)
    requires Run(s, events).Some?
    decreases |events|
  {
    events != [] ==>
      var last := |events| - 1;
      NeverInvites(s, events[..last]) && !Invites(Run(s, events[..last]).value, events[last])
  }

  // What a worker is about to post for has no pull request yet, or an open one.
  predicate PostInv(s: State, w: nat)
    requires w < |s.workers|
  {
    var pc := s.workers[w];
    pc.Pushed? ==> pc.p < |s.proposals| && var b := s.proposals[pc.p].branch; PrCount(s.prs, b) == 0 || HasOpen(s.prs, b)
  }

  predicate PostsInv(s: State) { forall w :: 0 <= w < |s.workers| ==> PostInv(s, w) }

  lemma OpenStays(prs: seq<Pr>, k: nat, b: string)
    requires k < |prs| && prs[k].branch != b && HasOpen(prs, b)
    ensures HasOpen(prs[k := prs[k].(open := false)], b)
  {
    var i :| 0 <= i < |prs| && prs[i].branch == b && prs[i].open;
    assert prs[k := prs[k].(open := false)][i] == prs[i];
  }

  lemma CloseKeepsPosts(s: State, k: nat)
    requires PostsInv(s) && k < |s.prs| && !Retrying(s, s.prs[k].branch)
    ensures PostsInv(s.(prs := s.prs[k := s.prs[k].(open := false)]))
  {
    var t := s.(prs := s.prs[k := s.prs[k].(open := false)]);
    forall w | 0 <= w < |t.workers| ensures PostInv(t, w) {
      assert PostInv(s, w);
      if s.workers[w].Pushed? {
        var b := s.proposals[s.workers[w].p].branch;
        CountUpdate(s.prs, k, b);
        assert s.prs[k].branch != b;
        if HasOpen(s.prs, b) { OpenStays(s.prs, k, b); }
      }
    }
  }

  lemma AppendKeepsOpen(prs: seq<Pr>, b: string, c: string)
    ensures HasOpen(prs + [Pr(b, true)], b)
    ensures HasOpen(prs, c) ==> HasOpen(prs + [Pr(b, true)], c)
  {
    assert (prs + [Pr(b, true)])[|prs|] == Pr(b, true);
    if HasOpen(prs, c) {
      var i :| 0 <= i < |prs| && prs[i].branch == c && prs[i].open;
      assert (prs + [Pr(b, true)])[i] == prs[i];
    }
  }

  // A worker that is posting after the step was posting before, or has just pushed.
  lemma PostingWas(s: State, w: nat, a: WorkAction)
    requires w < |s.workers| && WorkStep(s, w, a).Some?
    ensures var t, pc := WorkStep(s, w, a).value, s.workers[w];
            && |t.workers| == |s.workers| && t.workers == s.workers[w := t.workers[w]]
            && !pc.Finished? && pc.p < |s.proposals| && |t.proposals| == |s.proposals|
            && (forall i :: 0 <= i < |s.proposals| ==> t.proposals[i].branch == s.proposals[i].branch)
            && (t.workers[w].Pushed? ==>
                  && t.workers[w].p == pc.p
                  && (pc.Pushed? || (pc.Clear? && a.PushBranch? && !a.push.PushLost?)))
  {
    hide HasOpen;
  }

  lemma WorkKeepsPosts(s: State, w: nat, a: WorkAction)
    requires Inv(s) && PostsInv(s) && w < |s.workers| && WorkStep(s, w, a).Some? && !Invites(s, Work(w, a))
    ensures PostsInv(WorkStep(s, w, a).value)
  {
    var t := WorkStep(s, w, a).value;
    PostingWas(s, w, a);
    StepPrs(s, Work(w, a));
    var b := s.proposals[s.workers[w].p].branch;
    forall v | 0 <= v < |t.workers| ensures PostInv(t, v) {
      assert PostInv(s, v);
      if Creates(s, Work(w, a)) && t.workers[v].Pushed? {
        var c := s.proposals[t.workers[v].p].branch;
        AppendKeepsOpen(s.prs, b, c);
        CountAppend(s.prs, Pr(b, true), c);
      }
      hide WorkStep, PrCount, HasOpen, Inv;
    }
  }

  lemma StepKeepsPosts(s: State, e: Event)
    requires Inv(s) && PostsInv(s) && Step(s, e).Some? && !Invites(s, e)
    ensures PostsInv(Step(s, e).value)
  {
    if e.Work? {
      WorkKeepsPosts(s, e.w, e.a);
    } else if e.ClosePr? {
      CloseKeepsPosts(s, e.k);
    } else {
      hide WorkStep, PrCount, HasOpen;
      var t := Step(s, e).value;
      forall v | 0 <= v < |t.workers| ensures PostInv(t, v) {
        if v < |s.workers| { assert PostInv(s, v); }
      }
    }
  }

  lemma PostsCreateOnce(s: State, e: Event)
    requires PostsInv(s)
    ensures !CreatesAgain(s, e)
  {
    if Creates(s, e) { assert PostInv(s, e.w); }
  }

  // As long as no branch that has had a pull request is pushed again, and none is closed while
  // its creation is retried, every branch has at most one.
  lemma {:induction false} UninvitedRunsHaveOnePr(events: seq<Event>)
    requires Run(INIT, events).Some? && NeverInvites(INIT, events)
    ensures PostsInv(Run(INIT, events).value) && NeverAgain(INIT, events) && OnePrEach(Run(INIT, events).value)
    decreases |events|
  {
    hide Step, PostsInv, OnePrEach, Invites;
    if events != [] {
      var last := |events| - 1;
      var s := Run(INIT, events[..last]).value;
      UninvitedRunsHaveOnePr(events[..last]);
      InitInv();
      RunKeepsInv(INIT, events[..last]);
      StepKeepsPosts(s, events[last]);
      PostsCreateOnce(s, events[last]);
    } else {
      NoPosts();
    }
    OnePrPerBranchIff(events);
  }

  lemma NoPosts()
    ensures PostsInv(INIT)
  {
  }

  // The second push needs a deletion: while no branch that has had a pull request is deleted,
  // each of them is on the remote, and the worker stops at it.
  ghost predicate Shown(s: State) { forall branch :: PrCount(s.prs, branch) >= 1 ==> branch in s.heads }

  predicate HidesPr(s: State, e: Event) { e.DeleteBranch? && PrCount(s.prs, e.branch) >= 1 }

  lemma HeadsOnlyGrow(s: State, e: Event)
    requires Step(s, e).Some? && !e.DeleteBranch?
    ensures s.heads <= Step(s, e).value.heads
  {
    hide HasOpen;
  }

  lemma StepKeepsShown(s: State, e: Event)
    requires Shown(s) && Step(s, e).Some? && !HidesPr(s, e)
    ensures Shown(Step(s, e).value)
  {
    var t := Step(s, e).value;
    if !e.DeleteBranch? { HeadsOnlyGrow(s, e); }
    forall branch | PrCount(t.prs, branch) >= 1 ensures branch in t.heads {
      StepCounts(s, e, branch);
      hide PrCount, HasOpen, WorkStep;
    }
  }

  lemma ShownIsNotPushedAgain(s: State, e: Event)
    requires Inv(s) && Shown(s) && Invites(s, e)
    ensures e.ClosePr?
  {
    assert e.Work? && e.w < |s.workers| ==> WorkerInv(s, e.w);
  }

  ghost predicate NeverHides(s: State, events: seq<Event>)
    requires Run(s, events).Some?
    decreases |events|
  {
    events != [] ==>
      var last, t := |events| - 1, Run(s, events[..|events| - 1]).value;
      && NeverHides(s, events[..last]) && !HidesPr(t, events[last])
      && (events[last].ClosePr? ==> !Invites(t, events[last]))
  }

  // So one pull request per branch holds in every run that deletes no branch with a pull
  // request and closes none in the middle of its creation.
  lemma {:induction false} HeadsThatStayHaveOnePr(events: seq<Event>)
    requires Run(INIT, events).Some? && NeverHides(INIT, events)
    ensures Shown(Run(INIT, events).value) && NeverInvites(INIT, events) && OnePrEach(Run(INIT, events).value)
    decreases |events|
  {
    hide Step, Shown, Invites, HidesPr, OnePrEach;
    if events != [] {
      var last := |events| - 1;
      var s := Run(INIT, events[..last]).value;
      HeadsThatStayHaveOnePr(events[..last]);
      StepKeepsShown(s, events[last]);
      InitInv();
      RunKeepsInv(INIT, events[..last]);
      if Invites(s, events[last]) { ShownIsNotPushedAgain(s, events[last]); }
    } else {
      NothingShown();
    }
    UninvitedRunsHaveOnePr(events);
  }

  lemma NothingShown()
    ensures Shown(INIT)
  {
  }

  // ---------------------------------------------------------------------------
  // A push without its pull request
  // ---------------------------------------------------------------------------

  predicate AboutBranch(s: State, pc: Pc, branch: string) {
    !pc.Finished? && pc.p < |s.proposals| && s.proposals[pc.p].branch == branch
  }

  // A branch that was pushed without its pull request being created keeps the proposal from
  // ever getting one: every later worker finds the branch and stops.
  predicate Stranded(s: State, branch: string) {
    && InRange(s) && branch in s.heads && PrCount(s.prs, branch) == 0
    && forall w :: 0 <= w < |s.workers| && (s.workers[w].Pushed? || s.workers[w].Clear?) ==> !AboutBranch(s, s.workers[w], branch)
  }

  // What a worker's step changes: its own phase ...
  lemma WorkMoves(s: State, w: nat, a: WorkAction)
    requires w < |s.workers| && WorkStep(s, w, a).Some?
    ensures var t, pc := WorkStep(s, w, a).value, s.workers[w];
            && !pc.Finished? && pc.p < |s.proposals|
            && |t.workers| == |s.workers| && t.workers == s.workers[w := t.workers[w]]
            && (t.workers[w].Finished? || t.workers[w].p == pc.p)
            && (t.workers[w].Clear? ==> s.proposals[pc.p].branch !in s.heads)
            && (t.workers[w].Pushed? ==> pc.Clear? || pc.Pushed?)
  {
    hide HasOpen;
  }

  // ... and the tables: a status, a queue entry, a head or a pull request of its branch.
  lemma WorkWrites(s: State, w: nat, a: WorkAction)
    requires w < |s.workers| && WorkStep(s, w, a).Some?
    ensures var t, pc := WorkStep(s, w, a).value, s.workers[w];
            && pc.p < |s.proposals|
            && |t.proposals| == |s.proposals| && (forall i :: 0 <= i < |s.proposals| ==> t.proposals[i].branch == s.proposals[i].branch)
            && s.heads <= t.heads && (forall i :: i in t.queue ==> i in s.queue || i == pc.p)
            && (t.prs == s.prs || (pc.Pushed? && t.prs == s.prs + [Pr(s.proposals[pc.p].branch, true)]))
  {
    hide HasOpen;
  }

  lemma StrandedWork(s: State, w: nat, a: WorkAction, branch: string)
    requires Stranded(s, branch) && w < |s.workers| && WorkStep(s, w, a).Some?
    ensures Stranded(WorkStep(s, w, a).value, branch)
  {
    var t, pc := WorkStep(s, w, a).value, s.workers[w];
    WorkMoves(s, w, a);
    WorkWrites(s, w, a);
    if t.prs != s.prs { CountAppend(s.prs, Pr(s.proposals[pc.p].branch, true), branch); }
    hide WorkStep, PrCount;
  }

  lemma StrandedStep(s: State, e: Event, branch: string)
    requires Stranded(s, branch) && Step(s, e).Some? && e != DeleteBranch(branch)
    ensures Stranded(Step(s, e).value, branch)
  {
    if e.Work? {
      StrandedWork(s, e.w, e.a, branch);
    } else {
      if e.ClosePr? { CountUpdate(s.prs, e.k, branch); }
      hide PrCount, Retrying, WorkStep;
    }
  }

  // A stranded branch never gets its pull request, in any continuation that does not delete it.
  lemma {:induction false} StrandedForGood(s: State, events: seq<Event>, branch: string)
    requires Stranded(s, branch) && Run(s, events).Some? && DeleteBranch(branch) !in events
    ensures PrCount(Run(s, events).value.prs, branch) == 0
    ensures Stranded(Run(s, events).value, branch)
    decreases |events|
  {
    hide Stranded, Step;
    if events != [] {
      var last := |events| - 1;
      StrandedForGood(s, events[..last], branch);
      StrandedStep(Run(s, events[..last]).value, events[last], branch);
    }
    StrandedHasNone(Run(s, events).value, branch);
  }

  lemma StrandedHasNone(s: State, branch: string)
    requires Stranded(s, branch)
    ensures PrCount(s.prs, branch) == 0
  {
  }

  // A death between push and post is enough.
  lemma DeathAfterPushStrands(s: State, w: nat, requeued: bool)
    requires Inv(s) && w < |s.workers| && s.workers[w].Pushed? && s.workers[w].p < |s.proposals|
    requires s.proposals[s.workers[w].p].branch in s.heads && PrCount(s.prs, s.proposals[s.workers[w].p].branch) == 0
    ensures Step(s, Work(w, Die(requeued))).Some?
    ensures Stranded(Step(s, Work(w, Die(requeued))).value, s.proposals[s.workers[w].p].branch)
  {
    assert WorkerInv(s, w);
    forall v | 0 <= v < |s.workers|
      ensures (v != w ==> !s.workers[v].Pushed? && !s.workers[v].Clear?) && (!s.workers[v].Finished? ==> s.workers[v].p < |s.proposals|)
    {
      assert WorkerInv(s, v);
    }
    hide PrCount, HasOpen, WorkerInv;
  }

  // ---------------------------------------------------------------------------
  // Two pull requests for one branch
  // ---------------------------------------------------------------------------

  // One proposal, its branch pushed, one worker.
  function Posting(attempt: nat, prs: seq<Pr>, queue: multiset<nat>): State {
    State([Proposal(Pending, "b")], {"b"}, prs, [Pushed(0, attempt)], Some(0), queue)
  }

  function Before(pc: Pc, lock: Option<nat>): State { State([Proposal(Pending, "b")], {}, [], [pc], lock, multiset{}) }

  lemma FirstSteps()
    ensures Step(INIT, Propose("b")) == Some(State([Proposal(Pending, "b")], {}, [], [], None, multiset{}))
    ensures Step(State([Proposal(Pending, "b")], {}, [], [], None, multiset{}), Request(0)) ==
            Some(State([Proposal(Pending, "b")], {}, [], [], None, multiset{0}))
    ensures Step(State([Proposal(Pending, "b")], {}, [], [], None, multiset{0}), Deliver(0)) == Some(Before(Started(0), None))
    ensures Step(Before(Started(0), None), Work(0, Load)) == Some(Before(Loaded(0), None))
  {
    assert [] + [Proposal(Pending, "b")] == [Proposal(Pending, "b")] && [] + [Started(0)] == [Started(0)];
    assert multiset{} + multiset{0} == multiset{0} && multiset{0} - multiset{0} == multiset{};
    assert [Started(0)][0 := Loaded(0)] == [Loaded(0)];
  }

  lemma NextSteps()
    ensures Step(Before(Loaded(0), None), Work(0, TryLock)) == Some(Before(Locked(0), Some(0)))
    ensures Step(Before(Locked(0), Some(0)), Work(0, Reread)) == Some(Before(Confirmed(0), Some(0)))
    ensures Step(Before(Confirmed(0), Some(0)), Work(0, Prepare(true))) == Some(Before(Clear(0), Some(0)))
    ensures Step(Before(Clear(0), Some(0)), Work(0, PushBranch(PushDone))) == Some(Posting(0, [], multiset{}))
  {
    assert [Loaded(0)][0 := Locked(0)] == [Locked(0)] && [Locked(0)][0 := Confirmed(0)] == [Confirmed(0)];
    assert [Confirmed(0)][0 := Clear(0)] == [Clear(0)] && [Clear(0)][0 := Pushed(0, 0)] == [Pushed(0, 0)];
    assert {} + {"b"} == {"b"};
  }

  lemma RunToPosting() returns (events: seq<Event>)
    ensures Run(INIT, events) == Some(Posting(0, [], multiset{}))
  {
    var proposed := State([Proposal(Pending, "b")], {}, [], [], None, multiset{});
    FirstSteps();
    NextSteps();
    assert Run(INIT, []) == Some(INIT);
    hide *;
    events := RunSnoc(INIT, [], INIT, Propose("b"), proposed);
    events := RunSnoc(INIT, events, proposed, Request(0), State([Proposal(Pending, "b")], {}, [], [], None, multiset{0}));
    events := RunSnoc(INIT, events, State([Proposal(Pending, "b")], {}, [], [], None, multiset{0}), Deliver(0), Before(Started(0), None));
    events := RunSnoc(INIT, events, Before(Started(0), None), Work(0, Load), Before(Loaded(0), None));
    events := RunSnoc(INIT, events, Before(Loaded(0), None), Work(0, TryLock), Before(Locked(0), Some(0)));
    events := RunSnoc(INIT, events, Before(Locked(0), Some(0)), Work(0, Reread), Before(Confirmed(0), Some(0)));
    events := RunSnoc(INIT, events, Before(Confirmed(0), Some(0)), Work(0, Prepare(true)), Before(Clear(0), Some(0)));
    events := RunSnoc(INIT, events, Before(Clear(0), Some(0)), Work(0, PushBranch(PushDone)), Posting(0, [], multiset{}));
  }

  const FIRST: seq<Pr> := [Pr("b", true)]
  const SHUT: seq<Pr> := [Pr("b", false)]

  lemma CloseSteps()
    ensures Step(Posting(0, [], multiset{}), Work(0, PostPr(PostAnswerLost))) == Some(Posting(1, FIRST, multiset{}))
    ensures Step(Posting(1, FIRST, multiset{}), ClosePr(0)) == Some(Posting(1, SHUT, multiset{}))
    ensures Step(Posting(1, SHUT, multiset{}), Work(0, PostPr(PostAnswerLost))) ==
            Some(Posting(2, SHUT + [Pr("b", true)], multiset{}))
  {
    assert [] + [Pr("b", true)] == FIRST && FIRST[0 := FIRST[0].(open := false)] == SHUT;
    assert [Pushed(0, 0)][0 := Pushed(0, 1)] == [Pushed(0, 1)] && [Pushed(0, 1)][0 := Pushed(0, 2)] == [Pushed(0, 2)];
    assert !HasOpen([], "b") && !HasOpen(SHUT, "b");
  }

  // A close between two attempts ...
  lemma ClosedMidRetryIsRepeated() returns (events: seq<Event>)
    ensures Run(INIT, events).Some? && !OnePrEach(Run(INIT, events).value)
  {
    events := RunToPosting();
    CloseSteps();
    hide Step, Run;
    events := RunSnoc(INIT, events, Posting(0, [], multiset{}), Work(0, PostPr(PostAnswerLost)), Posting(1, FIRST, multiset{}));
    events := RunSnoc(INIT, events, Posting(1, FIRST, multiset{}), ClosePr(0), Posting(1, SHUT, multiset{}));
    events := RunSnoc(INIT, events, Posting(1, SHUT, multiset{}), Work(0, PostPr(PostAnswerLost)), Posting(2, SHUT + [Pr("b", true)], multiset{}));
    TwoPrs();
    assert PrCount(Run(INIT, events).value.prs, "b") == 2;
  }

  lemma TwoPrs()
    ensures PrCount(SHUT + [Pr("b", true)], "b") == 2
  {
    CountAppend([], Pr("b", false), "b");
    assert [] + [Pr("b", false)] == SHUT;
    CountAppend(SHUT, Pr("b", true), "b");
  }

  // The worker died before marking the proposal; the branch is gone and the pull request with
  // it; the redelivered job starts over.
  function Again(pc: Pc, lock: Option<nat>): State {
    State([Proposal(Pending, "b")], {}, SHUT, [Finished, pc], lock, multiset{})
  }

  lemma DeleteSteps()
    ensures Step(DIED, ClosePr(0)) == Some(DIED.(prs := SHUT))
    ensures Step(DIED.(prs := SHUT), DeleteBranch("b")) == Some(DIED.(prs := SHUT, heads := {}))
    ensures Step(DIED.(prs := SHUT, heads := {}), Deliver(0)) == Some(Again(Started(0), None))
  {
    assert FIRST[0 := FIRST[0].(open := false)] == SHUT;
    assert multiset{0} - multiset{0} == multiset{};
    assert {"b"} - {"b"} == {} && [Finished] + [Started(0)] == [Finished, Started(0)];
    assert !Retrying(DIED, "b");
  }

  const DIED := State([Proposal(Pending, "b")], {"b"}, FIRST, [Finished], None, multiset{0})

  lemma DeathSteps()
    ensures Step(Posting(0, [], multiset{}), Work(0, PostPr(PostAnswered))) ==
            Some(Posting(0, FIRST, multiset{}).(workers := [Created(0)]))
    ensures Step(Posting(0, FIRST, multiset{}).(workers := [Created(0)]), Work(0, Die(true))) == Some(DIED)
  {
    assert [] + [Pr("b", true)] == FIRST && !HasOpen([], "b");
    assert [Pushed(0, 0)][0 := Created(0)] == [Created(0)] && [Created(0)][0 := Finished] == [Finished];
    assert multiset{} + multiset{0} == multiset{0};
  }

  lemma AgainMove(q: Pc, r: Pc)
    ensures [Finished, q][1 := r] == [Finished, r]
  {
  }

  lemma AgainSteps()
    ensures Step(Again(Started(0), None), Work(1, Load)) == Some(Again(Loaded(0), None))
    ensures Step(Again(Loaded(0), None), Work(1, TryLock)) == Some(Again(Locked(0), Some(1)))
    ensures Step(Again(Locked(0), Some(1)), Work(1, Reread)) == Some(Again(Confirmed(0), Some(1)))
  {
    AgainMove(Started(0), Loaded(0));
    AgainMove(Loaded(0), Locked(0));
    AgainMove(Locked(0), Confirmed(0));
  }

  lemma AgainPush()
    ensures Step(Again(Confirmed(0), Some(1)), Work(1, Prepare(true))) == Some(Again(Clear(0), Some(1)))
    ensures Step(Again(Clear(0), Some(1)), Work(1, PushBranch(PushDone))) == Some(Again(Pushed(0, 0), Some(1)).(heads := {"b"}))
    ensures var t := Step(Again(Pushed(0, 0), Some(1)).(heads := {"b"}), Work(1, PostPr(PostAnswered)));
            t.Some? && t.value.prs == SHUT + [Pr("b", true)]
  {
    AgainMove(Confirmed(0), Clear(0));
    AgainMove(Clear(0), Pushed(0, 0));
    assert {} + {"b"} == {"b"} && !HasOpen(SHUT, "b");
  }

  lemma DeleteRunToAgain() returns (events: seq<Event>)
    ensures Run(INIT, events) == Some(Again(Started(0), None))
  {
    events := RunToPosting();
    DeathSteps();
    DeleteSteps();
    hide *;
    events := RunSnoc(INIT, events, Posting(0, [], multiset{}), Work(0, PostPr(PostAnswered)),
                      Posting(0, FIRST, multiset{}).(workers := [Created(0)]));
    events := RunSnoc(INIT, events, Posting(0, FIRST, multiset{}).(workers := [Created(0)]), Work(0, Die(true)), DIED);
    events := RunSnoc(INIT, events, DIED, ClosePr(0), DIED.(prs := SHUT));
    events := RunSnoc(INIT, events, DIED.(prs := SHUT), DeleteBranch("b"), DIED.(prs := SHUT, heads := {}));
    events := RunSnoc(INIT, events, DIED.(prs := SHUT, heads := {}), Deliver(0), Again(Started(0), None));
  }

  // ... or a deletion after a death before the proposal was marked.
  lemma DeletedBranchIsRepeated() returns (events: seq<Event>)
    ensures Run(INIT, events).Some? && !OnePrEach(Run(INIT, events).value)
  {
    events := DeleteRunToAgain();
    AgainSteps();
    AgainPush();
    var last := Step(Again(Pushed(0, 0), Some(1)).(heads := {"b"}), Work(1, PostPr(PostAnswered))).value;
    hide Step, Run, Again;
    events := RunSnoc(INIT, events, Again(Started(0), None), Work(1, Load), Again(Loaded(0), None));
    events := RunSnoc(INIT, events, Again(Loaded(0), None), Work(1, TryLock), Again(Locked(0), Some(1)));
    events := RunSnoc(INIT, events, Again(Locked(0), Some(1)), Work(1, Reread), Again(Confirmed(0), Some(1)));
    events := RunSnoc(INIT, events, Again(Confirmed(0), Some(1)), Work(1, Prepare(true)), Again(Clear(0), Some(1)));
    events := RunSnoc(INIT, events, Again(Clear(0), Some(1)), Work(1, PushBranch(PushDone)), Again(Pushed(0, 0), Some(1)).(heads := {"b"}));
    events := RunSnoc(INIT, events, Again(Pushed(0, 0), Some(1)).(heads := {"b"}), Work(1, PostPr(PostAnswered)), last);
    TwoPrs();
    assert PrCount(Run(INIT, events).value.prs, "b") == 2;
  }
}
