// `open_pr` step by step on the proposals, the clone and the remote, while every other process
// may act between any two steps.
module PrWorkers {
  import opened Common
  import opened PullRequest
  import ConfigDiff
  import GitClone

  // What one run of the worker is given and meets.
  datatype Plan = Plan(
    prepareOk: bool, paramsPath: string, diff: seq<ConfigDiff.Entry>, declared: map<string, ConfigDiff.Json>,
    chart: Option<(string, GitClone.Blob)>, push: Push, posts: nat -> Post)

  // Dictionary keys are distinct, and the chart's path ends in another suffix than the params
  // file's.
  predicate WellFormed(plan: Plan) {
    ConfigDiff.DistinctKeys(plan.diff) && (plan.chart.Some? ==> plan.chart.value.0 != plan.paramsPath)
  }

  class Deployment {
    const clone: GitClone.Clone
    var remoteBase: GitClone.Tree
    var remote: map<string, GitClone.Tree>
    var proposals: seq<Proposal>
    var prs: seq<Pr>
    var workers: seq<Pc>
    var lock: Option<nat>
    var queue: multiset<nat>

    constructor (clone: GitClone.Clone, remoteBase: GitClone.Tree)
      ensures View() == INIT && this.clone == clone && this.remoteBase == remoteBase
    {
      this.clone, this.remoteBase := clone, remoteBase;
      remote, proposals, prs, workers, lock, queue := map[], [], [], [], None, multiset{};
    }

    function View(): State
      reads this
    {
      State(proposals, remote.Keys, prs, workers, lock, queue)
    }

    // Everybody else takes the steps of `events` that are possible. What others push or merge
    // is not tracked beyond the names of the branches; a branch nobody deletes keeps its tree.
    method Others(events: seq<Event>, newBase: GitClone.Tree, w: nat) returns (ghost trace: seq<Event>)
      requires w < |workers| && InRange(View())
      modifies this
      ensures InRange(View()) && Run(old(View()), trace) == Some(View())
      ensures w < |workers| && workers[w] == old(workers)[w] && |proposals| >= |old(proposals)|
      ensures forall i :: 0 <= i < |old(proposals)| ==> proposals[i].branch == old(proposals)[i].branch
      ensures Kept(old(remote), remote, trace) && Own(trace, w) == []
      ensures events == [] ==> trace == [] && View() == old(View()) && remote == old(remote)
      ensures remoteBase == newBase
    {
      hide Step, Run, Own, Kept, Works, InRange;
      trace := [];
      ghost var start := View();
      NothingYet(start, remote, w);
      for k := 0 to |events|
        invariant InRange(View()) && Run(start, trace) == Some(View()) && Kept(old(remote), remote, trace) && Own(trace, w) == []
        invariant events == [] ==> trace == [] && View() == start && remote == old(remote)
        invariant w < |workers| && workers[w] == start.workers[w] && |proposals| >= |start.proposals|
        invariant forall i :: 0 <= i < |start.proposals| ==> proposals[i].branch == start.proposals[i].branch
      {
        var e := events[k];
        var next := Step(View(), e);
        if next.Some? && !(e.Work? && e.w == w) {
          ghost var before := View();
          ForeignStep(before, e, w);
          proposals, prs, workers := next.value.proposals, next.value.prs, next.value.workers;
          lock, queue := next.value.lock, next.value.queue;
          ghost var trees := remote;
          remote := map b | b in next.value.heads :: if b in remote then remote[b] else map[];
          assert remote.Keys == next.value.heads;
          KeptStep(old(remote), trees, remote, trace, before, e);
          OwnSnoc(trace, e, w);
          trace := RunSnoc(start, trace, before, e, View());
        }
      }
      remoteBase := newBase;
    }

    // After a step of worker w, the others.
    method Yield(ghost before: State, ghost a: WorkAction, w: nat, meanwhile: seq<Event>) returns (ghost trace: seq<Event>)
      requires InRange(before) && w < |before.workers| && WorkStep(before, w, a) == Some(View()) && w < |workers|
      modifies this
      ensures InRange(View()) && Run(before, trace) == Some(View())
      ensures w < |workers| && workers[w] == old(workers)[w] && |proposals| >= |old(proposals)|
      ensures forall i :: 0 <= i < |old(proposals)| ==> proposals[i].branch == old(proposals)[i].branch
      ensures Kept(old(remote), remote, trace) && Own(trace, w) == [a]
      ensures meanwhile == [] ==> trace == [Work(w, a)] && View() == old(View()) && remote == old(remote)
      ensures remoteBase == old(remoteBase)
    {
      OwnStep(before, w, a);
      ghost var after := View();
      ghost var rest := Others(meanwhile, remoteBase, w);
      OwnSnoc([], Work(w, a), w);
      hide WorkStep, Step, Run;
      trace := OwnJoined(before, [Work(w, a)], after, rest, View(), w);
    }

    method Move(w: nat, pc: Pc)
      requires w < |workers|
      modifies `workers
      ensures workers == old(workers)[w := pc]
    {
      workers := workers[w := pc];
    }

    method Leave(w: nat)
      requires w < |workers|
      modifies `workers, `lock
      ensures workers == old(workers)[w := Finished] && lock == if old(lock) == Some(w) then None else old(lock)
    {
      if lock == Some(w) {
        lock := None;
      }
      workers := workers[w := Finished];
    }

    // Step 1: bail out unless pending.
    method LoadProposal(w: nat, p: nat, meanwhile: seq<Event>) returns (pending: bool, ghost trace: seq<Event>)
      requires InRange(View()) && w < |workers| && workers[w] == Started(p)
      modifies this
      ensures InRange(View()) && Run(old(View()), trace) == Some(View())
      ensures w < |workers| && workers[w] == (if pending then Loaded(p) else Finished) && SameBranch(old(proposals), proposals, p)
      ensures (pending <==> old(proposals)[p].status == Pending) && (meanwhile == [] ==> lock == old(lock))
      ensures Kept(old(remote), remote, trace) && Own(trace, w) == [Load]
      ensures meanwhile == [] ==> trace == [Work(w, Load)] && View() == old(View()).(workers := workers) && remote == old(remote) && remoteBase == old(remoteBase)
    {
      ghost var before := View();
      pending := proposals[p].status == Pending;
      Move(w, if pending then Loaded(p) else Finished);
      trace := Yield(before, Load, w, meanwhile);
    }

    // Step 4: the per-repo lock; without it the job is deferred.
    method AcquireLock(w: nat, p: nat, meanwhile: seq<Event>) returns (got: bool, ghost trace: seq<Event>)
      requires InRange(View()) && w < |workers| && workers[w] == Loaded(p)
      modifies this
      ensures InRange(View()) && Run(old(View()), trace) == Some(View())
      ensures w < |workers| && workers[w] == (if got then Locked(p) else Finished) && SameBranch(old(proposals), proposals, p)
      ensures got <==> old(lock).None?
      ensures Kept(old(remote), remote, trace) && Own(trace, w) == [TryLock]
      ensures meanwhile == [] ==> 
                && trace == [Work(w, TryLock)]
                && View() == old(View()).(workers := workers, lock := if got then Some(w) else old(lock),
                                          queue := if got then old(queue) else old(queue) + multiset{p})
                && remote == old(remote) && remoteBase == old(remoteBase)
    {
      ghost var before := View();
      got := lock.None?;
      if got {
        lock := Some(w);
      } else {
        queue := queue + multiset{p};
      }
      Move(w, if got then Locked(p) else Finished);
      trace := Yield(before, TryLock, w, meanwhile);
    }

    // Step 5: the re-read inside the lock.
    method RereadProposal(w: nat, p: nat, meanwhile: seq<Event>) returns (pending: bool, ghost trace: seq<Event>)
      requires InRange(View()) && w < |workers| && workers[w] == Locked(p)
      modifies this
      ensures InRange(View()) && Run(old(View()), trace) == Some(View())
      ensures w < |workers| && workers[w] == (if pending then Confirmed(p) else Finished) && SameBranch(old(proposals), proposals, p)
      ensures pending <==> old(proposals)[p].status == Pending
      ensures Kept(old(remote), remote, trace) && Own(trace, w) == [Reread]
      ensures meanwhile == [] ==> 
                && trace == [Work(w, Reread)]
                && View() == old(View()).(workers := workers, lock := if pending then old(lock) else Released(old(lock), w))
                && remote == old(remote) && remoteBase == old(remoteBase)
    {
      ghost var before := View();
      pending := proposals[p].status == Pending;
      if pending {
        Move(w, Confirmed(p));
      } else {
        Leave(w);
      }
      trace := Yield(before, Reread, w, meanwhile);
    }

    // Steps 6 and 7: clone, prepare, and refuse a branch that exists on the remote.
    method CheckRemoteBranch(w: nat, p: nat, ok: bool, meanwhile: seq<Event>) returns (free: bool, ghost trace: seq<Event>)
      requires InRange(View()) && w < |workers| && workers[w] == Confirmed(p)
      modifies this
      ensures InRange(View()) && Run(old(View()), trace) == Some(View())
      ensures free <==> ok && old(proposals)[p].branch !in old(remote)
      ensures w < |workers| && workers[w] == (if free then Clear(p) else Finished) && SameBranch(old(proposals), proposals, p)
      ensures Kept(old(remote), remote, trace) && Own(trace, w) == [Prepare(ok)]
      ensures meanwhile == [] ==> 
                && trace == [Work(w, Prepare(ok))]
                && View() == old(View()).(workers := workers, lock := if free then old(lock) else Released(old(lock), w))
                && remote == old(remote) && remoteBase == old(remoteBase)
    {
      ghost var before := View();
      free := ok && proposals[p].branch !in remote;
      if free {
        Move(w, Clear(p));
      } else {
        Leave(w);
      }
      trace := Yield(before, Prepare(ok), w, meanwhile);
    }

    // Steps 8 to 12 in the clone, then the push: the branch then shows the base with the params
    // file overridden, until somebody deletes it. Nothing is pushed of a refused or empty diff.
    method BuildAndPush(w: nat, p: nat, plan: Plan, meanwhile: seq<Event>)
      returns (pushed: bool, tree: GitClone.Tree, ghost merged: map<string, ConfigDiff.Json>, ghost trace: seq<Event>)
      requires InRange(View()) && w < |workers| && workers[w] == Clear(p) && WellFormed(plan)
      modifies this, clone
      ensures InRange(View()) && Run(old(View()), trace) == Some(View())
      ensures w < |workers| && workers[w] == (if pushed then Pushed(p, 0) else Finished) && SameBranch(old(proposals), proposals, p)
      ensures pushed ==> BuiltFrom(tree, old(remoteBase), plan, merged)
      ensures pushed ==> Shows(remote, old(proposals)[p].branch, tree, trace)
      ensures pushed <==> plan.push.PushDone? && Own(trace, w) == [PushBranch(plan.push)]
      ensures Own(trace, w) == if Buildable(old(remoteBase), plan, merged) then [PushBranch(plan.push)] else [Die(false)]
      ensures meanwhile == [] ==>
                && trace == Works(w, Own(trace, w)) && SameTables(old(View()), View())
                && remote == if Buildable(old(remoteBase), plan, merged) && !plan.push.PushLost?
                             then old(remote)[old(proposals)[p].branch := tree] else old(remote)
    {
      var branch := proposals[p].branch;
      var built: GitClone.Built;
      built, merged := clone.BuildBranch(remoteBase, branch, plan.paramsPath, plan.diff, plan.declared, plan.chart);
      tree := clone.refs[branch];
      assert built.Ready? <==> Buildable(old(remoteBase), plan, merged);
      assert built.Ready? ==> BuiltFrom(tree, old(remoteBase), plan, merged);
      hide ConfigDiff.OverriddenAt, GitClone.Branched, InRange, BuiltFrom, Buildable, Own, Shows;
      if built.Ready? {
        pushed, trace := PushTree(w, p, tree, plan.push, meanwhile);
      } else {
        pushed := false;
        trace := GiveUp(w, p, meanwhile);
      }
    }

    // The early returns before the push.
    method GiveUp(w: nat, p: nat, meanwhile: seq<Event>) returns (ghost trace: seq<Event>)
      requires InRange(View()) && w < |workers| && workers[w] == Clear(p)
      modifies this
      ensures InRange(View()) && Run(old(View()), trace) == Some(View())
      ensures w < |workers| && workers[w].Finished? && SameBranch(old(proposals), proposals, p)
      ensures Kept(old(remote), remote, trace) && Own(trace, w) == [Die(false)]
      ensures meanwhile == [] ==> 
                && trace == [Work(w, Die(false))] && View() == old(View()).(workers := workers, lock := Released(old(lock), w))
                && remote == old(remote) && remoteBase == old(remoteBase)
    {
      ghost var before := View();
      Leave(w);
      trace := Yield(before, Die(false), w, meanwhile);
    }

    // git push --set-upstream origin {branch}: afterwards the remote branch is the tree pushed
    // and every other branch as it was; a lost push changes nothing.
    method GitPush(branch: string, tree: GitClone.Tree, push: Push)
      modifies `remote
      ensures push.PushLost? ==> remote == old(remote)
      ensures !push.PushLost? ==> branch in remote && remote[branch] == tree
      ensures !push.PushLost? ==> remote.Keys == old(remote).Keys + {branch}
      ensures forall b :: b != branch && b in old(remote) ==> b in remote && remote[b] == old(remote)[b]
    {
      if !push.PushLost? {
        remote := remote[branch := tree];
      }
    }

    method PushTree(w: nat, p: nat, tree: GitClone.Tree, push: Push, meanwhile: seq<Event>)
      returns (pushed: bool, ghost trace: seq<Event>)
      requires InRange(View()) && w < |workers| && workers[w] == Clear(p)
      modifies this
      ensures InRange(View()) && Run(old(View()), trace) == Some(View())
      ensures pushed <==> push.PushDone?
      ensures w < |workers| && workers[w] == (if pushed then Pushed(p, 0) else Finished) && SameBranch(old(proposals), proposals, p)
      ensures Own(trace, w) == [PushBranch(push)]
      ensures !push.PushLost? ==> Shows(remote, old(proposals)[p].branch, tree, trace)
      ensures forall b :: b != old(proposals)[p].branch && b in old(remote) && DeleteBranch(b) !in trace ==>
                            b in remote && remote[b] == old(remote)[b]
      ensures meanwhile == [] ==>
                && trace == [Work(w, PushBranch(push))]
                && View() == old(View()).(workers := workers, heads := remote.Keys, lock := if pushed then old(lock) else Released(old(lock), w))
                && remote == if push.PushLost? then old(remote) else old(remote)[old(proposals)[p].branch := tree]
    {
      ghost var before := View();
      var branch := proposals[p].branch;
      pushed := push.PushDone?;
      GitPush(branch, tree, push);
      assert remote == if push.PushLost? then old(remote) else old(remote)[branch := tree];
      if pushed {
        Move(w, Pushed(p, 0));
      } else {
        Leave(w);
      }
      trace := Yield(before, PushBranch(push), w, meanwhile);
    }

    // One POST of the retry loop. `shown`: what the branch shows when a pull request is created.
    method PostOnce(w: nat, p: nat, attempt: nat, post: Post, meanwhile: seq<Event>)
      returns (created: bool, again: bool, ghost shown: Option<GitClone.Tree>, ghost trace: seq<Event>)
      requires InRange(View()) && w < |workers| && workers[w] == Pushed(p, attempt)
      modifies this
      ensures InRange(View()) && Run(old(View()), trace) == Some(View())
      ensures w < |workers| && workers[w] == (if created then Created(p) else if again then Pushed(p, attempt + 1) else Finished)
      ensures SameBranch(old(proposals), proposals, p) && (again ==> attempt + 1 < HTTP_RETRY_MAX)
      ensures shown.Some? <==> (post.PostAnswered? || post.PostAnswerLost?) && old(proposals)[p].branch in old(remote) && !HasOpen(old(prs), old(proposals)[p].branch)
      ensures shown.Some? ==> shown.value == old(remote)[old(proposals)[p].branch]
      ensures created <==> shown.Some? && post.PostAnswered?
      ensures Kept(old(remote), remote, trace) && Own(trace, w) == [PostPr(post)]
      ensures meanwhile == [] ==>
                && trace == [Work(w, PostPr(post))] && remote == old(remote)
                && View() == old(View()).(workers := workers, prs := prs, lock := if created || again then old(lock) else Released(old(lock), w))
                && prs == if shown.Some? then old(prs) + [Pr(old(proposals)[p].branch, true)] else old(prs)
    {
      ghost var before := View();
      var branch := proposals[p].branch;
      created, again, shown := false, false, None;
      var hasOpen := exists k :: 0 <= k < |prs| && prs[k].branch == branch && prs[k].open;
      assert hasOpen == HasOpen(before.prs, branch);
      if post.PostFailed? {
        again := attempt + 1 < HTTP_RETRY_MAX;
      } else if !post.PostRefused? && branch in remote && !hasOpen {
        prs := prs + [Pr(branch, true)];
        shown := Some(remote[branch]);
        created := post.PostAnswered?;
        again := !created && attempt + 1 < HTTP_RETRY_MAX;
      }
      hide HasOpen;
      if created {
        Move(w, Created(p));
      } else if again {
        Move(w, Pushed(p, attempt + 1));
      } else {
        Leave(w);
      }
      trace := Yield(before, PostPr(post), w, meanwhile);
    }

    // Step 13: POST with up to HTTP_RETRY_MAX attempts. Whatever pull request is created, the
    // branch shows what it showed at the start, unless somebody deleted it meanwhile.
    method CreatePr(w: nat, p: nat, plan: Plan, others: nat -> seq<Event>)
      returns (created: bool, ghost shown: seq<GitClone.Tree>, ghost trace: seq<Event>)
      requires InRange(View()) && w < |workers| && workers[w] == Pushed(p, 0)
      modifies this
      ensures InRange(View()) && Run(old(View()), trace) == Some(View())
      ensures w < |workers| && workers[w] == (if created then Created(p) else Finished) && SameBranch(old(proposals), proposals, p)
      ensures Kept(old(remote), remote, trace)
      ensures created ==> shown != []
      ensures ShowedIt(old(remote), old(proposals)[p].branch, shown, trace)
      ensures Own(trace, w) == Posts(plan, |Own(trace, w)|) && (created ==> Answered(plan, |Own(trace, w)|))
      ensures old(proposals)[p].branch in old(remote) && !HasOpen(old(prs), old(proposals)[p].branch) && plan.posts(0).PostAnswered? ==>
                created && |Own(trace, w)| == 1
      ensures (Undisturbed(others) && old(proposals)[p].branch in old(remote) && !HasOpen(old(prs), old(proposals)[p].branch)) ==>
                Retries(plan, |Own(trace, w)|, created)
      ensures Undisturbed(others) ==> trace == Works(w, Own(trace, w)) && remote == old(remote)
    {
      ghost var start, branch, trees0 := View(), proposals[p].branch, remote;
      hide Step, Run, Own, Kept, HasOpen, Posts, Works, ShowedIt, Retries;
      NothingYet(start, remote, w);
      NoneShowedYet(remote, branch, plan);
      trace, shown := [], [];
      var attempt, again := 0, true;
      created := false;
      while again
        invariant InRange(View()) && Run(start, trace) == Some(View()) && w < |workers| && SameBranch(start.proposals, proposals, p)
        invariant again ==> !created && attempt < HTTP_RETRY_MAX && workers[w] == Pushed(p, attempt)
        invariant !again ==> workers[w] == if created then Created(p) else Finished
        invariant created ==> shown != []
        invariant Kept(old(remote), remote, trace) && ShowedIt(old(remote), branch, shown, trace)
        invariant Own(trace, w) == Posts(plan, attempt) && (created ==> Answered(plan, attempt))
        invariant attempt == 0 ==> View() == start && remote == old(remote)
        invariant branch in old(remote) && !HasOpen(start.prs, branch) && plan.posts(0).PostAnswered? ==> if attempt == 0 then again else created && attempt == 1
        invariant Undisturbed(others) ==> trace == Works(w, Own(trace, w)) && remote == old(remote)
        decreases if again then HTTP_RETRY_MAX - attempt else -1
      {
        ghost var middle, trees := View(), remote;
        ghost var more: seq<Event>;
        ghost var seen: Option<GitClone.Tree>;
        created, again, seen, more := PostOnce(w, p, attempt, plan.posts(attempt), others(attempt));
        ShowedMore(old(remote), trees, branch, shown, seen, trace, more);
        KeptThrough(old(remote), trees, remote, trace, more);
        WorksConcat(w, Own(trace, w), Own(more, w));
        OneWork(w, PostPr(plan.posts(attempt)));
        PostsSnoc(plan, attempt);
        shown := WithSeen(shown, seen);
        trace := OwnJoined(start, trace, middle, more, View(), w);
        again := again && !created;
        attempt := attempt + 1;
      }
      if Undisturbed(others) && branch in trees0 && !HasOpen(start.prs, branch) { RetriesSo(start, w, p, plan, attempt, View()); }
    }

    // Step 15: pending -> pr_opened.
    method MarkOpened(w: nat, p: nat, meanwhile: seq<Event>) returns (updated: bool, ghost trace: seq<Event>)
      requires InRange(View()) && w < |workers| && workers[w] == Created(p)
      modifies this
      ensures InRange(View()) && Run(old(View()), trace) == Some(View())
      ensures updated <==> old(proposals)[p].status == Pending
      ensures w < |workers| && workers[w].Finished?
      ensures Kept(old(remote), remote, trace) && Own(trace, w) == [Mark]
      ensures meanwhile == [] ==>
                && trace == [Work(w, Mark)] && remote == old(remote)
                && View() == old(View()).(workers := workers, proposals := proposals, lock := Released(old(lock), w))
                && proposals == if updated then old(proposals)[p := old(proposals)[p].(status := PrOpened)] else old(proposals)
    {
      ghost var before := View();
      updated := proposals[p].status == Pending;
      if updated {
        proposals := proposals[p := proposals[p].(status := PrOpened)];
      }
      Leave(w);
      trace := Yield(before, Mark, w, meanwhile);
    }

    // Opening the pull request of one proposal. Whatever fails and whatever the others do, the
    // job is a run of the protocol. What it pushed is the remote base with the params file
    // overridden at the keys of the diff; as long as nobody deletes the branch (`since` are the
    // events from the push on) the remote shows exactly that, also when the pull request is
    // created. Undisturbed, a good plan ends with the pull request and the proposal opened.
    method OpenPr(w: nat, p: nat, plan: Plan, others: nat -> seq<Event>)
      returns (pushed: Option<GitClone.Tree>, ghost shown: seq<GitClone.Tree>, ghost base: GitClone.Tree,
               ghost merged: map<string, ConfigDiff.Json>, ghost since: seq<Event>, ghost trace: seq<Event>)
      requires InRange(View()) && w < |workers| && workers[w] == Started(p) && WellFormed(plan)
      modifies this, clone
      ensures InRange(View()) && Run(old(View()), trace) == Some(View())
      ensures w < |workers| && workers[w].Finished? && SameBranch(old(proposals), proposals, p)
      ensures pushed.Some? ==> BuiltFrom(pushed.value, base, plan, merged)
      ensures if pushed.Some? then Delivered(remote, old(proposals)[p].branch, pushed.value, shown, since) else shown == []
      ensures |since| <= |trace| && trace[|trace| - |since|..] == since
      ensures Own(trace, w) <= Entry(plan) || exists later :: Own(trace, w) == Entry(plan) + later && InOrder(later, base, plan, merged, pushed, shown)
      ensures Undisturbed(others) ==> trace == Works(w, Own(trace, w))
      ensures (Undisturbed(others) && Enters(old(View()), p, plan) && Buildable(old(remoteBase), plan, merged) && plan.push.PushDone?
               && plan.posts(0).PostAnswered? && !HasOpen(old(prs), old(proposals)[p].branch)) ==>
                && View() == Opened(old(View()), w, p)
                && pushed.Some? && remote == old(remote)[old(proposals)[p].branch := pushed.value]
      ensures Undisturbed(others) && !Enters(old(View()), p, plan) ==>
                SameTables(old(View()), View()) && remote == old(remote) && queue == Deferred(old(View()), p)
    {
      hide Step, Run, WellFormed, BuiltFrom, Buildable, Own, Works, Shows, HasOpen, InOrder, InRange;
      ghost var start := View();
      ghost var trees := remote;
      pushed, shown, base, merged, since := None, [], remoteBase, map[], [];
      var go: bool;
      go, trace := ReachClear(w, p, plan, others);
      if go {
        ghost var middle := View();
        pushed, shown, base, merged, since := PushAndPost(w, p, plan, (k: nat) => others(4 + k));
        WorksConcat(w, Own(trace, w), Own(since, w));
        trace := OwnJoined(start, trace, middle, since, View(), w);
        if Undisturbed(others) && Own(since, w) == CleanWork(plan) && plan.push.PushDone? && plan.posts(0).PostAnswered?
           && !HasOpen(start.prs, start.proposals[p].branch) {
          CleanRun(start, w, p, plan);
        }
      }
    }

    // Everything after the check that the branch is free.
    method PushAndPost(w: nat, p: nat, plan: Plan, others: nat -> seq<Event>)
      returns (pushed: Option<GitClone.Tree>, ghost shown: seq<GitClone.Tree>, ghost base: GitClone.Tree,
               ghost merged: map<string, ConfigDiff.Json>, ghost trace: seq<Event>)
      requires InRange(View()) && w < |workers| && workers[w] == Clear(p) && WellFormed(plan)
      modifies this, clone
      ensures InRange(View()) && Run(old(View()), trace) == Some(View())
      ensures w < |workers| && workers[w].Finished? && SameBranch(old(proposals), proposals, p) && base == old(remoteBase)
      ensures pushed.Some? ==> BuiltFrom(pushed.value, base, plan, merged)
      ensures if pushed.Some? then Delivered(remote, old(proposals)[p].branch, pushed.value, shown, trace) else shown == []
      ensures InOrder(Own(trace, w), base, plan, merged, pushed, shown)
      ensures Undisturbed(others) ==> trace == Works(w, Own(trace, w))
      ensures Undisturbed(others) && pushed.Some? ==> remote == old(remote)[old(proposals)[p].branch := pushed.value]
      ensures (Undisturbed(others) && Buildable(base, plan, merged) && plan.push.PushDone? && plan.posts(0).PostAnswered?
               && !HasOpen(old(prs), old(proposals)[p].branch)) ==>
                pushed.Some? && Own(trace, w) == CleanWork(plan)
    {
      ghost var start, branch := View(), proposals[p].branch;
      hide Step, Run, WellFormed, BuiltFrom, Buildable, Own, Works, HasOpen, InRange, Posted, CleanWork, Shows, Delivered;
      pushed, shown, base := None, [], remoteBase;
      var go: bool, tree: GitClone.Tree;
      go, tree, merged, trace := BuildAndPush(w, p, plan, others(0));
      if go {
        pushed := Some(tree);
        ghost var middle := View();
        ghost var more: seq<Event>;
        ghost var trees := remote;
        shown, more := PostAndMark(w, p, plan, (k: nat) => others(1 + k));
        WorksConcat(w, Own(trace, w), Own(more, w));
        CleanParts(plan);
        ghost var first := trace;
        DeliveredAfter(trees, remote, branch, tree, shown, first, more);
        trace := OwnJoined(start, first, middle, more, View(), w);
      }
    }

    // The pull request, and the mark on the proposal once its answer has been seen.
    method PostAndMark(w: nat, p: nat, plan: Plan, others: nat -> seq<Event>)
      returns (ghost shown: seq<GitClone.Tree>, ghost trace: seq<Event>)
      requires InRange(View()) && w < |workers| && workers[w] == Pushed(p, 0)
      modifies this
      ensures InRange(View()) && Run(old(View()), trace) == Some(View())
      ensures w < |workers| && workers[w].Finished? && SameBranch(old(proposals), proposals, p)
      ensures forall tree :: Shows(old(remote), old(proposals)[p].branch, tree, []) ==>
                               Delivered(remote, old(proposals)[p].branch, tree, shown, trace)
      ensures Posted(Own(trace, w), plan, shown)
      ensures Undisturbed(others) ==> trace == Works(w, Own(trace, w)) && remote == old(remote)
      ensures old(proposals)[p].branch in old(remote) && !HasOpen(old(prs), old(proposals)[p].branch) && plan.posts(0).PostAnswered? ==>
                Own(trace, w) == [PostPr(plan.posts(0)), Mark]
    {
      ghost var start, branch := View(), proposals[p].branch;
      hide Step, Run, Own, Works, HasOpen, InRange, Kept, Shows, ShowedIt, Delivered, Posted, Posts, Answered, Retries, Undisturbed, Released, AllFailed;
      ghost var trees := remote;
      var go: bool;
      go, shown, trace := CreatePr(w, p, plan, others);
      ghost var first := trace;
      PostedSoFar(Own(first, w), plan, go, shown);
      if go {
        ghost var middle, later := View(), remote;
        var updated: bool;
        ghost var more: seq<Event>;
        updated, more := MarkOpened(w, p, []);
        KeptThrough(trees, later, remote, first, more);
        WorksConcat(w, Own(first, w), Own(more, w));
        OneWork(w, Mark);
        trace := OwnJoined(start, first, middle, more, View(), w);
      }
      DeliveredIf(trees, remote, branch, shown, first, trace);
    }

    // The first two steps: the proposal is loaded and the lock taken.
    method ReachLocked(w: nat, p: nat, meanwhile: seq<Event>, later: seq<Event>) returns (go: bool, ghost trace: seq<Event>)
      requires InRange(View()) && w < |workers| && workers[w] == Started(p)
      modifies this
      ensures InRange(View()) && Run(old(View()), trace) == Some(View())
      ensures w < |workers| && workers[w] == (if go then Locked(p) else Finished) && SameBranch(old(proposals), proposals, p)
      ensures if go then Own(trace, w) == [Load, TryLock] else Own(trace, w) <= [Load, TryLock]
      ensures meanwhile == later == [] ==>
                && trace == Works(w, Own(trace, w)) && SameTables(old(View()), View()) && remote == old(remote) && remoteBase == old(remoteBase)
                && (go <==> old(proposals)[p].status == Pending && old(lock).None?)
                && queue == if old(proposals)[p].status == Pending && old(lock).Some? then old(queue) + multiset{p} else old(queue)
    {
      hide Step, Run, Own, Works, Kept, InRange;
      ghost var start := View();
      go, trace := LoadProposal(w, p, meanwhile);
      OneWork(w, Load);
      if go {
        ghost var middle := View();
        ghost var more: seq<Event>;
        go, more := AcquireLock(w, p, later);
        OneWork(w, TryLock);
        WorksConcat(w, Own(trace, w), Own(more, w));
        trace := OwnJoined(start, trace, middle, more, View(), w);
      }
    }

    // And the other two: it is read again and the branch found to be free.
    method ReachFree(w: nat, p: nat, ok: bool, meanwhile: seq<Event>, later: seq<Event>) returns (go: bool, ghost trace: seq<Event>)
      requires InRange(View()) && w < |workers| && workers[w] == Locked(p)
      modifies this
      ensures InRange(View()) && Run(old(View()), trace) == Some(View())
      ensures w < |workers| && workers[w] == (if go then Clear(p) else Finished) && SameBranch(old(proposals), proposals, p)
      ensures if go then Own(trace, w) == [Reread, Prepare(ok)] else Own(trace, w) <= [Reread, Prepare(ok)]
      ensures meanwhile == later == [] ==>
                && trace == Works(w, Own(trace, w)) && SameTables(old(View()), View()) && remote == old(remote) && remoteBase == old(remoteBase)
                && (go <==> old(proposals)[p].status == Pending && ok && old(proposals)[p].branch !in old(remote))
                && queue == old(queue)
    {
      hide Step, Run, Own, Works, Kept, InRange;
      ghost var start := View();
      go, trace := RereadProposal(w, p, meanwhile);
      OneWork(w, Reread);
      if go {
        ghost var middle := View();
        ghost var more: seq<Event>;
        go, more := CheckRemoteBranch(w, p, ok, later);
        OneWork(w, Prepare(ok));
        WorksConcat(w, Own(trace, w), Own(more, w));
        trace := OwnJoined(start, trace, middle, more, View(), w);
      }
    }

    method ReachClear(w: nat, p: nat, plan: Plan, others: nat -> seq<Event>) returns (go: bool, ghost trace: seq<Event>)
      requires InRange(View()) && w < |workers| && workers[w] == Started(p)
      modifies this
      ensures InRange(View()) && Run(old(View()), trace) == Some(View())
      ensures w < |workers| && workers[w] == (if go then Clear(p) else Finished) && SameBranch(old(proposals), proposals, p)
      ensures if go then Own(trace, w) == Entry(plan) else Own(trace, w) <= Entry(plan)
      ensures Undisturbed(others) ==>
                trace == Works(w, Own(trace, w)) && SameTables(old(View()), View()) && remote == old(remote) && remoteBase == old(remoteBase)
      ensures Undisturbed(others) ==> (go <==> Enters(old(View()), p, plan)) && queue == Deferred(old(View()), p)
    {
      hide Step, Run, Own, Works, InRange;
      ghost var start := View();
      go, trace := ReachLocked(w, p, others(0), others(1));
      if go {
        ghost var middle := View();
        ghost var more: seq<Event>;
        go, more := ReachFree(w, p, plan.prepareOk, others(2), others(3));
        WorksConcat(w, Own(trace, w), Own(more, w));
        assert Entry(plan) == [Load, TryLock] + [Reread, Prepare(plan.prepareOk)];
        trace := OwnJoined(start, trace, middle, more, View(), w);
      }
    }
  }

  ghost predicate Undisturbed(others: nat -> seq<Event>) { forall k: nat :: others(k) == [] }

  // The way to a free branch.
  function Entry(plan: Plan): seq<WorkAction> { [Load, TryLock, Reread, Prepare(plan.prepareOk)] }

  // Nothing stands in it.
  predicate Enters(s: State, p: nat, plan: Plan) {
    p < |s.proposals| && s.proposals[p].status == Pending && s.lock.None? && plan.prepareOk && s.proposals[p].branch !in s.heads
  }

  // A job that finds the lock taken is queued again.
  function Deferred(s: State, p: nat): multiset<nat> {
    if p < |s.proposals| && s.proposals[p].status == Pending && s.lock.Some? then s.queue + multiset{p} else s.queue
  }

  // And after it: nothing to push, or one push, the attempts to post, and the mark once a
  // pull request was created and its answer seen.
  ghost predicate InOrder(acts: seq<WorkAction>, base: GitClone.Tree, plan: Plan, merged: map<string, ConfigDiff.Json>,
                          pushed: Option<GitClone.Tree>, shown: seq<GitClone.Tree>) {
    if !Buildable(base, plan, merged) then acts == [Die(false)] && pushed.None?
    else if !plan.push.PushDone? then acts == [PushBranch(plan.push)] && pushed.None?
    else
      && pushed.Some?
      && exists later :: acts == [PushBranch(plan.push)] + later && Posted(later, plan, shown)
  }

  ghost predicate Posted(acts: seq<WorkAction>, plan: Plan, shown: seq<GitClone.Tree>) {
    exists n: nat :: acts == Posts(plan, n) || (acts == Posts(plan, n) + [Mark] && Answered(plan, n) && shown != [])
  }

  lemma PostedSoFar(acts: seq<WorkAction>, plan: Plan, created: bool, shown: seq<GitClone.Tree>)
    requires acts == Posts(plan, |acts|) && (created ==> Answered(plan, |acts|) && shown != [])
    ensures Posted(acts, plan, shown) && (created ==> Posted(acts + [Mark], plan, shown))
    ensures |acts| == 1 ==> acts + [Mark] == [PostPr(plan.posts(0)), Mark]
  {
  }

  lemma CleanParts(plan: Plan)
    ensures [PushBranch(plan.push)] + [PostPr(plan.posts(0)), Mark] == CleanWork(plan)
  {
  }

  // The shortest way to a pull request.
  function CleanWork(plan: Plan): seq<WorkAction> { [PushBranch(plan.push), PostPr(plan.posts(0)), Mark] }

  // What it leaves.
  function Opened(s: State, w: nat, p: nat): State
    requires p < |s.proposals| && w < |s.workers|
  {
    var branch := s.proposals[p].branch;
    s.(proposals := s.proposals[p := Proposal(PrOpened, branch)], heads := s.heads + {branch},
       prs := s.prs + [Pr(branch, true)], workers := s.workers[w := Finished])
  }

  // Nobody else, nothing in the way, nothing lost: the branch is on the remote, its pull
  // request is created and the proposal is opened; all else is as it was.
  lemma CleanRun(s: State, w: nat, p: nat, plan: Plan)
    requires w < |s.workers| && s.workers[w] == Started(p) && Enters(s, p, plan)
    requires plan.push.PushDone? && plan.posts(0).PostAnswered? && !HasOpen(s.prs, s.proposals[p].branch)
    ensures Run(s, Works(w, Entry(plan) + CleanWork(plan))) == Some(Opened(s, w, p))
  {
    var branch := s.proposals[p].branch;
    var t0 := s.(workers := s.workers[w := Loaded(p)]);
    var t1 := s.(workers := s.workers[w := Locked(p)], lock := Some(w));
    var t2 := s.(workers := s.workers[w := Confirmed(p)], lock := Some(w));
    var t3 := s.(workers := s.workers[w := Clear(p)], lock := Some(w));
    var t4 := s.(workers := s.workers[w := Pushed(p, 0)], lock := Some(w), heads := s.heads + {branch});
    var t5 := t4.(workers := s.workers[w := Created(p)], prs := s.prs + [Pr(branch, true)]);
    CleanEntry(s, w, p, plan);
    CleanExit(s, w, p, plan);
    EmptyRun(s);
    hide Step, Run, Opened;
    var e := RunSnoc(s, [], s, Work(w, Load), t0);
    e := RunSnoc(s, e, t0, Work(w, TryLock), t1);
    e := RunSnoc(s, e, t1, Work(w, Reread), t2);
    e := RunSnoc(s, e, t2, Work(w, Prepare(true)), t3);
    e := RunSnoc(s, e, t3, Work(w, PushBranch(plan.push)), t4);
    e := RunSnoc(s, e, t4, Work(w, PostPr(plan.posts(0))), t5);
    e := RunSnoc(s, e, t5, Work(w, Mark), Opened(s, w, p));
    assert e == Works(w, Entry(plan) + CleanWork(plan));
  }

  lemma CleanEntry(s: State, w: nat, p: nat, plan: Plan)
    requires w < |s.workers| && s.workers[w] == Started(p) && Enters(s, p, plan)
    ensures var t0 := s.(workers := s.workers[w := Loaded(p)]);
            var t1 := s.(workers := s.workers[w := Locked(p)], lock := Some(w));
            var t2 := s.(workers := s.workers[w := Confirmed(p)], lock := Some(w));
            var t3 := s.(workers := s.workers[w := Clear(p)], lock := Some(w));
            && Step(s, Work(w, Load)) == Some(t0) && Step(t0, Work(w, TryLock)) == Some(t1)
            && Step(t1, Work(w, Reread)) == Some(t2) && Step(t2, Work(w, Prepare(true))) == Some(t3)
  {
    hide HasOpen;
    UpdateTwice(s.workers, w);
  }

  lemma CleanExit(s: State, w: nat, p: nat, plan: Plan)
    requires w < |s.workers| && s.workers[w] == Started(p) && Enters(s, p, plan)
    requires plan.push.PushDone? && plan.posts(0).PostAnswered? && !HasOpen(s.prs, s.proposals[p].branch)
    ensures var branch := s.proposals[p].branch;
            var t3 := s.(workers := s.workers[w := Clear(p)], lock := Some(w));
            var t4 := s.(workers := s.workers[w := Pushed(p, 0)], lock := Some(w), heads := s.heads + {branch});
            var t5 := t4.(workers := s.workers[w := Created(p)], prs := s.prs + [Pr(branch, true)]);
            && Step(t3, Work(w, PushBranch(plan.push))) == Some(t4) && Step(t4, Work(w, PostPr(plan.posts(0)))) == Some(t5)
            && Step(t5, Work(w, Mark)) == Some(Opened(s, w, p))
  {
    hide HasOpen;
    UpdateTwice(s.workers, w);
  }

  lemma UpdateTwice(workers: seq<Pc>, w: nat)
    requires w < |workers|
    ensures forall a: Pc, b: Pc {:trigger workers[w := a][w := b]} :: workers[w := a][w := b] == workers[w := b]
  {
  }

  lemma OneWork(w: nat, a: WorkAction)
    ensures Works(w, [a]) == [Work(w, a)]
  {
  }

  // The actions of worker w itself, in their order.
  ghost function Own(trace: seq<Event>, w: nat): seq<WorkAction> {
    if trace == [] then []
    else
      var last := trace[|trace| - 1];
      Own(trace[..|trace| - 1], w) + if last.Work? && last.w == w then [last.a] else []
  }

  lemma OwnSnoc(trace: seq<Event>, e: Event, w: nat)
    ensures Own(trace + [e], w) == Own(trace, w) + if e.Work? && e.w == w then [e.a] else []
  {
    assert (trace + [e])[..|trace|] == trace;
  }

  lemma {:induction false} OwnConcat(a: seq<Event>, b: seq<Event>, w: nat)
    ensures Own(a + b, w) == Own(a, w) + Own(b, w)
  {
    if b == [] {
      assert a + b == a;
    } else {
      hide Own;
      var init, e := b[..|b| - 1], b[|b| - 1];
      OwnConcat(a, init, w);
      OwnSnoc(a + init, e, w);
      OwnSnoc(init, e, w);
      assert b == init + [e] && a + b == (a + init) + [e];
    }
  }

  function Works(w: nat, acts: seq<WorkAction>): (r: seq<Event>)
    ensures |r| == |acts| && forall i :: 0 <= i < |r| ==> r[i] == Work(w, acts[i])
  {
    seq(|acts|, i requires 0 <= i < |acts| => Work(w, acts[i]))
  }

  lemma WorksConcat(w: nat, a: seq<WorkAction>, b: seq<WorkAction>)
    ensures Works(w, a + b) == Works(w, a) + Works(w, b)
  {
  }

  // The first n attempts.
  function Posts(plan: Plan, n: nat): (r: seq<WorkAction>)
    ensures |r| == n && forall i :: 0 <= i < n ==> r[i] == PostPr(plan.posts(i))
  {
    seq(n, i requires 0 <= i < n => PostPr(plan.posts(i)))
  }

  // The first n attempts left no trace.
  predicate AllFailed(plan: Plan, n: nat) { forall i :: 0 <= i < n ==> plan.posts(i).PostFailed? }

  // Attempts that left no trace are repeated, up to three in all; the first answer ends them.
  ghost predicate Retries(plan: Plan, n: nat, created: bool) {
    && (forall k: nat :: k < 3 && AllFailed(plan, k) && plan.posts(k).PostAnswered? ==> created && n == k + 1)
    && (AllFailed(plan, 3) ==> !created && n == 3)
  }

  lemma WorksSnoc(w: nat, plan: Plan, n: nat)
    ensures Works(w, Posts(plan, n + 1)) == Works(w, Posts(plan, n)) + [Work(w, PostPr(plan.posts(n)))]
  {
    PostsSnoc(plan, n);
  }

  lemma OnePost(s: State, w: nat, p: nat, attempt: nat, post: Post)
    requires w < |s.workers| && s.workers[w] == Pushed(p, attempt) && p < |s.proposals|
    requires s.proposals[p].branch in s.heads && !HasOpen(s.prs, s.proposals[p].branch)
    ensures var t := Step(s, Work(w, PostPr(post)));
            && t.Some?
            && (post.PostFailed? && attempt < 2 ==> t == Some(s.(workers := s.workers[w := Pushed(p, attempt + 1)])))
            && (post.PostFailed? && attempt >= 2 ==> t.value.workers == s.workers[w := Finished])
            && (post.PostAnswered? ==> t.value.workers == s.workers[w := Created(p)])
  {
    hide HasOpen;
  }

  lemma NoMorePosts(s: State, w: nat, post: Post)
    requires w < |s.workers| && !s.workers[w].Pushed?
    ensures Step(s, Work(w, PostPr(post))).None?
  {
    hide HasOpen;
  }

  lemma RunLast(s: State, events: seq<Event>, e: Event)
    ensures Run(s, events + [e]) == if Run(s, events).Some? then Step(Run(s, events).value, e) else None
  {
    hide Step;
    assert (events + [e])[..|events|] == events;
  }

  // After k attempts that left no trace.
  lemma {:induction false} AfterFailures(s: State, w: nat, p: nat, plan: Plan, k: nat)
    requires w < |s.workers| && s.workers[w] == Pushed(p, 0) && p < |s.proposals|
    requires s.proposals[p].branch in s.heads && !HasOpen(s.prs, s.proposals[p].branch)
    requires AllFailed(plan, k) && k <= 2
    ensures Run(s, Works(w, Posts(plan, k))) == Some(s.(workers := s.workers[w := Pushed(p, k)]))
  {
    hide Step, HasOpen, Works, Posts;
    if k == 0 {
      NoneShowedYet(map[], "", plan);
      NothingYet(s, map[], w);
      assert s.workers[w := Pushed(p, 0)] == s.workers;
    } else {
      AfterFailures(s, w, p, plan, k - 1);
      var t := s.(workers := s.workers[w := Pushed(p, k - 1)]);
      WorksSnoc(w, plan, k - 1);
      RunLast(s, Works(w, Posts(plan, k - 1)), Work(w, PostPr(plan.posts(k - 1))));
      OnePost(t, w, p, k - 1, plan.posts(k - 1));
      hide Run;
      assert s.workers[w := Pushed(p, k - 1)][w := Pushed(p, k)] == s.workers[w := Pushed(p, k)];
    }
  }

  // Once the worker has left the loop, there is no further attempt.
  lemma {:induction false} NoneAfter(s: State, w: nat, plan: Plan, k: nat, n: nat)
    requires Run(s, Works(w, Posts(plan, k))).Some? && k <= n
    requires var t := Run(s, Works(w, Posts(plan, k))).value; w < |t.workers| && !t.workers[w].Pushed?
    ensures Run(s, Works(w, Posts(plan, n))).Some? ==> n == k
  {
    hide Run, Step, Works, Posts;
    if n > k {
      NoneAfter(s, w, plan, k, n - 1);
      WorksSnoc(w, plan, n - 1);
      RunLast(s, Works(w, Posts(plan, n - 1)), Work(w, PostPr(plan.posts(n - 1))));
      if n - 1 == k { NoMorePosts(Run(s, Works(w, Posts(plan, k))).value, w, plan.posts(k)); }
    }
  }

  // One more attempt after k failures, and where the loop then stands.
  lemma LastAttempt(s: State, w: nat, p: nat, plan: Plan, k: nat, n: nat)
    requires w < |s.workers| && s.workers[w] == Pushed(p, 0) && p < |s.proposals|
    requires s.proposals[p].branch in s.heads && !HasOpen(s.prs, s.proposals[p].branch)
    requires AllFailed(plan, k) && k <= 2 && (plan.posts(k).PostAnswered? || (plan.posts(k).PostFailed? && k == 2))
    requires Run(s, Works(w, Posts(plan, n))).Some? && w < |Run(s, Works(w, Posts(plan, n))).value.workers|
    requires !Run(s, Works(w, Posts(plan, n))).value.workers[w].Pushed?
    ensures n == k + 1
    ensures Run(s, Works(w, Posts(plan, n))).value.workers[w] == if plan.posts(k).PostAnswered? then Created(p) else Finished
  {
    if n <= k { AfterFailures(s, w, p, plan, n); }
    AfterFailures(s, w, p, plan, k);
    var t := s.(workers := s.workers[w := Pushed(p, k)]);
    WorksSnoc(w, plan, k);
    RunLast(s, Works(w, Posts(plan, k)), Work(w, PostPr(plan.posts(k))));
    OnePost(t, w, p, k, plan.posts(k));
    hide Step, HasOpen, Works, Posts, Run;
    if n > k { NoneAfter(s, w, plan, k + 1, n); }
  }

  lemma RetriesSo(s: State, w: nat, p: nat, plan: Plan, n: nat, t: State)
    requires w < |s.workers| && s.workers[w] == Pushed(p, 0) && p < |s.proposals|
    requires s.proposals[p].branch in s.heads && !HasOpen(s.prs, s.proposals[p].branch)
    requires Run(s, Works(w, Posts(plan, n))) == Some(t) && w < |t.workers| && !t.workers[w].Pushed?
    ensures Retries(plan, n, t.workers[w] == Created(p))
  {
    hide Run, Step, HasOpen, Works, Posts;
    forall k: nat | k < 3 && AllFailed(plan, k) && plan.posts(k).PostAnswered? ensures t.workers[w] == Created(p) && n == k + 1 {
      LastAttempt(s, w, p, plan, k, n);
    }
    if AllFailed(plan, 3) { LastAttempt(s, w, p, plan, 2, n); }
  }

  // The last of n attempts got an answer.
  predicate Answered(plan: Plan, n: nat) { n > 0 && plan.posts(n - 1).PostAnswered? }

  // Leaving the connection releases its lock.
  function Released(lock: Option<nat>, w: nat): Option<nat> { if lock == Some(w) then None else lock }

  // Proposals and pull requests are as they were.
  predicate SameTables(s: State, t: State) { t.proposals == s.proposals && t.prs == s.prs }

  // The base with the params file overridden at the keys of the diff.
  ghost predicate BuiltFrom(tree: GitClone.Tree, base: GitClone.Tree, plan: Plan, merged: map<string, ConfigDiff.Json>) {
    && tree == GitClone.Branched(base, plan.paramsPath, merged, plan.chart)
    && ConfigDiff.Parsed(GitClone.FileAt(base, plan.paramsPath)).Some?
    && ConfigDiff.OverriddenAt(merged, ConfigDiff.Parsed(GitClone.FileAt(base, plan.paramsPath)).value, plan.diff)
  }

  // The diff is applied, and neither the params file nor the chart stays as the base has it.
  ghost predicate Buildable(base: GitClone.Tree, plan: Plan, merged: map<string, ConfigDiff.Json>) {
    && ConfigDiff.Parsed(GitClone.FileAt(base, plan.paramsPath)).Some?
    && (forall i :: 0 <= i < |plan.diff| ==> ConfigDiff.Good(plan.diff[i], plan.declared))
    && GitClone.FileAt(base, plan.paramsPath) != ConfigDiff.Object(merged, 0)
    && !(plan.chart.Some? && plan.chart.value.0 in base && base[plan.chart.value.0] == plan.chart.value.1)
  }

  // The branch shows the tree, unless it was deleted.
  ghost predicate Shows(remote: map<string, GitClone.Tree>, branch: string, tree: GitClone.Tree, trace: seq<Event>) {
    DeleteBranch(branch) !in trace ==> branch in remote && remote[branch] == tree
  }

  // Unless the branch was deleted, it shows the tree, and showed it whenever a pull request was
  // created.
  ghost predicate Delivered(remote: map<string, GitClone.Tree>, branch: string, tree: GitClone.Tree, shown: seq<GitClone.Tree>,
                            trace: seq<Event>) {
    DeleteBranch(branch) !in trace ==>
      branch in remote && remote[branch] == tree && forall t :: t in shown ==> t == tree
  }

  lemma DeliveredAfter(middle: map<string, GitClone.Tree>, remote: map<string, GitClone.Tree>, branch: string, tree: GitClone.Tree,
                       shown: seq<GitClone.Tree>, first: seq<Event>, more: seq<Event>)
    requires Shows(middle, branch, tree, first)
    requires Shows(middle, branch, tree, []) ==> Delivered(remote, branch, tree, shown, more)
    ensures Delivered(remote, branch, tree, shown, first + more)
  {
  }

  // Unless the branch was deleted, it showed the same tree whenever a pull request was created.
  ghost predicate ShowedIt(remote: map<string, GitClone.Tree>, branch: string, shown: seq<GitClone.Tree>, trace: seq<Event>) {
    branch in remote && DeleteBranch(branch) !in trace ==> forall t :: t in shown ==> t == remote[branch]
  }

  function WithSeen(shown: seq<GitClone.Tree>, seen: Option<GitClone.Tree>): seq<GitClone.Tree> {
    if seen.Some? then shown + [seen.value] else shown
  }

  lemma ShowedMore(first: map<string, GitClone.Tree>, trees: map<string, GitClone.Tree>, branch: string, shown: seq<GitClone.Tree>,
                   seen: Option<GitClone.Tree>, trace: seq<Event>, more: seq<Event>)
    requires ShowedIt(first, branch, shown, trace) && Kept(first, trees, trace)
    requires seen.Some? ==> branch in trees && seen.value == trees[branch]
    ensures ShowedIt(first, branch, WithSeen(shown, seen), trace + more)
  {
  }

  lemma NoneShowedYet(remote: map<string, GitClone.Tree>, branch: string, plan: Plan)
    ensures ShowedIt(remote, branch, [], []) && Posts(plan, 0) == []
  {
  }

  lemma PostsSnoc(plan: Plan, n: nat)
    ensures Posts(plan, n + 1) == Posts(plan, n) + [PostPr(plan.posts(n))] && |Posts(plan, n)| == n
  {
  }

  lemma DeliveredIf(trees: map<string, GitClone.Tree>, remote: map<string, GitClone.Tree>, branch: string,
                    shown: seq<GitClone.Tree>, first: seq<Event>, trace: seq<Event>)
    requires Kept(trees, remote, trace) && first <= trace
    requires ShowedIt(trees, branch, shown, first)
    ensures forall tree :: Shows(trees, branch, tree, []) ==> Delivered(remote, branch, tree, shown, trace)
  {
  }

  // A branch nobody deletes keeps its tree.
  ghost predicate Kept(before: map<string, GitClone.Tree>, after: map<string, GitClone.Tree>, trace: seq<Event>) {
    forall b :: b in before && DeleteBranch(b) !in trace ==> b in after && after[b] == before[b]
  }

  lemma KeptStep(first: map<string, GitClone.Tree>, before: map<string, GitClone.Tree>, after: map<string, GitClone.Tree>,
                 trace: seq<Event>, s: State, e: Event)
    requires Kept(first, before, trace) && s.heads == before.Keys && Step(s, e).Some? && Step(s, e).value.heads == after.Keys
    requires forall b :: b in after && b in before ==> after[b] == before[b]
    ensures Kept(first, after, trace + [e])
  {
    HeadsStay(s, e);
  }

  lemma HeadsStay(s: State, e: Event)
    requires Step(s, e).Some?
    ensures forall b :: b in s.heads && e != DeleteBranch(b) ==> b in Step(s, e).value.heads
  {
    hide HasOpen;
  }

  lemma KeptThrough(a: map<string, GitClone.Tree>, b: map<string, GitClone.Tree>, c: map<string, GitClone.Tree>,
                    first: seq<Event>, second: seq<Event>)
    requires Kept(a, b, first) && Kept(b, c, second)
    ensures Kept(a, c, first + second)
  {
  }

  lemma KeptAt(before: map<string, GitClone.Tree>, after: map<string, GitClone.Tree>, trace: seq<Event>, b: string)
    requires Kept(before, after, trace)
    ensures b in before && DeleteBranch(b) !in trace ==> b in after && after[b] == before[b]
  {
  }

  lemma NothingYet(s: State, remote: map<string, GitClone.Tree>, w: nat)
    ensures Run(s, []) == Some(s) && Own([], w) == [] && Kept(remote, remote, []) && Works(w, []) == []
  {
  }

  lemma OwnJoined(start: State, a: seq<Event>, middle: State, b: seq<Event>, end: State, w: nat) returns (c: seq<Event>)
    requires Run(start, a) == Some(middle) && Run(middle, b) == Some(end)
    ensures c == a + b && Run(start, c) == Some(end) && Own(c, w) == Own(a, w) + Own(b, w)
  {
    c := Joined(start, a, middle, b, end);
    OwnConcat(a, b, w);
  }

  predicate SameBranch(before: seq<Proposal>, after: seq<Proposal>, p: nat) {
    p < |before| <= |after| && after[p].branch == before[p].branch
  }

  lemma InRangeWork(s: State, w: nat, a: WorkAction)
    requires InRange(s) && w < |s.workers| && WorkStep(s, w, a).Some?
    ensures InRange(WorkStep(s, w, a).value)
  {
    WorkMoves(s, w, a);
    WorkWrites(s, w, a);
    hide WorkStep;
  }

  lemma ForeignStep(s: State, e: Event, w: nat)
    requires InRange(s) && Step(s, e).Some? && w < |s.workers| && !(e.Work? && e.w == w)
    ensures var t := Step(s, e).value;
            && InRange(t) && w < |t.workers| && t.workers[w] == s.workers[w] && |t.proposals| >= |s.proposals|
            && forall i :: 0 <= i < |s.proposals| ==> t.proposals[i].branch == s.proposals[i].branch
  {
    if e.Work? {
      InRangeWork(s, e.w, e.a);
      WorkMoves(s, e.w, e.a);
      WorkWrites(s, e.w, e.a);
      hide WorkStep;
    } else {
      hide WorkStep, Retrying;
    }
  }

  lemma OneStep(s: State, e: Event)
    ensures Run(s, [e]) == Step(s, e)
  {
    EmptyRun(s);
    hide Step;
    assert [e][..0] == [];
  }

  lemma OwnStep(s: State, w: nat, a: WorkAction)
    requires InRange(s) && w < |s.workers| && WorkStep(s, w, a).Some?
    ensures Run(s, [Work(w, a)]) == WorkStep(s, w, a) && InRange(WorkStep(s, w, a).value)
  {
    hide WorkStep, InRange, Run;
    OneStep(s, Work(w, a));
    InRangeWork(s, w, a);
  }

  lemma EmptyRun(s: State)
    ensures Run(s, []) == Some(s)
  {
  }

  lemma {:induction false} Composed(s: State, a: seq<Event>, b: seq<Event>)
    requires Run(s, a).Some?
    ensures Run(s, a + b) == Run(Run(s, a).value, b)
    decreases |b|
  {
    hide Step;
    if b == [] {
      assert a + b == a;
    } else {
      var c, last := a + b, |b| - 1;
      Composed(s, a, b[..last]);
      assert c[..|c| - 1] == a + b[..last] && c[|c| - 1] == b[last];
    }
  }

  lemma Joined(start: State, a: seq<Event>, middle: State, b: seq<Event>, end: State) returns (c: seq<Event>)
    requires Run(start, a) == Some(middle) && Run(middle, b) == Some(end)
    ensures c == a + b && Run(start, c) == Some(end)
  {
    Composed(start, a, b);
    c := a + b;
  }
}
