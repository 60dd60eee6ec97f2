// How often a study is followed up: one link per parent, and what a clone or a stopped chain
// does to the next one.
module FollowupBranches {
  import opened Common
  import opened FollowupChain
  import opened FollowupTheorems

  // ---------------------------------------------------------------------------
  // One link per parent
  // ---------------------------------------------------------------------------

  predicate IsLink(c: Study, i: nat) { c.auto && c.parent == Some(i) }

  predicate HasLink(studies: seq<Study>, i: nat) {
    exists k :: 0 <= k < |studies| && IsLink(studies[k], i)
  }

  // No study has two children of the follow-up worker; operators may clone it as they like.
  predicate OneLinkEach(studies: seq<Study>) {
    forall j, k :: 0 <= j < k < |studies| && studies[j].auto && studies[k].auto && studies[k].parent.Some? ==>
                     studies[j].parent != studies[k].parent
  }

  // An INSERT for a parent that has got a link since the children check.
  predicate Branches(s: State, e: Event) {
    e.Insert? && e.w < |s.workers| && s.workers[e.w].Clear? && DepthAllows(s.workers[e.w].seen) && HasLink(s.studies, s.workers[e.w].parent)
  }

  ghost predicate NeverBranches(s: State, events: seq<Event>)
    requires Run(s, events).Some?
    decreases |events|
  {
    events != [] ==>
      var last := |events| - 1;
      NeverBranches(s, events[..last]) && !Branches(Run(s, events[..last]).value, events[last])
  }

  // What a step does to the links.
  lemma StepLinks(s: State, e: Event)
    requires Step(s, e).Some?
    ensures var t := Step(s, e).value;
            && |s.studies| <= |t.studies| <= |s.studies| + 1
            && (forall k :: 0 <= k < |s.studies| ==> t.studies[k].auto == s.studies[k].auto && t.studies[k].parent == s.studies[k].parent)
            && (|t.studies| > |s.studies| ==>
                  && (t.studies[|s.studies|].auto <==> e.Insert?)
                  && (e.Insert? ==> && e.w < |s.workers| && s.workers[e.w].Clear? && DepthAllows(s.workers[e.w].seen)
                                    && t.studies[|s.studies|].parent == Some(s.workers[e.w].parent)))
            && (e.Insert? ==> |t.studies| > |s.studies|)
  {
    hide HasChild;
  }

  lemma HasLinkAt(studies: seq<Study>, k: nat, i: nat)
    requires k < |studies| && IsLink(studies[k], i)
    ensures HasLink(studies, i)
  {
  }

  // One step gives some study a second link exactly if it is such an INSERT.
  lemma StepBranchesIff(s: State, e: Event)
    requires OneLinkEach(s.studies) && Step(s, e).Some?
    ensures OneLinkEach(Step(s, e).value.studies) <==> !Branches(s, e)
  {
    var t := Step(s, e).value;
    StepLinks(s, e);
    hide Step;
    if Branches(s, e) {
      var i := s.workers[e.w].parent;
      var k :| 0 <= k < |s.studies| && IsLink(s.studies[k], i);
      assert t.studies[k].auto && t.studies[k].parent == t.studies[|s.studies|].parent;
    } else {
      forall j, k | 0 <= j < k < |t.studies| && t.studies[j].auto && t.studies[k].auto && t.studies[k].parent.Some?
        ensures t.studies[j].parent != t.studies[k].parent
      {
        if k == |s.studies| && t.studies[j].parent == t.studies[k].parent { HasLinkAt(s.studies, j, s.workers[e.w].parent); }
      }
    }
  }

  lemma BranchesStay(s: State, e: Event)
    requires !OneLinkEach(s.studies) && Step(s, e).Some?
    ensures !OneLinkEach(Step(s, e).value.studies)
  {
    StepLinks(s, e);
    var t := Step(s, e).value;
    hide Step;
    var j, k :| 0 <= j < k < |s.studies| && s.studies[j].auto && s.studies[k].auto && s.studies[k].parent.Some?
                && s.studies[j].parent == s.studies[k].parent;
    assert t.studies[j].auto && t.studies[k].auto;
  }

  // In every run, with operators cloning and stopping as they like: every study is followed up
  // at most once exactly if no INSERT came after another worker's for the same parent.
  lemma {:induction false} OneChildIff(events: seq<Event>)
    requires Run(INIT, events).Some?
    ensures OneLinkEach(Run(INIT, events).value.studies) <==> NeverBranches(INIT, events)
    decreases |events|
  {
    hide Step, Branches;
    if events != [] {
      var last := |events| - 1;
      var s := Run(INIT, events[..last]).value;
      OneChildIff(events[..last]);
      hide OneLinkEach;
      if OneLinkEach(s.studies) { StepBranchesIff(s, events[last]); } else { BranchesStay(s, events[last]); }
    }
  }

  // ---------------------------------------------------------------------------
  // Where a second one comes from
  // ---------------------------------------------------------------------------

  // No job starts while another one for the same parent is running.
  ghost predicate NeverOverlaps(s: State, events: seq<Event>)
    requires Run(s, events).Some?
    decreases |events|
  {
    events != [] ==>
      var last, t := |events| - 1, Run(s, events[..|events| - 1]).value;
      NeverOverlaps(s, events[..last]) && (events[last].Deliver? ==> !InFlight(t.workers, events[last].parent))
  }

  predicate Apart(workers: seq<Pc>) {
    forall v, w :: 0 <= v < w < |workers| && !workers[v].Finished? && !workers[w].Finished? ==> workers[v].parent != workers[w].parent
  }

  // Nobody past the children check has a link to find.
  predicate ClearInv(s: State) {
    forall w :: 0 <= w < |s.workers| && s.workers[w].Clear? ==> !HasLink(s.studies, s.workers[w].parent)
  }

  lemma WorkersMove(s: State, e: Event)
    requires Step(s, e).Some? && !e.Deliver?
    ensures var t := Step(s, e).value;
            && |t.workers| == |s.workers|
            && (forall w :: 0 <= w < |s.workers| && !t.workers[w].Finished? ==>
                  !s.workers[w].Finished? && t.workers[w].parent == s.workers[w].parent)
            && (forall w :: 0 <= w < |s.workers| && t.workers[w].Clear? ==>
                  s.workers[w].Clear? || !HasChild(s.studies, s.workers[w].parent))
            && (e.Insert? ==> e.w < |s.workers| && t.workers[e.w].Finished? && !s.workers[e.w].Finished?)
  {
    hide ChildOf;
  }

  lemma NewWorker(s: State, i: nat)
    requires Apart(s.workers) && !InFlight(s.workers, i) && Step(s, Deliver(i)).Some?
    ensures Apart(Step(s, Deliver(i)).value.workers)
  {
    forall v | 0 <= v < |s.workers| && !s.workers[v].Finished? ensures s.workers[v].parent != i {}
  }

  lemma StepKeepsApart(s: State, e: Event)
    requires Apart(s.workers) && Step(s, e).Some? && (e.Deliver? ==> !InFlight(s.workers, e.parent))
    ensures Apart(Step(s, e).value.workers)
  {
    if e.Deliver? {
      NewWorker(s, e.parent);
    } else {
      WorkersMove(s, e);
      hide Step;
    }
  }

  // A link that appears is the child of the worker that inserts.
  lemma LinkAppears(s: State, e: Event, i: nat)
    requires Step(s, e).Some? && !HasLink(s.studies, i) && HasLink(Step(s, e).value.studies, i)
    ensures e.Insert? && e.w < |s.workers| && s.workers[e.w].Clear? && s.workers[e.w].parent == i && DepthAllows(s.workers[e.w].seen)
  {
    StepLinks(s, e);
    var t := Step(s, e).value;
    hide Step;
    var k :| 0 <= k < |t.studies| && IsLink(t.studies[k], i);
    assert k < |s.studies| ==> IsLink(s.studies[k], i);
  }

  lemma LinkIsChild(studies: seq<Study>, i: nat)
    ensures HasLink(studies, i) ==> HasChild(studies, i)
  {
    if HasLink(studies, i) {
      var k :| 0 <= k < |studies| && IsLink(studies[k], i);
      assert studies[k].parent == Some(i);
    }
  }

  lemma StepKeepsClear(s: State, e: Event)
    requires Apart(s.workers) && ClearInv(s) && Step(s, e).Some?
    ensures ClearInv(Step(s, e).value)
  {
    var t := Step(s, e).value;
    if e.Deliver? {
      assert forall w :: 0 <= w < |t.workers| && t.workers[w].Clear? ==> w < |s.workers| && t.workers[w] == s.workers[w];
    } else {
      WorkersMove(s, e);
      forall w | 0 <= w < |t.workers| && t.workers[w].Clear? ensures !HasLink(t.studies, t.workers[w].parent) {
        LinkIsChild(s.studies, s.workers[w].parent);
        if HasLink(t.studies, t.workers[w].parent) { LinkAppears(s, e, t.workers[w].parent); }
        hide Step, HasLink, HasChild;
      }
    }
  }

  lemma ClearDoesNotBranch(s: State, e: Event)
    requires ClearInv(s)
    ensures !Branches(s, e)
  {
  }

  // If the queue never runs two jobs of one parent at a time, nothing branches.
  lemma {:induction false} ApartRunsDoNotBranch(events: seq<Event>)
    requires Run(INIT, events).Some? && NeverOverlaps(INIT, events)
    ensures Apart(Run(INIT, events).value.workers) && ClearInv(Run(INIT, events).value)
    ensures NeverBranches(INIT, events) && OneLinkEach(Run(INIT, events).value.studies)
    decreases |events|
  {
    hide Step, Apart, ClearInv, Branches, OneLinkEach, InFlight;
    if events != [] {
      var last := |events| - 1;
      var s := Run(INIT, events[..last]).value;
      ApartRunsDoNotBranch(events[..last]);
      StepKeepsApart(s, events[last]);
      StepKeepsClear(s, events[last]);
      ClearDoesNotBranch(s, events[last]);
    } else {
      NobodyYet();
    }
    OneChildIff(events);
  }

  lemma NobodyYet()
    ensures Apart(INIT.workers) && ClearInv(INIT)
  {
  }

  // One posted study and two workers for it.
  function Twins(children: seq<Study>, first: Pc, second: Pc): State { State([ROOT] + children, [first, second]) }

  const ROOT := Posted(None, "", map[], Some(2), false, map[])

  lemma TwinSteps()
    ensures Step(INIT, Anchor("", map[], Some(2), false, map[])) == Some(State([ROOT], []))
    ensures Step(State([ROOT], []), Deliver(0)) == Some(State([ROOT], [Started(0)]))
    ensures Step(State([ROOT], [Started(0)]), Deliver(0)) == Some(Twins([], Started(0), Started(0)))
    ensures Step(Twins([], Started(0), Started(0)), Load(0)) == Some(Twins([], Loaded(0, ROOT), Started(0)))
    ensures Step(Twins([], Loaded(0, ROOT), Started(0)), Load(1)) == Some(Twins([], Loaded(0, ROOT), Loaded(0, ROOT)))
  {
    assert [] + [ROOT] == [ROOT] && [ROOT] + [] == [ROOT];
    assert [] + [Started(0)] == [Started(0)] && [Started(0)] + [Started(0)] == [Started(0), Started(0)];
    assert [Started(0), Started(0)][0 := Loaded(0, ROOT)] == [Loaded(0, ROOT), Started(0)];
    assert [Loaded(0, ROOT), Started(0)][1 := Loaded(0, ROOT)] == [Loaded(0, ROOT), Loaded(0, ROOT)];
  }

  lemma TwinChecks()
    ensures Step(Twins([], Loaded(0, ROOT), Loaded(0, ROOT)), Check(0, true)) == Some(Twins([], Clear(0, ROOT), Loaded(0, ROOT)))
    ensures Step(Twins([], Clear(0, ROOT), Loaded(0, ROOT)), Check(1, true)) == Some(Twins([], Clear(0, ROOT), Clear(0, ROOT)))
  {
    assert [ROOT] + [] == [ROOT];
    assert !HasChild([ROOT], 0);
    assert [Loaded(0, ROOT), Loaded(0, ROOT)][0 := Clear(0, ROOT)] == [Clear(0, ROOT), Loaded(0, ROOT)];
    assert [Clear(0, ROOT), Loaded(0, ROOT)][1 := Clear(0, ROOT)] == [Clear(0, ROOT), Clear(0, ROOT)];
  }

  lemma TwinInserts()
    ensures var c := ChildOf(0, ROOT, QUIET);
            && Step(Twins([], Clear(0, ROOT), Clear(0, ROOT)), Insert(0, QUIET)) == Some(Twins([c], Finished, Clear(0, ROOT)))
            && Step(Twins([c], Finished, Clear(0, ROOT)), Insert(1, QUIET)) == Some(Twins([c, c], Finished, Finished))
  {
    hide ChildOf;
    var c := ChildOf(0, ROOT, QUIET);
    assert [ROOT] + [] + [c] == [ROOT] + [c] && [ROOT] + [c] + [c] == [ROOT] + [c, c];
    assert [Clear(0, ROOT), Clear(0, ROOT)][0 := Finished] == [Finished, Clear(0, ROOT)];
    assert [Finished, Clear(0, ROOT)][1 := Finished] == [Finished, Finished];
  }

  // Two deliveries at once do branch: the check and the INSERT hold no lock.
  lemma TwinsBranch() returns (events: seq<Event>)
    ensures Run(INIT, events).Some? && !OneLinkEach(Run(INIT, events).value.studies)
  {
    var c := ChildOf(0, ROOT, QUIET);
    TwinSteps();
    TwinChecks();
    TwinInserts();
    assert Run(INIT, []) == Some(INIT);
    assert c.auto && Twins([c, c], Finished, Finished).studies[1] == c && Twins([c, c], Finished, Finished).studies[2] == c;
    hide Step, Run, Twins;
    events := RunSnoc(INIT, [], INIT, Anchor("", map[], Some(2), false, map[]), State([ROOT], []));
    events := RunSnoc(INIT, events, State([ROOT], []), Deliver(0), State([ROOT], [Started(0)]));
    events := RunSnoc(INIT, events, State([ROOT], [Started(0)]), Deliver(0), Twins([], Started(0), Started(0)));
    events := RunSnoc(INIT, events, Twins([], Started(0), Started(0)), Load(0), Twins([], Loaded(0, ROOT), Started(0)));
    events := RunSnoc(INIT, events, Twins([], Loaded(0, ROOT), Started(0)), Load(1), Twins([], Loaded(0, ROOT), Loaded(0, ROOT)));
    events := RunSnoc(INIT, events, Twins([], Loaded(0, ROOT), Loaded(0, ROOT)), Check(0, true), Twins([], Clear(0, ROOT), Loaded(0, ROOT)));
    events := RunSnoc(INIT, events, Twins([], Clear(0, ROOT), Loaded(0, ROOT)), Check(1, true), Twins([], Clear(0, ROOT), Clear(0, ROOT)));
    events := RunSnoc(INIT, events, Twins([], Clear(0, ROOT), Clear(0, ROOT)), Insert(0, QUIET), Twins([c], Finished, Clear(0, ROOT)));
    events := RunSnoc(INIT, events, Twins([c], Finished, Clear(0, ROOT)), Insert(1, QUIET), Twins([c, c], Finished, Finished));
  }

  // ---------------------------------------------------------------------------
  // How many follow-ups a study has in all
  // ---------------------------------------------------------------------------

  // Without branching there is at most one study per level, so a chain from an anchor of
  // depth d >= 0 has at most d descendants in all.
  lemma {:induction false} OneStudyPerLevel(studies: seq<Study>, j: nat, k: nat)
    requires AllDescend(studies) && OneLinkEach(studies) && j < |studies| && k < |studies|
    requires AnchorOf(studies, j) == AnchorOf(studies, k) && Level(studies, j) == Level(studies, k)
    ensures j == k
    decreases j
  {
    assert StudyInv(studies, j) && StudyInv(studies, k);
    hide AllDescend;
    if Level(studies, j) == 0 {
      DepthCountsDown(studies, j);
      DepthCountsDown(studies, k);
    } else {
      assert studies[j].auto && studies[k].auto;
      var p, q := studies[j].parent.value, studies[k].parent.value;
      assert Path(studies, j) == Path(studies, p) + [j] && Path(studies, k) == Path(studies, q) + [k];
      OneStudyPerLevel(studies, p, q);
    }
  }

  function Descendants(studies: seq<Study>, a: nat, levels: nat): set<nat> {
    set k: nat | 0 <= k < |studies| && AnchorOf(studies, k) == a && 1 <= Level(studies, k) <= levels
  }

  lemma {:induction false} DescendantsAreFew(studies: seq<Study>, a: nat, levels: nat)
    requires AllDescend(studies) && OneLinkEach(studies)
    ensures |Descendants(studies, a, levels)| <= levels
    decreases levels
  {
    hide AllDescend, OneLinkEach, AnchorOf, Level;
    if levels > 0 {
      DescendantsAreFew(studies, a, levels - 1);
      var fewer, all := Descendants(studies, a, levels - 1), Descendants(studies, a, levels);
      if k :| k in all && Level(studies, k) == levels {
        forall j | j in all ensures j in fewer + {k} {
          if Level(studies, j) == levels { OneStudyPerLevel(studies, j, k); }
        }
        assert all == fewer + {k};
      } else {
        assert all == fewer;
      }
    } else {
      assert Descendants(studies, a, levels) == {};
    }
  }

  // A study posted with depth d >= 0 has at most d follow-ups in all, in every run that does
  // not branch, and clones do not count.
  lemma AtMostDepthDescendants(events: seq<Event>, a: nat)
    requires Run(INIT, events).Some? && NeverBranches(INIT, events)
    requires var studies := Run(INIT, events).value.studies;
             a < |studies| && studies[a].born.Some? && studies[a].born.value >= 0
    ensures var studies := Run(INIT, events).value.studies;
            |set k: nat | 0 <= k < |studies| && k != a && AnchorOf(studies, k) == a| <= studies[a].born.value
  {
    var studies := Run(INIT, events).value.studies;
    var d := studies[a].born.value;
    OneChildIff(events);
    ReachableInv(events);
    DescendantsAreFew(studies, a, d);
    forall k: nat | 0 <= k < |studies| && k != a && AnchorOf(studies, k) == a ensures 1 <= Level(studies, k) <= d {
      DepthCountsDown(studies, k);
    }
    forall k: nat | 0 <= k < |studies| && AnchorOf(studies, k) == a && Level(studies, k) >= 1 ensures k != a {
      AnchorHasLevelZero(studies, k);
    }
    hide AnchorOf, Level;
    assert (set k: nat | 0 <= k < |studies| && k != a && AnchorOf(studies, k) == a) == Descendants(studies, a, d);
  }

  lemma {:induction false} AnchorHasLevelZero(studies: seq<Study>, k: nat)
    requires k < |studies| && Level(studies, k) >= 1
    ensures AnchorOf(studies, k) < k
    decreases k
  {
    var p := studies[k].parent.value;
    assert Path(studies, k) == Path(studies, p) + [k];
  }

  // ---------------------------------------------------------------------------
  // Whether a study can still be followed up
  // ---------------------------------------------------------------------------

  // A worker is past its check, or has read a counter that allows it and will find no child;
  // or one that starts now would.
  predicate CanBeFollowed(s: State, i: nat)
    requires i < |s.studies|
  {
    || (exists w :: 0 <= w < |s.workers| && s.workers[w].Clear? && s.workers[w].parent == i)
    || (!HasChild(s.studies, i) && (DepthAllows(s.studies[i]) || ReadAllows(s, i)))
  }

  predicate ReadAllows(s: State, i: nat) {
    exists w :: 0 <= w < |s.workers| && s.workers[w].Loaded? && s.workers[w].parent == i && DepthAllows(s.workers[w].seen)
  }

  // How many follow-ups of study i there are.
  function Links(studies: seq<Study>, i: nat): nat {
    if studies == [] then 0 else Links(studies[..|studies| - 1], i) + if IsLink(studies[|studies| - 1], i) then 1 else 0
  }

  lemma LinksAppend(studies: seq<Study>, c: Study, i: nat)
    ensures Links(studies + [c], i) == Links(studies, i) + if IsLink(c, i) then 1 else 0
  {
    assert (studies + [c])[..|studies|] == studies;
  }

  lemma {:induction false} LinksUpdate(studies: seq<Study>, k: nat, c: Study, i: nat)
    requires k < |studies| && IsLink(c, i) == IsLink(studies[k], i)
    ensures Links(studies[k := c], i) == Links(studies, i)
  {
    var last := |studies| - 1;
    if k < last {
      LinksUpdate(studies[..last], k, c, i);
      assert studies[k := c][..last] == studies[..last][k := c];
    } else {
      assert studies[k := c][..last] == studies[..last];
    }
  }

  lemma HasChildGrows(s: State, e: Event, i: nat)
    requires Step(s, e).Some? && HasChild(s.studies, i)
    ensures HasChild(Step(s, e).value.studies, i)
  {
    StepLinks(s, e);
    var k :| 0 <= k < |s.studies| && s.studies[k].parent == Some(i);
    assert Step(s, e).value.studies[k].parent == Some(i);
  }

  lemma CountersOnlyStop(s: State, e: Event, i: nat)
    requires Step(s, e).Some? && i < |s.studies| && !DepthAllows(s.studies[i])
    ensures i < |Step(s, e).value.studies| && !DepthAllows(Step(s, e).value.studies[i])
  {
    hide ChildOf, HasChild;
  }

  // Where a worker for i that could insert comes from.
  lemma WorkersFor(s: State, e: Event, i: nat, w: nat)
    requires Step(s, e).Some? && i < |s.studies| && w < |Step(s, e).value.workers|
    requires var pc := Step(s, e).value.workers[w];
             pc.Clear? || (pc.Loaded? && DepthAllows(pc.seen))
    requires Step(s, e).value.workers[w].parent == i
    ensures var pc := Step(s, e).value.workers[w];
            && (pc.Clear? ==> w < |s.workers| && (s.workers[w] == pc || (!HasChild(s.studies, i) && s.workers[w] == Loaded(i, pc.seen) && DepthAllows(pc.seen))))
            && (pc.Loaded? ==> (w < |s.workers| && s.workers[w] == pc) || DepthAllows(s.studies[i]))
  {
    hide ChildOf, HasChild;
  }

  lemma ClosedStaysClosed(s: State, e: Event, i: nat)
    requires Step(s, e).Some? && i < |s.studies| && !CanBeFollowed(s, i)
    ensures i < |Step(s, e).value.studies| && !CanBeFollowed(Step(s, e).value, i)
  {
    var t := Step(s, e).value;
    StepLinks(s, e);
    if HasChild(s.studies, i) { HasChildGrows(s, e, i); }
    if !DepthAllows(s.studies[i]) { CountersOnlyStop(s, e, i); }
    forall w | 0 <= w < |t.workers| && (t.workers[w].Clear? || (t.workers[w].Loaded? && DepthAllows(t.workers[w].seen)))
               && t.workers[w].parent == i
      ensures t.workers[w].Loaded? && HasChild(s.studies, i)
    {
      WorkersFor(s, e, i, w);
    }
    hide Step, HasChild;
  }

  lemma ClosedAddsNone(s: State, e: Event, i: nat)
    requires Step(s, e).Some? && i < |s.studies| && !CanBeFollowed(s, i)
    ensures Links(Step(s, e).value.studies, i) == Links(s.studies, i)
  {
    var t := Step(s, e).value;
    StepLinks(s, e);
    if |t.studies| > |s.studies| {
      AddedOne(s, e);
      LinksAppend(s.studies, t.studies[|s.studies|], i);
    } else if e.StopChain? {
      LinksUpdate(s.studies, e.i, Stopped(s.studies[e.i]), i);
    }
    hide Links;
  }

  lemma AddedOne(s: State, e: Event)
    requires Step(s, e).Some? && |Step(s, e).value.studies| > |s.studies|
    ensures Step(s, e).value.studies == s.studies + [Step(s, e).value.studies[|s.studies|]]
  {
    hide ChildOf, HasChild;
  }

  lemma {:induction false} ClosedForGood(s: State, events: seq<Event>, i: nat)
    requires Run(s, events).Some? && i < |s.studies| && !CanBeFollowed(s, i)
    ensures var t := Run(s, events).value;
            i < |t.studies| && !CanBeFollowed(t, i) && Links(t.studies, i) == Links(s.studies, i)
    decreases |events|
  {
    hide Step, CanBeFollowed, Links;
    if events != [] {
      var last := |events| - 1;
      ClosedForGood(s, events[..last], i);
      ClosedStaysClosed(Run(s, events[..last]).value, events[last], i);
      ClosedAddsNone(Run(s, events[..last]).value, events[last], i);
    }
  }

  // A worker past its check inserts whatever has happened since.
  lemma InsertAdds(s: State, w: nat, i: nat)
    requires Inv(s) && w < |s.workers| && s.workers[w].Clear? && s.workers[w].parent == i
    ensures Step(s, Insert(w, QUIET)).Some?
    ensures Links(Step(s, Insert(w, QUIET)).value.studies, i) == Links(s.studies, i) + 1
  {
    assert WorkerInv(s, w);
    LinksAppend(s.studies, ChildOf(i, s.workers[w].seen, QUIET), i);
    hide Links;
  }

  lemma OneStepRun(s: State, e: Event) returns (events: seq<Event>)
    requires Step(s, e).Some?
    ensures Run(s, events) == Step(s, e)
  {
    assert Run(s, []) == Some(s);
    hide Step;
    events := RunSnoc(s, [], s, e, Step(s, e).value);
  }

  lemma OpenLeadsToLink(s: State, i: nat) returns (events: seq<Event>)
    requires Inv(s) && i < |s.studies| && CanBeFollowed(s, i)
    ensures Run(s, events).Some? && Links(Run(s, events).value.studies, i) == Links(s.studies, i) + 1
  {
    if w :| 0 <= w < |s.workers| && s.workers[w].Clear? && s.workers[w].parent == i {
      InsertAdds(s, w, i);
      events := OneStepRun(s, Insert(w, QUIET));
    } else if DepthAllows(s.studies[i]) {
      assert Run(s, []) == Some(s);
      var t;
      events, t := OneMoreLink(s, [], s, i, QUIET);
      LinksAppend(s.studies, ChildOf(i, s.studies[i], QUIET), i);
    } else {
      var w :| 0 <= w < |s.workers| && s.workers[w].Loaded? && s.workers[w].parent == i && DepthAllows(s.workers[w].seen);
      events := LoadedLeadsToLink(s, w, i);
    }
  }

  lemma LoadedLeadsToLink(s: State, w: nat, i: nat) returns (events: seq<Event>)
    requires Inv(s) && w < |s.workers| && s.workers[w].Loaded? && s.workers[w].parent == i && DepthAllows(s.workers[w].seen)
    requires !HasChild(s.studies, i)
    ensures Run(s, events).Some? && Links(Run(s, events).value.studies, i) == Links(s.studies, i) + 1
  {
    var e := Check(w, true);
    var t := Step(s, e).value;
    StepKeepsInv(s, e);
    events := OneStepRun(s, e);
    InsertAdds(t, w, i);
    hide Step;
    events := RunSnoc(s, events, t, Insert(w, QUIET), Step(t, Insert(w, QUIET)).value);
  }

  // In any reachable state: study i can get one more follow-up, in some continuation, exactly
  // if somebody is past the check, or i has no child and an allowing counter is left, in the
  // table or in what a worker has read.
  lemma FollowUpStillPossibleIff(s: State, i: nat)
    requires Inv(s) && i < |s.studies|
    ensures (exists events :: Run(s, events).Some? && Links(Run(s, events).value.studies, i) > Links(s.studies, i)) <==>
            CanBeFollowed(s, i)
  {
    if CanBeFollowed(s, i) {
      var events := OpenLeadsToLink(s, i);
    } else {
      forall events | Run(s, events).Some? ensures Links(Run(s, events).value.studies, i) == Links(s.studies, i) {
        ClosedForGood(s, events, i);
      }
    }
  }

  // Stopping a chain at a study with a positive counter keeps it from being followed up,
  // exactly if no worker has already read the old counter on its way.
  lemma StopChainHoldsIff(s: State, i: nat)
    requires Inv(s) && i < |s.studies| && s.studies[i].config.depth.Some? && s.studies[i].config.depth.value > 0
    ensures Step(s, StopChain(i)).Some? && i < |Step(s, StopChain(i)).value.studies|
    ensures CanBeFollowed(Step(s, StopChain(i)).value, i) <==>
            || (exists w :: 0 <= w < |s.workers| && s.workers[w].Clear? && s.workers[w].parent == i)
            || (!HasChild(s.studies, i) && ReadAllows(s, i))
  {
    var t := Step(s, StopChain(i)).value;
    assert forall k :: 0 <= k < |s.studies| ==> t.studies[k].parent == s.studies[k].parent;
    assert HasChild(t.studies, i) <==> HasChild(s.studies, i) by {
      if HasChild(s.studies, i) { HasChildGrows(s, StopChain(i), i); }
    }
    assert t.workers == s.workers && !DepthAllows(t.studies[i]);
    hide HasChild;
  }

  // Cloning a study takes its follow-up away: the worker finds a child. Only one past its
  // check still inserts.
  lemma CloneSuppressesIff(s: State, e: Event)
    requires Inv(s) && e.Clone? && Step(s, e).Some?
    ensures e.of < |Step(s, e).value.studies|
    ensures CanBeFollowed(Step(s, e).value, e.of) <==>
            exists w :: 0 <= w < |s.workers| && s.workers[w].Clear? && s.workers[w].parent == e.of
  {
    var t := Step(s, e).value;
    assert t.studies[|s.studies|].parent == Some(e.of);
    assert HasChild(t.studies, e.of) && t.workers == s.workers;
    hide HasChild;
  }
}
