// How far a chain of follow-ups goes and which templates it uses, for every run of any number
// of workers, with operators cloning studies and stopping chains meanwhile.
module FollowupTheorems {
  import opened Common
  import opened FollowupChain

  lemma ReachableInv(events: seq<Event>)
    requires Run(INIT, events).Some?
    ensures Inv(Run(INIT, events).value)
  {
    RunKeepsInv(INIT, events);
  }

  // ---------------------------------------------------------------------------
  // Length
  // ---------------------------------------------------------------------------

  // From the study an operator posted down to study k, along the follow-up worker's links.
  function Path(studies: seq<Study>, k: nat): (path: seq<nat>)
    requires k < |studies|
    ensures path != [] && path[|path| - 1] == k
    ensures forall i :: 0 <= i < |path| ==> path[i] <= k
    decreases k
  {
    var c := studies[k];
    if !c.auto || c.parent.None? || c.parent.value >= k then [k] else Path(studies, c.parent.value) + [k]
  }

  function AnchorOf(studies: seq<Study>, k: nat): nat
    requires k < |studies|
  {
    Path(studies, k)[0]
  }

  // How many links study k is below its anchor.
  function Level(studies: seq<Study>, k: nat): nat
    requires k < |studies|
  {
    |Path(studies, k)| - 1
  }

  predicate AllDescend(studies: seq<Study>) {
    forall k :: 0 <= k < |studies| ==> StudyInv(studies, k)
  }

  // A descendant is born with the anchor's counter minus its level, and never passed zero.
  lemma {:induction false} DepthCountsDown(studies: seq<Study>, k: nat)
    requires AllDescend(studies) && k < |studies|
    ensures var anchor := studies[AnchorOf(studies, k)];
            && (Level(studies, k) > 0 ==>
                  && anchor.born.Some?
                  && studies[k].born == Some(anchor.born.value - Level(studies, k))
                  && (anchor.born.value >= 0 ==> Level(studies, k) <= anchor.born.value))
            && (Level(studies, k) == 0 ==> AnchorOf(studies, k) == k)
    decreases k
  {
    assert StudyInv(studies, k);
    hide AllDescend;
    if studies[k].auto {
      var i := studies[k].parent.value;
      DepthCountsDown(studies, i);
      assert Path(studies, k) == Path(studies, i) + [k];
    }
  }

  // Every chain from a study posted with depth d >= 0 is at most d links long, whatever is
  // cloned or stopped meanwhile.
  lemma ChainsAreBounded(events: seq<Event>, k: nat)
    requires Run(INIT, events).Some?
    requires k < |Run(INIT, events).value.studies|
    ensures var studies := Run(INIT, events).value.studies;
            var depth := studies[AnchorOf(studies, k)].born;
            && !studies[AnchorOf(studies, k)].auto
            && (depth.None? ==> Level(studies, k) == 0) && (depth.Some? && depth.value >= 0 ==> Level(studies, k) <= depth.value)
  {
    ReachableInv(events);
    DepthCountsDown(Run(INIT, events).value.studies, k);
    AnchorIsPosted(Run(INIT, events).value.studies, k);
  }

  lemma {:induction false} AnchorIsPosted(studies: seq<Study>, k: nat)
    requires AllDescend(studies) && k < |studies|
    ensures !studies[AnchorOf(studies, k)].auto
    decreases k
  {
    assert StudyInv(studies, k);
    hide AllDescend;
    if studies[k].auto {
      AnchorIsPosted(studies, studies[k].parent.value);
      assert Path(studies, k) == Path(studies, studies[k].parent.value) + [k];
    }
  }

  // ---------------------------------------------------------------------------
  // Which depths bound a chain
  // ---------------------------------------------------------------------------

  const QUIET := Findings(None, false, false, false, map[])

  predicate Idle(s: State) { forall w :: 0 <= w < |s.workers| ==> s.workers[w].Finished? }

  // A study without children whose counter is not zero gets one.
  lemma LinkSteps(s: State, i: nat, f: Findings)
    requires i < |s.studies| && DepthAllows(s.studies[i]) && !HasChild(s.studies, i)
    ensures var w, p := |s.workers|, s.studies[i];
            var s1 := s.(workers := s.workers + [Started(i)]);
            var s2 := s.(workers := s.workers + [Loaded(i, p)]);
            var s3 := s.(workers := s.workers + [Clear(i, p)]);
            && Step(s, Deliver(i)) == Some(s1) && Step(s1, Load(w)) == Some(s2) && Step(s2, Check(w, true)) == Some(s3)
            && Step(s3, Insert(w, f)) == Some(State(s.studies + [ChildOf(i, p, f)], s.workers + [Finished]))
  {
    hide HasChild, ChildOf;
    var w, p := |s.workers|, s.studies[i];
    assert (s.workers + [Started(i)])[w := Loaded(i, p)] == s.workers + [Loaded(i, p)];
    assert (s.workers + [Loaded(i, p)])[w := Clear(i, p)] == s.workers + [Clear(i, p)];
    assert (s.workers + [Clear(i, p)])[w := Finished] == s.workers + [Finished];
  }

  lemma OneMoreLink(start: State, events: seq<Event>, s: State, i: nat, f: Findings) returns (more: seq<Event>, t: State)
    requires Run(start, events) == Some(s) && Inv(s) && i < |s.studies|
    requires DepthAllows(s.studies[i]) && !HasChild(s.studies, i)
    ensures Run(start, more) == Some(t) && Inv(t)
    ensures t == State(s.studies + [ChildOf(i, s.studies[i], f)], s.workers + [Finished])
  {
    var w, p := |s.workers|, s.studies[i];
    var s1 := s.(workers := s.workers + [Started(i)]);
    var s2 := s.(workers := s.workers + [Loaded(i, p)]);
    var s3 := s.(workers := s.workers + [Clear(i, p)]);
    t := State(s.studies + [ChildOf(i, p, f)], s.workers + [Finished]);
    LinkSteps(s, i, f);
    StepKeepsInv(s, Deliver(i));
    StepKeepsInv(s1, Load(w));
    StepKeepsInv(s2, Check(w, true));
    StepKeepsInv(s3, Insert(w, f));
    hide Step, Inv, ChildOf, HasChild;
    more := RunSnoc(start, events, s, Deliver(i), s1);
    more := RunSnoc(start, more, s1, Load(w), s2);
    more := RunSnoc(start, more, s2, Check(w, true), s3);
    more := RunSnoc(start, more, s3, Insert(w, f), t);
  }

  // One chain, its last study n links below an anchor of depth d.
  predicate LongChain(s: State, d: int, n: nat) {
    && |s.studies| == n + 1 && !s.studies[0].auto && s.studies[0].parent.None? && s.studies[0].born == Some(d)
    && (forall k :: 1 <= k <= n ==> s.studies[k].auto && s.studies[k].parent == Some(k - 1))
    && s.studies[n].config.depth == Some(d - n)
  }

  lemma {:induction false} LongChainLevel(studies: seq<Study>, n: nat)
    requires n < |studies| && !studies[0].auto && forall k :: 1 <= k <= n ==> studies[k].auto && studies[k].parent == Some(k - 1)
    ensures Level(studies, n) == n && AnchorOf(studies, n) == 0
    decreases n
  {
    if n > 0 { LongChainLevel(studies, n - 1); }
  }

  lemma LastHasNoChild(s: State, d: int, n: nat)
    requires LongChain(s, d, n)
    ensures !HasChild(s.studies, n)
  {
    forall k | 0 <= k < |s.studies| ensures s.studies[k].parent != Some(n) {
      if k > 0 { assert s.studies[k].parent == Some(k - 1); }
    }
  }

  lemma JustAnchor(d: int, template: string, follow: bool) returns (events: seq<Event>, s: State)
    ensures Run(INIT, events) == Some(s) && Inv(s) && LongChain(s, d, 0)
    ensures s.studies[0].template == template && s.studies[0].config.follow == follow
  {
    var e := Anchor(template, map[], Some(d), follow, map[]);
    s := State([Posted(None, template, map[], Some(d), follow, map[])], []);
    assert [] + s.studies == s.studies;
    assert Run(INIT, []) == Some(INIT);
    events := RunSnoc(INIT, [], INIT, e, s);
    ReachableInv(events);
  }

  lemma LinkKeepsLongChain(s: State, t: State, d: int, n: nat)
    requires LongChain(s, d, n) && n + 1 < |t.studies|
    requires t.studies == s.studies + [t.studies[n + 1]]
    requires t.studies[n + 1].auto && t.studies[n + 1].parent == Some(n) && t.studies[n + 1].config.depth == Some(d - n - 1)
    ensures LongChain(t, d, n + 1)
  {
  }

  // Down to zero, every length is reached; a negative counter never gets there.
  lemma {:induction false} LongChainExists(d: int, n: nat) returns (events: seq<Event>, s: State)
    requires d < 0 || n <= d
    ensures Run(INIT, events) == Some(s) && Inv(s) && LongChain(s, d, n)
    decreases n
  {
    if n == 0 {
      events, s := JustAnchor(d, "", false);
    } else {
      var before, t := LongChainExists(d, n - 1);
      hide Inv, LongChain, Run;
      events, s := LongChainGrows(d, n - 1, before, t);
    }
  }

  lemma LongChainGrows(d: int, n: nat, before: seq<Event>, t: State) returns (events: seq<Event>, s: State)
    requires d < 0 || n < d
    requires Run(INIT, before) == Some(t) && Inv(t) && LongChain(t, d, n)
    ensures Run(INIT, events) == Some(s) && Inv(s) && LongChain(s, d, n + 1)
  {
    LastHasNoChild(t, d, n);
    hide Inv, HasChild, Run, Step;
    events, s := OneMoreLink(INIT, before, t, n, QUIET);
    LinkKeepsLongChain(t, s, d, n);
  }

  // Some run has a study `level` links below an anchor of depth d.
  ghost predicate Reaches(d: int, level: nat) {
    exists events, k: nat ::
      Run(INIT, events).Some? && k < |Run(INIT, events).value.studies| &&
      Below(Run(INIT, events).value.studies, k, d, level)
  }

  predicate Below(studies: seq<Study>, k: nat, d: int, level: nat)
    requires k < |studies|
  {
    Level(studies, k) == level && studies[AnchorOf(studies, k)].born == Some(d)
  }

  // A chain from an anchor of depth d can get exactly as deep as d, and without any bound if d
  // is negative: the gate stops at zero only.
  lemma ReachableLevels(d: int, level: nat)
    ensures Reaches(d, level) <==> d < 0 || level <= d
  {
    if d < 0 || level <= d {
      var events, s := LongChainExists(d, level);
      LongChainLevel(s.studies, level);
      assert Below(s.studies, level, d, level);
    }
    forall events, k: nat | Run(INIT, events).Some? && k < |Run(INIT, events).value.studies| &&
                            Below(Run(INIT, events).value.studies, k, d, level)
      ensures d < 0 || level <= d
    {
      ChainsAreBounded(events, k);
    }
  }

  // ---------------------------------------------------------------------------
  // Templates
  // ---------------------------------------------------------------------------

  // The templates along a chain.
  function Templates(studies: seq<Study>, path: seq<nat>): (r: seq<string>)
    requires forall i :: 0 <= i < |path| ==> path[i] < |studies|
    ensures |r| == |path| && forall i :: 0 <= i < |r| ==> r[i] == studies[path[i]].template
  {
    seq(|path|, i requires 0 <= i < |path| => studies[path[i]].template)
  }

  predicate Distinct(list: seq<string>) {
    forall i, j :: 0 <= i < j < |list| ==> list[i] != list[j]
  }

  lemma {:induction false} OrderedUniqueDistinct(list: seq<string>)
    ensures Distinct(OrderedUnique(list))
  {
    if list != [] { OrderedUniqueDistinct(list[..|list| - 1]); }
  }

  lemma {:induction false} OrderedUniqueIdempotent(list: seq<string>)
    ensures OrderedUnique(OrderedUnique(list)) == OrderedUnique(list)
  {
    if list != [] {
      var init, last := OrderedUnique(list[..|list| - 1]), list[|list| - 1];
      OrderedUniqueIdempotent(list[..|list| - 1]);
      if last !in init { assert (init + [last])[..|init|] == init; }
    }
  }

  lemma UniqueOfAppend(list: seq<string>, x: string)
    ensures OrderedUnique(OrderedUnique(list) + [x]) == OrderedUnique(list + [x])
  {
    OrderedUniqueIdempotent(list);
    assert (OrderedUnique(list) + [x])[..|OrderedUnique(list)|] == OrderedUnique(list);
    assert (list + [x])[..|list|] == list;
  }

  // A template once left does not come back.
  predicate NoReturn(list: seq<string>) {
    forall i, j, k :: 0 <= i < j < k < |list| && list[i] == list[k] ==> list[i] == list[j]
  }

  lemma NoReturnAppend(list: seq<string>, x: string)
    requires NoReturn(list) && list != [] && (x == list[|list| - 1] || x !in list)
    ensures NoReturn(list + [x])
  {
    var all := list + [x];
    forall i, j, k | 0 <= i < j < k < |all| && all[i] == all[k] ensures all[i] == all[j] {
      if k == |list| && j < |list| - 1 { assert list[i] == list[|list| - 1]; }
    }
  }

  // What a study's visited list says about the templates used down to it.
  predicate History(s: Study, used: seq<string>) {
    && used != [] && used[|used| - 1] == s.template
    && Visited(s) == OrderedUnique(used) && Distinct(Visited(s)) && NoReturn(used)
  }

  lemma AnchorHistory(s: Study)
    requires s.config.visited.None?
    ensures History(s, [s.template])
  {
    assert [s.template][..0] == [];
  }

  lemma ChildHistory(p: Study, c: Study, used: seq<string>)
    requires Descends(p, c) && p.config.follow && History(p, used)
    ensures History(c, used + [c.template])
  {
    UniqueOfAppend(used, c.template);
    OrderedUniqueDistinct(used + [c.template]);
    NoReturnAppend(used, c.template);
    hide NoReturn, OrderedUnique, Distinct;
  }

  // The templates used from the anchor down to study k.
  function Used(studies: seq<Study>, k: nat): seq<string>
    requires k < |studies|
  {
    Templates(studies, Path(studies, k))
  }

  lemma UsedBelow(studies: seq<Study>, i: nat, k: nat)
    requires i < k < |studies| && studies[k].auto && studies[k].parent == Some(i)
    ensures Used(studies, k) == Used(studies, i) + [studies[k].template]
  {
  }

  lemma UsedAtAnchor(studies: seq<Study>, k: nat)
    requires k < |studies| && !studies[k].auto
    ensures Used(studies, k) == [studies[k].template]
  {
  }

  // Under follow_suggestions the visited list is exactly the distinct templates used so far in
  // order, and no template is used again once the chain has left it.
  lemma {:induction false} VisitedIsTheHistory(studies: seq<Study>, k: nat)
    requires AllDescend(studies) && k < |studies| && studies[k].config.follow
    ensures History(studies[k], Used(studies, k))
    decreases k
  {
    assert StudyInv(studies, k);
    hide AllDescend, History, Used;
    if !studies[k].auto {
      AnchorHistory(studies[k]);
      UsedAtAnchor(studies, k);
    } else {
      var i := studies[k].parent.value;
      VisitedIsTheHistory(studies, i);
      ChildHistory(studies[i], studies[k], Used(studies, i));
      UsedBelow(studies, i, k);
    }
  }

  lemma FollowedChainsNeverReturn(events: seq<Event>, k: nat)
    requires Run(INIT, events).Some?
    requires k < |Run(INIT, events).value.studies| && Run(INIT, events).value.studies[k].config.follow
    ensures var studies := Run(INIT, events).value.studies;
            var used := Used(studies, k);
            Visited(studies[k]) == OrderedUnique(used) && Distinct(Visited(studies[k])) && NoReturn(used)
  {
    ReachableInv(events);
    VisitedIsTheHistory(Run(INIT, events).value.studies, k);
  }

  // Without it the whole chain stays on the anchor's template.
  lemma {:induction false} NarrowChainsKeepTheTemplate(studies: seq<Study>, k: nat)
    requires AllDescend(studies) && k < |studies| && !studies[k].config.follow
    ensures studies[k].template == studies[AnchorOf(studies, k)].template
    ensures studies[k].config.visited.None? && studies[k].config.kind.None?
    decreases k
  {
    assert StudyInv(studies, k);
    hide AllDescend;
    if studies[k].auto {
      var i := studies[k].parent.value;
      NarrowChainsKeepTheTemplate(studies, i);
      assert Path(studies, k) == Path(studies, i) + [k];
    }
  }
}
