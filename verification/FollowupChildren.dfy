// What a follow-up study takes from the suggestions of its parent's digest, and which template
// histories chains can have.
module FollowupChildren {
  import opened Common
  import opened FollowupChain
  import opened FollowupTheorems

  // A selection is the first executable item.
  lemma {:induction false} SelectionIsFirst(followups: seq<Followup>, visited: set<string>, s: Selection)
    requires IsSelection(followups, visited, s)
    ensures s.selected == FirstExecutable(followups, visited)
  {
    FirstExecutableAt(followups, visited, if s.sourceIndex.Some? then s.sourceIndex.value else |followups|);
  }

  lemma {:induction false} FirstExecutableAt(followups: seq<Followup>, visited: set<string>, k: nat)
    requires k <= |followups| && (k < |followups| ==> Executable(followups[k], visited))
    requires forall i :: 0 <= i < k ==> !Executable(followups[i], visited)
    ensures FirstExecutable(followups, visited) == if k < |followups| then Some(followups[k]) else None
  {
    if k > 0 { FirstExecutableAt(followups[1..], visited, k - 1); }
  }

  // What is selected when suggestions are asked for: the first executable one.
  predicate Selects(p: Study, f: Findings, s: Selection) {
    p.config.follow && !f.readRaises ==> IsSelection(Suggestions(f), AsSet(Visited(p)), s)
  }

  // A suggestion was selected and can be used: suggestions are asked for, nothing raised, and
  // the target of a swap exists.
  predicate Usable(p: Study, f: Findings, s: Selection) {
    && p.config.follow && !f.readRaises && s.selected.Some? && !s.selected.value.Text?
    && (s.selected.value.Swap? ==> !f.swapRaises && f.targetExists)
  }

  // A usable swap gives its template and its space, a narrow or widen its space on the parent's
  // template, all else the default narrowing there; the kind says which. Only a chain that
  // follows suggestions records kind and templates. One link less is left.
  ghost predicate Takes(i: nat, p: Study, f: Findings, s: Selection, c: Study) {
    && c.auto && c.parent == Some(i)
    && p.config.depth.Some? && c.config.depth == c.born == Some(p.config.depth.value - 1)
    && c.config.follow == p.config.follow && c.config.rest == p.config.rest
    && (if Usable(p, f, s) then
          && (s.selected.value.Swap? ==>
                c.template == s.selected.value.template && c.space == s.selected.value.space && c.config.kind == Some(KindSwap))
          && (s.selected.value.Narrow? ==>
                c.template == p.template && c.space == s.selected.value.space && c.config.kind == Some(KindNarrow))
          && (s.selected.value.Widen? ==>
                c.template == p.template && c.space == s.selected.value.space && c.config.kind == Some(KindWiden))
        else
          && c.template == p.template && c.space == f.narrowed
          && c.config.kind == if p.config.follow then Some(NarrowDefault) else None)
    && (!p.config.follow ==> c.config.visited == p.config.visited)
    && (p.config.follow ==>
          && c.config.visited.Some? && (forall t :: t in c.config.visited.value <==> t in Visited(p) || t == c.template)
          && (Distinct(Visited(p)) ==>
                c.config.visited.value == if c.template in Visited(p) then Visited(p) else Visited(p) + [c.template]))
  }

  lemma {:induction false} OrderedUniqueOfDistinct(list: seq<string>)
    requires Distinct(list)
    ensures OrderedUnique(list) == list
  {
    if list != [] {
      OrderedUniqueOfDistinct(list[..|list| - 1]);
      assert list == list[..|list| - 1] + [list[|list| - 1]];
    }
  }

  lemma UniqueOfOneMore(list: seq<string>, x: string)
    requires Distinct(list)
    ensures OrderedUnique(list + [x]) == if x in list then list else list + [x]
  {
    OrderedUniqueOfDistinct(list);
    assert (list + [x])[..|list|] == list;
  }

  // The child of the model takes exactly that.
  lemma ChildTakes(i: nat, p: Study, f: Findings, s: Selection)
    requires p.config.depth.Some? && Selects(p, f, s)
    ensures Takes(i, p, f, s, ChildOf(i, p, f))
  {
    var c := ChildOf(i, p, f);
    if p.config.follow && !f.readRaises { SelectionIsFirst(Suggestions(f), AsSet(Visited(p)), s); }
    if Distinct(Visited(p)) { UniqueOfOneMore(Visited(p), c.template); }
    hide IsSelection, FirstExecutable, OrderedUnique, AsSet, Distinct, Visited;
  }

  // ---------------------------------------------------------------------------
  // Which histories there are
  // ---------------------------------------------------------------------------

  // A digest that suggests nothing but a swap to x.
  function SwapTo(x: string): Findings { Findings(Some([Swap(x, map[])]), false, false, true, map[]) }

  lemma SwapIsTaken(i: nat, p: Study, x: string)
    requires p.config.depth.Some? && p.config.follow && x !in Visited(p)
    ensures ChildOf(i, p, SwapTo(x)).template == x
  {
    assert x !in AsSet(Visited(p));
    var s := Selection(Some(Swap(x, map[])), Some(0), 1, []);
    OneMore([], Swap(x, map[]), AsSet(Visited(p)));
    assert [] + [Swap(x, map[])] == [Swap(x, map[])];
    ChildTakes(i, p, SwapTo(x), s);
  }

  lemma QuietIsDefault(i: nat, p: Study)
    requires p.config.depth.Some?
    ensures ChildOf(i, p, QUIET).template == p.template
  {
    ChildTakes(i, p, QUIET, Selection(None, None, 0, []));
  }

  // One chain that follows suggestions and whose studies run the templates of `list`.
  predicate Carries(s: State, d: int, list: seq<string>) {
    && list != [] && LongChain(s, d, |list| - 1) && s.studies[|list| - 1].config.follow
    && forall k :: 0 <= k < |list| ==> s.studies[k].template == list[k]
  }

  lemma {:induction false} CarriedPath(s: State, d: int, n: nat, k: nat)
    requires LongChain(s, d, n) && k <= n
    ensures Path(s.studies, k) == seq(k + 1, i => i)
  {
    if k == 0 {
      assert Path(s.studies, 0) == [0];
    } else {
      CarriedPath(s, d, n, k - 1);
      assert s.studies[k].auto && s.studies[k].parent == Some(k - 1);
    }
  }

  lemma CarriedIsUsed(s: State, d: int, list: seq<string>)
    requires Carries(s, d, list)
    ensures Used(s.studies, |list| - 1) == list && AnchorOf(s.studies, |list| - 1) == 0
  {
    CarriedPath(s, d, |list| - 1, |list| - 1);
  }

  lemma NewIsAbsent(list: seq<string>, x: string)
    requires list != [] && NoReturn(list + [x]) && x != list[|list| - 1]
    ensures x !in list
  {
    var all := list + [x];
    forall i | 0 <= i < |list| ensures list[i] != x {
      assert all[i] == list[i] && all[|list| - 1] == list[|list| - 1] && all[|list|] == x;
    }
  }

  // What a new template is to a chain without return: not visited.
  lemma NewIsUnvisited(s: State, d: int, list: seq<string>, x: string)
    requires Inv(s) && Carries(s, d, list) && NoReturn(list + [x]) && x != list[|list| - 1]
    ensures x !in Visited(s.studies[|list| - 1])
  {
    NewIsAbsent(list, x);
    VisitedIsTheHistory(s.studies, |list| - 1);
    CarriedIsUsed(s, d, list);
    hide Used, Carries, NoReturn, Inv, OrderedUnique, Distinct, Visited;
    assert Visited(s.studies[|list| - 1]) == OrderedUnique(list);
  }

  lemma FindingsFor(s: State, d: int, list: seq<string>, x: string) returns (f: Findings)
    requires Inv(s) && Carries(s, d, list) && NoReturn(list + [x])
    ensures ChildOf(|list| - 1, s.studies[|list| - 1], f).template == x
  {
    var n, p := |list| - 1, s.studies[|list| - 1];
    if x == p.template {
      f := QUIET;
      QuietIsDefault(n, p);
    } else {
      f := SwapTo(x);
      NewIsUnvisited(s, d, list, x);
      hide Inv, NoReturn, ChildOf, Visited;
      SwapIsTaken(n, p, x);
    }
  }

  lemma CarriesMore(s: State, d: int, list: seq<string>, events: seq<Event>, x: string) returns (more: seq<Event>, t: State)
    requires Run(INIT, events) == Some(s) && Inv(s) && Carries(s, d, list) && NoReturn(list + [x]) && (d < 0 || |list| <= d)
    ensures Run(INIT, more) == Some(t) && Inv(t) && Carries(t, d, list + [x])
  {
    var n, p := |list| - 1, s.studies[|list| - 1];
    var f := FindingsFor(s, d, list, x);
    LastHasNoChild(s, d, n);
    ChildInherits(n, p, f);
    assert DepthAllows(p) && |s.studies| == |list| && p.config.follow && p.config.depth == Some(d - n);
    hide Inv, Step, Run, HasChild, ChildOf, NoReturn, LongChain, DepthAllows;
    hide Carries;
    more, t := OneMoreLink(INIT, events, s, n, f);
    CarriesSnoc(s, t, d, list, x, ChildOf(n, p, f));
  }

  lemma CarriesSnoc(s: State, t: State, d: int, list: seq<string>, x: string, c: Study)
    requires Carries(s, d, list) && t.studies == s.studies + [c]
    requires c.auto && c.parent == Some(|list| - 1) && c.config.depth == Some(d - |list|) && c.config.follow && c.template == x
    ensures Carries(t, d, list + [x])
  {
    LinkKeepsLongChain(s, t, d, |list| - 1);
    hide LongChain;
  }

  lemma ChildInherits(i: nat, p: Study, f: Findings)
    requires p.config.depth.Some?
    ensures var c := ChildOf(i, p, f);
            c.auto && c.parent == Some(i) && c.config.depth == Some(p.config.depth.value - 1) && c.config.follow == p.config.follow
  {
  }

  lemma {:induction false} CarriesExists(d: int, list: seq<string>) returns (events: seq<Event>, s: State)
    requires list != [] && NoReturn(list) && (d < 0 || |list| <= d + 1)
    ensures Run(INIT, events) == Some(s) && Inv(s) && Carries(s, d, list)
    decreases |list|
  {
    if |list| == 1 {
      events, s := JustAnchor(d, list[0], true);
    } else {
      var init, x := list[..|list| - 1], list[|list| - 1];
      assert list == init + [x];
      events, s := CarriesExists(d, init);
      hide Inv, Run, Carries, NoReturn;
      events, s := CarriesMore(s, d, init, events, x);
    }
  }

  // Some run has a chain from an anchor of depth d that follows suggestions through `list`.
  ghost predicate Occurs(d: int, list: seq<string>) {
    exists events, k: nat ::
      Run(INIT, events).Some? && k < |Run(INIT, events).value.studies| && Went(Run(INIT, events).value.studies, k, d, list)
  }

  predicate Went(studies: seq<Study>, k: nat, d: int, list: seq<string>)
    requires k < |studies|
  {
    studies[k].config.follow && studies[AnchorOf(studies, k)].born == Some(d) && Used(studies, k) == list
  }

  // The histories of chains that follow suggestions are exactly the lists of templates without
  // return that the depth leaves room for.
  lemma HistoriesIff(d: int, list: seq<string>)
    ensures Occurs(d, list) <==> list != [] && NoReturn(list) && (d < 0 || |list| <= d + 1)
  {
    if list != [] && NoReturn(list) && (d < 0 || |list| <= d + 1) {
      var events, s := CarriesExists(d, list);
      CarriedIsUsed(s, d, list);
      assert Went(s.studies, |list| - 1, d, list);
    }
    forall events, k: nat | Run(INIT, events).Some? && k < |Run(INIT, events).value.studies| &&
                            Went(Run(INIT, events).value.studies, k, d, list)
      ensures list != [] && NoReturn(list) && (d < 0 || |list| <= d + 1)
    {
      FollowedChainsNeverReturn(events, k);
      ChainsAreBounded(events, k);
    }
  }
}
