// Chains of follow-up studies: which suggestion a child runs, what it inherits, and how far a
// chain goes.
module FollowupChain {
  import opened Common

  // ---------------------------------------------------------------------------
  // Selecting a suggestion
  // ---------------------------------------------------------------------------

  type Space = map<string, string>

  datatype Followup = Text | Narrow(space: Space) | Widen(space: Space) | Swap(template: string, space: Space)

  predicate Guarded(f: Followup, visited: set<string>) { f.Swap? && f.template in visited }

  predicate Executable(f: Followup, visited: set<string>) { !f.Text? && !Guarded(f, visited) }

  function Candidates(followups: seq<Followup>, visited: set<string>): (n: nat)
    ensures n <= |followups|
  {
    if followups == [] then 0
    else Candidates(followups[..|followups| - 1], visited) + if Executable(followups[|followups| - 1], visited) then 1 else 0
  }

  function Dropped(followups: seq<Followup>, visited: set<string>): multiset<string> {
    if followups == [] then multiset{}
    else
      var last := followups[|followups| - 1];
      Dropped(followups[..|followups| - 1], visited) + if Guarded(last, visited) then multiset{last.template} else multiset{}
  }

  datatype Selection = Selection(selected: Option<Followup>, sourceIndex: Option<nat>, candidates: nat, dropped: seq<string>)

  // The first executable item wins.
  predicate IsSelection(followups: seq<Followup>, visited: set<string>, s: Selection) {
    && s.candidates == Candidates(followups, visited)
    && multiset(s.dropped) == Dropped(followups, visited)
    && match s.sourceIndex
       case None => s.selected.None? && forall i :: 0 <= i < |followups| ==> !Executable(followups[i], visited)
       case Some(k) => && k < |followups| && s.selected == Some(followups[k]) && Executable(followups[k], visited)
                       && forall i :: 0 <= i < k ==> !Executable(followups[i], visited)
  }

  lemma OneMore(followups: seq<Followup>, item: Followup, visited: set<string>)
    ensures Candidates(followups + [item], visited) == Candidates(followups, visited) + if Executable(item, visited) then 1 else 0
    ensures Dropped(followups + [item], visited) ==
            Dropped(followups, visited) + if Guarded(item, visited) then multiset{item.template} else multiset{}
  {
    assert (followups + [item])[..|followups|] == followups;
  }

  lemma DropKeepsSelection(followups: seq<Followup>, item: Followup, visited: set<string>, s: Selection)
    requires IsSelection(followups, visited, s) && Guarded(item, visited)
    ensures IsSelection(followups + [item], visited, s.(dropped := s.dropped + [item.template]))
  {
    OneMore(followups, item, visited);
  }

  lemma TextKeepsSelection(followups: seq<Followup>, item: Followup, visited: set<string>, s: Selection)
    requires IsSelection(followups, visited, s) && item.Text?
    ensures IsSelection(followups + [item], visited, s)
  {
    OneMore(followups, item, visited);
  }

  lemma CandidateKeepsSelection(followups: seq<Followup>, item: Followup, visited: set<string>, s: Selection)
    requires IsSelection(followups, visited, s) && Executable(item, visited)
    ensures IsSelection(followups + [item], visited,
                        if s.sourceIndex.Some? then s.(candidates := s.candidates + 1)
                        else Selection(Some(item), Some(|followups|), s.candidates + 1, s.dropped))
  {
    OneMore(followups, item, visited);
  }

  // `select_executable_followup` (the order of the dropped ids is telemetry only).
  method SelectExecutableFollowup(followups: seq<Followup>, visited: set<string>) returns (s: Selection)
    ensures IsSelection(followups, visited, s)
  {
    s := Selection(None, None, 0, []);
    for i := 0 to |followups|
      invariant IsSelection(followups[..i], visited, s)
    {
      var item := followups[i];
      assert followups[..i + 1] == followups[..i] + [item];
      if item.Text? {
        TextKeepsSelection(followups[..i], item, visited, s);
      } else if Guarded(item, visited) {
        DropKeepsSelection(followups[..i], item, visited, s);
        s := s.(dropped := s.dropped + [item.template]);
      } else {
        CandidateKeepsSelection(followups[..i], item, visited, s);
        if s.sourceIndex.None? {
          s := s.(selected := Some(item), sourceIndex := Some(i));
        }
        s := s.(candidates := s.candidates + 1);
      }
      hide IsSelection;
    }
    assert followups[..|followups|] == followups;
  }

  // ---------------------------------------------------------------------------
  // Studies
  // ---------------------------------------------------------------------------

  datatype SelectedKind = KindNarrow | KindWiden | KindSwap | NarrowDefault

  // The keys of studies.config the chain uses; `rest` stands for all others.
  datatype Config = Config(depth: Option<int>, follow: bool, visited: Option<seq<string>>, kind: Option<SelectedKind>,
                           rest: map<string, string>)

  // `auto`: inserted by the follow-up worker, not by an operator, who may also name a parent
  // when cloning. `born`: the counter the study was inserted with.
  datatype Study = Study(parent: Option<nat>, auto: bool, born: Option<int>, template: string, space: Space, config: Config)

  // config.get("auto_followup_visited_template_ids", [template_id])
  function Visited(s: Study): seq<string> {
    if s.config.visited.Some? then s.config.visited.value else [s.template]
  }

  function AsSet(list: seq<string>): set<string> { set x | x in list }

  // list(dict.fromkeys(list)): first occurrences, in order.
  function OrderedUnique(list: seq<string>): (r: seq<string>)
    ensures forall x :: x in r <==> x in list
  {
    if list == [] then []
    else
      var init, last := OrderedUnique(list[..|list| - 1]), list[|list| - 1];
      assert list == list[..|list| - 1] + [last];
      if last in init then init else init + [last]
  }

  // What the worker finds: the parent's digest (None: missing), whether a read raises, whether
  // the swap target still exists, and the space the default narrowing gives.
  datatype Findings = Findings(digest: Option<seq<Followup>>, readRaises: bool, swapRaises: bool, targetExists: bool, narrowed: Space)

  // What the suggestions change about the child, if anything.
  datatype Override = Keep | Refine(space: Space, kind: SelectedKind) | Branch(template: string, space: Space)

  function OverrideFor(selected: Option<Followup>, f: Findings): Override {
    match selected
    case None => Keep
    case Some(Text) => Keep
    case Some(Narrow(space)) => Refine(space, KindNarrow)
    case Some(Widen(space)) => Refine(space, KindWiden)
    case Some(Swap(template, space)) => if f.swapRaises || !f.targetExists then Keep else Branch(template, space)
  }

  // The first executable suggestion, by position.
  function FirstExecutable(followups: seq<Followup>, visited: set<string>): (r: Option<Followup>)
    ensures r.Some? ==> Executable(r.value, visited) && r.value in followups
  {
    if followups == [] then None
    else if Executable(followups[0], visited) then Some(followups[0])
    else FirstExecutable(followups[1..], visited)
  }

  function Suggestions(f: Findings): seq<Followup> { if f.digest.Some? then f.digest.value else [] }

  function Effective(p: Study, f: Findings): Override {
    if !p.config.follow || f.readRaises then Keep
    else OverrideFor(FirstExecutable(Suggestions(f), AsSet(Visited(p))), f)
  }

  // The child a parent and the findings determine; i is the parent's index.
  function ChildOf(i: nat, p: Study, f: Findings): Study
    requires p.config.depth.Some?
  {
    var o := Effective(p, f);
    var template := if o.Branch? then o.template else p.template;
    var space := match o case Keep => f.narrowed case Refine(space, _) => space case Branch(_, space) => space;
    var kind := match o case Keep => NarrowDefault case Refine(_, kind) => kind case Branch(_, _) => KindSwap;
    var config := p.config.(depth := Some(p.config.depth.value - 1), kind := None);
    Study(Some(i), true, config.depth, template, space,
          if p.config.follow
          then config.(visited := Some(OrderedUnique(Visited(p) + [template])), kind := Some(kind))
          else config)
  }

  // ---------------------------------------------------------------------------
  // Workers
  // ---------------------------------------------------------------------------

  // Where a follow-up worker is. It reads its parent once, then the children, and holds no
  // lock until the INSERT.
  datatype Pc = Started(parent: nat) | Loaded(parent: nat, seen: Study) | Clear(parent: nat, seen: Study) | Finished

  datatype State = State(studies: seq<Study>, workers: seq<Pc>)

  const INIT := State([], [])

  // Anchor and Clone: an operator's POST, without and with a parent. StopChain: the cancel
  // cascade reaching a completed study. `lift`: the gate's verdict apart from the counter.
  datatype Event =
    | Anchor(template: string, space: Space, depth: Option<int>, follow: bool, rest: map<string, string>)
    | Clone(of: nat, template: string, space: Space, depth: Option<int>, follow: bool, rest: map<string, string>)
    | StopChain(i: nat)
    | Deliver(parent: nat)
    | Load(w: nat)
    | Check(w: nat, lift: bool)
    | Insert(w: nat, f: Findings)
    | Die(w: nat)

  // What an operator's POST stores: none of the keys of a link.
  function Posted(parent: Option<nat>, template: string, space: Space, depth: Option<int>, follow: bool, rest: map<string, string>): Study {
    Study(parent, false, depth, template, space, Config(depth, follow, None, None, rest))
  }

  // A positive counter is set to zero, for a worker that has not read it yet.
  function Stopped(s: Study): Study {
    if s.config.depth.Some? && s.config.depth.value > 0 then s.(config := s.config.(depth := Some(0))) else s
  }

  predicate HasChild(studies: seq<Study>, i: nat) {
    exists k :: 0 <= k < |studies| && studies[k].parent == Some(i)
  }

  // A worker is between delivery and INSERT for this parent.
  predicate InFlight(workers: seq<Pc>, i: nat) {
    exists v :: 0 <= v < |workers| && !workers[v].Finished? && workers[v].parent == i
  }

  // The depth part of the chain gate.
  predicate DepthAllows(s: Study) { s.config.depth.Some? && s.config.depth.value != 0 }

  function At(s: State, w: nat, pc: Pc): State
    requires w < |s.workers|
  {
    s.(workers := s.workers[w := pc])
  }

  function WorkStep(s: State, e: Event): Option<State>
    requires (e.Load? || e.Check? || e.Insert? || e.Die?) && e.w < |s.workers|
  {
    var pc := s.workers[e.w];
    match e
    case Load(w) => if pc.Started? && pc.parent < |s.studies| then Some(At(s, w, Loaded(pc.parent, s.studies[pc.parent]))) else None
    case Check(w, lift) =>
      if pc.Loaded? then
        Some(At(s, w, if !HasChild(s.studies, pc.parent) && DepthAllows(pc.seen) && lift then Clear(pc.parent, pc.seen) else Finished))
      else None
    case Insert(w, f) =>
      if pc.Clear? && DepthAllows(pc.seen) then
        Some(State(s.studies + [ChildOf(pc.parent, pc.seen, f)], s.workers[w := Finished]))
      else None
    case Die(w) => Some(At(s, w, Finished))
  }

  function Step(s: State, e: Event): Option<State> {
    match e
    case Anchor(template, space, depth, follow, rest) =>
      Some(s.(studies := s.studies + [Posted(None, template, space, depth, follow, rest)]))
    case Clone(of, template, space, depth, follow, rest) =>
      if of < |s.studies| then Some(s.(studies := s.studies + [Posted(Some(of), template, space, depth, follow, rest)])) else None
    case StopChain(i) => if i < |s.studies| then Some(s.(studies := s.studies[i := Stopped(s.studies[i])])) else None
    case Deliver(i) => if i < |s.studies| then Some(s.(workers := s.workers + [Started(i)])) else None
    case _ => if e.w < |s.workers| then WorkStep(s, e) else None
  }

  function Run(s: State, events: seq<Event>): Option<State>
    decreases |events|
  {
    if events == [] then Some(s)
    else
      match Run(s, events[..|events| - 1])
      case None => None
      case Some(t) => Step(t, events[|events| - 1])
  }

  lemma RunSnoc(s: State, events: seq<Event>, t: State, e: Event, u: State) returns (more: seq<Event>)
    requires Run(s, events) == Some(t) && Step(t, e) == Some(u)
    ensures more == events + [e] && Run(s, more) == Some(u)
  {
    more := events + [e];
    assert more[..|more| - 1] == events;
  }

  // ---------------------------------------------------------------------------
  // What every run keeps
  // ---------------------------------------------------------------------------

  // The counter is the one the study was born with, unless the chain was stopped there.
  predicate CounterInv(s: Study) {
    s.config.depth == s.born || (s.born.Some? && s.born.value > 0 && s.config.depth == Some(0))
  }

  // What the follow-up worker's child has from its parent; counters as they were at birth.
  predicate Descends(p: Study, c: Study) {
    && p.born.Some? && p.born.value != 0 && c.born == Some(p.born.value - 1)
    && c.config.follow == p.config.follow && c.config.rest == p.config.rest
    && (!p.config.follow ==> c.template == p.template && c.config.visited == p.config.visited && c.config.kind == None)
    && (p.config.follow ==>
          && (c.template == p.template || c.template !in Visited(p))
          && c.config.visited == Some(OrderedUnique(Visited(p) + [c.template]))
          && (c.template != p.template ==> c.config.kind == Some(KindSwap)))
  }

  predicate StudyInv(studies: seq<Study>, k: nat)
    requires k < |studies|
  {
    var c := studies[k];
    && CounterInv(c) && (c.parent.Some? ==> c.parent.value < k)
    && if c.auto then c.parent.Some? && Descends(studies[c.parent.value], c)
       else c.config.visited.None? && c.config.kind.None?
  }

  // Two readings of one study, which differ at most in the counter.
  predicate SameStudy(p: Study, q: Study) { p == q.(config := q.config.(depth := p.config.depth)) }

  predicate WorkerInv(s: State, w: nat)
    requires w < |s.workers|
  {
    var pc := s.workers[w];
    && (!pc.Finished? ==> pc.parent < |s.studies|)
    && (pc.Loaded? || pc.Clear? ==> SameStudy(pc.seen, s.studies[pc.parent]) && CounterInv(pc.seen))
    && (pc.Clear? ==> DepthAllows(pc.seen))
  }

  predicate Inv(s: State) {
    && (forall k :: 0 <= k < |s.studies| ==> StudyInv(s.studies, k))
    && (forall w :: 0 <= w < |s.workers| ==> WorkerInv(s, w))
  }

  lemma ChildDescends(i: nat, p: Study, f: Findings)
    requires DepthAllows(p) && CounterInv(p)
    ensures Descends(p, ChildOf(i, p, f)) && CounterInv(ChildOf(i, p, f))
  {
    var o := Effective(p, f);
    if o.Branch? {
      assert o.template !in AsSet(Visited(p));
    }
  }

  // The counter does not enter into what a child has from its parent.
  lemma SameDescent(p: Study, q: Study, c: Study)
    requires SameStudy(p, q)
    ensures Descends(p, c) <==> Descends(q, c)
  {
  }

  // Appending a study that is in order by itself.
  lemma AppendKeepsInv(s: State, c: Study, workers: seq<Pc>)
    requires Inv(s) && StudyInv(s.studies + [c], |s.studies|)
    requires |workers| == |s.workers| && forall w :: 0 <= w < |workers| ==> workers[w] in {s.workers[w], Finished}
    ensures Inv(State(s.studies + [c], workers))
  {
    var t := State(s.studies + [c], workers);
    hide Descends, CounterInv, SameStudy;
    forall k | 0 <= k < |t.studies| ensures StudyInv(t.studies, k) {
      if k < |s.studies| { assert StudyInv(s.studies, k); }
    }
    forall w | 0 <= w < |t.workers| ensures WorkerInv(t, w) { assert WorkerInv(s, w); }
  }

  lemma InsertKeepsInv(s: State, w: nat, f: Findings)
    requires Inv(s) && w < |s.workers| && Step(s, Insert(w, f)).Some?
    ensures Inv(Step(s, Insert(w, f)).value)
  {
    var pc := s.workers[w];
    var c := ChildOf(pc.parent, pc.seen, f);
    assert WorkerInv(s, w);
    ChildDescends(pc.parent, pc.seen, f);
    assert c.auto && c.parent == Some(pc.parent);
    hide ChildOf;
    SameDescent(pc.seen, s.studies[pc.parent], c);
    hide Descends;
    AppendKeepsInv(s, c, s.workers[w := Finished]);
  }

  lemma StopKeepsInv(s: State, i: nat)
    requires Inv(s) && i < |s.studies|
    ensures Inv(Step(s, StopChain(i)).value)
  {
    var t := Step(s, StopChain(i)).value;
    forall k | 0 <= k < |t.studies| ensures StudyInv(t.studies, k) {
      assert StudyInv(s.studies, k);
      if s.studies[k].auto { SameDescent(t.studies[s.studies[k].parent.value], s.studies[s.studies[k].parent.value], s.studies[k]); }
    }
    forall w | 0 <= w < |t.workers| ensures WorkerInv(t, w) { assert WorkerInv(s, w); }
  }

  lemma PostKeepsInv(s: State, e: Event)
    requires Inv(s) && (e.Anchor? || e.Clone?) && Step(s, e).Some?
    ensures Inv(Step(s, e).value)
  {
    var t := Step(s, e).value;
    AppendKeepsInv(s, t.studies[|s.studies|], s.workers);
  }

  lemma MoveKeepsInv(s: State, e: Event)
    requires Inv(s) && (e.Deliver? || e.Load? || e.Check? || e.Die?) && Step(s, e).Some?
    ensures Inv(Step(s, e).value)
  {
    var t := Step(s, e).value;
    forall w | 0 <= w < |t.workers| ensures WorkerInv(t, w) {
      if w < |s.workers| { assert WorkerInv(s, w); }
      if e.Load? { assert StudyInv(s.studies, s.workers[e.w].parent); }
    }
  }

  lemma StepKeepsInv(s: State, e: Event)
    requires Inv(s) && Step(s, e).Some?
    ensures Inv(Step(s, e).value)
  {
    match e
    case Insert(w, f) => InsertKeepsInv(s, w, f);
    case StopChain(i) => StopKeepsInv(s, i);
    case Anchor(_, _, _, _, _) => PostKeepsInv(s, e);
    case Clone(_, _, _, _, _, _) => PostKeepsInv(s, e);
    case _ => MoveKeepsInv(s, e);
  }

  lemma {:induction false} RunKeepsInv(s: State, events: seq<Event>)
    requires Inv(s) && Run(s, events).Some?
    ensures Inv(Run(s, events).value)
    decreases |events|
  {
    hide Inv, Step;
    if events != [] {
      var last := |events| - 1;
      RunKeepsInv(s, events[..last]);
      StepKeepsInv(Run(s, events[..last]).value, events[last]);
    }
  }
}
