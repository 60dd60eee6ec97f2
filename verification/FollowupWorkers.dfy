// `enqueue_followup_study` step by step, while other workers and operators may act between
// its read of the parent, the children check and the INSERT.
module FollowupWorkers {
  import opened Common
  import opened FollowupChain
  import opened FollowupTheorems
  import opened FollowupChildren

  // The child of study i: the default narrowing, overridden by what the suggestions allow,
  // with the counter decremented and the per-link keys rewritten. `s` is the selection among
  // the digest's suggestions.
  method BuildChild(i: nat, parent: Study, f: Findings) returns (child: Study, ghost s: Selection)
    requires parent.config.depth.Some?
    ensures child == ChildOf(i, parent, f)
    ensures Selects(parent, f, s) && Takes(i, parent, f, s, child)
  {
    hide IsSelection, FirstExecutable, OrderedUnique, AsSet, Executable, Takes;
    s := Selection(None, None, 0, []);
    var childTemplate := parent.template;
    var childSpace := f.narrowed;
    var selected: Option<Followup> := None;
    var swapTargetMissing := false;
    if parent.config.follow && !f.readRaises {
      var followups := if f.digest.Some? then f.digest.value else [];
      var visited := AsSet(Visited(parent));
      var outcome := SelectExecutableFollowup(followups, visited);
      SelectionIsFirst(followups, visited, outcome);
      s := outcome;
      selected := outcome.selected;
      match selected {
        case Some(Narrow(space)) =>
          childSpace := space;
        case Some(Widen(space)) =>
          childSpace := space;
        case Some(Swap(template, space)) =>
          if f.swapRaises {
            selected := None;
          } else if !f.targetExists {
            swapTargetMissing := true;
          } else {
            childTemplate, childSpace := template, space;
          }
        case _ =>
      }
    }
    var config := parent.config.(depth := Some(parent.config.depth.value - 1), kind := None);
    if parent.config.follow {
      config := config.(visited := Some(OrderedUnique(Visited(parent) + [childTemplate])));
      match selected {
        case Some(Narrow(_)) =>
          config := config.(kind := Some(KindNarrow));
        case Some(Widen(_)) =>
          config := config.(kind := Some(KindWiden));
        case Some(Swap(_, _)) =>
          config := config.(kind := Some(if swapTargetMissing then NarrowDefault else KindSwap));
        case _ =>
          config := config.(kind := Some(NarrowDefault));
      }
    }
    child := Study(Some(i), true, config.depth, childTemplate, childSpace, config);
    ChildTakes(i, parent, f, s);
  }

  class StudyTable {
    var studies: seq<Study>
    var workers: seq<Pc>

    constructor ()
      ensures View() == INIT
    {
      studies, workers := [], [];
    }

    function View(): State
      reads this
    {
      State(studies, workers)
    }

    // Everybody else takes the steps of `events` that are possible.
    method Others(events: seq<Event>, w: nat) returns (ghost trace: seq<Event>)
      requires Inv(View()) && w < |workers|
      modifies this
      ensures Inv(View()) && Run(old(View()), trace) == Some(View())
      ensures w < |workers| && workers[w] == old(workers)[w] && SameParents(old(studies), studies)
      ensures events == [] ==> View() == old(View())
    {
      hide Step, Inv, SameParents;
      trace := [];
      ghost var start := View();
      NoChange(start.studies);
      for k := 0 to |events|
        invariant Inv(View()) && Run(start, trace) == Some(View())
        invariant w < |workers| && workers[w] == old(workers)[w] && SameParents(start.studies, studies)
        invariant events == [] ==> View() == start
      {
        var e := events[k];
        var next := Step(View(), e);
        if next.Some? && !Touches(e, w) {
          ghost var before := View();
          ForeignStep(before, e, w);
          StepKeepsInv(before, e);
          studies, workers := next.value.studies, next.value.workers;
          ParentsCompose(start.studies, before.studies, studies);
          trace := RunSnoc(start, trace, before, e, View());
        }
      }
    }

    // After a step of worker w, the others.
    method Yield(ghost before: State, ghost e: Event, w: nat, meanwhile: seq<Event>) returns (ghost trace: seq<Event>)
      requires Inv(before) && w < |workers| && Step(before, e) == Some(View())
      modifies this
      ensures Inv(View()) && Run(before, trace) == Some(View())
      ensures w < |workers| && workers[w] == old(workers)[w] && SameParents(old(studies), studies)
      ensures meanwhile == [] ==> View() == old(View())
    {
      ghost var first := Began(before, e, View());
      ghost var middle := View();
      ghost var rest := Others(meanwhile, w);
      trace := Joined(before, first, middle, rest, View());
    }

    // Building the next chain member if the gates pass. `lift` is the gate's verdict apart
    // from the depth counter; `checked` is the table at the children check and `s` the selection
    // among the digest's suggestions. The child takes what the suggestions allow; undisturbed it
    // is all that changes.
    method EnqueueFollowupStudy(w: nat, lift: bool, f: Findings, others: nat -> seq<Event>)
      returns (inserted: bool, ghost s: Selection, ghost checked: seq<Study>, ghost trace: seq<Event>)
      requires Inv(View()) && w < |workers| && workers[w].Started?
      modifies this
      ensures Inv(View()) && Run(old(View()), trace) == Some(View())
      ensures w < |workers| && workers[w].Finished?
      ensures old(workers)[w].parent < |old(studies)| && SameParents(old(studies), checked) && SameParents(checked, studies)
      ensures inserted <==> !HasChild(checked, old(workers)[w].parent) && DepthAllows(old(studies)[old(workers)[w].parent]) && lift
      ensures inserted ==>
                && studies != []
                && studies[|studies| - 1] == ChildOf(old(workers)[w].parent, old(studies)[old(workers)[w].parent], f)
                && Selects(old(studies)[old(workers)[w].parent], f, s)
                && Takes(old(workers)[w].parent, old(studies)[old(workers)[w].parent], f, s, studies[|studies| - 1])
      ensures others(0) == others(1) == [] ==>
                && checked == old(studies)
                && if inserted then studies != [] && studies[..|studies| - 1] == old(studies) else studies == old(studies)
    {
      hide *;
      ghost var start := View();
      var i: nat, parent: Study;
      i, parent, trace := LoadParent(w, others(0));
      checked := studies;
      ghost var middle := View();
      ghost var more: seq<Event>;
      inserted, s, more := FollowUp(w, i, parent, lift, f, others(1));
      trace := Joined(start, trace, middle, more, View());
    }

    // The only read of the parent.
    method LoadParent(w: nat, meanwhile: seq<Event>) returns (i: nat, parent: Study, ghost trace: seq<Event>)
      requires Inv(View()) && w < |workers| && workers[w].Started?
      modifies this
      ensures Inv(View()) && Run(old(View()), trace) == Some(View())
      ensures i == old(workers)[w].parent < |old(studies)| && parent == old(studies)[i]
      ensures w < |workers| && workers[w] == Loaded(i, parent) && SameParents(old(studies), studies)
      ensures meanwhile == [] ==> studies == old(studies)
    {
      StartedIsKnown(View(), w);
      hide Inv, Run, SameParents;
      ghost var before := View();
      i := workers[w].parent;
      parent := studies[i];
      workers := workers[w := Loaded(i, parent)];
      trace := Yield(before, Load(w), w, meanwhile);
    }

    method FollowUp(w: nat, i: nat, parent: Study, lift: bool, f: Findings, meanwhile: seq<Event>)
      returns (inserted: bool, ghost s: Selection, ghost trace: seq<Event>)
      requires Inv(View()) && w < |workers| && workers[w] == Loaded(i, parent)
      modifies this
      ensures Inv(View()) && Run(old(View()), trace) == Some(View())
      ensures w < |workers| && workers[w].Finished? && SameParents(old(studies), studies)
      ensures inserted <==> !HasChild(old(studies), i) && DepthAllows(parent) && lift
      ensures inserted ==>
                && studies != [] && studies[|studies| - 1] == ChildOf(i, parent, f)
                && Selects(parent, f, s) && Takes(i, parent, f, s, studies[|studies| - 1])
      ensures meanwhile == [] ==> if inserted then studies != [] && studies[..|studies| - 1] == old(studies) else studies == old(studies)
    {
      s := Selection(None, None, 0, []);
      hide Inv, Run, Step, SameParents, ChildOf, HasChild, Selects, Takes;
      ghost var start := View();
      inserted, trace := CheckChildren(w, i, parent, lift, meanwhile);
      if inserted {
        ghost var middle := View();
        ghost var more: seq<Event>;
        s, more := InsertChild(w, i, parent, f);
        ParentsCompose(start.studies, middle.studies, studies);
        trace := Joined(start, trace, middle, more, View());
      }
    }

    // The children check and the chain gate.
    method CheckChildren(w: nat, i: nat, parent: Study, lift: bool, meanwhile: seq<Event>)
      returns (proceed: bool, ghost trace: seq<Event>)
      requires Inv(View()) && w < |workers| && workers[w] == Loaded(i, parent)
      modifies this
      ensures Inv(View()) && Run(old(View()), trace) == Some(View())
      ensures proceed <==> !HasChild(old(studies), i) && DepthAllows(parent) && lift
      ensures w < |workers| && workers[w] == (if proceed then Clear(i, parent) else Finished) && SameParents(old(studies), studies)
      ensures meanwhile == [] ==> studies == old(studies)
    {
      hide Inv, Run, SameParents;
      ghost var before := View();
      var hasChild := exists k :: 0 <= k < |studies| && studies[k].parent == Some(i);
      var depth := parent.config.depth;
      proceed := !hasChild && depth.Some? && depth.value != 0 && lift;
      workers := workers[w := if proceed then Clear(i, parent) else Finished];
      assert hasChild == HasChild(before.studies, i);
      trace := Yield(before, Check(w, lift), w, meanwhile);
    }

    method InsertChild(w: nat, i: nat, parent: Study, f: Findings) returns (ghost s: Selection, ghost trace: seq<Event>)
      requires Inv(View()) && w < |workers| && workers[w] == Clear(i, parent) && DepthAllows(parent)
      modifies this
      ensures Inv(View()) && Run(old(View()), trace) == Some(View())
      ensures w < |workers| && workers[w].Finished? && SameParents(old(studies), studies)
      ensures studies == old(studies) + [ChildOf(i, parent, f)]
      ensures Selects(parent, f, s) && Takes(i, parent, f, s, ChildOf(i, parent, f))
    {
      hide Inv, Run, Selects, Takes;
      ghost var before := View();
      var child: Study;
      child, s := BuildChild(i, parent, f);
      studies, workers := studies + [child], workers[w := Finished];
      InsertIsStep(before, w, f, View());
      trace := Began(before, Insert(w, f), View());
    }
  }

  // Rows stay, under the parents they have.
  predicate SameParents(before: seq<Study>, after: seq<Study>) {
    |before| <= |after| && forall k :: 0 <= k < |before| ==> after[k].parent == before[k].parent && after[k].auto == before[k].auto
  }

  lemma NoChange(studies: seq<Study>)
    ensures SameParents(studies, studies)
  {
  }

  lemma ParentsCompose(a: seq<Study>, b: seq<Study>, c: seq<Study>)
    requires SameParents(a, b) && SameParents(b, c)
    ensures SameParents(a, c)
  {
  }

  predicate Touches(e: Event, w: nat) { (e.Load? || e.Check? || e.Insert? || e.Die?) && e.w == w }

  lemma ForeignStep(s: State, e: Event, w: nat)
    requires Step(s, e).Some? && !Touches(e, w) && w < |s.workers|
    ensures var t := Step(s, e).value;
            w < |t.workers| && t.workers[w] == s.workers[w] && SameParents(s.studies, t.studies)
  {
    hide ChildOf, HasChild;
  }

  lemma StartedIsKnown(s: State, w: nat)
    requires Inv(s) && w < |s.workers| && s.workers[w].Started?
    ensures s.workers[w].parent < |s.studies|
  {
    assert WorkerInv(s, w);
  }

  lemma Began(s: State, e: Event, t: State) returns (trace: seq<Event>)
    requires Inv(s) && Step(s, e) == Some(t)
    ensures Run(s, trace) == Some(t) && Inv(t)
  {
    StepKeepsInv(s, e);
    assert Run(s, []) == Some(s);
    hide Step, Inv;
    trace := RunSnoc(s, [], s, e, t);
  }

  lemma InsertIsStep(s: State, w: nat, f: Findings, t: State)
    requires w < |s.workers| && s.workers[w].Clear? && DepthAllows(s.workers[w].seen)
    requires t == State(s.studies + [ChildOf(s.workers[w].parent, s.workers[w].seen, f)], s.workers[w := Finished])
    ensures Step(s, Insert(w, f)) == Some(t)
  {
    hide ChildOf;
  }

  lemma {:induction false} Composed(s: State, a: seq<Event>, b: seq<Event>)
    requires Run(s, a).Some?
    ensures Run(s, a + b) == Run(Run(s, a).value, b)
    decreases |b|
  {
    hide Step;
    if b == [] {
      assert a + b == a;
    } else {
      var c, last := a + b, |b| - 1;
      Composed(s, a, b[..last]);
      assert c[..|c| - 1] == a + b[..last] && c[|c| - 1] == b[last];
    }
  }

  lemma Joined(start: State, a: seq<Event>, middle: State, b: seq<Event>, end: State) returns (c: seq<Event>)
    requires Run(start, a) == Some(middle) && Run(middle, b) == Some(end)
    ensures c == a + b && Run(start, c) == Some(end)
  {
    Composed(start, a, b);
    c := a + b;
  }
}
