// Whether a finished study earns a follow-up: the depth counter and the lift over a baseline.
module FollowupGate {
  import opened Common

  const LIFT_EPSILON := 0.005

  datatype Trial = Trial(number: int, metric: Option<real>)

  datatype Direction = Maximize | Minimize

  datatype StudyStatus = Active | Completed | Failed | Cancelled

  // What the gate reads of a study.
  datatype Parent = Parent(status: StudyStatus, depth: Option<int>, best: Option<real>, baseline: Option<real>)

  datatype Decision = Enqueue | SkipNoLift | SkipParentFailed | SkipDepthExhausted

  // sorted(trials, key=number): stable.
  function SortedByNumber(trials: seq<Trial>): (r: seq<Trial>)
    ensures |r| == |trials|
  {
    if trials == [] then [] else PlaceAfter(SortedByNumber(trials[..|trials| - 1]), trials[|trials| - 1])
  }

  function PlaceAfter(sorted: seq<Trial>, t: Trial): (r: seq<Trial>)
    ensures |r| == |sorted| + 1
  {
    if sorted == [] || t.number < sorted[0].number then [t] + sorted
    else [sorted[0]] + PlaceAfter(sorted[1..], t)
  }

  function Metrics(trials: seq<Trial>): (r: seq<real>)
    ensures forall m :: m in r <==> exists i :: 0 <= i < |trials| && trials[i].metric == Some(m)
  {
    if trials == [] then []
    else
      var rest := Metrics(trials[1..]);
      assert trials == [trials[0]] + trials[1..];
      if trials[0].metric.Some? then [trials[0].metric.value] + rest else rest
  }

  // max or min of a non-empty list.
  function Extremum(values: seq<real>, d: Direction): (m: real)
    requires values != []
    ensures m in values
    ensures forall v :: v in values ==> if d.Maximize? then v <= m else m <= v
  {
    if |values| == 1 then values[0]
    else
      var m := Extremum(values[1..], d);
      assert values == [values[0]] + values[1..];
      if (if d.Maximize? then values[0] >= m else values[0] <= m) then values[0] else m
  }

  function Decile(trials: seq<Trial>): seq<Trial> {
    var sorted := SortedByNumber(trials);
    sorted[..Min(|sorted|, Max(1, |sorted| / 10))]
  }

  function FirstDecileMax(trials: seq<Trial>, d: Direction): Option<real> {
    var metrics := Metrics(Decile(trials));
    if metrics == [] then None else Some(Extremum(metrics, d))
  }

  function Lift(best: real, baseline: real, d: Direction): real {
    if d.Minimize? then baseline - best else best - baseline
  }

  // The checks in the order they are made.
  function EvaluateChainGate(p: Parent, complete: seq<Trial>, d: Direction): Decision {
    if p.status.Failed? || p.status.Cancelled? then SkipParentFailed
    else if p.depth.None? || p.depth.value == 0 then SkipDepthExhausted
    else if p.best.None? then SkipNoLift
    else if p.baseline.Some? then (if Lift(p.best.value, p.baseline.value, d) > LIFT_EPSILON then Enqueue else SkipNoLift)
    else
      var decile := FirstDecileMax(complete, d);
      if decile.Some? && Lift(p.best.value, decile.value, d) > LIFT_EPSILON then Enqueue else SkipNoLift
  }

  // The worker's call leaves the direction at its default.
  function WorkerGate(p: Parent, complete: seq<Trial>): Decision { EvaluateChainGate(p, complete, Maximize) }

  predicate Ascending(trials: seq<Trial>) {
    forall i, j :: 0 <= i < j < |trials| ==> trials[i].number <= trials[j].number
  }

  lemma {:induction false} PlaceKeepsTrials(sorted: seq<Trial>, t: Trial)
    ensures multiset(PlaceAfter(sorted, t)) == multiset(sorted) + multiset{t}
  {
    if sorted != [] && t.number >= sorted[0].number {
      PlaceKeepsTrials(sorted[1..], t);
      assert sorted == [sorted[0]] + sorted[1..];
    }
  }

  lemma {:induction false} PlaceKeepsOrder(sorted: seq<Trial>, t: Trial)
    requires Ascending(sorted)
    ensures Ascending(PlaceAfter(sorted, t))
    ensures PlaceAfter(sorted, t)[0] == if sorted == [] || t.number < sorted[0].number then t else sorted[0]
  {
    if sorted != [] && t.number >= sorted[0].number {
      PlaceKeepsOrder(sorted[1..], t);
      var placed := PlaceAfter(sorted[1..], t);
      assert forall j :: 0 <= j < |placed| ==> placed[0].number <= placed[j].number;
    }
  }

  lemma {:induction false} SortedByNumberSorts(trials: seq<Trial>)
    ensures Ascending(SortedByNumber(trials)) && multiset(SortedByNumber(trials)) == multiset(trials)
  {
    if trials != [] {
      var last := |trials| - 1;
      SortedByNumberSorts(trials[..last]);
      PlaceKeepsOrder(SortedByNumber(trials[..last]), trials[last]);
      PlaceKeepsTrials(SortedByNumber(trials[..last]), trials[last]);
      assert trials == trials[..last] + [trials[last]];
    }
  }

  // The implicit baseline: the best metric among the first tenth of the trials by number, at
  // least one of them; none if none of those has a metric.
  lemma FirstDecileIsExtremum(trials: seq<Trial>, d: Direction)
    ensures var decile := Decile(trials);
            && |decile| == Min(|trials|, Max(1, |trials| / 10))
            && (forall i, j :: 0 <= i < |decile| && |decile| <= j < |trials| ==> decile[i].number <= SortedByNumber(trials)[j].number)
            && match FirstDecileMax(trials, d)
               case None => forall i :: 0 <= i < |decile| ==> decile[i].metric.None?
               case Some(m) =>
                 && (exists i :: 0 <= i < |decile| && decile[i].metric == Some(m))
                 && forall i :: 0 <= i < |decile| && decile[i].metric.Some? ==>
                                  if d.Maximize? then decile[i].metric.value <= m else m <= decile[i].metric.value
  {
    SortedByNumberSorts(trials);
    var decile := Decile(trials);
    forall i | 0 <= i < |decile| && decile[i].metric.Some? ensures decile[i].metric.value in Metrics(decile) {
      assert decile[i].metric == Some(decile[i].metric.value);
    }
  }

  // Better than another metric by more than epsilon, in the study's own direction.
  predicate Improved(best: real, baseline: real, d: Direction) {
    match d case Maximize => best > baseline + LIFT_EPSILON case Minimize => best < baseline - LIFT_EPSILON
  }

  // Better than each of the earliest tenth of the trials, at least one of which has a metric.
  predicate ImprovedOnEarly(best: real, complete: seq<Trial>, d: Direction) {
    && (exists i :: 0 <= i < |Decile(complete)| && Decile(complete)[i].metric.Some?)
    && forall i :: 0 <= i < |Decile(complete)| && Decile(complete)[i].metric.Some? ==>
                     Improved(best, Decile(complete)[i].metric.value, d)
  }

  // A study that ended well, with a non-zero counter (a negative one counts), improved on its
  // baseline, or without one on all of its earliest trials.
  predicate Earns(p: Parent, complete: seq<Trial>, d: Direction) {
    && p.status !in {Failed, Cancelled} && p.depth.Some? && p.depth.value != 0 && p.best.Some?
    && if p.baseline.Some? then Improved(p.best.value, p.baseline.value, d) else ImprovedOnEarly(p.best.value, complete, d)
  }

  // The gate opens exactly for such a study.
  lemma EnqueueIff(p: Parent, complete: seq<Trial>, d: Direction)
    ensures EvaluateChainGate(p, complete, d) == Enqueue <==> Earns(p, complete, d)
  {
    FirstDecileIsExtremum(complete, d);
    hide Decile, FirstDecileMax;
  }

  // The worker leaves the direction out: its gate opens for the studies that earn it exactly
  // if they maximize. A minimizing study that improved never passes, with or without a
  // baseline, and one that got worse does.
  lemma WorkerGateRewardsImprovementIff(d: Direction)
    ensures (forall p, complete :: WorkerGate(p, complete) == Enqueue <==> Earns(p, complete, d)) <==> d == Maximize
    ensures forall p, complete :: Earns(p, complete, Minimize) ==> WorkerGate(p, complete) != Enqueue
    ensures forall p, complete :: Earns(p, complete, Maximize) ==> WorkerGate(p, complete) == Enqueue
  {
    forall p, complete
      ensures WorkerGate(p, complete) == Enqueue <==> Earns(p, complete, Maximize)
      ensures Earns(p, complete, Minimize) ==> !Earns(p, complete, Maximize)
    {
      EnqueueIff(p, complete, Maximize);
      hide Decile, EvaluateChainGate;
    }
    if d == Minimize {
      var p := Parent(Completed, Some(1), Some(1.0), Some(0.0));
      assert WorkerGate(p, []) == Enqueue && !Earns(p, [], d);
    }
  }
}
