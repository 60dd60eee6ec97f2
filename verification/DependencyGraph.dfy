// Finite dependency graphs: rounds of nodes whose dependencies are all met, and what the
// rounds can never reach.
module DependencyGraph {

  // `names` lists the nodes once each; deps[n] are the nodes n waits for.
  datatype Graph = Graph(names: seq<string>, deps: map<string, set<string>>)

  predicate Distinct<T(==)>(s: seq<T>) {
    forall i, j :: 0 <= i < j < |s| ==> s[i] != s[j]
  }

  predicate Wf(g: Graph) {
    && Distinct(g.names)
    && (forall n :: n in g.names ==> n in g.deps)
    && (forall n :: n in g.deps ==> n in g.names)
    && forall n :: n in g.deps ==> g.deps[n] <= g.deps.Keys
  }

  // Nodes not placed yet whose dependencies all are.
  function Ready(g: Graph, placed: set<string>): set<string> {
    set n | n in g.deps && n !in placed && g.deps[n] <= placed
  }

  // What is placed after k rounds.
  function Round(g: Graph, k: nat): (placed: set<string>)
    ensures placed <= g.deps.Keys
  {
    if k == 0 then {} else Round(g, k - 1) + Ready(g, Round(g, k - 1))
  }

  // The nodes that rounds ever place.
  function Grounded(g: Graph): set<string> { Round(g, |g.deps.Keys|) }

  // A walk along dependencies.
  predicate Walk(g: Graph, w: seq<string>) {
    && |w| >= 1
    && (forall i :: 0 <= i < |w| ==> w[i] in g.deps)
    && forall i :: 0 <= i < |w| - 1 ==> w[i + 1] in g.deps[w[i]]
  }

  predicate Revisits(w: seq<string>) {
    exists i, j :: 0 <= i < j < |w| && w[i] == w[j]
  }

  // Some walk from n comes back to a node it has been at.
  ghost predicate ReachesCycle(g: Graph, n: string) {
    exists w :: Walk(g, w) && w[0] == n && Revisits(w)
  }

  // ---------------------------------------------------------------------------
  // Rounds
  // ---------------------------------------------------------------------------

  lemma {:induction false} RoundsGrow(g: Graph, j: nat, k: nat)
    requires j <= k
    ensures Round(g, j) <= Round(g, k)
  {
    if j < k { RoundsGrow(g, j, k - 1); }
  }

  // A placed node was placed strictly after all its dependencies.
  lemma {:induction false} RoundIsClosed(g: Graph, k: nat, n: string)
    requires n in Round(g, k)
    ensures k > 0 && g.deps[n] <= Round(g, k - 1)
  {
    if n in Round(g, k - 1) {
      RoundIsClosed(g, k - 1, n);
      RoundsGrow(g, k - 2, k - 1);
    }
  }

  // The round that places n, counted from 0.
  function Tier(g: Graph, n: string, k: nat): (t: nat)
    requires n in Round(g, k)
    ensures t < k && n in Round(g, t + 1) && n !in Round(g, t)
  {
    if n in Round(g, k - 1) then Tier(g, n, k - 1) else k - 1
  }

  lemma {:induction false} TierUnique(g: Graph, n: string, t: nat, u: nat)
    requires n in Round(g, t + 1) && n !in Round(g, t)
    requires n in Round(g, u + 1) && n !in Round(g, u)
    ensures t == u
  {
    if t < u { RoundsGrow(g, t + 1, u); }
    if u < t { RoundsGrow(g, u + 1, t); }
  }

  // Once a round places nothing, no later one does.
  lemma {:induction false} StuckForGood(g: Graph, j: nat, k: nat)
    requires j <= k && Ready(g, Round(g, j)) == {}
    ensures Round(g, k) == Round(g, j)
  {
    if j < k { StuckForGood(g, j, k - 1); }
  }

  lemma RoundAdds(g: Graph, k: nat)
    ensures Round(g, k + 1) == Round(g, k) + Ready(g, Round(g, k))
    ensures Ready(g, Round(g, k)) != {} ==> |Round(g, k + 1)| > |Round(g, k)|
  {
    var placed, ready := Round(g, k), Ready(g, Round(g, k));
    assert placed !! ready;
  }

  // After k rounds: each one so far placed something, or nothing more can be placed.
  ghost predicate FilledOrStuckAt(g: Graph, k: nat) {
    var placed := Round(g, k);
    |placed| >= k || Ready(g, placed) == {}
  }

  lemma FilledOrStuckStep(g: Graph, k: nat)
    requires k > 0 && FilledOrStuckAt(g, k - 1)
    ensures FilledOrStuckAt(g, k)
  {
    hide Ready;
    RoundAdds(g, k - 1);
    if Ready(g, Round(g, k - 1)) == {} {
      assert Round(g, k) == Round(g, k - 1);
    }
  }

  lemma {:induction false} FilledOrStuck(g: Graph, k: nat)
    ensures FilledOrStuckAt(g, k)
    decreases k
  {
    hide Ready;
    if k > 0 {
      FilledOrStuck(g, k - 1);
      FilledOrStuckStep(g, k);
    }
  }

  lemma {:induction false} SubsetCard<T>(a: set<T>, b: set<T>)
    requires a <= b
    ensures |a| <= |b|
    ensures |a| == |b| ==> a == b
  {
    if a != {} {
      var x :| x in a;
      SubsetCard(a - {x}, b - {x});
    }
  }

  // As many rounds as nodes are enough.
  lemma GroundedIsStuck(g: Graph)
    ensures Ready(g, Grounded(g)) == {}
  {
    FilledOrStuck(g, |g.deps.Keys|);
    SubsetCard(Grounded(g), g.deps.Keys);
  }

  lemma RoundWithinGrounded(g: Graph, k: nat)
    ensures Round(g, k) <= Grounded(g)
  {
    var n := |g.deps.Keys|;
    GroundedIsStuck(g);
    if k <= n { RoundsGrow(g, k, n); } else { StuckForGood(g, n, k); }
  }

  // ---------------------------------------------------------------------------
  // Cycles
  // ---------------------------------------------------------------------------

  // Each step of a walk goes to a strictly earlier round.
  lemma {:induction false} WalkDescends(g: Graph, k: nat, w: seq<string>, i: nat)
    requires Walk(g, w) && w[0] in Round(g, k) && i < |w|
    ensures i < k && w[i] in Round(g, k - i)
  {
    if i > 0 {
      WalkDescends(g, k, w, i - 1);
      RoundIsClosed(g, k - (i - 1), w[i - 1]);
      RoundIsClosed(g, k - i, w[i]);
    } else {
      RoundIsClosed(g, k, w[0]);
    }
  }

  lemma WalkSuffix(g: Graph, w: seq<string>, i: nat)
    requires Walk(g, w) && i < |w|
    ensures Walk(g, w[i..])
  {
  }

  lemma ExtendWalk(g: Graph, n: string, rest: seq<string>) returns (w: seq<string>)
    requires n in g.deps && Walk(g, rest) && rest[0] in g.deps[n]
    ensures Walk(g, w) && w[0] == n && |w| == |rest| + 1
  {
    w := [n] + rest;
  }

  // A grounded node reaches no cycle.
  lemma GroundedReachesNoCycle(g: Graph, n: string)
    requires n in Grounded(g)
    ensures !ReachesCycle(g, n)
  {
    forall w, i, j | Walk(g, w) && w[0] == n && 0 <= i < j < |w|
      ensures w[i] != w[j]
    {
      WalkDescends(g, |g.deps.Keys|, w, i);
      var t := Tier(g, w[i], |g.deps.Keys| - i);
      WalkSuffix(g, w, i);
      WalkDescends(g, t + 1, w[i..], j - i);
      RoundsGrow(g, t + 1 - (j - i), t);
    }
  }

  // Every node the rounds cannot place has a dependency they cannot place either.
  lemma StuckNodeHasStuckDependency(g: Graph, n: string) returns (d: string)
    requires Wf(g) && n in g.deps && n !in Grounded(g)
    ensures d in g.deps[n] && d in g.deps && d !in Grounded(g)
  {
    GroundedIsStuck(g);
    assert n !in Ready(g, Grounded(g));
    d :| d in g.deps[n] && d !in Grounded(g);
  }

  lemma {:induction false} StuckWalk(g: Graph, n: string, len: nat) returns (w: seq<string>)
    requires Wf(g) && n in g.deps && n !in Grounded(g) && len >= 1
    ensures Walk(g, w) && w[0] == n && |w| == len
    decreases len
  {
    if len == 1 {
      w := [n];
    } else {
      var d := StuckNodeHasStuckDependency(g, n);
      var rest := StuckWalk(g, d, len - 1);
      w := ExtendWalk(g, n, rest);
    }
  }

  lemma {:induction false} Pigeonhole(w: seq<string>, s: set<string>)
    requires forall i :: 0 <= i < |w| ==> w[i] in s
    requires |w| > |s|
    ensures Revisits(w)
  {
    var x := w[|w| - 1];
    var init := w[..|w| - 1];
    if i :| 0 <= i < |init| && init[i] == x {
      assert w[i] == w[|w| - 1];
    } else {
      Pigeonhole(init, s - {x});
      var i, j :| 0 <= i < j < |init| && init[i] == init[j];
      assert w[i] == w[j];
    }
  }

  lemma StuckReachesCycle(g: Graph, n: string)
    requires Wf(g) && n in g.deps && n !in Grounded(g)
    ensures ReachesCycle(g, n)
  {
    var w := StuckWalk(g, n, |g.deps.Keys| + 1);
    Pigeonhole(w, g.deps.Keys);
  }

  // Rounds place exactly the nodes from which no walk runs into a cycle.
  lemma GroundedIff(g: Graph, n: string)
    requires Wf(g) && n in g.deps
    ensures n in Grounded(g) <==> !ReachesCycle(g, n)
  {
    if n in Grounded(g) { GroundedReachesNoCycle(g, n); } else { StuckReachesCycle(g, n); }
  }

  // ---------------------------------------------------------------------------
  // Tiers
  // ---------------------------------------------------------------------------

  // The tier of a grounded node is the length of its longest dependency chain: no walk from
  // it takes more steps, and one takes exactly that many.
  lemma WalksAreShort(g: Graph, n: string, t: nat, w: seq<string>)
    requires n in Round(g, t + 1) && Walk(g, w) && w[0] == n
    ensures |w| - 1 <= t
  {
    WalkDescends(g, t + 1, w, |w| - 1);
  }

  // The tier of a node is the index of the round that places it.
  ghost predicate AtTier(g: Graph, n: string, t: nat) {
    n in Round(g, t + 1) && n !in Round(g, t)
  }

  // A node placed in round t + 1 waited for one placed in round t.
  lemma LateDependency(g: Graph, n: string, t: nat) returns (d: string)
    requires Wf(g) && t >= 1 && AtTier(g, n, t)
    ensures n in g.deps && d in g.deps[n] && AtTier(g, d, t - 1)
  {
    RoundIsClosed(g, t + 1, n);
    var earlier := Round(g, t - 1);
    assert Round(g, t) == earlier + Ready(g, earlier);
    d :| d in g.deps[n] && d !in earlier;
  }

  lemma {:induction false} LongestChain(g: Graph, n: string, t: nat) returns (w: seq<string>)
    requires Wf(g) && AtTier(g, n, t)
    ensures Walk(g, w) && w[0] == n && |w| - 1 == t
    decreases t
  {
    hide Ready;
    if t == 0 {
      w := [n];
    } else {
      var d := LateDependency(g, n, t);
      var rest := LongestChain(g, d, t - 1);
      w := ExtendWalk(g, n, rest);
    }
  }
}
