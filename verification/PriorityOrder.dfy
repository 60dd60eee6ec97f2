// `_priority_order`: features in whole tiers of met dependencies, each tier sorted by type and
// name, with everything a cycle blocks appended at the end.
module PriorityOrder {
  import opened DependencyGraph
  import Strings

  datatype Feature = Feature(folder: string, prefix: string, shortName: string, idea: bool, dependsOn: seq<string>)

  function TypeOrder(prefix: string): nat {
    if prefix == "feat" then 0 else if prefix == "infra" then 1 else if prefix == "epic" then 2 else if prefix == "chore" then 3 else 99
  }

  predicate InScope(f: Feature) { TypeOrder(f.prefix) < 99 && !f.idea }

  // The dict of features in scope: `names` in insertion order, each with its last value.
  datatype Scope = Scope(names: seq<string>, byName: map<string, Feature>)

  ghost predicate WfScope(s: Scope) {
    && Distinct(s.names)
    && (forall n :: n in s.names <==> n in s.byName)
    && forall n :: n in s.byName ==> s.byName[n].folder == n
  }

  function ScopeOf(features: seq<Feature>): (s: Scope)
    ensures WfScope(s)
  {
    if features == [] then Scope([], map[])
    else
      var last := |features| - 1;
      var rest, f := ScopeOf(features[..last]), features[last];
      if !InScope(f) then rest
      else Scope(if f.folder in rest.byName then rest.names else rest.names + [f.folder], rest.byName[f.folder := f])
  }

  lemma ScopeStep(init: seq<Feature>, f: Feature)
    ensures var rest := ScopeOf(init);
            ScopeOf(init + [f]) ==
            if !InScope(f) then rest
            else Scope(if f.folder in rest.byName then rest.names else rest.names + [f.folder], rest.byName[f.folder := f])
  {
    assert (init + [f])[..|init|] == init;
  }

  // The feature at i is the last of folder n.
  predicate LastOf(features: seq<Feature>, n: string, i: nat) {
    && i < |features| && InScope(features[i]) && features[i].folder == n
    && forall j :: i < j < |features| && InScope(features[j]) ==> features[j].folder != n
  }

  lemma LastOfGrows(init: seq<Feature>, f: Feature, n: string, i: nat)
    requires LastOf(init, n, i) && !(InScope(f) && f.folder == n)
    ensures i < |init| && LastOf(init + [f], n, i) && (init + [f])[i] == init[i]
  {
    hide InScope;
  }

  lemma ScopeValue(init: seq<Feature>, f: Feature, n: string)
    requires n in ScopeOf(init + [f]).byName
    ensures if InScope(f) && f.folder == n then ScopeOf(init + [f]).byName[n] == f
            else n in ScopeOf(init).byName && ScopeOf(init + [f]).byName[n] == ScopeOf(init).byName[n]
  {
    ScopeStep(init, f);
    hide ScopeOf, InScope, WfScope;
  }

  lemma SplitLast(features: seq<Feature>)
    requires features != []
    ensures features == features[..|features| - 1] + [features[|features| - 1]]
  {
  }

  lemma LastOfNew(init: seq<Feature>, f: Feature)
    requires InScope(f)
    ensures LastOf(init + [f], f.folder, |init|) && (init + [f])[|init|] == f
  {
  }

  // Folder n, if it is listed, stands for the last of its features in scope.
  ghost predicate LastValueKept(features: seq<Feature>, n: string) {
    n in ScopeOf(features).byName ==> exists i: nat :: i < |features| && LastOf(features, n, i) && ScopeOf(features).byName[n] == features[i]
  }

  lemma GrowthKeepsLastValue(init: seq<Feature>, f: Feature, n: string)
    requires LastValueKept(init, n)
    ensures LastValueKept(init + [f], n)
  {
    hide ScopeOf, LastOf, InScope, WfScope;
    if n in ScopeOf(init + [f]).byName {
      ScopeValue(init, f, n);
      if InScope(f) && f.folder == n {
        LastOfNew(init, f);
      } else {
        var i: nat :| i < |init| && LastOf(init, n, i) && ScopeOf(init).byName[n] == init[i];
        LastOfGrows(init, f, n, i);
      }
    }
  }

  lemma {:induction false} ScopeKeepsLastValue(features: seq<Feature>, n: string)
    ensures LastValueKept(features, n)
  {
    if features != [] {
      SplitLast(features);
      hide *;
      var last := |features| - 1;
      ScopeKeepsLastValue(features[..last], n);
      GrowthKeepsLastValue(features[..last], features[last], n);
    }
  }

  // The feature at i is the first of its folder.
  predicate Introduces(features: seq<Feature>, i: nat)
    requires i < |features|
  {
    InScope(features[i]) && forall k :: 0 <= k < i && InScope(features[k]) ==> features[k].folder != features[i].folder
  }

  lemma IntroducedEarlier(init: seq<Feature>, f: Feature, i: nat)
    requires i <= |init| && Introduces(init + [f], i)
    ensures i < |init| ==> Introduces(init, i) && init[i] == (init + [f])[i]
    ensures i == |init| ==> forall k :: 0 <= k < |init| && InScope(init[k]) ==> init[k].folder != f.folder
  {
    hide InScope;
    assert forall k :: 0 <= k < |init| ==> (init + [f])[k] == init[k];
  }

  lemma NamesGrow(init: seq<Feature>, f: Feature) returns (more: seq<string>)
    ensures ScopeOf(init + [f]).names == ScopeOf(init).names + more
  {
    ScopeStep(init, f);
    hide ScopeOf, InScope;
    more := if InScope(f) && f.folder !in ScopeOf(init).byName then [f.folder] else [];
  }

  lemma OrderSurvivesGrowth(names: seq<string>, more: seq<string>, a: string, b: string)
    requires a in names && (b in names ==> IndexOf(names, a) < IndexOf(names, b))
    ensures IndexOf(names + more, a) < IndexOf(names + more, b)
  {
    IndexIn(names, more, a);
    IndexIn(names, more, b);
    hide IndexOf;
  }

  // Folders are listed in the order in which they first appear.
  lemma {:induction false} ScopeKeepsFirstOrder(features: seq<Feature>, i: nat, j: nat)
    requires i < j < |features| && Introduces(features, i) && Introduces(features, j)
    ensures var names := ScopeOf(features).names;
            IndexOf(names, features[i].folder) < IndexOf(names, features[j].folder)
    decreases |features|
  {
    var last := |features| - 1;
    var init, f := features[..last], features[last];
    var a, b := features[i].folder, features[j].folder;
    SplitLast(features);
    IntroducedEarlier(init, f, i);
    IntroducedEarlier(init, f, j);
    assert InScope(init[i]);
    ScopeMembers(init, a);
    ScopeMembers(init, b);
    hide *;
    if j < last {
      ScopeKeepsFirstOrder(init, i, j);
    }
    var more := NamesGrow(init, f);
    OrderSurvivesGrowth(ScopeOf(init).names, more, a, b);
  }

  // Exactly the folders of features in scope are listed.
  lemma {:induction false} ScopeMembers(features: seq<Feature>, n: string)
    ensures n in ScopeOf(features).byName <==> exists i :: 0 <= i < |features| && InScope(features[i]) && features[i].folder == n
  {
    if features != [] {
      var init, f := features[..|features| - 1], features[|features| - 1];
      SplitLast(features);
      ScopeMembers(init, n);
      ScopeStep(init, f);
      hide ScopeOf, InScope, WfScope;
    }
  }

  // The first occurrence in a concatenation.
  lemma {:induction false} IndexIn(a: seq<string>, b: seq<string>, n: string)
    ensures IndexOf(a + b, n) == if n in a then IndexOf(a, n) else |a| + IndexOf(b, n)
  {
    if a == [] {
      assert a + b == b;
    } else {
      assert (a + b)[1..] == a[1..] + b && a == [a[0]] + a[1..];
      IndexIn(a[1..], b, n);
    }
  }

  // Dependencies outside the scope do not count.
  function Incoming(s: Scope): map<string, set<string>> { map n | n in s.byName :: IncomingOf(s, s.byName[n].dependsOn) }

  function IncomingOf(s: Scope, deps: seq<string>): set<string> { set d | d in deps && d in s.byName }

  function GraphOf(s: Scope): (g: Graph)
    requires WfScope(s)
    ensures Wf(g) && g.deps.Keys == s.byName.Keys
  {
    Graph(s.names, Incoming(s))
  }

  // ---------------------------------------------------------------------------
  // The tiebreaker
  // ---------------------------------------------------------------------------

  predicate KeyLess(f: Feature, g: Feature) {
    TypeOrder(f.prefix) < TypeOrder(g.prefix)
    || (TypeOrder(f.prefix) == TypeOrder(g.prefix) && Strings.Less(f.shortName, g.shortName))
  }

  function IndexOf(names: seq<string>, n: string): (i: nat)
    ensures i <= |names|
    ensures i < |names| ==> names[i] == n
    ensures n in names <==> i < |names|
  {
    if names == [] || names[0] == n then 0 else 1 + IndexOf(names[1..], n)
  }

  // A stable sort by key: ties stay in dict order.
  predicate Before(s: Scope, a: string, b: string)
    requires a in s.byName && b in s.byName
  {
    KeyLess(s.byName[a], s.byName[b])
    || (!KeyLess(s.byName[b], s.byName[a]) && IndexOf(s.names, a) < IndexOf(s.names, b))
  }

  lemma BeforeIsStrictOrder(s: Scope, a: string, b: string, c: string)
    requires WfScope(s) && a in s.byName && b in s.byName && c in s.byName
    ensures Before(s, a, b) && Before(s, b, c) ==> Before(s, a, c)
    ensures a == b || Before(s, a, b) || Before(s, b, a)
    ensures !(Before(s, a, b) && Before(s, b, a))
  {
    var f, g, h := s.byName[a], s.byName[b], s.byName[c];
    Strings.LessTrichotomy(f.shortName, g.shortName);
    Strings.LessTrichotomy(g.shortName, h.shortName);
    Strings.LessTrichotomy(f.shortName, h.shortName);
    if Strings.Less(f.shortName, g.shortName) && Strings.Less(g.shortName, h.shortName) {
      Strings.LessTransitive(f.shortName, g.shortName, h.shortName);
    }
  }

  // ---------------------------------------------------------------------------
  // What the order must be
  // ---------------------------------------------------------------------------

  // The tier of a feature; what a cycle blocks comes after all tiers.
  function Level(g: Graph, n: string): (t: nat)
    ensures n in Grounded(g) ==> t < |g.deps.Keys| && n in Round(g, t + 1) && n !in Round(g, t)
    ensures n !in Grounded(g) ==> t == |g.deps.Keys|
  {
    if n in Grounded(g) then Tier(g, n, |g.deps.Keys|) else |g.deps.Keys|
  }

  predicate Earlier(s: Scope, a: string, b: string)
    requires WfScope(s) && a in s.byName && b in s.byName
  {
    var g := GraphOf(s);
    Level(g, a) < Level(g, b) || (Level(g, a) == Level(g, b) && Before(s, a, b))
  }

  // Every feature in scope once, tier by tier, each tier by type, name and dict order.
  ghost predicate IsPriorityOrder(s: Scope, r: seq<string>)
    requires WfScope(s)
  {
    && (forall n :: n in r <==> n in s.byName)
    && forall i, j :: 0 <= i < j < |r| ==> Earlier(s, r[i], r[j])
  }

  lemma EarlierIsStrictOrder(s: Scope, a: string, b: string, c: string)
    requires WfScope(s) && a in s.byName && b in s.byName && c in s.byName
    ensures Earlier(s, a, b) && Earlier(s, b, c) ==> Earlier(s, a, c)
    ensures a == b || Earlier(s, a, b) || Earlier(s, b, a)
    ensures !(Earlier(s, a, b) && Earlier(s, b, a))
  {
    BeforeIsStrictOrder(s, a, b, c);
    hide Before, Level;
  }

  lemma NotBeforeItself(s: Scope, a: string)
    requires WfScope(s) && a in s.byName
    ensures !Earlier(s, a, a)
  {
    EarlierIsStrictOrder(s, a, a, a);
  }

  // The specification leaves no freedom.
  lemma {:induction false} OrderedListsAgree(s: Scope, r: seq<string>, q: seq<string>)
    requires WfScope(s)
    requires (forall n :: n in r ==> n in s.byName) && (forall n :: n in q <==> n in r)
    requires forall i, j :: 0 <= i < j < |r| ==> Earlier(s, r[i], r[j])
    requires forall i, j :: 0 <= i < j < |q| ==> Earlier(s, q[i], q[j])
    ensures r == q
    decreases |r|
  {
    hide Earlier, WfScope;
    if r == [] {
      EmptyWithoutMembers(q);
    } else {
      assert r[0] in q && q != [];
      HeadsAgree(s, r, q);
      forall n ensures n in q[1..] <==> n in r[1..] { TailMember(s, r, n); TailMember(s, q, n); }
      OrderedListsAgree(s, r[1..], q[1..]);
    }
  }

  lemma EmptyWithoutMembers(q: seq<string>)
    ensures (forall n :: n !in q) ==> q == []
  {
    if q != [] { assert q[0] in q; }
  }

  lemma TailMember(s: Scope, r: seq<string>, n: string)
    requires WfScope(s) && r != [] && (forall m :: m in r ==> m in s.byName)
    requires forall i, j :: 0 <= i < j < |r| ==> Earlier(s, r[i], r[j])
    ensures n in r[1..] <==> n in r && n != r[0]
  {
    NotBeforeItself(s, r[0]);
    hide Earlier, WfScope;
    assert r == [r[0]] + r[1..];
    forall j | 1 <= j < |r| ensures r[j] != r[0] { assert Earlier(s, r[0], r[j]); }
  }

  lemma HeadsAgree(s: Scope, r: seq<string>, q: seq<string>)
    requires WfScope(s) && r != [] && q != []
    requires (forall n :: n in r ==> n in s.byName) && (forall n :: n in q <==> n in r)
    requires forall i, j :: 0 <= i < j < |r| ==> Earlier(s, r[i], r[j])
    requires forall i, j :: 0 <= i < j < |q| ==> Earlier(s, q[i], q[j])
    ensures r[0] == q[0]
  {
    assert r[0] in q && q[0] in r;
    EarlierIsStrictOrder(s, r[0], q[0], q[0]);
    hide Earlier, WfScope;
    var i :| 0 <= i < |r| && r[i] == q[0];
    var j :| 0 <= j < |q| && q[j] == r[0];
  }

  lemma PriorityOrderUnique(s: Scope, r: seq<string>, q: seq<string>)
    requires WfScope(s) && IsPriorityOrder(s, r) && IsPriorityOrder(s, q)
    ensures r == q
  {
    OrderedListsAgree(s, r, q);
  }

  // ---------------------------------------------------------------------------
  // The algorithm
  // ---------------------------------------------------------------------------

  predicate SortedNames(s: Scope, names: seq<string>) {
    && (forall i :: 0 <= i < |names| ==> names[i] in s.byName)
    && forall i, j :: 0 <= i < j < |names| ==> Before(s, names[i], names[j])
  }

  // ready.sort(key=...): insertion keeps ties in the order they come in.
  function InsertName(s: Scope, sorted: seq<string>, n: string): (r: seq<string>)
    requires n in s.byName && forall m :: m in sorted ==> m in s.byName
    ensures forall m :: m in r <==> m in sorted || m == n
  {
    if sorted == [] then [n]
    else
      assert sorted == [sorted[0]] + sorted[1..];
      if KeyLess(s.byName[n], s.byName[sorted[0]]) then [n] + sorted
      else [sorted[0]] + InsertName(s, sorted[1..], n)
  }

  function SortNames(s: Scope, names: seq<string>): (r: seq<string>)
    requires forall m :: m in names ==> m in s.byName
    ensures forall m :: m in r <==> m in names
  {
    if names == [] then []
    else
      assert names == names[..|names| - 1] + [names[|names| - 1]];
      InsertName(s, SortNames(s, names[..|names| - 1]), names[|names| - 1])
  }

  // The names of a set in dict order.
  function InOrder(names: seq<string>, keep: set<string>): (r: seq<string>)
    ensures forall n :: n in r <==> n in names && n in keep
  {
    if names == [] then []
    else
      assert names == names[..|names| - 1] + [names[|names| - 1]];
      var rest, last := InOrder(names[..|names| - 1], keep), names[|names| - 1];
      if last in keep then rest + [last] else rest
  }

  lemma {:induction false} InsertSorts(s: Scope, sorted: seq<string>, n: string)
    requires WfScope(s) && SortedNames(s, sorted) && n in s.byName
    requires forall m :: m in sorted ==> IndexOf(s.names, m) < IndexOf(s.names, n)
    ensures SortedNames(s, InsertName(s, sorted, n))
  {
    hide WfScope;
    if sorted != [] {
      var head, tail := sorted[0], sorted[1..];
      assert sorted == [head] + tail;
      if KeyLess(s.byName[n], s.byName[head]) {
        forall j | 0 < j < |sorted| ensures Before(s, n, sorted[j]) { BeforeIsStrictOrder(s, n, head, sorted[j]); }
      } else {
        assert head in sorted;
        InsertSorts(s, tail, n);
        var rest := InsertName(s, tail, n);
        forall j | 0 <= j < |rest| ensures Before(s, head, rest[j]) {
          assert rest[j] in rest;
        }
      }
    }
  }

  lemma {:induction false} IndexGrows(names: seq<string>, m: string, n: string)
    requires m in names && m != n
    ensures IndexOf(names + [n], m) == IndexOf(names, m) < |names|
  {
    if names[0] != m {
      assert (names + [n])[1..] == names[1..] + [n];
      IndexGrows(names[1..], m, n);
    }
  }

  // Positions grow along any subsequence taken in order.
  lemma {:induction false} IndexOfPrefix(names: seq<string>, k: nat, n: string)
    requires Distinct(names) && k <= |names| && n in names[..k]
    ensures IndexOf(names, n) < k
    decreases |names|
  {
    var last := |names| - 1;
    if k == |names| {
      assert names[..k] == names;
    } else {
      assert names[..last][..k] == names[..k];
      IndexOfPrefix(names[..last], k, n);
      assert names == names[..last] + [names[last]];
      MemberOfPrefix(names, k, last, n);
      IndexGrows(names[..last], n, names[last]);
    }
  }

  lemma MemberOfPrefix(names: seq<string>, k: nat, last: nat, n: string)
    requires Distinct(names) && k <= last < |names| && n in names[..k]
    ensures n in names[..last] && n != names[last]
  {
    var i :| 0 <= i < k && names[..k][i] == n;
    assert names[..last][i] == n && names[i] != names[last];
  }

  lemma {:induction false} IndexOfAt(names: seq<string>, k: nat)
    requires Distinct(names) && k < |names|
    ensures IndexOf(names, names[k]) == k
  {
    if k > 0 {
      assert names[0] != names[k];
      forall i, j | 0 <= i < j < |names[1..]| ensures names[1..][i] != names[1..][j] { assert names[i + 1] != names[j + 1]; }
      IndexOfAt(names[1..], k - 1);
    }
  }

  lemma {:induction false} SortSorts(s: Scope, keep: set<string>, k: nat)
    requires WfScope(s) && keep <= s.byName.Keys && k <= |s.names|
    ensures SortedNames(s, SortNames(s, InOrder(s.names[..k], keep)))
    decreases k
  {
    if k > 0 {
      var shorter := s.names[..k - 1];
      assert s.names[..k][..k - 1] == shorter;
      SortSorts(s, keep, k - 1);
      var n := s.names[k - 1];
      if n in keep {
        var rest := InOrder(shorter, keep);
        assert InOrder(s.names[..k], keep) == rest + [n];
        assert (rest + [n])[..|rest|] == rest;
        IndexOfAt(s.names, k - 1);
        forall m | m in SortNames(s, rest) ensures IndexOf(s.names, m) < k - 1 { IndexOfPrefix(s.names, k - 1, m); }
        InsertSorts(s, SortNames(s, rest), n);
      }
    }
  }

  // The names of a set, sorted.
  function SortedBatch(s: Scope, keep: set<string>): (r: seq<string>)
    requires WfScope(s) && keep <= s.byName.Keys
    ensures forall n :: n in r <==> n in keep
  {
    SortNames(s, InOrder(s.names, keep))
  }

  lemma SortedBatchSorts(s: Scope, keep: set<string>)
    requires WfScope(s) && keep <= s.byName.Keys
    ensures SortedNames(s, SortedBatch(s, keep))
  {
    assert s.names[..|s.names|] == s.names;
    SortSorts(s, keep, |s.names|);
  }

  // ---------------------------------------------------------------------------
  // Tier by tier
  // ---------------------------------------------------------------------------

  // The tiers placed so far, in order.
  ghost predicate OrderedSoFar(s: Scope, r: seq<string>, placed: set<string>)
    requires WfScope(s)
  {
    && placed <= s.byName.Keys && (forall n :: n in r <==> n in placed)
    && forall i, j :: 0 <= i < j < |r| ==> r[i] in s.byName && r[j] in s.byName && Earlier(s, r[i], r[j])
  }

  lemma AppendBatch(s: Scope, r: seq<string>, placed: set<string>, batch: set<string>, level: nat)
    requires WfScope(s) && OrderedSoFar(s, r, placed) && batch <= s.byName.Keys
    requires forall n :: n in placed ==> Level(GraphOf(s), n) < level
    requires forall n :: n in batch ==> Level(GraphOf(s), n) == level
    ensures OrderedSoFar(s, r + SortedBatch(s, batch), placed + batch)
  {
    SortedBatchSorts(s, batch);
    var b := SortedBatch(s, batch);
    var q := r + b;
    forall i, j | 0 <= i < j < |q| ensures q[i] in s.byName && q[j] in s.byName && Earlier(s, q[i], q[j]) {
      if j < |r| {
      } else if i >= |r| {
        assert b[i - |r|] in b && b[j - |r|] in b;
      } else {
        assert r[i] in r && b[j - |r|] in b;
      }
    }
    hide SortedBatch, Before, Level;
  }

  lemma ReadyLevel(s: Scope, k: nat, n: string)
    requires WfScope(s) && n in Ready(GraphOf(s), Round(GraphOf(s), k))
    ensures Level(GraphOf(s), n) == k
  {
    var g := GraphOf(s);
    RoundAdds(g, k);
    RoundWithinGrounded(g, k + 1);
    TierUnique(g, n, k, Level(g, n));
  }

  lemma PlacedLevel(s: Scope, k: nat, n: string)
    requires WfScope(s) && n in Round(GraphOf(s), k)
    ensures Level(GraphOf(s), n) < k
  {
    var g := GraphOf(s);
    RoundWithinGrounded(g, k);
    var t := Tier(g, n, k);
    TierUnique(g, n, t, Level(g, n));
  }

  // With nothing ready, what is placed is everything the tiers ever reach.
  lemma StuckIsGrounded(s: Scope, k: nat)
    requires WfScope(s) && Ready(GraphOf(s), Round(GraphOf(s), k)) == {}
    ensures Round(GraphOf(s), k) == Grounded(GraphOf(s))
  {
    var g := GraphOf(s);
    RoundWithinGrounded(g, k);
    var n := |g.deps.Keys|;
    if k <= n { StuckForGood(g, k, n); } else { RoundsGrow(g, n, k); }
  }

  // The dependencies of one feature that are in scope.
  method CollectDeps(s: Scope, deps: seq<string>) returns (incoming: set<string>)
    ensures incoming == IncomingOf(s, deps)
  {
    incoming := {};
    for j := 0 to |deps|
      invariant incoming == IncomingOf(s, deps[..j])
    {
      OneMoreDep(s, deps[..j], deps[j]);
      assert deps[..j + 1] == deps[..j] + [deps[j]];
      hide IncomingOf;
      if deps[j] in s.byName {
        incoming := incoming + {deps[j]};
      }
    }
    assert deps[..|deps|] == deps;
  }

  method BuildIncoming(s: Scope) returns (incoming: map<string, set<string>>)
    requires WfScope(s)
    ensures incoming == Incoming(s) && incoming.Keys == s.byName.Keys
  {
    hide IncomingOf;
    incoming := map[];
    for i := 0 to |s.names|
      invariant incoming == map n | n in s.byName && n in s.names[..i] :: IncomingOf(s, s.byName[n].dependsOn)
    {
      var n := s.names[i];
      FreshName(s, i);
      var deps := CollectDeps(s, s.byName[n].dependsOn);
      incoming := incoming[n := deps];
      assert s.names[..i + 1] == s.names[..i] + [n];
    }
    assert s.names[..|s.names|] == s.names;
  }

  lemma OneMoreDep(s: Scope, deps: seq<string>, d: string)
    ensures IncomingOf(s, deps + [d]) == if d in s.byName then IncomingOf(s, deps) + {d} else IncomingOf(s, deps)
  {
  }

  lemma FreshName(s: Scope, i: nat)
    requires WfScope(s) && i < |s.names|
    ensures s.names[i] in s.byName && s.names[i] !in s.names[..i]
  {
    assert s.names[i] in s.names;
  }

  // Where the loop stands: k whole tiers placed, or everything.
  ghost predicate Placed(s: Scope, placed: set<string>, k: nat, stuck: bool)
    requires WfScope(s)
  {
    placed == if stuck then s.byName.Keys else Round(GraphOf(s), k)
  }

  // The features whose dependencies are all placed; when there are none, all that remain.
  method NextBatch(s: Scope, incoming: map<string, set<string>>, placed: set<string>, ghost k: nat)
    returns (ready: set<string>, ghost stuck: bool, ghost level: nat)
    requires WfScope(s) && incoming == Incoming(s) && Placed(s, placed, k, false) && |placed| < |s.byName.Keys|
    ensures ready <= s.byName.Keys && |placed + ready| > |placed| && Placed(s, placed + ready, k + 1, stuck)
    ensures forall n :: n in placed ==> Level(GraphOf(s), n) < level
    ensures forall n :: n in ready ==> Level(GraphOf(s), n) == level
    ensures |placed + ready| <= |s.byName.Keys|
    ensures stuck <==> Ready(GraphOf(s), placed) == {}
  {
    hide *;
    ready := set n | n in incoming && n !in placed && incoming[n] <= placed;
    ghost var first := ready;
    stuck := ready == {};
    if ready == {} {
      ready := set n | n in incoming && n !in placed;
    }
    level := BatchFacts(s, incoming, placed, k, first, ready);
    Grows(placed, ready, s.byName.Keys);
    SubsetCard(placed + ready, s.byName.Keys);
  }

  lemma BatchFacts(s: Scope, incoming: map<string, set<string>>, placed: set<string>, k: nat, first: set<string>, ready: set<string>)
    returns (level: nat)
    requires WfScope(s) && incoming == Incoming(s) && Placed(s, placed, k, false)
    requires first == set n | n in incoming && n !in placed && incoming[n] <= placed
    requires ready == if first == {} then set n | n in incoming && n !in placed else first
    ensures first == Ready(GraphOf(s), placed)
    ensures ready <= s.byName.Keys && placed <= s.byName.Keys && placed !! ready && (ready == {} ==> placed + ready == s.byName.Keys)
    ensures forall n :: n in placed ==> Level(GraphOf(s), n) < level
    ensures forall n :: n in ready ==> Level(GraphOf(s), n) == level
    ensures Placed(s, placed + ready, k + 1, first == {})
  {
    ReadyIs(s, incoming, placed, first);
    if first == {} {
      level := |GraphOf(s).deps.Keys|;
      AllRemaining(s, incoming, placed, ready);
      hide *;
      FallbackStep(s, k, placed, ready);
    } else {
      level := k;
      hide *;
      TierStep(s, k, placed, ready);
    }
  }

  lemma AllRemaining(s: Scope, incoming: map<string, set<string>>, placed: set<string>, ready: set<string>)
    requires incoming == Incoming(s) && ready == set n | n in incoming && n !in placed
    ensures ready == s.byName.Keys - placed
  {
    hide IncomingOf;
  }

  lemma ReadyIs(s: Scope, incoming: map<string, set<string>>, placed: set<string>, ready: set<string>)
    requires WfScope(s) && incoming == Incoming(s)
    requires ready == set n | n in incoming && n !in placed && incoming[n] <= placed
    ensures ready == Ready(GraphOf(s), placed)
  {
    hide IncomingOf;
  }

  lemma Start(s: Scope)
    requires WfScope(s)
    ensures OrderedSoFar(s, [], {}) && Placed(s, {}, 0, false)
  {
  }

  lemma StuckIsAll(s: Scope, placed: set<string>, k: nat, stuck: bool)
    requires WfScope(s) && Placed(s, placed, k, stuck)
    ensures stuck ==> placed == s.byName.Keys
  {
  }

  // Whole tiers of ready features, each sorted; when none is ready, everything that remains.
  // `stuck` says whether that happened.
  method OrderNames(s: Scope) returns (ordered: seq<string>, ghost stuck: bool)
    requires WfScope(s)
    ensures IsPriorityOrder(s, ordered)
    ensures stuck <==> Grounded(GraphOf(s)) != s.byName.Keys
  {
    Start(s);
    hide *;
    var incoming := BuildIncoming(s);
    var placed: set<string> := {};
    ordered := [];
    ghost var k := 0;
    stuck := false;
    while |placed| < |incoming.Keys|
      invariant OrderedSoFar(s, ordered, placed) && Placed(s, placed, k, stuck) && |placed| <= |incoming.Keys|
      invariant stuck ==> Grounded(GraphOf(s)) != s.byName.Keys
      decreases |incoming.Keys| - |placed|
    {
      StuckIsAll(s, placed, k, stuck);
      var ready: set<string>;
      ghost var level: nat;
      StuckMissesSome(s, placed, k);
      ready, stuck, level := NextBatch(s, incoming, placed, k);
      AppendBatch(s, ordered, placed, ready, level);
      ordered := ordered + SortedBatch(s, ready);
      placed := placed + ready;
      k := k + 1;
    }
    AllPlaced(s, ordered, placed, k, stuck);
  }

  lemma AllPlaced(s: Scope, r: seq<string>, placed: set<string>, k: nat, stuck: bool)
    requires WfScope(s) && OrderedSoFar(s, r, placed) && Placed(s, placed, k, stuck) && |placed| >= |s.byName.Keys|
    ensures IsPriorityOrder(s, r)
    ensures !stuck ==> Grounded(GraphOf(s)) == s.byName.Keys
  {
    SubsetCard(placed, s.byName.Keys);
    OrderedMeansPriority(s, r);
    if !stuck { RoundWithinGrounded(GraphOf(s), k); }
    hide Ready, Earlier;
  }

  lemma StuckMissesSome(s: Scope, placed: set<string>, k: nat)
    requires WfScope(s) && Placed(s, placed, k, false) && |placed| < |s.byName.Keys|
    ensures Ready(GraphOf(s), placed) == {} ==> Grounded(GraphOf(s)) != s.byName.Keys
  {
    if Ready(GraphOf(s), placed) == {} { StuckIsGrounded(s, k); }
    hide Ready;
  }

  lemma Grows(placed: set<string>, ready: set<string>, all: set<string>)
    requires placed <= all && |placed| < |all| && placed !! ready
    requires ready != {} || placed + ready == all
    ensures |placed + ready| > |placed|
  {
    assert ready == {} ==> placed + ready == placed;
  }

  // One more tier.
  lemma TierStep(s: Scope, k: nat, placed: set<string>, ready: set<string>)
    requires WfScope(s) && Placed(s, placed, k, false) && ready == Ready(GraphOf(s), placed) && ready != {}
    ensures ready <= s.byName.Keys && placed <= s.byName.Keys && placed !! ready
    ensures forall n :: n in placed ==> Level(GraphOf(s), n) < k
    ensures forall n :: n in ready ==> Level(GraphOf(s), n) == k
    ensures Placed(s, placed + ready, k + 1, false)
  {
    RoundAdds(GraphOf(s), k);
    forall n | n in placed ensures Level(GraphOf(s), n) < k { PlacedLevel(s, k, n); }
    forall n | n in ready ensures Level(GraphOf(s), n) == k { ReadyLevel(s, k, n); }
    ReadyIsNew(GraphOf(s), placed);
    hide Ready, Level, Grounded;
  }

  lemma ReadyIsNew(g: Graph, placed: set<string>)
    ensures Ready(g, placed) <= g.deps.Keys && placed !! Ready(g, placed)
  {
  }

  // The fallback: everything that remains.
  lemma FallbackStep(s: Scope, k: nat, placed: set<string>, ready: set<string>)
    requires WfScope(s) && Placed(s, placed, k, false) && Ready(GraphOf(s), placed) == {} && ready == s.byName.Keys - placed
    ensures ready <= s.byName.Keys && placed <= s.byName.Keys && placed !! ready && placed + ready == s.byName.Keys
    ensures forall n :: n in placed ==> Level(GraphOf(s), n) < |GraphOf(s).deps.Keys|
    ensures forall n :: n in ready ==> Level(GraphOf(s), n) == |GraphOf(s).deps.Keys|
    ensures Placed(s, placed + ready, k + 1, true)
  {
    StuckIsGrounded(s, k);
    assert placed == Grounded(GraphOf(s)) && placed <= s.byName.Keys;
    assert placed + ready == s.byName.Keys;
    assert Placed(s, placed + ready, k + 1, true);
    hide *;
    forall n | n in placed ensures Level(GraphOf(s), n) < |GraphOf(s).deps.Keys| {}
    forall n | n in ready ensures Level(GraphOf(s), n) == |GraphOf(s).deps.Keys| {}
  }

  lemma OrderedMeansPriority(s: Scope, r: seq<string>)
    requires WfScope(s) && OrderedSoFar(s, r, s.byName.Keys)
    ensures IsPriorityOrder(s, r)
  {
  }

  // The features in the order of their names.
  function Listed(s: Scope, names: seq<string>): (r: seq<Feature>)
    requires forall n :: n in names ==> n in s.byName
    ensures |r| == |names| && forall i :: 0 <= i < |r| ==> r[i] == s.byName[names[i]]
  {
    seq(|names|, i requires 0 <= i < |names| => s.byName[names[i]])
  }

  function Folders(features: seq<Feature>): (r: seq<string>)
    ensures |r| == |features| && forall i :: 0 <= i < |r| ==> r[i] == features[i].folder
  {
    seq(|features|, i requires 0 <= i < |features| => features[i].folder)
  }

  // `_priority_order`
  method PriorityOrder(features: seq<Feature>) returns (ordered: seq<Feature>)
    ensures IsPriorityOrder(ScopeOf(features), Folders(ordered))
    ensures ordered == Listed(ScopeOf(features), Folders(ordered))
  {
    var s := ScopeOf(features);
    var order, _ := OrderNames(s);
    ordered := Listed(s, order);
    assert Folders(ordered) == order;
  }

  // ---------------------------------------------------------------------------
  // What the order is good for
  // ---------------------------------------------------------------------------

  // A dependency of a feature no cycle blocks is in an earlier tier.
  lemma DependencyLevel(g: Graph, n: string, d: string)
    requires Wf(g) && n in Grounded(g) && n in g.deps && d in g.deps[n]
    ensures d in Grounded(g) && Level(g, d) < Level(g, n)
  {
    var t := Level(g, n);
    RoundIsClosed(g, t + 1, n);
    RoundWithinGrounded(g, t);
    var u := Tier(g, d, t);
    TierUnique(g, d, u, Level(g, d));
  }

  lemma LevelDecides(s: Scope, r: seq<string>, a: string, b: string)
    requires WfScope(s) && IsPriorityOrder(s, r) && a in s.byName && b in s.byName
    requires Level(GraphOf(s), a) < Level(GraphOf(s), b)
    ensures IndexOf(r, a) < IndexOf(r, b)
  {
    NotEarlier(s, b, a);
    hide *;
    ListedOnce(s, r, a);
    ListedOnce(s, r, b);
    var i, j := IndexOf(r, a), IndexOf(r, b);
    InPlace(s, r, j, i);
  }

  lemma ListedOnce(s: Scope, r: seq<string>, n: string)
    requires WfScope(s) && IsPriorityOrder(s, r) && n in s.byName
    ensures n in r
  {
    hide Earlier;
  }

  lemma InPlace(s: Scope, r: seq<string>, i: nat, j: nat)
    requires WfScope(s) && IsPriorityOrder(s, r) && i < |r| && j < |r|
    ensures r[i] in s.byName && r[j] in s.byName && (i < j ==> Earlier(s, r[i], r[j]))
  {
    hide Earlier;
    assert r[i] in r && r[j] in r;
  }

  lemma NotEarlier(s: Scope, a: string, b: string)
    requires WfScope(s) && a in s.byName && b in s.byName && Level(GraphOf(s), b) < Level(GraphOf(s), a)
    ensures !Earlier(s, a, b)
  {
  }

  // A feature that depends on no cycle comes after all its dependencies.
  lemma DependenciesFirst(s: Scope, r: seq<string>, n: string, d: string)
    requires WfScope(s) && IsPriorityOrder(s, r) && n in s.byName && d in Incoming(s)[n]
    requires !ReachesCycle(GraphOf(s), n)
    ensures d in s.byName && IndexOf(r, d) < IndexOf(r, n)
  {
    var g := GraphOf(s);
    GroundedIff(g, n);
    DependencyLevel(g, n, d);
    LevelDecides(s, r, d, n);
  }

  // The features a cycle blocks are exactly the tail of the order.
  lemma BlockedComeLast(s: Scope, r: seq<string>, n: string, m: string)
    requires WfScope(s) && IsPriorityOrder(s, r) && n in s.byName && m in s.byName
    requires !ReachesCycle(GraphOf(s), n) && ReachesCycle(GraphOf(s), m)
    ensures IndexOf(r, n) < IndexOf(r, m)
  {
    GroundedIff(GraphOf(s), n);
    GroundedIff(GraphOf(s), m);
    LevelDecides(s, r, n, m);
  }

  ghost predicate Acyclic(s: Scope)
    requires WfScope(s)
  {
    forall n :: n in s.byName ==> !ReachesCycle(GraphOf(s), n)
  }

  // The fallback is taken exactly if some feature depends on a cycle.
  lemma FallbackIff(s: Scope)
    requires WfScope(s)
    ensures Grounded(GraphOf(s)) == s.byName.Keys <==> Acyclic(s)
  {
    var g := GraphOf(s);
    forall n | n in s.byName ensures n in Grounded(g) <==> !ReachesCycle(g, n) { GroundedIff(g, n); }
    assert Grounded(g) <= s.byName.Keys;
  }

  ghost predicate AllDependenciesFirst(s: Scope, r: seq<string>)
    requires WfScope(s)
  {
    forall n, d :: n in s.byName && d in Incoming(s)[n] ==> IndexOf(r, d) < IndexOf(r, n)
  }

  lemma {:induction false} WalkGoesBack(s: Scope, r: seq<string>, w: seq<string>, i: nat, j: nat)
    requires WfScope(s) && AllDependenciesFirst(s, r) && Walk(GraphOf(s), w) && i <= j < |w|
    ensures IndexOf(r, w[j]) <= IndexOf(r, w[i]) && (i < j ==> IndexOf(r, w[j]) < IndexOf(r, w[i]))
    decreases j
  {
    if i < j {
      WalkGoesBack(s, r, w, i, j - 1);
      assert w[j - 1 + 1] in GraphOf(s).deps[w[j - 1]];
    }
  }

  // Every feature comes after all its dependencies exactly if there is no cycle.
  lemma TopologicalIff(s: Scope, r: seq<string>)
    requires WfScope(s) && IsPriorityOrder(s, r)
    ensures AllDependenciesFirst(s, r) <==> Acyclic(s)
  {
    if Acyclic(s) {
      forall n, d | n in s.byName && d in Incoming(s)[n] ensures IndexOf(r, d) < IndexOf(r, n) {
        DependenciesFirst(s, r, n, d);
      }
    }
    if AllDependenciesFirst(s, r) {
      forall n | n in s.byName ensures !ReachesCycle(GraphOf(s), n) { NoCycleAround(s, r, n); }
    }
  }

  lemma NoCycleAround(s: Scope, r: seq<string>, n: string)
    requires WfScope(s) && AllDependenciesFirst(s, r)
    ensures !ReachesCycle(GraphOf(s), n)
  {
    forall w, i, j | Walk(GraphOf(s), w) && w[0] == n && 0 <= i < j < |w| ensures w[i] != w[j] {
      WalkGoesBack(s, r, w, i, j);
    }
  }

  // A feature's tier is the length of its longest chain of dependencies.
  lemma TierIsLongestChain(s: Scope, n: string) returns (longest: seq<string>)
    requires WfScope(s) && n in s.byName && !ReachesCycle(GraphOf(s), n)
    ensures Walk(GraphOf(s), longest) && longest[0] == n && |longest| - 1 == Level(GraphOf(s), n)
    ensures forall w :: Walk(GraphOf(s), w) && w[0] == n ==> |w| <= |longest|
  {
    var g := GraphOf(s);
    GroundedIff(g, n);
    var t := Level(g, n);
    longest := LongestChain(g, n, t);
    forall w | Walk(g, w) && w[0] == n ensures |w| - 1 <= t { WalksAreShort(g, n, t, w); }
  }
}
