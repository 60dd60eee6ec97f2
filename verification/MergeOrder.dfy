// `_expand_transitive_deps`: the sentinel for "all backend features", expanded in place, and
// the merge order that scopes it for shipped features.
module MergeOrder {
  import opened Common
  import opened DependencyGraph
  import Strings

  const SENTINEL := "__ALL_BACKEND__"

  // What the merge order reads of a feature.
  datatype Facts = Facts(folder: string, prefix: string, mergedDate: Option<string>, prNumber: Option<int>)

  // Tuples compare lexicographically; a missing or empty date sorts last, and so does a
  // missing pull-request number within its date.
  datatype Key = Key(date: string, number: int, folder: string)

  function MergeOrderKey(f: Facts): Key {
    Key(if f.mergedDate.Some? && f.mergedDate.value != "" then f.mergedDate.value else "9999-99-99",
        if f.prNumber.Some? then f.prNumber.value else 999_999,
        f.folder)
  }

  predicate Before(a: Key, b: Key) {
    Strings.Less(a.date, b.date)
    || (a.date == b.date && (a.number < b.number || (a.number == b.number && Strings.Less(a.folder, b.folder))))
  }

  lemma BeforeIsStrictOrder(a: Key, b: Key, c: Key)
    ensures Before(a, b) && Before(b, c) ==> Before(a, c)
    ensures a == b || Before(a, b) || Before(b, a)
    ensures !(Before(a, b) && Before(b, a)) && !Before(a, a)
  {
    Strings.LessTrichotomy(a.date, b.date);
    Strings.LessTrichotomy(b.date, c.date);
    Strings.LessTrichotomy(a.folder, b.folder);
    Strings.LessTrichotomy(b.folder, c.folder);
    if Strings.Less(a.date, b.date) && Strings.Less(b.date, c.date) { Strings.LessTransitive(a.date, b.date, c.date); }
    if Strings.Less(a.folder, b.folder) && Strings.Less(b.folder, c.folder) { Strings.LessTransitive(a.folder, b.folder, c.folder); }
  }

  predicate Backend(f: Facts) { f.prefix in {"infra", "feat"} }

  predicate Shipped(f: Facts) { f.mergedDate.Some? }

  // Whether the sentinel of f stands for g.
  predicate Covers(f: Facts, g: Facts) {
    Backend(g) && g.folder != f.folder && (Shipped(f) ==> Before(MergeOrderKey(g), MergeOrderKey(f)))
  }

  // ---------------------------------------------------------------------------
  // The expansion
  // ---------------------------------------------------------------------------

  class Feature {
    const facts: Facts
    var dependsOn: seq<string>

    constructor (facts: Facts, dependsOn: seq<string>)
      ensures this.facts == facts && this.dependsOn == dependsOn
    {
      this.facts, this.dependsOn := facts, dependsOn;
    }
  }

  function AllFacts(features: seq<Feature>): (r: seq<Facts>)
    ensures |r| == |features| && forall i :: 0 <= i < |r| ==> r[i] == features[i].facts
  {
    seq(|features|, i requires 0 <= i < |features| => features[i].facts)
  }

  // What a feature depends on after the expansion: d is an explicit dependency, or a folder
  // the sentinel covers; never the feature itself.
  predicate DependsAfter(all: seq<Facts>, f: Facts, before: seq<string>, d: string) {
    if SENTINEL !in before then d in before
    else d != f.folder && ((d in before && d != SENTINEL) || exists i :: 0 <= i < |all| && Covers(f, all[i]) && all[i].folder == d)
  }

  // What the rewritten list must be: those dependencies, sorted and without duplicates.
  ghost predicate IsExpanded(all: seq<Facts>, f: Facts, before: seq<string>, after: seq<string>) {
    if SENTINEL !in before then after == before
    else Strings.Increasing(after) && forall d :: d in after <==> DependsAfter(all, f, before, d)
  }

  // The folders the sentinel of f stands for.
  method ScopedFolders(all: seq<Facts>, f: Facts) returns (scoped: seq<string>)
    ensures forall d :: d in scoped <==> exists i :: 0 <= i < |all| && Backend(all[i]) &&
                                           (Shipped(f) ==> Before(MergeOrderKey(all[i]), MergeOrderKey(f))) && all[i].folder == d
  {
    scoped := [];
    var selfKey := MergeOrderKey(f);
    for i := 0 to |all|
      invariant forall d :: d in scoped <==> exists k :: 0 <= k < i && Backend(all[k]) &&
                                               (Shipped(f) ==> Before(MergeOrderKey(all[k]), selfKey)) && all[k].folder == d
    {
      if Backend(all[i]) && (!Shipped(f) || Before(MergeOrderKey(all[i]), selfKey)) {
        scoped := scoped + [all[i].folder];
      }
    }
  }

  // set(explicit) | scoped, without the feature's own folder.
  function Without(list: seq<string>, x: string): (r: seq<string>)
    ensures forall d :: d in r <==> d in list && d != x
  {
    if list == [] then []
    else
      assert list == [list[0]] + list[1..];
      if list[0] == x then Without(list[1..], x) else [list[0]] + Without(list[1..], x)
  }

  // The in-place rewrite of one feature.
  method ExpandOne(all: seq<Facts>, f: Feature)
    modifies f
    ensures IsExpanded(all, f.facts, old(f.dependsOn), f.dependsOn)
  {
    if SENTINEL !in f.dependsOn {
      return;
    }
    var explicit := Without(f.dependsOn, SENTINEL);
    var scoped := ScopedFolders(all, f.facts);
    f.dependsOn := Strings.SortedSet(Without(explicit + scoped, f.facts.folder));
  }

  method ExpandTransitiveDeps(features: seq<Feature>)
    requires forall i, j :: 0 <= i < j < |features| ==> features[i] != features[j]
    modifies features
    ensures forall i :: 0 <= i < |features| ==>
                          IsExpanded(AllFacts(features), features[i].facts, old(features[i].dependsOn), features[i].dependsOn)
  {
    var all := AllFacts(features);
    for i := 0 to |features|
      invariant forall k :: 0 <= k < i ==> IsExpanded(all, features[k].facts, old(features[k].dependsOn), features[k].dependsOn)
      invariant forall k :: i <= k < |features| ==> features[k].dependsOn == old(features[k].dependsOn)
    {
      ExpandOne(all, features[i]);
    }
  }

  // Expanding again changes nothing.
  lemma ExpansionIsFinal(all: seq<Facts>, f: Facts, before: seq<string>, after: seq<string>, again: seq<string>)
    requires IsExpanded(all, f, before, after) && IsExpanded(all, f, after, again)
    requires forall i :: 0 <= i < |all| ==> all[i].folder != SENTINEL
    ensures again == after
  {
    if SENTINEL in before { assert !DependsAfter(all, f, before, SENTINEL); }
  }

  // ---------------------------------------------------------------------------
  // Cycles
  // ---------------------------------------------------------------------------

  // Features with distinct folders, those in `marked` with the sentinel.
  predicate DistinctFolders(all: seq<Facts>) {
    forall i, j :: 0 <= i < j < |all| ==> all[i].folder != all[j].folder
  }

  // The edges the sentinels alone make, by feature index.
  predicate Edge(all: seq<Facts>, marked: set<nat>, i: nat, j: nat) {
    i < |all| && j < |all| && i in marked && Covers(all[i], all[j])
  }

  predicate SentinelWalk(all: seq<Facts>, marked: set<nat>, w: seq<nat>) {
    |w| >= 1 && forall k :: 0 <= k < |w| - 1 ==> Edge(all, marked, w[k], w[k + 1])
  }

  // A closed walk along sentinel edges.
  predicate SentinelCycle(all: seq<Facts>, marked: set<nat>, w: seq<nat>) {
    SentinelWalk(all, marked, w) && |w| >= 2 && w[0] == w[|w| - 1]
  }

  // A sentinel edge of a shipped feature goes strictly back in merge order.
  lemma {:induction false} ShippedWalkGoesBack(all: seq<Facts>, marked: set<nat>, w: seq<nat>, j: nat)
    requires SentinelWalk(all, marked, w) && j < |w|
    requires forall k :: 0 <= k < j ==> w[k] < |all| && Shipped(all[w[k]])
    ensures j > 0 ==> w[0] < |all| && w[j] < |all| && Before(MergeOrderKey(all[w[j]]), MergeOrderKey(all[w[0]]))
    decreases j
  {
    if j > 0 {
      ShippedWalkGoesBack(all, marked, w, j - 1);
      assert Edge(all, marked, w[j - 1], w[j - 1 + 1]);
      BeforeIsStrictOrder(MergeOrderKey(all[w[j]]), MergeOrderKey(all[w[j - 1]]), MergeOrderKey(all[w[0]]));
    }
  }

  // So the sentinels of shipped features alone never form a cycle.
  lemma ShippedSentinelsAreAcyclic(all: seq<Facts>, marked: set<nat>, w: seq<nat>)
    requires forall i :: i in marked && i < |all| ==> Shipped(all[i])
    ensures !SentinelCycle(all, marked, w)
  {
    if SentinelCycle(all, marked, w) {
      forall k | 0 <= k < |w| - 1 ensures w[k] < |all| && Shipped(all[w[k]]) { assert Edge(all, marked, w[k], w[k + 1]); }
      ShippedWalkGoesBack(all, marked, w, |w| - 1);
      BeforeIsStrictOrder(MergeOrderKey(all[w[0]]), MergeOrderKey(all[w[0]]), MergeOrderKey(all[w[0]]));
    }
  }

  // A planned sentinel p that some other backend sentinel q covers.
  predicate MutualPair(all: seq<Facts>, marked: set<nat>, p: nat, q: nat) {
    p < |all| && !Shipped(all[p]) && Edge(all, marked, q, p) && p in marked && Backend(all[q])
  }

  lemma PairIsCycle(all: seq<Facts>, marked: set<nat>, p: nat, q: nat)
    requires MutualPair(all, marked, p, q)
    ensures SentinelCycle(all, marked, [p, q, p])
  {
    assert Edge(all, marked, p, q);
  }

  // Every cycle passes through a planned sentinel, whose predecessor makes the pair.
  lemma CycleHasPair(all: seq<Facts>, marked: set<nat>, w: seq<nat>) returns (p: nat, q: nat)
    requires SentinelCycle(all, marked, w)
    ensures MutualPair(all, marked, p, q)
  {
    var last := |w| - 1;
    var k := PlannedOnCycle(all, marked, w);
    p := w[k];
    var before := if k > 0 then k - 1 else last - 1;
    q := w[before];
    assert Edge(all, marked, w[before], w[before + 1]);
    assert Edge(all, marked, w[k], w[k + 1]);
    var earlier := if before > 0 then before - 1 else last - 1;
    assert Edge(all, marked, w[earlier], w[earlier + 1]);
  }

  lemma PlannedOnCycle(all: seq<Facts>, marked: set<nat>, w: seq<nat>) returns (k: nat)
    requires SentinelCycle(all, marked, w)
    ensures k < |w| - 1 && w[k] < |all| && !Shipped(all[w[k]])
  {
    forall i | 0 <= i < |w| - 1 ensures w[i] < |all| { assert Edge(all, marked, w[i], w[i + 1]); }
    SomePlannedOnCycle(all, marked, w);
    k :| 0 <= k < |w| - 1 && !Shipped(all[w[k]]);
  }

  lemma SomePlannedOnCycle(all: seq<Facts>, marked: set<nat>, w: seq<nat>)
    requires SentinelCycle(all, marked, w) && forall i :: 0 <= i < |w| - 1 ==> w[i] < |all|
    ensures exists k :: 0 <= k < |w| - 1 && !Shipped(all[w[k]])
  {
    if forall i :: 0 <= i < |w| - 1 ==> Shipped(all[w[i]]) {
      ShippedWalkGoesBack(all, marked, w, |w| - 1);
      BeforeIsStrictOrder(MergeOrderKey(all[w[0]]), MergeOrderKey(all[w[0]]), MergeOrderKey(all[w[0]]));
    }
  }

  // The sentinels form a cycle exactly if a planned feature with the sentinel is covered by
  // the sentinel of another backend feature: two planned ones are enough.
  lemma SentinelCycleIff(all: seq<Facts>, marked: set<nat>)
    ensures (exists w :: SentinelCycle(all, marked, w)) <==> (exists p, q :: MutualPair(all, marked, p, q))
  {
    if w :| SentinelCycle(all, marked, w) {
      var p, q := CycleHasPair(all, marked, w);
    }
    if p, q :| MutualPair(all, marked, p, q) {
      PairIsCycle(all, marked, p, q);
    }
  }
}
