// The persistent clone of a config repo: whatever a previous run left in it, the branch built
// next is the remote base with the params file overridden and nothing else changed.
module GitClone {
  import opened Common
  import opened ConfigDiff

  datatype Blob = Text(file: File) | Binary(id: nat)

  // A commit, the index and a working tree, by path.
  type Tree = map<string, Blob>

  // What happens to `current` when HEAD moves from one tree to another: paths on which the two
  // agree keep their local state.
  function Switched(current: Tree, from: Tree, to: Tree): (r: Tree)
    ensures from == to ==> r == current
  {
    if from == to then current
    else
      map p | p in (current.Keys + to.Keys) &&
              (if SameAt(from, to, p) then p in current else p in to) ::
        if SameAt(from, to, p) then current[p] else to[p]
  }

  predicate SameAt(a: Tree, b: Tree, p: string) { (p in a <==> p in b) && (p in a ==> a[p] == b[p]) }

  // The base with the params file overridden, and the chart if there is one.
  function Branched(base: Tree, paramsPath: string, merged: map<string, Json>, chart: Option<(string, Blob)>): Tree {
    var t := base[paramsPath := Text(Object(merged, 0))];
    if chart.Some? then t[chart.value.0 := chart.value.1] else t
  }

  // What is at a path of the checked-out base.
  function FileAt(t: Tree, path: string): File {
    if path in t && t[path].Text? then t[path].file else if path in t then NotObject else Missing
  }

  datatype Built = Ready | DiffRefused(error: Error) | NothingToCommit

  class Clone {
    var head: string
    var refs: map<string, Tree>
    var originBase: Tree
    var index: Tree
    var work: Tree

    // Any state a previous run may have left.
    constructor (head: string, refs: map<string, Tree>, originBase: Tree, index: Tree, work: Tree)
      ensures this.head == head && this.refs == refs && this.originBase == originBase && this.index == index && this.work == work
    {
      this.head, this.refs, this.originBase, this.index, this.work := head, refs, originBase, index, work;
    }

    // git fetch origin {base}
    method Fetch(remoteBase: Tree)
      modifies `originBase
      ensures originBase == remoteBase
    {
      originBase := remoteBase;
    }

    // git reset --hard origin/{base}: untracked files stay unless the base has their path.
    method ResetHard()
      modifies `refs, `index, `work
      ensures refs == old(refs)[head := originBase] && index == originBase
      ensures forall p :: p in originBase ==> p in work && work[p] == originBase[p]
      ensures forall p :: p in work ==> p in originBase || (p in old(work) && p !in old(index) && work[p] == old(work)[p])
    {
      refs := refs[head := originBase];
      work := (map p | p in work && p !in index :: work[p]) + originBase;
      index := originBase;
    }

    // git clean -fdx
    method Clean()
      modifies `work
      ensures work == map p | p in old(work) && p in index :: old(work)[p]
    {
      work := map p | p in work && p in index :: work[p];
    }

    // git checkout -B {branch} origin/{base}
    method CheckoutNew(branch: string)
      requires head in refs
      modifies `head, `refs, `index, `work
      ensures head == branch && refs == old(refs)[branch := originBase]
      ensures index == Switched(old(index), old(refs)[old(head)], originBase)
      ensures work == Switched(old(work), old(refs)[old(head)], originBase)
    {
      var from := refs[head];
      index, work := Switched(index, from, originBase), Switched(work, from, originBase);
      head, refs := branch, refs[branch := originBase];
    }

    // `_prepare_branch`: from any dirty state to a clean branch at the remote base.
    method PrepareBranch(remoteBase: Tree, branch: string)
      modifies this
      ensures head == branch && originBase == remoteBase
      ensures index == remoteBase && work == remoteBase
      ensures branch in refs && refs[branch] == remoteBase
      ensures forall b :: b != branch && b != old(head) ==> (b in refs <==> b in old(refs)) && (b in refs ==> refs[b] == old(refs)[b])
    {
      Fetch(remoteBase);
      ResetHard();
      Clean();
      assert work == remoteBase;
      CheckoutNew(branch);
    }

    // git add -- {path}
    method Add(path: string)
      requires path in work
      modifies `index
      ensures index == old(index)[path := work[path]]
    {
      index := index[path := work[path]];
    }

    // git commit: refuses when the index equals HEAD.
    method Commit() returns (ok: bool)
      requires head in refs
      modifies `refs
      ensures ok <==> index != old(refs)[head]
      ensures refs == if ok then old(refs)[head := index] else old(refs)
    {
      ok := index != refs[head];
      if ok {
        refs := refs[head := index];
      }
    }

    // Applying the diff to the checked-out params file and committing it, then the chart.
    // A refused diff leaves the working tree as it was.
    method BuildBranch(remoteBase: Tree, branch: string, paramsPath: string, diff: seq<Entry>, declared: map<string, Json>,
                       chart: Option<(string, Blob)>) returns (r: Built, ghost merged: map<string, Json>)
      requires DistinctKeys(diff) && (chart.Some? ==> chart.value.0 != paramsPath)
      modifies this
      ensures head == branch && branch in refs
      ensures var base := Parsed(FileAt(remoteBase, paramsPath));
              && (r.DiffRefused? <==> base.None? || exists i :: 0 <= i < |diff| && !Good(diff[i], declared))
              && (!r.DiffRefused? ==> base.Some? && OverriddenAt(merged, base.value, diff))
              && (r.Ready? ==> refs[branch] == Branched(remoteBase, paramsPath, merged, chart))
              && (r.NothingToCommit? <==>
                    !r.DiffRefused? && (FileAt(remoteBase, paramsPath) == Object(merged, 0)
                                        || (chart.Some? && chart.value.0 in remoteBase && remoteBase[chart.value.0] == chart.value.1)))
      ensures r.DiffRefused? ==> work == remoteBase && refs[branch] == remoteBase
    {
      PrepareBranch(remoteBase, branch);
      var file := new ParamsFile(FileAt(work, paramsPath));
      var outcome := file.ApplyConfigDiff(diff, declared);
      merged := map[];
      if outcome.Refused? {
        return DiffRefused(outcome.error), merged;
      }
      merged := outcome.merged;
      r := CommitFiles(remoteBase, branch, paramsPath, outcome.merged, chart);
    }

    method CommitFiles(ghost remoteBase: Tree, branch: string, paramsPath: string, merged: map<string, Json>,
                       chart: Option<(string, Blob)>) returns (r: Built)
      requires head == branch && index == work == remoteBase && branch in refs && refs[branch] == remoteBase
      requires chart.Some? ==> chart.value.0 != paramsPath
      modifies this
      ensures head == branch && branch in refs && !r.DiffRefused?
      ensures r.Ready? ==> refs[branch] == Branched(remoteBase, paramsPath, merged, chart)
      ensures r.NothingToCommit? <==>
                (paramsPath in remoteBase && remoteBase[paramsPath] == Text(Object(merged, 0)))
                || (chart.Some? && chart.value.0 in remoteBase && remoteBase[chart.value.0] == chart.value.1)
    {
      work := work[paramsPath := Text(Object(merged, 0))];
      if chart.Some? {
        work := work[chart.value.0 := chart.value.1];
      }
      Add(paramsPath);
      var ok := Commit();
      if !ok {
        assert index[paramsPath] == remoteBase[paramsPath];
        return NothingToCommit;
      }
      if chart.Some? {
        Add(chart.value.0);
        ok := Commit();
        if !ok {
          return NothingToCommit;
        }
      }
      return Ready;
    }
  }

  // What the remote then shows: every path but the params file and the chart is the base's,
  // and the params file holds the base object overridden exactly at the diff's keys.
  lemma BranchChangesOnlyTheParams(base: Tree, paramsPath: string, merged: map<string, Json>, chart: Option<(string, Blob)>, diff: seq<Entry>,
                                   p: string)
    requires Parsed(FileAt(base, paramsPath)).Some? && OverriddenAt(merged, Parsed(FileAt(base, paramsPath)).value, diff)
    requires chart.Some? ==> chart.value.0 != paramsPath
    ensures var t := Branched(base, paramsPath, merged, chart);
            && (p != paramsPath && (chart.None? || chart.value.0 != p) ==> SameAt(t, base, p))
            && Parsed(FileAt(t, paramsPath)) == Some(merged)
  {
  }
}
