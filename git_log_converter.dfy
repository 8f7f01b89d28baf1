/** `GitLogConverter.commit_to_dict`: turns one pygit2 commit into the dictionary
    that is written out as one line of JSON. */
module GitLogConverter {
  import opened PyValues
  import opened Pygit

  /** One diff per parent, in parent order: `tree.diff_to_tree(parent.tree)` for the
      commit's `tree`. The direction is the code's: from the commit's tree to the parent's. */
  function Diffs(tree: Tree, parents: seq<Parent>, engine: Engine): (ds: seq<Diff>)
    ensures |ds| == |parents|
    ensures forall i :: 0 <= i < |ds| ==> ds[i] == engine.diffToTree(tree, parents[i].tree)
  {
    if parents == [] then []
    else [engine.diffToTree(tree, parents[0].tree)] + Diffs(tree, parents[1..], engine)
  }

  /** The value of `merged_diff` after the loop has seen the diffs `ds`: it starts as
      `None`, takes the first diff, and merges each later diff into itself. */
  function MergeAll(ds: seq<Diff>, merge: (Diff, Diff) -> Diff): (r: Option<Diff>)
    ensures r.None? <==> ds == []
  {
    if ds == [] then None
    else
      match MergeAll(ds[..|ds| - 1], merge)
      case None => Some(ds[|ds| - 1])
      case Some(acc) => Some(merge(acc, ds[|ds| - 1]))
  }

  /** The textbook left fold, as an independent reference for MergeAll. */
  function FoldLeft(merge: (Diff, Diff) -> Diff, acc: Diff, ds: seq<Diff>): Diff
    decreases |ds|
  {
    if ds == [] then acc else FoldLeft(merge, merge(acc, ds[0]), ds[1..])
  }

  /** The patch dictionary written for one entry of the merged diff: a dict holding
      exactly the eight patch keys. */
  function PatchDict(p: DiffPatch): (v: Value)
    ensures v.VDict?
    ensures v.entries.Keys == {"old_file_path", "new_file_path", "old_id", "new_id",
                               "status", "similarity", "additions", "deletions"}
  {
    VDict(map[
      "old_file_path" := VStr(p.oldFilePath),
      "new_file_path" := VStr(p.newFilePath),
      "old_id" := VStr(OidStr(p.oldId)),
      "new_id" := VStr(OidStr(p.newId)),
      "status" := VStr(p.status),
      "similarity" := VInt(p.similarity),
      "additions" := VInt(p.additions),
      "deletions" := VInt(p.deletions)
    ])
  }

  /** The patch list: one dictionary per entry of `merged`, in iteration order, or
      nothing when there is no merged diff. */
  function PatchDicts(merged: Option<Diff>): seq<Value> {
    match merged
    case None => []
    case Some(d) => seq(|d.patches|, i requires 0 <= i < |d.patches| => PatchDict(d.patches[i]))
  }

  /** `[str(id) for id in commit.parent_ids]`. */
  function ParentIdStrs(parents: seq<Parent>): seq<Value> {
    seq(|parents|, i requires 0 <= i < |parents| => VStr(OidStr(parents[i].id)))
  }

  /** The scalar part of the record, with the given patch list. */
  function Record(c: Commit, patches: seq<Value>): map<string, Value> {
    map[
      "id" := VStr(OidStr(c.id)),
      "type" := VInt(c.objType),
      "author_name" := VStr(c.author.name),
      "author_email" := VStr(c.author.email),
      "author_time" := VInt(c.author.time),
      "author_time_offset" := VInt(c.author.offset),
      "committer_name" := VStr(c.committer.name),
      "committer_email" := VStr(c.committer.email),
      "committer_time" := VInt(c.committer.time),
      "committer_time_offset" := VInt(c.committer.offset),
      "message" := VStr(c.message),
      "message_encoding" := OptStr(c.messageEncoding),
      "patches" := VList(patches),
      "parent_ids" := VList(ParentIdStrs(c.parents)),
      "commit_time" := VInt(c.commitTime),
      "commit_time_offset" := VInt(c.commitTimeOffset)
    ]
  }

  /** The merged diff of a commit. */
  function MergedDiff(c: Commit, engine: Engine): Option<Diff> {
    MergeAll(Diffs(c.tree, c.parents, engine), engine.merge)
  }

  /** The dictionary `commit_to_dict` returns. */
  function CommitDict(c: Commit, engine: Engine): map<string, Value> {
    Record(c, PatchDicts(MergedDiff(c, engine)))
  }

  /** `commit_to_dict`: builds the record with an empty patch list, folds the
      per-parent diffs into `merged_diff`, then appends one patch dictionary per
      entry of the merged diff. */
  method CommitToDict(c: Commit, engine: Engine) returns (commitDict: map<string, Value>)
    ensures commitDict == CommitDict(c, engine)
    ensures c.parents == [] ==> commitDict["patches"] == VList([])
  {
    commitDict := Record(c, []);
    var patches: seq<Value> := [];
    var diffs := Diffs(c.tree, c.parents, engine);
    var mergedDiff: Option<Diff> := None;
    var i := 0;
    while i < |diffs|
      invariant 0 <= i <= |diffs|
      invariant mergedDiff == MergeAll(diffs[..i], engine.merge)
    {
      var diff := diffs[i];
      assert diffs[..i + 1][..i] == diffs[..i];
      if mergedDiff.None? {
        mergedDiff := Some(diff);
      } else {
        mergedDiff := Some(engine.merge(mergedDiff.value, diff));
      }
      i := i + 1;
    }
    assert diffs[..i] == diffs;
    if mergedDiff.Some? {
      var entries := mergedDiff.value.patches;
      var j := 0;
      while j < |entries|
        invariant 0 <= j <= |entries|
        invariant |patches| == j
        invariant forall k :: 0 <= k < j ==> patches[k] == PatchDict(entries[k])
      {
        patches := patches + [PatchDict(entries[j])];
        j := j + 1;
      }
    }
    assert patches == PatchDicts(mergedDiff);
    commitDict := commitDict["patches" := VList(patches)];
    assert commitDict == Record(c, patches);
  }

  /** `commits_as_dicts` over a given walk: one record per commit, in walk order. */
  function CommitsAsDicts(walk: seq<Commit>, engine: Engine): (records: seq<map<string, Value>>)
    ensures |records| == |walk|
    ensures forall i :: 0 <= i < |walk| ==> records[i] == CommitDict(walk[i], engine)
  {
    if walk == [] then [] else [CommitDict(walk[0], engine)] + CommitsAsDicts(walk[1..], engine)
  }

  // ---------------------------------------------------------------------------
  // Properties of the record

  lemma {:induction false} FoldLeftSnoc(merge: (Diff, Diff) -> Diff, acc: Diff, ds: seq<Diff>, d: Diff)
    ensures FoldLeft(merge, acc, ds + [d]) == merge(FoldLeft(merge, acc, ds), d)
    decreases |ds|
  {
    if ds != [] {
      assert (ds + [d])[1..] == ds[1..] + [d];
      FoldLeftSnoc(merge, merge(acc, ds[0]), ds[1..], d);
    }
  }

  /** The merged diff is the left fold of the per-parent diffs, seeded with the first. */
  lemma {:induction false} MergeAllIsLeftFold(ds: seq<Diff>, merge: (Diff, Diff) -> Diff)
    requires ds != []
    ensures MergeAll(ds, merge) == Some(FoldLeft(merge, ds[0], ds[1..]))
  {
    if |ds| > 1 {
      var init := ds[..|ds| - 1];
      MergeAllIsLeftFold(init, merge);
      assert ds[1..] == init[1..] + [ds[|ds| - 1]];
      FoldLeftSnoc(merge, ds[0], init[1..], ds[|ds| - 1]);
    }
  }

  /** With three parents the merged diff is `merge(merge(d0, d1), d2)`, in parent order. */
  lemma ThreeParentsMergeInOrder(c: Commit, engine: Engine)
    requires |c.parents| == 3
    ensures var d := Diffs(c.tree, c.parents, engine);
      MergedDiff(c, engine) == Some(engine.merge(engine.merge(d[0], d[1]), d[2]))
  {
    var d := Diffs(c.tree, c.parents, engine);
    assert d[..1][..0] == [];
    assert MergeAll(d[..1], engine.merge) == Some(d[0]);
    assert d[..2][..1] == d[..1];
    assert MergeAll(d[..2], engine.merge) == Some(engine.merge(d[0], d[1]));
    assert d[..3][..2] == d[..2];
    assert d[..3] == d;
  }

  /** A root commit is not diffed against anything and gets no patches. */
  lemma RootCommitHasNoPatches(c: Commit, engine: Engine)
    requires c.parents == []
    ensures CommitDict(c, engine)["patches"] == VList([])
  {
  }

  /** With one parent the patch list is exactly that parent's diff, entry by entry. */
  lemma SingleParentPatchesVerbatim(c: Commit, engine: Engine)
    requires |c.parents| == 1
    ensures var d := engine.diffToTree(c.tree, c.parents[0].tree);
      CommitDict(c, engine)["patches"]
        == VList(seq(|d.patches|, i requires 0 <= i < |d.patches| => PatchDict(d.patches[i])))
  {
  }

  /** The patch list has one entry per entry of the merged diff, each carrying that
      entry's eight attributes unchanged. */
  lemma PatchesMirrorMergedDiff(c: Commit, engine: Engine)
    ensures var ps := CommitDict(c, engine)["patches"];
      ps.VList? &&
      (MergedDiff(c, engine).None? ==> ps.items == []) &&
      (MergedDiff(c, engine).Some? ==>
        var d := MergedDiff(c, engine).value;
        |ps.items| == |d.patches| &&
        forall i :: 0 <= i < |d.patches| ==>
          ps.items[i].VDict? &&
          ps.items[i].entries.Keys == {"old_file_path", "new_file_path", "old_id", "new_id",
                                       "status", "similarity", "additions", "deletions"} &&
          ps.items[i].entries["old_file_path"] == VStr(d.patches[i].oldFilePath) &&
          ps.items[i].entries["new_file_path"] == VStr(d.patches[i].newFilePath) &&
          ps.items[i].entries["old_id"] == VStr(OidStr(d.patches[i].oldId)) &&
          ps.items[i].entries["new_id"] == VStr(OidStr(d.patches[i].newId)) &&
          ps.items[i].entries["status"] == VStr(d.patches[i].status) &&
          ps.items[i].entries["similarity"] == VInt(d.patches[i].similarity) &&
          ps.items[i].entries["additions"] == VInt(d.patches[i].additions) &&
          ps.items[i].entries["deletions"] == VInt(d.patches[i].deletions))
  {
  }

  /** `parent_ids` has one string per parent, in order, and two of those strings are
      equal only when the parent ids are. */
  lemma ParentIdsFaithful(c: Commit, engine: Engine)
    ensures var pids := CommitDict(c, engine)["parent_ids"];
      pids.VList? && |pids.items| == |c.parents| &&
      (forall i :: 0 <= i < |c.parents| ==> pids.items[i] == VStr(OidStr(c.parents[i].id))) &&
      (forall i, j :: 0 <= i < |c.parents| && 0 <= j < |c.parents| ==>
        (pids.items[i] == pids.items[j] <==> c.parents[i].id == c.parents[j].id))
  {
    var pids := CommitDict(c, engine)["parent_ids"];
    forall i, j | 0 <= i < |c.parents| && 0 <= j < |c.parents|
      ensures pids.items[i] == pids.items[j] <==> c.parents[i].id == c.parents[j].id
    {
      OidStrInjective(c.parents[i].id, c.parents[j].id);
    }
  }

  /** The record holds each scalar field of the commit, unchanged but for `str` on ids
      and `None` for a missing encoding. */
  lemma RecordScalars(c: Commit, patches: seq<Value>)
    ensures Record(c, patches)["id"] == VStr(OidStr(c.id))
    ensures Record(c, patches)["type"] == VInt(c.objType)
    ensures Record(c, patches)["author_name"] == VStr(c.author.name)
    ensures Record(c, patches)["author_email"] == VStr(c.author.email)
    ensures Record(c, patches)["author_time"] == VInt(c.author.time)
    ensures Record(c, patches)["author_time_offset"] == VInt(c.author.offset)
    ensures Record(c, patches)["committer_name"] == VStr(c.committer.name)
    ensures Record(c, patches)["committer_email"] == VStr(c.committer.email)
    ensures Record(c, patches)["committer_time"] == VInt(c.committer.time)
    ensures Record(c, patches)["committer_time_offset"] == VInt(c.committer.offset)
    ensures Record(c, patches)["message"] == VStr(c.message)
    ensures Record(c, patches)["message_encoding"] == OptStr(c.messageEncoding)
    ensures Record(c, patches)["commit_time"] == VInt(c.commitTime)
    ensures Record(c, patches)["commit_time_offset"] == VInt(c.commitTimeOffset)
  {
    RecordAuthor(c, patches);
    RecordCommitter(c, patches);
    RecordMessageAndTime(c, patches);
  }

  // The three parts of RecordScalars, each with a small proof obligation.

  lemma RecordAuthor(c: Commit, patches: seq<Value>)
    ensures Record(c, patches)["author_name"] == VStr(c.author.name)
    ensures Record(c, patches)["author_email"] == VStr(c.author.email)
    ensures Record(c, patches)["author_time"] == VInt(c.author.time)
    ensures Record(c, patches)["author_time_offset"] == VInt(c.author.offset)
  {
  }

  lemma RecordCommitter(c: Commit, patches: seq<Value>)
    ensures Record(c, patches)["committer_name"] == VStr(c.committer.name)
    ensures Record(c, patches)["committer_email"] == VStr(c.committer.email)
    ensures Record(c, patches)["committer_time"] == VInt(c.committer.time)
    ensures Record(c, patches)["committer_time_offset"] == VInt(c.committer.offset)
  {
  }

  lemma RecordMessageAndTime(c: Commit, patches: seq<Value>)
    ensures Record(c, patches)["message"] == VStr(c.message)
    ensures Record(c, patches)["message_encoding"] == OptStr(c.messageEncoding)
    ensures Record(c, patches)["commit_time"] == VInt(c.commitTime)
    ensures Record(c, patches)["commit_time_offset"] == VInt(c.commitTimeOffset)
  {
  }
}
