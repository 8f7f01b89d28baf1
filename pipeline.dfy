/** The two programs composed: a record written by `commit_to_dict` and read back by
    `Commit.from_dict`. The JSON text in between is not modelled; the record passes
    as the value it denotes. */
module Pipeline {
  import opened PyValues
  import opened Pygit
  import opened GitLogConverter
  import opened JsonLogToDb

  /** The row `Patch.from_dict` should build for one entry of the merged diff. */
  function ExpectedPatchRow(p: DiffPatch): PatchRow {
    PatchRow(VNull, VStr(p.oldFilePath), VStr(p.newFilePath), VStr(OidStr(p.oldId)),
             VStr(OidStr(p.newId)), VStr(p.status), VInt(p.similarity),
             VInt(p.additions), VInt(p.deletions))
  }

  /** The entries of the merged diff, none when there is no merged diff. */
  function MergedEntries(c: Commit, engine: Engine): seq<DiffPatch> {
    match MergedDiff(c, engine)
    case None => []
    case Some(d) => d.patches
  }

  /** The conversions of the three (time, offset) pairs of `c` succeed. */
  predicate ConvertsTimes<D>(c: Commit, convert: (Value, Value) -> Option<D>) {
    convert(VInt(c.author.time), VInt(c.author.offset)).Some? &&
    convert(VInt(c.committer.time), VInt(c.committer.offset)).Some? &&
    convert(VInt(c.commitTime), VInt(c.commitTimeOffset)).Some?
  }

  /** The keys `commit_to_dict` writes are exactly the keys `Commit.from_dict` reads,
      and each patch dictionary holds exactly the keys `Patch.from_dict` reads. */
  lemma KeysWrittenAreKeysRead(c: Commit, engine: Engine)
    ensures CommitDict(c, engine).Keys == CommitKeys
    ensures forall p :: p in CommitDict(c, engine)["patches"].items ==>
      p.VDict? && p.entries.Keys == PatchKeys
  {
  }

  /** Every record `commit_to_dict` writes is accepted by `Commit.from_dict`, as long as
      the date-time conversion accepts its times. */
  lemma ConvertedRecordAccepted<D>(c: Commit, engine: Engine, convert: (Value, Value) -> Option<D>)
    requires ConvertsTimes(c, convert)
    ensures Accepted(VDict(CommitDict(c, engine)), convert)
  {
  }

  /** Loading a converted record succeeds and copies every scalar field of the commit. */
  lemma LoadKeepsScalars<D>(c: Commit, engine: Engine, convert: (Value, Value) -> Option<D>)
    requires ConvertsTimes(c, convert)
    ensures var r := CommitFromDict(VDict(CommitDict(c, engine)), convert);
      r.Ok? &&
      r.value.commitId == VStr(OidStr(c.id)) &&
      r.value.commitType == VInt(c.objType) &&
      r.value.authorName == VStr(c.author.name) &&
      r.value.authorEmail == VStr(c.author.email) &&
      r.value.committerName == VStr(c.committer.name) &&
      r.value.committerEmail == VStr(c.committer.email) &&
      r.value.message == VStr(c.message) &&
      r.value.messageEncoding == OptStr(c.messageEncoding) &&
      Some(r.value.authorDatetime) == convert(VInt(c.author.time), VInt(c.author.offset)) &&
      Some(r.value.committerDatetime) == convert(VInt(c.committer.time), VInt(c.committer.offset)) &&
      Some(r.value.commitDatetime) == convert(VInt(c.commitTime), VInt(c.commitTimeOffset))
  {
    var m := CommitDict(c, engine);
    ConvertedRecordAccepted(c, engine, convert);
    CommitFromDictSucceedsIff(VDict(m), convert);
    RecordScalars(c, PatchDicts(MergedDiff(c, engine)));
  }

  /** Loading a converted record keeps the first two parent ids, `None` exactly where
      the commit has fewer parents. */
  lemma LoadKeepsFirstTwoParents<D>(c: Commit, engine: Engine, convert: (Value, Value) -> Option<D>)
    requires ConvertsTimes(c, convert)
    ensures var r := CommitFromDict(VDict(CommitDict(c, engine)), convert);
      r.Ok? &&
      (r.value.firstParentId == VNull <==> |c.parents| == 0) &&
      (|c.parents| > 0 ==> r.value.firstParentId == VStr(OidStr(c.parents[0].id))) &&
      (r.value.secondParentId == VNull <==> |c.parents| < 2) &&
      (|c.parents| > 1 ==> r.value.secondParentId == VStr(OidStr(c.parents[1].id)))
  {
    var d := VDict(CommitDict(c, engine));
    ConvertedRecordAccepted(c, engine, convert);
    CommitFromDictSucceedsIff(d, convert);
    ParentIdsFaithful(c, engine);
  }

  /** A patch dictionary written by `commit_to_dict` loads as the row of its entry. */
  lemma PatchRoundTrip(p: DiffPatch)
    ensures PatchFromDict(PatchDict(p)) == Ok(ExpectedPatchRow(p))
  {
  }

  /** Loading a converted record gives one patch row per entry of the merged diff, in
      order, each holding that entry's eight fields. */
  lemma LoadKeepsPatches<D>(c: Commit, engine: Engine, convert: (Value, Value) -> Option<D>)
    requires ConvertsTimes(c, convert)
    ensures var r := CommitFromDict(VDict(CommitDict(c, engine)), convert);
      r.Ok? &&
      |r.value.patches| == |MergedEntries(c, engine)| &&
      forall i :: 0 <= i < |r.value.patches| ==>
        r.value.patches[i] == ExpectedPatchRow(MergedEntries(c, engine)[i])
  {
    var m := CommitDict(c, engine);
    ConvertedRecordAccepted(c, engine, convert);
    CommitFromDictSucceedsIff(VDict(m), convert);
    var items := PatchDicts(MergedDiff(c, engine));
    assert m["patches"] == VList(items);
    var r := CommitFromDict(VDict(m), convert).value;
    var entries := MergedEntries(c, engine);
    assert |items| == |entries|;
    forall i | 0 <= i < |r.patches|
      ensures r.patches[i] == ExpectedPatchRow(entries[i])
    {
      assert items[i] == PatchDict(entries[i]);
      PatchRoundTrip(entries[i]);
    }
  }

  /** A loaded commit id determines the commit's id. */
  lemma LoadedIdIdentifiesCommit<D>(c1: Commit, c2: Commit, engine: Engine,
                                    convert: (Value, Value) -> Option<D>)
    requires ConvertsTimes(c1, convert) && ConvertsTimes(c2, convert)
    ensures var r1 := CommitFromDict(VDict(CommitDict(c1, engine)), convert);
      var r2 := CommitFromDict(VDict(CommitDict(c2, engine)), convert);
      r1.Ok? && r2.Ok? && (r1.value.commitId == r2.value.commitId <==> c1.id == c2.id)
  {
    LoadKeepsScalars(c1, engine, convert);
    LoadKeepsScalars(c2, engine, convert);
    OidStrInjective(c1.id, c2.id);
  }

  /** A root commit loads with no parent columns and no patch rows. */
  lemma RootCommitLoadsEmpty<D>(c: Commit, engine: Engine, convert: (Value, Value) -> Option<D>)
    requires ConvertsTimes(c, convert) && c.parents == []
    ensures var r := CommitFromDict(VDict(CommitDict(c, engine)), convert);
      r.Ok? && r.value.patches == [] && r.value.firstParentId == VNull && r.value.secondParentId == VNull
  {
    LoadKeepsFirstTwoParents(c, engine, convert);
    LoadKeepsPatches(c, engine, convert);
  }
}
