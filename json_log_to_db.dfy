/** `Patch.from_dict` and `Commit.from_dict`: project one decoded JSON record onto
    the row objects that are handed to the database session. A missing key, or a
    value that cannot be subscripted, iterated or measured as the code asks, raises
    the Python exception that the first failing read raises; keyword arguments are
    evaluated in the order they are written. */
module JsonLogToDb {
  import opened PyValues

  /** A `patches` row as `Patch.from_dict` builds it. `commitId` is the foreign-key
      column, which `from_dict` leaves unset, so it reads as `None` (`VNull`) until the
      commit relationship fills it. */
  datatype PatchRow = PatchRow(
    commitId: Value,
    oldFilePath: Value,
    newFilePath: Value,
    oldId: Value,
    newId: Value,
    status: Value,
    similarity: Value,
    additions: Value,
    deletions: Value)

  /** A `commits` row as `Commit.from_dict` builds it; `VNull` in a parent column is
      SQL NULL. `D` is whatever the date-time conversion returns. */
  datatype CommitRow<D> = CommitRow(
    commitId: Value,
    patches: seq<PatchRow>,
    firstParentId: Value,
    secondParentId: Value,
    commitType: Value,
    authorName: Value,
    authorEmail: Value,
    authorDatetime: D,
    committerName: Value,
    committerEmail: Value,
    committerDatetime: D,
    message: Value,
    messageEncoding: Value,
    commitDatetime: D)

  /** The keys `Patch.from_dict` reads, in the order it reads them. */
  const PatchKeyOrder: seq<string> :=
    ["old_file_path", "new_file_path", "old_id", "new_id", "status", "similarity", "additions", "deletions"]

  const PatchKeys: set<string> := set k | k in PatchKeyOrder

  /** The keys `Commit.from_dict` reads, nested patch keys aside. */
  const CommitKeys: set<string> := {
    "parent_ids", "id", "patches", "type", "author_name", "author_email",
    "author_time", "author_time_offset", "committer_name", "committer_email",
    "committer_time", "committer_time_offset", "message", "message_encoding",
    "commit_time", "commit_time_offset"
  }

  /** The position in `order` of the first key that `m` lacks. */
  function FirstMissing(order: seq<string>, m: map<string, Value>): (n: nat)
    requires exists k :: k in order && k !in m
    ensures n < |order| && order[n] !in m
    ensures forall j :: 0 <= j < n ==> order[j] in m
  {
    if order[0] !in m then 0 else 1 + FirstMissing(order[1..], m)
  }

  /** The column of a patch row that `Patch.from_dict` fills from the key `name`. */
  function PatchColumn(row: PatchRow, name: string): Option<Value> {
    match name
    case "old_file_path" => Some(row.oldFilePath)
    case "new_file_path" => Some(row.newFilePath)
    case "old_id" => Some(row.oldId)
    case "new_id" => Some(row.newId)
    case "status" => Some(row.status)
    case "similarity" => Some(row.similarity)
    case "additions" => Some(row.additions)
    case "deletions" => Some(row.deletions)
    case _ => None
  }

  /** `Patch.from_dict`. It succeeds exactly on dicts holding the eight patch keys; then
      every column holds the value of the key of the same name and the foreign key is
      left unset. Anything but a dict raises `TypeError`; a dict lacking a key raises
      `KeyError` for the first missing key in reading order. */
  function PatchFromDict(p: Value): (r: Result<PatchRow>)
    ensures r.Ok? <==> p.VDict? && PatchKeys <= p.entries.Keys
    ensures r.Ok? ==> r.value.commitId == VNull
    ensures r.Ok? ==> forall k :: k in PatchKeys ==> PatchColumn(r.value, k) == Some(p.entries[k])
    ensures !p.VDict? ==> r == Err(TypeError)
  {
    var oldFilePath :- GetItem(p, "old_file_path");
    var newFilePath :- GetItem(p, "new_file_path");
    var oldId :- GetItem(p, "old_id");
    var newId :- GetItem(p, "new_id");
    var status :- GetItem(p, "status");
    var similarity :- GetItem(p, "similarity");
    var additions :- GetItem(p, "additions");
    var deletions :- GetItem(p, "deletions");
    Ok(PatchRow(VNull, oldFilePath, newFilePath, oldId, newId, status, similarity, additions, deletions))
  }

  /** `[Patch.from_dict(p) for p in items]`: the first failing element's exception, or
      one row per element, in order. */
  function PatchRows(items: seq<Value>): (r: Result<seq<PatchRow>>)
    ensures r.Ok? <==> forall i :: 0 <= i < |items| ==> PatchFromDict(items[i]).Ok?
    ensures r.Ok? ==> |r.value| == |items|
    ensures r.Ok? ==> forall i :: 0 <= i < |items| ==> PatchFromDict(items[i]) == Ok(r.value[i])
  {
    if items == [] then Ok([])
    else
      var head :- PatchFromDict(items[0]);
      var tail :- PatchRows(items[1..]);
      Ok([head] + tail)
  }

  /** The comprehension over `commit_dict['patches']`. A list is mapped element by
      element. Iterating a string or a dict yields strings, which `Patch.from_dict`
      cannot subscript by a key, so those succeed only when empty; other values are
      not iterable. */
  function PatchesFromValue(v: Value): (r: Result<seq<PatchRow>>)
    ensures r.Ok? <==> PatchesAccepted(v)
    ensures r.Ok? && v.VList? ==> |r.value| == |v.items|
  {
    match v
    case VList(items) => PatchRows(items)
    case VStr(s) => if s == "" then Ok([]) else Err(TypeError)
    case VDict(m) => if m == map[] then Ok([]) else Err(TypeError)
    case _ => Err(TypeError)
  }

  /** `parent_ids[i] if len(parent_ids) > i else None`: for a list, the element at `i`,
      or `None` past the end. When it succeeds is stated by ParentAtSucceedsIff. */
  function ParentAt(parentIds: Value, i: nat): (r: Result<Value>)
    ensures r.Ok? && parentIds.VList? ==>
      r.value == (if i < |parentIds.items| then parentIds.items[i] else VNull)
  {
    var n :- Len(parentIds);
    if n > i then At(parentIds, i) else Ok(VNull)
  }

  /** `convert_to_datetime(d[timeKey], d[offsetKey])`, with the conversion left abstract. */
  function ConvertField<D>(d: Value, timeKey: string, offsetKey: string,
                           convert: (Value, Value) -> Option<D>): (r: Result<D>)
    ensures r.Ok? <==> d.VDict? && timeKey in d.entries && offsetKey in d.entries &&
                       convert(d.entries[timeKey], d.entries[offsetKey]).Some?
    ensures r.Ok? ==> Some(r.value) == convert(d.entries[timeKey], d.entries[offsetKey])
  {
    var time :- GetItem(d, timeKey);
    var offset :- GetItem(d, offsetKey);
    match convert(time, offset)
    case None => Err(ConversionError)
    case Some(t) => Ok(t)
  }

  /** The values `Commit.from_dict` can project onto the two parent columns. */
  predicate ParentIdsAccepted(v: Value) {
    v.VList? || v.VStr? || v == VDict(map[])
  }

  /** The values of `patches` whose comprehension succeeds. */
  predicate PatchesAccepted(v: Value) {
    (v.VList? && forall p :: p in v.items ==> p.VDict? && PatchKeys <= p.entries.Keys)
    || v == VStr("") || v == VDict(map[])
  }

  /** The records `Commit.from_dict` accepts, stated without reference to its body. */
  predicate Accepted<D>(d: Value, convert: (Value, Value) -> Option<D>) {
    d.VDict? && CommitKeys <= d.entries.Keys &&
    ParentIdsAccepted(d.entries["parent_ids"]) &&
    PatchesAccepted(d.entries["patches"]) &&
    convert(d.entries["author_time"], d.entries["author_time_offset"]).Some? &&
    convert(d.entries["committer_time"], d.entries["committer_time_offset"]).Some? &&
    convert(d.entries["commit_time"], d.entries["commit_time_offset"]).Some?
  }

  /** `Commit.from_dict`. It succeeds exactly on the accepted records. Then the scalar
      columns hold the values of their keys (`commit_id` that of `id`, `commit_type`
      that of `type`), the date-time columns the conversions of their two keys, the
      parent columns the first two elements of a `parent_ids` list or `None` where the
      list is shorter, and the patch rows are the rows of the `patches` elements, in
      order. */
  function CommitFromDict<D>(d: Value, convert: (Value, Value) -> Option<D>): (r: Result<CommitRow<D>>)
    ensures r.Ok? ==> Accepted(d, convert)
    ensures r.Ok? ==>
      var m := d.entries;
      r.value.commitId == m["id"] &&
      r.value.commitType == m["type"] &&
      r.value.authorName == m["author_name"] &&
      r.value.authorEmail == m["author_email"] &&
      r.value.committerName == m["committer_name"] &&
      r.value.committerEmail == m["committer_email"] &&
      r.value.message == m["message"] &&
      r.value.messageEncoding == m["message_encoding"] &&
      Some(r.value.authorDatetime) == convert(m["author_time"], m["author_time_offset"]) &&
      Some(r.value.committerDatetime) == convert(m["committer_time"], m["committer_time_offset"]) &&
      Some(r.value.commitDatetime) == convert(m["commit_time"], m["commit_time_offset"])
    ensures r.Ok? && d.entries["parent_ids"].VList? ==>
      var ps := d.entries["parent_ids"].items;
      r.value.firstParentId == (if |ps| > 0 then ps[0] else VNull) &&
      r.value.secondParentId == (if |ps| > 1 then ps[1] else VNull)
    ensures r.Ok? && d.entries["patches"].VList? ==>
      var items := d.entries["patches"].items;
      |r.value.patches| == |items| &&
      forall i :: 0 <= i < |items| ==> PatchFromDict(items[i]) == Ok(r.value.patches[i])
  {
    var parentIds :- GetItem(d, "parent_ids");
    var commitId :- GetItem(d, "id");
    var patchesValue :- GetItem(d, "patches");
    var patches :- PatchesFromValue(patchesValue);
    var firstParentId :- ParentAt(parentIds, 0);
    var secondParentId :- ParentAt(parentIds, 1);
    var commitType :- GetItem(d, "type");
    var authorName :- GetItem(d, "author_name");
    var authorEmail :- GetItem(d, "author_email");
    var authorDatetime :- ConvertField(d, "author_time", "author_time_offset", convert);
    var committerName :- GetItem(d, "committer_name");
    var committerEmail :- GetItem(d, "committer_email");
    var committerDatetime :- ConvertField(d, "committer_time", "committer_time_offset", convert);
    var message :- GetItem(d, "message");
    var messageEncoding :- GetItem(d, "message_encoding");
    var commitDatetime :- ConvertField(d, "commit_time", "commit_time_offset", convert);
    Ok(CommitRow(commitId, patches, firstParentId, secondParentId, commitType,
                 authorName, authorEmail, authorDatetime,
                 committerName, committerEmail, committerDatetime,
                 message, messageEncoding, commitDatetime))
  }

  // ---------------------------------------------------------------------------
  // Properties of the projection

  /** A parent projection succeeds on a string or a list, and on a dict only when it is
      too short to be indexed (a JSON dict has no integer keys). */
  lemma ParentAtSucceedsIff(parentIds: Value, i: nat)
    ensures ParentAt(parentIds, i).Ok? <==>
      parentIds.VList? || parentIds.VStr? || (parentIds.VDict? && |parentIds.entries| <= i)
  {
  }

  /** A dict lacking a patch key raises `KeyError` for the first missing key in reading order. */
  lemma PatchMissingKeyReported(m: map<string, Value>)
    requires !(PatchKeys <= m.Keys)
    ensures PatchFromDict(VDict(m)) == Err(KeyError(VStr(PatchKeyOrder[FirstMissing(PatchKeyOrder, m)])))
  {
    var n := FirstMissing(PatchKeyOrder, m);
    var o := PatchKeyOrder;
    assert forall j :: 0 <= j < n ==> o[j] in m;
    if n == 0 {
    } else if n == 1 {
      assert o[0] in m;
    } else if n == 2 {
      assert o[0] in m && o[1] in m;
    } else if n == 3 {
      assert o[0] in m && o[1] in m && o[2] in m;
    } else if n == 4 {
      assert o[0] in m && o[1] in m && o[2] in m && o[3] in m;
    } else if n == 5 {
      assert o[0] in m && o[1] in m && o[2] in m && o[3] in m && o[4] in m;
    } else if n == 6 {
      assert o[0] in m && o[1] in m && o[2] in m && o[3] in m && o[4] in m && o[5] in m;
    } else {
      assert o[0] in m && o[1] in m && o[2] in m && o[3] in m && o[4] in m && o[5] in m && o[6] in m;
    }
  }

  /** `Commit.from_dict` succeeds exactly on the accepted records. */
  lemma CommitFromDictSucceedsIff<D>(d: Value, convert: (Value, Value) -> Option<D>)
    ensures CommitFromDict(d, convert).Ok? <==> Accepted(d, convert)
  {
  }

  /** A record lacking any key `Commit.from_dict` reads is rejected. */
  lemma MissingKeyRejected<D>(m: map<string, Value>, k: string, convert: (Value, Value) -> Option<D>)
    requires k in CommitKeys && k !in m
    ensures CommitFromDict(VDict(m), convert).Err?
  {
  }

  /** `Commit.from_dict` reads nothing but the keys in CommitKeys: two records that agree
      on those keys give the same result. */
  lemma ReadsOnlyCommitKeys<D>(m1: map<string, Value>, m2: map<string, Value>,
                               convert: (Value, Value) -> Option<D>)
    requires forall k :: k in CommitKeys ==> (k in m1 <==> k in m2)
    requires forall k :: k in CommitKeys && k in m1 ==> m1[k] == m2[k]
    ensures CommitFromDict(VDict(m1), convert) == CommitFromDict(VDict(m2), convert)
  {
  }

  /** `first_parent_id` is `None` exactly when `parent_ids` is empty, provided no parent
      id is itself null, and otherwise the first one; likewise `second_parent_id` and
      a list shorter than two. */
  lemma ParentColumns<D>(d: Value, convert: (Value, Value) -> Option<D>)
    requires Accepted(d, convert) && d.entries["parent_ids"].VList?
    requires forall p :: p in d.entries["parent_ids"].items ==> p != VNull
    ensures var r := CommitFromDict(d, convert).value;
      var ps := d.entries["parent_ids"].items;
      (r.firstParentId == VNull <==> |ps| == 0) &&
      (|ps| > 0 ==> r.firstParentId == ps[0]) &&
      (r.secondParentId == VNull <==> |ps| < 2) &&
      (|ps| > 1 ==> r.secondParentId == ps[1])
  {
    var ps := d.entries["parent_ids"].items;
    if |ps| > 0 { assert ps[0] in ps; }
    if |ps| > 1 { assert ps[1] in ps; }
  }

  /** Parents after the second appear nowhere in the row: replacing them changes nothing. */
  lemma LaterParentsDropped<D>(m: map<string, Value>, ps1: seq<Value>, ps2: seq<Value>,
                               convert: (Value, Value) -> Option<D>)
    requires |ps1| >= 2 && |ps2| >= 2 && ps1[..2] == ps2[..2]
    ensures CommitFromDict(VDict(m["parent_ids" := VList(ps1)]), convert)
         == CommitFromDict(VDict(m["parent_ids" := VList(ps2)]), convert)
  {
  }
}
