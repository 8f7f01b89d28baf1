# git_log_converter, modelled in Dafny

The repository has two small programs. `git_log_converter.py` walks a Git history with
pygit2 and writes one JSON record per commit. Each record holds the commit's scalar
fields, its parent ids and a list of per-file patches. For a commit with several
parents, the per-parent diffs are merged into one. `json_log_to_db.py` reads these
records back and turns each one into `Commit` and `Patch` rows for SQLAlchemy.

This project models the record pipeline between the two, which does no I/O:

- `py_values.dfy` (module `PyValues`): JSON-shaped Python values. It also models the
  three Python operations the loader applies to them (`d[key]`, `len(v)`, `v[i]`) and
  the exceptions they raise. Errors travel in a `Result`, so a missing key is a
  `KeyError` result and not a precondition.
- `pygit.dfy` (module `Pygit`): the pygit2 commit, parent, tree, diff and patch objects
  as datatypes. `str(oid)` is modelled as lower-case hexadecimal. `diff_to_tree` and
  `Diff.merge` are left uninterpreted: they are the two function fields of an
  `Engine` value.
- `git_log_converter.dfy` (module `GitLogConverter`): `commit_to_dict` as a method with
  the code's two loops. The first loop folds the per-parent diffs into `merged_diff`.
  The second appends one patch dictionary per entry. The method is proved against
  specification functions: `Diffs`, `MergeAll`, `PatchDicts` and `Record`. The lemmas
  beside them state the root-commit, single-parent and left-fold properties.
- `json_log_to_db.dfy` (module `JsonLogToDb`): `Patch.from_dict` and `Commit.from_dict`
  as functions returning `Result`. Keyword arguments are evaluated in source order, so
  the exception reported is the one raised by the first read that fails.
- `pipeline.dfy` (module `Pipeline`): the two composed. The keys written are exactly
  the keys read. Loading a converted record always succeeds, given that the date-time
  conversion accepts the commit's times. The loaded row keeps the id, the first two
  parents, every scalar field and every patch field.

Three behaviours of the code that the model keeps as written:

- A root commit is not diffed against an empty tree. Its `merged_diff` stays `None`,
  so its patch list is empty (git_log_converter.py:45-51).
- `commit.tree.diff_to_tree(parent.tree)` diffs from the commit's tree to the parent's
  tree, so the entries describe the parent relative to the commit
  (git_log_converter.py:41-44). The model keeps this argument order.
- `first_parent_id` is `None` exactly when `parent_ids` is empty only if no element of
  `parent_ids` is itself `null`. `Commit.from_dict` would copy a `null` element as
  `None`. The iff is therefore proved for records the converter wrote
  (`Pipeline.LoadKeepsFirstTwoParents`) and for null-free lists
  (`JsonLogToDb.ParentColumns`).

## Model

| member | source | states |
|---|---|---|
| PyValues.GetItem | json_log_to_db.py:64-88 | `d[key]`: succeeds exactly on a dict holding the key and gives its value. A non-dict raises `TypeError`; a missing key raises `KeyError` for that key. |
| PyValues.Len | json_log_to_db.py:68-69 | `len(v)` succeeds exactly on strings, lists and dicts. |
| PyValues.At | json_log_to_db.py:68-69 | `v[i]` succeeds exactly on a string or a list long enough, and for a list gives the element at i. |
| Pygit.Hex | git_log_converter.py:23 | The hex form of `str(oid)` has two characters per byte, all lower-case hexadecimal digits. Its inverse is stated by `UnhexHex`. |
| Pygit.OidStr | git_log_converter.py:56-57 | `str(oid)` is two lower-case hexadecimal digits per byte of the id. Injectivity is stated by `OidStrInjective`. |
| Pygit.UnhexHex | git_log_converter.py:23 | The hexadecimal form that `str(oid)` produces reads back to the same bytes. |
| Pygit.OidStrInjective | git_log_converter.py:36 | Two ids have the same string form exactly when they are the same id, so converting ids to strings loses nothing. |
| GitLogConverter.Diffs | git_log_converter.py:41-44 | The `diffs` list has one diff per parent, in parent order: entry i is `commit.tree.diff_to_tree(parents[i].tree)`. |
| GitLogConverter.MergeAll | git_log_converter.py:45-50 | The accumulator stays `None` exactly when there are no diffs. |
| GitLogConverter.MergeAllIsLeftFold | git_log_converter.py:45-50 | For one or more diffs, the accumulator equals the left fold of `merge` seeded with the first diff and applied to the rest in order. |
| GitLogConverter.ThreeParentsMergeInOrder | git_log_converter.py:45-50 | With three parents the merged diff is `merge(merge(d0, d1), d2)`, not some other grouping or order. |
| GitLogConverter.PatchDict | git_log_converter.py:53-62 | Each patch dictionary is a dict holding exactly the eight patch keys; its values are stated by `PatchesMirrorMergedDiff`. |
| GitLogConverter.PatchDicts | git_log_converter.py:51-63 | No contract of its own; its length, order and values are stated by `PatchesMirrorMergedDiff` and `SingleParentPatchesVerbatim`. |
| GitLogConverter.ParentIdStrs | git_log_converter.py:36 | No contract of its own; stated by `ParentIdsFaithful`. |
| GitLogConverter.Record | git_log_converter.py:22-39 | No contract of its own; stated by `RecordScalars` and `Pipeline.KeysWrittenAreKeysRead`. |
| GitLogConverter.CommitToDict | git_log_converter.py:21-64 | The loops produce the scalar record with `patches` equal to the dictionaries of the left-folded merged diff, in order. A commit with no parents gets an empty list. |
| GitLogConverter.CommitsAsDicts | git_log_converter.py:18-19 | One record per commit of the walk, in walk order. |
| GitLogConverter.RootCommitHasNoPatches | git_log_converter.py:45-51 | A commit with no parents gets an empty `patches` list. |
| GitLogConverter.SingleParentPatchesVerbatim | git_log_converter.py:45-63 | With exactly one parent, `patches` lists that single diff's entries in its iteration order. |
| GitLogConverter.PatchesMirrorMergedDiff | git_log_converter.py:52-63 | `patches` has one dictionary per merged-diff entry, in order. Each dictionary has exactly the eight keys, with the entry's values unchanged (ids as strings). |
| GitLogConverter.ParentIdsFaithful | git_log_converter.py:36 | `parent_ids` has the same length and order as the parents. Each element is the id as a string, and two elements are equal only when the ids are. |
| GitLogConverter.RecordScalars | git_log_converter.py:22-39 | Every scalar key holds the commit's field unchanged, including an absent `message_encoding` as `None`. |
| JsonLogToDb.PatchFromDict | json_log_to_db.py:31-41 | Succeeds exactly on a dict with all eight patch keys. Every column then holds the value of the key of the same name, and the foreign key is left unset. A non-dict raises `TypeError`. |
| JsonLogToDb.PatchMissingKeyReported | json_log_to_db.py:31-41 | A dict lacking a patch key raises `KeyError` for the first missing key in the order the keys are read. |
| JsonLogToDb.PatchRows | json_log_to_db.py:67 | The patch comprehension succeeds exactly when every element converts. It then gives one row per element, in order. |
| JsonLogToDb.PatchesFromValue | json_log_to_db.py:67 | The patch comprehension succeeds exactly on the values `PatchesAccepted` describes: a list of dicts holding the patch keys, an empty string or an empty dict. For a list it gives one row per element. |
| JsonLogToDb.ParentAt | json_log_to_db.py:68-69 | For a list, `parent_ids[i]` when the list is long enough and `None` otherwise. |
| JsonLogToDb.ParentAtSucceedsIff | json_log_to_db.py:68-69 | The projection succeeds exactly on a string, a list, or a dict too short to be indexed. |
| JsonLogToDb.ConvertField | json_log_to_db.py:73-88 | A date-time column succeeds exactly when the record is a dict holding both keys and the conversion accepts their values, and then holds that conversion. |
| JsonLogToDb.CommitFromDict | json_log_to_db.py:63-89 | On success the record was accepted. `commit_id`, `commit_type`, the names, emails, message and encoding hold the values of `id`, `type` and the same-named keys. The date-times are the conversions of their key pairs. The parent columns are `parent_ids[0]` and `parent_ids[1]`, or `None` when the list is shorter. The patch rows are the elements' rows, in order. |
| JsonLogToDb.CommitFromDictSucceedsIff | json_log_to_db.py:63-89 | `Commit.from_dict` succeeds exactly on the records the independent predicate `Accepted` describes. |
| JsonLogToDb.MissingKeyRejected | json_log_to_db.py:64-88 | A record lacking any key that `Commit.from_dict` reads makes it fail. |
| JsonLogToDb.ReadsOnlyCommitKeys | json_log_to_db.py:63-89 | Two records that agree on the keys read give the same result, so nothing else is read. |
| JsonLogToDb.ParentColumns | json_log_to_db.py:68-69 | For a list of non-null parent ids: `first_parent_id` is `None` iff the list is empty, and otherwise `parent_ids[0]`; `second_parent_id` is `None` iff it has fewer than two elements, and otherwise `parent_ids[1]`. |
| JsonLogToDb.LaterParentsDropped | json_log_to_db.py:68-69 | Changing parents after the second does not change the result: they appear nowhere in the row. |
| Pipeline.KeysWrittenAreKeysRead | git_log_converter.py:22-63 | The keys `commit_to_dict` writes are exactly the keys `Commit.from_dict` reads, and each patch dictionary's keys are exactly those `Patch.from_dict` reads. |
| Pipeline.ConvertedRecordAccepted | json_log_to_db.py:63-89 | Every converted record is accepted by `Commit.from_dict` when the date-time conversion accepts its times. |
| Pipeline.LoadKeepsScalars | json_log_to_db.py:66-88 | Loading a converted record succeeds and copies the id, type, names, emails, message, encoding and the three converted times of the commit. |
| Pipeline.LoadKeepsFirstTwoParents | json_log_to_db.py:64-69 | Loading a converted record gives the first and second parent ids. Each is `None` exactly when the commit has too few parents. |
| Pipeline.PatchRoundTrip | json_log_to_db.py:31-41 | A written patch dictionary loads as the row holding its entry's eight fields. |
| Pipeline.LoadKeepsPatches | json_log_to_db.py:67 | Loading a converted record gives one patch row per merged-diff entry, in order, each holding that entry's fields. |
| Pipeline.LoadedIdIdentifiesCommit | json_log_to_db.py:66 | Two loaded rows have equal `commit_id` exactly when the commits have equal ids. |
| Pipeline.RootCommitLoadsEmpty | git_log_converter.py:45-51 | A root commit loads with no patch rows and both parent columns `None`. |

## Left out

- The commit walk (`repo.walk` with topological sorting, git_log_converter.py:12-16): its
  order and tie-breaking are pygit2's. `commits_as_dicts` is modelled over a given
  sequence of commits.
- Failures of pygit2 object lookups and of diff or merge calls: the model treats them as
  total. In the code, loading a missing `commit.tree`, `parent.tree` or parent commit
  (in a shallow clone, say), or a `GitError` raised by `diff_to_tree` or `merge`,
  propagates out of `commit_to_dict` unhandled and ends the run. `CommitToDict` never
  fails.
- Tree diffing and diff merging (`diff_to_tree`, `Diff.merge`): foreign calls, left as
  the uninterpreted functions of `Engine`.
- In-place merging and aliasing: `merged_diff` is the first element of `diffs`, and
  `merge` updates it in place. The model carries the merged diff as a value. Nothing
  reads `diffs` after the loop, so the result is the same.
- `convert_to_datetime` (json_log_to_db.py:10-13): a wrapper over Python's datetime
  library. It is a function parameter, and its failure is one opaque `ConversionError`.
- SQLAlchemy column and relationship declarations, engine, session and commit: ORM
  plumbing. The foreign key `Patch.commit_id` that the relationship fills is only
  modelled as left unset.
- JSON serialisation and parsing (`json.dumps`, `json.loads`): library calls. A record
  passes between the two programs as the value it denotes. JSON floats are not part
  of `Value`.
- CLI and I/O: argparse, files, stdin/stdout, the swallowing of `BrokenPipeError` and
  `KeyboardInterrupt`, and `sys.stderr.close`.
- Python's treatment of iterating a non-empty string or dict as `patches`. The model
  reports the `TypeError` that the first element then raises inside `Patch.from_dict`,
  without modelling the iteration itself.
