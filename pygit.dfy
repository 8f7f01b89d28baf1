/** The pygit2 objects that `commit_to_dict` reads. They are plain values here:
    the converter only reads them. Tree diffing and diff merging belong to pygit2
    and are not modelled; they reach the converter as the two functions of an
    `Engine`. */
module Pygit {
  import opened PyValues

  newtype byte = x: int | 0 <= x < 256

  /** An object id: the raw bytes of an object's hash. */
  datatype Oid = Oid(raw: seq<byte>)

  /** An author or committer signature. */
  datatype Signature = Signature(name: string, email: string, time: int, offset: int)

  /** A tree snapshot, known to the converter only by its id. */
  datatype Tree = Tree(id: Oid)

  /** A parent commit as `commit.parents` yields it: its id and its tree. */
  datatype Parent = Parent(id: Oid, tree: Tree)

  /** The fields of a pygit2 commit that the converter reads. `parents` lists the
      parents in order, so `commit.parent_ids` is their ids in the same order. */
  datatype Commit = Commit(
    id: Oid,
    objType: int,
    author: Signature,
    committer: Signature,
    message: string,
    messageEncoding: Option<string>,
    parents: seq<Parent>,
    commitTime: int,
    commitTimeOffset: int,
    tree: Tree)

  /** One file-level entry of a diff, with the attributes the converter reads.
      `status` is the diff engine's label, kept opaque. */
  datatype DiffPatch = DiffPatch(
    oldFilePath: string,
    newFilePath: string,
    oldId: Oid,
    newId: Oid,
    status: string,
    similarity: int,
    additions: int,
    deletions: int)

  /** A diff, as the sequence of entries that iterating over it yields. */
  datatype Diff = Diff(patches: seq<DiffPatch>)

  /** The two pygit2 operations the converter calls and cannot see into:
      `a.diff_to_tree(b)` and the state `a` is left in by `a.merge(b)`. */
  datatype Engine = Engine(diffToTree: (Tree, Tree) -> Diff, merge: (Diff, Diff) -> Diff)

  function HexDigit(n: int): (ch: char)
    requires 0 <= n < 16
  {
    if n < 10 then ('0' as int + n) as char else ('a' as int + n - 10) as char
  }

  function DigitValue(ch: char): (n: int)
    ensures 0 <= n < 16
  {
    if '0' <= ch <= '9' then ch as int - '0' as int
    else if 'a' <= ch <= 'f' then ch as int - 'a' as int + 10
    else 0
  }

  predicate IsLowerHexDigit(ch: char) {
    '0' <= ch <= '9' || 'a' <= ch <= 'f'
  }

  /** Lower-case hexadecimal, two digits per byte, most significant digit first. */
  function Hex(bs: seq<byte>): (s: string)
    ensures |s| == 2 * |bs|
    ensures forall k :: 0 <= k < |s| ==> IsLowerHexDigit(s[k])
  {
    if bs == [] then ""
    else [HexDigit(bs[0] as int / 16), HexDigit(bs[0] as int % 16)] + Hex(bs[1..])
  }

  /** Reads pairs of hexadecimal digits back into bytes. */
  function Unhex(s: string): seq<byte> {
    if |s| < 2 then []
    else [(DigitValue(s[0]) * 16 + DigitValue(s[1])) as byte] + Unhex(s[2..])
  }

  /** `str(oid)`: the hexadecimal form of the id, two lower-case digits per byte. */
  function OidStr(o: Oid): (s: string)
    ensures |s| == 2 * |o.raw|
    ensures forall k :: 0 <= k < |s| ==> IsLowerHexDigit(s[k])
  {
    Hex(o.raw)
  }

  lemma DigitValueOfHexDigit(n: int)
    requires 0 <= n < 16
    ensures DigitValue(HexDigit(n)) == n
  {
  }

  /** Unhex undoes Hex. */
  lemma {:induction false} UnhexHex(bs: seq<byte>)
    ensures Unhex(Hex(bs)) == bs
  {
    if bs != [] {
      var b := bs[0] as int;
      var s := Hex(bs);
      assert s[2..] == Hex(bs[1..]);
      DigitValueOfHexDigit(b / 16);
      DigitValueOfHexDigit(b % 16);
      assert DigitValue(s[0]) * 16 + DigitValue(s[1]) == b;
      UnhexHex(bs[1..]);
    }
  }

  /** Distinct ids have distinct string forms, so `str(id)` loses nothing. */
  lemma OidStrInjective(a: Oid, b: Oid)
    ensures OidStr(a) == OidStr(b) <==> a == b
  {
    if OidStr(a) == OidStr(b) {
      UnhexHex(a.raw);
      UnhexHex(b.raw);
    }
  }
}
