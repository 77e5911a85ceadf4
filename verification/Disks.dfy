/** File plans and the workspace files they act on. */
module Disks {
  import opened Basics

  type Path = string
  type Disk = map<Path, Bytes>

  predicate Upper(c: char) { 'A' <= c <= 'Z' }

  /** `[0-9a-f]{64}`. */
  predicate HexShaped(s: string) {
    |s| == 64 && forall i :: 0 <= i < |s| ==> '0' <= s[i] <= '9' || 'a' <= s[i] <= 'f'
  }

  predicate NoUpper(s: string) { forall i :: 0 <= i < |s| ==> !Upper(s[i]) }

  /** Folded text that is no digest. */
  type Folded = s: string | NoUpper(s) && !HexShaped(s) witness ""

  /** What the code keeps of an expected image: `ABSENT` however it was spelled, or the folded
      text, which is a SHA-256 in hex or (only as the unchecked preimage of an unknown operation)
      something else. */
  datatype Image = Absent | Sha(digest: Digest) | Text(text: Folded)

  /** `Unknown` is the `None` the code records for any other operation name. */
  datatype Kind = Create | Replace | Delete | Unknown

  /** One normalized row of a plan; `content` is the image recorded as `content_sha256`. */
  datatype Row = Row(kind: Kind, path: Path, pre: Image, post: Image, content: Image, data: Option<Bytes>)

  function ImageAt(d: Disk, p: Path): Image {
    if p in d then Sha(Digest(d[p])) else Absent
  }

  function BytesAt(d: Disk, p: Path): Option<Bytes> {
    if p in d then Some(d[p]) else None
  }

  function ImageOf(b: Option<Bytes>): Image {
    if b.Some? then Sha(Digest(b.value)) else Absent
  }

  /** Put the content at the path, or make the path absent. */
  function Put(d: Disk, p: Path, b: Option<Bytes>): Disk {
    if b.Some? then d[p := b.value] else map q | q in d && q != p :: d[q]
  }

  // ---------------------------------------------------------------- plans

  /** What `canonical_plan` has checked of a row whose operation is known. */
  predicate RowOk(r: Row) {
    match r.kind
    case Create => r.pre.Absent? && r.data.Some? && r.post == Sha(Digest(r.data.value)) && r.content == r.post
    case Replace => r.pre.Sha? && r.data.Some? && r.post == Sha(Digest(r.data.value)) && r.content == r.post
    case Delete => r.pre.Sha? && r.data.None? && r.post == Absent && r.content == Absent
    case Unknown => false
  }

  /** What it has checked of any row: an operation it does not know is kept for the scope check,
      with whatever preimage was asked for. */
  predicate RowFits(r: Row) {
    RowOk(r) || (r.kind.Unknown? && r.post == Absent && r.content == Absent && r.data.None?)
  }

  /** What `canonical_plan` returns. */
  predicate Canonical(rows: seq<Row>) {
    rows != [] && DistinctPaths(rows) && forall i :: 0 <= i < |rows| ==> RowFits(rows[i])
  }

  predicate DistinctPaths(rows: seq<Row>) {
    forall i, j :: 0 <= i < j < |rows| ==> rows[i].path != rows[j].path
  }

  predicate PlanOk(rows: seq<Row>) {
    rows != [] && DistinctPaths(rows) && forall i :: 0 <= i < |rows| ==> RowOk(rows[i])
  }

  /** The files after one operation: a deletion unlinks, the others put the content. */
  function WriteRow(d: Disk, r: Row): Disk { Put(d, r.path, r.data) }

  function WriteRows(d: Disk, rows: seq<Row>): Disk {
    if rows == [] then d else WriteRow(WriteRows(d, rows[..|rows| - 1]), rows[|rows| - 1])
  }

  /** Every planned path of `d` has its preimage. */
  predicate AllPre(d: Disk, rows: seq<Row>) {
    forall i :: 0 <= i < |rows| ==> ImageAt(d, rows[i].path) == rows[i].pre
  }

  predicate AllPost(d: Disk, rows: seq<Row>) {
    forall i :: 0 <= i < |rows| ==> ImageAt(d, rows[i].path) == rows[i].post
  }

  lemma DiskEqual(a: Disk, b: Disk)
    requires forall p :: BytesAt(a, p) == BytesAt(b, p)
    ensures a == b
  {
    forall p ensures (p in a <==> p in b) && (p in a ==> a[p] == b[p]) {
      assert BytesAt(a, p) == BytesAt(b, p);
    }
  }

  lemma PutAt(d: Disk, p: Path, b: Option<Bytes>, q: Path)
    ensures BytesAt(Put(d, p, b), q) == if q == p then b else BytesAt(d, q)
  {
  }

  lemma ImageIsBytes(d: Disk, p: Path)
    ensures ImageAt(d, p) == ImageOf(BytesAt(d, p))
  {
  }

  /** Where row `k` of a plan stands is read off directly: written rows hold their data, other
      paths what they held before. */
  lemma {:induction false} WriteRowsAt(d: Disk, rows: seq<Row>, q: Path)
    requires DistinctPaths(rows)
    ensures (forall i :: 0 <= i < |rows| ==> rows[i].path != q) ==> BytesAt(WriteRows(d, rows), q) == BytesAt(d, q)
    ensures forall i :: 0 <= i < |rows| && rows[i].path == q ==> BytesAt(WriteRows(d, rows), q) == rows[i].data
    decreases |rows|
  {
    if rows != [] {
      var n := |rows| - 1;
      WriteRowsAt(d, rows[..n], q);
      PutAt(WriteRows(d, rows[..n]), rows[n].path, rows[n].data, q);
      forall i | 0 <= i < |rows| && rows[i].path == q
        ensures BytesAt(WriteRows(d, rows), q) == rows[i].data
      {
        if i < n { assert rows[..n][i] == rows[i]; }
      }
    }
  }

  lemma WriteOneMore(d: Disk, rows: seq<Row>, i: nat)
    requires i < |rows|
    ensures WriteRows(d, rows[..i + 1]) == WriteRow(WriteRows(d, rows[..i]), rows[i])
  {
    assert rows[..i + 1][..i] == rows[..i];
  }

  /** After `k` operations the first `k` planned paths are at their postimage and the rest at
      their preimage. */
  lemma PrefixImages(d: Disk, rows: seq<Row>, k: nat, i: nat)
    requires PlanOk(rows) && AllPre(d, rows) && k <= |rows| && i < |rows|
    ensures ImageAt(WriteRows(d, rows[..k]), rows[i].path) == if i < k then rows[i].post else rows[i].pre
  {
    var p := rows[i].path;
    WriteRowsAt(d, rows[..k], p);
    ImageIsBytes(WriteRows(d, rows[..k]), p);
    ImageIsBytes(d, p);
    assert RowOk(rows[i]);
    if i < k {
      assert rows[..k][i] == rows[i];
    } else {
      forall j | 0 <= j < |rows[..k]| ensures rows[..k][j].path != p { assert rows[..k][j] == rows[j]; }
    }
  }

  /** All preimages after a prefix of the plan: nothing was changed at all. */
  lemma AllPreMeansUntouched(d: Disk, rows: seq<Row>, k: nat)
    requires PlanOk(rows) && AllPre(d, rows) && k <= |rows| && AllPre(WriteRows(d, rows[..k]), rows)
    ensures WriteRows(d, rows[..k]) == d
  {
    var e := WriteRows(d, rows[..k]);
    forall q ensures BytesAt(e, q) == BytesAt(d, q) {
      WriteRowsAt(d, rows[..k], q);
      if i :| 0 <= i < k && rows[..k][i].path == q {
        assert rows[i].path == q;
        ImageIsBytes(e, q);
        ImageIsBytes(d, q);
        assert ImageAt(e, rows[i].path) == ImageAt(d, rows[i].path);
      }
    }
    DiskEqual(e, d);
  }

  /** All postimages after a prefix of the plan: the whole plan is in place. */
  lemma AllPostMeansApplied(d: Disk, rows: seq<Row>, k: nat)
    requires PlanOk(rows) && AllPre(d, rows) && k <= |rows| && AllPost(WriteRows(d, rows[..k]), rows)
    ensures WriteRows(d, rows[..k]) == WriteRows(d, rows)
  {
    var e, f := WriteRows(d, rows[..k]), WriteRows(d, rows);
    forall q ensures BytesAt(e, q) == BytesAt(f, q) {
      WriteRowsAt(d, rows[..k], q);
      WriteRowsAt(d, rows, q);
      if i :| 0 <= i < |rows| && rows[i].path == q {
        assert rows[..|rows|] == rows;
        PrefixImages(d, rows, |rows|, i);
        ImageIsBytes(e, q);
        ImageIsBytes(f, q);
        assert ImageAt(e, rows[i].path) == ImageAt(f, rows[i].path);
      } else {
        forall j | 0 <= j < |rows[..k]| ensures rows[..k][j].path != q { assert rows[..k][j] == rows[j]; }
      }
    }
    DiskEqual(e, f);
  }

  /** Undoing operation `j` of a prefix `k`: putting back what was there before gives the
      shorter prefix. */
  lemma UndoOne(d: Disk, rows: seq<Row>, k: nat, j: nat)
    requires DistinctPaths(rows) && k <= j + 1 && j < |rows|
    ensures Put(WriteRows(d, rows[..k]), rows[j].path, BytesAt(d, rows[j].path))
            == WriteRows(d, rows[..if k <= j then k else j])
  {
    var m := if k <= j then k else j;
    var e, f := Put(WriteRows(d, rows[..k]), rows[j].path, BytesAt(d, rows[j].path)), WriteRows(d, rows[..m]);
    forall q ensures BytesAt(e, q) == BytesAt(f, q) {
      PutAt(WriteRows(d, rows[..k]), rows[j].path, BytesAt(d, rows[j].path), q);
      WriteRowsAt(d, rows[..m], q);
      forall i | 0 <= i < |rows[..m]| ensures rows[..m][i].path != rows[j].path { assert rows[..m][i] == rows[i]; }
      if k == j + 1 && q != rows[j].path {
        WriteOneMore(d, rows, j);
        PutAt(WriteRows(d, rows[..j]), rows[j].path, rows[j].data, q);
      }
    }
    DiskEqual(e, f);
  }
}
