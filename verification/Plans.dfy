/** `canonical_plan`: from the operations of a plan, in any order, to checked rows sorted by
    path. */
module Plans {
  import opened Basics
  import opened Disks
  import opened Ordering

  const MAX_PLAN_FILES := 64
  const MAX_PLAN_BYTES := 1_048_576

  /** A requested operation, with its two expected images as the code folds them. */
  datatype FileOperation = FileOperation(operation: string, path: string, pre: Image, post: Image, content: Option<Bytes>)

  /** Unicode normalization, case folding and the secret-shape filter, which the model does not
      open: `admits` is the NFC and secret check of a path, `fold` the collision key. */
  datatype Unicode = Unicode(admits: string -> bool, fold: string -> string)

  // ---------------------------------------------------------------- paths

  predicate Control(c: char) { c < ' ' || c == '\U{7f}' }

  function Segments(v: string): (parts: seq<string>)
    ensures |parts| > 0
  {
    if v == "" then [""]
    else
      var rest := Segments(v[1..]);
      if v[0] == '/' then [""] + rest else [[v[0]] + rest[0]] + rest[1..]
  }

  /** `PurePosixPath` drops empty and `.` segments. */
  function Meaningful(parts: seq<string>): seq<string> {
    if parts == [] then []
    else if parts[0] == "" || parts[0] == "." then Meaningful(parts[1..])
    else [parts[0]] + Meaningful(parts[1..])
  }

  function Join(parts: seq<string>): string {
    if parts == [] then "."
    else if |parts| == 1 then parts[0]
    else parts[0] + "/" + Join(parts[1..])
  }

  predicate Letter(c: char) { 'a' <= c <= 'z' || 'A' <= c <= 'Z' }

  predicate Absolute(v: string) { (|v| > 0 && v[0] == '/') || (|v| > 1 && Letter(v[0]) && v[1] == ':') }

  /** `_normalized_relative`; `None` is the refusal. */
  function Normalized(v: string, u: Unicode): Option<Path> {
    if v == "" || (exists i :: 0 <= i < |v| && (Control(v[i]) || v[i] == '\\')) || !u.admits(v) || Absolute(v)
       || ".." in Meaningful(Segments(v)) then None
    else Some(Join(Meaningful(Segments(v))))
  }

  /** Every character of every segment comes from the text. */
  lemma {:induction false} SegmentChars(v: string, k: nat, i: nat)
    requires k < |Segments(v)| && i < |Segments(v)[k]|
    ensures Segments(v)[k][i] in v && Segments(v)[k][i] != '/'
  {
    if v != "" {
      var rest := Segments(v[1..]);
      if v[0] == '/' {
        SegmentChars(v[1..], k - 1, i);
      } else if k == 0 {
        if i > 0 { SegmentChars(v[1..], 0, i - 1); }
      } else {
        SegmentChars(v[1..], k, i);
      }
    }
  }

  lemma {:induction false} MeaningfulFrom(parts: seq<string>, p: string)
    requires p in Meaningful(parts)
    ensures p in parts && p != "" && p != "."
  {
    if parts[0] == "" || parts[0] == "." || p != parts[0] { MeaningfulFrom(parts[1..], p); }
  }

  lemma {:induction false} JoinChars(parts: seq<string>, c: char)
    requires c in Join(parts)
    ensures c == '/' || c == '.' || exists k :: 0 <= k < |parts| && c in parts[k]
  {
    if |parts| > 1 {
      if c !in parts[0] && c != '/' {
        JoinChars(parts[1..], c);
        if c != '.' {
          var k :| 0 <= k < |parts[1..]| && c in parts[1..][k];
          assert c in parts[k + 1];
        }
      }
    }
  }

  /** A segment of the joined path is a part again: joining loses nothing. */
  lemma {:induction false} SegmentsOfJoin(parts: seq<string>)
    requires parts != [] && forall k :: 0 <= k < |parts| ==> parts[k] != "" && '/' !in parts[k]
    ensures Segments(Join(parts)) == parts
  {
    if |parts| == 1 {
      SegmentsOfPrefix(parts[0], "");
      assert parts[0] + "" == parts[0];
    } else {
      SegmentsOfJoin(parts[1..]);
      SegmentsOfPrefix(parts[0], "/" + Join(parts[1..]));
      var tail := "/" + Join(parts[1..]);
      assert tail[1..] == Join(parts[1..]);
      assert Segments(tail) == [""] + parts[1..];
      assert parts[0] + "/" + Join(parts[1..]) == parts[0] + tail;
    }
  }

  lemma {:induction false} SegmentsOfPrefix(a: string, b: string)
    requires '/' !in a && (b == "" || b[0] == '/')
    ensures Segments(a + b) == [a] + Segments(b)[1..]
  {
    if a == "" {
      assert a + b == b;
    } else {
      assert (a + b)[1..] == a[1..] + b;
      SegmentsOfPrefix(a[1..], b);
      assert a == [a[0]] + a[1..];
    }
  }

  /** A normalized path stays inside: relative, no control characters, and made of segments none
      of which is empty, `.` or `..` (or it is the root itself). */
  lemma NormalizedConfined(v: string, u: Unicode)
    requires Normalized(v, u).Some?
    ensures var p := Normalized(v, u).value;
      && (forall c :: c in p ==> !Control(c))
      && (p == "." || forall k :: 0 <= k < |Segments(p)| ==> Segments(p)[k] != "" && Segments(p)[k] != "." && Segments(p)[k] != "..")
      && (p == "." || Segments(p) == Meaningful(Segments(v)))
  {
    var p := Normalized(v, u).value;
    var parts := Meaningful(Segments(v));
    forall k | 0 <= k < |parts| ensures parts[k] != "" && parts[k] != "." && parts[k] in Segments(v) && '/' !in parts[k] {
      MeaningfulFrom(Segments(v), parts[k]);
      var j :| 0 <= j < |Segments(v)| && Segments(v)[j] == parts[k];
      forall i | 0 <= i < |parts[k]| ensures parts[k][i] != '/' { SegmentChars(v, j, i); }
    }
    forall c | c in p ensures !Control(c) {
      JoinChars(parts, c);
      if c != '/' && c != '.' {
        var k :| 0 <= k < |parts| && c in parts[k];
        var j :| 0 <= j < |Segments(v)| && Segments(v)[j] == parts[k];
        var i :| 0 <= i < |parts[k]| && parts[k][i] == c;
        SegmentChars(v, j, i);
      }
    }
    if parts != [] { SegmentsOfJoin(parts); }
  }

  // ---------------------------------------------------------------- rows

  function KindOf(operation: string): Kind {
    if operation == "CREATE" then Create
    else if operation == "REPLACE" then Replace
    else if operation == "DELETE" then Delete
    else Unknown
  }

  /** The checked row of one operation; `None` when the plan is refused because of it. */
  function RowFor(op: FileOperation, u: Unicode): Option<Row> {
    var kind := KindOf(op.operation);
    var path := Normalized(op.path, u);
    if path.None? then None
    else if kind.Create? && op.pre != Absent then None
    else if (kind.Replace? || kind.Delete?) && !op.pre.Sha? then None
    else if kind.Create? || kind.Replace? then
      if op.content.None? || op.post != Sha(Digest(op.content.value)) then None
      else Some(Row(kind, path.value, op.pre, op.post, op.post, op.content))
    else if op.content.Some? || op.post != Absent then None
    else Some(Row(kind, path.value, op.pre, Absent, Absent, None))
  }

  lemma RowForFits(op: FileOperation, u: Unicode)
    requires RowFor(op, u).Some?
    ensures RowFits(RowFor(op, u).value)
  {
  }

  function Payload(r: Row): nat { if r.data.Some? then |r.data.value| else 0 }

  function Total(rows: seq<Row>): nat {
    if rows == [] then 0 else Payload(rows[0]) + Total(rows[1..])
  }

  function RowsFor(ops: seq<FileOperation>, u: Unicode): seq<Row>
    requires forall op :: op in ops ==> RowFor(op, u).Some?
  {
    if ops == [] then [] else [RowFor(ops[0], u).value] + RowsFor(ops[1..], u)
  }

  predicate DistinctFolds(rows: seq<Row>, u: Unicode) {
    forall i, j :: 0 <= i < j < |rows| ==> u.fold(rows[i].path) != u.fold(rows[j].path)
  }

  /** The plan passes every check. */
  predicate Accepted(ops: seq<FileOperation>, u: Unicode) {
    && 1 <= |ops| <= MAX_PLAN_FILES
    && (forall op :: op in ops ==> RowFor(op, u).Some?)
    && DistinctFolds(RowsFor(ops, u), u)
    && Total(RowsFor(ops, u)) <= MAX_PLAN_BYTES
  }

  predicate PathBefore(a: Row, b: Row) { TextLess(a.path, b.path) }

  /** `rows` is what `canonical_plan` returns for `ops`. */
  ghost predicate CanonicalOf(rows: seq<Row>, ops: seq<FileOperation>, u: Unicode) {
    Accepted(ops, u) && Ascending(rows, PathBefore) && Elements(rows) == Elements(RowsFor(ops, u)) && |rows| == |ops|
  }

  lemma {:induction false} RowsForAt(ops: seq<FileOperation>, u: Unicode, i: nat)
    requires (forall op :: op in ops ==> RowFor(op, u).Some?) && i < |ops|
    ensures |RowsFor(ops, u)| == |ops| && RowsFor(ops, u)[i] == RowFor(ops[i], u).value
  {
    if i > 0 { RowsForAt(ops[1..], u, i - 1); } else if |ops| > 1 { RowsForAt(ops[1..], u, 0); }
  }

  lemma {:induction false} RowsForOne(ops: seq<FileOperation>, op: FileOperation, u: Unicode)
    requires forall o :: o in ops + [op] ==> RowFor(o, u).Some?
    ensures RowsFor(ops + [op], u) == RowsFor(ops, u) + [RowFor(op, u).value]
    decreases |ops|
  {
    if ops == [] {
      assert [op][1..] == [];
    } else {
      assert (ops + [op])[1..] == ops[1..] + [op];
      RowsForOne(ops[1..], op, u);
    }
  }

  lemma {:induction false} TotalOne(rows: seq<Row>, r: Row)
    ensures Total(rows + [r]) == Total(rows) + Payload(r)
    decreases |rows|
  {
    if rows == [] {
      assert [r][1..] == [];
    } else {
      assert (rows + [r])[1..] == rows[1..] + [r];
      TotalOne(rows[1..], r);
    }
  }

  lemma RowsOrdered(rows: seq<Row>, u: Unicode)
    requires DistinctFolds(rows, u)
    ensures StrictOrder(PathBefore, Elements(rows)) && |Elements(rows)| == |rows|
  {
    forall a, b | a in rows && b in rows && a != b ensures a.path != b.path {
      var i :| 0 <= i < |rows| && rows[i] == a;
      var j :| 0 <= j < |rows| && rows[j] == b;
    }
    TextOrders(set r | r in rows :: r.path);
    forall a, b, c | a in rows && b in rows && c in rows && PathBefore(a, b) && PathBefore(b, c) ensures PathBefore(a, c) {
      TextTransitive(a.path, b.path, c.path);
    }
    forall a, b | a in rows && b in rows && PathBefore(a, b) ensures !PathBefore(b, a) { TextAsymmetric(a.path, b.path); }
    forall a, b | a in rows && b in rows && a != b ensures PathBefore(a, b) || PathBefore(b, a) { TextTotal(a.path, b.path); }
    DistinctSize(rows, u);
  }

  lemma {:induction false} DistinctSize(rows: seq<Row>, u: Unicode)
    requires DistinctFolds(rows, u)
    ensures |Elements(rows)| == |rows|
  {
    if rows != [] {
      DistinctSize(rows[1..], u);
      assert Elements(rows) == Elements(rows[1..]) + {rows[0]};
      assert rows[0] !in rows[1..];
    }
  }

  function Folds(rows: seq<Row>, u: Unicode): set<string> { set i | 0 <= i < |rows| :: u.fold(rows[i].path) }

  /** The loop has checked the first `k` operations. */
  ghost predicate Checked(ops: seq<FileOperation>, u: Unicode, k: nat, rows: seq<Row>, seen: set<string>, total: nat)
    requires k <= |ops|
  {
    && (forall op :: op in ops[..k] ==> RowFor(op, u).Some?)
    && rows == RowsFor(ops[..k], u) && |rows| == k && DistinctFolds(rows, u)
    && seen == Folds(rows, u) && total == Total(rows)
    && forall i :: 0 <= i < |rows| ==> RowFits(rows[i])
  }

  lemma FoldsOneMore(rows: seq<Row>, row: Row, u: Unicode)
    ensures Folds(rows + [row], u) == Folds(rows, u) + {u.fold(row.path)}
  {
    forall f | f in Folds(rows + [row], u) ensures f in Folds(rows, u) + {u.fold(row.path)} {
      var i :| 0 <= i < |rows + [row]| && u.fold((rows + [row])[i].path) == f;
      if i < |rows| { assert rows[i] == (rows + [row])[i]; }
    }
    forall f | f in Folds(rows, u) + {u.fold(row.path)} ensures f in Folds(rows + [row], u) {
      if f in Folds(rows, u) {
        var i :| 0 <= i < |rows| && u.fold(rows[i].path) == f;
        assert (rows + [row])[i] == rows[i];
      } else {
        assert (rows + [row])[|rows|] == row;
      }
    }
  }

  lemma CheckedOneMore(ops: seq<FileOperation>, u: Unicode, k: nat, rows: seq<Row>, seen: set<string>, total: nat)
    requires k < |ops| && Checked(ops, u, k, rows, seen, total)
    requires RowFor(ops[k], u).Some? && u.fold(RowFor(ops[k], u).value.path) !in seen
    ensures var row := RowFor(ops[k], u).value;
      Checked(ops, u, k + 1, rows + [row], seen + {u.fold(row.path)}, total + Payload(row))
  {
    var row := RowFor(ops[k], u).value;
    assert ops[..k + 1] == ops[..k] + [ops[k]];
    RowForFits(ops[k], u);
    RowsForOne(ops[..k], ops[k], u);
    TotalOne(rows, row);
    FoldsOneMore(rows, row, u);
    forall i, j | 0 <= i < j < |rows + [row]| ensures u.fold((rows + [row])[i].path) != u.fold((rows + [row])[j].path) {
      assert u.fold(rows[i].path) in Folds(rows, u);
    }
  }

  // ---------------------------------------------------------------- the same, in columns

  /** Empty and `.` segments are what is left out of a path, and all that is. */
  lemma {:induction false} MeaningfulDrops(a: seq<string>, x: string, b: seq<string>)
    requires x == "" || x == "."
    ensures Meaningful(a + [x] + b) == Meaningful(a + b)
  {
    if a == [] {
      assert [] + [x] + b == [x] + b && ([x] + b)[1..] == b && [] + b == b;
    } else {
      assert (a + [x] + b)[1..] == a[1..] + [x] + b && (a + b)[1..] == a[1..] + b;
      MeaningfulDrops(a[1..], x, b);
    }
  }

  lemma {:induction false} MeaningfulWhole(parts: seq<string>)
    requires forall k :: 0 <= k < |parts| ==> parts[k] != "" && parts[k] != "."
    ensures Meaningful(parts) == parts
  {
    if parts != [] { MeaningfulWhole(parts[1..]); }
  }

  lemma {:induction false} MeaningfulKeeps(parts: seq<string>, p: string)
    requires p in parts && p != "" && p != "."
    ensures p in Meaningful(parts)
  {
    if parts[0] != p { MeaningfulKeeps(parts[1..], p); }
  }

  /** A relative path that goes nowhere up: no control character and no backslash, no leading slash and no drive,
      no `..` among its segments, and admitted. */
  predicate PathFits(v: string, u: Unicode) {
    && v != "" && (forall i :: 0 <= i < |v| ==> ' ' <= v[i] && v[i] != '\U{7f}' && v[i] != '\\') && u.admits(v)
    && v[0] != '/' && !(|v| > 1 && v[1] == ':' && ('a' <= v[0] <= 'z' || 'A' <= v[0] <= 'Z'))
    && forall k :: 0 <= k < |Segments(v)| ==> Segments(v)[k] != ".."
  }

  lemma PathExactly(v: string, u: Unicode)
    ensures Normalized(v, u).Some? <==> PathFits(v, u)
  {
    hide Segments, Join;
    if ".." in Segments(v) { MeaningfulKeeps(Segments(v), ".."); }
    if ".." in Meaningful(Segments(v)) { MeaningfulFrom(Segments(v), ".."); }
  }

  /** The operation can be planned: a creation of what is absent, or a replacement of a digest, with content of the
      digest it announces; a deletion of a digest, without content, announcing absence; and so, whatever it
      expects, an operation nobody knows, which no grant allows. */
  predicate OpFits(op: FileOperation, u: Unicode) {
    && PathFits(op.path, u)
    && if op.operation == "CREATE" then op.pre == Absent && op.content.Some? && op.post == Sha(Digest(op.content.value))
       else if op.operation == "REPLACE" then op.pre.Sha? && op.content.Some? && op.post == Sha(Digest(op.content.value))
       else if op.operation == "DELETE" then op.pre.Sha? && op.content.None? && op.post == Absent
       else op.content.None? && op.post == Absent
  }

  /** The row says what the operation asks for. */
  predicate SaysSo(row: Row, op: FileOperation, u: Unicode) {
    && (op.operation == "CREATE" <==> row.kind == Create) && (op.operation == "REPLACE" <==> row.kind == Replace)
    && (op.operation == "DELETE" <==> row.kind == Delete)
    && Some(row.path) == Normalized(op.path, u) && row.pre == op.pre && row.post == op.post && row.content == op.post && row.data == op.content
  }

  lemma RowExactly(op: FileOperation, u: Unicode)
    ensures RowFor(op, u).Some? <==> OpFits(op, u)
    ensures RowFor(op, u).Some? ==> SaysSo(RowFor(op, u).value, op, u)
  {
    hide Normalized, PathFits;
    PathExactly(op.path, u);
  }

  /** Bytes of content in all operations. */
  function ContentSize(ops: seq<FileOperation>): nat {
    if ops == [] then 0 else (if ops[0].content.Some? then |ops[0].content.value| else 0) + ContentSize(ops[1..])
  }

  lemma {:induction false} SizesAgree(ops: seq<FileOperation>, u: Unicode)
    requires forall op :: op in ops ==> RowFor(op, u).Some?
    ensures Total(RowsFor(ops, u)) == ContentSize(ops)
  {
    hide RowFor, SaysSo, OpFits;
    if ops != [] {
      RowContent(ops[0], u);
      SizesAgree(ops[1..], u);
    }
  }

  lemma RowContent(op: FileOperation, u: Unicode)
    requires RowFor(op, u).Some?
    ensures RowFor(op, u).value.data == op.content && Some(RowFor(op, u).value.path) == Normalized(op.path, u)
  {
    hide Normalized;
  }

  /** The plan has at most 64 operations and a mebibyte of content, each can be planned, and no two paths collide
      once case is folded. */
  ghost predicate PlanFits(ops: seq<FileOperation>, u: Unicode) {
    && 1 <= |ops| <= 64 && ContentSize(ops) <= 1_048_576
    && (forall i :: 0 <= i < |ops| ==> OpFits(ops[i], u))
    && (forall i, j, p, q ::
          (0 <= i < j < |ops| && Normalized(ops[i].path, u) == Some(p) && Normalized(ops[j].path, u) == Some(q)) ==> u.fold(p) != u.fold(q))
  }

  lemma FoldsAgree(ops: seq<FileOperation>, u: Unicode)
    requires forall op :: op in ops ==> RowFor(op, u).Some?
    ensures DistinctFolds(RowsFor(ops, u), u) <==>
      forall i, j, p, q ::
        (0 <= i < j < |ops| && Normalized(ops[i].path, u) == Some(p) && Normalized(ops[j].path, u) == Some(q)) ==> u.fold(p) != u.fold(q)
  {
    hide RowFor, Normalized;
    var rows := RowsFor(ops, u);
    if ops != [] { RowsForAt(ops, u, 0); }
    forall i | 0 <= i < |ops| ensures i < |rows| && Some(rows[i].path) == Normalized(ops[i].path, u) {
      RowsForAt(ops, u, i);
      RowContent(ops[i], u);
    }
  }

  /** A plan is accepted exactly when it fits. */
  lemma AcceptedExactly(ops: seq<FileOperation>, u: Unicode)
    ensures Accepted(ops, u) <==> PlanFits(ops, u)
  {
    hide RowFor, OpFits, Normalized, DistinctFolds, Total, ContentSize, RowsFor;
    forall i | 0 <= i < |ops| ensures RowFor(ops[i], u).Some? <==> OpFits(ops[i], u) { RowExactly(ops[i], u); }
    if forall op :: op in ops ==> RowFor(op, u).Some? {
      SizesAgree(ops, u);
      FoldsAgree(ops, u);
    }
  }

  /** One row for each operation, saying what it asks for, in ascending order of paths. */
  ghost predicate Lists(rows: seq<Row>, ops: seq<FileOperation>, u: Unicode) {
    && |rows| == |ops| && (forall i, j :: 0 <= i < j < |rows| ==> TextLess(rows[i].path, rows[j].path))
    && (forall i :: 0 <= i < |rows| ==> exists j :: 0 <= j < |ops| && SaysSo(rows[i], ops[j], u))
    && (forall j :: 0 <= j < |ops| ==> exists i :: 0 <= i < |rows| && SaysSo(rows[i], ops[j], u))
  }

  lemma FoundIn(rows: seq<Row>, others: seq<Row>, i: nat) returns (j: nat)
    requires Elements(rows) == Elements(others) && i < |rows|
    ensures j < |others| && others[j] == rows[i]
  {
    assert rows[i] in Elements(others);
    j :| 0 <= j < |others| && others[j] == rows[i];
  }

  lemma ListedSays(ops: seq<FileOperation>, u: Unicode, j: nat)
    requires (forall op :: op in ops ==> RowFor(op, u).Some?) && j < |ops|
    ensures |RowsFor(ops, u)| == |ops| && SaysSo(RowsFor(ops, u)[j], ops[j], u)
  {
    hide SaysSo;
    RowsForAt(ops, u, j);
    RowExactly(ops[j], u);
  }

  lemma CanonicalLists(rows: seq<Row>, ops: seq<FileOperation>, u: Unicode)
    requires CanonicalOf(rows, ops, u)
    ensures Lists(rows, ops, u)
  {
    hide RowFor, SaysSo, TextLess, RowsFor, Total, DistinctFolds, Elements;
    var listed := RowsFor(ops, u);
    ListedSays(ops, u, 0);
    forall i | 0 <= i < |rows| ensures exists j :: 0 <= j < |ops| && SaysSo(rows[i], ops[j], u) {
      var j := FoundIn(rows, listed, i);
      ListedSays(ops, u, j);
    }
    forall j | 0 <= j < |ops| ensures exists i :: 0 <= i < |rows| && SaysSo(rows[i], ops[j], u) {
      var i := FoundIn(listed, rows, j);
      ListedSays(ops, u, j);
    }
    forall i, j | 0 <= i < j < |rows| ensures TextLess(rows[i].path, rows[j].path) { assert PathBefore(rows[i], rows[j]); }
  }

  /** The checking loop, then the sort by path. */
  method CanonicalPlan(ops: seq<FileOperation>, u: Unicode) returns (r: Option<seq<Row>>)
    ensures r.Some? <==> Accepted(ops, u)
    ensures r.Some? ==> CanonicalOf(r.value, ops, u) && Canonical(r.value)
    ensures r.Some? <==> PlanFits(ops, u)
    ensures r.Some? ==> Lists(r.value, ops, u)
  {
    hide PlanFits, Lists;
    AcceptedExactly(ops, u);
    if !(1 <= |ops| <= MAX_PLAN_FILES) { return None; }
    var rows: seq<Row> := [];
    var seen: set<string> := {};
    var total: nat := 0;
    for k := 0 to |ops|
      invariant Checked(ops, u, k, rows, seen, total)
    {
      var row := RowFor(ops[k], u);
      if row.None? { return None; }
      if u.fold(row.value.path) in seen {
        ClashRefused(ops, u, k, rows, seen, total);
        return None;
      }
      CheckedOneMore(ops, u, k, rows, seen, total);
      seen := seen + {u.fold(row.value.path)};
      total := total + Payload(row.value);
      rows := rows + [row.value];
    }
    assert ops[..|ops|] == ops;
    if total > MAX_PLAN_BYTES { return None; }
    RowsOrdered(rows, u);
    var sorted := Sorted(Elements(rows), PathBefore);
    SortedCanonical(sorted, rows, u);
    CanonicalLists(sorted, ops, u);
    r := Some(sorted);
  }

  lemma ClashRefused(ops: seq<FileOperation>, u: Unicode, k: nat, rows: seq<Row>, seen: set<string>, total: nat)
    requires k < |ops| && Checked(ops, u, k, rows, seen, total)
    requires RowFor(ops[k], u).Some? && u.fold(RowFor(ops[k], u).value.path) in seen
    ensures !Accepted(ops, u)
  {
    var i :| 0 <= i < |rows| && u.fold(rows[i].path) == u.fold(RowFor(ops[k], u).value.path);
    if forall op :: op in ops ==> RowFor(op, u).Some? {
      RowsForAt(ops, u, i);
      RowsForAt(ops[..k], u, i);
      RowsForAt(ops, u, k);
    }
  }

  lemma SortedCanonical(sorted: seq<Row>, rows: seq<Row>, u: Unicode)
    requires DistinctFolds(rows, u) && rows != []
    requires forall i :: 0 <= i < |rows| ==> RowFits(rows[i])
    requires Ascending(sorted, PathBefore) && Elements(sorted) == Elements(rows) && |sorted| == |rows|
    ensures Canonical(sorted)
  {
    forall i | 0 <= i < |sorted| ensures RowFits(sorted[i]) {
      assert sorted[i] in Elements(rows);
    }
    forall i, j | 0 <= i < j < |sorted| ensures sorted[i].path != sorted[j].path {
      assert PathBefore(sorted[i], sorted[j]);
      TextAsymmetric(sorted[i].path, sorted[j].path);
    }
  }

  // ---------------------------------------------------------------- order does not matter

  /** Taking operation `i` out takes its row out. */
  lemma {:induction false} RowsForWithout(ops: seq<FileOperation>, u: Unicode, i: nat)
    requires (forall o :: o in ops ==> RowFor(o, u).Some?) && i < |ops|
    ensures |RowsFor(ops, u)| == |ops| && RowsFor(ops, u)[i] == RowFor(ops[i], u).value
    ensures RowsFor(ops[..i] + ops[i + 1..], u) == RowsFor(ops, u)[..i] + RowsFor(ops, u)[i + 1..]
  {
    hide RowFor;
    RowsForAt(ops, u, i);
    var rest := ops[..i] + ops[i + 1..];
    if i == 0 {
      assert rest == ops[1..];
    } else {
      assert rest[0] == ops[0] && rest[1..] == ops[1..][..i - 1] + ops[1..][i..];
      RowsForWithout(ops[1..], u, i - 1);
    }
  }

  lemma {:induction false} TotalWithout(rows: seq<Row>, i: nat)
    requires i < |rows|
    ensures Total(rows) == Total(rows[..i] + rows[i + 1..]) + Payload(rows[i])
  {
    var rest := rows[..i] + rows[i + 1..];
    if i == 0 {
      assert rest == rows[1..];
    } else {
      assert rest[0] == rows[0] && rest[1..] == rows[1..][..i - 1] + rows[1..][i..];
      TotalWithout(rows[1..], i - 1);
    }
  }

  lemma MultisetWithout<T>(s: seq<T>, i: nat)
    requires i < |s|
    ensures multiset(s) == multiset(s[..i] + s[i + 1..]) + multiset{s[i]}
  {
    var a, b := s[..i], s[i + 1..];
    assert s == a + [s[i]] + b;
    assert multiset(a + [s[i]]) == multiset(a) + multiset{s[i]};
  }

  lemma RowsForMultiset(ops: seq<FileOperation>, u: Unicode, op: FileOperation, i: nat)
    requires (forall o :: o in ops ==> RowFor(o, u).Some?) && i < |ops| && ops[i] == op
    ensures multiset(RowsFor(ops, u)) == multiset(RowsFor(ops[..i] + ops[i + 1..], u)) + multiset{RowFor(op, u).value}
    ensures Total(RowsFor(ops, u)) == Total(RowsFor(ops[..i] + ops[i + 1..], u)) + Payload(RowFor(op, u).value)
  {
    hide RowFor;
    var rows := RowsFor(ops, u);
    RowsForWithout(ops, u, i);
    TotalWithout(rows, i);
    MultisetWithout(rows, i);
  }

  lemma RemoveOne<T(!new)>(s: seq<T>, t: seq<T>, i: nat)
    requires multiset(s) == multiset(t) && s != [] && i < |t| && t[i] == s[0]
    ensures multiset(s[1..]) == multiset(t[..i] + t[i + 1..])
  {
    MultisetWithout(t, i);
    MultisetWithout(s, 0);
    assert s[..0] + s[1..] == s[1..];
    var a, b, one := multiset(s[1..]), multiset(t[..i] + t[i + 1..]), multiset{s[0]};
    forall x ensures a[x] == b[x] { assert (a + one)[x] == (b + one)[x]; }
  }

  lemma {:induction false} SameRows(ops: seq<FileOperation>, others: seq<FileOperation>, u: Unicode)
    requires multiset(ops) == multiset(others) && forall o :: o in ops ==> RowFor(o, u).Some?
    ensures forall o :: o in others ==> RowFor(o, u).Some?
    ensures |ops| == |others|
    ensures multiset(RowsFor(ops, u)) == multiset(RowsFor(others, u))
    ensures Total(RowsFor(ops, u)) == Total(RowsFor(others, u))
    decreases |ops|
  {
    hide RowFor;
    assert |ops| == |multiset(ops)| == |multiset(others)| == |others|;
    forall o | o in others ensures RowFor(o, u).Some? { assert o in multiset(others); assert o in ops; }
    if ops != [] {
      assert ops[0] in multiset(others);
      var i :| 0 <= i < |others| && others[i] == ops[0];
      var rest := others[..i] + others[i + 1..];
      RemoveOne(ops, others, i);
      SameRows(ops[1..], rest, u);
      RowsForMultiset(others, u, ops[0], i);
    }
  }

  lemma {:induction false} CountTwo(rows: seq<Row>, i: nat, j: nat)
    requires i < j < |rows| && rows[i] == rows[j]
    ensures multiset(rows)[rows[i]] >= 2
  {
    assert rows == rows[..i] + [rows[i]] + rows[i + 1..];
    assert rows[i + 1..][j - i - 1] == rows[j];
    assert rows[j] in multiset(rows[i + 1..]);
  }

  lemma {:induction false} CountOne(rows: seq<Row>, u: Unicode, r: Row)
    requires DistinctFolds(rows, u)
    ensures multiset(rows)[r] <= 1
  {
    if rows != [] {
      CountOne(rows[1..], u, r);
      assert rows == [rows[0]] + rows[1..];
      assert rows[0] !in rows[1..];
    }
  }

  lemma FoldsStayDistinct(rows: seq<Row>, others: seq<Row>, u: Unicode)
    requires multiset(rows) == multiset(others) && DistinctFolds(rows, u)
    ensures DistinctFolds(others, u)
  {
    forall i, j | 0 <= i < j < |others| ensures u.fold(others[i].path) != u.fold(others[j].path) {
      if others[i] == others[j] {
        CountTwo(others, i, j);
        CountOne(rows, u, others[i]);
      }
      assert others[i] in multiset(others) && others[j] in multiset(others);
      assert others[i] in rows && others[j] in rows;
      var k :| 0 <= k < |rows| && rows[k] == others[i];
      var l :| 0 <= l < |rows| && rows[l] == others[j];
    }
  }

  /** Every permutation of the operations is accepted alike and gives the same rows, hence the
      same manifest and plan hash. */
  lemma PermutationInvariant(ops: seq<FileOperation>, others: seq<FileOperation>, u: Unicode)
    requires multiset(ops) == multiset(others) && Accepted(ops, u)
    ensures Accepted(others, u)
    ensures forall rows, rows2 :: CanonicalOf(rows, ops, u) && CanonicalOf(rows2, others, u) ==> rows == rows2
  {
    SameRows(ops, others, u);
    FoldsStayDistinct(RowsFor(ops, u), RowsFor(others, u), u);
    SameElements(RowsFor(ops, u), RowsFor(others, u));
    RowsOrdered(RowsFor(ops, u), u);
    forall rows, rows2 | CanonicalOf(rows, ops, u) && CanonicalOf(rows2, others, u) ensures rows == rows2 {
      AscendingIsUnique(rows, rows2, PathBefore);
    }
  }

  lemma SameElements(a: seq<Row>, b: seq<Row>)
    requires multiset(a) == multiset(b)
    ensures Elements(a) == Elements(b)
  {
    forall x ensures x in Elements(a) <==> x in Elements(b) {
      assert x in a <==> x in multiset(a);
      assert x in b <==> x in multiset(b);
    }
  }
}
