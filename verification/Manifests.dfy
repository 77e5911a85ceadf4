/** The manifest of a plan, whose digest is the plan hash: its text determines the rows, although
    paths and unchecked preimages may hold the separators. */
module Manifests {
  import opened Basics
  import opened Disks
  import opened Ordering
  import opened Plans

  /** How a digest is printed. */
  type Printer = Digest -> string

  /** Among these digests the printed form is lower-case hex and there is no collision. */
  ghost predicate Prints(hex: Printer, ds: set<Digest>) {
    && (forall d :: d in ds ==> HexShaped(hex(d)))
    && forall d, e :: d in ds && e in ds && hex(d) == hex(e) ==> d == e
  }

  function ImageDigests(i: Image): set<Digest> { if i.Sha? then {i.digest} else {} }

  function RowDigests(r: Row): set<Digest> { ImageDigests(r.pre) + ImageDigests(r.post) + ImageDigests(r.content) }

  function Digests(rows: seq<Row>): set<Digest> {
    if rows == [] then {} else RowDigests(rows[0]) + Digests(rows[1..])
  }

  // ---------------------------------------------------------------- the text

  function KindText(k: Kind): string {
    match k
    case Create => "CREATE"
    case Replace => "REPLACE"
    case Delete => "DELETE"
    case Unknown => "None"
  }

  function ImageText(hex: Printer, i: Image): string {
    match i
    case Absent => "ABSENT"
    case Sha(d) => hex(d)
    case Text(t) => t
  }

  /** Path, operation and preimage: the fields that may be irregular. */
  function Head(hex: Printer, r: Row): string { r.path + "|" + KindText(r.kind) + "|" + ImageText(hex, r.pre) }

  function Line(hex: Printer, r: Row): string {
    Head(hex, r) + "|" + ImageText(hex, r.post) + "|" + ImageText(hex, r.content)
  }

  function Manifest(hex: Printer, rows: seq<Row>): string {
    if rows == [] then "" else Line(hex, rows[0]) + "\n" + Manifest(hex, rows[1..])
  }

  // ---------------------------------------------------------------- the last upper-case letter

  function LastUpper(s: string): Option<char> {
    if s == "" then None
    else if Upper(s[|s| - 1]) then Some(s[|s| - 1])
    else LastUpper(s[..|s| - 1])
  }

  lemma {:induction false} LastUpperOfTail(a: string, b: string)
    ensures LastUpper(a + b) == if LastUpper(b).Some? then LastUpper(b) else LastUpper(a)
    decreases |b|
  {
    if b == "" {
      assert a + b == a;
    } else {
      var n := |b| - 1;
      assert (a + b)[|a + b| - 1] == b[n] && (a + b)[..|a + b| - 1] == a + b[..n];
      LastUpperOfTail(a, b[..n]);
    }
  }

  lemma {:induction false} LastUpperNone(s: string)
    requires NoUpper(s)
    ensures LastUpper(s).None?
    decreases |s|
  {
    if s != "" { LastUpperNone(s[..|s| - 1]); }
  }

  /** Text that ends in the word, an optional bar and something folded. */
  lemma EndsInWord(a: string, word: string, x: string)
    requires word != "" && Upper(word[|word| - 1]) && NoUpper(x)
    ensures LastUpper(a + word + x) == Some(word[|word| - 1])
  {
    LastUpperNone(x);
    LastUpperOfTail(a + word, x);
    LastUpperOfTail(a, word);
  }

  /** Up to an unfinished preimage, the last upper-case letter of an unknown operation is the `N`. */
  lemma UnknownHead(path: string, x: string)
    requires NoUpper(x)
    ensures LastUpper(path + "|None|" + x) == Some('N')
  {
    assert path + "|None|" + x == (path + "|") + "N" + ("one|" + x);
    EndsInWord(path + "|", "N", "one|" + x);
  }

  /** The preimage field is unchecked text. */
  predicate Loose(r: Row) { r.kind.Unknown? && !r.pre.Absent? }

  lemma CheckedHead(hex: Printer, r: Row)
    requires RowFits(r) && !Loose(r) && Prints(hex, RowDigests(r))
    ensures LastUpper(Head(hex, r)) == Some(if r.kind.Replace? || r.kind.Delete? then 'E' else 'T')
  {
    var pre := ImageText(hex, r.pre);
    match r.kind
    case Create =>
      EndsInWord(r.path + "|CREATE|", "ABSENT", "");
      assert Head(hex, r) == r.path + "|CREATE|" + "ABSENT" + "";
    case Replace =>
      EndsInWord(r.path + "|", "REPLACE", "|" + pre);
      assert Head(hex, r) == r.path + "|" + "REPLACE" + ("|" + pre);
    case Delete =>
      EndsInWord(r.path + "|", "DELETE", "|" + pre);
      assert Head(hex, r) == r.path + "|" + "DELETE" + ("|" + pre);
    case Unknown =>
      EndsInWord(r.path + "|None|", "ABSENT", "");
      assert Head(hex, r) == r.path + "|None|" + "ABSENT" + "";
  }

  /** The last upper-case letter of the head tells unchecked preimages from checked ones. */
  lemma HeadTells(hex: Printer, r: Row)
    requires RowFits(r) && Prints(hex, RowDigests(r))
    ensures Loose(r) <==> LastUpper(Head(hex, r)) == Some('N')
  {
    if Loose(r) {
      UnknownHead(r.path, ImageText(hex, r.pre));
      assert Head(hex, r) == r.path + "|None|" + ImageText(hex, r.pre);
    } else {
      CheckedHead(hex, r);
    }
  }

  /** A whole line never ends like an unfinished unknown operation. */
  lemma WholeLine(hex: Printer, r: Row)
    requires RowFits(r) && Prints(hex, RowDigests(r))
    ensures LastUpper(Line(hex, r)) != Some('N')
  {
    hide LastUpper;
    var head := Head(hex, r);
    if r.kind.Create? || r.kind.Replace? {
      var tail := "|" + ImageText(hex, r.post) + "|" + ImageText(hex, r.content);
      CheckedHead(hex, r);
      assert NoUpper(tail);
      LastUpperNone(tail);
      LastUpperOfTail(head, tail);
      assert Line(hex, r) == head + tail;
    } else {
      EndsInWord(head + "|ABSENT|", "ABSENT", "");
      assert Line(hex, r) == head + "|ABSENT|" + "ABSENT" + "";
    }
  }

  // ---------------------------------------------------------------- a line determines its row

  predicate Plain(i: Image) { !i.Text? }

  lemma PlainFree(hex: Printer, i: Image, c: char)
    requires Plain(i) && Prints(hex, ImageDigests(i)) && (c == '|' || c == '\n')
    ensures Free(ImageText(hex, i), c)
  {
  }

  lemma KindTextInjective(k: Kind, l: Kind)
    requires KindText(k) == KindText(l)
    ensures k == l
  {
    assert |KindText(Create)| == 6 && |KindText(Replace)| == 7 && |KindText(Delete)| == 6 && |KindText(Unknown)| == 4;
    assert KindText(Create)[0] == 'C' && KindText(Delete)[0] == 'D';
  }

  lemma PlainInjective(hex: Printer, i: Image, j: Image)
    requires Plain(i) && Plain(j) && Prints(hex, ImageDigests(i) + ImageDigests(j)) && ImageText(hex, i) == ImageText(hex, j)
    ensures i == j
  {
    assert |"ABSENT"| == 6;
  }

  lemma ThreeFields(a: string, b: string, c: string, x: string, y: string, z: string)
    requires a + "|" + b + "|" + c == x + "|" + y + "|" + z
    requires Free(b, '|') && Free(c, '|') && Free(y, '|') && Free(z, '|')
    ensures a == x && b == y && c == z
  {
    SplitLast(a + "|" + b, c, x + "|" + y, z, '|');
    SplitLast(a, b, x, y, '|');
  }

  lemma KindFree(k: Kind)
    ensures Free(KindText(k), '|')
  {
  }

  /** The separators of a checked head are found from the right. */
  lemma CheckedHeadTexts(hex: Printer, r: Row, q: Row)
    requires Plain(r.pre) && Plain(q.pre) && Prints(hex, ImageDigests(r.pre)) && Prints(hex, ImageDigests(q.pre))
    requires Head(hex, r) == Head(hex, q)
    ensures r.path == q.path && KindText(r.kind) == KindText(q.kind) && ImageText(hex, r.pre) == ImageText(hex, q.pre)
  {
    KindFree(r.kind);
    KindFree(q.kind);
    PlainFree(hex, r.pre, '|');
    PlainFree(hex, q.pre, '|');
    ThreeFields(r.path, KindText(r.kind), ImageText(hex, r.pre), q.path, KindText(q.kind), ImageText(hex, q.pre));
  }

  lemma CheckedHeadInjective(hex: Printer, r: Row, q: Row)
    requires Plain(r.pre) && Plain(q.pre) && Prints(hex, ImageDigests(r.pre) + ImageDigests(q.pre)) && Head(hex, r) == Head(hex, q)
    ensures r.path == q.path && r.kind == q.kind && r.pre == q.pre
  {
    CheckedHeadTexts(hex, r, q);
    KindTextInjective(r.kind, q.kind);
    PlainInjective(hex, r.pre, q.pre);
  }

  /** A head with an unchecked preimage is cut at its last `N`. */
  lemma LooseHeadInjective(hex: Printer, r: Row, q: Row)
    requires Loose(r) && Loose(q) && Prints(hex, RowDigests(r) + RowDigests(q)) && Head(hex, r) == Head(hex, q)
    ensures r.path == q.path && r.pre == q.pre
  {
    var t, u := ImageText(hex, r.pre), ImageText(hex, q.pre);
    assert Head(hex, r) == (r.path + "|") + ['N'] + ("one|" + t);
    assert Head(hex, q) == (q.path + "|") + ['N'] + ("one|" + u);
    SplitLast(r.path + "|", "one|" + t, q.path + "|", "one|" + u, 'N');
    assert t == ("one|" + t)[4..] && u == ("one|" + u)[4..];
    assert r.path == (r.path + "|")[..|r.path|] && q.path == (q.path + "|")[..|q.path|];
  }

  lemma HeadInjective(hex: Printer, r: Row, q: Row)
    requires RowFits(r) && RowFits(q) && Prints(hex, RowDigests(r) + RowDigests(q)) && Head(hex, r) == Head(hex, q)
    ensures r.path == q.path && r.kind == q.kind && r.pre == q.pre
  {
    HeadTells(hex, r);
    HeadTells(hex, q);
    if Loose(r) { LooseHeadInjective(hex, r, q); } else { CheckedHeadInjective(hex, r, q); }
  }

  /** A line determines its row, although the path may contain the separator, and the preimage of an
      operation the code does not know may be any folded text. */
  lemma LineInjective(hex: Printer, r: Row, q: Row)
    requires RowFits(r) && RowFits(q) && Prints(hex, RowDigests(r) + RowDigests(q)) && Line(hex, r) == Line(hex, q)
    ensures r == q
  {
    PlainFree(hex, r.post, '|');
    PlainFree(hex, q.post, '|');
    PlainFree(hex, r.content, '|');
    PlainFree(hex, q.content, '|');
    ThreeFields(Head(hex, r), ImageText(hex, r.post), ImageText(hex, r.content),
                Head(hex, q), ImageText(hex, q.post), ImageText(hex, q.content));
    HeadInjective(hex, r, q);
    PlainInjective(hex, r.post, q.post);
    PlainInjective(hex, r.content, q.content);
  }

  // ---------------------------------------------------------------- a manifest determines its rows

  predicate OneLine(p: Path) { '\n' !in p }

  lemma CutInside(head: string, mid: string, tail: string, k: nat)
    requires k < |head + mid + tail|
    ensures (head + mid + tail)[k] ==
      if k < |head| then head[k] else if k < |head| + |mid| then mid[k - |head|] else tail[k - |head| - |mid|]
    ensures |head| <= k < |head| + |mid| ==> (head + mid + tail)[..k] == head + mid[..k - |head|]
  {
  }

  /** A newline inside a line stands in the unchecked preimage; the line cut there is unfinished. */
  lemma CutLine(hex: Printer, r: Row, k: nat)
    requires RowFits(r) && OneLine(r.path) && Prints(hex, RowDigests(r)) && k < |Line(hex, r)| && Line(hex, r)[k] == '\n'
    ensures LastUpper(Line(hex, r)[..k]) == Some('N')
  {
    hide LastUpper, Line, Prints;
    if Plain(r.pre) {
      PlainLineFree(hex, r);
    } else {
      var head, tail := r.path + "|None|", "|ABSENT|ABSENT";
      LooseLine(hex, r);
      assert '\n' !in head && '\n' !in tail;
      CutInside(head, r.pre.text, tail, k);
      UnknownHead(r.path, r.pre.text[..k - |head|]);
    }
  }

  lemma LooseLine(hex: Printer, r: Row)
    requires RowFits(r) && !Plain(r.pre)
    ensures Line(hex, r) == (r.path + "|None|") + r.pre.text + "|ABSENT|ABSENT" && NoUpper(r.pre.text)
  {
  }

  lemma PlainLineFree(hex: Printer, r: Row)
    requires RowFits(r) && Plain(r.pre) && OneLine(r.path) && Prints(hex, RowDigests(r))
    ensures '\n' !in Line(hex, r)
  {
    PlainFree(hex, r.pre, '\n');
    PlainFree(hex, r.post, '\n');
    PlainFree(hex, r.content, '\n');
    assert '\n' !in KindText(r.kind);
  }

  /** What a manifest may be made of. */
  ghost predicate Fit(hex: Printer, r: Row) { RowFits(r) && OneLine(r.path) && Prints(hex, RowDigests(r)) }

  lemma NotShorter(hex: Printer, r: Row, rest: string, q: Row, rest2: string)
    requires Fit(hex, r) && Fit(hex, q) && Line(hex, r) + "\n" + rest == Line(hex, q) + "\n" + rest2
    ensures |Line(hex, r)| >= |Line(hex, q)|
  {
    var a, b := Line(hex, r), Line(hex, q);
    if |a| < |b| {
      assert b[..|a|] == (b + "\n" + rest2)[..|a|] == (a + "\n" + rest)[..|a|] == a;
      assert b[|a|] == (b + "\n" + rest2)[|a|] == (a + "\n" + rest)[|a|] == '\n';
      CutLine(hex, q, |a|);
      WholeLine(hex, r);
    }
  }

  lemma FirstLine(hex: Printer, r: Row, rest: string, q: Row, rest2: string)
    requires Fit(hex, r) && Fit(hex, q) && Line(hex, r) + "\n" + rest == Line(hex, q) + "\n" + rest2
    ensures Line(hex, r) == Line(hex, q) && rest == rest2
  {
    var a, b := Line(hex, r), Line(hex, q);
    NotShorter(hex, r, rest, q, rest2);
    NotShorter(hex, q, rest2, r, rest);
    assert a == (a + "\n" + rest)[..|a|] && b == (b + "\n" + rest2)[..|a|];
    assert rest == (a + "\n" + rest)[|a| + 1..] && rest2 == (b + "\n" + rest2)[|a| + 1..];
  }

  lemma ManifestEmpty(hex: Printer, rows: seq<Row>)
    ensures Manifest(hex, rows) == "" <==> rows == []
  {
    if rows != [] { assert |Manifest(hex, rows)| >= |"\n"|; }
  }

  lemma PrintsFewer(hex: Printer, ds: set<Digest>, es: set<Digest>)
    requires Prints(hex, ds) && es <= ds
    ensures Prints(hex, es)
  {
  }

  /** Equal manifests come from equal rows: the plan hash binds path, operation, both images and
      the content of every operation. */
  lemma {:induction false} ManifestInjective(hex: Printer, rows: seq<Row>, others: seq<Row>)
    requires forall r :: r in rows ==> RowFits(r) && OneLine(r.path)
    requires forall r :: r in others ==> RowFits(r) && OneLine(r.path)
    requires Prints(hex, Digests(rows) + Digests(others)) && Manifest(hex, rows) == Manifest(hex, others)
    ensures rows == others
    decreases |rows|
  {
    ManifestEmpty(hex, rows);
    ManifestEmpty(hex, others);
    if rows != [] {
      var r, q, rest, rest2 := rows[0], others[0], rows[1..], others[1..];
      var ds := Digests(rows) + Digests(others);
      PrintsFewer(hex, ds, RowDigests(r));
      PrintsFewer(hex, ds, RowDigests(q));
      PrintsFewer(hex, ds, RowDigests(r) + RowDigests(q));
      PrintsFewer(hex, ds, Digests(rest) + Digests(rest2));
      FirstLine(hex, r, Manifest(hex, rest), q, Manifest(hex, rest2));
      LineInjective(hex, r, q);
      ManifestInjective(hex, rest, rest2);
      assert rows == [r] + rest && others == [q] + rest2;
    }
  }

  lemma CanonicalFits(rows: seq<Row>, ops: seq<FileOperation>, u: Unicode)
    requires CanonicalOf(rows, ops, u)
    ensures forall r :: r in rows ==> RowFits(r) && OneLine(r.path)
  {
    forall r | r in rows ensures RowFits(r) && OneLine(r.path) {
      assert r in Elements(RowsFor(ops, u));
      if ops != [] { RowsForAt(ops, u, 0); }
      var i :| 0 <= i < |RowsFor(ops, u)| && RowsFor(ops, u)[i] == r;
      RowsForAt(ops, u, i);
      RowForFits(ops[i], u);
      NormalizedConfined(ops[i].path, u);
    }
  }

  /** The plan hash is a canonical form: two accepted plans, whatever operations they name, have the
      same manifest exactly when they ask for the same rows. */
  lemma PlanHashCanonical(hex: Printer, rows: seq<Row>, ops: seq<FileOperation>, rows2: seq<Row>, ops2: seq<FileOperation>, u: Unicode)
    requires CanonicalOf(rows, ops, u) && CanonicalOf(rows2, ops2, u) && Prints(hex, Digests(rows) + Digests(rows2))
    ensures Manifest(hex, rows) == Manifest(hex, rows2) <==> Elements(RowsFor(ops, u)) == Elements(RowsFor(ops2, u))
  {
    CanonicalFits(rows, ops, u);
    CanonicalFits(rows2, ops2, u);
    if Manifest(hex, rows) == Manifest(hex, rows2) { ManifestInjective(hex, rows, rows2); }
    if Elements(rows) == Elements(rows2) {
      RowsOrdered(RowsFor(ops, u), u);
      AscendingIsUnique(rows, rows2, PathBefore);
    }
  }
}
