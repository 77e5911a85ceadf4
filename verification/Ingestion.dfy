/** Queue ingestion: which records of the file become durable provenance and tasks, and why reading
    the file in pieces comes to the same as reading it once. */
module Ingestion {
  import opened Basics
  import opened QueueLines
  import opened Store

  const MAX_QUEUE_BYTES := 2_097_152
  const MAX_RECORD_BYTES := 131_072
  const MAX_RECORDS := 4096

  // ---------------------------------------------------------------- records

  /** A decoded line: the directive id it claims, and the rest uninterpreted. */
  datatype Record = Record(directive: Option<Id>, body: Bytes)

  datatype Parsed = Good(record: Record) | Malformed | NotAnObject

  /** What `_validate` and `_verify` bind a record to: the columns of a provenance row. */
  datatype Binding = Binding(
    directive: Id, key: Id, commit: Id, blob: Id, payload: Digest, path: Id, signer: Id,
    target: Id, action: Id, capability: Id)

  /** A record that passed, and whether its task waits for a human; that flag is no column of the
      provenance row. */
  datatype Verified = Verified(binding: Binding, human: bool)

  /** JSON decoding, and validation with provenance verification, which the model does not open. */
  datatype Authority = Authority(parse: Bytes -> Parsed, verify: Record -> Option<Verified>)

  /** A record with the digest of its line. */
  datatype Item = Item(record: Record, line: Digest)

  /** The record passes: its directive id is an identifier and the one that was verified. */
  function Admitted(auth: Authority, r: Record): Option<Verified> {
    var v := auth.verify(r);
    if r.directive.Some? && IsIdentifier(r.directive.value) && v.Some? && v.value.binding.directive == r.directive.value then v else None
  }

  // ---------------------------------------------------------------- tables

  /** A task id is the digest of this text, so it is kept as the text. */
  datatype TaskId = TaskId(manifest: string)

  function TaskIdOf(directive: Id, key: Id): TaskId { TaskId("AF04_TASK_V1\n" + directive + "\n" + key + "\n") }

  /** The columns a task is inserted with, but for its times. */
  datatype TaskRow = TaskRow(
    directive: Id, target: Id, capability: Id, state: TaskState, priority: int, human: bool, governed: bool, budget: nat)

  datatype Stored = Stored(line: Digest, directive: Id)

  /** `source` is the path the queue was first read from; `tasks` are the tasks that name a
      directive, by whomever created. */
  datatype Tables = Tables(
    source: Option<string>, records: seq<Stored>, provenance: map<TaskId, Binding>, tasks: map<TaskId, TaskRow>)

  const EMPTY_TABLES := Tables(None, [], map[], map[])

  function RowOf(v: Verified): TaskRow {
    TaskRow(v.binding.directive, v.binding.target, v.binding.capability, if v.human then WaitingHuman else Queued, 0, v.human, true, 1)
  }

  /** The row says what was verified: its directive, target and capability; it waits for a human exactly when the
      record says so and is queued otherwise; it is governed, of no priority, and may be retried once. */
  predicate AsksFor(row: TaskRow, v: Verified) {
    && row.directive == v.binding.directive && row.target == v.binding.target && row.capability == v.binding.capability
    && row.human == v.human && (v.human ==> row.state == WaitingHuman) && (!v.human ==> row.state == Queued)
    && row.governed && row.priority == 0 && row.budget == 1
  }

  function IdOf(b: Binding): TaskId { TaskIdOf(b.directive, b.key) }

  /** A directive id holds no newline, so equal task ids come from equal directives and keys. */
  lemma TaskIdInjective(directive: Id, key: Id, directive2: Id, key2: Id)
    requires IsIdentifier(directive) && IsIdentifier(directive2) && TaskIdOf(directive, key) == TaskIdOf(directive2, key2)
    ensures directive == directive2 && key == key2
  {
    var s, t := directive + "\n" + (key + "\n"), directive2 + "\n" + (key2 + "\n");
    var head := "AF04_TASK_V1\n";
    assert TaskIdOf(directive, key).manifest == head + s && TaskIdOf(directive2, key2).manifest == head + t;
    assert (head + s)[|head|..] == s && (head + t)[|head|..] == t;
    SplitFirst(directive, key + "\n", directive2, key2 + "\n", '\n');
    assert (key + "\n")[..|key|] == key && (key2 + "\n")[..|key2|] == key2;
  }

  // ---------------------------------------------------------------- one record

  /** Some provenance row has this directive or this task id. */
  predicate Bound(t: Tables, b: Binding) {
    IdOf(b) in t.provenance || exists k :: k in t.provenance && t.provenance[k].directive == b.directive
  }

  /** Every provenance row with this directive or this task id is this binding. */
  predicate Agrees(t: Tables, b: Binding) {
    && (IdOf(b) in t.provenance ==> t.provenance[IdOf(b)] == b)
    && forall k :: k in t.provenance && t.provenance[k].directive == b.directive ==> t.provenance[k] == b
  }

  /** Another task has the id or the directive: the insertion fails on a unique column. */
  predicate Taken(t: Tables, b: Binding) {
    IdOf(b) in t.tasks || exists k :: k in t.tasks && t.tasks[k].directive == b.directive
  }

  function Append(t: Tables, source: string, item: Item, b: Binding): Tables {
    t.(source := Some(source), records := t.records + [Stored(item.line, b.directive)])
  }

  /** One transaction: the record becomes durable, or it stops the ingestion. */
  function IngestOne(auth: Authority, source: string, t: Tables, item: Item): Option<Tables> {
    var v := Admitted(auth, item.record);
    if v.None? then None
    else
      var b := v.value.binding;
      if !Agrees(t, b) then None
      else if Bound(t, b) then Some(Append(t, source, item, b))
      else if Taken(t, b) then None
      else Some(Append(t, source, item, b).(
                  provenance := t.provenance[IdOf(b) := b],
                  tasks := t.tasks[IdOf(b) := RowOf(v.value)]))
  }

  /** Records in order, up to the first that stops the ingestion. */
  function IngestAll(auth: Authority, source: string, t: Tables, items: seq<Item>): (Tables, bool)
    decreases |items|
  {
    if items == [] then (t, true)
    else
      var next := IngestOne(auth, source, t, items[0]);
      if next.None? then (t, false) else IngestAll(auth, source, next.value, items[1..])
  }

  // ---------------------------------------------------------------- the file

  datatype Reason =
    | QueueUnavailable | QueueOversized | TooManyRecords | RecordOversized | MalformedQueue | InvalidRecordShape
    | QueueSourceRebound | QueueTruncated | QueueRewriteOrReorder | ProvenanceConflict

  datatype Reading = Items(items: seq<Item>) | Unreadable(reason: Reason)

  predicate White(c: Byte) { c == 32 || 9 <= c <= 13 }

  predicate Blank(line: Bytes) { forall i :: 0 <= i < |line| ==> White(line[i]) }

  /** Without its terminator; a line holds no other CR or LF. */
  function Content(line: Bytes): Bytes {
    if line != [] && (line[|line| - 1] == LF || line[|line| - 1] == CR) then Content(line[..|line| - 1]) else line
  }

  function ScanLine(auth: Authority, line: Bytes): Reading {
    if Blank(Content(line)) then Items([])
    else if |line| > MAX_RECORD_BYTES then Unreadable(RecordOversized)
    else match auth.parse(Content(line))
      case Good(r) => Items([Item(r, Digest(line))])
      case Malformed => Unreadable(MalformedQueue)
      case NotAnObject => Unreadable(InvalidRecordShape)
  }

  function Joined(a: Reading, b: Reading): Reading {
    if a.Unreadable? then a else if b.Unreadable? then b else Items(a.items + b.items)
  }

  function Scan(auth: Authority, lines: seq<Bytes>): Reading {
    if lines == [] then Items([]) else Joined(ScanLine(auth, lines[0]), Scan(auth, lines[1..]))
  }

  function ReadFile(auth: Authority, raw: Option<Bytes>): Reading {
    if raw.None? then Unreadable(QueueUnavailable)
    else if |raw.value| > MAX_QUEUE_BYTES then Unreadable(QueueOversized)
    else if |Lines(raw.value)| > MAX_RECORDS then Unreadable(TooManyRecords)
    else Scan(auth, Lines(raw.value))
  }

  predicate Matches(s: Stored, item: Item) { s.line == item.line && item.record.directive == Some(s.directive) }

  predicate History(records: seq<Stored>, items: seq<Item>) {
    |records| <= |items| && forall i :: 0 <= i < |records| ==> Matches(records[i], items[i])
  }

  /** `read_records`: the file must still begin with what was ingested before. */
  function ReadRecords(auth: Authority, source: string, t: Tables, raw: Option<Bytes>): Reading {
    var r := ReadFile(auth, raw);
    if r.Unreadable? then r
    else if t.source.Some? && t.source.value != source then Unreadable(QueueSourceRebound)
    else if |r.items| < |t.records| then Unreadable(QueueTruncated)
    else if !History(t.records, r.items) then Unreadable(QueueRewriteOrReorder)
    else r
  }

  /** `ingest`: tables, and whether it ends without an exception. */
  function Ingest(auth: Authority, source: string, t: Tables, raw: Option<Bytes>): (Tables, bool) {
    var r := ReadRecords(auth, source, t, raw);
    if r.Unreadable? then (t, false) else IngestAll(auth, source, t, r.items[|t.records|..])
  }

  // ---------------------------------------------------------------- ingesting in pieces

  lemma {:induction false} IngestAllAppend(auth: Authority, source: string, t: Tables, xs: seq<Item>, ys: seq<Item>)
    ensures var first := IngestAll(auth, source, t, xs);
      IngestAll(auth, source, t, xs + ys) == if first.1 then IngestAll(auth, source, first.0, ys) else first
    decreases |xs|
  {
    if xs == [] {
      assert xs + ys == ys;
    } else {
      assert (xs + ys)[1..] == xs[1..] + ys;
      var next := IngestOne(auth, source, t, xs[0]);
      if next.Some? { IngestAllAppend(auth, source, next.value, xs[1..], ys); }
    }
  }

  /** `k` records are ingested, and then comes the end or a record that stops. */
  ghost predicate ReachesTo(auth: Authority, source: string, t: Tables, items: seq<Item>, k: nat) {
    && k <= |items|
    && var (u, ok) := IngestAll(auth, source, t, items);
      && IngestAll(auth, source, t, items[..k]) == (u, true)
      && (ok <==> k == |items|) && (k < |items| ==> IngestOne(auth, source, u, items[k]).None?)
  }

  lemma ReachNext(auth: Authority, source: string, t: Tables, next: Tables, items: seq<Item>, j: nat)
    requires items != [] && IngestOne(auth, source, t, items[0]) == Some(next) && ReachesTo(auth, source, next, items[1..], j)
    ensures ReachesTo(auth, source, t, items, j + 1)
  {
    assert items[..j + 1][1..] == items[1..][..j] && items[..j + 1][0] == items[0];
    assert IngestAll(auth, source, t, items) == IngestAll(auth, source, next, items[1..]);
    assert IngestAll(auth, source, t, items[..j + 1]) == IngestAll(auth, source, next, items[1..][..j]);
  }

  /** How far an ingestion gets. */
  lemma {:induction false} Reach(auth: Authority, source: string, t: Tables, items: seq<Item>) returns (k: nat)
    ensures ReachesTo(auth, source, t, items, k)
    decreases |items|
  {
    k := 0;
    if items != [] {
      var first := IngestOne(auth, source, t, items[0]);
      if first.Some? {
        var j := Reach(auth, source, first.value, items[1..]);
        ReachNext(auth, source, t, first.value, items, j);
        k := j + 1;
      }
    }
  }

  lemma OneRecorded(auth: Authority, source: string, t: Tables, item: Item)
    requires IngestOne(auth, source, t, item).Some?
    ensures var u := IngestOne(auth, source, t, item).value;
      u.source == Some(source) && |u.records| == |t.records| + 1
      && u.records[..|t.records|] == t.records && Matches(u.records[|t.records|], item)
  {
  }

  lemma OneInHistory(auth: Authority, source: string, t: Tables, all: seq<Item>, next: Tables)
    requires History(t.records, all) && |t.records| < |all| && IngestOne(auth, source, t, all[|t.records|]) == Some(next)
    ensures History(next.records, all) && |next.records| == |t.records| + 1 && next.source == Some(source)
  {
    OneRecorded(auth, source, t, all[|t.records|]);
    assert forall i :: 0 <= i < |t.records| ==> next.records[i] == next.records[..|t.records|][i];
  }

  /** What was ingested is recorded, after what was recorded before. */
  lemma {:induction false} AllRecorded(auth: Authority, source: string, t: Tables, all: seq<Item>, k: nat)
    requires History(t.records, all) && |t.records| + k <= |all|
    requires IngestAll(auth, source, t, all[|t.records|..|t.records| + k]).1
    ensures var u := IngestAll(auth, source, t, all[|t.records|..|t.records| + k]).0;
      History(u.records, all) && |u.records| == |t.records| + k && (u.source == t.source || u.source == Some(source))
    decreases k
  {
    hide IngestOne;
    var n := |t.records|;
    if k > 0 {
      var items := all[n..n + k];
      var next := IngestOne(auth, source, t, items[0]).value;
      OneInHistory(auth, source, t, all, next);
      assert items[1..] == all[n + 1..n + 1 + (k - 1)];
      AllRecorded(auth, source, next, all, k - 1);
    }
  }

  lemma {:induction false} ScanAppend(auth: Authority, xs: seq<Bytes>, ys: seq<Bytes>)
    ensures Scan(auth, xs + ys) == Joined(Scan(auth, xs), Scan(auth, ys))
  {
    if xs == [] {
      assert xs + ys == ys;
      if Scan(auth, ys).Items? { assert [] + Scan(auth, ys).items == Scan(auth, ys).items; }
    } else {
      assert (xs + ys)[1..] == xs[1..] + ys;
      ScanAppend(auth, xs[1..], ys);
      JoinedAssociates(ScanLine(auth, xs[0]), Scan(auth, xs[1..]), Scan(auth, ys));
    }
  }

  lemma JoinedAssociates(a: Reading, b: Reading, c: Reading)
    ensures Joined(a, Joined(b, c)) == Joined(Joined(a, b), c)
  {
    if a.Items? && b.Items? && c.Items? { assert a.items + (b.items + c.items) == (a.items + b.items) + c.items; }
  }

  /** A readable file cut after a line is readable up to the cut. */
  lemma ReadAppended(auth: Authority, a: Bytes, b: Bytes) returns (rest: seq<Item>)
    requires Cut(a, b) && ReadFile(auth, Some(a + b)).Items?
    ensures ReadFile(auth, Some(a)).Items?
    ensures ReadFile(auth, Some(a + b)).items == ReadFile(auth, Some(a)).items + rest
  {
    AppendedLines(a, b);
    ScanAppend(auth, Lines(a), Lines(b));
    rest := Scan(auth, Lines(b)).items;
  }

  /** Stopping after `k` records and going on from there is one ingestion. */
  lemma Resumes(auth: Authority, source: string, t: Tables, items: seq<Item>, k: nat)
    requires k <= |items| && IngestAll(auth, source, t, items[..k]).1
    ensures IngestAll(auth, source, IngestAll(auth, source, t, items[..k]).0, items[k..]) == IngestAll(auth, source, t, items)
  {
    assert items == items[..k] + items[k..];
    IngestAllAppend(auth, source, t, items[..k], items[k..]);
  }

  lemma StillReadable(auth: Authority, source: string, t: Tables, raw: Bytes, all: seq<Item>)
    requires ReadFile(auth, Some(raw)) == Items(all) && History(t.records, all) && (t.source.None? || t.source == Some(source))
    ensures Ingest(auth, source, t, Some(raw)) == IngestAll(auth, source, t, all[|t.records|..])
  {
  }

  /** The same for the records of a shorter and a longer file. */
  lemma ResumesLonger(auth: Authority, source: string, t: Tables, part: seq<Item>, rest: seq<Item>)
    requires History(t.records, part)
    ensures var all, u := part + rest, IngestAll(auth, source, t, part[|t.records|..]).0;
      && History(u.records, all) && (u.source == t.source || u.source == Some(source))
      && IngestAll(auth, source, u, all[|u.records|..]) == IngestAll(auth, source, t, all[|t.records|..])
  {
    var all, n := part + rest, |t.records|;
    var k := Reach(auth, source, t, part[n..]);
    assert part[n..][..k] == all[n..n + k] == all[n..][..k];
    AllRecorded(auth, source, t, all, k);
    Resumes(auth, source, t, all[n..], k);
    assert all[n..][k..] == all[n + k..];
  }

  /** Whatever was ingested so far, ingesting the file up to a cut and then the whole file leaves the
      same tables, and the same outcome, as ingesting the whole file at once. */
  lemma IngestInPieces(auth: Authority, source: string, t: Tables, a: Bytes, b: Bytes)
    requires Cut(a, b) && ReadFile(auth, Some(a + b)).Items?
    ensures Ingest(auth, source, Ingest(auth, source, t, Some(a)).0, Some(a + b)) == Ingest(auth, source, t, Some(a + b))
  {
    var rest := ReadAppended(auth, a, b);
    var part := ReadFile(auth, Some(a)).items;
    if ReadRecords(auth, source, t, Some(a)).Items? {
      ResumesLonger(auth, source, t, part, rest);
      StillReadable(auth, source, t, a + b, part + rest);
      StillReadable(auth, source, Ingest(auth, source, t, Some(a)).0, a + b, part + rest);
    }
  }

  /** Ingesting the same file again changes nothing. */
  lemma IngestAgain(auth: Authority, source: string, t: Tables, raw: Option<Bytes>)
    ensures Ingest(auth, source, Ingest(auth, source, t, raw).0, raw) == Ingest(auth, source, t, raw)
  {
    if ReadFile(auth, raw).Items? {
      assert raw.value + [] == raw.value;
      IngestInPieces(auth, source, t, raw.value, []);
    }
  }

  // ---------------------------------------------------------------- the longest admissible prefix

  /** The record passes and is bound to `b`. */
  predicate BoundTo(auth: Authority, x: Item, b: Binding) {
    var v := Admitted(auth, x.record);
    v.Some? && v.value.binding == b
  }

  /** Every record passes, and records of one directive are bound alike. */
  ghost predicate Admissible(auth: Authority, items: seq<Item>) {
    && (forall i :: 0 <= i < |items| ==> Admitted(auth, items[i].record).Some?)
    && (forall i, j :: 0 <= i < j < |items| && items[i].record.directive == items[j].record.directive ==>
          Admitted(auth, items[i].record).value.binding == Admitted(auth, items[j].record).value.binding)
  }

  /** The distinct bindings of the records that pass. */
  function Bindings(auth: Authority, items: seq<Item>): set<Binding> {
    set i | 0 <= i < |items| && Admitted(auth, items[i].record).Some? :: Admitted(auth, items[i].record).value.binding
  }

  lemma BindingsOneMore(auth: Authority, items: seq<Item>, x: Item, b: Binding)
    requires BoundTo(auth, x, b)
    ensures Bindings(auth, items + [x]) == Bindings(auth, items) + {b}
  {
    var all := items + [x];
    assert all[|items|] == x && all[..|items|] == items;
    forall c | c in Bindings(auth, items) ensures c in Bindings(auth, all) {
      var i := BindingAdmitted(auth, items, c);
      assert all[i] == items[i];
    }
    forall c | c in Bindings(auth, all) ensures c in Bindings(auth, items) + {b} {
      var i := BindingAdmitted(auth, all, c);
      if i < |items| { assert all[i] == items[i]; }
    }
  }

  /** The provenance rows are exactly these bindings, each under its task id. */
  ghost predicate Holds(provenance: map<TaskId, Binding>, bs: set<Binding>) {
    && (forall b :: b in bs ==> IdOf(b) in provenance && provenance[IdOf(b)] == b)
    && (forall k :: k in provenance ==> provenance[k] in bs && k == IdOf(provenance[k]))
  }

  /** Record `i` is the first bound to task `k`. */
  ghost predicate FirstFor(auth: Authority, items: seq<Item>, i: nat, k: TaskId) {
    && i < |items| && Admitted(auth, items[i].record).Some? && IdOf(Admitted(auth, items[i].record).value.binding) == k
    && forall j :: 0 <= j < i && Admitted(auth, items[j].record).Some? ==> IdOf(Admitted(auth, items[j].record).value.binding) != k
  }

  /** The task is the one its first record asked for. */
  ghost predicate TaskOf(auth: Authority, items: seq<Item>, k: TaskId, row: TaskRow) {
    exists i: nat :: FirstFor(auth, items, i, k) && AsksFor(row, Admitted(auth, items[i].record).value)
  }

  /** The tables hold exactly these records, their bindings, and one task for each binding, which waits
      for a human as the first record bound to it says. */
  ghost predicate Represents(auth: Authority, t: Tables, items: seq<Item>) {
    && |t.records| == |items| && (forall i :: 0 <= i < |items| ==> Matches(t.records[i], items[i]))
    && Holds(t.provenance, Bindings(auth, items))
    && t.tasks.Keys == t.provenance.Keys && (forall k :: k in t.tasks ==> TaskOf(auth, items, k, t.tasks[k]))
  }

  lemma BindingAdmitted(auth: Authority, items: seq<Item>, b: Binding) returns (i: nat)
    requires b in Bindings(auth, items)
    ensures i < |items| && BoundTo(auth, items[i], b)
  {
    i :| 0 <= i < |items| && BoundTo(auth, items[i], b);
  }

  /** An earlier record of the directive is bound as the rows say. */
  lemma AgreesEarlier(auth: Authority, t: Tables, items: seq<Item>, x: Item, b: Binding, i: nat)
    requires Holds(t.provenance, Bindings(auth, items)) && Agrees(t, b) && BoundTo(auth, x, b) && i < |items|
    requires Admitted(auth, items[i].record).Some? && items[i].record.directive == x.record.directive
    ensures BoundTo(auth, items[i], b)
  {
    var c := Admitted(auth, items[i].record).value.binding;
    assert c in Bindings(auth, items);
    assert t.provenance[IdOf(c)].directive == b.directive;
  }

  lemma AgreesAdmissible(auth: Authority, t: Tables, items: seq<Item>, x: Item, b: Binding)
    requires Admissible(auth, items) && Holds(t.provenance, Bindings(auth, items)) && BoundTo(auth, x, b) && Agrees(t, b)
    ensures Admissible(auth, items + [x])
  {
    hide Holds, Agrees, Bindings, Admitted;
    var all := items + [x];
    forall i | 0 <= i < |all| ensures Admitted(auth, all[i].record).Some? {}
    forall i, j | 0 <= i < j < |all| && all[i].record.directive == all[j].record.directive
      ensures Admitted(auth, all[i].record).value.binding == Admitted(auth, all[j].record).value.binding
    {
      if j == |items| { AgreesEarlier(auth, t, items, x, b, i); }
    }
  }

  /** A row that disagrees comes from an earlier record of the same directive, bound otherwise. */
  lemma DisagreesEarlier(auth: Authority, t: Tables, items: seq<Item>, x: Item, b: Binding) returns (i: nat)
    requires Holds(t.provenance, Bindings(auth, items)) && BoundTo(auth, x, b) && !Agrees(t, b)
    ensures i < |items| && Admitted(auth, items[i].record).Some? && items[i].record.directive == x.record.directive
    ensures !BoundTo(auth, items[i], b)
  {
    var k :| k in t.provenance && t.provenance[k] != b && (k == IdOf(b) || t.provenance[k].directive == b.directive);
    var c := t.provenance[k];
    i := BindingAdmitted(auth, items, c);
    if k == IdOf(b) { TaskIdInjective(c.directive, c.key, b.directive, b.key); }
  }

  lemma DisagreesInadmissible(auth: Authority, t: Tables, items: seq<Item>, x: Item, b: Binding)
    requires Holds(t.provenance, Bindings(auth, items)) && BoundTo(auth, x, b) && !Agrees(t, b)
    ensures !Admissible(auth, items + [x])
  {
    hide Holds, Agrees, Bindings, Admitted;
    var all := items + [x];
    var i := DisagreesEarlier(auth, t, items, x, b);
    assert all[i] == items[i] && all[|items|] == x;
  }

  /** When every task has its provenance row, only a disagreeing row stops a record that passes. */
  lemma AcceptsExactly(auth: Authority, source: string, t: Tables, x: Item)
    requires forall k :: k in t.tasks ==> k in t.provenance && t.tasks[k].directive == t.provenance[k].directive
    ensures IngestOne(auth, source, t, x).Some? <==>
      Admitted(auth, x.record).Some? && Agrees(t, Admitted(auth, x.record).value.binding)
  {
  }

  lemma TasksNamed(auth: Authority, t: Tables, items: seq<Item>, k: TaskId)
    requires Represents(auth, t, items) && k in t.tasks
    ensures k in t.provenance && t.tasks[k].directive == t.provenance[k].directive
  {
    var i: nat :| FirstFor(auth, items, i, k) && AsksFor(t.tasks[k], Admitted(auth, items[i].record).value);
    var b := Admitted(auth, items[i].record).value.binding;
    assert b in Bindings(auth, items);
  }

  lemma LastAdmitted(auth: Authority, items: seq<Item>, x: Item)
    requires Admissible(auth, items + [x])
    ensures Admitted(auth, x.record).Some?
  {
    assert (items + [x])[|items|] == x;
  }

  /** The tables accept one more record exactly when the longer list is admissible. */
  lemma AdmitsExactly(auth: Authority, source: string, t: Tables, items: seq<Item>, x: Item)
    requires Admissible(auth, items) && Represents(auth, t, items)
    ensures IngestOne(auth, source, t, x).Some? <==> Admissible(auth, items + [x])
  {
    hide Admissible, Holds, Agrees, Bindings, TaskOf, Admitted, IngestOne;
    forall k | k in t.tasks ensures k in t.provenance && t.tasks[k].directive == t.provenance[k].directive { TasksNamed(auth, t, items, k); }
    AcceptsExactly(auth, source, t, x);
    if Admissible(auth, items + [x]) { LastAdmitted(auth, items, x); }
    if Admitted(auth, x.record).Some? {
      var b := Admitted(auth, x.record).value.binding;
      if Agrees(t, b) { AgreesAdmissible(auth, t, items, x, b); } else { DisagreesInadmissible(auth, t, items, x, b); }
    }
  }

  lemma BoundHeld(t: Tables, bs: set<Binding>, b: Binding)
    requires Holds(t.provenance, bs) && Bound(t, b) && Agrees(t, b)
    ensures bs + {b} == bs
  {
    var k :| k in t.provenance && (k == IdOf(b) || t.provenance[k].directive == b.directive);
    assert t.provenance[k] == b;
  }

  lemma TaskStays(auth: Authority, items: seq<Item>, x: Item, k: TaskId, row: TaskRow)
    requires TaskOf(auth, items, k, row)
    ensures TaskOf(auth, items + [x], k, row)
  {
    var all := items + [x];
    var i: nat :| FirstFor(auth, items, i, k) && AsksFor(row, Admitted(auth, items[i].record).value);
    assert all[..|items|] == items && all[i] == items[i];
    forall j | 0 <= j < i && Admitted(auth, all[j].record).Some? ensures IdOf(Admitted(auth, all[j].record).value.binding) != k {
      assert all[j] == items[j];
    }
    assert FirstFor(auth, all, i, k);
  }

  lemma TaskCreated(auth: Authority, provenance: map<TaskId, Binding>, items: seq<Item>, x: Item, v: Verified)
    requires Admitted(auth, x.record) == Some(v) && Holds(provenance, Bindings(auth, items)) && IdOf(v.binding) !in provenance
    ensures TaskOf(auth, items + [x], IdOf(v.binding), RowOf(v))
  {
    var all, k := items + [x], IdOf(v.binding);
    assert all[|items|] == x;
    forall j | 0 <= j < |items| && Admitted(auth, all[j].record).Some? ensures IdOf(Admitted(auth, all[j].record).value.binding) != k {
      assert all[j] == items[j];
      assert Admitted(auth, items[j].record).value.binding in Bindings(auth, items);
    }
    assert FirstFor(auth, all, |items|, k);
  }

  lemma OneMoreRepresented(auth: Authority, source: string, t: Tables, items: seq<Item>, x: Item)
    requires Represents(auth, t, items) && IngestOne(auth, source, t, x).Some?
    ensures Represents(auth, IngestOne(auth, source, t, x).value, items + [x])
  {
    hide TaskOf, Bindings, Agrees, Taken;
    var v, u := Admitted(auth, x.record).value, IngestOne(auth, source, t, x).value;
    BindingsOneMore(auth, items, x, v.binding);
    if Bound(t, v.binding) { BoundHeld(t, Bindings(auth, items), v.binding); }
    else { TaskCreated(auth, t.provenance, items, x, v); }
    forall k | k in u.tasks ensures TaskOf(auth, items + [x], k, u.tasks[k]) {
      if k in t.tasks { TaskStays(auth, items, x, k, t.tasks[k]); }
    }
  }

  lemma InadmissibleStays(auth: Authority, items: seq<Item>, k: nat, j: nat)
    requires k <= j <= |items| && !Admissible(auth, items[..k])
    ensures !Admissible(auth, items[..j])
  {
    var p, q := items[..k], items[..j];
    if i :| 0 <= i < |p| && Admitted(auth, p[i].record).None? {
      assert q[i] == p[i];
    } else {
      var i, l :| 0 <= i < l < |p| && p[i].record.directive == p[l].record.directive
                  && Admitted(auth, p[i].record).value.binding != Admitted(auth, p[l].record).value.binding;
      assert q[i] == p[i] && q[l] == p[l];
    }
  }

  lemma PrefixStep(auth: Authority, source: string, items: seq<Item>, x: Item, t: Tables)
    requires IngestAll(auth, source, EMPTY_TABLES, items) == (t, true) && Admissible(auth, items) && Represents(auth, t, items)
    ensures var (u, ok) := IngestAll(auth, source, EMPTY_TABLES, items + [x]);
      (ok <==> Admissible(auth, items + [x])) && (ok ==> Represents(auth, u, items + [x]))
  {
    assert [x][1..] == [];
    IngestAllAppend(auth, source, EMPTY_TABLES, items, [x]);
    AdmitsExactly(auth, source, t, items, x);
    if IngestOne(auth, source, t, x).Some? { OneMoreRepresented(auth, source, t, items, x); }
  }

  lemma {:induction false} PrefixRepresented(auth: Authority, source: string, items: seq<Item>, k: nat)
    requires k <= |items|
    ensures var (u, ok) := IngestAll(auth, source, EMPTY_TABLES, items[..k]);
      (ok <==> Admissible(auth, items[..k])) && (ok ==> Represents(auth, u, items[..k]))
  {
    if k > 0 {
      PrefixRepresented(auth, source, items, k - 1);
      var before := items[..k - 1];
      assert items[..k] == before + [items[k - 1]];
      var (t, ok) := IngestAll(auth, source, EMPTY_TABLES, before);
      if ok {
        PrefixStep(auth, source, before, items[k - 1], t);
      } else {
        IngestAllAppend(auth, source, EMPTY_TABLES, before, [items[k - 1]]);
        InadmissibleStays(auth, items, k - 1, k);
      }
    }
  }

  /** The record that stops an ingestion makes every longer prefix inadmissible. */
  lemma NothingLonger(auth: Authority, source: string, items: seq<Item>, k: nat, j: nat)
    requires k < j <= |items| && IngestAll(auth, source, EMPTY_TABLES, items[..k]).1
    requires IngestOne(auth, source, IngestAll(auth, source, EMPTY_TABLES, items[..k]).0, items[k]).None?
    ensures !Admissible(auth, items[..j])
  {
    PrefixRepresented(auth, source, items, k + 1);
    assert items[..k + 1] == items[..k] + [items[k]];
    IngestAllAppend(auth, source, EMPTY_TABLES, items[..k], [items[k]]);
    InadmissibleStays(auth, items, k + 1, j);
  }

  // ---------------------------------------------------------------- the same, in columns

  /** The record is verified as `v`, and names the directive it is verified for. */
  predicate Passes(auth: Authority, r: Record, v: Verified) {
    auth.verify(r) == Some(v) && r.directive == Some(v.binding.directive) && IsIdentifier(v.binding.directive)
  }

  lemma AdmittedExactly(auth: Authority, r: Record, v: Verified)
    ensures Admitted(auth, r) == Some(v) <==> Passes(auth, r, v)
  {
  }

  /** Some record asks for this task. */
  ghost predicate AskedIn(auth: Authority, items: seq<Item>, k: TaskId, row: TaskRow) {
    exists i, v :: 0 <= i < |items| && Passes(auth, items[i].record, v) && k == Named(v.binding) && AsksFor(row, v)
  }

  ghost predicate Accepted(auth: Authority, x: Item) { exists v :: Passes(auth, x.record, v) }

  /** Every record passes, and records of one directive are verified for one binding. */
  ghost predicate Coherent(auth: Authority, items: seq<Item>) {
    && (forall i :: 0 <= i < |items| ==> Accepted(auth, items[i]))
    && (forall i, j, v, w ::
          (0 <= i < |items| && 0 <= j < |items| && Passes(auth, items[i].record, v) && Passes(auth, items[j].record, w)
           && v.binding.directive == w.binding.directive)
          ==> v.binding == w.binding)
  }

  lemma AcceptedAdmitted(auth: Authority, x: Item)
    ensures Accepted(auth, x) <==> Admitted(auth, x.record).Some?
  {
    if Admitted(auth, x.record).Some? { assert Passes(auth, x.record, Admitted(auth, x.record).value); }
  }

  lemma CoherentExactly(auth: Authority, items: seq<Item>)
    ensures Admissible(auth, items) <==> Coherent(auth, items)
  {
    hide Admitted, Passes, Accepted;
    forall i | 0 <= i < |items| ensures Accepted(auth, items[i]) <==> Admitted(auth, items[i].record).Some? { AcceptedAdmitted(auth, items[i]); }
    forall i, v | 0 <= i < |items| ensures Passes(auth, items[i].record, v) <==> Admitted(auth, items[i].record) == Some(v) {
      AdmittedExactly(auth, items[i].record, v);
    }
    if Admissible(auth, items) { AdmissibleCoherent(auth, items); } else { InadmissibleIncoherent(auth, items); }
  }

  lemma AdmissibleCoherent(auth: Authority, items: seq<Item>)
    requires Admissible(auth, items)
    ensures Coherent(auth, items)
  {
    forall i | 0 <= i < |items| ensures Accepted(auth, items[i]) { AcceptedAdmitted(auth, items[i]); }
    forall i, j, v, w | 0 <= i < |items| && 0 <= j < |items| && Passes(auth, items[i].record, v) && Passes(auth, items[j].record, w)
                        && v.binding.directive == w.binding.directive
      ensures v.binding == w.binding
    {
      AdmittedExactly(auth, items[i].record, v);
      AdmittedExactly(auth, items[j].record, w);
      if j < i { assert items[j].record.directive == items[i].record.directive; }
    }
  }

  lemma InadmissibleIncoherent(auth: Authority, items: seq<Item>)
    requires !Admissible(auth, items)
    ensures !Coherent(auth, items)
  {
    forall i | 0 <= i < |items| ensures Accepted(auth, items[i]) <==> Admitted(auth, items[i].record).Some? { AcceptedAdmitted(auth, items[i]); }
    if Coherent(auth, items) {
      forall i, j | 0 <= i < j < |items| && items[i].record.directive == items[j].record.directive
        ensures Admitted(auth, items[i].record).value.binding == Admitted(auth, items[j].record).value.binding
      {
        var v, w := Admitted(auth, items[i].record).value, Admitted(auth, items[j].record).value;
        AdmittedExactly(auth, items[i].record, v);
        AdmittedExactly(auth, items[j].record, w);
      }
      assert false;
    }
  }

  /** The task id of a directive and key. */
  function Named(b: Binding): TaskId { TaskId("AF04_TASK_V1\n" + b.directive + "\n" + b.key + "\n") }

  /** No earlier record is of this directive. */
  ghost predicate IsFirst(items: seq<Item>, i: nat) {
    i < |items| && forall j :: 0 <= j < i ==> items[j].record.directive != items[i].record.directive
  }

  /** What the tables say of record `i`, verified as `v`: its line and directive, its binding as a provenance row
      under its task id, and a task; and if it is the first of its directive, the task is the one it asks for. */
  ghost predicate Entered(t: Tables, items: seq<Item>, i: nat, v: Verified)
    requires i < |items| == |t.records|
  {
    && t.records[i] == Stored(items[i].line, v.binding.directive)
    && Named(v.binding) in t.provenance && t.provenance[Named(v.binding)] == v.binding && Named(v.binding) in t.tasks
    && (IsFirst(items, i) ==> AsksFor(t.tasks[Named(v.binding)], v))
  }

  /** The tables hold these records, their provenance and their tasks, and nothing else. */
  ghost predicate Persisted(auth: Authority, t: Tables, items: seq<Item>) {
    && |t.records| == |items|
    && (forall i, v :: 0 <= i < |items| && Passes(auth, items[i].record, v) ==> Entered(t, items, i, v))
    && t.tasks.Keys == t.provenance.Keys
    && (forall k :: k in t.provenance ==> exists i, v :: 0 <= i < |items| && Passes(auth, items[i].record, v) && Named(v.binding) == k)
  }

  lemma FirstIsFirst(auth: Authority, items: seq<Item>, i: nat, j: nat, v: Verified, k: TaskId)
    requires Admissible(auth, items) && i < |items| && Passes(auth, items[i].record, v) && IsFirst(items, i) && k == IdOf(v.binding)
    requires FirstFor(auth, items, j, k)
    ensures j == i
  {
    AdmittedExactly(auth, items[i].record, v);
    var w := Admitted(auth, items[j].record).value;
    AdmittedExactly(auth, items[j].record, w);
    TaskIdInjective(w.binding.directive, w.binding.key, v.binding.directive, v.binding.key);
  }

  lemma EachEntered(auth: Authority, t: Tables, items: seq<Item>, i: nat, v: Verified)
    requires Admissible(auth, items) && Represents(auth, t, items) && i < |items| && Passes(auth, items[i].record, v)
    ensures Entered(t, items, i, v)
  {
    hide AsksFor;
    AdmittedExactly(auth, items[i].record, v);
    assert Matches(t.records[i], items[i]);
    assert v.binding in Bindings(auth, items);
    assert Named(v.binding) == IdOf(v.binding);
    if IsFirst(items, i) {
      var j: nat :| FirstFor(auth, items, j, IdOf(v.binding)) && AsksFor(t.tasks[IdOf(v.binding)], Admitted(auth, items[j].record).value);
      FirstIsFirst(auth, items, i, j, v, IdOf(v.binding));
    }
  }

  lemma RepresentsPersists(auth: Authority, t: Tables, items: seq<Item>)
    requires Admissible(auth, items) && Represents(auth, t, items)
    ensures Persisted(auth, t, items)
  {
    hide Admissible, Passes, Entered, Admitted, AsksFor, FirstFor, IdOf;
    forall i, v | 0 <= i < |items| && Passes(auth, items[i].record, v) ensures Entered(t, items, i, v) { EachEntered(auth, t, items, i, v); }
    forall k | k in t.provenance ensures exists i, v :: 0 <= i < |items| && Passes(auth, items[i].record, v) && Named(v.binding) == k {
      var i := BindingAdmitted(auth, items, t.provenance[k]);
      var v := Admitted(auth, items[i].record).value;
      AdmittedExactly(auth, items[i].record, v);
      NamedIsId(v.binding);
    }
  }

  lemma NamedIsId(b: Binding)
    ensures Named(b) == IdOf(b)
  {
  }

  /** Ingestion from empty tables persists exactly the longest prefix of the queue whose records pass and of
      which those of one directive are verified for one binding: their lines in order, the provenance of each
      directive, and for each directive the task its first record asks for, column by column. */
  lemma LongestPrefix(auth: Authority, source: string, raw: Bytes) returns (k: nat)
    requires ReadFile(auth, Some(raw)).Items?
    ensures var items := ReadFile(auth, Some(raw)).items;
      var (t, ok) := Ingest(auth, source, EMPTY_TABLES, Some(raw));
      && k <= |items| && Coherent(auth, items[..k]) && Persisted(auth, t, items[..k])
      && (forall j :: k < j <= |items| ==> !Coherent(auth, items[..j]))
      && (ok <==> k == |items|)
  {
    hide Admissible, Coherent, Represents, Persisted;
    var items := ReadFile(auth, Some(raw)).items;
    assert items[0..] == items;
    k := Reach(auth, source, EMPTY_TABLES, items);
    var t := Ingest(auth, source, EMPTY_TABLES, Some(raw)).0;
    assert Ingest(auth, source, EMPTY_TABLES, Some(raw)) == IngestAll(auth, source, EMPTY_TABLES, items);
    PrefixRepresented(auth, source, items, k);
    CoherentExactly(auth, items[..k]);
    RepresentsPersists(auth, t, items[..k]);
    forall j | k < j <= |items| ensures !Coherent(auth, items[..j]) {
      NothingLonger(auth, source, items, k, j);
      CoherentExactly(auth, items[..j]);
    }
  }

  // ---------------------------------------------------------------- any file, any tables

  /** The line is blank, or short enough and decodes to an object. */
  predicate Readable(auth: Authority, line: Bytes) {
    || (forall i :: 0 <= i < |Content(line)| ==> Content(line)[i] == 32 || 9 <= Content(line)[i] <= 13)
    || (|line| <= 131_072 && auth.parse(Content(line)).Good?)
  }

  predicate LineEnd(c: Byte) { c == 10 || c == 13 }

  /** The content of a line is the line without the LF and CR at its end. */
  lemma {:induction false} ContentExactly(line: Bytes)
    ensures |Content(line)| <= |line| && Content(line) == line[..|Content(line)|]
    ensures forall i :: |Content(line)| <= i < |line| ==> LineEnd(line[i])
    ensures Content(line) != [] ==> !LineEnd(Content(line)[|Content(line)| - 1])
    decreases |line|
  {
    if line != [] && LineEnd(line[|line| - 1]) {
      ContentExactly(line[..|line| - 1]);
      var n := |Content(line)|;
      assert line[..|line| - 1][..n] == line[..n];
      forall i | n <= i < |line| ensures LineEnd(line[i]) { if i < |line| - 1 { assert line[..|line| - 1][i] == line[i]; } }
    }
  }

  lemma {:induction false} ScanReads(auth: Authority, lines: seq<Bytes>)
    ensures Scan(auth, lines).Items? <==> forall i :: 0 <= i < |lines| ==> Readable(auth, lines[i])
  {
    if lines != [] {
      ScanReads(auth, lines[1..]);
      if Scan(auth, lines).Items? {
        forall i | 0 <= i < |lines| ensures Readable(auth, lines[i]) { if i > 0 { assert lines[1..][i - 1] == lines[i]; } }
      } else if ScanLine(auth, lines[0]).Items? {
        var i :| 0 <= i < |lines[1..]| && !Readable(auth, lines[1..][i]);
        assert lines[i + 1] == lines[1..][i];
      }
    }
  }

  /** A file is readable exactly when it is there, not too large, of not too many lines, and each of its lines is. */
  lemma ReadableExactly(auth: Authority, raw: Option<Bytes>)
    ensures ReadFile(auth, raw).Items? <==>
      && raw.Some? && |raw.value| <= 2_097_152 && |Lines(raw.value)| <= 4096
      && forall i :: 0 <= i < |Lines(raw.value)| ==> Readable(auth, Lines(raw.value)[i])
  {
    hide Readable;
    if raw.Some? { ScanReads(auth, Lines(raw.value)); }
  }

  /** The file still begins with the lines and directives recorded before. */
  predicate Continues(records: seq<Stored>, items: seq<Item>) {
    && |records| <= |items|
    && forall i :: 0 <= i < |records| ==> records[i].line == items[i].line && items[i].record.directive == Some(records[i].directive)
  }

  /** Nothing recorded before is lost or changed. */
  ghost predicate Grows(t: Tables, u: Tables) {
    && t.records <= u.records
    && (forall k :: k in t.provenance ==> k in u.provenance && u.provenance[k] == t.provenance[k])
    && (forall k :: k in t.tasks ==> k in u.tasks && u.tasks[k] == t.tasks[k])
  }

  lemma OneGrows(auth: Authority, source: string, t: Tables, item: Item)
    requires IngestOne(auth, source, t, item).Some?
    ensures Grows(t, IngestOne(auth, source, t, item).value)
  {
    hide Agrees;
  }

  lemma {:induction false} AllGrows(auth: Authority, source: string, t: Tables, items: seq<Item>)
    ensures Grows(t, IngestAll(auth, source, t, items).0)
    decreases |items|
  {
    hide IngestOne;
    if items != [] && IngestOne(auth, source, t, items[0]).Some? {
      OneGrows(auth, source, t, items[0]);
      AllGrows(auth, source, IngestOne(auth, source, t, items[0]).value, items[1..]);
    }
  }

  /** Whatever the tables: a file that cannot be read, was moved, cut short, rewritten or reordered changes
      nothing; otherwise the records only grow, in the order of the file, and to its end unless a record stops it. */
  lemma IngestedExactly(auth: Authority, source: string, t: Tables, raw: Option<Bytes>)
    ensures var (u, ok) := Ingest(auth, source, t, raw);
      if ReadFile(auth, raw).Items? && (t.source.None? || t.source.value == source) && Continues(t.records, ReadFile(auth, raw).items) then
        && Grows(t, u) && Continues(u.records, ReadFile(auth, raw).items)
        && (ok <==> |u.records| == |ReadFile(auth, raw).items|)
      else (u, ok) == (t, false)
  {
    hide ReadFile, IngestOne, IngestAll, Grows;
    var r := ReadFile(auth, raw);
    if r.Items? && (t.source.None? || t.source.value == source) && Continues(t.records, r.items) {
      var all, n := r.items, |t.records|;
      AllGrows(auth, source, t, all[n..]);
      var k := Reach(auth, source, t, all[n..]);
      assert all[n..][..k] == all[n..n + k];
      AllRecorded(auth, source, t, all, k);
    } else if r.Items? && |t.records| <= |r.items| {
      assert Continues(t.records, r.items) <==> History(t.records, r.items);
    }
  }

  // ---------------------------------------------------------------- directives and tasks

  /** Directive ids and task ids are in bijection, and each provenance row has its task. */
  ghost predicate Linked(t: Tables) {
    && (forall k :: k in t.provenance ==>
          && k == IdOf(t.provenance[k]) && IsIdentifier(t.provenance[k].directive)
          && k in t.tasks && AsksFor(t.tasks[k], Verified(t.provenance[k], t.tasks[k].human)))
    && (forall j, k :: j in t.provenance && k in t.provenance ==>
          (t.provenance[j].directive == t.provenance[k].directive <==> j == k))
  }

  lemma NewStaysLinked(t: Tables, v: Verified)
    requires Linked(t) && IsIdentifier(v.binding.directive) && !Bound(t, v.binding)
    ensures Linked(t.(provenance := t.provenance[IdOf(v.binding) := v.binding], tasks := t.tasks[IdOf(v.binding) := RowOf(v)]))
  {
    hide IsIdentifier, IdOf;
  }

  lemma OneStaysLinked(auth: Authority, source: string, t: Tables, item: Item)
    requires Linked(t) && IngestOne(auth, source, t, item).Some?
    ensures Linked(IngestOne(auth, source, t, item).value)
  {
    hide Agrees, Taken, Bound, IsIdentifier, IdOf;
    var v := Admitted(auth, item.record).value;
    if !Bound(t, v.binding) { NewStaysLinked(t, v); }
  }

  lemma {:induction false} AllStayLinked(auth: Authority, source: string, t: Tables, items: seq<Item>)
    requires Linked(t)
    ensures Linked(IngestAll(auth, source, t, items).0)
    decreases |items|
  {
    if items != [] && IngestOne(auth, source, t, items[0]).Some? {
      OneStaysLinked(auth, source, t, items[0]);
      AllStayLinked(auth, source, IngestOne(auth, source, t, items[0]).value, items[1..]);
    }
  }

  /** Whatever files are ingested one after the other. */
  function IngestFiles(auth: Authority, source: string, t: Tables, files: seq<Option<Bytes>>): Tables
    decreases |files|
  {
    if files == [] then t else IngestFiles(auth, source, Ingest(auth, source, t, files[0]).0, files[1..])
  }

  lemma {:induction false} AlwaysLinked(auth: Authority, source: string, t: Tables, files: seq<Option<Bytes>>)
    requires Linked(t)
    ensures Linked(IngestFiles(auth, source, t, files))
    decreases |files|
  {
    if files != [] {
      var r := ReadRecords(auth, source, t, files[0]);
      if r.Items? { AllStayLinked(auth, source, t, r.items[|t.records|..]); }
      AlwaysLinked(auth, source, Ingest(auth, source, t, files[0]).0, files[1..]);
    }
  }
}
