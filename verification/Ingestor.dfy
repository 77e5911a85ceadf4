/** `DirectiveTaskIngestor`: the reading and ingesting loops over the durable tables. */
module Ingestor {
  import opened Basics
  import opened QueueLines
  import Spec = Ingestion
  import opened Ordering

  class DirectiveTaskIngestor {
    const path: string
    const auth: Spec.Authority
    var source: Option<string>
    var records: seq<Spec.Stored>
    var provenance: map<Spec.TaskId, Spec.Binding>
    var tasks: map<Spec.TaskId, Spec.TaskRow>
    /** Why the source is durably blocked, if it is; reading does not consult it. */
    var blocked: Option<Spec.Reason>

    constructor (path: string, auth: Spec.Authority)
      ensures Tables() == Spec.EMPTY_TABLES && this.path == path && this.auth == auth && blocked == None
    {
      this.path, this.auth := path, auth;
      source, records, provenance, tasks, blocked := None, [], map[], map[], None;
    }

    function Tables(): Spec.Tables reads this { Spec.Tables(source, records, provenance, tasks) }

    method Block(reason: Spec.Reason) returns (r: Spec.Reading)
      modifies this`blocked
      ensures r == Spec.Unreadable(reason) && blocked == Some(reason)
    {
      blocked := Some(reason);
      r := Spec.Unreadable(reason);
    }

    /** Decode the lines one by one, skipping blank ones. */
    method Decode(lines: seq<Bytes>) returns (r: Spec.Reading)
      ensures r == Spec.Scan(auth, lines)
    {
      var items: seq<Spec.Item> := [];
      for i := 0 to |lines|
        invariant Spec.Scan(auth, lines[..i]) == Spec.Items(items)
      {
        var line := lines[i];
        assert lines == lines[..i] + [line] + lines[i + 1..];
        assert lines[..i + 1] == lines[..i] + [line];
        assert Spec.Scan(auth, [line]) == Spec.ScanLine(auth, line) by {
          assert [line][1..] == [];
          if Spec.ScanLine(auth, line).Items? { assert Spec.ScanLine(auth, line).items + [] == Spec.ScanLine(auth, line).items; }
        }
        Spec.ScanAppend(auth, lines[..i], [line]);
        Spec.ScanAppend(auth, lines[..i + 1], lines[i + 1..]);
        var one := Spec.ScanLine(auth, line);
        if one.Unreadable? { return one; }
        items := items + one.items;
      }
      assert lines[..|lines|] == lines;
      r := Spec.Items(items);
    }

    method ReadRecords(raw: Option<Bytes>) returns (r: Spec.Reading)
      modifies this`blocked
      ensures r == Spec.ReadRecords(auth, path, Tables(), raw)
      ensures blocked == if r.Unreadable? then Some(r.reason) else old(blocked)
    {
      if raw.None? { r := Block(Spec.QueueUnavailable); return; }
      if |raw.value| > Spec.MAX_QUEUE_BYTES { r := Block(Spec.QueueOversized); return; }
      var lines := Lines(raw.value);
      if |lines| > Spec.MAX_RECORDS { r := Block(Spec.TooManyRecords); return; }
      r := Decode(lines);
      if r.Unreadable? { r := Block(r.reason); return; }
      if source.Some? && source.value != path { r := Block(Spec.QueueSourceRebound); return; }
      if |r.items| < |records| { r := Block(Spec.QueueTruncated); return; }
      for i := 0 to |records|
        invariant forall j :: 0 <= j < i ==> Spec.Matches(records[j], r.items[j])
        invariant blocked == old(blocked)
      {
        if !Spec.Matches(records[i], r.items[i]) { r := Block(Spec.QueueRewriteOrReorder); return; }
      }
    }

    /** One record, in one transaction. */
    method IngestRecord(item: Spec.Item) returns (ok: bool, created: Option<Spec.TaskId>)
      modifies this
      ensures var next := Spec.IngestOne(auth, path, old(Tables()), item);
        ok == next.Some? && Tables() == if ok then next.value else old(Tables())
      ensures created.Some? <==> tasks != old(tasks)
      ensures created.Some? ==>
        && created.value !in old(tasks) && tasks.Keys == old(tasks).Keys + {created.value}
        && exists v :: Spec.Passes(auth, item.record, v) && created.value == Spec.Named(v.binding) && Spec.AsksFor(tasks[created.value], v)
      ensures Spec.Grows(old(Tables()), Tables())
    {
      ok, created := false, None;
      var v := Spec.Admitted(auth, item.record);
      if v.None? { return; }
      var b := v.value.binding;
      var id := Spec.IdOf(b);
      if !Spec.Agrees(Tables(), b) {
        blocked := Some(Spec.ProvenanceConflict);
        return;
      }
      if !Spec.Bound(Tables(), b) {
        if Spec.Taken(Tables(), b) { return; }
        provenance := provenance[id := b];
        tasks := tasks[id := Spec.RowOf(v.value)];
        created := Some(id);
        assert Spec.Passes(auth, item.record, v.value);
      }
      records := records + [Spec.Stored(item.line, b.directive)];
      source := Some(path);
      ok := true;
    }

    /** Records in order, up to the first that stops the ingestion; it answers the tasks created. */
    method IngestFrom(items: seq<Spec.Item>, n: nat) returns (ok: bool, created: seq<Spec.TaskId>)
      requires n <= |items|
      modifies this
      ensures (Tables(), ok) == Spec.IngestAll(auth, path, old(Tables()), items[n..])
      ensures Elements(created) == tasks.Keys - old(tasks.Keys) && old(tasks.Keys) <= tasks.Keys
      ensures forall id :: id in created ==> id in tasks && Spec.AskedIn(auth, items, id, tasks[id])
    {
      hide Spec.IngestOne, Spec.AsksFor, Spec.Passes;
      ok, created := false, [];
      for k := n to |items|
        invariant Spec.IngestAll(auth, path, Tables(), items[k..]) == Spec.IngestAll(auth, path, old(Tables()), items[n..])
        invariant Elements(created) == tasks.Keys - old(tasks.Keys) && old(tasks.Keys) <= tasks.Keys
        invariant forall id :: id in created ==> id in tasks && Spec.AskedIn(auth, items, id, tasks[id])
      {
        assert items[k..][1..] == items[k + 1..];
        var done, id := IngestRecord(items[k]);
        if id.Some? {
          assert Elements(created + [id.value]) == Elements(created) + {id.value};
          created := created + [id.value];
        }
        if !done { return; }
      }
      ok := true;
    }

    /** Ingest the records the tables do not hold yet. */
    method Ingest(raw: Option<Bytes>) returns (ok: bool, created: seq<Spec.TaskId>)
      modifies this
      ensures (Tables(), ok) == Spec.Ingest(auth, path, old(Tables()), raw)
      ensures Elements(created) == tasks.Keys - old(tasks.Keys) && old(tasks.Keys) <= tasks.Keys
      ensures forall id :: id in created ==>
        id in tasks && Spec.ReadFile(auth, raw).Items? && Spec.AskedIn(auth, Spec.ReadFile(auth, raw).items, id, tasks[id])
    {
      var r := ReadRecords(raw);
      if r.Unreadable? { return false, []; }
      ok, created := IngestFrom(r.items, |records|);
    }
  }
}
