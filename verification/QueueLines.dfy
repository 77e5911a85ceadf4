/** The append-only queue file as lines: `bytes.splitlines(keepends=True)` and what appending to the
    file does to them. */
module QueueLines {
  import opened Basics

  const LF: Byte := 10
  const CR: Byte := 13

  /** Length of the first line with its terminator, which is LF, CR or CR LF. */
  function FirstLine(raw: Bytes): (n: nat)
    requires raw != []
    ensures 1 <= n <= |raw|
  {
    if raw[0] == LF || |raw| == 1 then 1
    else if raw[0] == CR then (if raw[1] == LF then 2 else 1)
    else 1 + FirstLine(raw[1..])
  }

  function Lines(raw: Bytes): seq<Bytes>
    decreases |raw|
  {
    if raw == [] then [] else [raw[..FirstLine(raw)]] + Lines(raw[FirstLine(raw)..])
  }

  function Concat(lines: seq<Bytes>): Bytes {
    if lines == [] then [] else lines[0] + Concat(lines[1..])
  }

  /** Splitting loses nothing. */
  lemma {:induction false} LinesConcat(raw: Bytes)
    ensures Concat(Lines(raw)) == raw
    decreases |raw|
  {
    if raw != [] {
      LinesConcat(raw[FirstLine(raw)..]);
      assert Lines(raw)[1..] == Lines(raw[FirstLine(raw)..]);
    }
  }

  /** Appending `b` to `a` leaves the lines of `a` alone. */
  predicate Cut(a: Bytes, b: Bytes) {
    a == [] || b == [] || a[|a| - 1] == LF || (a[|a| - 1] == CR && b[0] != LF)
  }

  /** The first line is the same after appending, unless it is all there is and not yet ended. */
  lemma {:induction false} FirstLineAppended(a: Bytes, b: Bytes)
    requires a != [] && b != []
    ensures if FirstLine(a) < |a| || Cut(a, b) then FirstLine(a + b) == FirstLine(a) else FirstLine(a + b) > FirstLine(a)
  {
    if a[0] != LF && a[0] != CR && |a| > 1 {
      FirstLineAppended(a[1..], b);
      assert (a + b)[1..] == a[1..] + b;
    }
  }

  /** Appending keeps the old lines and adds those of the new part exactly when the old file ended a
      line: with LF, or with CR that the new part does not complete. */
  lemma {:induction false} AppendedLines(a: Bytes, b: Bytes)
    ensures Lines(a + b) == Lines(a) + Lines(b) <==> Cut(a, b)
    decreases |a|
  {
    if a == [] {
      assert a + b == b;
    } else if b == [] {
      assert a + b == a;
    } else {
      FirstLineAppended(a, b);
      var n := FirstLine(a);
      if n < |a| || Cut(a, b) {
        AppendedLines(a[n..], b);
        assert (a + b)[..n] == a[..n] && (a + b)[n..] == a[n..] + b;
        assert Cut(a, b) <==> Cut(a[n..], b);
        TailEqual(a[..n], Lines(a[n..] + b), Lines(a[n..]), Lines(b));
      } else {
        assert |Lines(a + b)[0]| > |(Lines(a) + Lines(b))[0]|;
      }
    }
  }

  lemma TailEqual(x: Bytes, l: seq<Bytes>, m: seq<Bytes>, n: seq<Bytes>)
    ensures [x] + l == ([x] + m) + n <==> l == m + n
  {
    if [x] + l == ([x] + m) + n {
      assert ([x] + l)[1..] == l && (([x] + m) + n)[1..] == m + n;
    } else {
      assert ([x] + m) + n == [x] + (m + n);
    }
  }
}
