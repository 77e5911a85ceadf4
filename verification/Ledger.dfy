/** `RedTeamAuditLedger`: a keyed hash chain over attack records. */
module Ledger {
  import opened Basics

  // ---------------------------------------------------------------- text with signatures

  /** Text in which a printed signature counts as one letter. */
  datatype Sym<+X> = Ch(c: char) | Mark(x: X)

  function Letters<X>(s: string): seq<Sym<X>> { seq(|s|, i requires 0 <= i < |s| => Ch(s[i])) }

  lemma LettersInjective<X>(a: string, b: string)
    requires Letters<X>(a) == Letters<X>(b)
    ensures a == b
  {
    assert |a| == |Letters<X>(a)| == |Letters<X>(b)| == |b|;
    forall i | 0 <= i < |a| ensures a[i] == b[i] {
      assert Letters<X>(a)[i] == Ch(a[i]) && Letters<X>(b)[i] == Ch(b[i]);
    }
  }

  // ---------------------------------------------------------------- the chain

  /** An HMAC, which remembers what was signed. */
  datatype Signature = Mac(message: seq<Sym<Signature>>)

  type Hash = seq<Sym<Signature>>

  /** A record is kept as its JSON text with sorted keys. */
  datatype Entry = Entry(index: nat, prev: Hash, hash: Hash, record: string)

  const GENESIS: Hash := Letters("GENESIS_ATTACK_LEDGER")

  function Sign(prev: Hash, record: string): Hash { [Mark(Mac(prev + [Ch(':')] + Letters(record)))] }

  /** The hash a next entry would follow. */
  function Tip(l: seq<Entry>): Hash { if l == [] then GENESIS else l[|l| - 1].hash }

  predicate Linked(l: seq<Entry>, i: nat)
    requires i < |l|
  {
    l[i].prev == Tip(l[..i]) && l[i].hash == Sign(Tip(l[..i]), l[i].record)
  }

  /** `verify_ledger_integrity`; it never looks at `index`. */
  predicate Verifies(l: seq<Entry>) { forall i :: 0 <= i < |l| ==> Linked(l, i) }

  function Appended(l: seq<Entry>, record: string): seq<Entry> {
    l + [Entry(|l|, Tip(l), Sign(Tip(l), record), record)]
  }

  /** The ledger after these records. */
  function Chain(records: seq<string>): seq<Entry> {
    if records == [] then [] else Appended(Chain(records[..|records| - 1]), records[|records| - 1])
  }

  function Records(l: seq<Entry>): seq<string> { seq(|l|, i requires 0 <= i < |l| => l[i].record) }

  // ---------------------------------------------------------------- signatures bind

  /** What can stand before the colon: the genesis text or one signature. */
  predicate IsLink(h: Hash) { h == GENESIS || (|h| == 1 && h[0].Mark?) }

  lemma LinkFree(h: Hash)
    requires IsLink(h)
    ensures Free(h, Ch(':'))
  {
    if h == GENESIS {
      assert forall i :: 0 <= i < |"GENESIS_ATTACK_LEDGER"| ==> "GENESIS_ATTACK_LEDGER"[i] != ':';
      assert forall i :: 0 <= i < |h| ==> h[i] == Ch("GENESIS_ATTACK_LEDGER"[i]);
    }
  }

  lemma SignInjective(a: Hash, r: string, b: Hash, q: string)
    requires IsLink(a) && IsLink(b) && Sign(a, r) == Sign(b, q)
    ensures a == b && r == q
  {
    assert Sign(a, r)[0].x.message == Sign(b, q)[0].x.message;
    LinkFree(a);
    LinkFree(b);
    SplitFirst(a, Letters(r), b, Letters(q), Ch(':'));
    LettersInjective<Signature>(r, q);
  }

  lemma GenesisIsNoSignature(prev: Hash, record: string)
    ensures Sign(prev, record) != GENESIS
  {
    assert |GENESIS| == |"GENESIS_ATTACK_LEDGER"|;
  }

  // ---------------------------------------------------------------- prefixes

  lemma PrefixVerifies(l: seq<Entry>, k: nat)
    requires Verifies(l) && k <= |l|
    ensures Verifies(l[..k])
  {
    forall i | 0 <= i < k ensures Linked(l[..k], i) {
      assert Linked(l, i) && l[..k][..i] == l[..i];
    }
  }

  lemma TipIsLink(l: seq<Entry>)
    requires Verifies(l)
    ensures IsLink(Tip(l))
  {
    if l != [] { assert Linked(l, |l| - 1); }
  }

  lemma AppendVerifies(l: seq<Entry>, record: string)
    requires Verifies(l)
    ensures Verifies(Appended(l, record))
  {
    var m := Appended(l, record);
    forall i | 0 <= i < |m| ensures Linked(m, i) {
      assert m[..i] == l[..i];
      if i == |l| { assert l[..i] == l; } else { assert Linked(l, i); }
    }
  }

  // ---------------------------------------------------------------- what the chain binds

  /** Any sequence of recordings verifies, and gives the records back. */
  lemma {:induction false} ChainVerifies(records: seq<string>)
    ensures Verifies(Chain(records)) && Records(Chain(records)) == records
    decreases |records|
  {
    if records != [] {
      var n := |records| - 1;
      ChainVerifies(records[..n]);
      AppendVerifies(Chain(records[..n]), records[n]);
      var l := Chain(records);
      assert |l| == n + 1 by { assert |Records(Chain(records[..n]))| == n; }
      forall i | 0 <= i < |records| ensures Records(l)[i] == records[i] {
        if i < n { assert l[i] == Chain(records[..n])[i]; assert Records(Chain(records[..n]))[i] == records[i]; }
      }
    }
  }

  /** The same entries, `index` aside. */
  predicate Same(a: seq<Entry>, b: seq<Entry>) {
    |a| == |b| && forall i :: 0 <= i < |a| ==> a[i] == b[i].(index := a[i].index)
  }

  /** The last entry is determined by the last hash. */
  lemma LastBinds(a: seq<Entry>, b: seq<Entry>)
    requires Verifies(a) && Verifies(b) && a != [] && b != [] && Tip(a) == Tip(b)
    ensures Tip(a[..|a| - 1]) == Tip(b[..|b| - 1]) && a[|a| - 1] == b[|b| - 1].(index := a[|a| - 1].index)
  {
    var m, n := |a| - 1, |b| - 1;
    assert Linked(a, m) && Linked(b, n);
    PrefixVerifies(a, m);
    PrefixVerifies(b, n);
    TipIsLink(a[..m]);
    TipIsLink(b[..n]);
    SignInjective(Tip(a[..m]), a[m].record, Tip(b[..n]), b[n].record);
  }

  lemma EmptyBinds(a: seq<Entry>)
    requires Verifies(a) && Tip(a) == GENESIS
    ensures a == []
  {
    if a != [] {
      assert Linked(a, |a| - 1);
      GenesisIsNoSignature(Tip(a[..|a| - 1]), a[|a| - 1].record);
    }
  }

  /** Two verifying ledgers with the same last hash have the same length and the same entries. */
  lemma {:induction false} TipBinds(a: seq<Entry>, b: seq<Entry>)
    requires Verifies(a) && Verifies(b) && Tip(a) == Tip(b)
    ensures Same(a, b)
    decreases |a|
  {
    if a == [] {
      EmptyBinds(b);
    } else if b == [] {
      EmptyBinds(a);
    } else {
      var m, n := |a| - 1, |b| - 1;
      LastBinds(a, b);
      PrefixVerifies(a, m);
      PrefixVerifies(b, n);
      TipBinds(a[..m], b[..n]);
      forall i | 0 <= i < |a| ensures a[i] == b[i].(index := a[i].index) {
        if i < m { assert a[..m][i] == a[i] && b[..n][i] == b[i]; }
      }
    }
  }

  /** A ledger verifies exactly when it is what recording its own records would have built, `index`
      aside. */
  lemma {:induction false} VerifiesExactly(l: seq<Entry>)
    ensures Verifies(l) <==> Same(l, Chain(Records(l)))
    decreases |l|
  {
    ChainVerifies(Records(l));
    var c := Chain(Records(l));
    if Same(l, c) {
      forall i | 0 <= i < |l| ensures Linked(l, i) {
        assert Linked(c, i);
        assert Tip(l[..i]) == Tip(c[..i]) by { if i > 0 { assert l[..i][i - 1] == l[i - 1] && c[..i][i - 1] == c[i - 1]; } }
      }
    }
    if Verifies(l) { SameChain(l); }
  }

  lemma {:induction false} SameChain(l: seq<Entry>)
    requires Verifies(l)
    ensures Same(l, Chain(Records(l)))
    decreases |l|
  {
    if l != [] {
      var n := |l| - 1;
      PrefixVerifies(l, n);
      SameChain(l[..n]);
      assert Linked(l, n);
      assert Records(l)[..n] == Records(l[..n]);
      var c := Chain(Records(l));
      assert c == Appended(Chain(Records(l[..n])), l[n].record);
      assert Tip(l[..n]) == Tip(Chain(Records(l[..n])));
      forall i | 0 <= i < |l| ensures l[i] == c[i].(index := l[i].index) {
        if i < n { assert l[..n][i] == l[i]; }
      }
    }
  }

  /** Changing the record of an entry in place is always noticed. */
  lemma EditNoticed(l: seq<Entry>, i: nat, record: string)
    requires Verifies(l) && i < |l|
    ensures Verifies(l[i := l[i].(record := record)]) <==> record == l[i].record
  {
    var m := l[i := l[i].(record := record)];
    if record == l[i].record {
      assert m == l;
    } else if Verifies(m) {
      assert m[..i] == l[..i];
      assert Linked(l, i) && Linked(m, i);
      PrefixVerifies(l, i);
      TipIsLink(l[..i]);
      SignInjective(Tip(l[..i]), l[i].record, Tip(l[..i]), record);
    }
  }

  /** What the chain does not bind: the `index` of an entry, and that nothing was cut off the end. */
  lemma NotBound(l: seq<Entry>, i: nat, index: nat, k: nat)
    requires Verifies(l) && i < |l| && k <= |l|
    ensures Verifies(l[i := l[i].(index := index)]) && Verifies(l[..k])
  {
    var m := l[i := l[i].(index := index)];
    forall j | 0 <= j < |m| ensures Linked(m, j) {
      assert Linked(l, j);
      assert Tip(m[..j]) == Tip(l[..j]) by { if j > 0 { assert m[..j][j - 1] == m[j - 1] && l[..j][j - 1] == l[j - 1]; } }
    }
    PrefixVerifies(l, k);
  }

  // ---------------------------------------------------------------- the ledger

  class RedTeamAuditLedger {
    var records: seq<Entry>

    constructor ()
      ensures records == []
    {
      records := [];
    }

    method RecordAttack(record: string) returns (entry: Entry)
      modifies this
      ensures records == Appended(old(records), record) && entry == records[|old(records)|]
    {
      var prev := if records != [] then records[|records| - 1].hash else GENESIS;
      entry := Entry(|records|, prev, Sign(prev, record), record);
      records := records + [entry];
    }

    method VerifyLedgerIntegrity() returns (ok: bool)
      ensures ok <==> Verifies(records)
    {
      for i := 0 to |records|
        invariant forall j :: 0 <= j < i ==> Linked(records, j)
      {
        var expected := if i > 0 then records[i - 1].hash else GENESIS;
        assert expected == Tip(records[..i]);
        assert Linked(records, i) <==> records[i].prev == expected && Sign(expected, records[i].record) == records[i].hash;
        if records[i].prev != expected || Sign(expected, records[i].record) != records[i].hash { return false; }
      }
      ok := true;
    }
  }
}
