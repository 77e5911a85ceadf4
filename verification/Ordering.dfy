/** Strict orders on a finite set, the sorted sequence of a set, and the order of texts that
    `sorted` and `ORDER BY` use. */
module Ordering {

  ghost predicate StrictOrder<T(!new)>(before: (T, T) -> bool, items: set<T>) {
    && (forall a, b :: a in items && b in items && a != b ==> before(a, b) || before(b, a))
    && (forall a, b :: a in items && b in items && before(a, b) ==> !before(b, a))
    && (forall a, b, c :: a in items && b in items && c in items && before(a, b) && before(b, c) ==> before(a, c))
  }

  ghost predicate IsLeast<T(!new)>(m: T, items: set<T>, before: (T, T) -> bool) {
    m in items && forall x :: x in items && x != m ==> before(m, x)
  }

  ghost predicate Ascending<T(!new)>(s: seq<T>, before: (T, T) -> bool) {
    forall i, j :: 0 <= i < j < |s| ==> before(s[i], s[j])
  }

  function Elements<T>(s: seq<T>): set<T> { set x | x in s }

  method Least<T(==,!new)>(items: set<T>, before: (T, T) -> bool) returns (m: T)
    requires items != {} && StrictOrder(before, items)
    ensures IsLeast(m, items, before)
  {
    m :| m in items;
    var rest := items - {m};
    while rest != {}
      invariant rest <= items && m in items && m !in rest
      invariant forall x :: x in items && x !in rest && x != m ==> before(m, x)
      decreases rest
    {
      var x :| x in rest;
      if before(x, m) { m := x; }
      rest := rest - {x};
    }
  }

  lemma AscendingGrows<T(!new)>(s: seq<T>, m: T, before: (T, T) -> bool)
    requires Ascending(s, before) && forall x :: x in s ==> before(x, m)
    ensures Ascending(s + [m], before) && Elements(s + [m]) == Elements(s) + {m}
  {
  }

  method Sorted<T(==,!new)>(items: set<T>, before: (T, T) -> bool) returns (s: seq<T>)
    requires StrictOrder(before, items)
    ensures Ascending(s, before) && Elements(s) == items && |s| == |items|
  {
    s := [];
    var rest := items;
    while rest != {}
      invariant rest <= items && Elements(s) == items - rest && Ascending(s, before)
      invariant |s| == |items| - |rest|
      invariant forall x, y :: x in s && y in rest ==> before(x, y)
      decreases rest
    {
      var m := Least(rest, before);
      AscendingGrows(s, m, before);
      s := s + [m];
      rest := rest - {m};
    }
  }

  /** Sorting is unique: two ascending sequences with the same elements are the same. */
  lemma {:induction false} AscendingIsUnique<T(!new)>(s: seq<T>, t: seq<T>, before: (T, T) -> bool)
    requires StrictOrder(before, Elements(s))
    requires Ascending(s, before) && Ascending(t, before) && Elements(s) == Elements(t)
    ensures s == t
    decreases |s|
  {
    EmptyElements(s);
    EmptyElements(t);
    if s != [] {
      assert s[0] in Elements(t) && t[0] in Elements(s);
      assert s[0] == t[0];
      TailElements(s, before);
      TailElements(t, before);
      AscendingIsUnique(s[1..], t[1..], before);
    }
  }

  lemma EmptyElements<T(!new)>(s: seq<T>)
    ensures s == [] <==> Elements(s) == {}
  {
    if s != [] { assert s[0] in Elements(s); }
  }

  lemma TailElements<T(!new)>(s: seq<T>, before: (T, T) -> bool)
    requires s != [] && StrictOrder(before, Elements(s)) && Ascending(s, before)
    ensures Elements(s[1..]) == Elements(s) - {s[0]}
    ensures Ascending(s[1..], before) && StrictOrder(before, Elements(s[1..]))
  {
    forall x | x in Elements(s) && x != s[0] ensures x in s[1..] {
      var i :| 0 <= i < |s| && s[i] == x;
      assert s[1..][i - 1] == x;
    }
    forall x | x in s[1..] ensures x in Elements(s) && x != s[0] {
      var i :| 0 <= i < |s[1..]| && s[1..][i] == x;
      assert s[i + 1] == x;
      assert s[0] in Elements(s) && s[i + 1] in Elements(s);
    }
  }

  // ---------------------------------------------------------------- text

  /** Order by code point, as strings compare in Python and in SQLite. */
  predicate TextLess(a: string, b: string) {
    b != [] && (a == [] || a[0] < b[0] || (a[0] == b[0] && TextLess(a[1..], b[1..])))
  }

  /** Texts part at `k`: one ends there, or has the smaller character. */
  predicate PartAt(a: string, b: string, k: nat) {
    k < |b| && k <= |a| && (forall i :: 0 <= i < k ==> a[i] == b[i]) && (k == |a| || a[k] < b[k])
  }

  /** The smaller text is a proper prefix, or has the smaller character where they first differ. */
  lemma {:induction false} TextLessExactly(a: string, b: string)
    ensures TextLess(a, b) <==> exists k: nat :: PartAt(a, b, k)
    decreases a, b, 1
  {
    if b != [] {
      if a == [] || a[0] < b[0] {
        assert PartAt(a, b, 0);
      } else if a[0] == b[0] {
        PartLater(a, b);
      }
    }
  }

  lemma {:induction false} PartLater(a: string, b: string)
    requires a != [] && b != [] && a[0] == b[0]
    ensures TextLess(a, b) <==> exists k: nat :: PartAt(a, b, k)
    decreases a, b, 0
  {
    TextLessExactly(a[1..], b[1..]);
    if k: nat :| PartAt(a[1..], b[1..], k) {
      forall i | 0 <= i < k + 1 ensures a[i] == b[i] { if i > 0 { assert a[1..][i - 1] == b[1..][i - 1]; } }
      assert PartAt(a, b, k + 1);
    }
    if k: nat :| PartAt(a, b, k) {
      assert k > 0 && PartAt(a[1..], b[1..], k - 1);
    }
  }

  lemma {:induction false} TextTotal(a: string, b: string)
    requires a != b
    ensures TextLess(a, b) || TextLess(b, a)
  {
    if a != [] && b != [] && a[0] == b[0] {
      assert a == [a[0]] + a[1..] && b == [b[0]] + b[1..];
      TextTotal(a[1..], b[1..]);
    }
  }

  lemma {:induction false} TextAsymmetric(a: string, b: string)
    requires TextLess(a, b)
    ensures !TextLess(b, a) && a != b
  {
    if a != [] && a[0] == b[0] { TextAsymmetric(a[1..], b[1..]); }
  }

  lemma {:induction false} TextTransitive(a: string, b: string, c: string)
    requires TextLess(a, b) && TextLess(b, c)
    ensures TextLess(a, c)
  {
    if a != [] && a[0] == b[0] == c[0] { TextTransitive(a[1..], b[1..], c[1..]); }
  }

  lemma TextOrders(items: set<string>)
    ensures StrictOrder(TextLess, items)
  {
    forall a, b | a in items && b in items && a != b ensures TextLess(a, b) || TextLess(b, a) { TextTotal(a, b); }
    forall a, b | a in items && b in items && TextLess(a, b) ensures !TextLess(b, a) { TextAsymmetric(a, b); }
    forall a, b, c | a in items && b in items && c in items && TextLess(a, b) && TextLess(b, c)
      ensures TextLess(a, c) { TextTransitive(a, b, c); }
  }
}
