/** Small shared vocabulary: optional values, answers of an operation, file contents
    and digests. */
module Basics {

  type Id = string

  datatype Option<+T> = None | Some(value: T)

  newtype Byte = x: int | 0 <= x < 256
  type Bytes = seq<Byte>

  /** A SHA-256 digest, kept symbolic: `Digest(b)` is the digest of `b`, so distinct
      contents have distinct digests. */
  datatype Digest = Digest(content: Bytes)

  // ---------------------------------------------------------------- identifiers

  predicate Alphanumeric(c: char) { 'A' <= c <= 'Z' || 'a' <= c <= 'z' || '0' <= c <= '9' }

  /** `[A-Za-z0-9][A-Za-z0-9._-]{0,127}`. */
  predicate IsIdentifier(v: string) {
    1 <= |v| <= 128 && Alphanumeric(v[0])
    && forall i :: 0 <= i < |v| ==> Alphanumeric(v[i]) || v[i] == '.' || v[i] == '_' || v[i] == '-'
  }

  // ---------------------------------------------------------------- turning points

  /** What does not hold at first and holds at `n` begins to hold at some step, and holds from there on. */
  lemma {:induction false} TurningPoint(n: nat, p: nat -> bool) returns (i: nat)
    requires !p(0) && p(n)
    ensures i < n && !p(i) && p(i + 1) && forall j :: i < j <= n ==> p(j)
  {
    if p(n - 1) { i := TurningPoint(n - 1, p); } else { i := n - 1; }
  }

  // ---------------------------------------------------------------- fields between separators

  predicate Free<T(==)>(s: seq<T>, c: T) { c !in s }

  lemma LastDiffers<T>(a: seq<T>, x: seq<T>, b: seq<T>, y: seq<T>, c: T)
    requires |x| < |y| && Free(y, c)
    ensures a + [c] + x != b + [c] + y
  {
    var s, t := a + [c] + x, b + [c] + y;
    if |s| == |t| {
      assert s[|a|] == c;
      assert t[|a|] == y[|a| - |b| - 1];
    }
  }

  lemma FirstDiffers<T>(x: seq<T>, a: seq<T>, y: seq<T>, b: seq<T>, c: T)
    requires |x| < |y| && Free(y, c)
    ensures x + [c] + a != y + [c] + b
  {
    var s, t := x + [c] + a, y + [c] + b;
    assert s[|x|] == c;
    assert t[|x|] == y[|x|];
  }

  /** A separator is found from the right when the last field is free of it. */
  lemma SplitLast<T>(a: seq<T>, x: seq<T>, b: seq<T>, y: seq<T>, c: T)
    requires a + [c] + x == b + [c] + y && Free(x, c) && Free(y, c)
    ensures a == b && x == y
  {
    var s, t := a + [c] + x, b + [c] + y;
    assert |x| == |y| by {
      if |x| < |y| { LastDiffers(a, x, b, y, c); }
      if |y| < |x| { LastDiffers(b, y, a, x, c); }
    }
    assert a == s[..|a|] && b == t[..|b|] && x == s[|a| + 1..] && y == t[|b| + 1..];
  }

  /** And from the left when the first field is. */
  lemma SplitFirst<T>(x: seq<T>, a: seq<T>, y: seq<T>, b: seq<T>, c: T)
    requires x + [c] + a == y + [c] + b && Free(x, c) && Free(y, c)
    ensures a == b && x == y
  {
    var s, t := x + [c] + a, y + [c] + b;
    assert |x| == |y| by {
      if |x| < |y| { FirstDiffers(x, a, y, b, c); }
      if |y| < |x| { FirstDiffers(y, b, x, a, c); }
    }
    assert x == s[..|x|] && y == t[..|y|] && a == s[|x| + 1..] && b == t[|y| + 1..];
  }
}
