/**
 * Sums over vectors of reals, written to follow the loops that compute them:
 * each adds the `n`-th term to the sum of the first `n - 1`.
 */
module Vectors {

  /** `s.reduce((acc, v) => acc + v, 0)`. */
  function Sum(s: seq<real>): real {
    if s == [] then 0.0 else Sum(s[..|s| - 1]) + s[|s| - 1]
  }

  /** The sum of `a[i] * b[i]` over the first `n` positions. */
  function Dot(a: seq<real>, b: seq<real>, n: nat): real
    requires n <= |a| && n <= |b|
  {
    if n == 0 then 0.0 else Dot(a, b, n - 1) + a[n - 1] * b[n - 1]
  }

  /** The sum of `a[i] * a[i]` over the first `n` positions. */
  function SumSq(a: seq<real>, n: nat): (r: real)
    requires n <= |a|
    ensures r >= 0.0
  {
    if n == 0 then 0.0 else SumSq(a, n - 1) + a[n - 1] * a[n - 1]
  }

  lemma {:induction false} SumSqIsDot(a: seq<real>, n: nat)
    requires n <= |a|
    ensures SumSq(a, n) == Dot(a, a, n)
  {
    if n > 0 {
      SumSqIsDot(a, n - 1);
    }
  }

  lemma {:induction false} DotSymmetric(a: seq<real>, b: seq<real>, n: nat)
    requires n <= |a| && n <= |b|
    ensures Dot(a, b, n) == Dot(b, a, n)
  {
    if n > 0 {
      DotSymmetric(a, b, n - 1);
    }
  }

  /** Only the first `n` positions count. */
  lemma {:induction false} DotPrefix(a: seq<real>, b: seq<real>, n: nat, m: nat)
    requires n <= m <= |a| && m <= |b|
    ensures Dot(a, b, n) == Dot(a[..m], b[..m], n)
  {
    if n > 0 {
      DotPrefix(a, b, n - 1, m);
    }
  }

  lemma {:induction false} SumSqPrefix(a: seq<real>, n: nat, m: nat)
    requires n <= m <= |a|
    ensures SumSq(a, n) == SumSq(a[..m], n)
  {
    if n > 0 {
      SumSqPrefix(a, n - 1, m);
    }
  }

  /** A vector whose first `n` entries are zero is orthogonal to every vector there. */
  lemma {:induction false} DotWithZeros(a: seq<real>, b: seq<real>, n: nat)
    requires n <= |a| && n <= |b|
    requires forall i :: 0 <= i < n ==> b[i] == 0.0
    ensures Dot(a, b, n) == 0.0
  {
    if n > 0 {
      DotWithZeros(a, b, n - 1);
    }
  }

  /** Adding `d` to one entry adds `d` to the sum. */
  lemma {:induction false} SumUpdate(v: seq<real>, idx: nat, d: real)
    requires idx < |v|
    ensures Sum(v[idx := v[idx] + d]) == Sum(v) + d
  {
    var w := v[idx := v[idx] + d];
    if idx == |v| - 1 {
      assert w[..|w| - 1] == v[..|v| - 1];
    } else {
      assert w[..|w| - 1] == v[..|v| - 1][idx := v[idx] + d];
      SumUpdate(v[..|v| - 1], idx, d);
    }
  }
}
