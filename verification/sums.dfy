/**
 * Finite sums and the small vector operations the likelihood code takes from
 * numpy: `sum`, `cumsum`, `square`, inner products and list concatenation.
 */
module Sums {

  /** `sum(s)` over integers, peeled from the back so that appending is one unfolding. */
  function Sum(s: seq<int>): int
  {
    if |s| == 0 then 0 else Sum(s[..|s| - 1]) + s[|s| - 1]
  }

  /** `sum(s)` over reals. */
  function SumR(s: seq<real>): real
  {
    if |s| == 0 then 0.0 else SumR(s[..|s| - 1]) + s[|s| - 1]
  }

  /** Inner product `a^T b`. */
  function Dot(a: seq<real>, b: seq<real>): real
    requires |a| == |b|
  {
    if |a| == 0 then 0.0 else Dot(a[..|a| - 1], b[..|b| - 1]) + a[|a| - 1] * b[|b| - 1]
  }

  /** Element-wise square, `anp.square(v)`. */
  function Squares(v: seq<real>): (r: seq<real>)
    ensures |r| == |v|
  {
    seq(|v|, i requires 0 <= i < |v| => v[i] * v[i])
  }

  /** Squared Euclidean norm `|v|^2`. */
  function SqNorm(v: seq<real>): real
  {
    SumR(Squares(v))
  }

  /** Running sums, `anp.cumsum(s)`: entry `k` is the sum of the first `k + 1` entries. */
  function CumSum(s: seq<real>): (r: seq<real>)
    ensures |r| == |s|
  {
    seq(|s|, k requires 0 <= k < |s| => SumR(s[..k + 1]))
  }

  /** The vector of `n` ones. */
  function Ones(n: nat): (r: seq<real>)
    ensures |r| == n
  {
    seq(n, _ => 1.0)
  }

  /** `anp.zeros(n)` */
  function Zeros(n: nat): (r: seq<real>)
    ensures |r| == n
  {
    seq(n, _ => 0.0)
  }

  /** `max(s)`; Python raises `ValueError` on an empty list, which callers rule out or report. */
  function Max(s: seq<nat>): (m: nat)
    requires |s| > 0
    ensures forall i :: 0 <= i < |s| ==> s[i] <= m
    ensures exists i :: 0 <= i < |s| && s[i] == m
  {
    if |s| == 1 then s[0]
    else
      var m' := Max(s[..|s| - 1]);
      assert forall i :: 0 <= i < |s| - 1 ==> s[..|s| - 1][i] == s[i];
      if s[|s| - 1] > m' then s[|s| - 1] else m'
  }

  /** `anp.concatenate(ls)` for a list of flat vectors. */
  function Concat(ls: seq<seq<real>>): seq<real>
  {
    if |ls| == 0 then [] else ls[0] + Concat(ls[1..])
  }

  /** `reversed(ls)`. */
  function Reverse<T>(s: seq<T>): (r: seq<T>)
    ensures |r| == |s|
    ensures forall i :: 0 <= i < |s| ==> r[i] == s[|s| - 1 - i]
  {
    if |s| == 0 then [] else [s[|s| - 1]] + Reverse(s[..|s| - 1])
  }

  /** Sequences with the same entries are equal. */
  lemma SameEntries(a: seq<real>, b: seq<real>)
    requires |a| == |b|
    requires forall k :: 0 <= k < |a| ==> a[k] == b[k]
    ensures a == b
  {
  }

  lemma SumSnoc(s: seq<int>, x: int)
    ensures Sum(s + [x]) == Sum(s) + x
  {
  }

  lemma SumPrefixStep(s: seq<int>, j: nat)
    requires j < |s|
    ensures Sum(s[..j + 1]) == Sum(s[..j]) + s[j]
  {
    assert s[..j + 1][..j] == s[..j];
  }

  lemma {:induction false} SumNonNegative(s: seq<nat>)
    ensures Sum(s) >= 0
  {
    if |s| > 0 {
      SumNonNegative(s[..|s| - 1]);
    }
  }

  /** Prefix sums of a sequence of naturals grow with the prefix. */
  lemma {:induction false} SumPrefixMonotone(s: seq<nat>, i: nat, j: nat)
    requires i <= j <= |s|
    ensures 0 <= Sum(s[..i]) <= Sum(s[..j])
    decreases j
  {
    if i == j {
      SumNonNegative(s[..i]);
    } else {
      SumPrefixMonotone(s, i, j - 1);
      SumPrefixStep(s, j - 1);
    }
  }

  lemma SumRPrefixStep(s: seq<real>, j: nat)
    requires j < |s|
    ensures SumR(s[..j + 1]) == SumR(s[..j]) + s[j]
  {
    assert s[..j + 1][..j] == s[..j];
  }

  lemma {:induction false} DotCommutes(a: seq<real>, b: seq<real>)
    requires |a| == |b|
    ensures Dot(a, b) == Dot(b, a)
  {
    if |a| > 0 {
      DotCommutes(a[..|a| - 1], b[..|b| - 1]);
    }
  }

  /** Entry `k - 1` of `cumsum(square(v))` is the squared norm of the first `k` entries of `v`. */
  lemma CumSumOfSquares(v: seq<real>, k: nat)
    requires 0 < k <= |v|
    ensures CumSum(Squares(v))[k - 1] == SqNorm(v[..k])
  {
    assert Squares(v)[..k] == Squares(v[..k]);
  }

  /** Concatenating the reversal of a list that grew by `x` puts `x` first. */
  lemma ConcatReverseSnoc(ls: seq<seq<real>>, x: seq<real>)
    ensures Concat(Reverse(ls + [x])) == x + Concat(Reverse(ls))
  {
  }
}
