/**
 * Forward substitution with a lower-triangular factor, the operation behind
 * `solve_triangular(lfact, rhs, lower=True)` and behind the row-by-row
 * updates of the fast likelihood path.
 *
 * Only the lower triangle and the diagonal of the factor are ever read; the
 * Cholesky factor of the resource kernel matrix is one such factor, with a
 * positive diagonal.
 */
module Triangular {
  import opened Sums

  type Matrix = seq<seq<real>>

  /** Square, with a non-zero diagonal: a factor forward substitution can divide by. */
  predicate Factor(m: Matrix)
  {
    forall r :: 0 <= r < |m| ==> |m[r]| == |m| && m[r][r] != 0.0
  }

  /** The upper-left `k x k` block `m[:k, :k]`. */
  function Sub(m: Matrix, k: nat): (s: Matrix)
    requires Factor(m)
    requires k <= |m|
    ensures |s| == k
    ensures Factor(s)
    ensures forall r, c :: 0 <= r < k && 0 <= c < k ==> s[r][c] == m[r][c]
  {
    seq(k, r requires 0 <= r < k => m[r][..k])
  }

  /**
   * The solution `x` of `m[:|b|, :|b|] x = b`, computed one entry at a time:
   * `x[k] = (b[k] - m[k, :k] . x[:k]) * (1 / m[k, k])`, the scaling by the
   * reciprocal of the diagonal entry that the fast likelihood path uses.
   */
  function ForwardSolve(m: Matrix, b: seq<real>): (x: seq<real>)
    requires Factor(m)
    requires |b| <= |m|
    ensures |x| == |b|
    decreases |b|
  {
    if |b| == 0 then []
    else
      var k := |b| - 1;
      var x' := ForwardSolve(m, b[..k]);
      x' + [NextEntry(m[k][..k], 1.0 / m[k][k], x', b[k])]
  }

  /**
   * One step of forward substitution: the next entry of the solution, from
   * the row `m[k, :k]` left of the diagonal, `ilscal = 1 / m[k, k]`, the
   * entries `x'` found so far and the right-hand side entry `y`.
   */
  function NextEntry(row: seq<real>, ilscal: real, x': seq<real>, y: real): real
    requires |row| == |x'|
  {
    (y - Dot(row, x')) * ilscal
  }

  /** Row `r` of the lower-triangular system holds: `m[r, :r] . x[:r] + m[r, r] x[r] == b[r]`. */
  predicate RowHolds(m: Matrix, x: seq<real>, b: seq<real>, r: nat)
    requires Factor(m)
    requires |x| == |b| <= |m|
    requires r < |b|
  {
    Dot(m[r][..r], x[..r]) + m[r][r] * x[r] == b[r]
  }

  /** `x` solves the lower-triangular system `m[:|b|, :|b|] x = b`; the strict upper triangle is ignored. */
  predicate LowerSolves(m: Matrix, x: seq<real>, b: seq<real>)
    requires Factor(m)
  {
    && |x| == |b| <= |m|
    && forall r :: 0 <= r < |b| ==> RowHolds(m, x, b, r)
  }

  /** Appending one right-hand side entry appends one solution entry. */
  lemma ForwardSolveSnoc(m: Matrix, b: seq<real>, y: real)
    requires Factor(m)
    requires |b| < |m|
    ensures ForwardSolve(m, b + [y])
         == ForwardSolve(m, b) + [NextEntry(m[|b|][..|b|], 1.0 / m[|b|][|b|], ForwardSolve(m, b), y)]
  {
  }

  /** The solution for a prefix of the right-hand side is the prefix of the solution. */
  lemma {:induction false} ForwardSolvePrefix(m: Matrix, b: seq<real>, k: nat)
    requires Factor(m)
    requires k <= |b| <= |m|
    ensures ForwardSolve(m, b[..k]) == ForwardSolve(m, b)[..k]
    decreases |b|
  {
    if k < |b| {
      var n := |b| - 1;
      assert b[..n][..k] == b[..k];
      ForwardSolvePrefix(m, b[..n], k);
      assert ForwardSolve(m, b)[..n] == ForwardSolve(m, b[..n]);
    } else {
      assert b[..k] == b;
    }
  }

  /** Solving with the block `m[:k, :k]` gives what solving with `m` gives, for right-hand sides of length at most `k`. */
  lemma {:induction false} ForwardSolveSubmatrix(m: Matrix, k: nat, b: seq<real>)
    requires Factor(m)
    requires |b| <= k <= |m|
    ensures ForwardSolve(Sub(m, k), b) == ForwardSolve(m, b)
    decreases |b|
  {
    if |b| > 0 {
      var n := |b| - 1;
      ForwardSolveSubmatrix(m, k, b[..n]);
      assert Sub(m, k)[n][..n] == m[n][..n];
    }
  }

  /** Forward substitution does solve the system. */
  lemma {:induction false} ForwardSolveSolves(m: Matrix, b: seq<real>)
    requires Factor(m)
    requires |b| <= |m|
    ensures LowerSolves(m, ForwardSolve(m, b), b)
    decreases |b|
  {
    if |b| > 0 {
      var n := |b| - 1;
      var x := ForwardSolve(m, b);
      var x' := ForwardSolve(m, b[..n]);
      ForwardSolveSolves(m, b[..n]);
      assert x[..n] == x';
      forall r | 0 <= r < |b|
        ensures RowHolds(m, x, b, r)
      {
        if r < n {
          assert RowHolds(m, x', b[..n], r);
          assert x[..r] == x'[..r];
        } else {
          assert x[n] == NextEntry(m[n][..n], 1.0 / m[n][n], x', b[n]);
          DivisionSolves(b[n], Dot(m[n][..n], x'), m[n][n]);
        }
      }
    }
  }

  lemma DivisionSolves(y: real, d: real, p: real)
    requires p != 0.0
    ensures d + p * ((y - d) * (1.0 / p)) == y
  {
  }

  /** The solution is unique: any `x` that solves the lower-triangular system is the forward-substitution result. */
  lemma {:induction false} ForwardSolveUnique(m: Matrix, x: seq<real>, b: seq<real>)
    requires Factor(m)
    requires LowerSolves(m, x, b)
    ensures x == ForwardSolve(m, b)
    decreases |b|
  {
    if |b| > 0 {
      var n := |b| - 1;
      forall r | 0 <= r < n
        ensures RowHolds(m, x[..n], b[..n], r)
      {
        assert RowHolds(m, x, b, r);
        assert x[..n][..r] == x[..r];
      }
      ForwardSolveUnique(m, x[..n], b[..n]);
      assert RowHolds(m, x, b, n);
      DivisionUnique(b[n], Dot(m[n][..n], x[..n]), m[n][n], x[n]);
      assert x[n] == NextEntry(m[n][..n], 1.0 / m[n][n], x[..n], b[n]);
      assert x == x[..n] + [x[n]];
    }
  }

  lemma DivisionUnique(y: real, d: real, p: real, z: real)
    requires p != 0.0
    requires d + p * z == y
    ensures z == (y - d) * (1.0 / p)
  {
  }
}
