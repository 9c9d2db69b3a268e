/**
 * What both likelihood computations of the Freeze-Thaw resource kernel
 * return, and the per-configuration quantities they are meant to compute.
 *
 * For a configuration with targets `y` of length `d`, with `L` the Cholesky
 * factor of the largest resource kernel matrix and `means` the kernel's mean
 * function at the resources:
 *   v = L[:d, :d]^-1 1,   w = L[:d, :d]^-1 (y - means[:d]),
 * and the results hold `|v|^2`, `w^T v` and `|w|^2` per configuration.
 * Since forward substitution reads only the block it needs, both are
 * written here with the full factor.
 */
module Likelihood {
  import opened Wrappers
  import opened Sums
  import opened Triangular
  import opened ResourceLayout

  /** The result dictionary of both computations. */
  datatype Likelihood = Likelihood(
    numData: int,
    vtv: seq<real>,
    wtv: seq<real>,
    wtw: seq<real>,
    lfactAll: Matrix,
    ydims: seq<nat>,
    c: Option<seq<real>>,
    d: Option<seq<real>>)

  /** The assertions the two computations can fail. */
  datatype LikelihoodError =
    | NoConfigurations                 // no configurations ("targets must not be empty")
    | EmptyResourceRange               // `r_min > r_max`
    | TargetLengthOutOfRange(index: nat) // slow path: `len(y[index])` not in `(0, num_res]`

  /** `y - means[:|y|]` */
  function Centered(y: seq<real>, means: seq<real>): (c: seq<real>)
    requires |y| <= |means|
    ensures |c| == |y|
  {
    seq(|y|, j requires 0 <= j < |y| => y[j] - means[j])
  }

  /** `v = L[:d, :d]^-1 1` */
  function VVec(lfact: Matrix, d: nat): (v: seq<real>)
    requires Factor(lfact) && d <= |lfact|
    ensures |v| == d
  {
    ForwardSolve(lfact, Ones(d))
  }

  /** `w = L[:|y|, :|y|]^-1 (y - means[:|y|])` */
  function WVec(lfact: Matrix, means: seq<real>, y: seq<real>): (w: seq<real>)
    requires Factor(lfact) && |y| <= |lfact| && |y| <= |means|
    ensures |w| == |y|
  {
    ForwardSolve(lfact, Centered(y, means))
  }

  /** The factor and the means are large enough for every configuration. */
  predicate Fits(lfact: Matrix, means: seq<real>, ys: seq<seq<real>>)
  {
    && Factor(lfact)
    && forall i :: 0 <= i < |ys| ==> |ys[i]| <= |lfact| && |ys[i]| <= |means|
  }

  /** `|v|^2` of every configuration, in input order. */
  function VtvOf(lfact: Matrix, means: seq<real>, ys: seq<seq<real>>): (r: seq<real>)
    requires Fits(lfact, means, ys)
    ensures |r| == |ys|
  {
    seq(|ys|, i requires 0 <= i < |ys| => SqNorm(VVec(lfact, |ys[i]|)))
  }

  /** `w^T v` of every configuration, in input order. */
  function WtvOf(lfact: Matrix, means: seq<real>, ys: seq<seq<real>>): (r: seq<real>)
    requires Fits(lfact, means, ys)
    ensures |r| == |ys|
  {
    seq(|ys|, i requires 0 <= i < |ys| => Dot(WVec(lfact, means, ys[i]), VVec(lfact, |ys[i]|)))
  }

  /** `|w|^2` of every configuration, in input order. */
  function WtwOf(lfact: Matrix, means: seq<real>, ys: seq<seq<real>>): (r: seq<real>)
    requires Fits(lfact, means, ys)
    ensures |r| == |ys|
  {
    seq(|ys|, i requires 0 <= i < |ys| => SqNorm(WVec(lfact, means, ys[i])))
  }

  /**
   * `r` is the likelihood of the configurations with targets `ys`: one entry
   * per configuration, in input order, with `num_data` the number of targets
   * and `c`, `d` zero vectors unless skipped.
   */
  predicate Describes(r: Likelihood, lfact: Matrix, means: seq<real>, ys: seq<seq<real>>, skipCD: bool)
    requires Fits(lfact, means, ys)
  {
    && r.numData == Sum(Lengths(ys))
    && r.ydims == Lengths(ys)
    && r.lfactAll == lfact
    && r.vtv == VtvOf(lfact, means, ys)
    && r.wtv == WtvOf(lfact, means, ys)
    && r.wtw == WtwOf(lfact, means, ys)
    && (if skipCD then r.c == None && r.d == None
        else r.c == Some(Zeros(|ys|)) && r.d == Some(Zeros(|ys|)))
  }

  /** The description pins the result down: two results with the same description are equal. */
  lemma DescribesUnique(r1: Likelihood, r2: Likelihood, lfact: Matrix, means: seq<real>, ys: seq<seq<real>>, skipCD: bool)
    requires Fits(lfact, means, ys)
    requires Describes(r1, lfact, means, ys, skipCD)
    requires Describes(r2, lfact, means, ys, skipCD)
    ensures r1 == r2
  {
  }

  /** `v` grows by one forward-substitution step per resource. */
  lemma VVecSnoc(lfact: Matrix, d: nat)
    requires Factor(lfact) && d < |lfact|
    ensures VVec(lfact, d + 1) == VVec(lfact, d) + [NextEntry(lfact[d][..d], 1.0 / lfact[d][d], VVec(lfact, d), 1.0)]
  {
    assert Ones(d + 1) == Ones(d) + [1.0];
    ForwardSolveSnoc(lfact, Ones(d), 1.0);
  }

  /** `w` grows by one forward-substitution step per observed target. */
  lemma WVecSnoc(lfact: Matrix, means: seq<real>, y: seq<real>, t: real)
    requires Factor(lfact) && |y| < |lfact| && |y| < |means|
    ensures WVec(lfact, means, y + [t])
         == WVec(lfact, means, y) + [NextEntry(lfact[|y|][..|y|], 1.0 / lfact[|y|][|y|], WVec(lfact, means, y), t - means[|y|])]
  {
    assert Centered(y + [t], means) == Centered(y, means) + [t - means[|y|]];
    ForwardSolveSnoc(lfact, Centered(y, means), t - means[|y|]);
  }

  /** The `v` of a shorter configuration is a prefix of the `v` of a longer one. */
  lemma VVecPrefix(lfact: Matrix, d: nat, k: nat)
    requires Factor(lfact) && k <= d <= |lfact|
    ensures VVec(lfact, d)[..k] == VVec(lfact, k)
  {
    assert Ones(d)[..k] == Ones(k);
    ForwardSolvePrefix(lfact, Ones(d), k);
  }
}
