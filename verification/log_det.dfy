/**
 * `logdet_cholfact_cov_resource`: the extra log-determinant term of the
 * likelihood, `sum_i log det(L[:ydims[i], :ydims[i]])`, computed from the
 * diagonal of the one shared factor `L` by weighting entry `j` with the
 * number of configurations that have more than `j` targets.
 *
 * `log` is not modelled: the input is the vector `log(diag(L))`.
 */
module LogDet {
  import opened Wrappers
  import opened Sums
  import opened Triangular
  import opened ResourceLayout
  import opened Likelihood

  /** The ways the computation fails. */
  datatype LogDetError =
    | NoTargetSizes             // `max(ydims)` on an empty list (ValueError)
    | DiagonalLengthMismatch    // `log_diag` and `weights` of different lengths

  /** `log det(L[:d, :d])`, the sum of the logs of the first `d` diagonal entries. */
  function LogDetBlock(logDiag: seq<real>, d: nat): real
    requires d <= |logDiag|
  {
    SumR(logDiag[..d])
  }

  /** `sum_i log det(L[:ydims[i], :ydims[i]])`, summed one configuration at a time. */
  function SumOfBlocks(logDiag: seq<real>, ydims: seq<nat>): real
    requires forall i :: 0 <= i < |ydims| ==> ydims[i] <= |logDiag|
  {
    if |ydims| == 0 then 0.0
    else SumOfBlocks(logDiag, ydims[..|ydims| - 1]) + LogDetBlock(logDiag, ydims[|ydims| - 1])
  }

  /**
   * `logdet_cholfact_cov_resource(likelihood)` for `ydims = likelihood['ydims']`
   * and `logDiag = log(diag(likelihood['lfact_all']))`.
   */
  function LogDetCholfactCovResource(ydims: seq<nat>, logDiag: seq<real>): (r: Result<real, LogDetError>)
    ensures |ydims| == 0 <==> r == Failure(NoTargetSizes)
    ensures |ydims| > 0 ==> (r.Success? <==> |logDiag| == Max(ydims))
  {
    if |ydims| == 0 then Failure(NoTargetSizes)
    else
      var dim := Max(ydims);
      if |logDiag| != dim then Failure(DiagonalLengthMismatch)
      else
        // entry `j` of the diagonal counts once for every configuration that has more than `j` targets
        var weights := NumConfigs(ydims, dim);
        Success(WeightedSum(weights, logDiag))
  }

  /** The weighted sum is the sum of the log-determinants of the configurations' upper-left blocks. */
  lemma LogDetIsSumOfBlocks(ydims: seq<nat>, logDiag: seq<real>)
    requires LogDetCholfactCovResource(ydims, logDiag).Success?
    ensures forall i :: 0 <= i < |ydims| ==> ydims[i] <= |logDiag|
    ensures LogDetCholfactCovResource(ydims, logDiag).value == SumOfBlocks(logDiag, ydims)
  {
    var dim := Max(ydims);
    WeightedCountsExchange(logDiag, ydims, dim);
    assert logDiag[..dim] == logDiag;
    ClippedPrefixSumsUnclipped(logDiag, ydims, dim);
    PrefixSumsAreBlocks(logDiag, ydims);
  }

  lemma {:induction false} PrefixSumsAreBlocks(logDiag: seq<real>, ydims: seq<nat>)
    requires forall i :: 0 <= i < |ydims| ==> ydims[i] <= |logDiag|
    ensures PrefixSums(logDiag, ydims) == SumOfBlocks(logDiag, ydims)
  {
    if |ydims| > 0 {
      PrefixSumsAreBlocks(logDiag, ydims[..|ydims| - 1]);
    }
  }

  /** On the precomputed layout the weights are the counts `num_configs`. */
  lemma WeightsAreCounts(p: Precomputed)
    requires ValidLayout(p) && |p.ydims| > 0
    ensures NumConfigs(p.ydims, Max(p.ydims)) == p.numConfigs
  {
  }

  /**
   * The term is defined on the result of a likelihood computation when the
   * factor was sized for the longest target, as both paths size it.
   */
  lemma LogDetOfLikelihood(r: Likelihood, lfact: Matrix, means: seq<real>, ys: seq<seq<real>>, skipCD: bool, logDiag: seq<real>)
    requires Fits(lfact, means, ys) && Describes(r, lfact, means, ys, skipCD)
    requires |ys| > 0 && |lfact| == Max(Lengths(ys))
    requires |logDiag| == |r.lfactAll|
    ensures LogDetCholfactCovResource(r.ydims, logDiag).Success?
  {
  }
}
