/**
 * `resource_kernel_likelihood_slow_computations`: the same likelihood
 * quantities as the fast path, computed one configuration at a time by two
 * triangular solves with the upper-left block of the factor.
 */
module SlowPath {
  import opened Wrappers
  import opened Sums
  import opened Triangular
  import opened ResourceLayout
  import opened Likelihood

  /** `0 < ydim <= num_res`, the assertion the loop makes for every configuration. */
  predicate LengthInRange(ydim: nat, rMin: int, rMax: int)
  {
    0 < ydim <= rMax + 1 - rMin
  }

  /** What the slow path accepts: some configuration, and every one with between 1 and `num_res` targets. */
  predicate SlowAccepts(targets: seq<seq<real>>, rMin: int, rMax: int)
  {
    && |targets| > 0
    && forall i :: 0 <= i < |targets| ==> LengthInRange(|targets[i]|, rMin, rMax)
  }

  /** `i` is the first configuration whose number of targets the loop rejects. */
  predicate FirstRejected(targets: seq<seq<real>>, rMin: int, rMax: int, i: nat)
  {
    && i < |targets|
    && !LengthInRange(|targets[i]|, rMin, rMax)
    && forall k :: 0 <= k < i ==> LengthInRange(|targets[k]|, rMin, rMax)
  }

  /** The three per-configuration results the loop has appended for configurations `0, ..., n - 1`. */
  predicate ListsSoFar(targets: seq<seq<real>>, lfact: Matrix, means: seq<real>, n: nat,
                       vtvLst: seq<real>, wtvLst: seq<real>, wtwLst: seq<real>)
    requires Fits(lfact, means, targets)
    requires n <= |targets|
  {
    && vtvLst == VtvOf(lfact, means, targets)[..n]
    && wtvLst == WtvOf(lfact, means, targets)[..n]
    && wtwLst == WtwOf(lfact, means, targets)[..n]
  }

  /**
   * `resource_kernel_likelihood_slow_computations(targets, res_kernel, noise_variance, skip_c_d)`
   * with `lfact_all` and `means_all` the Cholesky factor and the means the
   * code computes from the kernel for `max(ydims)` resources.
   */
  method SlowComputations(targets: seq<seq<real>>, rMin: int, rMax: int, lfactAll: Matrix, meansAll: seq<real>, skipCD: bool := false)
    returns (r: Result<Likelihood, LikelihoodError>)
    requires |targets| > 0 ==>
      && Factor(lfactAll)
      && |lfactAll| == Max(Lengths(targets))
      && |meansAll| == Max(Lengths(targets))
    ensures r.Success? <==> SlowAccepts(targets, rMin, rMax)
    ensures |targets| == 0 ==> r == Failure(NoConfigurations)
    ensures |targets| > 0 && r.Failure? ==>
      r.error.TargetLengthOutOfRange? && FirstRejected(targets, rMin, rMax, r.error.index)
    ensures r.Success? ==>
      && Fits(lfactAll, meansAll, targets)
      && Describes(r.value, lfactAll, meansAll, targets, skipCD)
  {
    var numConfigs := |targets|;
    var numRes := rMax + 1 - rMin;
    if numConfigs == 0 {
      // "targets must not be empty"
      return Failure(NoConfigurations);
    }
    var ydims := Lengths(targets);
    assert Fits(lfactAll, meansAll, targets);
    var vtvLst: seq<real> := [];
    var wtvLst: seq<real> := [];
    var wtwLst: seq<real> := [];
    var numData := 0;
    var i := 0;
    while i < numConfigs
      invariant 0 <= i <= numConfigs
      invariant forall k :: 0 <= k < i ==> LengthInRange(|targets[k]|, rMin, rMax)
      invariant numData == Sum(ydims[..i])
      invariant ListsSoFar(targets, lfactAll, meansAll, i, vtvLst, wtvLst, wtwLst)
    {
      var yvec := targets[i];
      var ydim := ydims[i];
      if !(0 < ydim <= numRes) {
        return Failure(TargetLengthOutOfRange(i));
      }
      AcceptedStep(targets, rMin, rMax, i);
      numData := numData + ydim;
      SumPrefixStep(ydims, i);
      var vtv, wtv, wtw := ConfigurationTerms(lfactAll, meansAll, yvec);
      ListsStep(targets, lfactAll, meansAll, i, vtvLst, wtvLst, wtwLst, vtv, wtv, wtw);
      vtvLst := vtvLst + [vtv];
      wtvLst := wtvLst + [wtv];
      wtwLst := wtwLst + [wtw];
      i := i + 1;
    }
    assert ydims[..numConfigs] == ydims;
    var c: Option<seq<real>> := None;
    var d: Option<seq<real>> := None;
    if !skipCD {
      c := Some(Zeros(numConfigs));
      d := Some(Zeros(numConfigs));
    }
    var result := Likelihood(numData, vtvLst, wtvLst, wtwLst, lfactAll, ydims, c, d);
    SlowDescribes(targets, lfactAll, meansAll, skipCD, result);
    r := Success(result);
  }

  /**
   * The body of the loop for one configuration with targets `yvec`: two
   * solves with the block `L[:ydim, :ydim]`, then `|v|^2`, `w^T v`, `|w|^2`.
   */
  method ConfigurationTerms(lfactAll: Matrix, meansAll: seq<real>, yvec: seq<real>)
    returns (vtv: real, wtv: real, wtw: real)
    requires Factor(lfactAll) && |yvec| <= |lfactAll| && |yvec| <= |meansAll|
    ensures vtv == SqNorm(VVec(lfactAll, |yvec|))
    ensures wtv == Dot(WVec(lfactAll, meansAll, yvec), VVec(lfactAll, |yvec|))
    ensures wtw == SqNorm(WVec(lfactAll, meansAll, yvec))
  {
    var ydim := |yvec|;
    var lfact := Sub(lfactAll, ydim);
    var vvec := ForwardSolve(lfact, Ones(ydim));
    var means := meansAll[..ydim];
    var wvec := ForwardSolve(lfact, Centered(yvec, means));
    SolvesWithBlock(lfactAll, meansAll, yvec);
    vtv := SqNorm(vvec);
    wtv := Dot(wvec, vvec);
    wtw := SqNorm(wvec);
  }

  /** The configurations the loop has passed, one more. */
  lemma AcceptedStep(targets: seq<seq<real>>, rMin: int, rMax: int, i: nat)
    requires i < |targets|
    requires forall k :: 0 <= k < i ==> LengthInRange(|targets[k]|, rMin, rMax)
    requires 0 < |targets[i]| <= rMax + 1 - rMin
    ensures forall k :: 0 <= k < i + 1 ==> LengthInRange(|targets[k]|, rMin, rMax)
  {
  }

  /** Appending configuration `i`'s results keeps the lists right. */
  lemma ListsStep(targets: seq<seq<real>>, lfact: Matrix, means: seq<real>, i: nat,
                  vtvLst: seq<real>, wtvLst: seq<real>, wtwLst: seq<real>, vtv: real, wtv: real, wtw: real)
    requires Fits(lfact, means, targets)
    requires i < |targets|
    requires ListsSoFar(targets, lfact, means, i, vtvLst, wtvLst, wtwLst)
    requires vtv == SqNorm(VVec(lfact, |targets[i]|))
    requires wtv == Dot(WVec(lfact, means, targets[i]), VVec(lfact, |targets[i]|))
    requires wtw == SqNorm(WVec(lfact, means, targets[i]))
    ensures ListsSoFar(targets, lfact, means, i + 1, vtvLst + [vtv], wtvLst + [wtv], wtwLst + [wtw])
  {
    var vs, ws, ww := VtvOf(lfact, means, targets), WtvOf(lfact, means, targets), WtwOf(lfact, means, targets);
    assert vs[..i + 1] == vs[..i] + [vs[i]];
    assert ws[..i + 1] == ws[..i] + [ws[i]];
    assert ww[..i + 1] == ww[..i] + [ww[i]];
  }

  /** The assembled result is the likelihood of `targets`. */
  lemma SlowDescribes(targets: seq<seq<real>>, lfact: Matrix, means: seq<real>, skipCD: bool, r: Likelihood)
    requires Fits(lfact, means, targets)
    requires r.numData == Sum(Lengths(targets))
    requires r.ydims == Lengths(targets)
    requires r.lfactAll == lfact
    requires ListsSoFar(targets, lfact, means, |targets|, r.vtv, r.wtv, r.wtw)
    requires if skipCD then r.c == None && r.d == None
             else r.c == Some(Zeros(|targets|)) && r.d == Some(Zeros(|targets|))
    ensures Describes(r, lfact, means, targets, skipCD)
  {
  }

  /**
   * Solving with the block `L[:ydim, :ydim]` and `means_all[:ydim]` gives the
   * `v` and `w` of a configuration with `ydim` targets.
   */
  lemma SolvesWithBlock(lfact: Matrix, means: seq<real>, y: seq<real>)
    requires Factor(lfact) && |y| <= |lfact| && |y| <= |means|
    ensures ForwardSolve(Sub(lfact, |y|), Ones(|y|)) == VVec(lfact, |y|)
    ensures ForwardSolve(Sub(lfact, |y|), Centered(y, means[..|y|])) == WVec(lfact, means, y)
  {
    ForwardSolveSubmatrix(lfact, |y|, Ones(|y|));
    assert Centered(y, means[..|y|]) == Centered(y, means);
    ForwardSolveSubmatrix(lfact, |y|, Centered(y, means));
  }
}
