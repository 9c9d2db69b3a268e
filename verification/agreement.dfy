/**
 * The fast likelihood path against its reference, the slow path: on the
 * same sorted targets, the same factor and the same means, both describe the
 * same quantities, so whenever the slow path returns a result the fast path
 * returns that very result.
 *
 * The fast path checks fewer things: it never compares the target lengths
 * with the resource range `r_max + 1 - r_min`, which the slow path does.
 */
module PathsAgreement {
  import opened Wrappers
  import opened Sums
  import opened Triangular
  import opened ResourceLayout
  import opened Likelihood
  import opened FastPath
  import opened SlowPath

  /** For sorted targets, `max(ydims)` (the slow path's size of `L`) is `ydims[0]` (the fast path's). */
  lemma SortedMaxIsFirst(targets: seq<seq<real>>)
    requires SortedTargets(targets)
    ensures Max(Lengths(targets)) == |targets[0]|
  {
  }

  /**
   * A factor and means sized for the slow path are what the fast path needs
   * for the precomputation of the same targets, and the fast path reads the
   * targets back out of `yflat` unchanged.
   */
  lemma PrecomputedInputs(targets: seq<seq<real>>, pre: Precomputed, lfact: Matrix, means: seq<real>)
    requires Precompute(targets) == Success(pre)
    requires Factor(lfact) && |lfact| == Max(Lengths(targets)) && |means| == Max(Lengths(targets))
    ensures Inputs(pre, lfact, means)
    ensures Columns(pre) == targets
    ensures Fits(lfact, means, targets)
  {
    SortedMaxIsFirst(targets);
    ColumnsRoundTrip(targets, pre);
    assert pre.ydims[0] == |targets[0]|;
  }

  /**
   * The slow path accepts exactly when the fast path accepts and the longest
   * target fits into the resource range.
   */
  lemma AcceptanceRelation(targets: seq<seq<real>>, pre: Precomputed, rMin: int, rMax: int)
    requires Precompute(targets) == Success(pre)
    ensures FastAccepts(pre, rMin, rMax) <==> rMin <= rMax
    ensures SlowAccepts(targets, rMin, rMax) <==> FastAccepts(pre, rMin, rMax) && |targets[0]| <= rMax + 1 - rMin
  {
  }

  /**
   * The gap between the two: one configuration with two targets and a range
   * of one resource is accepted by the fast path and rejected by the slow one.
   */
  lemma FastSkipsRangeCheck()
    ensures var targets := [[1.0, 2.0]];
      && Precompute(targets).Success?
      && FastAccepts(Precompute(targets).value, 1, 1)
      && !SlowAccepts(targets, 1, 1)
  {
  }

  /**
   * Both computations on the same targets: each succeeds exactly when it
   * accepts the arguments, and whenever the slow path succeeds,
   * the fast path returns the same result; when only the fast path succeeds,
   * the slow path rejected a target longer than the resource range.
   */
  method ComparePaths(targets: seq<seq<real>>, pre: Precomputed, rMin: int, rMax: int,
                      lfact: Matrix, means: seq<real>, skipCD: bool)
    returns (fast: Result<Likelihood, LikelihoodError>, slow: Result<Likelihood, LikelihoodError>)
    requires Precompute(targets) == Success(pre)
    requires Factor(lfact) && |lfact| == Max(Lengths(targets)) && |means| == Max(Lengths(targets))
    ensures fast.Success? <==> FastAccepts(pre, rMin, rMax)
    ensures slow.Success? <==> SlowAccepts(targets, rMin, rMax)
    ensures slow.Success? ==> fast == slow
    ensures fast.Success? && slow.Failure? ==>
      slow.error.TargetLengthOutOfRange? && rMax + 1 - rMin < |targets[0]|
    ensures fast.Failure? ==> slow.Failure? && fast.error == EmptyResourceRange
  {
    PrecomputedInputs(targets, pre, lfact, means);
    fast := LikelihoodComputations(pre, rMin, rMax, lfact, means, skipCD);
    slow := SlowComputations(targets, rMin, rMax, lfact, means, skipCD);
    AcceptanceRelation(targets, pre, rMin, rMax);
    if slow.Success? {
      DescribesUnique(fast.value, slow.value, lfact, means, targets, skipCD);
    }
  }
}
