/**
 * `resource_kernel_likelihood_computations`: the likelihood quantities of all
 * configurations at once, from the precomputed layout.
 *
 * One pass over the resources grows `v` and the matrix `W` (one column per
 * configuration still running) by one forward-substitution step each. When a
 * group of configurations has no more targets, their columns are finished:
 * `w^T v` and `|w|^2` are collected for them and the columns are dropped. The
 * collected groups run from the last configurations to the first, so their
 * concatenation is reversed at the end.
 *
 * `W` is held column by column here (the code holds it row by row); the
 * entries are the same.
 */
module FastPath {
  import opened Wrappers
  import opened Sums
  import opened Triangular
  import opened ResourceLayout
  import opened Likelihood

  /**
   * The inputs the fast path computes with: the precomputation's output of a
   * non-empty target list, the Cholesky factor of the kernel matrix of the
   * largest target size, and the means at those resources.
   */
  predicate Inputs(pre: Precomputed, lfact: Matrix, means: seq<real>)
  {
    && ValidLayout(pre)
    && |pre.ydims| > 0
    && Factor(lfact)
    && |lfact| == pre.ydims[0]
    && |means| == pre.ydims[0]
  }

  /** What the code asserts before computing: some configuration and a non-empty resource range. */
  predicate FastAccepts(pre: Precomputed, rMin: int, rMax: int)
  {
    |pre.ydims| > 0 && rMax + 1 - rMin > 0
  }

  /** `w^T v` of configuration `c`. */
  function ConfigWtv(pre: Precomputed, lfact: Matrix, means: seq<real>, c: nat): real
    requires Inputs(pre, lfact, means)
    requires c < |pre.ydims|
  {
    Dot(WVec(lfact, means, Column(pre, c)), VVec(lfact, pre.ydims[c]))
  }

  /** `|w|^2` of configuration `c`. */
  function ConfigWtw(pre: Precomputed, lfact: Matrix, means: seq<real>, c: nat): real
    requires Inputs(pre, lfact, means)
    requires c < |pre.ydims|
  {
    SqNorm(WVec(lfact, means, Column(pre, c)))
  }

  /** `w^T v` of configurations `lo, ..., hi - 1`, in this order. */
  function WtvRange(pre: Precomputed, lfact: Matrix, means: seq<real>, lo: nat, hi: nat): (r: seq<real>)
    requires Inputs(pre, lfact, means)
    requires lo <= hi <= |pre.ydims|
    ensures |r| == hi - lo
  {
    seq(hi - lo, k requires 0 <= k < hi - lo => ConfigWtv(pre, lfact, means, lo + k))
  }

  /** `|w|^2` of configurations `lo, ..., hi - 1`, in this order. */
  function WtwRange(pre: Precomputed, lfact: Matrix, means: seq<real>, lo: nat, hi: nat): (r: seq<real>)
    requires Inputs(pre, lfact, means)
    requires lo <= hi <= |pre.ydims|
    ensures |r| == hi - lo
  {
    seq(hi - lo, k requires 0 <= k < hi - lo => ConfigWtw(pre, lfact, means, lo + k))
  }

  // ---------------------------------------------------------------------------
  // The array operations of one step

  /** `_rowvec(yflat[off:(off + num)] - mean)` */
  function Rhs(yflat: seq<real>, off: nat, num: nat, mean: real): (rhs: seq<real>)
    requires off + num <= |yflat|
    ensures |rhs| == num
  {
    seq(num, c requires 0 <= c < num => yflat[off + c] - mean)
  }

  /** The first row of `W`: `_rowvec(yflat[:off] - means_all[0]) * ilscal`, one column per entry. */
  function FirstRow(rhs: seq<real>, ilscal: real): (wmat: seq<seq<real>>)
    ensures |wmat| == |rhs|
  {
    seq(|rhs|, c requires 0 <= c < |rhs| => [rhs[c] * ilscal])
  }

  /** `concatenate((W, (rhs - matmul(lvec, W)) * ilscal), axis=0)`: every column gets one more entry. */
  function AppendRow(wmat: seq<seq<real>>, rhs: seq<real>, lvec: seq<real>, ilscal: real): (wmat': seq<seq<real>>)
    requires |rhs| == |wmat|
    requires forall c :: 0 <= c < |wmat| ==> |wmat[c]| == |lvec|
    ensures |wmat'| == |wmat|
  {
    seq(|wmat|, c requires 0 <= c < |wmat| => wmat[c] + [NextEntry(lvec, ilscal, wmat[c], rhs[c])])
  }

  /** `_flatvec(matmul(vvec, wdone))`: `v^T w` for every column. */
  function RowTimesColumns(v: seq<real>, ws: seq<seq<real>>): (r: seq<real>)
    requires forall c :: 0 <= c < |ws| ==> |ws[c]| == |v|
    ensures |r| == |ws|
  {
    seq(|ws|, c requires 0 <= c < |ws| => Dot(v, ws[c]))
  }

  /** `_flatvec(sum(square(wdone), axis=0))`: `|w|^2` for every column. */
  function ColumnSqNorms(ws: seq<seq<real>>): (r: seq<real>)
    ensures |r| == |ws|
  {
    seq(|ws|, c requires 0 <= c < |ws| => SqNorm(ws[c]))
  }

  /** The columns of `W` while resources `0, ..., ydim - 1` have been processed. */
  predicate ColumnsSoFar(pre: Precomputed, lfact: Matrix, means: seq<real>, ydim: nat, wmat: seq<seq<real>>)
    requires Inputs(pre, lfact, means)
    requires ydim <= |lfact|
  {
    && |wmat| <= |pre.ydims|
    && forall c :: 0 <= c < |wmat| ==>
         ydim <= pre.ydims[c] && wmat[c] == WVec(lfact, means, Column(pre, c)[..ydim])
  }

  /**
   * `resource_kernel_likelihood_computations(precomputed, res_kernel, noise_variance, skip_c_d)`
   * with `lfact_all` and `means_all` the Cholesky factor and the means the code
   * computes from the kernel.
   */
  method LikelihoodComputations(pre: Precomputed, rMin: int, rMax: int, lfactAll: Matrix, meansAll: seq<real>, skipCD: bool := false)
    returns (r: Result<Likelihood, LikelihoodError>)
    requires ValidLayout(pre)
    requires |pre.ydims| > 0 ==> Inputs(pre, lfactAll, meansAll)
    ensures r.Success? <==> FastAccepts(pre, rMin, rMax)
    ensures |pre.ydims| == 0 ==> r == Failure(NoConfigurations)
    ensures |pre.ydims| > 0 && rMax < rMin ==> r == Failure(EmptyResourceRange)
    ensures r.Success? ==>
      && Fits(lfactAll, meansAll, Columns(pre))
      && Describes(r.value, lfactAll, meansAll, Columns(pre), skipCD)
  {
    if |pre.numConfigs| == 0 {
      // `num_configs[0]` fails: there is no configuration
      LayoutStart(pre);
      return Failure(NoConfigurations);
    }
    LayoutStart(pre);
    var numAllConfigs := pre.numConfigs[0];
    var numRes := rMax + 1 - rMin;
    if numRes <= 0 {
      return Failure(EmptyResourceRange);
    }
    var vvec, wtvAll, wtwAll := FinishedColumns(pre, lfactAll, meansAll);
    var ydims := pre.ydims;
    var vtvForYdim := CumSum(Squares(vvec));
    VtvFromCumSum(pre, lfactAll, meansAll, vvec);
    var vtvAll := seq(|ydims|, i requires 0 <= i < |ydims| => vtvForYdim[ydims[i] - 1]);
    var c: Option<seq<real>> := None;
    var d: Option<seq<real>> := None;
    if !skipCD {
      c := Some(Zeros(numAllConfigs));
      d := Some(Zeros(numAllConfigs));
    }
    var result := Likelihood(Sum(ydims), vtvAll, wtvAll, wtwAll, lfactAll, ydims, c, d);
    FastDescribes(pre, lfactAll, meansAll, skipCD, result);
    r := Success(result);
  }

  /**
   * The state of the loop once resources `0, ..., ydim - 1` are processed:
   * `off` is the start of part `ydim`, `v` has `ydim` entries, `W` holds
   * the columns of the `num_configs[ydim - 1]` configurations still running,
   * and the collected lists hold the results of all configurations after them.
   */
  predicate Processed(pre: Precomputed, lfact: Matrix, means: seq<real>, ydim: nat, off: nat,
                      vvec: seq<real>, wmat: seq<seq<real>>, wtvLst: seq<seq<real>>, wtwLst: seq<seq<real>>)
    requires Inputs(pre, lfact, means)
  {
    && 1 <= ydim <= |pre.numConfigs|
    && off == Offset(pre.numConfigs, ydim)
    && |wmat| == pre.numConfigs[ydim - 1]
    && vvec == VVec(lfact, ydim)
    && ColumnsSoFar(pre, lfact, means, ydim, wmat)
    && Concat(Reverse(wtvLst)) == WtvRange(pre, lfact, means, |wmat|, |pre.ydims|)
    && Concat(Reverse(wtwLst)) == WtwRange(pre, lfact, means, |wmat|, |pre.ydims|)
  }

  /**
   * The loop over the resources and the final flush: `v` for the largest
   * target size and `w^T v`, `|w|^2` of every configuration, in input order.
   */
  method FinishedColumns(pre: Precomputed, lfact: Matrix, means: seq<real>)
    returns (vvec: seq<real>, wtvAll: seq<real>, wtwAll: seq<real>)
    requires Inputs(pre, lfact, means)
    ensures vvec == VVec(lfact, |pre.numConfigs|)
    ensures wtvAll == WtvRange(pre, lfact, means, 0, |pre.ydims|)
    ensures wtwAll == WtwRange(pre, lfact, means, 0, |pre.ydims|)
  {
    LayoutStart(pre);
    var numConfigs := pre.numConfigs;
    var off := numConfigs[0];
    var ilscal := 1.0 / lfact[0][0];
    vvec := [ilscal];
    var wmat := FirstRow(Rhs(pre.yflat, 0, off, means[0]), ilscal);
    FirstStep(pre, lfact, means);
    var wtvLst: seq<seq<real>> := [];
    var wtwLst: seq<seq<real>> := [];
    var ydim := 1;
    while ydim < |numConfigs|
      invariant Processed(pre, lfact, means, ydim, off, vvec, wmat, wtvLst, wtwLst)
    {
      off, vvec, wmat, wtvLst, wtwLst := ResourceStep(pre, lfact, means, ydim, off, vvec, wmat, wtvLst, wtwLst);
      ydim := ydim + 1;
    }
    Flush(pre, lfact, means, ydim, wmat, vvec, wtvLst, wtwLst);
    wtvLst := wtvLst + [RowTimesColumns(vvec, wmat)];
    wtwLst := wtwLst + [ColumnSqNorms(wmat)];
    wtvAll := Concat(Reverse(wtvLst));
    wtwAll := Concat(Reverse(wtwLst));
  }

  /**
   * One pass of the loop, for resource `ydim`: finish the configurations
   * with exactly `ydim` targets, then grow `W` and `v` by one row.
   */
  method ResourceStep(pre: Precomputed, lfact: Matrix, means: seq<real>, ydim: nat, off: nat,
                      vvec: seq<real>, wmat: seq<seq<real>>, wtvLst: seq<seq<real>>, wtwLst: seq<seq<real>>)
    returns (off': nat, vvec': seq<real>, wmat': seq<seq<real>>, wtvLst': seq<seq<real>>, wtwLst': seq<seq<real>>)
    requires Inputs(pre, lfact, means)
    requires ydim < |pre.numConfigs|
    requires Processed(pre, lfact, means, ydim, off, vvec, wmat, wtvLst, wtwLst)
    ensures Processed(pre, lfact, means, ydim + 1, off', vvec', wmat', wtvLst', wtwLst')
  {
    LayoutStart(pre);
    var numPrev := |wmat|;
    var num := pre.numConfigs[ydim];
    CountsShrink(pre, ydim);
    wmat', wtvLst', wtwLst' := wmat, wtvLst, wtwLst;
    if num < numPrev {
      // configurations `num..numPrev-1` have no target at this resource: their columns are final
      Flush(pre, lfact, means, ydim, wmat, vvec, wtvLst, wtwLst);
      var wdone := wmat[num..];
      wtvLst' := wtvLst + [RowTimesColumns(vvec, wdone)];
      wtwLst' := wtwLst + [ColumnSqNorms(wdone)];
      wmat' := wmat[..num];
    }
    // one forward-substitution step for every column still running
    NextRow(pre, lfact, means, ydim, wmat');
    var rhs := Rhs(pre.yflat, off, num, means[ydim]);
    off' := off + num;
    var lvec := lfact[ydim][..ydim];
    var ilscal := 1.0 / lfact[ydim][ydim];
    wmat' := AppendRow(wmat', rhs, lvec, ilscal);
    // the same step for the right-hand side of all ones
    NextV(lfact, ydim, vvec);
    var vNew := NextEntry(lvec, ilscal, vvec, 1.0);
    vvec' := vvec + [vNew];
    SumPrefixStep(pre.numConfigs, ydim);
  }

  // ---------------------------------------------------------------------------
  // One lemma per step of the method

  /** The first row of `W` and the first entry of `v` are the first forward-substitution step. */
  lemma FirstStep(pre: Precomputed, lfact: Matrix, means: seq<real>)
    requires Inputs(pre, lfact, means)
    ensures |pre.numConfigs| > 0 && pre.numConfigs[0] <= |pre.yflat|
    ensures [1.0 / lfact[0][0]] == VVec(lfact, 1)
    ensures ColumnsSoFar(pre, lfact, means, 1,
              FirstRow(Rhs(pre.yflat, 0, pre.numConfigs[0], means[0]), 1.0 / lfact[0][0]))
    ensures Offset(pre.numConfigs, 1) == pre.numConfigs[0]
  {
    LayoutFacts(pre);
    var nc := pre.numConfigs;
    SumPrefixStep(nc, 0);
    VVecSnoc(lfact, 0);
    assert Dot(lfact[0][..0], []) == 0.0;
    var rhs := Rhs(pre.yflat, 0, nc[0], means[0]);
    var wmat := FirstRow(rhs, 1.0 / lfact[0][0]);
    forall c | 0 <= c < |wmat|
      ensures 1 <= pre.ydims[c] && wmat[c] == WVec(lfact, means, Column(pre, c)[..1])
    {
      FirstColumn(pre, lfact, means, c);
    }
  }

  /** Configuration `c`'s column of the first row of `W`. */
  lemma FirstColumn(pre: Precomputed, lfact: Matrix, means: seq<real>, c: nat)
    requires Inputs(pre, lfact, means)
    requires c < pre.numConfigs[0] <= |pre.yflat|
    ensures 1 <= pre.ydims[c]
    ensures FirstRow(Rhs(pre.yflat, 0, pre.numConfigs[0], means[0]), 1.0 / lfact[0][0])[c]
         == WVec(lfact, means, Column(pre, c)[..1])
  {
    var nc := pre.numConfigs;
    var rhs := Rhs(pre.yflat, 0, nc[0], means[0]);
    var wmat := FirstRow(rhs, 1.0 / lfact[0][0]);
    ColumnAt(pre, c, 0);
    assert nc[..0] == [];
    var y := Column(pre, c);
    assert rhs[c] == y[0] - means[0];
    assert y[..0] == [];
    WStep(lfact, means, y, 0, [], rhs[c]);
    assert lfact[0][..0] == [];
    FirstEntry(1.0 / lfact[0][0], rhs[c]);
    assert wmat[c][0] == WVec(lfact, means, y[..1])[0];
  }

  /** With nothing solved yet, a step only scales. */
  lemma FirstEntry(ilscal: real, t: real)
    ensures NextEntry([], ilscal, [], t) == t * ilscal
  {
  }

  /** One forward-substitution step of `w`, computed as the fast path does it, from `t = y[k] - means[k]`. */
  lemma WStep(lfact: Matrix, means: seq<real>, y: seq<real>, k: nat, w: seq<real>, t: real)
    requires Factor(lfact)
    requires k < |y| && k < |lfact| && k < |means|
    requires w == WVec(lfact, means, y[..k])
    requires t == y[k] - means[k]
    ensures w + [NextEntry(lfact[k][..k], 1.0 / lfact[k][k], w, t)] == WVec(lfact, means, y[..k + 1])
  {
    assert y[..k + 1] == y[..k] + [y[k]];
    WVecSnoc(lfact, means, y[..k], y[k]);
  }

  /** Part `ydim` of `yflat` is in range. */
  lemma NextPartInRange(pre: Precomputed, ydim: nat)
    requires ValidLayout(pre)
    requires ydim < |pre.numConfigs|
    ensures Offset(pre.numConfigs, ydim) + pre.numConfigs[ydim] <= |pre.yflat|
  {
    LayoutFacts(pre);
  }

  /** The columns still running get entry `ydim` of their `w`. */
  lemma NextRow(pre: Precomputed, lfact: Matrix, means: seq<real>, ydim: nat, wmat: seq<seq<real>>)
    requires Inputs(pre, lfact, means)
    requires 1 <= ydim < |pre.numConfigs|
    requires |wmat| == pre.numConfigs[ydim]
    requires ColumnsSoFar(pre, lfact, means, ydim, wmat)
    ensures Offset(pre.numConfigs, ydim) + |wmat| <= |pre.yflat|
    ensures forall c :: 0 <= c < |wmat| ==> |wmat[c]| == |lfact[ydim][..ydim]|
    ensures ColumnsSoFar(pre, lfact, means, ydim + 1,
              AppendRow(wmat, Rhs(pre.yflat, Offset(pre.numConfigs, ydim), |wmat|, means[ydim]),
                        lfact[ydim][..ydim], 1.0 / lfact[ydim][ydim]))
  {
    NextPartInRange(pre, ydim);
    var off := Offset(pre.numConfigs, ydim);
    var rhs := Rhs(pre.yflat, off, |wmat|, means[ydim]);
    var wmat' := AppendRow(wmat, rhs, lfact[ydim][..ydim], 1.0 / lfact[ydim][ydim]);
    forall c | 0 <= c < |wmat'|
      ensures ydim + 1 <= pre.ydims[c] && wmat'[c] == WVec(lfact, means, Column(pre, c)[..ydim + 1])
    {
      ColumnAt(pre, c, ydim);
      WStep(lfact, means, Column(pre, c), ydim, wmat[c], rhs[c]);
    }
  }

  /** `v` gets entry `ydim`. */
  lemma NextV(lfact: Matrix, ydim: nat, vvec: seq<real>)
    requires Factor(lfact) && ydim < |lfact|
    requires vvec == VVec(lfact, ydim)
    ensures vvec + [NextEntry(lfact[ydim][..ydim], 1.0 / lfact[ydim][ydim], vvec, 1.0)] == VVec(lfact, ydim + 1)
  {
    VVecSnoc(lfact, ydim);
  }

  /** A finished column gives its configuration's `w^T v` and `|w|^2`. */
  lemma DoneColumn(pre: Precomputed, lfact: Matrix, means: seq<real>, c: nat, w: seq<real>, vvec: seq<real>)
    requires Inputs(pre, lfact, means)
    requires c < |pre.ydims|
    requires w == WVec(lfact, means, Column(pre, c)[..pre.ydims[c]])
    requires vvec == VVec(lfact, pre.ydims[c])
    ensures Dot(vvec, w) == ConfigWtv(pre, lfact, means, c)
    ensures SqNorm(w) == ConfigWtw(pre, lfact, means, c)
  {
    assert Column(pre, c)[..pre.ydims[c]] == Column(pre, c);
    DotCommutes(vvec, w);
  }

  /** The first configurations still running at resource `ydim`, and those done after it. */
  function NumAfter(pre: Precomputed, ydim: nat): nat
    requires ValidLayout(pre)
    requires ydim <= |pre.numConfigs|
  {
    if ydim < |pre.numConfigs| then pre.numConfigs[ydim] else 0
  }

  /**
   * The configurations `num, ..., |wmat| - 1` have exactly `ydim` targets,
   * so their columns are finished and give their `w^T v` and `|w|^2`.
   */
  lemma DoneColumns(pre: Precomputed, lfact: Matrix, means: seq<real>, ydim: nat, wmat: seq<seq<real>>, vvec: seq<real>)
    requires Inputs(pre, lfact, means)
    requires 1 <= ydim <= |pre.numConfigs|
    requires |wmat| == pre.numConfigs[ydim - 1]
    requires NumAfter(pre, ydim) <= |wmat|
    requires vvec == VVec(lfact, ydim)
    requires ColumnsSoFar(pre, lfact, means, ydim, wmat)
    ensures forall c :: 0 <= c < |wmat| ==> |wmat[c]| == |vvec|
    ensures RowTimesColumns(vvec, wmat[NumAfter(pre, ydim)..]) == WtvRange(pre, lfact, means, NumAfter(pre, ydim), |wmat|)
    ensures ColumnSqNorms(wmat[NumAfter(pre, ydim)..]) == WtwRange(pre, lfact, means, NumAfter(pre, ydim), |wmat|)
  {
    var num := NumAfter(pre, ydim);
    var done := wmat[num..];
    forall k | 0 <= k < |done|
      ensures DoneTerms(pre, lfact, means, vvec, done, num, k)
    {
      DoneEntry(pre, lfact, means, ydim, wmat, vvec, num, k);
    }
    DoneRanges(pre, lfact, means, vvec, done, num);
  }

  /** Entry `k` of the finished columns `done`, which start at configuration `lo`, has the terms of that configuration. */
  predicate DoneTerms(pre: Precomputed, lfact: Matrix, means: seq<real>, vvec: seq<real>, done: seq<seq<real>>, lo: nat, k: int)
    requires Inputs(pre, lfact, means)
  {
    0 <= k < |done| ==>
      && lo + k < |pre.ydims|
      && |done[k]| == |vvec|
      && Dot(vvec, done[k]) == ConfigWtv(pre, lfact, means, lo + k)
      && SqNorm(done[k]) == ConfigWtw(pre, lfact, means, lo + k)
  }

  lemma DoneEntry(pre: Precomputed, lfact: Matrix, means: seq<real>, ydim: nat, wmat: seq<seq<real>>, vvec: seq<real>, num: nat, k: nat)
    requires Inputs(pre, lfact, means)
    requires 1 <= ydim <= |pre.numConfigs|
    requires |wmat| == pre.numConfigs[ydim - 1]
    requires num == NumAfter(pre, ydim) <= |wmat|
    requires k < |wmat| - num
    requires vvec == VVec(lfact, ydim)
    requires ColumnsSoFar(pre, lfact, means, ydim, wmat)
    ensures DoneTerms(pre, lfact, means, vvec, wmat[num..], num, k)
  {
    DoneAt(pre, lfact, means, ydim, wmat, vvec, num + k);
    DoneShifted(pre, lfact, means, wmat, vvec, num, k);
  }

  lemma DoneShifted(pre: Precomputed, lfact: Matrix, means: seq<real>, wmat: seq<seq<real>>, vvec: seq<real>, num: nat, k: nat)
    requires Inputs(pre, lfact, means)
    requires num + k < |wmat| && num + k < |pre.ydims|
    requires |wmat[num + k]| == |vvec|
    requires Dot(vvec, wmat[num + k]) == ConfigWtv(pre, lfact, means, num + k)
    requires SqNorm(wmat[num + k]) == ConfigWtw(pre, lfact, means, num + k)
    ensures DoneTerms(pre, lfact, means, vvec, wmat[num..], num, k)
  {
  }

  /** Finished columns with the right terms entry by entry give the right ranges of results. */
  lemma DoneRanges(pre: Precomputed, lfact: Matrix, means: seq<real>, vvec: seq<real>, done: seq<seq<real>>, lo: nat)
    requires Inputs(pre, lfact, means)
    requires lo + |done| <= |pre.ydims|
    requires forall k :: 0 <= k < |done| ==> DoneTerms(pre, lfact, means, vvec, done, lo, k)
    ensures forall c :: 0 <= c < |done| ==> |done[c]| == |vvec|
    ensures RowTimesColumns(vvec, done) == WtvRange(pre, lfact, means, lo, lo + |done|)
    ensures ColumnSqNorms(done) == WtwRange(pre, lfact, means, lo, lo + |done|)
  {
    assert forall c :: 0 <= c < |done| ==> |done[c]| == |vvec| by {
      forall c | 0 <= c < |done| ensures |done[c]| == |vvec| {
        assert DoneTerms(pre, lfact, means, vvec, done, lo, c);
      }
    }
    var wtv, wtw := RowTimesColumns(vvec, done), ColumnSqNorms(done);
    forall k | 0 <= k < |done|
      ensures wtv[k] == WtvRange(pre, lfact, means, lo, lo + |done|)[k]
      ensures wtw[k] == WtwRange(pre, lfact, means, lo, lo + |done|)[k]
    {
      assert DoneTerms(pre, lfact, means, vvec, done, lo, k);
    }
    SameEntries(wtv, WtvRange(pre, lfact, means, lo, lo + |done|));
    SameEntries(wtw, WtwRange(pre, lfact, means, lo, lo + |done|));
  }

  /** Column `c`, one of those finished at resource `ydim`. */
  lemma DoneAt(pre: Precomputed, lfact: Matrix, means: seq<real>, ydim: nat, wmat: seq<seq<real>>, vvec: seq<real>, c: nat)
    requires Inputs(pre, lfact, means)
    requires 1 <= ydim <= |pre.numConfigs|
    requires |wmat| == pre.numConfigs[ydim - 1]
    requires NumAfter(pre, ydim) <= c < |wmat|
    requires vvec == VVec(lfact, ydim)
    requires ColumnsSoFar(pre, lfact, means, ydim, wmat)
    ensures |wmat[c]| == |vvec|
    ensures Dot(vvec, wmat[c]) == ConfigWtv(pre, lfact, means, c)
    ensures SqNorm(wmat[c]) == ConfigWtw(pre, lfact, means, c)
  {
    DoneLength(pre, ydim, c);
    DoneColumn(pre, lfact, means, c, wmat[c], vvec);
  }

  /** Adjacent ranges of configurations join. */
  lemma RangesJoin(pre: Precomputed, lfact: Matrix, means: seq<real>, lo: nat, mid: nat, hi: nat)
    requires Inputs(pre, lfact, means)
    requires lo <= mid <= hi <= |pre.ydims|
    ensures WtvRange(pre, lfact, means, lo, mid) + WtvRange(pre, lfact, means, mid, hi) == WtvRange(pre, lfact, means, lo, hi)
    ensures WtwRange(pre, lfact, means, lo, mid) + WtwRange(pre, lfact, means, mid, hi) == WtwRange(pre, lfact, means, lo, hi)
  {
  }

  /**
   * Finishing the columns done at resource `ydim` extends the collected
   * results to the configurations `NumAfter(pre, ydim), ...`, and leaves
   * the columns still running.
   */
  lemma Flush(pre: Precomputed, lfact: Matrix, means: seq<real>, ydim: nat, wmat: seq<seq<real>>, vvec: seq<real>,
              wtvLst: seq<seq<real>>, wtwLst: seq<seq<real>>)
    requires Inputs(pre, lfact, means)
    requires 1 <= ydim <= |pre.numConfigs|
    requires |wmat| == pre.numConfigs[ydim - 1]
    requires vvec == VVec(lfact, ydim)
    requires ColumnsSoFar(pre, lfact, means, ydim, wmat)
    requires Concat(Reverse(wtvLst)) == WtvRange(pre, lfact, means, |wmat|, |pre.ydims|)
    requires Concat(Reverse(wtwLst)) == WtwRange(pre, lfact, means, |wmat|, |pre.ydims|)
    ensures NumAfter(pre, ydim) <= |wmat|
    ensures forall c :: 0 <= c < |wmat| ==> |wmat[c]| == |vvec|
    ensures Concat(Reverse(wtvLst + [RowTimesColumns(vvec, wmat[NumAfter(pre, ydim)..])]))
         == WtvRange(pre, lfact, means, NumAfter(pre, ydim), |pre.ydims|)
    ensures Concat(Reverse(wtwLst + [ColumnSqNorms(wmat[NumAfter(pre, ydim)..])]))
         == WtwRange(pre, lfact, means, NumAfter(pre, ydim), |pre.ydims|)
    ensures ColumnsSoFar(pre, lfact, means, ydim, wmat[..NumAfter(pre, ydim)])
  {
    LayoutFacts(pre);
    var num := NumAfter(pre, ydim);
    DoneColumns(pre, lfact, means, ydim, wmat, vvec);
    ConcatReverseSnoc(wtvLst, RowTimesColumns(vvec, wmat[num..]));
    ConcatReverseSnoc(wtwLst, ColumnSqNorms(wmat[num..]));
    RangesJoin(pre, lfact, means, num, |wmat|, |pre.ydims|);
  }

  /** `cumsum(square(vvec))[ydims[i] - 1]` is `|v|^2` of configuration `i`. */
  lemma VtvFromCumSum(pre: Precomputed, lfact: Matrix, means: seq<real>, vvec: seq<real>)
    requires Inputs(pre, lfact, means)
    requires vvec == VVec(lfact, |pre.numConfigs|)
    ensures forall i :: 0 <= i < |pre.ydims| ==>
      1 <= pre.ydims[i] <= |vvec| && CumSum(Squares(vvec))[pre.ydims[i] - 1] == SqNorm(VVec(lfact, pre.ydims[i]))
  {
    LayoutFacts(pre);
    forall i | 0 <= i < |pre.ydims|
      ensures 1 <= pre.ydims[i] <= |vvec|
      ensures CumSum(Squares(vvec))[pre.ydims[i] - 1] == SqNorm(VVec(lfact, pre.ydims[i]))
    {
      CumSumOfSquares(vvec, pre.ydims[i]);
      VVecPrefix(lfact, |vvec|, pre.ydims[i]);
    }
  }

  /** The assembled result is the likelihood of the configurations laid out in `pre`. */
  lemma FastDescribes(pre: Precomputed, lfact: Matrix, means: seq<real>, skipCD: bool, r: Likelihood)
    requires Inputs(pre, lfact, means)
    requires r.numData == Sum(pre.ydims)
    requires r.ydims == pre.ydims
    requires r.lfactAll == lfact
    requires r.wtv == WtvRange(pre, lfact, means, 0, |pre.ydims|)
    requires r.wtw == WtwRange(pre, lfact, means, 0, |pre.ydims|)
    requires |r.vtv| == |pre.ydims|
    requires forall i :: 0 <= i < |pre.ydims| ==> r.vtv[i] == SqNorm(VVec(lfact, pre.ydims[i]))
    requires if skipCD then r.c == None && r.d == None
             else r.c == Some(Zeros(|pre.ydims|)) && r.d == Some(Zeros(|pre.ydims|))
    ensures Fits(lfact, means, Columns(pre))
    ensures Describes(r, lfact, means, Columns(pre), skipCD)
  {
    ColumnsFit(pre, lfact, means);
    var ys := Columns(pre);
    assert Lengths(ys) == pre.ydims;
    AllVtv(pre, lfact, means, r.vtv);
    AllWtv(pre, lfact, means);
    AllWtw(pre, lfact, means);
  }

  lemma ColumnsFit(pre: Precomputed, lfact: Matrix, means: seq<real>)
    requires Inputs(pre, lfact, means)
    ensures Fits(lfact, means, Columns(pre))
  {
  }

  lemma AllVtv(pre: Precomputed, lfact: Matrix, means: seq<real>, vtv: seq<real>)
    requires Inputs(pre, lfact, means)
    requires |vtv| == |pre.ydims|
    requires forall i :: 0 <= i < |pre.ydims| ==> vtv[i] == SqNorm(VVec(lfact, pre.ydims[i]))
    ensures Fits(lfact, means, Columns(pre))
    ensures vtv == VtvOf(lfact, means, Columns(pre))
  {
  }

  lemma AllWtv(pre: Precomputed, lfact: Matrix, means: seq<real>)
    requires Inputs(pre, lfact, means)
    ensures Fits(lfact, means, Columns(pre))
    ensures WtvRange(pre, lfact, means, 0, |pre.ydims|) == WtvOf(lfact, means, Columns(pre))
  {
  }

  lemma AllWtw(pre: Precomputed, lfact: Matrix, means: seq<real>)
    requires Inputs(pre, lfact, means)
    ensures Fits(lfact, means, Columns(pre))
    ensures WtwRange(pre, lfact, means, 0, |pre.ydims|) == WtwOf(lfact, means, Columns(pre))
  {
  }
}
