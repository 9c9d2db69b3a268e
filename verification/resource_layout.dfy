/**
 * Index bookkeeping of the Freeze-Thaw resource-kernel likelihood
 * (`resource_kernel_likelihood_precomputations` and the weights of
 * `logdet_cholfact_cov_resource`).
 *
 * Configuration `i` has observed targets `targets[i][0..ydims[i])` at the
 * resources `r_min, r_min + 1, ...`. The precomputation expects the
 * configurations sorted by non-increasing number of targets, counts in
 * `num_configs[j]` how many have more than `j` targets, and flattens the
 * targets column by column into `yflat`.
 */
module ResourceLayout {
  import opened Wrappers
  import opened Sums

  /** `[len(y) for y in targets]` */
  function Lengths(targets: seq<seq<real>>): (ydims: seq<nat>)
    ensures |ydims| == |targets|
    ensures forall i :: 0 <= i < |targets| ==> ydims[i] == |targets[i]|
  {
    seq(|targets|, i requires 0 <= i < |targets| => |targets[i]|)
  }

  /** Number of entries of `ydims` that exceed `j`. */
  function CountAbove(ydims: seq<nat>, j: int): (c: nat)
    ensures c <= |ydims|
  {
    if |ydims| == 0 then 0
    else CountAbove(ydims[..|ydims| - 1], j) + (if ydims[|ydims| - 1] > j then 1 else 0)
  }

  /**
   * The per-resource counts `sum(ydims[i] > j for i)` for `0 <= j < dim`:
   * `num_configs` of the precomputation and the weights of the log-determinant.
   */
  function NumConfigs(ydims: seq<nat>, dim: nat): (nc: seq<nat>)
    ensures |nc| == dim
  {
    seq(dim, j requires 0 <= j < dim => CountAbove(ydims, j))
  }

  predicate NonIncreasing(s: seq<nat>)
  {
    forall i, k :: 0 <= i <= k < |s| ==> s[k] <= s[i]
  }

  /** Start of part `j` in `yflat`: the value of `off` when the fill loop reaches `pos == j`. */
  function Offset(nc: seq<nat>, j: nat): nat
    requires j <= |nc|
  {
    SumPrefixMonotone(nc, 0, j);
    Sum(nc[..j])
  }

  /** Every read `targets[i][pos]` that the fill loop makes is in range. */
  predicate FillInRange(targets: seq<seq<real>>, nc: seq<nat>)
  {
    forall pos :: 0 <= pos < |nc| ==>
      nc[pos] <= |targets| && forall i :: 0 <= i < nc[pos] ==> pos < |targets[i]|
  }

  /** `[y[pos] for y in targets[:num]]` */
  function Part(targets: seq<seq<real>>, pos: nat, num: nat): (part: seq<real>)
    requires num <= |targets|
    requires forall i :: 0 <= i < num ==> pos < |targets[i]|
    ensures |part| == num
  {
    seq(num, i requires 0 <= i < num => targets[i][pos])
  }

  /** The first `pos` parts of `yflat`, appended one by one as the fill loop writes them. */
  function FillParts(targets: seq<seq<real>>, nc: seq<nat>, pos: nat): (yflat: seq<real>)
    requires pos <= |nc|
    requires FillInRange(targets, nc)
    ensures |yflat| == Offset(nc, pos)
    decreases pos
  {
    if pos == 0 then []
    else
      var prev := FillParts(targets, nc, pos - 1);
      SumPrefixStep(nc, pos - 1);
      prev + Part(targets, pos - 1, nc[pos - 1])
  }

  /** Part `j` of the filled vector starts at `Offset(nc, j)` and holds `targets[i][j]` for `i < nc[j]`. */
  lemma {:induction false} FillPartsAt(targets: seq<seq<real>>, nc: seq<nat>, pos: nat, j: nat, i: nat)
    requires pos <= |nc|
    requires FillInRange(targets, nc)
    requires j < pos && i < nc[j]
    ensures i < |targets| && j < |targets[i]|
    ensures Offset(nc, j) + i < |FillParts(targets, nc, pos)|
    ensures FillParts(targets, nc, pos)[Offset(nc, j) + i] == targets[i][j]
    decreases pos
  {
    SumPrefixStep(nc, pos - 1);
    if j < pos - 1 {
      FillPartsAt(targets, nc, pos - 1, j, i);
    }
  }

  /** Output of `resource_kernel_likelihood_precomputations`. */
  datatype Precomputed = Precomputed(ydims: seq<nat>, numConfigs: seq<nat>, yflat: seq<real>)

  /** The ways the precomputation fails, in the order the code meets them. */
  datatype PrecomputeError =
    | NoTargets               // `ydims[0]` on an empty list (IndexError)
    | EmptyFirstTarget        // `num_configs[0]` when `ydims[0] == 0` (IndexError)
    | EmptyTarget             // assertion `num_configs[0] == len(targets)`
    | TargetLongerThanFirst   // assertion `total_size == sum(ydims)`
    | UnsortedTargets         // `y[pos]` out of range in the fill loop (IndexError)

  /** Every target has at least one entry. */
  predicate AllNonEmpty(targets: seq<seq<real>>)
  {
    forall i :: 0 <= i < |targets| ==> |targets[i]| > 0
  }

  /** No target is longer than the first. */
  predicate NoneLongerThanFirst(targets: seq<seq<real>>)
    requires |targets| > 0
  {
    forall i :: 0 <= i < |targets| ==> |targets[i]| <= |targets[0]|
  }

  /** Inputs the precomputation accepts: non-empty, every target non-empty, sorted by non-increasing length. */
  predicate SortedTargets(targets: seq<seq<real>>)
  {
    && |targets| > 0
    && AllNonEmpty(targets)
    && NonIncreasing(Lengths(targets))
  }

  /** What the precomputation guarantees of its output, stated without reference to any targets. */
  predicate ValidLayout(p: Precomputed)
  {
    && (forall i :: 0 <= i < |p.ydims| ==> p.ydims[i] > 0)
    && NonIncreasing(p.ydims)
    && p.numConfigs == NumConfigs(p.ydims, if |p.ydims| == 0 then 0 else p.ydims[0])
    && |p.yflat| == Sum(p.numConfigs)
  }

  /** `ydims` are the lengths of the targets. */
  predicate LengthsOf(targets: seq<seq<real>>, p: Precomputed)
  {
    && |p.ydims| == |targets| > 0
    && (forall i :: 0 <= i < |targets| ==> p.ydims[i] == |targets[i]|)
  }

  /**
   * `num_configs[j]` counts exactly the configurations with more than `j`
   * targets, which are the first ones; the counts never increase, all
   * configurations are counted at 0 and some at the last resource.
   */
  predicate CountsOf(targets: seq<seq<real>>, p: Precomputed)
  {
    && |p.numConfigs| > 0
    && (forall j, i :: 0 <= j < |p.numConfigs| && 0 <= i < |targets| ==>
          (i < p.numConfigs[j] <==> |targets[i]| > j))
    && NonIncreasing(p.numConfigs)
    && p.numConfigs[0] == |targets|
    && p.numConfigs[|p.numConfigs| - 1] > 0
  }

  /**
   * Total size is preserved, the fill loop ends with `off == total_size`, and
   * part `j` of `yflat` holds `targets[i][j]` for `i < num_configs[j]`.
   */
  predicate PartsOf(targets: seq<seq<real>>, p: Precomputed)
  {
    && |p.yflat| == Sum(p.numConfigs)
    && PartEntries(targets, p)
  }

  predicate PartEntries(targets: seq<seq<real>>, p: Precomputed)
  {
    forall j, i | 0 <= j < |p.numConfigs| && 0 <= i < p.numConfigs[j] :: EntryAt(targets, p, j, i)
  }

  /** Entry `i` of part `j` is `targets[i][j]`. */
  predicate EntryAt(targets: seq<seq<real>>, p: Precomputed, j: int, i: int)
  {
    0 <= j < |p.numConfigs| && 0 <= i < p.numConfigs[j] ==>
      Offset(p.numConfigs, j) + i < |p.yflat| && i < |targets| && j < |targets[i]| &&
      p.yflat[Offset(p.numConfigs, j) + i] == targets[i][j]
  }

  /** How `p` lays out `targets`. */
  predicate FlattensTo(targets: seq<seq<real>>, p: Precomputed)
  {
    && LengthsOf(targets, p)
    && |p.numConfigs| == p.ydims[0]
    && CountsOf(targets, p)
    && Sum(p.numConfigs) == Sum(p.ydims)
    && PartsOf(targets, p)
  }

  /** `resource_kernel_likelihood_precomputations(targets)` */
  function Precompute(targets: seq<seq<real>>): (r: Result<Precomputed, PrecomputeError>)
    ensures r.Success? <==> SortedTargets(targets)
    ensures r == Failure(NoTargets) <==> |targets| == 0
    ensures r == Failure(EmptyFirstTarget) <==> |targets| > 0 && |targets[0]| == 0
    ensures r == Failure(EmptyTarget) <==>
      && |targets| > 0 && |targets[0]| > 0
      && exists i :: 0 <= i < |targets| && |targets[i]| == 0
    ensures r == Failure(TargetLongerThanFirst) <==>
      && |targets| > 0 && AllNonEmpty(targets)
      && exists i :: 0 <= i < |targets| && |targets[i]| > |targets[0]|
    ensures r == Failure(UnsortedTargets) <==>
      && |targets| > 0 && AllNonEmpty(targets) && NoneLongerThanFirst(targets)
      && !SortedTargets(targets)
    ensures r.Success? ==> ValidLayout(r.value) && FlattensTo(targets, r.value)
  {
    if |targets| == 0 then Failure(NoTargets)
    else
      var ydims := Lengths(targets);
      var ydimMax := ydims[0];
      var nc := NumConfigs(ydims, ydimMax);
      if |nc| == 0 then Failure(EmptyFirstTarget)
      else if nc[0] != |targets| then
        CountAboveAll(ydims, 0);
        Failure(EmptyTarget)
      else
        CountAboveAll(ydims, 0);
        assert AllNonEmpty(targets);
        SumNumConfigs(ydims, ydimMax);
        ClippedTotalVersusSum(ydims, ydimMax);
        if Sum(nc) != Sum(ydims) then Failure(TargetLongerThanFirst)
        else if !FillInRange(targets, nc) then
          SortedFillsInRange(targets, ydims, ydimMax);
          Failure(UnsortedTargets)
        else
          var p := Precomputed(ydims, nc, FillParts(targets, nc, |nc|));
          PrecomputeSucceeds(targets, p);
          Success(p)
  }

  /** The checks of the precomputation pass exactly on sorted targets, and then its output lays them out. */
  lemma PrecomputeSucceeds(targets: seq<seq<real>>, p: Precomputed)
    requires |targets| > 0
    requires p.ydims == Lengths(targets)
    requires p.numConfigs == NumConfigs(p.ydims, p.ydims[0])
    requires |p.numConfigs| > 0 && p.numConfigs[0] == |targets|
    requires Sum(p.numConfigs) == Sum(p.ydims)
    requires FillInRange(targets, p.numConfigs)
    requires p.yflat == FillParts(targets, p.numConfigs, |p.numConfigs|)
    ensures SortedTargets(targets)
    ensures ValidLayout(p)
    ensures FlattensTo(targets, p)
  {
    PassedChecksAreSorted(targets, p.ydims);
    SortedTargetCounts(targets, p);
    FilledLayout(targets, p);
  }

  lemma SortedTargetCounts(targets: seq<seq<real>>, p: Precomputed)
    requires SortedTargets(targets)
    requires p.ydims == Lengths(targets)
    requires p.numConfigs == NumConfigs(p.ydims, p.ydims[0])
    ensures LengthsOf(targets, p)
    ensures CountsOf(targets, p)
  {
    assert NonIncreasing(p.ydims);
    SortedCounts(p.ydims);
  }

  lemma FilledLayout(targets: seq<seq<real>>, p: Precomputed)
    requires FillInRange(targets, p.numConfigs)
    requires p.yflat == FillParts(targets, p.numConfigs, |p.numConfigs|)
    ensures PartsOf(targets, p)
  {
    var nc := p.numConfigs;
    assert nc[..|nc|] == nc;
    assert |p.yflat| == Sum(nc);
    forall j, i | 0 <= j < |nc| && 0 <= i < nc[j]
      ensures EntryAt(targets, p, j, i)
    {
      FillPartsAt(targets, nc, |nc|, j, i);
    }
  }

  lemma PassedChecksAreSorted(targets: seq<seq<real>>, ydims: seq<nat>)
    requires |targets| > 0
    requires ydims == Lengths(targets)
    requires CountAbove(ydims, 0) == |targets|
    requires Sum(NumConfigs(ydims, ydims[0])) == Sum(ydims)
    requires FillInRange(targets, NumConfigs(ydims, ydims[0]))
    ensures SortedTargets(targets)
  {
    var m := ydims[0];
    CountAboveAll(ydims, 0);
    SumNumConfigs(ydims, m);
    ClippedTotalVersusSum(ydims, m);
    FillInRangeIsSorted(targets, ydims, m);
  }

  /** Counts of sorted, positive lengths: prefixes, non-increasing, all configurations at 0, some at the last resource. */
  lemma SortedCounts(ydims: seq<nat>)
    requires |ydims| > 0
    requires forall i :: 0 <= i < |ydims| ==> ydims[i] > 0
    requires NonIncreasing(ydims)
    ensures var nc := NumConfigs(ydims, ydims[0]);
      && (forall j, i :: 0 <= j < |nc| && 0 <= i < |ydims| ==> (i < nc[j] <==> ydims[i] > j))
      && NonIncreasing(nc)
      && nc[0] == |ydims|
      && nc[|nc| - 1] > 0
  {
    var m := ydims[0];
    var nc := NumConfigs(ydims, m);
    SortedCountsArePrefixes(ydims);
    CountAboveAll(ydims, 0);
    CountAboveAtLeast(ydims, m - 1, 1);
    forall j, j' | 0 <= j <= j' < |nc| && nc[j'] > 0
      ensures nc[j'] <= nc[j]
    {
      assert ydims[nc[j'] - 1] > j';
    }
  }

  // ---------------------------------------------------------------------------
  // Counting lemmas

  /** If the first `c` entries exceed `j`, at least `c` entries do. */
  lemma {:induction false} CountAboveAtLeast(s: seq<nat>, j: int, c: nat)
    requires c <= |s|
    requires forall i :: 0 <= i < c ==> s[i] > j
    ensures CountAbove(s, j) >= c
  {
    if |s| > 0 {
      var p := s[..|s| - 1];
      CountAboveAtLeast(p, j, if c == |s| then c - 1 else c);
    }
  }

  /** All entries exceed `j` exactly when the count is the full length. */
  lemma {:induction false} CountAboveAll(s: seq<nat>, j: int)
    ensures CountAbove(s, j) == |s| <==> forall i :: 0 <= i < |s| ==> s[i] > j
  {
    if |s| > 0 {
      var p := s[..|s| - 1];
      CountAboveAll(p, j);
      assert forall i :: 0 <= i < |p| ==> p[i] == s[i];
    }
  }

  /**
   * When the first `CountAbove(s, j)` entries all exceed `j`, they are all the
   * entries that do: every other index holds a value at most `j`.
   */
  lemma {:induction false} CountedEntriesComeFirst(s: seq<nat>, j: int)
    requires forall i :: 0 <= i < CountAbove(s, j) ==> s[i] > j
    ensures forall k :: 0 <= k < |s| && s[k] > j ==> k < CountAbove(s, j)
  {
    if |s| > 0 {
      var n := |s|;
      var p := s[..n - 1];
      var c := CountAbove(s, j);
      if s[n - 1] > j {
        CountAboveAtLeast(p, j, if c <= n - 1 then c else n - 1);
        assert c == n;
      } else {
        assert CountAbove(p, j) == c;
        CountedEntriesComeFirst(p, j);
      }
    }
  }

  /** For sorted lengths, the configurations with more than `j` targets are the first `CountAbove(s, j)`. */
  lemma SortedCountsArePrefixes(s: seq<nat>)
    requires NonIncreasing(s)
    ensures forall j, i :: 0 <= i < |s| ==> (i < CountAbove(s, j) <==> s[i] > j)
  {
  }

  /** Sorted, positive targets no longer than the first never make the fill loop read out of range. */
  lemma SortedFillsInRange(targets: seq<seq<real>>, ydims: seq<nat>, m: nat)
    requires ydims == Lengths(targets)
    ensures SortedTargets(targets) ==> FillInRange(targets, NumConfigs(ydims, m))
  {
    if SortedTargets(targets) {
      assert NonIncreasing(ydims);
      SortedCountsArePrefixes(ydims);
    }
  }

  /** Conversely, if the fill loop reads nothing out of range, the targets are sorted. */
  lemma FillInRangeIsSorted(targets: seq<seq<real>>, ydims: seq<nat>, m: nat)
    requires ydims == Lengths(targets)
    requires forall i :: 0 <= i < |ydims| ==> ydims[i] <= m
    requires FillInRange(targets, NumConfigs(ydims, m))
    ensures NonIncreasing(ydims)
  {
    var nc := NumConfigs(ydims, m);
    forall i, k | 0 <= i <= k < |ydims| && ydims[k] > 0
      ensures ydims[k] <= ydims[i]
    {
      var j := ydims[k] - 1;
      assert j < |nc|;
      assert nc[j] == CountAbove(ydims, j);
      forall i' | 0 <= i' < nc[j]
        ensures ydims[i'] > j
      {
        assert j < |targets[i']|;
      }
      CountedEntriesComeFirst(ydims, j);
    }
  }

  // ---------------------------------------------------------------------------
  // Exchange of summation: summing the counts over resources equals summing
  // the lengths over configurations.

  function Min(a: int, b: int): int
  {
    if a <= b then a else b
  }

  /** `sum_i min(ydims[i], m)` */
  function ClippedTotal(ydims: seq<nat>, m: nat): int
  {
    if |ydims| == 0 then 0
    else ClippedTotal(ydims[..|ydims| - 1], m) + Min(ydims[|ydims| - 1], m)
  }

  lemma {:induction false} ClippedTotalStep(ydims: seq<nat>, m: nat)
    ensures ClippedTotal(ydims, m + 1) == ClippedTotal(ydims, m) + CountAbove(ydims, m)
  {
    if |ydims| > 0 {
      ClippedTotalStep(ydims[..|ydims| - 1], m);
    }
  }

  /** `sum_j num_configs[j] == sum_i min(ydims[i], m)` */
  lemma {:induction false} SumNumConfigs(ydims: seq<nat>, m: nat)
    ensures Sum(NumConfigs(ydims, m)) == ClippedTotal(ydims, m)
  {
    if m == 0 {
      assert ClippedTotal(ydims, 0) == 0 by {
        ClippedTotalZero(ydims);
      }
    } else {
      SumNumConfigs(ydims, m - 1);
      assert NumConfigs(ydims, m) == NumConfigs(ydims, m - 1) + [CountAbove(ydims, m - 1)];
      SumSnoc(NumConfigs(ydims, m - 1), CountAbove(ydims, m - 1));
      ClippedTotalStep(ydims, m - 1);
    }
  }

  lemma {:induction false} ClippedTotalZero(ydims: seq<nat>)
    ensures ClippedTotal(ydims, 0) == 0
  {
    if |ydims| > 0 {
      ClippedTotalZero(ydims[..|ydims| - 1]);
    }
  }

  /** Clipping at `m` loses nothing exactly when no length exceeds `m`. */
  lemma {:induction false} ClippedTotalVersusSum(ydims: seq<nat>, m: nat)
    ensures ClippedTotal(ydims, m) <= Sum(ydims)
    ensures ClippedTotal(ydims, m) == Sum(ydims) <==> forall i :: 0 <= i < |ydims| ==> ydims[i] <= m
  {
    if |ydims| > 0 {
      var p := ydims[..|ydims| - 1];
      ClippedTotalVersusSum(p, m);
      assert forall i :: 0 <= i < |p| ==> p[i] == ydims[i];
    }
  }

  /** `sum_i sum_{j < min(ydims[i], m)} a[j]` */
  function ClippedPrefixSums(a: seq<real>, ydims: seq<nat>, m: nat): real
    requires m <= |a|
  {
    if |ydims| == 0 then 0.0
    else ClippedPrefixSums(a, ydims[..|ydims| - 1], m) + SumR(a[..Min(ydims[|ydims| - 1], m)])
  }

  /** `sum_i sum_{j < ydims[i]} a[j]`: the sum over configurations of the sum over their own resources. */
  function PrefixSums(a: seq<real>, ydims: seq<nat>): real
    requires forall i :: 0 <= i < |ydims| ==> ydims[i] <= |a|
  {
    if |ydims| == 0 then 0.0
    else PrefixSums(a, ydims[..|ydims| - 1]) + SumR(a[..ydims[|ydims| - 1]])
  }

  /** `sum_j w[j] * a[j]`, the `_inner_product` of integer weights with a real vector. */
  function WeightedSum(w: seq<nat>, a: seq<real>): real
    requires |w| == |a|
  {
    if |w| == 0 then 0.0
    else WeightedSum(w[..|w| - 1], a[..|a| - 1]) + Scale(w[|w| - 1], a[|a| - 1])
  }

  /** `n * x` for a count `n`, as `n` repeated additions so that the proofs stay linear. */
  function Scale(n: nat, x: real): real
  {
    if n == 0 then 0.0 else Scale(n - 1, x) + x
  }

  lemma {:induction false} ScaleIsProduct(n: nat, x: real)
    ensures Scale(n, x) == (n as real) * x
  {
    if n > 0 {
      ScaleIsProduct(n - 1, x);
      assert (n as real) * x == ((n - 1) as real) * x + x;
    }
  }

  /** The weights as a real vector. */
  function AsReals(w: seq<nat>): (r: seq<real>)
    ensures |r| == |w|
    ensures forall j :: 0 <= j < |w| ==> r[j] == w[j] as real
  {
    seq(|w|, j requires 0 <= j < |w| => w[j] as real)
  }

  /** `WeightedSum` is the inner product `sum_j w[j] * a[j]` of the weights with `a`. */
  lemma {:induction false} WeightedSumIsDot(w: seq<nat>, a: seq<real>)
    requires |w| == |a|
    ensures WeightedSum(w, a) == Dot(AsReals(w), a)
  {
    if |w| > 0 {
      var n := |w|;
      WeightedSumIsDot(w[..n - 1], a[..n - 1]);
      assert AsReals(w)[..n - 1] == AsReals(w[..n - 1]);
      ScaleIsProduct(w[n - 1], a[n - 1]);
    }
  }

  lemma {:induction false} ClippedPrefixSumsStep(a: seq<real>, ydims: seq<nat>, m: nat)
    requires m < |a|
    ensures ClippedPrefixSums(a, ydims, m + 1) == ClippedPrefixSums(a, ydims, m) + Scale(CountAbove(ydims, m), a[m])
  {
    if |ydims| > 0 {
      var p := ydims[..|ydims| - 1];
      var d := ydims[|ydims| - 1];
      ClippedPrefixSumsStep(a, p, m);
      if d > m {
        SumRPrefixStep(a, m);
      } else {
        assert Min(d, m + 1) == Min(d, m);
      }
    }
  }

  lemma {:induction false} ClippedPrefixSumsZero(a: seq<real>, ydims: seq<nat>)
    ensures ClippedPrefixSums(a, ydims, 0) == 0.0
  {
    if |ydims| > 0 {
      ClippedPrefixSumsZero(a, ydims[..|ydims| - 1]);
    }
  }

  /** Weighting `a[j]` by `num_configs[j]` sums `a` over every configuration's own resources, clipped at `m`. */
  lemma {:induction false} WeightedCountsExchange(a: seq<real>, ydims: seq<nat>, m: nat)
    requires m <= |a|
    ensures WeightedSum(NumConfigs(ydims, m), a[..m]) == ClippedPrefixSums(a, ydims, m)
  {
    if m == 0 {
      ClippedPrefixSumsZero(a, ydims);
    } else {
      WeightedCountsExchange(a, ydims, m - 1);
      assert NumConfigs(ydims, m)[..m - 1] == NumConfigs(ydims, m - 1);
      assert a[..m][..m - 1] == a[..m - 1];
      ClippedPrefixSumsStep(a, ydims, m - 1);
    }
  }

  lemma {:induction false} ClippedPrefixSumsUnclipped(a: seq<real>, ydims: seq<nat>, m: nat)
    requires m <= |a|
    requires forall i :: 0 <= i < |ydims| ==> ydims[i] <= m
    ensures ClippedPrefixSums(a, ydims, m) == PrefixSums(a, ydims)
  {
    if |ydims| > 0 {
      ClippedPrefixSumsUnclipped(a, ydims[..|ydims| - 1], m);
    }
  }

  // ---------------------------------------------------------------------------
  // Reading the targets back out of `yflat`

  /** Facts about a valid layout that every reader of `yflat` needs. */
  lemma LayoutFacts(p: Precomputed)
    requires ValidLayout(p)
    ensures forall j, i :: 0 <= j < |p.numConfigs| && 0 <= i < |p.ydims| ==>
      (i < p.numConfigs[j] <==> p.ydims[i] > j)
    ensures forall i :: 0 <= i < |p.ydims| ==> p.ydims[i] <= |p.numConfigs|
    ensures forall j :: 0 <= j < |p.numConfigs| ==> Offset(p.numConfigs, j) + p.numConfigs[j] <= |p.yflat|
    ensures NonIncreasing(p.numConfigs)
    ensures |p.ydims| > 0 ==> |p.numConfigs| > 0 && p.numConfigs[0] == |p.ydims|
  {
    SortedCountsArePrefixes(p.ydims);
    if |p.ydims| > 0 {
      SortedCounts(p.ydims);
    }
    forall j | 0 <= j < |p.numConfigs|
      ensures Offset(p.numConfigs, j) + p.numConfigs[j] <= |p.yflat|
    {
      SumPrefixStep(p.numConfigs, j);
      SumPrefixMonotone(p.numConfigs, j + 1, |p.numConfigs|);
      assert p.numConfigs[..|p.numConfigs|] == p.numConfigs;
    }
  }

  /** There is a part per resource up to the largest target size, and part 0 has every configuration. */
  lemma LayoutStart(p: Precomputed)
    requires ValidLayout(p)
    ensures |p.numConfigs| > 0 <==> |p.ydims| > 0
    ensures |p.ydims| > 0 ==> |p.numConfigs| == p.ydims[0] && p.numConfigs[0] == |p.ydims| <= |p.yflat|
  {
    LayoutFacts(p);
    if |p.ydims| > 0 {
      assert Offset(p.numConfigs, 0) == 0 by { assert p.numConfigs[..0] == []; }
    }
  }

  /** Fewer configurations have at least `j + 1` targets than have at least `j`. */
  lemma CountsShrink(p: Precomputed, j: nat)
    requires ValidLayout(p)
    requires 0 < j < |p.numConfigs|
    ensures p.numConfigs[j] <= p.numConfigs[j - 1]
  {
    LayoutFacts(p);
  }

  /** The targets of configuration `i`, read back out of `yflat`. */
  function Column(p: Precomputed, i: nat): (y: seq<real>)
    requires ValidLayout(p)
    requires i < |p.ydims|
    ensures |y| == p.ydims[i]
  {
    LayoutFacts(p);
    seq(p.ydims[i], j requires 0 <= j < p.ydims[i] => p.yflat[Offset(p.numConfigs, j) + i])
  }

  /** Entry `j` of part `j`'s `i`-th slot is target `j` of configuration `i`, for `i < num_configs[j]`. */
  lemma ColumnAt(p: Precomputed, i: nat, j: nat)
    requires ValidLayout(p)
    requires j < |p.numConfigs| && i < p.numConfigs[j]
    ensures i < |p.ydims| && j < p.ydims[i]
    ensures Offset(p.numConfigs, j) + i < |p.yflat|
    ensures Column(p, i)[j] == p.yflat[Offset(p.numConfigs, j) + i]
  {
    LayoutFacts(p);
  }

  /**
   * The configurations counted at resource `j - 1` but not at `j` (or, after
   * the last resource, all still counted) have exactly `j` targets.
   */
  lemma DoneLength(p: Precomputed, j: nat, i: nat)
    requires ValidLayout(p)
    requires 1 <= j <= |p.numConfigs|
    requires (if j < |p.numConfigs| then p.numConfigs[j] else 0) <= i < p.numConfigs[j - 1]
    ensures i < |p.ydims| && p.ydims[i] == j
  {
    LayoutFacts(p);
  }

  /** All configurations' targets, read back out of `yflat`. */
  function Columns(p: Precomputed): (ys: seq<seq<real>>)
    requires ValidLayout(p)
    ensures |ys| == |p.ydims|
    ensures forall i :: 0 <= i < |p.ydims| ==> |ys[i]| == p.ydims[i]
  {
    seq(|p.ydims|, i requires 0 <= i < |p.ydims| => Column(p, i))
  }

  /** Target `j` of configuration `i` is read back out of a layout of the targets. */
  lemma ColumnEntry(targets: seq<seq<real>>, p: Precomputed, i: nat, j: nat)
    requires ValidLayout(p)
    requires LengthsOf(targets, p) && CountsOf(targets, p) && PartsOf(targets, p)
    requires i < |targets| && j < |targets[i]|
    ensures j < |Column(p, i)| && Column(p, i)[j] == targets[i][j]
  {
    assert i < p.numConfigs[j];
    assert EntryAt(targets, p, j, i);
    ColumnAt(p, i, j);
  }

  /** Configuration `i`'s targets are read back out of a layout of the targets. */
  lemma ColumnMatches(targets: seq<seq<real>>, p: Precomputed, i: nat)
    requires ValidLayout(p)
    requires LengthsOf(targets, p) && CountsOf(targets, p) && PartsOf(targets, p)
    requires i < |targets|
    ensures Column(p, i) == targets[i]
  {
    forall j | 0 <= j < |targets[i]|
      ensures Column(p, i)[j] == targets[i][j]
    {
      ColumnEntry(targets, p, i, j);
    }
  }

  /** Flattening is lossless: every configuration's targets can be read back from `yflat`. */
  lemma ColumnsRoundTrip(targets: seq<seq<real>>, p: Precomputed)
    requires Precompute(targets) == Success(p)
    ensures Columns(p) == targets
  {
    assert ValidLayout(p) && FlattensTo(targets, p);
    var ys := Columns(p);
    forall i | 0 <= i < |targets|
      ensures ys[i] == targets[i]
    {
      ColumnMatches(targets, p, i);
    }
  }
}
