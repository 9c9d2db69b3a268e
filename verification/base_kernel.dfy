/**
 * `ExponentialDecayBaseKernelFunction`: the resource kernel of the
 * Freeze-Thaw likelihood over integer resources `r` in `[r_min, r_max]`.
 * Only its construction and the optional normalisation of inputs are
 * modelled; the kernel and mean values come from code outside this model.
 *
 * The normalisation maps the range, widened by half a step on either side
 * and narrowed again by a small constant `eps` (the code's `EPS`), onto
 * `[0, 1]`, so every resource lands strictly inside `(0, 1)`.
 */
module BaseKernel {
  import opened Wrappers

  /** The state the constructor sets up. */
  datatype BaseKernel = BaseKernel(rMin: int, rMax: int, lower: real, width: real, normalizeInputs: bool)

  /** The constructor's assertion `r_max > r_min`. */
  datatype KernelError = RangeNotIncreasing

  /** The small positive constant the code imports as `EPS`; only its range matters here. */
  predicate SmallConstant(eps: real)
  {
    0.0 < eps < 0.5
  }

  /** The interval `[lower, lower + width]` strictly contains the resource range `[r_min, r_max]`. */
  predicate CoversRange(k: BaseKernel)
  {
    && k.width > 0.0
    && k.lower < k.rMin as real
    && k.rMax as real < k.lower + k.width
  }

  /** `ExponentialDecayBaseKernelFunction(r_max, r_min, normalize_inputs)` */
  function NewBaseKernel(rMax: int, rMin: int := 1, normalizeInputs: bool := false, eps: real): (r: Result<BaseKernel, KernelError>)
    requires SmallConstant(eps)
    ensures r.Success? <==> rMin < rMax
    ensures r.Success? ==>
      && r.value.rMin == rMin && r.value.rMax == rMax
      && r.value.normalizeInputs == normalizeInputs
      && CoversRange(r.value)
    ensures r.Success? ==>
      && Denormalize(r.value, 0.0) == rMin as real - 0.5 + eps
      && Denormalize(r.value, 1.0) == rMax as real + 0.5 - eps
  {
    if !(rMax > rMin) then Failure(RangeNotIncreasing)
    else
      Success(BaseKernel(rMin, rMax,
                         rMin as real - 0.5 + eps,
                         (rMax - rMin + 1) as real - 2.0 * eps,
                         normalizeInputs))
  }

  /** `_normalize(X) = (X - lower) / width` */
  function Normalize(k: BaseKernel, x: real): real
    requires k.width > 0.0
  {
    (x - k.lower) / k.width
  }

  /** The inverse map, from `[0, 1]` back to resources. */
  function Denormalize(k: BaseKernel, u: real): real
  {
    k.lower + u * k.width
  }

  /** Every resource in `[r_min, r_max]` is normalised to a value strictly between 0 and 1. */
  lemma NormalizeInUnitInterval(k: BaseKernel, r: int)
    requires CoversRange(k)
    requires k.rMin <= r <= k.rMax
    ensures 0.0 < Normalize(k, r as real) < 1.0
  {
    var a := r as real - k.lower;
    assert 0.0 < a < k.width;
    QuotientBelowOne(a, k.width);
  }

  lemma QuotientBelowOne(a: real, w: real)
    requires 0.0 < a < w
    ensures 0.0 < a / w < 1.0
  {
    var q := a / w;
    assert q * w == a;
    PositiveFactor(q, w);
    PositiveFactor(1.0 - q, w);
  }

  lemma PositiveFactor(x: real, w: real)
    requires w > 0.0 && x * w > 0.0
    ensures x > 0.0
  {
  }

  /** Normalisation keeps the order of the inputs, strictly. */
  lemma NormalizeMonotone(k: BaseKernel, x: real, y: real)
    requires k.width > 0.0
    requires x < y
    ensures Normalize(k, x) < Normalize(k, y)
  {
  }

  /** Normalisation loses nothing: it is undone by `Denormalize`, and undoes it. */
  lemma NormalizeRoundTrip(k: BaseKernel, x: real, u: real)
    requires k.width > 0.0
    ensures Denormalize(k, Normalize(k, x)) == x
    ensures Normalize(k, Denormalize(k, u)) == u
  {
  }
}
