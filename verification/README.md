# Freeze-Thaw resource-kernel likelihood and blackbox argument checks, in Dafny

This project models two pure, sequential parts of syne-tune and proves properties of them.

**1. The Freeze-Thaw resource-kernel likelihood** (`learncurve/freeze_thaw.py`). Each configuration has a
vector of targets, one per resource level it reached.
- `resource_kernel_likelihood_precomputations` lays the targets out for the fast path. It records the
  target sizes `ydims` and the counts `num_configs[j]` of configurations with more than `j` targets.
  It also builds `yflat`, which holds the targets resource by resource.
- `resource_kernel_likelihood_computations` (the fast path) does one pass over the resources. It grows the
  vector `v = L^-1 1` and the matrix `W` of the vectors `w_i = L^-1 (y_i - means)` by one
  forward-substitution step each, where `L` is the Cholesky factor of the largest kernel matrix. When a
  group of configurations has no more targets, their `w^T v` and `|w|^2` are collected. The groups come
  out last-first, so they are concatenated in reverse.
- `resource_kernel_likelihood_slow_computations` (the slow path) does two triangular solves per
  configuration with the upper-left block of `L`. It is the reference for the fast path.
- `logdet_cholfact_cov_resource` computes `sum_i log det(L[:ydims[i], :ydims[i]])` by weighting the
  diagonal of the one factor with the counts.
- The constructor of `ExponentialDecayBaseKernelFunction` checks the resource range, and `_normalize`
  maps resources into the unit interval.

The factor `L` and the means are inputs: any square matrix whose diagonal is non-zero, of which only the
lower triangle is read. Arithmetic is over exact reals. The two paths are shown to return the same
result whenever the slow path returns one.

**2. `Blackbox.objective_function`** (`blackbox_repository/blackbox.py`). It checks the keys of a
configuration dict and of a fidelity dict against their spaces. It enforces the rules for when a
fidelity may be omitted or given, and rewrites a bare numeric fidelity into a one-key dict.
`from_function` builds a blackbox whose `objective_function` skips all of this.

Modules:
- `Wrappers`: `Option`, `Result` and `Outcome`.
- `Sums`: sums, inner products, `cumsum`, concatenation.
- `Triangular`: forward substitution.
- `ResourceLayout`: the precomputation and the counting lemmas.
- `Likelihood`: the per-configuration quantities both paths compute.
- `FastPath` and `SlowPath`.
- `PathsAgreement`: the fast path against the slow path.
- `LogDet`.
- `BaseKernel`.
- `Blackbox`.

## Model

Source paths are relative to the repository root. `freeze_thaw.py` is
`syne_tune/optimizer/schedulers/searchers/bayesopt/gpautograd/learncurve/freeze_thaw.py`.

| member | source | states |
|---|---|---|
| ResourceLayout.Precompute | syne_tune/optimizer/schedulers/searchers/bayesopt/gpautograd/learncurve/freeze_thaw.py:157-196 | Succeeds exactly on a non-empty list of non-empty targets sorted by non-increasing length. Each error is stated as an if-and-only-if, in the order the code meets them. An empty list fails on `ydims[0]`. An empty first target fails on `num_configs[0]`. Otherwise some empty target fails the assertion `num_configs[0] == len(targets)`. Otherwise a target longer than the first fails the assertion `total_size == sum(ydims)`. Otherwise the targets are unsorted, and the fill loop reads out of range. On success, `ydims` are the lengths. `num_configs[j]` counts the configurations with more than `j` targets: these are the first ones, the counts never increase, `num_configs[0]` is the number of configurations and the last count is positive. `sum(num_configs) == sum(ydims) == len(yflat)`, and `yflat[S_j + i] == targets[i][j]` |
| ResourceLayout.PrecomputeSucceeds | syne_tune/optimizer/schedulers/searchers/bayesopt/gpautograd/learncurve/freeze_thaw.py:173-192 | When the code's assertions and the fill loop's indexing pass, the targets were sorted and the output lays them out as above |
| ResourceLayout.SortedCounts | syne_tune/optimizer/schedulers/searchers/bayesopt/gpautograd/learncurve/freeze_thaw.py:173-179 | For sorted positive lengths: `i < num_configs[j]` exactly when `ydims[i] > j`, the counts never increase, `num_configs[0] == len(targets)` and `num_configs[-1] > 0`, so both assertions hold |
| ResourceLayout.SumNumConfigs | syne_tune/optimizer/schedulers/searchers/bayesopt/gpautograd/learncurve/freeze_thaw.py:175-180 | The total of the counts up to `m` is `sum_i min(ydims[i], m)` |
| ResourceLayout.ClippedTotalVersusSum | syne_tune/optimizer/schedulers/searchers/bayesopt/gpautograd/learncurve/freeze_thaw.py:180-181 | The clipped total never exceeds `sum(ydims)`, and equals it exactly when no target is longer than `m`, so `total_size == sum(ydims)` fails exactly on a target longer than the first |
| ResourceLayout.FillPartsAt | syne_tune/optimizer/schedulers/searchers/bayesopt/gpautograd/learncurve/freeze_thaw.py:183-191 | After the fill loop has written parts `0..pos-1`, entry `off_j + i` is `targets[i][j]` and in range |
| ResourceLayout.ColumnsRoundTrip | syne_tune/optimizer/schedulers/searchers/bayesopt/gpautograd/learncurve/freeze_thaw.py:165-167 | Reading configuration `i`'s entries back out of `yflat`, one per part, gives back `targets[i]`: the layout loses nothing |
| ResourceLayout.WeightedCountsExchange | syne_tune/optimizer/schedulers/searchers/bayesopt/gpautograd/learncurve/freeze_thaw.py:148-154 | `sum_j num_configs[j] * a[j] == sum_i sum_{j < min(ydims[i], m)} a[j]`, the exchange of summation behind the log-det weights |
| ResourceLayout.WeightedSumIsDot | syne_tune/optimizer/schedulers/searchers/bayesopt/gpautograd/learncurve/freeze_thaw.py:154 | The weighted sum used for the log-det term is the inner product `sum_j w[j] * a[j]` of the integer weights, as reals, with `a` |
| LogDet.LogDetCholfactCovResource | syne_tune/optimizer/schedulers/searchers/bayesopt/gpautograd/learncurve/freeze_thaw.py:137-154 | Fails on empty `ydims` (`max` of an empty list). Otherwise succeeds exactly when the diagonal has `max(ydims)` entries |
| LogDet.LogDetIsSumOfBlocks | syne_tune/optimizer/schedulers/searchers/bayesopt/gpautograd/learncurve/freeze_thaw.py:137-154 | The weighted inner product equals the sum over configurations of the log-determinant of their own upper-left block of `L` |
| LogDet.WeightsAreCounts | syne_tune/optimizer/schedulers/searchers/bayesopt/gpautograd/learncurve/freeze_thaw.py:148-152 | On a precomputed layout the weights `w_j` are the counts `num_configs[j]` |
| LogDet.LogDetOfLikelihood | syne_tune/optimizer/schedulers/searchers/bayesopt/gpautograd/learncurve/freeze_thaw.py:145-150 | The term is defined on every likelihood result whose factor is sized for the longest target |
| Triangular.ForwardSolveSolves | syne_tune/optimizer/schedulers/searchers/bayesopt/gpautograd/learncurve/freeze_thaw.py:327-332 | Forward substitution solves the lower-triangular system `L x = b` |
| Triangular.ForwardSolveUnique | syne_tune/optimizer/schedulers/searchers/bayesopt/gpautograd/learncurve/freeze_thaw.py:327-332 | Any solution of the lower-triangular system is the forward-substitution result, so it is what `solve_triangular(lower=True)` returns |
| Triangular.ForwardSolvePrefix | syne_tune/optimizer/schedulers/searchers/bayesopt/gpautograd/learncurve/freeze_thaw.py:268-275 | Solving for the first `k` right-hand-side entries gives the first `k` solution entries |
| Triangular.ForwardSolveSubmatrix | syne_tune/optimizer/schedulers/searchers/bayesopt/gpautograd/learncurve/freeze_thaw.py:327-329 | Solving with the block `L[:k, :k]` gives what solving with `L` gives |
| Likelihood.VVecSnoc | syne_tune/optimizer/schedulers/searchers/bayesopt/gpautograd/learncurve/freeze_thaw.py:268-275 | `v` for `d + 1` resources is `v` for `d` plus the entry `(1 - lvec . v) * ilscal` |
| Likelihood.WVecSnoc | syne_tune/optimizer/schedulers/searchers/bayesopt/gpautograd/learncurve/freeze_thaw.py:266-271 | `w` for one more target is `w` plus the entry `(rhs - lvec . w) * ilscal` |
| Likelihood.VVecPrefix | syne_tune/optimizer/schedulers/searchers/bayesopt/gpautograd/learncurve/freeze_thaw.py:280-281 | The `v` of a shorter configuration is a prefix of the longest `v` |
| Likelihood.DescribesUnique | syne_tune/optimizer/schedulers/searchers/bayesopt/gpautograd/learncurve/freeze_thaw.py:283-292 | Two results describing the same configurations are equal |
| FastPath.LikelihoodComputations | syne_tune/optimizer/schedulers/searchers/bayesopt/gpautograd/learncurve/freeze_thaw.py:199-293 | Fails with no configurations and with `r_max < r_min`, and succeeds otherwise. On success, the targets are those read from `yflat` and there is one entry per configuration, in input order: `vtv = |v_i|^2`, `wtv = w_i^T v_i`, `wtw = |w_i|^2`. Also `num_data == sum(ydims)`, the factor and `ydims` are returned, and `c`, `d` are zero vectors unless skipped |
| FastPath.FinishedColumns | syne_tune/optimizer/schedulers/searchers/bayesopt/gpautograd/learncurve/freeze_thaw.py:245-279 | After the loop and the last flush, `v` solves `L v = 1`. The reversed concatenation of the collected groups gives `w^T v` and `|w|^2` of configurations `0..n-1`, in order |
| FastPath.ResourceStep | syne_tune/optimizer/schedulers/searchers/bayesopt/gpautograd/learncurve/freeze_thaw.py:257-275 | One pass keeps the loop state. `off` becomes the start of the next part. `W` keeps exactly the still-running configurations, each column one forward-substitution step further. `v` grows by one entry. The collected groups cover exactly the finished configurations |
| FastPath.FirstStep | syne_tune/optimizer/schedulers/searchers/bayesopt/gpautograd/learncurve/freeze_thaw.py:247-250 | The initial `v`, `W` and `off` are the state after resource 0 |
| FastPath.NextRow | syne_tune/optimizer/schedulers/searchers/bayesopt/gpautograd/learncurve/freeze_thaw.py:266-271 | `yflat[off:off+num]` is part `ydim`, it is in range, and appending `w_new` advances every running column by one target |
| FastPath.Flush | syne_tune/optimizer/schedulers/searchers/bayesopt/gpautograd/learncurve/freeze_thaw.py:258-264 | Dropping the columns `[num, num_prev)` extends the collected results to configurations `num..n-1` and leaves the running columns intact |
| FastPath.DoneColumns | syne_tune/optimizer/schedulers/searchers/bayesopt/gpautograd/learncurve/freeze_thaw.py:260-262 | The finished columns give exactly `w_i^T v_i` and `|w_i|^2` for their configurations |
| FastPath.VtvFromCumSum | syne_tune/optimizer/schedulers/searchers/bayesopt/gpautograd/learncurve/freeze_thaw.py:280-281 | `cumsum(square(v))[ydims[i] - 1]` is `|v_i|^2` of configuration `i` |
| SlowPath.SlowComputations | syne_tune/optimizer/schedulers/searchers/bayesopt/gpautograd/learncurve/freeze_thaw.py:296-347 | Fails on no configurations, or at the first configuration whose size is outside `(0, num_res]`, and succeeds exactly when every size is in range. On success the same description holds as for the fast path |
| SlowPath.ConfigurationTerms | syne_tune/optimizer/schedulers/searchers/bayesopt/gpautograd/learncurve/freeze_thaw.py:327-335 | The two block solves give `|v|^2`, `w^T v` and `|w|^2` of the configuration |
| SlowPath.SolvesWithBlock | syne_tune/optimizer/schedulers/searchers/bayesopt/gpautograd/learncurve/freeze_thaw.py:327-332 | Solving with `L[:ydim, :ydim]` and `means_all[:ydim]` gives the configuration's `v` and `w` |
| PathsAgreement.ComparePaths | syne_tune/optimizer/schedulers/searchers/bayesopt/gpautograd/learncurve/freeze_thaw.py:199-347 | On the same sorted targets, factor and means: the fast path succeeds exactly when `r_min <= r_max`, and the slow path exactly when it also accepts every target size. When the slow path succeeds, the fast path returns the same result. When only the fast path succeeds, a target was longer than the resource range |
| PathsAgreement.PrecomputedInputs | syne_tune/optimizer/schedulers/searchers/bayesopt/gpautograd/learncurve/freeze_thaw.py:237-243 | A factor sized `max(ydims)` (slow path) is the factor sized `ydims[0]` (fast path), and the fast path reads the original targets |
| PathsAgreement.AcceptanceRelation | syne_tune/optimizer/schedulers/searchers/bayesopt/gpautograd/learncurve/freeze_thaw.py:323-325 | The slow path accepts exactly when the fast path accepts and the longest target fits into `num_res` |
| PathsAgreement.FastSkipsRangeCheck | syne_tune/optimizer/schedulers/searchers/bayesopt/gpautograd/learncurve/freeze_thaw.py:229-234 | Concrete input: one configuration with two targets and `r_min = r_max = 1` is accepted by the fast path and rejected by the slow one |
| BaseKernel.NewBaseKernel | syne_tune/optimizer/schedulers/searchers/bayesopt/gpautograd/learncurve/freeze_thaw.py:88-99 | Succeeds exactly when `r_max > r_min`. Then `[lower, lower + width]` strictly contains `[r_min, r_max]` and `width > 0`. Normalised 0 is `r_min - 1/2 + eps` and normalised 1 is `r_max + 1/2 - eps`. `r_min` defaults to 1 and `normalize_inputs` to false |
| BaseKernel.NormalizeInUnitInterval | syne_tune/optimizer/schedulers/searchers/bayesopt/gpautograd/learncurve/freeze_thaw.py:97-102 | Every resource in `[r_min, r_max]` normalises into the open interval `(0, 1)` |
| BaseKernel.NormalizeMonotone | syne_tune/optimizer/schedulers/searchers/bayesopt/gpautograd/learncurve/freeze_thaw.py:101-102 | Normalisation is strictly increasing |
| BaseKernel.NormalizeRoundTrip | syne_tune/optimizer/schedulers/searchers/bayesopt/gpautograd/learncurve/freeze_thaw.py:101-102 | Normalisation and `lower + u * width` are inverse to each other |
| Blackbox.CheckKeys | syne_tune/blackbox_repository/blackbox.py:103-115 | Passes exactly when every key of a dict fidelity is in the fidelity space and every key of a dict configuration is in the configuration space. Non-dict arguments are not checked. A non-empty fidelity dict without a fidelity space fails on `None.keys()`. Otherwise an unknown fidelity key gives the fidelity-key error exactly when there is one. An unknown configuration key gives the configuration-key error exactly when every fidelity key is known, because fidelity keys are checked first |
| Blackbox.CheckedArguments | syne_tune/blackbox_repository/blackbox.py:58-83 | Accepts exactly when the keys are known and the fidelity rules hold. The rules: no fidelity space means no fidelity; omitting the fidelity, or giving a number, needs exactly one fidelity name. Each violation gives its own error, and key errors come first. On success the configuration and seed are forwarded unchanged, and a number becomes a one-key dict whose key is in the fidelity space |
| Blackbox.ObjectiveFunction | syne_tune/blackbox_repository/blackbox.py:37-83 | Evaluates exactly on the accepted arguments, and otherwise reports the first failed check. The value is `_objective_function` on the configuration and seed as given. A number fidelity `x` is passed as `{fidelity_names[0]: x}`, and any other fidelity is passed unchanged. `fidelity` and `seed` default to `None` |
| Blackbox.CheckedArgumentsIdempotent | syne_tune/blackbox_repository/blackbox.py:67-76 | The rewritten arguments pass the checks again and come back unchanged |
| Blackbox.NumericFidelityKeyKnown | syne_tune/blackbox_repository/blackbox.py:58-76 | A numeric fidelity is never key-checked, and the dict replacing it has its key in the fidelity space |
| Blackbox.SingleFidelityMayBeOmitted | syne_tune/blackbox_repository/blackbox.py:61-65 | With one fidelity name, omitting the fidelity is accepted and nothing is filled in |
| Blackbox.FromFunction | syne_tune/blackbox_repository/blackbox.py:148-179 | The built blackbox has the given spaces and objective names |
| Blackbox.FromFunctionSkipsChecks | syne_tune/blackbox_repository/blackbox.py:171-177 | Its `objective_function` (`Blackbox.FunctionObjective`, lines 171-177) is `eval_fun` on the original arguments. It also evaluates arguments the base class rejects, such as a numeric fidelity without a fidelity space |

## Left out

- Cholesky factorisation, `solve_triangular`, the kernel and mean evaluations, the noise variance and `log`. These are floating-point numerics in code outside this model. `L` (any square matrix with non-zero diagonal) and `means_all` are parameters of both paths, and `log(diag(L))` is the parameter of `LogDetCholfactCovResource`.
- Exact reals replace floating point. No rounding, overflow or tolerance-based agreement is modelled.
- `FastPath.LikelihoodComputations`: the matrix `W` is held one column per configuration instead of row by row. The entries are the same.
- `FastPath.LikelihoodComputations`, `SlowPath.SlowComputations`: `c` and `d` are the zero vectors the code returns; no other values are modelled.
- The fast path has no check that target sizes fit into `r_max + 1 - r_min`, while the slow path does (line 324). `PathsAgreement.FastSkipsRangeCheck` exhibits the difference. It is recorded as behaviour, not as a defect: the fast path computes a well-defined result for such inputs.
- `LogDet.LogDetCholfactCovResource`: any length mismatch between `log(diag(L))` and the weights is reported as an error. The broadcasting numpy would apply when one side has length 1 is not modelled; `_inner_product` is not part of this model.
- `BaseKernel.NewBaseKernel`: the value of `EPS` is not part of this model. It is a parameter assumed to lie in `(0, 1/2)`, which the normalisation properties need.
- `BaseKernel`: `forward`, `diagonal`, `mean_function` and the parameter get/set methods only apply `_normalize` and delegate to the exponential-decay kernel, which is not part of this model. `ZeroKernel` and `ZeroMean` return constants.
- `Blackbox.CheckKeys`: errors carry no key name and no message text, and dict keys are unordered sets, so the model does not say which unknown key is reported first.
- `Blackbox`: the domains of the configuration and fidelity spaces are never consulted by the code and are not modelled. A space is its list of keys in dict order, and the `Space` type keeps them distinct, as dict keys are. A configuration that is not a dict, and a fidelity that is neither a dict, a number nor `None`, carry no value, because the code never looks into them.
- `Blackbox.__call__` forwards its arguments to `objective_function`. The model's `ObjectiveFunction` serves for both names, and a separate member would only repeat it.
- `Blackbox.fidelity_values` is the constant `None` in the base class. There is nothing to state about it.
- `_objective_function` and `hyperparameter_objectives_values` are stubs the subclasses override. `_objective_function` is the `evaluate` parameter of `ObjectiveFunction`.
