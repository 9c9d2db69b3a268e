/**
 * `Blackbox.objective_function`: the argument checks a blackbox makes before
 * it hands a configuration, a fidelity and a seed to the benchmark code, and
 * the rewriting of a bare numeric fidelity into a one-key dict.
 *
 * Spaces are represented by their keys in dict order; the domains of the
 * hyperparameters are never consulted by the code, so they are left out.
 */
module Blackbox {
  import opened Wrappers

  /** A hyperparameter or fidelity value. */
  datatype Value = Num(x: real) | Text(s: string)

  /**
   * A configuration: a dict, which is key-checked, or any other object, which
   * is not. The code never looks into a non-dict configuration.
   */
  datatype Configuration = ConfigDict(entries: map<string, Value>) | ConfigOther

  /**
   * The `fidelity` argument: `None`, a number, a dict, or any other object
   * (neither a dict nor a number, such as a string), which the code never looks into.
   */
  datatype Fidelity =
    | NoFidelity
    | NumFidelity(x: real)
    | FidelityDict(entries: map<string, Value>)
    | FidelityOther

  /** No name occurs twice. */
  predicate Distinct(names: seq<string>)
  {
    forall i, j :: 0 <= i < j < |names| ==> names[i] != names[j]
  }

  /** The keys of a space (a dict) in dict order: distinct, so `|names|` is `len(space)`. */
  type Space = names: seq<string> | Distinct(names)

  /** The keys of the configuration space, of the fidelity space if any, and the objective names. */
  datatype Blackbox = Blackbox(
    configurationSpace: Space,
    fidelitySpace: Option<Space>,
    objectivesNames: Option<seq<string>>)

  /** The arguments `_objective_function` receives. */
  datatype Request = Request(configuration: Configuration, fidelity: Fidelity, seed: Option<int>)

  /** The ways `objective_function` fails, in the order the code meets them. */
  datatype BlackboxError =
    | NoFidelitySpace          // a non-empty fidelity dict, `fidelity_space` is None: `None.keys()` (AttributeError)
    | UnknownFidelityKey       // a fidelity key outside the fidelity space
    | UnknownConfigKey         // a configuration key outside the configuration space
    | FidelityNotAllowed       // a fidelity without a fidelity space
    | FidelityRequired         // no fidelity, and the fidelity space has other than one entry
    | NumericFidelityAmbiguous // a numeric fidelity, and the fidelity space has other than one entry

  /** `key in space.keys()` for an optional space; `None` has no keys. */
  predicate InSpace(key: string, space: Option<Space>)
  {
    space.Some? && key in space.value
  }

  /** Every key of a dict argument belongs to its space. */
  predicate KeysKnown(bb: Blackbox, config: Configuration, fidelity: Fidelity)
  {
    && (fidelity.FidelityDict? ==> forall k :: k in fidelity.entries ==> InSpace(k, bb.fidelitySpace))
    && (config.ConfigDict? ==> forall k :: k in config.entries ==> k in bb.configurationSpace)
  }

  /** The fidelity-presence rules `objective_function` enforces after the key checks. */
  predicate FidelityAllowed(bb: Blackbox, fidelity: Fidelity)
  {
    match bb.fidelitySpace
    case None => fidelity.NoFidelity?
    case Some(names) => (fidelity.NoFidelity? || fidelity.NumFidelity?) ==> |names| == 1
  }

  /** The arguments `objective_function` passes on. */
  predicate Accepts(bb: Blackbox, config: Configuration, fidelity: Fidelity)
  {
    KeysKnown(bb, config, fidelity) && FidelityAllowed(bb, fidelity)
  }

  /**
   * `_check_keys(config, fidelity)`: the keys of a fidelity dict are checked
   * first, then those of a configuration dict; other arguments pass.
   */
  function CheckKeys(bb: Blackbox, config: Configuration, fidelity: Fidelity): (r: Outcome<BlackboxError>)
    ensures r.Pass? <==> KeysKnown(bb, config, fidelity)
    ensures r == Fail(NoFidelitySpace) <==>
      fidelity.FidelityDict? && |fidelity.entries| > 0 && bb.fidelitySpace.None?
    ensures fidelity.FidelityDict? && (exists k :: k in fidelity.entries && !InSpace(k, bb.fidelitySpace)) ==>
      r == Fail(NoFidelitySpace) || r == Fail(UnknownFidelityKey)
    ensures r == Fail(UnknownFidelityKey) <==>
      && fidelity.FidelityDict? && bb.fidelitySpace.Some?
      && exists k :: k in fidelity.entries && k !in bb.fidelitySpace.value
    ensures r == Fail(UnknownConfigKey) <==>
      && config.ConfigDict? && (exists k :: k in config.entries && k !in bb.configurationSpace)
      && (fidelity.FidelityDict? ==> forall k :: k in fidelity.entries ==> InSpace(k, bb.fidelitySpace))
  {
    if fidelity.FidelityDict? && |fidelity.entries| > 0 && bb.fidelitySpace.None? then
      Fail(NoFidelitySpace)
    else if fidelity.FidelityDict? && exists k :: k in fidelity.entries && k !in bb.fidelitySpace.value then
      Fail(UnknownFidelityKey)
    else if config.ConfigDict? && exists k :: k in config.entries && k !in bb.configurationSpace then
      Fail(UnknownConfigKey)
    else
      Pass
  }

  /**
   * `fidelity'` is what becomes of `fidelity`: a bare number becomes a
   * one-key dict, whose key is in the fidelity space and whose value is the
   * number; anything else is passed on unchanged.
   */
  predicate Normalized(bb: Blackbox, fidelity: Fidelity, fidelity': Fidelity)
  {
    if fidelity.NumFidelity? then
      && fidelity'.FidelityDict?
      && |fidelity'.entries| == 1
      && forall k :: k in fidelity'.entries ==> InSpace(k, bb.fidelitySpace) && fidelity'.entries[k] == Num(fidelity.x)
    else
      fidelity' == fidelity
  }

  /**
   * The checks and the rewriting of `objective_function(configuration, fidelity, seed)`:
   * the arguments it passes to `_objective_function`, or the first failed check.
   */
  function CheckedArguments(bb: Blackbox, config: Configuration, fidelity: Fidelity, seed: Option<int>): (r: Result<Request, BlackboxError>)
    ensures r.Success? <==> Accepts(bb, config, fidelity)
    ensures CheckKeys(bb, config, fidelity).Fail? ==> r == Failure(CheckKeys(bb, config, fidelity).error)
    ensures r == Failure(FidelityNotAllowed) <==>
      KeysKnown(bb, config, fidelity) && bb.fidelitySpace.None? && !fidelity.NoFidelity?
    ensures r == Failure(FidelityRequired) <==>
      KeysKnown(bb, config, fidelity) && bb.fidelitySpace.Some? && fidelity.NoFidelity? && |bb.fidelitySpace.value| != 1
    ensures r == Failure(NumericFidelityAmbiguous) <==>
      KeysKnown(bb, config, fidelity) && bb.fidelitySpace.Some? && fidelity.NumFidelity? && |bb.fidelitySpace.value| != 1
    ensures r.Success? ==>
      && r.value.configuration == config
      && r.value.seed == seed
      && Normalized(bb, fidelity, r.value.fidelity)
  {
    var keys := CheckKeys(bb, config, fidelity);
    if keys.Fail? then Failure(keys.error)
    else if bb.fidelitySpace.None? && !fidelity.NoFidelity? then
      // `assert fidelity is None`
      Failure(FidelityNotAllowed)
    else if bb.fidelitySpace.Some? && fidelity.NoFidelity? && |bb.fidelitySpace.value| != 1 then
      Failure(FidelityRequired)
    else if fidelity.NumFidelity? then
      var fidelityNames := bb.fidelitySpace.value;
      if |fidelityNames| != 1 then Failure(NumericFidelityAmbiguous)
      else Success(Request(config, FidelityDict(map[fidelityNames[0] := Num(fidelity.x)]), seed))
    else
      Success(Request(config, fidelity, seed))
  }

  /**
   * `objective_function` of a blackbox whose `_objective_function` is
   * `evaluate`: the checks, then the evaluation of the rewritten arguments.
   */
  function ObjectiveFunction<R>(bb: Blackbox, evaluate: Request -> R, config: Configuration,
                                fidelity: Fidelity := NoFidelity, seed: Option<int> := None): (r: Result<R, BlackboxError>)
    ensures r.Success? <==> Accepts(bb, config, fidelity)
    ensures r.Failure? ==> r.error == CheckedArguments(bb, config, fidelity, seed).error
    ensures r.Success? && fidelity.NumFidelity? ==>
      r.value == evaluate(Request(config, FidelityDict(map[bb.fidelitySpace.value[0] := Num(fidelity.x)]), seed))
    ensures r.Success? && !fidelity.NumFidelity? ==>
      r.value == evaluate(Request(config, fidelity, seed))
  {
    var request :- CheckedArguments(bb, config, fidelity, seed);
    Success(evaluate(request))
  }

  /** The arguments passed on are accepted again, and passed on unchanged. */
  lemma CheckedArgumentsIdempotent(bb: Blackbox, config: Configuration, fidelity: Fidelity, seed: Option<int>)
    requires CheckedArguments(bb, config, fidelity, seed).Success?
    ensures var req := CheckedArguments(bb, config, fidelity, seed).value;
      CheckedArguments(bb, req.configuration, req.fidelity, req.seed) == Success(req)
  {
  }

  /**
   * A numeric fidelity is never key-checked, and what replaces it has its
   * key in the fidelity space by construction.
   */
  lemma NumericFidelityKeyKnown(bb: Blackbox, config: Configuration, x: real, seed: Option<int>)
    ensures CheckKeys(bb, config, NumFidelity(x)) == CheckKeys(bb, config, NoFidelity)
    ensures CheckedArguments(bb, config, NumFidelity(x), seed).Success? ==>
      var f := CheckedArguments(bb, config, NumFidelity(x), seed).value.fidelity;
      f.FidelityDict? && forall k :: k in f.entries ==> InSpace(k, bb.fidelitySpace)
  {
  }

  /** Without a fidelity, a blackbox whose fidelity space has one entry receives no fidelity either. */
  lemma SingleFidelityMayBeOmitted(bb: Blackbox, config: Configuration, seed: Option<int>)
    requires bb.fidelitySpace.Some? && |bb.fidelitySpace.value| == 1
    requires KeysKnown(bb, config, NoFidelity)
    ensures CheckedArguments(bb, config, NoFidelity, seed) == Success(Request(config, NoFidelity, seed))
  {
  }

  // ---------------------------------------------------------------------------
  // `from_function`

  /** The blackbox `from_function` builds: the spaces, and the function its `objective_function` calls. */
  datatype FunctionBlackbox<R> = FunctionBlackbox(base: Blackbox, evalFun: (Configuration, Fidelity, Option<int>) -> R)

  /** `from_function(configuration_space, eval_fun, fidelity_space, objectives_names)` */
  function FromFunction<R>(configurationSpace: Space, evalFun: (Configuration, Fidelity, Option<int>) -> R,
                           fidelitySpace: Option<Space> := None, objectivesNames: Option<seq<string>> := None): (bb: FunctionBlackbox<R>)
    ensures bb.base.configurationSpace == configurationSpace
    ensures bb.base.fidelitySpace == fidelitySpace
    ensures bb.base.objectivesNames == objectivesNames
  {
    FunctionBlackbox(Blackbox(configurationSpace, fidelitySpace, objectivesNames), evalFun)
  }

  /** The override of `objective_function`: `eval_fun(configuration, fidelity, seed)`, with no checks. */
  function FunctionObjective<R>(bb: FunctionBlackbox<R>, config: Configuration,
                                fidelity: Fidelity := NoFidelity, seed: Option<int> := None): R
  {
    bb.evalFun(config, fidelity, seed)
  }

  /**
   * The override skips every check: on arguments the base class accepts it
   * calls `eval_fun` on the original, not the rewritten, arguments; and it
   * also evaluates arguments the base class rejects.
   */
  lemma FromFunctionSkipsChecks<R>(configurationSpace: Space, evalFun: (Configuration, Fidelity, Option<int>) -> R,
                                   fidelitySpace: Option<Space>, objectivesNames: Option<seq<string>>,
                                   config: Configuration, fidelity: Fidelity, seed: Option<int>)
    ensures var bb := FromFunction(configurationSpace, evalFun, fidelitySpace, objectivesNames);
      && FunctionObjective(bb, config, fidelity, seed) == evalFun(config, fidelity, seed)
      && (fidelitySpace.None? && fidelity.NumFidelity? ==>
            CheckedArguments(bb.base, config, fidelity, seed).Failure?)
  {
  }
}
