/**
 * `validate_config`: upgrade the document, resolve and validate its splitter,
 * assemble the schema for its model type, validate it structurally with the
 * tuple-aware type checker, then run the sixteen semantic checks in order. Every
 * stage is fail-fast. The model records the collaborator calls the pipeline makes,
 * in order, together with its outcome.
 */
module Pipeline {
  import opened Wrappers
  import opened Json
  import opened Errors
  import opened TypeCheck
  import opened Schema
  import opened SchemaCache

  /** The semantic checks, one per `check_*` function. */
  datatype SemanticCheck =
    | ValidationMetricsAreValid
    | FeatureNamesUnique
    | TiedFeaturesAreValid
    | DependentFeatures
    | TrainingRunway
    | GbmHorovodIncompatibility
    | GbmFeatureTypes
    | RayBackendInMemoryPreprocessing
    | SequenceConcatCombinerRequirements
    | TabtransformerCombinerRequirements
    | ComparatorCombinerRequirements
    | ClassBalancePreprocessing
    | SamplingExclusivity
    | HyperoptSearchSpace
    | HyperoptMetricTargets
    | GbmSingleOutputFeature

  /** The order in which `validate_config` runs the semantic checks. */
  const CheckOrder: seq<SemanticCheck> := [
    ValidationMetricsAreValid,
    FeatureNamesUnique,
    TiedFeaturesAreValid,
    DependentFeatures,
    TrainingRunway,
    GbmHorovodIncompatibility,
    GbmFeatureTypes,
    RayBackendInMemoryPreprocessing,
    SequenceConcatCombinerRequirements,
    TabtransformerCombinerRequirements,
    ComparatorCombinerRequirements,
    ClassBalancePreprocessing,
    SamplingExclusivity,
    HyperoptSearchSpace,
    HyperoptMetricTargets,
    GbmSingleOutputFeature]

  datatype Stage =
    | ResolveSplitter
    | SplitValidation
    | SchemaAssembly
    | StructuralValidation
    | Semantic(check: SemanticCheck)

  /** The stages before the semantic checks. */
  const PreludeStages: seq<Stage> := [ResolveSplitter, SplitValidation, SchemaAssembly, StructuralValidation]

  /** The stages in the order `validate_config` runs them: the semantic ones follow `CheckOrder`. */
  const StageOrder: seq<Stage> := PreludeStages + [
    Semantic(ValidationMetricsAreValid),
    Semantic(FeatureNamesUnique),
    Semantic(TiedFeaturesAreValid),
    Semantic(DependentFeatures),
    Semantic(TrainingRunway),
    Semantic(GbmHorovodIncompatibility),
    Semantic(GbmFeatureTypes),
    Semantic(RayBackendInMemoryPreprocessing),
    Semantic(SequenceConcatCombinerRequirements),
    Semantic(TabtransformerCombinerRequirements),
    Semantic(ComparatorCombinerRequirements),
    Semantic(ClassBalancePreprocessing),
    Semantic(SamplingExclusivity),
    Semantic(HyperoptSearchSpace),
    Semantic(HyperoptMetricTargets),
    Semantic(GbmSingleOutputFeature)]

  /** `stages` is one semantic stage per check of `checks`, in the same order. */
  predicate SemanticStagesOf(stages: seq<Stage>, checks: seq<SemanticCheck>)
  {
    |stages| == |checks| && forall i | 0 <= i < |checks| :: stages[i] == Semantic(checks[i])
  }

  /** A failure, attributed to exactly one stage. */
  datatype Error = Error(stage: Stage, reason: Reason)

  /**
   * The code `validate_config` calls but does not define; `S` is the type of the
   * splitter objects `get_splitter` returns.
   */
  datatype Collaborators<!S> = Collaborators(
    /** `upgrade_config_dict_to_latest_version` */
    upgrade: Doc -> Doc,
    /** `get_splitter(**split_config)`, which may raise */
    getSplitter: map<string, Value> -> Result<S, string>,
    /** `splitter.validate(config)` */
    validateSplit: (S, Doc) -> Outcome<string>,
    /** the fragment providers `get_schema` assembles */
    providers: Providers,
    /** `Draft7Validator.TYPE_CHECKER` */
    baseChecker: TypeChecker,
    /** jsonschema's `validate(instance, schema, cls)`, given the class's type checker */
    structural: (Value, Schema, TypeChecker) -> Outcome<string>,
    /** the `check_*` functions */
    check: (SemanticCheck, Doc) -> Outcome<string>)

  /** A call `validate_config` makes to a collaborator, with its arguments. */
  datatype Call<S> =
    | GetSplitter(splitConfig: map<string, Value>)
    | ValidateSplit(splitter: S, config: Doc)
    | GetSchemaCall(modelType: Value)
    | Validate(instance: Value, schema: Schema)
    | RunCheck(check: SemanticCheck, config: Doc)

  /** The calls made, in order, and how the pipeline ended. */
  datatype Report<S> = Report(calls: seq<Call<S>>, outcome: Outcome<Error>)

  /** The stage a call belongs to. */
  function StageOf<S>(call: Call<S>): Stage
  {
    match call
    case GetSplitter(_) => ResolveSplitter
    case ValidateSplit(_, _) => SplitValidation
    case GetSchemaCall(_) => SchemaAssembly
    case Validate(_, _) => StructuralValidation
    case RunCheck(k, _) => Semantic(k)
  }

  function StagesOf<S>(calls: seq<Call<S>>): seq<Stage>
  {
    seq(|calls|, i requires 0 <= i < |calls| => StageOf(calls[i]))
  }

  /** What the collaborator answers to a call: return normally, or raise. */
  function Answer<S>(c: Collaborators<S>, call: Call<S>): Outcome<Reason>
  {
    match call
    case GetSplitter(split) =>
      (match c.getSplitter(split) case Success(_) => Pass case Failure(msg) => Fail(Raised(msg)))
    case ValidateSplit(s, config) =>
      (match c.validateSplit(s, config) case Pass => Pass case Fail(msg) => Fail(Raised(msg)))
    case GetSchemaCall(modelType) =>
      (match SchemaOf(c.providers, modelType) case Success(_) => Pass case Failure(r) => Fail(r))
    case Validate(instance, schema) =>
      (match c.structural(instance, schema, CustomTypeChecker(c.baseChecker))
       case Pass => Pass case Fail(msg) => Fail(Raised(msg)))
    case RunCheck(k, config) =>
      (match c.check(k, config) case Pass => Pass case Fail(msg) => Fail(Raised(msg)))
  }

  /**
   * `updated_config.get(MODEL_TYPE, MODEL_ECD)`: only an absent key is defaulted;
   * a present one is used whatever its value, `None` included.
   */
  function ModelTypeOf(config: Doc): (mt: Value)
    ensures MODEL_TYPE in config ==> mt == config[MODEL_TYPE]
    ensures MODEL_TYPE !in config ==> mt == Str(MODEL_ECD)
  {
    Get(config, MODEL_TYPE, Str(MODEL_ECD))
  }

  /**
   * `updated_config.get(PREPROCESSING, {}).get(SPLIT, {})`, unpacked with `**`:
   * a missing section reads as an empty dict, a present one that is not a dict
   * makes `.get` or `**` raise.
   */
  function SplitConfigOf(config: Doc): (r: Result<map<string, Value>, Reason>)
    ensures PREPROCESSING !in config ==> r == Success(map[])
    ensures PREPROCESSING in config ==>
      match config[PREPROCESSING]
      case Object(pre) =>
        if SPLIT !in pre then r == Success(map[])
        else if pre[SPLIT].Object? then r == Success(pre[SPLIT].fields)
        else r == Failure(NotAMapping)
      case _ => r == Failure(NotAMapping)
  {
    var preprocessing := Get(config, PREPROCESSING, Object(map[]));
    if !preprocessing.Object? then Failure(NotAMapping)
    else
      var split := Get(preprocessing.fields, SPLIT, Object(map[]));
      if !split.Object? then Failure(NotAMapping)
      else Success(split.fields)
  }

  /**
   * The semantic checks `checks`, in order, on `config`, stopping at the first
   * that raises: the calls made are the first checks of `checks`, in order, each
   * on `config`.
   */
  function RunChecks<S>(c: Collaborators<S>, checks: seq<SemanticCheck>, config: Doc): (r: Report<S>)
    ensures |r.calls| <= |checks|
    ensures forall i | 0 <= i < |r.calls| :: r.calls[i] == RunCheck(checks[i], config)
  {
    if checks == [] then Report([], Pass)
    else
      var call := RunCheck(checks[0], config);
      match c.check(checks[0], config)
      case Fail(msg) => Report([call], Fail(Error(Semantic(checks[0]), Raised(msg))))
      case Pass =>
        var rest := RunChecks(c, checks[1..], config);
        var calls := [call] + rest.calls;
        assert forall i | 0 < i < |calls| :: calls[i] == rest.calls[i - 1] && checks[i] == checks[1..][i - 1];
        Report(calls, rest.outcome)
  }

  /**
   * The first failing check wins: every check before the last one run passed,
   * the run succeeds exactly when every check ran and passed, and a failure is
   * the error of the last check run, which failed.
   */
  lemma {:induction false} FirstFailingCheckWins<S>(c: Collaborators<S>, checks: seq<SemanticCheck>, config: Doc)
    ensures var r := RunChecks(c, checks, config);
      && (forall i | 0 <= i < |r.calls| - 1 :: c.check(checks[i], config).Pass?)
      && (r.outcome.Pass? <==>
            |r.calls| == |checks| && forall i | 0 <= i < |checks| :: c.check(checks[i], config).Pass?)
      && (r.outcome.Fail? ==>
            && 0 < |r.calls|
            && c.check(checks[|r.calls| - 1], config).Fail?
            && r.outcome.error
               == Error(Semantic(checks[|r.calls| - 1]), Raised(c.check(checks[|r.calls| - 1], config).error)))
  {
    var r := RunChecks(c, checks, config);
    if checks != [] && c.check(checks[0], config).Pass? {
      var rest := RunChecks(c, checks[1..], config);
      FirstFailingCheckWins(c, checks[1..], config);
      assert r.calls == [RunCheck(checks[0], config)] + rest.calls;
      assert r.outcome == rest.outcome;
      forall i | 0 < i < |checks| ensures checks[i] == checks[1..][i - 1] {}
      if r.outcome.Fail? {
        assert checks[|r.calls| - 1] == checks[1..][|rest.calls| - 1];
      }
    }
  }

  /**
   * A run that follows `order` and stops at its first failure: the stages run are
   * a prefix of `order`; every call but the last passed; the run succeeds exactly
   * when every stage of `order` ran and passed; and a failure is the answer of the
   * last call made, attributed to that call's stage, or else the split section
   * of the upgraded document `up` could not be read and nothing was called.
   */
  ghost predicate FailsFast<S>(c: Collaborators<S>, r: Report<S>, order: seq<Stage>, up: Doc)
  {
    && |r.calls| <= |order|
    && StagesOf(r.calls) == order[..|r.calls|]
    && (forall i | 0 <= i < |r.calls| - 1 :: Answer(c, r.calls[i]).Pass?)
    && (r.outcome.Pass? <==>
          |r.calls| == |order| && forall i | 0 <= i < |r.calls| :: Answer(c, r.calls[i]).Pass?)
    && (r.outcome.Fail? ==>
          || (&& r.calls == []
              && SplitConfigOf(up).Failure?
              && r.outcome.error == Error(ResolveSplitter, SplitConfigOf(up).error))
          || (&& 0 < |r.calls|
              && Answer(c, r.calls[|r.calls| - 1]) == Fail(r.outcome.error.reason)
              && r.outcome.error.stage == StageOf(r.calls[|r.calls| - 1])))
  }

  /**
   * The arguments the calls receive, for the upgraded document `up`: the split
   * section of `up`; `up` itself for the splitter, the structural validator and
   * every semantic check; the splitter `get_splitter` returned for that section;
   * `up`'s model type, and the schema assembled for it.
   */
  ghost predicate SeesUpgraded<S>(c: Collaborators<S>, calls: seq<Call<S>>, up: Doc)
  {
    forall i | 0 <= i < |calls| ::
      && (calls[i].GetSplitter? ==> SplitConfigOf(up) == Success(calls[i].splitConfig))
      && (calls[i].ValidateSplit? ==>
            && calls[i].config == up
            && SplitConfigOf(up).Success?
            && c.getSplitter(SplitConfigOf(up).value) == Success(calls[i].splitter))
      && (calls[i].GetSchemaCall? ==> calls[i].modelType == ModelTypeOf(up))
      && (calls[i].Validate? ==>
            calls[i].instance == Object(up) && SchemaOf(c.providers, ModelTypeOf(up)) == Success(calls[i].schema))
      && (calls[i].RunCheck? ==> calls[i].config == up)
  }

  /**
   * The splitter step, on the upgraded document: read the split section, resolve the
   * splitter from it, and let the splitter validate the document, stopping at the
   * first failure.
   */
  function SplitterStage<S>(c: Collaborators<S>, updated: Doc): (r: Report<S>)
    ensures FailsFast(c, r, [ResolveSplitter, SplitValidation], updated)
    ensures r.calls == [] <==> SplitConfigOf(updated).Failure?
    ensures SeesUpgraded(c, r.calls, updated)
  {
    match SplitConfigOf(updated)
    case Failure(reason) => Report([], Fail(Error(ResolveSplitter, reason)))
    case Success(split) =>
      var c1 := GetSplitter(split);
      match c.getSplitter(split)
      case Failure(msg) =>
        assert Answer(c, c1) == Fail(Raised(msg));
        Report([c1], Fail(Error(ResolveSplitter, Raised(msg))))
      case Success(splitter) =>
        var c2 := ValidateSplit(splitter, updated);
        match c.validateSplit(splitter, updated)
        case Fail(msg) =>
          assert Answer(c, c2) == Fail(Raised(msg));
          Report([c1, c2], Fail(Error(SplitValidation, Raised(msg))))
        case Pass =>
          assert Answer(c, c1).Pass? && Answer(c, c2).Pass?;
          Report([c1, c2], Pass)
  }

  /**
   * The structural step, on the upgraded document: assemble the schema for its model
   * type, then validate the document against it with the tuple-aware checker,
   * stopping at the first failure.
   */
  function StructureStage<S>(c: Collaborators<S>, updated: Doc): (r: Report<S>)
    ensures 0 < |r.calls|
    ensures FailsFast(c, r, [SchemaAssembly, StructuralValidation], updated)
    ensures SeesUpgraded(c, r.calls, updated)
  {
    var modelType := ModelTypeOf(updated);
    var c1 := GetSchemaCall(modelType);
    match SchemaOf(c.providers, modelType)
    case Failure(reason) =>
      assert Answer(c, c1) == Fail(reason);
      Report([c1], Fail(Error(SchemaAssembly, reason)))
    case Success(schema) =>
      var c2 := Validate(Object(updated), schema);
      match c.structural(Object(updated), schema, CustomTypeChecker(c.baseChecker))
      case Fail(msg) =>
        var r := Report([c1, c2], Fail(Error(StructuralValidation, Raised(msg))));
        assert r.calls[0] == c1 && Answer(c, c1).Pass?;
        assert r.calls[1] == c2 && Answer(c, c2) == Fail(Raised(msg));
        r
      case Pass =>
        assert Answer(c, c1).Pass? && Answer(c, c2).Pass?;
        Report([c1, c2], Pass)
  }

  /**
   * `validate_config(config)`. Nothing is called exactly when the upgraded
   * document's split section cannot be read, and then that read is the reported
   * failure; otherwise the first call resolves the splitter from that section.
   * The order and fail-fast behaviour of the remaining stages are stated by
   * `FirstFailureWins`.
   */
  function ValidateConfig<S>(c: Collaborators<S>, config: Doc): (r: Report<S>)
    ensures r.calls == [] <==> SplitConfigOf(c.upgrade(config)).Failure?
    ensures r.calls == [] ==> r.outcome == Fail(Error(ResolveSplitter, SplitConfigOf(c.upgrade(config)).error))
    ensures r.calls != [] ==> r.calls[0] == GetSplitter(SplitConfigOf(c.upgrade(config)).value)
  {
    var updated := c.upgrade(config);
    var splitter := SplitterStage(c, updated);
    if splitter.outcome.Fail? then splitter
    else
      var structure := StructureStage(c, updated);
      if structure.outcome.Fail? then Report(splitter.calls + structure.calls, structure.outcome)
      else
        var checks := RunChecks(c, CheckOrder, updated);
        Report(splitter.calls + structure.calls + checks.calls, checks.outcome)
  }
}
