/**
 * What `validate_config` guarantees about its stages: their order, that the
 * first failure ends the run, that every stage sees the upgraded document, and
 * the defaults it applies before choosing the schema and the splitter.
 */
module PipelineProperties {
  import opened Wrappers
  import opened Json
  import opened Errors
  import opened TypeCheck
  import opened Schema
  import opened SchemaCache
  import opened Pipeline

  /** The sixteen semantic checks each run once, and none is missing. */
  lemma CheckOrderIsComplete()
    ensures |CheckOrder| == 16
    ensures forall i, j | 0 <= i < j < |CheckOrder| :: CheckOrder[i] != CheckOrder[j]
    ensures forall k: SemanticCheck :: k in CheckOrder
  {
    forall k: SemanticCheck ensures k in CheckOrder {
      match k
      case ValidationMetricsAreValid => assert CheckOrder[0] == k;
      case FeatureNamesUnique => assert CheckOrder[1] == k;
      case TiedFeaturesAreValid => assert CheckOrder[2] == k;
      case DependentFeatures => assert CheckOrder[3] == k;
      case TrainingRunway => assert CheckOrder[4] == k;
      case GbmHorovodIncompatibility => assert CheckOrder[5] == k;
      case GbmFeatureTypes => assert CheckOrder[6] == k;
      case RayBackendInMemoryPreprocessing => assert CheckOrder[7] == k;
      case SequenceConcatCombinerRequirements => assert CheckOrder[8] == k;
      case TabtransformerCombinerRequirements => assert CheckOrder[9] == k;
      case ComparatorCombinerRequirements => assert CheckOrder[10] == k;
      case ClassBalancePreprocessing => assert CheckOrder[11] == k;
      case SamplingExclusivity => assert CheckOrder[12] == k;
      case HyperoptSearchSpace => assert CheckOrder[13] == k;
      case HyperoptMetricTargets => assert CheckOrder[14] == k;
      case GbmSingleOutputFeature => assert CheckOrder[15] == k;
    }
  }

  /** A run's stages, when the calls are split in two. */
  lemma StagesOfAppend<S>(xs: seq<Call<S>>, ys: seq<Call<S>>)
    ensures StagesOf(xs + ys) == StagesOf(xs) + StagesOf(ys)
  {
  }

  /** The semantic checks' run fails fast along the checks' own stages. */
  lemma CheckRunFailsFast<S>(c: Collaborators<S>, checks: seq<SemanticCheck>, order: seq<Stage>, config: Doc)
    requires SemanticStagesOf(order, checks)
    ensures FailsFast(c, RunChecks(c, checks, config), order, config)
  {
    var r := RunChecks(c, checks, config);
    FirstFailingCheckWins(c, checks, config);
    forall i | 0 <= i < |r.calls|
      ensures Answer(c, r.calls[i]).Pass? <==> c.check(checks[i], config).Pass?
      ensures StageOf(r.calls[i]) == order[i]
    {
      assert r.calls[i] == RunCheck(checks[i], config);
    }
    assert StagesOf(r.calls) == order[..|r.calls|];
    if r.outcome.Fail? {
      var last := |r.calls| - 1;
      assert r.calls[last] == RunCheck(checks[last], config);
      assert Answer(c, r.calls[last]) == Fail(r.outcome.error.reason);
    }
  }

  /** Every semantic check receives the document the run was given. */
  lemma CheckRunSeesItsDocument<S>(c: Collaborators<S>, checks: seq<SemanticCheck>, config: Doc)
    ensures SeesUpgraded(c, RunChecks(c, checks, config).calls, config)
  {
  }

  /**
   * A run that passed all of `first` followed by a fail-fast run of `second` is
   * a fail-fast run of `first + second`.
   */
  lemma FailsFastThen<S>(c: Collaborators<S>, pre: Report<S>, post: Report<S>, first: seq<Stage>, second: seq<Stage>, up: Doc)
    requires FailsFast(c, pre, first, up) && pre.outcome.Pass?
    requires FailsFast(c, post, second, up)
    requires post.calls != [] || post.outcome.Pass?
    ensures FailsFast(c, Report(pre.calls + post.calls, post.outcome), first + second, up)
  {
    var calls := pre.calls + post.calls;
    StagesOfAppend(pre.calls, post.calls);
    assert (first + second)[..|calls|] == first + second[..|post.calls|];
    forall i | |pre.calls| <= i < |calls| ensures calls[i] == post.calls[i - |pre.calls|] {}
    forall i | 0 <= i < |calls| - 1 ensures Answer(c, calls[i]).Pass? {
      if |pre.calls| <= i { assert calls[i] == post.calls[i - |pre.calls|]; }
    }
    if post.outcome.Pass? {
      forall i | 0 <= i < |calls| ensures Answer(c, calls[i]).Pass? {
        if |pre.calls| <= i { assert calls[i] == post.calls[i - |pre.calls|]; }
      }
    }
  }

  /** A failed fail-fast run along `order` is also one along any extension of `order`. */
  lemma FailureExtends<S>(c: Collaborators<S>, r: Report<S>, order: seq<Stage>, more: seq<Stage>, up: Doc)
    requires FailsFast(c, r, order, up) && r.outcome.Fail?
    ensures FailsFast(c, r, order + more, up)
  {
  }

  /** The stage order is the four stages before the checks, then one stage per check. */
  lemma StageOrderShape()
    ensures StageOrder == PreludeStages + StageOrder[4..]
    ensures SemanticStagesOf(StageOrder[4..], CheckOrder)
  {
  }

  /**
   * Fail-fast ordering: `validate_config` runs the stages of `StageOrder` in
   * order and stops at the first failure, which is the one reported.
   */
  lemma FirstFailureWins<S>(c: Collaborators<S>, config: Doc)
    ensures FailsFast(c, ValidateConfig(c, config), StageOrder, c.upgrade(config))
    ensures ValidateConfig(c, config).calls == [] <==> SplitConfigOf(c.upgrade(config)).Failure?
  {
    var up := c.upgrade(config);
    var r := ValidateConfig(c, config);
    var splitter := SplitterStage(c, up);
    var structure := StructureStage(c, up);
    var both := Report(splitter.calls + structure.calls, structure.outcome);
    StageOrderShape();
    assert PreludeStages == [ResolveSplitter, SplitValidation] + [SchemaAssembly, StructuralValidation];
    if splitter.outcome.Fail? {
      assert r == splitter;
      FailureExtends(c, splitter, [ResolveSplitter, SplitValidation], [SchemaAssembly, StructuralValidation] + StageOrder[4..], up);
      assert StageOrder == [ResolveSplitter, SplitValidation] + ([SchemaAssembly, StructuralValidation] + StageOrder[4..]);
    } else {
      FailsFastThen(c, splitter, structure, [ResolveSplitter, SplitValidation], [SchemaAssembly, StructuralValidation], up);
      if structure.outcome.Fail? {
        assert r == both;
        FailureExtends(c, both, PreludeStages, StageOrder[4..], up);
      } else {
        var checks := RunChecks(c, CheckOrder, up);
        CheckRunFailsFast(c, CheckOrder, StageOrder[4..], up);
        FailsFastThen(c, both, checks, PreludeStages, StageOrder[4..], up);
        assert r == Report(both.calls + checks.calls, checks.outcome);
      }
    }
  }

  /**
   * Every stage is applied to the upgraded document, never the caller's original:
   * the splitter is resolved from its split section, and the splitter, the
   * structural validator and every semantic check receive it whole.
   */
  lemma StagesSeeUpgradedConfig<S>(c: Collaborators<S>, config: Doc)
    ensures SeesUpgraded(c, ValidateConfig(c, config).calls, c.upgrade(config))
  {
    var up := c.upgrade(config);
    var splitter := SplitterStage(c, up);
    if splitter.outcome.Pass? {
      var structure := StructureStage(c, up);
      SeesUpgradedAppend(c, splitter.calls, structure.calls, up);
      if structure.outcome.Pass? {
        var checks := RunChecks(c, CheckOrder, up);
        CheckRunSeesItsDocument(c, CheckOrder, up);
        SeesUpgradedAppend(c, splitter.calls + structure.calls, checks.calls, up);
      }
    }
  }

  /** Two runs that each pass the upgraded document on pass it on together. */
  lemma SeesUpgradedAppend<S>(c: Collaborators<S>, xs: seq<Call<S>>, ys: seq<Call<S>>, up: Doc)
    requires SeesUpgraded(c, xs, up) && SeesUpgraded(c, ys, up)
    ensures SeesUpgraded(c, xs + ys, up)
  {
    assert forall i | |xs| <= i < |xs + ys| :: (xs + ys)[i] == ys[i - |xs|];
  }

  /** The outcome depends on the caller's document only through its upgrade. */
  lemma OnlyTheUpgradeMatters<S>(c: Collaborators<S>, a: Doc, b: Doc)
    requires c.upgrade(a) == c.upgrade(b)
    ensures ValidateConfig(c, a) == ValidateConfig(c, b)
  {
  }

  /**
   * The schema is chosen by the upgraded document's `model_type` when the key is
   * present (whatever its value) and by `MODEL_ECD` otherwise, and the structural
   * validator gets the schema assembled for that model type.
   */
  lemma ModelTypeDefault<S>(c: Collaborators<S>, config: Doc)
    ensures var r, up := ValidateConfig(c, config), c.upgrade(config);
      var modelType := if MODEL_TYPE in up then up[MODEL_TYPE] else Str(MODEL_ECD);
      forall i | 0 <= i < |r.calls| ::
        && (r.calls[i].GetSchemaCall? ==> r.calls[i].modelType == modelType)
        && (r.calls[i].Validate? ==> GetSchema(c.providers, modelType) == Success(r.calls[i].schema))
  {
  }

  /**
   * The splitter is resolved from an empty split configuration when the upgraded
   * document has no `preprocessing` section, or one without `split`.
   */
  lemma SplitDefault<S>(c: Collaborators<S>, config: Doc)
    requires var up := c.upgrade(config);
      PREPROCESSING !in up || (up[PREPROCESSING].Object? && SPLIT !in up[PREPROCESSING].fields)
    ensures var r := ValidateConfig(c, config);
      0 < |r.calls| && r.calls[0].GetSplitter? && r.calls[0].splitConfig == map[]
  {
  }

  /**
   * When the structural validator rejects the document, that rejection is the
   * reported error and no semantic check runs, whatever the checks would say.
   */
  lemma StructuralFailurePrecedesSemanticChecks<S>(c: Collaborators<S>, config: Doc)
    requires var up := c.upgrade(config);
      && SplitConfigOf(up).Success?
      && c.getSplitter(SplitConfigOf(up).value).Success?
      && c.validateSplit(c.getSplitter(SplitConfigOf(up).value).value, up).Pass?
      && SchemaOf(c.providers, ModelTypeOf(up)).Success?
      && c.structural(Object(up), SchemaOf(c.providers, ModelTypeOf(up)).value, CustomTypeChecker(c.baseChecker)).Fail?
    ensures var r := ValidateConfig(c, config);
      && r.outcome.Fail?
      && r.outcome.error.stage == StructuralValidation
      && forall i | 0 <= i < |r.calls| :: !r.calls[i].RunCheck?
  {
  }
}
