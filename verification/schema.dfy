/**
 * Assembly of the top-level Ludwig configuration schema (`get_schema`): a
 * JSON-Schema-shaped object whose eight properties are filled by per-section
 * fragment providers. Only the trainer fragment depends on the model type.
 */
module Schema {
  import opened Wrappers
  import opened Json

  // Top-level configuration keys (the values of ludwig.constants).
  const MODEL_TYPE: string := "model_type"
  const INPUT_FEATURES: string := "input_features"
  const OUTPUT_FEATURES: string := "output_features"
  const COMBINER: string := "combiner"
  const TRAINER: string := "trainer"
  const PREPROCESSING: string := "preprocessing"
  const HYPEROPT: string := "hyperopt"
  const DEFAULTS: string := "defaults"
  const SPLIT: string := "split"

  /** The default model type. */
  const MODEL_ECD: string := "ecd"

  /** The keys every assembled schema describes. */
  const TopLevelKeys: set<string> :=
    {MODEL_TYPE, INPUT_FEATURES, OUTPUT_FEATURES, COMBINER, TRAINER, PREPROCESSING, HYPEROPT, DEFAULTS}

  /**
   * The fragment providers, as the answers of their calls. Those taking no
   * argument answer the same on every call; the trainer provider takes the model
   * type. Any of them may raise.
   */
  datatype Providers = Providers(
    modelType: Result<Value, string>,
    inputFeatures: Result<Value, string>,
    outputFeatures: Result<Value, string>,
    combiner: Result<Value, string>,
    trainer: Value -> Result<Value, string>,
    preprocessing: Result<Value, string>,
    hyperopt: Result<Value, string>,
    defaults: Result<Value, string>)

  /** The property keys in the order the schema literal lists them. */
  const KeyOrder: seq<string> :=
    [MODEL_TYPE, INPUT_FEATURES, OUTPUT_FEATURES, COMBINER, TRAINER, PREPROCESSING, HYPEROPT, DEFAULTS]

  /** The providers' answers for `modelType`, in the order of `KeyOrder`, which is the order Python calls them. */
  function Fragments(p: Providers, modelType: Value): seq<Result<Value, string>>
  {
    [p.modelType, p.inputFeatures, p.outputFeatures, p.combiner,
     p.trainer(modelType), p.preprocessing, p.hyperopt, p.defaults]
  }

  /** A JSON-Schema object: `type`, `properties`, `definitions` and `required`. */
  datatype Schema = Schema(
    kind: string,
    properties: map<string, Value>,
    definitions: map<string, Value>,
    required: seq<string>)

  /** The shape every assembled schema has, whatever the model type. */
  predicate WellShaped(s: Schema)
  {
    && s.kind == "object"
    && s.properties.Keys == TopLevelKeys
    && s.definitions == map[]
    && s.required == [INPUT_FEATURES, OUTPUT_FEATURES]
  }

  /**
   * `get_schema(model_type)` without its cache. The providers are called in the
   * order the literal lists them and the first that raises ends the assembly with
   * its error; otherwise the schema is well shaped and each key holds its own
   * provider's fragment, the trainer's being the one for `modelType`.
   */
  function GetSchema(p: Providers, modelType: Value): (r: Result<Schema, string>)
    ensures r.Failure? <==> exists i | 0 <= i < |KeyOrder| :: Fragments(p, modelType)[i].Failure?
    ensures r.Failure? ==>
      exists i | 0 <= i < |KeyOrder| ::
        && Fragments(p, modelType)[i] == Failure(r.error)
        && forall j | 0 <= j < i :: Fragments(p, modelType)[j].Success?
    ensures r.Success? ==> WellShaped(r.value)
    ensures r.Success? ==>
      forall i | 0 <= i < |KeyOrder| :: r.value.properties[KeyOrder[i]] == Fragments(p, modelType)[i].value
    ensures r.Success? ==> p.trainer(modelType) == Success(r.value.properties[TRAINER])
  {
    var fs := Fragments(p, modelType);
    if fs[0].Failure? then Failure(fs[0].error)
    else if fs[1].Failure? then Failure(fs[1].error)
    else if fs[2].Failure? then Failure(fs[2].error)
    else if fs[3].Failure? then Failure(fs[3].error)
    else if fs[4].Failure? then Failure(fs[4].error)
    else if fs[5].Failure? then Failure(fs[5].error)
    else if fs[6].Failure? then Failure(fs[6].error)
    else if fs[7].Failure? then Failure(fs[7].error)
    else
      Success(Schema(
        "object",
        map[
          MODEL_TYPE := fs[0].value,
          INPUT_FEATURES := fs[1].value,
          OUTPUT_FEATURES := fs[2].value,
          COMBINER := fs[3].value,
          TRAINER := fs[4].value,
          PREPROCESSING := fs[5].value,
          HYPEROPT := fs[6].value,
          DEFAULTS := fs[7].value],
        map[],
        [INPUT_FEATURES, OUTPUT_FEATURES]))
  }

  /** The eight top-level keys are distinct. */
  lemma EightTopLevelKeys()
    ensures |TopLevelKeys| == 8
  {
  }

  /**
   * Two schemas built for different model types agree on everything but the
   * trainer property, and they are equal exactly when their trainer fragments are.
   */
  lemma OnlyTrainerDependsOnModelType(p: Providers, a: Value, b: Value)
    requires GetSchema(p, a).Success? && GetSchema(p, b).Success?
    ensures var sa, sb := GetSchema(p, a).value, GetSchema(p, b).value;
      && sa.kind == sb.kind
      && sa.definitions == sb.definitions
      && sa.required == sb.required
      && sa.properties.Keys == sb.properties.Keys
      && (forall k | k in sa.properties && k != TRAINER :: sa.properties[k] == sb.properties[k])
      && (sa == sb <==> p.trainer(a) == p.trainer(b))
  {
  }
}
