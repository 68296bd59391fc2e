# Ludwig configuration schema and `validate_config`, modelled in Dafny

This project models the core of Ludwig's configuration validation
(`ludwig/schema/__init__.py`):

- **Schema assembly** (`get_schema`): a JSON-Schema-shaped object of type
  `"object"` whose `properties` hold exactly the eight top-level keys
  (`model_type`, `input_features`, `output_features`, `combiner`, `trainer`,
  `preprocessing`, `hyperopt`, `defaults`), each filled by its fragment provider,
  with `required = [input_features, output_features]` and empty `definitions`.
  Only the trainer fragment receives the model type. The `lru_cache(maxsize=2)`
  around it is modelled as a two-entry least-recently-used cache whose every
  lookup returns what an uncached call returns.
- **Array-type extension** (`get_validator` / `custom_is_array`): the
  validator's type checker is the Draft 7 checker with "array" (the `type`
  keyword of section 6.1.1 of the JSON Schema Validation draft-07) redefined to
  accept Python lists and tuples; every other type name keeps its Draft 7 test.
- **Validation pipeline** (`validate_config`): upgrade the document, default
  `model_type`, read `preprocessing.split`, resolve the splitter and let it
  validate the document, assemble the schema, validate structurally, then run
  the sixteen `check_*` functions in their fixed order. Every stage is
  fail-fast. The model returns a `Report`: the collaborator calls made, in
  order, with their arguments, and the outcome (success, or the first error,
  attributed to one stage).

Everything the file calls but does not define is a parameter: the
`Collaborators` record holds the upgrader (`Doc -> Doc`), `get_splitter`, the
splitter's `validate`, the eight fragment providers, Draft 7's base type
checker, jsonschema's `validate`, and the sixteen checks. Those that may raise
return a `Result`/`Outcome`; every fragment provider may raise. Two assumptions
about them are built in: a provider that takes no argument answers the same on
every call, and no collaborator mutates the document it is handed (the document
is a value, so each stage sees the upgraded document as the upgrader returned it).

Python behaviour kept from the code:

- `updated_config.get(MODEL_TYPE, MODEL_ECD)` defaults only an *absent* key; a
  `model_type` present with any value, `null` included, is used as is.
- `updated_config.get(PREPROCESSING, {}).get(SPLIT, {})` reads a missing section
  as `{}`, but a `preprocessing` that is present and not a dict makes `.get`
  raise, and a `split` that is not a dict makes `**` raise. Both are failures of
  the splitter-resolution stage before any collaborator is called.
- The cached `get_schema` raises before running when the model type cannot be
  hashed (a list, a dict, or a tuple holding one).

`get_schema` does not reject an unknown model type itself: it fails only when
one of the fragment providers raises (for an unknown model type, that would be
`get_trainer_jsonschema`), and then the first provider to raise, in the order
the schema literal lists them, decides the error. The model type is read before
the splitter runs, which is harmless since the read cannot fail. A present but
non-dict `preprocessing` section fails with Python's own error, not a validation
error.

Files: `wrappers.dfy` (Option/Result/Outcome), `errors.dfy` (the reasons a
stage fails), `json.dfy` (values, `IsArray`, `Hashable`), `type_check.dfy` (type checker and its
extension), `schema.dfy` (assembly), `schema_cache.dfy` (the LRU cache),
`pipeline.dfy` (stages, collaborators, `ValidateConfig`),
`pipeline_properties.dfy` (ordering, fail-fast and defaulting lemmas).

## Model

| member | source | states |
|---|---|---|
| TypeCheck.Redefine | ludwig/schema/__init__.py:96 | the redefined checker knows one more type name at most; that name now has the new test and every other name keeps its old verdict |
| TypeCheck.CustomTypeChecker | ludwig/schema/__init__.py:88-97 | for the validator's checker "array" holds of a value iff it is a list or a tuple; every other type name answers exactly as the base Draft 7 checker does |
| TypeCheck.TuplesAreTheOnlyAddition | ludwig/schema/__init__.py:91-92 | over Draft 7's list-only array test the extension accepts exactly the base's arrays plus tuples; objects, strings, numbers, booleans and null stay rejected |
| Schema.GetSchema | ludwig/schema/__init__.py:69-85 | assembly raises iff some fragment provider raises, and then with the error of the first one to raise in the literal's order; otherwise the schema has type "object", exactly the eight top-level keys, empty definitions, required = [input_features, output_features], and under each key its own provider's fragment, the trainer's being the one for the given model type |
| Schema.EightTopLevelKeys | ludwig/schema/__init__.py:72-81 | the eight property keys are distinct, so properties has exactly eight entries |
| Schema.OnlyTrainerDependsOnModelType | ludwig/schema/__init__.py:73-80 | schemas for two model types agree on type, definitions, required and every property but trainer; they are equal iff the trainer provider answers the same for both |
| SchemaCache.SchemaOf | ludwig/schema/__init__.py:68-85 | a call of the cached get_schema raises iff the model type cannot be hashed (Unhashable, before any provider runs) or some fragment provider raises (with the first raising provider's message, in the literal's order); a result is a well-shaped schema holding each provider's fragment, the trainer's for that model type |
| Json.HashableIffScalarLeaves | ludwig/schema/__init__.py:68 | an lru_cache key is hashable iff flattening its tuples, at any depth, leaves only None, bools, ints and strings, so a single list or dict anywhere in it makes it unhashable |
| SchemaCache.Lookup | ludwig/schema/__init__.py:68-69 | a cached lookup returns exactly what an uncached call returns (determinism), keeps the cache within two distinct entries each holding the schema its key builds, and caches nothing on failure |
| SchemaCache.LookupRecency | ludwig/schema/__init__.py:68 | least-recently-used order: a successful lookup leaves its key most recent and the previously most recent other key next |
| SchemaCache.TwoModelTypesStayCached | ludwig/schema/__init__.py:68 | after looking up two model types in turn both are cached, so with capacity two, callers that alternate between two model types in the keyword form `get_schema(model_type=...)` (the form validate_config uses) never rebuild a schema |
| Pipeline.SplitConfigOf | ludwig/schema/__init__.py:110 | the split configuration is empty when preprocessing or preprocessing.split is absent, is split's dict when both are dicts, and the read fails when either is present but not a dict |
| Pipeline.RunChecks | ludwig/schema/__init__.py:118-134 | the checks run are a prefix of the given order, each applied to the given document |
| Pipeline.FirstFailingCheckWins | ludwig/schema/__init__.py:118-134 | every check before the last one run passed; the run succeeds iff every check ran and passed; a failure is the error of the last check run, which failed |
| Pipeline.ModelTypeOf | ludwig/schema/__init__.py:108 | the model type is the upgraded document's model_type whenever the key is present, whatever its value (None included), and "ecd" only when it is absent |
| Pipeline.SplitterStage | ludwig/schema/__init__.py:110-111 | splitter resolution then split validation, fail-fast: nothing is called iff the split section cannot be read, and then that read error is reported; otherwise a failure is the first failing call's error; the splitter is resolved from the upgraded document's split section, and the splitter get_splitter returned validates the upgraded document |
| Pipeline.StructureStage | ludwig/schema/__init__.py:108-116 | schema assembly then structural validation, fail-fast; the schema is requested for the upgraded document's model type and the upgraded document is validated against exactly that schema |
| PipelineProperties.CheckOrderIsComplete | ludwig/schema/__init__.py:119-134 | the fixed check order lists sixteen distinct checks and omits none |
| Pipeline.ValidateConfig | ludwig/schema/__init__.py:100-134 | no collaborator is called iff the upgraded document's split section cannot be read, and then that read is the reported failure; otherwise the first call resolves the splitter from that section |
| PipelineProperties.CheckRunFailsFast | ludwig/schema/__init__.py:119-134 | the semantic checks' run is a fail-fast run along the checks' stages |
| PipelineProperties.CheckRunSeesItsDocument | ludwig/schema/__init__.py:119-134 | every semantic check receives the document the run was given |
| PipelineProperties.FirstFailureWins | ludwig/schema/__init__.py:107-134 | validate_config runs a prefix of the fixed stage order, no stage runs after a failure, the reported error is the first failing stage's (a run with no call is exactly one whose split section cannot be read), and success means every stage ran and passed |
| PipelineProperties.StagesSeeUpgradedConfig | ludwig/schema/__init__.py:107-134 | the splitter, structural validation and every semantic check receive the upgraded document; the splitter is resolved from its split section, and the one that validates is the one get_splitter returned |
| PipelineProperties.OnlyTheUpgradeMatters | ludwig/schema/__init__.py:107 | two documents with the same upgrade give the same calls and the same outcome |
| PipelineProperties.ModelTypeDefault | ludwig/schema/__init__.py:108-116 | the schema is requested for the upgraded document's model_type when present and for MODEL_ECD otherwise, and structural validation uses the schema assembled for it |
| PipelineProperties.SplitDefault | ludwig/schema/__init__.py:110 | with preprocessing or preprocessing.split absent, the first call is get_splitter with an empty split configuration |
| PipelineProperties.StructuralFailurePrecedesSemanticChecks | ludwig/schema/__init__.py:113-134 | when structural validation rejects the document, that is the reported error and no semantic check runs |

## Left out

- `VALIDATION_LOCK` (lines 65, 113-116): it only serialises concurrent callers and has no sequential meaning.
- The contents of the fragment providers, of `upgrade_config_dict_to_latest_version`, of `get_splitter` and `Splitter.validate`, and of the sixteen `check_*` functions: they live in other files, which are not part of this model, so they are uninterpreted parameters. In particular the idempotence of the upgrader is not stated.
- The jsonschema Draft 7 validation algorithm and the `extend` machinery: a foreign library, modelled as an uninterpreted `structural` function that is handed the extended type checker. The error path and expected-shape text of a structural failure are part of its message and not modelled.
- The upgrader is modelled as total (`Doc -> Doc`); an exception it raises is not modelled.
- `get_validator`'s own `lru_cache`: it makes the validator a per-process singleton; as a pure function, `CustomTypeChecker` already returns the same checker for the same base.
- The import-time circular-import workaround (lines 102-104): module plumbing.
- Floating-point values are not part of `Json.Value`.
- SchemaCache.Lookup: cache keys are compared structurally; Python's `lru_cache` compares them with `==`, under which `1`, `1.0` and `True` are the same key.
- SchemaCache.Lookup: only keyword calls `get_schema(model_type=...)` are modelled, and the cache key is the model type alone. `lru_cache` also keys on how the call was made, so `get_schema()`, `get_schema("ecd")` and `get_schema(model_type="ecd")` would be three separate entries competing for the same two slots. The default argument of `get_schema` (line 69) is not modelled either.
- SchemaCache.Lookup: that a lookup returns what an uncached call returns rests on `get_trainer_jsonschema` being a deterministic function of the model type, as its `Value -> Result` type makes it here; a provider that answered differently on a later call would make the cached schema stale in Python.
- Json.Value: a dict is a `map`, so the insertion order of Python dicts is lost. Two documents that differ only in key order are the same value here, so every collaborator answers the same for both, although in Python which error jsonschema's `validate` reports, or which key a `check_*` function fails on first, may depend on that order. For the same reason `PipelineProperties.OnlyTheUpgradeMatters` is about equal values in this model, which is stronger than Python's order-blind `==` on dicts.
- Schema.GetSchema: a fragment provider that takes no argument is modelled by its one answer, so two calls of it cannot answer differently.
- PipelineProperties.StagesSeeUpgradedConfig: the document is a value, so an in-place mutation of `updated_config` by `splitter.validate`, jsonschema's `validate` or a `check_*` function, which later stages would see in Python, is not modelled.
