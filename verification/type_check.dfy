/**
 * The structural validator's type checker and the customisation `get_validator`
 * applies to it: the "array" type of JSON Schema (section 6.1.1 of the JSON Schema
 * Validation draft-07) is redefined so that tuples count as arrays alongside lists.
 */
module TypeCheck {
  import opened Json
  import opened Wrappers

  const ArrayType: string := "array"

  /** A type checker maps each JSON Schema type name to its membership test. */
  datatype TypeChecker = TypeChecker(checks: map<string, Value -> bool>)

  /** The checker's verdict on `v` for `name`; None when the name is unknown to it. */
  function IsType(tc: TypeChecker, name: string, v: Value): Option<bool>
  {
    if name in tc.checks then Some(tc.checks[name](v)) else None
  }

  /** `TypeChecker.redefine(name, test)`: a copy of the checker with `name` bound to `test`. */
  function Redefine(tc: TypeChecker, name: string, test: Value -> bool): (r: TypeChecker)
    ensures r.checks.Keys == tc.checks.Keys + {name}
    ensures forall v :: IsType(r, name, v) == Some(test(v))
    ensures forall other, v :: other != name ==> IsType(r, other, v) == IsType(tc, other, v)
  {
    TypeChecker(tc.checks[name := test])
  }

  /**
   * The type checker of the validator class `get_validator` builds from a base
   * (Draft 7) checker: "array" accepts exactly lists and tuples, every other type
   * name keeps the base checker's verdict.
   */
  function CustomTypeChecker(base: TypeChecker): (r: TypeChecker)
    ensures r.checks.Keys == base.checks.Keys + {ArrayType}
    ensures forall v :: IsType(r, ArrayType, v) == Some(v.List? || v.Tuple?)
    ensures forall name, v :: name != ArrayType ==> IsType(r, name, v) == IsType(base, name, v)
  {
    Redefine(base, ArrayType, IsArray)
  }

  /** Draft 7's own array test, which accepts only lists. */
  ghost predicate ListOnlyArrays(tc: TypeChecker)
  {
    forall v :: IsType(tc, ArrayType, v) == Some(v.List?)
  }

  /**
   * Over Draft 7's list-only checker the customisation adds exactly the tuples:
   * a value is an array for the custom checker iff the base accepts it or it is a
   * tuple, and objects, strings, numbers, booleans and null stay rejected.
   */
  lemma TuplesAreTheOnlyAddition(base: TypeChecker, v: Value)
    requires ListOnlyArrays(base)
    ensures (IsType(CustomTypeChecker(base), ArrayType, v) == Some(true))
              <==> (IsType(base, ArrayType, v) == Some(true) || v.Tuple?)
    ensures !v.List? && !v.Tuple? ==> IsType(CustomTypeChecker(base), ArrayType, v) == Some(false)
  {
  }
}
