/**
 * JSON-like values as they appear in a Ludwig configuration dict after loading:
 * Python's None, bool, int, str, list, tuple and dict. Lists and tuples are kept
 * apart because the validator's array test has to accept both.
 */
module Json {

  datatype Value =
    | Null
    | Bool(b: bool)
    | Int(n: int)
    | Str(s: string)
    | List(items: seq<Value>)
    | Tuple(items: seq<Value>)
    | Object(fields: map<string, Value>)

  /** A configuration document: the top-level dict with string keys. */
  type Doc = map<string, Value>

  /** Python's `d.get(key, default)`. */
  function Get(d: map<string, Value>, key: string, default: Value): Value
  {
    if key in d then d[key] else default
  }

  /** `isinstance(instance, list) or isinstance(instance, tuple)`. */
  predicate IsArray(v: Value)
  {
    match v
    case List(_) => true
    case Tuple(_) => true
    case _ => false
  }

  /**
   * Whether Python can hash the value: scalars can, lists and dicts cannot,
   * and a tuple can exactly when all its elements can.
   */
  predicate Hashable(v: Value)
  {
    match v
    case List(_) => false
    case Object(_) => false
    case Tuple(items) => forall i | 0 <= i < |items| :: Hashable(items[i])
    case _ => true
  }

  /** None, a bool, an int or a string. */
  predicate Scalar(v: Value)
  {
    v.Null? || v.Bool? || v.Int? || v.Str?
  }

  /** `v` with its tuples flattened away, at any depth: the non-tuple values it is built from, in order. */
  function Leaves(v: Value): seq<Value>
    decreases v
  {
    match v
    case Tuple(items) => LeavesOf(items)
    case _ => [v]
  }

  function LeavesOf(items: seq<Value>): seq<Value>
    decreases items
  {
    if items == [] then [] else Leaves(items[0]) + LeavesOf(items[1..])
  }

  /**
   * Hashing descends through tuples and fails at the first list or dict it
   * meets: a value is hashable exactly when flattening its tuples leaves
   * only None, bools, ints and strings.
   */
  lemma {:induction false} HashableIffScalarLeaves(v: Value)
    ensures Hashable(v) <==> forall k | 0 <= k < |Leaves(v)| :: Scalar(Leaves(v)[k])
    decreases v
  {
    if v.Tuple? {
      ItemsHashableIffScalarLeaves(v.items);
      assert Leaves(v) == LeavesOf(v.items);
    } else {
      assert Leaves(v) == [v] && Leaves(v)[0] == v;
      if !Hashable(v) {
        assert !Scalar(Leaves(v)[0]);
      }
    }
  }

  lemma {:induction false} ItemsHashableIffScalarLeaves(items: seq<Value>)
    ensures (forall i | 0 <= i < |items| :: Hashable(items[i]))
        <==> forall k | 0 <= k < |LeavesOf(items)| :: Scalar(LeavesOf(items)[k])
    decreases items
  {
    if items != [] {
      var head, rest := Leaves(items[0]), LeavesOf(items[1..]);
      HashableIffScalarLeaves(items[0]);
      ItemsHashableIffScalarLeaves(items[1..]);
      var all := LeavesOf(items);
      assert all == head + rest;
      if forall i | 0 <= i < |items| :: Hashable(items[i]) {
        assert Hashable(items[0]);
        assert forall k | 0 <= k < |Leaves(items[0])| :: Scalar(Leaves(items[0])[k]);
        assert forall i | 0 <= i < |items[1..]| :: items[1..][i] == items[i + 1];
        assert forall i | 0 <= i < |items[1..]| :: Hashable(items[1..][i]);
        assert forall k | 0 <= k < |rest| :: Scalar(rest[k]);
        forall k | 0 <= k < |all| ensures Scalar(all[k]) {
          if k < |head| {
            assert all[k] == head[k] && Scalar(head[k]);
          } else {
            assert all[k] == rest[k - |head|] && Scalar(rest[k - |head|]);
          }
        }
      } else {
        var i :| 0 <= i < |items| && !Hashable(items[i]);
        if i == 0 {
          var k :| 0 <= k < |head| && !Scalar(head[k]);
          assert all[k] == head[k];
        } else {
          assert items[1..][i - 1] == items[i];
          var k :| 0 <= k < |rest| && !Scalar(rest[k]);
          assert all[|head| + k] == rest[k];
        }
      }
    }
  }
}
