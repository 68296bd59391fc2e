/**
 * The `lru_cache(maxsize=2)` around `get_schema`: entries are kept most recently
 * used first, a hit moves its entry to the front, a successful miss is inserted at
 * the front and evicts the least recently used entry beyond the capacity, and a
 * call that raises caches nothing. Its observable consequence is determinism:
 * every lookup returns what an uncached call would.
 */
module SchemaCache {
  import opened Wrappers
  import opened Json
  import opened Errors
  import opened Schema

  const Capacity: nat := 2

  datatype Entry = Entry(key: Value, schema: Schema)

  /** Cached schemas, most recently used first. */
  datatype Cache = Cache(entries: seq<Entry>)

  const Empty: Cache := Cache([])

  /**
   * What a call of the decorated `get_schema(model_type=modelType)` yields without
   * regard to the cache's state: it raises when the key cannot be hashed (before
   * any provider runs) or when a provider raises, with the message of the first
   * provider to raise in the literal's order, and otherwise yields a
   * well-shaped schema holding each provider's fragment.
   */
  function SchemaOf(p: Providers, modelType: Value): (r: Result<Schema, Reason>)
    ensures r.Failure? <==> !Hashable(modelType) || exists i | 0 <= i < |KeyOrder| :: Fragments(p, modelType)[i].Failure?
    ensures !Hashable(modelType) ==> r == Failure(Unhashable)
    ensures Hashable(modelType) && r.Failure? ==>
      && r.error.Raised?
      && exists i | 0 <= i < |KeyOrder| ::
           && Fragments(p, modelType)[i] == Failure(r.error.message)
           && forall j | 0 <= j < i :: Fragments(p, modelType)[j].Success?
    ensures r.Success? ==>
      && WellShaped(r.value)
      && p.trainer(modelType) == Success(r.value.properties[TRAINER])
      && forall i | 0 <= i < |KeyOrder| :: Fragments(p, modelType)[i] == Success(r.value.properties[KeyOrder[i]])
  {
    if !Hashable(modelType) then Failure(Unhashable)
    else match GetSchema(p, modelType)
      case Success(s) => Success(s)
      case Failure(msg) => Failure(Raised(msg))
  }

  /** Every key a cache holds is distinct. */
  predicate DistinctKeys(entries: seq<Entry>)
  {
    forall i, j | 0 <= i < j < |entries| :: entries[i].key != entries[j].key
  }

  /** A cache within its capacity whose every entry is the schema its key builds. */
  predicate Valid(p: Providers, c: Cache)
  {
    && |c.entries| <= Capacity
    && DistinctKeys(c.entries)
    && forall i | 0 <= i < |c.entries| :: Correct(p, c.entries[i])
  }

  /** An entry holds the schema its hashable key builds. */
  predicate Correct(p: Providers, e: Entry)
  {
    Hashable(e.key) && GetSchema(p, e.key) == Success(e.schema)
  }

  /** The keys a cache holds. */
  function Keys(c: Cache): set<Value>
  {
    set i | 0 <= i < |c.entries| :: c.entries[i].key
  }

  /** Position of `key` among the entries, or -1 when it is not cached. */
  function Find(entries: seq<Entry>, key: Value): (i: int)
    ensures -1 <= i < |entries|
    ensures 0 <= i ==> entries[i].key == key
    ensures i < 0 ==> forall j | 0 <= j < |entries| :: entries[j].key != key
  {
    if entries == [] then -1
    else if entries[0].key == key then 0
    else
      var k := Find(entries[1..], key);
      if k < 0 then -1 else k + 1
  }

  /** The entries with the one at `i` moved to the front, as on a cache hit. */
  function MoveToFront(entries: seq<Entry>, i: nat): (moved: seq<Entry>)
    requires i < |entries|
    requires DistinctKeys(entries)
    ensures |moved| == |entries|
    ensures moved[0] == entries[i]
    ensures 0 < i ==> moved[1] == entries[0]
    ensures DistinctKeys(moved)
    ensures forall j | 0 <= j < |moved| :: moved[j] in entries
  {
    var moved := [entries[i]] + entries[..i] + entries[i + 1..];
    assert forall j | 0 < j <= i :: moved[j] == entries[j - 1];
    assert forall j | i < j < |moved| :: moved[j] == entries[j];
    moved
  }

  /**
   * A new entry at the front, evicting the least recently used one when the
   * capacity would be exceeded, as on a successful miss.
   */
  function Insert(entries: seq<Entry>, e: Entry): (grown: seq<Entry>)
    requires |entries| <= Capacity
    requires DistinctKeys(entries)
    requires forall j | 0 <= j < |entries| :: entries[j].key != e.key
    ensures 0 < |grown| <= Capacity
    ensures grown[0] == e
    ensures 0 < |entries| ==> 1 < |grown| && grown[1] == entries[0]
    ensures DistinctKeys(grown)
    ensures forall j | 0 < j < |grown| :: grown[j] in entries
  {
    var all := [e] + entries;
    assert forall j | 0 < j < |all| :: all[j] == entries[j - 1];
    if |all| <= Capacity then all else all[..Capacity]
  }

  /**
   * One call of the cached `get_schema`: the result always equals the uncached
   * one, the cache stays valid, and a failure leaves the cache as it was.
   */
  function Lookup(p: Providers, c: Cache, modelType: Value): (r: (Result<Schema, Reason>, Cache))
    requires Valid(p, c)
    ensures r.0 == SchemaOf(p, modelType)
    ensures Valid(p, r.1)
    ensures r.0.Failure? ==> r.1 == c
  {
    if !Hashable(modelType) then (Failure(Unhashable), c)
    else
      var i := Find(c.entries, modelType);
      if 0 <= i then
        HitKeepsValid(p, c, i);
        (Success(c.entries[i].schema), Cache(MoveToFront(c.entries, i)))
      else
        match GetSchema(p, modelType)
        case Failure(msg) => (Failure(Raised(msg)), c)
        case Success(s) =>
          InsertKeepsValid(p, c, Entry(modelType, s));
          (Success(s), Cache(Insert(c.entries, Entry(modelType, s))))
  }

  /**
   * Least-recently-used order: a successful lookup leaves its key most recently
   * used, and the entry that was most recent before, if it is another key, next.
   */
  lemma LookupRecency(p: Providers, c: Cache, modelType: Value)
    requires Valid(p, c)
    ensures var r := Lookup(p, c, modelType);
      r.0.Success? ==>
        && 0 < |r.1.entries|
        && r.1.entries[0] == Entry(modelType, r.0.value)
        && (0 < |c.entries| && c.entries[0].key != modelType ==> 1 < |r.1.entries| && r.1.entries[1] == c.entries[0])
  {
  }

  lemma HitKeepsValid(p: Providers, c: Cache, i: nat)
    requires Valid(p, c) && i < |c.entries|
    ensures Valid(p, Cache(MoveToFront(c.entries, i)))
  {
  }

  lemma InsertKeepsValid(p: Providers, c: Cache, e: Entry)
    requires Valid(p, c) && Correct(p, e)
    requires forall j | 0 <= j < |c.entries| :: c.entries[j].key != e.key
    ensures Valid(p, Cache(Insert(c.entries, e)))
  {
  }

  /**
   * With capacity two, looking up two model types in turn leaves both cached,
   * so alternating between them never rebuilds a schema.
   */
  lemma TwoModelTypesStayCached(p: Providers, c: Cache, a: Value, b: Value)
    requires Valid(p, c)
    requires SchemaOf(p, a).Success? && SchemaOf(p, b).Success?
    ensures var c2 := Lookup(p, Lookup(p, c, a).1, b).1;
      a in Keys(c2) && b in Keys(c2)
  {
    var c1 := Lookup(p, c, a).1;
    var c2 := Lookup(p, c1, b).1;
    LookupRecency(p, c, a);
    LookupRecency(p, c1, b);
    assert c2.entries[0].key == b;
    if a != b {
      assert c2.entries[1] == c1.entries[0];
    }
  }
}
