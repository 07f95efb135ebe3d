/** The part of the query cache the hooks depend on: array keys, prefix matching, and the
    three calls the mutations make (`invalidateQueries`, `setQueryData`, `removeQueries`).
    The cache is a map from keys to entries; invalidation only marks entries stale. */
module QueryCache {

  /** One element of a query key: a string, or the filters object of a list key. */
  datatype KeyPart = S(s: string) | Filters(f: map<string, string>)

  type Key = seq<KeyPart>

  /** A cached value and whether it must be refetched. */
  datatype Entry<V> = Entry(value: V, stale: bool)

  datatype CacheOp<V> =
    | Invalidate(prefix: Key)
    | SetData(key: Key, value: V)
    | Remove(prefix: Key)

  /** A filter `{ queryKey: prefix }` matches every key that starts with the prefix. */
  predicate Matches(prefix: Key, key: Key) {
    prefix <= key
  }

  /** The cache after one call. */
  function Apply<V>(cache: map<Key, Entry<V>>, op: CacheOp<V>): (r: map<Key, Entry<V>>)
    ensures op.Invalidate? ==> r.Keys == cache.Keys
    ensures op.Invalidate? ==> forall k :: k in cache ==>
              r[k] == if Matches(op.prefix, k) then cache[k].(stale := true) else cache[k]
    ensures op.SetData? ==> r == cache[op.key := Entry(op.value, false)]
    ensures op.Remove? ==> r.Keys == set k | k in cache && !Matches(op.prefix, k)
    ensures op.Remove? ==> forall k :: k in r ==> r[k] == cache[k]
  {
    match op
    case Invalidate(prefix) =>
      map k | k in cache :: if Matches(prefix, k) then cache[k].(stale := true) else cache[k]
    case SetData(key, value) => cache[key := Entry(value, false)]
    case Remove(prefix) => map k | k in cache && !Matches(prefix, k) :: cache[k]
  }

  /** The cache after a sequence of calls, in order. */
  function ApplyAll<V>(cache: map<Key, Entry<V>>, ops: seq<CacheOp<V>>): map<Key, Entry<V>>
    decreases |ops|
  {
    if ops == [] then cache else ApplyAll(Apply(cache, ops[0]), ops[1..])
  }

  /** A call whose prefix does not match a key leaves that key's entry alone. */
  lemma UnmatchedUntouched<V>(cache: map<Key, Entry<V>>, op: CacheOp<V>, k: Key)
    requires k in cache
    requires op.Invalidate? || op.Remove? ==> !Matches(op.prefix, k)
    requires op.SetData? ==> op.key != k
    ensures k in Apply(cache, op) && Apply(cache, op)[k] == cache[k]
  {
  }

  /** Two key families under the same root that differ at index 1 never match each
      other's keys: neither prefix is a prefix of a key under the other. */
  lemma {:induction false} FamiliesSeparate(root: KeyPart, a: string, b: string, x: Key, y: Key)
    requires a != b
    ensures !Matches([root, S(a)], [root, S(b)] + y)
    ensures !Matches([root, S(a)] + x, [root, S(b)] + y)
  {
    assert ([root, S(b)] + y)[1] == S(b);
    assert ([root, S(a)] + x)[1] == S(a);
  }

  /** Applying two calls one after the other. */
  lemma ApplyTwo<V>(cache: map<Key, Entry<V>>, a: CacheOp<V>, b: CacheOp<V>)
    ensures ApplyAll(cache, [a, b]) == Apply(Apply(cache, a), b)
  {
    assert [a, b][0] == a && [a, b][1..] == [b];
    assert [b][0] == b && [b][1..] == [];
    calc {
      ApplyAll(cache, [a, b]);
      ApplyAll(Apply(cache, a), [b]);
      ApplyAll(Apply(Apply(cache, a), b), []);
    }
  }
}
