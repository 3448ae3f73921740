/** cache/dbaas_cache.go: the key a logical database is cached under and the
    map that caches it. The classifier part of a key is what json.Marshal
    writes for the classifier; the model keeps it as the ordered entry list
    (CanonicalJson.Canonical), which determines that text and is determined
    by it. */
module DbaasCache {
  import opened Wrappers
  import opened Classifiers
  import opened DbaasErrors
  import opened CanonicalJson

  /** Key (cache/dbaas_cache.go:9-13). */
  datatype Key = Key(dbType: string, classifier: seq<(string, Value)>, discriminator: string)

  /** NewKey: the type, the classifier as written by json.Marshal, and no
      discriminator. */
  function NewKey(dbType: string, classifier: ClassifierData): (k: Key)
    ensures k.dbType == dbType && k.discriminator == ""
    ensures ToMap(k.classifier) == classifier
    ensures StrictlySorted(k.classifier)
  {
    CanonicalRoundTrip(classifier);
    CanonicalSorted(classifier);
    Key(dbType, Canonical(classifier), "")
  }

  /** NewKeyWithDiscriminator: NewKey with the discriminator's value. */
  function NewKeyWithDiscriminator(dbType: string, classifier: ClassifierData, discriminator: string): (k: Key)
    ensures k.dbType == dbType && k.discriminator == discriminator
    ensures k.classifier == NewKey(dbType, classifier).classifier
    ensures ToMap(k.classifier) == classifier && StrictlySorted(k.classifier)
  {
    NewKey(dbType, classifier).(discriminator := discriminator)
  }

  /** Two calls share a key exactly when the type and the classifier's
      contents agree: the order the map was filled in does not matter. */
  lemma NewKeyInjective(t1: string, c1: ClassifierData, t2: string, c2: ClassifierData)
    ensures NewKey(t1, c1) == NewKey(t2, c2) <==> t1 == t2 && c1 == c2
  {
    CanonicalInjective(c1, c2);
  }

  /** Keys with a discriminator are equal exactly when all three parts are;
      an empty discriminator gives the plain key. */
  lemma NewKeyWithDiscriminatorInjective(t1: string, c1: ClassifierData, d1: string,
                                         t2: string, c2: ClassifierData, d2: string)
    ensures NewKeyWithDiscriminator(t1, c1, d1) == NewKeyWithDiscriminator(t2, c2, d2)
        <==> t1 == t2 && c1 == c2 && d1 == d2
    ensures NewKeyWithDiscriminator(t1, c1, "") == NewKey(t1, c1)
  {
    NewKeyInjective(t1, c1, t2, c2);
  }

  /** What one Cache call does to the map: a stored value is returned as is
      and compute is not run; otherwise compute runs once, and its value is
      stored and returned, or its error returned and nothing stored. */
  datatype CacheStep<V> = CacheStep(result: Result<V, Error>, entries: map<Key, V>, computed: bool)

  function CacheSpec<V>(entries: map<Key, V>, key: Key, compute: () -> Result<V, Error>): (s: CacheStep<V>)
    ensures s.computed <==> key !in entries
    ensures key in entries ==> s.result == Success(entries[key]) && s.entries == entries
    ensures key !in entries ==> s.result == compute()
    ensures s.entries.Keys == entries.Keys + (if s.result.Success? then {key} else {})
    ensures s.result.Success? ==> key in s.entries && s.entries[key] == s.result.value
    ensures forall k :: k in entries && k != key ==> s.entries[k] == entries[k]
  {
    if key in entries then CacheStep(Success(entries[key]), entries, false)
    else
      match compute()
      case Success(v) => CacheStep(Success(v), entries[key := v], true)
      case Failure(e) => CacheStep(Failure(e), entries, true)
  }

  /** DbaaSCache (cache/dbaas_cache.go:15-18). */
  class DbaaSCache<V> {
    var logicalDbCache: map<Key, V>

    constructor ()
      ensures logicalDbCache == map[]
    {
      logicalDbCache := map[];
    }

    /** Cache (cache/dbaas_cache.go:45-69); computed says whether compute
        ran. */
    method Cache(key: Key, compute: () -> Result<V, Error>) returns (r: Result<V, Error>, computed: bool)
      modifies this
      ensures CacheStep(r, logicalDbCache, computed) == CacheSpec(old(logicalDbCache), key, compute)
    {
      if key in logicalDbCache {
        return Success(logicalDbCache[key]), false;
      }
      var calculated := compute();
      if calculated.Success? {
        logicalDbCache := logicalDbCache[key := calculated.value];
      }
      return calculated, true;
    }

    /** Delete (cache/dbaas_cache.go:71-76). */
    method Delete(key: Key)
      modifies this
      ensures logicalDbCache == old(logicalDbCache) - {key}
    {
      logicalDbCache := logicalDbCache - {key};
    }
  }

  /** Once a value is stored, later calls under that key return it without
      running their own compute, whatever that compute would give. */
  lemma CachedValueSticks<V>(entries: map<Key, V>, key: Key, compute: () -> Result<V, Error>,
                             later: () -> Result<V, Error>)
    requires CacheSpec(entries, key, compute).result.Success?
    ensures var first := CacheSpec(entries, key, compute);
      CacheSpec(first.entries, key, later) == CacheStep(first.result, first.entries, false)
  {
  }

  /** A failed compute leaves nothing behind: the next call runs compute again. */
  lemma FailureNotCached<V>(entries: map<Key, V>, key: Key, compute: () -> Result<V, Error>,
                            later: () -> Result<V, Error>)
    requires CacheSpec(entries, key, compute).result.Failure?
    ensures var first := CacheSpec(entries, key, compute);
      first.entries == entries && CacheSpec(first.entries, key, later).computed
  {
  }

  /** After Delete the next call under that key runs compute again, and no other
      key is affected. */
  lemma DeleteForcesRecompute<V>(entries: map<Key, V>, key: Key, other: Key, compute: () -> Result<V, Error>)
    requires other != key
    ensures CacheSpec(entries - {key}, key, compute).computed
    ensures CacheSpec(entries - {key}, other, compute).computed <==> CacheSpec(entries, other, compute).computed
  {
  }

  /** The map after Delete is called with each of keys in turn. */
  function AfterDeletes<V>(entries: map<Key, V>, keys: seq<Key>): (r: map<Key, V>)
    ensures r.Keys == entries.Keys - (set k | k in keys)
    ensures forall k :: k in r ==> r[k] == entries[k]
    decreases |keys|
  {
    if keys == [] then entries else AfterDeletes(entries - {keys[0]}, keys[1..])
  }

  /** Deleting a key twice is deleting it once, and deleting every stored key
      empties the cache. */
  lemma DeleteIdempotentAndExhaustive<V>(entries: map<Key, V>, key: Key, keys: seq<Key>)
    ensures AfterDeletes(entries, [key, key]) == AfterDeletes(entries, [key])
    ensures (forall k :: k in entries ==> k in keys) ==> AfterDeletes(entries, keys) == map[]
  {
    assert AfterDeletes(entries, [key, key]).Keys == AfterDeletes(entries, [key]).Keys;
  }
}
