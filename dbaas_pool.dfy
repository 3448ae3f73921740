/** DbaaSPool (dbaas_pool.go): a client with a cache of logical databases in
    front of GetOrCreateDb. */
module DbaasPool {
  import opened Wrappers
  import opened Classifiers
  import opened DbaasErrors
  import opened Model
  import opened DbaasRetry
  import opened DbaasClient
  import opened DbaasCache

  class DbaaSPool {
    const poolCache: DbaaSCache<LogicalDb>
    const client: Client

    /** NewDbaaSPool: an empty cache, and a client whose providers are those
        of the first options value (none if no options are given). */
    constructor (options: seq<PoolOptions>, configuredAgentUrl: Option<string>, tlsEnabled: bool, namespace: string)
      ensures fresh(poolCache) && poolCache.logicalDbCache == map[]
      ensures client.options.logicalDbProviders
           == (if |options| > 0 then options[0].logicalDbProviders else [])
      ensures client.namespace == namespace
      ensures client == NewDbaasClient([ClientOptions(if |options| > 0 then options[0].logicalDbProviders else [])],
                                       configuredAgentUrl, tlsEnabled, namespace)
    {
      poolCache := new DbaaSCache();
      var clientOptions := ClientOptions(if |options| > 0 then options[0].logicalDbProviders else []);
      client := NewDbaasClient([clientOptions], configuredAgentUrl, tlsEnabled, namespace);
    }

    /** GetOrCreateDb (dbaas_pool.go:28-38): the key is built from the
        classifier as the caller passed it, before the client enriches it. A
        cached database is returned without touching the caller's map;
        otherwise the client's GetOrCreateDb runs (enriching the map) and a
        database it returns is cached under that key. */
    method GetOrCreateDb(dbType: string, classifier: ClassifierMap, params: BaseDbParams,
                         dbaas: CreateDbRequest -> Exchange, decode: string -> Result<LogicalDb, string>)
      returns (result: Result<LogicalDb, Error>)
      modifies poolCache, classifier
      ensures var key := NewKey(dbType, old(classifier.entries));
        && (key in old(poolCache.logicalDbCache) ==>
              && result == Success(old(poolCache.logicalDbCache)[key])
              && poolCache.logicalDbCache == old(poolCache.logicalDbCache)
              && classifier.entries == old(classifier.entries))
        && (key !in old(poolCache.logicalDbCache) ==>
              && result == GetOrCreateDbOutcome(client, dbType, old(classifier.entries), params, dbaas, decode).result
              && classifier.entries == Enriched(old(classifier.entries), client.namespace)
              && poolCache.logicalDbCache
                 == (if result.Success? then old(poolCache.logicalDbCache)[key := result.value]
                     else old(poolCache.logicalDbCache)))
    {
      var entries := classifier.entries;
      var key := NewKey(dbType, entries);
      var compute := () => GetOrCreateDbOutcome(client, dbType, entries, params, dbaas, decode).result;
      var computed;
      result, computed := poolCache.Cache(key, compute);
      if computed {
        assert result == compute();
        EnrichClassifier(client, classifier);
      }
    }

    /** GetConnection (dbaas_pool.go:40-47): the client's GetConnection, with
        no caching. */
    method GetConnection(dbType: string, classifier: ClassifierMap, params: BaseDbParams,
                         dbaas: ConnectionRequest -> Exchange, decode: string -> Result<ClassifierData, string>)
      returns (result: Result<ClassifierData, Error>)
      modifies classifier
      ensures result == GetConnectionOutcome(client, dbType, old(classifier.entries), params, dbaas, decode).result
      ensures classifier.entries == Enriched(old(classifier.entries), client.namespace)
    {
      var sends, delays;
      result, sends, delays := DbaasClient.GetConnection(client, dbType, classifier, params, dbaas, decode);
    }
  }

  /** The key of the enriched map is the key of the map as passed exactly when
      the map already had a namespace. So a caller that passes the same map
      object again after a first call enriched it looks under another key,
      misses, and goes to the client again. */
  lemma EnrichmentChangesKey(dbType: string, classifier: ClassifierData, namespace: string)
    ensures NewKey(dbType, Enriched(classifier, namespace)) == NewKey(dbType, classifier)
        <==> Present(classifier, "namespace")
  {
    NewKeyInjective(dbType, Enriched(classifier, namespace), dbType, classifier);
    assert Present(Enriched(classifier, namespace), "namespace");
  }
}
