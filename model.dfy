/** The records of model/logical_db.go, model/rest/create_db_request.go and
    model/logical_db_provider.go. They carry data only; providers are
    functions supplied by the caller. */
module Model {
  import opened Wrappers
  import opened Classifiers
  import opened DbaasErrors

  /** LogicalDb (model/logical_db.go:4-26). */
  datatype LogicalDb = LogicalDb(
    id: string,
    classifier: ClassifierData,
    connectionProperties: ClassifierData,
    namespace: string,
    name: string,
    dbType: string,
    settings: ClassifierData)

  /** BaseDbParams (model/rest/create_db_request.go:4-17). */
  datatype BaseDbParams = BaseDbParams(
    namePrefix: string,
    settings: ClassifierData,
    physicalDatabaseId: string,
    role: string)

  /** CreateDbRequest (model/rest/create_db_request.go:20-32). */
  datatype CreateDbRequest = CreateDbRequest(params: BaseDbParams, classifier: ClassifierData, dbType: string)

  /** What one provider call returns: Go's (value, error) pair, where either
      half may be nil and both may be set. */
  datatype ProviderReply<T> = ProviderReply(value: Option<T>, err: Option<Error>)

  /** LogicalDbProvider (model/logical_db_provider.go:6-9), as the two
      answers a provider gives for a given type, classifier and params. */
  datatype Provider = Provider(
    getOrCreateDb: (string, ClassifierData, BaseDbParams) -> ProviderReply<LogicalDb>,
    getConnection: (string, ClassifierData, BaseDbParams) -> ProviderReply<ClassifierData>)

  /** ClientOptions and PoolOptions (model/logical_db.go:29-40). */
  datatype ClientOptions = ClientOptions(logicalDbProviders: seq<Provider>)
  datatype PoolOptions = PoolOptions(logicalDbProviders: seq<Provider>)
}
