# DbaaS base client, modelled in Dafny

This project models the client side of the DbaaS (database-as-a-service)
base client library for Go. A microservice uses that library to get or create
its logical databases and to fetch their connection properties. The project
covers five parts:

- **Classifiers.** The dynamic map that names a database. The client fills in
  its namespace in place (`enrichClassifier`) and checks the map with an
  ordered chain of rules (`isValidClassifier`). The library also builds the
  standard service and tenant classifiers.
- **Providers.** Logical-database providers are asked in order before any
  request goes out. An error aborts the walk; the first value wins.
- **The request path.** The retry loop `retryRequestToDbaaS` sends up to
  `maxAttempts + 1` requests. It sleeps after 202 Accepted, after statuses of
  300 or more, and after transport failures. It stops at once on the statuses
  the retry policy lists. When the loop gives up after a response
  (exhausted or interrupted), the error carries the last status and an
  `/api-version` probe runs; a failing probe supplies the message. A transport failure on the last attempt runs no probe and reports
  "Failed to connect to dbaas.". `sendRequestToDbaaSWithRetry` wraps the loop with
  the token check, the payload encoding and the reading of the body.
- **The cache.** A map keyed by database type, classifier and discriminator,
  with get-or-compute and delete operations. The classifier part of the key is
  the classifier's `json.Marshal` text, which depends only on the map's
  contents because the encoder sorts map keys.
- **The pool.** The cache in front of `GetOrCreateDb`. `GetConnection` goes
  straight to the client.

Modules follow the Go files:

| module | file | models |
|---|---|---|
| `Wrappers` | `wrappers.dfy` | `Option` and `Result` |
| `DbaasErrors` | `dbaas_errors.dfy` | `model/dbaas_errors.go`, with Go's `%d` |
| `Classifiers` | `classifiers.dfy` | the classifier's values, and the shared mutable map class `ClassifierMap` |
| `Model` | `model.dfy` | the records of `model/` and `model/rest/`, and providers as pairs of functions |
| `CanonicalJson` | `canonical_json.dfy` | the key-sorted form `json.Marshal` gives a map |
| `RetryPolicies` | `retry_policy.dfy` | `internal/model/retry_policy.go` |
| `DbaasRetry` | `dbaas_retry.dfy` | the request path of `dbaas_client.go` |
| `DbaasClient` | `dbaas_client.dfy` | validation, enrichment, the provider walk, `GetOrCreateDb` and `GetConnection` |
| `DbaasCache` | `dbaas_cache.dfy` | `cache/dbaas_cache.go` |
| `DbaasPool` | `dbaas_pool.dfy` | `dbaas_pool.go` |
| `BaseClassifiers` | `base_classifier.dfy` | `dbaas_base_classifier.go` |

Everything outside the process becomes an input:

- **The DbaaS agent** is a function from the request the client sends to an
  `Exchange`. An `Exchange` gives:
  - the token provider's error, if any;
  - the payload encoder's error, if any;
  - the outcome of every attempt, as a function of the attempt index;
  - the attempt budget;
  - the probe's outcome;
  - the body reader's error, if any.
- **Decoding a response body** is a function parameter.
- **Configuration values** are parameters: the agent URL, the TLS setting,
  the namespace, the microservice name and the attempt budget.
- **The tenant id of the context** is a parameter.
- **Sleeps** are counted, not timed.

Panics become an `Error.Panic` value. The model has three of them:

- `BaseTenantClassifier` with the tenant id "-";
- the nil response that an empty retry loop (`maxAttempts < 0`) leaves behind;
- the type assertion on `connectionProperties`.

Two behaviours of the code that the model takes as written:

- `[]int{400: 404}` in `NoRetryPolicyForGetConnection` is an indexed
  composite literal: 400 zeros, then 404. So `GetConnection` stops at once
  only on 404 (and 0), and it retries 400, 401 and 403.
- The pool builds the cache key before the client enriches the caller's map.
  So the same map passed a second time can miss the cache
  (`DbaasPool.EnrichmentChangesKey`).

## Model

| member | source | states |
|---|---|---|
| DbaasErrors.Decimal | model/dbaas_errors.go:12 | `%d` of an int: a leading minus exactly for negatives, then only digits, with no leading zero ("0" exactly for zero) |
| DbaasErrors.NatDecimalRoundTrip | model/dbaas_errors.go:12 | reading back the digits of a natural number gives the number |
| DbaasErrors.DecimalRoundTrip | model/dbaas_errors.go:12 | `%d` is read back to the same int, so the rendering is injective |
| DbaasErrors.ErrorText | model/dbaas_errors.go:11-13 | `Error()` starts with "Response code: " and ends with the message |
| DbaasErrors.ErrorTextInjective | model/dbaas_errors.go:5-13 | two errors render the same text exactly when code and message agree; the wrapped cause never shows |
| DbaasErrors.ZeroCodeText | model/dbaas_errors.go:12 | a code of zero renders as "Response code: 0, Message: " followed by the message |
| Classifiers.Lookup | dbaas_client.go:167 | `classifier[key]` is the stored value, or nil for a missing key |
| Classifiers.ClassifierMap.constructor | dbaas_client.go:166-171 | a map object holding the given entries, shared by the caller and the client |
| CanonicalJson.BelowTotal | cache/dbaas_cache.go:31 | Go's string order is total and asymmetric, so sorted keys are well defined |
| CanonicalJson.BelowTransitive | cache/dbaas_cache.go:31 | Go's string order is transitive |
| CanonicalJson.LeastExists | cache/dbaas_cache.go:31 | every non-empty key set has a least key |
| CanonicalJson.LeastUnique | cache/dbaas_cache.go:31 | the least key is unique |
| CanonicalJson.LeastKey | cache/dbaas_cache.go:31 | picks the least key of a non-empty set |
| CanonicalJson.Canonical | cache/dbaas_cache.go:31 | the encoded entries: one per key, each with the map's value |
| CanonicalJson.CanonicalSorted | cache/dbaas_cache.go:31 | the encoded entries are in strictly ascending key order |
| CanonicalJson.CanonicalRoundTrip | cache/dbaas_cache.go:31 | decoding the encoded entries gives back the map |
| CanonicalJson.CanonicalInjective | cache/dbaas_cache.go:31 | two maps encode the same exactly when they are equal, whatever their insertion order |
| RetryPolicies.HasNotRetryableHttpCode | internal/model/retry_policy.go:13-20 | the search returns true exactly when the code is in the policy's slice |
| RetryPolicies.NoRetryPolicyCodes | internal/model/retry_policy.go:5 | the create policy stops exactly on 401 and 403 |
| RetryPolicies.NoRetryPolicyForGetConnectionCodes | internal/model/retry_policy.go:4 | the connection policy is a 401-entry slice that stops exactly on 0 and 404 |
| RetryPolicies.EmptyRetryPolicyCodes | internal/model/retry_policy.go:6 | the empty policy stops on no code |
| DbaasRetry.CheckDbaasApiVersion | dbaas_client.go:316-337 | the probe passes exactly on a 200; any other status gives "API v3 dbaas-aggregator is not available"; a failed request gives its own error |
| DbaasRetry.ConnectFailure | dbaas_client.go:227-236 | a transport failure on the last attempt: code 0, "Failed to connect to dbaas.", cause wrapping the transport error |
| DbaasRetry.ConnectFailureText | dbaas_client.go:232-236 | the octal literal `000` renders as "Response code: 0, Message: Failed to connect to dbaas." |
| DbaasRetry.TerminalError | dbaas_client.go:256-276 | carries the last status; a failed probe gives the API message; otherwise "Incorrect response… Stop retrying" if interrupted, "Failed to get response from DbaaS." if exhausted; the cause is the probe's error, or else "request to DbaaS failed with response body: " and the last body |
| DbaasRetry.RetryRequestToDbaaS | dbaas_client.go:205-280 | the loop's result, requests sent, sleeps and probe equal the specification `RetryFrom` from attempt 0 |
| DbaasRetry.RetryFromBounds | dbaas_client.go:210-279 | at most one request per remaining attempt and one sleep per request; never ends without an answer once it runs; a delivered response is a 200/201 the last request received; the probe runs only before a response error |
| DbaasRetry.DefaultBudget | dbaas_client.go:207-208 | with the default budget of 12, at most 13 requests and 65 seconds of sleep |
| DbaasRetry.RetryWithoutAttempts | dbaas_client.go:209-210 | a negative budget runs no attempt and yields no response |
| DbaasRetry.DelaysInSnoc | dbaas_client.go:237-254 | the sleeps over attempts i to j include attempt j's as the last term |
| DbaasRetry.AllDelayed | dbaas_client.go:237-254 | a run of attempts that each sleep sleeps once per attempt |
| DbaasRetry.RetriedPrefix | dbaas_client.go:224-256 | retried attempts can be skipped, adding one request each and the sleeps they cause |
| DbaasRetry.DelayedRetriesThenSuccess | dbaas_client.go:237-254 | k retried attempts that sleep, then a success: k + 1 requests and k sleeps |
| DbaasRetry.AcceptedThenOk | dbaas_client.go:248-250 | k 202s then a 200 give the 200's body after exactly k sleeps |
| DbaasRetry.AlwaysTransportFailure | dbaas_client.go:224-240 | transport failures throughout: maxAttempts + 1 requests, maxAttempts sleeps, code 0, no probe |
| DbaasRetry.NotRetryableStops | dbaas_client.go:245-247 | a listed status stops on that attempt with one request, no sleep, the probe, and the interrupted message |
| DbaasRetry.Exhausted | dbaas_client.go:251-276 | unlisted failures throughout use every attempt; the last attempt still sleeps before the probe; the error carries the last status |
| DbaasRetry.QuietRetry | dbaas_client.go:243-256 | a 2xx other than 200, 201 and 202 uses up an attempt without a sleep |
| DbaasRetry.SendRequestToDbaaSWithRetry | dbaas_client.go:173-203 | equals the specification `SendOutcome`; token and payload errors come first and send nothing |
| DbaasRetry.SendOutcomeDelivers | dbaas_client.go:186-202 | content is returned only from the body of a 200/201, after at most maxAttempts + 1 requests, and only when no earlier step failed |
| DbaasClient.IsValidClassifier | dbaas_client.go:282-314 | no error exactly for accepted classifiers; each failing check exactly when it is the first to fail (empty, microserviceName, namespace, tenantId, scope) |
| DbaasClient.MessageInjective | dbaas_client.go:284-311 | the five validation messages differ, so the error text tells which check failed |
| DbaasClient.NewDbaasClient | dbaas_client.go:50-66 | the first options value or none; the configured agent URL or the TLS-dependent default; the namespace |
| DbaasClient.Enriched | dbaas_client.go:166-171 | a namespace is always present afterwards; an existing one, and every other key, is unchanged |
| DbaasClient.EnrichedIdempotent | dbaas_client.go:166-171 | enriching again changes nothing |
| DbaasClient.EnrichedValidation | dbaas_client.go:69-70 | after enrichment the empty and namespace messages cannot occur, and validation passes exactly on the microserviceName and scope rules |
| DbaasClient.EnrichClassifier | dbaas_client.go:166-171 | the caller's map becomes its enrichment |
| DbaasClient.Chain | dbaas_client.go:106-118 | the first provider reply that is not empty decides: an error (checked first) aborts, a value is returned; if every reply is empty, nothing is provided after all were asked |
| DbaasClient.ChainFirstDecides | dbaas_client.go:106-118 | whatever the later replies, the first reply that is not empty decides the walk, and no provider after it is asked |
| DbaasClient.GetDbFromProviders | dbaas_client.go:106-118 | the loop returns what `Chain` decides for the providers' GetOrCreateDb replies |
| DbaasClient.GetConnectionFromProviders | dbaas_client.go:151-164 | the loop returns what `Chain` decides for the providers' GetConnection replies |
| DbaasClient.GetOrCreateDb | dbaas_client.go:68-104 | enriches the caller's map, and its result and request counts equal the specification `GetOrCreateDbOutcome` |
| DbaasClient.ConnectionRequestFor | dbaas_client.go:128-132 | the posted body carries the classifier, and userRole exactly when the role is non-empty |
| DbaasClient.ConnectionProperties | dbaas_client.go:145 | succeeds exactly when the body's connectionProperties is an object, and returns it; otherwise a panic |
| DbaasClient.GetConnection | dbaas_client.go:120-149 | enriches the caller's map, and its result and request counts equal the specification `GetConnectionOutcome` |
| DbaasClient.GetOrCreateDbValidates | dbaas_client.go:69-73 | a database is returned only for an accepted enriched classifier; a rejected one returns its message with no request |
| DbaasClient.EmptyClassifierNeedsMicroserviceName | dbaas_client.go:69-73 | an empty classifier fails with the microserviceName message, not the empty one |
| DbaasClient.GetOrCreateDbProviderFirst | dbaas_client.go:79-91 | the first provider that is not silent decides with no request: its error, or else its database; a request goes out only when every provider is silent, and then the result is DbaaS's |
| DbaasClient.GetConnectionProviderFirst | dbaas_client.go:124-134 | the same for GetConnection: the first provider that is not silent gives its error or connection properties with no request; when all are silent the enriched request goes to DbaaS |
| DbaasClient.GetOrCreateDbFromDbaas | dbaas_client.go:91-103 | a database from DbaaS is the decoded body of a 200/201 to one of at most maxAttempts + 1 requests |
| DbaasClient.DecodeDbDelivers | dbaas_client.go:91-103 | after the DbaaS request path, at most maxAttempts + 1 requests, and a database only after at least one request, as the decoded body of a 200/201 the last request received |
| DbaasClient.GetOrCreateDbStopsOnForbidden | dbaas_client.go:91 | a first 403 ends GetOrCreateDb after one request and no sleep |
| DbaasClient.GetConnectionSkipsValidation | dbaas_client.go:120-134 | with no providers, every classifier goes to DbaaS enriched, unvalidated |
| DbaasClient.GetConnectionStopsOnNotFound | dbaas_client.go:134 | a first 404 ends GetConnection after one request; 403 is retried there, but not by GetOrCreateDb |
| DbaasCache.NewKey | cache/dbaas_cache.go:30-37 | the key holds the type, no discriminator, and entries that decode back to the classifier, in sorted order |
| DbaasCache.NewKeyWithDiscriminator | cache/dbaas_cache.go:39-43 | NewKey's type and (sorted) classifier entries, with the given discriminator |
| DbaasCache.NewKeyInjective | cache/dbaas_cache.go:30-37 | two keys are equal exactly when the types and classifier contents are |
| DbaasCache.NewKeyWithDiscriminatorInjective | cache/dbaas_cache.go:39-43 | keys are equal exactly when all three parts are; an empty discriminator is the plain key |
| DbaasCache.CacheSpec | cache/dbaas_cache.go:45-69 | a hit returns the stored value and changes nothing; a miss returns compute's result, storing it exactly when it succeeded; other entries unchanged |
| DbaasCache.DbaaSCache.constructor | dbaas_pool.go:17 | the cache starts empty |
| DbaasCache.DbaaSCache.Cache | cache/dbaas_cache.go:45-69 | the result, the new map and whether compute ran equal `CacheSpec` |
| DbaasCache.DbaaSCache.Delete | cache/dbaas_cache.go:71-76 | removes exactly the given key |
| DbaasCache.CachedValueSticks | cache/dbaas_cache.go:46-50 | after a stored value, a later call returns it without computing, whatever compute it is given |
| DbaasCache.FailureNotCached | cache/dbaas_cache.go:61-67 | after a failed compute the map is unchanged and the next call computes again |
| DbaasCache.DeleteForcesRecompute | cache/dbaas_cache.go:71-76 | after Delete the next call computes again; other keys are unaffected |
| DbaasCache.AfterDeletes | cache/dbaas_cache.go:71-76 | a run of Deletes removes exactly the listed keys and keeps the other values |
| DbaasCache.DeleteIdempotentAndExhaustive | cache/dbaas_cache.go:71-76 | deleting twice is deleting once; deleting every key empties the cache |
| DbaasPool.DbaaSPool.constructor | dbaas_pool.go:16-26 | an empty fresh cache and a client with the first options' providers |
| DbaasPool.DbaaSPool.GetOrCreateDb | dbaas_pool.go:28-38 | a hit returns the cached database and changes nothing; a miss returns the client's result, enriches the map, and caches only a success under the key built before enrichment |
| DbaasPool.DbaaSPool.GetConnection | dbaas_pool.go:40-47 | the client's GetConnection result; the cache is not touched |
| DbaasPool.EnrichmentChangesKey | dbaas_pool.go:29 | the enriched map has the same key as the passed one exactly when it already had a namespace |
| BaseClassifiers.BaseServiceClassifier | dbaas_base_classifier.go:12-18 | exactly microserviceName, namespace and the service scope |
| BaseClassifiers.BaseTenantClassifier | dbaas_base_classifier.go:20-32 | a panic exactly for tenant id "-"; otherwise exactly the four keys with the tenant scope and id |
| BaseClassifiers.BaseClassifiersAccepted | dbaas_base_classifier.go:12-32 | both builders' classifiers pass validation and are left as they are by enrichment |
| BaseClassifiers.ServiceAndTenantDiffer | dbaas_base_classifier.go:12-32 | a service and a tenant classifier of one microservice never coincide |

## Left out

- HTTP, URLs, headers, context propagation and body reading are abstracted. Each becomes an outcome in an `Exchange`, so the URL formats and the Bearer header are not modelled.
- The token provider, `json.Marshal` of the request and `json.Unmarshal` of the response are inputs: an error or a decoding function.
- The timeout message at dbaas_client.go:229-231 is not modelled. It needs `client.Do` to return a response and an error together, which the transport outcome cannot express.
- Sleep durations are not modelled. Sleeps are counted, and only `DefaultBudget` multiplies them by the default delay.
- Configuration and logging are left out. Configured values are parameters, and one that is missing (a `MustString` panic) is not modelled.
- The cache's `RWMutex` and its second lookup under the write lock (cache/dbaas_cache.go:46-58) are left out, because they matter only under concurrency. The model is the sequential semantics, where that lookup always misses.
- Nil maps are not modelled, since a Go nil map and an empty map are both the empty Dafny map. So the panic from enriching a nil map, and the "null" key text of a nil classifier, are not modelled.
- The key is what `json.Marshal` encodes, kept as the sorted entry list, not as JSON text. Go's replacement of invalid UTF-8 (which can merge two byte strings) is not modelled, and neither is the ignored `json.Marshal` error.
- Providers are pure functions of type, classifier and params. A provider that writes into the shared classifier map is not modelled.
- DbaaSPool.GetOrCreateDb: the compute step passes to the cache the client's specification `GetOrCreateDbOutcome`, because a Dafny function value cannot call a method. It then applies the enrichment of the caller's map when that step ran. The `Client` field's interface type, which tests replace with a mock, is fixed to the modelled client.
- DbaasRetry.RetryRequestToDbaaS: the loop does not return the `*http.Response` itself. It returns its status and body for a 200/201, and no response when the loop never runs.
- DbaasClient.NewDbaasClient: an explicitly passed empty options slice is treated like no options. Go would index it and panic.
- DbaasPool.DbaaSPool.constructor: an explicitly passed empty options slice is treated like no options (a pool with no providers). Go's NewDbaaSPool indexes `options[0]` of a non-nil slice and would panic.
