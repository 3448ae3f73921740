/** dbaasClientImpl (dbaas_client.go): classifier validation and enrichment,
    the chain of logical-database providers, and the two operations
    GetOrCreateDb and GetConnection built on the request path of DbaasRetry.
    The DbaaS agent is a parameter: for the request the client sends it
    gives the Exchange that call meets; the JSON decoding of a response body
    is a parameter too. */
module DbaasClient {
  import opened Wrappers
  import opened Classifiers
  import opened DbaasErrors
  import opened Model
  import opened RetryPolicies
  import opened DbaasRetry

  const MsgEmptyClassifier := "classifier can't be nil or empty"
  const MsgNoMicroserviceName := "classifier is not valid. \"microserviceName\" field must be not empty"
  const MsgNoNamespace := "classifier is not valid. \"namespace\" field must be not empty"
  const MsgNoTenantId := "classifier is not valid. Tenant classifier must contain \"tenantId\": \"<tenant_id>\""
  /** The message as the source spells it, with two spaces after "contain". */
  const MsgWrongScope := "Classifier is not valid. Service classifier must contain \"scope\": \"service\". Tenant classifier must contain  \"scope\": \"tenant\" and \"tenantId\": \"<tenant_id>\""

  /** The classifiers DbaaS accepts: a microservice name and a namespace, and
      either the service scope or the tenant scope with a tenant id. */
  predicate AcceptedClassifier(c: ClassifierData) {
    && Present(c, "microserviceName")
    && Present(c, "namespace")
    && (Lookup(c, "scope") == Str("service")
        || (Lookup(c, "scope") == Str("tenant") && Present(c, "tenantId")))
  }

  /** The check of isValidClassifier that fails. */
  datatype InvalidClassifier = Empty | NoMicroserviceName | NoNamespace | NoTenantId | WrongScope
  {
    /** The error text isValidClassifier returns for it. */
    function Message(): string {
      match this
      case Empty => MsgEmptyClassifier
      case NoMicroserviceName => MsgNoMicroserviceName
      case NoNamespace => MsgNoNamespace
      case NoTenantId => MsgNoTenantId
      case WrongScope => MsgWrongScope
    }
  }

  /** The five texts differ, so the text tells which check failed. */
  lemma MessageInjective(a: InvalidClassifier, b: InvalidClassifier)
    ensures a.Message() == b.Message() <==> a == b
  {
    if a != b {
      assert |MsgEmptyClassifier| == 32 && |MsgNoMicroserviceName| == 67 && |MsgNoNamespace| == 60;
      assert |MsgNoTenantId| == 81 && |MsgWrongScope| == 156;
    }
  }

  /** isValidClassifier: no error exactly for accepted classifiers; otherwise
      the first check that fails, in the order empty, microserviceName,
      namespace, tenant id, scope. A key mapped to nil still makes the map
      non-empty. */
  function IsValidClassifier(c: ClassifierData): (err: Option<InvalidClassifier>)
    ensures err.None? <==> AcceptedClassifier(c)
    ensures err == Some(Empty) <==> c == map[]
    ensures err == Some(NoMicroserviceName) <==> c != map[] && !Present(c, "microserviceName")
    ensures err == Some(NoNamespace) <==>
      c != map[] && Present(c, "microserviceName") && !Present(c, "namespace")
    ensures err == Some(NoTenantId) <==>
      Present(c, "microserviceName") && Present(c, "namespace")
      && Lookup(c, "scope") == Str("tenant") && !Present(c, "tenantId")
    ensures err == Some(WrongScope) <==>
      Present(c, "microserviceName") && Present(c, "namespace")
      && Lookup(c, "scope") != Str("service") && Lookup(c, "scope") != Str("tenant")
  {
    if |c| == 0 then Some(Empty)
    else if !Present(c, "microserviceName") then Some(NoMicroserviceName)
    else if !Present(c, "namespace") then Some(NoNamespace)
    else if Lookup(c, "scope") != Str("service") then
      if Lookup(c, "scope") == Str("tenant") then
        if Present(c, "tenantId") then None else Some(NoTenantId)
      else Some(WrongScope)
    else None
  }

  /** The client: its options, the agent's URL and its own namespace, all
      fixed at construction. */
  datatype Client = Client(options: ClientOptions, dbaasAgentUrl: string, namespace: string)

  const DefaultAgentUrl := "http://dbaas-agent:8080"
  const DefaultSecureAgentUrl := "https://dbaas-agent:8443"

  /** NewDbaasClient: the first options value if one is given (an empty
      provider list otherwise), the configured dbaas.agent URL or the default
      for the TLS setting, and microservice.namespace. */
  function NewDbaasClient(options: seq<ClientOptions>, configuredAgentUrl: Option<string>,
                          tlsEnabled: bool, namespace: string): (client: Client)
    ensures |options| > 0 ==> client.options == options[0]
    ensures |options| == 0 ==> client.options.logicalDbProviders == []
    ensures configuredAgentUrl.Some? ==> client.dbaasAgentUrl == configuredAgentUrl.value
    ensures configuredAgentUrl.None? ==>
      client.dbaasAgentUrl == (if tlsEnabled then DefaultSecureAgentUrl else DefaultAgentUrl)
    ensures client.namespace == namespace
  {
    var url := match configuredAgentUrl
      case Some(u) => u
      case None => if tlsEnabled then DefaultSecureAgentUrl else DefaultAgentUrl;
    Client(if |options| > 0 then options[0] else ClientOptions([]), url, namespace)
  }

  /** enrichClassifier on values: a namespace is always present afterwards;
      one already there is kept, a missing or nil one becomes the client's,
      and no other key changes. */
  function Enriched(c: ClassifierData, namespace: string): (r: ClassifierData)
    ensures Present(r, "namespace")
    ensures r.Keys == c.Keys + {"namespace"}
    ensures forall k :: k in c && k != "namespace" ==> r[k] == c[k]
    ensures Present(c, "namespace") ==> r["namespace"] == c["namespace"]
    ensures !Present(c, "namespace") ==> r["namespace"] == Str(namespace)
  {
    if Present(c, "namespace") then c else c["namespace" := Str(namespace)]
  }

  /** Enriching twice changes nothing more, whatever the second namespace. */
  lemma EnrichedIdempotent(c: ClassifierData, namespace: string, other: string)
    ensures Enriched(Enriched(c, namespace), other) == Enriched(c, namespace)
  {
  }

  /** After enrichment the namespace check always passes, so the emptiness and
      namespace messages can never come out of GetOrCreateDb, and the client
      accepts a classifier exactly when the scope rules and the microservice
      name hold. */
  lemma EnrichedValidation(c: ClassifierData, namespace: string)
    ensures var err := IsValidClassifier(Enriched(c, namespace));
      && err != Some(Empty) && err != Some(NoNamespace)
      && (err.None? <==>
            Present(c, "microserviceName")
            && (Lookup(c, "scope") == Str("service")
                || (Lookup(c, "scope") == Str("tenant") && Present(c, "tenantId"))))
  {
    var r := Enriched(c, namespace);
    assert "namespace" in r.Keys;
    assert Lookup(r, "microserviceName") == Lookup(c, "microserviceName");
    assert Lookup(r, "scope") == Lookup(c, "scope");
    assert Lookup(r, "tenantId") == Lookup(c, "tenantId");
  }

  /** enrichClassifier: writes the namespace into the caller's map in place. */
  method EnrichClassifier(client: Client, classifier: ClassifierMap)
    modifies classifier
    ensures classifier.entries == Enriched(old(classifier.entries), client.namespace)
  {
    if !Present(classifier.entries, "namespace") {
      classifier.entries := classifier.entries["namespace" := Str(client.namespace)];
    }
  }

  /** How a walk over the providers ends. */
  datatype ChainAnswer<T> = Abort(err: Error) | Provided(value: T) | NotProvided

  /** The answer with the number of providers asked. */
  datatype ChainResult<T> = ChainResult(answer: ChainAnswer<T>, consulted: nat)

  /** A reply with neither a value nor an error: the walk goes on. */
  predicate Silent<T>(r: ProviderReply<T>) {
    r.err.None? && r.value.None?
  }

  /** The providers' replies taken in order: the first reply that is not
      silent decides; an error wins over a value in the same reply. */
  function Chain<T>(replies: seq<ProviderReply<T>>): (r: ChainResult<T>)
    ensures 0 < r.consulted <= |replies| || (r.consulted == 0 && replies == [])
    ensures forall j :: 0 <= j < r.consulted - 1 ==> Silent(replies[j])
    ensures r.answer.NotProvided? <==> forall j :: 0 <= j < |replies| ==> Silent(replies[j])
    ensures r.answer.NotProvided? ==> r.consulted == |replies| && (replies == [] || Silent(replies[|replies| - 1]))
    ensures r.answer.Abort? ==> replies[r.consulted - 1].err == Some(r.answer.err)
    ensures r.answer.Provided? ==>
      replies[r.consulted - 1].err.None? && replies[r.consulted - 1].value == Some(r.answer.value)
    decreases |replies|
  {
    if replies == [] then ChainResult(NotProvided, 0)
    else
      var head := replies[0];
      if head.err.Some? then ChainResult(Abort(head.err.value), 1)
      else if head.value.Some? then ChainResult(Provided(head.value.value), 1)
      else
        var rest := Chain(replies[1..]);
        assert forall j :: 1 <= j < |replies| ==> replies[j] == replies[1..][j - 1];
        ChainResult(rest.answer, rest.consulted + 1)
  }

  /** The answer of a reply that is not silent: its error if it has one,
      otherwise its value. */
  function ReplyAnswer<T>(r: ProviderReply<T>): ChainAnswer<T>
    requires !Silent(r)
  {
    if r.err.Some? then Abort(r.err.value) else Provided(r.value.value)
  }

  /** Whatever the later replies are, the first reply that is not silent
      decides the walk. */
  lemma {:induction false} ChainFirstDecides<T>(replies: seq<ProviderReply<T>>, k: nat)
    requires k < |replies| && !Silent(replies[k])
    requires forall j :: 0 <= j < k ==> Silent(replies[j])
    ensures Chain(replies).answer == ReplyAnswer(replies[k])
    ensures Chain(replies).consulted == k + 1
    decreases k
  {
    if k > 0 {
      assert replies[1..][k - 1] == replies[k];
      ChainFirstDecides(replies[1..], k - 1);
    }
  }

  /** A (value, error) pair as Go returns it from the walk. */
  function AsReply<T>(a: ChainAnswer<T>): ProviderReply<T> {
    match a
    case Abort(e) => ProviderReply(None, Some(e))
    case Provided(v) => ProviderReply(Some(v), None)
    case NotProvided => ProviderReply(None, None)
  }

  /** What each provider's GetOrCreateDb answers for the request. */
  function DbReplies(providers: seq<Provider>, request: CreateDbRequest): (rs: seq<ProviderReply<LogicalDb>>)
    ensures |rs| == |providers|
    ensures forall k :: 0 <= k < |rs| ==>
      rs[k] == providers[k].getOrCreateDb(request.dbType, request.classifier, request.params)
  {
    seq(|providers|, k requires 0 <= k < |providers| =>
      providers[k].getOrCreateDb(request.dbType, request.classifier, request.params))
  }

  /** What each provider's GetConnection answers. */
  function ConnectionReplies(providers: seq<Provider>, dbType: string, classifier: ClassifierData,
                             params: BaseDbParams): (rs: seq<ProviderReply<ClassifierData>>)
    ensures |rs| == |providers|
    ensures forall k :: 0 <= k < |rs| ==> rs[k] == providers[k].getConnection(dbType, classifier, params)
  {
    seq(|providers|, k requires 0 <= k < |providers| => providers[k].getConnection(dbType, classifier, params))
  }

  /** getDbFromProviders: asks the providers in order and stops at the first
      error or database. */
  method GetDbFromProviders(providers: seq<Provider>, request: CreateDbRequest)
    returns (db: Option<LogicalDb>, err: Option<Error>)
    ensures ProviderReply(db, err) == AsReply(Chain(DbReplies(providers, request)).answer)
  {
    ghost var replies := DbReplies(providers, request);
    for i := 0 to |providers|
      invariant Chain(replies).answer == Chain(replies[i..]).answer
    {
      var reply := providers[i].getOrCreateDb(request.dbType, request.classifier, request.params);
      assert replies[i..][0] == reply && replies[i..][1..] == replies[i + 1..];
      if reply.err.Some? {
        return None, reply.err;
      }
      if reply.value.Some? {
        return reply.value, None;
      }
    }
    return None, None;
  }

  /** getConnectionFromProviders: the same walk over the providers'
      GetConnection. */
  method GetConnectionFromProviders(providers: seq<Provider>, dbType: string, classifier: ClassifierData,
                                    params: BaseDbParams)
    returns (props: Option<ClassifierData>, err: Option<Error>)
    ensures ProviderReply(props, err) == AsReply(Chain(ConnectionReplies(providers, dbType, classifier, params)).answer)
  {
    ghost var replies := ConnectionReplies(providers, dbType, classifier, params);
    for i := 0 to |providers|
      invariant Chain(replies).answer == Chain(replies[i..]).answer
    {
      var reply := providers[i].getConnection(dbType, classifier, params);
      assert replies[i..][0] == reply && replies[i..][1..] == replies[i + 1..];
      if reply.err.Some? {
        return None, reply.err;
      }
      if reply.value.Some? {
        return reply.value, None;
      }
    }
    return None, None;
  }

  /** What an operation returns, with the requests it sent to DbaaS and the
      sleeps between them. */
  datatype Outcome<T> = Outcome(result: Result<T, Error>, sends: nat, delays: nat)

  /** The end of GetOrCreateDb once the request path has run: its error, or
      the body decoded as a LogicalDb, or the decoder's error. */
  function DecodeDb(s: SendRun, decode: string -> Result<LogicalDb, string>): Outcome<LogicalDb> {
    match s.contents
    case Failure(e) => Outcome(Failure(e), s.sends, s.delays)
    case Success(body) =>
      match decode(body)
      case Failure(e) => Outcome(Failure(Plain(e)), s.sends, s.delays)
      case Success(db) => Outcome(Success(db), s.sends, s.delays)
  }

  /** The specification of GetOrCreateDb for the classifier as the caller
      passed it. */
  function GetOrCreateDbOutcome(client: Client, dbType: string, classifier: ClassifierData, params: BaseDbParams,
                                dbaas: CreateDbRequest -> Exchange,
                                decode: string -> Result<LogicalDb, string>): Outcome<LogicalDb>
  {
    var c := Enriched(classifier, client.namespace);
    match IsValidClassifier(c)
    case Some(invalid) => Outcome(Failure(Plain(invalid.Message())), 0, 0)
    case None =>
      var request := CreateDbRequest(params, c, dbType);
      match Chain(DbReplies(client.options.logicalDbProviders, request)).answer
      case Abort(e) => Outcome(Failure(e), 0, 0)
      case Provided(db) => Outcome(Success(db), 0, 0)
      case NotProvided => DecodeDb(SendOutcome(dbaas(request), NoRetryPolicy), decode)
  }

  /** GetOrCreateDb (dbaas_client.go:68-104): enriches the caller's map in
      place, validates it, asks the providers, and only then goes to DbaaS
      with the policy that stops on 401 and 403. */
  method GetOrCreateDb(client: Client, dbType: string, classifier: ClassifierMap, params: BaseDbParams,
                       dbaas: CreateDbRequest -> Exchange, decode: string -> Result<LogicalDb, string>)
    returns (result: Result<LogicalDb, Error>, sends: nat, delays: nat)
    modifies classifier
    ensures classifier.entries == Enriched(old(classifier.entries), client.namespace)
    ensures Outcome(result, sends, delays)
         == GetOrCreateDbOutcome(client, dbType, old(classifier.entries), params, dbaas, decode)
  {
    EnrichClassifier(client, classifier);
    var invalid := IsValidClassifier(classifier.entries);
    if invalid.Some? {
      return Failure(Plain(invalid.value.Message())), 0, 0;
    }
    var request := CreateDbRequest(params, classifier.entries, dbType);
    var provided, err := GetDbFromProviders(client.options.logicalDbProviders, request);
    if err.Some? {
      return Failure(err.value), 0, 0;
    }
    if provided.Some? {
      return Success(provided.value), 0, 0;
    }
    var contents;
    contents, sends, delays := SendRequestToDbaaSWithRetry(dbaas(request), NoRetryPolicy);
    if contents.Failure? {
      return Failure(contents.error), sends, delays;
    }
    var decoded := decode(contents.value);
    if decoded.Failure? {
      return Failure(Plain(decoded.error)), sends, delays;
    }
    result := Success(decoded.value);
  }

  /** The body GetConnection posts: the classifier, and userRole only when the
      params name a role. */
  datatype ConnectionRequest = ConnectionRequest(classifier: ClassifierData, userRole: Option<string>)

  function ConnectionRequestFor(classifier: ClassifierData, params: BaseDbParams): (r: ConnectionRequest)
    ensures r.classifier == classifier
    ensures r.userRole.Some? <==> |params.role| > 0
    ensures r.userRole.Some? ==> r.userRole.value == params.role
  {
    ConnectionRequest(classifier, if |params.role| > 0 then Some(params.role) else None)
  }

  /** The Go type name of a decoded JSON value, as a failed type assertion
      reports it (JSON numbers decode to float64). */
  function GoTypeName(v: Value): string {
    match v
    case Null => "nil"
    case Bool(_) => "bool"
    case Num(_) => "float64"
    case Str(_) => "string"
    case List(_) => "[]interface {}"
    case Object(_) => "map[string]interface {}"
  }

  /** responseBody["connectionProperties"].(map[string]interface{}): the
      object under that key, or the panic of the type assertion when the key
      is missing or holds anything else. */
  function ConnectionProperties(body: ClassifierData): (r: Result<ClassifierData, Error>)
    ensures r.Success? <==> Lookup(body, "connectionProperties").Object?
    ensures r.Success? ==> body["connectionProperties"] == Object(r.value)
    ensures r.Failure? ==> r.error.Panic?
  {
    match Lookup(body, "connectionProperties")
    case Object(fields) => Success(fields)
    case other =>
      Failure(Panic("interface conversion: interface {} is " + GoTypeName(other)
                    + ", not map[string]interface {}"))
  }

  /** The end of GetConnection once the request path has run. */
  function DecodeConnection(s: SendRun, decode: string -> Result<ClassifierData, string>): Outcome<ClassifierData> {
    match s.contents
    case Failure(e) => Outcome(Failure(e), s.sends, s.delays)
    case Success(body) =>
      match decode(body)
      case Failure(e) => Outcome(Failure(Plain(e)), s.sends, s.delays)
      case Success(fields) => Outcome(ConnectionProperties(fields), s.sends, s.delays)
  }

  /** The specification of GetConnection. */
  function GetConnectionOutcome(client: Client, dbType: string, classifier: ClassifierData, params: BaseDbParams,
                                dbaas: ConnectionRequest -> Exchange,
                                decode: string -> Result<ClassifierData, string>): Outcome<ClassifierData>
  {
    var c := Enriched(classifier, client.namespace);
    match Chain(ConnectionReplies(client.options.logicalDbProviders, dbType, c, params)).answer
    case Abort(e) => Outcome(Failure(e), 0, 0)
    case Provided(props) => Outcome(Success(props), 0, 0)
    case NotProvided =>
      DecodeConnection(SendOutcome(dbaas(ConnectionRequestFor(c, params)), NoRetryPolicyForGetConnection), decode)
  }

  /** GetConnection (dbaas_client.go:120-149): enriches the caller's map, asks
      the providers, and otherwise posts to DbaaS with the policy that stops
      on 404 (and 0). It does not validate the classifier. */
  method GetConnection(client: Client, dbType: string, classifier: ClassifierMap, params: BaseDbParams,
                       dbaas: ConnectionRequest -> Exchange, decode: string -> Result<ClassifierData, string>)
    returns (result: Result<ClassifierData, Error>, sends: nat, delays: nat)
    modifies classifier
    ensures classifier.entries == Enriched(old(classifier.entries), client.namespace)
    ensures Outcome(result, sends, delays)
         == GetConnectionOutcome(client, dbType, old(classifier.entries), params, dbaas, decode)
  {
    EnrichClassifier(client, classifier);
    var provided, err := GetConnectionFromProviders(client.options.logicalDbProviders, dbType,
                                                    classifier.entries, params);
    if err.Some? {
      return Failure(err.value), 0, 0;
    }
    var request := ConnectionRequestFor(classifier.entries, params);
    if provided.Some? {
      return Success(provided.value), 0, 0;
    }
    var contents;
    contents, sends, delays := SendRequestToDbaaSWithRetry(dbaas(request), NoRetryPolicyForGetConnection);
    if contents.Failure? {
      return Failure(contents.error), sends, delays;
    }
    var decoded := decode(contents.value);
    if decoded.Failure? {
      return Failure(Plain(decoded.error)), sends, delays;
    }
    result := ConnectionProperties(decoded.value);
  }

  /** GetOrCreateDb returns a database only for a classifier that, once
      enriched, DbaaS accepts; a rejected one costs no provider call and no
      request, and yields the validation message. */
  lemma GetOrCreateDbValidates(client: Client, dbType: string, classifier: ClassifierData, params: BaseDbParams,
                               dbaas: CreateDbRequest -> Exchange, decode: string -> Result<LogicalDb, string>)
    ensures var o := GetOrCreateDbOutcome(client, dbType, classifier, params, dbaas, decode);
      var err := IsValidClassifier(Enriched(classifier, client.namespace));
      && (o.result.Success? ==> AcceptedClassifier(Enriched(classifier, client.namespace)))
      && (err.Some? ==> o == Outcome(Failure(Plain(err.value.Message())), 0, 0))
      && (o.sends > 0 ==> err.None?)
  {
  }

  /** An empty classifier reaches the microserviceName check, because the
      namespace is filled in first. */
  lemma EmptyClassifierNeedsMicroserviceName(client: Client, dbType: string, params: BaseDbParams,
                                             dbaas: CreateDbRequest -> Exchange,
                                             decode: string -> Result<LogicalDb, string>)
    ensures GetOrCreateDbOutcome(client, dbType, map[], params, dbaas, decode)
         == Outcome(Failure(Plain(MsgNoMicroserviceName)), 0, 0)
  {
    EnrichedValidation(map[], client.namespace);
  }

  /** When a provider answers, DbaaS is never asked: the first provider that
      is not silent decides, with its error or else its database. When no
      provider answers, the result is what DbaaS returns. */
  lemma GetOrCreateDbProviderFirst(client: Client, dbType: string, classifier: ClassifierData, params: BaseDbParams,
                                   dbaas: CreateDbRequest -> Exchange, decode: string -> Result<LogicalDb, string>,
                                   k: nat)
    requires IsValidClassifier(Enriched(classifier, client.namespace)).None?
    ensures var request := CreateDbRequest(params, Enriched(classifier, client.namespace), dbType);
      var replies := DbReplies(client.options.logicalDbProviders, request);
      var o := GetOrCreateDbOutcome(client, dbType, classifier, params, dbaas, decode);
      && (o.sends > 0 ==> forall j :: 0 <= j < |replies| ==> Silent(replies[j]))
      && ((forall j :: 0 <= j < |replies| ==> Silent(replies[j])) ==>
            o == DecodeDb(SendOutcome(dbaas(request), NoRetryPolicy), decode))
      && (k < |replies| && !Silent(replies[k]) && (forall j :: 0 <= j < k ==> Silent(replies[j])) ==>
            && o.sends == 0 && o.delays == 0
            && (replies[k].err.Some? ==> o.result == Failure(replies[k].err.value))
            && (replies[k].err.None? ==> o.result == Success(replies[k].value.value)))
  {
    var request := CreateDbRequest(params, Enriched(classifier, client.namespace), dbType);
    var replies := DbReplies(client.options.logicalDbProviders, request);
    var o := GetOrCreateDbOutcome(client, dbType, classifier, params, dbaas, decode);
    if Chain(replies).answer.NotProvided? {
      assert o == DecodeDb(SendOutcome(dbaas(request), NoRetryPolicy), decode);
    } else {
      assert o.sends == 0;
    }
    if k < |replies| && !Silent(replies[k]) && (forall j :: 0 <= j < k ==> Silent(replies[j])) {
      ChainFirstDecides(replies, k);
    }
  }

  /** The same promise for GetConnection: the first provider that is not
      silent decides and no request goes out; when every provider is silent,
      the result is what DbaaS returns for the enriched classifier. */
  lemma GetConnectionProviderFirst(client: Client, dbType: string, classifier: ClassifierData, params: BaseDbParams,
                                   dbaas: ConnectionRequest -> Exchange,
                                   decode: string -> Result<ClassifierData, string>, k: nat)
    ensures var c := Enriched(classifier, client.namespace);
      var replies := ConnectionReplies(client.options.logicalDbProviders, dbType, c, params);
      var o := GetConnectionOutcome(client, dbType, classifier, params, dbaas, decode);
      && (o.sends > 0 ==> forall j :: 0 <= j < |replies| ==> Silent(replies[j]))
      && ((forall j :: 0 <= j < |replies| ==> Silent(replies[j])) ==>
            o == DecodeConnection(SendOutcome(dbaas(ConnectionRequestFor(c, params)), NoRetryPolicyForGetConnection),
                                  decode))
      && (k < |replies| && !Silent(replies[k]) && (forall j :: 0 <= j < k ==> Silent(replies[j])) ==>
            && o.sends == 0 && o.delays == 0
            && (replies[k].err.Some? ==> o.result == Failure(replies[k].err.value))
            && (replies[k].err.None? ==> o.result == Success(replies[k].value.value)))
  {
    var c := Enriched(classifier, client.namespace);
    var replies := ConnectionReplies(client.options.logicalDbProviders, dbType, c, params);
    if k < |replies| && !Silent(replies[k]) && (forall j :: 0 <= j < k ==> Silent(replies[j])) {
      ChainFirstDecides(replies, k);
    }
  }

  /** A database that came from DbaaS is the decoding of the body of a 200 or
      201 response to one of at most maxAttempts + 1 requests. */
  lemma GetOrCreateDbFromDbaas(client: Client, dbType: string, classifier: ClassifierData, params: BaseDbParams,
                               dbaas: CreateDbRequest -> Exchange, decode: string -> Result<LogicalDb, string>)
    requires dbaas(CreateDbRequest(params, Enriched(classifier, client.namespace), dbType)).maxAttempts >= 0
    ensures var ex := dbaas(CreateDbRequest(params, Enriched(classifier, client.namespace), dbType));
      var o := GetOrCreateDbOutcome(client, dbType, classifier, params, dbaas, decode);
      && o.sends <= ex.maxAttempts + 1
      && (o.result.Success? && o.sends > 0 ==>
            && ex.attempts(o.sends - 1).Responded?
            && IsSuccess(ex.attempts(o.sends - 1).statusCode)
            && decode(ex.attempts(o.sends - 1).body) == Success(o.result.value))
  {
    var request := CreateDbRequest(params, Enriched(classifier, client.namespace), dbType);
    var o := GetOrCreateDbOutcome(client, dbType, classifier, params, dbaas, decode);
    if o.sends > 0 {
      assert o == DecodeDb(SendOutcome(dbaas(request), NoRetryPolicy), decode);
    }
    DecodeDbDelivers(dbaas(request), decode);
  }

  /** What the DbaaS path of GetOrCreateDb returns. */
  lemma DecodeDbDelivers(ex: Exchange, decode: string -> Result<LogicalDb, string>)
    requires ex.maxAttempts >= 0
    ensures var o := DecodeDb(SendOutcome(ex, NoRetryPolicy), decode);
      && o.sends <= ex.maxAttempts + 1
      && (o.result.Success? ==>
            && o.sends >= 1
            && ex.attempts(o.sends - 1).Responded?
            && IsSuccess(ex.attempts(o.sends - 1).statusCode)
            && decode(ex.attempts(o.sends - 1).body) == Success(o.result.value))
  {
    SendOutcomeDelivers(ex, NoRetryPolicy);
  }

  /** GetOrCreateDb stops at once on 403 Forbidden (RFC 9110, section
      15.5.4) when no provider answers. */
  lemma GetOrCreateDbStopsOnForbidden(client: Client, dbType: string, classifier: ClassifierData, params: BaseDbParams,
                                      dbaas: CreateDbRequest -> Exchange, decode: string -> Result<LogicalDb, string>,
                                      body: string)
    requires |client.options.logicalDbProviders| == 0
    requires IsValidClassifier(Enriched(classifier, client.namespace)).None?
    requires var ex := dbaas(CreateDbRequest(params, Enriched(classifier, client.namespace), dbType));
      ex.tokenError.None? && ex.marshalError.None? && ex.maxAttempts >= 0 && ex.attempts(0) == Responded(403, body)
    ensures var ex := dbaas(CreateDbRequest(params, Enriched(classifier, client.namespace), dbType));
      GetOrCreateDbOutcome(client, dbType, classifier, params, dbaas, decode)
      == Outcome(Failure(TerminalError(403, body, true, ex.probe)), 1, 0)
  {
    var request := CreateDbRequest(params, Enriched(classifier, client.namespace), dbType);
    var ex := dbaas(request);
    assert DbReplies(client.options.logicalDbProviders, request) == [];
    assert GetOrCreateDbOutcome(client, dbType, classifier, params, dbaas, decode)
        == DecodeDb(SendOutcome(ex, NoRetryPolicy), decode);
    NoRetryPolicyCodes(403);
    NotRetryableStops(ex.attempts, ex.probe, NoRetryPolicy, ex.maxAttempts, 0);
  }

  /** GetConnection never validates: with no provider, every classifier, even
      an empty one, goes to DbaaS with the namespace filled in. */
  lemma GetConnectionSkipsValidation(client: Client, dbType: string, classifier: ClassifierData, params: BaseDbParams,
                                     dbaas: ConnectionRequest -> Exchange,
                                     decode: string -> Result<ClassifierData, string>)
    requires |client.options.logicalDbProviders| == 0
    ensures var request := ConnectionRequestFor(Enriched(classifier, client.namespace), params);
      && Present(request.classifier, "namespace")
      && GetConnectionOutcome(client, dbType, classifier, params, dbaas, decode)
         == DecodeConnection(SendOutcome(dbaas(request), NoRetryPolicyForGetConnection), decode)
  {
  }

  /** GetConnection stops at once on 404 Not Found and keeps retrying on
      403, unlike GetOrCreateDb. */
  lemma GetConnectionStopsOnNotFound(client: Client, dbType: string, classifier: ClassifierData, params: BaseDbParams,
                                     dbaas: ConnectionRequest -> Exchange,
                                     decode: string -> Result<ClassifierData, string>, body: string)
    requires |client.options.logicalDbProviders| == 0
    requires var ex := dbaas(ConnectionRequestFor(Enriched(classifier, client.namespace), params));
      ex.tokenError.None? && ex.marshalError.None? && ex.maxAttempts >= 0 && ex.attempts(0) == Responded(404, body)
    ensures var ex := dbaas(ConnectionRequestFor(Enriched(classifier, client.namespace), params));
      GetConnectionOutcome(client, dbType, classifier, params, dbaas, decode)
      == Outcome(Failure(TerminalError(404, body, true, ex.probe)), 1, 0)
    ensures !NotRetryable(NoRetryPolicyForGetConnection, 403) && NotRetryable(NoRetryPolicy, 403)
  {
    var ex := dbaas(ConnectionRequestFor(Enriched(classifier, client.namespace), params));
    NoRetryPolicyForGetConnectionCodes(404);
    NoRetryPolicyForGetConnectionCodes(403);
    NoRetryPolicyCodes(403);
    NotRetryableStops(ex.attempts, ex.probe, NoRetryPolicyForGetConnection, ex.maxAttempts, 0);
  }
}
