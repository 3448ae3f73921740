/** dbaas_base_classifier.go: the classifiers a microservice uses for its own
    database and for a tenant's. The configured microservice name and
    namespace and the tenant id of the context are parameters. */
module BaseClassifiers {
  import opened Wrappers
  import opened Classifiers
  import opened DbaasErrors
  import opened DbaasClient

  const MsgTenantAbsent := "Can't create tenant database, tenantId is absent"

  /** The tenant id the tenant provider reports when the context has none. */
  const AbsentTenant := "-"

  /** BaseServiceClassifier: exactly the microservice name, the namespace and
      the service scope. */
  function BaseServiceClassifier(microserviceName: string, namespace: string): (c: ClassifierData)
    ensures c.Keys == {"microserviceName", "namespace", "scope"}
    ensures Lookup(c, "microserviceName") == Str(microserviceName)
    ensures Lookup(c, "namespace") == Str(namespace)
    ensures Lookup(c, "scope") == Str("service")
  {
    map["microserviceName" := Str(microserviceName), "namespace" := Str(namespace), "scope" := Str("service")]
  }

  /** BaseTenantClassifier: the tenant scope with the context's tenant id,
      or the logger's panic when that id is "-". */
  function BaseTenantClassifier(microserviceName: string, namespace: string, tenantId: string)
    : (r: Result<ClassifierData, Error>)
    ensures r.Failure? <==> tenantId == AbsentTenant
    ensures r.Failure? ==> r.error == Panic(MsgTenantAbsent)
    ensures r.Success? ==>
      && r.value.Keys == {"microserviceName", "namespace", "scope", "tenantId"}
      && Lookup(r.value, "microserviceName") == Str(microserviceName)
      && Lookup(r.value, "namespace") == Str(namespace)
      && Lookup(r.value, "scope") == Str("tenant")
      && Lookup(r.value, "tenantId") == Str(tenantId)
  {
    if tenantId == AbsentTenant then Failure(Panic(MsgTenantAbsent))
    else
      Success(map["microserviceName" := Str(microserviceName), "namespace" := Str(namespace),
                  "scope" := Str("tenant"), "tenantId" := Str(tenantId)])
  }

  /** Both base classifiers pass validation, and enrichment leaves them as
      they are, for every name, namespace and tenant id (the empty id
      included; only "-" is refused). */
  lemma BaseClassifiersAccepted(microserviceName: string, namespace: string, tenantId: string, clientNamespace: string)
    ensures var s := BaseServiceClassifier(microserviceName, namespace);
      IsValidClassifier(s).None? && Enriched(s, clientNamespace) == s
    ensures var t := BaseTenantClassifier(microserviceName, namespace, tenantId);
      t.Success? ==> IsValidClassifier(t.value).None? && Enriched(t.value, clientNamespace) == t.value
  {
  }

  /** The service and tenant classifiers of one microservice never coincide. */
  lemma ServiceAndTenantDiffer(microserviceName: string, namespace: string, tenantId: string)
    ensures var t := BaseTenantClassifier(microserviceName, namespace, tenantId);
      t.Success? ==> t.value != BaseServiceClassifier(microserviceName, namespace)
  {
    var t := BaseTenantClassifier(microserviceName, namespace, tenantId);
    if t.Success? {
      assert Lookup(t.value, "scope") != Lookup(BaseServiceClassifier(microserviceName, namespace), "scope");
    }
  }
}
