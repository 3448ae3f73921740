/** RetryPolicy (internal/model/retry_policy.go): the status codes after which
    the client stops retrying. */
module RetryPolicies {

  datatype RetryPolicy = RetryPolicy(notRetryableHttpCodes: seq<int>)

  /** The codes the policy lists. */
  predicate NotRetryable(p: RetryPolicy, httpCode: int) {
    httpCode in p.notRetryableHttpCodes
  }

  /** `[]int{400: 404}` is an indexed composite literal: index 400 holds 404,
      and the 400 slots before it hold int's zero value. */
  const NoRetryPolicyForGetConnection := RetryPolicy(seq(401, i => if i == 400 then 404 else 0))
  const NoRetryPolicy := RetryPolicy([401, 403])
  const EmptyRetryPolicy := RetryPolicy([])

  /** HasNotRetryableHttpCode: a linear search of the slice that changes nothing. */
  method HasNotRetryableHttpCode(p: RetryPolicy, httpCode: int) returns (found: bool)
    ensures found <==> NotRetryable(p, httpCode)
  {
    var codes := p.notRetryableHttpCodes;
    for i := 0 to |codes|
      invariant httpCode !in codes[..i]
    {
      if codes[i] == httpCode {
        return true;
      }
    }
    assert codes[..|codes|] == codes;
    return false;
  }

  /** For creating a database, exactly 401 and 403 stop the retries. */
  lemma NoRetryPolicyCodes(httpCode: int)
    ensures NotRetryable(NoRetryPolicy, httpCode) <==> httpCode == 401 || httpCode == 403
  {
  }

  /** For fetching a connection, the slice has 401 entries, and only 0 and 404
      stop the retries: 400 to 403 and 408 are retried. */
  lemma NoRetryPolicyForGetConnectionCodes(httpCode: int)
    ensures |NoRetryPolicyForGetConnection.notRetryableHttpCodes| == 401
    ensures NotRetryable(NoRetryPolicyForGetConnection, httpCode) <==> httpCode == 0 || httpCode == 404
  {
    var codes := NoRetryPolicyForGetConnection.notRetryableHttpCodes;
    if httpCode == 0 {
      assert codes[0] == 0;
    } else if httpCode == 404 {
      assert codes[400] == 404;
    }
  }

  lemma EmptyRetryPolicyCodes(httpCode: int)
    ensures !NotRetryable(EmptyRetryPolicy, httpCode)
  {
  }
}
