/** The request path of dbaas_client.go: the retry loop retryRequestToDbaaS,
    the /api-version probe checkDbaasApiVersion, and
    sendRequestToDbaaSWithRetry around them. The network, the token provider,
    JSON encoding and the clock are inputs: the outcome of every attempt, of
    the probe and of each earlier step is given, and sleeps are counted. */
module DbaasRetry {
  import opened Wrappers
  import opened DbaasErrors
  import opened RetryPolicies

  const MsgConnectFailed := "Failed to connect to dbaas."
  const MsgApiUnavailable := "API v3 dbaas-aggregator is not available"
  const MsgStopRetrying := "Incorrect response from DbaaS. Stop retrying"
  const MsgNoResponse := "Failed to get response from DbaaS."
  const MsgBodyUnreadable := "Error occurred during response body reading."
  /** The message of the nil-pointer panic Go raises on resp.Body. */
  const MsgNilResponse := "runtime error: invalid memory address or nil pointer dereference"

  /** What one pass of the loop meets: http.NewRequest failing, the context
      headers failing to serialise, client.Do failing, or a response. */
  datatype Attempt =
    | RequestBuildFailed(reason: string)
    | ContextSerializeFailed(reason: string)
    | TransportFailed(reason: string)
    | Responded(statusCode: int, body: string)

  /** What the GET /api-version probe meets. */
  datatype Probe =
    | ProbeBuildFailed(reason: string)
    | ProbeTransportFailed(reason: string)
    | ProbeResponded(statusCode: int)

  /** checkDbaasApiVersion: no error exactly when the probe's answer is 200. */
  function CheckDbaasApiVersion(p: Probe): (err: Option<string>)
    ensures err.None? <==> p == ProbeResponded(200)
    ensures p.ProbeResponded? && p.statusCode != 200 ==> err == Some(MsgApiUnavailable)
    ensures !p.ProbeResponded? ==> err == Some(p.reason)
  {
    match p
    case ProbeBuildFailed(reason) => Some(reason)
    case ProbeTransportFailed(reason) => Some(reason)
    case ProbeResponded(code) => if code == 200 then None else Some(MsgApiUnavailable)
  }

  /** 200 OK and 201 Created (RFC 9110, sections 15.3.1 and 15.3.2) end the loop. */
  predicate IsSuccess(code: int) {
    code == 200 || code == 201
  }

  /** A response after which the loop sleeps: not a success, not listed by the
      policy, and either 202 Accepted or a status of 300 or more. */
  predicate SleepsAfter(code: int, policy: RetryPolicy) {
    !IsSuccess(code) && !NotRetryable(policy, code) && (code == 202 || code >= 300)
  }

  /** The transport failure on the last attempt: code 0, no probe. */
  function ConnectFailure(reason: string): (e: Error)
    ensures e.CreateDb? && e.record.httpCode == 0 && e.record.message == MsgConnectFailed
    ensures e.record.cause == "dbaas error: " + reason
  {
    CreateDb(DbaaSCreateDbError(0, MsgConnectFailed, "dbaas error: " + reason))
  }

  /** The text a caller sees for it. */
  lemma ConnectFailureText(reason: string)
    ensures ConnectFailure(reason).Text() == "Response code: 0, Message: " + MsgConnectFailed
  {
    ZeroCodeText(ConnectFailure(reason).record);
  }

  /** The cause of a terminal error when the probe succeeds, before the body. */
  const ResponseBodyPrefix := "request to DbaaS failed with response body: "

  /** The error after the loop stops on a non-success response, once the probe
      has run: a failed probe supersedes the response; otherwise the message
      says whether the policy interrupted the loop or the attempts ran out. */
  function TerminalError(code: int, body: string, interrupted: bool, probe: Probe): (e: Error)
    ensures e.CreateDb? && e.record.httpCode == code
    ensures e.record.message == MsgApiUnavailable <==> CheckDbaasApiVersion(probe).Some?
    ensures CheckDbaasApiVersion(probe).None? ==>
      e.record.message == (if interrupted then MsgStopRetrying else MsgNoResponse)
    ensures CheckDbaasApiVersion(probe).Some? ==> e.record.cause == CheckDbaasApiVersion(probe).value
    ensures CheckDbaasApiVersion(probe).None? ==> e.record.cause == ResponseBodyPrefix + body
  {
    match CheckDbaasApiVersion(probe)
    case Some(probeError) => CreateDb(DbaaSCreateDbError(code, MsgApiUnavailable, probeError))
    case None =>
      CreateDb(DbaaSCreateDbError(code, if interrupted then MsgStopRetrying else MsgNoResponse,
                                  ResponseBodyPrefix + body))
  }

  /** How the loop ends: with a 200/201 response, with an error, or (when the
      loop body never runs) with neither. */
  datatype RetryResult =
    | Delivered(statusCode: int, body: string)
    | Failed(error: Error)
    | NoResponse

  /** The result with the number of requests sent, of sleeps, and whether the
      probe ran. */
  datatype RetryRun = RetryRun(result: RetryResult, sends: nat, delays: nat, probed: bool)

  /** r preceded by `sends` requests and `delays` sleeps. */
  function After(r: RetryRun, sends: nat, delays: nat): RetryRun {
    r.(sends := r.sends + sends, delays := r.delays + delays)
  }

  /** The loop from attempt i on: the specification of retryRequestToDbaaS. */
  function RetryFrom(attempts: nat -> Attempt, probe: Probe, policy: RetryPolicy, maxAttempts: int, i: nat): RetryRun
    decreases maxAttempts - i
  {
    if i > maxAttempts then RetryRun(NoResponse, 0, 0, false)
    else
      match attempts(i)
        case RequestBuildFailed(reason) =>
        RetryRun(Failed(Plain("got error during request creation: " + reason + " ")), 0, 0, false)
        case ContextSerializeFailed(reason) =>
        RetryRun(Failed(Plain("error during context serializing: " + reason + " ")), 0, 0, false)
        case TransportFailed(reason) =>
        if i == maxAttempts then RetryRun(Failed(ConnectFailure(reason)), 1, 0, false)
        else After(RetryFrom(attempts, probe, policy, maxAttempts, i + 1), 1, 1)
        case Responded(code, body) =>
        if IsSuccess(code) then RetryRun(Delivered(code, body), 1, 0, false)
        else
          var interrupted := NotRetryable(policy, code);
          var slept := if SleepsAfter(code, policy) then 1 else 0;
          if i == maxAttempts || interrupted then
            RetryRun(Failed(TerminalError(code, body, interrupted, probe)), 1, slept, true)
          else After(RetryFrom(attempts, probe, policy, maxAttempts, i + 1), 1, slept)
  }

  /** retryRequestToDbaaS (dbaas_client.go:205-280): attempts 0 to maxAttempts
      inclusive, attempt i meeting attempts(i). */
  method RetryRequestToDbaaS(attempts: nat -> Attempt, probe: Probe, policy: RetryPolicy, maxAttempts: int)
    returns (result: RetryResult, sends: nat, delays: nat, probed: bool)
    ensures RetryRun(result, sends, delays, probed) == RetryFrom(attempts, probe, policy, maxAttempts, 0)
  {
    var hasBeenInterrupted := false;
    result, sends, delays, probed := NoResponse, 0, 0, false;
    var i := 0;
    while i <= maxAttempts
      invariant 0 <= i && (i == 0 || i <= maxAttempts)
      invariant result == NoResponse && !probed && !hasBeenInterrupted
      invariant After(RetryFrom(attempts, probe, policy, maxAttempts, i), sends, delays)
             == RetryFrom(attempts, probe, policy, maxAttempts, 0)
      decreases maxAttempts - i
    {
      match attempts(i) {
        case RequestBuildFailed(reason) =>
          result := Failed(Plain("got error during request creation: " + reason + " "));
          return;
        case ContextSerializeFailed(reason) =>
          result := Failed(Plain("error during context serializing: " + reason + " "));
          return;
        case TransportFailed(reason) =>
          sends := sends + 1;
          if i == maxAttempts {
            result := Failed(ConnectFailure(reason));
            return;
          }
          delays := delays + 1;
        case Responded(code, body) =>
          sends := sends + 1;
          if IsSuccess(code) {
            result := Delivered(code, body);
            break;
          }
          var stop := HasNotRetryableHttpCode(policy, code);
          if stop {
            hasBeenInterrupted := true;
          } else if code == 202 {
            delays := delays + 1;
          } else if code >= 300 {
            delays := delays + 1;
          }
          if i == maxAttempts || hasBeenInterrupted {
            probed := true;
            result := Failed(TerminalError(code, body, hasBeenInterrupted, probe));
            return;
          }
      }
      i := i + 1;
    }
  }

  /** An attempt after which the loop goes on (before the last attempt). */
  predicate Retried(a: Attempt, policy: RetryPolicy) {
    a.TransportFailed? || (a.Responded? && !IsSuccess(a.statusCode) && !NotRetryable(policy, a.statusCode))
  }

  /** Whether the loop sleeps after a: a transport failure (when a is not the
      last attempt) or a response that SleepsAfter. */
  function DelayOf(a: Attempt, policy: RetryPolicy): nat {
    if a.TransportFailed? || (a.Responded? && SleepsAfter(a.statusCode, policy)) then 1 else 0
  }

  /** The sleeps after attempts i to j - 1. */
  function DelaysIn(attempts: nat -> Attempt, policy: RetryPolicy, i: nat, j: nat): nat
    decreases j - i
  {
    if j <= i then 0 else DelayOf(attempts(i), policy) + DelaysIn(attempts, policy, i + 1, j)
  }

  lemma {:induction false} DelaysInSnoc(attempts: nat -> Attempt, policy: RetryPolicy, i: nat, j: nat)
    requires i <= j
    ensures DelaysIn(attempts, policy, i, j + 1) == DelaysIn(attempts, policy, i, j) + DelayOf(attempts(j), policy)
    decreases j - i
  {
    if i < j {
      DelaysInSnoc(attempts, policy, i + 1, j);
    }
  }

  lemma {:induction false} AllDelayed(attempts: nat -> Attempt, policy: RetryPolicy, i: nat, j: nat)
    requires i <= j
    requires forall k :: i <= k < j ==> DelayOf(attempts(k), policy) == 1
    ensures DelaysIn(attempts, policy, i, j) == j - i
    decreases j - i
  {
    if i < j {
      AllDelayed(attempts, policy, i + 1, j);
    }
  }

  /** From a running attempt the loop sends at most one request per remaining
      attempt, sleeps at most once per request, and always ends with an
      answer; a delivered response is a 200/201 that the last request
      received, and only a response-carrying error follows the probe. */
  lemma {:induction false} RetryFromBounds(attempts: nat -> Attempt, probe: Probe, policy: RetryPolicy, maxAttempts: int, i: nat)
    requires i <= maxAttempts
    ensures var r := RetryFrom(attempts, probe, policy, maxAttempts, i);
      && r.sends <= maxAttempts + 1 - i
      && r.delays <= r.sends
      && !r.result.NoResponse?
      && (r.result.Delivered? ==>
            IsSuccess(r.result.statusCode) && r.sends >= 1
            && attempts(i + r.sends - 1) == Responded(r.result.statusCode, r.result.body))
      && (r.probed ==> r.result.Failed? && r.result.error.CreateDb?)
    decreases maxAttempts - i
  {
    match attempts(i)
    case TransportFailed(_) =>
      if i < maxAttempts {
        RetryFromBounds(attempts, probe, policy, maxAttempts, i + 1);
      }
    case Responded(code, _) =>
      if !IsSuccess(code) && !NotRetryable(policy, code) && i < maxAttempts {
        RetryFromBounds(attempts, probe, policy, maxAttempts, i + 1);
      }
    case _ =>
  }

  /** The defaults of dbaas.baseclient.retry.max-attempts and
      dbaas.baseclient.retry.delay-ms. */
  const DefaultMaxAttempts := 12
  const DefaultDelayMs := 5000

  /** With the default budget a call sends at most 13 requests and sleeps at
      most 13 times, 65 seconds in all. */
  lemma DefaultBudget(attempts: nat -> Attempt, probe: Probe, policy: RetryPolicy)
    ensures var r := RetryFrom(attempts, probe, policy, DefaultMaxAttempts, 0);
      r.sends <= 13 && r.delays * DefaultDelayMs <= 65000
  {
    RetryFromBounds(attempts, probe, policy, DefaultMaxAttempts, 0);
  }

  /** With a negative attempt budget the loop body never runs and no response
      is returned. */
  lemma RetryWithoutAttempts(attempts: nat -> Attempt, probe: Probe, policy: RetryPolicy, maxAttempts: int)
    requires maxAttempts < 0
    ensures RetryFrom(attempts, probe, policy, maxAttempts, 0) == RetryRun(NoResponse, 0, 0, false)
  {
  }

  /** Attempts the loop retries can be skipped: from i the loop does what it
      does from j, after j - i requests and the sleeps those attempts cause. */
  lemma {:induction false} RetriedPrefix(attempts: nat -> Attempt, probe: Probe, policy: RetryPolicy, maxAttempts: int, i: nat, j: nat)
    requires i <= j <= maxAttempts
    requires forall k :: i <= k < j ==> Retried(attempts(k), policy)
    ensures RetryFrom(attempts, probe, policy, maxAttempts, i)
         == After(RetryFrom(attempts, probe, policy, maxAttempts, j), j - i, DelaysIn(attempts, policy, i, j))
    decreases j - i
  {
    if i < j {
      RetriedPrefix(attempts, probe, policy, maxAttempts, i + 1, j);
    }
  }

  /** k attempts that each sleep (transport failures, 202s, statuses of 300 or
      more outside the policy) and then a success: k + 1 requests, k sleeps. */
  lemma DelayedRetriesThenSuccess(attempts: nat -> Attempt, probe: Probe, policy: RetryPolicy, maxAttempts: int,
                                  k: nat, code: int, body: string)
    requires k <= maxAttempts
    requires forall j :: 0 <= j < k ==> Retried(attempts(j), policy) && DelayOf(attempts(j), policy) == 1
    requires attempts(k) == Responded(code, body) && IsSuccess(code)
    ensures RetryFrom(attempts, probe, policy, maxAttempts, 0) == RetryRun(Delivered(code, body), k + 1, k, false)
  {
    RetriedPrefix(attempts, probe, policy, maxAttempts, 0, k);
    AllDelayed(attempts, policy, 0, k);
  }

  /** A server that answers 202 k times and then 200: the body of the 200
      after k sleeps. */
  lemma AcceptedThenOk(attempts: nat -> Attempt, probe: Probe, policy: RetryPolicy, maxAttempts: int, k: nat, body: string)
    requires k <= maxAttempts
    requires !NotRetryable(policy, 202)
    requires forall j :: 0 <= j < k ==> attempts(j).Responded? && attempts(j).statusCode == 202
    requires attempts(k) == Responded(200, body)
    ensures RetryFrom(attempts, probe, policy, maxAttempts, 0) == RetryRun(Delivered(200, body), k + 1, k, false)
  {
    DelayedRetriesThenSuccess(attempts, probe, policy, maxAttempts, k, 200, body);
  }

  /** Transport failures on every attempt: maxAttempts + 1 requests, a sleep
      after each but the last, code 0, and no probe. */
  lemma AlwaysTransportFailure(attempts: nat -> Attempt, probe: Probe, policy: RetryPolicy, maxAttempts: nat)
    requires forall j :: 0 <= j <= maxAttempts ==> attempts(j).TransportFailed?
    ensures RetryFrom(attempts, probe, policy, maxAttempts, 0)
         == RetryRun(Failed(ConnectFailure(attempts(maxAttempts).reason)), maxAttempts + 1, maxAttempts, false)
  {
    RetriedPrefix(attempts, probe, policy, maxAttempts, 0, maxAttempts);
    AllDelayed(attempts, policy, 0, maxAttempts);
  }

  /** A status the policy lists stops the loop on that attempt, without a
      sleep, and the probe runs. */
  lemma NotRetryableStops(attempts: nat -> Attempt, probe: Probe, policy: RetryPolicy, maxAttempts: int, i: nat)
    requires i <= maxAttempts
    requires attempts(i).Responded? && !IsSuccess(attempts(i).statusCode)
    requires NotRetryable(policy, attempts(i).statusCode)
    ensures RetryFrom(attempts, probe, policy, maxAttempts, i)
         == RetryRun(Failed(TerminalError(attempts(i).statusCode, attempts(i).body, true, probe)), 1, 0, true)
  {
  }

  /** Non-success statuses outside the policy on every attempt: every attempt
      is used, the last one still sleeps (when its status calls for it)
      before the probe, and the error carries the last status. */
  lemma Exhausted(attempts: nat -> Attempt, probe: Probe, policy: RetryPolicy, maxAttempts: nat)
    requires forall j :: 0 <= j <= maxAttempts ==>
      attempts(j).Responded? && !IsSuccess(attempts(j).statusCode) && !NotRetryable(policy, attempts(j).statusCode)
    ensures var last := attempts(maxAttempts);
      RetryFrom(attempts, probe, policy, maxAttempts, 0)
      == RetryRun(Failed(TerminalError(last.statusCode, last.body, false, probe)), maxAttempts + 1,
                  DelaysIn(attempts, policy, 0, maxAttempts + 1), true)
  {
    RetriedPrefix(attempts, probe, policy, maxAttempts, 0, maxAttempts);
    DelaysInSnoc(attempts, policy, 0, maxAttempts);
  }

  /** A 2xx status other than 200, 201 and 202 (204, say) is retried with no
      sleep. */
  lemma QuietRetry(attempts: nat -> Attempt, probe: Probe, policy: RetryPolicy, maxAttempts: int, i: nat)
    requires i < maxAttempts
    requires attempts(i).Responded? && attempts(i).statusCode < 300 && !IsSuccess(attempts(i).statusCode)
    requires attempts(i).statusCode != 202 && !NotRetryable(policy, attempts(i).statusCode)
    ensures RetryFrom(attempts, probe, policy, maxAttempts, i)
         == After(RetryFrom(attempts, probe, policy, maxAttempts, i + 1), 1, 0)
  {
  }

  /** The collaborators of sendRequestToDbaaSWithRetry for one call: the token
      provider's error, json.Marshal's error, the loop's attempts and budget,
      the probe, and io.ReadAll's error on the delivered body. */
  datatype Exchange = Exchange(
    tokenError: Option<string>,
    marshalError: Option<string>,
    attempts: nat -> Attempt,
    maxAttempts: int,
    probe: Probe,
    readError: Option<string>)

  datatype SendRun = SendRun(contents: Result<string, Error>, sends: nat, delays: nat)

  /** The specification of sendRequestToDbaaSWithRetry. */
  function SendOutcome(ex: Exchange, policy: RetryPolicy): SendRun
  {
    if ex.tokenError.Some? then
      SendRun(Failure(Plain("some problems during getting m2m token: " + ex.tokenError.value)), 0, 0)
    else if ex.marshalError.Some? then
      SendRun(Failure(Plain("got error during marshaling connection request: " + ex.marshalError.value)), 0, 0)
    else
      var r := RetryFrom(ex.attempts, ex.probe, policy, ex.maxAttempts, 0);
      match r.result
      case Failed(e) => SendRun(Failure(e), r.sends, r.delays)
      case NoResponse => SendRun(Failure(Panic(MsgNilResponse)), r.sends, r.delays)
      case Delivered(code, body) =>
        if ex.readError.Some? then
          SendRun(Failure(CreateDb(DbaaSCreateDbError(code, MsgBodyUnreadable, ex.readError.value))), r.sends, r.delays)
        else SendRun(Success(body), r.sends, r.delays)
  }

  /** sendRequestToDbaaSWithRetry (dbaas_client.go:173-203). */
  method SendRequestToDbaaSWithRetry(ex: Exchange, policy: RetryPolicy)
    returns (contents: Result<string, Error>, sends: nat, delays: nat)
    ensures SendRun(contents, sends, delays) == SendOutcome(ex, policy)
    ensures ex.tokenError.Some? || ex.marshalError.Some? ==> sends == 0
  {
    if ex.tokenError.Some? {
      return Failure(Plain("some problems during getting m2m token: " + ex.tokenError.value)), 0, 0;
    }
    if ex.marshalError.Some? {
      return Failure(Plain("got error during marshaling connection request: " + ex.marshalError.value)), 0, 0;
    }
    var result, probed;
    result, sends, delays, probed := RetryRequestToDbaaS(ex.attempts, ex.probe, policy, ex.maxAttempts);
    match result
    case Failed(e) =>
      contents := Failure(e);
    case NoResponse =>
      contents := Failure(Panic(MsgNilResponse));
    case Delivered(code, body) =>
      if ex.readError.Some? {
        contents := Failure(CreateDb(DbaaSCreateDbError(code, MsgBodyUnreadable, ex.readError.value)));
      } else {
        contents := Success(body);
      }
  }

  /** The request path returns content only from a 200/201 response, after at
      most maxAttempts + 1 requests. */
  lemma SendOutcomeDelivers(ex: Exchange, policy: RetryPolicy)
    requires ex.maxAttempts >= 0
    ensures var s := SendOutcome(ex, policy);
      && s.sends <= ex.maxAttempts + 1
      && (s.contents.Success? ==>
            ex.tokenError.None? && ex.marshalError.None? && ex.readError.None?
            && s.sends >= 1 && ex.attempts(s.sends - 1).Responded?
            && IsSuccess(ex.attempts(s.sends - 1).statusCode)
            && s.contents.value == ex.attempts(s.sends - 1).body)
  {
    RetryFromBounds(ex.attempts, ex.probe, policy, ex.maxAttempts, 0);
  }
}
