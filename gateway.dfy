/** The HTTP side of the probe: what one call looks like, how `_make_request`
    builds its URL and header and classifies the answer, and the process-wide
    state a call touches (the transport, the Prometheus counters, the clock). */
module Gateway {
  import opened Wrappers
  import opened Strings

  datatype Method = Get | Post

  /** The services whose `checkHealth` endpoint the probe calls. */
  datatype Service = DeliveryService | DeviceService | OfferingService | MapService

  /** The `endpoint` argument of `_make_request`: one of the probe's API paths,
      or a URL handed to `download_files`. */
  datatype Endpoint =
    | LoginApi
    | DiscoverApi
    | CreateImportApi
    | UpdateStatusApi
    | PrepareApi
    | InventoryApi
    | ImportStatusOf(id: Option<string>)
    | PreparedDeliveryOf(id: Option<string>)
    | HealthOf(service: Service)
    | Given(text: string)

  /** An optional string as an f-string renders it. */
  function IdText(id: Option<string>): string
  {
    if id.Some? then id.value else "None"
  }

  /** The endpoint as the string the probe passes. */
  function Path(e: Endpoint): string
  {
    if e.Given? then e.text else "/api/" + Route(e)
  }

  /** The part of an API path after "/api/". */
  function Route(e: Endpoint): string
    requires !e.Given?
  {
    match e
    case LoginApi => "login"
    case DiscoverApi => "device/discover"
    case CreateImportApi => "map/import/create"
    case UpdateStatusApi => "delivery/updateDownloadStatus"
    case PrepareApi => "delivery/prepareDelivery"
    case InventoryApi => "map/inventory/updates"
    case ImportStatusOf(id) => "map/import/status/" + IdText(id)
    case PreparedDeliveryOf(id) => "delivery/preparedDelivery/" + IdText(id)
    case HealthOf(DeliveryService) => "delivery/checkHealth"
    case HealthOf(DeviceService) => "device/checkHealth"
    case HealthOf(OfferingService) => "offering/checkHealth"
    case HealthOf(MapService) => "map/checkHealth"
  }

  /** The keys the probe reads from a JSON response. */
  datatype Field = AccessToken | ImportRequestId | Status | Url

  function FieldName(f: Field): string
  {
    match f
    case AccessToken => "accessToken"
    case ImportRequestId => "importRequestId"
    case Status => "status"
    case Url => "url"
  }

  /** A response body as `response.json().get(key)` sees it: a JSON object, of
      which the string values under the keys the probe reads are kept, or
      anything else (not JSON at all, or JSON that is not an object), on which
      reading a key raises. */
  datatype Body = Object(fields: map<Field, string>) | NotObject

  /** What the transport gives back for one call: a response, or a
      `RequestException` of the named class. */
  datatype Reply = Response(status: int, body: Body) | RequestException(kind: string)

  /** One outbound request as it leaves the probe: verb, endpoint and the
      value of the Authorization header, if one is sent. */
  datatype Call = Call(verb: Method, endpoint: Endpoint, authorization: Option<string>)

  /** The `error_type` label of a failed request. */
  datatype ErrorType = ClientError | ServerError | ExceptionClass(name: string)

  function ErrorTypeText(t: ErrorType): string
  {
    match t
    case ClientError => "client_error"
    case ServerError => "server_error"
    case ExceptionClass(name) => name
  }

  /** The labels of `getapp_requests_total` and `getapp_failed_requests_total`;
      the `endpoint` label's text is `EndpointLabel(Path(endpoint))`. */
  datatype RequestLabel = RequestLabel(endpoint: Endpoint, verb: Method)
  datatype FailureLabel = FailureLabel(endpoint: Endpoint, statusCode: int, errorType: ErrorType)

  /** The `(test_name, failure_reason)` pairs of `getapp_test_failures_total`. */
  datatype TestFailure =
    | LoginAuthFailed
    | DiscoveryApiError
    | ImportCreateFailed
    | NoRequestId
    | StatusUpdateFailed(status: string)
    | PreparationFailed
    | GetUrlFailed
    | NoUrl
    | InventoryUpdateFailed
    | HealthCheckFailed(endpoint: Endpoint)
    | UnexpectedError

  function TestName(t: TestFailure): string
  {
    match t
    case LoginAuthFailed => "login"
    case DiscoveryApiError => "discovery"
    case ImportCreateFailed => "import_map"
    case NoRequestId => "import_status"
    case StatusUpdateFailed(_) => "update_download_status"
    case PreparationFailed => "prepare_delivery"
    case GetUrlFailed => "prepare_delivery"
    case NoUrl => "download_files"
    case InventoryUpdateFailed => "update_inventory"
    case HealthCheckFailed(_) => "health_check"
    case UnexpectedError => "run_full_test"
  }

  function FailureReason(t: TestFailure): string
  {
    match t
    case LoginAuthFailed => "auth_failed"
    case DiscoveryApiError => "api_error"
    case ImportCreateFailed => "create_failed"
    case NoRequestId => "no_request_id"
    case StatusUpdateFailed(status) => "status_update_failed_" + status
    case PreparationFailed => "preparation_failed"
    case GetUrlFailed => "get_url_failed"
    case NoUrl => "no_url"
    case InventoryUpdateFailed => "update_failed"
    case HealthCheckFailed(e) => Path(e)
    case UnexpectedError => "unexpected_error"
  }

  /** The `file_type` label of `getapp_download_failures_total`. */
  datatype FileType = Gpkg | Json

  /** Every increment of the probe's counters, one log per counter, in order.
      A counter's value for a label set is the number of times it occurs. */
  datatype Counters = Counters(
    requests: seq<RequestLabel>,        // getapp_requests_total
    failedRequests: seq<FailureLabel>,  // getapp_failed_requests_total
    testFailures: seq<TestFailure>,     // getapp_test_failures_total
    downloadFailures: seq<FileType>,    // getapp_download_failures_total
    importStatusFailures: seq<string>)  // getapp_import_status_failures, by status

  /** The configured base URL and the transport: `replies(k)` answers call number `k`. */
  datatype Env = Env(baseUrl: string, replies: nat -> Reply)

  /** Everything a step can change: the calls made so far, the counters, the
      number of sleeps, and the tester's two mutable fields. */
  datatype State = State(
    trace: seq<Call>,
    counters: Counters,
    sleeps: nat,
    authToken: Option<string>,
    importRequestId: Option<string>)

  /** The `(response, success)` pair `_make_request` returns, with the state after the call. */
  datatype Exchange = Exchange(after: State, response: Option<Body>, success: bool)

  /** Python truthiness of an optional string: neither None nor empty. */
  predicate Truthy(s: Option<string>)
  {
    s.Some? && s.value != ""
  }

  /** The Authorization header: sent exactly when the token is truthy. */
  function Authorization(token: Option<string>): Option<string>
  {
    if Truthy(token) then Some("Bearer " + token.value) else None
  }

  /** The URL `_make_request` calls for `endpoint`. */
  function RequestUrl(baseUrl: string, endpoint: string): string
  {
    if StartsWith(endpoint, "http") then endpoint
    else baseUrl + "/" + LStripSlashes(endpoint)
  }

  /** The URL a recorded call went to. */
  function CallUrl(baseUrl: string, c: Call): string
  {
    RequestUrl(baseUrl, Path(c.endpoint))
  }

  /** A full URL is used verbatim; otherwise the URL is the base URL, exactly one
      slash, and the endpoint with its leading slashes removed. */
  lemma RequestUrlShape(baseUrl: string, endpoint: string)
    ensures var url := RequestUrl(baseUrl, endpoint);
      && (StartsWith(endpoint, "http") ==> url == endpoint)
      && (!StartsWith(endpoint, "http") ==>
            && StartsWith(url, baseUrl + "/")
            && |baseUrl| + 1 + |endpoint| >= |url|
            && endpoint == Slashes(|baseUrl| + 1 + |endpoint| - |url|) + url[|baseUrl| + 1..]
            && (|url| == |baseUrl| + 1 || url[|baseUrl| + 1] != '/'))
  {
    if !StartsWith(endpoint, "http") {
      var rest := LStripSlashes(endpoint);
      var url := baseUrl + "/" + rest;
      LStripSlashesShape(endpoint);
      assert url[|baseUrl| + 1..] == rest;
      assert url[..|baseUrl + "/"|] == baseUrl + "/";
    }
  }

  /** Extra leading slashes on a relative endpoint never change the URL. */
  lemma RequestUrlIgnoresSlashes(baseUrl: string, endpoint: string, n: nat)
    requires !StartsWith(endpoint, "http")
    ensures RequestUrl(baseUrl, Slashes(n) + endpoint) == RequestUrl(baseUrl, endpoint)
  {
    var e := Slashes(n) + endpoint;
    if n > 0 {
      assert e[0] == Slashes(n)[0] == '/';
      assert !StartsWith(e, "http");
    } else {
      assert e == endpoint;
    }
    LStripIgnoresSlashes(n, endpoint);
  }

  /** The `endpoint` label of the request counters: after line 75 reassigns it,
      the stripped endpoint, or the full URL as given. */
  function EndpointLabel(endpoint: string): string
  {
    if StartsWith(endpoint, "http") then endpoint else LStripSlashes(endpoint)
  }

  /** A path with exactly one leading slash is appended to the base URL as it is,
      and counted under its text without that slash. */
  lemma OneSlashPath(baseUrl: string, path: string)
    requires |path| >= 2 && path[0] == '/' && path[1] != '/'
    ensures RequestUrl(baseUrl, path) == baseUrl + path
    ensures EndpointLabel(path) == path[1..]
  {
    assert !StartsWith(path, "http") by {
      if |path| >= 4 { assert path[..4][0] != 'h'; }
    }
    assert LStripSlashes(path) == LStripSlashes(path[1..]) == path[1..];
    assert baseUrl + "/" + path[1..] == baseUrl + path;
  }

  /** Every API call of the probe goes to the base URL followed by its path, and
      is counted under that path without its leading slash. */
  lemma ApiUrl(baseUrl: string, e: Endpoint)
    requires !e.Given?
    ensures RequestUrl(baseUrl, Path(e)) == baseUrl + Path(e)
    ensures EndpointLabel(Path(e)) == Path(e)[1..]
  {
    var p := Path(e);
    assert p == "/api/" + Route(e);
    OneSlashPath(baseUrl, p);
  }

  /** `_make_request` reports success for every status below 400, 1xx and 3xx included. */
  predicate Succeeded(reply: Reply)
  {
    reply.Response? && reply.status < 400
  }

  /** The `failed_requests` labels of a call that did not succeed. */
  function FailureOf(e: Endpoint, reply: Reply): FailureLabel
  {
    match reply
    case RequestException(kind) => FailureLabel(e, 0, ExceptionClass(kind))
    case Response(status, _) => FailureLabel(e, status, if status < 500 then ClientError else ServerError)
  }

  /** A failed call is labelled with its status code and "client_error" below
      500, "server_error" from 500 on; a transport exception with status code 0
      and the exception's class name. */
  lemma FailureOfLabels(e: Endpoint, reply: Reply)
    requires !Succeeded(reply)
    ensures var f := FailureOf(e, reply);
      && f.endpoint == e
      && (reply.RequestException? ==> f.statusCode == 0 && f.errorType == ExceptionClass(reply.kind))
      && (reply.Response? ==> f.statusCode == reply.status >= 400)
      && (reply.Response? ==> (f.errorType == ClientError <==> reply.status < 500))
      && (reply.Response? ==> (f.errorType == ServerError <==> reply.status >= 500))
  {
  }

  /** The transport's answer to the next call made from state `s`. */
  function NextReply(env: Env, s: State): Reply
  {
    env.replies(|s.trace|)
  }

  /** `_make_request(method, endpoint)`: one call, its counters, and the
      `(response, success)` pair. The active-requests gauge is left to the class,
      where it goes up and back down within the call. */
  function Request(env: Env, s: State, m: Method, e: Endpoint): (x: Exchange)
    ensures x.after.trace == s.trace + [Call(m, e, Authorization(s.authToken))]
    ensures x.after.sleeps == s.sleeps
    ensures x.after.authToken == s.authToken && x.after.importRequestId == s.importRequestId
    ensures x.after.counters.testFailures == s.counters.testFailures
    ensures x.after.counters.downloadFailures == s.counters.downloadFailures
    ensures x.after.counters.importStatusFailures == s.counters.importStatusFailures
    ensures x.success <==> Succeeded(NextReply(env, s))
    ensures x.response.None? <==> NextReply(env, s).RequestException?
    ensures x.response.Some? ==> x.response.value == NextReply(env, s).body
    ensures x.after.counters.requests ==
      s.counters.requests + if NextReply(env, s).Response? then [RequestLabel(e, m)] else []
    ensures x.after.counters.failedRequests ==
      s.counters.failedRequests + if x.success then [] else [FailureOf(e, NextReply(env, s))]
  {
    var c := s.counters;
    var s' := s.(trace := s.trace + [Call(m, e, Authorization(s.authToken))]);
    match NextReply(env, s)
    case RequestException(kind) =>
      Exchange(s'.(counters := c.(failedRequests := c.failedRequests + [FailureLabel(e, 0, ExceptionClass(kind))])),
               None, false)
    case Response(status, body) =>
      var counted := c.(requests := c.requests + [RequestLabel(e, m)]);
      if status >= 400 then
        var kind := if status < 500 then ClientError else ServerError;
        Exchange(s'.(counters := counted.(failedRequests := c.failedRequests + [FailureLabel(e, status, kind)])),
                 Some(body), false)
      else
        Exchange(s'.(counters := counted), Some(body), true)
  }

  /** `response.json().get(key)` on a body that is a JSON object. */
  function Lookup(fields: map<Field, string>, key: Field): Option<string>
  {
    if key in fields then Some(fields[key]) else None
  }

  /** The process-wide side of a run: the transport that answers call number
      `k` with `replies(k)`, the record of every call made, the counters, the
      active-requests gauge and the number of `time.sleep` calls. One runtime
      outlives the testers that `main` creates, as the module-level metrics do. */
  class Runtime<C> {
    const replies: nat -> Reply
    var trace: seq<Call>
    ghost var counters: C
    ghost var activeRequests: int
    var sleeps: nat

    constructor (replies: nat -> Reply, counters: C)
      ensures this.replies == replies && this.counters == counters
      ensures trace == [] && sleeps == 0 && activeRequests == 0
    {
      this.replies := replies;
      this.counters := counters;
      trace := [];
      sleeps := 0;
      activeRequests := 0;
    }

    /** `requests.get` / `requests.post`: the call is recorded and the transport answers it. */
    method Send(call: Call) returns (reply: Reply)
      modifies this
      ensures reply == replies(|old(trace)|)
      ensures trace == old(trace) + [call]
      ensures counters == old(counters) && activeRequests == old(activeRequests) && sleeps == old(sleeps)
    {
      reply := replies(|trace|);
      trace := trace + [call];
    }

    /** `time.sleep(2)`, counted rather than timed. */
    method Sleep()
      modifies this
      ensures sleeps == old(sleeps) + 1
      ensures trace == old(trace) && counters == old(counters) && activeRequests == old(activeRequests)
    {
      sleeps := sleeps + 1;
    }
  }
}
