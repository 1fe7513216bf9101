/** getapp-test-script-2.py, the earlier and smaller probe: its own URL join
    without full-URL passthrough, its own 1/2 result codes with 2xx alone
    counting as success, a login whose success path raises, a discovery POST,
    and `run_tests`, which runs both tests in order and collects their codes.
    It answers to the same transport as the later probe. */
module Legacy {
  import opened Wrappers
  import opened Strings
  import opened Gateway
  import W = Workflow

  /** The result codes of this probe. */
  const Ok: int := 1
  const NotOk: int := 2

  /** The `status` label of `getapp_requests_total`. */
  datatype RequestStatus = SuccessStatus | FailureStatus | ExceptionStatus

  /** One increment of `getapp_requests_total{endpoint, status}`; the endpoint
      label is the endpoint string as passed. */
  datatype RequestCount = RequestCount(endpoint: string, status: RequestStatus)

  /** The exception `login` raises on its success path: `response.json()` is
      called on the integer 1, which has no attribute `json`. */
  datatype Crash = IntHasNoJson

  /** What the probe has done so far: the calls it made, the counter increments
      in order, and the tester's token. */
  datatype Session = Session(trace: seq<Call>, counts: seq<RequestCount>, authToken: Option<string>)

  /** The state after one request and the code it returned. */
  datatype Answer = Answer(after: Session, code: int)

  /** The state after a step that may raise, and its code or exception. */
  datatype Outcome = Outcome(after: Session, result: Result<int, Crash>)

  // ---------------------------------------------------------------------------
  // _make_request

  /** The URL `_make_request` builds: the base URL, one slash, and the endpoint
      with its leading slashes removed, whatever the endpoint is. */
  function Url(baseUrl: string, endpoint: string): string
  {
    baseUrl + "/" + LStripSlashes(endpoint)
  }

  /** Every URL lies under the base URL followed by exactly one slash; the
      endpoint is what follows, give or take leading slashes. */
  lemma UrlShape(baseUrl: string, endpoint: string)
    ensures var url := Url(baseUrl, endpoint);
      && StartsWith(url, baseUrl + "/")
      && |baseUrl| + 1 + |endpoint| >= |url|
      && endpoint == Slashes(|baseUrl| + 1 + |endpoint| - |url|) + url[|baseUrl| + 1..]
      && (|url| == |baseUrl| + 1 || url[|baseUrl| + 1] != '/')
  {
    var url := Url(baseUrl, endpoint);
    LStripSlashesShape(endpoint);
    assert url[|baseUrl| + 1..] == LStripSlashes(endpoint);
    assert url[..|baseUrl + "/"|] == baseUrl + "/";
  }

  /** The two probes build the same URL exactly when the endpoint does not
      start with "http": this one has no full-URL passthrough. */
  lemma UrlNoPassthrough(baseUrl: string, endpoint: string)
    ensures Url(baseUrl, endpoint) == RequestUrl(baseUrl, endpoint) <==> !StartsWith(endpoint, "http")
  {
    if StartsWith(endpoint, "http") {
      assert endpoint[..4][0] == 'h';
      assert LStripSlashes(endpoint) == endpoint;
      assert |Url(baseUrl, endpoint)| > |endpoint|;
    }
  }

  /** Both probes send the login and discovery POSTs to the base URL followed
      by the path as written. */
  lemma ApiPathsAgree(baseUrl: string, e: Endpoint)
    requires e == LoginApi || e == DiscoverApi
    ensures Url(baseUrl, Path(e)) == RequestUrl(baseUrl, Path(e)) == baseUrl + Path(e)
  {
    ApiUrl(baseUrl, e);
    UrlNoPassthrough(baseUrl, Path(e));
    assert Path(e)[..4][1] == 'a';
  }

  /** The code and the counter label of an answer: 1 and "success" for a 2xx
      status, 2 otherwise, labelled "exception" when no response came. */
  function Classify(reply: Reply): (r: (int, RequestStatus))
    ensures r.0 == Ok || r.0 == NotOk
    ensures r.0 == Ok <==> reply.Response? && 200 <= reply.status < 300
    ensures r.1 == SuccessStatus <==> r.0 == Ok
    ensures r.1 == ExceptionStatus <==> reply.RequestException?
  {
    match reply
    case RequestException(_) => (NotOk, ExceptionStatus)
    case Response(status, _) => if 200 <= status < 300 then (Ok, SuccessStatus) else (NotOk, FailureStatus)
  }

  /** Every success of this probe is a success of the later one; they disagree
      exactly on the 1xx and 3xx statuses, which only the later one accepts. */
  lemma ClassifyStricter(reply: Reply)
    ensures Classify(reply).0 == Ok ==> Succeeded(reply)
    ensures Succeeded(reply) && Classify(reply).0 == NotOk <==>
      reply.Response? && (reply.status < 200 || 300 <= reply.status < 400)
  {
  }

  /** `_make_request(method, endpoint)` from state `s`: one call, sent with the
      tester's token, and one counter increment labelled by the endpoint. */
  function MakeRequestSpec(env: Env, s: Session, verb: Method, e: Endpoint): (r: Answer)
    ensures r.after.trace == s.trace + [Call(verb, e, Authorization(s.authToken))]
    ensures r.after.authToken == s.authToken
    ensures var reply := env.replies(|s.trace|);
      && (r.code == Ok || r.code == NotOk)
      && (r.code == Ok <==> reply.Response? && 200 <= reply.status < 300)
      && r.after.counts == s.counts + [RequestCount(Path(e),
           if r.code == Ok then SuccessStatus else if reply.RequestException? then ExceptionStatus else FailureStatus)]
  {
    var classified := Classify(env.replies(|s.trace|));
    var call := Call(verb, e, Authorization(s.authToken));
    Answer(Session(s.trace + [call], s.counts + [RequestCount(Path(e), classified.1)], s.authToken), classified.0)
  }

  // ---------------------------------------------------------------------------
  // The tests

  /** `login`: without both credentials, 2 and no request; otherwise the login
      POST, whose failure gives 2 and whose success raises. */
  function LoginSpec(env: Env, s: Session, creds: W.Credentials): (r: Outcome)
    ensures r.result != Success(Ok)
    ensures r.after.authToken == s.authToken
    ensures !W.HasCredentials(creds) ==> r == Outcome(s, Success(NotOk))
    ensures W.HasCredentials(creds) ==> r.after.trace == s.trace + [Call(Post, LoginApi, Authorization(s.authToken))]
    ensures r.result.Failure? <==>
      W.HasCredentials(creds) && env.replies(|s.trace|).Response? && 200 <= env.replies(|s.trace|).status < 300
  {
    if !W.HasCredentials(creds) then Outcome(s, Success(NotOk))
    else
      var post := MakeRequestSpec(env, s, Post, LoginApi);
      if post.code == Ok then Outcome(post.after, Failure(IntHasNoJson)) else Outcome(post.after, Success(NotOk))
  }

  /** `discovery`: the discovery POST, and its code. */
  function DiscoverySpec(env: Env, s: Session): (r: Answer)
    ensures r.after.trace == s.trace + [Call(Post, DiscoverApi, Authorization(s.authToken))]
    ensures r.after.authToken == s.authToken
    ensures r.code == Ok || r.code == NotOk
    ensures r.code == Ok <==> env.replies(|s.trace|).Response? && 200 <= env.replies(|s.trace|).status < 300
  {
    MakeRequestSpec(env, s, Post, DiscoverApi)
  }

  /** The entries of the `tests` dictionary, in insertion order. */
  datatype Test = LoginTest | DiscoveryTest

  const Tests: seq<Test> := [LoginTest, DiscoveryTest]

  function TestKey(t: Test): string
  {
    match t
    case LoginTest => "login"
    case DiscoveryTest => "discovery"
  }

  /** One test function called from state `s`. */
  function RunTest(env: Env, creds: W.Credentials, s: Session, t: Test): Outcome
  {
    match t
    case LoginTest => LoginSpec(env, s, creds)
    case DiscoveryTest =>
      var d := DiscoverySpec(env, s);
      Outcome(d.after, Success(d.code))
  }

  /** The state after the tests ran, and the results or the exception that escaped. */
  datatype Report = Report(after: Session, results: Result<map<string, int>, Crash>)

  /** The loop of `run_tests` over `tests`, with `results` collected so far: an
      exception leaves the loop at once, otherwise each code is stored under the
      test's name. */
  function RunFrom(env: Env, creds: W.Credentials, s: Session, tests: seq<Test>, results: map<string, int>): (r: Report)
    ensures r.after.authToken == s.authToken
    ensures r.results.Success? ==> r.results.value.Keys == results.Keys + set t | t in tests :: TestKey(t)
    decreases |tests|
  {
    if tests == [] then Report(s, Success(results))
    else
      var o := RunTest(env, creds, s, tests[0]);
      match o.result
      case Failure(c) => Report(o.after, Failure(c))
      case Success(code) => RunFrom(env, creds, o.after, tests[1..], results[TestKey(tests[0]) := code])
  }

  /** `run_tests` from state `s`. */
  function RunTestsSpec(env: Env, creds: W.Credentials, s: Session): Report
  {
    RunFrom(env, creds, s, Tests, map[])
  }

  /** `run_tests` runs login and then discovery, each once, and goes on to
      discovery whatever login returned; only the exception login raises on
      its success path stops it, before discovery makes any request. When it
      returns, login is recorded as 2 and discovery as the code of its POST. */
  lemma RunTestsOutcome(env: Env, creds: W.Credentials, s: Session)
    ensures var r := RunTestsSpec(env, creds, s);
      var login := [Call(Post, LoginApi, Authorization(s.authToken))];
      var sent := if W.HasCredentials(creds) then login else [];
      var discovery := env.replies(|s.trace| + |sent|);
      && (r.results.Failure? <==>
            W.HasCredentials(creds) && env.replies(|s.trace|).Response? && 200 <= env.replies(|s.trace|).status < 300)
      && (r.results.Failure? ==> r.after.trace == s.trace + login)
      && (r.results.Success? ==>
            && r.after.trace == s.trace + sent + [Call(Post, DiscoverApi, Authorization(s.authToken))]
            && r.results.value == map["login" := NotOk, "discovery" := Classify(discovery).0])
      && r.after.authToken == s.authToken
  {
    var o := LoginSpec(env, s, creds);
    if o.result.Success? {
      var sent := if W.HasCredentials(creds) then [Call(Post, LoginApi, Authorization(s.authToken))] else [];
      assert o.after.trace == s.trace + sent;
      assert Tests[1..] == [DiscoveryTest];
      assert Tests[1..][1..] == [];
      var d := DiscoverySpec(env, o.after);
      assert d.after.trace == s.trace + sent + [Call(Post, DiscoverApi, Authorization(s.authToken))];
    }
  }

  /** A tester that starts without a token never obtains one, so no request of
      `run_tests` carries an Authorization header. */
  lemma FreshRunUnauthorized(env: Env, creds: W.Credentials, s: Session)
    requires s.authToken == None
    ensures var r := RunTestsSpec(env, creds, s);
      && |s.trace| <= |r.after.trace| <= |s.trace| + 2
      && r.after.trace[..|s.trace|] == s.trace
      && forall i :: |s.trace| <= i < |r.after.trace| ==> r.after.trace[i].authorization == None
  {
    RunTestsOutcome(env, creds, s);
  }

  // ---------------------------------------------------------------------------
  // The tester

  class APITester {
    const baseUrl: string
    const world: Runtime<seq<RequestCount>>
    var authToken: Option<string>

    /** `APITester()`: no token yet. */
    constructor (baseUrl: string, world: Runtime<seq<RequestCount>>)
      ensures this.baseUrl == baseUrl && this.world == world && authToken == None
    {
      this.baseUrl := baseUrl;
      this.world := world;
      authToken := None;
    }

    /** The transport as the specification functions see it. */
    function Environment(): Env
    {
      Env(baseUrl, world.replies)
    }

    ghost function Snapshot(): Session
      reads this, world
    {
      Session(world.trace, world.counters, authToken)
    }

    /** `_make_request` */
    method MakeRequest(verb: Method, e: Endpoint) returns (code: int)
      modifies world
      ensures MakeRequestSpec(Environment(), old(Snapshot()), verb, e) == Answer(Snapshot(), code)
    {
      var reply := world.Send(Call(verb, e, Authorization(authToken)));
      var classified := Classify(reply);
      world.counters := world.counters + [RequestCount(Path(e), classified.1)];
      code := classified.0;
    }

    /** `login`. The assignment to `auth_token` is never reached: on a code of 1
        the call `response.json()` raises first. */
    method Login(creds: W.Credentials) returns (result: Result<int, Crash>)
      modifies world
      ensures LoginSpec(Environment(), old(Snapshot()), creds) == Outcome(Snapshot(), result)
    {
      if !W.HasCredentials(creds) {
        return Success(NotOk);
      }
      var response := MakeRequest(Post, LoginApi);
      if response == Ok {
        return Failure(IntHasNoJson);
      }
      return Success(NotOk);
    }

    /** `discovery` */
    method Discovery() returns (code: int)
      modifies world
      ensures DiscoverySpec(Environment(), old(Snapshot())) == Answer(Snapshot(), code)
    {
      code := MakeRequest(Post, DiscoverApi);
    }

    /** `run_tests`: the loop over the `tests` dictionary, storing each code
        under the test's name; an exception escapes the loop. */
    method RunTests(creds: W.Credentials) returns (report: Result<map<string, int>, Crash>)
      modifies world
      ensures RunTestsSpec(Environment(), creds, old(Snapshot())) == Report(Snapshot(), report)
    {
      ghost var env := Environment();
      ghost var run := RunTestsSpec(env, creds, Snapshot());
      var results: map<string, int> := map[];
      for i := 0 to |Tests|
        invariant RunFrom(env, creds, Snapshot(), Tests[i..], results) == run
      {
        var test := Tests[i];
        var result: Result<int, Crash>;
        match test {
          case LoginTest =>
            result := Login(creds);
          case DiscoveryTest =>
            var code := Discovery();
            result := Success(code);
        }
        if result.Failure? {
          return Failure(result.error);
        }
        results := results[TestKey(test) := result.value];
      }
      return Success(results);
    }
  }

  /** `main`: a new tester, without a token, runs the tests once; the exception
      login raises on its success path escapes `main` as well. */
  method RunMain(baseUrl: string, world: Runtime<seq<RequestCount>>, creds: W.Credentials)
    returns (report: Result<map<string, int>, Crash>)
    modifies world
    ensures var before := Session(old(world.trace), old(world.counters), None);
      RunTestsSpec(Env(baseUrl, world.replies), creds, before) == Report(Session(world.trace, world.counters, None), report)
  {
    var tester := new APITester(baseUrl, world);
    report := tester.RunTests(creds);
  }
}
