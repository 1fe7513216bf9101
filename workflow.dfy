/** The steps of `APITester` in getapp-test-script.py as functions of the
    transport's answers: one specification function per step, the bounded
    import-status poll and the five ignored status updates of `run_full_test`,
    and the health sweep. */
module Workflow {
  import opened Wrappers
  import opened Strings
  import opened Gateway

  /** `GETAPP_USERNAME` and `GETAPP_PASSWORD` as read from the environment. */
  datatype Credentials = Credentials(username: Option<string>, password: Option<string>)

  /** Exceptions that escape a step: the `ValueError` for missing credentials and
      the error raised by `response.json().get(...)` on a body that is not a JSON object. */
  datatype Raised = MissingCredentials | UndecodableBody

  /** The steps of `run_full_test` that can end it. */
  datatype Step = Login | Discovery | ImportMap | ImportStatus | PrepareDelivery | DownloadFiles | UpdateInventory | HealthCheck

  /** How `run_full_test` ends: it falls off the end, returns early after a failed
      step, or lets an exception out to `main`. */
  datatype Ending = Completed | Aborted(step: Step) | Crashed(step: Step, exc: Raised)

  /** The state after a step that may raise, and its return value or exception. */
  datatype Outcome<T> = Outcome(after: State, result: Result<T, Raised>)

  /** The state after a step that returns a boolean and cannot raise. */
  datatype Verdict = Verdict(after: State, ok: bool)

  const MaxRetries: nat := 30
  const StatusUpdates: nat := 5

  /** The four services `check_health` calls, in order. */
  const HealthEndpoints: seq<Endpoint> :=
    [HealthOf(DeliveryService), HealthOf(DeviceService), HealthOf(OfferingService), HealthOf(MapService)]

  /** The call `_make_request(m, e)` sends while the tester holds `token`. */
  function CallTo(token: Option<string>, m: Method, e: Endpoint): Call
  {
    Call(m, e, Authorization(token))
  }

  /** `n` copies of the call `c`. */
  function Repeat(c: Call, n: nat): (r: seq<Call>)
    ensures |r| == n
  {
    if n == 0 then [] else [c] + Repeat(c, n - 1)
  }

  predicate HasCredentials(creds: Credentials)
  {
    Truthy(creds.username) && Truthy(creds.password)
  }

  /** `test_failures.labels(test_name, failure_reason).inc()` */
  function WithTestFailure(s: State, t: TestFailure): State
  {
    s.(counters := s.counters.(testFailures := s.counters.testFailures + [t]))
  }

  /** `time.sleep(2)` */
  function Slept(s: State): State
  {
    s.(sleeps := s.sleeps + 1)
  }

  /** Only the call record and the two request counters moved from `s` to `t`. */
  predicate OnlyRequests(s: State, t: State)
  {
    && t.sleeps == s.sleeps
    && t.authToken == s.authToken
    && t.importRequestId == s.importRequestId
    && t.counters.testFailures == s.counters.testFailures
    && t.counters.downloadFailures == s.counters.downloadFailures
    && t.counters.importStatusFailures == s.counters.importStatusFailures
  }

  // ---------------------------------------------------------------------------
  // The steps

  /** `login`: no request without both credentials; otherwise one POST, whose
      success stores `accessToken` and whose failure is counted. */
  function LoginSpec(env: Env, s: State, creds: Credentials): (r: Outcome<bool>)
    ensures !HasCredentials(creds) ==> r == Outcome(s, Failure(MissingCredentials))
    ensures HasCredentials(creds) ==> r.after.trace == s.trace + [CallTo(s.authToken, Post, LoginApi)]
    ensures r.after.sleeps == s.sleeps && r.after.importRequestId == s.importRequestId
    ensures r.result == Success(true) <==>
      HasCredentials(creds) && Succeeded(NextReply(env, s)) && NextReply(env, s).body.Object?
    ensures r.result == Success(true) ==>
      && r.after.authToken == Lookup(NextReply(env, s).body.fields, AccessToken)
      && r.after.counters.testFailures == s.counters.testFailures
    ensures r.result == Success(false) <==> HasCredentials(creds) && !Succeeded(NextReply(env, s))
    ensures r.result == Success(false) ==>
      && r.after.authToken == s.authToken
      && r.after.counters.testFailures == s.counters.testFailures + [LoginAuthFailed]
  {
    if !HasCredentials(creds) then Outcome(s, Failure(MissingCredentials))
    else
      var x := Request(env, s, Post, LoginApi);
      // `success and response`: a response that succeeded is truthy
      if x.success && x.response.Some? then
        match x.response.value
        case Object(fields) => Outcome(x.after.(authToken := Lookup(fields, AccessToken)), Success(true))
        case NotObject => Outcome(x.after, Failure(UndecodableBody))
      else
        Outcome(WithTestFailure(x.after, LoginAuthFailed), Success(false))
  }

  /** `discovery`: one POST; its failure is counted and returned. */
  function DiscoverySpec(env: Env, s: State): (r: Verdict)
    ensures r.after.trace == s.trace + [CallTo(s.authToken, Post, DiscoverApi)]
    ensures r.ok <==> Succeeded(NextReply(env, s))
    ensures r.after.counters.testFailures ==
      s.counters.testFailures + if r.ok then [] else [DiscoveryApiError]
    ensures r.after.sleeps == s.sleeps && r.after.authToken == s.authToken && r.after.importRequestId == s.importRequestId
  {
    var x := Request(env, s, Post, DiscoverApi);
    if x.success then Verdict(x.after, true)
    else Verdict(WithTestFailure(x.after, DiscoveryApiError), false)
  }

  /** `update_download_status(catalog_id, status)`: one POST, result returned,
      failure counted under a reason naming the status. The catalog id only
      travels in the request body. */
  function UpdateDownloadStatusSpec(env: Env, s: State, status: string): (r: Verdict)
    ensures r.after.trace == s.trace + [CallTo(s.authToken, Post, UpdateStatusApi)]
    ensures r.ok <==> Succeeded(NextReply(env, s))
    ensures r.after.counters.testFailures ==
      s.counters.testFailures + if r.ok then [] else [StatusUpdateFailed(status)]
    ensures r.after.sleeps == s.sleeps && r.after.authToken == s.authToken && r.after.importRequestId == s.importRequestId
  {
    var x := Request(env, s, Post, UpdateStatusApi);
    if x.success then Verdict(x.after, true)
    else Verdict(WithTestFailure(x.after, StatusUpdateFailed(status)), false)
  }

  /** `import_map`: the create POST; on success the returned `importRequestId` is
      stored and the first download-status update decides the result. */
  function ImportMapSpec(env: Env, s: State): (r: Outcome<bool>)
    ensures r.after.sleeps == s.sleeps && r.after.authToken == s.authToken
    ensures !Succeeded(NextReply(env, s)) ==>
      && r.result == Success(false)
      && r.after.trace == s.trace + [CallTo(s.authToken, Post, CreateImportApi)]
      && r.after.importRequestId == s.importRequestId
      && r.after.counters.testFailures == s.counters.testFailures + [ImportCreateFailed]
    ensures Succeeded(NextReply(env, s)) && NextReply(env, s).body.NotObject? ==>
      && r.result == Failure(UndecodableBody)
      && r.after.trace == s.trace + [CallTo(s.authToken, Post, CreateImportApi)]
    ensures Succeeded(NextReply(env, s)) && NextReply(env, s).body.Object? ==>
      && r.after.importRequestId == Lookup(NextReply(env, s).body.fields, ImportRequestId)
      && r.after.trace == s.trace + [CallTo(s.authToken, Post, CreateImportApi), CallTo(s.authToken, Post, UpdateStatusApi)]
    ensures r.result == Success(true) <==>
      Succeeded(env.replies(|s.trace|)) && env.replies(|s.trace|).body.Object? && Succeeded(env.replies(|s.trace| + 1))
  {
    var x := Request(env, s, Post, CreateImportApi);
    if x.success && x.response.Some? then
      match x.response.value
      case Object(fields) =>
        var u := UpdateDownloadStatusSpec(env, x.after.(importRequestId := Lookup(fields, ImportRequestId)), "Start");
        Outcome(u.after, Success(u.ok))
      case NotObject => Outcome(x.after, Failure(UndecodableBody))
    else
      Outcome(WithTestFailure(x.after, ImportCreateFailed), Success(false))
  }

  /** The label an import status is counted under (`None` renders as "None"). */
  function StatusLabel(status: Option<string>): string
  {
    if status.Some? then status.value else "None"
  }

  /** `check_import_status`: "Error" without a request when there is no request
      id, "Error" when the request fails, otherwise the body's `status`; every
      status other than "Done" and "Error" is counted. */
  function CheckImportStatusSpec(env: Env, s: State): (r: Outcome<Option<string>>)
    ensures r.after.sleeps == s.sleeps && r.after.authToken == s.authToken && r.after.importRequestId == s.importRequestId
    ensures !Truthy(s.importRequestId) ==>
      r == Outcome(WithTestFailure(s, NoRequestId), Success(Some("Error")))
    ensures Truthy(s.importRequestId) ==>
      && r.after.trace == s.trace + [CallTo(s.authToken, Get, ImportStatusOf(s.importRequestId))]
      && r.after.counters.testFailures == s.counters.testFailures
    ensures Truthy(s.importRequestId) && !Succeeded(NextReply(env, s)) ==>
      && r.result == Success(Some("Error"))
      && r.after.counters.importStatusFailures == s.counters.importStatusFailures + ["api_error"]
    ensures Truthy(s.importRequestId) && Succeeded(NextReply(env, s)) ==>
      match NextReply(env, s).body
      case NotObject => r.result == Failure(UndecodableBody)
      case Object(fields) =>
        var status := Lookup(fields, Status);
        && r.result == Success(status)
        && r.after.counters.importStatusFailures ==
             s.counters.importStatusFailures + if status in {Some("Done"), Some("Error")} then [] else [StatusLabel(status)]
  {
    if !Truthy(s.importRequestId) then
      Outcome(WithTestFailure(s, NoRequestId), Success(Some("Error")))
    else
      var x := Request(env, s, Get, ImportStatusOf(s.importRequestId));
      if !x.success || x.response.None? then
        var c := x.after.counters;
        Outcome(x.after.(counters := c.(importStatusFailures := c.importStatusFailures + ["api_error"])), Success(Some("Error")))
      else
        match x.response.value
        case NotObject => Outcome(x.after, Failure(UndecodableBody))
        case Object(fields) =>
          var status := Lookup(fields, Status);
          var c := x.after.counters;
          if status !in {Some("Done"), Some("Error")} then
            Outcome(x.after.(counters := c.(importStatusFailures := c.importStatusFailures + [StatusLabel(status)])), Success(status))
          else
            Outcome(x.after, Success(status))
  }

  /** How the status poll of `run_full_test` ends. */
  datatype PollEnd = Done | Exhausted | StatusError | PollCrashed(exc: Raised)

  /** The state after the poll, how it ended, and how many times
      `check_import_status` was called. */
  datatype PollRun = PollRun(after: State, end: PollEnd, polls: nat)

  /** The status call the poll repeats; token and id do not change while polling. */
  function StatusCall(s: State): Call
  {
    CallTo(s.authToken, Get, ImportStatusOf(s.importRequestId))
  }

  /** The `while` loop of `run_full_test`, entered with a non-terminal status after
      `retries` polls: poll; on "Error" stop at once; otherwise sleep, and go on
      unless the status was "Done" or the retry budget is spent. */
  function PollSpec(env: Env, s: State, retries: nat): (r: PollRun)
    requires retries <= MaxRetries
    ensures r.polls <= MaxRetries - retries
    ensures retries < MaxRetries ==> r.polls >= 1
    ensures r.end.Exhausted? ==> r.polls == MaxRetries - retries
    ensures r.after.authToken == s.authToken && r.after.importRequestId == s.importRequestId
    ensures r.after.trace == s.trace + Repeat(StatusCall(s), if Truthy(s.importRequestId) then r.polls else 0)
    ensures r.after.sleeps == s.sleeps + if r.end.StatusError? || r.end.PollCrashed? then r.polls - 1 else r.polls
    ensures !Truthy(s.importRequestId) && retries < MaxRetries ==> r.end.StatusError? && r.polls == 1
    ensures r.end.Exhausted? ==> |r.after.counters.importStatusFailures| == |s.counters.importStatusFailures| + r.polls
    ensures r.end.Done? ==> |r.after.counters.importStatusFailures| == |s.counters.importStatusFailures| + r.polls - 1
    decreases MaxRetries - retries
  {
    if retries == MaxRetries then PollRun(s, Exhausted, 0)
    else
      var check := CheckImportStatusSpec(env, s);
      match check.result
      case Failure(e) => PollRun(check.after, PollCrashed(e), 1)
      case Success(status) =>
        if status == Some("Error") then PollRun(check.after, StatusError, 1)
        else if status == Some("Done") then PollRun(Slept(check.after), Done, 1)
        else
          var s1 := Slept(check.after);
          var rest := PollSpec(env, s1, retries + 1);
          var c := StatusCall(s);
          assert StatusCall(s1) == c;
          assert Repeat(c, rest.polls + 1) == [c] + Repeat(c, rest.polls);
          rest.(polls := rest.polls + 1)
  }

  /** `poll` is what the whole status loop does, given that `retries` polls
      are behind it, they left the state `s` and the last status seen is `status`. */
  ghost predicate PollPending(env: Env, poll: PollRun, s: State, retries: nat, status: Option<string>)
    requires retries <= MaxRetries
  {
    if status == Some("Done") then poll == PollRun(s, Done, retries)
    else
      var rest := PollSpec(env, s, retries);
      poll == rest.(polls := rest.polls + retries)
  }

  /** Before the first poll, the loop is all that is pending. */
  lemma PollBegins(env: Env, s: State)
    ensures PollPending(env, PollSpec(env, s, 0), s, 0, Some("Processing"))
  {
    assert "Processing"[0] != "Done"[0];
  }

  /** One turn of the status loop, in terms of the state `check_import_status`
      left and what it returned. */
  lemma PollTurn(env: Env, poll: PollRun, s: State, retries: nat, status: Option<string>, t: State, result: Result<Option<string>, Raised>)
    requires retries < MaxRetries && status != Some("Done") && PollPending(env, poll, s, retries, status)
    requires CheckImportStatusSpec(env, s) == Outcome(t, result)
    ensures result.Failure? ==> poll == PollRun(t, PollCrashed(result.error), retries + 1)
    ensures result == Success(Some("Error")) ==> poll == PollRun(t, StatusError, retries + 1)
    ensures result.Success? && result.value != Some("Error") ==> PollPending(env, poll, Slept(t), retries + 1, result.value)
  {
  }

  /** Once the retry budget is spent, the loop ends exhausted. */
  lemma PollSpent(env: Env, poll: PollRun, s: State, status: Option<string>)
    requires status != Some("Done") && PollPending(env, poll, s, MaxRetries, status)
    ensures poll == PollRun(s, Exhausted, MaxRetries)
  {
  }

  /** A status reply that keeps the loop polling: the request succeeds and its
      body reports a status other than "Done" and "Error". */
  predicate PendingReply(reply: Reply)
  {
    Succeeded(reply) && reply.body.Object? && Lookup(reply.body.fields, Status) !in {Some("Done"), Some("Error")}
  }

  /** A status reply that reports "Done". */
  predicate DoneReply(reply: Reply)
  {
    Succeeded(reply) && reply.body.Object? && Lookup(reply.body.fields, Status) == Some("Done")
  }

  /** A status reply that `check_import_status` turns into "Error": a failed
      request, or a body whose status is "Error". */
  predicate ErrorReply(reply: Reply)
  {
    !Succeeded(reply) || (reply.body.Object? && Lookup(reply.body.fields, Status) == Some("Error"))
  }

  /** A pending reply costs one poll and one sleep and leaves the rest of the
      loop to the next turn. */
  lemma PollPendingTurn(env: Env, s: State, retries: nat)
    requires Truthy(s.importRequestId) && retries < MaxRetries && PendingReply(NextReply(env, s))
    ensures var s1 := Slept(CheckImportStatusSpec(env, s).after);
      && |s1.trace| == |s.trace| + 1 && s1.importRequestId == s.importRequestId
      && PollSpec(env, s, retries).end == PollSpec(env, s1, retries + 1).end
      && PollSpec(env, s, retries).polls == PollSpec(env, s1, retries + 1).polls + 1
  {
    var reply := NextReply(env, s);
    assert CheckImportStatusSpec(env, s).result == Success(Lookup(reply.body.fields, Status));
  }

  /** A "Done" reply ends the loop at that poll. */
  lemma PollDoneTurn(env: Env, s: State, retries: nat)
    requires Truthy(s.importRequestId) && retries < MaxRetries && DoneReply(NextReply(env, s))
    ensures PollSpec(env, s, retries).end == Done && PollSpec(env, s, retries).polls == 1
  {
  }

  /** An error reply ends the loop at that poll. */
  lemma PollErrorTurn(env: Env, s: State, retries: nat)
    requires Truthy(s.importRequestId) && retries < MaxRetries && ErrorReply(NextReply(env, s))
    ensures PollSpec(env, s, retries).end == StatusError && PollSpec(env, s, retries).polls == 1
  {
  }

  /** With a request id, pending replies up to call `d` and a "Done" reply at
      call `d` end the loop Done at that call: `n` polls, one sleep per poll and
      one counted status per pending reply. */
  lemma PollDoneAt(env: Env, s: State, retries: nat, d: nat)
    requires Truthy(s.importRequestId) && |s.trace| <= d && retries + (d - |s.trace|) < MaxRetries
    requires forall j :: |s.trace| <= j < d ==> PendingReply(env.replies(j))
    requires DoneReply(env.replies(d))
    ensures var r, n := PollSpec(env, s, retries), d - |s.trace| + 1;
      && r.end == Done && r.polls == n
      && r.after.trace == s.trace + Repeat(StatusCall(s), n)
      && r.after.sleeps == s.sleeps + n
      && |r.after.counters.importStatusFailures| == |s.counters.importStatusFailures| + n - 1
  {
    PollDoneEnds(env, s, retries, d);
    var r := PollSpec(env, s, retries);
    assert r.after.trace == s.trace + Repeat(StatusCall(s), r.polls);
  }

  /** How the loop ends and after how many polls, by induction on the pending replies. */
  lemma PollDoneEnds(env: Env, s: State, retries: nat, d: nat)
    requires Truthy(s.importRequestId) && |s.trace| <= d && retries + (d - |s.trace|) < MaxRetries
    requires forall j :: |s.trace| <= j < d ==> PendingReply(env.replies(j))
    requires DoneReply(env.replies(d))
    ensures PollSpec(env, s, retries).end == Done && PollSpec(env, s, retries).polls == d - |s.trace| + 1
    decreases d - |s.trace|, 1
  {
    if d == |s.trace| {
      PollDoneTurn(env, s, retries);
    } else {
      PollDoneStep(env, s, retries, d);
    }
  }

  /** The inductive step of `PollDoneEnds`: the first reply is pending. */
  lemma PollDoneStep(env: Env, s: State, retries: nat, d: nat)
    requires Truthy(s.importRequestId) && |s.trace| < d && retries + (d - |s.trace|) < MaxRetries
    requires forall j :: |s.trace| <= j < d ==> PendingReply(env.replies(j))
    requires DoneReply(env.replies(d))
    ensures PollSpec(env, s, retries).end == Done && PollSpec(env, s, retries).polls == d - |s.trace| + 1
    decreases d - |s.trace|, 0
  {
    assert PendingReply(env.replies(|s.trace|));
    PollPendingTurn(env, s, retries);
    PollDoneEnds(env, Slept(CheckImportStatusSpec(env, s).after), retries + 1, d);
  }



  /** With a request id, pending replies up to call `d` and an error reply at
      call `d` end the loop with a status error at that call, after one sleep
      per pending reply. */
  lemma PollErrorAt(env: Env, s: State, retries: nat, d: nat)
    requires Truthy(s.importRequestId) && |s.trace| <= d && retries + (d - |s.trace|) < MaxRetries
    requires forall j :: |s.trace| <= j < d ==> PendingReply(env.replies(j))
    requires ErrorReply(env.replies(d))
    ensures var r, n := PollSpec(env, s, retries), d - |s.trace| + 1;
      && r.end == StatusError && r.polls == n
      && r.after.trace == s.trace + Repeat(StatusCall(s), n)
      && r.after.sleeps == s.sleeps + n - 1
  {
    PollErrorEnds(env, s, retries, d);
    var r := PollSpec(env, s, retries);
    assert r.after.trace == s.trace + Repeat(StatusCall(s), r.polls);
  }

  /** How the loop ends and after how many polls, by induction on the pending replies. */
  lemma PollErrorEnds(env: Env, s: State, retries: nat, d: nat)
    requires Truthy(s.importRequestId) && |s.trace| <= d && retries + (d - |s.trace|) < MaxRetries
    requires forall j :: |s.trace| <= j < d ==> PendingReply(env.replies(j))
    requires ErrorReply(env.replies(d))
    ensures PollSpec(env, s, retries).end == StatusError && PollSpec(env, s, retries).polls == d - |s.trace| + 1
    decreases d - |s.trace|, 1
  {
    if d == |s.trace| {
      PollErrorTurn(env, s, retries);
    } else {
      PollErrorStep(env, s, retries, d);
    }
  }

  /** The inductive step of `PollErrorEnds`: the first reply is pending. */
  lemma PollErrorStep(env: Env, s: State, retries: nat, d: nat)
    requires Truthy(s.importRequestId) && |s.trace| < d && retries + (d - |s.trace|) < MaxRetries
    requires forall j :: |s.trace| <= j < d ==> PendingReply(env.replies(j))
    requires ErrorReply(env.replies(d))
    ensures PollSpec(env, s, retries).end == StatusError && PollSpec(env, s, retries).polls == d - |s.trace| + 1
    decreases d - |s.trace|, 0
  {
    assert PendingReply(env.replies(|s.trace|));
    PollPendingTurn(env, s, retries);
    PollErrorEnds(env, Slept(CheckImportStatusSpec(env, s).after), retries + 1, d);
  }



  /** With a request id, pending replies for the whole remaining budget end the
      loop exhausted: every remaining poll made, slept after and counted. */
  lemma {:induction false} PollExhausts(env: Env, s: State, retries: nat)
    requires Truthy(s.importRequestId) && retries <= MaxRetries
    requires forall j :: |s.trace| <= j < |s.trace| + (MaxRetries - retries) ==> PendingReply(env.replies(j))
    ensures var r := PollSpec(env, s, retries);
      && r.end == Exhausted && r.polls == MaxRetries - retries
      && r.after.trace == s.trace + Repeat(StatusCall(s), MaxRetries - retries)
      && r.after.sleeps == s.sleeps + (MaxRetries - retries)
      && |r.after.counters.importStatusFailures| == |s.counters.importStatusFailures| + (MaxRetries - retries)
    decreases MaxRetries - retries
  {
    if retries < MaxRetries {
      assert PendingReply(env.replies(|s.trace|));
      PollPendingTurn(env, s, retries);
      PollExhausts(env, Slept(CheckImportStatusSpec(env, s).after), retries + 1);
    }
  }

  /** The test failures `n` ignored "Start" updates record when the transport
      answers them with `replies(k)`, `replies(k + 1)`, ...: one per failed update. */
  function StartUpdateFailures(env: Env, k: nat, n: nat): seq<TestFailure>
    decreases n
  {
    if n == 0 then []
    else
      (if Succeeded(env.replies(k)) then [] else [StatusUpdateFailed("Start")])
      + StartUpdateFailures(env, k + 1, n - 1)
  }

  /** The ignored updates record at most one failure each, all of the same kind,
      and none exactly when every update succeeded. */
  lemma {:induction false} StartUpdateFailuresShape(env: Env, k: nat, n: nat)
    ensures |StartUpdateFailures(env, k, n)| <= n
    ensures StartUpdateFailures(env, k, n) == [] <==> forall j :: k <= j < k + n ==> Succeeded(env.replies(j))
    ensures forall t :: t in StartUpdateFailures(env, k, n) ==> t == StatusUpdateFailed("Start")
    decreases n
  {
    if n > 0 {
      StartUpdateFailuresShape(env, k + 1, n - 1);
    }
  }

  /** The `for` loop of `run_full_test`: `n` download-status updates, each followed
      by a sleep, their results ignored. */
  function RepeatUpdatesSpec(env: Env, s: State, n: nat): (r: State)
    ensures r.trace == s.trace + Repeat(CallTo(s.authToken, Post, UpdateStatusApi), n)
    ensures r.sleeps == s.sleeps + n
    ensures r.authToken == s.authToken && r.importRequestId == s.importRequestId
    ensures r.counters.testFailures == s.counters.testFailures + StartUpdateFailures(env, |s.trace|, n)
    decreases n
  {
    if n == 0 then s
    else
      var u := UpdateDownloadStatusSpec(env, s, "Start");
      var s1 := Slept(u.after);
      var c := CallTo(s.authToken, Post, UpdateStatusApi);
      assert Repeat(c, n) == [c] + Repeat(c, n - 1);
      RepeatUpdatesSpec(env, s1, n - 1)
  }

  /** The first of `n` updates, and what is left after it. */
  lemma RepeatTurn(env: Env, s: State, n: nat, t: State)
    requires n > 0 && UpdateDownloadStatusSpec(env, s, "Start").after == t
    ensures RepeatUpdatesSpec(env, s, n) == RepeatUpdatesSpec(env, Slept(t), n - 1)
  {
  }

  /** `prepare_delivery`: the preparation POST, then the GET of the prepared URL,
      stopping at the first failure; a relative URL is resolved against the base. */
  function PrepareDeliverySpec(env: Env, s: State): (r: Outcome<Option<string>>)
    ensures r.after.sleeps == s.sleeps && r.after.authToken == s.authToken && r.after.importRequestId == s.importRequestId
    ensures !Succeeded(NextReply(env, s)) ==>
      && r.result == Success(None)
      && r.after.trace == s.trace + [CallTo(s.authToken, Post, PrepareApi)]
      && r.after.counters.testFailures == s.counters.testFailures + [PreparationFailed]
    ensures Succeeded(NextReply(env, s)) ==>
      r.after.trace == s.trace + [CallTo(s.authToken, Post, PrepareApi), CallTo(s.authToken, Get, PreparedDeliveryOf(s.importRequestId))]
    ensures Succeeded(NextReply(env, s)) && !Succeeded(env.replies(|s.trace| + 1)) ==>
      && r.result == Success(None)
      && r.after.counters.testFailures == s.counters.testFailures + [GetUrlFailed]
    ensures Succeeded(NextReply(env, s)) && Succeeded(env.replies(|s.trace| + 1)) ==>
      && r.after.counters.testFailures == s.counters.testFailures
      && match env.replies(|s.trace| + 1).body
         case NotObject => r.result == Failure(UndecodableBody)
         case Object(fields) => r.result == Success(ResolveDeliveryUrl(env.baseUrl, Lookup(fields, Url)))
  {
    var post := Request(env, s, Post, PrepareApi);
    if !post.success then
      Outcome(WithTestFailure(post.after, PreparationFailed), Success(None))
    else
      var get := Request(env, post.after, Get, PreparedDeliveryOf(s.importRequestId));
      if !get.success || get.response.None? then
        Outcome(WithTestFailure(get.after, GetUrlFailed), Success(None))
      else
        match get.response.value
        case NotObject => Outcome(get.after, Failure(UndecodableBody))
        case Object(fields) => Outcome(get.after, Success(ResolveDeliveryUrl(env.baseUrl, Lookup(fields, Url))))
  }

  /** The URL resolution of `prepare_delivery`: a missing, empty or absolute URL
      is kept; "/path" and "path" are joined to the base URL. */
  function ResolveDeliveryUrl(baseUrl: string, url: Option<string>): Option<string>
  {
    if Truthy(url) && !StartsWith(url.value, "http") then
      if StartsWith(url.value, "/") then Some(baseUrl + url.value)
      else Some(baseUrl + "/" + url.value)
    else url
  }

  /** A missing, empty or absolute URL comes back as it is. A relative one comes
      back under the base URL and one slash, having lost its own leading slash
      if it had one. With an absolute base URL, every non-empty result is
      absolute, so `_make_request` later calls it verbatim. */
  lemma ResolveDeliveryUrlShape(baseUrl: string, url: Option<string>)
    ensures var r := ResolveDeliveryUrl(baseUrl, url);
      && (!Truthy(url) || StartsWith(url.value, "http") ==> r == url)
      && (Truthy(url) && !StartsWith(url.value, "http") ==>
            && r.Some?
            && StartsWith(r.value, baseUrl + "/")
            && r.value[|baseUrl| + 1..] == (if url.value[0] == '/' then url.value[1..] else url.value))
      && (Truthy(url) && StartsWith(baseUrl, "http") ==>
            StartsWith(r.value, "http") && RequestUrl(baseUrl, r.value) == r.value)
  {
    if Truthy(url) && !StartsWith(url.value, "http") {
      var u := url.value;
      var r := ResolveDeliveryUrl(baseUrl, url).value;
      if u[0] == '/' {
        assert StartsWith(u, "/");
        assert r == baseUrl + "/" + u[1..] by { assert u == "/" + u[1..]; }
      } else {
        assert !StartsWith(u, "/");
        assert r == baseUrl + "/" + u;
      }
      assert r[..|baseUrl + "/"|] == baseUrl + "/";
      if StartsWith(baseUrl, "http") {
        assert r[..4] == baseUrl[..4];
      }
    }
  }

  /** "/path" and "path" resolve to the same URL. */
  lemma ResolveIgnoresOneSlash(baseUrl: string, path: string)
    requires path != "" && path[0] != '/' && !StartsWith(path, "http")
    ensures ResolveDeliveryUrl(baseUrl, Some("/" + path)) == ResolveDeliveryUrl(baseUrl, Some(path))
  {
    var slashed := "/" + path;
    assert !StartsWith(slashed, "http") by { assert slashed[0] == '/'; }
    assert StartsWith(slashed, "/");
    assert !StartsWith(path, "/");
    assert slashed[1..] == path;
    assert baseUrl + slashed == baseUrl + "/" + path;
  }

  /** `download_files(url)`: nothing for an empty URL; otherwise both the file and
      its ".json" sibling are fetched, each failure counted by file type. */
  function DownloadFilesSpec(env: Env, s: State, url: string): (r: Verdict)
    ensures r.after.sleeps == s.sleeps && r.after.authToken == s.authToken && r.after.importRequestId == s.importRequestId
    ensures url == "" ==> r == Verdict(WithTestFailure(s, NoUrl), false)
    ensures url != "" ==>
      && r.after.trace == s.trace + [CallTo(s.authToken, Get, Given(url)), CallTo(s.authToken, Get, Given(JsonSibling(url)))]
      && (r.ok <==> Succeeded(env.replies(|s.trace|)) && Succeeded(env.replies(|s.trace| + 1)))
      && r.after.counters.testFailures == s.counters.testFailures
      && r.after.counters.downloadFailures == s.counters.downloadFailures
           + (if Succeeded(env.replies(|s.trace|)) then [] else [Gpkg])
           + (if Succeeded(env.replies(|s.trace| + 1)) then [] else [Json])
  {
    if url == "" then Verdict(WithTestFailure(s, NoUrl), false)
    else
      var gpkg := Request(env, s, Get, Given(url));
      var c1 := gpkg.after.counters;
      var s1 := if gpkg.success then gpkg.after
                else gpkg.after.(counters := c1.(downloadFailures := c1.downloadFailures + [Gpkg]));
      var json := Request(env, s1, Get, Given(JsonSibling(url)));
      var c2 := json.after.counters;
      var s2 := if json.success then json.after
                else json.after.(counters := c2.(downloadFailures := c2.downloadFailures + [Json]));
      Verdict(s2, gpkg.success && json.success)
  }

  /** `update_inventory`: one POST; its failure is counted and returned. */
  function UpdateInventorySpec(env: Env, s: State): (r: Verdict)
    ensures r.after.trace == s.trace + [CallTo(s.authToken, Post, InventoryApi)]
    ensures r.ok <==> Succeeded(NextReply(env, s))
    ensures r.after.counters.testFailures ==
      s.counters.testFailures + if r.ok then [] else [InventoryUpdateFailed]
    ensures r.after.sleeps == s.sleeps && r.after.authToken == s.authToken && r.after.importRequestId == s.importRequestId
  {
    var x := Request(env, s, Post, InventoryApi);
    if x.success then Verdict(x.after, true)
    else Verdict(WithTestFailure(x.after, InventoryUpdateFailed), false)
  }

  /** The GETs of a health sweep over `endpoints`, in order. */
  function HealthCalls(token: Option<string>, endpoints: seq<Endpoint>): (r: seq<Call>)
    ensures |r| == |endpoints|
  {
    if endpoints == [] then []
    else [CallTo(token, Get, endpoints[0])] + HealthCalls(token, endpoints[1..])
  }

  /** The test failures a health sweep records when the transport answers its
      calls with `replies(k)`, `replies(k + 1)`, ...: one per failing endpoint. */
  function FailingChecks(env: Env, k: nat, endpoints: seq<Endpoint>): seq<TestFailure>
    decreases |endpoints|
  {
    if endpoints == [] then []
    else
      (if Succeeded(env.replies(k)) then [] else [HealthCheckFailed(endpoints[0])])
      + FailingChecks(env, k + 1, endpoints[1..])
  }

  /** A sweep records at most one failure per endpoint, each labelled with a
      checked endpoint, and none exactly when every endpoint answered with success. */
  lemma {:induction false} FailingChecksShape(env: Env, k: nat, endpoints: seq<Endpoint>)
    ensures |FailingChecks(env, k, endpoints)| <= |endpoints|
    ensures FailingChecks(env, k, endpoints) == [] <==>
      forall j :: k <= j < k + |endpoints| ==> Succeeded(env.replies(j))
    ensures forall t :: t in FailingChecks(env, k, endpoints) ==> t.HealthCheckFailed? && t.endpoint in endpoints
    decreases |endpoints|
  {
    if endpoints != [] {
      FailingChecksShape(env, k + 1, endpoints[1..]);
      forall t | t in FailingChecks(env, k + 1, endpoints[1..]) ensures t.endpoint in endpoints {
        assert t.endpoint in endpoints[1..];
      }
    }
  }

  /** `check_health` over `endpoints`: every endpoint is called whatever the
      others answered; the sweep passes exactly when all of them succeed. */
  function HealthSpec(env: Env, s: State, endpoints: seq<Endpoint>): (r: Verdict)
    ensures r.after.trace == s.trace + HealthCalls(s.authToken, endpoints)
    ensures r.ok <==> FailingChecks(env, |s.trace|, endpoints) == []
    ensures r.after.counters.testFailures == s.counters.testFailures + FailingChecks(env, |s.trace|, endpoints)
    ensures r.after.sleeps == s.sleeps && r.after.authToken == s.authToken && r.after.importRequestId == s.importRequestId
    decreases |endpoints|
  {
    if endpoints == [] then Verdict(s, true)
    else
      var x := Request(env, s, Get, endpoints[0]);
      var s1 := if x.success then x.after else WithTestFailure(x.after, HealthCheckFailed(endpoints[0]));
      var rest := HealthSpec(env, s1, endpoints[1..]);
      Verdict(rest.after, x.success && rest.ok)
  }
}
