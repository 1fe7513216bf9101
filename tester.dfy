/** The `APITester` class of getapp-test-script.py as an object whose steps
    update its token and import request id in place and act on the process-wide
    runtime (transport, call record, counters, sleeps). Every step is proved to
    leave exactly the state its specification function in `Workflow` describes,
    so the properties proved there and in `FullTest` hold of these methods. */
module Tester {
  import opened Wrappers
  import opened Strings
  import opened Gateway
  import opened Workflow
  import opened FullTest

  // ---------------------------------------------------------------------------
  // Bounding boxes

  /** A value of `random.randint(0, 9)`. */
  type Digit = d: int | 0 <= d <= 9

  function DigitChar(d: Digit): (c: char)
    ensures '0' <= c <= '9'
  {
    (('0' as int) + d) as char
  }

  /** `number_of_unique_maps` */
  const UniqueMaps: nat := 1

  /** The fixed decimal prefixes of the four coordinates of a bounding box. */
  const BboxPrefixes: seq<string> := ["34.472849", "31.519675", "34.476277", "31.522433"]

  /** Coordinate `k` of a box drawn with the eight digits `d`: its prefix and two digits. */
  function Coordinate(k: nat, d: seq<Digit>): string
    requires k < 4 && |d| == 8
  {
    BboxPrefixes[k] + [DigitChar(d[2 * k]), DigitChar(d[2 * k + 1])]
  }

  /** The box string `_generate_bbox_array` builds from eight random digits. */
  function Bbox(d: seq<Digit>): string
    requires |d| == 8
  {
    Coordinate(0, d) + "," + Coordinate(1, d) + "," + Coordinate(2, d) + "," + Coordinate(3, d)
  }

  /** A coordinate is a fixed prefix of nine characters, none of them a comma,
      followed by two decimal digits. */
  lemma CoordinateShape(k: nat, d: seq<Digit>)
    requires k < 4 && |d| == 8
    ensures var c := Coordinate(k, d);
      |c| == 11 && c[..9] == BboxPrefixes[k] && '0' <= c[9] <= '9' && '0' <= c[10] <= '9' && ',' !in c
  {
    var c := Coordinate(k, d);
    assert forall j :: 0 <= j < 9 ==> c[j] == BboxPrefixes[k][j];
  }

  /** Split at its commas, a box gives back its four coordinates. */
  lemma BboxFields(d: seq<Digit>)
    requires |d| == 8
    ensures Fields(Bbox(d)) == [Coordinate(0, d), Coordinate(1, d), Coordinate(2, d), Coordinate(3, d)]
  {
    var c0, c1, c2, c3 := Coordinate(0, d), Coordinate(1, d), Coordinate(2, d), Coordinate(3, d);
    CoordinateShape(0, d);
    CoordinateShape(1, d);
    CoordinateShape(2, d);
    CoordinateShape(3, d);
    assert Bbox(d) == c0 + "," + (c1 + "," + (c2 + "," + c3));
    FieldsOfPlain(c3);
    FieldsOfJoin(c2, c3);
    FieldsOfJoin(c1, c2 + "," + c3);
    FieldsOfJoin(c0, c1 + "," + (c2 + "," + c3));
  }

  /** `_generate_bbox_array`: one box per unique map, box `i` drawn with
      digits `8 * i` to `8 * i + 7` of the random source. */
  method GenerateBboxArray(count: nat, digits: seq<Digit>) returns (boxes: seq<string>)
    requires |digits| == 8 * count
    ensures |boxes| == count
    ensures forall i :: 0 <= i < count ==> boxes[i] == Bbox(digits[8 * i .. 8 * i + 8])
  {
    boxes := [];
    for i := 0 to count
      invariant |boxes| == i
      invariant forall j :: 0 <= j < i ==> boxes[j] == Bbox(digits[8 * j .. 8 * j + 8])
    {
      boxes := boxes + [Bbox(digits[8 * i .. 8 * i + 8])];
    }
  }

  // ---------------------------------------------------------------------------
  // The tester

  /** What the runtime alone holds, as a fresh tester sees it. */
  ghost function WorldState(world: Runtime<Counters>): State
    reads world
  {
    State(world.trace, world.counters, world.sleeps, None, None)
  }

  class APITester {
    const baseUrl: string
    const world: Runtime<Counters>
    var authToken: Option<string>
    var currentImportRequestId: Option<string>
    var bboxArray: seq<string>

    /** The transport as the specification functions see it. */
    function Environment(): Env
    {
      Env(baseUrl, world.replies)
    }

    /** The runtime and this tester's two mutable fields, as a specification state. */
    ghost function Snapshot(): State
      reads this, world
    {
      State(world.trace, world.counters, world.sleeps, authToken, currentImportRequestId)
    }

    /** `APITester()`: no token, no import request id, and the boxes drawn from `digits`. */
    constructor (baseUrl: string, world: Runtime<Counters>, digits: seq<Digit>)
      requires |digits| == 8 * UniqueMaps
      ensures this.baseUrl == baseUrl && this.world == world
      ensures authToken == None && currentImportRequestId == None
      ensures |bboxArray| == UniqueMaps && bboxArray[0] == Bbox(digits)
    {
      this.baseUrl := baseUrl;
      this.world := world;
      authToken := None;
      currentImportRequestId := None;
      var boxes := GenerateBboxArray(UniqueMaps, digits);
      assert digits[0..8] == digits;
      bboxArray := boxes;
    }

    /** `test_failures.labels(...).inc()` */
    method CountTestFailure(t: TestFailure)
      modifies world
      ensures Snapshot() == WithTestFailure(old(Snapshot()), t)
    {
      world.counters := world.counters.(testFailures := world.counters.testFailures + [t]);
    }

    /** `_make_request(method, endpoint)`: the active-requests gauge goes up for
        the call and back down whatever its outcome. */
    method MakeRequest(m: Method, e: Endpoint) returns (response: Option<Body>, success: bool)
      modifies world
      ensures Request(Environment(), old(Snapshot()), m, e) == Exchange(Snapshot(), response, success)
      ensures world.activeRequests == old(world.activeRequests)
    {
      var call := Call(m, e, Authorization(authToken));
      world.activeRequests := world.activeRequests + 1;
      var reply := world.Send(call);
      match reply {
        case RequestException(kind) =>
          world.counters := world.counters.(failedRequests := world.counters.failedRequests + [FailureLabel(e, 0, ExceptionClass(kind))]);
          response, success := None, false;
        case Response(status, body) =>
          world.counters := world.counters.(requests := world.counters.requests + [RequestLabel(e, m)]);
          if status >= 400 {
            var kind := if status < 500 then ClientError else ServerError;
            world.counters := world.counters.(failedRequests := world.counters.failedRequests + [FailureLabel(e, status, kind)]);
            response, success := Some(body), false;
          } else {
            response, success := Some(body), true;
          }
      }
      world.activeRequests := world.activeRequests - 1;
    }

    /** `login` */
    method Login(creds: Credentials) returns (result: Result<bool, Raised>)
      modifies this, world
      ensures LoginSpec(Environment(), old(Snapshot()), creds) == Outcome(Snapshot(), result)
      ensures bboxArray == old(bboxArray)
    {
      if !HasCredentials(creds) {
        return Failure(MissingCredentials);
      }
      var response, success := MakeRequest(Post, LoginApi);
      if success && response.Some? {
        match response.value
        case Object(fields) =>
          authToken := Lookup(fields, AccessToken);
          return Success(true);
        case NotObject =>
          return Failure(UndecodableBody);
      }
      CountTestFailure(LoginAuthFailed);
      return Success(false);
    }

    /** `discovery` */
    method Discovery() returns (ok: bool)
      modifies world
      ensures DiscoverySpec(Environment(), old(Snapshot())) == Verdict(Snapshot(), ok)
    {
      var _, success := MakeRequest(Post, DiscoverApi);
      if !success {
        CountTestFailure(DiscoveryApiError);
      }
      return success;
    }

    /** `update_download_status(catalog_id, status)` */
    method UpdateDownloadStatus(status: string) returns (ok: bool)
      modifies world
      ensures UpdateDownloadStatusSpec(Environment(), old(Snapshot()), status) == Verdict(Snapshot(), ok)
    {
      var _, success := MakeRequest(Post, UpdateStatusApi);
      if !success {
        CountTestFailure(StatusUpdateFailed(status));
      }
      return success;
    }

    /** `import_map` */
    method ImportMap() returns (result: Result<bool, Raised>)
      modifies this, world
      ensures ImportMapSpec(Environment(), old(Snapshot())) == Outcome(Snapshot(), result)
      ensures bboxArray == old(bboxArray)
    {
      var response, success := MakeRequest(Post, CreateImportApi);
      if success && response.Some? {
        match response.value
        case Object(fields) =>
          currentImportRequestId := Lookup(fields, ImportRequestId);
          var updated := UpdateDownloadStatus("Start");
          return Success(updated);
        case NotObject =>
          return Failure(UndecodableBody);
      }
      CountTestFailure(ImportCreateFailed);
      return Success(false);
    }

    /** `import_status_failures.labels(status=...).inc()` */
    method CountImportStatusFailure(status: string)
      modifies world
      ensures Snapshot() == old(Snapshot()).(counters := old(world.counters).(importStatusFailures := old(world.counters.importStatusFailures) + [status]))
    {
      world.counters := world.counters.(importStatusFailures := world.counters.importStatusFailures + [status]);
    }

    /** `check_import_status` */
    method CheckImportStatus() returns (result: Result<Option<string>, Raised>)
      modifies world
      ensures CheckImportStatusSpec(Environment(), old(Snapshot())) == Outcome(Snapshot(), result)
    {
      if !Truthy(currentImportRequestId) {
        CountTestFailure(NoRequestId);
        return Success(Some("Error"));
      }
      var response, success := MakeRequest(Get, ImportStatusOf(currentImportRequestId));
      if !success || response.None? {
        CountImportStatusFailure("api_error");
        return Success(Some("Error"));
      }
      match response.value
      case NotObject =>
        return Failure(UndecodableBody);
      case Object(fields) =>
        var status := Lookup(fields, Status);
        if status != Some("Done") && status != Some("Error") {
          CountImportStatusFailure(StatusLabel(status));
        }
        return Success(status);
    }

    /** `prepare_delivery` */
    method PrepareDelivery() returns (result: Result<Option<string>, Raised>)
      modifies world
      ensures PrepareDeliverySpec(Environment(), old(Snapshot())) == Outcome(Snapshot(), result)
    {
      var _, posted := MakeRequest(Post, PrepareApi);
      if !posted {
        CountTestFailure(PreparationFailed);
        return Success(None);
      }
      var response, success := MakeRequest(Get, PreparedDeliveryOf(currentImportRequestId));
      if !success || response.None? {
        CountTestFailure(GetUrlFailed);
        return Success(None);
      }
      match response.value
      case NotObject =>
        return Failure(UndecodableBody);
      case Object(fields) =>
        var url := Lookup(fields, Url);
        if Truthy(url) && !StartsWith(url.value, "http") {
          if StartsWith(url.value, "/") {
            url := Some(baseUrl + url.value);
          } else {
            url := Some(baseUrl + "/" + url.value);
          }
        }
        return Success(url);
    }

    /** `download_failures.labels(file_type=...).inc()` */
    method CountDownloadFailure(t: FileType)
      modifies world
      ensures Snapshot() == old(Snapshot()).(counters := old(world.counters).(downloadFailures := old(world.counters.downloadFailures) + [t]))
    {
      world.counters := world.counters.(downloadFailures := world.counters.downloadFailures + [t]);
    }

    /** `download_files(url)` */
    method DownloadFiles(url: string) returns (ok: bool)
      modifies world
      ensures DownloadFilesSpec(Environment(), old(Snapshot()), url) == Verdict(Snapshot(), ok)
    {
      if url == "" {
        CountTestFailure(NoUrl);
        return false;
      }
      var _, gpkg := MakeRequest(Get, Given(url));
      if !gpkg {
        CountDownloadFailure(Gpkg);
      }
      var jsonUrl := JsonSibling(url);
      var _, json := MakeRequest(Get, Given(jsonUrl));
      if !json {
        CountDownloadFailure(Json);
      }
      return gpkg && json;
    }

    /** `update_inventory` */
    method UpdateInventory() returns (ok: bool)
      modifies world
      ensures UpdateInventorySpec(Environment(), old(Snapshot())) == Verdict(Snapshot(), ok)
    {
      var _, success := MakeRequest(Post, InventoryApi);
      if !success {
        CountTestFailure(InventoryUpdateFailed);
      }
      return success;
    }

    /** The loop of `check_health` over `endpoints`: every endpoint is checked,
        whatever the earlier ones answered, and the result is their conjunction. */
    method CheckEndpoints(endpoints: seq<Endpoint>) returns (allHealthy: bool)
      modifies world
      ensures HealthSpec(Environment(), old(Snapshot()), endpoints) == Verdict(Snapshot(), allHealthy)
    {
      allHealthy := true;
      for i := 0 to |endpoints|
        invariant var rest := HealthSpec(Environment(), Snapshot(), endpoints[i..]);
          HealthSpec(Environment(), old(Snapshot()), endpoints) == Verdict(rest.after, allHealthy && rest.ok)
      {
        assert endpoints[i..][0] == endpoints[i] && endpoints[i..][1..] == endpoints[i + 1..];
        var _, success := MakeRequest(Get, endpoints[i]);
        if !success {
          CountTestFailure(HealthCheckFailed(endpoints[i]));
          allHealthy := false;
        }
      }
    }

    /** `check_health`, over the four health endpoints in order. */
    method CheckHealth() returns (allHealthy: bool)
      modifies world
      ensures HealthSpec(Environment(), old(Snapshot()), HealthEndpoints) == Verdict(Snapshot(), allHealthy)
    {
      allHealthy := CheckEndpoints(HealthEndpoints);
    }

    /** The `while` loop of `run_full_test`: poll until "Done", "Error" or 30
        polls, sleeping after every poll that did not return "Error". It returns
        how the loop ended and how many polls it made. */
    method AwaitImport() returns (end: PollEnd, retryCount: nat)
      modifies world
      ensures PollSpec(Environment(), old(Snapshot()), 0) == PollRun(Snapshot(), end, retryCount)
    {
      ghost var env := Environment();
      ghost var current := Snapshot();
      ghost var poll := PollSpec(env, current, 0);
      var status: Option<string> := Some("Processing");
      PollBegins(env, current);
      retryCount := 0;
      while status != Some("Done") && status != Some("Error") && retryCount < MaxRetries
        invariant retryCount <= MaxRetries && status != Some("Error") && current == Snapshot()
        invariant PollPending(env, poll, current, retryCount, status)
        decreases MaxRetries - retryCount
      {
        var checked := CheckImportStatus();
        ghost var checkedState := Snapshot();
        PollTurn(env, poll, current, retryCount, status, checkedState, checked);
        if checked.Failure? {
          return PollCrashed(checked.error), retryCount + 1;
        }
        status := checked.value;
        if status == Some("Error") {
          return StatusError, retryCount + 1;
        }
        retryCount := retryCount + 1;
        world.Sleep();
        current := Slept(checkedState);
      }
      if status == Some("Done") {
        end := Done;
      } else {
        PollSpent(env, poll, current, status);
        end := Exhausted;
      }
    }

    /** One turn of the `for` loop of `run_full_test`: a "Start" update whose
        result is ignored, then a sleep. */
    method UpdateThenSleep()
      modifies world
      ensures Snapshot() == Slept(UpdateDownloadStatusSpec(Environment(), old(Snapshot()), "Start").after)
    {
      var _ := UpdateDownloadStatus("Start");
      world.Sleep();
    }

    /** The `for` loop of `run_full_test`: `n` download-status updates whose
        results are ignored, each followed by a sleep. */
    method UpdateRepeatedly(n: nat)
      modifies world
      ensures Snapshot() == RepeatUpdatesSpec(Environment(), old(Snapshot()), n)
    {
      ghost var env := Environment();
      ghost var updated := RepeatUpdatesSpec(env, Snapshot(), n);
      for i := 0 to n
        invariant RepeatUpdatesSpec(env, Snapshot(), n - i) == updated
      {
        ghost var current := Snapshot();
        UpdateThenSleep();
        RepeatTurn(env, current, n - i, UpdateDownloadStatusSpec(env, current, "Start").after);
      }
    }

    /** `run_full_test` up to the status loop: login, discovery and the import
        request; `halt` is how the run ended if it ended there. */
    method SetUp(creds: Credentials) returns (halt: Option<Ending>)
      modifies this, world
      ensures halt.Some? ==> RunSpec(Environment(), creds, old(Snapshot())) == Run(Snapshot(), halt.value, 0, "")
      ensures halt.None? ==> RunSpec(Environment(), creds, old(Snapshot())) == Resume(Environment(), creds, AtPoll, Snapshot(), 0, "")
      ensures bboxArray == old(bboxArray)
    {
      ghost var env := Environment();
      ghost var s := Snapshot();
      var login := Login(creds);
      LoginStage(env, creds, s, Snapshot(), login);
      if login.Failure? {
        return Some(Crashed(Step.Login, login.error));
      }
      if !login.value {
        return Some(Aborted(Step.Login));
      }
      s := Snapshot();
      var discovered := Discovery();
      DiscoveryStage(env, creds, s, Snapshot(), discovered);
      if !discovered {
        return Some(Aborted(Step.Discovery));
      }
      s := Snapshot();
      var imported := ImportMap();
      ImportMapStage(env, creds, s, Snapshot(), imported);
      if imported.Failure? {
        return Some(Crashed(Step.ImportMap, imported.error));
      }
      if !imported.value {
        return Some(Aborted(Step.ImportMap));
      }
      return None;
    }

    /** `run_full_test` from the status loop up to the download: the loop, the
        "Start" update and the delivery preparation. */
    method AwaitDelivery(creds: Credentials) returns (halt: Option<Ending>, polls: nat, url: string)
      modifies world
      ensures halt.Some? ==> Resume(Environment(), creds, AtPoll, old(Snapshot()), 0, "") == Run(Snapshot(), halt.value, polls, "")
      ensures halt.None? ==> Resume(Environment(), creds, AtPoll, old(Snapshot()), 0, "") == Resume(Environment(), creds, AtDownload, Snapshot(), polls, url)
    {
      ghost var env := Environment();
      ghost var s := Snapshot();
      var end;
      end, polls := AwaitImport();
      PollStage(env, creds, s, Snapshot(), end, polls);
      if end.PollCrashed? {
        return Some(Crashed(ImportStatus, end.exc)), polls, "";
      }
      if end.StatusError? {
        return Some(Aborted(ImportStatus)), polls, "";
      }
      var _ := UpdateDownloadStatus("Start");
      s := Snapshot();
      var prepared := PrepareDelivery();
      PrepareStage(env, creds, s, polls, Snapshot(), prepared);
      if prepared.Failure? {
        return Some(Crashed(Step.PrepareDelivery, prepared.error)), polls, "";
      }
      var downloadUrl := prepared.value;
      if !Truthy(downloadUrl) {
        return Some(Aborted(Step.PrepareDelivery)), polls, "";
      }
      return None, polls, downloadUrl.value;
    }

    /** `run_full_test` from the download on: the downloads, the five updates,
        the inventory update and the health checks. */
    method Deliver(creds: Credentials, polls: nat, url: string) returns (ending: Ending)
      modifies world
      ensures var r := Resume(Environment(), creds, AtDownload, old(Snapshot()), polls, url);
        Snapshot() == r.after && ending == r.ending
    {
      ghost var env := Environment();
      ghost var s := Snapshot();
      var downloaded := DownloadFiles(url);
      DownloadStage(env, creds, s, polls, url, Snapshot(), downloaded);
      if !downloaded {
        return Aborted(Step.DownloadFiles);
      }
      s := Snapshot();
      UpdateRepeatedly(StatusUpdates);
      UpdatesStage(env, creds, s, polls, url, Snapshot());
      s := Snapshot();
      var inventoried := UpdateInventory();
      InventoryStage(env, creds, s, polls, url, Snapshot(), inventoried);
      if !inventoried {
        return Aborted(Step.UpdateInventory);
      }
      s := Snapshot();
      var healthy := CheckHealth();
      HealthStage(env, creds, s, polls, url, Snapshot(), healthy);
      if !healthy {
        return Aborted(HealthCheck);
      }
      return Completed;
    }

    /** `run_full_test`. The ending says how it stopped: it fell off the end,
        returned after a failed step, or a step raised (the exception is
        returned as `Crashed` for the caller to handle). */
    method RunFullTest(creds: Credentials) returns (ending: Ending)
      modifies this, world
      ensures var r := RunSpec(Environment(), creds, old(Snapshot()));
        Snapshot() == r.after && ending == r.ending
      ensures bboxArray == old(bboxArray)
    {
      var halt := SetUp(creds);
      if halt.Some? {
        return halt.value;
      }
      var polls, url;
      halt, polls, url := AwaitDelivery(creds);
      if halt.Some? {
        return halt.value;
      }
      ending := Deliver(creds, polls, url);
    }
  }

  /** One pass of `main`'s loop: a fresh tester over the shared runtime runs
      the full test, and an exception escaping it is counted as an unexpected
      error. `digits` are the random digits its bounding boxes are drawn from. */
  method RunIteration(world: Runtime<Counters>, baseUrl: string, creds: Credentials, digits: seq<Digit>)
    requires |digits| == 8 * UniqueMaps
    modifies world
    ensures WorldState(world) == Fresh(MainIteration(Env(baseUrl, world.replies), creds, old(WorldState(world))))
  {
    var tester := new APITester(baseUrl, world, digits);
    var ending := tester.RunFullTest(creds);
    if ending.Crashed? {
      world.counters := world.counters.(testFailures := world.counters.testFailures + [UnexpectedError]);
    }
  }
}
