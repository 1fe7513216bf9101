# GetApp API probe — a Dafny model

The GetApp probe is a synthetic-monitoring script. It drives the GetApp map-delivery API through one
end-to-end transaction and counts what went wrong in Prometheus counters. The transaction is: login,
device discovery, map import, import-status polling, delivery preparation, file download, the
download-status and inventory updates, and the health checks. It comes in two generations:

- `getapp-test-script.py`. Its `APITester.run_full_test` is a strictly sequential state machine. Each step
  makes one or more HTTP calls, and the step's boolean or string result decides whether the run goes on
  or returns. `main` wraps each run in a boundary that counts an escaping exception as an
  `unexpected_error`.
- `getapp-test-script-2.py`. It is an earlier and smaller probe: login and discovery only, with its own
  1/2 result codes.

The model replaces the HTTP transport by an oracle. The transport answers call number `k` with `replies(k)`:
either a response (a status and a body, which is a JSON object of string fields or something else) or a
`RequestException`. Everything else is modelled as follows:

- Every call made is recorded as `(verb, endpoint, Authorization header)`; the URL is a function of the
  endpoint (`RequestUrl`, `Legacy.Url`).
- Every counter increment is recorded, in order, in a ghost log per counter.
- Sleeps are counted.
- The credentials, the base URL and the random digits of the bounding box are parameters.

Modules:

- `Strings`: `startswith`, `lstrip('/')`, `replace('.gpkg', '.json')` and `split(',')` on `seq<char>`.
- `Gateway`: endpoints, replies and calls; the URL and header rules and the status classification of
  `_make_request` (`Request`); the `Runtime` class. `Runtime` holds the process-wide side: the transport,
  the call record, the counters, the active-requests gauge and the sleep count.
- `Workflow`: one specification function per step of `APITester`. It also holds the bounded status poll,
  the five ignored updates and the health sweep.
- `FullTest`: `run_full_test` as the stages between its early returns. It also holds the script of calls a
  run follows, and one pass of `main`'s loop.
- `Tester`: the class `APITester` of `getapp-test-script.py`. Its methods update the token and the import
  request id in place, and each is proved to leave exactly the state its specification function
  describes. It also has the loops of `check_health`, of the status poll and of the repeated updates, the
  bounding-box generator, and one iteration of `main`.
- `Legacy`: `getapp-test-script-2.py`, both as specification functions and as its class.

Points where the code behaves otherwise than a reader might expect, modelled as the code does:

- Any status below 400 counts as success, 1xx and 3xx included, not only 2xx.
- A status poll that spends its 30 attempts goes on to the update and the delivery; it does not abort
  the run.
- A sleep follows every poll that did not return "Error", the one that returned "Done" included. A run
  whose N-th poll is "Done" therefore sleeps N times, not N − 1.
- The update after the poll has its result ignored. Only the update inside `import_map` decides anything.
- Missing credentials raise in `login` (and are counted by `main`) instead of failing the step.
- In the earlier probe, a successful login raises: `response.json()` is called on the integer 1.

## Model

| member | source | states |
|---|---|---|
| Strings.LStripSlashesShape | getapp-test-script.py:75 | `lstrip('/')` drops exactly the leading run of slashes: what it drops is all slashes, and what it keeps is empty or starts with something else |
| Strings.LStripIgnoresSlashes | getapp-test-script.py:75 | extra leading slashes strip to the same string |
| Strings.JsonSiblingOfPlain | getapp-test-script.py:319 | a URL without ".gpkg" is its own JSON sibling |
| Strings.JsonSiblingSwapsFirst | getapp-test-script.py:319 | the first ".gpkg" becomes ".json", the text before it is kept, and the rest is rewritten the same way (every occurrence is replaced) |
| Gateway.RequestUrlShape | getapp-test-script.py:70-76 | an endpoint starting with "http" is the URL verbatim; otherwise the URL is the base URL, exactly one slash, and the endpoint with all its leading slashes removed |
| Gateway.RequestUrlIgnoresSlashes | getapp-test-script.py:70-76 | any number of leading slashes on a relative endpoint gives the same URL |
| Gateway.OneSlashPath | getapp-test-script.py:70-99 | a path with one leading slash is appended to the base URL as it is, and is counted under its text without that slash |
| Gateway.ApiUrl | getapp-test-script.py:70-76 | every API path of the probe goes to base URL + path, and its counter label is the path without its leading slash |
| Gateway.FailureOfLabels | getapp-test-script.py:102-121 | a failed call is labelled with its status and client_error below 500, server_error from 500 on; a transport exception with status code 0 and its class name |
| Gateway.Request | getapp-test-script.py:69-123 | one call with the Authorization header exactly when the token is truthy; success iff a response with status < 400; no response iff a transport exception; `requests_total` counts every response, `failed_requests_total` every failure; nothing else changes |
| Gateway.Runtime.Send | getapp-test-script.py:92-95 | the call is recorded and answered by the transport's reply for its position; counters, gauge and sleeps are untouched |
| Gateway.Runtime.Sleep | getapp-test-script.py:388 | `time.sleep` adds one sleep and changes nothing else |
| Workflow.LoginSpec | getapp-test-script.py:125-146 | missing credentials raise before any request; otherwise one login POST; True iff it succeeded with a JSON object, and then `accessToken` is stored; False iff it failed, counting `login/auth_failed` |
| Workflow.DiscoverySpec | getapp-test-script.py:205-208 | one discovery POST; the result is its success; a failure counts `discovery/api_error` |
| Workflow.UpdateDownloadStatusSpec | getapp-test-script.py:252-270 | one status POST; the result is its success; a failure counts `status_update_failed_<status>` |
| Workflow.ImportMapSpec | getapp-test-script.py:210-230 | create POST; a failure counts `create_failed` and makes no other call; on success the returned `importRequestId` is stored and the "Start" update follows; True iff create and update both succeed |
| Workflow.CheckImportStatusSpec | getapp-test-script.py:232-250 | without a request id: "Error", `no_request_id` counted, no request; a failed GET gives "Error" and counts `api_error`; otherwise the body's status, counted unless it is Done or Error |
| Workflow.PollSpec | getapp-test-script.py:379-388 | at most 30 polls, at least one; only status GETs, none without a request id; a sleep after every poll except one that ended in Error; exhaustion means exactly 30 polls, each counted as an import-status failure |
| Workflow.PollBegins | getapp-test-script.py:379-381 | before the first poll, the whole loop lies ahead with status "Processing" |
| Workflow.PollTurn | getapp-test-script.py:382-388 | one turn of the loop: a raising or "Error" poll ends it at once with one more poll; any other status sleeps and leaves the rest of the loop pending |
| Workflow.PollSpent | getapp-test-script.py:382 | a loop that reaches 30 polls without Done ends exhausted after exactly 30 polls |
| Workflow.PollDoneAt | getapp-test-script.py:379-388 | with a request id, pending replies (success, status neither Done nor Error) followed by a Done reply end the loop Done at that reply: n polls, only status GETs, n sleeps, n − 1 counted statuses |
| Workflow.PollErrorAt | getapp-test-script.py:379-388 | pending replies followed by a failed GET or an "Error" status end the loop with a status error at that reply: n polls and n − 1 sleeps |
| Workflow.PollExhausts | getapp-test-script.py:379-388 | pending replies for the whole remaining budget end the loop exhausted, every remaining poll made, slept after and counted |
| Workflow.StartUpdateFailuresShape | getapp-test-script.py:405-407 | the ignored updates record at most one `status_update_failed_Start` each, and none iff all succeed |
| Workflow.RepeatUpdatesSpec | getapp-test-script.py:405-407 | n update POSTs and n sleeps; token and id unchanged; one failure counted per failed update |
| Workflow.RepeatTurn | getapp-test-script.py:405-407 | the first of n updates and its sleep, followed by the remaining n − 1 |
| Workflow.PrepareDeliverySpec | getapp-test-script.py:272-302 | a failed preparation POST gives None, counts `preparation_failed` and makes no GET; a failed URL GET gives None and counts `get_url_failed`; otherwise the body's url, resolved against the base URL |
| Workflow.ResolveDeliveryUrlShape | getapp-test-script.py:293-299 | a missing, empty or absolute URL is kept; a relative one ends up under base URL + "/" without its own leading slash; with an absolute base every non-empty result is absolute and later called verbatim |
| Workflow.ResolveIgnoresOneSlash | getapp-test-script.py:295-299 | "/path" and "path" resolve to the same URL |
| Workflow.DownloadFilesSpec | getapp-test-script.py:304-326 | an empty URL gives False, counts `no_url`, and makes no request; otherwise exactly two GETs, the URL and its JSON sibling; True iff both succeed; one `download_failures` per failed file type |
| Workflow.UpdateInventorySpec | getapp-test-script.py:332-341 | one inventory POST; the result is its success; a failure counts `update_failed` |
| Workflow.FailingChecksShape | getapp-test-script.py:351-356 | at most one health failure per endpoint, each naming a checked endpoint, and none iff every endpoint succeeded |
| Workflow.HealthSpec | getapp-test-script.py:343-358 | one GET per endpoint in order, never short-circuiting; True iff no endpoint failed; one `health_check` failure per failing endpoint |
| FullTest.LoginMoves | getapp-test-script.py:363-366 | the login stage makes its part of the script. Missing credentials crash it with no call; otherwise one POST; it passes iff that POST succeeded with a JSON object, aborts iff it failed, and crashes on a body that is not an object |
| FullTest.DiscoveryMoves | getapp-test-script.py:368-371 | the discovery stage halts iff its POST failed, and then it is aborted after exactly that call; otherwise it passes |
| FullTest.ImportMapMoves | getapp-test-script.py:373-376 | the import stage passes iff create succeeded with a JSON object and the update succeeded. A failed create aborts after that call only; a non-object body crashes; a failed update aborts after both calls |
| FullTest.PollMoves | getapp-test-script.py:378-391 | the poll stage halts iff the loop ended in Error (aborted) or raised (crashed); without a request id it aborts with no call; Done and exhaustion pass, after the update, having slept once per poll |
| FullTest.PrepareMoves | getapp-test-script.py:393-397 | the prepare stage aborts after the POST alone when the POST failed, after both calls when the GET failed, crashes on a non-object body, and otherwise passes iff the url is truthy, holding that url resolved against the base URL |
| FullTest.DownloadMoves | getapp-test-script.py:399-402 | an empty URL aborts the download stage with no call; otherwise it passes iff both GETs succeed, and a halt comes only after both GETs |
| FullTest.UpdatesMoves | getapp-test-script.py:404-407 | the update stage never halts: it always passes, after five POSTs and five sleeps |
| FullTest.InventoryMoves | getapp-test-script.py:409-412 | the inventory stage halts iff its POST failed, and then it is aborted after exactly that call; otherwise it passes |
| FullTest.HealthMoves | getapp-test-script.py:414-419 | the health stage halts iff one of its four GETs failed, and then it is aborted after all four; otherwise it passes and completes the run |
| FullTest.ResumeTracks | getapp-test-script.py:360-419 | from any stage, the rest of the run makes a prefix of the script from that stage, stops inside the step that ended it, and sleeps as the script says |
| FullTest.RunFollowsScript | getapp-test-script.py:360-419 | the calls of a run are a prefix of the 19-call script plus the status GETs: login, discovery, create, update, the status GETs, update, prepare, the URL GET, two downloads, five updates, inventory, four health checks. An early return or exception stops inside its own step; a complete run makes them all; sleeps = polls (+5 once past the download); at most 30 polls |
| FullTest.RunStartsWithLogin | getapp-test-script.py:364 | with credentials, the first call of a run is the login POST, sent with the token held at the start |
| FullTest.MainWithoutCredentials | getapp-test-script.py:438-446 | without credentials a pass of `main` makes no call and no sleep, and counts exactly one `run_full_test/unexpected_error` |
| FullTest.MainStartsUnauthenticated | getapp-test-script.py:438-441 | every pass begins with a login POST without an Authorization header, whatever the previous pass left |
| FullTest.LoginStage | getapp-test-script.py:363-366 | a raising login ends the run crashed, False ends it aborted, True goes on to discovery |
| FullTest.DiscoveryStage | getapp-test-script.py:368-371 | a failed discovery ends the run, a passing one goes on to the import |
| FullTest.ImportMapStage | getapp-test-script.py:373-376 | a raising or failed import ends the run, a passing one goes on to the poll |
| FullTest.PollStage | getapp-test-script.py:378-391 | a raising or Error poll ends the run; Done and exhaustion both go on, after the ignored update |
| FullTest.PrepareStage | getapp-test-script.py:393-397 | a raising preparation or a falsy URL ends the run; a truthy URL goes on to the download |
| FullTest.DownloadStage | getapp-test-script.py:399-402 | a failed download ends the run, a passing one goes on to the updates |
| FullTest.UpdatesStage | getapp-test-script.py:404-407 | the five updates always go on to the inventory |
| FullTest.InventoryStage | getapp-test-script.py:409-412 | a failed inventory update ends the run, a passing one goes on to the health checks |
| FullTest.HealthStage | getapp-test-script.py:414-419 | failing health checks end the run aborted, passing ones complete it |
| Tester.CoordinateShape | getapp-test-script.py:64-65 | each coordinate is its fixed nine-character prefix followed by two decimal digits, with no comma |
| Tester.BboxFields | getapp-test-script.py:64-65 | split at its commas, a box gives exactly its four coordinates |
| Tester.GenerateBboxArray | getapp-test-script.py:58-67 | exactly `count` boxes, box i drawn from its own eight digits |
| Tester.APITester.constructor | getapp-test-script.py:50-56 | no token, no import request id, one bounding box |
| Tester.APITester.MakeRequest | getapp-test-script.py:69-123 | leaves exactly the state `Gateway.Request` describes; the active-requests gauge ends where it started |
| Tester.APITester.Login | getapp-test-script.py:125-146 | leaves exactly the state and result of `Workflow.LoginSpec` |
| Tester.APITester.Discovery | getapp-test-script.py:148-208 | leaves exactly the state and result of `Workflow.DiscoverySpec` |
| Tester.APITester.UpdateDownloadStatus | getapp-test-script.py:252-270 | leaves exactly the state and result of `Workflow.UpdateDownloadStatusSpec` |
| Tester.APITester.ImportMap | getapp-test-script.py:210-230 | leaves exactly the state and result of `Workflow.ImportMapSpec` |
| Tester.APITester.CheckImportStatus | getapp-test-script.py:232-250 | leaves exactly the state and result of `Workflow.CheckImportStatusSpec` |
| Tester.APITester.PrepareDelivery | getapp-test-script.py:272-302 | leaves exactly the state and result of `Workflow.PrepareDeliverySpec` |
| Tester.APITester.DownloadFiles | getapp-test-script.py:304-330 | leaves exactly the state and result of `Workflow.DownloadFilesSpec` |
| Tester.APITester.UpdateInventory | getapp-test-script.py:332-341 | leaves exactly the state and result of `Workflow.UpdateInventorySpec` |
| Tester.APITester.CheckEndpoints | getapp-test-script.py:351-358 | the loop keeps `all_healthy` as the conjunction so far and ends in the state and result of `Workflow.HealthSpec` |
| Tester.APITester.CheckHealth | getapp-test-script.py:343-358 | the sweep over the four endpoints, as `Workflow.HealthSpec` |
| Tester.APITester.AwaitImport | getapp-test-script.py:379-388 | the `while` loop ends in the state, ending and poll count of `Workflow.PollSpec` |
| Tester.APITester.UpdateThenSleep | getapp-test-script.py:406-407 | one ignored "Start" update, then one sleep |
| Tester.APITester.UpdateRepeatedly | getapp-test-script.py:405-407 | the `for` loop ends in the state of `Workflow.RepeatUpdatesSpec` |
| Tester.APITester.SetUp | getapp-test-script.py:363-376 | login, discovery and import end the run as `FullTest.RunSpec` says, or leave it at the poll |
| Tester.APITester.AwaitDelivery | getapp-test-script.py:378-397 | poll, update and preparation end the run as `FullTest.Resume` says, or leave it at the download with the URL |
| Tester.APITester.Deliver | getapp-test-script.py:399-419 | downloads, updates, inventory and health checks end the run as `FullTest.Resume` says |
| Tester.APITester.RunFullTest | getapp-test-script.py:360-419 | the method ends in the state and ending of `FullTest.RunSpec`, so `FullTest.RunFollowsScript` holds of it |
| Tester.RunIteration | getapp-test-script.py:438-446 | a fresh tester runs the test over the shared runtime; a crash adds one `unexpected_error`; the runtime ends as `FullTest.MainIteration` says |
| Legacy.UrlShape | getapp-test-script-2.py:33 | every URL is base URL + "/" + the endpoint without its leading slashes |
| Legacy.UrlNoPassthrough | getapp-test-script-2.py:33 | the URL agrees with the later probe's exactly when the endpoint does not start with "http": there is no full-URL passthrough |
| Legacy.ApiPathsAgree | getapp-test-script-2.py:33 | login and discovery go to base URL + path in both probes |
| Legacy.Classify | getapp-test-script-2.py:45-57 | the code is 1 or 2; 1 iff a 2xx response; label success iff 1; label exception iff no response |
| Legacy.ClassifyStricter | getapp-test-script-2.py:45-57 | every success here is a success of the later probe; the two disagree exactly on 1xx and 3xx |
| Legacy.MakeRequestSpec | getapp-test-script-2.py:31-57 | one call carrying the token's header; code 1 iff 2xx, else 2; one counter increment under the endpoint as passed, labelled success, failure or exception |
| Legacy.LoginSpec | getapp-test-script-2.py:59-77 | never returns 1; missing credentials return 2 without a request; otherwise one POST; it raises iff that POST got a 2xx; the token never changes |
| Legacy.DiscoverySpec | getapp-test-script-2.py:137 | one discovery POST, whose code is returned |
| Legacy.RunFrom | getapp-test-script-2.py:146-150 | a loop that finishes has a result for every test name |
| Legacy.RunTestsOutcome | getapp-test-script-2.py:139-152 | it raises iff there are credentials and login got a 2xx, after the login call only; otherwise login then discovery ran, and the results are login ↦ 2, discovery ↦ the discovery POST's code |
| Legacy.FreshRunUnauthorized | getapp-test-script-2.py:27-37 | a tester that starts without a token sends no Authorization header on any of its at most two calls |
| Legacy.APITester.constructor | getapp-test-script-2.py:25-29 | no token |
| Legacy.APITester.MakeRequest | getapp-test-script-2.py:31-57 | leaves the state and code of `Legacy.MakeRequestSpec` |
| Legacy.APITester.Login | getapp-test-script-2.py:59-77 | leaves the state and result of `Legacy.LoginSpec` |
| Legacy.APITester.Discovery | getapp-test-script-2.py:79-137 | leaves the state and code of `Legacy.DiscoverySpec` |
| Legacy.APITester.RunTests | getapp-test-script-2.py:139-152 | the loop over the tests ends in the state and results of `Legacy.RunTestsSpec` |
| Legacy.RunMain | getapp-test-script-2.py:161-162 | a new tester without a token runs the tests once |

## Left out

- Request payloads (discovery, import, status, delivery and inventory bodies) and the `Content-Type`/`Accept` headers are not modelled. A call records its verb, endpoint and Authorization header. As a result, the device id, the timestamps and the `random.choice` of a bounding box for the import request are not modelled either.
- Response bodies are reduced to the string values of the keys the probe reads. A JSON value of another type under `accessToken`, `importRequestId`, `status` or `url` is not modelled.
- The latency Histogram, the request-size Summary, `start_http_server` and logging are left out. They measure wall-clock time and payload sizes, or are pure output.
- `croniter`, the cron validation with `sys.exit`, and `wait_until_next_run` are left out. They are date arithmetic and process exit.
- `main`'s endless loop is modelled as one iteration (`Tester.RunIteration`, `FullTest.MainIteration`), which can be applied repeatedly. Only the `run_full_test` exceptions the model knows are caught: the missing-credentials `ValueError` and a response body that is not a JSON object.
- `time.sleep` is counted, not timed.
- `os.getenv`, `random.randint` and the base URL are parameters. The `rstrip('/')` of `BASE_URL` happens before the model starts.
- Exceptions other than `RequestException` inside `requests` are not modelled, and neither is the `except Exception` in `download_files`, which no modelled step can reach.
- The request counters record the endpoint as an `Endpoint` value rather than its text. `Gateway.EndpointLabel` and `Gateway.OneSlashPath` give the text the code uses.
- `Tester.APITester.AwaitImport`, `UpdateThenSleep`, `UpdateRepeatedly`, `CheckEndpoints`, `SetUp`, `AwaitDelivery` and `Deliver` are parts of `check_health` and `run_full_test` written as methods of their own. Each ends in exactly the state its part of the code leaves.
- The earlier probe's device id is not modelled, because payloads are not.
