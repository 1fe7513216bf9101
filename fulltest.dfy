/** `run_full_test` as a function of the transport's answers, written as the
    stages between its early returns, the sequence of calls a complete run
    makes, and one pass of `main`'s failure boundary. */
module FullTest {
  import opened Wrappers
  import opened Strings
  import opened Gateway
  import opened Workflow

  /** How the run ended, the state it left, how many times the poll called
      `check_import_status`, and the download URL it reached ("" before that). */
  datatype Run = Run(after: State, ending: Ending, polls: nat, url: string)

  /** Where `run_full_test` stands: the step it is about to take. `AtPoll`
      covers the status loop and the update after it. */
  datatype Stage = AtLogin | AtDiscovery | AtImportMap | AtPoll | AtPrepare | AtDownload | AtUpdates | AtInventory | AtHealth

  /** How many stages are still to come after `stage`. */
  function Rank(stage: Stage): nat
  {
    match stage
    case AtLogin => 8
    case AtDiscovery => 7
    case AtImportMap => 6
    case AtPoll => 5
    case AtPrepare => 4
    case AtDownload => 3
    case AtUpdates => 2
    case AtInventory => 1
    case AtHealth => 0
  }

  /** The stage after `stage`. */
  function Next(stage: Stage): (next: Stage)
    requires stage != AtHealth
    ensures Rank(next) + 1 == Rank(stage)
  {
    match stage
    case AtLogin => AtDiscovery
    case AtDiscovery => AtImportMap
    case AtImportMap => AtPoll
    case AtPoll => AtPrepare
    case AtPrepare => AtDownload
    case AtDownload => AtUpdates
    case AtUpdates => AtInventory
    case AtInventory => AtHealth
  }

  /** What one stage does: end the run with `run` (an early return or an
      escaping exception), or pass on in state `s1` after `polls` polls,
      holding the download URL `url`. */
  datatype Move = Halted(run: Run) | Passed(s1: State, polls: nat, url: string)

  function LoginMove(env: Env, creds: Credentials, s: State): Move
  {
    var login := LoginSpec(env, s, creds);
    match login.result
    case Failure(e) => Halted(Run(login.after, Crashed(Login, e), 0, ""))
    case Success(ok) => if ok then Passed(login.after, 0, "") else Halted(Run(login.after, Aborted(Login), 0, ""))
  }

  function DiscoveryMove(env: Env, s: State): Move
  {
    var discovery := DiscoverySpec(env, s);
    if discovery.ok then Passed(discovery.after, 0, "") else Halted(Run(discovery.after, Aborted(Discovery), 0, ""))
  }

  function ImportMapMove(env: Env, s: State): Move
  {
    var imported := ImportMapSpec(env, s);
    match imported.result
    case Failure(e) => Halted(Run(imported.after, Crashed(ImportMap, e), 0, ""))
    case Success(ok) => if ok then Passed(imported.after, 0, "") else Halted(Run(imported.after, Aborted(ImportMap), 0, ""))
  }

  /** The status loop, then the download-status update whose result is ignored:
      a "Done" status and a spent retry budget both go on. */
  function PollMove(env: Env, s: State): Move
  {
    var poll := PollSpec(env, s, 0);
    match poll.end
    case PollCrashed(e) => Halted(Run(poll.after, Crashed(ImportStatus, e), poll.polls, ""))
    case StatusError => Halted(Run(poll.after, Aborted(ImportStatus), poll.polls, ""))
    case _ => Passed(UpdateDownloadStatusSpec(env, poll.after, "Start").after, poll.polls, "")
  }

  function PrepareMove(env: Env, s: State, polls: nat): Move
  {
    var prepared := PrepareDeliverySpec(env, s);
    match prepared.result
    case Failure(e) => Halted(Run(prepared.after, Crashed(PrepareDelivery, e), polls, ""))
    case Success(url) =>
      if Truthy(url) then Passed(prepared.after, polls, url.value)
      else Halted(Run(prepared.after, Aborted(PrepareDelivery), polls, ""))
  }

  function DownloadMove(env: Env, s: State, polls: nat, url: string): Move
  {
    var download := DownloadFilesSpec(env, s, url);
    if download.ok then Passed(download.after, polls, url) else Halted(Run(download.after, Aborted(DownloadFiles), polls, url))
  }

  /** Five download-status updates, each followed by a sleep, results ignored. */
  function UpdatesMove(env: Env, s: State, polls: nat, url: string): Move
  {
    Passed(RepeatUpdatesSpec(env, s, StatusUpdates), polls, url)
  }

  function InventoryMove(env: Env, s: State, polls: nat, url: string): Move
  {
    var inventory := UpdateInventorySpec(env, s);
    if inventory.ok then Passed(inventory.after, polls, url) else Halted(Run(inventory.after, Aborted(UpdateInventory), polls, url))
  }

  function HealthMove(env: Env, s: State, polls: nat, url: string): Move
  {
    var health := HealthSpec(env, s, HealthEndpoints);
    if health.ok then Passed(health.after, polls, url) else Halted(Run(health.after, Aborted(HealthCheck), polls, url))
  }

  /** The stage `stage` taken in state `s`, after `polls` polls, holding `url`. */
  function Advance(env: Env, creds: Credentials, stage: Stage, s: State, polls: nat, url: string): Move
  {
    match stage
    case AtLogin => LoginMove(env, creds, s)
    case AtDiscovery => DiscoveryMove(env, s)
    case AtImportMap => ImportMapMove(env, s)
    case AtPoll => PollMove(env, s)
    case AtPrepare => PrepareMove(env, s, polls)
    case AtDownload => DownloadMove(env, s, polls, url)
    case AtUpdates => UpdatesMove(env, s, polls, url)
    case AtInventory => InventoryMove(env, s, polls, url)
    case AtHealth => HealthMove(env, s, polls, url)
  }

  /** The rest of `run_full_test` from `stage` on; passing the health checks completes it. */
  function Resume(env: Env, creds: Credentials, stage: Stage, s: State, polls: nat, url: string): Run
    decreases Rank(stage)
  {
    match Advance(env, creds, stage, s, polls, url)
    case Halted(r) => r
    case Passed(s1, polls1, url1) =>
      if stage == AtHealth then Run(s1, Completed, polls1, url1)
      else Resume(env, creds, Next(stage), s1, polls1, url1)
  }

  /** `run_full_test` from its first line. */
  function RunSpec(env: Env, creds: Credentials, s: State): Run
  {
    Resume(env, creds, AtLogin, s, 0, "")
  }

  // ---------------------------------------------------------------------------
  // The calls of a complete run

  /** What the calls of a run depend on: the token held before login, the token
      login stored, the import request id, the number of status GETs, and the
      download URL. */
  datatype Params = Params(before: Option<string>, token: Option<string>, id: Option<string>, requests: nat, url: string)

  /** The calls `stage` makes when it passes. */
  function StageCalls(stage: Stage, p: Params): seq<Call>
  {
    match stage
    case AtLogin => [CallTo(p.before, Post, LoginApi)]
    case AtDiscovery => [CallTo(p.token, Post, DiscoverApi)]
    case AtImportMap => [CallTo(p.token, Post, CreateImportApi), CallTo(p.token, Post, UpdateStatusApi)]
    case AtPoll => Repeat(CallTo(p.token, Get, ImportStatusOf(p.id)), p.requests) + [CallTo(p.token, Post, UpdateStatusApi)]
    case AtPrepare => [CallTo(p.token, Post, PrepareApi), CallTo(p.token, Get, PreparedDeliveryOf(p.id))]
    case AtDownload => [CallTo(p.token, Get, Given(p.url)), CallTo(p.token, Get, Given(JsonSibling(p.url)))]
    case AtUpdates => Repeat(CallTo(p.token, Post, UpdateStatusApi), StatusUpdates)
    case AtInventory => [CallTo(p.token, Post, InventoryApi)]
    case AtHealth => HealthCalls(p.token, HealthEndpoints)
  }

  /** Every call from `stage` to the end of a run that completes. */
  function ScriptFrom(stage: Stage, p: Params): seq<Call>
    decreases Rank(stage)
  {
    if stage == AtHealth then StageCalls(stage, p)
    else StageCalls(stage, p) + ScriptFrom(Next(stage), p)
  }

  /** Every call of a run that completes. */
  function Script(p: Params): seq<Call>
  {
    ScriptFrom(AtLogin, p)
  }

  /** Where the calls of `stage` begin in the script of a run that sent `requests` status GETs. */
  function Offset(stage: Stage, requests: nat): nat
  {
    match stage
    case AtLogin => 0
    case AtDiscovery => 1
    case AtImportMap => 2
    case AtPoll => 4
    case AtPrepare => 5 + requests
    case AtDownload => 7 + requests
    case AtUpdates => 9 + requests
    case AtInventory => 14 + requests
    case AtHealth => 15 + requests
  }

  /** The first and last call a run that ends in `step` can have made. */
  function CallsBefore(step: Step, requests: nat): nat
  {
    match step
    case Login => 0
    case Discovery => 1
    case ImportMap => 2
    case ImportStatus => 4
    case PrepareDelivery => 5 + requests
    case DownloadFiles => 7 + requests
    case UpdateInventory => 14 + requests
    case HealthCheck => 15 + requests
  }

  function CallsThrough(step: Step, requests: nat): nat
  {
    match step
    case Login => 1
    case Discovery => 2
    case ImportMap => 4
    case ImportStatus => 4 + requests
    case PrepareDelivery => 7 + requests
    case DownloadFiles => 9 + requests
    case UpdateInventory => 15 + requests
    case HealthCheck => 19 + requests
  }

  /** A run with this ending made `n` calls: all 19 plus the status GETs when it
      completed, otherwise none past the step that ended it. */
  predicate InBounds(ending: Ending, requests: nat, n: nat)
  {
    if ending.Completed? then n == 19 + requests
    else CallsBefore(ending.step, requests) <= n <= CallsThrough(ending.step, requests)
  }

  /** The number of status GETs the poll of run `r` sent: none without a request id. */
  function StatusRequests(r: Run): nat
  {
    if Truthy(r.after.importRequestId) then r.polls else 0
  }

  /** The run got past the import and into the status loop. */
  predicate Polled(ending: Ending)
  {
    ending.Completed? || (ending.step != Login && ending.step != Discovery && ending.step != ImportMap)
  }

  /** The sleeps of a run with this ending: one per poll that did not return
      "Error", then one per ignored update. */
  function SleepsBy(ending: Ending, polls: nat): nat
  {
    if ending.Completed? then polls + StatusUpdates
    else
      match ending.step
      case Login => 0
      case Discovery => 0
      case ImportMap => 0
      case ImportStatus => if polls > 0 then polls - 1 else 0
      case PrepareDelivery => polls
      case DownloadFiles => polls
      case UpdateInventory => polls + StatusUpdates
      case HealthCheck => polls + StatusUpdates
  }

  /** The poll and the stages after it: the import request id is fixed. */
  predicate FromPoll(stage: Stage)
  {
    match stage
    case AtLogin | AtDiscovery | AtImportMap => false
    case _ => true
  }

  /** The stages after the poll: the number of polls is fixed. */
  predicate PastPoll(stage: Stage)
  {
    match stage
    case AtLogin | AtDiscovery | AtImportMap | AtPoll => false
    case _ => true
  }

  /** The download and the stages after it: the download URL is fixed. */
  predicate FromDownload(stage: Stage)
  {
    match stage
    case AtDownload | AtUpdates | AtInventory | AtHealth => true
    case _ => false
  }

  /** The sleeps taken before `stage`, given the polls. */
  function SleepsBefore(stage: Stage, polls: nat): nat
  {
    match stage
    case AtLogin | AtDiscovery | AtImportMap | AtPoll => 0
    case AtPrepare | AtDownload | AtUpdates => polls
    case AtInventory | AtHealth => polls + StatusUpdates
  }

  /** The sleeps of a stage that passes and hands `polls` on. */
  function StageSleeps(stage: Stage, polls: nat): nat
  {
    match stage
    case AtPoll => polls
    case AtUpdates => StatusUpdates
    case _ => 0
  }

  /** `t` is `s` followed by the first calls of `script`. */
  predicate Follows(s: State, t: State, script: seq<Call>)
  {
    && |s.trace| <= |t.trace| <= |s.trace| + |script|
    && t.trace == s.trace + script[..|t.trace| - |s.trace|]
  }

  /** The script parameters a run `r` determines. */
  function ParamsOf(before: Option<string>, r: Run): Params
  {
    Params(before, r.after.authToken, r.after.importRequestId, StatusRequests(r), r.url)
  }

  /** `r`, a run from `stage` in state `s`, made the calls of the script from
      `stage` up to where it ended, and no call past the step that ended it. */
  predicate KeepsCalls(stage: Stage, s: State, before: Option<string>, r: Run)
  {
    var req := StatusRequests(r);
    && Follows(s, r.after, ScriptFrom(stage, ParamsOf(before, r)))
    && InBounds(r.ending, req, Offset(stage, req) + |r.after.trace| - |s.trace|)
  }

  /** `r`, a run from `stage` entered after `polls` polls, slept once per poll
      that did not fail and once per ignored update, and polled at most 30 times. */
  predicate KeepsCounts(stage: Stage, s: State, polls: nat, r: Run)
  {
    && r.after.sleeps + SleepsBefore(stage, polls) == s.sleeps + SleepsBy(r.ending, r.polls)
    && r.polls <= MaxRetries
    && (Polled(r.ending) ==> r.polls >= 1)
  }

  /** `r`, a run from `stage`, kept the values the stages before `stage` fixed. */
  predicate KeepsValues(stage: Stage, s: State, polls: nat, url: string, r: Run)
  {
    && (stage != AtLogin ==> r.after.authToken == s.authToken)
    && (FromPoll(stage) ==> r.after.importRequestId == s.importRequestId)
    && (PastPoll(stage) ==> r.polls == polls)
    && (FromDownload(stage) ==> r.url == url)
  }

  predicate Keeps(stage: Stage, s: State, polls: nat, url: string, before: Option<string>, r: Run)
  {
    KeepsCalls(stage, s, before, r) && KeepsCounts(stage, s, polls, r) && KeepsValues(stage, s, polls, url, r)
  }

  /** The rest of `run_full_test` from `stage` keeps to the script. */
  predicate Tracks(env: Env, creds: Credentials, stage: Stage, s: State, polls: nat, url: string, before: Option<string>)
  {
    Keeps(stage, s, polls, url, before, Resume(env, creds, stage, s, polls, url))
  }

  /** What a stage may assume on entry. */
  predicate Entry(stage: Stage, s: State, polls: nat, before: Option<string>)
  {
    && polls <= MaxRetries
    && (PastPoll(stage) ==> polls >= 1)
    && (stage == AtLogin ==> before == s.authToken)
  }

  // ---------------------------------------------------------------------------
  // Sequence facts

  /** `n` calls of `tail` after all of `head` are the first `|head| + n` calls of both. */
  lemma Continue(t0: seq<Call>, t1: seq<Call>, t2: seq<Call>, head: seq<Call>, tail: seq<Call>, m: nat)
    requires t1 == t0 + head && m <= |tail| && t2 == t1 + tail[..m]
    ensures t2 == t0 + (head + tail)[..|head| + m]
  {
    assert (head + tail)[..|head| + m] == head + tail[..m];
  }

  /** A run that stops inside `head` made a prefix of `head + tail`. */
  lemma Stop(t0: seq<Call>, t1: seq<Call>, head: seq<Call>, tail: seq<Call>, k: nat)
    requires k <= |head| && t1 == t0 + head[..k]
    ensures t1 == t0 + (head + tail)[..k]
  {
    assert (head + tail)[..k] == head[..k];
  }

  lemma RepeatPrefix(c: Call, k: nat, tail: seq<Call>)
    ensures (Repeat(c, k) + tail)[..k] == Repeat(c, k)
  {
    assert (Repeat(c, k) + tail)[..k] == Repeat(c, k);
  }

  /** The calls of a stage fill the script from its offset to the next one. */
  lemma StageLength(stage: Stage, p: Params)
    requires stage != AtHealth
    ensures Offset(stage, p.requests) + |StageCalls(stage, p)| == Offset(Next(stage), p.requests)
  {
  }

  // ---------------------------------------------------------------------------
  // What one stage does

  /** The script parameters a stage that passes on fixes. */
  function PassParams(before: Option<string>, s1: State, polls1: nat, url1: string): Params
  {
    Params(before, s1.authToken, s1.importRequestId, if Truthy(s1.importRequestId) then polls1 else 0, url1)
  }

  /** A run that `stage` ends made some of the stage's calls and none after them. */
  predicate HaltOk(stage: Stage, s: State, polls: nat, url: string, before: Option<string>, r: Run)
  {
    var req := StatusRequests(r);
    var calls := StageCalls(stage, ParamsOf(before, r));
    && |s.trace| <= |r.after.trace| <= |s.trace| + |calls|
    && r.after.trace == s.trace + calls[..|r.after.trace| - |s.trace|]
    && InBounds(r.ending, req, Offset(stage, req) + |r.after.trace| - |s.trace|)
    && KeepsCounts(stage, s, polls, r)
    && KeepsValues(stage, s, polls, url, r)
  }

  /** A stage that passes made all its calls, slept as the script says, and
      hands on what the later stages keep. */
  predicate PassOk(stage: Stage, s: State, polls: nat, url: string, before: Option<string>, s1: State, polls1: nat, url1: string)
  {
    && s1.trace == s.trace + StageCalls(stage, PassParams(before, s1, polls1, url1))
    && s1.sleeps == s.sleeps + StageSleeps(stage, polls1)
    && polls1 <= MaxRetries
    && (FromPoll(stage) ==> polls1 >= 1)
    && (stage != AtLogin ==> s1.authToken == s.authToken)
    && (FromPoll(stage) ==> s1.importRequestId == s.importRequestId)
    && (PastPoll(stage) ==> polls1 == polls)
    && (FromDownload(stage) ==> url1 == url)
  }

  predicate MoveOk(stage: Stage, s: State, polls: nat, url: string, before: Option<string>, m: Move)
  {
    match m
    case Halted(r) => HaltOk(stage, s, polls, url, before, r)
    case Passed(s1, polls1, url1) => PassOk(stage, s, polls, url, before, s1, polls1, url1)
  }

  /** Login makes its part of the script. Missing credentials end the run with
      the ValueError and no call; a failed login POST ends it aborted, one that
      succeeded without a JSON object ends it crashed, after that one call; a
      successful one with a JSON object goes on. */
  lemma LoginMoves(env: Env, creds: Credentials, s: State, polls: nat, url: string, before: Option<string>)
    requires Entry(AtLogin, s, polls, before)
    ensures MoveOk(AtLogin, s, polls, url, before, LoginMove(env, creds, s))
    ensures var m := LoginMove(env, creds, s);
      var reply := NextReply(env, s);
      && (!HasCredentials(creds) ==> m == Halted(Run(s, Crashed(Login, MissingCredentials), 0, "")))
      && (m.Passed? <==> HasCredentials(creds) && Succeeded(reply) && reply.body.Object?)
      && (HasCredentials(creds) && m.Halted? ==> m.run.after.trace == s.trace + [CallTo(s.authToken, Post, LoginApi)])
      && (HasCredentials(creds) && !Succeeded(reply) ==> m.Halted? && m.run.ending == Aborted(Login))
      && (HasCredentials(creds) && Succeeded(reply) && reply.body.NotObject? ==>
            m.Halted? && m.run.ending == Crashed(Login, UndecodableBody))
  {
    var login := LoginSpec(env, s, creds);
    if HasCredentials(creds) {
      assert login.after.trace == s.trace + [CallTo(s.authToken, Post, LoginApi)];
    }
  }

  /** Discovery makes its POST; the run ends there, aborted, exactly when that POST fails. */
  lemma DiscoveryMoves(env: Env, s: State, polls: nat, url: string, before: Option<string>)
    requires Entry(AtDiscovery, s, polls, before)
    ensures MoveOk(AtDiscovery, s, polls, url, before, DiscoveryMove(env, s))
    ensures var m := DiscoveryMove(env, s);
      && (m.Halted? <==> !Succeeded(NextReply(env, s)))
      && (m.Halted? ==> m.run.ending == Aborted(Discovery) && m.run.after.trace == s.trace + [CallTo(s.authToken, Post, DiscoverApi)])
  {
  }

  /** The import goes on exactly when the create POST succeeds with a JSON object
      and the "Start" update succeeds. A failed create ends the run after that
      call alone; a failed update ends it after both; a create answered without
      a JSON object ends it crashed. */
  lemma ImportMapMoves(env: Env, s: State, polls: nat, url: string, before: Option<string>)
    requires Entry(AtImportMap, s, polls, before)
    ensures MoveOk(AtImportMap, s, polls, url, before, ImportMapMove(env, s))
    ensures var m := ImportMapMove(env, s);
      var create := env.replies(|s.trace|);
      && (m.Passed? <==> Succeeded(create) && create.body.Object? && Succeeded(env.replies(|s.trace| + 1)))
      && (!Succeeded(create) ==>
            m.Halted? && m.run.ending == Aborted(ImportMap) && m.run.after.trace == s.trace + ImportMapCalls(s)[..1])
      && (Succeeded(create) && create.body.NotObject? ==> m.Halted? && m.run.ending == Crashed(ImportMap, UndecodableBody))
      && (Succeeded(create) && create.body.Object? && !Succeeded(env.replies(|s.trace| + 1)) ==>
            m.Halted? && m.run.ending == Aborted(ImportMap) && m.run.after.trace == s.trace + ImportMapCalls(s))
  {
    match ImportMapMove(env, s)
    case Halted(r) =>
      var created := Succeeded(NextReply(env, s)) && NextReply(env, s).body.Object?;
      ImportMapStopOk(s, polls, url, before, r, if created then 2 else 1);
    case Passed(s1, _, _) =>
      ImportMapPassOk(s, polls, url, before, s1);
  }

  /** The two calls of `import_map`: the create POST and the "Start" update. */
  function ImportMapCalls(s: State): seq<Call>
  {
    [CallTo(s.authToken, Post, CreateImportApi), CallTo(s.authToken, Post, UpdateStatusApi)]
  }

  lemma ImportMapStopOk(s: State, polls: nat, url: string, before: Option<string>, r: Run, k: nat)
    requires (r.ending.Aborted? || r.ending.Crashed?) && r.ending.step == ImportMap
    requires r.polls == 0 && 1 <= k <= 2
    requires r.after.authToken == s.authToken
    requires r.after.trace == s.trace + ImportMapCalls(s)[..k]
    requires r.after.sleeps == s.sleeps
    ensures HaltOk(AtImportMap, s, polls, url, before, r)
  {
  }

  lemma ImportMapPassOk(s: State, polls: nat, url: string, before: Option<string>, s1: State)
    requires s1.authToken == s.authToken
    requires s1.trace == s.trace + ImportMapCalls(s)
    requires s1.sleeps == s.sleeps
    ensures PassOk(AtImportMap, s, polls, url, before, s1, 0, "")
  {
  }

  /** The poll ends the run exactly when the status loop ends in "Error" or
      raises; without a request id that happens at once, with no call. */
  lemma PollMoves(env: Env, s: State, polls: nat, url: string, before: Option<string>)
    requires Entry(AtPoll, s, polls, before)
    ensures MoveOk(AtPoll, s, polls, url, before, PollMove(env, s))
    ensures var m := PollMove(env, s);
      var end := PollSpec(env, s, 0).end;
      && (m.Halted? <==> end.StatusError? || end.PollCrashed?)
      && (end.StatusError? ==> m.Halted? && m.run.ending == Aborted(ImportStatus))
      && (end.PollCrashed? ==> m.Halted? && m.run.ending == Crashed(ImportStatus, end.exc))
      && (!Truthy(s.importRequestId) ==> m.Halted? && m.run.ending == Aborted(ImportStatus) && m.run.after.trace == s.trace)
  {
    var poll := PollSpec(env, s, 0);
    if poll.end.PollCrashed? || poll.end.StatusError? {
      PollHalts(env, s, polls, url, before);
    } else {
      PollPasses(env, s, polls, url, before);
    }
  }

  lemma PollHalts(env: Env, s: State, polls: nat, url: string, before: Option<string>)
    requires Entry(AtPoll, s, polls, before)
    requires PollSpec(env, s, 0).end.PollCrashed? || PollSpec(env, s, 0).end.StatusError?
    ensures MoveOk(AtPoll, s, polls, url, before, PollMove(env, s))
  {
    var r := PollMove(env, s).run;
    PollStopOk(s, polls, url, before, r);
  }

  /** A run the status loop ends made only status calls, and slept after each
      but the last. */
  lemma PollStopOk(s: State, polls: nat, url: string, before: Option<string>, r: Run)
    requires r.ending == Aborted(ImportStatus) || (r.ending.Crashed? && r.ending.step == ImportStatus)
    requires 1 <= r.polls <= MaxRetries && r.url == ""
    requires r.after.authToken == s.authToken && r.after.importRequestId == s.importRequestId
    requires r.after.trace == s.trace + Repeat(StatusCall(s), StatusRequests(r))
    requires r.after.sleeps + 1 == s.sleeps + r.polls
    ensures HaltOk(AtPoll, s, polls, url, before, r)
  {
    var k := StatusRequests(r);
    var calls := Repeat(StatusCall(s), k) + [CallTo(s.authToken, Post, UpdateStatusApi)];
    assert StageCalls(AtPoll, ParamsOf(before, r)) == calls;
    RepeatPrefix(StatusCall(s), k, [CallTo(s.authToken, Post, UpdateStatusApi)]);
    assert |r.after.trace| - |s.trace| == k;
    assert r.after.trace == s.trace + calls[..k];
  }

  lemma PollPasses(env: Env, s: State, polls: nat, url: string, before: Option<string>)
    requires Entry(AtPoll, s, polls, before)
    requires PollSpec(env, s, 0).end.Done? || PollSpec(env, s, 0).end.Exhausted?
    ensures MoveOk(AtPoll, s, polls, url, before, PollMove(env, s))
  {
    var poll := PollSpec(env, s, 0);
    var s1 := UpdateDownloadStatusSpec(env, poll.after, "Start").after;
    assert PollMove(env, s) == Passed(s1, poll.polls, "");
    PollPassOk(s, polls, url, before, s1, poll.polls);
  }

  /** A poll that goes on made its status calls and the update, and slept after every poll. */
  lemma PollPassOk(s: State, polls: nat, url: string, before: Option<string>, s1: State, polls1: nat)
    requires 1 <= polls1 <= MaxRetries
    requires s1.authToken == s.authToken && s1.importRequestId == s.importRequestId
    requires s1.trace == s.trace + Repeat(StatusCall(s), if Truthy(s.importRequestId) then polls1 else 0) + [CallTo(s.authToken, Post, UpdateStatusApi)]
    requires s1.sleeps == s.sleeps + polls1
    ensures PassOk(AtPoll, s, polls, url, before, s1, polls1, "")
  {
  }

  /** A failed preparation POST ends the run after that call; a failed URL GET
      ends it after both; a URL body that is not a JSON object crashes it. A
      JSON body goes on exactly when its `url` is truthy, holding that URL resolved. */
  lemma PrepareMoves(env: Env, s: State, polls: nat, url: string, before: Option<string>)
    requires Entry(AtPrepare, s, polls, before)
    ensures MoveOk(AtPrepare, s, polls, url, before, PrepareMove(env, s, polls))
    ensures var m := PrepareMove(env, s, polls);
      var post := env.replies(|s.trace|);
      var get := env.replies(|s.trace| + 1);
      && (!Succeeded(post) ==>
            m.Halted? && m.run.ending == Aborted(PrepareDelivery) && m.run.after.trace == s.trace + PrepareCalls(s)[..1])
      && (Succeeded(post) && !Succeeded(get) ==>
            m.Halted? && m.run.ending == Aborted(PrepareDelivery) && m.run.after.trace == s.trace + PrepareCalls(s))
      && (Succeeded(post) && Succeeded(get) && get.body.NotObject? ==>
            m.Halted? && m.run.ending == Crashed(PrepareDelivery, UndecodableBody))
      && (Succeeded(post) && Succeeded(get) && get.body.Object? ==>
            var given := Lookup(get.body.fields, Url);
            && (m.Passed? <==> Truthy(given))
            && (m.Passed? ==> Some(m.url) == ResolveDeliveryUrl(env.baseUrl, given))
            && (m.Halted? ==> m.run.ending == Aborted(PrepareDelivery)))
  {
    var prepared := PrepareDeliverySpec(env, s);
    match PrepareMove(env, s, polls)
    case Halted(r) =>
      PrepareStopOk(s, polls, url, before, r, if Succeeded(NextReply(env, s)) then 2 else 1);
    case Passed(s1, polls1, url1) =>
      PreparePassOk(s, polls, url, before, s1, url1);
  }

  /** The two calls of `prepare_delivery`. */
  function PrepareCalls(s: State): seq<Call>
  {
    [CallTo(s.authToken, Post, PrepareApi), CallTo(s.authToken, Get, PreparedDeliveryOf(s.importRequestId))]
  }

  lemma PrepareStopOk(s: State, polls: nat, url: string, before: Option<string>, r: Run, k: nat)
    requires Entry(AtPrepare, s, polls, before)
    requires (r.ending.Aborted? || r.ending.Crashed?) && r.ending.step == PrepareDelivery
    requires r.polls == polls && k <= 2
    requires r.after.authToken == s.authToken && r.after.importRequestId == s.importRequestId
    requires r.after.trace == s.trace + PrepareCalls(s)[..k]
    requires r.after.sleeps == s.sleeps
    ensures HaltOk(AtPrepare, s, polls, url, before, r)
  {
  }

  lemma PreparePassOk(s: State, polls: nat, url: string, before: Option<string>, s1: State, url1: string)
    requires Entry(AtPrepare, s, polls, before)
    requires s1.authToken == s.authToken && s1.importRequestId == s.importRequestId
    requires s1.trace == s.trace + PrepareCalls(s)
    requires s1.sleeps == s.sleeps
    ensures PassOk(AtPrepare, s, polls, url, before, s1, polls, url1)
  {
  }

  /** An empty URL ends the run with no call. Otherwise both GETs are made and
      the run goes on exactly when both succeed. */
  lemma DownloadMoves(env: Env, s: State, polls: nat, url: string, before: Option<string>)
    requires Entry(AtDownload, s, polls, before)
    ensures MoveOk(AtDownload, s, polls, url, before, DownloadMove(env, s, polls, url))
    ensures var m := DownloadMove(env, s, polls, url);
      && (url == "" ==> m.Halted? && m.run.ending == Aborted(DownloadFiles) && m.run.after.trace == s.trace)
      && (url != "" ==>
            && (m.Passed? <==> Succeeded(env.replies(|s.trace|)) && Succeeded(env.replies(|s.trace| + 1)))
            && (m.Halted? ==>
                  && m.run.ending == Aborted(DownloadFiles)
                  && m.run.after.trace == s.trace + DownloadCalls(s, url)))
  {
    var download := DownloadFilesSpec(env, s, url);
    var r := Run(download.after, Aborted(DownloadFiles), polls, url);
    if url == "" {
      DownloadStopOk(s, polls, url, before, r, 0);
    } else if download.ok {
      DownloadPassOk(s, polls, url, before, download.after);
    } else {
      DownloadStopOk(s, polls, url, before, r, 2);
    }
  }

  /** The two GETs of `download_files`: the file and its JSON sibling. */
  function DownloadCalls(s: State, url: string): seq<Call>
  {
    [CallTo(s.authToken, Get, Given(url)), CallTo(s.authToken, Get, Given(JsonSibling(url)))]
  }

  lemma DownloadStopOk(s: State, polls: nat, url: string, before: Option<string>, r: Run, k: nat)
    requires Entry(AtDownload, s, polls, before)
    requires r.ending == Aborted(DownloadFiles) && r.polls == polls && r.url == url && k <= 2
    requires r.after.authToken == s.authToken && r.after.importRequestId == s.importRequestId
    requires r.after.trace == s.trace + DownloadCalls(s, url)[..k]
    requires r.after.sleeps == s.sleeps
    ensures HaltOk(AtDownload, s, polls, url, before, r)
  {
  }

  lemma DownloadPassOk(s: State, polls: nat, url: string, before: Option<string>, s1: State)
    requires Entry(AtDownload, s, polls, before)
    requires s1.authToken == s.authToken && s1.importRequestId == s.importRequestId
    requires s1.trace == s.trace + DownloadCalls(s, url)
    requires s1.sleeps == s.sleeps
    ensures PassOk(AtDownload, s, polls, url, before, s1, polls, url)
  {
  }

  /** The five updates never end the run, whatever they answer. */
  lemma UpdatesMoves(env: Env, s: State, polls: nat, url: string, before: Option<string>)
    requires Entry(AtUpdates, s, polls, before)
    ensures MoveOk(AtUpdates, s, polls, url, before, UpdatesMove(env, s, polls, url))
    ensures UpdatesMove(env, s, polls, url).Passed?
  {
  }

  /** The inventory POST is made; the run ends there, aborted, exactly when it fails. */
  lemma InventoryMoves(env: Env, s: State, polls: nat, url: string, before: Option<string>)
    requires Entry(AtInventory, s, polls, before)
    ensures MoveOk(AtInventory, s, polls, url, before, InventoryMove(env, s, polls, url))
    ensures var m := InventoryMove(env, s, polls, url);
      && (m.Halted? <==> !Succeeded(NextReply(env, s)))
      && (m.Halted? ==> m.run.ending == Aborted(UpdateInventory) && m.run.after.trace == s.trace + [CallTo(s.authToken, Post, InventoryApi)])
  {
  }

  /** All four health GETs are made whatever they answer; the run ends aborted
      exactly when one of them fails, and completes otherwise. */
  lemma HealthMoves(env: Env, s: State, polls: nat, url: string, before: Option<string>)
    requires Entry(AtHealth, s, polls, before)
    ensures MoveOk(AtHealth, s, polls, url, before, HealthMove(env, s, polls, url))
    ensures var m := HealthMove(env, s, polls, url);
      && (m.Halted? <==> exists j :: |s.trace| <= j < |s.trace| + 4 && !Succeeded(env.replies(j)))
      && (m.Halted? ==> m.run.ending == Aborted(HealthCheck) && m.run.after.trace == s.trace + HealthCalls(s.authToken, HealthEndpoints))
  {
    FailingChecksShape(env, |s.trace|, HealthEndpoints);
    var health := HealthSpec(env, s, HealthEndpoints);
    if health.ok {
      HealthPassOk(s, polls, url, before, health.after);
    } else {
      HealthStopOk(s, polls, url, before, Run(health.after, Aborted(HealthCheck), polls, url));
    }
  }

  lemma HealthStopOk(s: State, polls: nat, url: string, before: Option<string>, r: Run)
    requires Entry(AtHealth, s, polls, before)
    requires r.ending == Aborted(HealthCheck) && r.polls == polls && r.url == url
    requires r.after.authToken == s.authToken && r.after.importRequestId == s.importRequestId
    requires r.after.trace == s.trace + HealthCalls(s.authToken, HealthEndpoints)
    requires r.after.sleeps == s.sleeps
    ensures HaltOk(AtHealth, s, polls, url, before, r)
  {
    var calls := HealthCalls(s.authToken, HealthEndpoints);
    assert |calls| == 4;
    assert calls[..4] == calls;
  }

  lemma HealthPassOk(s: State, polls: nat, url: string, before: Option<string>, s1: State)
    requires Entry(AtHealth, s, polls, before)
    requires s1.authToken == s.authToken && s1.importRequestId == s.importRequestId
    requires s1.trace == s.trace + HealthCalls(s.authToken, HealthEndpoints)
    requires s1.sleeps == s.sleeps
    ensures PassOk(AtHealth, s, polls, url, before, s1, polls, url)
  {
  }

  /** Every stage does what the script says. */
  lemma AdvanceMoves(env: Env, creds: Credentials, stage: Stage, s: State, polls: nat, url: string, before: Option<string>)
    requires Entry(stage, s, polls, before)
    ensures MoveOk(stage, s, polls, url, before, Advance(env, creds, stage, s, polls, url))
  {
    match stage
    case AtLogin => LoginMoves(env, creds, s, polls, url, before);
    case AtDiscovery => DiscoveryMoves(env, s, polls, url, before);
    case AtImportMap => ImportMapMoves(env, s, polls, url, before);
    case AtPoll => PollMoves(env, s, polls, url, before);
    case AtPrepare => PrepareMoves(env, s, polls, url, before);
    case AtDownload => DownloadMoves(env, s, polls, url, before);
    case AtUpdates => UpdatesMoves(env, s, polls, url, before);
    case AtInventory => InventoryMoves(env, s, polls, url, before);
    case AtHealth => HealthMoves(env, s, polls, url, before);
  }

  // ---------------------------------------------------------------------------
  // From one stage to the whole run

  /** A stage that ends the run keeps to the script. */
  lemma HaltKeeps(stage: Stage, s: State, polls: nat, url: string, before: Option<string>, r: Run)
    requires HaltOk(stage, s, polls, url, before, r)
    ensures Keeps(stage, s, polls, url, before, r)
  {
    var p := ParamsOf(before, r);
    if stage != AtHealth {
      Stop(s.trace, r.after.trace, StageCalls(stage, p), ScriptFrom(Next(stage), p), |r.after.trace| - |s.trace|);
    }
  }

  /** Passing the health checks completes the run, on script. */
  lemma CompleteKeeps(s: State, polls: nat, url: string, before: Option<string>, s1: State, polls1: nat, url1: string)
    requires Entry(AtHealth, s, polls, before)
    requires PassOk(AtHealth, s, polls, url, before, s1, polls1, url1)
    ensures Keeps(AtHealth, s, polls, url, before, Run(s1, Completed, polls1, url1))
  {
  }

  /** The calls of a stage depend only on the values the later stages keep. */
  lemma SameCalls(stage: Stage, p: Params, q: Params)
    requires stage == AtLogin ==> p.before == q.before
    requires stage != AtLogin ==> p.token == q.token
    requires stage == AtPoll || stage == AtPrepare ==> p.id == q.id
    requires stage == AtPoll ==> p.requests == q.requests
    requires stage == AtDownload ==> p.url == q.url
    ensures StageCalls(stage, p) == StageCalls(stage, q)
  {
  }

  /** The calls of a stage that passes on, as the rest of the run fixes them. */
  lemma PassTrace(stage: Stage, s: State, polls: nat, url: string, before: Option<string>, s1: State, polls1: nat, url1: string, r: Run)
    requires stage != AtHealth
    requires PassOk(stage, s, polls, url, before, s1, polls1, url1)
    requires KeepsValues(Next(stage), s1, polls1, url1, r)
    ensures s1.trace == s.trace + StageCalls(stage, ParamsOf(before, r))
  {
    SameCalls(stage, PassParams(before, s1, polls1, url1), ParamsOf(before, r));
  }

  /** A stage that passes on makes its own calls before those of the rest of the run. */
  lemma PassKeepsCalls(stage: Stage, s: State, polls: nat, url: string, before: Option<string>, s1: State, polls1: nat, url1: string, r: Run)
    requires stage != AtHealth
    requires PassOk(stage, s, polls, url, before, s1, polls1, url1)
    requires KeepsCalls(Next(stage), s1, before, r) && KeepsValues(Next(stage), s1, polls1, url1, r)
    ensures KeepsCalls(stage, s, before, r)
  {
    var p := ParamsOf(before, r);
    PassTrace(stage, s, polls, url, before, s1, polls1, url1, r);
    StageLength(stage, p);
    Continue(s.trace, s1.trace, r.after.trace, StageCalls(stage, p), ScriptFrom(Next(stage), p), |r.after.trace| - |s1.trace|);
  }

  /** A stage that passes on adds its own sleeps to those of the rest of the run. */
  lemma PassKeepsCounts(stage: Stage, s: State, polls: nat, url: string, before: Option<string>, s1: State, polls1: nat, url1: string, r: Run)
    requires stage != AtHealth
    requires PassOk(stage, s, polls, url, before, s1, polls1, url1)
    requires KeepsCounts(Next(stage), s1, polls1, r)
    ensures KeepsCounts(stage, s, polls, r)
  {
  }

  /** A stage that passes on keeps to the script when the rest of the run does. */
  lemma PassKeeps(stage: Stage, s: State, polls: nat, url: string, before: Option<string>, s1: State, polls1: nat, url1: string, r: Run)
    requires stage != AtHealth
    requires PassOk(stage, s, polls, url, before, s1, polls1, url1)
    requires Keeps(Next(stage), s1, polls1, url1, before, r)
    ensures Keeps(stage, s, polls, url, before, r)
  {
    PassKeepsCalls(stage, s, polls, url, before, s1, polls1, url1, r);
    PassKeepsCounts(stage, s, polls, url, before, s1, polls1, url1, r);
  }

  /** A run that a stage ends is the rest of the run. */
  lemma HaltTracks(env: Env, creds: Credentials, stage: Stage, s: State, polls: nat, url: string, before: Option<string>, r: Run)
    requires Advance(env, creds, stage, s, polls, url) == Halted(r)
    requires Keeps(stage, s, polls, url, before, r)
    ensures Tracks(env, creds, stage, s, polls, url, before)
  {
  }

  /** A stage that passes on leaves the rest of the run to the next stage. */
  lemma PassTracks(env: Env, creds: Credentials, stage: Stage, s: State, polls: nat, url: string, before: Option<string>, s1: State, polls1: nat, url1: string)
    requires stage != AtHealth && Advance(env, creds, stage, s, polls, url) == Passed(s1, polls1, url1)
    requires Keeps(stage, s, polls, url, before, Resume(env, creds, Next(stage), s1, polls1, url1))
    ensures Tracks(env, creds, stage, s, polls, url, before)
  {
  }

  /** Every run from a stage keeps to the script. */
  lemma {:induction false} ResumeTracks(env: Env, creds: Credentials, stage: Stage, s: State, polls: nat, url: string, before: Option<string>)
    requires Entry(stage, s, polls, before)
    ensures Tracks(env, creds, stage, s, polls, url, before)
    decreases Rank(stage)
  {
    var m := Advance(env, creds, stage, s, polls, url);
    AdvanceMoves(env, creds, stage, s, polls, url, before);
    match m
    case Halted(r) =>
      HaltKeeps(stage, s, polls, url, before, r);
      HaltTracks(env, creds, stage, s, polls, url, before, r);
    case Passed(s1, polls1, url1) =>
      if stage == AtHealth {
        CompleteKeeps(s, polls, url, before, s1, polls1, url1);
      } else {
        var rest := Resume(env, creds, Next(stage), s1, polls1, url1);
        ResumeTracks(env, creds, Next(stage), s1, polls1, url1, before);
        PassKeeps(stage, s, polls, url, before, s1, polls1, url1, rest);
        PassTracks(env, creds, stage, s, polls, url, before, s1, polls1, url1);
      }
  }

  // ---------------------------------------------------------------------------
  // The whole run, and one pass of `main`

  /** The script from `stage` on fills the 19 fixed calls and the status GETs. */
  lemma {:induction false} ScriptFromLength(stage: Stage, p: Params)
    ensures Offset(stage, p.requests) + |ScriptFrom(stage, p)| == 19 + p.requests
    decreases Rank(stage)
  {
    if stage == AtHealth {
      assert |HealthCalls(p.token, HealthEndpoints)| == 4;
    } else {
      StageLength(stage, p);
      ScriptFromLength(Next(stage), p);
    }
  }

  /** `run_full_test` makes the calls of the script in order: login, discovery,
      create and update, the status GETs, the update, prepare and the URL GET,
      both downloads, five updates, the inventory POST and four health GETs.
      A run that returns early or raises stops inside the step that ended it;
      a complete run makes them all. It sleeps once per poll that was not
      "Error" and once per ignored update, and polls at most 30 times. */
  lemma RunFollowsScript(env: Env, creds: Credentials, s: State)
    ensures var r := RunSpec(env, creds, s);
      var p := ParamsOf(s.authToken, r);
      && |Script(p)| == 19 + p.requests
      && Follows(s, r.after, Script(p))
      && InBounds(r.ending, p.requests, |r.after.trace| - |s.trace|)
      && (r.ending.Completed? ==> r.after.trace == s.trace + Script(p))
      && r.after.sleeps == s.sleeps + SleepsBy(r.ending, r.polls)
      && r.polls <= MaxRetries
      && (Polled(r.ending) ==> r.polls >= 1)
  {
    ResumeTracks(env, creds, AtLogin, s, 0, "", s.authToken);
    WholeRunKeeps(s, RunSpec(env, creds, s));
  }

  /** A run from login that keeps to the script, read as a whole run. */
  lemma WholeRunKeeps(s: State, r: Run)
    requires Keeps(AtLogin, s, 0, "", s.authToken, r)
    ensures var p := ParamsOf(s.authToken, r);
      && |Script(p)| == 19 + p.requests
      && Follows(s, r.after, Script(p))
      && InBounds(r.ending, p.requests, |r.after.trace| - |s.trace|)
      && (r.ending.Completed? ==> r.after.trace == s.trace + Script(p))
      && r.after.sleeps == s.sleeps + SleepsBy(r.ending, r.polls)
      && r.polls <= MaxRetries
      && (Polled(r.ending) ==> r.polls >= 1)
  {
    var p := ParamsOf(s.authToken, r);
    ScriptFromLength(AtLogin, p);
    if r.ending.Completed? {
      assert Script(p)[..|Script(p)|] == Script(p);
    }
  }

  /** With both credentials, the first call of a run is the login POST, sent
      with whatever token the tester held. */
  lemma RunStartsWithLogin(env: Env, creds: Credentials, s: State)
    requires HasCredentials(creds)
    ensures var t := RunSpec(env, creds, s).after;
      |t.trace| > |s.trace| && t.trace[|s.trace|] == Call(Post, LoginApi, Authorization(s.authToken))
  {
    var login := LoginSpec(env, s, creds);
    if login.result == Success(true) {
      ResumeTracks(env, creds, AtDiscovery, login.after, 0, "", s.authToken);
    }
  }

  /** The state a fresh `APITester` starts from: no token and no import request
      id, while the call record, the global counters and the sleeps carry on. */
  function Fresh(s: State): State
  {
    s.(authToken := None, importRequestId := None)
  }

  /** One pass of `main`'s loop: a fresh tester runs the full test, and an
      exception escaping it is counted as an unexpected error of the run. */
  function MainIteration(env: Env, creds: Credentials, s: State): State
  {
    var run := RunSpec(env, creds, Fresh(s));
    if run.ending.Crashed? then WithTestFailure(run.after, UnexpectedError) else run.after
  }

  /** Without both credentials a pass makes no call and no sleep, and counts
      exactly one unexpected error. */
  lemma MainWithoutCredentials(env: Env, creds: Credentials, s: State)
    requires !HasCredentials(creds)
    ensures var t := MainIteration(env, creds, s);
      && t.trace == s.trace
      && t.sleeps == s.sleeps
      && t.counters.testFailures == s.counters.testFailures + [UnexpectedError]
  {
  }

  /** With both credentials every pass begins with a login POST that carries no
      Authorization header, whatever the previous pass left behind. */
  lemma MainStartsUnauthenticated(env: Env, creds: Credentials, s: State)
    requires HasCredentials(creds)
    ensures var t := MainIteration(env, creds, s);
      |t.trace| > |s.trace| && t.trace[|s.trace|] == Call(Post, LoginApi, None)
  {
    RunStartsWithLogin(env, creds, Fresh(s));
  }

  // ---------------------------------------------------------------------------
  // One stage at a time, from what its step returned

  lemma LoginStage(env: Env, creds: Credentials, s: State, t: State, result: Result<bool, Raised>)
    requires LoginSpec(env, s, creds) == Outcome(t, result)
    ensures result.Failure? ==> RunSpec(env, creds, s) == Run(t, Crashed(Login, result.error), 0, "")
    ensures result == Success(false) ==> RunSpec(env, creds, s) == Run(t, Aborted(Login), 0, "")
    ensures result == Success(true) ==> RunSpec(env, creds, s) == Resume(env, creds, AtDiscovery, t, 0, "")
  {
  }

  lemma DiscoveryStage(env: Env, creds: Credentials, s: State, t: State, ok: bool)
    requires DiscoverySpec(env, s) == Verdict(t, ok)
    ensures !ok ==> Resume(env, creds, AtDiscovery, s, 0, "") == Run(t, Aborted(Discovery), 0, "")
    ensures ok ==> Resume(env, creds, AtDiscovery, s, 0, "") == Resume(env, creds, AtImportMap, t, 0, "")
  {
  }

  lemma ImportMapStage(env: Env, creds: Credentials, s: State, t: State, result: Result<bool, Raised>)
    requires ImportMapSpec(env, s) == Outcome(t, result)
    ensures result.Failure? ==> Resume(env, creds, AtImportMap, s, 0, "") == Run(t, Crashed(ImportMap, result.error), 0, "")
    ensures result == Success(false) ==> Resume(env, creds, AtImportMap, s, 0, "") == Run(t, Aborted(ImportMap), 0, "")
    ensures result == Success(true) ==> Resume(env, creds, AtImportMap, s, 0, "") == Resume(env, creds, AtPoll, t, 0, "")
  {
  }

  lemma PollStage(env: Env, creds: Credentials, s: State, t: State, end: PollEnd, polls: nat)
    requires PollSpec(env, s, 0) == PollRun(t, end, polls)
    ensures end.PollCrashed? ==> Resume(env, creds, AtPoll, s, 0, "") == Run(t, Crashed(ImportStatus, end.exc), polls, "")
    ensures end.StatusError? ==> Resume(env, creds, AtPoll, s, 0, "") == Run(t, Aborted(ImportStatus), polls, "")
    ensures end.Done? || end.Exhausted? ==>
      Resume(env, creds, AtPoll, s, 0, "") == Resume(env, creds, AtPrepare, UpdateDownloadStatusSpec(env, t, "Start").after, polls, "")
  {
    AdvanceAtPoll(env, creds, s);
  }

  lemma AdvanceAtPoll(env: Env, creds: Credentials, s: State)
    ensures Advance(env, creds, AtPoll, s, 0, "") == PollMove(env, s)
  {
  }

  lemma PrepareStage(env: Env, creds: Credentials, s: State, polls: nat, t: State, result: Result<Option<string>, Raised>)
    requires PrepareDeliverySpec(env, s) == Outcome(t, result)
    ensures result.Failure? ==> Resume(env, creds, AtPrepare, s, polls, "") == Run(t, Crashed(PrepareDelivery, result.error), polls, "")
    ensures result.Success? && !Truthy(result.value) ==> Resume(env, creds, AtPrepare, s, polls, "") == Run(t, Aborted(PrepareDelivery), polls, "")
    ensures result.Success? && Truthy(result.value) ==>
      Resume(env, creds, AtPrepare, s, polls, "") == Resume(env, creds, AtDownload, t, polls, result.value.value)
  {
  }

  lemma DownloadStage(env: Env, creds: Credentials, s: State, polls: nat, url: string, t: State, ok: bool)
    requires DownloadFilesSpec(env, s, url) == Verdict(t, ok)
    ensures !ok ==> Resume(env, creds, AtDownload, s, polls, url) == Run(t, Aborted(DownloadFiles), polls, url)
    ensures ok ==> Resume(env, creds, AtDownload, s, polls, url) == Resume(env, creds, AtUpdates, t, polls, url)
  {
  }

  lemma UpdatesStage(env: Env, creds: Credentials, s: State, polls: nat, url: string, t: State)
    requires RepeatUpdatesSpec(env, s, StatusUpdates) == t
    ensures Resume(env, creds, AtUpdates, s, polls, url) == Resume(env, creds, AtInventory, t, polls, url)
  {
  }

  lemma InventoryStage(env: Env, creds: Credentials, s: State, polls: nat, url: string, t: State, ok: bool)
    requires UpdateInventorySpec(env, s) == Verdict(t, ok)
    ensures !ok ==> Resume(env, creds, AtInventory, s, polls, url) == Run(t, Aborted(UpdateInventory), polls, url)
    ensures ok ==> Resume(env, creds, AtInventory, s, polls, url) == Resume(env, creds, AtHealth, t, polls, url)
  {
  }

  lemma HealthStage(env: Env, creds: Credentials, s: State, polls: nat, url: string, t: State, ok: bool)
    requires HealthSpec(env, s, HealthEndpoints) == Verdict(t, ok)
    ensures !ok ==> Resume(env, creds, AtHealth, s, polls, url) == Run(t, Aborted(HealthCheck), polls, url)
    ensures ok ==> Resume(env, creds, AtHealth, s, polls, url) == Run(t, Completed, polls, url)
  {
    var m := HealthMove(env, s, polls, url);
    assert m == if ok then Passed(t, polls, url) else Halted(Run(t, Aborted(HealthCheck), polls, url));
    AdvanceAtHealth(env, creds, s, polls, url);
  }

  lemma AdvanceAtHealth(env: Env, creds: Credentials, s: State, polls: nat, url: string)
    ensures Advance(env, creds, AtHealth, s, polls, url) == HealthMove(env, s, polls, url)
  {
  }
}
