/**
 Many stagings at once: requests, executions of their jobs (a job may be executed more than once),
 completions in flight, and reports to Cloud Controller interleave in any order; a completion may be
 lost, and any request to the API server or to Cloud Controller may fail.
 */
module StagingRuns {
  import opened Wrappers
  import opened Buildpacks
  import opened Staging

  /** An execution knows only its job's environment; `origin` and `attempt` are what we observe of it. */
  datatype Execution = Execution(origin: string, env: Environment, attempt: Option<Attempt>)

  /** A completion on its way to Eirini, from execution number `from`. */
  datatype Flight = Flight(from: nat, message: TaskResponse)

  /** A POST, with the completion behind it and the GUID that carried. */
  datatype Report = Report(flight: nat, taskGuid: string, post: Post)

  datatype World = World(
    requests: map<string, StagingRequest>,   // every staging accepted so far, by GUID
    jobs: map<string, Job>,
    executions: seq<Execution>,
    flights: seq<Flight>,
    arrived: set<nat>,                       // flights handled so far
    reports: seq<Report>)

  datatype Action =
    | Stage(guid: string, request: StagingRequest, apiOk: bool)
    | Execute(job: string)
    | Conclude(execution: nat, attempt: Attempt)
    | Arrive(flight: nat, status: Option<int>, apiOk: bool)

  datatype Setting = Setting(config: StagerConfig, parses: string -> bool)

  function Start(): World {
    World(map[], map[], [], [], {}, [])
  }

  /** Stagings have distinct GUIDs: a request whose GUID was accepted before is not made. */
  function Next(setting: Setting, w: World, a: Action): World {
    match a
    case Stage(guid, request, apiOk) =>
      var task := StagingTask(setting.config, guid, request);
      if guid !in w.requests && task.Some? && apiOk && guid !in w.jobs
      then w.(requests := w.requests[guid := request], jobs := w.jobs[ToJob(task.value).name := ToJob(task.value)])
      else w
    case Execute(job) =>
      if job in w.jobs then w.(executions := w.executions + [Execution(job, w.jobs[job].env, None)]) else w
    case Conclude(i, attempt) =>
      if i < |w.executions| && w.executions[i].attempt.None? then
        var e := w.executions[i];
        var c := Completion(ReadConfig(e.env), ReadBuildpacks(e.env), attempt);
        w.(executions := w.executions[i := e.(attempt := Some(attempt))],
           flights := w.flights + if c.Some? then [Flight(i, c.value)] else [])
      else w
    case Arrive(f, status, apiOk) =>
      if f < |w.flights| && f !in w.arrived then
        var task := w.flights[f].message;
        var p := PostFor(setting.parses, task, status);
        w.(arrived := w.arrived + {f},
           reports := w.reports + (if p.Some? then [Report(f, task.taskGuid, p.value)] else []),
           jobs := if p.Some? && Accepted(p.value) && apiOk then w.jobs - {task.taskGuid} else w.jobs)
      else w
  }

  function After(setting: Setting, run: seq<Action>): World {
    if run == [] then Start() else Next(setting, After(setting, run[..|run| - 1]), run[|run| - 1])
  }

  /** The environment is the one the staging request asked for. */
  predicate OwnEnvironment(setting: Setting, requests: map<string, StagingRequest>, guid: string, env: Environment) {
    && guid in requests && requests[guid].lifecycle.Decoded?
    && env == StagingTask(setting.config, guid, requests[guid]).value.env
  }

  /** The completion that execution `e` of staging `guid` owes, given how it went. */
  predicate OwnCompletion(requests: map<string, StagingRequest>, e: Execution, m: TaskResponse) {
    && e.origin in requests && requests[e.origin].lifecycle.Decoded? && e.attempt.Some?
    && m.taskGuid == e.origin && m.annotation == Callback(requests[e.origin].completionCallback)
    && match e.attempt.value
       case InstallFails(reason) => m.failed && m.failureReason == reason
       case BuildFails(reason) => m.failed && m.failureReason == reason
       case UploadFails(reason) => m.failed && m.failureReason == reason
       case NoResult => false
       case Staged(result) =>
         var keyed := WithKeys(result, requests[e.origin].lifecycle.data.buildpacks);
         !m.failed && keyed.Some? && m.result == Json(keyed.value)
  }

  predicate OwnReport(w: World, r: Report) {
    && r.flight < |w.flights| && r.flight in w.arrived
    && var m := w.flights[r.flight].message;
    && m.taskGuid == r.taskGuid && ResponseBody(m) == Some(r.post.body) && m.annotation == Callback(r.post.uri)
  }

  predicate Reported(reports: seq<Report>, guid: string) {
    exists k :: 0 <= k < |reports| && reports[k].taskGuid == guid && Accepted(reports[k].post)
  }

  predicate Completed(flights: seq<Flight>, i: nat) {
    exists f :: 0 <= f < |flights| && flights[f].from == i
  }

  /** The success response of a staged execution cannot be built: no result, or a buildpack CC did not name. */
  predicate Unanswerable(requests: map<string, StagingRequest>, e: Execution) {
    && e.attempt.Some?
    && (e.attempt.value.NoResult? ||
        (&& e.attempt.value.Staged? && e.origin in requests && requests[e.origin].lifecycle.Decoded?
         && WithKeys(e.attempt.value.result, requests[e.origin].lifecycle.data.buildpacks).None?))
  }

  ghost predicate GoodExecutions(setting: Setting, w: World) {
    && (forall g | g in w.jobs :: OwnEnvironment(setting, w.requests, g, w.jobs[g].env))
    && (forall i | 0 <= i < |w.executions| ::
          OwnEnvironment(setting, w.requests, w.executions[i].origin, w.executions[i].env))
    && (forall f | 0 <= f < |w.flights| ::
          w.flights[f].from < |w.executions|
          && OwnCompletion(w.requests, w.executions[w.flights[f].from], w.flights[f].message))
    && (forall f, g | 0 <= f < g < |w.flights| :: w.flights[f].from != w.flights[g].from)
    && (forall i | 0 <= i < |w.executions| ::
          Completed(w.flights, i) <==> w.executions[i].attempt.Some? && !Unanswerable(w.requests, w.executions[i]))
  }

  ghost predicate GoodReports(w: World) {
    && (forall k | 0 <= k < |w.reports| :: OwnReport(w, w.reports[k]))
    && (forall j, k | 0 <= j < k < |w.reports| :: w.reports[j].flight != w.reports[k].flight)
    && (forall g | g in w.requests && g !in w.jobs :: Reported(w.reports, g))
  }

  /** A job carries its staging's identity through its environment into every completion. */
  lemma EnvironmentCarriesRequest(setting: Setting, requests: map<string, StagingRequest>, guid: string,
                                  env: Environment, attempt: Attempt)
    requires OwnEnvironment(setting, requests, guid, env)
    ensures var c, e := Completion(ReadConfig(env), ReadBuildpacks(env), attempt), Execution(guid, env, Some(attempt));
      (c.Some? ==> OwnCompletion(requests, e, c.value)) && (c.None? <==> Unanswerable(requests, e))
  {
    hide WithKeys;
    var data := requests[guid].lifecycle.data;
    assert Getenv(env, STAGING_GUID) == guid;
    assert Getenv(env, COMPLETION_CALLBACK) == requests[guid].completionCallback;
    assert ReadBuildpacks(env) == Some(data.buildpacks);
  }

  lemma StageKeepsExecutions(setting: Setting, w: World, a: Action)
    requires a.Stage? && GoodExecutions(setting, w)
    ensures GoodExecutions(setting, Next(setting, w, a))
  {
    hide WithKeys, Completed, StagingTask;
    var w' := Next(setting, w, a);
    var task := StagingTask(setting.config, a.guid, a.request);
    if task.Some? { TaskNamesJob(setting.config, a.guid, a.request); }
    forall i | 0 <= i < |w.executions|
      ensures Unanswerable(w'.requests, w.executions[i]) <==> Unanswerable(w.requests, w.executions[i]) {}
  }

  /** The job of a staging is named by its GUID, through the environment. */
  lemma TaskNamesJob(config: StagerConfig, guid: string, request: StagingRequest)
    requires StagingTask(config, guid, request).Some?
    ensures ToJob(StagingTask(config, guid, request).value).name == guid && request.lifecycle.Decoded?
  {
  }

  lemma StageKeepsReports(setting: Setting, w: World, a: Action)
    requires a.Stage? && GoodReports(w)
    ensures GoodReports(Next(setting, w, a))
  {
    hide WithKeys, Reported, ResponseBody, StagingTask;
    if StagingTask(setting.config, a.guid, a.request).Some? { TaskNamesJob(setting.config, a.guid, a.request); }
  }

  lemma ExecuteKeeps(setting: Setting, w: World, a: Action)
    requires a.Execute? && GoodExecutions(setting, w) && GoodReports(w)
    ensures GoodExecutions(setting, Next(setting, w, a)) && GoodReports(Next(setting, w, a))
  {
    hide WithKeys, Reported, ResponseBody, OwnEnvironment, OwnCompletion;
  }

  lemma ConcludeKeepsExecutions(setting: Setting, w: World, a: Action)
    requires a.Conclude? && GoodExecutions(setting, w)
    ensures GoodExecutions(setting, Next(setting, w, a))
  {
    hide WithKeys, OwnEnvironment, OwnCompletion, Completion, Unanswerable;
    var w' := Next(setting, w, a);
    if w' != w {
      var i := a.execution;
      var e := w.executions[i];
      assert !Completed(w.flights, i);
      EnvironmentCarriesRequest(setting, w.requests, e.origin, e.env, a.attempt);
      forall k | 0 <= k < |w.executions|
        ensures Completed(w'.flights, k) <==> Completed(w.flights, k) || (k == i && |w'.flights| > |w.flights|)
      {
        CompletedGrows(w.flights, w'.flights, i, k);
      }
      hide Completed;
    }
  }

  lemma CompletedGrows(was: seq<Flight>, now: seq<Flight>, i: nat, k: nat)
    requires was <= now && |now| <= |was| + 1 && (|now| > |was| ==> now[|was|].from == i)
    ensures Completed(now, k) <==> Completed(was, k) || (k == i && |now| > |was|)
  {
    if |now| > |was| { assert now[|was|].from == i; }
    if f :| 0 <= f < |was| && was[f].from == k { assert now[f].from == k; }
  }

  lemma ConcludeKeepsReports(setting: Setting, w: World, a: Action)
    requires a.Conclude? && GoodReports(w)
    ensures GoodReports(Next(setting, w, a))
  {
    hide Reported, ResponseBody, Completion;
  }

  lemma ArriveKeepsExecutions(setting: Setting, w: World, a: Action)
    requires a.Arrive? && GoodExecutions(setting, w)
    ensures GoodExecutions(setting, Next(setting, w, a))
  {
    hide OwnEnvironment, OwnCompletion, Completed, Unanswerable, PostFor, Accepted;
  }

  lemma ArriveKeepsReports(setting: Setting, w: World, a: Action)
    requires a.Arrive? && GoodReports(w)
    ensures GoodReports(Next(setting, w, a))
  {
    hide ResponseBody, Accepted, Reported;
    var w' := Next(setting, w, a);
    if w' != w {
      forall g | g in w'.requests && g !in w'.jobs ensures Reported(w'.reports, g) {
        ReportedGrows(w.reports, w'.reports, g);
      }
    }
  }

  lemma ReportedGrows(was: seq<Report>, now: seq<Report>, g: string)
    requires was <= now
    ensures Reported(was, g) ==> Reported(now, g)
    ensures |now| > |was| && now[|was|].taskGuid == g && Accepted(now[|was|].post) ==> Reported(now, g)
  {
    if Reported(was, g) {
      var k :| 0 <= k < |was| && was[k].taskGuid == g && Accepted(was[k].post);
      assert now[k] == was[k];
    }
  }

  predicate HasReport(reports: seq<Report>, f: nat) {
    exists k :: 0 <= k < |reports| && reports[k].flight == f
  }

  /** The message can be passed on: a callback that parses, and a failure or a decodable result. */
  predicate Reportable(parses: string -> bool, m: TaskResponse) {
    m.annotation.Callback? && parses(m.annotation.uri) && (m.failed || m.result.Json?)
  }

  ghost predicate GoodArrivals(setting: Setting, w: World) {
    && (forall k | 0 <= k < |w.reports| :: w.reports[k].flight in w.arrived)
    && forall f | f in w.arrived ::
         f < |w.flights| && (HasReport(w.reports, f) <==> Reportable(setting.parses, w.flights[f].message))
  }

  lemma NextKeepsArrivals(setting: Setting, w: World, a: Action)
    requires GoodArrivals(setting, w)
    ensures GoodArrivals(setting, Next(setting, w, a))
  {
    hide StagingTask, ToJob, Completion, ReadConfig, ReadBuildpacks;
    var w' := Next(setting, w, a);
    if a.Arrive? && w' != w {
      var m := w.flights[a.flight].message;
      assert PostFor(setting.parses, m, a.status).Some? <==> Reportable(setting.parses, m);
      forall f | f in w'.arrived
        ensures HasReport(w'.reports, f) <==> Reportable(setting.parses, w'.flights[f].message)
      {
        ReportsGrow(w.reports, w'.reports, f);
        if f == a.flight {
          assert !HasReport(w.reports, f);
        }
      }
    }
  }

  lemma ReportsGrow(was: seq<Report>, now: seq<Report>, f: nat)
    requires was <= now && |now| <= |was| + 1
    ensures HasReport(now, f) <==> HasReport(was, f) || (|now| > |was| && now[|was|].flight == f)
  {
    if k :| 0 <= k < |was| && was[k].flight == f { assert now[k].flight == f; }
  }

  lemma {:induction false} ArrivalsAreGood(setting: Setting, run: seq<Action>)
    ensures GoodArrivals(setting, After(setting, run))
  {
    hide Next, GoodArrivals;
    if run == [] {
      NothingArrived(setting);
    } else {
      ArrivalsAreGood(setting, run[..|run| - 1]);
      NextKeepsArrivals(setting, After(setting, run[..|run| - 1]), run[|run| - 1]);
    }
  }

  lemma NothingArrived(setting: Setting)
    ensures GoodArrivals(setting, Start())
  {
  }

  lemma {:induction false} RunIsGood(setting: Setting, run: seq<Action>)
    ensures GoodExecutions(setting, After(setting, run)) && GoodReports(After(setting, run))
  {
    hide Next, GoodExecutions, GoodReports;
    if run == [] {
      StartIsGood(setting);
    } else {
      var w, a := After(setting, run[..|run| - 1]), run[|run| - 1];
      RunIsGood(setting, run[..|run| - 1]);
      match a
      case Stage(_, _, _) => StageKeepsExecutions(setting, w, a); StageKeepsReports(setting, w, a);
      case Execute(_) => ExecuteKeeps(setting, w, a);
      case Conclude(_, _) => ConcludeKeepsExecutions(setting, w, a); ConcludeKeepsReports(setting, w, a);
      case Arrive(_, _, _) => ArriveKeepsExecutions(setting, w, a); ArriveKeepsReports(setting, w, a);
    }
  }

  lemma StartIsGood(setting: Setting)
    ensures GoodExecutions(setting, Start()) && GoodReports(Start())
  {
  }

  // ----- the theorems -----

  /** What Cloud Controller should hear about an execution. */
  function Verdict(requests: map<string, StagingRequest>, e: Execution): Option<ResponseForCC> {
    if e.attempt.None? || e.origin !in requests || !requests[e.origin].lifecycle.Decoded? then None
    else
      match e.attempt.value
      case InstallFails(reason) => Some(StagingError(reason))
      case BuildFails(reason) => Some(StagingError(reason))
      case UploadFails(reason) => Some(StagingError(reason))
      case NoResult => None
      case Staged(result) =>
        match WithKeys(result, requests[e.origin].lifecycle.data.buildpacks)
        case None => None
        case Some(keyed) => Some(StagingSuccess(keyed))
  }

  /**
   No cross-talk: over every interleaving, a POST for a staging goes to that staging's own callback and
   carries the result or failure of one of its own executions, with its own buildpack keys.
   */
  lemma NoCrossTalk(setting: Setting, run: seq<Action>, k: nat)
    requires k < |After(setting, run).reports|
    ensures var w := After(setting, run);
      var r := w.reports[k];
      && r.taskGuid in w.requests && r.post.uri == w.requests[r.taskGuid].completionCallback
      && exists i :: 0 <= i < |w.executions| && w.executions[i].origin == r.taskGuid
           && Verdict(w.requests, w.executions[i]) == Some(r.post.body)
  {
    hide After, WithKeys;
    RunIsGood(setting, run);
    var w := After(setting, run);
    assert OwnReport(w, w.reports[k]);
    var i := w.flights[w.reports[k].flight].from;
    assert OwnCompletion(w.requests, w.executions[i], w.flights[w.reports[k].flight].message);
    assert w.executions[i].origin == w.reports[k].taskGuid;
  }

  /** An accepted staging's job is gone only after a POST for it was answered with a status below 300. */
  lemma JobDeletedOnlyAfterReport(setting: Setting, run: seq<Action>, guid: string)
    requires var w := After(setting, run); guid in w.requests && guid !in w.jobs
    ensures var reports := After(setting, run).reports;
      exists k :: 0 <= k < |reports| && reports[k].taskGuid == guid
        && reports[k].post.status.Some? && reports[k].post.status.value < 300
  {
    hide After;
    RunIsGood(setting, run);
    assert Reported(After(setting, run).reports, guid);
  }

  /** Every completion that arrives, failure or success, is passed on, exactly when its own callback parses. */
  lemma ArrivalsReportedExactly(setting: Setting, run: seq<Action>, f: nat)
    requires f in After(setting, run).arrived
    ensures var w := After(setting, run);
      && f < |w.flights| && w.flights[f].from < |w.executions|
      && w.executions[w.flights[f].from].origin in w.requests
      && ((exists k :: 0 <= k < |w.reports| && w.reports[k].flight == f) <==>
            setting.parses(w.requests[w.executions[w.flights[f].from].origin].completionCallback))
  {
    hide After, WithKeys, OwnEnvironment, Completed, Unanswerable;
    RunIsGood(setting, run);
    ArrivalsAreGood(setting, run);
    var w := After(setting, run);
    assert OwnCompletion(w.requests, w.executions[w.flights[f].from], w.flights[f].message);
    assert HasReport(w.reports, f) <==> Reportable(setting.parses, w.flights[f].message);
  }

  /** An execution with this environment reads what the request and the stager's configuration say. */
  predicate Knows(config: StagerConfig, guid: string, request: StagingRequest, env: Environment) {
    && request.lifecycle.Decoded?
    && ReadConfig(env) == RecipeConfig(request.logGuid, guid, request.completionCallback,
                                       config.eiriniAddress, request.lifecycle.data.dropletUploadUri)
    && ReadBuildpacks(env) == Some(request.lifecycle.data.buildpacks)
    && Getenv(env, "DOWNLOAD_URL") == request.lifecycle.data.appBitsDownloadUri
    && Getenv(env, "CF_USERNAME") == config.cfUsername && Getenv(env, "CF_PASSWORD") == config.cfPassword
    && Getenv(env, "API_ADDRESS") == config.apiAddress
  }

  lemma TaskKnows(config: StagerConfig, guid: string, request: StagingRequest)
    requires request.lifecycle.Decoded?
    ensures Knows(config, guid, request, StagingTask(config, guid, request).value.env)
  {
  }

  /** So do all executions of every run. */
  lemma ExecutionsKnowTheirRequest(setting: Setting, run: seq<Action>, i: nat)
    requires i < |After(setting, run).executions|
    ensures var w := After(setting, run);
      var e := w.executions[i];
      e.origin in w.requests && Knows(setting.config, e.origin, w.requests[e.origin], e.env)
  {
    hide After, WithKeys, OwnCompletion, Completed, Unanswerable, Knows, StagingTask;
    RunIsGood(setting, run);
    var w := After(setting, run);
    assert OwnEnvironment(setting, w.requests, w.executions[i].origin, w.executions[i].env);
    TaskKnows(setting.config, w.executions[i].origin, w.requests[w.executions[i].origin]);
  }

  /**
   Each execution that has ended sent one completion, or none exactly when its success response could
   not be built; and no completion leads to two POSTs.
   */
  lemma AtMostOneCompletion(setting: Setting, run: seq<Action>)
    ensures var w := After(setting, run);
      && (forall f, g | 0 <= f < g < |w.flights| :: w.flights[f].from != w.flights[g].from)
      && (forall i | 0 <= i < |w.executions| ::
            Completed(w.flights, i) <==> w.executions[i].attempt.Some? && !Unanswerable(w.requests, w.executions[i]))
      && (forall j, k | 0 <= j < k < |w.reports| :: w.reports[j].flight != w.reports[k].flight)
  {
    hide After, Completed, Unanswerable;
    RunIsGood(setting, run);
  }
}
