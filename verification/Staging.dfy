/**
 stager/stager.go, k8s/desiretask.go, recipe/cmd/recipe.go and recipe/execute.go: one staging, from Cloud
 Controller's request to the report back. The identity of a staging travels only in the job's
 environment and in the annotation text of the completion.
 */
module Staging {
  import opened Wrappers
  import opened Buildpacks

  /** An environment value: plain text, or the JSON text of the buildpack list. */
  datatype EnvValue = Text(text: string) | BuildpackList(buildpacks: seq<Buildpack>)
  type Environment = map<string, EnvValue>

  const DOWNLOAD_URL := "DOWNLOAD_URL"
  const BUILDPACKS := "BUILDPACKS"
  const DROPLET_UPLOAD_URL := "DROPLET_UPLOAD_URL"
  const APP_ID := "APP_ID"
  const STAGING_GUID := "STAGING_GUID"
  const COMPLETION_CALLBACK := "COMPLETION_CALLBACK"
  const CF_USERNAME := "CF_USERNAME"
  const CF_PASSWORD := "CF_PASSWORD"
  const API_ADDRESS := "API_ADDRESS"
  const EIRINI_ADDRESS := "EIRINI_ADDRESS"

  /** Reading a variable that is not set, or not plain text, as text. */
  function Getenv(env: Environment, key: string): string {
    if key in env && env[key].Text? then env[key].text else ""
  }

  datatype LifecycleData = LifecycleData(
    appBitsDownloadUri: string, dropletUploadUri: string, buildpacks: seq<Buildpack>)

  /** The pointer to the raw lifecycle data: nil, to text that does not decode, or to decodable text. */
  datatype Lifecycle = NoData | BadData | Decoded(data: LifecycleData)

  datatype StagingRequest = StagingRequest(lifecycle: Lifecycle, logGuid: string, completionCallback: string)

  datatype StagerConfig = StagerConfig(
    cfUsername: string, cfPassword: string, apiAddress: string, eiriniAddress: string)

  datatype Task = Task(image: string, env: Environment)
  datatype Job = Job(name: string, appLabel: string, image: string, env: Environment)

  function StagingTask(config: StagerConfig, stagingGuid: string, request: StagingRequest): Option<Task> {
    if !request.lifecycle.Decoded? then None
    else
      var data := request.lifecycle.data;
      Some(Task("eirini/recipe", map[
        DOWNLOAD_URL := Text(data.appBitsDownloadUri),
        DROPLET_UPLOAD_URL := Text(data.dropletUploadUri),
        BUILDPACKS := BuildpackList(data.buildpacks),
        APP_ID := Text(request.logGuid),
        STAGING_GUID := Text(stagingGuid),
        COMPLETION_CALLBACK := Text(request.completionCallback),
        CF_USERNAME := Text(config.cfUsername),
        CF_PASSWORD := Text(config.cfPassword),
        API_ADDRESS := Text(config.apiAddress),
        EIRINI_ADDRESS := Text(config.eiriniAddress)]))
  }

  function ToJob(task: Task): Job {
    Job(Getenv(task.env, STAGING_GUID), Getenv(task.env, APP_ID), task.image, task.env)
  }

  // ----- the recipe -----

  datatype RecipeConfig = RecipeConfig(
    appId: string, stagingGuid: string, completionCallback: string, eiriniAddr: string, dropletUploadUrl: string)

  /** What the recipe's main reads from its environment. */
  function ReadConfig(env: Environment): RecipeConfig {
    RecipeConfig(Getenv(env, APP_ID), Getenv(env, STAGING_GUID), Getenv(env, COMPLETION_CALLBACK),
                 Getenv(env, EIRINI_ADDRESS), Getenv(env, DROPLET_UPLOAD_URL))
  }

  function ReadBuildpacks(env: Environment): Option<seq<Buildpack>> {
    if BUILDPACKS in env && env[BUILDPACKS].BuildpackList? then Some(env[BUILDPACKS].buildpacks) else None
  }

  /** The annotation's JSON text: a callback, or text that does not decode. */
  datatype Annotation = Callback(uri: string) | Garbled

  /** The result's text: the JSON of a staging result, or text that is no JSON. */
  datatype ResultText = Json(result: Result) | NoJson

  datatype TaskResponse = TaskResponse(
    taskGuid: string, failed: bool, failureReason: string, result: ResultText, annotation: Annotation)

  /** How the steps of one execution turn out, up to the first failure. */
  datatype Attempt =
    | InstallFails(reason: string)
    | BuildFails(reason: string)
    | UploadFails(reason: string)
    | NoResult                     // the builder's result file is missing or does not decode
    | Staged(result: Result)

  function FailureResponse(reason: string, conf: RecipeConfig): TaskResponse {
    TaskResponse(conf.stagingGuid, true, reason, NoJson, Callback(conf.completionCallback))
  }

  /** The completion an execution sends: none exactly when the success response cannot be built. */
  function Completion(conf: RecipeConfig, provided: Option<seq<Buildpack>>, attempt: Attempt): Option<TaskResponse> {
    match attempt
    case InstallFails(reason) => Some(FailureResponse(reason, conf))
    case BuildFails(reason) => Some(FailureResponse(reason, conf))
    case UploadFails(reason) => Some(FailureResponse(reason, conf))
    case NoResult => None
    case Staged(result) =>
      if provided.None? then None
      else
        match WithKeys(result, provided.value)
        case None => None
        case Some(keyed) =>
          Some(TaskResponse(conf.stagingGuid, false, "", Json(keyed), Callback(conf.completionCallback)))
  }

  function CompletionUri(eiriniAddress: string, taskGuid: string): string {
    eiriniAddress + "/stage/" + taskGuid + "/completed"
  }

  /** Installer, builder, uploader and result file of one execution, and the completions it has tried to send. */
  class PacksExecutor {
    const installError: Option<string>
    const buildError: Option<string>
    const uploadError: Option<string>
    const resultFile: Option<StagingResult>
    const resultModifier: BuildpacksKeyModifier
    const reachable: bool
    var installs: seq<string>                  // apps whose bits were asked for
    var uploads: seq<string>                   // addresses a droplet was sent to
    var sent: seq<(string, TaskResponse)>

    constructor (installError: Option<string>, buildError: Option<string>, uploadError: Option<string>,
                 resultFile: Option<StagingResult>, resultModifier: BuildpacksKeyModifier, reachable: bool)
      ensures this.installError == installError && this.buildError == buildError && this.uploadError == uploadError
        && this.resultFile == resultFile && this.resultModifier == resultModifier
        && this.reachable == reachable && sent == [] && installs == [] && uploads == []
    {
      this.installError, this.buildError, this.uploadError := installError, buildError, uploadError;
      this.resultFile, this.resultModifier, this.reachable := resultFile, resultModifier, reachable;
      sent, installs, uploads := [], [], [];
    }

    ghost function Outcome(): Attempt
      reads if resultFile.Some? then {resultFile.value.buildpacks} else {}
    {
      if installError.Some? then InstallFails(installError.value)
      else if buildError.Some? then BuildFails(buildError.value)
      else if uploadError.Some? then UploadFails(uploadError.value)
      else if resultFile.None? then NoResult
      else Staged(Contents(resultFile.value))
    }

    method SendCompleteResponse(eiriniAddress: string, response: TaskResponse) returns (ok: bool)
      modifies this`sent
      ensures ok == reachable && sent == old(sent) + [(CompletionUri(eiriniAddress, response.taskGuid), response)]
    {
      sent := sent + [(CompletionUri(eiriniAddress, response.taskGuid), response)];
      ok := reachable;
    }

    method RespondWithFailure(reason: string, conf: RecipeConfig)
      modifies this`sent
      ensures sent == old(sent) + [(conf.eiriniAddr + "/stage/" + conf.stagingGuid + "/completed",
                TaskResponse(conf.stagingGuid, true, reason, NoJson, Callback(conf.completionCallback)))]
    {
      var _ := SendCompleteResponse(conf.eiriniAddr, FailureResponse(reason, conf));
    }

    /** At most one completion leaves an execution, to the staging's own address, and it is `Completion`'s. */
    method ExecuteRecipe(conf: RecipeConfig) returns (ok: bool)
      modifies this`sent, this`installs, this`uploads
      modifies if resultFile.Some? then {resultFile.value.buildpacks} else {}
      ensures var c := Completion(conf, resultModifier.ccBuildpacks, old(Outcome()));
        && sent == old(sent) + (if c.Some? then [(CompletionUri(conf.eiriniAddr, conf.stagingGuid), c.value)] else [])
        && (ok <==> reachable && old(Outcome()).Staged? && c.Some?)
      ensures installs == old(installs) + [conf.appId]
      ensures uploads == old(uploads) + if installError.None? && buildError.None? then [conf.dropletUploadUrl] else []
      ensures installError.Some? || buildError.Some? || uploadError.Some? ==>
        var reason := if installError.Some? then installError.value
                      else if buildError.Some? then buildError.value else uploadError.value;
        !ok && sent == old(sent) + [(conf.eiriniAddr + "/stage/" + conf.stagingGuid + "/completed",
          TaskResponse(conf.stagingGuid, true, reason, NoJson, Callback(conf.completionCallback)))]
      ensures installError.None? && buildError.None? && uploadError.None? && sent != old(sent) ==>
        && resultFile.Some? && resultModifier.ccBuildpacks.Some?
        && var keyed := WithKeys(old(Contents(resultFile.value)), resultModifier.ccBuildpacks.value);
        && keyed.Some?
        && sent == old(sent) + [(conf.eiriniAddr + "/stage/" + conf.stagingGuid + "/completed",
             TaskResponse(conf.stagingGuid, false, "", Json(keyed.value), Callback(conf.completionCallback)))]
      ensures installError.None? && buildError.None? && uploadError.None? && sent == old(sent) ==>
        || resultFile.None? || resultModifier.ccBuildpacks.None?
        || WithKeys(old(Contents(resultFile.value)), resultModifier.ccBuildpacks.value).None?
    {
      installs := installs + [conf.appId];
      if installError.Some? {
        RespondWithFailure(installError.value, conf);
        return false;
      }
      if buildError.Some? {
        RespondWithFailure(buildError.value, conf);
        return false;
      }
      uploads := uploads + [conf.dropletUploadUrl];
      if uploadError.Some? {
        RespondWithFailure(uploadError.value, conf);
        return false;
      }
      if resultFile.None? {
        return false;
      }
      var modified := resultModifier.Modify(resultFile.value);
      if modified.None? {
        return false;
      }
      var text := Json(Contents(modified.value));
      ok := SendCompleteResponse(conf.eiriniAddr,
        TaskResponse(conf.stagingGuid, false, "", text, Callback(conf.completionCallback)));
    }
  }

  // ----- the stager -----

  datatype ResponseForCC = StagingError(message: string) | StagingSuccess(result: Result)

  function ResponseBody(task: TaskResponse): Option<ResponseForCC> {
    if task.failed then Some(StagingError(task.failureReason))
    else match task.result
      case NoJson => None
      case Json(result) => Some(StagingSuccess(result))
  }

  /** A POST to Cloud Controller, and the status it answered with, if it answered. */
  datatype Post = Post(uri: string, body: ResponseForCC, status: Option<int>)

  predicate Accepted(p: Post) {
    p.status.Some? && p.status.value < 300
  }

  /** The POST that a completion leads to: none when result or annotation does not decode, or the URI does not parse. */
  function PostFor(parses: string -> bool, task: TaskResponse, status: Option<int>): Option<Post> {
    match (ResponseBody(task), task.annotation)
    case (Some(body), Callback(uri)) => if parses(uri) then Some(Post(uri, body, status)) else None
    case _ => None
  }

  class TaskDesirer {
    var jobs: map<string, Job>

    constructor ()
      ensures jobs == map[]
    {
      jobs := map[];
    }

    method DesireStaging(task: Task, apiOk: bool) returns (ok: bool)
      modifies this
      ensures ok == (apiOk && ToJob(task).name !in old(jobs))
      ensures jobs == if ok then old(jobs)[ToJob(task).name := ToJob(task)] else old(jobs)
    {
      var job := ToJob(task);
      ok := apiOk && job.name !in jobs;
      if ok { jobs := jobs[job.name := job]; }
    }

    method Delete(name: string, apiOk: bool) returns (ok: bool)
      modifies this
      ensures ok == (apiOk && name in old(jobs)) && jobs == if ok then old(jobs) - {name} else old(jobs)
    {
      ok := apiOk && name in jobs;
      if ok { jobs := jobs - {name}; }
    }
  }

  class Stager {
    const desirer: TaskDesirer
    const config: StagerConfig
    const parses: string -> bool
    var posts: seq<Post>

    constructor (desirer: TaskDesirer, config: StagerConfig, parses: string -> bool)
      ensures this.desirer == desirer && this.config == config && this.parses == parses && posts == []
    {
      this.desirer, this.config, this.parses, posts := desirer, config, parses, [];
    }

    /** A decodable request becomes one job, named by the GUID; one without lifecycle data panics before any request. */
    method Stage(stagingGuid: string, request: StagingRequest, apiOk: bool) returns (o: Outcome)
      modifies desirer
      ensures o.Panic? <==> request.lifecycle.NoData?
      ensures o.Ok? <==> request.lifecycle.Decoded? && apiOk && stagingGuid !in old(desirer.jobs)
      ensures desirer.jobs ==
        if o.Ok? then old(desirer.jobs)[stagingGuid := ToJob(StagingTask(config, stagingGuid, request).value)]
        else old(desirer.jobs)
      ensures o.Ok? ==> desirer.jobs[stagingGuid] == Job(stagingGuid, request.logGuid, "eirini/recipe", map[
        "DOWNLOAD_URL" := Text(request.lifecycle.data.appBitsDownloadUri),
        "DROPLET_UPLOAD_URL" := Text(request.lifecycle.data.dropletUploadUri),
        "BUILDPACKS" := BuildpackList(request.lifecycle.data.buildpacks),
        "APP_ID" := Text(request.logGuid), "STAGING_GUID" := Text(stagingGuid),
        "COMPLETION_CALLBACK" := Text(request.completionCallback),
        "CF_USERNAME" := Text(config.cfUsername), "CF_PASSWORD" := Text(config.cfPassword),
        "API_ADDRESS" := Text(config.apiAddress), "EIRINI_ADDRESS" := Text(config.eiriniAddress)])
    {
      if request.lifecycle.NoData? {
        return Panic; // nil pointer
      }
      var task := StagingTask(config, stagingGuid, request);
      if task.None? {
        return Err;
      }
      var ok := desirer.DesireStaging(task.value, apiOk);
      o := if ok then Ok else Err;
    }

    /** The job is deleted only after the POST was answered with a status below 300. */
    method CompleteStaging(task: TaskResponse, status: Option<int>, apiOk: bool) returns (ok: bool)
      modifies this`posts, desirer
      ensures var p := PostFor(parses, task, status);
        && posts == old(posts) + (if p.Some? then [p.value] else [])
        && desirer.jobs ==
             (if p.Some? && Accepted(p.value) && apiOk then old(desirer.jobs) - {task.taskGuid} else old(desirer.jobs))
        && (ok <==> p.Some? && Accepted(p.value) && apiOk && task.taskGuid in old(desirer.jobs))
      ensures task.annotation.Callback? && parses(task.annotation.uri) && task.failed ==>
        posts == old(posts) + [Post(task.annotation.uri, StagingError(task.failureReason), status)]
      ensures task.annotation.Callback? && parses(task.annotation.uri) && !task.failed && task.result.Json? ==>
        posts == old(posts) + [Post(task.annotation.uri, StagingSuccess(task.result.result), status)]
      ensures task.annotation.Garbled? || !parses(task.annotation.uri) || (!task.failed && task.result.NoJson?) ==>
        posts == old(posts)
      ensures desirer.jobs ==
        if posts != old(posts) && status.Some? && status.value < 300 && apiOk then old(desirer.jobs) - {task.taskGuid}
        else old(desirer.jobs)
    {
      var body := ResponseBody(task);
      if body.None? || task.annotation.Garbled? || !parses(task.annotation.uri) {
        return false;
      }
      posts := posts + [Post(task.annotation.uri, body.value, status)];
      if status.None? || status.value >= 300 {
        return false;
      }
      ok := desirer.Delete(task.taskGuid, apiOk);
    }
  }
}
