/**
 * `runBuilderJob`: trigger the builder job for a session, register the
 * execution in `activeJobs` and start tailing its logs. It returns as soon as
 * the execution is started; it does not wait for the build to finish.
 */
module BuilderJob {
  import opened Common
  import opened Strings
  import opened JobsClient
  import opened Context
  import opened Logger
  import opened ExecutionDiscovery

  /** The error `execution.name!.split("/")` throws when the started execution has no name. */
  const NAMELESS_EXECUTION_ERROR: string := "Cannot read properties of undefined (reading 'split')"

  /** `jobParams`, in declaration order; `apiKey` is `process.env.GOOGLE_GENAI_API_KEY`. */
  function BuilderParams(sessionId: string, apiKey: Option<string>): seq<(string, JsValue)>
  {
    [("SESSION_ID", JsStr(sessionId)),
     ("REQUEST_TYPE", JsStr("new")),
     ("GOOGLE_GENAI_API_KEY", if apiKey.Some? then JsStr(apiKey.value) else JsUndefined)]
  }

  function BuilderLabels(sessionId: string): map<string, string>
  {
    map["sessionId" := sessionId, "pipeline" := "builder"]
  }

  function BuilderRequest(ctx: WorkerContext, sessionId: string, apiKey: Option<string>): (request: JobRequest)
    ensures request.name == ctx.builderJobResource && request.executionSuffix.None?
    // three variables, in this order, every value a string; an unset key becomes "undefined"
    ensures request.env == [EnvVar("SESSION_ID", sessionId),
                            EnvVar("REQUEST_TYPE", "new"),
                            EnvVar("GOOGLE_GENAI_API_KEY", apiKey.GetOr("undefined"))]
    // exactly the two labels discovery filters on
    ensures request.labels == Some(map["sessionId" := sessionId, "pipeline" := "builder"])
  {
    JobRequest(ctx.builderJobResource, None, Some(BuilderLabels(sessionId)),
               EnvOf(BuilderParams(sessionId, apiKey)))
  }

  /** The builder container reads its session, the request type and the key from its environment. */
  lemma BuilderEnvSeenByJob(ctx: WorkerContext, sessionId: string, apiKey: Option<string>)
    ensures var env := BuilderRequest(ctx, sessionId, apiKey).env;
            && EnvValue(env, "SESSION_ID") == Some(sessionId)
            && EnvValue(env, "REQUEST_TYPE") == Some("new")
            && EnvValue(env, "GOOGLE_GENAI_API_KEY") == Some(if apiKey.Some? then apiKey.value else "undefined")
  {
    var env := BuilderRequest(ctx, sessionId, apiKey).env;
    assert env[1..][1..] == [env[2]];
  }

  /**
   * An execution started from the builder request carries the labels discovery looks
   * for: it matches its own session, and no other.
   */
  lemma BuilderExecutionIsDiscoverable(ctx: WorkerContext, sessionId: string, apiKey: Option<string>,
                                       name: Option<string>, other: string)
    ensures var e := Execution(name, BuilderRequest(ctx, sessionId, apiKey).labels);
            HasSessionLabel(e, other) <==> other == sessionId
  {
  }

  /** `execution.name!.split("/").pop()!` */
  function ExecutionIdOf(executionName: string): (executionId: string)
    ensures '/' !in executionId
    ensures |executionId| <= |executionName|
    ensures executionName[|executionName| - |executionId|..] == executionId
    // it is the whole name, or the text after the last '/'
    ensures |executionId| == |executionName| || executionName[|executionName| - |executionId| - 1] == '/'
  {
    LastSegmentIsSuffix(executionName, '/');
    LastSegment(executionName, '/')
  }

  /** The id of `{job resource}/executions/{id}` is `{id}`. */
  lemma ExecutionIdOfExecutionName(jobResource: string, id: string)
    requires '/' !in id
    ensures ExecutionIdOf(jobResource + "/executions/" + id) == id
  {
    assert jobResource + "/executions/" + id == (jobResource + "/executions") + ['/'] + id;
    LastSegmentAfter(jobResource + "/executions", id, '/');
  }

  /**
   * `runJob` is what the jobs client's `runJob` gave back: the started execution's
   * (possibly absent) name, or an error. `now` is the clock when the entry is written.
   * `polling` says whether the log loop was started.
   */
  method RunBuilderJob(ctx: WorkerContext, sessionId: string, apiKey: Option<string>,
                       registry: ActiveJobs, runJob: Result<Option<string>>, now: int)
    returns (request: JobRequest, r: Outcome, polling: bool)
    modifies registry
    ensures request == BuilderRequest(ctx, sessionId, apiKey)
    // a failed trigger propagates, leaves `activeJobs` alone and starts no polling
    ensures runJob.Err? ==> r == Threw(runJob.message) && registry.jobs == old(registry.jobs) && !polling
    ensures runJob == Ok(None) ==> r == Threw(NAMELESS_EXECUTION_ERROR) && registry.jobs == old(registry.jobs) && !polling
    // a started execution replaces the session's entry; other sessions keep theirs
    ensures runJob.Ok? && runJob.value.Some? ==>
              && r == Done && polling
              && registry.jobs == old(registry.jobs)[sessionId := ActiveJob(Some(ExecutionIdOf(runJob.value.value)), now, ctx.builderJob)]
  {
    request := BuilderRequest(ctx, sessionId, apiKey);
    if runJob.Err? {
      return request, Threw(runJob.message), false;
    }
    if runJob.value.None? {
      return request, Threw(NAMELESS_EXECUTION_ERROR), false;
    }
    var executionId := ExecutionIdOf(runJob.value.value);
    registry.jobs := registry.jobs[sessionId := ActiveJob(Some(executionId), now, ctx.builderJob)];
    r, polling := Done, true;
  }
}
