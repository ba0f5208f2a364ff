/**
 * `runDeployerJob`: trigger the deployer job for a session, register it in
 * `activeJobs`, start tailing its logs, wait for the operation, and drop the
 * registry entry however the operation ends.
 */
module DeployerJob {
  import opened Common
  import opened JobsClient
  import opened Context
  import opened Logger
  import opened ExecutionDiscovery

  function DeployerRequest(ctx: WorkerContext, sessionId: string): (request: JobRequest)
    ensures request.name == ctx.deployerJobResource
    // the execution is named after the session and carries no labels
    ensures request.executionSuffix == Some(sessionId) && request.labels.None?
    ensures request.env == [EnvVar("SESSION_ID", sessionId)]
  {
    JobRequest(ctx.deployerJobResource, Some(sessionId), None, EnvOf([("SESSION_ID", JsStr(sessionId))]))
  }

  /** The deployer container sees its session and nothing else. */
  lemma DeployerEnvSeenByJob(ctx: WorkerContext, sessionId: string, name: string)
    ensures EnvValue(DeployerRequest(ctx, sessionId).env, name) ==
              (if name == "SESSION_ID" then Some(sessionId) else None)
  {
    var env := DeployerRequest(ctx, sessionId).env;
    assert env[1..] == [];
  }

  /** Having no labels, a deployer execution is never found by a label search. */
  lemma DeployerExecutionNotDiscoverable(ctx: WorkerContext, sessionId: string, name: Option<string>, other: string)
    ensures !HasSessionLabel(Execution(name, DeployerRequest(ctx, sessionId).labels), other)
  {
  }

  /**
   * `trigger` is how the `runJob` call ended and `operation` how `operation.promise()`
   * ends. `during` is `activeJobs` while the operation runs; `polling` says whether the
   * log loop was started.
   */
  method RunDeployerJob(ctx: WorkerContext, sessionId: string, registry: ActiveJobs,
                        trigger: Outcome, operation: Outcome, now: int)
    returns (request: JobRequest, r: Outcome, polling: bool, ghost during: map<string, ActiveJob>)
    modifies registry
    ensures request == DeployerRequest(ctx, sessionId)
    // a failed trigger propagates and leaves `activeJobs` alone
    ensures trigger.Threw? ==> r == trigger && !polling && registry.jobs == old(registry.jobs)
    // while the operation runs the session has an entry without an execution id
    ensures trigger.Done? ==> polling && during == old(registry.jobs)[sessionId := ActiveJob(None, now, ctx.deployerJob)]
    // once it settles the entry is gone, whether it succeeded or failed, and its outcome propagates
    ensures trigger.Done? ==> r == operation && registry.jobs == old(registry.jobs) - {sessionId}
  {
    request := DeployerRequest(ctx, sessionId);
    during := registry.jobs;
    if trigger.Threw? {
      return request, trigger, false, during;
    }
    registry.jobs := registry.jobs[sessionId := ActiveJob(None, now, ctx.deployerJob)];
    during := registry.jobs;
    polling := true;
    // try { await operation.promise() } finally { activeJobs.delete(sessionId) }
    registry.jobs := registry.jobs - {sessionId};
    r := operation;
  }
}
