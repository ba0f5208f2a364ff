/**
 * `createWorkerContext`: the per-worker settings, with the fully qualified
 * resource names of the builder and deployer jobs.
 */
module Context {
  import opened Strings

  /** The configuration values the worker reads from its environment. */
  datatype Config = Config(port: string, projectId: string, region: string,
                           jobName: string, deployerJobName: string, bucketName: string)

  datatype WorkerContext = WorkerContext(port: string,
                                         builderJob: string, builderJobResource: string,
                                         deployerJob: string, deployerJobResource: string,
                                         requestBucket: string)

  predicate EndsWith(s: string, suffix: string)
  {
    |suffix| <= |s| && s[|s| - |suffix|..] == suffix
  }

  /** `projects/{project}/locations/{region}/jobs/{job}` */
  function JobResource(projectId: string, region: string, job: string): string
  {
    "projects/" + projectId + "/locations/" + region + "/jobs/" + job
  }

  function CreateWorkerContext(config: Config): (ctx: WorkerContext)
    // the plain settings are copied unchanged
    ensures ctx.port == config.port && ctx.builderJob == config.jobName
    ensures ctx.deployerJob == config.deployerJobName && ctx.requestBucket == config.bucketName
    // both resource names start with the project and location of the configuration
    ensures StartsWith(ctx.builderJobResource, "projects/" + config.projectId + "/locations/" + config.region + "/jobs/")
    ensures StartsWith(ctx.deployerJobResource, "projects/" + config.projectId + "/locations/" + config.region + "/jobs/")
    // and end with their own job's name
    ensures EndsWith(ctx.builderJobResource, "/jobs/" + config.jobName)
    ensures EndsWith(ctx.deployerJobResource, "/jobs/" + config.deployerJobName)
  {
    WorkerContext(config.port,
                  config.jobName, JobResource(config.projectId, config.region, config.jobName),
                  config.deployerJobName, JobResource(config.projectId, config.region, config.deployerJobName),
                  config.bucketName)
  }

  /** A resource name falls apart at its slashes into its six parts when no part holds a slash. */
  lemma JobResourceSegments(projectId: string, region: string, job: string)
    requires '/' !in projectId && '/' !in region && '/' !in job
    ensures Split(JobResource(projectId, region, job), '/') == ["projects", projectId, "locations", region, "jobs", job]
  {
    JobResourceNested(projectId, region, job);
    SixSegments("projects", projectId, "locations", region, "jobs", job);
  }

  /** Six slash-free parts joined one slash at a time split back into those parts. */
  lemma SixSegments(p0: string, p1: string, p2: string, p3: string, p4: string, p5: string)
    requires '/' !in p0 && '/' !in p1 && '/' !in p2 && '/' !in p3 && '/' !in p4 && '/' !in p5
    ensures Split(p0 + ['/'] + (p1 + ['/'] + (p2 + ['/'] + (p3 + ['/'] + (p4 + ['/'] + p5)))), '/')
            == [p0, p1, p2, p3, p4, p5]
  {
    var t3 := p3 + ['/'] + (p4 + ['/'] + p5);
    ThreeSegments(p3, p4, p5);
    ThreeBefore(p0, p1, p2, t3);
    assert [p0, p1, p2] + [p3, p4, p5] == [p0, p1, p2, p3, p4, p5];
  }

  /** Three slash-free parts in front of `rest` come out of the split first. */
  lemma ThreeBefore(p0: string, p1: string, p2: string, rest: string)
    requires '/' !in p0 && '/' !in p1 && '/' !in p2
    ensures Split(p0 + ['/'] + (p1 + ['/'] + (p2 + ['/'] + rest)), '/') == [p0, p1, p2] + Split(rest, '/')
  {
    var t2 := p2 + ['/'] + rest;
    SplitAfter(p2, rest);
    SplitAfter(p1, t2);
    SplitAfter(p0, p1 + ['/'] + t2);
    assert [p0] + ([p1] + ([p2] + Split(rest, '/'))) == [p0, p1, p2] + Split(rest, '/');
  }

  /** Three slash-free parts joined one slash at a time split back into those parts. */
  lemma ThreeSegments(p0: string, p1: string, p2: string)
    requires '/' !in p0 && '/' !in p1 && '/' !in p2
    ensures Split(p0 + ['/'] + (p1 + ['/'] + p2), '/') == [p0, p1, p2]
  {
    SplitAfter(p1, p2);
    SplitAfter(p0, p1 + ['/'] + p2);
  }

  /** The resource name, written as its parts joined one slash at a time. */
  lemma JobResourceNested(projectId: string, region: string, job: string)
    ensures JobResource(projectId, region, job) ==
              "projects" + ['/'] + (projectId + ['/'] + ("locations" + ['/'] + (region + ['/'] + ("jobs" + ['/'] + job))))
  {
  }

  /** Splitting `head/rest` where `head` holds no slash puts `head` first. */
  lemma SplitAfter(head: string, rest: string)
    requires '/' !in head
    ensures Split(head + ['/'] + rest, '/') == [head] + Split(rest, '/')
  {
    SplitAppend(head, rest, '/');
  }

  /** The last path segment of a job's resource name is the job's own name, when it holds no slash. */
  lemma JobResourceLastSegment(projectId: string, region: string, job: string)
    requires '/' !in job
    ensures LastSegment(JobResource(projectId, region, job), '/') == job
  {
    var prefix := "projects/" + projectId + "/locations/" + region + "/jobs";
    assert JobResource(projectId, region, job) == prefix + ['/'] + job;
    LastSegmentAfter(prefix, job, '/');
  }
}
