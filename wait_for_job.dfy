/**
 * `waitForJob`: discover a session's execution of a job, then wait for that
 * execution to complete.
 */
module WaitForJob {
  import opened Common
  import opened ExecutionStatus
  import opened ExecutionDiscovery
  import opened CompletionPoller

  /** How `waitForJob` ends: it returns, it throws, or it is still waiting for the execution. */
  datatype JobWait = JobReturned | JobThrew(message: string) | JobStillRunning

  /**
   * `reportsOf(name)` is the sequence of condition lists the backend reports
   * for the execution called `name`. `polled` is the execution whose status was
   * polled, if any.
   */
  method WaitForJob(jobResource: string, sessionId: string, start: int, listings: seq<Listing>,
                    reportsOf: string -> seq<Option<seq<Condition>>>)
    returns (r: JobWait, polled: Option<string>, found: Result<string>, attempts: nat, polls: nat)
    // `found` and `attempts` are what discovery returned
    ensures 1 <= attempts <= MAX_DISCOVERY_MS / DISCOVERY_INTERVAL_MS
    // discovery keeps listing until the deadline: every attempt started before it, and
    // every attempt before the last matched nothing
    ensures forall k: nat :: k < attempts ==> AttemptStart(start, listings, k) < start + MAX_DISCOVERY_MS
    ensures forall k: nat :: k < attempts - 1 ==> MatchedName(ListingAt(listings, k).executions, sessionId).None?
    ensures found.Err? <==> MatchedName(ListingAt(listings, attempts - 1).executions, sessionId).None?
    // it gives up only when the next attempt would start at or after the deadline
    ensures found.Err? ==> AttemptStart(start, listings, attempts) >= start + MAX_DISCOVERY_MS
    // a discovery failure propagates unchanged and no status is polled
    ensures found.Err? ==> polled.None? && polls == 0 && r == JobThrew(found.message)
    ensures found.Err? ==> found.message == TimeoutMessage(jobResource)
    // otherwise the execution discovery found is the one polled
    ensures found.Ok? ==> polled == Some(found.value)
    // the execution polled is the first one labelled with this session in the last listing
    ensures polled.Some? ==> MatchedName(ListingAt(listings, attempts - 1).executions, sessionId) == polled
    ensures !r.JobThrew? ==> polled.Some?
    // `polls` reports of the polled execution were read; all but the last were RUNNING
    ensures polled.Some? ==> polls <= |reportsOf(polled.value)|
    ensures polled.Some? ==> forall j :: 0 <= j < polls - 1 ==> GetExecutionStatus(reportsOf(polled.value)[j]) == RUNNING
    // the job returns exactly when the last report read was SUCCEEDED
    ensures polled.Some? ==>
              (r == JobReturned <==> polls >= 1 && GetExecutionStatus(reportsOf(polled.value)[polls - 1]) == SUCCEEDED)
    // and throws exactly when it was FAILED, naming the execution
    ensures polled.Some? ==>
              (r.JobThrew? <==> polls >= 1 && GetExecutionStatus(reportsOf(polled.value)[polls - 1]) == FAILED)
    ensures polled.Some? && r.JobThrew? ==> r.message == FailureMessage(polled.value)
    // it is still waiting only when every report was RUNNING
    ensures polled.Some? ==>
              (r == JobStillRunning <==>
                 polls == |reportsOf(polled.value)| &&
                 forall j :: 0 <= j < polls ==> GetExecutionStatus(reportsOf(polled.value)[j]) == RUNNING)
  {
    found, attempts := WaitForExecutionByLabel(jobResource, sessionId, start, listings);
    if found.Err? {
      return JobThrew(found.message), None, found, attempts, 0;
    }
    polled := Some(found.value);
    var completion, slept;
    completion, polls, slept := WaitForExecutionCompletion(found.value, reportsOf(found.value));
    match completion
    case Returned => r := JobReturned;
    case Failed(message) => r := JobThrew(message);
    case StillPolling => r := JobStillRunning;
  }
}
