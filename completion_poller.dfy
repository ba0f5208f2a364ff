/**
 * `waitForExecutionCompletion`: poll an execution's status until it is no longer
 * RUNNING. Each poll reads the next condition list the backend reports for the
 * execution; sleeping is counted in milliseconds instead of performed.
 */
module CompletionPoller {
  import opened Common
  import opened ExecutionStatus

  const POLL_SLEEP_MS: nat := 5000

  /**
   * How the wait ends: it returns, it throws, or it is still polling when the
   * backend's reports run out (the source loop has no bound of its own).
   */
  datatype Completion = Returned | Failed(message: string) | StillPolling

  function FailureMessage(executionName: string): string
  {
    "Job execution failed: " + executionName
  }

  method WaitForExecutionCompletion(executionName: string, reports: seq<Option<seq<Condition>>>)
    returns (r: Completion, polls: nat, sleptMs: nat)
    ensures polls <= |reports|
    // every poll but the last one saw RUNNING; nothing after the last poll is read
    ensures forall j :: 0 <= j < polls - 1 ==> GetExecutionStatus(reports[j]) == RUNNING
    ensures r == Returned <==> polls >= 1 && GetExecutionStatus(reports[polls - 1]) == SUCCEEDED
    ensures r.Failed? <==> polls >= 1 && GetExecutionStatus(reports[polls - 1]) == FAILED
    ensures r.Failed? ==> r.message == FailureMessage(executionName)
    ensures r == StillPolling <==>
              polls == |reports| && forall j :: 0 <= j < |reports| ==> GetExecutionStatus(reports[j]) == RUNNING
    // one sleep after every RUNNING report
    ensures sleptMs == POLL_SLEEP_MS * (if r == StillPolling then polls else polls - 1)
  {
    polls, sleptMs := 0, 0;
    while polls < |reports|
      invariant polls <= |reports|
      invariant forall j :: 0 <= j < polls ==> GetExecutionStatus(reports[j]) == RUNNING
      invariant sleptMs == POLL_SLEEP_MS * polls
    {
      var status := GetExecutionStatus(reports[polls]);
      polls := polls + 1;
      if status == SUCCEEDED {
        return Returned, polls, sleptMs;
      }
      if status == FAILED {
        return Failed(FailureMessage(executionName)), polls, sleptMs;
      }
      sleptMs := sleptMs + POLL_SLEEP_MS;
    }
    r := StillPolling;
  }
}
