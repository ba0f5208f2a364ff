/**
 * `startWorkerFlow`: run the local builder in local mode; otherwise run the
 * builder job, then the deployer job, reporting progress and the final result
 * to the session's subscribers.
 */
module WorkerFlow {
  import opened Common
  import opened Effects

  const BUILDER_DONE: string := "Builder completed. Starting deployer job"
  const DEPLOYED: string := "Deployment successful"
  const SUCCESS: string := "SUCCESS"

  /**
   * `local`, `builder` and `deployer` are how the local builder and the two job stages
   * end when they run. `r` is how the flow itself ends.
   */
  method StartWorkerFlow(sessionId: string, localMode: bool, local: Outcome, builder: Outcome, deployer: Outcome)
    returns (trace: seq<Effect>, r: Outcome)
    // local mode: only the local builder runs, the flow itself broadcasts no line, and its error propagates
    ensures localMode ==> trace == [RunLocalBuilder(sessionId)] && r == local
    ensures RunsLocalBuilder(trace) <==> localMode
    // otherwise stage errors are reported, never rethrown
    ensures !localMode ==> r == Done && trace != [] && trace[0] == RunBuilder(sessionId) && !RunsLocalBuilder(trace)
    // the deployer runs exactly when the builder returned, and after the hand-over line
    ensures RunDeployer(sessionId) in trace <==> !localMode && builder.Done?
    ensures OnlyAfter(trace, Broadcast(sessionId, BUILDER_DONE), RunDeployer(sessionId))
    ensures OnlyTo(trace, sessionId)
    ensures localMode ==> Lines(trace, sessionId) == []
    ensures !localMode ==> Lines(trace, sessionId) == PipelineLines(builder, deployer)
  {
    if localMode {
      trace := Emit([], RunLocalBuilder(sessionId));
      return trace, local;
    }
    trace := RunPipeline(sessionId, builder, deployer);
    PipelineTraceOrder(sessionId, builder, deployer);
    PipelineTraceLines(sessionId, builder, deployer);
    r := Done;
  }

  /** The lines a pipeline run reports, given how its two stages end. */
  function PipelineLines(builder: Outcome, deployer: Outcome): seq<string>
  {
    if builder.Threw? then [FAILED_PREFIX + builder.message]
    else [BUILDER_DONE] + (if deployer.Threw? then [FAILED_PREFIX + deployer.message] else [DEPLOYED, SUCCESS])
  }

  /**
   * A run reports exactly one result, as its last line; the result is "SUCCESS" exactly
   * when both stages returned, and otherwise the failing stage's error.
   */
  lemma PipelineReportsOneResult(builder: Outcome, deployer: Outcome)
    ensures var lines := PipelineLines(builder, deployer);
            && TerminalCount(lines) == 1 && lines != [] && IsTerminalLine(lines[|lines| - 1])
            && (SUCCESS in lines <==> builder.Done? && deployer.Done?)
            && (lines[|lines| - 1] == SUCCESS <==> builder.Done? && deployer.Done?)
            && (builder.Threw? ==> lines[|lines| - 1] == FAILED_PREFIX + builder.message)
            && (builder.Done? && deployer.Threw? ==> lines[|lines| - 1] == FAILED_PREFIX + deployer.message)
  {
    ProgressLinesNotTerminal();
    if builder.Threw? {
      FailedLineIsTerminal(builder.message);
    } else if deployer.Threw? {
      FailedLineIsTerminal(deployer.message);
      TerminalCountAppend([BUILDER_DONE], [FAILED_PREFIX + deployer.message]);
      assert BUILDER_DONE != SUCCESS;
    } else {
      TerminalCountAppend([BUILDER_DONE], [DEPLOYED, SUCCESS]);
      TerminalCountAppend([DEPLOYED], [SUCCESS]);
    }
  }

  /** The effects of the `try`/`catch` block of the flow, given how its two stages end. */
  function PipelineTrace(sessionId: string, builder: Outcome, deployer: Outcome): seq<Effect>
  {
    if builder.Threw? then [RunBuilder(sessionId), Broadcast(sessionId, FAILED_PREFIX + builder.message)]
    else
      [RunBuilder(sessionId), Broadcast(sessionId, BUILDER_DONE), RunDeployer(sessionId)]
      + (if deployer.Threw? then [Broadcast(sessionId, FAILED_PREFIX + deployer.message)]
         else [Broadcast(sessionId, DEPLOYED), Broadcast(sessionId, SUCCESS)])
  }

  /** The `try`/`catch` block of the flow: both job stages and their reports. */
  method RunPipeline(sessionId: string, builder: Outcome, deployer: Outcome) returns (trace: seq<Effect>)
    ensures trace == PipelineTrace(sessionId, builder, deployer)
  {
    trace := [RunBuilder(sessionId)];
    if builder.Threw? {
      trace := trace + [Broadcast(sessionId, FAILED_PREFIX + builder.message)];
      return trace;
    }
    trace := trace + [Broadcast(sessionId, BUILDER_DONE)];
    trace := trace + [RunDeployer(sessionId)];
    if deployer.Threw? {
      trace := trace + [Broadcast(sessionId, FAILED_PREFIX + deployer.message)];
      return trace;
    }
    trace := trace + [Broadcast(sessionId, DEPLOYED)];
    trace := trace + [Broadcast(sessionId, SUCCESS)];
  }

  /**
   * A pipeline run starts with the builder, runs the deployer exactly when the
   * builder returned and only after the hand-over line, and talks only to its session.
   */
  lemma PipelineTraceOrder(sessionId: string, builder: Outcome, deployer: Outcome)
    ensures var trace := PipelineTrace(sessionId, builder, deployer);
            && trace != [] && trace[0] == RunBuilder(sessionId) && !RunsLocalBuilder(trace)
            && (RunDeployer(sessionId) in trace <==> builder.Done?)
            && OnlyAfter(trace, Broadcast(sessionId, BUILDER_DONE), RunDeployer(sessionId))
            && OnlyTo(trace, sessionId)
  {
    var trace := PipelineTrace(sessionId, builder, deployer);
    if builder.Done? {
      assert trace[2] == RunDeployer(sessionId);
      assert trace[..2][1] == Broadcast(sessionId, BUILDER_DONE);
    }
  }

  /** The lines a pipeline run broadcasts to its session are exactly its report. */
  lemma PipelineTraceLines(sessionId: string, builder: Outcome, deployer: Outcome)
    ensures Lines(PipelineTrace(sessionId, builder, deployer), sessionId) == PipelineLines(builder, deployer)
  {
    if builder.Threw? {
      var failed := Broadcast(sessionId, FAILED_PREFIX + builder.message);
      LinesCons(RunBuilder(sessionId), [failed], sessionId);
      LinesOfOne(failed, sessionId);
    } else {
      var tail := if deployer.Threw? then [Broadcast(sessionId, FAILED_PREFIX + deployer.message)]
                  else [Broadcast(sessionId, DEPLOYED), Broadcast(sessionId, SUCCESS)];
      DeployerReportLines(sessionId, deployer);
      LinesCons(RunDeployer(sessionId), tail, sessionId);
      LinesCons(Broadcast(sessionId, BUILDER_DONE), [RunDeployer(sessionId)] + tail, sessionId);
      LinesCons(RunBuilder(sessionId), [Broadcast(sessionId, BUILDER_DONE)] + ([RunDeployer(sessionId)] + tail), sessionId);
      assert PipelineTrace(sessionId, builder, deployer)
             == [RunBuilder(sessionId)] + ([Broadcast(sessionId, BUILDER_DONE)] + ([RunDeployer(sessionId)] + tail));
    }
  }

  /** The lines reported once the deployer stage has ended. */
  lemma DeployerReportLines(sessionId: string, deployer: Outcome)
    ensures var tail := if deployer.Threw? then [Broadcast(sessionId, FAILED_PREFIX + deployer.message)]
                        else [Broadcast(sessionId, DEPLOYED), Broadcast(sessionId, SUCCESS)];
            Lines(tail, sessionId) == if deployer.Threw? then [FAILED_PREFIX + deployer.message] else [DEPLOYED, SUCCESS]
  {
    if deployer.Threw? {
      LinesOfOne(Broadcast(sessionId, FAILED_PREFIX + deployer.message), sessionId);
    } else {
      LinesCons(Broadcast(sessionId, DEPLOYED), [Broadcast(sessionId, SUCCESS)], sessionId);
      LinesOfOne(Broadcast(sessionId, SUCCESS), sessionId);
    }
  }

  /** The progress lines do not end a run; the success marker does. */
  lemma ProgressLinesNotTerminal()
    ensures TerminalCount([BUILDER_DONE]) == 0 && TerminalCount([DEPLOYED]) == 0
    ensures TerminalCount([SUCCESS]) == 1 && IsTerminalLine(SUCCESS)
  {
    assert BUILDER_DONE[..|FAILED_PREFIX|] != FAILED_PREFIX by { assert BUILDER_DONE[0] != FAILED_PREFIX[0]; }
    assert DEPLOYED[..|FAILED_PREFIX|] != FAILED_PREFIX by { assert DEPLOYED[0] != FAILED_PREFIX[0]; }
  }

  /** A failure report is a terminal line, whatever the error's message. */
  lemma FailedLineIsTerminal(message: string)
    ensures IsTerminalLine(FAILED_PREFIX + message)
    ensures SUCCESS != FAILED_PREFIX + message
  {
    assert (FAILED_PREFIX + message)[..|FAILED_PREFIX|] == FAILED_PREFIX;
  }
}
