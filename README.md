# qwintly-wg-worker, modelled in Dafny

The worker takes website-generation requests from a Pub/Sub subscription. For each
chat session it runs a two-stage Cloud Run pipeline: a builder job, then a deployer
job. Log lines marked `STATUS` are streamed to the session's WebSocket subscribers.
This project models the decision logic around the cloud calls and proves properties
of it. Each external call is an input value: condition lists, execution listings, log
batches, the outcome of a job trigger, and the messages a socket delivers.

Modules, one per source file:

- `ExecutionStatus` (`service/helpers/executionStatus.ts`) classifies a condition list
  as RUNNING, SUCCEEDED or FAILED.
- `CompletionPoller` (`waitForExecutionCompletion.ts`) is the status poll loop.
- `ExecutionDiscovery` (`findExecution.ts`) finds an execution by its `sessionId` label,
  under a deadline.
- `WaitForJob` (`waitForJob.helper.ts`) runs discovery, then completion.
- `WebSocketService` (`websocket.service.ts`) holds the `sessionClients` registry.
  Sockets are objects.
- `Logger` (`utils/logger.ts`) covers the `activeJobs` registry, one tick of the log
  tailing loop, `sendLog`, `broadCastLog` and `broadcastToAll`.
- `Context` (`worker/workerContext.ts`) builds the job resource names.
- `JobsClient` holds the shape of the `runJob` requests both triggers build.
- `BuilderJob` and `DeployerJob` (`service/jobs/*.job.ts`) build the trigger requests
  and update `activeJobs`.
- `Effects` defines the effects a handler performs. `WorkerFlow` (`flow/worker.flow.ts`)
  and `PubSubService` (`pubsub.service.ts`) produce traces of those effects, given how
  each collaborator ends.
- `Timestamps` (`utils/normalizeTimeStamp.ts`) normalises log timestamps.
- `McpRouter` (legacy `index.ts`) covers tool-namespace routing, reply matching and the
  workflow loop.
- `Common` and `Strings` provide `Option`, `Result`, truthiness and the JavaScript string
  operations used above (`replace`, `split`, `pop`, `startsWith`).

Time is an integer clock in milliseconds. `sleep` is counted, not performed.

## Model

| member | source | states |
|---|---|---|
| ExecutionStatus.FindSucceeded | service/helpers/executionStatus.ts:19 | the index returned is the first condition of type "Succeeded"; none is returned only when no condition has that type |
| ExecutionStatus.GetExecutionStatus | service/helpers/executionStatus.ts:17-33 | SUCCEEDED iff the first "Succeeded" condition has state CONDITION_SUCCEEDED; FAILED iff it has CONDITION_FAILED; RUNNING when there is no such condition; a missing list reads as empty |
| ExecutionStatus.OnlyFirstSucceededCounts | service/helpers/executionStatus.ts:19 | two lists whose first "Succeeded" conditions are equal get the same status, whatever else they contain |
| ExecutionStatus.NoSucceededConditionIsRunning | service/helpers/executionStatus.ts:17-23 | a missing list, an empty list, or a list without a "Succeeded" condition gives RUNNING |
| CompletionPoller.WaitForExecutionCompletion | service/helpers/waitForExecutionCompletion.ts:7-17 | every poll before the last saw RUNNING; it returns iff the last poll saw SUCCEEDED; it throws "Job execution failed: <name>" iff the last poll saw FAILED; it is still polling only if every report was RUNNING; it sleeps 5000 ms after each RUNNING report |
| ExecutionDiscovery.FindBySession | service/helpers/findExecution.ts:27 | the index returned is the first execution whose `labels.sessionId` equals the session; none is returned only when no execution carries that label |
| ExecutionDiscovery.MatchedName | service/helpers/findExecution.ts:27-33 | a name is returned iff the first labelled execution has a non-empty name; it always belongs to an execution labelled with this session |
| ExecutionDiscovery.WaitForExecutionByLabel | service/helpers/findExecution.ts:16-42 | every listing starts before start + 240000 ms; attempts are 8000 ms apart plus the listing's own latency, so there are at most 30; earlier attempts matched nothing; Ok carries the first match of the last attempt; Err means the deadline passed, with the timeout message |
| ExecutionDiscovery.TimeoutMessageText | service/helpers/findExecution.ts:38-42 | the error text is "Execution not created within 240s for job <jobResource>" |
| WaitForJob.WaitForJob | service/helpers/waitForJob.helper.ts:11-15 | discovery lists until the 240 s deadline: every attempt starts before it, every attempt before the last matched nothing, and it fails only when the next attempt would start at or after the deadline; a discovery error propagates unchanged, with the timeout message, and nothing is polled; otherwise exactly the execution discovery found is polled, the first one labelled with this session in the last listing; every report before the last one read was RUNNING; the job returns iff that last report was SUCCEEDED, throws "Job execution failed: <name>" iff it was FAILED, and is still waiting iff every report was RUNNING |
| Strings.IndexOf | service/webSockets/websocket.service.ts:11 | the first position where the pattern occurs, or none when it does not occur |
| Strings.RemoveFirst | service/webSockets/websocket.service.ts:11 | `replace` with a string pattern removes only the first occurrence; with no occurrence the text is unchanged |
| WebSocketService.SessionIdOf | service/webSockets/websocket.service.ts:10-11 | a path without "/ws/" is used verbatim; otherwise the id is four characters shorter |
| WebSocketService.Socket.Close | service/webSockets/websocket.service.ts:13-16 | closing a socket leaves it not OPEN and sends it nothing |
| WebSocketService.SessionHub.constructor | service/webSockets/websocket.service.ts:4 | `sessionClients` starts empty, with disjoint sessions |
| WebSocketService.SessionIdOfWsPath | service/webSockets/websocket.service.ts:11 | the path "/ws/<id>" gives back exactly <id> |
| WebSocketService.SessionIdKeepsLaterPrefix | service/webSockets/websocket.service.ts:11 | only the first "/ws/" is removed: "/ws//ws/x" gives "/ws/x" |
| WebSocketService.EmptySessionIdPaths | service/webSockets/websocket.service.ts:11-16 | the session id is empty, and the socket is closed, exactly for the paths "" and "/ws/" |
| WebSocketService.SessionHub.Connect | service/webSockets/websocket.service.ts:9-21 | an empty id closes the socket and leaves the registry unchanged; otherwise the socket joins its session's set, which is created when absent; other sessions are untouched; joining twice changes nothing; sessions stay disjoint |
| WebSocketService.SessionHub.Disconnect | service/webSockets/websocket.service.ts:25-27 | only this socket leaves only its session's set; an emptied set stays in the registry; an unknown session is a no-op |
| Logger.ThroughFirstTerminal | utils/logger.ts:63-66 | the delivered messages are a prefix of the status messages; no terminal marker appears before the last one; the prefix ends with a marker iff there is one |
| Logger.ScanBatch | utils/logger.ts:39-67 | the scan of one batch; ScanDeliversStatusMessages states what it delivers and whether it stops; ScanCursorEnd, ScanCursorMonotone and ScanCursorAdvances state where the cursor ends |
| Logger.ScanDeliversStatusMessages | utils/logger.ts:39-67 | one batch delivers the status messages of this session in batch order, up to and including the first SUCCESS, ERROR or FAILED; the loop stops iff one was delivered; entries without a timestamp and other entries are skipped |
| Logger.ScanCursorEnd | utils/logger.ts:56-61 | for any batch, when nothing is delivered the cursor is unchanged and no entry qualified for delivery; otherwise the cursor is the timestamp of the last delivered entry plus 1 ms |
| Logger.ScanCursorMonotone | utils/logger.ts:30-61 | for an ascending batch newer than the cursor, the cursor never moves back; it stays put when nothing is delivered; it ends past every delivered timestamp, at a delivered timestamp plus 1 ms |
| Logger.ScanCursorAdvances | utils/logger.ts:30-61 | when the batch is strictly newer than the cursor, any delivery strictly advances the cursor |
| Logger.SendLog | utils/logger.ts:76-86 | every OPEN socket of the session receives the message once; closed sockets and sessions without a set receive nothing |
| Logger.BroadCastLog | utils/logger.ts:89-92 | the same delivery as sendLog |
| Logger.BroadcastToAll | utils/logger.ts:95-99 | every OPEN socket of every registered session receives the message exactly once |
| Logger.ActiveJobs.constructor | utils/logger.ts:10-13 | the registry starts empty |
| Logger.ActiveJobs.Tick | utils/logger.ts:15-70 | an absent session, or a failed log query, ends the loop with nothing changed; otherwise the session's sockets get the scan's messages; the session is removed on a terminal marker and nothing is rescheduled; otherwise the cursor is updated and the loop reschedules after 1000 ms |
| Timestamps.NormalizeTimestamp | utils/normalizeTimeStamp.ts:3-18 | a string is returned unchanged; a Date keeps its instant; with non-zero seconds and nanos the milliseconds are the instant truncated to the millisecond; otherwise the result is "" |
| Timestamps.Floor | utils/normalizeTimeStamp.ts:13 | `Math.floor` of a quotient: the greatest integer q with q * d <= n |
| Context.CreateWorkerContext | worker/workerContext.ts:12-21 | the job names, bucket and port are copied from the configuration; both resource names start with the project and location and end with "/jobs/<job>" |
| Context.JobResource | worker/workerContext.ts:16-18 | the job resource name; JobResourceSegments and JobResourceLastSegment state how it splits back into its parts |
| Context.JobResourceSegments | worker/workerContext.ts:16-18 | when no part contains "/", a resource name splits into exactly projects, project, locations, region, jobs, job |
| Context.JobResourceLastSegment | worker/workerContext.ts:16-18 | when a job name contains no "/", the last "/" segment of its resource name is that job name |
| Strings.Split | service/jobs/builder.job.ts:36 | `split` returns at least one piece; no piece contains the separator; there is one piece, equal to the text, iff the text has no separator |
| Strings.JoinSplit | service/jobs/builder.job.ts:36 | joining the pieces of a split gives back the text |
| Strings.SplitJoin | service/jobs/builder.job.ts:36 | splitting a join of separator-free pieces gives back the pieces |
| Strings.SplitAppend | service/jobs/builder.job.ts:36 | splitting around a separator splits each side separately |
| Strings.LastSegment | service/jobs/builder.job.ts:36 | `pop()` of the split contains no separator |
| Strings.LastSegmentIsSuffix | service/jobs/builder.job.ts:36 | the last segment is a suffix of the text: either the whole text or the part after a separator |
| Strings.LastSegmentAfter | service/jobs/builder.job.ts:36 | whatever comes before, the separator-free text after the last separator is the last segment |
| JobsClient.JsString | service/jobs/builder.job.ts:23 | `String(value)` for the parameter values used here: a string is itself and `undefined` is "undefined"; EnvOf and BuilderEnvSeenByJob state the env values it produces |
| JobsClient.EnvOf | service/jobs/builder.job.ts:21-24 | the env list has one entry per parameter, in order, each value passed through `String` |
| JobsClient.EnvValue | service/jobs/builder.job.ts:21-24 | a variable is found iff some entry has its name, and its value is that of the first such entry |
| BuilderJob.BuilderParams | service/jobs/builder.job.ts:6-10 | the three job parameters in declaration order; BuilderRequest and BuilderEnvSeenByJob state the env they become |
| BuilderJob.BuilderLabels | service/jobs/builder.job.ts:15-18 | the execution labels; BuilderRequest states them and BuilderExecutionIsDiscoverable states that discovery matches them for this session only |
| BuilderJob.BuilderRequest | service/jobs/builder.job.ts:6-28 | the request targets the builder resource with no execution suffix; the env is SESSION_ID, REQUEST_TYPE="new", GOOGLE_GENAI_API_KEY in that order, with an unset key becoming "undefined"; the labels are exactly sessionId = <session> and pipeline = "builder" |
| BuilderJob.BuilderEnvSeenByJob | service/jobs/builder.job.ts:6-24 | the container reads the session, "new" and the key, or "undefined" when the key is unset |
| BuilderJob.BuilderExecutionIsDiscoverable | service/jobs/builder.job.ts:13-18 | an execution carrying the builder request's labels matches discovery for its own session and for no other |
| BuilderJob.ExecutionIdOf | service/jobs/builder.job.ts:36 | the execution id contains no "/" and is a suffix of the execution name: the whole name, or the text after its last "/" |
| BuilderJob.ExecutionIdOfExecutionName | service/jobs/builder.job.ts:36 | the name "<job>/executions/<id>" gives the id <id> |
| BuilderJob.RunBuilderJob | service/jobs/builder.job.ts:5-51 | a failed trigger, or an execution without a name, throws, leaves activeJobs unchanged and starts no polling; otherwise only this session's entry is replaced with the execution id, now and the builder job name, and polling starts; it returns without waiting for the build |
| DeployerJob.DeployerRequest | service/jobs/deployer.job.ts:6-23 | the request targets the deployer resource with execution suffix = session id, no labels, and the env SESSION_ID only |
| DeployerJob.DeployerEnvSeenByJob | service/jobs/deployer.job.ts:6-19 | the container sees SESSION_ID and no other variable |
| DeployerJob.DeployerExecutionNotDiscoverable | service/jobs/deployer.job.ts:11-22 | a deployer execution carries no labels and is never found by a label search |
| DeployerJob.RunDeployerJob | service/jobs/deployer.job.ts:5-49 | a failed trigger propagates and leaves activeJobs unchanged; otherwise, while the operation runs, the entry has no execution id; once the operation settles the entry is deleted, success or failure, and its outcome propagates |
| Effects.LinesAppend | flow/worker.flow.ts:14-21 | the lines of a longer trace are the old lines followed by the new ones |
| Effects.TerminalCount | flow/worker.flow.ts:17-21 | the count is zero iff no line is "SUCCESS" or a failure report |
| Effects.Settlements | service/pubsub/pubsub.service.ts:45-55 | a trace settles its message zero times iff it contains neither `ack` nor `nack` |
| Effects.SettlementsAppend | service/pubsub/pubsub.service.ts:45-55 | the settlements of two trace pieces add up |
| Effects.Emit | flow/worker.flow.ts:14-21 | appending an effect extends the lines, the settlements, the session and the ordering facts accordingly |
| WorkerFlow.StartWorkerFlow | flow/worker.flow.ts:7-24 | local mode runs only the local builder, the flow itself broadcasts no line, and the local builder's error propagates; otherwise the builder runs first, errors are never rethrown, the deployer runs iff the builder returned and only after the hand-over line, and the lines are the run's report |
| WorkerFlow.PipelineLines | flow/worker.flow.ts:14-21 | the lines a run reports; PipelineReportsOneResult states that there is exactly one result, last, and which |
| WorkerFlow.PipelineTrace | flow/worker.flow.ts:11-22 | the effects of the `try`/`catch` block; RunPipeline performs them, and PipelineTraceOrder and PipelineTraceLines state their order and lines |
| WorkerFlow.RunPipeline | flow/worker.flow.ts:11-22 | the `try`/`catch` block performs exactly the effects of PipelineTrace |
| WorkerFlow.PipelineTraceOrder | flow/worker.flow.ts:11-22 | the trace starts with the builder and never runs the local builder; the deployer runs iff the builder returned, and only after the hand-over line; every line goes to this session |
| WorkerFlow.PipelineTraceLines | flow/worker.flow.ts:14-21 | the lines broadcast to the session are exactly those of PipelineLines |
| WorkerFlow.PipelineReportsOneResult | flow/worker.flow.ts:14-21 | a run reports exactly one result, as its last line; "SUCCESS" appears iff both stages returned; otherwise the last line is "Pipeline failed: " with the failing stage's message |
| WorkerFlow.ProgressLinesNotTerminal | flow/worker.flow.ts:14-18 | the two progress lines are not results; "SUCCESS" is |
| WorkerFlow.FailedLineIsTerminal | flow/worker.flow.ts:20-21 | every failure report is a result and differs from "SUCCESS" |
| PubSubService.RequestPath | service/pubsub/pubsub.service.ts:31 | the object the request is saved to, `requests/<id>.json`; SessionAnnounces states that the save targets it |
| PubSubService.StageEffects | service/pubsub/pubsub.service.ts:38-43 | the stages that run after the save; SessionStages states which run and in what order |
| PubSubService.Settle | service/pubsub/pubsub.service.ts:44-55 | ack, or report the error and nack; SessionSettlesOnce states that a message is settled exactly once, by its last effect |
| PubSubService.SessionTrace | service/pubsub/pubsub.service.ts:27-56 | every effect of a valid message; SessionSettlesOnce, SessionAnnounces, SessionReports and SessionStages state its properties |
| PubSubService.FirstError | service/pubsub/pubsub.service.ts:34-45 | there is no error iff the save and every stage that runs returned; otherwise the error of the first step that threw: the save, then the local builder in local mode, or the builder and then the deployer |
| PubSubService.HandleMessage | service/pubsub/pubsub.service.ts:19-57 | a body that does not parse, or `null`, throws again in the catch block: nothing is broadcast, nothing is settled; a missing or falsy chatId ("", 0, false, null) is reported to "" and nacked; a valid message follows SessionTrace and is settled exactly once |
| PubSubService.HandleSession | service/pubsub/pubsub.service.ts:27-56 | the effects of a valid message are exactly SessionTrace |
| PubSubService.SessionSettlesOnce | service/pubsub/pubsub.service.ts:44-56 | a valid message is settled exactly once, by its last effect; it is acked iff every step returned; otherwise "PubSub error: <first error>" comes right before the nack |
| PubSubService.SessionAnnounces | service/pubsub/pubsub.service.ts:27-34 | "Initializing session" comes first and the save to `requests/<id>.json` in the request bucket comes second; every line goes to this session |
| PubSubService.SessionReports | service/pubsub/pubsub.service.ts:27-53 | the session's lines are "Initializing session", followed by the error report only when a step threw |
| PubSubService.SessionStages | service/pubsub/pubsub.service.ts:38-43 | the local builder runs iff local mode and the save returned; the builder job runs iff not local and the save returned; the deployer runs iff the builder also returned, and only after it |
| PubSubService.OnSubscriptionError | service/pubsub/pubsub.service.ts:59-62 | every OPEN socket receives "SUBSCRIPTION ERROR: <err>" once |
| PubSubService.OnSubscriptionClose | service/pubsub/pubsub.service.ts:64-67 | every OPEN socket receives "SUBSCRIPTION CLOSED" once |
| McpRouter.SelectServer | index.ts:42-44 | names starting with "builder." go to the builder; other names starting with "github." go to GitHub; every other name throws "Unknown tool namespace: <name>" |
| McpRouter.StripNamespace | index.ts:46 | the clean name is a suffix of the tool name; a name in neither namespace is unchanged |
| McpRouter.RouteMCPCall | index.ts:39-55 | an unknown namespace throws before anything is sent; otherwise the request is id "mcp-<nonce>", method "mcp.call", the stripped tool and the args |
| McpRouter.RouteRoundTrip | index.ts:42-46 | the server's namespace followed by the clean tool name gives back the tool name |
| McpRouter.RouteNamespaced | index.ts:42-46 | "<namespace><tool>" reaches that namespace's server as <tool> |
| McpRouter.RouteStripsOnce | index.ts:46 | "builder.github.x" reaches the builder as "github.x" |
| McpRouter.SettlingIndex | index.ts:27-33 | the first message that does not parse or whose id equals the request id; every earlier message parsed with another id |
| McpRouter.SettledStaysSettled | index.ts:27-33 | messages after the settling one change nothing |
| McpRouter.SettleOf | index.ts:27-33 | how the reply promise of a request settles; SettlingIndex and SettledStaysSettled state which message settles it and that later messages change nothing |
| McpRouter.WsRequest | index.ts:22-36 | the promise settles as SettleOf says; a resolved reply carries the request's id and is the last message read |
| McpRouter.SentBy | index.ts:133-138 | a request is sent iff the part has no truthy text and a function call to a known namespace, and it is the routed request for that call |
| McpRouter.TurnStep | index.ts:119-155 | the decision of one round; TurnDecision states it case by case |
| McpRouter.TurnDecision | index.ts:119-155 | truthy text ends the loop with that text; a missing part throws; an unknown namespace throws without sending; a known namespace sends the request, and the loop goes on once its reply resolves; the loop goes on only after the tool's reply arrived, or when the part had neither text nor a call |
| McpRouter.FinishedByFirstText | index.ts:119-130 | the returned text is the truthy text of the first round that stops the loop; every earlier round went on |
| McpRouter.RequestsAreRouted | index.ts:39-58 | every request sent is an "mcp.call" with an "mcp-" id, for a tool the model named as the server's namespace followed by the tool |
| McpRouter.RunTurn | index.ts:119-154 | one pass of the loop body decides as TurnStep and sends as SentBy |
| McpRouter.AdvanceRound | index.ts:119-154 | one iteration either ends the loop with its final result and every request it sent, or leaves the rest of the loop to the remaining rounds |
| McpRouter.WorkflowOf | index.ts:119-155 | how the loop ends over the given rounds; FinishedByFirstText states which round ends it and with what text |
| McpRouter.RequestsOf | index.ts:119-155 | the requests the loop sends, in order; RequestsAreRouted states that each is a routed "mcp.call" |
| McpRouter.RunLLMWorkflow | index.ts:119-155 | the loop ends as WorkflowOf says and sends exactly RequestsOf, in order |

## Left out

- Network clients are not modelled: Cloud Run, Cloud Logging, Pub/Sub, Cloud Storage and the model SDK. What they return is an input sequence or an input outcome.
- `maxResults: 2` on the execution listing and `pageSize: 50` on the log query are not modelled. A listing or a batch is whatever the input holds.
- `spawnLocalBuilder.ts` is a single opaque effect (`RunLocalBuilder`) with an input outcome. Its streaming of child-process output is not part of this model.
- `infra/gcs/*` is not part of this model. The save is a single effect carrying bucket and path, with an input outcome.
- `config/env.ts`, `config/jobsClient.config.ts` and `worker/worker.ts` are not part of this model. Configuration values are parameters.
- Concurrency between the log loop, the job flow and the socket handlers is not modelled. `pollLogs` is not awaited, so the model records only whether polling was started.
- `console.log` output is not modelled.
- Logger.ActiveJobs.Tick: timestamps are integer milliseconds. The ISO round trip through `normalizeTimestamp` and `new Date` is abstracted. So an entry whose timestamp normalises to "" is not modelled; in the source, `new Date("")` is invalid and `toISOString` throws.
- Logger.ActiveJobs.Tick: the query filter (`timestamp > lastTimestamp`, the job name) is applied by the backend, so it is part of the input batch. The ascending order appears only as a requirement of ScanCursorMonotone.
- Timestamps.NormalizeTimestamp: ISO-8601 rendering is abstracted as `IsoOf(milliseconds)`. Number conversion of `Long` seconds is not modelled: seconds are a number here, so zero seconds is falsy. In the source a protobuf `Long` or a string seconds value is an object or non-empty string, truthy even when it is zero.
- CompletionPoller.WaitForExecutionCompletion and ExecutionDiscovery.WaitForExecutionByLabel: a failed status fetch or listing is not modelled. In the source it throws out of the loop.
- BuilderJob.RunBuilderJob: the execution id is recorded for an execution name of any shape. The source's non-null assertions on `name` and `pop()` are modelled only for an absent name.
- PubSubService.HandleMessage: a truthy non-string `chatId` (a number, `true`, an object) is represented by its string form. In the source that value itself is the session key: `requests/<id>.json` gets its string form, but `sessionClients` is keyed by the string taken from the socket path, so the session's broadcasts reach no socket. In the model they reach the sockets of the session with that string id. Falsy non-string values (0, false, null) are modelled: they take the missing-session path.
- PubSubService.HandleMessage: the builder and deployer that this file imports (`../runJobs/...`) are not in the source, so they are abstract outcomes.
- PubSubService.HandleMessage: `Error` instances and other thrown values are not told apart. Every stage error carries a message.
- McpRouter: the model session, `connectWebSocket`, the docker spawn and the legacy `startWorker` handler are not modelled. The model's tool results fed back to the session are not modelled either.
- McpRouter.WsRequest: handlers that stay registered after the promise settles are not modelled. They have no effect on the settled promise.

## Code and design documentation

This model follows the code where the repository's design description says otherwise:

- A failed log query (`getEntries` at utils/logger.ts:33) ends the tailing loop. The design describes it as retried on the next tick. `Logger.ActiveJobs.Tick` returns no next delay for a failed query.
- A message body that is not valid JSON, or that is `null`, is neither acked nor nacked. The catch block parses the body again and reads its `chatId` (service/pubsub/pubsub.service.ts:51). For invalid JSON that parse throws; for `null` the parse succeeds and reading `.chatId` of `null` throws. The design says such messages are nacked.
- `startWorkerFlow` does not wait for the build to finish. `runBuilderJob` returns right after the trigger and the start of log polling (service/jobs/builder.job.ts:34-50), and `waitForJob` is not called. The design describes each stage as discovered and awaited.
- The deployer request carries no `sessionId` label (service/jobs/deployer.job.ts:11-14). The design says every trigger attaches one.
- The discovery deadline is 240 s (`MAX_DISCOVERY_MS`, service/helpers/findExecution.ts:6). The comment at service/helpers/findExecution.ts:16 says 5 minutes.
