/**
 * The Pub/Sub listener: the per-message handler (validate the session id, save
 * the request, run the stages, then ack or nack) and the subscription's error
 * and close handlers.
 */
module PubSubService {
  import opened Common
  import opened Effects
  import opened Context
  import opened WebSocketService
  import opened Logger

  /**
   * What `JSON.parse` made of a message body: `null`, or any other value together with
   * its `chatId` property (absent for a primitive or an object without one). A body
   * that does not parse is `None` where this type is used.
   */
  datatype Json = JNull | JValue(chatId: Option<Scalar>)

  /**
   * A `chatId` property: a string, or another JSON value (a number, a boolean, an
   * object, an array) given by its truthiness and its string form.
   */
  datatype Scalar = Text(s: string) | NonText(truthy: bool, shown: string)

  /** `!!chatId`: a missing property, "", 0, false or a JSON `null` are falsy. */
  predicate TruthyChatId(chatId: Option<Scalar>)
  {
    chatId.Some? && match chatId.value
                    case Text(s) => s != ""
                    case NonText(truthy, _) => truthy
  }

  /** The session id a truthy `chatId` stands for. */
  function ChatSessionId(chatId: Scalar): string
  {
    match chatId
    case Text(s) => s
    case NonText(_, shown) => shown
  }

  const INITIALIZING: string := "Initializing session"
  const ERROR_PREFIX: string := "PubSub error: "
  const MISSING_SESSION: string := "Missing sessionId in payload"

  /** `requests/{sessionId}.json` */
  function RequestPath(sessionId: string): string
  {
    "requests/" + sessionId + ".json"
  }

  /** `(chatId as string) || ""`: where the catch block sends its report. */
  function ErrorTarget(chatId: Option<Scalar>): string
  {
    if TruthyChatId(chatId) then ChatSessionId(chatId.value) else ""
  }

  /** Every step of a valid message returned normally. */
  predicate AllStepsDone(localMode: bool, save: Outcome, local: Outcome, builder: Outcome, deployer: Outcome)
  {
    save.Done? && (if localMode then local.Done? else builder.Done? && deployer.Done?)
  }

  /** The error of the first step that threw, in the order the steps run. */
  function FirstError(localMode: bool, save: Outcome, local: Outcome, builder: Outcome, deployer: Outcome)
    : (r: Option<string>)
    ensures r.None? <==> AllStepsDone(localMode, save, local, builder, deployer)
    ensures save.Threw? ==> r == Some(save.message)
    ensures save.Done? && localMode && local.Threw? ==> r == Some(local.message)
    ensures save.Done? && !localMode && builder.Threw? ==> r == Some(builder.message)
    ensures save.Done? && !localMode && builder.Done? && deployer.Threw? ==> r == Some(deployer.message)
  {
    if save.Threw? then Some(save.message)
    else if localMode then (if local.Threw? then Some(local.message) else None)
    else if builder.Threw? then Some(builder.message)
    else if deployer.Threw? then Some(deployer.message)
    else None
  }

  /**
   * The "message" handler for a message whose body parsed to `parsed`. `save`, `local`,
   * `builder` and `deployer` are how those steps end when they run. `rejected` says the
   * handler itself threw, so the message is left unsettled.
   */
  method HandleMessage(ctx: WorkerContext, parsed: Option<Json>, localMode: bool,
                       save: Outcome, local: Outcome, builder: Outcome, deployer: Outcome)
    returns (trace: seq<Effect>, rejected: bool)
    // a body that does not parse, or `null`, makes the catch block's own parse or
    // property read throw: nothing is broadcast and the message is neither acked nor nacked
    ensures rejected <==> parsed.None? || parsed == Some(JNull)
    ensures rejected ==> trace == [] && Settlements(trace) == 0
    // otherwise the message is settled exactly once, by the last effect
    ensures !rejected ==> Settlements(trace) == 1 && trace != [] && IsSettlement(trace[|trace| - 1])
    // a missing or falsy chatId ("", 0, false, null) is reported to "" and nacked before
    // anything else happens
    ensures parsed.Some? && parsed.value.JValue? && !TruthyChatId(parsed.value.chatId) ==>
              trace == [Broadcast("", ERROR_PREFIX + MISSING_SESSION), Nack]
    // a valid message is handled for its session
    ensures parsed.Some? && parsed.value.JValue? && TruthyChatId(parsed.value.chatId) ==>
              trace == SessionTrace(ctx, ChatSessionId(parsed.value.chatId.value), localMode, save, local, builder, deployer)
  {
    if parsed.None? || parsed.value.JNull? {
      return [], true;
    }
    rejected := false;
    var chatId := parsed.value.chatId;
    if !TruthyChatId(chatId) {
      trace := Emit([], Broadcast(ErrorTarget(chatId), ERROR_PREFIX + MISSING_SESSION));
      trace := Emit(trace, Nack);
      return;
    }
    var sessionId := ChatSessionId(chatId.value);
    trace := HandleSession(ctx, sessionId, localMode, save, local, builder, deployer);
    SessionSettlesOnce(ctx, sessionId, localMode, save, local, builder, deployer);
  }

  /** The stages a valid message runs once its request is saved. */
  function StageEffects(sessionId: string, localMode: bool, save: Outcome, builder: Outcome): seq<Effect>
  {
    if save.Threw? then []
    else if localMode then [RunLocalBuilder(sessionId)]
    else if builder.Threw? then [RunBuilder(sessionId)]
    else [RunBuilder(sessionId), RunDeployer(sessionId)]
  }

  /** How the handler settles a message: ack, or report the error and nack. */
  function Settle(sessionId: string, failure: Option<string>): seq<Effect>
  {
    if failure.None? then [Ack] else [Broadcast(sessionId, ERROR_PREFIX + failure.value), Nack]
  }

  /** Every effect of a message whose session id is valid, in order. */
  function SessionTrace(ctx: WorkerContext, sessionId: string, localMode: bool,
                        save: Outcome, local: Outcome, builder: Outcome, deployer: Outcome): seq<Effect>
  {
    [Broadcast(sessionId, INITIALIZING), SavePayload(ctx.requestBucket, RequestPath(sessionId))]
    + StageEffects(sessionId, localMode, save, builder)
    + Settle(sessionId, FirstError(localMode, save, local, builder, deployer))
  }

  /**
   * A valid message is settled exactly once, by its last effect: acked exactly when every
   * step returned normally, and otherwise nacked right after the first error is reported.
   */
  lemma SessionSettlesOnce(ctx: WorkerContext, sessionId: string, localMode: bool,
                           save: Outcome, local: Outcome, builder: Outcome, deployer: Outcome)
    ensures var trace := SessionTrace(ctx, sessionId, localMode, save, local, builder, deployer);
            var failure := FirstError(localMode, save, local, builder, deployer);
            && |trace| >= 3 && Settlements(trace) == 1 && IsSettlement(trace[|trace| - 1])
            && (trace[|trace| - 1] == Ack <==> AllStepsDone(localMode, save, local, builder, deployer))
            && (failure.Some? ==> trace[|trace| - 2..] == [Broadcast(sessionId, ERROR_PREFIX + failure.value), Nack])
  {
    var head := [Broadcast(sessionId, INITIALIZING), SavePayload(ctx.requestBucket, RequestPath(sessionId))]
                + StageEffects(sessionId, localMode, save, builder);
    var tail := Settle(sessionId, FirstError(localMode, save, local, builder, deployer));
    assert Settlements(head) == 0;
    SettlementsAppend(head, tail);
    assert Settlements(tail) == 1 by {
      if |tail| == 2 {
        assert tail[1..][1..] == [];
      }
    }
  }

  /** A valid message announces its session first, saves its request second, and reports only to its session. */
  lemma SessionAnnounces(ctx: WorkerContext, sessionId: string, localMode: bool,
                         save: Outcome, local: Outcome, builder: Outcome, deployer: Outcome)
    ensures var trace := SessionTrace(ctx, sessionId, localMode, save, local, builder, deployer);
            && trace[0] == Broadcast(sessionId, INITIALIZING)
            && trace[1] == SavePayload(ctx.requestBucket, RequestPath(sessionId))
            && OnlyTo(trace, sessionId)
  {
  }

  /** The lines a valid message shows its session: the announcement, then the first error if a step threw. */
  lemma SessionReports(ctx: WorkerContext, sessionId: string, localMode: bool,
                       save: Outcome, local: Outcome, builder: Outcome, deployer: Outcome)
    ensures var trace := SessionTrace(ctx, sessionId, localMode, save, local, builder, deployer);
            var failure := FirstError(localMode, save, local, builder, deployer);
            Lines(trace, sessionId) == [INITIALIZING] + (if failure.Some? then [ERROR_PREFIX + failure.value] else [])
  {
    var failure := FirstError(localMode, save, local, builder, deployer);
    var announce := [Broadcast(sessionId, INITIALIZING), SavePayload(ctx.requestBucket, RequestPath(sessionId))];
    var stages := StageEffects(sessionId, localMode, save, builder);
    LinesAppend(announce + stages, Settle(sessionId, failure), sessionId);
    LinesAppend(announce, stages, sessionId);
    AnnouncementLines(ctx, sessionId);
    StageLines(sessionId, localMode, save, builder);
    SettleLines(sessionId, failure);
  }

  /** The announcement and the save show the session one line. */
  lemma AnnouncementLines(ctx: WorkerContext, sessionId: string)
    ensures Lines([Broadcast(sessionId, INITIALIZING), SavePayload(ctx.requestBucket, RequestPath(sessionId))], sessionId)
            == [INITIALIZING]
  {
    var saving := SavePayload(ctx.requestBucket, RequestPath(sessionId));
    LinesCons(Broadcast(sessionId, INITIALIZING), [saving], sessionId);
    LinesOfOne(saving, sessionId);
  }

  /** Running the stages shows the session no line of the handler's own. */
  lemma StageLines(sessionId: string, localMode: bool, save: Outcome, builder: Outcome)
    ensures Lines(StageEffects(sessionId, localMode, save, builder), sessionId) == []
  {
    var stages := StageEffects(sessionId, localMode, save, builder);
    if |stages| == 1 {
      LinesOfOne(stages[0], sessionId);
    } else if |stages| == 2 {
      LinesCons(stages[0], [stages[1]], sessionId);
      LinesOfOne(stages[1], sessionId);
    }
  }

  /** Settling shows the session the error report, if any. */
  lemma SettleLines(sessionId: string, failure: Option<string>)
    ensures Lines(Settle(sessionId, failure), sessionId) == if failure.Some? then [ERROR_PREFIX + failure.value] else []
  {
    if failure.None? {
      LinesOfOne(Ack, sessionId);
    } else {
      LinesCons(Broadcast(sessionId, ERROR_PREFIX + failure.value), [Nack], sessionId);
      LinesOfOne(Nack, sessionId);
    }
  }

  /**
   * The local builder runs exactly in local mode after a successful save; the builder job
   * exactly outside it; the deployer only after the builder, and only when it returned.
   */
  lemma SessionStages(ctx: WorkerContext, sessionId: string, localMode: bool,
                      save: Outcome, local: Outcome, builder: Outcome, deployer: Outcome)
    ensures var trace := SessionTrace(ctx, sessionId, localMode, save, local, builder, deployer);
            && (RunsLocalBuilder(trace) <==> localMode && save.Done?)
            && (RunBuilder(sessionId) in trace <==> !localMode && save.Done?)
            && (RunDeployer(sessionId) in trace <==> !localMode && save.Done? && builder.Done?)
            && OnlyAfter(trace, RunBuilder(sessionId), RunDeployer(sessionId))
  {
    var announce := [Broadcast(sessionId, INITIALIZING), SavePayload(ctx.requestBucket, RequestPath(sessionId))];
    var stages := StageEffects(sessionId, localMode, save, builder);
    var settle := Settle(sessionId, FirstError(localMode, save, local, builder, deployer));
    assert NoStages(announce);
    assert NoStages(settle);
    FramedLocalBuilder(announce, stages, settle);
    FramedStage(announce, stages, settle, RunBuilder(sessionId));
    FramedStage(announce, stages, settle, RunDeployer(sessionId));
    if localMode && save.Done? {
      assert stages[0].RunLocalBuilder?;
    }
    assert OnlyAfter(stages, RunBuilder(sessionId), RunDeployer(sessionId)) by {
      if |stages| == 2 {
        assert stages[..1] == [RunBuilder(sessionId)];
      }
    }
    FramedOrder(announce, stages, settle, RunBuilder(sessionId), RunDeployer(sessionId));
  }

  /** The `try` block from the announcement on, for a message whose session id is valid. */
  method HandleSession(ctx: WorkerContext, sessionId: string, localMode: bool,
                       save: Outcome, local: Outcome, builder: Outcome, deployer: Outcome)
    returns (trace: seq<Effect>)
    ensures trace == SessionTrace(ctx, sessionId, localMode, save, local, builder, deployer)
  {
    trace := [Broadcast(sessionId, INITIALIZING)];
    trace := trace + [SavePayload(ctx.requestBucket, RequestPath(sessionId))];
    var failure: Option<string> := None;
    if save.Threw? {
      failure := Some(save.message);
    } else if localMode {
      trace := trace + [RunLocalBuilder(sessionId)];
      if local.Threw? {
        failure := Some(local.message);
      }
    } else {
      trace := trace + [RunBuilder(sessionId)];
      if builder.Threw? {
        failure := Some(builder.message);
      } else {
        trace := trace + [RunDeployer(sessionId)];
        if deployer.Threw? {
          failure := Some(deployer.message);
        }
      }
    }
    if failure.None? {
      trace := trace + [Ack];
    } else {
      trace := trace + [Broadcast(sessionId, ERROR_PREFIX + failure.value)];
      trace := trace + [Nack];
    }
  }

  const SUBSCRIPTION_ERROR_PREFIX: string := "SUBSCRIPTION ERROR: "
  const SUBSCRIPTION_CLOSED: string := "SUBSCRIPTION CLOSED"

  /** The subscription's "error" handler; `error` is the error's text form. */
  method OnSubscriptionError(hub: SessionHub, error: string)
    requires hub.Valid()
    modifies hub.AllSockets()
    ensures forall ws :: ws in hub.AllSockets() ==>
              ws.sent == old(ws.sent) + (if ws.open then [SUBSCRIPTION_ERROR_PREFIX + error] else [])
    ensures forall ws :: ws in hub.AllSockets() ==> ws.open == old(ws.open)
  {
    BroadcastToAll(hub, SUBSCRIPTION_ERROR_PREFIX + error);
  }

  /** The subscription's "close" handler. */
  method OnSubscriptionClose(hub: SessionHub)
    requires hub.Valid()
    modifies hub.AllSockets()
    ensures forall ws :: ws in hub.AllSockets() ==>
              ws.sent == old(ws.sent) + (if ws.open then [SUBSCRIPTION_CLOSED] else [])
    ensures forall ws :: ws in hub.AllSockets() ==> ws.open == old(ws.open)
  {
    BroadcastToAll(hub, SUBSCRIPTION_CLOSED);
  }
}
