/**
 * The tool-call side of the legacy single-file worker: routing a tool name to
 * the builder or GitHub tool server, matching a reply to its request id, and
 * the per-turn decision of the model-driven workflow loop. The model session,
 * the sockets and the container start-up are inputs.
 */
module McpRouter {
  import opened Common
  import opened Strings

  datatype Server = BuilderServer | GithubServer

  const BUILDER_NS: string := "builder."
  const GITHUB_NS: string := "github."
  const UNKNOWN_NAMESPACE: string := "Unknown tool namespace: "

  /** The namespace prefix of each server's tools. */
  function Namespace(server: Server): string
  {
    match server
    case BuilderServer => BUILDER_NS
    case GithubServer => GITHUB_NS
  }

  /** The `if`/`else if`/`else` that picks the socket for a tool name. */
  function SelectServer(toolName: string): (r: Result<Server>)
    ensures r == Ok(BuilderServer) <==> StartsWith(toolName, BUILDER_NS)
    ensures r == Ok(GithubServer) <==> !StartsWith(toolName, BUILDER_NS) && StartsWith(toolName, GITHUB_NS)
    ensures r.Err? <==> !StartsWith(toolName, BUILDER_NS) && !StartsWith(toolName, GITHUB_NS)
    ensures r.Err? ==> r.message == UNKNOWN_NAMESPACE + toolName
  {
    if StartsWith(toolName, BUILDER_NS) then Ok(BuilderServer)
    else if StartsWith(toolName, GITHUB_NS) then Ok(GithubServer)
    else Err(UNKNOWN_NAMESPACE + toolName)
  }

  /** `toolName.replace(/^builder\.|^github\./, "")`: one anchored match, removed once. */
  function StripNamespace(toolName: string): (clean: string)
    ensures |clean| <= |toolName| && toolName[|toolName| - |clean|..] == clean
    ensures !StartsWith(toolName, BUILDER_NS) && !StartsWith(toolName, GITHUB_NS) ==> clean == toolName
  {
    if StartsWith(toolName, BUILDER_NS) then toolName[|BUILDER_NS|..]
    else if StartsWith(toolName, GITHUB_NS) then toolName[|GITHUB_NS|..]
    else toolName
  }

  /** `{ id, method: "mcp.call", params: { tool, args } }`; `args` is the call's JSON arguments. */
  datatype McpRequest = McpRequest(id: string, rpcMethod: string, tool: string, args: string)

  /**
   * `routeMCPCall` up to the request it sends: the server and the request, or the error
   * thrown before anything is sent. `nonce` is the text of the `Math.random()` draw.
   */
  function RouteMCPCall(toolName: string, args: string, nonce: string): (r: Result<(Server, McpRequest)>)
    ensures r.Err? <==> SelectServer(toolName).Err?
    ensures r.Err? ==> r.message == UNKNOWN_NAMESPACE + toolName
    ensures r.Ok? ==> r.value.1 == McpRequest("mcp-" + nonce, "mcp.call", StripNamespace(toolName), args)
  {
    match SelectServer(toolName)
    case Err(message) => Err(message)
    case Ok(server) => Ok((server, McpRequest("mcp-" + nonce, "mcp.call", StripNamespace(toolName), args)))
  }

  /** A routed call names its server's namespace followed by the tool that server receives. */
  lemma RouteRoundTrip(toolName: string, args: string, nonce: string)
    requires RouteMCPCall(toolName, args, nonce).Ok?
    ensures var (server, request) := RouteMCPCall(toolName, args, nonce).value;
            Namespace(server) + request.tool == toolName
  {
    var (server, request) := RouteMCPCall(toolName, args, nonce).value;
    assert toolName == toolName[..|Namespace(server)|] + toolName[|Namespace(server)|..];
  }

  /** Every tool of a server, written with its namespace, reaches that server under its own name. */
  lemma RouteNamespaced(server: Server, tool: string, args: string, nonce: string)
    ensures RouteMCPCall(Namespace(server) + tool, args, nonce) ==
              Ok((server, McpRequest("mcp-" + nonce, "mcp.call", tool, args)))
  {
    var name := Namespace(server) + tool;
    assert name[..|Namespace(server)|] == Namespace(server);
    assert name[|Namespace(server)|..] == tool;
    if server == GithubServer {
      assert name[0] != BUILDER_NS[0];
    }
  }

  /** Only one namespace is stripped: "builder.github.x" reaches the builder as "github.x". */
  lemma RouteStripsOnce(rest: string, args: string, nonce: string)
    ensures RouteMCPCall(BUILDER_NS + GITHUB_NS + rest, args, nonce) ==
              Ok((BuilderServer, McpRequest("mcp-" + nonce, "mcp.call", GITHUB_NS + rest, args)))
  {
    assert BUILDER_NS + GITHUB_NS + rest == Namespace(BuilderServer) + (GITHUB_NS + rest);
    RouteNamespaced(BuilderServer, GITHUB_NS + rest, args, nonce);
  }

  // ---------------------------------------------------------------------------
  // Matching a reply to its request

  /** A parsed reply: its (possibly absent) `id` and its `result`. */
  datatype Reply = Reply(id: Option<string>, result: string)

  /** How the promise `wsRequest` returns settles, given the messages the socket delivers. */
  datatype Settled = Resolved(reply: Reply) | Rejected(message: string) | Pending

  /**
   * The index of the first message that settles the request: one that does not parse
   * (`Err`), or one whose `id` equals the request's. Messages after it change nothing.
   */
  function SettlingIndex(incoming: seq<Result<Reply>>, id: string): (r: Option<nat>)
    ensures r.Some? ==> r.value < |incoming|
    ensures r.Some? ==> incoming[r.value].Err? || incoming[r.value].value.id == Some(id)
    ensures forall j :: 0 <= j < (if r.Some? then r.value else |incoming|) ==>
              incoming[j].Ok? && incoming[j].value.id != Some(id)
  {
    if incoming == [] then None
    else if incoming[0].Err? || incoming[0].value.id == Some(id) then Some(0)
    else match SettlingIndex(incoming[1..], id)
         case None => None
         case Some(k) => Some(k + 1)
  }

  function SettleOf(incoming: seq<Result<Reply>>, id: string): Settled
  {
    match SettlingIndex(incoming, id)
    case None => Pending
    case Some(k) => if incoming[k].Err? then Rejected(incoming[k].message) else Resolved(incoming[k].value)
  }

  /** Once a request has settled, later messages cannot change how. */
  lemma {:induction false} SettledStaysSettled(incoming: seq<Result<Reply>>, more: seq<Result<Reply>>, id: string)
    requires SettlingIndex(incoming, id).Some?
    ensures SettlingIndex(incoming + more, id) == SettlingIndex(incoming, id)
    ensures SettleOf(incoming + more, id) == SettleOf(incoming, id)
    decreases |incoming|
  {
    assert (incoming + more)[0] == incoming[0];
    if !(incoming[0].Err? || incoming[0].value.id == Some(id)) {
      assert (incoming + more)[1..] == incoming[1..] + more;
      SettledStaysSettled(incoming[1..], more, id);
    }
  }

  /**
   * `wsRequest(ws, request)`: the message handler run over the messages the socket
   * delivers, in order. `read` is how many it handled before the promise settled.
   */
  method WsRequest(request: McpRequest, incoming: seq<Result<Reply>>) returns (r: Settled, read: nat)
    ensures r == SettleOf(incoming, request.id)
    // a resolved reply answers this request
    ensures r.Resolved? ==> r.reply.id == Some(request.id) && 0 < read <= |incoming| && incoming[read - 1] == Ok(r.reply)
    ensures r.Pending? ==> read == |incoming|
  {
    r := Pending;
    read := 0;
    while read < |incoming|
      invariant read <= |incoming|
      invariant forall j :: 0 <= j < read ==> incoming[j].Ok? && incoming[j].value.id != Some(request.id)
      decreases |incoming| - read
    {
      var message := incoming[read];
      read := read + 1;
      if message.Err? {
        return Rejected(message.message), read;
      }
      if message.value.id == Some(request.id) {
        return Resolved(message.value), read;
      }
    }
  }

  // ---------------------------------------------------------------------------
  // The workflow loop

  datatype FunctionCall = FunctionCall(name: string, args: string)

  /** The first part of a model response: its `text` and its `functionCall`, each possibly absent. */
  datatype Part = Part(text: Option<string>, functionCall: Option<FunctionCall>)

  /**
   * One round of the loop: the part the model answered (`None` when the response had
   * none), the nonce drawn for a tool call, and the messages the chosen socket then delivers.
   */
  datatype Turn = Turn(part: Option<Part>, nonce: string, incoming: seq<Result<Reply>>)

  /** How `runLLMWorkflow` ends: it returns the final text, it throws, or it is still waiting. */
  datatype Workflow = Finished(text: string) | Crashed(message: string) | Waiting

  /** What reading `part.text` of an absent part throws. */
  const UNDEFINED_PART_ERROR: string := "Cannot read properties of undefined (reading 'text')"

  /** The decision one round makes: stop with a result, or go on (after a tool call, if any). */
  datatype Step = Stop(result: Workflow) | Continue

  /** The request a round sends, if it calls a tool whose namespace is known. */
  function SentBy(turn: Turn): (r: Option<(Server, McpRequest)>)
    ensures r.Some? ==> turn.part.Some? && !TruthyOpt(turn.part.value.text) && turn.part.value.functionCall.Some?
    ensures r.Some? ==> var call := turn.part.value.functionCall.value;
                        RouteMCPCall(call.name, call.args, turn.nonce) == Ok(r.value)
    // and a call to a known namespace is always sent
    ensures turn.part.Some? && !TruthyOpt(turn.part.value.text) && turn.part.value.functionCall.Some? &&
              SelectServer(turn.part.value.functionCall.value.name).Ok? ==>
              r.Some?
  {
    if turn.part.None? || TruthyOpt(turn.part.value.text) || turn.part.value.functionCall.None? then None
    else
      var call := turn.part.value.functionCall.value;
      match RouteMCPCall(call.name, call.args, turn.nonce)
      case Err(_) => None
      case Ok(routed) => Some(routed)
  }

  /** The decision one round of the loop makes; TurnDecision states what it amounts to. */
  function TurnStep(turn: Turn): Step
  {
    match turn.part
    case None => Stop(Crashed(UNDEFINED_PART_ERROR))
    case Some(part) =>
      if TruthyOpt(part.text) then Stop(Finished(part.text.value))
      else if part.functionCall.None? then Continue
      else
        match RouteMCPCall(part.functionCall.value.name, part.functionCall.value.args, turn.nonce)
        case Err(message) => Stop(Crashed(message))
        case Ok(routed) =>
          match SettleOf(turn.incoming, routed.1.id)
          case Pending => Stop(Waiting)
          case Rejected(message) => Stop(Crashed(message))
          case Resolved(_) => Continue
  }

  /** What one round of the loop decides, case by case. */
  lemma TurnDecision(turn: Turn)
    ensures var s := TurnStep(turn);
            // truthy text ends the loop with that text
            && (s.Stop? && s.result.Finished? <==> turn.part.Some? && TruthyOpt(turn.part.value.text))
            && (s.Stop? && s.result.Finished? ==> s.result.text == turn.part.value.text.value)
            // a missing part throws when its text is read
            && (turn.part.None? ==> s == Stop(Crashed(UNDEFINED_PART_ERROR)))
            // a call to an unknown namespace throws before anything is sent
            && (turn.part.Some? && !TruthyOpt(turn.part.value.text) && turn.part.value.functionCall.Some? &&
                SelectServer(turn.part.value.functionCall.value.name).Err? ==>
                  SentBy(turn).None? && s == Stop(Crashed(UNKNOWN_NAMESPACE + turn.part.value.functionCall.value.name)))
            // a call to a known namespace is sent, and the loop goes on once its reply arrived
            && (turn.part.Some? && !TruthyOpt(turn.part.value.text) && turn.part.value.functionCall.Some? &&
                SelectServer(turn.part.value.functionCall.value.name).Ok? ==>
                  SentBy(turn).Some? && (SettleOf(turn.incoming, SentBy(turn).value.1.id).Resolved? ==> s == Continue))
            // the loop goes on only after a tool's reply arrived, or when the part had neither text nor a call
            && (s.Continue? ==>
                  || (SentBy(turn).Some? && SettleOf(turn.incoming, SentBy(turn).value.1.id).Resolved?)
                  || (turn.part.Some? && !TruthyOpt(turn.part.value.text) && turn.part.value.functionCall.None?))
  {
  }

  /** How the loop ends over the given rounds; it is still waiting when they run out. */
  function WorkflowOf(turns: seq<Turn>): Workflow
  {
    if turns == [] then Waiting
    else match TurnStep(turns[0])
         case Stop(result) => result
         case Continue => WorkflowOf(turns[1..])
  }

  /** The requests the loop sends over the given rounds, in order. */
  function RequestsOf(turns: seq<Turn>): seq<(Server, McpRequest)>
  {
    if turns == [] then []
    else
      (if SentBy(turns[0]).Some? then [SentBy(turns[0]).value] else [])
      + (if TurnStep(turns[0]).Stop? then [] else RequestsOf(turns[1..]))
  }

  /**
   * The loop returns text only from the first round that stops it: that round's part
   * has truthy text, and every earlier round went on.
   */
  lemma {:induction false} FinishedByFirstText(turns: seq<Turn>, text: string)
    requires WorkflowOf(turns) == Finished(text)
    ensures exists k :: && 0 <= k < |turns| && turns[k].part.Some? && turns[k].part.value.text == Some(text)
                        && text != ""
                        && forall j :: 0 <= j < k ==> TurnStep(turns[j]).Continue?
  {
    if TurnStep(turns[0]).Continue? {
      FinishedByFirstText(turns[1..], text);
      var k :| && 0 <= k < |turns[1..]| && turns[1..][k].part.Some? && turns[1..][k].part.value.text == Some(text)
               && text != "" && forall j :: 0 <= j < k ==> TurnStep(turns[1..][j]).Continue?;
      assert turns[k + 1] == turns[1..][k];
      assert forall j :: 1 <= j < k + 1 ==> turns[j] == turns[1..][j - 1];
    } else {
      TurnDecision(turns[0]);
      assert turns[0].part.value.text == Some(text);
    }
  }

  /** Every request the loop sends is a `mcp.call` of a tool in the namespace of the server it goes to. */
  lemma {:induction false} RequestsAreRouted(turns: seq<Turn>)
    ensures forall i :: 0 <= i < |RequestsOf(turns)| ==>
              var (server, request) := RequestsOf(turns)[i];
              request.rpcMethod == "mcp.call" && StartsWith(request.id, "mcp-")
              && exists k :: 0 <= k < |turns| && turns[k].part.Some? && turns[k].part.value.functionCall.Some?
                             && turns[k].part.value.functionCall.value.name == Namespace(server) + request.tool
  {
    if turns != [] {
      RequestsAreRouted(turns[1..]);
      RequestsOfCons(turns);
      var head := SentIn(turns[0]);
      forall i | 0 <= i < |RequestsOf(turns)|
        ensures var (server, request) := RequestsOf(turns)[i];
                request.rpcMethod == "mcp.call" && StartsWith(request.id, "mcp-")
                && exists k :: 0 <= k < |turns| && turns[k].part.Some? && turns[k].part.value.functionCall.Some?
                               && turns[k].part.value.functionCall.value.name == Namespace(server) + request.tool
      {
        var (server, request) := RequestsOf(turns)[i];
        if i < |head| {
          SentIsRouted(turns[0]);
        } else {
          assert RequestsOf(turns)[i] == RequestsOf(turns[1..])[i - |head|];
          var k :| 0 <= k < |turns[1..]| && turns[1..][k].part.Some? && turns[1..][k].part.value.functionCall.Some?
                   && turns[1..][k].part.value.functionCall.value.name == Namespace(server) + request.tool;
          assert turns[k + 1] == turns[1..][k];
        }
      }
    }
  }

  /** The request one round sends is a `mcp.call` of the tool its part names, in its server's namespace. */
  lemma SentIsRouted(turn: Turn)
    requires SentBy(turn).Some?
    ensures var (server, request) := SentBy(turn).value;
            && request.rpcMethod == "mcp.call" && StartsWith(request.id, "mcp-")
            && turn.part.Some? && turn.part.value.functionCall.Some?
            && turn.part.value.functionCall.value.name == Namespace(server) + request.tool
  {
    var call := turn.part.value.functionCall.value;
    RouteRoundTrip(call.name, call.args, turn.nonce);
    var request := SentBy(turn).value.1;
    assert request.id == "mcp-" + turn.nonce;
    assert request.id[..4] == "mcp-";
  }

  /** One pass of the loop body: read the part, and either stop or call the tool it names. */
  method RunTurn(turn: Turn) returns (step: Step, sent: Option<(Server, McpRequest)>)
    ensures step == TurnStep(turn) && sent == SentBy(turn)
  {
    sent := None;
    if turn.part.None? {
      return Stop(Crashed(UNDEFINED_PART_ERROR)), sent;
    }
    var part := turn.part.value;
    if TruthyOpt(part.text) {
      return Stop(Finished(part.text.value)), sent;
    }
    if part.functionCall.None? {
      return Continue, sent;
    }
    var call := part.functionCall.value;
    var routed := RouteMCPCall(call.name, call.args, turn.nonce);
    if routed.Err? {
      return Stop(Crashed(routed.message)), sent;
    }
    sent := Some(routed.value);
    var reply, read := WsRequest(routed.value.1, turn.incoming);
    match reply
    case Pending => step := Stop(Waiting);
    case Rejected(message) => step := Stop(Crashed(message));
    case Resolved(_) => step := Continue;
  }

  /**
   * The loop has handled the rounds before `rest` and sent `requests` for them, and
   * none of them stopped it: what it still does is what the rounds in `rest` do.
   */
  predicate Progress(turns: seq<Turn>, rest: seq<Turn>, requests: seq<(Server, McpRequest)>)
  {
    WorkflowOf(turns) == WorkflowOf(rest) && RequestsOf(turns) == requests + RequestsOf(rest)
  }

  /** The requests one round sends: the routed call, if any. */
  function SentIn(turn: Turn): seq<(Server, McpRequest)>
  {
    if SentBy(turn).Some? then [SentBy(turn).value] else []
  }

  /** The requests of the rounds `rest`: those of its first round, then, if it went on, the others'. */
  lemma RequestsOfCons(rest: seq<Turn>)
    requires rest != []
    ensures RequestsOf(rest) == SentIn(rest[0]) + (if TurnStep(rest[0]).Stop? then [] else RequestsOf(rest[1..]))
  {
  }

  /** Handling the first of the rounds still to come either ends the loop or keeps its progress. */
  lemma ProgressStep(turns: seq<Turn>, rest: seq<Turn>, requests: seq<(Server, McpRequest)>)
    requires rest != [] && Progress(turns, rest, requests)
    ensures TurnStep(rest[0]).Stop? ==>
              WorkflowOf(turns) == TurnStep(rest[0]).result && RequestsOf(turns) == requests + SentIn(rest[0])
    ensures TurnStep(rest[0]).Continue? ==> Progress(turns, rest[1..], requests + SentIn(rest[0]))
  {
    var sent := SentIn(rest[0]);
    var later := if TurnStep(rest[0]).Stop? then [] else RequestsOf(rest[1..]);
    RequestsOfCons(rest);
    assert requests + (sent + later) == (requests + sent) + later;
  }

  /**
   * One round of the loop, on the first of the rounds `rest` still to come: either the
   * loop stops here with its final result, or it goes on with the rounds after it.
   */
  method AdvanceRound(turns: seq<Turn>, rest: seq<Turn>, requests: seq<(Server, McpRequest)>)
    returns (stop: bool, r: Workflow, requests': seq<(Server, McpRequest)>)
    requires rest != [] && Progress(turns, rest, requests)
    ensures stop ==> r == WorkflowOf(turns) && requests' == RequestsOf(turns)
    ensures !stop ==> Progress(turns, rest[1..], requests')
  {
    ProgressStep(turns, rest, requests);
    var step, call := RunTurn(rest[0]);
    requests' := requests + (if call.Some? then [call.value] else []);
    stop := step.Stop?;
    r := if step.Stop? then step.result else Waiting;
  }

  /**
   * `runLLMWorkflow`'s `while (true)` loop over the rounds the model session produces.
   * `requests` are the tool calls sent, in order.
   */
  method RunLLMWorkflow(turns: seq<Turn>) returns (r: Workflow, requests: seq<(Server, McpRequest)>)
    ensures r == WorkflowOf(turns)
    ensures requests == RequestsOf(turns)
  {
    requests := [];
    var rest := turns;
    while rest != []
      invariant Progress(turns, rest, requests)
      decreases |rest|
    {
      var stop;
      stop, r, requests := AdvanceRound(turns, rest, requests);
      if stop {
        return;
      }
      rest := rest[1..];
    }
    r := Waiting;
  }
}
