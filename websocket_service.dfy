/**
 * The live-output side of the worker: UI sockets and the `sessionClients`
 * registry that maps a session id to the set of sockets watching it.
 */
module WebSocketService {
  import opened Common
  import opened Strings

  /** A connected UI socket: whether its `readyState` is OPEN, and every line sent to it. */
  class Socket {
    var open: bool
    var sent: seq<string>

    constructor ()
      ensures open && sent == []
    {
      open := true;
      sent := [];
    }

    /** `ws.close()` */
    method Close()
      modifies this
      ensures !open && sent == old(sent)
    {
      open := false;
    }
  }

  const WS_PREFIX: string := "/ws/"

  /** `url.pathname.replace("/ws/", "")`: the session id a connection asks for. */
  function SessionIdOf(pathname: string): (sessionId: string)
    ensures IndexOf(pathname, WS_PREFIX).None? ==> sessionId == pathname
    ensures IndexOf(pathname, WS_PREFIX).Some? ==> |sessionId| == |pathname| - |WS_PREFIX|
  {
    RemoveFirst(pathname, WS_PREFIX)
  }

  /** The path a UI opens for a session, `/ws/{sessionId}`, yields that session id back. */
  lemma SessionIdOfWsPath(sessionId: string)
    ensures SessionIdOf(WS_PREFIX + sessionId) == sessionId
  {
    var p := WS_PREFIX + sessionId;
    assert OccursAt(p, WS_PREFIX, 0);
    assert IndexOf(p, WS_PREFIX) == Some(0);
    assert p[4..] == sessionId;
  }

  /** Only the first "/ws/" is removed: a later one stays in the session id. */
  lemma SessionIdKeepsLaterPrefix(rest: string)
    ensures SessionIdOf(WS_PREFIX + WS_PREFIX + rest) == WS_PREFIX + rest
  {
    var p := WS_PREFIX + WS_PREFIX + rest;
    assert OccursAt(p, WS_PREFIX, 0);
    assert IndexOf(p, WS_PREFIX) == Some(0);
    assert p[4..] == WS_PREFIX + rest;
  }

  /** The connection handler closes exactly the connections at "/ws/" and at the empty path. */
  lemma EmptySessionIdPaths(pathname: string)
    ensures SessionIdOf(pathname) == "" <==> pathname == "" || pathname == WS_PREFIX
  {
    match IndexOf(pathname, WS_PREFIX)
    case None =>
    case Some(i) =>
      if |pathname| == |WS_PREFIX| {
        assert i == 0;
        assert pathname == pathname[0..4];
      }
  }

  class SessionHub {
    var clients: map<string, set<Socket>>

    /** Every socket joined through one connection, so the sessions' sets are disjoint. */
    ghost predicate Valid()
      reads this
    {
      forall s, t :: s in clients && t in clients && s != t ==> clients[s] !! clients[t]
    }

    /** `sessionClients.get(sessionId)`, an absent set read as empty. */
    function SocketsOf(sessionId: string): set<Socket>
      reads this
    {
      if sessionId in clients then clients[sessionId] else {}
    }

    ghost function AllSockets(): set<Socket>
      reads this
    {
      set s, ws | s in clients && ws in clients[s] :: ws
    }

    constructor ()
      ensures clients == map[] && Valid()
    {
      clients := map[];
    }

    /**
     * The "connection" handler for socket `ws` opened at `pathname`. `ws` is a new
     * connection, so it sits in no other session's set.
     */
    method Connect(pathname: string, ws: Socket) returns (sessionId: string)
      requires Valid()
      requires forall s :: s in clients && s != SessionIdOf(pathname) ==> ws !in clients[s]
      modifies this, ws
      ensures Valid()
      ensures sessionId == SessionIdOf(pathname)
      // an empty id closes the socket and leaves the registry alone
      ensures sessionId == "" ==> clients == old(clients) && !ws.open
      // otherwise the socket joins its session's set, created when absent
      ensures sessionId != "" ==>
                clients == old(clients)[sessionId := old(SocketsOf(sessionId)) + {ws}] && ws.open == old(ws.open)
      // joining twice changes nothing
      ensures sessionId != "" && ws in old(SocketsOf(sessionId)) ==> clients == old(clients)
      ensures ws.sent == old(ws.sent)
    {
      sessionId := SessionIdOf(pathname);
      if sessionId == "" {
        ws.Close();
        return;
      }
      if sessionId !in clients {
        clients := clients[sessionId := {}];
      }
      if ws in clients[sessionId] {
        assert clients[sessionId] + {ws} == clients[sessionId];
        assert clients[sessionId := clients[sessionId]] == clients;
      }
      clients := clients[sessionId := clients[sessionId] + {ws}];
    }

    /** The socket's "close" handler: `sessionClients.get(sessionId)?.delete(ws)`. */
    method Disconnect(sessionId: string, ws: Socket)
      requires Valid()
      modifies this
      ensures Valid()
      // the set stays in the registry even when it becomes empty
      ensures sessionId in old(clients) ==> clients == old(clients)[sessionId := old(clients[sessionId]) - {ws}]
      ensures sessionId !in old(clients) ==> clients == old(clients)
    {
      if sessionId in clients {
        clients := clients[sessionId := clients[sessionId] - {ws}];
      }
    }
  }
}
