/**
 * The log-tailing side of the worker: the `activeJobs` registry, one tick of the
 * `pollLogs` loop, and the helpers that push lines to the session's sockets.
 * Log timestamps are integer milliseconds; the cursor `lastTimestamp` is the
 * millisecond after the last delivered entry.
 */
module Logger {
  import opened Common
  import opened WebSocketService

  const TERMINAL_STATUSES: set<string> := {"SUCCESS", "ERROR", "FAILED"}
  const RESCHEDULE_MS: nat := 1000

  /** One `activeJobs` entry; the deployer's entry has no execution id. */
  datatype ActiveJob = ActiveJob(executionId: Option<string>, lastTimestamp: int, jobName: string)

  /** The structured payload of a log entry; each field may be missing (or not a string). */
  datatype Payload = Payload(sessionId: Option<string>, ptype: Option<string>, message: Option<string>)

  /** A log entry: its timestamp in milliseconds (`None` when falsy) and its payload. */
  datatype LogEntry = LogEntry(timestamp: Option<int>, data: Payload)

  /** The entry is a status line of this session that the tick delivers. */
  predicate IsStatusFor(e: LogEntry, sessionId: string)
  {
    && e.timestamp.Some?
    && e.data.ptype == Some("STATUS")
    && e.data.sessionId == Some(sessionId)
    && e.data.message.Some?
  }

  // ---------------------------------------------------------------------------
  // Specification of one pass over a batch of entries

  /** What a pass over a batch does: lines delivered, cursor reached, and whether it hit a terminal marker. */
  datatype Scan = Scan(delivered: seq<string>, cursor: int, stopped: bool)

  function ScanBatch(entries: seq<LogEntry>, sessionId: string, cursor: int): Scan
  {
    if entries == [] then Scan([], cursor, false)
    else
      var e := entries[0];
      if !IsStatusFor(e, sessionId) then ScanBatch(entries[1..], sessionId, cursor)
      else
        var message := e.data.message.value;
        if message in TERMINAL_STATUSES then Scan([message], e.timestamp.value + 1, true)
        else
          var rest := ScanBatch(entries[1..], sessionId, e.timestamp.value + 1);
          rest.(delivered := [message] + rest.delivered)
  }

  /** The messages of the session's status entries, in batch order. */
  function StatusMessages(entries: seq<LogEntry>, sessionId: string): seq<string>
  {
    if entries == [] then []
    else
      (if IsStatusFor(entries[0], sessionId) then [entries[0].data.message.value] else [])
      + StatusMessages(entries[1..], sessionId)
  }

  predicate HasTerminal(messages: seq<string>)
  {
    exists i :: 0 <= i < |messages| && messages[i] in TERMINAL_STATUSES
  }

  /** The messages up to and including the first terminal marker. */
  function ThroughFirstTerminal(messages: seq<string>): (r: seq<string>)
    ensures r <= messages
    ensures forall i :: 0 <= i < |r| - 1 ==> r[i] !in TERMINAL_STATUSES
    ensures HasTerminal(messages) <==> r != [] && r[|r| - 1] in TERMINAL_STATUSES
    ensures !HasTerminal(messages) ==> r == messages
  {
    if messages == [] then []
    else if messages[0] in TERMINAL_STATUSES then [messages[0]]
    else
      var rest := ThroughFirstTerminal(messages[1..]);
      assert HasTerminal(messages) <==> HasTerminal(messages[1..]) by {
        if HasTerminal(messages) {
          var i :| 0 <= i < |messages| && messages[i] in TERMINAL_STATUSES;
          assert messages[1..][i - 1] == messages[i];
        }
        if HasTerminal(messages[1..]) {
          var i :| 0 <= i < |messages[1..]| && messages[1..][i] in TERMINAL_STATUSES;
          assert messages[i + 1] == messages[1..][i];
        }
      }
      assert messages == [messages[0]] + messages[1..];
      [messages[0]] + rest
  }

  /**
   * A pass delivers exactly the session's status messages, in order, up to and
   * including the first terminal marker, and stops exactly when there is one.
   */
  lemma {:induction false} ScanDeliversStatusMessages(entries: seq<LogEntry>, sessionId: string, cursor: int)
    ensures ScanBatch(entries, sessionId, cursor).delivered == ThroughFirstTerminal(StatusMessages(entries, sessionId))
    ensures ScanBatch(entries, sessionId, cursor).stopped == HasTerminal(StatusMessages(entries, sessionId))
    decreases |entries|
  {
    if entries != [] {
      var e := entries[0];
      var tail := StatusMessages(entries[1..], sessionId);
      if !IsStatusFor(e, sessionId) {
        ScanDeliversStatusMessages(entries[1..], sessionId, cursor);
        assert StatusMessages(entries, sessionId) == tail;
      } else {
        var m := e.data.message.value;
        var all := [m] + tail;
        assert StatusMessages(entries, sessionId) == all;
        assert all[0] == m;
        if m in TERMINAL_STATUSES {
          assert HasTerminal(all);
        } else {
          ScanDeliversStatusMessages(entries[1..], sessionId, e.timestamp.value + 1);
          assert all[1..] == tail;
        }
      }
    }
  }

  /** Timestamps never go down along the batch (the query orders by timestamp). */
  ghost predicate Ascending(entries: seq<LogEntry>)
  {
    forall i, j :: 0 <= i < j < |entries| && entries[i].timestamp.Some? && entries[j].timestamp.Some? ==>
      entries[i].timestamp.value <= entries[j].timestamp.value
  }

  /** Every timestamped entry is at `bound` or later. */
  ghost predicate NotBefore(entries: seq<LogEntry>, bound: int)
  {
    forall i :: 0 <= i < |entries| && entries[i].timestamp.Some? ==> entries[i].timestamp.value >= bound
  }

  /** Entry `j` is one the pass delivers: a status line of the session with no terminal marker before it. */
  ghost predicate DeliveredAt(entries: seq<LogEntry>, sessionId: string, j: int)
  {
    && 0 <= j < |entries|
    && IsStatusFor(entries[j], sessionId)
    && !HasTerminal(StatusMessages(entries[..j], sessionId))
  }

  lemma HasTerminalCons(m: string, rest: seq<string>)
    ensures HasTerminal([m] + rest) <==> m in TERMINAL_STATUSES || HasTerminal(rest)
  {
    var all := [m] + rest;
    assert all[0] == m;
    if HasTerminal(rest) {
      var i :| 0 <= i < |rest| && rest[i] in TERMINAL_STATUSES;
      assert all[i + 1] == rest[i];
    }
    if HasTerminal(all) {
      var i :| 0 <= i < |all| && all[i] in TERMINAL_STATUSES;
      if i > 0 { assert rest[i - 1] == all[i]; }
    }
  }

  /**
   * Where the cursor ends: unchanged when nothing is delivered, and otherwise one
   * millisecond after the timestamp of the last entry delivered.
   */
  lemma {:induction false} ScanCursorEnd(entries: seq<LogEntry>, sessionId: string, cursor: int)
    ensures var r := ScanBatch(entries, sessionId, cursor);
            r.delivered == [] ==> r.cursor == cursor && forall i :: !DeliveredAt(entries, sessionId, i)
    ensures var r := ScanBatch(entries, sessionId, cursor);
            r.delivered != [] ==>
              exists j :: && DeliveredAt(entries, sessionId, j)
                          && r.cursor == entries[j].timestamp.value + 1
                          && forall i :: DeliveredAt(entries, sessionId, i) ==> i <= j
    decreases |entries|
  {
    if entries != [] {
      var e := entries[0];
      var rest := entries[1..];
      var r := ScanBatch(entries, sessionId, cursor);
      forall j | 1 <= j <= |entries|
        ensures StatusMessages(entries[..j], sessionId) ==
                (if IsStatusFor(e, sessionId) then [e.data.message.value] else []) + StatusMessages(rest[..j - 1], sessionId)
      {
        assert entries[..j][0] == e;
        assert entries[..j][1..] == rest[..j - 1];
      }
      assert StatusMessages(entries[..0], sessionId) == [];
      if !IsStatusFor(e, sessionId) {
        ScanCursorEnd(rest, sessionId, cursor);
        forall i | 1 <= i <= |entries|
          ensures DeliveredAt(entries, sessionId, i) <==> DeliveredAt(rest, sessionId, i - 1)
        {
          assert [] + StatusMessages(rest[..i - 1], sessionId) == StatusMessages(rest[..i - 1], sessionId);
          if i < |entries| { assert rest[i - 1] == entries[i]; }
        }
        if r.delivered != [] {
          var k :| && DeliveredAt(rest, sessionId, k) && r.cursor == rest[k].timestamp.value + 1
                   && forall i :: DeliveredAt(rest, sessionId, i) ==> i <= k;
          assert DeliveredAt(entries, sessionId, k + 1);
        }
      } else {
        var m := e.data.message.value;
        var t := e.timestamp.value;
        assert DeliveredAt(entries, sessionId, 0);
        if m in TERMINAL_STATUSES {
          forall i | DeliveredAt(entries, sessionId, i) ensures i <= 0 {
            if i > 0 {
              HasTerminalCons(m, StatusMessages(rest[..i - 1], sessionId));
            }
          }
        } else {
          ScanCursorEnd(rest, sessionId, t + 1);
          forall i | 1 <= i <= |entries|
            ensures DeliveredAt(entries, sessionId, i) <==> DeliveredAt(rest, sessionId, i - 1)
          {
            HasTerminalCons(m, StatusMessages(rest[..i - 1], sessionId));
            if i < |entries| { assert rest[i - 1] == entries[i]; }
          }
          var r' := ScanBatch(rest, sessionId, t + 1);
          if r'.delivered == [] {
            assert forall i :: DeliveredAt(entries, sessionId, i) ==> i <= 0;
          } else {
            var k :| && DeliveredAt(rest, sessionId, k) && r'.cursor == rest[k].timestamp.value + 1
                     && forall i :: DeliveredAt(rest, sessionId, i) ==> i <= k;
            assert DeliveredAt(entries, sessionId, k + 1);
          }
        }
      }
    }
  }

  /**
   * The cursor never moves back, moves only when something is delivered, and ends
   * past every delivered entry, one millisecond after the latest of them, when the
   * batch is ascending and starts no earlier than one millisecond before the cursor.
   */
  lemma {:induction false} ScanCursorMonotone(entries: seq<LogEntry>, sessionId: string, cursor: int)
    requires Ascending(entries) && NotBefore(entries, cursor - 1)
    ensures var r := ScanBatch(entries, sessionId, cursor);
            && r.cursor >= cursor
            && (r.delivered == [] ==> r.cursor == cursor)
            && (forall j :: DeliveredAt(entries, sessionId, j) ==> entries[j].timestamp.value < r.cursor)
            // so it ends exactly one millisecond after the latest delivered timestamp
            && (r.delivered != [] ==>
                  exists j :: DeliveredAt(entries, sessionId, j) && r.cursor == entries[j].timestamp.value + 1)
    decreases |entries|
  {
    ScanCursorEnd(entries, sessionId, cursor);
    if entries != [] {
      var e := entries[0];
      var rest := entries[1..];
      var r := ScanBatch(entries, sessionId, cursor);
      assert Ascending(rest) by {
        forall i, j | 0 <= i < j < |rest| && rest[i].timestamp.Some? && rest[j].timestamp.Some?
          ensures rest[i].timestamp.value <= rest[j].timestamp.value
        {
          assert rest[i] == entries[i + 1] && rest[j] == entries[j + 1];
        }
      }
      forall j | 1 <= j <= |entries|
        ensures StatusMessages(entries[..j], sessionId) ==
                (if IsStatusFor(e, sessionId) then [e.data.message.value] else []) + StatusMessages(rest[..j - 1], sessionId)
      {
        assert entries[..j][0] == e;
        assert entries[..j][1..] == rest[..j - 1];
      }
      if !IsStatusFor(e, sessionId) {
        assert NotBefore(rest, cursor - 1) by {
          forall i | 0 <= i < |rest| && rest[i].timestamp.Some? ensures rest[i].timestamp.value >= cursor - 1 {
            assert rest[i] == entries[i + 1];
          }
        }
        ScanCursorMonotone(rest, sessionId, cursor);
        forall j | DeliveredAt(entries, sessionId, j) ensures entries[j].timestamp.value < r.cursor {
          assert j > 0;
          assert StatusMessages(entries[..j], sessionId) == [] + StatusMessages(rest[..j - 1], sessionId);
          assert [] + StatusMessages(rest[..j - 1], sessionId) == StatusMessages(rest[..j - 1], sessionId);
          assert rest[j - 1] == entries[j];
          assert DeliveredAt(rest, sessionId, j - 1);
        }
      } else {
        var m := e.data.message.value;
        var t := e.timestamp.value;
        if m in TERMINAL_STATUSES {
          forall j | DeliveredAt(entries, sessionId, j) ensures entries[j].timestamp.value < r.cursor {
            if j > 0 {
              HasTerminalCons(m, StatusMessages(rest[..j - 1], sessionId));
            }
          }
        } else {
          assert NotBefore(rest, t) by {
            forall i | 0 <= i < |rest| && rest[i].timestamp.Some? ensures rest[i].timestamp.value >= t {
              assert rest[i] == entries[i + 1];
            }
          }
          ScanCursorMonotone(rest, sessionId, t + 1);
          forall j | DeliveredAt(entries, sessionId, j) ensures entries[j].timestamp.value < r.cursor {
            if j > 0 {
              HasTerminalCons(m, StatusMessages(rest[..j - 1], sessionId));
              assert DeliveredAt(rest, sessionId, j - 1);
            }
          }
        }
      }
    }
  }

  /**
   * With the query's own filter (every entry strictly after the previous cursor,
   * so at the cursor or later), a tick that delivers anything strictly advances the cursor.
   */
  lemma {:induction false} ScanCursorAdvances(entries: seq<LogEntry>, sessionId: string, cursor: int)
    requires Ascending(entries) && NotBefore(entries, cursor)
    ensures ScanBatch(entries, sessionId, cursor).delivered != [] ==>
              ScanBatch(entries, sessionId, cursor).cursor > cursor
    decreases |entries|
  {
    if entries != [] {
      var e := entries[0];
      var rest := entries[1..];
      assert Ascending(rest) by {
        forall i, j | 0 <= i < j < |rest| && rest[i].timestamp.Some? && rest[j].timestamp.Some?
          ensures rest[i].timestamp.value <= rest[j].timestamp.value
        {
          assert rest[i] == entries[i + 1] && rest[j] == entries[j + 1];
        }
      }
      if !IsStatusFor(e, sessionId) {
        assert NotBefore(rest, cursor) by {
          forall i | 0 <= i < |rest| && rest[i].timestamp.Some? ensures rest[i].timestamp.value >= cursor {
            assert rest[i] == entries[i + 1];
          }
        }
        ScanCursorAdvances(rest, sessionId, cursor);
      } else if e.data.message.value !in TERMINAL_STATUSES {
        var t := e.timestamp.value;
        assert NotBefore(rest, t) by {
          forall i | 0 <= i < |rest| && rest[i].timestamp.Some? ensures rest[i].timestamp.value >= t {
            assert rest[i] == entries[i + 1];
          }
        }
        ScanCursorMonotone(rest, sessionId, t + 1);
      }
    }
  }

  // ---------------------------------------------------------------------------
  // Sending to sockets

  /** `sendLog`: send `message` to every OPEN socket of the session; a session without a set is skipped. */
  method SendLog(hub: SessionHub, sessionId: string, message: string)
    modifies hub.SocketsOf(sessionId)
    ensures forall ws :: ws in hub.SocketsOf(sessionId) ==>
              ws.sent == old(ws.sent) + (if ws.open then [message] else []) && ws.open == old(ws.open)
  {
    if sessionId !in hub.clients {
      return;
    }
    var clients := hub.clients[sessionId];
    var remaining := clients;
    while remaining != {}
      invariant remaining <= clients
      invariant forall ws :: ws in clients && ws !in remaining ==>
                  ws.sent == old(ws.sent) + (if ws.open then [message] else [])
      invariant forall ws :: ws in remaining ==> ws.sent == old(ws.sent)
      invariant forall ws :: ws in clients ==> ws.open == old(ws.open)
      decreases remaining
    {
      var ws :| ws in remaining;
      if ws.open {
        ws.sent := ws.sent + [message];
      }
      remaining := remaining - {ws};
    }
  }

  /** `broadCastLog`, the name the rest of the worker uses for `sendLog`. */
  method BroadCastLog(hub: SessionHub, sessionId: string, message: string)
    modifies hub.SocketsOf(sessionId)
    ensures forall ws :: ws in hub.SocketsOf(sessionId) ==>
              ws.sent == old(ws.sent) + (if ws.open then [message] else []) && ws.open == old(ws.open)
  {
    SendLog(hub, sessionId, message);
  }

  /** `broadcastToAll`: every OPEN socket of every session receives `message` exactly once. */
  method BroadcastToAll(hub: SessionHub, message: string)
    requires hub.Valid()
    modifies hub.AllSockets()
    ensures forall ws :: ws in hub.AllSockets() ==>
              ws.sent == old(ws.sent) + (if ws.open then [message] else []) && ws.open == old(ws.open)
  {
    var keys := hub.clients.Keys;
    var remaining := keys;
    while remaining != {}
      invariant remaining <= keys
      invariant forall s, ws :: s in keys && ws in hub.clients[s] ==> ws.open == old(ws.open)
      invariant forall s, ws :: s in keys && s !in remaining && ws in hub.clients[s] ==>
                  ws.sent == old(ws.sent) + (if ws.open then [message] else [])
      invariant forall s, ws :: s in remaining && ws in hub.clients[s] ==> ws.sent == old(ws.sent)
      decreases remaining
    {
      var s :| s in remaining;
      SendLog(hub, s, message);
      remaining := remaining - {s};
    }
  }

  // ---------------------------------------------------------------------------
  // The registry and one tick of the tailing loop

  /** `activeJobs`: the job each session is currently tailing, keyed by session id. */
  class ActiveJobs {
    var jobs: map<string, ActiveJob>

    constructor ()
      ensures jobs == map[]
    {
      jobs := map[];
    }

    /**
     * One run of `loop` (and the guard of `pollLogs` before it). `batch` is what the
     * log query returned, `None` when the query threw. `next` is the delay before the
     * next tick, `None` when the loop ends.
     */
    method Tick(sessionId: string, batch: Option<seq<LogEntry>>, hub: SessionHub) returns (next: Option<nat>)
      modifies this, hub.SocketsOf(sessionId)
      // an absent session, or a failed query, ends the loop and changes nothing
      ensures sessionId !in old(jobs) || batch.None? ==>
                && next.None? && jobs == old(jobs)
                && forall ws :: ws in hub.SocketsOf(sessionId) ==> ws.sent == old(ws.sent)
      ensures sessionId in old(jobs) && batch.Some? ==>
                var r := ScanBatch(batch.value, sessionId, old(jobs[sessionId].lastTimestamp));
                && next == (if r.stopped then None else Some(RESCHEDULE_MS))
                && jobs == (if r.stopped then old(jobs) - {sessionId}
                            else old(jobs)[sessionId := old(jobs[sessionId]).(lastTimestamp := r.cursor)])
                && forall ws :: ws in hub.SocketsOf(sessionId) ==>
                     ws.sent == old(ws.sent) + (if ws.open then r.delivered else [])
      ensures forall ws :: ws in hub.SocketsOf(sessionId) ==> ws.open == old(ws.open)
    {
      if sessionId !in jobs || batch.None? {
        return None;
      }
      var entries := batch.value;
      ghost var job0 := jobs[sessionId];
      ghost var delivered: seq<string> := [];
      var i := 0;
      while i < |entries|
        invariant 0 <= i <= |entries|
        invariant sessionId in jobs
        invariant jobs == old(jobs)[sessionId := job0.(lastTimestamp := jobs[sessionId].lastTimestamp)]
        invariant var rest := ScanBatch(entries[i..], sessionId, jobs[sessionId].lastTimestamp);
                  ScanBatch(entries, sessionId, job0.lastTimestamp) == rest.(delivered := delivered + rest.delivered)
        invariant forall ws :: ws in hub.SocketsOf(sessionId) ==>
                    ws.sent == old(ws.sent) + (if ws.open then delivered else [])
        invariant forall ws :: ws in hub.SocketsOf(sessionId) ==> ws.open == old(ws.open)
      {
        var entry := entries[i];
        assert entries[i..][0] == entry && entries[i..][1..] == entries[i + 1..];
        if entry.timestamp.Some? && IsStatusFor(entry, sessionId) {
          var message := entry.data.message.value;
          BroadCastLog(hub, sessionId, message);
          delivered := delivered + [message];
          jobs := jobs[sessionId := jobs[sessionId].(lastTimestamp := entry.timestamp.value + 1)];
          if message in TERMINAL_STATUSES {
            jobs := jobs - {sessionId};
            assert jobs == old(jobs) - {sessionId};
            return None;
          }
        }
        i := i + 1;
      }
      assert entries[i..] == [];
      next := Some(RESCHEDULE_MS);
    }
  }
}
