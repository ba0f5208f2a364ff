/**
 * The observable steps of the pipeline handlers, in the order they happen. A
 * stage is one effect; how it ended is an input to the handler that runs it.
 */
module Effects {

  datatype Effect =
    | RunLocalBuilder(sessionId: string)          // `spawnLocalBuilder(sessionId, broadCastLog)`
    | RunBuilder(sessionId: string)               // `runBuilderJob(ctx, sessionId)`
    | RunDeployer(sessionId: string)              // `runDeployerJob(ctx, sessionId)`
    | Broadcast(sessionId: string, message: string)  // `broadCastLog(sessionId, message)`
    | SavePayload(bucket: string, path: string)   // `savePayloadtoGCS(bucket, path, payload)`
    | Ack                                         // `msg.ack()`
    | Nack                                        // `msg.nack()`

  /** The line `e` shows the subscribers of `sessionId`, if any. */
  function LineOf(e: Effect, sessionId: string): seq<string>
  {
    if e.Broadcast? && e.sessionId == sessionId then [e.message] else []
  }

  /** The lines broadcast to `sessionId`, in order. */
  function Lines(trace: seq<Effect>, sessionId: string): (lines: seq<string>)
    ensures |lines| <= |trace|
  {
    if trace == [] then [] else LineOf(trace[0], sessionId) + Lines(trace[1..], sessionId)
  }

  /** Lines of a trace extended by more effects: the old lines, then the new ones. */
  lemma {:induction false} LinesAppend(a: seq<Effect>, b: seq<Effect>, sessionId: string)
    ensures Lines(a + b, sessionId) == Lines(a, sessionId) + Lines(b, sessionId)
    decreases |a|
  {
    if a != [] {
      assert (a + b)[1..] == a[1..] + b;
      LinesAppend(a[1..], b, sessionId);
    } else {
      assert a + b == b;
    }
  }

  /** A single effect shows its own line and nothing more. */
  lemma LinesOfOne(e: Effect, sessionId: string)
    ensures Lines([e], sessionId) == LineOf(e, sessionId)
  {
    assert [e][1..] == [];
  }

  /** Lines of a trace built from a head effect and a rest. */
  lemma LinesCons(e: Effect, rest: seq<Effect>, sessionId: string)
    ensures Lines([e] + rest, sessionId) == LineOf(e, sessionId) + Lines(rest, sessionId)
  {
    assert ([e] + rest)[1..] == rest;
  }

  /** Every line in the trace is broadcast to `sessionId`. */
  predicate OnlyTo(trace: seq<Effect>, sessionId: string)
  {
    forall i :: 0 <= i < |trace| && trace[i].Broadcast? ==> trace[i].sessionId == sessionId
  }

  /** The trace runs the local builder somewhere. */
  predicate RunsLocalBuilder(trace: seq<Effect>)
  {
    exists i :: 0 <= i < |trace| && trace[i].RunLocalBuilder?
  }

  /** Every occurrence of `later` in the trace has an occurrence of `earlier` before it. */
  predicate OnlyAfter(trace: seq<Effect>, earlier: Effect, later: Effect)
  {
    forall j :: 0 <= j < |trace| && trace[j] == later ==> earlier in trace[..j]
  }

  /** Lines that end a pipeline run: the success marker or a failure report. */
  predicate IsTerminalLine(line: string)
  {
    line == "SUCCESS" || (|FAILED_PREFIX| <= |line| && line[..|FAILED_PREFIX|] == FAILED_PREFIX)
  }

  const FAILED_PREFIX: string := "Pipeline failed: "

  /** How many lines of `lines` end a pipeline run. */
  function TerminalCount(lines: seq<string>): (n: nat)
    ensures n <= |lines|
    ensures n == 0 <==> forall i :: 0 <= i < |lines| ==> !IsTerminalLine(lines[i])
  {
    if lines == [] then 0
    else (if IsTerminalLine(lines[0]) then 1 else 0) + TerminalCount(lines[1..])
  }

  lemma {:induction false} TerminalCountAppend(a: seq<string>, b: seq<string>)
    ensures TerminalCount(a + b) == TerminalCount(a) + TerminalCount(b)
    decreases |a|
  {
    if a != [] {
      assert (a + b)[1..] == a[1..] + b;
      TerminalCountAppend(a[1..], b);
    } else {
      assert a + b == b;
    }
  }

  /** The effects that run a build or deploy stage. */
  predicate IsStage(e: Effect)
  {
    e.RunLocalBuilder? || e.RunBuilder? || e.RunDeployer?
  }

  /** The trace runs no stage. */
  predicate NoStages(trace: seq<Effect>)
  {
    forall i :: 0 <= i < |trace| ==> !IsStage(trace[i])
  }

  /** In a trace that frames `s` between stage-free effects, every stage comes from `s`. */
  lemma FramedStageIndex(a: seq<Effect>, s: seq<Effect>, b: seq<Effect>, i: int)
    requires NoStages(a) && NoStages(b)
    requires 0 <= i < |a + s + b| && IsStage((a + s + b)[i])
    ensures |a| <= i < |a| + |s| && (a + s + b)[i] == s[i - |a|]
  {
  }

  /** Framing the stages `s` between stage-free effects keeps whether the local builder runs. */
  lemma FramedLocalBuilder(a: seq<Effect>, s: seq<Effect>, b: seq<Effect>)
    requires NoStages(a) && NoStages(b)
    ensures RunsLocalBuilder(a + s + b) <==> RunsLocalBuilder(s)
  {
    var t := a + s + b;
    if RunsLocalBuilder(t) {
      var i :| 0 <= i < |t| && t[i].RunLocalBuilder?;
      FramedStageIndex(a, s, b, i);
    }
    if RunsLocalBuilder(s) {
      var i :| 0 <= i < |s| && s[i].RunLocalBuilder?;
      assert t[|a| + i] == s[i];
    }
  }

  /** Framing the stages `s` between stage-free effects keeps which stages run. */
  lemma FramedStage(a: seq<Effect>, s: seq<Effect>, b: seq<Effect>, x: Effect)
    requires NoStages(a) && NoStages(b) && IsStage(x)
    ensures x in a + s + b <==> x in s
  {
    var t := a + s + b;
    if x in t {
      var i :| 0 <= i < |t| && t[i] == x;
      FramedStageIndex(a, s, b, i);
    }
    if x in s {
      var i :| 0 <= i < |s| && s[i] == x;
      assert t[|a| + i] == x;
    }
  }

  /** Framing the stages `s` between stage-free effects keeps the order in which stages run. */
  lemma FramedOrder(a: seq<Effect>, s: seq<Effect>, b: seq<Effect>, x: Effect, y: Effect)
    requires NoStages(a) && NoStages(b) && IsStage(y) && OnlyAfter(s, x, y)
    ensures OnlyAfter(a + s + b, x, y)
  {
    var t := a + s + b;
    forall j | 0 <= j < |t| && t[j] == y ensures x in t[..j] {
      FramedStageIndex(a, s, b, j);
      var k := j - |a|;
      assert s[k] == y;
      var i :| 0 <= i < k && s[..k][i] == x;
      assert t[..j][|a| + i] == x;
    }
  }

  /** `msg.ack()` and `msg.nack()` settle a Pub/Sub message. */
  predicate IsSettlement(e: Effect)
  {
    e == Ack || e == Nack
  }

  /** How many times the trace settles its message. */
  function Settlements(trace: seq<Effect>): (n: nat)
    ensures n <= |trace|
    ensures n == 0 <==> forall i :: 0 <= i < |trace| ==> !IsSettlement(trace[i])
  {
    if trace == [] then 0
    else (if IsSettlement(trace[0]) then 1 else 0) + Settlements(trace[1..])
  }

  lemma {:induction false} SettlementsAppend(a: seq<Effect>, b: seq<Effect>)
    ensures Settlements(a + b) == Settlements(a) + Settlements(b)
    decreases |a|
  {
    if a != [] {
      assert (a + b)[1..] == a[1..] + b;
      SettlementsAppend(a[1..], b);
    } else {
      assert a + b == b;
    }
  }

  /** Perform one more effect: it is appended to the trace, with what each summary then says. */
  method Emit(trace0: seq<Effect>, e: Effect) returns (trace: seq<Effect>)
    ensures trace == trace0 + [e]
    ensures forall sessionId :: Lines(trace, sessionId) == Lines(trace0, sessionId) + LineOf(e, sessionId)
    ensures Settlements(trace) == Settlements(trace0) + (if IsSettlement(e) then 1 else 0)
    ensures forall sessionId :: OnlyTo(trace0, sessionId) && (e.Broadcast? ==> e.sessionId == sessionId) ==>
                                OnlyTo(trace, sessionId)
    ensures RunsLocalBuilder(trace) <==> RunsLocalBuilder(trace0) || e.RunLocalBuilder?
    ensures forall earlier, later :: OnlyAfter(trace0, earlier, later) && (e == later ==> earlier in trace0) ==>
                                     OnlyAfter(trace, earlier, later)
  {
    trace := trace0 + [e];
    forall sessionId ensures Lines(trace, sessionId) == Lines(trace0, sessionId) + LineOf(e, sessionId) {
      LinesAppend(trace0, [e], sessionId);
      assert Lines([e], sessionId) == LineOf(e, sessionId) + Lines([], sessionId);
    }
    SettlementsAppend(trace0, [e]);
    if e.RunLocalBuilder? {
      assert trace[|trace0|].RunLocalBuilder?;
    }
    if RunsLocalBuilder(trace0) {
      var i :| 0 <= i < |trace0| && trace0[i].RunLocalBuilder?;
      assert trace[i] == trace0[i];
    }
    assert trace[..|trace0|] == trace0;
    forall earlier, later | OnlyAfter(trace0, earlier, later) && (e == later ==> earlier in trace0)
      ensures OnlyAfter(trace, earlier, later)
    {
      forall j | 0 <= j < |trace| && trace[j] == later ensures earlier in trace[..j] {
        if j < |trace0| {
          assert trace[..j] == trace0[..j];
        } else {
          assert trace[..j] == trace0;
        }
      }
    }
  }
}
