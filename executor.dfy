/**
 * Running a workflow against the backend: the start request, the fold of the socket's
 * progress events over the execution log, and the result the run resolves with.
 * The socket and the HTTP call are inputs: the start call's outcome, whether a socket
 * exists and the events it delivers, in order, each node event with its clock reading.
 */
module Executor {
  import opened Wrappers
  import opened Values
  import opened Api
  import Seqs

  datatype Status = Pending | Running | Completed | Failed

  /** One line of the execution log; `VUndefined` stands for an absent optional field. */
  datatype ExecutionLog = ExecutionLog(nodeId: string, nodeName: string, nodeType: string, status: Status,
                                       timestamp: int, duration: Option<int>, input: Value,
                                       output: Value, error: Value)

  /** The fields a node event writes; an optional field is `None` when the event does not carry the key. */
  datatype LogPatch = LogPatch(nodeId: string, nodeName: string, nodeType: string, status: Status,
                               timestamp: int, output: Option<Value>, error: Option<Value>)

  /** The payload of a node event; `nodeName` is "" when the server sends none. */
  datatype NodeEventData = NodeEventData(nodeId: string, nodeName: string, nodeType: string,
                                         output: Value, error: Value)

  /** The socket events the run listens for; node events carry the clock reading taken by their handler. */
  datatype SocketEvent =
    | WorkflowNodes(payload: Value)
    | NodeStarted(data: NodeEventData, at: int)
    | NodeCompleted(data: NodeEventData, at: int)
    | NodeFailed(data: NodeEventData, at: int)
    | ExecutionStarted(payload: Value)
    | ExecutionCompleted(output: Value)
    | ExecutionFailed(error: Value)

  /** What the start request returned: its response body, or the message of the error it threw. */
  datatype StartOutcome = Responded(res: Value) | Rejected(message: string)

  /** The body of the start request. */
  datatype ExecuteRequest = ExecuteRequest(workflow: Workflow, input: Value)

  /** A call the run makes on the socket. */
  datatype SocketCall = Emit(event: string, arg: Value) | On(event: string) | Off(event: string)

  /** `VNull` stands for a null `finalResponse`, `VUndefined` for an absent `executionId` or `error`. */
  datatype ExecutionResult = ExecutionResult(logs: seq<ExecutionLog>, finalResponse: Value, success: bool,
                                             executionId: Value, error: Value)

  /** A run resolves with a result, or stays pending when the socket never reports a terminal event. */
  datatype Outcome = Unresolved | Resolved(result: ExecutionResult)

  // ---------------------------------------------------------------- updating the log

  /** `{...log, ...patch}`. */
  function Merge(log: ExecutionLog, p: LogPatch): ExecutionLog {
    log.(nodeId := p.nodeId, nodeName := p.nodeName, nodeType := p.nodeType, status := p.status,
         timestamp := p.timestamp,
         output := if p.output.Some? then p.output.value else log.output,
         error := if p.error.Some? then p.error.value else log.error)
  }

  /** `logs.findIndex(log => log.nodeId === nodeId)`. */
  function LogIndex(logs: seq<ExecutionLog>, nodeId: string): (r: int)
    ensures -1 <= r < |logs|
    ensures r == -1 <==> forall i :: 0 <= i < |logs| ==> logs[i].nodeId != nodeId
    ensures 0 <= r ==> logs[r].nodeId == nodeId && forall i :: 0 <= i < r ==> logs[i].nodeId != nodeId
  {
    if |logs| == 0 then -1
    else if logs[0].nodeId == nodeId then 0
    else var k := LogIndex(logs[1..], nodeId); if k == -1 then -1 else k + 1
  }

  /** The log after `updateLogEntry`: the first entry for the node merged with the patch, if there is one. */
  function UpdatedLogs(logs: seq<ExecutionLog>, nodeId: string, p: LogPatch): seq<ExecutionLog> {
    var k := LogIndex(logs, nodeId);
    if k == -1 then logs else logs[k := Merge(logs[k], p)]
  }

  /** Without an entry for the node the log is unchanged; otherwise only its first entry changes, to its merge with the patch. */
  lemma UpdatedLogsChangesFirstMatch(logs: seq<ExecutionLog>, nodeId: string, p: LogPatch)
    ensures (forall i :: 0 <= i < |logs| ==> logs[i].nodeId != nodeId) ==> UpdatedLogs(logs, nodeId, p) == logs
    ensures |UpdatedLogs(logs, nodeId, p)| == |logs|
    ensures forall i :: 0 <= i < |logs| ==>
      UpdatedLogs(logs, nodeId, p)[i] ==
        if logs[i].nodeId == nodeId && (forall j :: 0 <= j < i ==> logs[j].nodeId != nodeId)
        then Merge(logs[i], p) else logs[i]
  {
    var k := LogIndex(logs, nodeId);
    if k != -1 {
      forall i | 0 <= i < |logs| && i != k
        ensures !(logs[i].nodeId == nodeId && (forall j :: 0 <= j < i ==> logs[j].nodeId != nodeId))
      {
        if i > k && logs[i].nodeId == nodeId {
          assert logs[k].nodeId == nodeId;
        }
      }
    }
  }

  /** The run's log array, updated in place. */
  class LogBuffer {
    var entries: seq<ExecutionLog>

    constructor ()
      ensures entries == []
    {
      entries := [];
    }

    /** The index of the first entry for the node, or -1. */
    method FindLogIndex(nodeId: string) returns (r: int)
      ensures r == LogIndex(entries, nodeId)
    {
      r := -1;
      var i := 0;
      while i < |entries|
        invariant 0 <= i <= |entries|
        invariant forall j :: 0 <= j < i ==> entries[j].nodeId != nodeId
      {
        if entries[i].nodeId == nodeId {
          r := i;
          return;
        }
        i := i + 1;
      }
    }

    /** `updateLogEntry`: merges the patch into the node's first entry, and does nothing when the node has none. */
    method UpdateLogEntry(nodeId: string, p: LogPatch)
      modifies this
      ensures entries == UpdatedLogs(old(entries), nodeId, p)
    {
      var k := FindLogIndex(nodeId);
      if k >= 0 {
        entries := entries[k := Merge(entries[k], p)];
      }
    }

    /** `logs.push(entry)`. */
    method Push(entry: ExecutionLog)
      modifies this
      ensures entries == old(entries) + [entry]
    {
      entries := entries + [entry];
    }
  }

  // ---------------------------------------------------------------- events

  predicate IsNodeEvent(e: SocketEvent) {
    e.NodeStarted? || e.NodeCompleted? || e.NodeFailed?
  }

  predicate IsTerminal(e: SocketEvent) {
    e.ExecutionCompleted? || e.ExecutionFailed?
  }

  /** The name a node event's entry carries: the server's name, or `Node <id>`. */
  function EntryName(d: NodeEventData): (r: string)
    ensures d.nodeName != "" ==> r == d.nodeName
    ensures d.nodeName == "" ==> r == "Node " + d.nodeId
  {
    if d.nodeName != "" then d.nodeName else "Node " + d.nodeId
  }

  /** The entry a node event writes: status running, completed or error, with the event's output or error. */
  function NodePatch(e: SocketEvent): (p: LogPatch)
    requires IsNodeEvent(e)
    ensures p.nodeId == e.data.nodeId && p.nodeName == EntryName(e.data) && p.nodeType == e.data.nodeType
    ensures p.timestamp == e.at
    ensures e.NodeStarted? ==> p.status == Running && p.output.None? && p.error.None?
    ensures e.NodeCompleted? ==> p.status == Completed && p.output == Some(e.data.output) && p.error.None?
    ensures e.NodeFailed? ==> p.status == Failed && p.output.None? && p.error == Some(e.data.error)
  {
    var d := e.data;
    match e
    case NodeStarted(_, at) => LogPatch(d.nodeId, EntryName(d), d.nodeType, Running, at, None, None)
    case NodeCompleted(_, at) => LogPatch(d.nodeId, EntryName(d), d.nodeType, Completed, at, Some(d.output), None)
    case NodeFailed(_, at) => LogPatch(d.nodeId, EntryName(d), d.nodeType, Failed, at, None, Some(d.error))
  }

  /** The log after a run of events, by the handlers as written; other events leave it alone. */
  function ApplyEvents(logs: seq<ExecutionLog>, es: seq<SocketEvent>): seq<ExecutionLog>
    decreases |es|
  {
    if |es| == 0 then logs
    else
      var prev := ApplyEvents(logs, es[..|es| - 1]);
      var e := es[|es| - 1];
      if IsNodeEvent(e) then UpdatedLogs(prev, e.data.nodeId, NodePatch(e)) else prev
  }

  /** As written, node events never add an entry: starting from the empty log, the log stays empty. */
  lemma {:induction false} EventsNeverGrowLogs(es: seq<SocketEvent>)
    ensures ApplyEvents([], es) == []
    decreases |es|
  {
    if |es| > 0 {
      EventsNeverGrowLogs(es[..|es| - 1]);
    }
  }

  /** As written, node events only rewrite entries in place: the log keeps its node ids, in order. */
  lemma {:induction false} ApplyEventsKeepsIds(logs: seq<ExecutionLog>, es: seq<SocketEvent>)
    ensures LogIds(ApplyEvents(logs, es)) == LogIds(logs)
    decreases |es|
  {
    if |es| > 0 {
      ApplyEventsKeepsIds(logs, es[..|es| - 1]);
      var e := es[|es| - 1];
      if IsNodeEvent(e) {
        UpdateKeepsIds(ApplyEvents(logs, es[..|es| - 1]), NodePatch(e));
      }
    }
  }

  /** An update by a patch for a node keeps the node ids of the log. */
  lemma UpdateKeepsIds(logs: seq<ExecutionLog>, p: LogPatch)
    ensures LogIds(UpdatedLogs(logs, p.nodeId, p)) == LogIds(logs)
  {
    UpdatedLogsChangesFirstMatch(logs, p.nodeId, p);
    var a, b := LogIds(UpdatedLogs(logs, p.nodeId, p)), LogIds(logs);
    assert forall i :: 0 <= i < |a| ==> a[i] == b[i];
  }

  /** The socket calls that start following a run: join its room, then listen for the seven events. */
  function Join(executionId: Value): seq<SocketCall> {
    [Emit("joinWorkflow", executionId),
     On("workflow_nodes"), On("node_started"), On("node_completed"), On("node_failed"),
     On("execution_started"), On("execution_completed"), On("execution_failed")]
  }

  /** The socket calls a terminal event makes: leave the room, then drop the listeners. */
  function Teardown(executionId: Value): seq<SocketCall> {
    [Emit("leaveWorkflow", executionId),
     Off("node_started"), Off("workflow_nodes"), Off("node_completed"), Off("node_failed"),
     Off("execution_started"), Off("execution_completed"), Off("execution_failed")]
  }

  /** The events a list of calls listens for, and those it stops listening for. */
  function Listened(calls: seq<SocketCall>): set<string> {
    set i | 0 <= i < |calls| && calls[i].On? :: calls[i].event
  }

  function Dropped(calls: seq<SocketCall>): set<string> {
    set i | 0 <= i < |calls| && calls[i].Off? :: calls[i].event
  }

  /** A teardown leaves the room the join entered and drops every listener the join added, and no other. */
  lemma TeardownUndoesJoin(executionId: Value)
    ensures Teardown(executionId)[0] == Emit("leaveWorkflow", executionId) && Join(executionId)[0] == Emit("joinWorkflow", executionId)
    ensures Dropped(Teardown(executionId)) == Listened(Join(executionId))
    ensures Listened(Teardown(executionId)) == {} && Dropped(Join(executionId)) == {}
  {
    JoinListens(executionId);
    TeardownDrops(executionId);
  }

  /** The seven events a run follows. */
  const RunEvents: set<string> := {"workflow_nodes", "node_started", "node_completed", "node_failed",
                                   "execution_started", "execution_completed", "execution_failed"}

  lemma JoinListens(executionId: Value)
    ensures Listened(Join(executionId)) == RunEvents && Dropped(Join(executionId)) == {}
  {
    var j := Join(executionId);
    assert j[1].event in Listened(j) && j[2].event in Listened(j) && j[3].event in Listened(j);
    assert j[4].event in Listened(j) && j[5].event in Listened(j) && j[6].event in Listened(j);
    assert j[7].event in Listened(j);
  }

  lemma TeardownDrops(executionId: Value)
    ensures Dropped(Teardown(executionId)) == RunEvents && Listened(Teardown(executionId)) == {}
  {
    var t := Teardown(executionId);
    assert t[1].event in Dropped(t) && t[2].event in Dropped(t) && t[3].event in Dropped(t);
    assert t[4].event in Dropped(t) && t[5].event in Dropped(t) && t[6].event in Dropped(t);
    assert t[7].event in Dropped(t);
  }

  /** The result a terminal event resolves the run with. */
  function TerminalResult(logs: seq<ExecutionLog>, e: SocketEvent, res: Value, executionId: Value): (r: ExecutionResult)
    requires IsTerminal(e)
    ensures r.logs == logs && r.executionId == executionId
    ensures e.ExecutionCompleted? ==> r.success && r.finalResponse == (if Truthy(e.output) then e.output else res) &&
                                      r.error == VUndefined
    ensures e.ExecutionFailed? ==> !r.success && r.finalResponse == VNull && r.error == e.error
  {
    match e
    case ExecutionCompleted(output) => ExecutionResult(logs, Or(output, res), true, executionId, VUndefined)
    case ExecutionFailed(error) => ExecutionResult(logs, VNull, false, executionId, error)
  }

  /** The result of the catch path: the log with one system error entry appended, no response, failure. */
  function SystemFailure(logs: seq<ExecutionLog>, message: string, now: int): (r: ExecutionResult)
    ensures r.logs == logs + [ExecutionLog("system", "System", "system", Failed, now, None, VUndefined,
                                           VUndefined, VStr(message))]
    ensures !r.success && r.finalResponse == VNull && r.executionId == VUndefined
  {
    ExecutionResult(logs + [ExecutionLog("system", "System", "system", Failed, now, None, VUndefined,
                                         VUndefined, VStr(message))], VNull, false, VUndefined, VUndefined)
  }

  /** `null` and `undefined`, whose properties cannot be read. */
  predicate NoObject(v: Value) {
    v == VNull || v == VUndefined
  }

  /** The start response's `executionId`; other primitives have none. */
  function ExecutionIdOf(res: Value): (r: Value)
    ensures r != VUndefined ==> res.VObj? && Entry("executionId", r) in res.fields
    ensures res.VObj? && "executionId" !in Keys(res.fields) ==> r == VUndefined
    ensures res.VObj? && "executionId" in Keys(res.fields) ==> Get(res.fields, "executionId") == Some(r)
  {
    if res.VObj? then Lookup(res.fields, "executionId") else VUndefined
  }

  /** `{workflow, input: testInput || {}}`. */
  function RequestFor(w: Workflow, testInput: Value): (r: ExecuteRequest)
    ensures r.workflow == w
    ensures Truthy(testInput) ==> r.input == testInput
    ensures !Truthy(testInput) ==> r.input == VObj([])
  {
    ExecuteRequest(w, Or(testInput, VObj([])))
  }

  /**
   * `executeWorkflow`: without a workflow, or when the start request fails, resolves through the
   * catch path; with a socket, reading `executionId` off a null or undefined start response throws,
   * and `typeErrorMessage` is the engine's message for that `TypeError`; without a socket or an
   * execution id, resolves with the start response; otherwise joins the execution's room and folds
   * the events until the first terminal one, which leaves the room, drops the listeners and resolves
   * the run.
   */
  method ExecuteWorkflow(testInput: Value, workflow: Option<Workflow>, start: StartOutcome, hasSocket: bool,
                         events: seq<SocketEvent>, now: int, typeErrorMessage: string)
    returns (request: Option<ExecuteRequest>, calls: seq<SocketCall>, outcome: Outcome)
    ensures workflow.None? ==>
      request == None && calls == [] &&
      outcome == Resolved(SystemFailure([], "Workflow is required for execution", now))
    ensures workflow.Some? ==> request == Some(RequestFor(workflow.value, testInput))
    ensures workflow.Some? && start.Rejected? ==>
      calls == [] && outcome == Resolved(SystemFailure([], start.message, now))
    ensures workflow.Some? && start.Responded? && hasSocket && NoObject(start.res) ==>
      calls == [] && outcome == Resolved(SystemFailure([], typeErrorMessage, now))
    ensures workflow.Some? && start.Responded? && !(hasSocket && NoObject(start.res)) &&
            !(hasSocket && Truthy(ExecutionIdOf(start.res))) ==>
      calls == [] && outcome == Resolved(ExecutionResult([], start.res, true, VUndefined, VUndefined))
    ensures workflow.Some? && start.Responded? && hasSocket && Truthy(ExecutionIdOf(start.res)) ==>
      var id := ExecutionIdOf(start.res);
      var k := Seqs.FirstIndex(events, IsTerminal);
      (k == -1 ==> calls == Join(id) && outcome == Unresolved) &&
      (0 <= k ==> calls == Join(id) + Teardown(id) &&
                  outcome == Resolved(TerminalResult(ApplyEvents([], events[..k]), events[k], start.res, id)))
  {
    var logs := new LogBuffer();
    calls := [];
    request := None;
    if workflow.None? {
      logs.Push(ExecutionLog("system", "System", "system", Failed, now, None, VUndefined, VUndefined,
                             VStr("Workflow is required for execution")));
      outcome := Resolved(ExecutionResult(logs.entries, VNull, false, VUndefined, VUndefined));
      return;
    }
    request := Some(ExecuteRequest(workflow.value, Or(testInput, VObj([]))));
    if start.Rejected? {
      logs.Push(ExecutionLog("system", "System", "system", Failed, now, None, VUndefined, VUndefined,
                             VStr(start.message)));
      outcome := Resolved(ExecutionResult(logs.entries, VNull, false, VUndefined, VUndefined));
      return;
    }
    var res := start.res;
    if hasSocket && NoObject(res) {
      logs.Push(ExecutionLog("system", "System", "system", Failed, now, None, VUndefined, VUndefined,
                             VStr(typeErrorMessage)));
      outcome := Resolved(ExecutionResult(logs.entries, VNull, false, VUndefined, VUndefined));
      return;
    }
    var executionId := ExecutionIdOf(res);
    if !(hasSocket && Truthy(executionId)) {
      outcome := Resolved(ExecutionResult(logs.entries, res, true, VUndefined, VUndefined));
      return;
    }
    calls := Join(executionId);
    outcome := Unresolved;
    var i := 0;
    while i < |events|
      invariant 0 <= i <= |events|
      invariant logs.entries == ApplyEvents([], events[..i])
      invariant forall j :: 0 <= j < i ==> !IsTerminal(events[j])
      invariant calls == Join(executionId) && outcome == Unresolved
    {
      var e := events[i];
      assert events[..i + 1][..i] == events[..i];
      if IsTerminal(e) {
        Seqs.FirstIndexIs(events, IsTerminal, i);
        calls := calls + Teardown(executionId);
        outcome := Resolved(TerminalResult(logs.entries, e, res, executionId));
        return;
      }
      if IsNodeEvent(e) {
        logs.UpdateLogEntry(e.data.nodeId, NodePatch(e));
      }
      i := i + 1;
    }
  }

  /**
   * As written, a run followed over the socket always resolves with an empty log, whatever the
   * node events reported.
   */
  lemma SocketRunLogsAreEmpty(events: seq<SocketEvent>, res: Value, id: Value)
    requires Seqs.FirstIndex(events, IsTerminal) >= 0
    ensures var k := Seqs.FirstIndex(events, IsTerminal);
      TerminalResult(ApplyEvents([], events[..k]), events[k], res, id).logs == []
  {
    EventsNeverGrowLogs(events[..Seqs.FirstIndex(events, IsTerminal)]);
  }

  // ---------------------------------------------------------------- the corrected log update

  /** The entry a patch creates for a node that has none yet. */
  function NewLog(p: LogPatch): ExecutionLog {
    ExecutionLog(p.nodeId, p.nodeName, p.nodeType, p.status, p.timestamp, None, VUndefined,
                 p.output.GetOr(VUndefined), p.error.GetOr(VUndefined))
  }

  /** Update the node's entry, or append one when there is none. */
  function UpsertedLogs(logs: seq<ExecutionLog>, nodeId: string, p: LogPatch): seq<ExecutionLog> {
    var k := LogIndex(logs, nodeId);
    if k == -1 then logs + [NewLog(p)] else logs[k := Merge(logs[k], p)]
  }

  function UpsertEvents(logs: seq<ExecutionLog>, es: seq<SocketEvent>): seq<ExecutionLog>
    decreases |es|
  {
    if |es| == 0 then logs
    else
      var prev := UpsertEvents(logs, es[..|es| - 1]);
      var e := es[|es| - 1];
      if IsNodeEvent(e) then UpsertedLogs(prev, e.data.nodeId, NodePatch(e)) else prev
  }

  function LogIds(logs: seq<ExecutionLog>): (r: seq<string>)
    ensures |r| == |logs| && forall i :: 0 <= i < |logs| ==> r[i] == logs[i].nodeId
  {
    if |logs| == 0 then [] else [logs[0].nodeId] + LogIds(logs[1..])
  }

  predicate DistinctLogIds(logs: seq<ExecutionLog>) {
    forall i, j :: 0 <= i < j < |logs| ==> logs[i].nodeId != logs[j].nodeId
  }

  /** One upsert keeps the node ids distinct, keeps every id, and leaves the node's entry with the patch's status. */
  lemma UpsertStep(logs: seq<ExecutionLog>, p: LogPatch)
    requires DistinctLogIds(logs)
    ensures var r := UpsertedLogs(logs, p.nodeId, p);
      DistinctLogIds(r) &&
      (forall x :: x in LogIds(logs) ==> x in LogIds(r)) &&
      0 <= LogIndex(r, p.nodeId) && r[LogIndex(r, p.nodeId)].status == p.status
  {
    var r := UpsertedLogs(logs, p.nodeId, p);
    var k := LogIndex(logs, p.nodeId);
    if k == -1 {
      assert r == logs + [NewLog(p)];
      forall i, j | 0 <= i < j < |r| ensures r[i].nodeId != r[j].nodeId {
        assert r[i] == logs[i];
        if j < |logs| {
          assert r[j] == logs[j];
        }
      }
      forall x | x in LogIds(logs) ensures x in LogIds(r) {
        var m :| 0 <= m < |logs| && LogIds(logs)[m] == x;
        assert LogIds(r)[m] == x;
      }
      assert r[|logs|].nodeId == p.nodeId;
    } else {
      forall i, j | 0 <= i < j < |r| ensures r[i].nodeId != r[j].nodeId {
        assert r[i].nodeId == logs[i].nodeId && r[j].nodeId == logs[j].nodeId;
      }
      forall x | x in LogIds(logs) ensures x in LogIds(r) {
        var m :| 0 <= m < |logs| && LogIds(logs)[m] == x;
        assert LogIds(r)[m] == x;
      }
      assert r[k].nodeId == p.nodeId;
    }
  }

  /** With the upsert, the log holds at most one entry per node. */
  lemma {:induction false} UpsertEventsDistinct(es: seq<SocketEvent>)
    ensures DistinctLogIds(UpsertEvents([], es))
    decreases |es|
  {
    if |es| > 0 {
      UpsertEventsDistinct(es[..|es| - 1]);
      var e := es[|es| - 1];
      if IsNodeEvent(e) {
        UpsertStep(UpsertEvents([], es[..|es| - 1]), NodePatch(e));
      }
    }
  }

  /** With the upsert, every node that reported an event has an entry. */
  lemma {:induction false} UpsertEventsCover(es: seq<SocketEvent>)
    ensures forall i :: 0 <= i < |es| && IsNodeEvent(es[i]) ==> es[i].data.nodeId in LogIds(UpsertEvents([], es))
    decreases |es|
  {
    if |es| > 0 {
      var es' := es[..|es| - 1];
      UpsertEventsCover(es');
      UpsertEventsDistinct(es');
      var prev := UpsertEvents([], es');
      var e := es[|es| - 1];
      if IsNodeEvent(e) {
        UpsertStep(prev, NodePatch(e));
        var r := UpsertEvents([], es);
        forall i | 0 <= i < |es| && IsNodeEvent(es[i]) ensures es[i].data.nodeId in LogIds(r) {
          if i < |es| - 1 {
            assert es'[i] == es[i];
          } else {
            assert LogIds(r)[LogIndex(r, e.data.nodeId)] == e.data.nodeId;
          }
        }
      } else {
        forall i | 0 <= i < |es| && IsNodeEvent(es[i]) ensures es[i].data.nodeId in LogIds(prev) {
          assert es'[i] == es[i];
        }
      }
    }
  }

  /** With the upsert, a node's entry carries the status of the event just applied to it. */
  lemma UpsertEventsLastStatus(es: seq<SocketEvent>)
    requires |es| > 0 && IsNodeEvent(es[|es| - 1])
    ensures var logs := UpsertEvents([], es);
      var k := LogIndex(logs, es[|es| - 1].data.nodeId);
      0 <= k && logs[k].status == NodePatch(es[|es| - 1]).status
  {
    UpsertEventsDistinct(es[..|es| - 1]);
    UpsertStep(UpsertEvents([], es[..|es| - 1]), NodePatch(es[|es| - 1]));
  }

  /**
   * The completed-run scenario with the upsert: a node that starts and then completes ends with
   * one completed entry carrying its output and the completion time, and the run succeeds.
   */
  lemma CorrectedCompletedRun(d: NodeEventData, t1: int, t2: int, out: Value, res: Value, id: Value)
    requires Truthy(out)
    ensures var events := [NodeStarted(d, t1), NodeCompleted(d, t2), ExecutionCompleted(out)];
      var r := TerminalResult(UpsertEvents([], events[..2]), events[2], res, id);
      r.success && r.finalResponse == out &&
      r.logs == [ExecutionLog(d.nodeId, EntryName(d), d.nodeType, Completed, t2, None, VUndefined, d.output, VUndefined)]
  {
    var events := [NodeStarted(d, t1), NodeCompleted(d, t2), ExecutionCompleted(out)];
    assert events[..2][..1] == [NodeStarted(d, t1)];
    assert events[..2][..1][..0] == [];
    assert UpsertEvents([], events[..2][..1]) ==
      [ExecutionLog(d.nodeId, EntryName(d), d.nodeType, Running, t1, None, VUndefined, VUndefined, VUndefined)];
  }
}
