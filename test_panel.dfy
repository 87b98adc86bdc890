/**
 * The test panel: the set of expanded log lines, the per-node status table built from the
 * canvas nodes and the execution log, the status colours and duration text, and the JSON request
 * input that a run is started with. `JSON.parse` and `JSON.stringify` are parameters; `parse`
 * returns `None` where `JSON.parse` throws.
 */
module TestPanel {
  import opened Wrappers
  import opened Values
  import opened Graph
  import opened Executor
  import Text

  /** Expanding or collapsing one log line: the id flips membership, every other id stays as it was. */
  function ToggleLogExpansion(expanded: set<string>, nodeId: string): (r: set<string>)
    ensures nodeId in r <==> nodeId !in expanded
    ensures forall id :: id != nodeId ==> (id in r <==> id in expanded)
  {
    if nodeId in expanded then expanded - {nodeId} else expanded + {nodeId}
  }

  /** Toggling the same line twice leaves the set as it was. */
  lemma ToggleTwice(expanded: set<string>, nodeId: string)
    ensures ToggleLogExpansion(ToggleLogExpansion(expanded, nodeId), nodeId) == expanded
  {
    var once := ToggleLogExpansion(expanded, nodeId);
    var twice := ToggleLogExpansion(once, nodeId);
    forall id ensures id in twice <==> id in expanded {
      if id == nodeId {
        assert id in once <==> id !in expanded;
      } else {
        assert id in once <==> id in expanded;
      }
    }
  }

  /** The line a node starts with before any log arrives. */
  function PendingLog(n: Node, now: int): ExecutionLog {
    ExecutionLog(n.id, Stringify(Or(Lookup(n.data, "label"), VStr(n.id))),
                 if n.nodeType != "" then n.nodeType else "unknown",
                 Pending, now, None, VUndefined, VUndefined, VUndefined)
  }

  /** A table from each node's id to `f` of the node, in canvas order (a later node with the same id wins). */
  function ById<V>(nodes: seq<Node>, f: Node -> V): map<string, V>
    decreases |nodes|
  {
    if |nodes| == 0 then map[]
    else
      var n := nodes[|nodes| - 1];
      ById(nodes[..|nodes| - 1], f)[n.id := f(n)]
  }

  /** Every node set to pending. */
  function PendingStatuses(nodes: seq<Node>, now: int): map<string, ExecutionLog> {
    ById(nodes, n => PendingLog(n, now))
  }

  /** The log entries set over `base`, in log order. */
  function Overridden(base: map<string, ExecutionLog>, logs: seq<ExecutionLog>): map<string, ExecutionLog>
    decreases |logs|
  {
    if |logs| == 0 then base
    else
      var l := logs[|logs| - 1];
      Overridden(base, logs[..|logs| - 1])[l.nodeId := l]
  }

  /** The last log entry for a node, if any. */
  function LastLog(logs: seq<ExecutionLog>, nodeId: string): (r: Option<ExecutionLog>)
    ensures r.None? <==> forall i :: 0 <= i < |logs| ==> logs[i].nodeId != nodeId
    ensures r.Some? ==> r.value.nodeId == nodeId && r.value in logs
    decreases |logs|
  {
    if |logs| == 0 then None
    else if logs[|logs| - 1].nodeId == nodeId then Some(logs[|logs| - 1])
    else
      var init := logs[..|logs| - 1];
      assert forall i :: 0 <= i < |init| ==> init[i] == logs[i];
      LastLog(init, nodeId)
  }

  /** The entry found is the node's last one: no later entry has that node's id. */
  lemma {:induction false} LastLogIsLast(logs: seq<ExecutionLog>, nodeId: string) returns (i: nat)
    requires LastLog(logs, nodeId).Some?
    ensures i < |logs| && logs[i] == LastLog(logs, nodeId).value
    ensures forall j :: i < j < |logs| ==> logs[j].nodeId != nodeId
    decreases |logs|
  {
    var last := |logs| - 1;
    if logs[last].nodeId == nodeId {
      i := last;
    } else {
      var init := logs[..last];
      i := LastLogIsLast(init, nodeId);
      assert logs[i] == init[i];
      forall j | i < j < |logs| ensures logs[j].nodeId != nodeId {
        if j < last {
          assert logs[j] == init[j];
        }
      }
    }
  }

  /**
   * The status table: a node's id holds its last log entry when it has one, and its pending line
   * otherwise; a log entry for an id that is not on the canvas is added as it is.
   */
  method MergeStatuses(nodes: seq<Node>, logs: seq<ExecutionLog>, now: int) returns (statuses: map<string, ExecutionLog>)
    ensures statuses == Overridden(PendingStatuses(nodes, now), logs)
  {
    statuses := map[];
    var i := 0;
    while i < |nodes|
      invariant 0 <= i <= |nodes|
      invariant statuses == ById(nodes[..i], n => PendingLog(n, now))
    {
      assert nodes[..i + 1][..i] == nodes[..i];
      statuses := statuses[nodes[i].id := PendingLog(nodes[i], now)];
      i := i + 1;
    }
    assert nodes[..|nodes|] == nodes;
    var j := 0;
    while j < |logs|
      invariant 0 <= j <= |logs|
      invariant statuses == Overridden(PendingStatuses(nodes, now), logs[..j])
    {
      assert logs[..j + 1][..j] == logs[..j];
      statuses := statuses[logs[j].nodeId := logs[j]];
      j := j + 1;
    }
    assert logs[..|logs|] == logs;
  }

  /** The table holds exactly the nodes' ids. */
  lemma {:induction false} ByIdKeys<V>(nodes: seq<Node>, f: Node -> V, k: string)
    ensures k in ById(nodes, f) <==> k in NodeIds(nodes)
    decreases |nodes|
  {
    if |nodes| > 0 {
      var last := |nodes| - 1;
      var init := nodes[..last];
      ByIdKeys(init, f, k);
      var ids, initIds := NodeIds(nodes), NodeIds(init);
      if k in initIds {
        var j :| 0 <= j < |initIds| && initIds[j] == k;
        assert ids[j] == init[j].id;
      }
      if k in ids && k != nodes[last].id {
        var j :| 0 <= j < |ids| && ids[j] == k;
        assert initIds[j] == nodes[j].id;
      }
      assert ids[last] == nodes[last].id;
    } else {
      assert ById(nodes, f) == map[];
    }
  }

  /** With distinct ids, every node's id holds `f` of that node. */
  lemma {:induction false} ByIdAt<V>(nodes: seq<Node>, f: Node -> V, i: nat)
    requires UniqueNodeIds(nodes) && i < |nodes|
    ensures nodes[i].id in ById(nodes, f) && ById(nodes, f)[nodes[i].id] == f(nodes[i])
    decreases |nodes|
  {
    var last := |nodes| - 1;
    if i < last {
      var init := nodes[..last];
      assert init[i] == nodes[i];
      assert UniqueNodeIds(init) by {
        forall a, b | 0 <= a < b < |init| ensures init[a].id != init[b].id {
          assert init[a] == nodes[a] && init[b] == nodes[b];
        }
      }
      ByIdAt(init, f, i);
      assert nodes[last].id != nodes[i].id;
    }
  }

  /** The pending table holds exactly the canvas nodes' ids. */
  lemma PendingStatusesKeys(nodes: seq<Node>, now: int, k: string)
    ensures k in PendingStatuses(nodes, now) <==> k in NodeIds(nodes)
  {
    ByIdKeys(nodes, n => PendingLog(n, now), k);
  }

  /** With distinct ids, every canvas node's id holds that node's pending line. */
  lemma PendingStatusAt(nodes: seq<Node>, now: int, i: nat)
    requires UniqueNodeIds(nodes) && i < |nodes|
    ensures nodes[i].id in PendingStatuses(nodes, now)
    ensures PendingStatuses(nodes, now)[nodes[i].id] == PendingLog(nodes[i], now)
  {
    ByIdAt(nodes, n => PendingLog(n, now), i);
  }

  /** A log entry overrides the base line of its node: the last entry for an id wins. */
  lemma {:induction false} OverriddenReads(base: map<string, ExecutionLog>, logs: seq<ExecutionLog>, k: string)
    ensures k in Overridden(base, logs) <==> LastLog(logs, k).Some? || k in base
    ensures k in Overridden(base, logs) ==>
      Overridden(base, logs)[k] == if LastLog(logs, k).Some? then LastLog(logs, k).value else base[k]
    decreases |logs|
  {
    if |logs| > 0 {
      OverriddenReads(base, logs[..|logs| - 1], k);
    } else {
      assert Overridden(base, logs) == base;
    }
  }

  /** The colour class for a status: completed green, running blue, error red, anything else grey. */
  function StatusColor(status: Status): (r: string)
    ensures status == Completed ==> r == "text-green-600"
    ensures status == Running ==> r == "text-blue-600"
    ensures status == Failed ==> r == "text-red-600"
    ensures status == Pending ==> r == "text-gray-600"
  {
    match status
    case Completed => "text-green-600"
    case Running => "text-blue-600"
    case Failed => "text-red-600"
    case _ => "text-gray-600"
  }

  /** Different statuses never share a colour. */
  lemma StatusColorsDistinct(s: Status, t: Status)
    requires s != t
    ensures StatusColor(s) != StatusColor(t)
  {
  }

  /** A duration's text: nothing for a missing or zero duration, otherwise the number and "ms". */
  function FormatDuration(duration: Option<int>): (r: string)
    ensures r == "" <==> duration.None? || duration.value == 0
    ensures r != "" ==> r == Text.IntToString(duration.value) + "ms"
  {
    if duration.None? || duration.value == 0 then ""
    else
      assert |Text.IntToString(duration.value)| > 0;
      Text.IntToString(duration.value) + "ms"
  }

  /** A positive duration's text reads back as the same number of milliseconds. */
  lemma FormatDurationReadsBack(duration: nat)
    requires duration > 0
    ensures var r := FormatDuration(Some(duration));
      |r| > 2 && r[|r| - 2..] == "ms" &&
      (forall i :: 0 <= i < |r| - 2 ==> '0' <= r[i] <= '9') && Text.DigitsValue(r[..|r| - 2]) == duration
  {
    var r := FormatDuration(Some(duration));
    var digits := Text.NatToString(duration);
    assert r == digits + "ms";
    assert r[..|r| - 2] == digits;
    Text.NatToStringRoundTrip(duration);
  }

  /** The panel's own state. */
  class Panel {
    var expandedLogs: set<string>
    var testInput: string
    var isValidJson: bool

    constructor ()
      ensures expandedLogs == {} && testInput == "{\n  \"body\": {}\n}" && isValidJson
    {
      expandedLogs := {};
      testInput := "{\n  \"body\": {}\n}";
      isValidJson := true;
    }

    method ToggleLog(nodeId: string)
      modifies this
      ensures expandedLogs == ToggleLogExpansion(old(expandedLogs), nodeId)
      ensures testInput == old(testInput) && isValidJson == old(isValidJson)
    {
      expandedLogs := ToggleLogExpansion(expandedLogs, nodeId);
    }

    /** Request data in the store, when there is some, replaces the input text with its JSON rendering. */
    method SyncRequestData(requestData: Value, stringify: Value -> string)
      modifies this
      ensures testInput == if Truthy(requestData) then stringify(requestData) else old(testInput)
      ensures expandedLogs == old(expandedLogs) && isValidJson == old(isValidJson)
    {
      if Truthy(requestData) {
        testInput := stringify(requestData);
      }
    }

    /**
     * Editing the input keeps the text; valid JSON marks it valid and dispatches the parsed
     * request data, invalid JSON marks it invalid and dispatches nothing.
     */
    method HandleTestInputChange(value: string, parse: string -> Option<Value>) returns (dispatched: Option<Value>)
      modifies this
      ensures testInput == value && expandedLogs == old(expandedLogs)
      ensures isValidJson <==> parse(value).Some?
      ensures dispatched == parse(value)
    {
      testInput := value;
      match parse(value)
      case Some(parsed) =>
        isValidJson := true;
        dispatched := Some(parsed);
      case None =>
        isValidJson := false;
        dispatched := None;
    }

    /** Run: starts the workflow with the parsed input, or not at all when the input does not parse. */
    method HandleRunWorkflow(parse: string -> Option<Value>) returns (run: Option<Value>)
      ensures run.Some? <==> parse(testInput).Some?
      ensures run.Some? ==> run == parse(testInput)
    {
      run := parse(testInput);
    }
  }
}
