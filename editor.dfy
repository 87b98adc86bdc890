/**
 * The canvas editor's event handlers. Each handler reads one render's view of the store
 * (the fields of `Canvas`) and issues store actions; the handlers are modelled by the
 * sequence of actions they dispatch, in order. The reducers of the node, edge and
 * selection slices are not part of this model; the history reducer is (module History).
 */
module Editor {
  import opened Wrappers
  import opened Values
  import opened Graph
  import opened Api
  import opened History

  /** A ReactFlow node change; only position changes are inspected by the editor. */
  datatype NodeChange =
    | PositionChange(id: string, dragging: bool, position: Option<Position>)
    | OtherChange(id: string)

  /** A connection drawn between two handles. */
  datatype Connection = Connection(source: string, target: string,
                                   sourceHandle: Option<string>, targetHandle: Option<string>)

  /** A key press as the window listener sees it; `inFormField` is true when its target is an input, textarea or select. */
  datatype KeyEvent = KeyEvent(key: string, ctrl: bool, meta: bool, shift: bool, inFormField: bool)

  /** The store actions the handlers dispatch, with their payloads. */
  datatype Action =
    | SetNodes(nodes: seq<Node>)
    | SetWorkflowNodes(nodes: seq<Node>)
    | SetWorkflowEdges(edges: seq<Edge>)
    | AddEdge(edge: Edge)
    | UpdateNodeData(id: string, data: Record)
    | RemoveSelectedEdges(ids: seq<string>)
    | DuplicateNode(id: string, newId: string, position: Position)
    | RemoveNode(id: string)
    | RemoveEdgesByNodeId(id: string)
    | SetSelectedNode(selection: Option<Node>)
    | SetClipboard(copied: seq<Node>)
    | AddNode(added: Node)
    | SetShowPalette(show: bool)
    | SetShowTestPanel(show: bool)
    | SetIsRunning(running: bool)
    | RunWorkflow(workflow: Workflow, testInput: Option<Value>)
    | ToastError(message: string)
    | RecordHistory(snapshot: Snapshot)
    | UndoHistory
    | RedoHistory

  /** The keyboard shortcuts the editor binds. */
  datatype Command = Delete | Copy | Cut | Paste | Duplicate | Undo | Redo

  /** The node types the canvas registers. */
  const NodeTypes: set<string> :=
    {"apiStart", "parameters", "logic", "response", "jwtGenerate", "jwtVerify", "database", "condition", "loop"}

  // ---------------------------------------------------------------- dragging

  /** A change that moves a node: a position change, while dragging, carrying a position. */
  predicate IsDrag(c: NodeChange) {
    c.PositionChange? && c.dragging && c.position.Some?
  }

  /** One change applied to the working copy: the first node with the change's id takes the new position. */
  function ApplyDrag(ns: seq<Node>, c: NodeChange): seq<Node> {
    if !IsDrag(c) then ns
    else
      var k := IndexOf(ns, c.id);
      if k == -1 then ns else ns[k := ns[k].(position := c.position.value)]
  }

  /** The changes applied in order. */
  function ApplyDrags(ns: seq<Node>, cs: seq<NodeChange>): seq<Node>
    decreases |cs|
  {
    if |cs| == 0 then ns else ApplyDrag(ApplyDrags(ns, cs[..|cs| - 1]), cs[|cs| - 1])
  }

  /** Some change in `cs` drags a node that exists. */
  predicate DragHits(ns: seq<Node>, cs: seq<NodeChange>) {
    exists i :: 0 <= i < |cs| && IsDrag(cs[i]) && cs[i].id in NodeIds(ns)
  }

  /** The position of the last drag of `id` in `cs`, if any. */
  function LastDrag(cs: seq<NodeChange>, id: string): Option<Position>
    decreases |cs|
  {
    if |cs| == 0 then None
    else if IsDrag(cs[|cs| - 1]) && cs[|cs| - 1].id == id then cs[|cs| - 1].position
    else LastDrag(cs[..|cs| - 1], id)
  }

  /** One more change of a batch: its drag is applied on top, and it hits when it drags an existing node. */
  lemma DragPrefixStep(ns: seq<Node>, cs: seq<NodeChange>, i: nat)
    requires i < |cs|
    ensures ApplyDrags(ns, cs[..i + 1]) == ApplyDrag(ApplyDrags(ns, cs[..i]), cs[i])
    ensures DragHits(ns, cs[..i + 1]) <==> DragHits(ns, cs[..i]) || (IsDrag(cs[i]) && cs[i].id in NodeIds(ns))
  {
    var pre, next := cs[..i], cs[..i + 1];
    assert next[..i] == pre && next[i] == cs[i];
    if DragHits(ns, next) && !(IsDrag(cs[i]) && cs[i].id in NodeIds(ns)) {
      var j :| 0 <= j < i + 1 && IsDrag(next[j]) && next[j].id in NodeIds(ns);
      assert pre[j] == next[j];
    }
    if DragHits(ns, pre) {
      var j :| 0 <= j < i && IsDrag(pre[j]) && pre[j].id in NodeIds(ns);
      assert next[j] == pre[j];
    }
  }

  lemma {:induction false} ApplyDragsKeepsIds(ns: seq<Node>, cs: seq<NodeChange>)
    ensures NodeIds(ApplyDrags(ns, cs)) == NodeIds(ns)
    decreases |cs|
  {
    if |cs| > 0 {
      ApplyDragsKeepsIds(ns, cs[..|cs| - 1]);
    }
  }

  /**
   * With unique ids, dragging moves each node to the position of its last drag and leaves
   * everything else about the node, and the order of the nodes, unchanged.
   */
  lemma {:induction false} ApplyDragsMoves(ns: seq<Node>, cs: seq<NodeChange>)
    requires UniqueNodeIds(ns)
    ensures |ApplyDrags(ns, cs)| == |ns|
    ensures forall j :: 0 <= j < |ns| ==>
      ApplyDrags(ns, cs)[j] == ns[j].(position := LastDrag(cs, ns[j].id).GetOr(ns[j].position))
    decreases |cs|
  {
    if |cs| > 0 {
      var cs' := cs[..|cs| - 1];
      var c := cs[|cs| - 1];
      ApplyDragsMoves(ns, cs');
      var prev := ApplyDrags(ns, cs');
      if IsDrag(c) {
        var k := IndexOf(prev, c.id);
        if k != -1 {
          forall j | 0 <= j < |ns| && j != k
            ensures ns[j].id != c.id
          {
            assert prev[k].id == ns[k].id;
          }
        }
      }
    }
  }

  /** Nothing moves unless some drag names an existing node. */
  lemma {:induction false} NoHitNoMove(ns: seq<Node>, cs: seq<NodeChange>)
    requires !DragHits(ns, cs)
    ensures ApplyDrags(ns, cs) == ns
    decreases |cs|
  {
    if |cs| > 0 {
      var cs' := cs[..|cs| - 1];
      assert !DragHits(ns, cs') by {
        forall i | 0 <= i < |cs'| ensures !(IsDrag(cs'[i]) && cs'[i].id in NodeIds(ns)) {
          assert cs'[i] == cs[i];
        }
      }
      NoHitNoMove(ns, cs');
      assert !(IsDrag(cs[|cs| - 1]) && cs[|cs| - 1].id in NodeIds(ns));
    }
  }

  /** A render's view of the store, and the canvas element the editor is mounted in. */
  class Canvas {
    var nodes: seq<Node>
    var edges: seq<Edge>
    var selectedNode: Option<Node>
    var selectedEdges: seq<Edge>
    var clipboard: seq<Node>
    var isHistoryAction: bool
    var currentWorkflow: Option<Workflow>
    /** The canvas wrapper element is mounted. */
    var hasCanvas: bool

    constructor (nodes: seq<Node>, edges: seq<Edge>, selectedNode: Option<Node>, selectedEdges: seq<Edge>,
                 clipboard: seq<Node>, isHistoryAction: bool, currentWorkflow: Option<Workflow>, hasCanvas: bool)
      ensures this.nodes == nodes && this.edges == edges && this.selectedNode == selectedNode
      ensures this.selectedEdges == selectedEdges && this.clipboard == clipboard
      ensures this.isHistoryAction == isHistoryAction && this.currentWorkflow == currentWorkflow
      ensures this.hasCanvas == hasCanvas
    {
      this.nodes := nodes;
      this.edges := edges;
      this.selectedNode := selectedNode;
      this.selectedEdges := selectedEdges;
      this.clipboard := clipboard;
      this.isHistoryAction := isHistoryAction;
      this.currentWorkflow := currentWorkflow;
      this.hasCanvas := hasCanvas;
    }

    /**
     * Applies the drags in a batch of canvas changes to a copy of the nodes; when some drag
     * hit a node, publishes the copy to both node stores.
     */
    method OnNodesChange(changes: seq<NodeChange>) returns (actions: seq<Action>)
      ensures actions == if DragHits(nodes, changes)
                         then [SetNodes(ApplyDrags(nodes, changes)), SetWorkflowNodes(ApplyDrags(nodes, changes))]
                         else []
    {
      var updated := nodes;
      var hasChanges := false;
      var i := 0;
      while i < |changes|
        invariant 0 <= i <= |changes|
        invariant updated == ApplyDrags(nodes, changes[..i])
        invariant hasChanges == DragHits(nodes, changes[..i])
      {
        var c := changes[i];
        DragPrefixStep(nodes, changes, i);
        ApplyDragsKeepsIds(nodes, changes[..i]);
        ghost var before := updated;
        if IsDrag(c) {
          var k := IndexOf(updated, c.id);
          assert k != -1 <==> c.id in NodeIds(nodes);
          if k != -1 {
            updated := updated[k := updated[k].(position := c.position.value)];
            hasChanges := true;
          }
        }
        assert updated == ApplyDrag(before, c);
        i := i + 1;
      }
      assert changes[..i] == changes;
      if hasChanges {
        actions := [SetNodes(updated), SetWorkflowNodes(updated)];
      } else {
        actions := [];
      }
    }

    /** The snapshot the record effect sends while the history flag is clear, as written. */
    function RecordHistoryEffect(): (r: seq<Action>)
      reads this
      ensures r == [] <==> isHistoryAction
      ensures r != [] ==> r == [RecordHistory(Snapshot(nodes, edges))]
    {
      if !isHistoryAction then [RecordHistory(Snapshot(nodes, edges))] else []
    }

    /** The record effect dispatching the snapshot on every change, leaving the swallowing to the reducer. */
    function RecordHistoryEffectCorrected(): (r: seq<Action>)
      reads this
      ensures r == [RecordHistory(Snapshot(nodes, edges))]
    {
      [RecordHistory(Snapshot(nodes, edges))]
    }

    /**
     * Adds the edge `e<source>-<target>` and republishes the edge list; when the source is a
     * condition or loop node and the connection leaves its "true" or "false" handle, binds the
     * edge id into that node's data under `trueEdgeId`/`falseEdgeId`.
     */
    function OnConnect(conn: Connection): (r: seq<Action>)
      reads this
      ensures |r| == 2 || |r| == 3
      ensures r[0] == AddEdge(NewEdge(conn)) && r[1] == SetWorkflowEdges(edges + [NewEdge(conn)])
      ensures NewEdge(conn).id == "e" + conn.source + "-" + conn.target
      ensures |r| == 3 <==> BindsBranch(nodes, conn)
      ensures |r| == 3 ==>
        var source := nodes[IndexOf(nodes, conn.source)];
        var field := BranchField(conn.sourceHandle);
        r[2].UpdateNodeData? && r[2].id == conn.source &&
        Get(r[2].data, field) == Some(VStr(NewEdge(conn).id)) &&
        Get(r[2].data, "node") == None &&
        (forall k :: k != field && k != "node" ==> Get(r[2].data, k) == Get(source.data, k))
    {
      var e := NewEdge(conn);
      var base := [AddEdge(e), SetWorkflowEdges(edges + [e])];
      if BindsBranch(nodes, conn) then
        var source := nodes[IndexOf(nodes, conn.source)];
        BindEdgeReads(source.data, BranchField(conn.sourceHandle), e.id);
        base + [UpdateNodeData(source.id, BindEdge(source.data, BranchField(conn.sourceHandle), e.id))]
      else base
    }

    /** Duplicates the selected node under a new id, 50 units right of and below it. */
    function DuplicateSelectedNode(now: string): (r: seq<Action>)
      reads this
      ensures selectedNode.None? ==> r == []
      ensures selectedNode.Some? ==>
        var n := selectedNode.value;
        |r| == 1 && r[0].DuplicateNode? && r[0].id == n.id && r[0].newId != n.id &&
        r[0].newId == n.id + "-copy-" + now &&
        r[0].position == Position(n.position.x + 50.0, n.position.y + 50.0)
    {
      match selectedNode
      case None => []
      case Some(n) =>
        [DuplicateNode(n.id, n.id + "-copy-" + now, Position(n.position.x + 50.0, n.position.y + 50.0))]
    }

    /** Removes the selected node and every edge touching it, then clears the selection. */
    function DeleteSelectedNode(): (r: seq<Action>)
      reads this
      ensures selectedNode.None? ==> r == []
      ensures selectedNode.Some? ==>
        r == [RemoveNode(selectedNode.value.id), RemoveEdgesByNodeId(selectedNode.value.id), SetSelectedNode(None)]
    {
      match selectedNode
      case None => []
      case Some(n) => [RemoveNode(n.id), RemoveEdgesByNodeId(n.id), SetSelectedNode(None)]
    }

    /** Puts the selected node, alone, on the clipboard. */
    function CopySelectedNode(): (r: seq<Action>)
      reads this
      ensures selectedNode.None? ==> r == []
      ensures selectedNode.Some? ==> r == [SetClipboard([selectedNode.value])]
    {
      match selectedNode
      case None => []
      case Some(n) => [SetClipboard([n])]
    }

    /** Removes the selected edges, when there are any, by id. */
    function DeleteSelectedEdges(): (r: seq<Action>)
      reads this
      ensures |selectedEdges| == 0 <==> r == []
      ensures r != [] ==> r == [RemoveSelectedEdges(EdgeIds(selectedEdges))]
    {
      if |selectedEdges| > 0 then [RemoveSelectedEdges(EdgeIds(selectedEdges))] else []
    }

    /** Copy, then delete, the selected node. */
    method CutSelectedNode() returns (actions: seq<Action>)
      ensures selectedNode.None? ==> actions == []
      ensures selectedNode.Some? ==>
        var id := selectedNode.value.id;
        actions == [SetClipboard([selectedNode.value]), RemoveNode(id), RemoveEdgesByNodeId(id), SetSelectedNode(None)]
    {
      actions := [];
      if selectedNode.Some? {
        actions := actions + CopySelectedNode();
        actions := actions + DeleteSelectedNode();
      }
    }

    /**
     * Adds one copy of every clipboard node at `at` (the canvas centre in flow coordinates),
     * the i-th under the id `<id>-pasted-<clock(i)>`; nothing happens with an empty clipboard
     * or an unmounted canvas.
     */
    method PasteNodes(at: Position, clock: nat -> string) returns (actions: seq<Action>)
      ensures |actions| == if |clipboard| > 0 && hasCanvas then |clipboard| else 0
      ensures forall j :: 0 <= j < |actions| ==> actions[j] == AddNode(PastedNode(clipboard[j], clock(j), at))
    {
      actions := [];
      if |clipboard| > 0 && hasCanvas {
        var i := 0;
        while i < |clipboard|
          invariant 0 <= i <= |clipboard|
          invariant |actions| == i
          invariant forall j :: 0 <= j < i ==> actions[j] == AddNode(PastedNode(clipboard[j], clock(j), at))
        {
          var node := clipboard[i];
          actions := actions + [AddNode(node.(id := node.id + "-pasted-" + clock(i), position := at))];
          i := i + 1;
        }
      }
    }

    /** Adds a fresh node of a registered type at `at` and closes the palette; any other type does nothing. */
    function AddNodeFromPalette(nodeType: string, now: string, at: Position): (r: seq<Action>)
      reads this
      ensures r != [] <==> hasCanvas && nodeType in NodeTypes
      ensures r != [] ==> r == [AddNode(PaletteNode(nodeType, now, at).value), SetShowPalette(false)]
    {
      if !hasCanvas then []
      else match PaletteNode(nodeType, now, at)
        case None => []
        case Some(n) => [AddNode(n), SetShowPalette(false)]
    }

    /**
     * Opens the test panel, marks the run as started and publishes the graph; with a loaded
     * workflow, starts the run, and marks it stopped again only when starting it was rejected.
     */
    function RunWorkflowActions(testInput: Option<Value>, rejected: bool): (r: seq<Action>)
      reads this
      ensures |r| >= 4 && r[..4] == [SetShowTestPanel(true), SetIsRunning(true), SetWorkflowNodes(nodes), SetWorkflowEdges(edges)]
      ensures currentWorkflow.None? ==> r[4..] == [ToastError("Workflow not found")]
      ensures currentWorkflow.Some? ==> |r| >= 5 && r[4] == RunWorkflow(currentWorkflow.value, testInput)
      ensures SetIsRunning(false) in r <==> currentWorkflow.Some? && rejected
    {
      var setup := [SetShowTestPanel(true), SetIsRunning(true), SetWorkflowNodes(nodes), SetWorkflowEdges(edges)];
      match currentWorkflow
      case None => setup + [ToastError("Workflow not found")]
      case Some(w) => setup + [RunWorkflow(w, testInput)] + (if rejected then [SetIsRunning(false)] else [])
    }

    /**
     * The window key listener: runs the handler `Shortcut` binds the key to and reports whether
     * the browser's default is suppressed.
     */
    method HandleKeyDown(e: KeyEvent, now: string, at: Position, clock: nat -> string)
      returns (actions: seq<Action>, preventDefault: bool)
      ensures preventDefault <==> Shortcut(e) == Some(Duplicate) || Shortcut(e) == Some(Undo) || Shortcut(e) == Some(Redo)
      ensures Shortcut(e).None? ==> actions == []
      ensures Shortcut(e) == Some(Delete) ==>
        actions == if selectedNode.Some? then DeleteSelectedNode() else DeleteSelectedEdges()
      ensures Shortcut(e) == Some(Copy) ==> actions == CopySelectedNode()
      ensures Shortcut(e) == Some(Cut) ==>
        actions == if selectedNode.Some? then CopySelectedNode() + DeleteSelectedNode() else []
      ensures Shortcut(e) == Some(Paste) ==>
        |actions| == (if |clipboard| > 0 && hasCanvas then |clipboard| else 0) &&
        forall j :: 0 <= j < |actions| ==> actions[j] == AddNode(PastedNode(clipboard[j], clock(j), at))
      ensures Shortcut(e) == Some(Duplicate) ==> actions == DuplicateSelectedNode(now)
      ensures Shortcut(e) == Some(Undo) ==> actions == [UndoHistory]
      ensures Shortcut(e) == Some(Redo) ==> actions == [RedoHistory]
    {
      actions := [];
      preventDefault := false;
      if e.inFormField {
        return;
      }
      var modifier := e.ctrl || e.meta;
      if e.key == "Delete" || e.key == "Backspace" {
        if selectedNode.Some? {
          actions := actions + DeleteSelectedNode();
        } else if |selectedEdges| > 0 {
          actions := actions + DeleteSelectedEdges();
        }
      }
      if e.key == "c" && modifier {
        actions := actions + CopySelectedNode();
      }
      if e.key == "x" && modifier {
        var cut := CutSelectedNode();
        actions := actions + cut;
      }
      if e.key == "v" && modifier {
        var pasted := PasteNodes(at, clock);
        actions := actions + pasted;
      }
      if e.key == "d" && modifier {
        preventDefault := true;
        actions := actions + DuplicateSelectedNode(now);
      }
      if e.key == "z" && modifier && !e.shift {
        preventDefault := true;
        actions := actions + [UndoHistory];
      }
      if (e.key == "y" && modifier) || (e.key == "z" && modifier && e.shift) {
        preventDefault := true;
        actions := actions + [RedoHistory];
      }
    }
  }

  /** The keys a Ctrl or Cmd chord binds. */
  const ShortcutKeys: set<string> := {"Delete", "Backspace", "c", "x", "v", "d", "z", "y"}

  /** The key bindings: which handler a key press runs, if any. */
  function Shortcut(e: KeyEvent): (r: Option<Command>)
    ensures e.inFormField ==> r == None
    ensures r == Some(Delete) <==> !e.inFormField && (e.key == "Delete" || e.key == "Backspace")
    ensures r.Some? && r != Some(Delete) ==> e.ctrl || e.meta
    ensures r == Some(Copy) <==> !e.inFormField && (e.ctrl || e.meta) && e.key == "c"
    ensures r == Some(Cut) <==> !e.inFormField && (e.ctrl || e.meta) && e.key == "x"
    ensures r == Some(Paste) <==> !e.inFormField && (e.ctrl || e.meta) && e.key == "v"
    ensures r == Some(Duplicate) <==> !e.inFormField && (e.ctrl || e.meta) && e.key == "d"
    ensures r == Some(Undo) <==> !e.inFormField && (e.ctrl || e.meta) && e.key == "z" && !e.shift
    ensures r == Some(Redo) <==> !e.inFormField && (e.ctrl || e.meta) && (e.key == "y" || (e.key == "z" && e.shift))
    ensures !(e.ctrl || e.meta) && e.key != "Delete" && e.key != "Backspace" ==> r == None
    ensures (e.ctrl || e.meta) && e.key !in ShortcutKeys ==> r == None
  {
    if e.inFormField then None
    else if e.key == "Delete" || e.key == "Backspace" then Some(Delete)
    else if !(e.ctrl || e.meta) then None
    else if e.key == "c" then Some(Copy)
    else if e.key == "x" then Some(Cut)
    else if e.key == "v" then Some(Paste)
    else if e.key == "d" then Some(Duplicate)
    else if e.key == "z" then (if e.shift then Some(Redo) else Some(Undo))
    else if e.key == "y" then Some(Redo)
    else None
  }

  // ---------------------------------------------------------------- connections

  /** `{...params, id: `e${source}-${target}`}`. */
  function NewEdge(conn: Connection): (r: Edge)
    ensures r.source == conn.source && r.target == conn.target
    ensures r.sourceHandle == conn.sourceHandle && r.targetHandle == conn.targetHandle
    ensures |r.id| == |conn.source| + |conn.target| + 2 && r.id[0] == 'e' && r.id[|conn.source| + 1] == '-'
    ensures r.id[1..|conn.source| + 1] == conn.source && r.id[|conn.source| + 2..] == conn.target
  {
    Edge("e" + conn.source + "-" + conn.target, conn.source, conn.target, conn.sourceHandle, conn.targetHandle)
  }

  /** The edge id does not identify its endpoints when a node id contains `-`. */
  lemma EdgeIdsCollide()
    ensures NewEdge(Connection("a-b", "c", None, None)).id == NewEdge(Connection("a", "b-c", None, None)).id
  {
  }

  /** The source node exists, is a condition or loop node, and the connection leaves its "true" or "false" handle. */
  predicate BindsBranch(nodes: seq<Node>, conn: Connection) {
    var k := IndexOf(nodes, conn.source);
    k != -1 && (nodes[k].nodeType == "condition" || nodes[k].nodeType == "loop") &&
    (conn.sourceHandle == Some("true") || conn.sourceHandle == Some("false"))
  }

  function BranchField(handle: Option<string>): string {
    if handle == Some("true") then "trueEdgeId" else "falseEdgeId"
  }

  /** `{...rest, [field]: edgeId}` where `rest` is `data` without its `node` entry. */
  function BindEdge(data: Record, field: string, edgeId: string): Record {
    Put(Remove(data, "node"), field, VStr(edgeId))
  }

  lemma BindEdgeReads(data: Record, field: string, edgeId: string)
    requires field != "node"
    ensures forall k ::
              Get(BindEdge(data, field, edgeId), k) ==
              (if k == field then Some(VStr(edgeId)) else if k == "node" then None else Get(data, k))
  {
    forall k ensures Get(BindEdge(data, field, edgeId), k) ==
      if k == field then Some(VStr(edgeId)) else if k == "node" then None else Get(data, k)
    {
      PutGet(Remove(data, "node"), field, VStr(edgeId), k);
    }
  }

  function EdgeIds(es: seq<Edge>): (r: seq<string>)
    ensures |r| == |es| && forall i :: 0 <= i < |es| ==> r[i] == es[i].id
  {
    if |es| == 0 then [] else [es[0].id] + EdgeIds(es[1..])
  }

  // ---------------------------------------------------------------- paste and palette

  /** A clipboard node re-added under a stamped id at a new position, with its type and data. */
  function PastedNode(n: Node, stamp: string, at: Position): Node {
    n.(id := n.id + "-pasted-" + stamp, position := at)
  }

  /** Nodes pasted with the same clock reading keep distinct ids when the originals had them. */
  lemma PastedIdsDistinct(a: Node, b: Node, stamp: string, at: Position)
    requires a.id != b.id
    ensures PastedNode(a, stamp, at).id != PastedNode(b, stamp, at).id
  {
    var pa, pb := PastedNode(a, stamp, at).id, PastedNode(b, stamp, at).id;
    assert |pa| - |a.id| == |pb| - |b.id|;
    assert pa[..|a.id|] == a.id;
    assert pb[..|b.id|] == b.id;
  }

  /** The id prefix the palette gives each node type. */
  function IdPrefix(nodeType: string): string {
    match nodeType
    case "apiStart" => "api"
    case "parameters" => "param"
    case _ => nodeType
  }

  function Str(s: string): Value { VStr(s) }

  /** The initial data of a palette node of a registered type. */
  function PaletteData(nodeType: string): Record
    requires nodeType in NodeTypes
  {
    match nodeType
    case "apiStart" =>
      [Entry("label", Str("API Endpoint")), Entry("method", Str("GET")), Entry("path", Str("/api/new")),
       Entry("description", Str("Entry point for the API"))]
    case "parameters" =>
      [Entry("label", Str("Request Parameters")), Entry("paramType", Str("query")),
       Entry("parameters", VList([VObj([Entry("key", Str("")), Entry("value", Str(""))])])),
       Entry("description", Str("Define request parameters")),
       Entry("output", VObj([Entry("parameters", VObj([]))]))]
    case "logic" =>
      [Entry("label", Str("Process Data")),
       Entry("code", Str("// Access data from previous nodes using ${input}\nreturn { processed: true };")),
       Entry("description", Str("Transform the input data")),
       Entry("output", VObj([Entry("processed", VBool(true))]))]
    case "response" =>
      [Entry("label", Str("API Response")), Entry("statusCode", VNum(200)),
       Entry("responseType", Str("application/json")), Entry("responseBody", Str("{\n  \"success\": true\n}")),
       Entry("description", Str("Send response to client")),
       Entry("output", VObj([Entry("success", VBool(true))]))]
    case "jwtGenerate" =>
      [Entry("label", Str("JWT Generate")), Entry("description", Str("Send response to client")),
       Entry("type", Str("jwt")), Entry("expiresIn", Str("1h")),
       Entry("payload", VObj([Entry("msg", Str("hello world"))]))]
    case "jwtVerify" =>
      [Entry("label", Str("JWT Verify")), Entry("description", Str("Send response to client")), Entry("type", Str("jwt"))]
    case "database" =>
      [Entry("label", Str("Data Base")), Entry("description", Str("Make Database Operations")),
       Entry("collection", Str("users")), Entry("provider", Str("monbgo")), Entry("operation", Str("findOne"))]
    case "condition" =>
      [Entry("label", Str("Condition Node")), Entry("description", Str("Make Condition Operations")),
       Entry("condition", Str(""))]
    case "loop" =>
      [Entry("label", Str("Loop Node")), Entry("description", Str("Make Loop Operations")), Entry("items", Str(""))]
  }

  /** The entry node the palette creates answers GET on `/api/new`. */
  lemma PaletteApiStart()
    ensures PaletteData("apiStart")[1..3] == [Entry("method", Str("GET")), Entry("path", Str("/api/new"))]
  {
  }

  /** A database node from the palette reads `users` with `findOne`, and the provider is spelled `monbgo`. */
  lemma PaletteDatabase()
    ensures PaletteData("database")[2..] ==
      [Entry("collection", Str("users")), Entry("provider", Str("monbgo")), Entry("operation", Str("findOne"))]
  {
  }

  /**
   * The node the palette creates for `nodeType`: `None` for an unregistered type; otherwise a
   * node of that type at `at`, with the id `<prefix>-<now>` and a labelled, described data record.
   */
  function PaletteNode(nodeType: string, now: string, at: Position): (r: Option<Node>)
    ensures r.Some? <==> nodeType in NodeTypes
    ensures r.Some? ==>
      r.value.nodeType == nodeType && r.value.position == at && r.value.id == IdPrefix(nodeType) + "-" + now
  {
    if nodeType in NodeTypes then Some(Node(IdPrefix(nodeType) + "-" + now, nodeType, at, PaletteData(nodeType)))
    else None
  }

  // ---------------------------------------------------------------- the record effect and the history flag

  /** The history state after the record effect has run for one new snapshot, as written. */
  function EffectAsWritten(h: HistoryState, s: Snapshot): HistoryState {
    if !h.isHistoryAction then AfterRecord(h, s) else h
  }

  function EffectsAsWritten(h: HistoryState, ss: seq<Snapshot>): HistoryState
    decreases |ss|
  {
    if |ss| == 0 then h else EffectsAsWritten(EffectAsWritten(h, ss[0]), ss[1..])
  }

  /** As written, once the flag is set no snapshot is ever recorded and the flag stays set. */
  lemma {:induction false} AsWrittenFlagSticks(h: HistoryState, ss: seq<Snapshot>)
    requires h.isHistoryAction
    ensures EffectsAsWritten(h, ss) == h
    decreases |ss|
  {
    if |ss| > 0 {
      AsWrittenFlagSticks(h, ss[1..]);
    }
  }

  /** As written, after an undo no later edit reaches the history: every further change is lost to undo. */
  lemma AsWrittenLosesEditsAfterUndo(h: HistoryState, edits: seq<Snapshot>)
    requires |h.past| > 0
    ensures EffectsAsWritten(AfterUndo(h), edits) == AfterUndo(h)
  {
    AsWrittenFlagSticks(AfterUndo(h), edits);
  }

  /** The effect dispatching unconditionally: the reducer swallows the snapshot an undo or redo causes. */
  function EffectCorrected(h: HistoryState, s: Snapshot): HistoryState {
    AfterRecord(h, s)
  }

  function EffectsCorrected(h: HistoryState, ss: seq<Snapshot>): HistoryState
    decreases |ss|
  {
    if |ss| == 0 then h else EffectsCorrected(EffectCorrected(h, ss[0]), ss[1..])
  }

  /**
   * With the corrected effect, the snapshot an undo restores is swallowed and the next edit is
   * recorded after the restored state, discarding the redo future.
   */
  lemma CorrectedRecordsEditAfterUndo(h: HistoryState, restored: Snapshot, edit: Snapshot)
    requires |h.past| > 0
    ensures var u := AfterUndo(h);
      var r := EffectsCorrected(u, [restored, edit]);
      r.present == edit && r.future == [] && !r.isHistoryAction &&
      Timeline(r) == Timeline(u)[..Cursor(u) + 1] + [edit]
  {
    var u := AfterUndo(h);
    var s1 := EffectCorrected(u, restored);
    assert s1 == u.(isHistoryAction := false);
    assert EffectsCorrected(u, [restored, edit]) == EffectsCorrected(s1, [edit]);
    assert EffectsCorrected(s1, [edit]) == EffectCorrected(s1, edit);
  }
}
