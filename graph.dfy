/** The canvas graph: ReactFlow nodes and edges as the editor's store holds them. */
module Graph {
  import opened Wrappers
  import opened Values

  datatype Position = Position(x: real, y: real)

  /** A canvas node; `nodeType` is "" when ReactFlow's optional `type` is absent. */
  datatype Node = Node(id: string, nodeType: string, position: Position, data: Record)

  /** A connection; an absent handle is `None`. */
  datatype Edge = Edge(id: string, source: string, target: string,
                       sourceHandle: Option<string>, targetHandle: Option<string>)

  /** What the history stack stores: the nodes and edges at one moment. */
  datatype Snapshot = Snapshot(nodes: seq<Node>, edges: seq<Edge>)

  function NodeIds(nodes: seq<Node>): (r: seq<string>)
    ensures |r| == |nodes| && forall i :: 0 <= i < |nodes| ==> r[i] == nodes[i].id
  {
    if |nodes| == 0 then [] else [nodes[0].id] + NodeIds(nodes[1..])
  }

  /** `nodes.findIndex(n => n.id === id)`: the first node with that id, or -1. */
  function IndexOf(nodes: seq<Node>, id: string): (r: int)
    ensures -1 <= r < |nodes|
    ensures r == -1 <==> id !in NodeIds(nodes)
    ensures 0 <= r ==> nodes[r].id == id && forall i :: 0 <= i < r ==> nodes[i].id != id
  {
    if |nodes| == 0 then -1
    else if nodes[0].id == id then 0
    else var k := IndexOf(nodes[1..], id); if k == -1 then -1 else k + 1
  }

  predicate UniqueNodeIds(nodes: seq<Node>) {
    forall i, j :: 0 <= i < j < |nodes| ==> nodes[i].id != nodes[j].id
  }

  /** Every edge starts and ends at an existing node. */
  predicate EdgesConnected(s: Snapshot) {
    forall e :: e in s.edges ==> e.source in NodeIds(s.nodes) && e.target in NodeIds(s.nodes)
  }

  predicate WellFormed(s: Snapshot) {
    UniqueNodeIds(s.nodes) && EdgesConnected(s)
  }
}
