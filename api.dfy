/** The records the editor exchanges with the backend's workflow endpoints. */
module Api {
  import opened Graph

  /** A stored workflow; `version` is the document's `__v` counter. */
  datatype Workflow = Workflow(id: string, name: string, description: string, httpMethod: string, path: string,
                               project: string, user: string, tenant: string, isDeployed: bool,
                               nodes: seq<Node>, edges: seq<Edge>,
                               createdAt: string, updatedAt: string, version: int)

  /** The body of a create-workflow request. */
  datatype CreateWorkflowRequest = CreateWorkflowRequest(name: string, description: string, httpMethod: string,
                                                         path: string, nodes: seq<Node>, edges: seq<Edge>)
}
