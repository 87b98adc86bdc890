/**
 * The create-workflow dialog: the name and path checks, the two-node starter graph, the request
 * it sends, and the reset after a successful create.
 */
module WorkflowDialog {
  import opened Wrappers
  import opened Values
  import opened Graph
  import opened Api
  import Text

  /** A toast: its title and description. */
  datatype Toast = Toast(title: string, description: string)

  /** The toast for a blank name or path. */
  const MissingFields := Toast("Error", "Name and path are required")

  /** The toast for a created workflow. */
  const Created := Toast("Success", "Workflow created successfully")

  /** The starter graph: an API entry node carrying the method and `/` + path, and a 200 response node. */
  function DefaultNodes(httpMethod: string, path: string): seq<Node> {
    [Node("1", "apiStart", Position(250.0, 100.0),
          [Entry("label", VStr("API Endpoint")), Entry("method", VStr(httpMethod)),
           Entry("path", VStr("/" + path)), Entry("description", VStr("Entry point for the API"))]),
     Node("2", "response", Position(250.0, 250.0),
          [Entry("label", VStr("API Response")), Entry("description", VStr("Send response to client")),
           Entry("status", VNum(200))])]
  }

  const DefaultEdges: seq<Edge> := [Edge("e1-2", "1", "2", None, None)]

  /** The starter graph has distinct node ids and its edge joins two of its nodes. */
  lemma DefaultGraphWellFormed(httpMethod: string, path: string)
    ensures WellFormed(Snapshot(DefaultNodes(httpMethod, path), DefaultEdges))
  {
    var nodes := DefaultNodes(httpMethod, path);
    assert NodeIds(nodes) == ["1", "2"];
  }

  /**
   * The request a submit sends, or `None` when the trimmed name or the trimmed path is empty.
   * Name, description and path are sent trimmed; the starter entry node keeps the untrimmed path.
   */
  function Submission(name: string, description: string, httpMethod: string, path: string): (r: Option<CreateWorkflowRequest>)
    ensures r.None? <==> Text.Blank(name) || Text.Blank(path)
    ensures r.Some? ==>
      r.value.name == Text.Trim(name) && r.value.description == Text.Trim(description) &&
      r.value.path == Text.Trim(path) && r.value.httpMethod == httpMethod
    ensures r.Some? ==>
      r.value.nodes == DefaultNodes(httpMethod, path) && r.value.edges == DefaultEdges
  {
    Text.TrimEmptyIffBlank(name);
    Text.TrimEmptyIffBlank(path);
    if Text.Trim(name) == "" || Text.Trim(path) == "" then None
    else
      Some(CreateWorkflowRequest(Text.Trim(name), Text.Trim(description), httpMethod, Text.Trim(path),
                                 DefaultNodes(httpMethod, path), DefaultEdges))
  }

  /** The entry node carries the chosen method and the path as typed, behind a `/`. */
  lemma EntryNodeCarriesInputs(httpMethod: string, path: string)
    ensures var entry := DefaultNodes(httpMethod, path)[0];
      entry.nodeType == "apiStart" &&
      Lookup(entry.data, "method") == VStr(httpMethod) && Lookup(entry.data, "path") == VStr("/" + path)
  {
    var d := DefaultNodes(httpMethod, path)[0].data;
    assert d[0].key == "label" && d[1] == Entry("method", VStr(httpMethod)) && d[2] == Entry("path", VStr("/" + path));
    assert Get(d, "method") == Get(d[1..], "method");
    assert d[1..][0] == d[1];
    assert Get(d, "path") == Get(d[1..], "path") == Get(d[2..], "path");
    assert d[2..][0] == d[2];
  }

  /** Surrounding whitespace on the name and path does not change what is sent, except in the entry node. */
  lemma SubmissionIgnoresPadding(name: string, description: string, httpMethod: string, path: string)
    requires Submission(name, description, httpMethod, path).Some?
    ensures var r := Submission(name, description, httpMethod, path).value;
      |r.name| > 0 && !Text.IsWhitespace(r.name[0]) && !Text.IsWhitespace(r.name[|r.name| - 1]) &&
      |r.path| > 0 && !Text.IsWhitespace(r.path[0]) && !Text.IsWhitespace(r.path[|r.path| - 1])
  {
    Text.TrimEmptyIffBlank(name);
    Text.TrimEmptyIffBlank(path);
  }

  /** The dialog's fields. */
  class Dialog {
    var open: bool
    var name: string
    var description: string
    var httpMethod: string
    var path: string

    constructor ()
      ensures !open && name == "" && description == "" && httpMethod == "GET" && path == ""
    {
      open := false;
      name := "";
      description := "";
      httpMethod := "GET";
      path := "";
    }

    /** A created workflow closes the dialog and empties its fields, the method back at `GET`. */
    method Reset()
      modifies this
      ensures !open && name == "" && description == "" && path == "" && httpMethod == "GET"
    {
      open := false;
      name := "";
      description := "";
      path := "";
      httpMethod := "GET";
    }

    /**
     * Submit. Invalid input shows an error and sends nothing. Otherwise the request is sent;
     * `failure` is the rejection message, or `None` when the create succeeds, in which case the
     * dialog closes and its fields reset. A failed create keeps every field.
     */
    method HandleSubmit(failure: Option<string>) returns (sent: Option<CreateWorkflowRequest>, toast: Toast)
      modifies this
      ensures sent == Submission(old(name), old(description), old(httpMethod), old(path))
      ensures sent.None? ==> toast == MissingFields
      ensures sent.Some? && failure.None? ==> toast == Created
      ensures sent.Some? && failure.None? ==>
        !open && name == "" && description == "" && path == "" && httpMethod == "GET"
      ensures sent.Some? && failure.Some? ==> toast == Toast("Error", failure.value)
      ensures sent.None? || failure.Some? ==>
        open == old(open) && name == old(name) && description == old(description) &&
        path == old(path) && httpMethod == old(httpMethod)
    {
      sent := Submission(name, description, httpMethod, path);
      if sent.None? {
        toast := MissingFields;
        return;
      }
      match failure
      case None =>
        toast := Created;
        Reset();
      case Some(message) =>
        toast := Toast("Error", message);
    }
  }
}
