/** The workflows slice: the project's workflow list, one busy flag per request kind, and the last error. */
module WorkflowsSlice {
  import opened Values
  import opened Api
  import Seqs

  /** The five requests the slice tracks. */
  datatype Request = Fetch | Create | Update | Delete | Toggle

  function SameId(id: string): Workflow -> bool {
    (w: Workflow) => w.id == id
  }

  function OtherId(id: string): Workflow -> bool {
    (w: Workflow) => w.id != id
  }

  /**
   * `update`/`toggle` fulfilled: the first workflow with the payload's id is replaced by the
   * payload; with no such workflow the list is unchanged.
   */
  function ReplaceById(ws: seq<Workflow>, w: Workflow): (r: seq<Workflow>)
    ensures |r| == |ws|
    ensures (forall i :: 0 <= i < |ws| ==> ws[i].id != w.id) ==> r == ws
    ensures forall i :: 0 <= i < |ws| && ws[i].id == w.id && (forall j :: 0 <= j < i ==> ws[j].id != w.id) ==>
      r == ws[i := w]
  {
    var index := Seqs.FirstIndex(ws, SameId(w.id));
    if index != -1 then ws[index := w] else ws
  }

  /** Replacing by id is idempotent: a second identical response changes nothing more. */
  lemma ReplaceByIdTwice(ws: seq<Workflow>, w: Workflow)
    ensures ReplaceById(ReplaceById(ws, w), w) == ReplaceById(ws, w)
  {
    var p := SameId(w.id);
    var index := Seqs.FirstIndex(ws, p);
    if index != -1 {
      var once := ws[index := w];
      assert p(once[index]);
      forall j | 0 <= j < index ensures !p(once[j]) {
        assert once[j] == ws[j];
      }
      assert Seqs.FirstIndex(once, p) == index;
      assert once[index := w] == once;
    } else {
      assert Seqs.FirstIndex(ws, p) == -1;
    }
  }

  /** `delete` fulfilled: every workflow with that id goes, the rest keep their order. */
  function DeleteById(ws: seq<Workflow>, id: string): (r: seq<Workflow>)
    ensures forall i :: 0 <= i < |r| ==> r[i].id != id && r[i] in ws
    ensures forall i :: 0 <= i < |ws| && ws[i].id != id ==> ws[i] in r
  {
    Seqs.FilterKeepsAll(ws, OtherId(id));
    Seqs.Filter(ws, OtherId(id))
  }

  /** Deleting splits over concatenation, so the survivors keep their relative order. */
  lemma DeleteByIdAppend(a: seq<Workflow>, b: seq<Workflow>, id: string)
    ensures DeleteById(a + b, id) == DeleteById(a, id) + DeleteById(b, id)
  {
    Seqs.FilterAppend(a, b, OtherId(id));
  }

  /** Deleting the same id twice is the same as once. */
  lemma DeleteByIdTwice(ws: seq<Workflow>, id: string)
    ensures DeleteById(DeleteById(ws, id), id) == DeleteById(ws, id)
  {
    Seqs.FilterAll(DeleteById(ws, id), OtherId(id));
  }

  /** A list without the id is untouched. */
  lemma DeleteAbsentId(ws: seq<Workflow>, id: string)
    requires forall i :: 0 <= i < |ws| ==> ws[i].id != id
    ensures DeleteById(ws, id) == ws
  {
    Seqs.FilterAll(ws, OtherId(id));
  }

  /** The slice's state. `error` is `VNull` when there is none. */
  class WorkflowsStore {
    var workflows: seq<Workflow>
    var isLoading: bool
    var error: Value
    var isCreating: bool
    var isUpdating: bool
    var isDeleting: bool
    var isToggling: bool

    constructor ()
      ensures workflows == [] && error == VNull
      ensures !isLoading && !isCreating && !isUpdating && !isDeleting && !isToggling
    {
      workflows := [];
      isLoading := false;
      error := VNull;
      isCreating := false;
      isUpdating := false;
      isDeleting := false;
      isToggling := false;
    }

    /** Whether the request's own busy flag is raised. */
    function Busy(req: Request): bool
      reads this
    {
      match req
      case Fetch => isLoading
      case Create => isCreating
      case Update => isUpdating
      case Delete => isDeleting
      case Toggle => isToggling
    }

    /** Sets the request's busy flag and leaves the other four as they are. */
    method SetBusy(req: Request, b: bool)
      modifies this
      ensures Busy(req) == b
      ensures forall other :: other != req ==> Busy(other) == old(Busy(other))
      ensures workflows == old(workflows) && error == old(error)
    {
      match req
      case Fetch => isLoading := b;
      case Create => isCreating := b;
      case Update => isUpdating := b;
      case Delete => isDeleting := b;
      case Toggle => isToggling := b;
    }

    method ClearError()
      modifies this
      ensures error == VNull && workflows == old(workflows)
      ensures forall req :: Busy(req) == old(Busy(req))
    {
      error := VNull;
    }

    method ClearWorkflows()
      modifies this
      ensures workflows == [] && error == old(error)
      ensures forall req :: Busy(req) == old(Busy(req))
    {
      workflows := [];
    }

    /** A request starts: its flag goes up and the error is cleared. */
    method Pending(req: Request)
      modifies this
      ensures Busy(req) && error == VNull && workflows == old(workflows)
      ensures forall other :: other != req ==> Busy(other) == old(Busy(other))
    {
      SetBusy(req, true);
      error := VNull;
    }

    /** A request fails: its flag goes down, the message is stored, the list is kept. */
    method Rejected(req: Request, message: Value)
      modifies this
      ensures !Busy(req) && error == message && workflows == old(workflows)
      ensures forall other :: other != req ==> Busy(other) == old(Busy(other))
    {
      SetBusy(req, false);
      error := message;
    }

    /** Fetch succeeded: the list becomes the response. */
    method FetchFulfilled(payload: seq<Workflow>)
      modifies this
      ensures !isLoading && workflows == payload && error == old(error)
      ensures forall other :: other != Fetch ==> Busy(other) == old(Busy(other))
    {
      SetBusy(Fetch, false);
      workflows := payload;
    }

    /** Create succeeded: the new workflow is appended. */
    method CreateFulfilled(payload: Workflow)
      modifies this
      ensures !isCreating && workflows == old(workflows) + [payload] && error == old(error)
      ensures forall other :: other != Create ==> Busy(other) == old(Busy(other))
    {
      SetBusy(Create, false);
      workflows := workflows + [payload];
    }

    /** Update or toggle succeeded: the workflow with the response's id is replaced in place. */
    method ReplaceFulfilled(req: Request, payload: Workflow)
      requires req == Update || req == Toggle
      modifies this
      ensures !Busy(req) && workflows == ReplaceById(old(workflows), payload) && error == old(error)
      ensures forall other :: other != req ==> Busy(other) == old(Busy(other))
    {
      SetBusy(req, false);
      var index := Seqs.FirstIndex(workflows, SameId(payload.id));
      if index != -1 {
        workflows := workflows[index := payload];
      }
    }

    /** Delete succeeded: every workflow with the deleted id is dropped. */
    method DeleteFulfilled(workflowId: string)
      modifies this
      ensures !isDeleting && workflows == DeleteById(old(workflows), workflowId) && error == old(error)
      ensures forall other :: other != Delete ==> Busy(other) == old(Busy(other))
    {
      SetBusy(Delete, false);
      workflows := Seqs.Filter(workflows, OtherId(workflowId));
    }
  }
}
