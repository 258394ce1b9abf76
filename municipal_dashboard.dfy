/**
 * The municipal admin's dashboard tab: complaints fetched from the back
 * end, shown with their raw status text, and an escalation modal that
 * asks for confirmation before a complaint is escalated or brought back
 * to Pending. Status changes are local to the page.
 */
module MunicipalDashboard {
  import opened Wrappers
  import opened Dashboards

  type Item = Entry<string>

  /** A complaint as the municipal admin's complaint list returns it; absent fields are `None`. */
  datatype Row = Row(id: string, description: Option<string>, details: Option<string>, status: Option<string>)

  /** JavaScript truthiness of an optional string. */
  predicate Truthy(s: Option<string>) {
    s.Some? && s.value != ""
  }

  /** The fetch transform of one row: `description || details || ''` and `status || 'Pending'`. */
  function Transform(row: Row): (r: Item)
    ensures r.id == row.id
    ensures Truthy(row.description) ==> r.text == row.description.value
    ensures !Truthy(row.description) && Truthy(row.details) ==> r.text == row.details.value
    ensures !Truthy(row.description) && !Truthy(row.details) ==> r.text == ""
    ensures r.status != "" && (Truthy(row.status) ==> r.status == row.status.value)
    ensures !Truthy(row.status) ==> r.status == "Pending"
  {
    Entry(row.id,
          if Truthy(row.description) then row.description.value
          else if Truthy(row.details) then row.details.value
          else "",
          if Truthy(row.status) then row.status.value else "Pending")
  }

  function TransformAll(rows: seq<Row>): (r: seq<Item>)
    ensures |r| == |rows| && forall i :: 0 <= i < |rows| ==> r[i] == Transform(rows[i])
  {
    seq(|rows|, i requires 0 <= i < |rows| => Transform(rows[i]))
  }

  datatype ModalAction = Escalate | DeEscalate

  /** The status a confirmed action writes. */
  function TargetStatus(a: ModalAction): (r: string)
    ensures r == "Escalated" <==> a.Escalate?
    ensures r == "Pending" <==> a.DeEscalate?
  {
    assert "Pending"[0] != "Escalated"[0];
    match a
    case Escalate => "Escalated"
    case DeEscalate => "Pending"
  }

  /** The key `stats.recent.find(c => c.id === id)` compares. */
  function ItemId(c: Item): string {
    c.id
  }

  class Board {
    var recent: seq<Item>
    var totalComplaints: int
    var failed: bool
    var modalVisible: bool
    var modalComplaintId: Option<string>
    var modalAction: Option<ModalAction>

    /** The total is the list's length, and the modal's three fields are set and cleared together. */
    predicate Valid()
      reads this
    {
      && totalComplaints == |recent|
      && modalVisible == modalComplaintId.Some?
      && modalVisible == modalAction.Some?
    }

    constructor()
      ensures Valid() && recent == [] && !modalVisible && !failed
    {
      recent := [];
      totalComplaints := 0;
      failed := false;
      modalVisible := false;
      modalComplaintId := None;
      modalAction := None;
    }

    /** `fetchComplaints`: the transformed list on success, the empty list and an error otherwise. */
    method Load(response: Option<seq<Row>>)
      requires Valid()
      modifies this
      ensures Valid()
      ensures response.Some? ==> recent == TransformAll(response.value) && !failed
      ensures response.None? ==> recent == [] && failed
      ensures modalVisible == old(modalVisible) && modalComplaintId == old(modalComplaintId)
      ensures modalAction == old(modalAction)
    {
      if response.Some? {
        var items := TransformAll(response.value);
        recent, totalComplaints, failed := items, |items|, false;
      } else {
        recent, totalComplaints, failed := [], 0, true;
      }
    }

    /** `handleRequestToggleEscalation`: open the modal for a known id, de-escalating exactly an Escalated complaint. */
    method RequestToggle(id: string)
      requires Valid()
      modifies this
      ensures Valid()
      ensures recent == old(recent)
      ensures Find(recent, ItemId, id).None? ==>
        modalVisible == old(modalVisible) && modalComplaintId == old(modalComplaintId) && modalAction == old(modalAction)
      ensures Find(recent, ItemId, id).Some? ==>
        && modalVisible && modalComplaintId == Some(id)
        && modalAction == Some(if Find(recent, ItemId, id).value.status == "Escalated" then DeEscalate else Escalate)
    {
      var found := Find(recent, ItemId, id);
      if found.None? {
        return;
      }
      var action := if found.value.status == "Escalated" then DeEscalate else Escalate;
      modalComplaintId := Some(id);
      modalAction := Some(action);
      modalVisible := true;
    }

    /** `closeModal`. */
    method CloseModal()
      modifies this
      ensures !modalVisible && modalComplaintId.None? && modalAction.None?
      ensures recent == old(recent) && totalComplaints == old(totalComplaints) && failed == old(failed)
    {
      modalVisible := false;
      modalComplaintId := None;
      modalAction := None;
    }

    /** `handleConfirmToggleEscalation`: apply the pending action to its complaint and close the modal. */
    method ConfirmToggle()
      requires Valid()
      modifies this
      ensures Valid()
      ensures !Truthy(old(modalComplaintId)) || old(modalAction).None? ==>
        recent == old(recent) && modalVisible == old(modalVisible)
        && modalComplaintId == old(modalComplaintId) && modalAction == old(modalAction)
      ensures Truthy(old(modalComplaintId)) && old(modalAction).Some? ==>
        var target := TargetStatus(old(modalAction).value);
        && recent == Restatus(old(recent), old(modalComplaintId).value, _ => target)
        && !modalVisible && modalComplaintId.None? && modalAction.None?
    {
      if !Truthy(modalComplaintId) || modalAction.None? {
        return;
      }
      var target := TargetStatus(modalAction.value);
      var updated := Restatus(recent, modalComplaintId.value, _ => target);
      recent, totalComplaints := updated, |updated|;
      CloseModal();
    }

    /** `handleStatusChange`: set the status of the items with that id. */
    method HandleStatusChange(id: string, newStatus: string)
      requires Valid()
      modifies this
      ensures Valid()
      ensures recent == Restatus(old(recent), id, _ => newStatus)
      ensures modalVisible == old(modalVisible) && modalComplaintId == old(modalComplaintId)
      ensures modalAction == old(modalAction)
    {
      var updated := Restatus(recent, id, _ => newStatus);
      recent, totalComplaints := updated, |updated|;
    }
  }

  /**
   * Confirming the action a request chose toggles the complaint: an
   * Escalated complaint becomes Pending and any other becomes Escalated.
   */
  lemma RequestedActionToggles(status: string)
    ensures TargetStatus(if status == "Escalated" then DeEscalate else Escalate)
            == if status == "Escalated" then "Pending" else "Escalated"
  {
  }
}
