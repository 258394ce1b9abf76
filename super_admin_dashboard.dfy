/**
 * The super admin's dashboard tab: a list of complaint cards that can be
 * deleted or have their escalation toggled, each behind a confirmation
 * popup.
 */
module SuperAdminDashboard {
  import opened Wrappers
  import opened Dashboards

  type Card = Entry<DisplayStatus>

  /** `handleDelete`: keep the cards whose id differs. */
  function Deleted(xs: seq<Card>, id: string): (r: seq<Card>)
    ensures |r| <= |xs|
    ensures forall e :: e in r <==> e in xs && e.id != id
  {
    Where(xs, (e: Card) => e.id != id)
  }

  /** Deleting an id no card has changes nothing. */
  lemma DeleteAbsentId(xs: seq<Card>, id: string)
    requires forall e :: e in xs ==> e.id != id
    ensures Deleted(xs, id) == xs
  {
    WhereAll(xs, (e: Card) => e.id != id);
  }

  /** Deleting keeps the order of the rest: it distributes over concatenation. */
  lemma DeleteKeepsOrder(a: seq<Card>, b: seq<Card>, id: string)
    ensures Deleted(a + b, id) == Deleted(a, id) + Deleted(b, id)
  {
    WhereAppend(a, b, (e: Card) => e.id != id);
  }

  /** The toggle's new status: Escalated becomes Pending, anything else Escalated. */
  function Flip(s: DisplayStatus): DisplayStatus {
    if s == Escalated then Pending else Escalated
  }

  /** `handleToggleEscalation`. */
  function Toggled(xs: seq<Card>, id: string): (r: seq<Card>)
    ensures |r| == |xs|
    ensures forall i :: 0 <= i < |xs| && xs[i].id == id ==>
              r[i] == xs[i].(status := if xs[i].status == Escalated then Pending else Escalated)
    ensures forall i :: 0 <= i < |xs| && xs[i].id != id ==> r[i] == xs[i]
  {
    Restatus(xs, id, Flip)
  }

  /**
   * Toggling twice restores Escalated and Pending cards but turns Solved
   * and In Progress cards into Pending.
   */
  lemma ToggleTwice(xs: seq<Card>, id: string)
    ensures var r := Toggled(Toggled(xs, id), id);
      && |r| == |xs|
      && (forall i :: 0 <= i < |xs| && xs[i].id == id ==>
            r[i].status == if xs[i].status == Escalated then Escalated else Pending)
      && (forall i :: 0 <= i < |xs| && xs[i].id != id ==> r[i] == xs[i])
  {
  }

  datatype PopupKind = DeletePopup | TogglePopup

  /** `confirmAction`: the pending action and the card it is about, if any. */
  datatype Popup = Popup(kind: PopupKind, complaint: Option<Card>)

  const ClosedPopup: Popup := Popup(DeletePopup, None)

  class Board {
    var recent: seq<Card>
    var totalComplaints: int
    var confirmAction: Popup

    /** The total shown is always the length of the list. */
    predicate Valid()
      reads this
    {
      totalComplaints == |recent|
    }

    /** The mock data the tab loads. */
    constructor(mock: seq<Card>)
      ensures Valid() && recent == mock && confirmAction == ClosedPopup
    {
      recent := mock;
      totalComplaints := |mock|;
      confirmAction := ClosedPopup;
    }

    method HandleDelete(id: string)
      requires Valid()
      modifies this
      ensures Valid()
      ensures recent == Deleted(old(recent), id) && confirmAction == old(confirmAction)
    {
      var updated := Deleted(recent, id);
      recent, totalComplaints := updated, |updated|;
    }

    method HandleToggleEscalation(id: string)
      requires Valid()
      modifies this
      ensures Valid()
      ensures recent == Toggled(old(recent), id) && confirmAction == old(confirmAction)
    {
      var updated := Toggled(recent, id);
      recent, totalComplaints := updated, |updated|;
    }

    /** `confirmPopup`: remember the card and the action. */
    method ConfirmPopup(c: Card, kind: PopupKind)
      modifies this
      ensures confirmAction == Popup(kind, Some(c))
      ensures recent == old(recent) && totalComplaints == old(totalComplaints)
    {
      confirmAction := Popup(kind, Some(c));
    }

    /** `closePopup`: always back to a delete popup without a card. */
    method ClosePopup()
      modifies this
      ensures confirmAction == ClosedPopup
      ensures recent == old(recent) && totalComplaints == old(totalComplaints)
    {
      confirmAction := ClosedPopup;
    }

    /** `executePopupAction`: nothing without a card; otherwise run the action on its id and close. */
    method ExecutePopupAction()
      requires Valid()
      modifies this
      ensures Valid()
      ensures old(confirmAction).complaint.None? ==> recent == old(recent) && confirmAction == old(confirmAction)
      ensures old(confirmAction).complaint.Some? ==>
        var id := old(confirmAction).complaint.value.id;
        && confirmAction == ClosedPopup
        && recent == match old(confirmAction).kind
                     case DeletePopup => Deleted(old(recent), id)
                     case TogglePopup => Toggled(old(recent), id)
    {
      if confirmAction.complaint.None? {
        return;
      }
      var id := confirmAction.complaint.value.id;
      if confirmAction.kind == DeletePopup {
        HandleDelete(id);
      } else {
        HandleToggleEscalation(id);
      }
      ClosePopup();
    }
  }
}
