/**
 * The super admin page's list of admins (super-admin/page.tsx): statuses
 * are displayed capitalised ("ACTIVE" shows as "Active"), and the
 * activate/deactivate button asks the back end for the opposite of the
 * displayed status, updating the list only when the back end reports
 * success. The request itself is the `success` parameter.
 */
module AdminRoster {
  import opened Wrappers
  import opened Text

  datatype Admin = Admin(id: string, name: string, email: string, department: string,
                         accessLevel: string, status: string)

  /** `s.charAt(0).toUpperCase() + s.slice(1).toLowerCase()`. */
  function Capitalize(s: string): (r: string)
    ensures |r| == |s|
    ensures |s| > 0 ==> r[0] == UpperChar(s[0]) && r[1..] == ToLower(s[1..])
  {
    if |s| == 0 then "" else [UpperChar(s[0])] + ToLower(s[1..])
  }

  /** Capitalising an already capitalised status changes nothing. */
  lemma CapitalizeIdempotent(s: string)
    ensures Capitalize(Capitalize(s)) == Capitalize(s)
  {
    if |s| > 0 {
      var c := Capitalize(s);
      assert UpperChar(UpperChar(s[0])) == UpperChar(s[0]);
      ToLowerIdempotent(s[1..]);
      assert c[1..] == ToLower(s[1..]);
    }
  }

  /** The status the button requests: 'INACTIVE' for an admin displayed as 'Active', 'ACTIVE' otherwise. */
  function ToggleTarget(displayed: string): (r: string)
    ensures r == "INACTIVE" || r == "ACTIVE"
    ensures r == "INACTIVE" <==> displayed == "Active"
  {
    if displayed == "Active" then "INACTIVE" else "ACTIVE"
  }

  /** The displayed status after one successful toggle. */
  function AfterToggle(displayed: string): (r: string)
    ensures r == "Inactive" || r == "Active"
    ensures r == "Inactive" <==> displayed == "Active"
  {
    CapitalizedTargets();
    Capitalize(ToggleTarget(displayed))
  }

  /** The two statuses the button requests, as the list displays them. */
  lemma CapitalizedTargets()
    ensures Capitalize("INACTIVE") == "Inactive" && Capitalize("ACTIVE") == "Active"
  {
    assert ToLower("NACTIVE") == "nactive";
    assert ToLower("CTIVE") == "ctive";
  }

  /**
   * Two successful toggles return an 'Active' admin to 'Active'; from any
   * other display text they end at 'Inactive'.
   */
  lemma ToggleTwice(displayed: string)
    ensures AfterToggle(AfterToggle(displayed)) == if displayed == "Active" then "Active" else "Inactive"
  {
  }

  /** The fetch transform: every admin with its status capitalised, nothing else changed. */
  function FormatAdmins(admins: seq<Admin>): (r: seq<Admin>)
    ensures |r| == |admins|
    ensures forall i :: 0 <= i < |admins| ==> r[i] == admins[i].(status := Capitalize(admins[i].status))
  {
    seq(|admins|, i requires 0 <= i < |admins| => admins[i].(status := Capitalize(admins[i].status)))
  }

  /** Formatting an already formatted list changes nothing. */
  lemma FormatAdminsIdempotent(admins: seq<Admin>)
    ensures FormatAdmins(FormatAdmins(admins)) == FormatAdmins(admins)
  {
    var once := FormatAdmins(admins);
    forall i | 0 <= i < |admins|
      ensures FormatAdmins(once)[i] == once[i]
    {
      CapitalizeIdempotent(admins[i].status);
    }
  }

  /** The key `admins.find(a => a.id === id)` compares. */
  function AdminId(a: Admin): string {
    a.id
  }

  /** `prev.map(a => a.id === id ? { ...a, status } : a)`. */
  function WithStatus(admins: seq<Admin>, id: string, status: string): (r: seq<Admin>)
    ensures |r| == |admins|
    ensures forall i :: 0 <= i < |admins| ==>
              r[i] == if admins[i].id == id then admins[i].(status := status) else admins[i]
  {
    seq(|admins|, i requires 0 <= i < |admins| => if admins[i].id == id then admins[i].(status := status) else admins[i])
  }

  class Roster {
    var admins: seq<Admin>

    constructor()
      ensures admins == []
    {
      admins := [];
    }

    /** `fetchAdmins`: a successful response replaces the list with its formatted admins. */
    method Fetch(response: Option<seq<Admin>>)
      modifies this
      ensures response.Some? ==> admins == FormatAdmins(response.value)
      ensures response.None? ==> admins == old(admins)
    {
      if response.Some? {
        admins := FormatAdmins(response.value);
      }
    }

    /**
     * `handleDeactivateAdmin`: the target comes from the first admin with
     * the id; on success every admin with that id shows the capitalised
     * target.
     */
    method DeactivateAdmin(id: string, success: bool)
      modifies this
      ensures Find(old(admins), AdminId, id).None? || !success ==> admins == old(admins)
      ensures Find(old(admins), AdminId, id).Some? && success ==>
        admins == WithStatus(old(admins), id, AfterToggle(Find(old(admins), AdminId, id).value.status))
    {
      var admin := Find(admins, AdminId, id);
      if admin.None? {
        return;
      }
      var newStatus := ToggleTarget(admin.value.status);
      if success {
        admins := WithStatus(admins, id, Capitalize(newStatus));
      }
    }
  }
}
