/**
 * The agent's complaint tab: the list of complaints assigned to the
 * agent, the colour classes for priority and status badges, the status
 * label, whether the status selector is shown, and the local update
 * after a status change the back end accepted (`success`).
 */
module ComplaintTab {
  import opened Wrappers
  import opened Text

  /** A row of the tab; `status` and `priority` may be missing in the response. */
  datatype Row = Row(id: string, title: string, status: Option<string>, priority: Option<string>)

  const DefaultClass: string := "bg-gray-700 text-gray-300"

  /** `priority?.toLowerCase()` matched against high, medium and low. */
  function PriorityColor(priority: Option<string>): (r: string)
    ensures priority.None? ==> r == DefaultClass
    ensures priority.Some? ==>
      var p := ToLower(priority.value);
      && (p == "high" ==> r == "bg-red-900 text-red-200")
      && (p == "medium" ==> r == "bg-yellow-900 text-yellow-200")
      && (p == "low" ==> r == "bg-green-900 text-green-200")
      && (p != "high" && p != "medium" && p != "low" ==> r == DefaultClass)
  {
    if priority.None? then DefaultClass
    else
      var p := ToLower(priority.value);
      if p == "high" then "bg-red-900 text-red-200"
      else if p == "medium" then "bg-yellow-900 text-yellow-200"
      else if p == "low" then "bg-green-900 text-green-200"
      else DefaultClass
  }

  /** `status?.toLowerCase()` matched against resolved, in_progress, pending and rejected. */
  function StatusColor(status: Option<string>): (r: string)
    ensures status.None? ==> r == DefaultClass
    ensures status.Some? ==>
      var s := ToLower(status.value);
      && (s == "resolved" ==> r == "bg-green-900 text-green-200")
      && (s == "in_progress" ==> r == "bg-blue-900 text-blue-200")
      && (s == "pending" ==> r == "bg-yellow-900 text-yellow-200")
      && (s == "rejected" ==> r == "bg-red-900 text-red-200")
      && (s != "resolved" && s != "in_progress" && s != "pending" && s != "rejected" ==> r == DefaultClass)
  {
    if status.None? then DefaultClass
    else
      var s := ToLower(status.value);
      if s == "resolved" then "bg-green-900 text-green-200"
      else if s == "in_progress" then "bg-blue-900 text-blue-200"
      else if s == "pending" then "bg-yellow-900 text-yellow-200"
      else if s == "rejected" then "bg-red-900 text-red-200"
      else DefaultClass
  }

  /** Both colour lookups ignore (ASCII) letter case. */
  lemma ColorsIgnoreCase(s: string)
    ensures PriorityColor(Some(s)) == PriorityColor(Some(ToLower(s)))
    ensures StatusColor(Some(s)) == StatusColor(Some(ToLower(s)))
  {
    ToLowerIdempotent(s);
  }

  /** `status?.replace('_', ' ') || 'Pending'`: only the first underscore becomes a space. */
  function StatusLabel(status: Option<string>): (r: string)
    ensures status.None? || status.value == "" ==> r == "Pending"
    ensures status.Some? && status.value != "" ==>
      |r| == |status.value| &&
      forall i :: 0 <= i < |r| ==>
        r[i] == if i == IndexOf(status.value, '_') then ' ' else status.value[i]
  {
    if status.None? then "Pending"
    else
      var shown := ReplaceFirst(status.value, '_', ' ');
      if shown == "" then "Pending" else shown
  }

  /** A label keeps every underscore after the first. */
  lemma LabelKeepsLaterUnderscores(s: string, i: int)
    requires 0 <= i < |s| && s[i] == '_' && i != IndexOf(s, '_')
    ensures StatusLabel(Some(s))[i] == '_'
  {
  }

  /**
   * The selector is hidden only for the exact text "resolved": a hidden
   * selector goes with the resolved colour, and every status the colour
   * lookup does not call resolved keeps its selector.
   */
  predicate ShowsSelector(status: Option<string>): (shown: bool)
    ensures !shown <==> status == Some("resolved")
    ensures !shown ==> StatusColor(status) == "bg-green-900 text-green-200"
    ensures status.None? || ToLower(status.value) != "resolved" ==> shown
  {
    if status == Some("resolved") then
      assert ToLower("resolved") == "resolved";
      false
    else true
  }

  /**
   * The colour lookup and the selector disagree on letter case: every
   * spelling of "resolved" is coloured resolved, yet only the lower-case
   * one hides the selector.
   */
  lemma SelectorIsCaseSensitive(s: string)
    requires ToLower(s) == "resolved"
    ensures StatusColor(Some(s)) == StatusColor(Some("resolved")) == "bg-green-900 text-green-200"
    ensures ShowsSelector(Some(s)) <==> s != "resolved"
  {
    assert ToLower("resolved") == "resolved";
  }

  /** "RESOLVED" is coloured resolved yet keeps its selector. */
  lemma UpperCaseResolvedKeepsSelector()
    ensures StatusColor(Some("RESOLVED")) == StatusColor(Some("resolved"))
    ensures ShowsSelector(Some("RESOLVED")) && !ShowsSelector(Some("resolved"))
  {
    assert ToLower("RESOLVED") == "resolved";
    SelectorIsCaseSensitive("RESOLVED");
  }

  /** `prev.map(c => c.id === id ? { ...c, status } : c)`. */
  function WithStatus(rows: seq<Row>, id: string, status: string): (r: seq<Row>)
    ensures |r| == |rows|
    ensures forall i :: 0 <= i < |rows| ==>
              r[i] == if rows[i].id == id then rows[i].(status := Some(status)) else rows[i]
  {
    seq(|rows|, i requires 0 <= i < |rows| => if rows[i].id == id then rows[i].(status := Some(status)) else rows[i])
  }

  class Tab {
    var complaints: seq<Row>

    constructor()
      ensures complaints == []
    {
      complaints := [];
    }

    /** `handleUpdateComplaintStatus`: an accepted update changes only the rows with that id. */
    method UpdateStatus(id: string, newStatus: string, success: bool)
      modifies this
      ensures success ==> complaints == WithStatus(old(complaints), id, newStatus)
      ensures !success ==> complaints == old(complaints)
    {
      if success {
        complaints := WithStatus(complaints, id, newStatus);
      }
    }
  }
}
