/**
 * What the three admin dashboards share: a list of complaint entries,
 * the summary grouping by status (a `reduce` into a record of lists),
 * the status filter (`'All'` or one status) and the update of one
 * entry's status by id. The agent dashboard's mapping from back-end
 * statuses to the four display labels lives here too.
 *
 * Display-only fields (dates formatted by `toLocaleString`, titles,
 * categories) pass through unchanged and are not part of `Entry`.
 */
module Dashboards {
  import AgentRoutes

  datatype Entry<S> = Entry(id: string, text: string, status: S)

  /** `xs.filter(keep)`. */
  function Where<S(!new)>(xs: seq<Entry<S>>, keep: Entry<S> -> bool): (r: seq<Entry<S>>)
    ensures |r| <= |xs|
    ensures forall e :: e in r <==> e in xs && keep(e)
  {
    if |xs| == 0 then []
    else
      var init := xs[..|xs| - 1];
      var last := xs[|xs| - 1];
      assert xs == init + [last];
      Where(init, keep) + (if keep(last) then [last] else [])
  }

  /** Filtering keeps the relative order: it distributes over concatenation. */
  lemma {:induction false} WhereAppend<S(!new)>(a: seq<Entry<S>>, b: seq<Entry<S>>, keep: Entry<S> -> bool)
    ensures Where(a + b, keep) == Where(a, keep) + Where(b, keep)
    decreases |b|
  {
    if |b| == 0 {
      assert a + b == a;
    } else {
      var init, last := b[..|b| - 1], b[|b| - 1];
      var kept := if keep(last) then [last] else [];
      assert (a + b)[..|a + b| - 1] == a + init;
      assert (a + b)[|a + b| - 1] == last;
      assert Where(a + b, keep) == Where(a + init, keep) + kept;
      assert Where(b, keep) == Where(init, keep) + kept;
      WhereAppend(a, init, keep);
    }
  }

  /** A filter that keeps everything is the identity. */
  lemma {:induction false} WhereAll<S(!new)>(xs: seq<Entry<S>>, keep: Entry<S> -> bool)
    requires forall e :: e in xs ==> keep(e)
    ensures Where(xs, keep) == xs
    decreases |xs|
  {
    if |xs| > 0 {
      var init := xs[..|xs| - 1];
      assert xs == init + [xs[|xs| - 1]];
      WhereAll(init, keep);
    }
  }

  /** A filter that keeps nothing gives the empty list. */
  lemma {:induction false} WhereNone<S(!new)>(xs: seq<Entry<S>>, keep: Entry<S> -> bool)
    requires forall e :: e in xs ==> !keep(e)
    ensures Where(xs, keep) == []
    decreases |xs|
  {
    if |xs| > 0 {
      var init := xs[..|xs| - 1];
      assert xs == init + [xs[|xs| - 1]];
      WhereNone(init, keep);
    }
  }

  /** `xs.filter(c => c.status === s)`. */
  function Select<S(==,!new)>(xs: seq<Entry<S>>, s: S): (r: seq<Entry<S>>)
    ensures forall e :: e in r <==> e in xs && e.status == s
  {
    Where(xs, (e: Entry<S>) => e.status == s)
  }

  /** The summary `reduce`: appends each entry to the list of its status, creating the list on first use. */
  function Group<S(==,!new)>(xs: seq<Entry<S>>): (g: map<S, seq<Entry<S>>>)
    ensures forall s :: s in g ==> |g[s]| > 0
  {
    if |xs| == 0 then map[]
    else
      var acc := Group(xs[..|xs| - 1]);
      var c := xs[|xs| - 1];
      acc[c.status := (if c.status in acc then acc[c.status] else []) + [c]]
  }

  /** Each status that occurs is mapped to its entries, in list order, and no other key is present. */
  lemma {:induction false} GroupIsSelection<S(!new)>(xs: seq<Entry<S>>)
    ensures forall s :: s in Group(xs) <==> Select(xs, s) != []
    ensures forall s :: s in Group(xs) ==> Group(xs)[s] == Select(xs, s)
    decreases |xs|
  {
    if |xs| > 0 {
      var init := xs[..|xs| - 1];
      var c := xs[|xs| - 1];
      assert xs == init + [c];
      GroupIsSelection(init);
      SelectSnocAll(init, c);
    }
  }

  /** `filterStatus`: everything, or one status. */
  datatype StatusFilter<S> = All | Only(status: S)

  /** `filteredComplaints`: the list itself for 'All', otherwise the entries with that status in order. */
  function Filtered<S(==,!new)>(xs: seq<Entry<S>>, f: StatusFilter<S>): (r: seq<Entry<S>>)
    ensures f.All? ==> r == xs
    ensures f.Only? ==> r == if f.status in Group(xs) then Group(xs)[f.status] else []
    ensures forall e :: e in r <==> e in xs && (f.All? || e.status == f.status)
  {
    match f
    case All => xs
    case Only(s) => GroupIsSelection(xs); Select(xs, s)
  }

  /** `xs.map(c => c.id === id ? { ...c, status: f(c.status) } : c)`. */
  function Restatus<S>(xs: seq<Entry<S>>, id: string, f: S -> S): (r: seq<Entry<S>>)
    ensures |r| == |xs|
    ensures forall i :: 0 <= i < |xs| ==> r[i].id == xs[i].id && r[i].text == xs[i].text
    ensures forall i :: 0 <= i < |xs| && xs[i].id != id ==> r[i] == xs[i]
    ensures forall i :: 0 <= i < |xs| && xs[i].id == id ==> r[i].status == f(xs[i].status)
  {
    seq(|xs|, i requires 0 <= i < |xs| => if xs[i].id == id then xs[i].(status := f(xs[i].status)) else xs[i])
  }

  /** Two updates of the same id compose. */
  lemma RestatusTwice<S>(xs: seq<Entry<S>>, id: string, f: S -> S, g: S -> S)
    ensures Restatus(Restatus(xs, id, f), id, g) == Restatus(xs, id, (s: S) => g(f(s)))
  {
    var lhs := Restatus(Restatus(xs, id, f), id, g);
    var rhs := Restatus(xs, id, (s: S) => g(f(s)));
    assert forall i :: 0 <= i < |xs| ==> lhs[i] == rhs[i];
  }

  /** The four labels the admin dashboards show. */
  datatype DisplayStatus = Pending | Solved | InProgress | Escalated

  /** The number of entries a summary card shows for status `s`. */
  function CardCount<S(==,!new)>(g: map<S, seq<Entry<S>>>, s: S): nat {
    if s in g then |g[s]| else 0
  }

  /** Appending one entry adds it to its own status's selection only. */
  lemma SelectSnoc<S(!new)>(xs: seq<Entry<S>>, e: Entry<S>, s: S)
    ensures Select(xs + [e], s) == Select(xs, s) + (if e.status == s then [e] else [])
  {
    assert (xs + [e])[..|xs|] == xs;
  }

  /** `SelectSnoc` for every status at once. */
  lemma SelectSnocAll<S(!new)>(xs: seq<Entry<S>>, e: Entry<S>)
    ensures forall s :: Select(xs + [e], s) == Select(xs, s) + (if e.status == s then [e] else [])
  {
    forall s
      ensures Select(xs + [e], s) == Select(xs, s) + (if e.status == s then [e] else [])
    {
      SelectSnoc(xs, e, s);
    }
  }

  /** The four status selections of a list together have its length. */
  lemma {:induction false} SelectionsPartition(xs: seq<Entry<DisplayStatus>>)
    ensures |Select(xs, Pending)| + |Select(xs, Solved)| + |Select(xs, InProgress)| + |Select(xs, Escalated)| == |xs|
    decreases |xs|
  {
    if |xs| > 0 {
      var init := xs[..|xs| - 1];
      var last := xs[|xs| - 1];
      assert xs == init + [last];
      SelectionsPartition(init);
      SelectSnoc(init, last, Pending);
      SelectSnoc(init, last, Solved);
      SelectSnoc(init, last, InProgress);
      SelectSnoc(init, last, Escalated);
      match last.status
      case Pending =>
      case Solved =>
      case InProgress =>
      case Escalated =>
    }
  }

  /** A card shows as many entries as have its status. */
  lemma CardCountIsSelection<S(!new)>(xs: seq<Entry<S>>, s: S)
    ensures CardCount(Group(xs), s) == |Select(xs, s)|
  {
    GroupIsSelection(xs);
  }

  /** The four summary cards together count every entry once. */
  lemma CardCountsSum(xs: seq<Entry<DisplayStatus>>)
    ensures CardCount(Group(xs), Pending) + CardCount(Group(xs), Solved)
          + CardCount(Group(xs), InProgress) + CardCount(Group(xs), Escalated) == |xs|
  {
    SelectionsPartition(xs);
    CardCountIsSelection(xs, Pending);
    CardCountIsSelection(xs, Solved);
    CardCountIsSelection(xs, InProgress);
    CardCountIsSelection(xs, Escalated);
  }

  /** No card for a status no entry has. */
  lemma NoCardWithoutEntries<S(!new)>(xs: seq<Entry<S>>, s: S)
    requires forall e :: e in xs ==> e.status != s
    ensures s !in Group(xs)
  {
    GroupIsSelection(xs);
    WhereNone(xs, (e: Entry<S>) => e.status == s);
  }

  /** `mapStatus` of the agent dashboard. */
  function MapStatus(status: string): (d: DisplayStatus)
    ensures d == InProgress <==> status == "UNDER_PROCESSING"
    ensures d == Solved <==> status == "RESOLVED"
    ensures d == Escalated <==> status == "ESCALATED"
    ensures d == Pending <==> status !in {"UNDER_PROCESSING", "RESOLVED", "ESCALATED"}
  {
    if status == "UNDER_PROCESSING" then InProgress
    else if status == "RESOLVED" then Solved
    else if status == "ESCALATED" then Escalated
    else Pending
  }

  /**
   * Of the statuses the agent routes can store, only UNDER_PROCESSING is
   * shown as anything but Pending: COMPLETED and
   * ESCALATED_TO_MUNICIPAL_LEVEL both show as Pending.
   */
  lemma MapStatusOfStoredStatuses(status: string)
    requires status in AgentRoutes.ValidStatuses
    ensures MapStatus(status) == if status == "UNDER_PROCESSING" then InProgress else Pending
  {
  }

  /** A complaint as the agent's complaint list returns it. */
  datatype AgentRow = AgentRow(id: string, description: string, status: string)

  /** The agent dashboard's fetch transform. */
  function AgentView(rows: seq<AgentRow>): (r: seq<Entry<DisplayStatus>>)
    ensures |r| == |rows|
    ensures forall i :: 0 <= i < |rows| ==> r[i] == Entry(rows[i].id, rows[i].description, MapStatus(rows[i].status))
  {
    seq(|rows|, i requires 0 <= i < |rows| => Entry(rows[i].id, rows[i].description, MapStatus(rows[i].status)))
  }

  /** Complaints with stored statuses never fill the agent's Solved or Escalated card. */
  lemma AgentCardsOfStoredStatuses(rows: seq<AgentRow>)
    requires forall i :: 0 <= i < |rows| ==> rows[i].status in AgentRoutes.ValidStatuses
    ensures Solved !in Group(AgentView(rows)) && Escalated !in Group(AgentView(rows))
  {
    var view := AgentView(rows);
    forall e | e in view
      ensures e.status == Pending || e.status == InProgress
    {
      var i :| 0 <= i < |view| && view[i] == e;
      MapStatusOfStoredStatuses(rows[i].status);
    }
    NoCardWithoutEntries(view, Solved);
    NoCardWithoutEntries(view, Escalated);
  }
}
