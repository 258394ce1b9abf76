/**
 * The agent routes of the admin back end (agent.ts): the complaint status
 * update with its escalation override and resolution side effect, and
 * the automatic assignment of an unassigned complaint to the most
 * recently active available agent.
 *
 * The complaint and agent tables are maps; every database write is one
 * step. The request time is the integer `now`.
 */
module AgentRoutes {
  import opened Wrappers
  import opened Text

  type ComplaintId = string
  type AgentId = string

  const Completed: string := "COMPLETED"
  const Escalated: string := "ESCALATED_TO_MUNICIPAL_LEVEL"

  /** The statuses the update route accepts, in the order its error message lists them. */
  const ValidStatuses: seq<string> :=
    ["REGISTERED", "UNDER_PROCESSING", "FORWARDED", "ON_HOLD", "COMPLETED", "REJECTED", "ESCALATED_TO_MUNICIPAL_LEVEL"]

  /** The 400 reply's message, listing the accepted statuses. */
  const InvalidStatusMessage: string := "Invalid status. Valid statuses are: " + Join(ValidStatuses, ", ")

  /** Agents with this many open complaints or more are not picked. */
  const WorkloadCap: int := 10

  datatype Complaint = Complaint(status: string, assignedAgentId: Option<AgentId>,
                                 dateOfResolution: Option<int>, escalatedAt: Option<int>)

  /** `currentWorkload` is a plain integer column: nothing keeps it non-negative. */
  datatype Agent = Agent(status: string, currentWorkload: int, availabilityStatus: string, lastLogin: int)

  /** The request's `escalate` field as JavaScript sees it: exactly `true`, another truthy value, or falsy. */
  datatype Flag = IsTrue | OtherTruthy | Falsy

  /** `if (complaint.assignedAgentId)`: set and non-empty. */
  predicate IsAssigned(c: Complaint) {
    c.assignedAgentId.Some? && c.assignedAgentId.value != ""
  }

  // ---------------------------------------------------------------- status update

  /** The status to write: escalation overrides the request; anything outside the allow-list is refused. */
  function ChooseStatus(requested: Option<string>, escalate: Flag): (r: Option<string>)
    ensures escalate == IsTrue ==> r == Some(Escalated)
    ensures escalate != IsTrue ==> (r.Some? <==> requested.Some? && requested.value in ValidStatuses)
    ensures escalate != IsTrue && r.Some? ==> r == requested
    ensures r.Some? ==> r.value in ValidStatuses
  {
    var newStatus := if escalate == IsTrue then Some(Escalated) else requested;
    if newStatus.None? || newStatus.value == "" || newStatus.value !in ValidStatuses then None else newStatus
  }

  /** The complaint row after the update to `s` at time `now`. */
  function Stamped(c: Complaint, s: string, now: int): (r: Complaint)
    ensures r.status == s && r.assignedAgentId == c.assignedAgentId
    ensures r.dateOfResolution == if s == Completed then Some(now) else c.dateOfResolution
    ensures r.escalatedAt == if s == Escalated then Some(now) else c.escalatedAt
  {
    c.(status := s,
       dateOfResolution := if s == Completed then Some(now) else c.dateOfResolution,
       escalatedAt := if s == Escalated then Some(now) else c.escalatedAt)
  }

  /** Whether the update to `s` decrements the assigned agent's workload: on every move to COMPLETED. */
  predicate Releases(c: Complaint, s: string) {
    s == Completed && IsAssigned(c)
  }

  /** The agent table after a status update whose decrement succeeded. */
  function Released(agents: map<AgentId, Agent>, c: Complaint, s: string): map<AgentId, Agent>
  {
    if Releases(c, s) && c.assignedAgentId.value in agents then
      var a := c.assignedAgentId.value;
      agents[a := agents[a].(currentWorkload := agents[a].currentWorkload - 1)]
    else agents
  }

  datatype StatusReply =
    | InvalidStatus(message: string)
    | ComplaintNotFound
    | Updated(message: string, complaint: Complaint)
    | AgentUpdateFailed

  function HttpStatusOf(r: StatusReply): int {
    match r
    case InvalidStatus(_) => 400
    case ComplaintNotFound => 404
    case Updated(_, _) => 200
    case AgentUpdateFailed => 500
  }

  // ---------------------------------------------------------------- assignment

  /** The `findFirst` filter of the assignment route. */
  predicate Eligible(a: Agent) {
    a.status == "ACTIVE" && a.currentWorkload < WorkloadCap && a.availabilityStatus == "At Work"
  }

  /** An eligible agent with the latest `lastLogin`; ties are left to the database. */
  predicate IsBestAgent(agents: map<AgentId, Agent>, id: AgentId) {
    && id in agents && Eligible(agents[id])
    && forall other :: other in agents && Eligible(agents[other]) ==> agents[other].lastLogin <= agents[id].lastLogin
  }

  /** `agent.findFirst({ where: eligible, orderBy: { lastLogin: 'desc' } })`, as a scan of the table. */
  method PickAgent(agents: map<AgentId, Agent>) returns (r: Option<AgentId>)
    ensures r.None? <==> forall id :: id in agents ==> !Eligible(agents[id])
    ensures r.Some? ==> IsBestAgent(agents, r.value)
  {
    r := None;
    var todo := agents.Keys;
    while todo != {}
      invariant todo <= agents.Keys
      invariant r.None? ==> forall id :: id in agents && id !in todo ==> !Eligible(agents[id])
      invariant r.Some? ==> r.value in agents && Eligible(agents[r.value])
      invariant r.Some? ==> forall id :: id in agents && id !in todo && Eligible(agents[id]) ==>
                              agents[id].lastLogin <= agents[r.value].lastLogin
      decreases todo
    {
      var id :| id in todo;
      var candidate := agents[id];
      if Eligible(candidate) && (r.None? || agents[r.value].lastLogin < candidate.lastLogin) {
        r := Some(id);
      }
      todo := todo - {id};
    }
  }

  datatype AssignReply =
    | MissingComplaintId
    | AssignComplaintNotFound
    | AlreadyAssigned
    | NoAvailableAgent
    | Assigned(agentId: AgentId, complaint: Complaint)

  function AssignStatusOf(r: AssignReply): int {
    match r
    case MissingComplaintId => 400
    case AssignComplaintNotFound => 404
    case AlreadyAssigned => 400
    case NoAvailableAgent => 404
    case Assigned(_, _) => 200
  }

  /** The agent table after agent `a` takes one more complaint. */
  function Charged(agents: map<AgentId, Agent>, a: AgentId): map<AgentId, Agent>
    requires a in agents
  {
    agents[a := agents[a].(currentWorkload := agents[a].currentWorkload + 1)]
  }

  // ---------------------------------------------------------------- the two tables

  class Desk {
    var complaints: map<ComplaintId, Complaint>
    var agents: map<AgentId, Agent>

    /**
     * `PUT /complaints/:id/status`. Any allowed status is accepted from any
     * state. The complaint is written first; when it moves to COMPLETED
     * with an assigned agent that agent's workload is then decremented,
     * and a missing agent row makes that second write fail with 500.
     */
    method UpdateStatus(id: ComplaintId, requested: Option<string>, escalate: Flag, now: int) returns (r: StatusReply)
      modifies this
      ensures ChooseStatus(requested, escalate).None? ==>
        r == InvalidStatus(InvalidStatusMessage)
      ensures r.InvalidStatus? || r.ComplaintNotFound? ==> complaints == old(complaints) && agents == old(agents)
      ensures ChooseStatus(requested, escalate).Some? ==> (r.ComplaintNotFound? <==> id !in old(complaints))
      ensures ChooseStatus(requested, escalate).Some? && id in old(complaints) ==>
        var s := ChooseStatus(requested, escalate).value;
        var c := old(complaints)[id];
        && complaints == old(complaints)[id := Stamped(c, s, now)]
        && agents == Released(old(agents), c, s)
        && (r.Updated? || r.AgentUpdateFailed?)
        && (r.AgentUpdateFailed? <==> Releases(c, s) && c.assignedAgentId.value !in old(agents))
        && (r.Updated? ==> r.complaint == Stamped(c, s, now))
        && (r.Updated? ==> r.message == if escalate == Falsy then "Complaint status updated successfully"
                                        else "Complaint escalated to municipal level successfully")
    {
      var chosen := ChooseStatus(requested, escalate);
      if chosen.None? {
        return InvalidStatus(InvalidStatusMessage);
      }
      var newStatus := chosen.value;
      if id !in complaints {
        return ComplaintNotFound;
      }
      var existing := complaints[id];
      var updated := Stamped(existing, newStatus, now);
      complaints := complaints[id := updated];
      if Releases(existing, newStatus) {
        var a := existing.assignedAgentId.value;
        if a !in agents {
          return AgentUpdateFailed;
        }
        agents := agents[a := agents[a].(currentWorkload := agents[a].currentWorkload - 1)];
      }
      var message := if escalate != Falsy then "Complaint escalated to municipal level successfully"
                     else "Complaint status updated successfully";
      r := Updated(message, updated);
    }

    /**
     * `POST /complaints/:complaintId/assign`: refuses an unknown or already
     * assigned complaint, picks the best eligible agent, then writes the
     * complaint and the agent's workload.
     */
    method Assign(complaintId: ComplaintId) returns (r: AssignReply)
      modifies this
      ensures !r.Assigned? ==> complaints == old(complaints) && agents == old(agents)
      ensures r == MissingComplaintId <==> complaintId == ""
      ensures complaintId != "" ==> (r == AssignComplaintNotFound <==> complaintId !in old(complaints))
      ensures complaintId != "" && complaintId in old(complaints) ==>
        (r == AlreadyAssigned <==> IsAssigned(old(complaints)[complaintId]))
      ensures r == NoAvailableAgent ==> forall a :: a in old(agents) ==> !Eligible(old(agents)[a])
      ensures r.Assigned? ==>
        && complaintId in old(complaints) && !IsAssigned(old(complaints)[complaintId])
        && IsBestAgent(old(agents), r.agentId)
        && r.complaint == old(complaints)[complaintId].(assignedAgentId := Some(r.agentId))
        && complaints == old(complaints)[complaintId := r.complaint]
        && agents == Charged(old(agents), r.agentId)
    {
      if complaintId == "" {
        return MissingComplaintId;
      }
      if complaintId !in complaints {
        return AssignComplaintNotFound;
      }
      var complaint := complaints[complaintId];
      if IsAssigned(complaint) {
        return AlreadyAssigned;
      }
      var pick := PickAgent(agents);
      if pick.None? {
        return NoAvailableAgent;
      }
      var a := pick.value;
      var updated := complaint.(assignedAgentId := Some(a));
      complaints := complaints[complaintId := updated];
      agents := agents[a := agents[a].(currentWorkload := agents[a].currentWorkload + 1)];
      r := Assigned(a, updated);
    }
  }

  // ---------------------------------------------------------------- workload accounting

  /** The complaints assigned to agent `a` that are not yet COMPLETED. */
  ghost function OpenLoad(complaints: map<ComplaintId, Complaint>, a: AgentId): set<ComplaintId> {
    set c | c in complaints && complaints[c].assignedAgentId == Some(a) && complaints[c].status != Completed
  }

  /** Every agent's counter equals its number of open assigned complaints. */
  ghost predicate Balanced(complaints: map<ComplaintId, Complaint>, agents: map<AgentId, Agent>) {
    forall a :: a in agents ==> agents[a].currentWorkload == |OpenLoad(complaints, a)|
  }

  /** Rewriting one complaint moves it in or out of the open loads; nothing else changes. */
  lemma OpenLoadAfterWrite(complaints: map<ComplaintId, Complaint>, id: ComplaintId, c: Complaint, a: AgentId)
    ensures OpenLoad(complaints[id := c], a) ==
      (OpenLoad(complaints, a) - {id}) + (if c.assignedAgentId == Some(a) && c.status != Completed then {id} else {})
  {
  }

  /** Taking `x` out of a set and possibly putting it back. */
  lemma RemoveAddCard<T>(xs: set<T>, x: T, add: bool)
    ensures |(xs - {x}) + (if add then {x} else {})| == |xs| - (if x in xs then 1 else 0) + (if add then 1 else 0)
  {
    if x in xs {
      assert xs == (xs - {x}) + {x};
    }
  }

  /**
   * The open load of agent `b` after complaint `id` is assigned to `a`: the
   * complaint leaves its previous agent's load and joins `a`'s, in both
   * cases only when it is not COMPLETED.
   */
  lemma AssignedLoad(complaints: map<ComplaintId, Complaint>, id: ComplaintId, a: AgentId, b: AgentId)
    requires id in complaints
    ensures var c := complaints[id];
            var open := c.status != Completed;
            |OpenLoad(complaints[id := c.(assignedAgentId := Some(a))], b)|
            == |OpenLoad(complaints, b)| - (if open && c.assignedAgentId == Some(b) then 1 else 0)
                                         + (if open && b == a then 1 else 0)
  {
    var c := complaints[id];
    var open := c.status != Completed;
    assert id in OpenLoad(complaints, b) <==> open && c.assignedAgentId == Some(b);
    OpenLoadAfterWrite(complaints, id, c.(assignedAgentId := Some(a)), b);
    RemoveAddCard(OpenLoad(complaints, b), id, open && b == a);
  }

  /**
   * Assigning a complaint the route accepts (not assigned, so its agent id
   * is absent or "") keeps the counters balanced exactly when it is not
   * COMPLETED and its empty agent id names no agent: the route charges the
   * new agent even for a COMPLETED complaint.
   */
  lemma AssignKeepsBalance(complaints: map<ComplaintId, Complaint>, agents: map<AgentId, Agent>, id: ComplaintId, a: AgentId)
    requires Balanced(complaints, agents)
    requires id in complaints && !IsAssigned(complaints[id])
    requires a in agents
    ensures Balanced(complaints[id := complaints[id].(assignedAgentId := Some(a))], Charged(agents, a))
            <==> complaints[id].status != Completed
                 && !(complaints[id].assignedAgentId.Some? && complaints[id].assignedAgentId.value in agents)
  {
    var c := complaints[id];
    var after := complaints[id := c.(assignedAgentId := Some(a))];
    var charged := Charged(agents, a);
    if c.status == Completed {
      AssignedLoad(complaints, id, a, a);
      assert charged[a].currentWorkload != |OpenLoad(after, a)|;
    } else if c.assignedAgentId.Some? && c.assignedAgentId.value in agents {
      var b := c.assignedAgentId.value;
      AssignedLoad(complaints, id, a, b);
      assert charged[b].currentWorkload != |OpenLoad(after, b)|;
    } else {
      forall b | b in agents
        ensures charged[b].currentWorkload == |OpenLoad(after, b)|
      {
        AssignedLoad(complaints, id, a, b);
      }
    }
  }

  /** A status update of complaint `id` leaves every other agent's count as it was. */
  lemma OtherAgentsUnaffected(complaints: map<ComplaintId, Complaint>, agents: map<AgentId, Agent>,
                              id: ComplaintId, s: string, now: int, b: AgentId)
    requires Balanced(complaints, agents)
    requires id in complaints && IsAssigned(complaints[id]) && b in agents && b != complaints[id].assignedAgentId.value
    ensures Released(agents, complaints[id], s)[b].currentWorkload
            == |OpenLoad(complaints[id := Stamped(complaints[id], s, now)], b)|
  {
    OpenLoadAfterWrite(complaints, id, Stamped(complaints[id], s, now), b);
    assert OpenLoad(complaints[id := Stamped(complaints[id], s, now)], b) == OpenLoad(complaints, b);
  }

  /** The assigned agent's count stays right exactly when the complaint was not already COMPLETED. */
  lemma OwnerBalance(complaints: map<ComplaintId, Complaint>, agents: map<AgentId, Agent>,
                     id: ComplaintId, s: string, now: int)
    requires Balanced(complaints, agents)
    requires id in complaints && IsAssigned(complaints[id]) && complaints[id].assignedAgentId.value in agents
    ensures var a := complaints[id].assignedAgentId.value;
            Released(agents, complaints[id], s)[a].currentWorkload
              == |OpenLoad(complaints[id := Stamped(complaints[id], s, now)], a)|
            <==> complaints[id].status != Completed
  {
    var c := complaints[id];
    var a := c.assignedAgentId.value;
    var after := complaints[id := Stamped(c, s, now)];
    var before := OpenLoad(complaints, a);
    assert id in before <==> c.status != Completed;
    OpenLoadAfterWrite(complaints, id, Stamped(c, s, now), a);
    RemoveAddCard(before, id, s != Completed);
  }

  /**
   * A status update of an assigned complaint whose agent exists keeps the
   * counters balanced exactly when the complaint was not already
   * COMPLETED: completing twice decrements twice, and reopening a
   * completed complaint adds load without incrementing.
   */
  lemma StatusUpdateBalance(complaints: map<ComplaintId, Complaint>, agents: map<AgentId, Agent>,
                            id: ComplaintId, s: string, now: int)
    requires Balanced(complaints, agents)
    requires id in complaints && IsAssigned(complaints[id]) && complaints[id].assignedAgentId.value in agents
    ensures Balanced(complaints[id := Stamped(complaints[id], s, now)], Released(agents, complaints[id], s))
            <==> complaints[id].status != Completed
  {
    var a := complaints[id].assignedAgentId.value;
    var after := complaints[id := Stamped(complaints[id], s, now)];
    var agents' := Released(agents, complaints[id], s);
    assert agents'.Keys == agents.Keys;
    forall b | b in agents && b != a
      ensures agents'[b].currentWorkload == |OpenLoad(after, b)|
    {
      OtherAgentsUnaffected(complaints, agents, id, s, now, b);
    }
    OwnerBalance(complaints, agents, id, s, now);
  }
}
