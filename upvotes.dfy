/**
 * The upvote toggle of the complaint routes: membership of a
 * (user, complaint) pair in the upvote table is flipped, and the
 * complaint's denormalised `upvoteCount` is overwritten with the
 * recounted number of rows, inside one transaction. Afterwards the new
 * count is broadcast to the viewer registry.
 */
module Upvotes {
  import opened Wrappers
  import opened Validators
  import Viewers

  type UserId = string
  type ComplaintId = string

  /** The complaint columns the toggle reads or writes. */
  datatype Complaint = Complaint(isPublic: bool, complainantId: UserId, upvoteCount: int)

  /** One upvote row; the table is unique on the pair. */
  datatype Upvote = Upvote(userId: UserId, complaintId: ComplaintId)

  datatype Action = Added | Removed

  /** The `upvote_update` broadcast's data; its two clock readings are not modelled. */
  datatype UpvoteUpdate = UpvoteUpdate(complaintId: ComplaintId, upvoteCount: nat, hasUpvoted: bool, userId: UserId)

  datatype ToggleReply =
    | Toggled(action: Action, upvoteCount: nat, hasUpvoted: bool)
    | Refused(status: nat, error: string)

  /** The upvote rows of one complaint. */
  function VotesFor(votes: set<Upvote>, c: ComplaintId): set<Upvote> {
    set v | v in votes && v.complaintId == c
  }

  /** `upvote.count({ where: { complaintId } })`. */
  function Count(votes: set<Upvote>, c: ComplaintId): nat {
    |VotesFor(votes, c)|
  }

  /** Delete the row if it exists, create it otherwise. */
  function Toggle(votes: set<Upvote>, v: Upvote): set<Upvote> {
    if v in votes then votes - {v} else votes + {v}
  }

  /** The complaint table after the recount of complaint `id`. */
  function Recount(complaints: map<ComplaintId, Complaint>, votes: set<Upvote>, id: ComplaintId): map<ComplaintId, Complaint>
    requires id in complaints
  {
    complaints[id := complaints[id].(upvoteCount := Count(votes, id))]
  }

  /** Every complaint's counter equals its number of upvote rows. */
  ghost predicate CountsAgree(complaints: map<ComplaintId, Complaint>, votes: set<Upvote>) {
    forall c :: c in complaints ==> complaints[c].upvoteCount == Count(votes, c)
  }

  /** No complainant has an upvote row on their own complaint. */
  ghost predicate NoSelfVotes(complaints: map<ComplaintId, Complaint>, votes: set<Upvote>) {
    forall v :: v in votes && v.complaintId in complaints ==> complaints[v.complaintId].complainantId != v.userId
  }

  /** Toggling the same pair twice restores the table. */
  lemma ToggleTwiceRestores(votes: set<Upvote>, v: Upvote)
    ensures Toggle(Toggle(votes, v), v) == votes
  {
  }

  /** A toggle moves the complaint's row count by exactly one, down when the row existed. */
  lemma ToggleCount(votes: set<Upvote>, v: Upvote)
    ensures v in votes ==> Count(Toggle(votes, v), v.complaintId) == Count(votes, v.complaintId) - 1
    ensures v !in votes ==> Count(Toggle(votes, v), v.complaintId) == Count(votes, v.complaintId) + 1
  {
    var c := v.complaintId;
    if v in votes {
      assert VotesFor(Toggle(votes, v), c) == VotesFor(votes, c) - {v};
    } else {
      assert VotesFor(Toggle(votes, v), c) == VotesFor(votes, c) + {v};
    }
  }

  /** A toggle leaves the rows of every other complaint alone. */
  lemma ToggleLeavesOthers(votes: set<Upvote>, v: Upvote, c: ComplaintId)
    requires c != v.complaintId
    ensures VotesFor(Toggle(votes, v), c) == VotesFor(votes, c)
  {
  }

  /**
   * Recount self-heals: after a toggle of complaint `id` the counters all
   * agree with the rows exactly when every OTHER complaint agreed before,
   * whatever drift complaint `id` itself had.
   */
  lemma RecountHeals(complaints: map<ComplaintId, Complaint>, votes: set<Upvote>, v: Upvote)
    requires v.complaintId in complaints
    ensures CountsAgree(Recount(complaints, Toggle(votes, v), v.complaintId), Toggle(votes, v)) <==>
      forall c :: c in complaints && c != v.complaintId ==> complaints[c].upvoteCount == Count(votes, c)
  {
    var after := Toggle(votes, v);
    var healed := Recount(complaints, after, v.complaintId);
    forall c | c in complaints && c != v.complaintId
      ensures healed[c] == complaints[c] && Count(after, c) == Count(votes, c)
    {
      ToggleLeavesOthers(votes, v, c);
    }
    assert healed.Keys == complaints.Keys;
    assert healed[v.complaintId].upvoteCount == Count(after, v.complaintId);
  }

  /** Toggling twice restores the rows and, through the recount, the counter as well. */
  lemma DoubleToggleRestoresCounter(complaints: map<ComplaintId, Complaint>, votes: set<Upvote>, v: Upvote)
    requires v.complaintId in complaints && CountsAgree(complaints, votes)
    ensures var once := Toggle(votes, v);
            Recount(Recount(complaints, once, v.complaintId), Toggle(once, v), v.complaintId) == complaints
  {
    ToggleTwiceRestores(votes, v);
    var c := v.complaintId;
    assert complaints[c].upvoteCount == Count(votes, c);
  }

  class Store {
    var complaints: map<ComplaintId, Complaint>
    var upvotes: set<Upvote>

    ghost predicate Valid()
      reads this
    {
      NoSelfVotes(complaints, upvotes)
    }

    /**
     * `POST /:id/upvote`. `user` is the authenticated caller, if any; the
     * transport state for the broadcast is given as `open` and `sendFails`.
     */
    method ToggleUpvote(user: Option<UserId>, id: ComplaintId, viewers: Viewers.Registry,
                        open: set<Viewers.Socket>, sendFails: set<Viewers.Socket>)
      returns (r: ToggleReply, message: Option<UpvoteUpdate>, sent: set<Viewers.Socket>)
      requires Valid()
      modifies this, viewers
      ensures Valid()
      ensures r.Refused? <==>
        user.None? || !IsUuid(id) || id !in old(complaints) || !old(complaints)[id].isPublic
        || old(complaints)[id].complainantId == user.value
      ensures r.Refused? ==> complaints == old(complaints) && upvotes == old(upvotes)
      ensures r.Refused? ==> viewers.clients == old(viewers.clients) && message.None? && sent == {}
      ensures r.Refused? ==>
        r.status == (if user.None? then 401 else if !IsUuid(id) then 400 else if id !in old(complaints) then 404 else 403)
      ensures r.Refused? ==>
        r.error == (if user.None? then "Authentication required"
                    else if !IsUuid(id) then "Invalid complaint ID format"
                    else if id !in old(complaints) then "Complaint not found"
                    else if !old(complaints)[id].isPublic then "Cannot upvote private complaints"
                    else "Cannot upvote your own complaint")
      ensures r.Toggled? ==>
        var v := Upvote(user.value, id);
        && upvotes == Toggle(old(upvotes), v)
        && complaints == Recount(old(complaints), upvotes, id)
        && r == Toggled(if v in old(upvotes) then Removed else Added, Count(upvotes, id), v !in old(upvotes))
        && viewers.running == old(viewers.running)
        && (viewers.running ==> viewers.clients == Viewers.AfterBroadcast(old(viewers.clients), open, sendFails))
        && (!viewers.running ==> viewers.clients == old(viewers.clients))
      ensures r.Toggled? && old(viewers.running) ==>
        && message == Some(UpvoteUpdate(id, r.upvoteCount, r.hasUpvoted, user.value))
        && sent == set s | s in old(viewers.clients) && s in open && s !in sendFails
      ensures !(r.Toggled? && old(viewers.running)) ==> message.None? && sent == {}
      ensures old(CountsAgree(complaints, upvotes)) ==> CountsAgree(complaints, upvotes)
    {
      sent, message := {}, None;
      if user.None? {
        return Refused(401, "Authentication required"), message, sent;
      }
      var uid := user.value;
      if !IsUuid(id) {
        return Refused(400, "Invalid complaint ID format"), message, sent;
      }
      if id !in complaints {
        return Refused(404, "Complaint not found"), message, sent;
      }
      var complaint := complaints[id];
      if !complaint.isPublic {
        return Refused(403, "Cannot upvote private complaints"), message, sent;
      }
      if complaint.complainantId == uid {
        return Refused(403, "Cannot upvote your own complaint"), message, sent;
      }
      var v := Upvote(uid, id);
      var existing := v in upvotes;
      ghost var before := complaints;
      ghost var votesBefore := upvotes;
      // one transaction: the row flip, the recount and the counter write
      var action: Action;
      var hasUpvoted: bool;
      if existing {
        upvotes := upvotes - {v};
        action, hasUpvoted := Removed, false;
      } else {
        upvotes := upvotes + {v};
        action, hasUpvoted := Added, true;
      }
      var upvoteCount := Count(upvotes, id);
      complaints := complaints[id := complaint.(upvoteCount := upvoteCount)];
      RecountHeals(before, votesBefore, v);
      // `broadcastUpvoteUpdate` builds the message only once the server exists
      if viewers.running {
        message := Some(UpvoteUpdate(id, upvoteCount, hasUpvoted, uid));
      }
      sent := viewers.Broadcast(open, sendFails);
      r := Toggled(action, upvoteCount, hasUpvoted);
    }
  }
}
