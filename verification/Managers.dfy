/** The session manager: creation, removal, kill, and the list of sessions that can still be talked to. */
module Managers {
  import opened Media
  import opened CloseInfos
  import opened SessionModel
  import opened Sessions
  import opened Orders

  function SummaryOf(s: Session): Summary {
    Summary(s.id, s.createdAt)
  }

  class Manager {
    var sessions: map<string, Session>

    /** Every session is filed under its own id, and each is sound. */
    ghost predicate Valid()
      reads this, sessions.Values
    {
      forall id :: id in sessions ==> sessions[id].id == id && sessions[id].Valid()
    }

    constructor ()
      ensures Valid() && sessions == map[]
    {
      sessions := map[];
    }

    method Create(id: string, now: int) returns (s: Session)
      requires Valid()
      modifies this
      ensures Valid() && fresh(s) && s.Valid()
      ensures s.id == id && s.createdAt == now && s.control == NEW_CONTROL
      ensures s.commands == [] && s.trackSeq == 0 && s.currentTrackID == ""
      ensures sessions == old(sessions)[id := s]
    {
      s := new Session(id, now);
      sessions := sessions[id := s];
    }

    method Delete(id: string)
      requires Valid()
      modifies this
      ensures Valid() && sessions == old(sessions) - {id}
    {
      sessions := sessions - {id};
    }

    /** Requests the session's close; the record stays. */
    method Kill(id: string) returns (found: bool, toCall: Option<nat>)
      requires Valid()
      modifies (if id in sessions then {sessions[id]} else {})`control
      ensures Valid() && sessions == old(sessions)
      ensures found == (id in sessions)
      ensures found ==> (sessions[id].control, toCall) == SessionModel.RequestClose(old(sessions[id].control), KILLED)
      ensures !found ==> toCall.None?
    {
      if id !in sessions {
        return false, None;
      }
      var s := sessions[id];
      toCall := s.RequestClose(KILLED);
      found := true;
    }

    /** The sessions whose close has not been requested, strictly sorted by creation time and id. */
    method List() returns (out: seq<Summary>)
      requires Valid()
      ensures StrictlySorted(out)
      ensures forall x :: x in out <==>
        exists id :: id in sessions && !sessions[id].control.closeRequested && x == SummaryOf(sessions[id])
    {
      var found: seq<Summary> := [];
      var rest := sessions.Keys;
      while rest != {}
        invariant rest <= sessions.Keys
        invariant Distinct(found)
        invariant forall x :: x in found <==>
          exists id :: id in sessions && id !in rest && Visible(sessions[id].control) && x == SummaryOf(sessions[id])
        decreases |rest|
      {
        var id :| id in rest;
        ghost var was := rest;
        rest := rest - {id};
        var s := sessions[id];
        if s.VisibleInList() {
          assert forall x :: x in found ==> x.id != id;
          found := found + [SummaryOf(s)];
        }
      }
      out := Sort(found);
    }

    /** Final state for the session and its removal from the map under its id; without a session only the fallback
        is normalised. */
    method Cleanup(s: Session?, fallback: CloseInfo, now: int) returns (info: CloseInfo)
      requires Valid() && (s != null ==> s.Valid())
      modifies this, (if s == null then {} else {s})`control
      ensures Valid()
      ensures s == null ==> sessions == old(sessions) && info == Normalize(fallback)
      ensures s != null ==>
        && s.Valid()
        && sessions == old(sessions) - {s.id}
        && s.control == SessionModel.Finalize(old(s.control), fallback, now).0
        && info == s.control.closeInfo
    {
      if s == null {
        return Normalize(fallback);
      }
      var closeDone;
      info, closeDone := s.Finalize(fallback, now);
      Delete(s.id);
    }
  }
}
