/** The session object, updated in place; each locked section is proved against its function on values and
    returns what remains to be done outside the lock. */
module Sessions {
  import opened Media
  import opened CloseInfos
  import opened SessionModel
  import opened TrackIds

  /** The track counter is a 64-bit unsigned integer. */
  const COUNTER_WRAP := 0x1_0000_0000_0000_0000

  class Session {
    const id: string
    const createdAt: int
    var control: Control
    var commands: seq<string>
    var trackSeq: nat
    var currentTrackID: string

    ghost predicate Valid()
      reads this
    {
      Sound(control) && trackSeq < COUNTER_WRAP
    }

    constructor (id: string, now: int)
      ensures Valid() && this.id == id && createdAt == now
      ensures control == NEW_CONTROL && commands == [] && trackSeq == 0 && currentTrackID == ""
    {
      this.id, createdAt, control, commands, trackSeq, currentTrackID := id, now, NEW_CONTROL, [], 0, "";
    }

    method AppendCommand(name: string)
      modifies this`commands
      ensures commands == old(commands) + [name]
    {
      commands := commands + [name];
    }

    method BeginHandshake()
      requires Valid()
      modifies this`control
      ensures Valid() && control == SessionModel.BeginHandshake(old(control))
    {
      if control.life == Closing || control.life == Closed || control.life == Failed {
        return;
      }
      control := control.(life := Handshaking);
    }

    method MarkActive()
      requires Valid()
      modifies this`control
      ensures Valid() && control == SessionModel.MarkActive(old(control))
    {
      if control.life == Closing || control.life == Closed || control.life == Failed {
        return;
      }
      control := control.(life := Active);
    }

    method RequestClose(info: CloseInfo) returns (toCall: Option<nat>)
      requires Valid()
      modifies this`control
      ensures Valid() && (control, toCall) == SessionModel.RequestClose(old(control), info)
    {
      var kept := control.closeInfo;
      if control.closeRequested {
        if kept.cause == Unset {
          kept := kept.(cause := info.cause);
        }
        if kept.reason == "" {
          kept := kept.(reason := info.reason);
        }
        if kept.initiator == "" {
          kept := kept.(initiator := info.initiator);
        }
        if kept.err == "" {
          kept := kept.(err := info.err);
        }
        control := control.(closeInfo := kept);
      } else {
        control := control.(closeRequested := true, closeInfo := Normalize(info));
      }
      if control.life != Closed {
        if control.closeInfo.cause == Error {
          control := control.(life := Failed);
        } else {
          control := control.(life := Closing);
        }
      }
      toCall := None;
      if control.closeFn.Some? && !control.closeFnCalled {
        control := control.(closeFnCalled := true);
        toCall := control.closeFn;
      }
    }

    method Fail(err: string) returns (toCall: Option<nat>)
      requires Valid()
      modifies this`control
      ensures Valid() && (control, toCall) == SessionModel.RequestClose(old(control), CloseInfo(Error, "", "", err))
    {
      toCall := RequestClose(CloseInfo(Error, "", "", err));
    }

    method BindCloseFunc(fn: Option<nat>) returns (toCall: Option<nat>)
      requires Valid()
      modifies this`control
      ensures Valid() && (control, toCall) == SessionModel.BindCloseFunc(old(control), fn)
    {
      toCall := None;
      control := control.(closeFn := fn);
      if control.closeRequested && control.closeFn.Some? && !control.closeFnCalled {
        control := control.(closeFnCalled := true);
        toCall := fn;
      }
    }

    method Finalize(fallback: CloseInfo, now: int) returns (info: CloseInfo, closeDone: bool)
      requires Valid()
      modifies this`control
      ensures Valid() && (control, closeDone) == SessionModel.Finalize(old(control), fallback, now)
      ensures info == control.closeInfo
    {
      info := Normalize(fallback);
      if control.closeRequested {
        info := Merge(control.closeInfo, info);
      } else {
        control := control.(closeRequested := true);
      }
      control := control.(closeInfo := info);
      if control.life != Closed {
        control := control.(closedAt := Some(now), life := Closed);
      }
      closeDone := control.doneOpen;
      control := control.(doneOpen := false);
    }

    /** A play id given by the command is reused; otherwise the next number is taken. */
    method StartTrack(prefix: string, playID: Option<string>) returns (trackID: string)
      requires trackSeq < COUNTER_WRAP
      modifies this`trackSeq, this`currentTrackID
      ensures trackSeq < COUNTER_WRAP
      ensures trackID == currentTrackID
      ensures if playID.Some? && playID.value != "" then
                trackID == playID.value && trackSeq == old(trackSeq)
              else
                trackSeq == (old(trackSeq) + 1) % 0x1_0000_0000_0000_0000 && trackID == TrackID(prefix, id, trackSeq)
    {
      if playID.Some? && playID.value != "" {
        currentTrackID := playID.value;
        return currentTrackID;
      }
      trackSeq := (trackSeq + 1) % COUNTER_WRAP;
      var number := FormatTrackSeq(trackSeq);
      currentTrackID := prefix + "-" + id + "-" + number;
      trackID := currentTrackID;
    }

    method ClearTrack() returns (trackID: string)
      modifies this`currentTrackID
      ensures trackID == old(currentTrackID) && currentTrackID == ""
    {
      trackID := currentTrackID;
      currentTrackID := "";
    }

    predicate VisibleInList()
      reads this`control
    {
      Visible(control)
    }
  }
}
