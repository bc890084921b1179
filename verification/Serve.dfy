/** The handler of one call: first message, answer, command loop, and the deferred cleanup that writes the
    call record. Other threads may request the session's close between any two of its own actions on the session. */
module Serve {
  import opened Media
  import opened CloseInfos
  import opened SessionModel
  import opened Sessions
  import opened Managers
  import Router

  /** What another thread does to the session: a kill by id, or an asynchronous media failure. */
  datatype Nudge = ByKill | ByFailure(err: string)

  /** The first message is accepted, or the handler returns before a session exists. */
  datatype First = Refused | Accepted

  /** A message of the loop with everything its handling runs into, such as a failure to write its events. */
  datatype Message =
    | ReadError
    | Ignored                           // not text, or audio for a call without a track
    | Binary(writeError: Option<string>)          // audio; writing its events may fail
    | Undecodable(err: string)
    | Candidate(candidateError: Option<string>)   // handled by the media track
    | Command(cmd: Router.Cmd, synthesis: Router.Synthesis, eventError: Option<string>)   // routed

  /** The nudges before the message is read, and those while it is handled. */
  datatype Turn = Turn(nudges: seq<Nudge>, message: Message, during: seq<Nudge>)

  /** A whole run. Nudges fall after the creation, after the handshake has begun, while the answer is built and
      while it is sent, around every message, and between the end of the loop and the cleanup. Late infos arrive on
      the session object between its finalizing and the reading of the record. When the turns end, reading fails. */
  datatype Script = Script(
    first: First, created: seq<Nudge>, binding: seq<Nudge>,
    building: seq<Nudge>, buildError: Option<string>,
    answering: seq<Nudge>, answerError: Option<string>,
    turns: seq<Turn>, closing: seq<Nudge>, late: seq<CloseInfo>)

  datatype Record = Record(callID: string, startTime: int, endTime: int,
                           reason: string, initiator: string, error: string, commands: seq<string>)

  class CallRecords {
    var records: seq<Record>

    constructor ()
      ensures records == []
    {
      records := [];
    }

    method Write(r: Record)
      modifies this
      ensures records == old(records) + [r]
    {
      records := records + [r];
    }
  }

  const DISCONNECTED := CloseInfo(Disconnect, "", "", "")

  function ErrorInfo(err: string): CloseInfo {
    CloseInfo(Error, "", "", err)
  }

  // ----- what a run submits, in order

  function InfoOf(nudge: Nudge): CloseInfo {
    match nudge
    case ByKill => KILLED
    case ByFailure(err) => ErrorInfo(err)
  }

  function Infos(nudges: seq<Nudge>): (infos: seq<CloseInfo>)
    ensures |infos| == |nudges|
  {
    seq(|nudges|, i requires 0 <= i < |nudges| => InfoOf(nudges[i]))
  }

  /** The info a message makes the handler stop with, if it does. A command without events cannot fail to
      write one. */
  function Stops(message: Message): Option<CloseInfo> {
    match message
    case ReadError => Some(DISCONNECTED)
    case Ignored => None
    case Binary(e) => if e.Some? then Some(ErrorInfo(e.value)) else None
    case Undecodable(err) => Some(ErrorInfo(err))
    case Candidate(e) => if e.Some? then Some(ErrorInfo(e.value)) else None
    case Command(cmd, synthesis, e) =>
      if e.Some? && cmd.kind != Router.NoOp then Some(ErrorInfo(e.value)) else Router.CloseOf(cmd, synthesis)
  }

  function Names(message: Message): seq<string> {
    if message.Command? then [message.cmd.name] else []
  }

  /** What the handler comes to: the infos requested so far, the one its cleanup falls back on, the commands routed. */
  datatype Ending = Ending(requested: seq<CloseInfo>, fallback: CloseInfo, commands: seq<string>)

  function After(requested: seq<CloseInfo>, commands: seq<string>, rest: Ending): Ending {
    Ending(requested + rest.requested, rest.fallback, commands + rest.commands)
  }

  /** A stop other than a failed read is first requested and then handed to the cleanup again. */
  function Stopping(info: CloseInfo): Ending {
    Ending([info], info, [])
  }

  function OfTurn(turn: Turn): Option<Ending> {
    if turn.message.ReadError? then Some(Ending([], DISCONNECTED, []))
    else if Stops(turn.message).Some? then
      Some(After(Infos(turn.during), Names(turn.message), Stopping(Stops(turn.message).value)))
    else None
  }

  function OfLoop(turns: seq<Turn>): Ending {
    if turns == [] then Ending([], DISCONNECTED, [])
    else
      var turn := turns[0];
      var rest := if OfTurn(turn).Some? then OfTurn(turn).value
                  else After(Infos(turn.during), Names(turn.message), OfLoop(turns[1..]));
      After(Infos(turn.nudges), [], rest)
  }

  function OfAnswer(script: Script): Ending {
    After(Infos(script.answering), [],
          if script.answerError.Some? then Stopping(ErrorInfo(script.answerError.value)) else OfLoop(script.turns))
  }

  function OfHandler(script: Script): Ending {
    After(Infos(script.created) + Infos(script.binding) + Infos(script.building), [],
          if script.buildError.Some? then Stopping(ErrorInfo(script.buildError.value)) else OfAnswer(script))
  }

  /** Everything submitted over the run, the cleanup's fallback and the late infos included. */
  function Submitted(script: Script): (infos: seq<CloseInfo>)
    ensures infos != []
  {
    OfHandler(script).requested + Infos(script.closing) + [OfHandler(script).fallback] + script.late
  }

  // ----- what a control says about the infos submitted to it

  ghost predicate Tracks(c: Control, infos: seq<CloseInfo>) {
    && Sound(c)
    && (c.closeRequested <==> infos != [])
    && c.closeInfo == Fold(infos)
  }

  lemma {:induction false} RequestTracks(c: Control, infos: seq<CloseInfo>, info: CloseInfo)
    requires Tracks(c, infos)
    ensures Tracks(RequestClose(c, info).0, infos + [info])
  {
    assert (infos + [info])[..|infos|] == infos;
    if infos != [] { FoldIsFirstWins(infos); }
  }

  lemma {:induction false} FinalizeTracks(c: Control, infos: seq<CloseInfo>, fallback: CloseInfo, now: int)
    requires Tracks(c, infos)
    ensures Tracks(Finalize(c, fallback, now).0, infos + [fallback])
  {
    assert (infos + [fallback])[..|infos|] == infos;
    if infos != [] { FoldIsFirstWins(infos); }
  }

  // ----- the handler

  method Disturb(m: Manager, s: Session, nudges: seq<Nudge>, ghost infos: seq<CloseInfo>)
    requires m.Valid() && s.Valid() && s.id in m.sessions && m.sessions[s.id] == s
    requires Tracks(s.control, infos) && s.control.life != Closed
    modifies s`control
    ensures m.Valid() && s.Valid() && Tracks(s.control, infos + Infos(nudges)) && s.control.life != Closed
  {
    assert infos + Infos([]) == infos;
    for i := 0 to |nudges|
      invariant m.Valid() && s.Valid() && s.control.life != Closed
      invariant Tracks(s.control, infos + Infos(nudges[..i]))
    {
      RequestTracks(s.control, infos + Infos(nudges[..i]), InfoOf(nudges[i]));
      assert infos + Infos(nudges[..i + 1]) == infos + Infos(nudges[..i]) + [InfoOf(nudges[i])];
      match nudges[i] {
        case ByKill => var found, toCall := m.Kill(s.id);
        case ByFailure(err) => var toCall := s.Fail(err);
      }
    }
    assert nudges[..|nudges|] == nudges;
  }

  lemma {:induction false} Regroup<T>(a: seq<T>, b: seq<T>, c: seq<T>)
    ensures a + b + c == a + (b + c)
  {
  }

  /** Requests the close the handler stops with. */
  method Stop(s: Session, closeInfo: CloseInfo, ghost infos: seq<CloseInfo>)
    requires s.Valid() && Tracks(s.control, infos) && s.control.life != Closed
    modifies s`control
    ensures s.Valid() && Tracks(s.control, infos + [closeInfo]) && s.control.life != Closed
  {
    RequestTracks(s.control, infos, closeInfo);
    var toCall := s.RequestClose(closeInfo);
  }

  /** Handles one message up to the decision whether to stop; a command is routed. */
  method Dispatch(s: Session, message: Message) returns (stop: Option<CloseInfo>)
    requires s.Valid() && !message.ReadError?
    modifies s`commands, s`trackSeq, s`currentTrackID
    ensures s.Valid() && stop == Stops(message) && s.commands == old(s.commands) + Names(message)
  {
    match message {
      case Ignored => return None;
      case Binary(e) => return if e.Some? then Some(ErrorInfo(e.value)) else None;
      case Undecodable(err) => return Some(ErrorInfo(err));
      case Candidate(e) => return if e.Some? then Some(ErrorInfo(e.value)) else None;
      case Command(cmd, synthesis, e) =>
        Router.CloseAndEvents(s.id, Router.Tracks(s.trackSeq, s.currentTrackID), cmd, synthesis);
        var result := Router.Route(s, cmd, synthesis);
        if e.Some? && |result.events| > 0 {
          return Some(ErrorInfo(e.value));
        }
        return result.close;
    }
  }

  /** What the turn adds if the loop goes on after it. */
  function Passing(turn: Turn): (seq<CloseInfo>, seq<string>) {
    (Infos(turn.nudges) + Infos(turn.during), Names(turn.message))
  }

  /** One turn of the loop: the close info it stops with, if it stops, and the infos requested during it. */
  method RunTurn(m: Manager, s: Session, turn: Turn, ghost infos: seq<CloseInfo>)
    returns (stop: Option<CloseInfo>, ghost own: seq<CloseInfo>)
    requires m.Valid() && s.Valid() && s.id in m.sessions && m.sessions[s.id] == s
    requires Tracks(s.control, infos) && s.control.life != Closed
    modifies s`control, s`commands, s`trackSeq, s`currentTrackID
    ensures m.Valid() && s.Valid() && Tracks(s.control, infos + own) && s.control.life != Closed
    ensures stop.Some? <==> OfTurn(turn).Some?
    ensures stop.Some? ==> stop.value == OfTurn(turn).value.fallback
    ensures own == if stop.Some? then Infos(turn.nudges) + OfTurn(turn).value.requested else Passing(turn).0
    ensures s.commands == old(s.commands) + if stop.Some? then OfTurn(turn).value.commands else Passing(turn).1
  {
    Disturb(m, s, turn.nudges, infos);
    own := Infos(turn.nudges);
    if turn.message.ReadError? {
      assert own + [] == own && s.commands + [] == s.commands;
      return Some(DISCONNECTED), own;
    }
    stop := Dispatch(s, turn.message);
    Disturb(m, s, turn.during, infos + own);
    Regroup(infos, own, Infos(turn.during));
    own := own + Infos(turn.during);
    if stop.Some? {
      Stop(s, stop.value, infos + own);
      Regroup(infos, own, [stop.value]);
      Regroup(Infos(turn.nudges), Infos(turn.during), [stop.value]);
      own := own + [stop.value];
      assert Names(turn.message) + [] == Names(turn.message);
    }
  }

  /** Runs the command loop until something stops it; own are the infos requested meanwhile. */
  method Loop(m: Manager, s: Session, turns: seq<Turn>, ghost infos: seq<CloseInfo>)
    returns (closeInfo: CloseInfo, ghost own: seq<CloseInfo>)
    requires m.Valid() && s.Valid() && s.id in m.sessions && m.sessions[s.id] == s
    requires Tracks(s.control, infos) && s.control.life != Closed
    modifies s`control, s`commands, s`trackSeq, s`currentTrackID
    ensures m.Valid() && s.Valid() && Tracks(s.control, infos + own) && s.control.life != Closed
    ensures s.commands == old(s.commands) + OfLoop(turns).commands
    ensures own == OfLoop(turns).requested && closeInfo == OfLoop(turns).fallback
  {
    own := [];
    ghost var goal, all, done, was := OfLoop(turns), infos, [], s.commands;
    assert infos + own == infos && was + done == was;
    assert After([], [], goal) == goal && turns[0..] == turns;
    var i := 0;
    while i < |turns|
      invariant 0 <= i <= |turns|
      invariant m.Valid() && s.Valid() && Tracks(s.control, all) && s.control.life != Closed
      invariant all == infos + own && s.commands == was + done
      invariant After(own, done, OfLoop(turns[i..])) == goal
    {
      ghost var more;
      var stop;
      stop, more := RunTurn(m, s, turns[i], all);
      Regroup(infos, own, more);
      all := all + more;
      if stop.Some? {
        LoopStops(turns, i, own, done);
        own := own + more;
        Regroup(was, done, OfTurn(turns[i]).value.commands);
        return stop.value, own;
      }
      LoopGoesOn(turns, i, own, done);
      Regroup(was, done, Passing(turns[i]).1);
      own, done := own + more, done + Passing(turns[i]).1;
      i := i + 1;
    }
    return DISCONNECTED, own;
  }

  lemma {:induction false} AfterAfter(a: seq<CloseInfo>, x: seq<string>, b: seq<CloseInfo>, y: seq<string>,
          rest: Ending)
    ensures After(a, x, After(b, y, rest)) == After(a + b, x + y, rest)
  {
    Regroup(a, b, rest.requested);
    Regroup(x, y, rest.commands);
  }

  lemma {:induction false} LoopStops(turns: seq<Turn>, i: nat, own: seq<CloseInfo>, done: seq<string>)
    requires i < |turns| && OfTurn(turns[i]).Some?
    ensures var e := OfTurn(turns[i]).value;
      After(own, done, OfLoop(turns[i..]))
      == Ending(own + (Infos(turns[i].nudges) + e.requested), e.fallback, done + e.commands)
  {
    assert turns[i..][0] == turns[i];
    var e := OfTurn(turns[i]).value;
    assert [] + e.commands == e.commands;
  }

  lemma {:induction false} LoopGoesOn(turns: seq<Turn>, i: nat, own: seq<CloseInfo>, done: seq<string>)
    requires i < |turns| && OfTurn(turns[i]).None?
    ensures After(own, done, OfLoop(turns[i..]))
         == After(own + Passing(turns[i]).0, done + Passing(turns[i]).1, OfLoop(turns[i + 1..]))
  {
    var turn, rest := turns[i], OfLoop(turns[i + 1..]);
    assert turns[i..][0] == turn && turns[i..][1..] == turns[i + 1..];
    AfterAfter(Infos(turn.nudges), [], Infos(turn.during), Names(turn.message), rest);
    AfterAfter(own, done, Passing(turn).0, Passing(turn).1, rest);
    assert [] + Names(turn.message) == Names(turn.message);
  }

  /** What other threads do before the answer is built, around the handshake and the binding of the close function. */
  method Begin(m: Manager, s: Session, script: Script) returns (ghost own: seq<CloseInfo>)
    requires m.Valid() && s.Valid() && s.id in m.sessions && m.sessions[s.id] == s
    requires s.control == NEW_CONTROL
    modifies s`control
    ensures m.Valid() && s.Valid() && Tracks(s.control, own) && s.control.life != Closed
    ensures own == Infos(script.created) + Infos(script.binding) + Infos(script.building)
  {
    Disturb(m, s, script.created, []);
    own := Infos(script.created);
    assert [] + own == own;
    s.BeginHandshake();
    Disturb(m, s, script.binding, own);
    own := own + Infos(script.binding);
    var toCall := s.BindCloseFunc(Some(0));
    Disturb(m, s, script.building, own);
    own := own + Infos(script.building);
  }

  /** From the created session to the end of the loop. */
  method Handle(m: Manager, s: Session, script: Script) returns (closeInfo: CloseInfo, ghost own: seq<CloseInfo>)
    requires m.Valid() && s.Valid() && s.id in m.sessions && m.sessions[s.id] == s
    requires s.control == NEW_CONTROL
    modifies s`control, s`commands, s`trackSeq, s`currentTrackID
    ensures m.Valid() && s.Valid() && Tracks(s.control, own) && s.control.life != Closed
    ensures s.commands == old(s.commands) + OfHandler(script).commands
    ensures own == OfHandler(script).requested && closeInfo == OfHandler(script).fallback
  {
    own := Begin(m, s, script);
    if script.buildError.Some? {
      closeInfo := ErrorInfo(script.buildError.value);
      Stop(s, closeInfo, own);
      own := own + [closeInfo];
      assert s.commands + [] == s.commands;
    } else {
      ghost var more;
      assert [] + OfAnswer(script).commands == OfAnswer(script).commands;
      closeInfo, more := Answer(m, s, script, own);
      own := own + more;
    }
  }

  method Answer(m: Manager, s: Session, script: Script, ghost infos: seq<CloseInfo>)
    returns (closeInfo: CloseInfo, ghost own: seq<CloseInfo>)
    requires m.Valid() && s.Valid() && s.id in m.sessions && m.sessions[s.id] == s
    requires Tracks(s.control, infos) && s.control.life != Closed
    modifies s`control, s`commands, s`trackSeq, s`currentTrackID
    ensures m.Valid() && s.Valid() && Tracks(s.control, infos + own) && s.control.life != Closed
    ensures s.commands == old(s.commands) + OfAnswer(script).commands
    ensures own == OfAnswer(script).requested && closeInfo == OfAnswer(script).fallback
  {
    Disturb(m, s, script.answering, infos);
    own := Infos(script.answering);
    if script.answerError.Some? {
      closeInfo := ErrorInfo(script.answerError.value);
      Stop(s, closeInfo, infos + own);
      Regroup(infos, own, [closeInfo]);
      own := own + [closeInfo];
      assert s.commands + [] == s.commands;
    } else {
      s.MarkActive();
      ghost var more;
      assert [] + OfLoop(script.turns).commands == OfLoop(script.turns).commands;
      closeInfo, more := Loop(m, s, script.turns, infos + own);
      Regroup(infos, own, more);
      own := own + more;
    }
  }

  /** The record of a run of the given session. */
  function RecordOf(id: string, started: int, ended: int, script: Script): Record {
    var all := Submitted(script);
    Record(id, started, ended, FirstSet(Reasons(all)), FirstSet(Initiators(all)), FirstSet(Errors(all)),
           OfHandler(script).commands)
  }

  /** Serves one call. If a session was created it ends Closed, gone from the manager, and written to exactly
      one record, whose reason, initiator and error are the first ones set among all infos submitted, and whose
      commands are those routed, in order. */
  method ServeWS(m: Manager, calls: CallRecords, id: string, started: int, ended: int,
          script: Script) returns (s: Session?)
    requires m.Valid()
    modifies m, calls
    ensures m.Valid()
    ensures script.first.Refused? ==> s == null && m.sessions == old(m.sessions) && calls.records == old(calls.records)
    ensures script.first.Accepted? ==>
      && s != null && fresh(s) && s.id == id
      && s.control.life == Closed
      && id !in m.sessions && m.sessions == old(m.sessions) - {id}
      && s.control.closeInfo == Fold(Submitted(script))
      && calls.records == old(calls.records) + [RecordOf(id, started, ended, script)]
  {
    if script.first.Refused? {
      return null;
    }
    s := m.Create(id, started);
    var closeInfo;
    ghost var own;
    closeInfo, own := Handle(m, s, script);
    assert s.commands == OfHandler(script).commands;
    Disturb(m, s, script.closing, own);
    CleanUpAndRecord(m, calls, s, closeInfo, ended, script.late, own + Infos(script.closing));
  }

  /** The deferred cleanup, the late requests, and the record read from the session's snapshot. */
  method CleanUpAndRecord(m: Manager, calls: CallRecords, s: Session, closeInfo: CloseInfo, now: int,
      late: seq<CloseInfo>, ghost infos: seq<CloseInfo>)
    requires m.Valid() && s.Valid() && Tracks(s.control, infos) && s.control.life != Closed
    modifies m, s`control, calls
    ensures m.Valid() && s.Valid() && m.sessions == old(m.sessions) - {s.id}
    ensures s.control.life == Closed
    ensures var all := infos + [closeInfo] + late;
      && s.control.closeInfo == Fold(all)
      && calls.records == old(calls.records) +
           [Record(s.id, s.createdAt, now, FirstSet(Reasons(all)), FirstSet(Initiators(all)), FirstSet(Errors(all)),
               s.commands)]
  {
    FinalizeTracks(s.control, infos, closeInfo, now);
    var info := m.Cleanup(s, closeInfo, now);
    ghost var all := infos + [closeInfo];
    assert all + late[..0] == all;
    for i := 0 to |late|
      invariant m.Valid() && s.Valid() && m.sessions == old(m.sessions) - {s.id}
      invariant s.control.life == Closed && s.control.closedAt == Some(now)
      invariant Tracks(s.control, all + late[..i])
      invariant calls.records == old(calls.records)
    {
      RequestTracks(s.control, all + late[..i], late[i]);
      assert all + late[..i + 1] == all + late[..i] + [late[i]];
      var toCall := s.RequestClose(late[i]);
    }
    assert late[..|late|] == late;
    FoldIsFirstWins(all + late);
    var final := if s.control.closeInfo.cause != Unset then s.control.closeInfo else closeInfo;
    var endTime := s.createdAt;
    if s.control.closedAt.Some? {
      endTime := s.control.closedAt.value;
    }
    calls.Write(Record(s.id, s.createdAt, endTime, final.reason, final.initiator, final.err, s.commands));
  }

  // ----- what the record says

  /** A kill that is submitted first is what the record shows, whatever follows. */
  lemma {:induction false} KilledFirst(id: string, started: int, ended: int, script: Script)
    requires Submitted(script)[0] == KILLED
    ensures var r := RecordOf(id, started, ended, script); r.reason == "killed" && r.initiator == "system"
    ensures Fold(Submitted(script)).cause == Kill
  {
    FoldIsFirstWins(Submitted(script));
  }

  predicate Undisturbed(turn: Turn) {
    turn.nudges == [] && turn.during == [] && Stops(turn.message).None?
  }

  predicate Answered(script: Script) {
    && script.created == [] && script.binding == [] && script.building == [] && script.answering == []
    && script.buildError.None? && script.answerError.None?
  }

  lemma {:induction false} LoopSkips(turns: seq<Turn>, i: nat)
    requires i <= |turns| && forall j :: 0 <= j < i ==> Undisturbed(turns[j])
    ensures OfLoop(turns).requested == OfLoop(turns[i..]).requested
        && OfLoop(turns).fallback == OfLoop(turns[i..]).fallback
    decreases i
  {
    if i == 0 {
      assert turns[0..] == turns;
    } else {
      LoopSkips(turns[1..], i - 1);
      assert turns[1..][i - 1..] == turns[i..];
      assert OfTurn(turns[0]).None? && Infos([]) == [];
    }
  }

  /** The record of an answered call that is killed in some turn, or after its last one, and to which nothing was
      submitted before says so, whether it then disconnects, fails or hangs up. */
  lemma {:induction false} KillThenAnything(id: string, started: int, ended: int, script: Script, i: nat,
          rest: seq<Nudge>)
    requires Answered(script) && i <= |script.turns|
    requires forall j :: 0 <= j < i ==> Undisturbed(script.turns[j])
    requires (if i < |script.turns| then script.turns[i].nudges else script.closing) == [ByKill] + rest
    ensures var r := RecordOf(id, started, ended, script); r.reason == "killed" && r.initiator == "system"
    ensures Fold(Submitted(script)).cause == Kill
  {
    LoopSkips(script.turns, i);
    assert OfHandler(script).requested == OfLoop(script.turns[i..]).requested;
    if i < |script.turns| {
      assert Infos(script.turns[i].nudges)[0] == KILLED;
    } else {
      assert Infos(script.closing)[0] == KILLED;
    }
    assert Submitted(script)[0] == KILLED;
    KilledFirst(id, started, ended, script);
  }

  /** A call that is left alone and then disconnected is recorded without reason, initiator or error. */
  lemma {:induction false} PlainDisconnect(id: string, started: int, ended: int, script: Script)
    requires Answered(script) && script.closing == [] && script.late == []
    requires forall j :: 0 <= j < |script.turns| ==> Undisturbed(script.turns[j])
    ensures var r := RecordOf(id, started, ended, script); r.reason == "" && r.initiator == "" && r.error == ""
    ensures Fold(Submitted(script)) == DISCONNECTED
  {
    LoopSkips(script.turns, |script.turns|);
    assert Submitted(script) == [DISCONNECTED];
    FoldIsFirstWins([DISCONNECTED]);
  }
}
