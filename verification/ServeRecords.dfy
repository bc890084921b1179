/** What the record of a call says, read off the script of the call. */
module ServeRecords {
  import opened Media
  import opened CloseInfos
  import opened Serve
  import Router

  /** When a message stops the loop, and with what: a failed read as a plain disconnect, what cannot be decoded,
      handled or answered with its own error, and a command that ends the call with its own words. */
  lemma {:induction false} StopsIff(message: Message)
    ensures Stops(message).None? <==>
      match message
      case Ignored => true
      case ReadError | Undecodable(_) => false
      case Binary(e) => e == None
      case Candidate(e) => e == None
      case Command(cmd, synthesis, e) =>
        && (e == None || cmd.kind == Router.NoOp) && cmd.kind != Router.HangUp
        && !(cmd.autoHangup == Some(true)
             && (cmd.kind == Router.Play || (cmd.kind == Router.Tts && Router.Succeeds(synthesis))))
    ensures Stops(message).Some? ==>
      var info := Stops(message).value;
      match message
      case Ignored | ReadError => info == CloseInfo(Disconnect, "", "", "")
      case Undecodable(err) => info == CloseInfo(Error, "", "", err)
      case Binary(e) => info == CloseInfo(Error, "", "", e.value)
      case Candidate(e) => info == CloseInfo(Error, "", "", e.value)
      case Command(cmd, _, e) =>
        if e != None && cmd.kind != Router.NoOp then info == CloseInfo(Error, "", "", e.value)
        else if cmd.kind == Router.HangUp then
          info == CloseInfo(Hangup, if cmd.reason == None then "" else cmd.reason.value,
                            if cmd.initiator == None then "" else cmd.initiator.value, "")
        else info == CloseInfo(Hangup, "autohangup", "system", "")
  {
    match message
    case Command(cmd, synthesis, _) => Router.HangsUpIff("", Router.Tracks(0, ""), cmd, synthesis);
    case _ =>
  }

  // ----- everything a run submits, without recursion over the handler's steps

  /** What other threads request around the given turns. */
  function Around(turns: seq<Turn>): seq<CloseInfo> {
    if turns == [] then []
    else
      var last := turns[|turns| - 1];
      Around(turns[..|turns| - 1]) + Infos(last.nudges) + Infos(last.during)
  }

  /** The names of the commands among the messages. */
  function Named(turns: seq<Turn>): seq<string> {
    if turns == [] then []
    else
      var last := turns[|turns| - 1].message;
      Named(turns[..|turns| - 1]) + if last.Command? then [last.cmd.name] else []
  }

  /** The loop ends in turn i, or, if i is the number of turns, in the failed read behind them. */
  predicate EndsIn(turns: seq<Turn>, i: nat) {
    && i <= |turns|
    && (forall j :: 0 <= j < i ==> Stops(turns[j].message).None?)
    && (i < |turns| ==> Stops(turns[i].message).Some?)
  }

  /** What the turn the loop ends in requests itself, and what the handler hands to its cleanup. */
  function Stopped(turns: seq<Turn>, i: nat): Ending
    requires EndsIn(turns, i)
  {
    if i == |turns| then Ending([], DISCONNECTED, [])
    else if turns[i].message.ReadError? then Ending(Infos(turns[i].nudges), DISCONNECTED, [])
    else
      var info := Stops(turns[i].message).value;
      Ending(Infos(turns[i].nudges) + Infos(turns[i].during) + [info], info, Named([turns[i]]))
  }

  lemma {:induction false} LoopFrom(turns: seq<Turn>, i: nat)
    requires EndsIn(turns, i)
    ensures OfLoop(turns[i..]) == Stopped(turns, i)
  {
    if i < |turns| {
      var turn := turns[i];
      assert turns[i..][0] == turn;
      assert Named([turn]) == Names(turn.message) by { assert [turn][..0] == []; }
      Regroup(Infos(turn.nudges), Infos(turn.during), [Stops(turn.message).value]);
      assert Names(turn.message) + [] == Names(turn.message);
      assert [] + Names(turn.message) == Names(turn.message);
      assert Infos(turn.nudges) + [] == Infos(turn.nudges);
    }
  }

  lemma {:induction false} LoopPasses(turns: seq<Turn>, i: nat)
    requires i <= |turns| && forall j :: 0 <= j < i ==> Stops(turns[j].message).None?
    ensures OfLoop(turns) == After(Around(turns[..i]), Named(turns[..i]), OfLoop(turns[i..]))
    decreases i
  {
    if i == 0 {
      assert turns[0..] == turns && turns[..0] == [];
      assert After([], [], OfLoop(turns)) == OfLoop(turns);
    } else {
      LoopPasses(turns, i - 1);
      var turn := turns[i - 1];
      assert turns[..i][..i - 1] == turns[..i - 1];
      LoopGoesOn(turns, i - 1, Around(turns[..i - 1]), Named(turns[..i - 1]));
      Regroup(Around(turns[..i - 1]), Infos(turn.nudges), Infos(turn.during));
    }
  }

  /** The order of everything submitted to an answered call: what other threads request up to the answer, then around
      the turns up to the one that ends the loop, that one's own stop, what is requested before the cleanup, the
      cleanup's fallback, and the late infos. The commands are those of all these turns. */
  lemma {:induction false} WhatIsSubmitted(script: Script, i: nat)
    requires script.buildError.None? && script.answerError.None? && EndsIn(script.turns, i)
    ensures var stop := Stopped(script.turns, i);
      && Submitted(script) ==
           Infos(script.created) + Infos(script.binding) + Infos(script.building) + Infos(script.answering)
           + Around(script.turns[..i]) + stop.requested + Infos(script.closing) + [stop.fallback] + script.late
      && OfHandler(script).commands == Named(script.turns[..i]) + stop.commands
  {
    LoopFrom(script.turns, i);
    LoopPasses(script.turns, i);
    var stop := Stopped(script.turns, i);
    var early := Infos(script.created) + Infos(script.binding) + Infos(script.building);
    var loop := OfLoop(script.turns);
    Regroup(early, Infos(script.answering), loop.requested);
    Regroup(early + Infos(script.answering), Around(script.turns[..i]), stop.requested);
    assert [] + ([] + loop.commands) == loop.commands;
  }

  /** A call whose answer cannot be built, or not be sent, is stopped with that error and routes no command. */
  lemma {:induction false} AnswerFails(script: Script, err: string)
    requires script.buildError == Some(err) || (script.buildError == None && script.answerError == Some(err))
    ensures var info := CloseInfo(Error, "", "", err);
      && Submitted(script) ==
           Infos(script.created) + Infos(script.binding) + Infos(script.building)
           + (if script.buildError == None then Infos(script.answering) else [])
           + [info] + Infos(script.closing) + [info] + script.late
      && OfHandler(script).commands == []
  {
    var early := Infos(script.created) + Infos(script.binding) + Infos(script.building);
    Regroup(early, Infos(script.answering), [ErrorInfo(err)]);
    assert early + [] == early;
  }

  lemma {:induction false} FirstErrorShown(infos: seq<CloseInfo>)
    requires infos != [] && infos[0].err != ""
    ensures FirstSet(Errors(infos)) == infos[0].err
  {
    assert Errors(infos)[0] == infos[0].err;
  }

  /** A media failure that comes before anything else is what the record shows, whatever follows. */
  lemma {:induction false} FailedFirst(id: string, started: int, ended: int, script: Script, err: string,
          rest: seq<Nudge>)
    requires script.created == [ByFailure(err)] + rest && err != ""
    ensures RecordOf(id, started, ended, script).error == err && Fold(Submitted(script)).cause == Error
  {
    var all := Submitted(script);
    StartsWith(script, CloseInfo(Error, "", "", err));
    FirstErrorShown(all);
    FoldIsFirstWins(all);
  }

  lemma {:induction false} StartsWith(script: Script, info: CloseInfo)
    requires script.created != [] && InfoOf(script.created[0]) == info
    ensures Submitted(script)[0] == info
  {
    assert Infos(script.created)[0] == info;
    var early := Infos(script.created) + Infos(script.binding) + Infos(script.building);
    assert early[0] == info;
    assert OfHandler(script).requested[0] == info;
  }

  /** Nobody else requests anything up to turn i, nor afterwards. */
  predicate LeftAlone(script: Script, i: nat)
    requires i < |script.turns|
  {
    && Answered(script) && script.closing == [] && script.late == []
    && forall j :: 0 <= j <= i ==> script.turns[j].nudges == [] && script.turns[j].during == []
  }

  lemma {:induction false} OnlyTheStop(script: Script, i: nat)
    requires i < |script.turns| && LeftAlone(script, i) && EndsIn(script.turns, i)
    ensures var info := Stops(script.turns[i].message).value;
      Submitted(script) == [info] || Submitted(script) == [info, info]
    ensures OfHandler(script).commands == Named(script.turns[..i + 1])
  {
    var turn := script.turns[i];
    WhatIsSubmitted(script, i);
    NothingAround(script.turns[..i]);
    assert script.turns[..i + 1][..i] == script.turns[..i];
    assert Named([turn]) == Names(turn.message) by { assert [turn][..0] == []; }
    StopsIff(turn.message);
    assert Infos([]) == [];
  }

  /** A call that nobody else disturbs is recorded with the words of the message that stops it. */
  lemma {:induction false} StopIsRecorded(id: string, started: int, ended: int, script: Script, i: nat)
    requires i < |script.turns| && LeftAlone(script, i) && EndsIn(script.turns, i)
    ensures var r, info := RecordOf(id, started, ended, script), Stops(script.turns[i].message).value;
      && r.callID == id && r.startTime == started && r.endTime == ended
      && r.reason == info.reason && r.initiator == info.initiator && r.error == info.err
      && r.commands == Named(script.turns[..i + 1])
    ensures Fold(Submitted(script)).cause == Stops(script.turns[i].message).value.cause
  {
    var info := Stops(script.turns[i].message).value;
    OnlyTheStop(script, i);
    StopsIff(script.turns[i].message);
    FoldIsFirstWins(Submitted(script));
    FirstOfTwo(info.reason, Reasons(Submitted(script)));
    FirstOfTwo(info.initiator, Initiators(Submitted(script)));
    FirstOfTwo(info.err, Errors(Submitted(script)));
  }

  lemma {:induction false} FirstOfTwo(value: string, values: seq<string>)
    requires values == [value] || values == [value, value]
    ensures FirstSet(values) == value
  {
    assert [value][1..] == [] && FirstSet([value]) == value;
    if values == [value, value] { assert values[1..] == [value]; }
  }

  lemma {:induction false} NothingAround(turns: seq<Turn>)
    requires forall j :: 0 <= j < |turns| ==> turns[j].nudges == [] && turns[j].during == []
    ensures Around(turns) == []
    decreases |turns|
  {
    if turns != [] { NothingAround(turns[..|turns| - 1]); }
  }
}
