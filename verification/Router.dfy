/** The command router: which events a command turns into, and how it brackets the session's current track. */
module Router {
  import opened Media
  import opened CloseInfos
  import opened SessionModel
  import opened TrackIds
  import opened Sessions

  /** Candidate, pause, resume, refer, mute, unmute, reject and unknown commands do nothing here. */
  datatype Kind = Tts | Play | History | Interrupt | HangUp | NoOp

  datatype Cmd = Cmd(name: string, kind: Kind, playID: Option<string>, autoHangup: Option<bool>,
                     reason: Option<string>, initiator: Option<string>)

  datatype RouterEvent =
    | TrackStart(trackID: string)
    | TrackEnd(trackID: string)
    | Metrics(key: string, trackID: string, audioBytes: nat, chunks: nat)
    | Interruption(trackID: string)
    | AddHistory(sender: string)
    | HungUp(reason: string, initiator: string)
    | TtsError(trackID: string, message: string)

  /** How a synthesis goes: it does not start, a sink plays it, or its stream is read to its end; the stream
      ends with an error or, for None, with end of file, and closing it may fail. */
  datatype Synthesis =
    | StartFails(err: string)
    | Played(audioBytes: nat, chunks: nat, playError: Option<string>)
    | Streamed(data: seq<Payload>, fault: Option<string>, closeError: Option<string>)

  /** What the session keeps about tracks. */
  datatype Tracks = Tracks(counter: nat, current: string)

  datatype Routed = Routed(events: seq<RouterEvent>, close: Option<CloseInfo>)

  function Deref(v: Option<string>): string {
    if v.None? then "" else v.value
  }

  function AutoHangupClose(cmd: Cmd): Option<CloseInfo> {
    if cmd.autoHangup == Some(true) then Some(CloseInfo(CloseInfos.Hangup, "autohangup", "system", "")) else None
  }

  function HangupEvents(close: Option<CloseInfo>): seq<RouterEvent> {
    if close.None? then [] else [HungUp(close.value.reason, close.value.initiator)]
  }

  function Bytes(data: seq<Payload>): nat {
    if data == [] then 0 else Bytes(data[..|data| - 1]) + |data[|data| - 1]|
  }

  function NonEmpty(data: seq<Payload>): nat {
    if data == [] then 0 else NonEmpty(data[..|data| - 1]) + if data[|data| - 1] == [] then 0 else 1
  }

  /** Bytes and non-empty chunks received, and the error: a fault of the stream before a failure to close it. */
  function Synthesized(synthesis: Synthesis): (nat, nat, Option<string>) {
    match synthesis
    case StartFails(err) => (0, 0, Some(err))
    case Played(audioBytes, chunks, err) => (audioBytes, chunks, err)
    case Streamed(data, fault, closeError) => (Bytes(data), NonEmpty(data), if fault.Some? then fault else closeError)
  }

  predicate Generates(cmd: Cmd) {
    (cmd.kind == Tts || cmd.kind == Play) && (cmd.playID.None? || cmd.playID.value == "")
  }

  function Prefix(cmd: Cmd): string {
    if cmd.kind == Tts then "tts" else "play"
  }

  function NextCounter(cmd: Cmd, counter: nat): nat {
    if Generates(cmd) then (counter + 1) % COUNTER_WRAP else counter
  }

  function TrackOf(id: string, cmd: Cmd, counter: nat): string {
    if Generates(cmd) then TrackID(Prefix(cmd), id, NextCounter(cmd, counter)) else Deref(cmd.playID)
  }

  /** The close a command asks for, whatever the state of the tracks. */
  function CloseOf(cmd: Cmd, synthesis: Synthesis): Option<CloseInfo> {
    match cmd.kind
    case Tts => if Synthesized(synthesis).2.Some? then None else AutoHangupClose(cmd)
    case Play => AutoHangupClose(cmd)
    case HangUp => Some(CloseInfo(CloseInfos.Hangup, Deref(cmd.reason), Deref(cmd.initiator), ""))
    case History | Interrupt | NoOp => None
  }

  function RouteValue(id: string, t: Tracks, cmd: Cmd, synthesis: Synthesis): (Tracks, Routed) {
    var counter := NextCounter(cmd, t.counter);
    var trackID := TrackOf(id, cmd, t.counter);
    var close := CloseOf(cmd, synthesis);
    match cmd.kind
    case Tts =>
      var (audioBytes, chunks, err) := Synthesized(synthesis);
      if err.Some? then
        (Tracks(counter, ""), Routed([TrackStart(trackID), TtsError(trackID, err.value), TrackEnd(trackID)], close))
      else
        (Tracks(counter, ""),
         Routed([TrackStart(trackID), Metrics("ttfb", trackID, audioBytes, chunks),
                 Metrics("completed", trackID, audioBytes, chunks), TrackEnd(trackID)] + HangupEvents(close), close))
    case Play =>
      (Tracks(counter, ""),
       Routed([TrackStart(trackID), Metrics("completed.play.mock", trackID, 0, 0), TrackEnd(trackID)]
           + HangupEvents(close), close))
    case History => (t, Routed([AddHistory(id)], close))
    case Interrupt => (Tracks(counter, ""), Routed([Interruption(if t.current == "" then id else t.current)], close))
    case HangUp => (t, Routed(HangupEvents(close), close))
    case NoOp => (t, Routed([], close))
  }

  lemma {:induction false} CloseAndEvents(id: string, t: Tracks, cmd: Cmd, synthesis: Synthesis)
    ensures var r := RouteValue(id, t, cmd, synthesis).1;
      r.close == CloseOf(cmd, synthesis) && (r.events == [] <==> cmd.kind == NoOp)
  {
  }

  /** Nothing goes wrong in the synthesis: it starts, and playing it or reading and closing its stream succeeds. */
  predicate Succeeds(synthesis: Synthesis) {
    match synthesis
    case StartFails(_) => false
    case Played(_, _, playError) => playError == None
    case Streamed(_, fault, closeError) => fault == None && closeError == None
  }

  /** When a command ends the call, and with what words: a hangup always, with its own; a play, or a tts that
      succeeds, if and only if it asks for it; nothing else. */
  lemma {:induction false} HangsUpIff(id: string, t: Tracks, cmd: Cmd, synthesis: Synthesis)
    ensures var close := RouteValue(id, t, cmd, synthesis).1.close;
      && (close.Some? <==>
            || cmd.kind == HangUp
            || (cmd.autoHangup == Some(true) && (cmd.kind == Play || (cmd.kind == Tts && Succeeds(synthesis)))))
      && (close.Some? && cmd.kind != HangUp ==>
            close.value == CloseInfo(CloseInfos.Hangup, "autohangup", "system", ""))
      && (cmd.kind == HangUp ==>
            && close.value.cause == CloseInfos.Hangup && close.value.err == ""
            && close.value.reason == (if cmd.reason == None then "" else cmd.reason.value)
            && close.value.initiator == (if cmd.initiator == None then "" else cmd.initiator.value))
  {
  }

  function Filled(data: seq<Payload>): set<nat> {
    set i: nat | i < |data| && data[i] != []
  }

  /** The totals are the length of the whole audio and the number of chunks that are not empty. */
  lemma {:induction false} Totals(data: seq<Payload>)
    ensures Bytes(data) == |Flat(data)| && NonEmpty(data) == |Filled(data)|
    decreases |data|
  {
    if data != [] {
      var front, n := data[..|data| - 1], |data| - 1;
      Totals(front);
      assert Filled(data) == Filled(front) + if data[n] == [] then {} else {n};
    }
  }

  /** The track a tts or play runs under: the id given, or a made-up one. */
  ghost predicate Runs(id: string, t: Tracks, cmd: Cmd, trackID: string) {
    if cmd.playID != None && cmd.playID.value != "" then trackID == cmd.playID.value
    else
      trackID == TrackID(if cmd.kind == Tts then "tts" else "play", id,
                         (t.counter + 1) % 0x1_0000_0000_0000_0000)
  }

  lemma {:induction false} RunsUnder(id: string, t: Tracks, cmd: Cmd)
    requires cmd.kind == Tts || cmd.kind == Play
    ensures Runs(id, t, cmd, TrackOf(id, cmd, t.counter))
  {
    var n := NextCounter(cmd, t.counter);
    if Generates(cmd) {
      assert n == (t.counter + 1) % 0x1_0000_0000_0000_0000;
      assert TrackOf(id, cmd, t.counter) == TrackID(Prefix(cmd), id, n);
      assert Prefix(cmd) == if cmd.kind == Tts then "tts" else "play";
    } else {
      assert TrackOf(id, cmd, t.counter) == cmd.playID.value;
    }
  }

  /** What of the track was played, if nothing went wrong. */
  function Heard(synthesis: Synthesis): (nat, nat) {
    match synthesis
    case StartFails(_) => (0, 0)
    case Played(audioBytes, chunks, _) => (audioBytes, chunks)
    case Streamed(data, _, _) => (|Flat(data)|, |Filled(data)|)
  }

  /** What went wrong: the start, the player, or the stream before its closing. */
  function Trouble(synthesis: Synthesis): string
    requires !Succeeds(synthesis)
  {
    match synthesis
    case StartFails(err) => err
    case Played(_, _, playError) => playError.value
    case Streamed(_, fault, closeError) => if fault == None then closeError.value else fault.value
  }

  lemma {:induction false} SynthesisOutcome(synthesis: Synthesis)
    ensures var (audioBytes, chunks, err) := Synthesized(synthesis);
      if Succeeds(synthesis) then err == None && (audioBytes, chunks) == Heard(synthesis)
      else err == Some(Trouble(synthesis))
  {
    if synthesis.Streamed? { Totals(synthesis.data); }
  }

  /** What the client hears of a tts: the start and the end of its track and, between them, either what was played,
      reported twice, or what went wrong; and a hangup behind a success that asks for it. */
  lemma {:induction false} TtsEvents(id: string, t: Tracks, cmd: Cmd, synthesis: Synthesis)
    returns (trackID: string)
    requires cmd.kind == Tts
    ensures Runs(id, t, cmd, trackID)
    ensures RouteValue(id, t, cmd, synthesis).1.events ==
      if Succeeds(synthesis) then
        [TrackStart(trackID), Metrics("ttfb", trackID, Heard(synthesis).0, Heard(synthesis).1),
         Metrics("completed", trackID, Heard(synthesis).0, Heard(synthesis).1), TrackEnd(trackID)]
        + if cmd.autoHangup == Some(true) then [HungUp("autohangup", "system")] else []
      else [TrackStart(trackID), TtsError(trackID, Trouble(synthesis)), TrackEnd(trackID)]
  {
    trackID := TrackOf(id, cmd, t.counter);
    RunsUnder(id, t, cmd);
    SynthesisOutcome(synthesis);
  }

  /** And of a play. */
  lemma {:induction false} PlayEvents(id: string, t: Tracks, cmd: Cmd, synthesis: Synthesis)
    returns (trackID: string)
    requires cmd.kind == Play
    ensures Runs(id, t, cmd, trackID)
    ensures RouteValue(id, t, cmd, synthesis).1.events ==
      [TrackStart(trackID), Metrics("completed.play.mock", trackID, 0, 0), TrackEnd(trackID)]
      + if cmd.autoHangup == Some(true) then [HungUp("autohangup", "system")] else []
  {
    trackID := TrackOf(id, cmd, t.counter);
    RunsUnder(id, t, cmd);
  }

  /** The other commands: an interruption names the current track, or else the session, and ends the track; the rest
      leave the tracks alone. */
  lemma {:induction false} OtherEvents(id: string, t: Tracks, cmd: Cmd, synthesis: Synthesis)
    requires cmd.kind != Tts && cmd.kind != Play
    ensures var (t', r) := RouteValue(id, t, cmd, synthesis);
      && (cmd.kind == History ==> r.events == [AddHistory(id)])
      && (cmd.kind == Interrupt ==> r.events == [Interruption(if t.current != "" then t.current else id)])
      && (cmd.kind == HangUp ==> |r.events| == 1 && r.events[0].HungUp?)
      && (cmd.kind == NoOp ==> r.events == [])
      && t' == if cmd.kind == Interrupt then t.(current := "") else t
  {
  }

  /** Reads the stream to its end, counting bytes and non-empty chunks. */
  method SynthesizeTTS(synthesis: Synthesis) returns (audioBytes: nat, chunkCount: nat, err: Option<string>)
    ensures (audioBytes, chunkCount, err) == Synthesized(synthesis)
  {
    audioBytes, chunkCount, err := 0, 0, None;
    match synthesis {
      case StartFails(e) => return 0, 0, Some(e);
      case Played(b, c, e) => return b, c, e;
      case Streamed(data, fault, closeError) =>
        for i := 0 to |data|
          invariant audioBytes == Bytes(data[..i]) && chunkCount == NonEmpty(data[..i])
        {
          assert data[..i + 1][..i] == data[..i];
          audioBytes := audioBytes + |data[i]|;
          if |data[i]| > 0 {
            chunkCount := chunkCount + 1;
          }
        }
        assert data[..|data|] == data;
        err := fault;
        if err.None? && closeError.Some? {
          err := closeError;
        }
    }
  }

  method Route(s: Session, cmd: Cmd, synthesis: Synthesis) returns (result: Routed)
    requires s.trackSeq < COUNTER_WRAP
    modifies s`commands, s`trackSeq, s`currentTrackID
    ensures s.trackSeq < COUNTER_WRAP
    ensures s.commands == old(s.commands) + [cmd.name]
    ensures (Tracks(s.trackSeq, s.currentTrackID), result)
        == RouteValue(s.id, old(Tracks(s.trackSeq, s.currentTrackID)), cmd, synthesis)
  {
    s.AppendCommand(cmd.name);
    match cmd.kind {
      case Tts =>
        var trackID := s.StartTrack("tts", cmd.playID);
        var audioBytes, chunks, err := SynthesizeTTS(synthesis);
        if err.Some? {
          var cleared := s.ClearTrack();
          return Routed([TrackStart(trackID), TtsError(trackID, err.value), TrackEnd(trackID)], None);
        }
        var events := [TrackStart(trackID), Metrics("ttfb", trackID, audioBytes, chunks),
                       Metrics("completed", trackID, audioBytes, chunks), TrackEnd(trackID)];
        var cleared := s.ClearTrack();
        var close := AutoHangupClose(cmd);
        if close.Some? {
          events := events + [HungUp(close.value.reason, close.value.initiator)];
        } else {
          assert events + [] == events;
        }
        result := Routed(events, close);
      case Play =>
        var trackID := s.StartTrack("play", cmd.playID);
        var events := [TrackStart(trackID), Metrics("completed.play.mock", trackID, 0, 0), TrackEnd(trackID)];
        var cleared := s.ClearTrack();
        var close := AutoHangupClose(cmd);
        if close.Some? {
          events := events + [HungUp(close.value.reason, close.value.initiator)];
        } else {
          assert events + [] == events;
        }
        result := Routed(events, close);
      case History =>
        result := Routed([AddHistory(s.id)], None);
      case Interrupt =>
        var trackID := s.ClearTrack();
        if trackID == "" {
          trackID := s.id;
        }
        result := Routed([Interruption(trackID)], None);
      case HangUp =>
        result := Routed([HungUp(Deref(cmd.reason), Deref(cmd.initiator))],
                         Some(CloseInfo(CloseInfos.Hangup, Deref(cmd.reason), Deref(cmd.initiator), "")));
      case NoOp =>
        result := Routed([], None);
    }
  }

  // ----- runs of commands on one session

  datatype Call = Call(cmd: Cmd, synthesis: Synthesis)

  /** generated lists the track ids the run made up, in order. */
  datatype Run = Run(tracks: Tracks, events: seq<RouterEvent>, generated: seq<string>)

  function Exec(id: string, calls: seq<Call>): Run {
    if calls == [] then Run(Tracks(0, ""), [], [])
    else
      var before := Exec(id, calls[..|calls| - 1]);
      var call := calls[|calls| - 1];
      var (tracks, result) := RouteValue(id, before.tracks, call.cmd, call.synthesis);
      Run(tracks, before.events + result.events,
          before.generated + FreshIds(id, call.cmd, before.tracks.counter))
  }

  /** The track open after the events, or an error if a start meets an open track or an end another one. */
  datatype Bracket = Balanced | Within(trackID: string) | Broken

  function Brackets(b: Bracket, events: seq<RouterEvent>): Bracket {
    if events == [] then b
    else
      var before := Brackets(b, events[..|events| - 1]);
      match events[|events| - 1]
      case TrackStart(trackID) => if before == Balanced then Within(trackID) else Broken
      case TrackEnd(trackID) => if before == Within(trackID) then Balanced else Broken
      case HungUp(_, _) => if before == Balanced then Balanced else Broken
      case _ => before
  }

  lemma {:induction false} BracketsConcat(b: Bracket, a: seq<RouterEvent>, c: seq<RouterEvent>)
    ensures Brackets(b, a + c) == Brackets(Brackets(b, a), c)
    decreases |c|
  {
    if c == [] {
      assert a + c == a;
    } else {
      assert (a + c)[..|a + c| - 1] == a + c[..|c| - 1];
      BracketsConcat(b, a, c[..|c| - 1]);
    }
  }

  lemma {:induction false} BracketsOne(b: Bracket, e: RouterEvent)
    ensures Brackets(b, [e]) ==
      match e
      case TrackStart(trackID) => if b == Balanced then Within(trackID) else Broken
      case TrackEnd(trackID) => if b == Within(trackID) then Balanced else Broken
      case HungUp(_, _) => if b == Balanced then Balanced else Broken
      case _ => b
  {
    assert [e][..0] == [];
  }

  /** A track's events: its start, others that neither start nor end a track, and its end. */
  lemma {:induction false} TrackBalances(trackID: string, m: RouterEvent, n: RouterEvent, tail: seq<RouterEvent>)
    requires !m.TrackStart? && !m.TrackEnd? && !m.HungUp? && !n.TrackStart? && !n.TrackEnd? && !n.HungUp?
    requires tail == [] || (|tail| == 1 && tail[0].HungUp?)
    ensures Brackets(Balanced, [TrackStart(trackID), m, TrackEnd(trackID)] + tail) == Balanced
    ensures Brackets(Balanced, [TrackStart(trackID), m, n, TrackEnd(trackID)] + tail) == Balanced
  {
    BracketsOne(Balanced, TrackStart(trackID));
    BracketsOne(Within(trackID), m);
    BracketsOne(Within(trackID), n);
    BracketsOne(Within(trackID), TrackEnd(trackID));
    if tail != [] { BracketsOne(Balanced, tail[0]); assert tail == [tail[0]]; }
    BracketsConcat(Balanced, [TrackStart(trackID)], [m]);
    BracketsConcat(Balanced, [TrackStart(trackID)] + [m], [n]);
    BracketsConcat(Balanced, [TrackStart(trackID)] + [m], [TrackEnd(trackID)]);
    BracketsConcat(Balanced, [TrackStart(trackID)] + [m] + [n], [TrackEnd(trackID)]);
    var three, four := [TrackStart(trackID), m, TrackEnd(trackID)], [TrackStart(trackID), m, n, TrackEnd(trackID)];
    assert three == [TrackStart(trackID)] + [m] + [TrackEnd(trackID)];
    assert four == [TrackStart(trackID)] + [m] + [n] + [TrackEnd(trackID)];
    BracketsConcat(Balanced, three, tail);
    BracketsConcat(Balanced, four, tail);
  }

  /** What routing one command comes to: balanced track events, no current track left behind, and a close
      iff the last event is a hangup, with the same reason and initiator. */
  ghost predicate WellRouted(t: Tracks, r: Routed) {
    && t.current == ""
    && Brackets(Balanced, r.events) == Balanced
    && (r.close.Some? <==> r.events != [] && r.events[|r.events| - 1].HungUp?)
    && (r.close.Some? ==>
          && r.close.value.cause == CloseInfos.Hangup
          && r.events[|r.events| - 1] == HungUp(r.close.value.reason, r.close.value.initiator))
  }

  lemma {:induction false} TtsWellRouted(id: string, t: Tracks, cmd: Cmd, synthesis: Synthesis)
    requires cmd.kind == Tts
    ensures var (t', r) := RouteValue(id, t, cmd, synthesis); WellRouted(t', r)
  {
    var trackID := TrackOf(id, cmd, t.counter);
    var (audioBytes, chunks, err) := Synthesized(synthesis);
    if err.Some? {
      var e := TtsError(trackID, err.value);
      TrackBalances(trackID, e, e, []);
      assert [TrackStart(trackID), e, TrackEnd(trackID)] + [] == [TrackStart(trackID), e, TrackEnd(trackID)];
    } else {
      TrackBalances(trackID, Metrics("ttfb", trackID, audioBytes, chunks),
          Metrics("completed", trackID, audioBytes, chunks),
                    HangupEvents(AutoHangupClose(cmd)));
    }
  }

  lemma {:induction false} PlayWellRouted(id: string, t: Tracks, cmd: Cmd, synthesis: Synthesis)
    requires cmd.kind == Play
    ensures var (t', r) := RouteValue(id, t, cmd, synthesis); WellRouted(t', r)
  {
    var trackID := TrackOf(id, cmd, t.counter);
    var m := Metrics("completed.play.mock", trackID, 0, 0);
    TrackBalances(trackID, m, m, HangupEvents(AutoHangupClose(cmd)));
  }

  lemma {:induction false} CommandWellRouted(id: string, t: Tracks, cmd: Cmd, synthesis: Synthesis)
    requires t.current == ""
    ensures var (t', r) := RouteValue(id, t, cmd, synthesis);
      WellRouted(t', r) && t'.counter == NextCounter(cmd, t.counter)
  {
    match cmd.kind
    case Tts => TtsWellRouted(id, t, cmd, synthesis);
    case Play => PlayWellRouted(id, t, cmd, synthesis);
    case NoOp =>
    case _ => BracketsOne(Balanced, RouteValue(id, t, cmd, synthesis).1.events[0]);
  }

  // ----- the ids made up by a run

  predicate MadeFrom(s: string, id: string, n: nat) {
    s == TrackID("tts", id, n) || s == TrackID("play", id, n)
  }

  predicate Numbered(generated: seq<string>, id: string) {
    forall i :: 0 <= i < |generated| ==> MadeFrom(generated[i], id, i + 1)
  }

  lemma {:induction false} NumberedExtends(generated: seq<string>, id: string, s: string)
    requires Numbered(generated, id) && MadeFrom(s, id, |generated| + 1)
    ensures Numbered(generated + [s], id)
  {
    forall i | 0 <= i < |generated + [s]| ensures MadeFrom((generated + [s])[i], id, i + 1) {
      if i < |generated| { assert MadeFrom(generated[i], id, i + 1); }
    }
  }

  lemma {:induction false} MadeFromOnce(s: string, id: string, m: nat, n: nat)
    requires MadeFrom(s, id, m) && MadeFrom(s, id, n)
    ensures m == n
  {
    var p := if s == TrackID("tts", id, m) then "tts" else "play";
    var q := if s == TrackID("tts", id, n) then "tts" else "play";
    TrackIDsDiffer(p, q, id, m, n);
  }

  lemma {:induction false} NumberedDiffer(generated: seq<string>, id: string, i: nat, j: nat)
    requires Numbered(generated, id) && i < j < |generated|
    ensures generated[i] != generated[j]
  {
    var s, t := generated[i], generated[j];
    assert MadeFrom(s, id, i + 1) && MadeFrom(t, id, j + 1);
    if s == t { MadeFromOnce(s, id, i + 1, j + 1); }
  }

  /** The id a command makes up, if it makes one up. */
  function FreshIds(id: string, cmd: Cmd, counter: nat): seq<string> {
    if Generates(cmd) then [TrackOf(id, cmd, counter)] else []
  }

  lemma {:induction false} FreshIdsNumbered(generated: seq<string>, id: string, cmd: Cmd)
    requires Numbered(generated, id) && |generated| + 1 < COUNTER_WRAP
    ensures var ids := generated + FreshIds(id, cmd, |generated|);
      Numbered(ids, id) && |ids| == NextCounter(cmd, |generated|)
  {
    if Generates(cmd) {
      NumberedExtends(generated, id, TrackOf(id, cmd, |generated|));
    } else {
      assert generated + [] == generated;
    }
  }

  /** Over any run of commands on one session the track events are balanced, no track is current between
      commands, and the i-th generated id is made from the number i. */
  lemma {:induction false} RunBalances(id: string, calls: seq<Call>)
    requires |calls| < 0x1_0000_0000_0000_0000
    ensures var r := Exec(id, calls);
      && r.tracks.current == ""
      && Brackets(Balanced, r.events) == Balanced
      && r.tracks.counter == |r.generated| <= |calls|
      && Numbered(r.generated, id)
    decreases |calls|
  {
    if calls != [] {
      var front, call := calls[..|calls| - 1], calls[|calls| - 1];
      RunBalances(id, front);
      var before := Exec(id, front);
      CommandWellRouted(id, before.tracks, call.cmd, call.synthesis);
      BracketsConcat(Balanced, before.events, RouteValue(id, before.tracks, call.cmd, call.synthesis).1.events);
      FreshIdsNumbered(before.generated, id, call.cmd);
    }
  }

  /** No two ids a session generates are equal, even when its own id contains the separator. */
  lemma {:induction false} GeneratedIdsDiffer(id: string, calls: seq<Call>)
    requires |calls| < 0x1_0000_0000_0000_0000
    ensures var ids := Exec(id, calls).generated; forall i, j :: 0 <= i < j < |ids| ==> ids[i] != ids[j]
  {
    RunBalances(id, calls);
    var ids := Exec(id, calls).generated;
    forall i, j | 0 <= i < j < |ids| ensures ids[i] != ids[j] { NumberedDiffer(ids, id, i, j); }
  }
}
