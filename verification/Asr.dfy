/** The speech recognition stage: one recogniser session at a time, opened by audio and closed by end marks. */
module Asr {
  import opened Media
  import opened Streams
  import Codec

  /** What the provider does in one call: the error NewSession, WriteAudio and Close would return, if any. */
  datatype AsrCue = AsrCue(newSession: Option<string>, writeError: Option<string>, closeError: Option<string>)

  datatype Fed = Fed(packet: Packet, cue: AsrCue)

  /** A recogniser session as the provider sees it: the audio offered to it and how often it was closed. */
  datatype SessionLog = SessionLog(offered: seq<Payload>, closes: nat)

  /** The handle of the current session is its position in the log of all sessions opened. */
  datatype AsrState = AsrState(
    current: Option<nat>, failed: bool, ttfbSent: bool, silence: nat, shut: bool, sessions: seq<SessionLog>)

  const FRESH := AsrState(None, false, false, 0, false, [])

  const SILENT_PACKETS := 8
  const SILENCE_LEVEL := 96

  type AsrOut = Out<AsrState, Packet, Event>

  predicate IsSilent(payload: Payload) {
    forall i :: 0 <= i < |payload| / 2 ==>
      -SILENCE_LEVEL <= Codec.Join(payload[2 * i], payload[2 * i + 1]) <= SILENCE_LEVEL
  }

  /** The log with the current session closed once more. */
  function CloseCurrent(s: AsrState): seq<SessionLog>
    requires s.current.Some? ==> s.current.value < |s.sessions|
  {
    if s.current.None? then s.sessions
    else
      var log := s.sessions[s.current.value];
      s.sessions[s.current.value := log.(closes := log.closes + 1)]
  }

  predicate Handles(s: AsrState) {
    s.current.Some? ==> s.current.value < |s.sessions|
  }

  function StopActive(s: AsrState): AsrState
    requires Handles(s)
  {
    s.(current := None, ttfbSent := false, sessions := CloseCurrent(s))
  }

  function Report(trackID: string, error: Option<string>): seq<Event> {
    if error.None? then [] else [Failure(trackID, "asr", error.value)]
  }

  /** Stopping reports the session's close error; without a session there is nothing to report. */
  function Stopped(trackID: string, s: AsrState, cue: AsrCue): AsrOut
    requires Handles(s)
  {
    Out(StopActive(s), [], Report(trackID, if s.current.None? then None else cue.closeError))
  }

  function Offer(trackID: string, s: AsrState, data: Payload, cue: AsrCue): AsrOut
    requires Handles(s)
  {
    if s.failed then Out(s, [], [])
    else if s.current.None? && cue.newSession.Some? then
      Out(s.(failed := true), [], Report(trackID, cue.newSession))
    else
      var sessions := if s.current.None? then s.sessions + [SessionLog([], 0)] else s.sessions;
      var k := if s.current.None? then |s.sessions| else s.current.value;
      var log := sessions[k];
      Out(s.(current := Some(k), sessions := sessions[k := log.(offered := log.offered + [data])]), [],
          Report(trackID, cue.writeError))
  }

  function Consume(trackID: string, segmented: bool, s: AsrState, f: Fed): AsrOut
    requires Handles(s)
  {
    if f.packet.IsSegmentEnd() then Stopped(trackID, s, f.cue)
    else if f.packet.data == [] then Out(s, [], [])
    else if !segmented && IsSilent(f.packet.data) then
      var s' := s.(silence := s.silence + 1);
      if s'.current.Some? && s'.silence >= SILENT_PACKETS then Stopped(trackID, s', f.cue) else Out(s', [], [])
    else Offer(trackID, s.(silence := 0), f.packet.data, f.cue)
  }

  /** Consume as a stage; states whose handle points nowhere do not occur. */
  function Recogniser(trackID: string, segmented: bool): Step<AsrState, Fed, Packet, Event> {
    (s: AsrState, f: Fed) => if Handles(s) then Consume(trackID, segmented, s, f) else Out(s, [], [])
  }

  /** Closing the stage closes the current session, the first time only. */
  function Shut(s: AsrState): AsrState {
    if s.shut || !Handles(s) then s else s.(shut := true, current := None, sessions := CloseCurrent(s))
  }

  // ----- the object

  class ASR {
    const trackID: string
    const segmented: bool
    var current: Option<nat>
    var failed: bool
    var ttfbSent: bool
    var silence: nat
    var shut: bool
    var index: nat
    var sessions: seq<SessionLog>

    ghost function State(): AsrState
      reads this
    {
      AsrState(current, failed, ttfbSent, silence, shut, sessions)
    }

    constructor (trackID: string, segmented: bool)
      ensures this.trackID == trackID && this.segmented == segmented && State() == FRESH && index == 0
    {
      index := 0;
      this.trackID, this.segmented := trackID, segmented;
      current, failed, ttfbSent, silence, shut, sessions := None, false, false, 0, false, [];
    }

    method Process(f: Fed) returns (events: seq<Event>)
      requires Handles(State())
      modifies this
      ensures Handles(State())
      ensures index == old(index)
      ensures Out(State(), [], events) == Consume(trackID, segmented, old(State()), f)
    {
      if f.packet.IsSegmentEnd() {
        var err := StopActiveSession(f.cue);
        return Report(trackID, err);
      }
      if |f.packet.data| == 0 {
        return [];
      }
      if !segmented {
        var silent := IsSilentPCM16(f.packet.data);
        if silent {
          silence := silence + 1;
          if current.Some? && silence >= SILENT_PACKETS {
            var err := StopActiveSession(f.cue);
            return Report(trackID, err);
          }
          return [];
        }
      }
      silence := 0;
      if failed {
        return [];
      }
      if current.None? {
        if f.cue.newSession.Some? {
          failed := true;
          return Report(trackID, f.cue.newSession);
        }
        current := Some(|sessions|);
        sessions := sessions + [SessionLog([], 0)];
      }
      var log := sessions[current.value];
      sessions := sessions[current.value := log.(offered := log.offered + [f.packet.data])];
      events := Report(trackID, f.cue.writeError);
    }

    method StopActiveSession(cue: AsrCue) returns (err: Option<string>)
      requires Handles(State())
      modifies this
      ensures State() == StopActive(old(State())) && index == old(index)
      ensures err == if old(current).None? then None else cue.closeError
    {
      var session := current;
      current := None;
      ttfbSent := false;
      if session.None? {
        return None;
      }
      var log := sessions[session.value];
      sessions := sessions[session.value := log.(closes := log.closes + 1)];
      err := cue.closeError;
    }

    /** The locked part of emitting a result: whether a first-result metrics event goes with it, and its index. */
    method StampResult() returns (metrics: bool, stamp: nat)
      modifies this`ttfbSent, this`index
      ensures metrics == !old(ttfbSent) && ttfbSent
      ensures stamp == index == (old(index) + 1) % 0x1_0000_0000
    {
      metrics := false;
      if !ttfbSent {
        ttfbSent := true;
        metrics := true;
      }
      index := (index + 1) % INDEX_WRAP;
      stamp := index;
    }

    method Close(cue: AsrCue) returns (err: Option<string>)
      requires Handles(State())
      modifies this
      ensures State() == Shut(old(State())) && index == old(index)
      ensures err == if old(shut) || old(current).None? then None else cue.closeError
    {
      err := None;
      if shut {
        return;
      }
      shut := true;
      var session := current;
      current := None;
      if session.Some? {
        var log := sessions[session.value];
        sessions := sessions[session.value := log.(closes := log.closes + 1)];
        err := cue.closeError;
      }
    }
  }

  /** Looks at whole samples only; a payload without one is silent. */
  method IsSilentPCM16(payload: Payload) returns (silent: bool)
    ensures silent == IsSilent(payload)
  {
    var i := 0;
    while i + 1 < |payload|
      invariant 0 <= i <= |payload| && i % 2 == 0
      invariant forall k :: 0 <= k < i / 2 ==>
        -SILENCE_LEVEL <= Codec.Join(payload[2 * k], payload[2 * k + 1]) <= SILENCE_LEVEL
    {
      var sample := Codec.Join(payload[i], payload[i + 1]);
      if sample > SILENCE_LEVEL || sample < -SILENCE_LEVEL {
        assert sample == Codec.Join(payload[2 * (i / 2)], payload[2 * (i / 2) + 1]);
        return false;
      }
      i := i + 2;
    }
    return true;
  }

  // ----- at most one session is open, and each is closed at most once

  predicate Orderly(s: AsrState) {
    && (s.current.Some? ==>
          |s.sessions| > 0 && s.current.value == |s.sessions| - 1 && s.sessions[s.current.value].closes == 0)
    && (forall k :: 0 <= k < |s.sessions| && s.current != Some(k) ==> s.sessions[k].closes == 1)
    && (forall k :: 0 <= k < |s.sessions| ==> s.sessions[k].offered != [])
  }

  lemma {:induction false} StopIsOrderly(s: AsrState)
    requires Orderly(s)
    ensures Orderly(StopActive(s))
  {
  }

  lemma {:induction false} OfferIsOrderly(trackID: string, s: AsrState, data: Payload, cue: AsrCue)
    requires Orderly(s)
    ensures Orderly(Offer(trackID, s, data, cue).state)
  {
    var s' := Offer(trackID, s, data, cue).state;
    if s' != s && !s'.failed {
      assert forall k :: 0 <= k < |s'.sessions| - 1 ==> s'.sessions[k] == s.sessions[k];
    }
  }

  lemma {:induction false} ConsumeIsOrderly(trackID: string, segmented: bool, s: AsrState, f: Fed)
    requires Orderly(s)
    ensures Orderly(Consume(trackID, segmented, s, f).state)
  {
    StopIsOrderly(s);
    StopIsOrderly(s.(silence := s.silence + 1));
    OfferIsOrderly(trackID, s.(silence := 0), f.packet.data, f.cue);
  }

  /** Whatever the packets and the provider's errors, a run leaves the log orderly. */
  lemma {:induction false} RecogniserIsOrderly(trackID: string, segmented: bool, s: AsrState, fed: seq<Fed>)
    requires Orderly(s)
    ensures Orderly(Drain(Recogniser(trackID, segmented), s, fed).state)
    decreases |fed|
  {
    if fed != [] {
      var front := fed[..|fed| - 1];
      RecogniserIsOrderly(trackID, segmented, s, front);
      ConsumeIsOrderly(trackID, segmented, Drain(Recogniser(trackID, segmented), s, front).state, fed[|fed| - 1]);
    }
  }

  /** Closing leaves every session closed exactly once. */
  lemma {:induction false} ShutClosesAll(s: AsrState)
    requires Orderly(s) && !s.shut
    ensures Shut(s).current.None? && Shut(s).shut
    ensures forall k :: 0 <= k < |Shut(s).sessions| ==>
        Shut(s).sessions[k].closes == 1 && Shut(s).sessions[k].offered == s.sessions[k].offered
    ensures |Shut(s).sessions| == |s.sessions|
    ensures Shut(Shut(s)) == Shut(s)
  {
  }

  // ----- one session per group of audio between end marks

  function Finished(groups: seq<seq<Payload>>): seq<SessionLog> {
    if groups == [] then []
    else
      var front := Finished(groups[..|groups| - 1]);
      if groups[|groups| - 1] == [] then front else front + [SessionLog(groups[|groups| - 1], 1)]
  }

  /** The sessions a packet stream calls for: one for each non-empty group. */
  function SessionsFor(packets: seq<Packet>): seq<SessionLog> {
    Finished(ClosedGroups(packets)) + if OpenGroup(packets) == [] then [] else [SessionLog(OpenGroup(packets), 0)]
  }

  function PacketsOf(fed: seq<Fed>): (packets: seq<Packet>)
    ensures |packets| == |fed|
  {
    seq(|fed|, i requires 0 <= i < |fed| => fed[i].packet)
  }

  predicate Willing(fed: seq<Fed>) {
    forall i :: 0 <= i < |fed| ==>
        fed[i].cue.newSession.None? && (fed[i].packet.IsSegmentEnd() || fed[i].packet.data != [])
  }

  /** While NewSession succeeds, the sessions opened are offered exactly the non-empty groups of audio, in order;
      a session is closed once at its end mark, and the last is still open iff audio follows the last end mark. */
  lemma {:induction false} SessionPerGroup(trackID: string, fed: seq<Fed>)
    requires Willing(fed)
    ensures var s := Drain(Recogniser(trackID, true), FRESH, fed).state;
      Serves(s, PacketsOf(fed))
    decreases |fed|
  {
    if fed != [] {
      var front, f := fed[..|fed| - 1], fed[|fed| - 1];
      SessionPerGroup(trackID, front);
      PacketsOfLast(fed);
      GroupStep(trackID, Drain(Recogniser(trackID, true), FRESH, front).state, PacketsOf(front), f);
    }
  }

  lemma {:induction false} PacketsOfLast(fed: seq<Fed>)
    requires fed != []
    ensures PacketsOf(fed) == PacketsOf(fed[..|fed| - 1]) + [fed[|fed| - 1].packet]
  {}

  /** The state of the recogniser after a packet stream that met no NewSession error. */
  predicate Serves(s: AsrState, packets: seq<Packet>) {
    && s.sessions == SessionsFor(packets)
    && s.current == (if OpenGroup(packets) == [] then None else Some(|s.sessions| - 1))
    && !s.failed && !s.shut && Handles(s)
  }

  lemma {:induction false} GroupStep(trackID: string, s: AsrState, packets: seq<Packet>, f: Fed)
    requires f.cue.newSession.None? && (f.packet.IsSegmentEnd() || f.packet.data != [])
    requires Serves(s, packets)
    ensures Serves(Consume(trackID, true, s, f).state, packets + [f.packet])
  {
    var all := packets + [f.packet];
    assert all[..|all| - 1] == packets;
    var closed, open := ClosedGroups(packets), OpenGroup(packets);
    if f.packet.IsSegmentEnd() {
      ClosingGroup(s, packets, f.packet);
    } else {
      OfferGroup(trackID, s.(silence := 0), packets, f);
    }
  }

  lemma {:induction false} ClosingGroup(s: AsrState, packets: seq<Packet>, end: Packet)
    requires Serves(s, packets) && end.IsSegmentEnd()
    ensures Serves(StopActive(s), packets + [end])
  {
    var closed, open := ClosedGroups(packets), OpenGroup(packets);
    assert (packets + [end])[..|packets|] == packets;
    assert (closed + [open])[..|closed|] == closed;
    var n := |Finished(closed)|;
    if open != [] {
      assert s.sessions[n] == SessionLog(open, 0);
      assert s.sessions[n := SessionLog(open, 1)] == Finished(closed) + [SessionLog(open, 1)];
    }
    assert SessionsFor(packets + [end]) == Finished(closed + [open]);
  }

  lemma {:induction false} OfferGroup(trackID: string, s: AsrState, packets: seq<Packet>, f: Fed)
    requires Serves(s, packets) && f.cue.newSession.None? && !f.packet.IsSegmentEnd()
    ensures Serves(Offer(trackID, s, f.packet.data, f.cue).state, packets + [f.packet])
  {
    var all := packets + [f.packet];
    assert all[..|packets|] == packets;
    var closed, open := ClosedGroups(packets), OpenGroup(packets);
    var n := |Finished(closed)|;
    assert SessionsFor(all) == Finished(closed) + [SessionLog(open + [f.packet.data], 0)];
    var sessions := if open == [] then s.sessions + [SessionLog([], 0)] else s.sessions;
    assert sessions == Finished(closed) + [SessionLog(open, 0)];
    assert sessions[n := SessionLog(open + [f.packet.data], 0)] == SessionsFor(all);
  }
}
