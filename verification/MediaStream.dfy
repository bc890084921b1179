/** The media stream: pushes reach the chain until the stream is closed, and closing releases the sessions. */
module MediaStream {
  import opened Media
  import opened Streams
  import opened Chains
  import opened VadModel
  import VadInvariant
  import opened Asr
  import opened Pipeline

  class Stream {
    const trackID: string
    const chain: Chain?<StageState, Packet, Event>
    var closed: bool

    ghost predicate Valid()
      reads this, chain
    {
      chain != null ==> chain.Valid()
    }

    constructor (trackID: string, chain: Chain?<StageState, Packet, Event>)
      requires chain != null ==> chain.Valid()
      ensures Valid() && this.trackID == trackID && this.chain == chain && !closed
    {
      this.trackID, this.chain, closed := trackID, chain, false;
    }

    /** A closed stream, or one without a chain, drops the packet. */
    method Push(data: Payload) returns (events: seq<Event>)
      requires Valid()
      modifies chain
      ensures Valid() && closed == old(closed)
      ensures chain != null ==>
        var flow := Through(chain.stages, old(chain.states), [AudioPacket(trackID, data)]);
        && chain.states == (if closed then old(chain.states) else States(flow))
        && events == (if closed then [] else Reports(flow))
      ensures chain == null ==> events == []
    {
      if closed || chain == null {
        return [];
      }
      events := chain.Process(AudioPacket(trackID, data));
    }

    method Close()
      requires Valid()
      modifies this, chain
      ensures Valid() && closed
      ensures chain != null ==> chain.states == CloseAll(chain.stages, old(chain.states)).0
    {
      closed := true;
      if chain != null {
        var error := chain.Close();
      }
    }
  }

  // ----- whole histories of a stream

  datatype Op = Push(data: Payload) | Close

  datatype StreamState = StreamState(closed: bool, states: seq<StageState>)

  function Opened(): StreamState {
    StreamState(false, Start())
  }

  /** One operation on the values the object holds. */
  function Apply(u: Setup, st: StreamState, op: Op): (st': StreamState)
    requires |st.states| == 4
    ensures |st'.states| == 4
  {
    match op
    case Push(data) =>
      if st.closed then st else st.(states := States(Through(Stages(u), st.states, [AudioPacket(u.trackID, data)])))
    case Close => StreamState(true, CloseAll(Stages(u), st.states).0)
  }

  function ApplyAll(u: Setup, st: StreamState, ops: seq<Op>): (st': StreamState)
    requires |st.states| == 4
    ensures |st'.states| == 4
    decreases |ops|
  {
    if ops == [] then st else Apply(u, ApplyAll(u, st, ops[..|ops| - 1]), ops[|ops| - 1])
  }

  function Pushes(payloads: seq<Payload>): (ops: seq<Op>)
    ensures |ops| == |payloads|
  {
    seq(|payloads|, i requires 0 <= i < |payloads| => Push(payloads[i]))
  }

  lemma {:induction false} ApplyConcat(u: Setup, st: StreamState, a: seq<Op>, b: seq<Op>)
    requires |st.states| == 4
    ensures ApplyAll(u, st, a + b) == ApplyAll(u, ApplyAll(u, st, a), b)
    decreases |b|
  {
    if b == [] {
      assert a + b == a;
    } else {
      assert (a + b)[..|a + b| - 1] == a + b[..|b| - 1];
      ApplyConcat(u, st, a, b[..|b| - 1]);
    }
  }

  /** The pushes of an open stream are the chain fed packet by packet. */
  lemma {:induction false} PushesFeedTheChain(u: Setup, payloads: seq<Payload>)
    ensures ApplyAll(u, Opened(), Pushes(payloads))
         == StreamState(false, States(PacketByPacket(Stages(u), Start(), Pushed(u, payloads))))
    decreases |payloads|
  {
    if payloads == [] {
      assert States(Unmoved<StageState, Packet, Event>(Start())) == Start();
    } else {
      var front := payloads[..|payloads| - 1];
      PushesFeedTheChain(u, front);
      assert Pushes(payloads)[..|payloads| - 1] == Pushes(front);
      var packets := Pushed(u, payloads);
      assert packets[..|packets| - 1] == Pushed(u, front);
      var before := PacketByPacket(Stages(u), Start(), Pushed(u, front));
      var last := Through(Stages(u), States(before), [packets[|packets| - 1]]);
      assert States(Joined(before, last)) == States(last);
    }
  }

  /** Closing shuts the recogniser and leaves the detector alone; the only error is that of closing its session. */
  lemma {:induction false} ClosingStages(u: Setup, states: seq<StageState>)
    requires |states| == 4 && states[2].OfVad? && states[3].OfAsr?
    ensures var (after, error) := CloseAll(Stages(u), states);
      var asr := states[3].asr;
      && after == states[3 := OfAsr(asr.(inner := Shut(asr.inner)))]
      && error == if asr.inner.shut || asr.inner.current == None then None else u.asrEnv(asr.calls).closeError
  {
    var stages := Stages(u);
    assert stages[..3][..2] == stages[..2] && stages[..2][..1] == stages[..1] && stages[..1][..0] == stages[..0];
    assert states[..3][..2] == states[..2] && states[..2][..1] == states[..1] && states[..1][..0] == states[..0];
    assert CloseAll(stages[..0], states[..0]).1 == None;
    var r1 := CloseAll(stages[..1], states[..1]);
    assert r1.0 == states[..1] && r1.1 == None;
    var r2 := CloseAll(stages[..2], states[..2]);
    assert r2.0 == states[..2] && r2.1 == None;
    var r3 := CloseAll(stages[..3], states[..3]);
    assert r3.0 == states[..3] && r3.1 == None;
  }

  lemma {:induction false} NothingAfterClose(u: Setup, st: StreamState, after: seq<Op>)
    requires |st.states| == 4 && st.closed && st.states[2].OfVad? && st.states[3].OfAsr? && st.states[3].asr.inner.shut
    ensures ApplyAll(u, st, after) == st
    decreases |after|
  {
    if after != [] {
      NothingAfterClose(u, st, after[..|after| - 1]);
      ClosingStages(u, st.states);
    }
  }

  /** After a sequential Close every session ever opened has been closed exactly once, with the audio it had
      been offered, and neither later pushes nor further closes change anything, in particular open no session.
      This holds whatever the provider's errors were. */
  lemma {:induction false} EverySessionClosedOnce(u: Setup, payloads: seq<Payload>, after: seq<Op>)
    ensures var open := ApplyAll(u, Opened(), Pushes(payloads));
      var shut := ApplyAll(u, Opened(), Pushes(payloads) + [Close]);
      && open.states[3].OfAsr? && shut.states[3].OfAsr?
      && var was, now := open.states[3].asr.inner, shut.states[3].asr.inner;
      && now.current.None? && |now.sessions| == |was.sessions|
      && (forall k :: 0 <= k < |now.sessions| ==> now.sessions[k] == SessionLog(was.sessions[k].offered, 1))
      && ApplyAll(u, Opened(), Pushes(payloads) + [Close] + after) == shut
  {
    var open := ApplyAll(u, Opened(), Pushes(payloads));
    var shut := ApplyAll(u, Opened(), Pushes(payloads) + [Close]);
    ApplyConcat(u, Opened(), Pushes(payloads), [Close]);
    assert ApplyAll(u, open, [Close]) == Apply(u, open, Close) by { assert [Close][..0] == []; }
    PushesFeedTheChain(u, payloads);
    ChainIsDetectorThenRecogniser(u, payloads);
    var v := VadRun(u, payloads);
    RecogniserIsOrderly(u.trackID, Segmented(u), FRESH, Met(v.packets, MeetAsr, u.asrEnv, 0));
    NeverShut(u, Met(v.packets, MeetAsr, u.asrEnv, 0));
    ClosingStages(u, open.states);
    ShutClosesAll(open.states[3].asr.inner);
    NothingAfterClose(u, shut, after);
    ApplyConcat(u, Opened(), Pushes(payloads) + [Close], after);
  }

  lemma {:induction false} NeverShut(u: Setup, fed: seq<Fed>)
    ensures !Drain(Recogniser(u.trackID, Segmented(u)), FRESH, fed).state.shut
    decreases |fed|
  {
    if fed != [] { NeverShut(u, fed[..|fed| - 1]); }
  }

  /** The audio of the segments of a call, an unfinished last one included. */
  function Segments(u: Setup, payloads: seq<Payload>): seq<seq<Payload>> {
    var v := VadRun(u, payloads);
    ClosedGroups(v.packets) + if VadInvariant.Open(v.state) then [OpenGroup(v.packets)] else []
  }

  /** A whole call, while NewSession succeeds: pushes, a sequential Close, and anything after it. The recogniser
      sessions are then exactly the detector's segments, in order, each offered exactly its audio and closed once. */
  lemma {:induction false} SessionsAreSegments(u: Setup, payloads: seq<Payload>, after: seq<Op>)
    requires VadInvariant.Detecting(u.p) && ProviderWilling(u)
    ensures var end := ApplyAll(u, Opened(), Pushes(payloads) + [Close] + after);
      var segments := Segments(u, payloads);
      && end.states[3].OfAsr?
      && |end.states[3].asr.inner.sessions| == |segments|
      && forall k :: 0 <= k < |segments| ==> end.states[3].asr.inner.sessions[k] == SessionLog(segments[k], 1)
  {
    EverySessionClosedOnce(u, payloads, after);
    PushedLog(u, payloads);
    SessionPerSegment(u, payloads);
  }

  /** The log of all sessions before the close. */
  lemma {:induction false} PushedLog(u: Setup, payloads: seq<Payload>)
    ensures var state := ApplyAll(u, Opened(), Pushes(payloads)).states[3];
      state.OfAsr? && state.asr.inner == AsrRun(u, VadRun(u, payloads).packets).state
  {
    PushesFeedTheChain(u, payloads);
    ChainIsDetectorThenRecogniser(u, payloads);
  }
}
