/** The whole upstream chain: denoise, recorder, detector, recogniser, and the stream that feeds and closes it. */
module Pipeline {
  import opened Media
  import opened Streams
  import opened Chains
  import opened VadModel
  import VadInvariant
  import VadRuns
  import opened Asr
  import AsrReports

  /** The detector's circumstances in one call. */
  datatype VadCue = VadCue(rms: real, answer: Answer, now: int)

  datatype StageState =
    | OfDenoise
    | OfRecorder(bytesSum: nat)
    | OfVad(vad: Counted<VadState>)
    | OfAsr(asr: Counted<AsrState>)

  type MediaStage = Stage<StageState, Packet, Event>

  /** Everything a stream's behaviour depends on besides the pushes; the cues of each call are arbitrary. */
  datatype Setup = Setup(trackID: string, p: Params, vadEnv: nat -> VadCue, asrEnv: nat -> AsrCue)

  /** Whether the detector cuts segments; without it the recogniser counts silent packets itself. */
  predicate Segmented(u: Setup) {
    u.p.mode != Passthrough
  }

  function MeetVad(packet: Packet, cue: VadCue): Frame {
    Frame(packet, cue.rms, cue.answer, cue.now)
  }

  function MeetAsr(packet: Packet, cue: AsrCue): Fed {
    Fed(packet, cue)
  }

  function Denoise(): Step<StageState, Packet, Packet, Event> {
    (s: StageState, packet: Packet) => Out(s, [packet], [])
  }

  function Recorder(): Step<StageState, Packet, Packet, Event> {
    (s: StageState, packet: Packet) =>
      Out(if s.OfRecorder? && !packet.IsSegmentEnd() then OfRecorder(s.bytesSum + |packet.data|) else s, [packet], [])
  }

  function VadInner(u: Setup): Step<Counted<VadState>, Packet, Packet, Event> {
    Cued(Detector(u.p), MeetVad, u.vadEnv)
  }

  function AsrInner(u: Setup): Step<Counted<AsrState>, Packet, Packet, Event> {
    Cued(Recogniser(u.trackID, Segmented(u)), MeetAsr, u.asrEnv)
  }

  /** A detector-like stage on the chain's states. */
  function OnVad(inner: Step<Counted<VadState>, Packet, Packet, Event>): Step<StageState, Packet, Packet, Event> {
    (s: StageState, packet: Packet) =>
      if s.OfVad? then
        var o := inner(s.vad, packet);
        Out(OfVad(o.state), o.packets, o.events)
      else Out(s, [], [])
  }

  function OnAsr(inner: Step<Counted<AsrState>, Packet, Packet, Event>): Step<StageState, Packet, Packet, Event> {
    (s: StageState, packet: Packet) =>
      if s.OfAsr? then
        var o := inner(s.asr, packet);
        Out(OfAsr(o.state), o.packets, o.events)
      else Out(s, [], [])
  }

  /** Closing the detector releases its scorer and leaves its state alone. */
  function CloseVad(): Closer<StageState> {
    (s: StageState) => (s, None)
  }

  function CloseAsr(u: Setup): Closer<StageState> {
    (s: StageState) =>
      if s.OfAsr? then
        (OfAsr(s.asr.(inner := Shut(s.asr.inner))),
         if s.asr.inner.shut || s.asr.inner.current.None? then None else u.asrEnv(s.asr.calls).closeError)
      else (s, None)
  }

  function Stages(u: Setup): (stages: seq<MediaStage>)
    ensures |stages| == 4
  {
    [Stage(Denoise(), None), Stage(Recorder(), None), Stage(OnVad(VadInner(u)), Some(CloseVad())),
        Stage(OnAsr(AsrInner(u)), Some(CloseAsr(u)))]
  }

  function Start(): seq<StageState> {
    [OfDenoise, OfRecorder(0), OfVad(Counted(INITIAL, 0)), OfAsr(Counted(FRESH, 0))]
  }

  /** What Stream.Push hands to the chain. */
  function Pushed(u: Setup, payloads: seq<Payload>): (packets: seq<Packet>)
    ensures |packets| == |payloads|
  {
    seq(|payloads|, i requires 0 <= i < |payloads| => AudioPacket(u.trackID, payloads[i]))
  }

  function Frames(u: Setup, payloads: seq<Payload>): seq<Frame> {
    Met(Pushed(u, payloads), MeetVad, u.vadEnv, 0)
  }

  /** Each payload meets the loudness, the answer and the clock of its own call, as audio of the call's track. */
  lemma {:induction false} FrameMeets(u: Setup, payloads: seq<Payload>, i: nat)
    requires i < |payloads|
    ensures |Frames(u, payloads)| == |payloads|
    ensures Frames(u, payloads)[i] ==
      Frame(Packet(u.trackID, payloads[i], Audio), u.vadEnv(i).rms, u.vadEnv(i).answer, u.vadEnv(i).now)
  {
    assert Pushed(u, payloads)[i] == AudioPacket(u.trackID, payloads[i]);
  }

  /** And each packet of the detector meets the provider's answers of its own call. */
  lemma {:induction false} FedMeets(u: Setup, packets: seq<Packet>, i: nat)
    requires i < |packets|
    ensures Met(packets, MeetAsr, u.asrEnv, 0)[i].packet == packets[i]
    ensures Met(packets, MeetAsr, u.asrEnv, 0)[i].cue == u.asrEnv(i)
  {
  }

  // ----- each stage alone

  lemma {:induction false} DenoisePasses(s: StageState, packets: seq<Packet>)
    ensures Drain(Denoise(), s, packets) == Out(s, packets, [])
  {
    DrainPasses(Denoise(), (t: StageState) => t == s, s, packets);
  }

  lemma {:induction false} RecorderPasses(s: StageState, packets: seq<Packet>)
    requires s.OfRecorder?
    ensures var o := Drain(Recorder(), s, packets);
      o.state.OfRecorder? && o.packets == packets && o.events == []
  {
    DrainPasses(Recorder(), (t: StageState) => t.OfRecorder?, s, packets);
  }

  /** The recorder counts the bytes of the audio. */
  lemma {:induction false} RecorderCounts(bytes: nat, packets: seq<Packet>)
    ensures Drain(Recorder(), OfRecorder(bytes), packets).state == OfRecorder(bytes + |Flat(AudioData(packets))|)
    decreases |packets|
  {
    if packets != [] {
      var front, last := packets[..|packets| - 1], packets[|packets| - 1];
      RecorderCounts(bytes, front);
      if !last.IsSegmentEnd() {
        var data := AudioData(front) + [last.data];
        assert data[..|data| - 1] == AudioData(front);
      }
    }
  }

  lemma {:induction false} OnVadAlone(inner: Step<Counted<VadState>, Packet, Packet, Event>, c: Counted<VadState>,
          packets: seq<Packet>)
    ensures var o := Drain(inner, c, packets);
      Drain(OnVad(inner), OfVad(c), packets) == Out(OfVad(o.state), o.packets, o.events)
  {
    var wrap := (s: Counted<VadState>) => OfVad(s);
    assert Embeds(OnVad(inner), inner, wrap);
    DrainEmbedded(OnVad(inner), inner, wrap, c, packets);
  }

  lemma {:induction false} OnAsrAlone(inner: Step<Counted<AsrState>, Packet, Packet, Event>, c: Counted<AsrState>,
          packets: seq<Packet>)
    ensures var o := Drain(inner, c, packets);
      Drain(OnAsr(inner), OfAsr(c), packets) == Out(OfAsr(o.state), o.packets, o.events)
  {
    var wrap := (s: Counted<AsrState>) => OfAsr(s);
    assert Embeds(OnAsr(inner), inner, wrap);
    DrainEmbedded(OnAsr(inner), inner, wrap, c, packets);
  }

  lemma {:induction false} VadAlone(u: Setup, packets: seq<Packet>)
    ensures var o := Run(u.p, INITIAL, Met(packets, MeetVad, u.vadEnv, 0));
      Drain(OnVad(VadInner(u)), OfVad(Counted(INITIAL, 0)), packets)
      == Out(OfVad(Counted(o.state, |packets|)), o.packets, o.events)
  {
    OnVadAlone(VadInner(u), Counted(INITIAL, 0), packets);
    DrainCued(Detector(u.p), MeetVad, u.vadEnv, INITIAL, 0, packets);
  }

  lemma {:induction false} AsrAlone(u: Setup, packets: seq<Packet>)
    ensures var o := AsrRun(u, packets);
      Drain(OnAsr(AsrInner(u)), OfAsr(Counted(FRESH, 0)), packets)
      == Out(OfAsr(Counted(o.state, |packets|)), o.packets, o.events)
  {
    OnAsrAlone(AsrInner(u), Counted(FRESH, 0), packets);
    DrainCued(Recogniser(u.trackID, Segmented(u)), MeetAsr, u.asrEnv, FRESH, 0, packets);
  }

  // ----- the chain is the detector followed by the recogniser

  function VadRun(u: Setup, payloads: seq<Payload>): VadOut {
    Run(u.p, INITIAL, Frames(u, payloads))
  }

  function AsrRun(u: Setup, packets: seq<Packet>): AsrOut {
    Drain(Recogniser(u.trackID, Segmented(u)), FRESH, Met(packets, MeetAsr, u.asrEnv, 0))
  }

  /** Pushing payloads one by one leaves the detector where its run over the frames leaves it, and the
      recogniser where its run over everything the detector handed on leaves it. */
  lemma {:induction false} ChainIsDetectorThenRecogniser(u: Setup, payloads: seq<Payload>)
    ensures var flow := PacketByPacket(Stages(u), Start(), Pushed(u, payloads));
      var v := VadRun(u, payloads);
      && flow[2] == Out(OfVad(Counted(v.state, |payloads|)), v.packets, v.events)
      && flow[3] == Out(OfAsr(Counted(AsrRun(u, v.packets).state, |v.packets|)), AsrRun(u, v.packets).packets,
          AsrRun(u, v.packets).events)
      && States(flow)[2] == OfVad(Counted(v.state, |payloads|))
      && States(flow)[3] == OfAsr(Counted(AsrRun(u, v.packets).state, |v.packets|))
  {
    var packets := Pushed(u, payloads);
    ChainIsStreamComposition(Stages(u), Start(), packets);
    StageByStage(u, packets);
  }

  lemma {:induction false} StageByStage(u: Setup, packets: seq<Packet>)
    ensures var flow := Through(Stages(u), Start(), packets);
      var v := Run(u.p, INITIAL, Met(packets, MeetVad, u.vadEnv, 0));
      && flow[2] == Out(OfVad(Counted(v.state, |packets|)), v.packets, v.events)
      && flow[3] == Out(OfAsr(Counted(AsrRun(u, v.packets).state, |v.packets|)), AsrRun(u, v.packets).packets,
          AsrRun(u, v.packets).events)
  {
    var v := Run(u.p, INITIAL, Met(packets, MeetVad, u.vadEnv, 0));
    DenoisePasses(OfDenoise, packets);
    RecorderPasses(OfRecorder(0), packets);
    VadAlone(u, packets);
    AsrAlone(u, v.packets);
    var s3, t3 := Stages(u)[3..], Start()[3..];
    assert Through(s3, t3, v.packets)[0] == Drain(OnAsr(AsrInner(u)), OfAsr(Counted(FRESH, 0)), v.packets);
    var s2, t2 := Stages(u)[2..], Start()[2..];
    assert s2[1..] == s3 && t2[1..] == t3;
    var s1, t1 := Stages(u)[1..], Start()[1..];
    assert s1[1..] == s2 && t1[1..] == t2;
    assert Through(s2, t2, packets)[0] == Drain(OnVad(VadInner(u)), OfVad(Counted(INITIAL, 0)), packets);
    assert Through(s2, t2, packets)[1] == Through(s3, t3, v.packets)[0];
    assert Through(s1, t1, packets)[1..] == Through(s2, t2, packets);
    assert Through(Stages(u), Start(), packets)[1..] == Through(s1, t1, packets);
  }

  // ----- the events of the chain

  /** What the pushes return to their callers, one after another. */
  function Returned(u: Setup, packets: seq<Packet>): seq<Event> {
    if packets == [] then []
    else
      var front := packets[..|packets| - 1];
      var states := States(PacketByPacket(Stages(u), Start(), front));
      Returned(u, front) + Reports(Through(Stages(u), states, [packets[|packets| - 1]]))
  }

  lemma {:induction false} ReportsFront<S, P, E>(flow: Flow<S, P, E>)
    requires flow != []
    ensures Reports(flow) == flow[0].events + Reports(flow[1..])
  {}

  lemma {:induction false} FourReports<S, P, E>(flow: Flow<S, P, E>)
    requires |flow| == 4 && flow[0].events == [] && flow[1].events == []
    ensures Reports(flow) == flow[2].events + flow[3].events
  {
    ReportsFront(flow);
    ReportsFront(flow[1..]);
    ReportsFront(flow[2..]);
    ReportsFront(flow[3..]);
    assert flow[1..][1..] == flow[2..] && flow[2..][1..] == flow[3..] && flow[3..][1..] == [];
    assert flow[3].events + [] == flow[3].events;
  }

  lemma {:induction false} RecorderIsQuiet(s: StageState, packets: seq<Packet>)
    ensures Drain(Recorder(), s, packets).events == []
    decreases |packets|
  {
    if packets != [] { RecorderIsQuiet(s, packets[..|packets| - 1]); }
  }

  lemma {:induction false} FirstStagesQuiet(u: Setup, states: seq<StageState>, packets: seq<Packet>)
    requires |states| == 4
    ensures var flow := Through(Stages(u), states, packets); flow[0].events == [] && flow[1].events == []
  {
    DenoisePasses(states[0], packets);
    RecorderIsQuiet(states[1], packets);
    assert Through(Stages(u)[1..], states[1..], packets)[0] == Drain(Recorder(), states[1], packets);
  }

  /** One push returns the detector's events and then the recogniser's. */
  lemma {:induction false} PushReports(u: Setup, states: seq<StageState>, packet: Packet)
    requires |states| == 4
    ensures var flow := Through(Stages(u), states, [packet]); Reports(flow) == flow[2].events + flow[3].events
  {
    FirstStagesQuiet(u, states, [packet]);
    FourReports(Through(Stages(u), states, [packet]));
  }

  lemma {:induction false} ReturnedSplit(u: Setup, packets: seq<Packet>)
    ensures var flow := PacketByPacket(Stages(u), Start(), packets);
      multiset(Returned(u, packets)) == multiset(flow[2].events) + multiset(flow[3].events)
    decreases |packets|
  {
    if packets != [] {
      var front, last := packets[..|packets| - 1], packets[|packets| - 1];
      ReturnedSplit(u, front);
      PushReports(u, States(PacketByPacket(Stages(u), Start(), front)), last);
    }
  }

  /** Together the pushes return every event of the detector's run and every event of the recogniser's, each exactly
      once, and no other; those of the recogniser are the errors its calls meet, in segments unless the detector is
      passed through. */
  lemma {:induction false} EventsReturnedOnce(u: Setup, payloads: seq<Payload>)
    ensures var v := VadRun(u, payloads);
      var fed := Met(v.packets, MeetAsr, u.asrEnv, 0);
      multiset(Returned(u, Pushed(u, payloads)))
      == multiset(v.events) + multiset(AsrReports.Failures(u.trackID, u.p.mode != Passthrough, false, fed))
  {
    var v := VadRun(u, payloads);
    ReturnedSplit(u, Pushed(u, payloads));
    ChainIsDetectorThenRecogniser(u, payloads);
    AsrReports.ErrorsReported(u.trackID, Segmented(u), FRESH, Met(v.packets, MeetAsr, u.asrEnv, 0));
  }

  // ----- one recogniser session per speech segment

  ghost predicate ProviderWilling(u: Setup) {
    forall n: nat {:trigger u.asrEnv(n)} :: u.asrEnv(n).newSession.None?
  }

  /** While NewSession succeeds: one session per segment the detector opened, in order. The k-th is offered
      exactly the audio packets of the k-th segment; each is closed once at its segment's end, and the last is
      open iff a segment is. The detector's events are three for each closed segment and one for an open one. */
  lemma {:induction false} SessionPerSegment(u: Setup, payloads: seq<Payload>)
    requires VadInvariant.Detecting(u.p) && ProviderWilling(u)
    ensures var v := VadRun(u, payloads);
      var s := AsrRun(u, v.packets).state;
      var closed := ClosedGroups(v.packets);
      var open := VadInvariant.Open(v.state);
      && |s.sessions| == |closed| + (if open then 1 else 0)
      && (forall k :: 0 <= k < |closed| ==> s.sessions[k] == SessionLog(closed[k], 1) && closed[k] != [])
      && (open ==> s.sessions[|closed|] == SessionLog(OpenGroup(v.packets), 0) && s.current == Some(|closed|))
      && (!open ==> s.current.None?)
      && |v.events| == 3 * |closed| + (if open then 1 else 0)
  {
    var v := VadRun(u, payloads);
    SegmentGroups(u, payloads);
    var fed := Met(v.packets, MeetAsr, u.asrEnv, 0);
    assert PacketsOf(fed) == v.packets;
    SessionPerGroup(u.trackID, fed);
    FinishedNonEmpty(ClosedGroups(v.packets));
  }

  /** The detector's packets: no empty audio, no empty group, an open group iff a segment is open, and the events
      that go with them. */
  lemma {:induction false} SegmentGroups(u: Setup, payloads: seq<Payload>)
    requires VadInvariant.Detecting(u.p)
    ensures var v := VadRun(u, payloads);
      var open := VadInvariant.Open(v.state);
      && VadRuns.NoEmptyAudio(v.packets)
      && (forall k :: 0 <= k < |ClosedGroups(v.packets)| ==> ClosedGroups(v.packets)[k] != [])
      && (OpenGroup(v.packets) != [] <==> open)
      && |v.events| == 3 * |ClosedGroups(v.packets)| + if open then 1 else 0
  {
    var frames := Frames(u, payloads);
    var v := VadRun(u, payloads);
    VadInvariant.DetectorConforms(u.p);
    VadRuns.PacketTraceGrammar(u.p, Detector(u.p), frames);
    VadRuns.EventsCountSegments(u.p, Detector(u.p), frames);
    VadRuns.EmittedNonEmpty(u.p, Detector(u.p), frames);
    VadRuns.GrammarGroups(v.packets, VadInvariant.Open(v.state));
  }

  lemma {:induction false} FinishedNonEmpty(groups: seq<seq<Payload>>)
    requires forall k :: 0 <= k < |groups| ==> groups[k] != []
    ensures |Finished(groups)| == |groups|
    ensures forall k :: 0 <= k < |groups| ==> Finished(groups)[k] == SessionLog(groups[k], 1)
    decreases |groups|
  {
    if groups != [] { FinishedNonEmpty(groups[..|groups| - 1]); }
  }
}
