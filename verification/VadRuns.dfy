/** Whole runs of the detector: event and packet grammar, order, losslessness, accounting, the cap. */
module VadRuns {
  import opened Media
  import opened Streams
  import opened Subsequences
  import opened Windows
  import opened VadModel
  import opened VadInvariant

  type VadStep = Step<VadState, Frame, Packet, Event>

  /** The run up to, and the step at, the last frame. */
  function Before(step: VadStep, frames: seq<Frame>): VadOut
    requires frames != []
  {
    Drain(step, INITIAL, frames[..|frames| - 1])
  }

  function Last(step: VadStep, frames: seq<Frame>): VadOut
    requires frames != []
  {
    step(Before(step, frames).state, frames[|frames| - 1])
  }

  lemma {:induction false} RunKeepsInv(p: Params, step: VadStep, frames: seq<Frame>)
    requires ValidParams(p) && Conforms(p, step) && AudioFrames(frames)
    ensures Inv(p, Drain(step, INITIAL, frames).state)
    decreases |frames|
  {
    if frames != [] { RunKeepsInv(p, step, frames[..|frames| - 1]); }
  }

  lemma {:induction false} LastStep(p: Params, step: VadStep, frames: seq<Frame>)
    requires ValidParams(p) && Conforms(p, step) && AudioFrames(frames) && frames != []
    ensures var before, o := Before(step, frames), Last(step, frames);
      && Drain(step, INITIAL, frames) == Out(o.state, before.packets + o.packets, before.events + o.events)
      && Inv(p, before.state) && Inv(p, o.state)
      && StepShape(p, before.state, frames[|frames| - 1], o)
  {
    RunKeepsInv(p, step, frames[..|frames| - 1]);
  }

  // ----- the event trace is a prefix of (speaking silence eou)*

  predicate Cyclic(events: seq<Event>) {
    forall i :: 0 <= i < |events| ==>
      if i % 3 == 0 then events[i].Speaking? else if i % 3 == 1 then events[i].Silence? else events[i].Eou?
  }

  /** The packet trace is (audio+ end)* audio*, and it has audio behind its last end mark iff a segment is open. */
  predicate PacketGrammar(packets: seq<Packet>, open: bool) {
    && (forall i :: 0 <= i < |packets| && packets[i].IsSegmentEnd() ==> i > 0 && !packets[i - 1].IsSegmentEnd())
    && (open <==> packets != [] && !packets[|packets| - 1].IsSegmentEnd())
  }

  /** What the shapes say about end marks and events alone. */
  ghost predicate Marks(s: VadState, o: VadOut) {
    && (forall i :: 0 <= i < |o.packets| - 1 ==> !o.packets[i].IsSegmentEnd())
    && (o.packets == [] ==> Open(s) == Open(o.state))
    && (o.packets != [] && !o.packets[|o.packets| - 1].IsSegmentEnd() ==> Open(o.state))
    && (o.packets != [] && o.packets[|o.packets| - 1].IsSegmentEnd() ==>
          |o.packets| > 1 && |o.events| == 2 && Open(s) && !Open(o.state))
    && (o.events == [] || (|o.events| == 1 && o.events[0].Speaking?)
        || (|o.events| == 2 && o.events[0].Silence? && o.events[1].Eou?))
    && (|o.events| == 2 <==> Open(s) && !Open(o.state))
    && (|o.events| == 1 <==> !Open(s) && Open(o.state))
    && (|o.events| == 2 ==> o.packets != [] && o.packets[|o.packets| - 1].IsSegmentEnd())
  }

  lemma {:induction false} OpenMarks(p: Params, s: VadState, f: Frame, o: VadOut)
    requires Opens(p, s, f, o)
    ensures Marks(s, o)
  {}

  lemma {:induction false} CarryMarks(p: Params, s: VadState, f: Frame, o: VadOut)
    requires Carries(p, s, f, o)
    ensures Marks(s, o)
  {}

  lemma {:induction false} EndMarks(p: Params, s: VadState, f: Frame, o: VadOut, kept: nat)
    requires Ends(p, s, f, o, kept)
    ensures Marks(s, o)
  {
    assert |o.packets| == kept + 1;
  }

  lemma {:induction false} StepMarks(p: Params, s: VadState, f: Frame, o: VadOut)
    requires Inv(p, s) && StepShape(p, s, f, o)
    ensures Marks(s, o)
  {
    if !Measured(p, f) || Waits(p, s, f, o) {
    } else if Opens(p, s, f, o) {
      OpenMarks(p, s, f, o);
    } else if Carries(p, s, f, o) {
      CarryMarks(p, s, f, o);
    } else {
      var kept: nat :| Ends(p, s, f, o, kept);
      EndMarks(p, s, f, o, kept);
    }
  }

  lemma {:induction false} LastMarks(p: Params, step: VadStep, frames: seq<Frame>)
    requires ValidParams(p) && Conforms(p, step) && AudioFrames(frames) && frames != []
    ensures var before, o := Before(step, frames), Last(step, frames);
      && Drain(step, INITIAL, frames) == Out(o.state, before.packets + o.packets, before.events + o.events)
      && Marks(before.state, o)
  {
    LastStep(p, step, frames);
    StepMarks(p, Before(step, frames).state, frames[|frames| - 1], Last(step, frames));
  }

  lemma {:induction false} EventGrammar(p: Params, step: VadStep, frames: seq<Frame>)
    requires ValidParams(p) && Conforms(p, step) && AudioFrames(frames)
    ensures var r := Drain(step, INITIAL, frames);
      Cyclic(r.events) && |r.events| % 3 == if Open(r.state) then 1 else 0
    decreases |frames|
  {
    if frames != [] {
      EventGrammar(p, step, frames[..|frames| - 1]);
      LastMarks(p, step, frames);
    }
  }

  lemma {:induction false} PacketTraceGrammar(p: Params, step: VadStep, frames: seq<Frame>)
    requires ValidParams(p) && Conforms(p, step) && AudioFrames(frames)
    ensures var r := Drain(step, INITIAL, frames); PacketGrammar(r.packets, Open(r.state))
    decreases |frames|
  {
    if frames != [] {
      PacketTraceGrammar(p, step, frames[..|frames| - 1]);
      LastMarks(p, step, frames);
      GrammarExtends(Before(step, frames), Last(step, frames));
    }
  }

  lemma {:induction false} GrammarExtends(before: VadOut, o: VadOut)
    requires PacketGrammar(before.packets, Open(before.state)) && Marks(before.state, o)
    ensures PacketGrammar(before.packets + o.packets, Open(o.state))
  {
    var all := before.packets + o.packets;
    forall i | 0 <= i < |all| && all[i].IsSegmentEnd()
      ensures i > 0 && !all[i - 1].IsSegmentEnd()
    {
      if i >= |before.packets| {
        assert i == |all| - 1;
        assert all[i - 1] == o.packets[|o.packets| - 2];
      }
    }
  }

  /** In every reachable state the next result carries an end mark iff it carries an eou; the mark is its
      last packet and its only one, and it is not its only packet. */
  lemma {:induction false} EndMarkIffEou(p: Params, step: VadStep, frames: seq<Frame>)
    requires ValidParams(p) && Conforms(p, step) && AudioFrames(frames) && frames != []
    ensures var r := Last(step, frames);
      && ((exists i :: 0 <= i < |r.events| && r.events[i].Eou?)
          <==> (exists i :: 0 <= i < |r.packets| && r.packets[i].IsSegmentEnd()))
      && (forall i :: 0 <= i < |r.packets| && r.packets[i].IsSegmentEnd() ==> 0 < i == |r.packets| - 1)
  {
    LastMarks(p, step, frames);
    var r := Last(step, frames);
    if |r.events| == 2 {
      assert r.events[1].Eou? && r.packets[|r.packets| - 1].IsSegmentEnd();
    }
  }

  /** One closed group of packets for each full round of events, and one event more while a segment is open. */
  lemma {:induction false} EventsCountSegments(p: Params, step: VadStep, frames: seq<Frame>)
    requires ValidParams(p) && Conforms(p, step) && AudioFrames(frames)
    ensures var r := Drain(step, INITIAL, frames);
      |r.events| == 3 * |ClosedGroups(r.packets)| + if Open(r.state) then 1 else 0
    decreases |frames|
  {
    if frames != [] {
      EventsCountSegments(p, step, frames[..|frames| - 1]);
      LastMarks(p, step, frames);
      var before, o := Before(step, frames), Last(step, frames);
      GroupsStep(before.packets, o.packets);
    }
  }

  /** Packets with at most a final end mark close as many groups as they have end marks. */
  lemma {:induction false} GroupsStep(packets: seq<Packet>, more: seq<Packet>)
    requires forall i :: 0 <= i < |more| - 1 ==> !more[i].IsSegmentEnd()
    ensures var marked := more != [] && more[|more| - 1].IsSegmentEnd();
      |ClosedGroups(packets + more)| == |ClosedGroups(packets)| + if marked then 1 else 0
  {
    if more != [] && more[|more| - 1].IsSegmentEnd() {
      var front := more[..|more| - 1];
      assert front + [more[|more| - 1]] == more;
      GroupsClose(packets, front, more[|more| - 1]);
    } else {
      GroupsExtend(packets, more);
    }
  }

  /** In a stream of the packet grammar no group is empty. */
  lemma {:induction false} GrammarGroups(packets: seq<Packet>, open: bool)
    requires PacketGrammar(packets, open)
    ensures forall k :: 0 <= k < |ClosedGroups(packets)| ==> ClosedGroups(packets)[k] != []
    ensures OpenGroup(packets) != [] <==> open
    decreases |packets|
  {
    if packets != [] {
      var front := packets[..|packets| - 1];
      GrammarGroups(front, front != [] && !front[|front| - 1].IsSegmentEnd());
    }
  }

  predicate NoEmptyAudio(packets: seq<Packet>) {
    forall i :: 0 <= i < |packets| ==> packets[i].IsSegmentEnd() || packets[i].data != []
  }

  /** No audio packet handed on is empty. */
  lemma {:induction false} EmittedNonEmpty(p: Params, step: VadStep, frames: seq<Frame>)
    requires ValidParams(p) && Conforms(p, step) && AudioFrames(frames)
    ensures NoEmptyAudio(Drain(step, INITIAL, frames).packets)
    decreases |frames|
  {
    if frames != [] {
      EmittedNonEmpty(p, step, frames[..|frames| - 1]);
      LastStep(p, step, frames);
      StepNonEmpty(p, Before(step, frames).state, frames[|frames| - 1], Last(step, frames));
    }
  }

  lemma {:induction false} StepNonEmpty(p: Params, s: VadState, f: Frame, o: VadOut)
    requires ValidParams(p) && Inv(p, s) && StepShape(p, s, f, o)
    ensures NoEmptyAudio(o.packets)
  {
    if Measured(p, f) {
      if Opens(p, s, f, o) {
        PushedFacts(p, s.startBuffer, f, p.startWindowMs);
        PackedNonEmpty(p, f.packet.trackID, s.preRoll + Started(p, s, f));
      } else if Carries(p, s, f, o) {
        PackedNonEmpty(p, f.packet.trackID, s.tailBuffer + [Chunk(p, f)]);
      } else if !Waits(p, s, f, o) {
        var kept: nat :| Ends(p, s, f, o, kept);
        EndNonEmpty(p, s, f, o, kept);
      }
    }
  }

  lemma {:induction false} EndNonEmpty(p: Params, s: VadState, f: Frame, o: VadOut, kept: nat)
    requires Chunks(p, s.tailBuffer) && Measured(p, f) && Ends(p, s, f, o, kept)
    ensures NoEmptyAudio(o.packets)
  {
    PackedNonEmpty(p, f.packet.trackID, (s.tailBuffer + [Chunk(p, f)])[..kept]);
  }

  lemma {:induction false} PackedNonEmpty(p: Params, trackID: string, w: Audio)
    requires Chunks(p, w)
    ensures NoEmptyAudio(Packed(trackID, w))
  {
  }

  // ----- order

  function Payloads(frames: seq<Frame>): (data: seq<Payload>)
    ensures |data| == |frames|
  {
    seq(|frames|, i requires 0 <= i < |frames| => frames[i].packet.data)
  }

  /** What was handed on, followed by what is still held back, is the input with frames left out:
      no payload is altered, reordered or repeated. */
  lemma {:induction false} EmittedInOrder(p: Params, step: VadStep, frames: seq<Frame>)
    requires ValidParams(p) && Conforms(p, step) && AudioFrames(frames)
    ensures var r := Drain(step, INITIAL, frames);
      Subsequence(AudioData(r.packets) + Items(Pending(r.state)), Payloads(frames))
    decreases |frames|
  {
    if frames == [] {
      SubsequenceOfItself(Payloads(frames));
    } else {
      var front := frames[..|frames| - 1];
      var f := frames[|frames| - 1];
      EmittedInOrder(p, step, front);
      var before, o := Before(step, frames), Last(step, frames);
      LastInOrder(p, step, frames);
      OrderExtends(before, o, Payloads(front), f.packet.data);
      assert Payloads(frames) == Payloads(front) + [f.packet.data];
    }
  }

  lemma {:induction false} OrderExtends(before: VadOut, o: VadOut, input: seq<Payload>, data: Payload)
    requires Subsequence(AudioData(before.packets) + Items(Pending(before.state)), input)
    requires Subsequence(AudioData(o.packets) + Items(Pending(o.state)), Items(Pending(before.state)) + [data])
    ensures Subsequence(AudioData(before.packets + o.packets) + Items(Pending(o.state)), input + [data])
  {
    var next := AudioData(o.packets) + Items(Pending(o.state));
    SubsequenceStep(AudioData(before.packets), next, Items(Pending(before.state)), input, data);
    AudioDataConcat(before.packets, o.packets);
    assert AudioData(before.packets) + next == AudioData(before.packets + o.packets) + Items(Pending(o.state));
  }

  lemma {:induction false} LastInOrder(p: Params, step: VadStep, frames: seq<Frame>)
    requires ValidParams(p) && Conforms(p, step) && AudioFrames(frames) && frames != []
    ensures var before, o := Before(step, frames), Last(step, frames);
      && Drain(step, INITIAL, frames) == Out(o.state, before.packets + o.packets, before.events + o.events)
      && Subsequence(AudioData(o.packets) + Items(Pending(o.state)),
                     Items(Pending(before.state)) + [frames[|frames| - 1].packet.data])
  {
    LastStep(p, step, frames);
    StepInOrder(p, Before(step, frames).state, frames[|frames| - 1], Last(step, frames));
  }

  lemma {:induction false} SubsequenceStep<T>(done: seq<T>, next: seq<T>, held: seq<T>, input: seq<T>, t: T)
    requires Subsequence(done + held, input) && Subsequence(next, held + [t])
    ensures Subsequence(done + next, input + [t])
  {
    SubsequenceBehind(done, next, held, t);
    SubsequenceOfItself([t]);
    SubsequenceConcat(done + held, input, [t], [t]);
    SubsequenceTransitive(done + next, done + held + [t], input + [t]);
  }

  lemma {:induction false} PackedAudio(trackID: string, w: Audio)
    ensures AudioData(Packed(trackID, w)) == Items(w)
    ensures NoEndMark(Packed(trackID, w))
    decreases |w|
  {
    if w != [] {
      var front := w[..|w| - 1];
      assert Packed(trackID, w)[..|w| - 1] == Packed(trackID, front);
      PackedAudio(trackID, front);
      assert Items(w) == Items(front) + [w[|w| - 1].item];
    }
  }

  lemma {:induction false} EndMarkHasNoAudio(packets: seq<Packet>, trackID: string)
    ensures AudioData(packets + [EndPacket(trackID)]) == AudioData(packets)
  {
    assert (packets + [EndPacket(trackID)])[..|packets|] == packets;
  }

  lemma {:induction false} StepInOrder(p: Params, s: VadState, f: Frame, o: VadOut)
    requires ValidParams(p) && Inv(p, s) && Inv(p, o.state) && StepShape(p, s, f, o)
    ensures Subsequence(AudioData(o.packets) + Items(Pending(o.state)), Items(Pending(s)) + [f.packet.data])
  {
    var held := Items(Pending(s));
    if !Measured(p, f) {
      PrefixIsSubsequence(held + [f.packet.data], |held|);
      assert (held + [f.packet.data])[..|held|] == held;
      assert AudioData(o.packets) + Items(Pending(o.state)) == held;
    } else if Waits(p, s, f, o) {
      assert AudioData(o.packets) + Items(Pending(o.state)) == Items(Pending(o.state));
    } else if Opens(p, s, f, o) {
      OpeningInOrder(p, s, f, o);
    } else {
      OpenStepInOrder(p, s, f, o);
    }
  }

  lemma {:induction false} OpeningInOrder(p: Params, s: VadState, f: Frame, o: VadOut)
    requires ValidParams(p) && Inv(p, s) && Inv(p, o.state) && Measured(p, f) && Opens(p, s, f, o)
    ensures Subsequence(AudioData(o.packets) + Items(Pending(o.state)), Items(Pending(s)) + [f.packet.data])
  {
    PushedFacts(p, s.startBuffer, f, p.startWindowMs);
    PreRollStays(s.preRoll, s.startBuffer, Started(p, s, f), f.packet.data);
    PackedAudio(f.packet.trackID, s.preRoll + Started(p, s, f));
    assert Pending(o.state) == [];
    assert Pending(s) == s.preRoll + s.startBuffer;
    assert AudioData(o.packets) + Items(Pending(o.state)) == Items(s.preRoll + Started(p, s, f));
  }

  lemma {:induction false} OpenStepInOrder(p: Params, s: VadState, f: Frame, o: VadOut)
    requires Inv(p, s) && Inv(p, o.state) && Measured(p, f)
    requires Carries(p, s, f, o) || exists kept :: Ends(p, s, f, o, kept)
    ensures Subsequence(AudioData(o.packets) + Items(Pending(o.state)), Items(Pending(s)) + [f.packet.data])
  {
    if Carries(p, s, f, o) {
      CarryInOrder(p, s, f, o);
    } else {
      var kept: nat :| Ends(p, s, f, o, kept);
      EndInOrder(p, s, f, o, kept);
    }
  }

  lemma {:induction false} CarryInOrder(p: Params, s: VadState, f: Frame, o: VadOut)
    requires Inv(p, s) && Inv(p, o.state) && Carries(p, s, f, o)
    ensures Subsequence(AudioData(o.packets) + Items(Pending(o.state)), Items(Pending(s)) + [f.packet.data])
  {
    CarryHolds(p, s, f, o);
    assert Pending(s) == s.tailBuffer;
    assert Pending(o.state) == o.state.tailBuffer;
    SubsequenceOfItself(Items(s.tailBuffer) + [f.packet.data]);
  }

  /** What a carrying step hands on and keeps is what was held and the frame. */
  lemma {:induction false} CarryHolds(p: Params, s: VadState, f: Frame, o: VadOut)
    requires Carries(p, s, f, o) && (o.state.phase != CandidateEnd ==> o.state.tailBuffer == [])
    ensures NoEndMark(o.packets)
    ensures AudioData(o.packets) + Items(o.state.tailBuffer) == Items(s.tailBuffer) + [f.packet.data]
    ensures AudioData(o.packets) == if o.state.phase == CandidateEnd then [] else Items(s.tailBuffer + [Chunk(p, f)])
  {
    var tail := s.tailBuffer + [Chunk(p, f)];
    ItemsConcat(s.tailBuffer, [Chunk(p, f)]);
    assert Items([Chunk(p, f)]) == [f.packet.data];
    PackedAudio(f.packet.trackID, tail);
    if o.state.phase == CandidateEnd {
      assert [] + Items(o.state.tailBuffer) == Items(tail);
    } else {
      assert Items(tail) + [] == Items(tail);
    }
  }

  lemma {:induction false} EndInOrder(p: Params, s: VadState, f: Frame, o: VadOut, kept: nat)
    requires Inv(p, s) && Ends(p, s, f, o, kept)
    ensures Subsequence(AudioData(o.packets) + Items(Pending(o.state)), Items(Pending(s)) + [f.packet.data])
  {
    assert Pending(s) == s.tailBuffer;
    var all := Items(s.tailBuffer) + [f.packet.data];
    EndAudio(p, s, f, o, kept);
    PrefixIsSubsequence(all, kept);
    assert all[..kept] + [] == all[..kept];
  }

  lemma {:induction false} EndAudio(p: Params, s: VadState, f: Frame, o: VadOut, kept: nat)
    requires Ends(p, s, f, o, kept)
    ensures AudioData(o.packets) == (Items(s.tailBuffer) + [f.packet.data])[..kept]
    ensures NoEndMark(o.packets[..|o.packets| - 1])
    ensures AudioData(o.packets[..|o.packets| - 1]) == AudioData(o.packets)
  {
    var out := (s.tailBuffer + [Chunk(p, f)])[..kept];
    PackedAudio(f.packet.trackID, out);
    EndMarkHasNoAudio(Packed(f.packet.trackID, out), f.packet.trackID);
    assert o.packets[..|o.packets| - 1] == Packed(f.packet.trackID, out);
    assert Items(out) == (Items(s.tailBuffer) + [f.packet.data])[..kept];
  }

  /** In particular the emitted audio is the input with frames left out. */
  lemma {:induction false} EmittedIsSubsequenceOfInput(p: Params, step: VadStep, frames: seq<Frame>)
    requires ValidParams(p) && Conforms(p, step) && AudioFrames(frames)
    ensures Subsequence(AudioData(Drain(step, INITIAL, frames).packets), Payloads(frames))
  {
    EmittedInOrder(p, step, frames);
    var r := Drain(step, INITIAL, frames);
    var all := AudioData(r.packets) + Items(Pending(r.state));
    PrefixIsSubsequence(all, |AudioData(r.packets)|);
    assert all[..|AudioData(r.packets)|] == AudioData(r.packets);
    SubsequenceTransitive(AudioData(r.packets), all, Payloads(frames));
  }

  // ----- losslessness and accounting inside a segment

  /** What an observer writes down about the open segment: the pre-roll it opened with, the audio handed
      on since, the audio that is due (the start buffer at confirmation and every measured frame since), and
      when the segment began: the confirming clock less the start buffer, or the clock if that is negative. */
  datatype Ledger = Ledger(lead: seq<Payload>, body: seq<Payload>, due: seq<Payload>, beganAt: int)

  const BLANK := Ledger([], [], [], 0)

  function Observe(p: Params, l: Ledger, s: VadState, f: Frame, o: VadOut): Ledger {
    if !Open(o.state) then BLANK
    else if !Open(s) then
      var out := AudioData(o.packets);
      var began := f.now - Total(Started(p, s, f));
      Ledger(Items(s.preRoll), if |s.preRoll| <= |out| then out[|s.preRoll|..] else [], Items(Started(p, s, f)),
             if began < 0 then f.now else began)
    else
      Ledger(l.lead, l.body + AudioData(o.packets), if Measured(p, f) then l.due + [f.packet.data] else l.due,
             l.beganAt)
  }

  function Observed(p: Params, step: VadStep, frames: seq<Frame>): Ledger {
    if frames == [] then BLANK
    else Observe(p, Observed(p, step, frames[..|frames| - 1]), Before(step, frames).state, frames[|frames| - 1],
        Last(step, frames))
  }

  function DurationOf(p: Params, data: seq<Payload>): int {
    if data == [] then 0 else DurationOf(p, data[..|data| - 1]) + PcmDurationMs(data[|data| - 1], p.sampleRate)
  }

  lemma {:induction false} DurationConcat(p: Params, a: seq<Payload>, b: seq<Payload>)
    ensures DurationOf(p, a + b) == DurationOf(p, a) + DurationOf(p, b)
    decreases |b|
  {
    if b == [] {
      assert a + b == a;
    } else {
      assert (a + b)[..|a + b| - 1] == a + b[..|b| - 1];
      DurationConcat(p, a, b[..|b| - 1]);
    }
  }

  lemma {:induction false} DurationOfChunks(p: Params, w: Audio)
    requires Chunks(p, w)
    ensures DurationOf(p, Items(w)) == Total(w)
    decreases |w|
  {
    if w != [] {
      var front := w[..|w| - 1];
      DurationOfChunks(p, front);
      assert Items(w)[..|w| - 1] == Items(front);
      TotalConcat(front, w[|w| - 1..]);
      assert front + w[|w| - 1..] == w;
      assert Total(w[|w| - 1..]) == w[|w| - 1].ms by { assert w[|w| - 1..][1..] == []; }
    }
  }

  ghost predicate Balanced(p: Params, l: Ledger, r: VadOut) {
    if Open(r.state) then
      && OpenGroup(r.packets) == l.lead + l.body
      && l.body + Items(r.state.tailBuffer) == l.due
      && r.state.segmentDurationMs == DurationOf(p, l.body)
      && r.state.segmentStartMs == l.beganAt
    else
      && OpenGroup(r.packets) == []
      && r.state.segmentDurationMs == 0
  }

  /** While a segment is open, the audio since the last end mark is the pre-roll and then the body; the body
      and the tail together are exactly the audio that is due; and the segment duration counts the body. */
  lemma {:induction false} LedgerBalances(p: Params, step: VadStep, frames: seq<Frame>)
    requires ValidParams(p) && Conforms(p, step) && AudioFrames(frames)
    ensures Balanced(p, Observed(p, step, frames), Drain(step, INITIAL, frames))
    decreases |frames|
  {
    if frames != [] {
      LedgerBalances(p, step, frames[..|frames| - 1]);
      LastStep(p, step, frames);
      BalanceStep(p, Observed(p, step, frames[..|frames| - 1]), Before(step, frames), frames[|frames| - 1],
          Last(step, frames));
    }
  }

  lemma {:induction false} QuietBalance(p: Params, l: Ledger, before: VadOut, f: Frame, o: VadOut)
    requires Inv(p, o.state) && Balanced(p, l, before)
    requires if Measured(p, f) then Waits(p, before.state, f, o) else o == Out(before.state, [], [])
    ensures Balanced(p, Observe(p, l, before.state, f, o), Out(o.state, before.packets + o.packets, []))
  {
    assert before.packets + o.packets == before.packets;
    assert l.body + AudioData([]) == l.body;
  }

  lemma {:induction false} EndingBalance(p: Params, l: Ledger, before: VadOut, f: Frame, o: VadOut, kept: nat)
    requires Inv(p, o.state) && Ends(p, before.state, f, o, kept)
    ensures Balanced(p, Observe(p, l, before.state, f, o), Out(o.state, before.packets + o.packets, []))
  {
    EndAudio(p, before.state, f, o, kept);
    var front := o.packets[..|o.packets| - 1];
    assert o.packets == front + [o.packets[|o.packets| - 1]];
    GroupsClose(before.packets, front, o.packets[|o.packets| - 1]);
  }

  lemma {:induction false} BalanceStep(p: Params, l: Ledger, before: VadOut, f: Frame, o: VadOut)
    requires ValidParams(p) && Inv(p, before.state) && Inv(p, o.state) && StepShape(p, before.state, f, o)
    requires Balanced(p, l, before)
    ensures Balanced(p, Observe(p, l, before.state, f, o), Out(o.state, before.packets + o.packets, []))
  {
    var s := before.state;
    if !Measured(p, f) || Waits(p, s, f, o) {
      QuietBalance(p, l, before, f, o);
    } else if Opens(p, s, f, o) {
      OpeningBalance(p, l, before, f, o);
    } else if Carries(p, s, f, o) {
      CarryingBalance(p, l, before, f, o);
    } else {
      var kept: nat :| Ends(p, s, f, o, kept);
      EndingBalance(p, l, before, f, o, kept);
    }
  }

  lemma {:induction false} OpeningBalance(p: Params, l: Ledger, before: VadOut, f: Frame, o: VadOut)
    requires ValidParams(p) && Inv(p, before.state) && Inv(p, o.state) && Measured(p, f)
    requires Opens(p, before.state, f, o) && Balanced(p, l, before)
    ensures Balanced(p, Observe(p, l, before.state, f, o), Out(o.state, before.packets + o.packets, []))
  {
    var s := before.state;
    var started := Started(p, s, f);
    OpeningLedger(p, l, s, f, o);
    PushedFacts(p, s.startBuffer, f, p.startWindowMs);
    OpenedBalance(p, Items(s.preRoll), started, before.packets, o);
  }

  lemma {:induction false} OpenedBalance(p: Params, lead: seq<Payload>, started: Audio, before: seq<Packet>, o: VadOut)
    requires OpenGroup(before) == [] && NoEndMark(o.packets) && AudioData(o.packets) == lead + Items(started)
    requires Open(o.state) && o.state.tailBuffer == [] && Chunks(p, started)
        && o.state.segmentDurationMs == Total(started)
    ensures Balanced(p, Ledger(lead, Items(started), Items(started), o.state.segmentStartMs),
        Out(o.state, before + o.packets, []))
  {
    GroupsExtend(before, o.packets);
    DurationOfChunks(p, started);
    assert [] + AudioData(o.packets) == lead + Items(started);
    assert Items(started) + Items([]) == Items(started);
  }

  lemma {:induction false} OpeningLedger(p: Params, l: Ledger, s: VadState, f: Frame, o: VadOut)
    requires Opens(p, s, f, o)
    ensures var started := Started(p, s, f);
      && NoEndMark(o.packets) && AudioData(o.packets) == Items(s.preRoll) + Items(started)
      && Observe(p, l, s, f, o) == Ledger(Items(s.preRoll), Items(started), Items(started), o.state.segmentStartMs)
  {
    var started := Started(p, s, f);
    PackedAudio(f.packet.trackID, s.preRoll + started);
    ItemsConcat(s.preRoll, started);
    assert (Items(s.preRoll) + Items(started))[|s.preRoll|..] == Items(started);
  }

  lemma {:induction false} CarryingBalance(p: Params, l: Ledger, before: VadOut, f: Frame, o: VadOut)
    requires ValidParams(p) && Inv(p, before.state) && Inv(p, o.state) && Measured(p, f)
    requires Carries(p, before.state, f, o) && Balanced(p, l, before)
    ensures Balanced(p, Observe(p, l, before.state, f, o), Out(o.state, before.packets + o.packets, []))
  {
    var s := before.state;
    var tail := s.tailBuffer + [Chunk(p, f)];
    var out := AudioData(o.packets);
    CarryAudio(p, s, f, o);
    GroupsExtend(before.packets, o.packets);
    DurationConcat(p, l.body, out);
    Rebalance(l.lead, l.body, out, Items(s.tailBuffer), Items(o.state.tailBuffer), l.due, f.packet.data);
  }

  /** A carrying step hands on nothing, or the tail with the frame; either way the frame follows the old tail. */
  lemma {:induction false} CarryAudio(p: Params, s: VadState, f: Frame, o: VadOut)
    requires Inv(p, s) && Inv(p, o.state) && Measured(p, f) && Carries(p, s, f, o)
    ensures NoEndMark(o.packets)
    ensures AudioData(o.packets) + Items(o.state.tailBuffer) == Items(s.tailBuffer) + [f.packet.data]
    ensures o.state.segmentDurationMs == s.segmentDurationMs + DurationOf(p, AudioData(o.packets))
  {
    CarryHolds(p, s, f, o);
    DurationOfChunks(p, s.tailBuffer + [Chunk(p, f)]);
  }

  lemma {:induction false} Rebalance(lead: seq<Payload>, body: seq<Payload>, out: seq<Payload>, tail: seq<Payload>,
          tail': seq<Payload>, due: seq<Payload>, data: Payload)
    requires body + tail == due && out + tail' == tail + [data]
    ensures lead + body + out == lead + (body + out)
    ensures body + out + tail' == due + [data]
  {
    assert body + out + tail' == body + (out + tail');
    assert body + (tail + [data]) == body + tail + [data];
  }

  /** A closed segment is its pre-roll followed by a first part of what was due, at least everything handed on
      before and one frame more; only tail frames are left out. Its eou reports when it began and the clock. */
  lemma {:induction false} ClosedSegment(p: Params, step: VadStep, frames: seq<Frame>) returns (kept: nat)
    requires ValidParams(p) && Conforms(p, step) && AudioFrames(frames) && frames != []
    requires Open(Before(step, frames).state) && !Open(Last(step, frames).state)
    ensures var l := Observed(p, step, frames[..|frames| - 1]);
      var due := l.due + [frames[|frames| - 1].packet.data];
      && |l.body| < kept <= |due|
      && ClosedGroups(Drain(step, INITIAL, frames).packets)
         == ClosedGroups(Before(step, frames).packets) + [l.lead + due[..kept]]
      && var f := frames[|frames| - 1];
      var began := if l.beganAt == 0 then f.now else l.beganAt;
      Last(step, frames).events == [Silence(f.packet.trackID, f.now), Eou(f.packet.trackID, f.now, began, f.now)]
  {
    LedgerBalances(p, step, frames[..|frames| - 1]);
    LastStep(p, step, frames);
    var before, f, o := Before(step, frames), frames[|frames| - 1], Last(step, frames);
    var k: nat :| Ends(p, before.state, f, o, k);
    kept := ClosingBalance(p, Observed(p, step, frames[..|frames| - 1]), before, f, o, k);
  }

  lemma {:induction false} ClosingBalance(p: Params, l: Ledger, before: VadOut, f: Frame, o: VadOut,
          kept: nat) returns (k: nat)
    requires Inv(p, before.state) && Balanced(p, l, before) && Ends(p, before.state, f, o, kept)
    ensures var due := l.due + [f.packet.data];
      && |l.body| < k <= |due|
      && ClosedGroups(before.packets + o.packets) == ClosedGroups(before.packets) + [l.lead + due[..k]]
  {
    EndAudio(p, before.state, f, o, kept);
    var front := o.packets[..|o.packets| - 1];
    assert o.packets == front + [o.packets[|o.packets| - 1]];
    GroupsClose(before.packets, front, o.packets[|o.packets| - 1]);
    k := |l.body| + kept;
    ClosedPart(l.lead, l.body, Items(before.state.tailBuffer), l.due, f.packet.data, kept);
  }

  /** The body and the kept part of the tail are a first part of what is due. */
  lemma {:induction false} ClosedPart(lead: seq<Payload>, body: seq<Payload>, held: seq<Payload>, due: seq<Payload>,
          data: Payload, kept: nat)
    requires body + held == due && kept <= |held| + 1
    ensures |body| + kept <= |due| + 1
    ensures lead + body + (held + [data])[..kept] == lead + (due + [data])[..|body| + kept]
  {
    assert due + [data] == body + (held + [data]);
  }

  /** All of this for the detector itself, whatever the options, the loudness, the scorer's answers and the clock. */
  lemma {:induction false} DetectorTraces(option: VadOption, hasScorer: bool, frames: seq<Frame>)
    requires (option.mode == Some(Energy) || option.mode == Some(Hybrid)) && AudioFrames(frames)
    ensures var p := Derive(option, hasScorer);
      var r := Run(p, INITIAL, frames);
      && Cyclic(r.events) && |r.events| % 3 == (if Open(r.state) then 1 else 0)
      && PacketGrammar(r.packets, Open(r.state))
      && Subsequence(AudioData(r.packets) + Items(Pending(r.state)), Payloads(frames))
      && Balanced(p, Observed(p, Detector(p), frames), r)
  {
    var p := Derive(option, hasScorer);
    DerivedParams(option, hasScorer);
    DetectorConforms(p);
    EventGrammar(p, Detector(p), frames);
    PacketTraceGrammar(p, Detector(p), frames);
    EmittedInOrder(p, Detector(p), frames);
    LedgerBalances(p, Detector(p), frames);
  }
}
