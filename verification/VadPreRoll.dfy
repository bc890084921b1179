/** What a segment opens with: the pre-roll and the start buffer. Frames that the start buffer evicts while the
    detector waits for a start go nowhere, so audio can be missing between the two. */
module VadPreRoll {
  import opened Media
  import opened Streams
  import opened Windows
  import opened VadModel
  import opened VadInvariant
  import opened VadRuns
  import opened Loudness
  import VadCap

  /** From s on, every call leaves the detector waiting in candidate start. */
  predicate Waiting(step: VadStep, s: VadState, frames: seq<Frame>) {
    frames != [] ==>
      Waiting(step, s, frames[..|frames| - 1]) && Drain(step, s, frames).state.phase == CandidateStart
  }

  predicate AllMeasured(p: Params, frames: seq<Frame>) {
    forall i :: 0 <= i < |frames| ==> AudioFrame(frames[i]) && Measured(p, frames[i])
  }

  function ChunksOf(p: Params, frames: seq<Frame>): (w: Audio)
    ensures |w| == |frames|
  {
    seq(|frames|, i requires 0 <= i < |frames| => Chunk(p, frames[i]))
  }

  lemma {:induction false} StartedFits(p: Params, e: VadState, front: seq<Frame>, f: Frame)
    requires p.startWindowMs > 0 && Measured(p, f) && e.startBuffer == Fit(ChunksOf(p, front), p.startWindowMs)
    ensures Started(p, e, f) == Fit(ChunksOf(p, front + [f]), p.startWindowMs)
  {
    assert ChunksOf(p, front + [f]) == ChunksOf(p, front) + [Chunk(p, f)];
    assert Positive([Chunk(p, f)]);
    FitThenFit(ChunksOf(p, front), [Chunk(p, f)], p.startWindowMs);
  }

  /** A call that goes on waiting leaves the pre-roll alone, and the start buffer takes the frame. */
  ghost predicate Gathers(p: Params, step: VadStep) {
    forall s: VadState, f: Frame {:trigger step(s, f)} ::
      AudioFrame(f) && Measured(p, f) && (s.phase == CandidateStart || (s.phase == Idle && s.startBuffer == []))
      && step(s, f).state.phase == CandidateStart
      ==> step(s, f).state.preRoll == s.preRoll && step(s, f).state.startBuffer == Started(p, s, f)
  }

  lemma {:induction false} DetectorGathers(p: Params)
    requires Detecting(p)
    ensures Gathers(p, Detector(p))
  {
    forall s: VadState, f: Frame | AudioFrame(f) && Measured(p, f)
        && (s.phase == CandidateStart || (s.phase == Idle && s.startBuffer == []))
        && Detector(p)(s, f).state.phase == CandidateStart
      ensures Detector(p)(s, f).state.preRoll == s.preRoll && Detector(p)(s, f).state.startBuffer == Started(p, s, f)
    {
      Dispatch(p, s, f.(packet := Resolved(f.packet)));
    }
  }

  /** The start buffer of a candidate phase is the fitted suffix of the phase's frames; the pre-roll is untouched. */
  lemma {:induction false} HeldInPhase(p: Params, step: VadStep, s: VadState, frames: seq<Frame>)
    requires p.startWindowMs > 0 && Gathers(p, step)
    requires s.phase == Idle && s.startBuffer == [] && AllMeasured(p, frames) && Waiting(step, s, frames)
    ensures var e := Drain(step, s, frames).state;
      && e.preRoll == s.preRoll && e.startBuffer == Fit(ChunksOf(p, frames), p.startWindowMs)
      && e.phase == if frames == [] then Idle else CandidateStart
    decreases |frames|
  {
    if frames != [] {
      var front, f := frames[..|frames| - 1], frames[|frames| - 1];
      HeldInPhase(p, step, s, front);
      StartedFits(p, Drain(step, s, front).state, front, f);
      assert front + [f] == frames;
    }
  }

  lemma {:induction false} FitIsAllIff<T>(w: seq<Timed<T>>, limit: int)
    requires limit > 0
    ensures |Fit(w, limit)| == |w| <==> Total(w) <= limit
    ensures |Fit(w, limit)| == |w| ==> Fit(w, limit) == w
  {
    FitIsSuffix(w, limit);
    if Total(w) > limit { FitIsSuffix(w[1..], limit); }
  }

  /** A segment that opens after a candidate phase begins with the pre-roll and a last part of the phase's frames;
      nothing of the phase is missing if and only if its frames together fit the start window. */
  lemma {:induction false} OpensWholeIff(p: Params, s: VadState, frames: seq<Frame>, f: Frame)
    requires Detecting(p) && Inv(p, s) && s.phase == Idle && AllMeasured(p, frames + [f])
        && Waiting(Detector(p), s, frames)
    requires Process(p, Run(p, s, frames).state, f).state.phase == InSpeech
    ensures var phase := ChunksOf(p, frames + [f]);
      var audio := AudioData(Process(p, Run(p, s, frames).state, f).result.packets);
      && audio == Items(s.preRoll) + Items(Fit(phase, p.startWindowMs))
      && (audio == Items(s.preRoll) + Items(phase) <==> Total(phase) <= p.startWindowMs)
  {
    assert AllMeasured(p, frames) by { assert forall i :: 0 <= i < |frames| ==> frames[i] == (frames + [f])[i]; }
    assert AudioFrame((frames + [f])[|frames|]) && Measured(p, (frames + [f])[|frames|]);
    DetectorGathers(p);
    HeldInPhase(p, Detector(p), s, frames);
    DetectorKeepsInv(p, s, frames);
    var e := Run(p, s, frames).state;
    StartedFits(p, e, frames, f);
    OpeningAudio(p, e, f);
    FitIsAllIff(ChunksOf(p, frames + [f]), p.startWindowMs);
  }

  lemma {:induction false} OpeningAudio(p: Params, s: VadState, f: Frame)
    requires Detecting(p) && Inv(p, s) && !Open(s) && AudioFrame(f) && Measured(p, f)
    requires Process(p, s, f).state.phase == InSpeech
    ensures AudioData(Process(p, s, f).result.packets) == Items(s.preRoll) + Items(Started(p, s, f))
  {
    StepFacts(p, s, f);
    PackedAudio(f.packet.trackID, s.preRoll + Started(p, s, f));
    ItemsConcat(s.preRoll, Started(p, s, f));
  }

  lemma {:induction false} DetectorKeepsInv(p: Params, s: VadState, frames: seq<Frame>)
    requires Detecting(p) && Inv(p, s) && AllMeasured(p, frames)
    ensures Inv(p, Run(p, s, frames).state)
    decreases |frames|
  {
    if frames != [] {
      var front := frames[..|frames| - 1];
      DetectorKeepsInv(p, s, front);
      StepFacts(p, Run(p, s, front).state, frames[|front|]);
    }
  }

  // ----- what the pre-roll holds

  /** What the pre-roll has been offered since the last segment, after one more step: a measured frame that leaves
      the detector idle, and what the start buffer still held when a candidate phase is given up. */
  function OfferedAfter(p: Params, offered: Audio, s: VadState, f: Frame, s': VadState): Audio {
    if !Measured(p, f) then offered
    else if Open(s) || Open(s') then []
    else if s'.phase == CandidateStart then offered
    else if s.phase == Idle then offered + [Chunk(p, f)]
    else offered + Started(p, s, f)
  }

  function Offered(p: Params, step: VadStep, frames: seq<Frame>): Audio {
    if frames == [] then []
    else
      var front := frames[..|frames| - 1];
      OfferedAfter(p, Offered(p, step, front), Before(step, frames).state, frames[|front|], Last(step, frames).state)
  }

  /** The pre-roll that one step without an open segment leaves. */
  lemma {:induction false} PreRollStep(p: Params, s: VadState, f: Frame)
    requires Detecting(p) && Inv(p, s) && !Open(s) && AudioFrame(f) && Measured(p, f)
    ensures var s' := Process(p, s, f).state;
      !Open(s') ==>
        s'.preRoll == if s'.phase == CandidateStart then s.preRoll
                      else if s.phase == Idle then Fit(s.preRoll + [Chunk(p, f)], p.preRollMs)
                      else Fit(s.preRoll + Started(p, s, f), p.preRollMs)
  {
    var g := f.(packet := Resolved(f.packet));
    Dispatch(p, s, g);
    PushedFacts(p, s.startBuffer, g, p.startWindowMs);
    ChunksPositive(p, Started(p, s, g));
    FitsAlready(s.preRoll, p.preRollMs);
    PushAllKeepsLongestSuffix(s.preRoll, Started(p, s, g), p.preRollMs);
    if s.phase == Idle {
      IdlePreRoll(p, s, g);
    } else {
      DecisionPreRoll(p, StartHeard(p, s, g, Chunk(p, g).ms), g);
    }
  }

  lemma {:induction false} FitsAlready<T>(w: seq<Timed<T>>, limit: int)
    requires Total(w) <= limit
    ensures Fit(w, limit) == w
  {
  }

  lemma {:induction false} DecisionPreRoll(p: Params, s: VadState, f: Frame)
    requires s.phase == CandidateStart
    ensures var s' := MaybeConfirmStart(p, s, f).state;
      || s'.phase == InSpeech
      || (s'.phase == CandidateStart && s'.preRoll == s.preRoll)
      || (s'.phase == Idle && s'.preRoll == PushAll(s.preRoll, s.startBuffer, p.preRollMs)
          && Total(s.startBuffer) >= p.startWindowMs)
  {
  }

  lemma {:induction false} IdlePreRoll(p: Params, s: VadState, f: Frame)
    requires Detecting(p) && Inv(p, s) && s.phase == Idle && Measured(p, f)
    requires PushAll(s.preRoll, Started(p, s, f), p.preRollMs) == Fit(s.preRoll + Started(p, s, f), p.preRollMs)
    ensures var s' := ProcessIdle(p, s, f, Chunk(p, f).ms).state;
      || s'.phase == InSpeech
      || (s'.phase == CandidateStart && s'.preRoll == s.preRoll)
      || (s'.phase == Idle && s'.preRoll == Fit(s.preRoll + [Chunk(p, f)], p.preRollMs))
  {
    if EnterHit(p, s, f.rms) {
      var s' := s.(phase := CandidateStart,
                   startBuffer := Pushed([], f.packet.data, Chunk(p, f).ms, p.startWindowMs),
                   startActivity := Pushed([], true, Chunk(p, f).ms, p.startWindowMs));
      DecisionPreRoll(p, s', f);
      assert [] + [Chunk(p, f)] == [Chunk(p, f)];
      FitIsSuffix([Chunk(p, f)], p.startWindowMs);
    }
  }

  lemma {:induction false} OfferedFits(p: Params, offered: Audio, more: Audio, preRoll: Audio)
    requires preRoll == Fit(offered, p.preRollMs) && Positive(more)
    ensures Fit(preRoll + more, p.preRollMs) == Fit(offered + more, p.preRollMs)
  {
    FitThenFit(offered, more, p.preRollMs);
  }

  lemma {:induction false} OfferedStep(p: Params, offered: Audio, s: VadState, f: Frame)
    requires Detecting(p) && Inv(p, s) && AudioFrame(f) && (!Open(s) ==> s.preRoll == Fit(offered, p.preRollMs))
    ensures var s' := Detector(p)(s, f).state;
      Inv(p, s') && (!Open(s') ==> s'.preRoll == Fit(OfferedAfter(p, offered, s, f, s'), p.preRollMs))
  {
    var o := Detector(p)(s, f);
    StepFacts(p, s, f);
    if Measured(p, f) && !Open(s) {
      PreRollStep(p, s, f);
      OfferedWaiting(p, offered, s, f, o.state);
    } else {
      OfferedOtherwise(p, offered, s, f, o);
    }
  }

  lemma {:induction false} OfferedWaiting(p: Params, offered: Audio, s: VadState, f: Frame, s': VadState)
    requires ValidParams(p) && Inv(p, s) && Measured(p, f) && !Open(s) && s.preRoll == Fit(offered, p.preRollMs)
    requires !Open(s') ==>
        s'.preRoll == if s'.phase == CandidateStart then s.preRoll
                      else if s.phase == Idle then Fit(s.preRoll + [Chunk(p, f)], p.preRollMs)
                      else Fit(s.preRoll + Started(p, s, f), p.preRollMs)
    ensures !Open(s') ==> s'.preRoll == Fit(OfferedAfter(p, offered, s, f, s'), p.preRollMs)
  {
    PushedFacts(p, s.startBuffer, f, p.startWindowMs);
    ChunksPositive(p, Started(p, s, f));
    OfferedFits(p, offered, [Chunk(p, f)], s.preRoll);
    OfferedFits(p, offered, Started(p, s, f), s.preRoll);
  }

  lemma {:induction false} OfferedOtherwise(p: Params, offered: Audio, s: VadState, f: Frame, o: VadOut)
    requires StepShape(p, s, f, o) && (Measured(p, f) ==> Open(s)) && p.preRollMs > 0
    requires !Open(s) ==> s.preRoll == Fit(offered, p.preRollMs)
    ensures !Open(o.state) ==> o.state.preRoll == Fit(OfferedAfter(p, offered, s, f, o.state), p.preRollMs)
  {
    if Measured(p, f) && !Open(o.state) {
      assert |Pending(o.state)| >= |o.state.preRoll|;
    }
  }

  /** Whenever no segment is open, the pre-roll is the fitted suffix of all it has been offered since the last one. */
  lemma {:induction false} PreRollHolds(p: Params, frames: seq<Frame>)
    requires Detecting(p) && AudioFrames(frames)
    ensures var s := Run(p, INITIAL, frames).state;
      Inv(p, s) && (!Open(s) ==> s.preRoll == Fit(Offered(p, Detector(p), frames), p.preRollMs))
    decreases |frames|
  {
    if frames != [] {
      var front := frames[..|frames| - 1];
      PreRollHolds(p, front);
      OfferedStep(p, Offered(p, Detector(p), front), Run(p, INITIAL, front).state, frames[|front|]);
    }
  }

  // ----- a run that loses a frame

  /** An energy detector with all its defaults. */
  const PLAIN := Derive(VadOption(Some(Energy), None, None, None, None, None, None), false)

  function QuietThenLoud(): VadState {
    INITIAL.(noiseFloor := 0.0, noiseReady := true, preRoll := [Timed(Tone(20, false), 20)])
  }

  lemma {:induction false} FirstQuiet()
    ensures Process(PLAIN, INITIAL, Sound(20, false)).state == QuietThenLoud()
  {
    assert PcmDurationMs(Tone(20, false), 16000) == 20;
    VadCap.PushFirst(Tone(20, false), 20, 200);
  }

  function OneLoud(): VadState {
    QuietThenLoud().(phase := CandidateStart, startBuffer := [Timed(Tone(30, true), 30)],
        startActivity := [Timed(true, 30)])
  }

  lemma {:induction false} ThenLoud()
    ensures Process(PLAIN, QuietThenLoud(), Sound(30, true)).state == OneLoud()
  {
    assert PcmDurationMs(Tone(30, true), 16000) == 30;
    VadCap.PushFirst(Tone(30, true), 30, 60);
    VadCap.PushFirst(true, 30, 60);
    VadCap.TotalOne(Timed(Tone(30, true), 30));
  }

  lemma {:induction false} ThenLonger()
    ensures Process(PLAIN, OneLoud(), Sound(60, true)).result.packets
         == Packed("t", [Timed(Tone(20, false), 20)]) + Packed("t", [Timed(Tone(60, true), 60)])
  {
    assert PcmDurationMs(Tone(60, true), 16000) == 60;
    VadCap.PushSecond(Timed(Tone(30, true), 30), Tone(60, true), 60, 60);
    VadCap.PushSecond(Timed(true, 30), true, 60, 60);
    VadCap.TotalOne(Timed(Tone(60, true), 60));
    VadCap.TotalOne(Timed(true, 60));
    assert ActiveMs([Timed(true, 60)]) == 60 by { assert [Timed(true, 60)][1..] == []; }
  }

  function LostRun(): seq<Frame> {
    [Sound(20, false)] + [Sound(30, true)] + [Sound(60, true)]
  }

  lemma {:induction false} LostRunIsTrue()
    ensures AudioFrames(LostRun()) && AllTrue(LostRun())
  {
    SoundExtends([], 20, false);
    assert [] + [Sound(20, false)] == [Sound(20, false)];
    SoundExtends([Sound(20, false)], 30, true);
    SoundExtends([Sound(20, false)] + [Sound(30, true)], 60, true);
  }

  lemma {:induction false} LostRunOpens()
    ensures Run(PLAIN, INITIAL, LostRun()).packets
         == [AudioPacket("t", Tone(20, false)), AudioPacket("t", Tone(60, true))]
  {
    var quiet, loud, longer := Sound(20, false), Sound(30, true), Sound(60, true);
    FirstQuiet();
    ThenLoud();
    ThenLonger();
    NothingYet();
    DrainOne(Detector(PLAIN), INITIAL, quiet);
    RunOn([quiet], QuietThenLoud(), loud, OneLoud());
    DrainConcat(Detector(PLAIN), INITIAL, [quiet] + [loud], [longer]);
    DrainOne(Detector(PLAIN), OneLoud(), longer);
  }

  /** A quiet frame of 20 ms, then loud ones of 30 and 60: the segment opens with the first and the third. */
  lemma {:induction false} FrameLost()
    ensures AudioFrames(LostRun()) && AllTrue(LostRun())
    ensures Run(PLAIN, INITIAL, LostRun()).packets
         == [AudioPacket("t", Tone(20, false)), AudioPacket("t", Tone(60, true))]
  {
    LostRunIsTrue();
    LostRunOpens();
  }

  lemma {:induction false} NothingYet()
    ensures Process(PLAIN, INITIAL, Sound(20, false)).result == NOTHING
    ensures Process(PLAIN, QuietThenLoud(), Sound(30, true)).result == NOTHING
  {
    assert PcmDurationMs(Tone(20, false), 16000) == 20 && PcmDurationMs(Tone(30, true), 16000) == 30;
    VadCap.PushFirst(Tone(30, true), 30, 60);
    VadCap.TotalOne(Timed(Tone(30, true), 30));
  }

  lemma {:induction false} RunOn(frames: seq<Frame>, s: VadState, f: Frame, s': VadState)
    requires var r := Run(PLAIN, INITIAL, frames); r.state == s && r.packets == []
    requires var o := Process(PLAIN, s, f); o.state == s' && o.result == NOTHING
    ensures var r := Run(PLAIN, INITIAL, frames + [f]); r.state == s' && r.packets == []
  {
    DrainConcat(Detector(PLAIN), INITIAL, frames, [f]);
    DrainOne(Detector(PLAIN), s, f);
  }
}
