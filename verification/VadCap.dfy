/** The maximum segment length: kept by every step except an end-of-speech veto by the scorer. */
module VadCap {
  import opened Media
  import opened Streams
  import opened Windows
  import opened VadModel
  import opened VadInvariant
  import opened VadRuns
  import opened Loudness

  predicate Capped(p: Params, s: VadState) {
    Open(s) ==> s.segmentDurationMs < p.maxSegmentMs
  }

  /** The state on which candidate end decides. */
  function TailJoined(p: Params, s: VadState, f: Frame): VadState {
    Heard(p, s, f, Chunk(p, f).ms).(tailBuffer := Pushed(s.tailBuffer, f.packet.data, Chunk(p, f).ms, 0))
  }

  /** The tail is long and quiet enough to end the segment, and the scorer overrules it. */
  predicate Vetoes(p: Params, s: VadState, f: Frame) {
    && Measured(p, f) && s.phase == CandidateEnd
    && var s' := TailJoined(p, s, f);
    && !ShouldResumeSpeaking(p, s') && Total(s'.tailBuffer) >= p.silencePaddingMs && ShouldConfirmEnd(p, s')
    && ConsultsScorer(p) && f.answer.Scored? && f.answer.score >= p.endThreshold
  }

  /** A step from a capped state stays capped, unless it is a veto and the returned tail reaches the cap. */
  lemma {:induction false} CapStep(p: Params, s: VadState, f: Frame)
    requires Detecting(p) && Inv(p, s) && Capped(p, s) && AudioFrame(f)
    ensures Capped(p, Process(p, s, f).state)
       <==> !(Vetoes(p, s, f) && s.segmentDurationMs + Total(s.tailBuffer) + Chunk(p, f).ms >= p.maxSegmentMs)
  {
    var g := f.(packet := Resolved(f.packet));
    if !Measured(p, f) {
    } else if !Open(s) {
      StepFacts(p, s, f);
      StartCap(p, s, f, Handed(Process(p, s, f)));
    } else {
      Dispatch(p, s, g);
      if s.phase == InSpeech {
        SpeakingCap(p, s, g, ProcessSpeaking(p, s, g, Chunk(p, g).ms));
      } else {
        TailCap(p, s, g, ProcessCandidateEnd(p, s, g, Chunk(p, g).ms));
        assert Vetoes(p, s, f) == Vetoes(p, s, g);
      }
    }
  }

  lemma {:induction false} StartCap(p: Params, s: VadState, f: Frame, o: VadOut)
    requires ValidParams(p) && Inv(p, s) && !Open(s) && Measured(p, f) && StepShape(p, s, f, o)
    ensures Capped(p, o.state)
  {
    PushedFacts(p, s.startBuffer, f, p.startWindowMs);
  }

  lemma {:induction false} SpeakingCap(p: Params, s: VadState, f: Frame, o: Outcome)
    requires ValidParams(p) && s.phase == InSpeech && Capped(p, s)
    requires o == ProcessSpeaking(p, s, f, Chunk(p, f).ms)
    ensures Capped(p, o.state)
  {
  }

  lemma {:induction false} TailCap(p: Params, s: VadState, f: Frame, o: Outcome)
    requires ValidParams(p) && Inv(p, s) && s.phase == CandidateEnd && Capped(p, s) && Measured(p, f)
    requires o == ProcessCandidateEnd(p, s, f, Chunk(p, f).ms)
    ensures Capped(p, o.state)
       <==> !(Vetoes(p, s, f) && s.segmentDurationMs + Total(s.tailBuffer) + Chunk(p, f).ms >= p.maxSegmentMs)
  {
    var s' := TailJoined(p, s, f);
    HeardFacts(p, s, f);
    TotalConcat(s.tailBuffer, [Chunk(p, f)]);
    assert Total([Chunk(p, f)]) == Chunk(p, f).ms;
    DecisionCap(p, s', f, o);
  }

  lemma {:induction false} DecisionCap(p: Params, s: VadState, f: Frame, o: Outcome)
    requires ValidParams(p) && s.phase == CandidateEnd && s.segmentDurationMs < p.maxSegmentMs
        && o == DecideTail(p, s, f)
    ensures Capped(p, o.state) <==>
      !(&& !ShouldResumeSpeaking(p, s) && Total(s.tailBuffer) >= p.silencePaddingMs && ShouldConfirmEnd(p, s)
        && ConsultsScorer(p) && f.answer.Scored? && f.answer.score >= p.endThreshold
        && s.segmentDurationMs + Total(s.tailBuffer) >= p.maxSegmentMs)
  {
  }

  /** A veto whose returned tail reaches the maximum. */
  predicate Breaks(p: Params, s: VadState, f: Frame) {
    Vetoes(p, s, f) && s.segmentDurationMs + Total(s.tailBuffer) + Chunk(p, f).ms >= p.maxSegmentMs
  }

  /** A property of runs that holds after each call. */
  predicate Throughout(ok: seq<Frame> -> bool, frames: seq<Frame>) {
    ok(frames) && (frames != [] ==> Throughout(ok, frames[..|frames| - 1]))
  }

  /** No call, with the frames before it, is of the given kind. */
  predicate Never(bad: (seq<Frame>, Frame) -> bool, frames: seq<Frame>) {
    frames != [] ==>
      var front := frames[..|frames| - 1];
      !bad(front, frames[|front|]) && Never(bad, front)
  }

  /** A property that each call keeps unless it is of the bad kind holds throughout iff no call is. */
  lemma {:induction false} ThroughoutIffNever(ok: seq<Frame> -> bool, bad: (seq<Frame>, Frame) -> bool,
          frames: seq<Frame>)
    requires AudioFrames(frames) && ok([])
    requires forall front, f :: AudioFrames(front) && AudioFrame(f) && ok(front) ==>
        (ok(front + [f]) <==> !bad(front, f))
    ensures Throughout(ok, frames) <==> Never(bad, frames)
    decreases |frames|
  {
    if frames != [] {
      var front, f := frames[..|frames| - 1], frames[|frames| - 1];
      ThroughoutIffNever(ok, bad, front);
      assert front + [f] == frames && AudioFrame(f);
      assert Throughout(ok, front) ==> ok(front);
    }
  }

  /** The open segment is below the maximum. */
  function Below(p: Params): seq<Frame> -> bool {
    (frames: seq<Frame>) => Capped(p, Run(p, INITIAL, frames).state)
  }

  function BreaksAfter(p: Params): (seq<Frame>, Frame) -> bool {
    (front: seq<Frame>, f: Frame) => Breaks(p, Run(p, INITIAL, front).state, f)
  }

  function VetoesAfter(p: Params): (seq<Frame>, Frame) -> bool {
    (front: seq<Frame>, f: Frame) => Vetoes(p, Run(p, INITIAL, front).state, f)
  }

  /** A run stays below the maximum throughout if and only if no step is a veto whose returned tail reaches it. */
  lemma {:induction false} CapIff(p: Params, frames: seq<Frame>)
    requires Detecting(p) && AudioFrames(frames)
    ensures Throughout(Below(p), frames) <==> Never(BreaksAfter(p), frames)
  {
    forall front, f | AudioFrames(front) && AudioFrame(f) && Below(p)(front)
      ensures Below(p)(front + [f]) <==> !BreaksAfter(p)(front, f)
    {
      GoodRun(p, front);
      LastCap(p, front, f);
    }
    ThroughoutIffNever(Below(p), BreaksAfter(p), frames);
  }

  lemma {:induction false} LastCap(p: Params, front: seq<Frame>, f: Frame)
    requires Detecting(p) && AudioFrame(f)
    requires var s := Run(p, INITIAL, front).state; Inv(p, s) && Capped(p, s)
    ensures Capped(p, Run(p, INITIAL, front + [f]).state) <==> !Breaks(p, Run(p, INITIAL, front).state, f)
  {
    assert (front + [f])[..|front|] == front;
    CapStep(p, Run(p, INITIAL, front).state, f);
  }

  lemma {:induction false} GoodRun(p: Params, frames: seq<Frame>)
    requires Detecting(p) && AudioFrames(frames)
    ensures Inv(p, Run(p, INITIAL, frames).state)
  {
    DetectorConforms(p);
    RunKeepsInv(p, Detector(p), frames);
  }

  /** In particular without any veto the open segment is below the maximum whenever a call returns. */
  lemma {:induction false} CapHolds(p: Params, frames: seq<Frame>)
    requires Detecting(p) && AudioFrames(frames) && Never(VetoesAfter(p), frames)
    ensures Throughout(Below(p), frames)
  {
    NeverEither(VetoesAfter(p), BreaksAfter(p), frames);
    CapIff(p, frames);
  }

  lemma {:induction false} NeverEither(bad: (seq<Frame>, Frame) -> bool, worse: (seq<Frame>, Frame) -> bool,
      frames: seq<Frame>)
    requires Never(bad, frames) && forall front, f :: worse(front, f) ==> bad(front, f)
    ensures Never(worse, frames)
    decreases |frames|
  {
    if frames != [] { NeverEither(bad, worse, frames[..|frames| - 1]); }
  }

  lemma {:induction false} NeverAtAll(bad: (seq<Frame>, Frame) -> bool, frames: seq<Frame>)
    requires forall front, f :: !bad(front, f)
    ensures Never(bad, frames)
    decreases |frames|
  {
    if frames != [] { NeverAtAll(bad, frames[..|frames| - 1]); }
  }

  /** Without a scorer, or outside hybrid mode, there is no veto, so the cap always holds. */
  lemma {:induction false} CapHoldsWithoutScorer(p: Params, frames: seq<Frame>)
    requires Detecting(p) && !ConsultsScorer(p) && AudioFrames(frames)
    ensures Throughout(Below(p), frames)
  {
    NeverAtAll(VetoesAfter(p), frames);
    CapHolds(p, frames);
  }

  // ----- a run that goes over the cap

  /** A hybrid detector with a scorer, silence padding 60 ms and a maximum of one second. */
  const STRICT := Derive(VadOption(Some(Hybrid), None, None, Some(60), None, None, Some(1)), true)

  function SpeechRun(): seq<Frame> {
    [Sound(60, true)] + [Sound(930, true)]
  }

  function VetoRun(): seq<Frame> {
    SpeechRun() + [Sound(60, false)] + [Sound(60, false)]
  }

  /** Speech of 60 and 930 ms, then two quiet frames of 60 ms that the scorer still calls speech: the
      segment is still open at 1110 ms although the maximum is 1000 ms. */
  lemma {:induction false} CapFailsUnderVeto()
    ensures AudioFrames(VetoRun()) && AllTrue(VetoRun())
    ensures !Capped(STRICT, Run(STRICT, INITIAL, VetoRun()).state)
  {
    VetoRunIsTrue();
    var s := AfterSpeech();
    FirstQuiet(s);
    var s' := Process(STRICT, s, Sound(60, false)).state;
    RunReaches(SpeechRun(), s, Sound(60, false), s');
    SecondQuiet(s');
    RunReaches(SpeechRun() + [Sound(60, false)], s', Sound(60, false), Process(STRICT, s', Sound(60, false)).state);
  }

  lemma {:induction false} VetoRunIsTrue()
    ensures AudioFrames(VetoRun()) && AllTrue(VetoRun())
  {
    SoundExtends([], 60, true);
    assert [] + [Sound(60, true)] == [Sound(60, true)];
    SoundExtends([Sound(60, true)], 930, true);
    SoundExtends(SpeechRun(), 60, false);
    SoundExtends(SpeechRun() + [Sound(60, false)], 60, false);
  }

  lemma {:induction false} AfterSpeech() returns (s: VadState)
    ensures s == Run(STRICT, INITIAL, SpeechRun()).state
    ensures s.phase == InSpeech && !s.noiseReady && s.speechActivity == [] && s.segmentDurationMs == 990
  {
    OpeningSound();
    var s1 := INITIAL.(phase := InSpeech, speechActivity := [Timed(true, 60)], segmentStartMs := 940,
        segmentDurationMs := 60);
    RunReaches([], INITIAL, Sound(60, true), s1);
    assert [] + [Sound(60, true)] == [Sound(60, true)];
    LongSound(s1);
    s := s1.(speechActivity := [], segmentDurationMs := 990);
    RunReaches([Sound(60, true)], s1, Sound(930, true), s);
  }

  lemma {:induction false} RunReaches(frames: seq<Frame>, s: VadState, f: Frame, s': VadState)
    requires Run(STRICT, INITIAL, frames).state == s && Process(STRICT, s, f).state == s'
    ensures Run(STRICT, INITIAL, frames + [f]).state == s'
  {
    DrainConcat(Detector(STRICT), INITIAL, frames, [f]);
    DrainOne(Detector(STRICT), s, f);
  }

  lemma {:induction false} TotalOne<T>(e: Timed<T>)
    ensures Total([e]) == e.ms
  {
    assert [e][1..] == [];
  }

  lemma {:induction false} PushFirst<T>(item: T, ms: int, limit: int)
    requires 0 < ms && (limit <= 0 || ms <= limit)
    ensures Pushed([], item, ms, limit) == [Timed(item, ms)]
  {
    TotalOne(Timed(item, ms));
    assert [] + [Timed(item, ms)] == [Timed(item, ms)];
  }

  /** A push that does not fit beside the one entry evicts it, and itself if it is longer than the limit. */
  lemma {:induction false} PushSecond<T>(e: Timed<T>, item: T, ms: int, limit: int)
    requires 0 < ms && 0 < limit < e.ms + ms
    ensures Pushed([e], item, ms, limit) == if ms <= limit then [Timed(item, ms)] else []
  {
    var t := Timed(item, ms);
    var w := [e] + [t];
    assert w[1..] == [t];
    TotalConcat([e], [t]);
    TotalOne(e);
    TotalOne(t);
    assert [t][1..] == [];
    assert Fit(w, limit) == Fit([t], limit);
  }

  lemma {:induction false} OpeningSound()
    ensures Process(STRICT, INITIAL, Sound(60, true)).state
         == INITIAL.(phase := InSpeech, speechActivity := [Timed(true, 60)], segmentStartMs := 940,
             segmentDurationMs := 60)
  {
    assert PcmDurationMs(Tone(60, true), 16000) == 60;
    PushFirst(Tone(60, true), 60, 60);
    PushFirst(true, 60, 60);
    TotalOne(Timed(Tone(60, true), 60));
    TotalOne(Timed(true, 60));
    assert ActiveMs([Timed(true, 60)]) == 60 by { assert [Timed(true, 60)][1..] == []; }
  }

  lemma {:induction false} LongSound(s: VadState)
    requires s == INITIAL.(phase := InSpeech, speechActivity := [Timed(true, 60)], segmentStartMs := 940,
        segmentDurationMs := 60)
    ensures Process(STRICT, s, Sound(930, true)).state == s.(speechActivity := [], segmentDurationMs := 990)
  {
    assert PcmDurationMs(Tone(930, true), 16000) == 930;
    PushSecond(Timed(true, 60), true, 930, 60);
  }

  lemma {:induction false} FirstQuiet(s: VadState)
    requires s.phase == InSpeech && !s.noiseReady && s.speechActivity == [] && s.segmentDurationMs == 990
    ensures Process(STRICT, s, Sound(60, false)).state
         == s.(phase := CandidateEnd, noiseFloor := 0.0, noiseReady := true,
               speechActivity := [Timed(false, 60)], tailBuffer := [Timed(Tone(60, false), 60)])
  {
    assert PcmDurationMs(Tone(60, false), 16000) == 60;
    PushFirst(false, 60, 60);
    PushFirst(Tone(60, false), 60, 0);
    QuietOne();
  }

  lemma {:induction false} QuietOne()
    ensures Total([Timed(false, 60)]) == 60 && ActiveMs([Timed(false, 60)]) == 0
  {
    TotalOne(Timed(false, 60));
    assert [Timed(false, 60)][1..] == [];
  }

  lemma {:induction false} SecondQuiet(s: VadState)
    requires s.phase == CandidateEnd && s.speechActivity == [Timed(false, 60)]
    requires s.tailBuffer == [Timed(Tone(60, false), 60)]
    requires s.segmentDurationMs == 990 && s.noiseReady && s.noiseFloor == 0.0
    ensures var s' := Process(STRICT, s, Sound(60, false)).state; s'.phase == InSpeech && s'.segmentDurationMs == 1110
  {
    var w60 := Timed(Tone(60, false), 60);
    assert PcmDurationMs(Tone(60, false), 16000) == 60;
    PushSecond(Timed(false, 60), false, 60, 60);
    QuietOne();
    TotalConcat(s.tailBuffer, [w60]);
    TotalOne(w60);
    assert Pushed(s.tailBuffer, Tone(60, false), 60, 0) == s.tailBuffer + [w60];
  }
}
