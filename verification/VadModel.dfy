/** The voice activity detector as a step function on values: one call of Process maps a state
    and a frame to the next state, the packets and events handed on, and what the scorer was asked. */
module VadModel {
  import opened Media
  import opened Streams
  import opened Windows

  datatype Mode = Passthrough | Energy | Hybrid

  datatype Phase = Idle | CandidateStart | InSpeech | CandidateEnd

  /** The caller's options. */
  datatype VadOption = VadOption(
    mode: Option<Mode>, sampleRate: Option<nat>, speechPadding: Option<nat>, silencePadding: Option<nat>,
    ratio: Option<real>, voiceThreshold: Option<real>, maxBufferSecs: Option<nat>)

  datatype Params = Params(
    mode: Mode, hasScorer: bool, sampleRate: int,
    preRollMs: int, startWindowMs: int, endWindowMs: int, silencePaddingMs: int, tailPaddingMs: int, maxSegmentMs: int,
    enterRatio: real, keepRatio: real, minEnterRMS: real, minKeepRMS: real,
    startThreshold: real, endThreshold: real)

  const DEFAULT_SAMPLE_RATE := 16000
  const DEFAULT_FRAME_MS := 20
  const DEFAULT_PRE_ROLL_MS := 200
  const DEFAULT_SILENCE_PADDING_MS := 600
  const DEFAULT_TAIL_PADDING_MS := 160
  const DEFAULT_START_WINDOW_MS := 60
  const DEFAULT_END_WINDOW_MS := 200
  const DEFAULT_MAX_SEGMENT_MS := 12000

  function OrNat(option: Option<nat>, fallback: nat): nat {
    if option.None? || option.value == 0 then fallback else option.value
  }

  function OrReal(option: Option<real>, fallback: real): real {
    if option.None? || option.value <= 0.0 then fallback else option.value
  }

  function Min(a: int, b: int): int { if a < b then a else b }

  function Max(a: int, b: int): int { if a > b then a else b }

  /** The parameters NewVAD derives from the options. */
  function Derive(option: VadOption, hasScorer: bool): Params {
    var silencePaddingMs := OrNat(option.silencePadding, DEFAULT_SILENCE_PADDING_MS);
    var endWindowMs := Min(DEFAULT_END_WINDOW_MS, silencePaddingMs);
    Params(
      mode := if option.mode.None? then Passthrough else option.mode.value,
      hasScorer := hasScorer,
      sampleRate := OrNat(option.sampleRate, DEFAULT_SAMPLE_RATE),
      preRollMs := OrNat(option.speechPadding, DEFAULT_PRE_ROLL_MS),
      startWindowMs := Max(DEFAULT_START_WINDOW_MS, DEFAULT_FRAME_MS * 3),
      endWindowMs := if endWindowMs < DEFAULT_FRAME_MS * 3 then DEFAULT_FRAME_MS * 3 else endWindowMs,
      silencePaddingMs := silencePaddingMs,
      tailPaddingMs := DEFAULT_TAIL_PADDING_MS,
      maxSegmentMs := OrNat(option.maxBufferSecs, DEFAULT_MAX_SEGMENT_MS / 1000) * 1000,
      enterRatio := OrReal(option.ratio, 2.2),
      keepRatio := 1.6,
      minEnterRMS := 120.0,
      minKeepRMS := 96.0,
      startThreshold := OrReal(option.voiceThreshold, 0.65),
      endThreshold := 0.35)
  }

  /** What the proofs use of the derived parameters. */
  predicate ValidParams(p: Params) {
    && p.sampleRate > 0
    && p.preRollMs > 0
    && 0 < p.startWindowMs <= p.endWindowMs
    && p.startWindowMs < p.maxSegmentMs
    && p.silencePaddingMs > 0
    && p.tailPaddingMs > 0
  }

  /** What the scorer says when asked: a score, or an error. */
  datatype Answer = Scored(score: real) | ScorerError

  /** One packet with the facts its processing depends on: its loudness, the scorer's answer should
      it be asked, and the clock in milliseconds. */
  datatype Frame = Frame(packet: Packet, rms: real, answer: Answer, now: int)

  datatype VadState = VadState(
    phase: Phase, noiseFloor: real, noiseReady: bool,
    preRoll: Audio, startBuffer: Audio, tailBuffer: Audio,
    startActivity: Activity, speechActivity: Activity,
    segmentStartMs: int, segmentDurationMs: int)

  const INITIAL := VadState(Idle, 0.0, false, [], [], [], [], [], 0, 0)

  datatype Outcome = Outcome(state: VadState, result: Result, asked: seq<Payload>)

  // ----- pure helpers

  function PcmDurationMs(payload: Payload, sampleRate: int): int {
    if sampleRate <= 0 || |payload| < 2 then 0
    else (|payload| / 2 * 1000 + sampleRate - 1) / sampleRate
  }

  /** activeMs / totalMs < num / 5, where the ratio of an empty window is 0. */
  predicate RatioBelow(w: Activity, fifths: int) {
    if Total(w) <= 0 then 0 < fifths else 5 * ActiveMs(w) < fifths * Total(w)
  }

  /** activeMs / totalMs <= num / 5. */
  predicate RatioAtMost(w: Activity, fifths: int) {
    if Total(w) <= 0 then 0 <= fifths else 5 * ActiveMs(w) <= fifths * Total(w)
  }

  function MaxReal(a: real, b: real): real { if a > b then a else b }

  /** Loud enough against a fixed minimum and, once a noise floor is known, against a multiple of it. */
  predicate Hit(minimum: real, noiseReady: bool, noiseFloor: real, ratio: real, rms: real) {
    rms >= MaxReal(minimum, if !noiseReady then 0.0 else noiseFloor * ratio)
  }

  predicate EnterHit(p: Params, s: VadState, rms: real) {
    Hit(p.minEnterRMS, s.noiseReady, s.noiseFloor, p.enterRatio, rms)
  }

  predicate KeepHit(p: Params, s: VadState, rms: real) {
    Hit(p.minKeepRMS, s.noiseReady, s.noiseFloor, p.keepRatio, rms)
  }

  function Smoothed(noiseReady: bool, noiseFloor: real, rms: real): real {
    if !noiseReady then rms else noiseFloor * 0.9 + rms * 0.1
  }

  function ObserveNoise(s: VadState, rms: real): VadState {
    s.(noiseFloor := Smoothed(s.noiseReady, s.noiseFloor, rms), noiseReady := true)
  }

  /** Start activity ratio at least 3/5. */
  predicate ShouldConfirmStart(s: VadState) {
    !RatioBelow(s.startActivity, 3)
  }

  predicate ShouldEnterCandidateEnd(p: Params, s: VadState) {
    Total(s.speechActivity) >= p.endWindowMs && RatioAtMost(s.speechActivity, 1)
  }

  predicate ShouldResumeSpeaking(p: Params, s: VadState) {
    Total(s.speechActivity) >= p.endWindowMs && !RatioBelow(s.speechActivity, 2)
  }

  predicate ShouldConfirmEnd(p: Params, s: VadState) {
    Total(s.speechActivity) >= p.endWindowMs && RatioAtMost(s.speechActivity, 1)
  }

  predicate ConsultsScorer(p: Params) {
    p.mode == Hybrid && p.hasScorer
  }

  function ResetToIdle(s: VadState): VadState {
    s.(phase := Idle, preRoll := [], startBuffer := [], tailBuffer := [],
       startActivity := [], speechActivity := [], segmentStartMs := 0, segmentDurationMs := 0)
  }

  function EndEvents(s: VadState, trackID: string, now: int): seq<Event> {
    var startTime := if s.segmentStartMs == 0 then now else s.segmentStartMs;
    [Silence(trackID, now), Eou(trackID, now, startTime, now)]
  }

  // ----- the steps

  /** Back to idle with the start buffer moved into the pre-roll. */
  function RejectStart(p: Params, s: VadState): VadState {
    s.(preRoll := PushAll(s.preRoll, s.startBuffer, p.preRollMs), phase := Idle, startBuffer := [], startActivity := [])
  }

  function AcceptStart(s: VadState, trackID: string, now: int): (VadState, Result) {
    var startMs := now - Total(s.startBuffer);
    (s.(segmentStartMs := if startMs < 0 then now else startMs,
        segmentDurationMs := Total(s.startBuffer),
        phase := InSpeech,
        speechActivity := s.startActivity,
        preRoll := [], startBuffer := [], startActivity := []),
     Result(Packed(trackID, s.preRoll) + Packed(trackID, s.startBuffer), [Speaking(trackID, now)]))
  }

  function MaybeConfirmStart(p: Params, s: VadState, f: Frame): Outcome {
    if Total(s.startBuffer) < p.startWindowMs || Total(s.startActivity) < p.startWindowMs then
      Outcome(s, NOTHING, [])
    else if !ShouldConfirmStart(s) then
      if ActiveMs(s.startActivity) == 0 then Outcome(RejectStart(p, s), NOTHING, []) else Outcome(s, NOTHING, [])
    else
      var asked := if ConsultsScorer(p) then [Joined(s.preRoll) + Joined(s.startBuffer)] else [];
      var accepted := !(ConsultsScorer(p) && f.answer.Scored?) || f.answer.score >= p.startThreshold;
      if !accepted then Outcome(RejectStart(p, s), NOTHING, asked)
      else
        var (s', result) := AcceptStart(s, f.packet.trackID, f.now);
        Outcome(s', result, asked)
  }

  function MaybeForceSegmentEnd(p: Params, s: VadState, f: Frame, result: Result): (VadState, Result) {
    if p.maxSegmentMs <= 0 || s.segmentDurationMs < p.maxSegmentMs then (s, result)
    else
      (ResetToIdle(s),
       Result(result.packets + [EndPacket(f.packet.trackID)],
              result.events + EndEvents(s, f.packet.trackID, f.now)))
  }

  /** The tail was speech after all: hand it on and keep speaking. */
  function ReturnTail(s: VadState): VadState {
    s.(phase := InSpeech, segmentDurationMs := s.segmentDurationMs + Total(s.tailBuffer), tailBuffer := [])
  }

  function ConfirmEnd(p: Params, s: VadState, f: Frame): Outcome {
    var trackID := f.packet.trackID;
    var asked := if ConsultsScorer(p) then [Joined(s.tailBuffer)] else [];
    var confirmed := !(ConsultsScorer(p) && f.answer.Scored?) || f.answer.score < p.endThreshold;
    if !confirmed then
      Outcome(ReturnTail(s), Result(Packed(trackID, s.tailBuffer), []), asked)
    else
      Outcome(ResetToIdle(s),
              Result(Packed(trackID, Lead(s.tailBuffer, p.tailPaddingMs)) + [EndPacket(trackID)],
                     EndEvents(s, trackID, f.now)),
              asked)
  }

  function ProcessIdle(p: Params, s: VadState, f: Frame, ms: int): Outcome {
    if !EnterHit(p, s, f.rms) then
      var s' := ObserveNoise(s, f.rms);
      Outcome(s'.(preRoll := Pushed(s.preRoll, f.packet.data, ms, p.preRollMs)), NOTHING, [])
    else
      var s' := s.(phase := CandidateStart,
                   startBuffer := Pushed([], f.packet.data, ms, p.startWindowMs),
                   startActivity := Pushed([], true, ms, p.startWindowMs));
      MaybeConfirmStart(p, s', f)
  }

  /** The hit test, the noise update and the two pushes of the candidate-start phase. */
  function StartHeard(p: Params, s: VadState, f: Frame, ms: int): VadState {
    var active := EnterHit(p, s, f.rms);
    var s' := if active then s else ObserveNoise(s, f.rms);
    s'.(startBuffer := Pushed(s.startBuffer, f.packet.data, ms, p.startWindowMs),
        startActivity := Pushed(s.startActivity, active, ms, p.startWindowMs))
  }

  function ProcessCandidateStart(p: Params, s: VadState, f: Frame, ms: int): Outcome {
    MaybeConfirmStart(p, StartHeard(p, s, f, ms), f)
  }

  /** The hit test, the noise update and the activity push common to both open phases. */
  function Heard(p: Params, s: VadState, f: Frame, ms: int): VadState {
    var active := KeepHit(p, s, f.rms);
    var s' := if active then s else ObserveNoise(s, f.rms);
    s'.(speechActivity := Pushed(s.speechActivity, active, ms, p.endWindowMs))
  }

  function ProcessSpeaking(p: Params, s: VadState, f: Frame, ms: int): Outcome {
    var s' := Heard(p, s, f, ms);
    if ShouldEnterCandidateEnd(p, s') then
      Outcome(s'.(phase := CandidateEnd, tailBuffer := Pushed([], f.packet.data, ms, 0)), NOTHING, [])
    else
      var grown := s'.(segmentDurationMs := s.segmentDurationMs + ms);
      var (s'', result) := MaybeForceSegmentEnd(p, grown, f, Result([f.packet], []));
      Outcome(s'', result, [])
  }

  /** What candidate end decides once the frame has joined the tail. */
  function DecideTail(p: Params, s: VadState, f: Frame): Outcome {
    if ShouldResumeSpeaking(p, s) then
      var (s', result) := MaybeForceSegmentEnd(p, ReturnTail(s), f, Result(Packed(f.packet.trackID, s.tailBuffer), []));
      Outcome(s', result, [])
    else if Total(s.tailBuffer) < p.silencePaddingMs then Outcome(s, NOTHING, [])
    else if !ShouldConfirmEnd(p, s) then Outcome(s, NOTHING, [])
    else ConfirmEnd(p, s, f)
  }

  function ProcessCandidateEnd(p: Params, s: VadState, f: Frame, ms: int): Outcome {
    var heard := Heard(p, s, f, ms);
    DecideTail(p, heard.(tailBuffer := Pushed(s.tailBuffer, f.packet.data, ms, 0)), f)
  }

  /** The packet with its kind resolved, as the first line of Process does. */
  function Resolved(packet: Packet): Packet {
    if packet.IsSegmentEnd() then packet else packet.(kind := Audio)
  }

  function Process(p: Params, s: VadState, f: Frame): Outcome {
    var g := f.(packet := Resolved(f.packet));
    if g.packet.IsSegmentEnd() then Outcome(s, Result([g.packet], []), [])
    else if g.packet.data == [] then Outcome(s, NOTHING, [])
    else if p.mode == Passthrough then Outcome(s, Result([g.packet], []), [])
    else
      var ms := PcmDurationMs(g.packet.data, p.sampleRate);
      if ms <= 0 then Outcome(s, NOTHING, [])
      else
        match s.phase
        case Idle => ProcessIdle(p, s, g, ms)
        case CandidateStart => ProcessCandidateStart(p, s, g, ms)
        case InSpeech => ProcessSpeaking(p, s, g, ms)
        case CandidateEnd => ProcessCandidateEnd(p, s, g, ms)
  }

  type VadOut = Out<VadState, Packet, Event>

  function Handed(o: Outcome): VadOut {
    Out(o.state, o.result.packets, o.result.events)
  }

  /** Process as a stage that consumes frames. */
  function Detector(p: Params): Step<VadState, Frame, Packet, Event> {
    (s: VadState, f: Frame) => Handed(Process(p, s, f))
  }

  /** A run over a sequence of frames: the final state and everything handed on. */
  function Run(p: Params, s: VadState, frames: seq<Frame>): VadOut {
    Drain(Detector(p), s, frames)
  }
}
