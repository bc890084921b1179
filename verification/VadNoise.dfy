/** The adaptive noise floor: what moves it, how far it can move, and how loud speech is sure to be heard. */
module VadNoise {
  import opened Media
  import opened Streams
  import opened Windows
  import opened VadModel
  import opened VadInvariant
  import opened VadTiming

  /** Whether the frame counts as loud in the current phase: against the enter threshold while no segment is
      open, against the keep threshold while one is. */
  predicate Heeded(p: Params, s: VadState, f: Frame) {
    if Open(s) then KeepHit(p, s, f.rms) else EnterHit(p, s, f.rms)
  }

  predicate SameNoise(s: VadState, s': VadState) {
    s'.noiseFloor == s.noiseFloor && s'.noiseReady == s.noiseReady
  }

  lemma {:induction false} DecisionsKeepNoise(p: Params, s: VadState, f: Frame)
    ensures SameNoise(s, MaybeConfirmStart(p, s, f).state)
    ensures SameNoise(s, DecideTail(p, s, f).state)
  {}

  lemma {:induction false} MeasuredNoise(p: Params, s: VadState, f: Frame)
    requires p.mode != Passthrough && Measured(p, f) && f.packet.kind == Audio
    ensures var s' := Process(p, s, f).state;
      SameNoise(if Heeded(p, s, f) then s else ObserveNoise(s, f.rms), s')
  {
    Dispatch(p, s, f);
    var ms := Chunk(p, f).ms;
    match s.phase
    case Idle =>
      DecisionsKeepNoise(p, s.(phase := CandidateStart,
                               startBuffer := Pushed([], f.packet.data, ms, p.startWindowMs),
                               startActivity := Pushed([], true, ms, p.startWindowMs)), f);
    case CandidateStart => DecisionsKeepNoise(p, StartHeard(p, s, f, ms), f);
    case InSpeech =>
    case CandidateEnd => DecisionsKeepNoise(p,
        Heard(p, s, f, ms).(tailBuffer := Pushed(s.tailBuffer, f.packet.data, ms, 0)), f);
  }

  /** A measured frame that is not loud moves the noise floor a tenth of the way to its own loudness, or sets it
      if there was none; no other frame moves it. */
  lemma {:induction false} NoiseStep(p: Params, s: VadState, f: Frame)
    requires p.mode != Passthrough && AudioFrame(f)
    ensures var s' := Process(p, s, f).state;
      if Measured(p, f) && !Heeded(p, s, f) then
        s'.noiseReady && s'.noiseFloor == (if s.noiseReady then s.noiseFloor + (f.rms - s.noiseFloor) / 10.0 else f.rms)
      else SameNoise(s, s')
  {
    if Measured(p, f) {
      var g := f.(packet := Resolved(f.packet));
      assert Process(p, s, f) == Process(p, s, g);
      MeasuredNoise(p, s, g);
    }
  }

  /** Frames of a loudness between the bounds. */
  predicate AllWithin(frames: seq<Frame>, low: real, high: real) {
    forall i :: 0 <= i < |frames| ==> low <= frames[i].rms <= high
  }

  /** The noise floor never leaves the range of loudness heard so far. */
  lemma {:induction false} NoiseStaysWithin(p: Params, frames: seq<Frame>, low: real, high: real)
    requires p.mode != Passthrough && AudioFrames(frames) && AllWithin(frames, low, high)
    ensures var s := Run(p, INITIAL, frames).state; s.noiseReady ==> low <= s.noiseFloor <= high
    decreases |frames|
  {
    if frames != [] {
      var front, f := frames[..|frames| - 1], frames[|frames| - 1];
      NoiseStaysWithin(p, front, low, high);
      NoiseStep(p, Run(p, INITIAL, front).state, f);
    }
  }

  lemma {:induction false} LouderIsHeard(p: Params, s: VadState, rms: real, high: real)
    requires p.enterRatio >= 0.0 && (s.noiseReady ==> s.noiseFloor <= high)
    requires rms >= 0.0 && rms >= p.minEnterRMS && rms >= high * p.enterRatio
    ensures EnterHit(p, s, rms)
  {
    if s.noiseReady { assert s.noiseFloor * p.enterRatio <= high * p.enterRatio; }
  }

  /** Speech that is louder than everything before by the enter ratio is heard whatever came before: after any
      frames of d ms up to the given loudness that leave no segment open, a start window of such frames brings a
      speaking event. */
  lemma {:induction false} LouderSpeechAnswered(p: Params, d: int, past: seq<Frame>, high: real, speech: seq<Frame>)
    requires Detecting(p) && p.enterRatio >= 0.0 && d > 0 && p.startWindowMs % d == 0
    requires AllLast(p, past, d) && AllWithin(past, 0.0, high) && !Open(Run(p, INITIAL, past).state)
    requires AllLast(p, speech, d) && |speech| >= p.startWindowMs / d
    requires forall i :: 0 <= i < |speech| ==>
      speech[i].rms >= 0.0 && speech[i].rms >= p.minEnterRMS && speech[i].rms >= high * p.enterRatio
          && Accepts(p, speech[i])
    ensures SpeakingWithin(Detector(p), Run(p, INITIAL, past).state, speech)
  {
    NoiseStaysWithin(p, past, 0.0, high);
    var s := Run(p, INITIAL, past).state;
    forall i | 0 <= i < |speech|
      ensures Lasts(p, speech[i], d) && EnterHit(p, s, speech[i].rms) && Accepts(p, speech[i])
    {
      LouderIsHeard(p, s, speech[i].rms, high);
    }
    SpeechAnswered(p, d, past, speech);
  }
}
