/** The decisions of the detector over whole runs: when speaking and eou are sent, read off the frames heard. */
module VadHistory {
  import opened Media
  import opened Streams
  import opened Windows
  import opened VadModel
  import opened VadInvariant
  import opened VadRuns
  import opened VadTiming
  import opened VadDecisions

  // ----- what was heard

  /** The marks of the frames of the candidate phase, and from the opening on of the frames of the segment, the start
      buffer's included, after one more step. */
  function HeardAfter(p: Params, heard: Activity, s: VadState, f: Frame, s': VadState): Activity {
    if !Measured(p, f) then heard
    else if s'.phase == Idle then []
    else if !Open(s) && Open(s') then Fit(heard + [Mark(p, s, f)], p.startWindowMs)
    else heard + [Mark(p, s, f)]
  }

  function HeardSince(p: Params, step: VadStep, frames: seq<Frame>): Activity {
    if frames == [] then []
    else
      var front := frames[..|frames| - 1];
      HeardAfter(p, HeardSince(p, step, front), Before(step, frames).state, frames[|front|], Last(step, frames).state)
  }

  /** The frames since candidate end was last entered, after one more step. */
  function PauseAfter(p: Params, pause: Audio, f: Frame, s': VadState): Audio {
    if !Measured(p, f) then pause else if s'.phase == CandidateEnd then pause + [Chunk(p, f)] else []
  }

  function PauseSince(p: Params, step: VadStep, frames: seq<Frame>): Audio {
    if frames == [] then []
    else
      var front := frames[..|frames| - 1];
      PauseAfter(p, PauseSince(p, step, front), frames[|front|], Last(step, frames).state)
  }

  // ----- the windows and the tail are what was heard

  /** The windows the decisions look at are the fitted suffixes of what was heard, the tail is the pause. */
  predicate Reflects(p: Params, s: VadState, heard: Activity, pause: Audio) {
    && (s.phase == Idle ==> heard == [])
    && (s.phase == CandidateStart ==> s.startActivity == Fit(heard, p.startWindowMs))
    && (Open(s) ==> s.speechActivity == Fit(heard, p.endWindowMs))
    && s.tailBuffer == pause
  }

  lemma {:induction false} WindowsReflect(p: Params, s: VadState, f: Frame, heard: Activity, pause: Audio)
    requires ValidParams(p) && Inv(p, s) && Measured(p, f) && Reflects(p, s, heard, pause)
    ensures !Open(s) ==> StartWindow(p, s, f) == Fit(heard + [Mark(p, s, f)], p.startWindowMs)
    ensures Open(s) ==> SpeechWindow(p, s, f) == Fit(heard + [Mark(p, s, f)], p.endWindowMs)
  {
    var m := [Mark(p, s, f)];
    assert Positive(m);
    if Open(s) {
      FitThenFit(heard, m, p.endWindowMs);
    } else if s.phase == CandidateStart {
      FitThenFit(heard, m, p.startWindowMs);
    }
  }

  lemma {:induction false} FitWithin(w: Activity, limit: int, wider: int)
    requires 0 < limit <= wider
    ensures Fit(Fit(w, limit), wider) == Fit(w, limit)
  {
    FitTotal(w, limit);
  }

  lemma {:induction false} StartReflects(p: Params, s: VadState, f: Frame, heard: Activity, pause: Audio)
    requires Detecting(p) && Inv(p, s) && !Open(s) && AudioFrame(f) && Measured(p, f) && Reflects(p, s, heard, pause)
    ensures var s' := Process(p, s, f).state;
      Reflects(p, s', HeardAfter(p, heard, s, f, s'), PauseAfter(p, pause, f, s'))
  {
    WindowsReflect(p, s, f, heard, pause);
    OpensIff(p, s, f);
    FitWithin(heard + [Mark(p, s, f)], p.startWindowMs, p.endWindowMs);
    StepFacts(p, s, f);
  }

  lemma {:induction false} OpenReflects(p: Params, s: VadState, f: Frame, heard: Activity, pause: Audio)
    requires Detecting(p) && Inv(p, s) && Open(s) && AudioFrame(f) && Measured(p, f) && Reflects(p, s, heard, pause)
    ensures var s' := Process(p, s, f).state;
      Reflects(p, s', HeardAfter(p, heard, s, f, s'), PauseAfter(p, pause, f, s'))
  {
    WindowsReflect(p, s, f, heard, pause);
    StepFacts(p, s, f);
    if s.phase == InSpeech { PausesIff(p, s, f); } else { EndsIff(p, s, f); }
    StaysOpen(p, s, f, Handed(Process(p, s, f)));
  }

  /** An open segment does not go back to waiting for a start, and keeps the frame in its tail while it pauses. */
  lemma {:induction false} StaysOpen(p: Params, s: VadState, f: Frame, o: VadOut)
    requires Open(s) && Inv(p, o.state) && Measured(p, f) && StepShape(p, s, f, o)
    ensures o.state.phase != CandidateStart
    ensures o.state.tailBuffer == if o.state.phase == CandidateEnd then s.tailBuffer + [Chunk(p, f)] else []
  {
  }

  lemma {:induction false} StepReflects(p: Params, s: VadState, f: Frame, heard: Activity, pause: Audio)
    requires Detecting(p) && Inv(p, s) && AudioFrame(f) && Reflects(p, s, heard, pause)
    ensures var s' := Detector(p)(s, f).state;
      Inv(p, s') && Reflects(p, s', HeardAfter(p, heard, s, f, s'), PauseAfter(p, pause, f, s'))
  {
    StepFacts(p, s, f);
    if Measured(p, f) {
      if Open(s) { OpenReflects(p, s, f, heard, pause); } else { StartReflects(p, s, f, heard, pause); }
    }
  }

  /** Over any run, the window of each decision is the fitted suffix of the marks heard, and the audio held back in
      candidate end is that of the frames since it was last entered. */
  lemma {:induction false} HistoryReflected(p: Params, frames: seq<Frame>)
    requires Detecting(p) && AudioFrames(frames)
    ensures var s := Run(p, INITIAL, frames).state;
      Inv(p, s) && Reflects(p, s, HeardSince(p, Detector(p), frames), PauseSince(p, Detector(p), frames))
    decreases |frames|
  {
    if frames != [] {
      var front := frames[..|frames| - 1];
      HistoryReflected(p, front);
      StepReflects(p, Run(p, INITIAL, front).state, frames[|front|],
                   HeardSince(p, Detector(p), front), PauseSince(p, Detector(p), front));
    }
  }

  // ----- when the two events are sent

  /** After any run, a frame brings a speaking event if and only if no segment is open, the marks heard since the
      candidate phase began fill the start window exactly with at least three fifths of speech, and no consulted
      scorer answers below its threshold. */
  lemma {:induction false} SpeakingIff(p: Params, past: seq<Frame>, f: Frame)
    requires Detecting(p) && AudioFrames(past) && AudioFrame(f) && Measured(p, f)
    ensures var s := Run(p, INITIAL, past).state;
      var w := Fit(HeardSince(p, Detector(p), past) + [Mark(p, s, f)], p.startWindowMs);
      Speaks(Process(p, s, f).result.events)
      <==> !Open(s) && FullAndOver(w, p.startWindowMs, 3) && !ScoresBelow(p, f, p.startThreshold)
  {
    HistoryReflected(p, past);
    var s := Run(p, INITIAL, past).state;
    WindowsReflect(p, s, f, HeardSince(p, Detector(p), past), PauseSince(p, Detector(p), past));
    StepFacts(p, s, f);
    StepMarks(p, s, f, Handed(Process(p, s, f)));
    if !Open(s) { OpensIff(p, s, f); }
  }

  /** Why a segment ends: its speech reaches the maximum, a pause that turns out to be speech makes it do so, or the
      pause has lasted the silence padding, with at most one fifth of speech in a full window, and the scorer does
      not object. The lengths are those of the audio handed on since the opening and of the pause. */
  predicate CutSpeaking(p: Params, w: Activity, duration: int, f: Frame) {
    !FullAndUnder(w, p.endWindowMs, 1) && duration + Chunk(p, f).ms >= p.maxSegmentMs
  }

  predicate CutReturning(p: Params, w: Activity, duration: int, pause: Audio) {
    FullAndOver(w, p.endWindowMs, 2) && duration + Total(pause) >= p.maxSegmentMs
  }

  predicate EndedBySilence(p: Params, w: Activity, pause: Audio, f: Frame) {
    && FullAndUnder(w, p.endWindowMs, 1) && Total(pause) >= p.silencePaddingMs
    && !ScoresFrom(p, f, p.endThreshold)
  }

  lemma {:induction false} EndedIff(p: Params, s: VadState, f: Frame)
    requires Detecting(p) && Inv(p, s) && AudioFrame(f) && Measured(p, f)
    ensures var w := SpeechWindow(p, s, f);
      EouIn(Process(p, s, f).result.events)
      <==> if s.phase == InSpeech then CutSpeaking(p, w, s.segmentDurationMs, f)
           else
             && s.phase == CandidateEnd
             && (|| CutReturning(p, w, s.segmentDurationMs, s.tailBuffer + [Chunk(p, f)])
                 || EndedBySilence(p, w, s.tailBuffer + [Chunk(p, f)], f))
  {
    var o := Process(p, s, f);
    EouEnds(p, s, f);
    if s.phase == InSpeech { PausesIff(p, s, f); }
    if s.phase == CandidateEnd { EndsIff(p, s, f); }
  }

  lemma {:induction false} EouEnds(p: Params, s: VadState, f: Frame)
    requires Detecting(p) && Inv(p, s) && AudioFrame(f) && Measured(p, f)
    ensures var o := Process(p, s, f); EouIn(o.result.events) <==> Open(s) && o.state.phase == Idle
  {
    var o := Process(p, s, f);
    StepFacts(p, s, f);
    StepMarks(p, s, f, Handed(o));
    assert |o.result.events| == 2 ==> o.result.events[1].Eou?;
    if Open(s) { StaysOpen(p, s, f, Handed(o)); }
  }

  /** After any run, a frame brings an eou for one of these three reasons and never otherwise. */
  lemma {:induction false} EouIff(p: Params, past: seq<Frame>, f: Frame)
    requires Detecting(p) && AudioFrames(past) && AudioFrame(f) && Measured(p, f)
    ensures var s := Run(p, INITIAL, past).state;
      var w := Fit(HeardSince(p, Detector(p), past) + [Mark(p, s, f)], p.endWindowMs);
      var pause := PauseSince(p, Detector(p), past) + [Chunk(p, f)];
      var duration := DurationOf(p, Observed(p, Detector(p), past).body);
      EouIn(Process(p, s, f).result.events)
      <==> if s.phase == InSpeech then CutSpeaking(p, w, duration, f)
           else
             && s.phase == CandidateEnd
             && (CutReturning(p, w, duration, pause) || EndedBySilence(p, w, pause, f))
  {
    HistoryReflected(p, past);
    DetectorConforms(p);
    LedgerBalances(p, Detector(p), past);
    var s := Run(p, INITIAL, past).state;
    WindowsReflect(p, s, f, HeardSince(p, Detector(p), past), PauseSince(p, Detector(p), past));
    EndedIff(p, s, f);
  }

  /** In particular an utterance below the maximum is not split by a pause shorter than the silence padding: an eou
      comes only after frames of at least that length since candidate end was last entered. */
  lemma {:induction false} EouAfterPause(p: Params, past: seq<Frame>, f: Frame)
    requires Detecting(p) && AudioFrames(past) && AudioFrame(f) && Measured(p, f)
    requires EouIn(Process(p, Run(p, INITIAL, past).state, f).result.events)
    requires var pause := PauseSince(p, Detector(p), past) + [Chunk(p, f)];
      DurationOf(p, Observed(p, Detector(p), past).body) + Total(pause) < p.maxSegmentMs
    ensures Run(p, INITIAL, past).state.phase == CandidateEnd
    ensures Total(PauseSince(p, Detector(p), past) + [Chunk(p, f)]) >= p.silencePaddingMs
  {
    EouIff(p, past, f);
    HistoryReflected(p, past);
  }
}
