/** When silence can end a segment of frames of one constant length. */
module VadSilence {
  import opened Media
  import opened Streams
  import opened Windows
  import opened VadModel
  import opened VadInvariant
  import opened VadRuns
  import opened VadTiming

  /** One quiet frame in speech, with room below the maximum: candidate end, or one frame nearer to it. */
  lemma {:induction false} QuietNearsEnd(p: Params, d: int, s: VadState, f: Frame)
    requires Detecting(p) && d > 0 && p.endWindowMs % d == 0
    requires Inv(p, s) && Steady(p, d, s) && s.phase == InSpeech && s.segmentDurationMs + d < p.maxSegmentMs
    requires Lasts(p, f, d) && f.rms < p.minKeepRMS
    ensures NearsEnd(p, d, s, Process(p, s, f).state)
  {
    var g := f.(packet := Resolved(f.packet));
    SteadyStep(p, d, s, f);
    Dispatch(p, s, g);
    QuietHeard(p, d, s, g);
    DividesAtLeastOnce(p.endWindowMs, d);
    HeardNearsEnd(p, d, s, Heard(p, s, g, d), g, Process(p, s, f).state);
  }

  predicate NearsEnd(p: Params, d: int, s: VadState, s': VadState)
    requires d > 0
  {
    && Inv(p, s') && Steady(p, d, s')
    && (s'.phase == CandidateEnd
        || (&& s'.phase == InSpeech && s'.segmentDurationMs == s.segmentDurationMs + d
            && QuietNeeded(p, d, s') == QuietNeeded(p, d, s) - 1))
  }

  lemma {:induction false} HeardNearsEnd(p: Params, d: int, s: VadState, heard: VadState, f: Frame, s': VadState)
    requires ValidParams(p) && d > 0 && s.phase == InSpeech && heard.phase == InSpeech && p.endWindowMs / d >= 1
    requires var z, full := Trailing(s.speechActivity, false), p.endWindowMs / d;
      && Trailing(heard.speechActivity, false) == (if z + 1 <= full then z + 1 else full)
      && (Trailing(heard.speechActivity, false) == full ==>
            Total(heard.speechActivity) == p.endWindowMs && ActiveMs(heard.speechActivity) == 0)
    requires heard.segmentDurationMs == s.segmentDurationMs && s.segmentDurationMs + d < p.maxSegmentMs
    requires Inv(p, s') && Steady(p, d, s')
    requires s' == if ShouldEnterCandidateEnd(p, heard)
                   then heard.(phase := CandidateEnd, tailBuffer := Pushed([], f.packet.data, d, 0))
                   else heard.(segmentDurationMs := s.segmentDurationMs + d)
    ensures NearsEnd(p, d, s, s')
  {
    if !ShouldEnterCandidateEnd(p, heard) {
      assert Trailing(s.speechActivity, false) + 1 < p.endWindowMs / d;
    }
  }

  lemma {:induction false} RunStep(p: Params, s: VadState, f: Frame, n: nat)
    ensures Run(p, s, Repeated(f, n + 1)).state == Run(p, Process(p, s, f).state, Repeated(f, n)).state
  {
    DrainFront(Detector(p), s, Repeated(f, n + 1));
    assert Repeated(f, n + 1)[1..] == Repeated(f, n);
  }

  /** From speech with enough room below the maximum, repeating a quiet frame leads to candidate end. */
  lemma {:induction false} QuietEntersEnd(p: Params, d: int, s: VadState, f: Frame, room: nat) returns (n: nat)
    requires Detecting(p) && d > 0 && p.endWindowMs % d == 0
    requires Inv(p, s) && Steady(p, d, s) && s.phase == InSpeech
    requires Lasts(p, f, d) && f.rms < p.minKeepRMS
    requires QuietNeeded(p, d, s) <= room && s.segmentDurationMs + d * room < p.maxSegmentMs
    ensures Run(p, s, Repeated(f, n)).state.phase == CandidateEnd
    decreases room
  {
    assert d * room == d * (room - 1) + d && d * (room - 1) >= 0;
    QuietNearsEnd(p, d, s, f);
    var s' := Process(p, s, f).state;
    var m := 0;
    if s'.phase != CandidateEnd { m := QuietEntersEnd(p, d, s', f, room - 1); }
    n := m + 1;
    RunStep(p, s, f, m);
  }

  /** An eou comes from candidate end and the activity does not call for speech again, so that the end decision
      is made; the cut at the maximum length is not consulted there. */
  predicate EndsBySilence(p: Params, s: VadState, f: Frame) {
    && s.phase == CandidateEnd
    && !ShouldResumeSpeaking(p, Heard(p, s, f, PcmDurationMs(f.packet.data, p.sampleRate)))
    && EouIn(Process(p, s, f).result.events)
  }

  lemma {:induction false} QuietNeverResumes(p: Params, d: int, s: VadState, f: Frame)
    requires Detecting(p) && d > 0 && p.endWindowMs % d == 0
    requires Inv(p, s) && Steady(p, d, s) && s.phase == CandidateEnd
    requires Lasts(p, f, d) && f.rms < p.minKeepRMS
    ensures !ShouldResumeSpeaking(p, Heard(p, s, f, d))
  {
    QuietWindow(p, d, s.speechActivity);
    FullWindow(p, d, s, false);
  }

  /** From candidate end, repeating a quiet frame that the scorer does not overrule ends the segment from there. */
  lemma {:induction false} QuietEnds(p: Params, d: int, s: VadState, f: Frame) returns (n: nat)
    requires Detecting(p) && d > 0 && p.endWindowMs % d == 0
    requires Inv(p, s) && Steady(p, d, s) && s.phase == CandidateEnd
    requires Lasts(p, f, d) && f.rms < p.minKeepRMS && Confirms(p, f)
    ensures EndsBySilence(p, Run(p, s, Repeated(f, n)).state, f)
    decreases Patience(p, d, s)
  {
    SteadyStep(p, d, s, f);
    QuietNeverResumes(p, d, s, f);
    var g := f.(packet := Resolved(f.packet));
    Dispatch(p, s, g);
    QuietTail(p, d, s, g);
    PatienceBound(p, d, s);
    var s' := Process(p, s, f).state;
    if EndsBySilence(p, s, f) {
      n := 0;
    } else {
      var m := QuietEnds(p, d, s', f);
      n := m + 1;
      RunStep(p, s, f, m);
    }
  }

  /** Repeating a loud frame of d ms and then a quiet one leads to an end by silence. */
  lemma {:induction false} LoudThenQuiet(p: Params, d: int, loud: Frame, quiet: Frame) returns (k: nat, n: nat)
    requires Detecting(p) && p.startWindowMs + p.endWindowMs < p.maxSegmentMs
    requires d > 0 && p.startWindowMs % d == 0 && p.endWindowMs % d == 0
    requires Lasts(p, loud, d) && loud.rms >= p.minEnterRMS && loud.rms >= 0.0 && Accepts(p, loud)
    requires Lasts(p, quiet, d) && quiet.rms < p.minKeepRMS && Confirms(p, quiet)
    ensures EndsBySilence(p, Run(p, INITIAL, Repeated(loud, k) + Repeated(quiet, n)).state, quiet)
  {
    k := LoudOpens(p, d, loud);
    var s := Run(p, INITIAL, Repeated(loud, k)).state;
    DividesAtLeastOnce(p.endWindowMs, d);
    Divided(p.endWindowMs, d);
    var m := QuietEntersEnd(p, d, s, quiet, p.endWindowMs / d);
    RunJoined(p, Repeated(loud, k), Repeated(quiet, m));
    var entered := Repeated(loud, k) + Repeated(quiet, m);
    SteadyRun(p, d, entered);
    var more := QuietEnds(p, d, Run(p, INITIAL, entered).state, quiet);
    RunJoined(p, entered, Repeated(quiet, more));
    n := m + more;
    assert entered + Repeated(quiet, more) == Repeated(loud, k) + Repeated(quiet, n);
  }

  lemma {:induction false} RunJoined(p: Params, a: seq<Frame>, b: seq<Frame>)
    ensures Run(p, INITIAL, a + b).state == Run(p, Run(p, INITIAL, a).state, b).state
  {
    DrainConcat(Detector(p), INITIAL, a, b);
  }

  /** Some frames of d ms come into candidate end, some end a segment by silence, and repeating a loud frame and then
      a quiet one of d ms ends one by silence: each if and only if d divides both windows. */
  lemma {:induction false} SilenceEndsIff(p: Params, d: int, loud: Frame, quiet: Frame)
    requires Detecting(p) && p.startWindowMs + p.endWindowMs < p.maxSegmentMs && d > 0
    requires Lasts(p, loud, d) && loud.rms >= p.minEnterRMS && loud.rms >= 0.0 && Accepts(p, loud)
    requires Lasts(p, quiet, d) && quiet.rms < p.minKeepRMS && Confirms(p, quiet)
    ensures (exists frames :: AllLast(p, frames, d) && Run(p, INITIAL, frames).state.phase == CandidateEnd)
      <==> p.startWindowMs % d == 0 && p.endWindowMs % d == 0
    ensures (exists frames, f ::
              AllLast(p, frames, d) && Lasts(p, f, d) && EndsBySilence(p, Run(p, INITIAL, frames).state, f))
      <==> p.startWindowMs % d == 0 && p.endWindowMs % d == 0
    ensures (exists k: nat, n: nat ::
              EndsBySilence(p, Run(p, INITIAL, Repeated(loud, k) + Repeated(quiet, n)).state, quiet))
      <==> p.startWindowMs % d == 0 && p.endWindowMs % d == 0
  {
    if p.startWindowMs % d == 0 && p.endWindowMs % d == 0 {
      var k, n := LoudThenQuiet(p, d, loud, quiet);
      var frames := Repeated(loud, k) + Repeated(quiet, n);
      assert AllLast(p, frames, d);
      assert EndsBySilence(p, Run(p, INITIAL, frames).state, quiet);
    } else {
      forall frames | AllLast(p, frames, d)
        ensures Run(p, INITIAL, frames).state.phase != CandidateEnd
      {
        if p.endWindowMs % d != 0 { NeverCandidateEnd(p, d, frames); } else { NeverStarts(p, d, frames); }
      }
      forall k: nat, n: nat
        ensures !EndsBySilence(p, Run(p, INITIAL, Repeated(loud, k) + Repeated(quiet, n)).state, quiet)
      {
        assert AllLast(p, Repeated(loud, k) + Repeated(quiet, n), d);
      }
    }
  }
}
