/** What decides each turn of the detector: exactly when a segment opens, pauses and ends, what the scorer is asked,
    and how each window and buffer these decisions look at follows from the frames heard so far. */
module VadDecisions {
  import opened Media
  import opened Streams
  import opened Windows
  import opened VadModel
  import opened VadInvariant
  import opened VadRuns
  import opened VadTiming

  // ----- what the decisions mean, told without the detector's own tests

  /** At least as loud as the fixed minimum and, once there is a noise floor, as the given multiple of it; never
      less than nothing. */
  predicate AtLeast(s: VadState, rms: real, minimum: real, ratio: real) {
    rms >= minimum && rms >= if s.noiseReady then s.noiseFloor * ratio else 0.0
  }

  /** The frame counts as speech: a segment is entered at the higher thresholds and kept at the lower ones. */
  predicate Loud(p: Params, s: VadState, f: Frame) {
    if Open(s) then AtLeast(s, f.rms, p.minKeepRMS, p.keepRatio) else AtLeast(s, f.rms, p.minEnterRMS, p.enterRatio)
  }

  function Mark(p: Params, s: VadState, f: Frame): Timed<bool> {
    Timed(Loud(p, s, f), PcmDurationMs(f.packet.data, p.sampleRate))
  }

  /** The window is exactly full, and at least, or at most, so many fifths of it are speech. */
  predicate FullAndOver(w: Activity, limit: int, fifths: int) {
    Total(w) == limit && 5 * ActiveMs(w) >= fifths * limit
  }

  predicate FullAndUnder(w: Activity, limit: int, fifths: int) {
    Total(w) == limit && 5 * ActiveMs(w) <= fifths * limit
  }

  /** There is a scorer to ask, only a hybrid detector asks it, and it answers with a score below, or not below. */
  predicate Asks(p: Params) {
    p.mode == Hybrid && p.hasScorer
  }

  predicate ScoresBelow(p: Params, f: Frame, threshold: real) {
    Asks(p) && f.answer != ScorerError && f.answer.score < threshold
  }

  predicate ScoresFrom(p: Params, f: Frame, threshold: real) {
    Asks(p) && f.answer != ScorerError && f.answer.score >= threshold
  }

  function StartWindow(p: Params, s: VadState, f: Frame): Activity {
    Fit(s.startActivity + [Mark(p, s, f)], p.startWindowMs)
  }

  function SpeechWindow(p: Params, s: VadState, f: Frame): Activity {
    Fit(s.speechActivity + [Mark(p, s, f)], p.endWindowMs)
  }

  // ----- no segment is open

  /** What the detector would send to the scorer: pre-roll and start buffer. */
  function StartBytes(p: Params, s: VadState, f: Frame): Payload {
    Joined(s.preRoll) + Joined(Fit(s.startBuffer + [Chunk(p, f)], p.startWindowMs))
  }

  /** The decision on a start, read off the window w with the frame, and the bytes the scorer would hear. */
  ghost predicate StartDecided(p: Params, f: Frame, w: Activity, bytes: Payload, o: Outcome) {
    var over := FullAndOver(w, p.startWindowMs, 3);
    && (o.state.phase == InSpeech <==> over && !ScoresBelow(p, f, p.startThreshold))
    && (over && ScoresBelow(p, f, p.startThreshold) ==> o.state.phase == Idle && o.result == NOTHING)
    && (!over && Total(w) == p.startWindowMs && ActiveMs(w) == 0 ==> o.state.phase == Idle && o.result == NOTHING)
    && (!over && (Total(w) != p.startWindowMs || ActiveMs(w) != 0) ==>
          o.state.phase == CandidateStart && o.result == NOTHING && o.state.startActivity == w)
    && (o.state.phase == InSpeech ==> o.state.speechActivity == w)
    && o.asked == if over && Asks(p) then [bytes] else []
  }

  lemma {:induction false} ConfirmDecided(p: Params, s: VadState, f: Frame)
    requires ValidParams(p) && Lockstep(s.startBuffer, s.startActivity) && s.phase == CandidateStart
    requires Total(s.startActivity) <= p.startWindowMs
    ensures StartDecided(p, f, s.startActivity, Joined(s.preRoll) + Joined(s.startBuffer), MaybeConfirmStart(p, s, f))
  {
    LockstepTotal(s.startBuffer, s.startActivity);
  }

  lemma {:induction false} StartPushes(p: Params, s: VadState, f: Frame)
    requires ValidParams(p) && Inv(p, s) && !Open(s) && Measured(p, f)
    ensures var a, b := StartWindow(p, s, f), Fit(s.startBuffer + [Chunk(p, f)], p.startWindowMs);
      && a == Pushed(s.startActivity, Loud(p, s, f), Chunk(p, f).ms, p.startWindowMs)
      && b == Started(p, s, f)
      && Lockstep(b, a) && Total(a) <= p.startWindowMs
  {
    LockstepPushed(p, s, f, Loud(p, s, f));
    ActivityPushed(s.startActivity, Loud(p, s, f), Chunk(p, f).ms, p.startWindowMs);
  }

  lemma {:induction false} OneMark(m: Timed<bool>, limit: int)
    requires m.ms > 0 && limit > 0
    ensures Fit([m], limit) == (if m.ms <= limit then [m] else [])
    ensures Total(Fit([m], limit)) == limit && m.item ==> ActiveMs(Fit([m], limit)) > 0
    ensures !m.item ==> ActiveMs(Fit([m], limit)) == 0
  {
    assert [m][1..] == [];
    assert Fit<bool>([], limit) == [];
  }

  lemma {:induction false} IdleWindow(p: Params, s: VadState, f: Frame)
    requires ValidParams(p) && Inv(p, s) && s.phase == Idle && Measured(p, f)
    ensures StartWindow(p, s, f) == Fit([Mark(p, s, f)], p.startWindowMs)
  {
    assert s.startActivity + [Mark(p, s, f)] == [Mark(p, s, f)];
  }

  /** A quiet frame leaves an idle detector idle. */
  lemma {:induction false} QuietIdle(p: Params, s: VadState, f: Frame)
    requires s.phase == Idle && !Loud(p, s, f)
    ensures var o := ProcessIdle(p, s, f, Chunk(p, f).ms);
      o.state.phase == Idle && o.result == NOTHING && o.asked == []
  {
  }

  lemma {:induction false} LoudIdle(p: Params, s: VadState, f: Frame)
    requires ValidParams(p) && Inv(p, s) && s.phase == Idle && Measured(p, f) && Loud(p, s, f)
    ensures StartDecided(p, f, StartWindow(p, s, f), StartBytes(p, s, f), ProcessIdle(p, s, f, Chunk(p, f).ms))
  {
    StartPushes(p, s, f);
    var s' := s.(phase := CandidateStart, startBuffer := Started(p, s, f), startActivity := StartWindow(p, s, f));
    IdleBegins(p, s, f, s');
    ConfirmDecided(p, s', f);
  }

  lemma {:induction false} IdleBegins(p: Params, s: VadState, f: Frame, s': VadState)
    requires Inv(p, s) && s.phase == Idle && Measured(p, f) && Loud(p, s, f)
    requires s' ==
      s.(phase := CandidateStart, startBuffer := Started(p, s, f), startActivity := StartWindow(p, s, f))
    ensures ProcessIdle(p, s, f, Chunk(p, f).ms) == MaybeConfirmStart(p, s', f)
  {
    assert s.startBuffer == [] && s.startActivity == [];
    assert EnterHit(p, s, f.rms);
  }

  lemma {:induction false} CandidateDecided(p: Params, s: VadState, f: Frame)
    requires ValidParams(p) && Inv(p, s) && s.phase == CandidateStart && Measured(p, f)
    ensures StartDecided(p, f, StartWindow(p, s, f), StartBytes(p, s, f),
                         ProcessCandidateStart(p, s, f, Chunk(p, f).ms))
  {
    StartPushes(p, s, f);
    ConfirmDecided(p, StartHeard(p, s, f, Chunk(p, f).ms), f);
  }

  /** Whether the frame takes part in a start at all: an idle detector ignores quiet ones. */
  predicate Stirs(p: Params, s: VadState, f: Frame) {
    s.phase == CandidateStart || Loud(p, s, f)
  }

  /** A frame opens a segment if and only if, with it, the start window is exactly full and at least three fifths
      of it are speech, unless a consulted scorer answers below the threshold; then nothing is handed on and the
      detector is idle. It is idle too after a full window without speech, and after a quiet frame in idle. The
      scorer is asked exactly about the windows that are full and active enough, and about the whole of what would
      be handed on. */
  lemma {:induction false} OpensIff(p: Params, s: VadState, f: Frame)
    requires Detecting(p) && Inv(p, s) && !Open(s) && AudioFrame(f) && Measured(p, f)
    ensures var o, w := Process(p, s, f), StartWindow(p, s, f);
      var over := FullAndOver(w, p.startWindowMs, 3);
      && (Open(o.state) <==> over && !ScoresBelow(p, f, p.startThreshold))
      && (over && ScoresBelow(p, f, p.startThreshold) ==> o.state.phase == Idle && o.result == NOTHING)
      && (o.state.phase == Idle <==>
            || !Stirs(p, s, f)
            || (over && ScoresBelow(p, f, p.startThreshold))
            || (Total(w) == p.startWindowMs && ActiveMs(w) == 0))
      && (o.state.phase == CandidateStart ==> o.state.startActivity == w)
      && (Open(o.state) ==> o.state.phase == InSpeech && o.state.speechActivity == w)
      && o.asked == if over && Asks(p) then [StartBytes(p, s, f)] else []
  {
    var g := f.(packet := Resolved(f.packet));
    Dispatch(p, s, g);
    assert Process(p, s, f) == Process(p, s, g);
    if s.phase == CandidateStart {
      CandidateDecided(p, s, g);
    } else {
      IdleWindow(p, s, g);
      OneMark(Mark(p, s, g), p.startWindowMs);
      if Loud(p, s, g) { LoudIdle(p, s, g); } else { QuietIdle(p, s, g); }
    }
  }

  // ----- a segment is open

  lemma {:induction false} SpeechPush(p: Params, s: VadState, f: Frame)
    requires ValidParams(p) && Inv(p, s) && Open(s) && Measured(p, f)
    ensures var heard := Heard(p, s, f, Chunk(p, f).ms);
      && heard.speechActivity == SpeechWindow(p, s, f)
      && Total(heard.speechActivity) <= p.endWindowMs
      && heard.segmentDurationMs == s.segmentDurationMs && heard.phase == s.phase
  {
    HeardFacts(p, s, f);
  }

  /** In speech the segment pauses, its audio now held back, if and only if the window with the frame is exactly full
      and at most one fifth of it is speech; otherwise it goes on, and is cut if and only if that makes it reach
      the maximum. */
  lemma {:induction false} PausesIff(p: Params, s: VadState, f: Frame)
    requires Detecting(p) && Inv(p, s) && s.phase == InSpeech && AudioFrame(f) && Measured(p, f)
    ensures var o, w := Process(p, s, f), SpeechWindow(p, s, f);
      var pauses := FullAndUnder(w, p.endWindowMs, 1);
      && (o.state.phase == CandidateEnd <==> pauses)
      && (o.state.phase == Idle <==> !pauses && s.segmentDurationMs + Chunk(p, f).ms >= p.maxSegmentMs)
      && (Open(o.state) ==> o.state.speechActivity == w)
      && o.asked == []
  {
    var g := f.(packet := Resolved(f.packet));
    Dispatch(p, s, g);
    assert Process(p, s, f) == Process(p, s, g);
    SpeechPush(p, s, g);
  }

  /** The decision in candidate end, read off the window w and the audio held back, the frame included. */
  ghost predicate EndDecided(p: Params, f: Frame, w: Activity, tail: Audio, duration: int, o: Outcome) {
    var resumes := FullAndOver(w, p.endWindowMs, 2);
    var ready := FullAndUnder(w, p.endWindowMs, 1) && Total(tail) >= p.silencePaddingMs;
    var overruled := ScoresFrom(p, f, p.endThreshold);
    && (o.state.phase == Idle <==>
          (resumes && duration + Total(tail) >= p.maxSegmentMs) || (ready && !overruled))
    && (o.state.phase == InSpeech <==>
          (resumes && duration + Total(tail) < p.maxSegmentMs) || (ready && overruled))
    && (Open(o.state) ==> o.state.speechActivity == w)
    && o.asked == if ready && Asks(p) then [Joined(tail)] else []
  }

  lemma {:induction false} TailDecided(p: Params, s: VadState, f: Frame)
    requires ValidParams(p) && s.phase == CandidateEnd && Total(s.speechActivity) <= p.endWindowMs
    ensures EndDecided(p, f, s.speechActivity, s.tailBuffer, s.segmentDurationMs, DecideTail(p, s, f))
  {
  }

  /** In candidate end the frame joins the window and the tail, and then the decision falls. */
  lemma {:induction false} JoinsTail(p: Params, s: VadState, f: Frame)
    requires Detecting(p) && Inv(p, s) && s.phase == CandidateEnd && AudioFrame(f) && Measured(p, f)
    ensures var g := f.(packet := Resolved(f.packet));
      var joined := Heard(p, s, g, Chunk(p, f).ms).(tailBuffer := s.tailBuffer + [Chunk(p, f)]);
      && Process(p, s, f) == DecideTail(p, joined, g)
      && joined.speechActivity == SpeechWindow(p, s, f) && Total(joined.speechActivity) <= p.endWindowMs
      && joined.segmentDurationMs == s.segmentDurationMs && joined.phase == s.phase
  {
    var g := f.(packet := Resolved(f.packet));
    Dispatch(p, s, g);
    assert Process(p, s, f) == Process(p, s, g);
    SpeechPush(p, s, g);
    assert Pushed(s.tailBuffer, g.packet.data, Chunk(p, g).ms, 0) == s.tailBuffer + [Chunk(p, g)];
  }

  /** In candidate end the segment ends if and only if either the window with the frame is exactly full, at most one
      fifth of it is speech, the audio held back lasts at least the silence padding, and no consulted scorer answers
      at or above its threshold; or at least two fifths of the full window are speech and the returned audio makes
      the segment reach the maximum. It is back in speech if and only if that is so without reaching the maximum,
      or the scorer overrules an end. The scorer is asked about all the audio held back, and only then. */
  lemma {:induction false} EndsIff(p: Params, s: VadState, f: Frame)
    requires Detecting(p) && Inv(p, s) && s.phase == CandidateEnd && AudioFrame(f) && Measured(p, f)
    ensures var o, w, tail := Process(p, s, f), SpeechWindow(p, s, f), s.tailBuffer + [Chunk(p, f)];
      EndDecided(p, f, w, tail, s.segmentDurationMs, o)
  {
    var g := f.(packet := Resolved(f.packet));
    JoinsTail(p, s, f);
    TailDecided(p, Heard(p, s, g, Chunk(p, f).ms).(tailBuffer := s.tailBuffer + [Chunk(p, f)]), g);
  }

  // ----- what is handed on

  /** An end hands on all the audio held back if it is a cut, and otherwise the shortest first part of it that lasts
      the tail padding, or all of it if none does. */
  lemma {:induction false} EndHandsOn(p: Params, s: VadState, f: Frame) returns (kept: nat)
    requires Detecting(p) && Inv(p, s) && s.phase == CandidateEnd && AudioFrame(f) && Measured(p, f)
    requires Process(p, s, f).state.phase == Idle
    ensures var tail := s.tailBuffer + [Chunk(p, f)];
      && kept <= |tail|
      && AudioData(Process(p, s, f).result.packets) == Items(tail[..kept])
      && if FullAndOver(SpeechWindow(p, s, f), p.endWindowMs, 2) then kept == |tail|
         else
           && (kept == |tail| || Total(tail[..kept]) >= p.tailPaddingMs)
           && kept > 0 && Total(tail[..kept - 1]) < p.tailPaddingMs
  {
    var g := f.(packet := Resolved(f.packet));
    JoinsTail(p, s, f);
    var tail := s.tailBuffer + [Chunk(p, f)];
    ChunksPositive(p, tail);
    LeadIsShortestPrefix(tail, p.tailPaddingMs);
    kept := TailHandedOn(p, Heard(p, s, g, Chunk(p, f).ms).(tailBuffer := tail), g);
  }

  lemma {:induction false} TailHandedOn(p: Params, s: VadState, f: Frame) returns (kept: nat)
    requires ValidParams(p) && s.phase == CandidateEnd && Total(s.speechActivity) <= p.endWindowMs
    requires DecideTail(p, s, f).state.phase == Idle
    requires var k := |Lead(s.tailBuffer, p.tailPaddingMs)|;
      k <= |s.tailBuffer| && Lead(s.tailBuffer, p.tailPaddingMs) == s.tailBuffer[..k]
    ensures kept <= |s.tailBuffer|
    ensures AudioData(DecideTail(p, s, f).result.packets) == Items(s.tailBuffer[..kept])
    ensures kept == if FullAndOver(s.speechActivity, p.endWindowMs, 2) then |s.tailBuffer|
                    else |Lead(s.tailBuffer, p.tailPaddingMs)|
  {
    var track, tail := f.packet.trackID, s.tailBuffer;
    kept := if FullAndOver(s.speechActivity, p.endWindowMs, 2) then |tail| else |Lead(tail, p.tailPaddingMs)|;
    assert tail[..|tail|] == tail;
    assert DecideTail(p, s, f).result.packets == Packed(track, tail[..kept]) + [EndPacket(track)];
    ClosedAudio(track, tail[..kept]);
  }

  lemma {:induction false} ClosedAudio(trackID: string, w: Audio)
    ensures AudioData(Packed(trackID, w) + [EndPacket(trackID)]) == Items(w)
  {
    PackedAudio(trackID, w);
    AudioDataConcat(Packed(trackID, w), [EndPacket(trackID)]);
    assert AudioData([EndPacket(trackID)]) == AudioData([]) by { assert [EndPacket(trackID)][..0] == []; }
  }

  lemma {:induction false} JoinedIsFlat(w: Audio)
    ensures Joined(w) == Flat(Items(w))
    decreases |w|
  {
    if w != [] {
      var front, last := w[..|w| - 1], w[|w| - 1];
      JoinedIsFlat(front);
      assert Items(w) == Items(front) + [last.item];
    }
  }

  /** The scorer is asked about one payload at most, and only about audio that is handed on if it then lets it
      through: if a segment opens or goes on, the payload is exactly the audio of the call, end to end. */
  lemma {:induction false} AskedIsHandedOn(p: Params, s: VadState, f: Frame)
    requires Detecting(p) && Inv(p, s) && AudioFrame(f) && Measured(p, f)
    ensures var o := Process(p, s, f);
      |o.asked| <= 1 && (o.asked != [] ==> Asks(p)) &&
      (o.asked != [] && Open(o.state) ==> o.asked == [Flat(AudioData(o.result.packets))])
  {
    StepFacts(p, s, f);
    match s.phase
    case InSpeech => PausesIff(p, s, f);
    case CandidateEnd =>
      EndsIff(p, s, f);
      TailPacked(p, s, f);
    case _ =>
      OpensIff(p, s, f);
      StartPushes(p, s, f);
      StartPacked(p, s, f);
  }

  lemma {:induction false} StartPacked(p: Params, s: VadState, f: Frame)
    ensures var b := Started(p, s, f);
      Flat(AudioData(Packed(f.packet.trackID, s.preRoll + b))) == Joined(s.preRoll) + Joined(b)
  {
    var b := Started(p, s, f);
    PackedAudio(f.packet.trackID, s.preRoll + b);
    assert Items(s.preRoll + b) == Items(s.preRoll) + Items(b);
    FlatConcat(Items(s.preRoll), Items(b));
    JoinedIsFlat(s.preRoll);
    JoinedIsFlat(b);
  }

  lemma {:induction false} TailPacked(p: Params, s: VadState, f: Frame)
    ensures var tail := s.tailBuffer + [Chunk(p, f)];
      Flat(AudioData(Packed(f.packet.trackID, tail))) == Joined(tail)
  {
    var tail := s.tailBuffer + [Chunk(p, f)];
    PackedAudio(f.packet.trackID, tail);
    JoinedIsFlat(tail);
  }

  /** What the detector does not look at: end marks and, in passthrough mode, audio that is not empty are handed on
      as they are; packets too short to measure go nowhere; none of them changes anything. */
  lemma {:induction false} NotLookedAt(p: Params, s: VadState, f: Frame)
    requires f.packet.IsSegmentEnd() || p.mode == Passthrough || !Measured(p, f)
    ensures var o := Process(p, s, f);
      && o.state == s && o.result.events == [] && o.asked == []
      && o.result.packets ==
           if f.packet.IsSegmentEnd() then [f.packet]
           else if p.mode == Passthrough && f.packet.data != [] then [AudioPacket(f.packet.trackID, f.packet.data)]
           else []
  {
  }
}
