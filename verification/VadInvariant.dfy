/** What every step of the detector keeps, and the four shapes a step can have. */
module VadInvariant {
  import opened Media
  import opened Streams
  import opened Subsequences
  import opened Windows
  import opened VadModel

  /** A segment is open from its confirmed start to its end. */
  predicate Open(s: VadState) {
    s.phase == InSpeech || s.phase == CandidateEnd
  }

  /** Frames that carry at least one sample. */
  predicate Measured(p: Params, f: Frame) {
    PcmDurationMs(f.packet.data, p.sampleRate) > 0
  }

  predicate AudioFrame(f: Frame) {
    !f.packet.IsSegmentEnd()
  }

  predicate AudioFrames(frames: seq<Frame>) {
    forall i :: 0 <= i < |frames| ==> AudioFrame(frames[i])
  }

  /** Every buffered frame carries its own duration. */
  predicate Chunks(p: Params, w: Audio) {
    forall i :: 0 <= i < |w| ==> w[i].ms > 0 && w[i].ms == PcmDurationMs(w[i].item, p.sampleRate)
  }

  /** The two windows have entries of the same durations. */
  predicate Lockstep(b: Audio, a: Activity) {
    |b| == |a| && forall i :: 0 <= i < |b| ==> b[i].ms == a[i].ms
  }

  predicate Inv(p: Params, s: VadState) {
    && Chunks(p, s.preRoll) && Chunks(p, s.startBuffer) && Chunks(p, s.tailBuffer)
    && Positive(s.startActivity) && Positive(s.speechActivity)
    && Lockstep(s.startBuffer, s.startActivity)
    && Total(s.preRoll) <= p.preRollMs
    && Total(s.startBuffer) <= p.startWindowMs
    && Total(s.speechActivity) <= p.endWindowMs
    && (s.phase != CandidateStart ==> s.startBuffer == [])
    && (s.phase == CandidateEnd <==> s.tailBuffer != [])
    && (Open(s) ==> s.preRoll == [])
    && (!Open(s) ==> s.speechActivity == [] && s.segmentDurationMs == 0 && s.segmentStartMs == 0)
    && (s.phase == CandidateEnd ==> Total(s.tailBuffer) > 0)
  }

  /** Everything the detector holds back, in order. */
  function Pending(s: VadState): Audio {
    s.preRoll + s.startBuffer + s.tailBuffer
  }

  function Chunk(p: Params, f: Frame): Timed<Payload> {
    Timed(f.packet.data, PcmDurationMs(f.packet.data, p.sampleRate))
  }

  /** The start buffer with the frame pushed. */
  function Started(p: Params, s: VadState, f: Frame): Audio {
    Pushed(s.startBuffer, f.packet.data, PcmDurationMs(f.packet.data, p.sampleRate), p.startWindowMs)
  }

  /** No segment is open before or after: nothing is handed on, and what is held back afterwards was
      held back before or is the new frame. */
  ghost predicate Waits(p: Params, s: VadState, f: Frame, o: VadOut) {
    && !Open(s) && !Open(o.state)
    && o.packets == [] && o.events == []
    && Subsequence(Items(Pending(o.state)), Items(Pending(s)) + [f.packet.data])
  }

  /** A segment opens: pre-roll and start buffer are handed on with one speaking event. */
  ghost predicate Opens(p: Params, s: VadState, f: Frame, o: VadOut) {
    && !Open(s) && o.state.phase == InSpeech
    && o.events == [Speaking(f.packet.trackID, f.now)]
    && Started(p, s, f) != []
    && o.packets == Packed(f.packet.trackID, s.preRoll + Started(p, s, f))
    && o.state.segmentDurationMs == Total(Started(p, s, f))
    && o.state.segmentStartMs == (if f.now - Total(Started(p, s, f)) < 0 then f.now
        else f.now - Total(Started(p, s, f)))
  }

  /** An open segment goes on: the frame joins the tail, and all of the tail is handed on or none. */
  ghost predicate Carries(p: Params, s: VadState, f: Frame, o: VadOut) {
    && Open(s) && Open(o.state)
    && o.events == []
    && o.state.segmentStartMs == s.segmentStartMs
    && if o.state.phase == CandidateEnd then
         && o.packets == []
         && o.state.tailBuffer == s.tailBuffer + [Chunk(p, f)]
         && o.state.segmentDurationMs == s.segmentDurationMs
       else
         && o.packets == Packed(f.packet.trackID, s.tailBuffer + [Chunk(p, f)])
         && o.state.segmentDurationMs == s.segmentDurationMs + Total(s.tailBuffer + [Chunk(p, f)])
  }

  /** An open segment ends: a non-empty first part of the tail with the frame is handed on, then the end mark. */
  ghost predicate Ends(p: Params, s: VadState, f: Frame, o: VadOut, kept: nat) {
    && Open(s) && o.state.phase == Idle && Pending(o.state) == []
    && 0 < kept <= |s.tailBuffer| + 1
    && o.packets == Packed(f.packet.trackID, (s.tailBuffer + [Chunk(p, f)])[..kept]) + [EndPacket(f.packet.trackID)]
    && o.events == EndEvents(s, f.packet.trackID, f.now)
  }

  ghost predicate StepShape(p: Params, s: VadState, f: Frame, o: VadOut) {
    if !Measured(p, f) then o == Out(s, [], [])
    else
      || Waits(p, s, f, o) || Opens(p, s, f, o) || Carries(p, s, f, o)
      || exists kept :: Ends(p, s, f, o, kept)
  }

  // ----- window facts

  lemma {:induction false} LockstepTotal(b: Audio, a: Activity)
    requires Lockstep(b, a)
    ensures Total(b) == Total(a)
  {
    if b != [] { LockstepTotal(b[1..], a[1..]); }
  }

  lemma {:induction false} LockstepFit(b: Audio, a: Activity, limit: int)
    requires Lockstep(b, a)
    ensures Lockstep(Fit(b, limit), Fit(a, limit))
    decreases |b|
  {
    LockstepTotal(b, a);
    if !(limit <= 0 || Total(b) <= limit) { LockstepFit(b[1..], a[1..], limit); }
  }

  lemma {:induction false} ChunksFit(p: Params, w: Audio, limit: int)
    requires Chunks(p, w)
    ensures Chunks(p, Fit(w, limit))
  {
    FitIsSuffix(w, limit);
  }

  lemma {:induction false} FitFacts(p: Params, w: Audio, limit: int)
    requires Chunks(p, w) && limit > 0
    ensures Chunks(p, Fit(w, limit)) && Total(Fit(w, limit)) <= limit
    ensures Subsequence(Items(Fit(w, limit)), Items(w))
  {
    ChunksFit(p, w, limit);
    FitTotal(w, limit);
    FitIsSuffix(w, limit);
    var kept := Fit(w, limit);
    assert Items(kept) == Items(w)[|w| - |kept|..];
    SuffixIsSubsequence(Items(w), |w| - |kept|);
  }

  lemma {:induction false} PushedFacts(p: Params, w: Audio, f: Frame, limit: int)
    requires Chunks(p, w) && Measured(p, f) && limit > 0
    ensures var w' := Pushed(w, f.packet.data, Chunk(p, f).ms, limit);
      && w' == Fit(w + [Chunk(p, f)], limit)
      && Chunks(p, w') && Total(w') <= limit
      && Subsequence(Items(w'), Items(w) + [f.packet.data])
  {
    var grown := w + [Chunk(p, f)];
    FitFacts(p, grown, limit);
    assert Items(grown) == Items(w) + [f.packet.data];
  }

  lemma {:induction false} ActivityPushed(a: Activity, active: bool, ms: int, limit: int)
    requires Positive(a) && ms > 0 && limit > 0
    ensures var a' := Pushed(a, active, ms, limit); Positive(a') && Total(a') <= limit
  {
    FitPositive(a + [Timed(active, ms)], limit);
    FitTotal(a + [Timed(active, ms)], limit);
  }

  lemma {:induction false} ItemsConcat<T>(a: seq<Timed<T>>, b: seq<Timed<T>>)
    ensures Items(a + b) == Items(a) + Items(b)
  {
  }

  lemma {:induction false} ChunksPositive(p: Params, w: Audio)
    requires Chunks(p, w)
    ensures Positive(w) && Total(w) >= |w|
  {
    TotalNonnegative(w);
  }

  // ----- not open

  lemma {:induction false} RejectFacts(p: Params, s: VadState)
    requires ValidParams(p) && Inv(p, s.(phase := CandidateStart)) && s.tailBuffer == []
    ensures Inv(p, RejectStart(p, s))
    ensures Subsequence(Items(Pending(RejectStart(p, s))), Items(s.preRoll + s.startBuffer))
  {
    ChunksPositive(p, s.startBuffer);
    PushAllKeepsLongestSuffix(s.preRoll, s.startBuffer, p.preRollMs);
    FitFacts(p, s.preRoll + s.startBuffer, p.preRollMs);
    RejectedState(p, s.(phase := CandidateStart), RejectStart(p, s));
  }

  lemma {:induction false} RejectedState(p: Params, before: VadState, s: VadState)
    requires Inv(p, before) && !Open(before) && before.tailBuffer == []
    requires s.phase == Idle && s.startBuffer == [] && s.startActivity == [] && s.tailBuffer == []
    requires s.speechActivity == before.speechActivity
    requires s.segmentStartMs == before.segmentStartMs && s.segmentDurationMs == before.segmentDurationMs
    requires Chunks(p, s.preRoll) && Total(s.preRoll) <= p.preRollMs && ValidParams(p)
    ensures Inv(p, s) && Pending(s) == s.preRoll
  {}

  /** The outcome of the start decision, from a state whose start buffer already holds the frame. */
  lemma {:induction false} ConfirmStartFacts(p: Params, s: VadState, f: Frame)
    requires ValidParams(p) && Inv(p, s) && s.phase == CandidateStart
    ensures var o := MaybeConfirmStart(p, s, f);
      && Inv(p, o.state)
      && if o.state.phase == InSpeech then
           && o.result == Result(Packed(f.packet.trackID, s.preRoll) + Packed(f.packet.trackID, s.startBuffer),
                                 [Speaking(f.packet.trackID, f.now)])
           && s.startBuffer != []
           && o.state.segmentDurationMs == Total(s.startBuffer)
           && o.state.segmentStartMs == (if f.now - Total(s.startBuffer) < 0 then f.now
               else f.now - Total(s.startBuffer))
         else
           && !Open(o.state) && o.result == NOTHING
           && Subsequence(Items(Pending(o.state)), Items(Pending(s)))
  {
    LockstepTotal(s.startBuffer, s.startActivity);
    var o := MaybeConfirmStart(p, s, f);
    if o.state.phase == Idle {
      assert o.state == RejectStart(p, s);
      RejectFacts(p, s);
      assert Pending(s) == s.preRoll + s.startBuffer;
    } else if o.state.phase == CandidateStart {
      assert o.state == s;
      SubsequenceOfItself(Items(Pending(s)));
    } else {
      assert o.state == AcceptStart(s, f.packet.trackID, f.now).0;
    }
  }

  lemma {:induction false} IdleFacts(p: Params, s: VadState, f: Frame)
    requires ValidParams(p) && Inv(p, s) && s.phase == Idle && Measured(p, f)
    ensures var o := Handed(ProcessIdle(p, s, f, Chunk(p, f).ms));
      Inv(p, o.state) && (Waits(p, s, f, o) || Opens(p, s, f, o))
  {
    assert Pending(s) == s.preRoll;
    if !EnterHit(p, s, f.rms) {
      PushedFacts(p, s.preRoll, f, p.preRollMs);
      var s' := ProcessIdle(p, s, f, Chunk(p, f).ms).state;
      assert Pending(s') == s'.preRoll;
    } else {
      var s' := s.(phase := CandidateStart,
                   startBuffer := Pushed([], f.packet.data, Chunk(p, f).ms, p.startWindowMs),
                   startActivity := Pushed([], true, Chunk(p, f).ms, p.startWindowMs));
      StartHeardFacts(p, s, f, true, s');
      ConfirmStartFacts(p, s', f);
      StartOutcome(p, s, f, s');
    }
  }

  lemma {:induction false} StartHeardFacts(p: Params, s: VadState, f: Frame, active: bool, s': VadState)
    requires ValidParams(p) && Inv(p, s) && !Open(s) && Measured(p, f)
    requires s'.startBuffer == Started(p, s, f)
    requires s'.startActivity == Pushed(s.startActivity, active, Chunk(p, f).ms, p.startWindowMs)
    requires s'.phase == CandidateStart && s'.preRoll == s.preRoll && s'.tailBuffer == [] && s'.speechActivity == []
    requires s'.segmentDurationMs == 0 && s'.segmentStartMs == 0
    ensures Inv(p, s')
    ensures Subsequence(Items(Pending(s')), Items(Pending(s)) + [f.packet.data])
  {
    PushedFacts(p, s.startBuffer, f, p.startWindowMs);
    ActivityPushed(s.startActivity, active, Chunk(p, f).ms, p.startWindowMs);
    LockstepPushed(p, s, f, active);
    PreRollStays(s.preRoll, s.startBuffer, s'.startBuffer, f.packet.data);
    assert Pending(s') == s.preRoll + s'.startBuffer;
    assert Pending(s) == s.preRoll + s.startBuffer;
  }

  lemma {:induction false} LockstepPushed(p: Params, s: VadState, f: Frame, active: bool)
    requires Lockstep(s.startBuffer, s.startActivity) && Measured(p, f)
    ensures Lockstep(Started(p, s, f), Pushed(s.startActivity, active, Chunk(p, f).ms, p.startWindowMs))
  {
    LockstepFit(s.startBuffer + [Chunk(p, f)], s.startActivity + [Timed(active, Chunk(p, f).ms)], p.startWindowMs);
  }

  lemma {:induction false} PreRollStays(preRoll: Audio, b: Audio, b': Audio, data: Payload)
    requires Subsequence(Items(b'), Items(b) + [data])
    ensures Subsequence(Items(preRoll + b'), Items(preRoll + b) + [data])
  {
    ItemsConcat(preRoll, b);
    ItemsConcat(preRoll, b');
    SubsequenceBehind(Items(preRoll), Items(b'), Items(b), data);
  }

  lemma {:induction false} StartOutcome(p: Params, s: VadState, f: Frame, s': VadState)
    requires ValidParams(p) && Inv(p, s) && !Open(s) && Inv(p, s') && s'.phase == CandidateStart
    requires s'.startBuffer == Started(p, s, f) && s'.preRoll == s.preRoll
    requires Subsequence(Items(Pending(s')), Items(Pending(s)) + [f.packet.data])
    ensures var o := Handed(MaybeConfirmStart(p, s', f)); Waits(p, s, f, o) || Opens(p, s, f, o)
  {
    ConfirmStartFacts(p, s', f);
    var o := Handed(MaybeConfirmStart(p, s', f));
    if o.state.phase == InSpeech {
      PackedConcat(f.packet.trackID, s.preRoll, s'.startBuffer);
    } else {
      SubsequenceTransitive(Items(Pending(o.state)), Items(Pending(s')), Items(Pending(s)) + [f.packet.data]);
    }
  }

  lemma {:induction false} CandidateStartFacts(p: Params, s: VadState, f: Frame)
    requires ValidParams(p) && Inv(p, s) && s.phase == CandidateStart && Measured(p, f)
    ensures var o := Handed(ProcessCandidateStart(p, s, f, Chunk(p, f).ms));
      Inv(p, o.state) && (Waits(p, s, f, o) || Opens(p, s, f, o))
  {
    var s' := StartHeard(p, s, f, Chunk(p, f).ms);
    StartHeardFacts(p, s, f, EnterHit(p, s, f.rms), s');
    ConfirmStartFacts(p, s', f);
    StartOutcome(p, s, f, s');
  }

  // ----- open

  lemma {:induction false} HeardFacts(p: Params, s: VadState, f: Frame)
    requires ValidParams(p) && Inv(p, s) && Measured(p, f)
    ensures var s' := Heard(p, s, f, Chunk(p, f).ms);
      && Positive(s'.speechActivity) && Total(s'.speechActivity) <= p.endWindowMs
      && s' == s.(noiseFloor := s'.noiseFloor, noiseReady := s'.noiseReady, speechActivity := s'.speechActivity)
  {
    ActivityPushed(s.speechActivity, KeepHit(p, s, f.rms), Chunk(p, f).ms, p.endWindowMs);
  }

  lemma {:induction false} EnterEndFacts(p: Params, s: VadState, heard: VadState, f: Frame)
    requires ValidParams(p) && s.phase == InSpeech && Measured(p, f)
    requires Inv(p, s) && Inv(p, heard) && heard.phase == InSpeech
    requires heard.segmentStartMs == s.segmentStartMs && heard.segmentDurationMs == s.segmentDurationMs
    ensures var o := Out(heard.(phase := CandidateEnd, tailBuffer := Pushed([], f.packet.data, Chunk(p, f).ms, 0)),
        [], []);
      Inv(p, o.state) && Carries(p, s, f, o)
  {
    var one := [Chunk(p, f)];
    assert s.tailBuffer + one == one;
    assert Total(one) == Chunk(p, f).ms;
    assert Pushed([], f.packet.data, Chunk(p, f).ms, 0) == one;
  }

  lemma {:induction false} OneChunk(p: Params, tail: Audio, f: Frame)
    requires tail == [] && f.packet.kind == Audio
    ensures var one := [Chunk(p, f)];
      tail + one == one && one[..1] == one && Total(one) == Chunk(p, f).ms
          && [f.packet] == Packed(f.packet.trackID, one)
  {
    assert [Chunk(p, f)][1..] == [];
  }

  lemma {:induction false} StillSpeaking(p: Params, s: VadState, heard: VadState, f: Frame)
    requires s.phase == InSpeech && f.packet.kind == Audio
    requires Inv(p, s) && Inv(p, heard) && heard.phase == InSpeech && heard.segmentStartMs == s.segmentStartMs
    ensures var o := Out(heard.(segmentDurationMs := s.segmentDurationMs + Chunk(p, f).ms), [f.packet], []);
      Inv(p, o.state) && Carries(p, s, f, o)
  {
    OneChunk(p, s.tailBuffer, f);
  }

  lemma {:induction false} CutSpeaking(p: Params, s: VadState, grown: VadState, f: Frame)
    requires ValidParams(p) && Inv(p, s) && s.phase == InSpeech && f.packet.kind == Audio
        && grown.segmentStartMs == s.segmentStartMs
    ensures var o := Out(ResetToIdle(grown), [f.packet] + [EndPacket(f.packet.trackID)],
        EndEvents(grown, f.packet.trackID, f.now));
      Inv(p, o.state) && Ends(p, s, f, o, 1)
  {
    OneChunk(p, s.tailBuffer, f);
  }

  lemma {:induction false} SpeakingOutcome(p: Params, s: VadState, f: Frame)
    requires !ShouldEnterCandidateEnd(p, Heard(p, s, f, Chunk(p, f).ms)) && p.maxSegmentMs > 0
    ensures var grown := Heard(p, s, f, Chunk(p, f).ms).(segmentDurationMs := s.segmentDurationMs + Chunk(p, f).ms);
      Handed(ProcessSpeaking(p, s, f, Chunk(p, f).ms))
      == if grown.segmentDurationMs < p.maxSegmentMs then Out(grown, [f.packet], [])
         else Out(ResetToIdle(grown), [f.packet] + [EndPacket(f.packet.trackID)],
             EndEvents(grown, f.packet.trackID, f.now))
  {
    assert [] + EndEvents(s, f.packet.trackID, f.now) == EndEvents(s, f.packet.trackID, f.now);
  }

  lemma {:induction false} SpeakingFacts(p: Params, s: VadState, f: Frame)
    requires ValidParams(p) && Inv(p, s) && s.phase == InSpeech && Measured(p, f) && f.packet.kind == Audio
    ensures var o := Handed(ProcessSpeaking(p, s, f, Chunk(p, f).ms));
      Inv(p, o.state) && (Carries(p, s, f, o) || Ends(p, s, f, o, 1))
  {
    HeardFacts(p, s, f);
    var heard := Heard(p, s, f, Chunk(p, f).ms);
    assert Inv(p, heard);
    if ShouldEnterCandidateEnd(p, heard) {
      EnterEndFacts(p, s, heard, f);
    } else {
      SpeakingOutcome(p, s, f);
      StillSpeaking(p, s, heard, f);
      CutSpeaking(p, s, heard.(segmentDurationMs := s.segmentDurationMs + Chunk(p, f).ms), f);
    }
  }

  lemma {:induction false} CandidateEndFacts(p: Params, s: VadState, f: Frame)
    requires ValidParams(p) && Inv(p, s) && s.phase == CandidateEnd && Measured(p, f)
    ensures var o := Handed(ProcessCandidateEnd(p, s, f, Chunk(p, f).ms));
      Inv(p, o.state) && (Carries(p, s, f, o) || exists kept :: Ends(p, s, f, o, kept))
  {
    HeardFacts(p, s, f);
    var heard := Heard(p, s, f, Chunk(p, f).ms);
    var tail := s.tailBuffer + [Chunk(p, f)];
    assert Pushed(s.tailBuffer, f.packet.data, Chunk(p, f).ms, 0) == tail;
    ChunksPositive(p, tail);
    TailDecision(p, s, heard.(tailBuffer := tail), f);
  }

  lemma {:induction false} TailDecision(p: Params, s: VadState, s': VadState, f: Frame)
    requires ValidParams(p) && s.phase == CandidateEnd
    requires s'.tailBuffer == s.tailBuffer + [Chunk(p, f)]
    requires s'.phase == s.phase && s'.segmentStartMs == s.segmentStartMs && s'.segmentDurationMs == s.segmentDurationMs
    requires Inv(p, s')
    ensures var o := Handed(DecideTail(p, s', f));
      Inv(p, o.state) && (Carries(p, s, f, o) || exists kept :: Ends(p, s, f, o, kept))
  {
    if ShouldResumeSpeaking(p, s') {
      ResumeFacts(p, s, s', f, Handed(DecideTail(p, s', f)));
    } else if Total(s'.tailBuffer) >= p.silencePaddingMs && ShouldConfirmEnd(p, s') {
      ConfirmEndFacts(p, s, s', f, Handed(DecideTail(p, s', f)));
    }
  }

  lemma {:induction false} WholeTail(p: Params, s: VadState, s': VadState, f: Frame)
    requires ValidParams(p) && s.phase == CandidateEnd && Inv(p, s')
    requires s'.tailBuffer == s.tailBuffer + [Chunk(p, f)]
    requires s'.phase == s.phase && s'.segmentStartMs == s.segmentStartMs && s'.segmentDurationMs == s.segmentDurationMs
    ensures var back := ReturnTail(s'); var packets := Packed(f.packet.trackID, s'.tailBuffer);
      && Inv(p, back) && Carries(p, s, f, Out(back, packets, []))
      && var o := Out(ResetToIdle(back), packets + [EndPacket(f.packet.trackID)],
          EndEvents(back, f.packet.trackID, f.now));
      Inv(p, o.state) && Ends(p, s, f, o, |s'.tailBuffer|)
  {
    var tail := s'.tailBuffer;
    assert tail[..|tail|] == tail;
  }

  lemma {:induction false} ResumeFacts(p: Params, s: VadState, s': VadState, f: Frame, o: VadOut)
    requires ValidParams(p) && s.phase == CandidateEnd
    requires s'.tailBuffer == s.tailBuffer + [Chunk(p, f)]
    requires s'.phase == s.phase && s'.segmentStartMs == s.segmentStartMs && s'.segmentDurationMs == s.segmentDurationMs
    requires Inv(p, s')
    requires var (s'', result) :=
        MaybeForceSegmentEnd(p, ReturnTail(s'), f, Result(Packed(f.packet.trackID, s'.tailBuffer), []));
      o == Out(s'', result.packets, result.events)
    ensures Inv(p, o.state) && (Carries(p, s, f, o) || exists kept :: Ends(p, s, f, o, kept))
  {
    WholeTail(p, s, s', f);
    if o.state != ReturnTail(s') {
      var back := ReturnTail(s');
      assert [] + EndEvents(back, f.packet.trackID, f.now) == EndEvents(back, f.packet.trackID, f.now);
      assert Ends(p, s, f, o, |s'.tailBuffer|);
    }
  }

  lemma {:induction false} KeptPadding(p: Params, tail: Audio) returns (kept: nat)
    requires p.tailPaddingMs > 0 && Chunks(p, tail) && tail != []
    ensures 0 < kept <= |tail| && Lead(tail, p.tailPaddingMs) == tail[..kept]
  {
    LeadIsShortestPrefix(tail, p.tailPaddingMs);
    kept := |Lead(tail, p.tailPaddingMs)|;
  }

  lemma {:induction false} ConfirmEndFacts(p: Params, s: VadState, s': VadState, f: Frame, o: VadOut)
    requires ValidParams(p) && s.phase == CandidateEnd
    requires s'.tailBuffer == s.tailBuffer + [Chunk(p, f)]
    requires s'.phase == s.phase && s'.segmentStartMs == s.segmentStartMs && s'.segmentDurationMs == s.segmentDurationMs
    requires Inv(p, s') && o == Handed(ConfirmEnd(p, s', f))
    ensures Inv(p, o.state) && (Carries(p, s, f, o) || exists kept :: Ends(p, s, f, o, kept))
  {
    if Open(o.state) {
      assert o.state == ReturnTail(s') && o.packets == Packed(f.packet.trackID, s'.tailBuffer);
    } else {
      var kept := KeptPadding(p, s'.tailBuffer);
      assert Ends(p, s, f, o, kept);
    }
  }

  // ----- every step

  /** Which branch a measured audio frame takes. */
  lemma {:induction false} Dispatch(p: Params, s: VadState, f: Frame)
    requires p.mode != Passthrough && Measured(p, f) && f.packet.kind == Audio
    ensures Process(p, s, f) ==
      match s.phase
      case Idle => ProcessIdle(p, s, f, Chunk(p, f).ms)
      case CandidateStart => ProcessCandidateStart(p, s, f, Chunk(p, f).ms)
      case InSpeech => ProcessSpeaking(p, s, f, Chunk(p, f).ms)
      case CandidateEnd => ProcessCandidateEnd(p, s, f, Chunk(p, f).ms)
  {
  }

  lemma {:induction false} MeasuredStep(p: Params, s: VadState, f: Frame, o: VadOut)
    requires ValidParams(p) && p.mode != Passthrough
    requires Inv(p, s) && Measured(p, f) && f.packet.kind == Audio
    requires o == Handed(match s.phase
      case Idle => ProcessIdle(p, s, f, Chunk(p, f).ms)
      case CandidateStart => ProcessCandidateStart(p, s, f, Chunk(p, f).ms)
      case InSpeech => ProcessSpeaking(p, s, f, Chunk(p, f).ms)
      case CandidateEnd => ProcessCandidateEnd(p, s, f, Chunk(p, f).ms))
    ensures Inv(p, o.state) && StepShape(p, s, f, o)
  {
    match s.phase
    case Idle => IdleFacts(p, s, f);
    case CandidateStart => CandidateStartFacts(p, s, f);
    case InSpeech => SpeakingFacts(p, s, f);
    case CandidateEnd => CandidateEndFacts(p, s, f);
  }

  /** Every step from a good state leads to a good state and has one of the four shapes. */
  lemma {:induction false} StepFacts(p: Params, s: VadState, f: Frame)
    requires Detecting(p)
    requires Inv(p, s) && AudioFrame(f)
    ensures Inv(p, Handed(Process(p, s, f)).state)
    ensures StepShape(p, s, f, Handed(Process(p, s, f)))
  {
    var g := f.(packet := Resolved(f.packet));
    var o := Handed(Process(p, s, f));
    if Measured(p, f) {
      assert o == Handed(Process(p, s, g));
      Dispatch(p, s, g);
      MeasuredStep(p, s, g, o);
      ShapeIgnoresKind(p, s, f, g, o);
    }
  }

  lemma {:induction false} ShapeIgnoresKind(p: Params, s: VadState, f: Frame, g: Frame, o: VadOut)
    requires g == f.(packet := Resolved(f.packet)) && StepShape(p, s, g, o) && Measured(p, f)
    ensures StepShape(p, s, f, o)
  {
    if kept :| Ends(p, s, g, o, kept) {
      assert Ends(p, s, f, o, kept);
    }
  }

  predicate Detecting(p: Params) {
    ValidParams(p) && p.mode != Passthrough
  }

  /** A step function all of whose steps from good states are good and have one of the four shapes. */
  ghost predicate Conforms(p: Params, step: Step<VadState, Frame, Packet, Event>) {
    forall s: VadState, f: Frame {:trigger step(s, f)} :: Inv(p, s) && AudioFrame(f) ==>
      Inv(p, step(s, f).state) && StepShape(p, s, f, step(s, f))
  }

  lemma {:induction false} DetectorConforms(p: Params)
    requires Detecting(p)
    ensures Conforms(p, Detector(p))
  {
    forall s: VadState, f: Frame | Inv(p, s) && AudioFrame(f)
      ensures Inv(p, Detector(p)(s, f).state) && StepShape(p, s, f, Detector(p)(s, f))
    {
      StepFacts(p, s, f);
    }
  }

  /** The parameters the constructor derives are valid, and its initial state is good. */
  lemma {:induction false} DerivedParams(option: VadOption, hasScorer: bool)
    ensures var p := Derive(option, hasScorer);
      ValidParams(p) && p.startWindowMs + p.endWindowMs < p.maxSegmentMs && p.minKeepRMS > 0.0
    ensures Inv(Derive(option, hasScorer), INITIAL)
  {
  }
}
