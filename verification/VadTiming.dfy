/** The detector on frames of one constant length: when it can fill its windows, and how soon it answers. */
module VadTiming {
  import opened Media
  import opened Streams
  import opened Windows
  import opened VadModel
  import opened VadInvariant
  import opened VadRuns
  import Codec

  /** Audio frames of d milliseconds. */
  predicate Lasts(p: Params, f: Frame, d: int) {
    AudioFrame(f) && PcmDurationMs(f.packet.data, p.sampleRate) == d
  }

  predicate AllLast(p: Params, frames: seq<Frame>, d: int) {
    forall i :: 0 <= i < |frames| ==> Lasts(p, frames[i], d)
  }

  /** What constant frames add to the invariant: uniform windows, and a full, not too active window in candidate end. */
  predicate Steady(p: Params, d: int, s: VadState) {
    && Uniform(s.startActivity, d)
    && Uniform(s.speechActivity, d)
    && (s.phase == CandidateEnd ==> Total(s.speechActivity) == p.endWindowMs && RatioBelow(s.speechActivity, 2))
  }

  // ----- windows of constant frames

  lemma {:induction false} UniformPushed<T>(w: seq<Timed<T>>, t: T, d: int, limit: int)
    requires d > 0 && limit > 0 && Uniform(w, d)
    ensures var w' := Pushed(w, t, d, limit);
      && Uniform(w', d)
      && |w'| == (if |w| + 1 <= limit / d then |w| + 1 else limit / d)
      && Total(w') == d * |w'|
  {
    UniformFit(w + [Timed(t, d)], d, limit);
  }

  /** How many entries at the end of the window carry the given mark. */
  function Trailing(w: Activity, mark: bool): (n: nat)
    ensures n <= |w|
  {
    if w == [] || w[|w| - 1].item != mark then 0 else 1 + Trailing(w[..|w| - 1], mark)
  }

  lemma {:induction false} TrailingOfSuffix(w: Activity, mark: bool, n: nat)
    requires n <= |w|
    ensures Trailing(w[n..], mark) == if Trailing(w, mark) <= |w| - n then Trailing(w, mark) else |w| - n
    decreases |w|
  {
    if n < |w| {
      assert w[n..][..|w| - n - 1] == w[..|w| - 1][n..];
      TrailingOfSuffix(w[..|w| - 1], mark, n);
    }
  }

  lemma {:induction false} TrailingGrown(w: Activity, mark: bool, d: int, n: nat)
    requires n <= |w| + 1
    ensures var grown := w + [Timed(mark, d)];
      Trailing(grown[n..], mark) == if Trailing(w, mark) + 1 <= |w| + 1 - n then Trailing(w, mark) + 1 else |w| + 1 - n
  {
    var grown := w + [Timed(mark, d)];
    assert grown[..|grown| - 1] == w;
    TrailingOfSuffix(grown, mark, n);
  }

  /** Pushing a marked frame lengthens the marked end by one, up to the whole window. */
  lemma {:induction false} TrailingPushed(w: Activity, mark: bool, d: int, limit: int)
    requires d > 0 && limit > 0 && Uniform(w, d) && |w| <= limit / d
    ensures var w' := Pushed(w, mark, d, limit);
      Trailing(w', mark) == if Trailing(w, mark) + 1 <= limit / d then Trailing(w, mark) + 1 else limit / d
  {
    var full := limit / d;
    UniformPushed(w, mark, d, limit);
    FitIsSuffix(w + [Timed(mark, d)], limit);
    var w' := Pushed(w, mark, d, limit);
    assert |w'| == if |w| + 1 <= full then |w| + 1 else full;
    TrailingGrown(w, mark, d, |w| + 1 - |w'|);
  }

  lemma {:induction false} AllMarked(w: Activity, mark: bool)
    requires Trailing(w, mark) == |w|
    ensures ActiveMs(w) == if mark then Total(w) else 0
    decreases |w|
  {
    if w != [] {
      var front := w[..|w| - 1];
      AllMarked(front, mark);
      var e := w[|w| - 1];
      assert front + [e] == w;
      TotalConcat(front, [e]);
      ActiveConcat(front, [e]);
      assert [e][1..] == [];
    }
  }

  lemma {:induction false} ActiveFit(w: Activity, limit: int)
    requires Positive(w)
    ensures ActiveMs(Fit(w, limit)) <= ActiveMs(w)
    decreases |w|
  {
    if !(limit <= 0 || Total(w) <= limit) { ActiveFit(w[1..], limit); }
  }

  lemma {:induction false} QuietPush(w: Activity, d: int, limit: int)
    requires d > 0 && Positive(w)
    ensures ActiveMs(Pushed(w, false, d, limit)) <= ActiveMs(w)
  {
    var e := Timed(false, d);
    ActiveConcat(w, [e]);
    assert [e][1..] == [];
    ActiveFit(w + [e], limit);
  }

  // ----- constant frames keep the windows steady

  lemma {:induction false} SteadyStep(p: Params, d: int, s: VadState, f: Frame)
    requires Detecting(p) && d > 0 && Inv(p, s) && Steady(p, d, s) && Lasts(p, f, d)
    ensures var s' := Process(p, s, f).state; Inv(p, s') && Steady(p, d, s')
  {
    StepFacts(p, s, f);
    var g := f.(packet := Resolved(f.packet));
    Dispatch(p, s, g);
    match s.phase
    case Idle => SteadyStart(p, d, s, g, Process(p, s, f).state);
    case CandidateStart => SteadyStart(p, d, s, g, Process(p, s, f).state);
    case InSpeech => SteadySpeaking(p, d, s, g, Process(p, s, f).state);
    case CandidateEnd => SteadyTail(p, d, s, g, Process(p, s, f).state);
  }

  /** The start decision empties the start window, keeps it, or makes it the speech window. */
  lemma {:induction false} ConfirmKeepsWindows(p: Params, s: VadState, f: Frame)
    requires s.phase == CandidateStart
    ensures var s' := MaybeConfirmStart(p, s, f).state;
      && s'.phase != CandidateEnd
      && (s'.startActivity == [] || s'.startActivity == s.startActivity)
      && (s'.speechActivity == s.speechActivity || s'.speechActivity == s.startActivity)
  {}

  lemma {:induction false} SteadyStart(p: Params, d: int, s: VadState, f: Frame, s': VadState)
    requires Detecting(p) && d > 0 && Inv(p, s) && Steady(p, d, s) && !Open(s)
    requires s' == (if s.phase == Idle then ProcessIdle(p, s, f, d) else ProcessCandidateStart(p, s, f, d)).state
    ensures Steady(p, d, s')
  {
    if s.phase == Idle {
      UniformPushed([], true, d, p.startWindowMs);
      if EnterHit(p, s, f.rms) {
        ConfirmKeepsWindows(p, s.(phase := CandidateStart,
                                  startBuffer := Pushed([], f.packet.data, d, p.startWindowMs),
                                  startActivity := Pushed([], true, d, p.startWindowMs)), f);
      }
    } else {
      UniformPushed(s.startActivity, EnterHit(p, s, f.rms), d, p.startWindowMs);
      ConfirmKeepsWindows(p, StartHeard(p, s, f, d), f);
    }
  }

  lemma {:induction false} SteadySpeaking(p: Params, d: int, s: VadState, f: Frame, s': VadState)
    requires Detecting(p) && d > 0 && Inv(p, s) && Steady(p, d, s) && s.phase == InSpeech
    requires s' == ProcessSpeaking(p, s, f, d).state
    ensures Steady(p, d, s')
  {
    var active := KeepHit(p, s, f.rms);
    UniformPushed(s.speechActivity, active, d, p.endWindowMs);
    ActivityPushed(s.speechActivity, active, d, p.endWindowMs);
  }

  lemma {:induction false} SteadyTail(p: Params, d: int, s: VadState, f: Frame, s': VadState)
    requires Detecting(p) && d > 0 && Inv(p, s) && Steady(p, d, s) && s.phase == CandidateEnd
    requires s' == ProcessCandidateEnd(p, s, f, d).state
    ensures Steady(p, d, s')
  {
    FullWindow(p, d, s, KeepHit(p, s, f.rms));
    SteadyDecision(p, d, Heard(p, s, f, d).(tailBuffer := Pushed(s.tailBuffer, f.packet.data, d, 0)), f, s');
  }

  /** In candidate end the window stays exactly full. */
  lemma {:induction false} FullWindow(p: Params, d: int, s: VadState, active: bool)
    requires ValidParams(p) && d > 0 && Steady(p, d, s) && s.phase == CandidateEnd
    ensures var w' := Pushed(s.speechActivity, active, d, p.endWindowMs);
      Uniform(w', d) && Total(w') == p.endWindowMs && |w'| == |s.speechActivity| == p.endWindowMs / d
  {
    UniformPushed(s.speechActivity, active, d, p.endWindowMs);
    UniformTotal(s.speechActivity, d);
    FullStaysFull(|s.speechActivity|, |Pushed(s.speechActivity, active, d, p.endWindowMs)|, d, p.endWindowMs);
  }

  lemma {:induction false} SteadyDecision(p: Params, d: int, s: VadState, f: Frame, s': VadState)
    requires s.phase == CandidateEnd && Uniform(s.startActivity, d) && Uniform(s.speechActivity, d)
    requires Total(s.speechActivity) == p.endWindowMs
    requires s' == DecideTail(p, s, f).state
    ensures Steady(p, d, s')
  {
  }

  lemma {:induction false} FullStaysFull(n: nat, n': nat, d: int, limit: int)
    requires d > 0 && limit > 0 && d * n == limit
    requires n' == if n + 1 <= limit / d then n + 1 else limit / d
    ensures n == limit / d && n' == n
  {
    WithinQuotient(n, d, limit);
    WithinQuotient(n + 1, d, limit);
    assert d * (n + 1) == d * n + d;
  }

  lemma {:induction false} SteadyRun(p: Params, d: int, frames: seq<Frame>)
    requires Detecting(p) && d > 0 && AllLast(p, frames, d)
    ensures var s := Run(p, INITIAL, frames).state; Inv(p, s) && Steady(p, d, s)
    decreases |frames|
  {
    if frames != [] {
      SteadyRun(p, d, frames[..|frames| - 1]);
      SteadyStep(p, d, Run(p, INITIAL, frames[..|frames| - 1]).state, frames[|frames| - 1]);
    }
  }

  // ----- a start is confirmed within startWindowMs / d loud frames

  /** The start decision would not be overruled by the scorer on this frame. */
  predicate Accepts(p: Params, f: Frame) {
    !(ConsultsScorer(p) && f.answer.Scored?) || f.answer.score >= p.startThreshold
  }

  /** One of the frames, taken in order from s, yields a speaking event. */
  predicate SpeakingWithin(step: VadStep, s: VadState, frames: seq<Frame>)
    decreases |frames|
  {
    && frames != []
    && var o := step(s, frames[0]);
    (|o.events| == 1 && o.events[0].Speaking?) || SpeakingWithin(step, o.state, frames[1..])
  }

  /** Frames of d ms that are loud enough at the noise floor of s and that the scorer accepts. */
  predicate LoudFrames(p: Params, s: VadState, frames: seq<Frame>, d: int) {
    forall i :: 0 <= i < |frames| ==> Lasts(p, frames[i], d) && EnterHit(p, s, frames[i].rms) && Accepts(p, frames[i])
  }

  lemma {:induction false} StartWithin(p: Params, d: int, s: VadState, frames: seq<Frame>)
    requires Detecting(p) && d > 0 && p.startWindowMs % d == 0
    requires Inv(p, s) && Steady(p, d, s) && !Open(s)
    requires LoudFrames(p, s, frames, d)
    requires |frames| >= p.startWindowMs / d - (if s.phase == Idle then 0 else Trailing(s.startActivity, true))
        && frames != []
    ensures SpeakingWithin(Detector(p), s, frames)
    decreases |frames|
  {
    var o := Process(p, s, frames[0]);
    LoudStep(p, d, s, frames[0]);
    if o.result.events == [] {
      StartWithin(p, d, o.state, frames[1..]);
    }
  }

  lemma {:induction false} LoudStep(p: Params, d: int, s: VadState, f: Frame)
    requires Detecting(p) && d > 0 && p.startWindowMs % d == 0
    requires Inv(p, s) && Steady(p, d, s) && !Open(s)
    requires Lasts(p, f, d) && EnterHit(p, s, f.rms) && Accepts(p, f)
    ensures var o := Process(p, s, f);
      var marked := if s.phase == Idle then 0 else Trailing(s.startActivity, true);
      || (|o.result.events| == 1 && o.result.events[0].Speaking?)
      || (&& o.result.events == [] && o.state.phase == CandidateStart && Inv(p, o.state) && Steady(p, d, o.state)
          && o.state.noiseReady == s.noiseReady && o.state.noiseFloor == s.noiseFloor
          && Trailing(o.state.startActivity, true) == marked + 1 < p.startWindowMs / d)
  {
    SteadyStep(p, d, s, f);
    LoudOutcome(p, d, s, f);
  }

  lemma {:induction false} LoudOutcome(p: Params, d: int, s: VadState, f: Frame)
    requires Detecting(p) && d > 0 && p.startWindowMs % d == 0
    requires Inv(p, s) && Steady(p, d, s) && !Open(s)
    requires Lasts(p, f, d) && EnterHit(p, s, f.rms) && Accepts(p, f)
    ensures var o := Process(p, s, f);
      var marked := if s.phase == Idle then 0 else Trailing(s.startActivity, true);
      || (|o.result.events| == 1 && o.result.events[0].Speaking?)
      || (&& o.result.events == [] && o.state.phase == CandidateStart
          && o.state.noiseReady == s.noiseReady && o.state.noiseFloor == s.noiseFloor
          && Trailing(o.state.startActivity, true) == marked + 1 < p.startWindowMs / d)
  {
    var g := f.(packet := Resolved(f.packet));
    var a := if s.phase == Idle then [] else s.startActivity;
    Dispatch(p, s, g);
    DividesAtLeastOnce(p.startWindowMs, d);
    LoudPush(p, d, s, g, a);
    LoudDecision(p, d, s, g, Pushed(a, true, d, p.startWindowMs));
  }

  /** The start windows after a loud frame: in lockstep, uniform, with one more loud frame at the end. */
  lemma {:induction false} LoudPush(p: Params, d: int, s: VadState, f: Frame, a: Activity)
    requires ValidParams(p) && d > 0 && Lasts(p, f, d) && Lockstep(s.startBuffer, a) && Uniform(a, d)
    requires Total(s.startBuffer) <= p.startWindowMs
    ensures var a' := Pushed(a, true, d, p.startWindowMs);
      && Lockstep(Started(p, s, f), a') && Uniform(a', d) && |a'| <= p.startWindowMs / d
      && Trailing(a', true) ==
         if Trailing(a, true) + 1 <= p.startWindowMs / d then Trailing(a, true) + 1 else p.startWindowMs / d
  {
    LockstepTotal(s.startBuffer, a);
    UniformTotal(a, d);
    WithinQuotient(|a|, d, p.startWindowMs);
    TrailingPushed(a, true, d, p.startWindowMs);
    UniformPushed(a, true, d, p.startWindowMs);
    LockstepPushed(p, s.(startActivity := a), f, true);
  }

  lemma {:induction false} LoudDecision(p: Params, d: int, s: VadState, f: Frame, a': Activity)
    requires Detecting(p) && d > 0 && p.startWindowMs % d == 0
    requires Inv(p, s) && !Open(s) && Lasts(p, f, d) && EnterHit(p, s, f.rms) && Accepts(p, f)
    requires a' == Pushed(if s.phase == Idle then [] else s.startActivity, true, d, p.startWindowMs)
    requires Lockstep(Started(p, s, f), a') && Uniform(a', d) && |a'| <= p.startWindowMs / d && Trailing(a', true) > 0
    ensures var o := if s.phase == Idle then ProcessIdle(p, s, f, d) else ProcessCandidateStart(p, s, f, d);
      || (|o.result.events| == 1 && o.result.events[0].Speaking?)
      || (&& o.result.events == [] && o.state.phase == CandidateStart && o.state.startActivity == a'
          && o.state.noiseReady == s.noiseReady && o.state.noiseFloor == s.noiseFloor
          && Trailing(a', true) < p.startWindowMs / d)
  {
    LoudWindow(p, d, Started(p, s, f), a');
    if s.phase == Idle {
      LoudConfirm(p, d, s.(phase := CandidateStart,
                           startBuffer := Pushed([], f.packet.data, d, p.startWindowMs), startActivity := a'), f);
    } else {
      LoudConfirm(p, d, StartHeard(p, s, f, d), f);
    }
  }

  lemma {:induction false} LoudWindow(p: Params, d: int, b: Audio, a: Activity)
    requires d > 0 && p.startWindowMs > 0 && p.startWindowMs % d == 0
    requires Lockstep(b, a) && Uniform(a, d) && |a| <= p.startWindowMs / d && Trailing(a, true) > 0
    ensures Filled(p, d, b, a)
  {
    LockstepTotal(b, a);
    SomeActive(a, d);
    if Trailing(a, true) == p.startWindowMs / d { FullOfActivity(a, d, p.startWindowMs); }
  }

  lemma {:induction false} FullOfActivity(a: Activity, d: int, limit: int)
    requires d > 0 && limit > 0 && limit % d == 0 && Uniform(a, d) && |a| <= limit / d == Trailing(a, true)
    ensures ActiveMs(a) == Total(a) == limit
  {
    AllMarked(a, true);
    UniformTotal(a, d);
    Divided(limit, d);
  }

  lemma {:induction false} Divided(n: int, d: int)
    requires d > 0 && n % d == 0
    ensures d * (n / d) == n
  {}

  /** A start window with some activity, all of it active once it is full. */
  predicate Filled(p: Params, d: int, b: Audio, a: Activity)
    requires d > 0
  {
    && Total(b) == Total(a) && ActiveMs(a) > 0
    && Trailing(a, true) <= p.startWindowMs / d
    && (Trailing(a, true) == p.startWindowMs / d ==> ActiveMs(a) == Total(a) == p.startWindowMs)
  }

  /** A window with some activity is not rejected, and one full of activity is accepted. */
  lemma {:induction false} LoudConfirm(p: Params, d: int, s: VadState, f: Frame)
    requires d > 0 && s.phase == CandidateStart && Accepts(p, f) && p.startWindowMs > 0
    requires Filled(p, d, s.startBuffer, s.startActivity)
    ensures var o := MaybeConfirmStart(p, s, f);
      || (|o.result.events| == 1 && o.result.events[0].Speaking?)
      || (o == Outcome(s, NOTHING, []) && Trailing(s.startActivity, true) < p.startWindowMs / d)
  {}

  lemma {:induction false} SomeActive(w: Activity, d: int)
    requires d > 0 && Uniform(w, d) && Trailing(w, true) > 0
    ensures ActiveMs(w) > 0
  {
    var front, e := w[..|w| - 1], w[|w| - 1];
    ActiveConcat(front, [e]);
    assert front + [e] == w && [e][1..] == [];
    ActiveWithinTotal(front);
  }

  // ----- an end is confirmed within endWindowMs / d + ceil(silencePaddingMs / d) quiet frames

  /** The end decision would not be overruled by the scorer on this frame. */
  predicate Confirms(p: Params, f: Frame) {
    !(ConsultsScorer(p) && f.answer.Scored?) || f.answer.score < p.endThreshold
  }

  predicate EouWithin(step: VadStep, s: VadState, frames: seq<Frame>)
    decreases |frames|
  {
    && frames != []
    && var o := step(s, frames[0]);
    (|o.events| == 2 && o.events[1].Eou?) || EouWithin(step, o.state, frames[1..])
  }

  /** Frames of d ms below the fixed keep threshold, whatever the noise floor. */
  predicate QuietFrames(p: Params, frames: seq<Frame>, d: int) {
    forall i :: 0 <= i < |frames| ==> Lasts(p, frames[i], d) && frames[i].rms < p.minKeepRMS && Confirms(p, frames[i])
  }

  function CeilDiv(x: int, d: int): int
    requires d > 0
  {
    if x <= 0 then 0 else (x + d - 1) / d
  }

  /** Frames still needed to fill the window with quiet: at least one. */
  function QuietNeeded(p: Params, d: int, s: VadState): int
    requires d > 0
  {
    Max(1, p.endWindowMs / d - Trailing(s.speechActivity, false))
  }

  /** An upper bound on the quiet frames before an eou. */
  function Patience(p: Params, d: int, s: VadState): int
    requires d > 0
  {
    if s.phase == CandidateEnd then Max(QuietNeeded(p, d, s), CeilDiv(p.silencePaddingMs - Total(s.tailBuffer), d))
    else QuietNeeded(p, d, s) + CeilDiv(p.silencePaddingMs, d)
  }

  lemma {:induction false} Quotient(n: int, d: int, q: int)
    requires d > 0 && d * q <= n < d * q + d
    ensures n / d == q
  {
    var r := n / d;
    assert d * r <= n < d * r + d;
    assert d * (r + 1) == d * r + d && d * (q + 1) == d * q + d;
    assert r + 1 <= q ==> d * (r + 1) <= d * q;
    assert q + 1 <= r ==> d * (q + 1) <= d * r;
  }

  lemma {:induction false} CeilDivStep(x: int, d: int)
    requires d > 0
    ensures CeilDiv(x, d) >= 0
    ensures x > 0 ==> CeilDiv(x, d) >= 1 && CeilDiv(x - d, d) == CeilDiv(x, d) - 1
  {
    if x > 0 {
      var q := (x + d - 1) / d;
      assert d * q <= x + d - 1 < d * (q + 1);
      if x > d {
        assert d * (q - 1) == d * q - d && d * (q + 1) == d * q + d;
        Quotient(x - 1, d, q - 1);
      } else {
        Quotient(x + d - 1, d, 1);
      }
    } else {
      assert CeilDiv(x, d) == 0;
    }
  }

  lemma {:induction false} PatienceBound(p: Params, d: int, s: VadState)
    requires Detecting(p) && d > 0 && p.endWindowMs % d == 0 && Inv(p, s)
    ensures 1 <= Patience(p, d, s) <= p.endWindowMs / d + CeilDiv(p.silencePaddingMs, d)
  {
    assert p.endWindowMs / d >= 1 by { DividesAtLeastOnce(p.endWindowMs, d); }
    CeilDivStep(p.silencePaddingMs, d);
    ChunksPositive(p, s.tailBuffer);
    CeilDivMonotone(p.silencePaddingMs - Total(s.tailBuffer), p.silencePaddingMs, d);
  }

  lemma {:induction false} DividesAtLeastOnce(limit: int, d: int)
    requires d > 0 && limit > 0 && limit % d == 0
    ensures limit / d >= 1
  {
    assert limit == d * (limit / d) + limit % d;
  }

  lemma {:induction false} CeilDivMonotone(x: int, y: int, d: int)
    requires d > 0 && x <= y
    ensures CeilDiv(x, d) <= CeilDiv(y, d)
  {
    if x > 0 { Codec.DivOrder(x + d - 1, y + d - 1, d); }
  }

  lemma {:induction false} EndWithinPatience(p: Params, d: int, s: VadState, frames: seq<Frame>)
    requires Detecting(p) && d > 0 && p.endWindowMs % d == 0
    requires Inv(p, s) && Steady(p, d, s) && Open(s)
    requires QuietFrames(p, frames, d) && |frames| >= Patience(p, d, s)
    ensures EouWithin(Detector(p), s, frames)
    decreases |frames|
  {
    PatienceBound(p, d, s);
    var o := Process(p, s, frames[0]);
    QuietStep(p, d, s, frames[0]);
    if !(|o.result.events| == 2 && o.result.events[1].Eou?) {
      EndWithinPatience(p, d, o.state, frames[1..]);
    }
  }

  /** A quiet frame ends the segment or brings the end nearer. */
  lemma {:induction false} QuietStep(p: Params, d: int, s: VadState, f: Frame)
    requires Detecting(p) && d > 0 && p.endWindowMs % d == 0
    requires Inv(p, s) && Steady(p, d, s) && Open(s)
    requires Lasts(p, f, d) && f.rms < p.minKeepRMS && Confirms(p, f)
    ensures var o := Process(p, s, f);
      || (|o.result.events| == 2 && o.result.events[1].Eou?)
      || (Open(o.state) && Inv(p, o.state) && Steady(p, d, o.state) && Patience(p, d, o.state) < Patience(p, d, s))
  {
    SteadyStep(p, d, s, f);
    var g := f.(packet := Resolved(f.packet));
    Dispatch(p, s, g);
    if s.phase == InSpeech { QuietSpeaking(p, d, s, g); } else { QuietTail(p, d, s, g); }
  }

  /** A quiet frame in speech lengthens the quiet end of the speech window, which is empty of activity once full. */
  lemma {:induction false} QuietHeard(p: Params, d: int, s: VadState, f: Frame)
    requires Detecting(p) && d > 0 && p.endWindowMs % d == 0
    requires Inv(p, s) && Steady(p, d, s) && s.phase == InSpeech && f.rms < p.minKeepRMS
    ensures var heard, z, full := Heard(p, s, f, d), Trailing(s.speechActivity, false), p.endWindowMs / d;
      && heard.phase == InSpeech && heard.segmentDurationMs == s.segmentDurationMs
      && Trailing(heard.speechActivity, false) == (if z + 1 <= full then z + 1 else full)
      && (Trailing(heard.speechActivity, false) == full ==>
            Total(heard.speechActivity) == p.endWindowMs && ActiveMs(heard.speechActivity) == 0)
  {
    QuietWindow(p, d, s.speechActivity);
  }

  lemma {:induction false} QuietSpeaking(p: Params, d: int, s: VadState, f: Frame)
    requires Detecting(p) && d > 0 && p.endWindowMs % d == 0
    requires Inv(p, s) && Steady(p, d, s) && s.phase == InSpeech
    requires Lasts(p, f, d) && f.rms < p.minKeepRMS
    ensures var o := ProcessSpeaking(p, s, f, d);
      || (|o.result.events| == 2 && o.result.events[1].Eou?)
      || (Open(o.state) && Patience(p, d, o.state) < Patience(p, d, s))
  {
    QuietHeard(p, d, s, f);
    DividesAtLeastOnce(p.endWindowMs, d);
    CeilDivStep(p.silencePaddingMs, d);
    PushFirstTail(f.packet.data, d);
    SpeakingDecision(p, d, s, Heard(p, s, f, d), f, ProcessSpeaking(p, s, f, d));
  }

  lemma {:induction false} SpeakingDecision(p: Params, d: int, s: VadState, s': VadState, f: Frame, o: Outcome)
    requires ValidParams(p) && d > 0 && s.phase == InSpeech && s'.phase == InSpeech && p.endWindowMs / d >= 1
    requires var z := Trailing(s.speechActivity, false);
      Trailing(s'.speechActivity, false) == if z + 1 <= p.endWindowMs / d then z + 1 else p.endWindowMs / d
    requires Trailing(s'.speechActivity, false) == p.endWindowMs / d
      ==> Total(s'.speechActivity) == p.endWindowMs && ActiveMs(s'.speechActivity) == 0
    requires CeilDiv(p.silencePaddingMs, d) >= 1
        && CeilDiv(p.silencePaddingMs - d, d) == CeilDiv(p.silencePaddingMs, d) - 1
    requires var tail := Pushed([], f.packet.data, d, 0);
      && Total(tail) == d
      && if ShouldEnterCandidateEnd(p, s') then
          o == Outcome(s'.(phase := CandidateEnd, tailBuffer := tail), NOTHING, [])
         else
           var grown := s'.(segmentDurationMs := s.segmentDurationMs + d);
           var (s'', result) := MaybeForceSegmentEnd(p, grown, f, Result([f.packet], []));
           o == Outcome(s'', result, [])
    ensures (|o.result.events| == 2 && o.result.events[1].Eou?) || (Open(o.state)
        && Patience(p, d, o.state) < Patience(p, d, s))
  {
    if ShouldEnterCandidateEnd(p, s') {
      assert o.state.phase == CandidateEnd;
    } else {
      assert Trailing(s'.speechActivity, false) == Trailing(s.speechActivity, false) + 1 < p.endWindowMs / d;
    }
  }

  lemma {:induction false} PushFirstTail(data: Payload, d: int)
    requires d > 0
    ensures Pushed([], data, d, 0) == [Timed(data, d)] && Total([Timed(data, d)]) == d
  {
    assert [] + [Timed(data, d)] == [Timed(data, d)];
    assert [Timed(data, d)][1..] == [];
  }

  /** A window that has become quiet throughout is full and has no activity. */
  lemma {:induction false} QuietWindow(p: Params, d: int, w: Activity)
    requires ValidParams(p) && d > 0 && p.endWindowMs % d == 0
    requires Uniform(w, d) && Positive(w) && Total(w) <= p.endWindowMs
    ensures var w' := Pushed(w, false, d, p.endWindowMs);
      && Trailing(w', false) == (if Trailing(w, false) + 1 <= p.endWindowMs / d then Trailing(w, false) + 1
          else p.endWindowMs / d)
      && (Trailing(w', false) == p.endWindowMs / d ==> Total(w') == p.endWindowMs && ActiveMs(w') == 0)
      && ActiveMs(w') <= ActiveMs(w)
  {
    UniformTotal(w, d);
    WithinQuotient(|w|, d, p.endWindowMs);
    UniformPushed(w, false, d, p.endWindowMs);
    TrailingPushed(w, false, d, p.endWindowMs);
    var w' := Pushed(w, false, d, p.endWindowMs);
    if Trailing(w', false) == p.endWindowMs / d {
      AllMarked(w', false);
      FillsExactly(|w'|, d, p.endWindowMs);
      WithinQuotient(|w'|, d, p.endWindowMs);
    }
    QuietPush(w, d, p.endWindowMs);
  }

  lemma {:induction false} QuietTail(p: Params, d: int, s: VadState, f: Frame)
    requires Detecting(p) && d > 0 && p.endWindowMs % d == 0
    requires Inv(p, s) && Steady(p, d, s) && s.phase == CandidateEnd
    requires Lasts(p, f, d) && f.rms < p.minKeepRMS && Confirms(p, f)
    ensures var o := ProcessCandidateEnd(p, s, f, d);
      || (|o.result.events| == 2 && o.result.events[1].Eou?)
      || (o.state.phase == CandidateEnd && Patience(p, d, o.state) < Patience(p, d, s))
  {
    QuietWindow(p, d, s.speechActivity);
    FullWindow(p, d, s, false);
    TotalConcat(s.tailBuffer, [Chunk(p, f)]);
    assert [Chunk(p, f)][1..] == [];
    DividesAtLeastOnce(p.endWindowMs, d);
    CeilDivStep(p.silencePaddingMs - Total(s.tailBuffer), d);
    QuietDecision(p, d, s, Heard(p, s, f, d).(tailBuffer := Pushed(s.tailBuffer, f.packet.data, d, 0)), f);
  }

  lemma {:induction false} QuietDecision(p: Params, d: int, s: VadState, s': VadState, f: Frame)
    requires ValidParams(p) && d > 0 && Confirms(p, f)
    requires s.phase == CandidateEnd && s'.phase == CandidateEnd
    requires Total(s'.speechActivity) == p.endWindowMs && RatioBelow(s'.speechActivity, 2)
    requires Trailing(s'.speechActivity, false) == p.endWindowMs / d ==> ActiveMs(s'.speechActivity) == 0
    requires var z := Trailing(s.speechActivity, false);
      Trailing(s'.speechActivity, false) == if z + 1 <= p.endWindowMs / d then z + 1 else p.endWindowMs / d
    requires Total(s'.tailBuffer) == Total(s.tailBuffer) + d
    requires var x := p.silencePaddingMs - Total(s.tailBuffer);
      CeilDiv(x, d) >= 0 && (x > 0 ==> CeilDiv(x, d) >= 1 && CeilDiv(x - d, d) == CeilDiv(x, d) - 1)
    ensures var o := DecideTail(p, s', f);
      || (|o.result.events| == 2 && o.result.events[1].Eou?)
      || (o.state == s' && Patience(p, d, s') < Patience(p, d, s))
  {
    if Total(s'.tailBuffer) < p.silencePaddingMs {
      CeilDivStep(p.silencePaddingMs - Total(s'.tailBuffer), d);
    }
  }

  // ----- the two bounds from every state reachable with constant frames

  /** After any frames of d ms, as many loud frames as fill the start window bring a speaking event. */
  lemma {:induction false} SpeechAnswered(p: Params, d: int, past: seq<Frame>, loud: seq<Frame>)
    requires Detecting(p) && d > 0 && p.startWindowMs % d == 0 && AllLast(p, past, d)
    requires var s := Run(p, INITIAL, past).state; !Open(s) && LoudFrames(p, s, loud, d)
    requires |loud| >= p.startWindowMs / d
    ensures SpeakingWithin(Detector(p), Run(p, INITIAL, past).state, loud)
  {
    SteadyRun(p, d, past);
    DividesAtLeastOnce(p.startWindowMs, d);
    StartWithin(p, d, Run(p, INITIAL, past).state, loud);
  }

  /** After any frames of d ms that leave a segment open, this many quiet frames bring an eou. */
  lemma {:induction false} SilenceAnswered(p: Params, d: int, past: seq<Frame>, quiet: seq<Frame>)
    requires Detecting(p) && d > 0 && p.endWindowMs % d == 0 && AllLast(p, past, d)
    requires Open(Run(p, INITIAL, past).state)
    requires QuietFrames(p, quiet, d) && |quiet| >= p.endWindowMs / d + CeilDiv(p.silencePaddingMs, d)
    ensures EouWithin(Detector(p), Run(p, INITIAL, past).state, quiet)
  {
    SteadyRun(p, d, past);
    var s := Run(p, INITIAL, past).state;
    PatienceBound(p, d, s);
    EndWithinPatience(p, d, s, quiet);
  }

  // ----- what frame lengths that do not divide the windows rule out

  lemma {:induction false} NoFullWindow(n: nat, d: int, limit: int)
    requires d > 0 && limit % d != 0
    ensures d * n != limit
  {
    if d * n == limit { Quotient(limit, d, n); }
  }

  /** If d does not divide the start window, no run of d ms frames ever opens a segment or emits anything. */
  lemma {:induction false} NeverStarts(p: Params, d: int, frames: seq<Frame>)
    requires Detecting(p) && d > 0 && p.startWindowMs % d != 0 && AllLast(p, frames, d)
    ensures var r := Run(p, INITIAL, frames); !Open(r.state) && r.packets == [] && r.events == []
    decreases |frames|
  {
    if frames != [] {
      var front, f := frames[..|frames| - 1], frames[|frames| - 1];
      NeverStarts(p, d, front);
      SteadyRun(p, d, front);
      CannotStart(p, d, Run(p, INITIAL, front).state, f);
    }
  }

  lemma {:induction false} CannotStart(p: Params, d: int, s: VadState, f: Frame)
    requires Detecting(p) && d > 0 && p.startWindowMs % d != 0 && Lasts(p, f, d)
    requires Inv(p, s) && Steady(p, d, s) && !Open(s)
    ensures var o := Process(p, s, f); !Open(o.state) && o.result == NOTHING
  {
    var g := f.(packet := Resolved(f.packet));
    Dispatch(p, s, g);
    var a := if s.phase == Idle then [] else s.startActivity;
    var active := s.phase == Idle || EnterHit(p, s, f.rms);
    var a' := Pushed(a, active, d, p.startWindowMs);
    UniformPushed(a, active, d, p.startWindowMs);
    ActivityPushed(a, active, d, p.startWindowMs);
    NoFullWindow(|a'|, d, p.startWindowMs);
  }

  function Repeated(f: Frame, n: nat): (frames: seq<Frame>)
    ensures |frames| == n
  {
    seq(n, i => f)
  }

  /** Some frames of d ms open a segment, and repeating one loud frame of d ms does, iff d divides the start window. */
  lemma {:induction false} StartReachableIff(p: Params, d: int, loud: Frame)
    requires Detecting(p) && d > 0 && Lasts(p, loud, d)
    requires loud.rms >= p.minEnterRMS && loud.rms >= 0.0 && Accepts(p, loud)
    ensures (exists frames :: AllLast(p, frames, d) && Open(Run(p, INITIAL, frames).state)) <==>
        p.startWindowMs % d == 0
    ensures (exists n: nat :: Open(Run(p, INITIAL, Repeated(loud, n)).state)) <==> p.startWindowMs % d == 0
  {
    if p.startWindowMs % d == 0 {
      var n := LoudOpens(p, d, loud);
      assert AllLast(p, Repeated(loud, n), d) && Open(Run(p, INITIAL, Repeated(loud, n)).state);
    } else {
      forall frames | AllLast(p, frames, d)
        ensures !Open(Run(p, INITIAL, frames).state)
      {
        NeverStarts(p, d, frames);
      }
      forall n: nat ensures !Open(Run(p, INITIAL, Repeated(loud, n)).state) {
        assert AllLast(p, Repeated(loud, n), d);
      }
    }
  }

  /** Repeating a loud frame brings a run into a segment of at most the start window's length. */
  lemma {:induction false} LoudOpens(p: Params, d: int, loud: Frame) returns (n: nat)
    requires Detecting(p) && d > 0 && p.startWindowMs % d == 0
    requires Lasts(p, loud, d) && loud.rms >= p.minEnterRMS && loud.rms >= 0.0 && Accepts(p, loud)
    ensures var s := Run(p, INITIAL, Repeated(loud, n)).state;
      Inv(p, s) && Steady(p, d, s) && s.phase == InSpeech && s.segmentDurationMs <= p.startWindowMs
  {
    var frames := Repeated(loud, p.startWindowMs / d);
    SpeechAnswered(p, d, [], frames);
    DetectorConforms(p);
    n := SpeakingMeansOpen(p, Detector(p), INITIAL, frames);
    assert frames[..n] == Repeated(loud, n);
    SteadyRun(p, d, Repeated(loud, n));
  }

  lemma {:induction false} OpeningIsShort(p: Params, step: VadStep, s: VadState, f: Frame)
    requires ValidParams(p) && Conforms(p, step) && Inv(p, s) && AudioFrame(f)
    requires |step(s, f).events| == 1
    ensures var s' := step(s, f).state; s'.phase == InSpeech && s'.segmentDurationMs <= p.startWindowMs
  {
    StepMarks(p, s, f, step(s, f));
    assert Opens(p, s, f, step(s, f));
    PushedFacts(p, s.startBuffer, f, p.startWindowMs);
  }

  lemma {:induction false} SpeakingOpens(p: Params, step: VadStep, s: VadState, f: Frame)
    requires ValidParams(p) && Conforms(p, step) && Inv(p, s) && AudioFrame(f)
    ensures var o := step(s, f);
      Inv(p, o.state) && (|o.events| == 1 ==> o.state.phase == InSpeech && o.state.segmentDurationMs <= p.startWindowMs)
  {
    if |step(s, f).events| == 1 { OpeningIsShort(p, step, s, f); }
  }

  lemma {:induction false} RunFront(step: VadStep, s: VadState, frames: seq<Frame>, m: nat)
    requires m < |frames|
    ensures Drain(step, s, frames[..m + 1]).state == Drain(step, step(s, frames[0]).state, frames[1..][..m]).state
  {
    DrainFront(step, s, frames[..m + 1]);
    assert frames[..m + 1][1..] == frames[1..][..m];
  }

  predicate Speaks(events: seq<Event>) {
    |events| == 1 && events[0].Speaking?
  }

  /** Of a step that keeps inv, and has its speaking events only on entering good: such an event within the frames
      means that some first part of them enters good. */
  lemma {:induction false} SpeakingEnters(step: VadStep, inv: VadState -> bool, good: VadState -> bool, s: VadState,
      frames: seq<Frame>) returns (n: nat)
    requires inv(s) && SpeakingWithin(step, s, frames)
    requires forall t: VadState, i: nat {:trigger step(t, frames[i])} :: inv(t) && i < |frames| ==>
        inv(step(t, frames[i]).state) && (Speaks(step(t, frames[i]).events) ==> good(step(t, frames[i]).state))
    ensures n <= |frames| && good(Drain(step, s, frames[..n]).state)
    decreases |frames|
  {
    var o := step(s, frames[0]);
    var m := 0;
    if !Speaks(o.events) {
      var rest := frames[1..];
      assert forall i: nat :: i < |rest| ==> rest[i] == frames[i + 1];
      m := SpeakingEnters(step, inv, good, o.state, rest);
    }
    n := m + 1;
    RunFront(step, s, frames, m);
  }

  /** In the detector: some first part of the frames leaves a segment just opened. */
  lemma {:induction false} SpeakingMeansOpen(p: Params, step: VadStep, s: VadState, frames: seq<Frame>)
    returns (n: nat)
    requires ValidParams(p) && Conforms(p, step) && Inv(p, s) && AudioFrames(frames) && SpeakingWithin(step, s, frames)
    ensures n <= |frames|
    ensures var s' := Drain(step, s, frames[..n]).state; s'.phase == InSpeech && s'.segmentDurationMs <= p.startWindowMs
  {
    var inv := (t: VadState) => Inv(p, t);
    var good := (t: VadState) => t.phase == InSpeech && t.segmentDurationMs <= p.startWindowMs;
    forall t: VadState, i: nat | inv(t) && i < |frames|
      ensures inv(step(t, frames[i]).state) && (Speaks(step(t, frames[i]).events) ==> good(step(t, frames[i]).state))
    {
      SpeakingOpens(p, step, t, frames[i]);
    }
    n := SpeakingEnters(step, inv, good, s, frames);
  }

  /** If d does not divide the end window, candidate end is never entered. */
  lemma {:induction false} NeverCandidateEnd(p: Params, d: int, frames: seq<Frame>)
    requires Detecting(p) && d > 0 && p.endWindowMs % d != 0 && AllLast(p, frames, d)
    ensures Run(p, INITIAL, frames).state.phase != CandidateEnd
  {
    SteadyRun(p, d, frames);
    var s := Run(p, INITIAL, frames).state;
    UniformTotal(s.speechActivity, d);
    NoFullWindow(|s.speechActivity|, d, p.endWindowMs);
  }

  predicate EouIn(events: seq<Event>) {
    exists i :: 0 <= i < |events| && events[i].Eou?
  }

  /** ... and every eou is then the cut at the maximum length. */
  lemma {:induction false} EveryEouIsACut(p: Params, d: int, past: seq<Frame>, f: Frame)
    requires Detecting(p) && d > 0 && p.endWindowMs % d != 0 && AllLast(p, past, d) && Lasts(p, f, d)
    requires EouIn(Process(p, Run(p, INITIAL, past).state, f).result.events)
    ensures var s := Run(p, INITIAL, past).state; s.phase == InSpeech && s.segmentDurationMs + d >= p.maxSegmentMs
  {
    SteadyRun(p, d, past);
    NeverCandidateEnd(p, d, past);
    var s := Run(p, INITIAL, past).state;
    StepFacts(p, s, f);
    StepMarks(p, s, f, Handed(Process(p, s, f)));
    EouFromSpeaking(p, d, s, f);
  }

  lemma {:induction false} EouFromSpeaking(p: Params, d: int, s: VadState, f: Frame)
    requires Detecting(p) && d > 0 && Lasts(p, f, d) && s.phase != CandidateEnd && Open(s)
    requires Process(p, s, f).result.events != []
    ensures s.phase == InSpeech && s.segmentDurationMs + d >= p.maxSegmentMs
  {
    Dispatch(p, s, f.(packet := Resolved(f.packet)));
  }

  /** With the default silence padding, frames of 30 ms can open segments, but every eou of theirs is a cut. */
  lemma {:induction false} ThirtyMsFrames(option: VadOption, hasScorer: bool, past: seq<Frame>, f: Frame)
    requires option.silencePadding.None?
    ensures var p := Derive(option, hasScorer);
      var s := Run(p, INITIAL, past).state;
      && p.startWindowMs % 30 == 0
      && (p.mode != Passthrough && AllLast(p, past, 30) && Lasts(p, f, 30) ==>
            && s.phase != CandidateEnd
            && (EouIn(Process(p, s, f).result.events) ==>
                s.phase == InSpeech && s.segmentDurationMs + 30 >= p.maxSegmentMs))
  {
    var p := Derive(option, hasScorer);
    if p.mode != Passthrough && AllLast(p, past, 30) && Lasts(p, f, 30) {
      NeverCandidateEnd(p, 30, past);
      if EouIn(Process(p, Run(p, INITIAL, past).state, f).result.events) { EveryEouIsACut(p, 30, past, f); }
    }
  }
}
