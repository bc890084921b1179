/** Which option of the caller sets which parameter of the detector, and what holds without it. */
module VadOptions {
  import opened Media
  import opened VadModel

  const UNSET := VadOption(None, None, None, None, None, None, None)

  /** Without options: passthrough, 16 kHz, 200 ms of pre-roll, windows of 60 and 200 ms, 600 ms of silence, 160 ms of
      it kept, 12 s at most. */
  lemma {:induction false} Defaults(hasScorer: bool)
    ensures Derive(UNSET, hasScorer) ==
      Params(Passthrough, hasScorer, 16000, 200, 60, 200, 600, 160, 12000, 2.2, 1.6, 120.0, 96.0, 0.65, 0.35)
  {
  }

  /** The end window is as long as the silence padding, between 60 and 200 ms. */
  function Clamped(ms: nat): nat {
    if ms < 60 then 60 else if ms > 200 then 200 else ms
  }

  /** Setting one option moves its own parameter to the given value and no other, but for the silence padding, which
      bounds the end window too. */
  lemma {:induction false} OptionSets(option: VadOption, hasScorer: bool, mode: Mode, n: nat, r: real)
    requires n > 0 && r > 0.0
    ensures var p := Derive(option, hasScorer);
      && Derive(option.(mode := Some(mode)), hasScorer) == p.(mode := mode)
      && Derive(option.(sampleRate := Some(n)), hasScorer) == p.(sampleRate := n)
      && Derive(option.(speechPadding := Some(n)), hasScorer) == p.(preRollMs := n)
      && Derive(option.(silencePadding := Some(n)), hasScorer) == p.(silencePaddingMs := n, endWindowMs := Clamped(n))
      && Derive(option.(ratio := Some(r)), hasScorer) == p.(enterRatio := r)
      && Derive(option.(voiceThreshold := Some(r)), hasScorer) == p.(startThreshold := r)
      && Derive(option.(maxBufferSecs := Some(n)), hasScorer) == p.(maxSegmentMs := 1000 * n)
  {
  }

  /** A number that is not positive counts as absent. */
  lemma {:induction false} NotPositiveIsUnset(option: VadOption, hasScorer: bool, r: real)
    requires r <= 0.0
    ensures Derive(option.(sampleRate := Some(0)), hasScorer) == Derive(option.(sampleRate := None), hasScorer)
    ensures Derive(option.(speechPadding := Some(0)), hasScorer) == Derive(option.(speechPadding := None), hasScorer)
    ensures Derive(option.(silencePadding := Some(0)), hasScorer) == Derive(option.(silencePadding := None), hasScorer)
    ensures Derive(option.(ratio := Some(r)), hasScorer) == Derive(option.(ratio := None), hasScorer)
    ensures Derive(option.(voiceThreshold := Some(r)), hasScorer) == Derive(option.(voiceThreshold := None), hasScorer)
    ensures Derive(option.(maxBufferSecs := Some(0)), hasScorer) == Derive(option.(maxBufferSecs := None), hasScorer)
  {
  }
}
