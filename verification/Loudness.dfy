/** The loudness of a payload: the root of the mean of its squared samples, characterised by its square. */
module Loudness {
  import opened Media
  import opened Codec
  import opened VadModel

  function SumOfSquares(samples: seq<Sample>): nat {
    if samples == [] then 0
    else
      var last: int := samples[|samples| - 1];
      SquareNonNegative(last);
      SumOfSquares(samples[..|samples| - 1]) + last * last
  }

  lemma {:induction false} SquareNonNegative(x: int)
    ensures x * x >= 0
  {
  }

  /** The loop under the root: the sum of squares and the number of whole samples. */
  method SquareSum(payload: Payload) returns (sum: nat, sampleCount: nat)
    ensures sum == SumOfSquares(Samples(payload)) && sampleCount == |payload| / 2
  {
    sum, sampleCount := 0, 0;
    ghost var samples := Samples(payload);
    var i := 0;
    while i + 1 < |payload|
      invariant 0 <= i <= |payload| && i == 2 * sampleCount
      invariant sampleCount <= |samples| && sum == SumOfSquares(samples[..sampleCount])
    {
      var sample: int := Join(payload[i], payload[i + 1]);
      assert samples[..sampleCount + 1][..sampleCount] == samples[..sampleCount];
      assert samples[sampleCount] == sample;
      SquareNonNegative(sample);
      sum := sum + sample * sample;
      sampleCount := sampleCount + 1;
      i := i + 2;
    }
    assert samples[..|samples|] == samples;
  }

  /** The frame is as loud as its payload is: its loudness, squared, is the mean of the squared samples; a payload
      without a sample has loudness 0. */
  predicate TrueLoudness(f: Frame) {
    && f.rms >= 0.0
    && var n := |f.packet.data| / 2;
    if n == 0 then f.rms == 0.0
    else f.rms * f.rms * (n as real) == SumOfSquares(Samples(f.packet.data)) as real
  }

  predicate AllTrue(frames: seq<Frame>) {
    forall i :: 0 <= i < |frames| ==> TrueLoudness(frames[i])
  }

  /** A payload has one loudness. */
  lemma {:induction false} LoudnessUnique(f: Frame, g: Frame)
    requires TrueLoudness(f) && TrueLoudness(g) && f.packet.data == g.packet.data
    ensures f.rms == g.rms
  {
    var n := (|f.packet.data| / 2) as real;
    if n != 0.0 {
      assert f.rms * f.rms == g.rms * g.rms by { CancelFactor(f.rms * f.rms, g.rms * g.rms, n); }
      SquaresApart(f.rms, g.rms);
    }
  }

  lemma {:induction false} CancelFactor(a: real, b: real, n: real)
    requires n > 0.0 && a * n == b * n
    ensures a == b
  {
    assert a == a * n / n && b == b * n / n;
  }

  lemma {:induction false} ProductPositive(x: real, y: real)
    requires x > 0.0 && y > 0.0
    ensures x * y > 0.0
  {
  }

  lemma {:induction false} SquareOrder(a: real, b: real)
    requires 0.0 <= a < b
    ensures a * a < b * b
  {
    ProductPositive(b - a, b + a);
    assert (b - a) * (b + a) == b * b - a * a;
  }

  lemma {:induction false} SquaresApart(a: real, b: real)
    requires a >= 0.0 && b >= 0.0 && a * a == b * b
    ensures a == b
  {
    if a < b { SquareOrder(a, b); }
    if b < a { SquareOrder(b, a); }
  }

  lemma {:induction false} ConstantSum(samples: seq<Sample>, level: int)
    requires forall i :: 0 <= i < |samples| ==> samples[i] == level
    ensures SumOfSquares(samples) == level * level * |samples|
  {
    if samples != [] {
      ConstantSum(samples[..|samples| - 1], level);
      assert level * level * |samples| == level * level * (|samples| - 1) + level * level;
    }
  }

  lemma {:induction false} AllTrueExtends(frames: seq<Frame>, f: Frame)
    requires AllTrue(frames) && TrueLoudness(f)
    ensures AllTrue(frames + [f])
  {
    forall i | 0 <= i < |frames + [f]| ensures TrueLoudness((frames + [f])[i]) {
      if i < |frames| { assert TrueLoudness(frames[i]); }
    }
  }

  // ----- test tones

  const LEVEL := 500

  /** Sound of the given length at 16 kHz, 16 samples a millisecond: every sample is the level, or 0. */
  function Tone(ms: nat, loud: bool): (data: Payload)
    ensures |data| == 32 * ms
  {
    seq(32 * ms, i => if !loud then 0 else if i % 2 == 0 then 244 else 1)
  }

  /** A frame of such sound that the scorer calls speech. */
  function Sound(ms: nat, loud: bool): Frame {
    Frame(Packet("t", Tone(ms, loud), Audio), if loud then LEVEL as real else 0.0, Scored(1.0), 1000)
  }

  lemma {:induction false} ToneSamples(ms: nat, loud: bool)
    ensures var samples := Samples(Tone(ms, loud));
      |samples| == 16 * ms && forall i :: 0 <= i < |samples| ==> samples[i] == if loud then LEVEL else 0
  {
    var tone := Tone(ms, loud);
    forall i | 0 <= i < 16 * ms ensures Samples(tone)[i] == if loud then LEVEL else 0 {
      assert tone[2 * i] == (if loud then 244 else 0) && tone[2 * i + 1] == if loud then 1 else 0;
    }
  }

  /** A run of true frames with one such frame more. */
  lemma {:induction false} SoundExtends(frames: seq<Frame>, ms: nat, loud: bool)
    requires ms > 0 && AllTrue(frames)
    ensures AllTrue(frames + [Sound(ms, loud)])
  {
    SoundIsTrue(ms, loud);
    AllTrueExtends(frames, Sound(ms, loud));
  }

  /** The frame's loudness is that of its payload. */
  lemma {:induction false} SoundIsTrue(ms: nat, loud: bool)
    requires ms > 0 || !loud
    ensures TrueLoudness(Sound(ms, loud))
  {
    var level := if loud then LEVEL else 0;
    var samples := Samples(Tone(ms, loud));
    ToneSamples(ms, loud);
    ConstantSum(samples, level);
    assert level * level * |samples| == if loud then 250000 * (16 * ms) else 0;
  }
}
