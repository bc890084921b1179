/** Inbound G.711 audio on its way to the detector: decoded, brought to 16 kHz, and measured in milliseconds. */
module Inbound {
  import opened Media
  import opened Codec
  import MuLaw
  import ALaw
  import VadModel

  datatype CodecType = PCMU | PCMA

  const CODEC_RATE := 8000
  const TARGET_RATE := 16000

  /** None: the mime type names neither codec. A clock rate that is not positive stands for the codec's own. */
  function Normalized(codec: Option<CodecType>, clockRate: int, payload: Payload): Option<Payload> {
    if codec.None? then None
    else
      var decoded := if codec.value == PCMU then MuLaw.Decoded(payload) else ALaw.Decoded(payload);
      if decoded == [] then Some([])
      else Some(Resample(decoded, if clockRate <= 0 then CODEC_RATE else clockRate, TARGET_RATE))
  }

  method NormalizeInboundPayload(codec: Option<CodecType>, clockRate: int,
          payload: Payload) returns (r: Option<Payload>)
    ensures r == Normalized(codec, clockRate, payload)
  {
    if codec.None? {
      return None;
    }
    var decoded: Payload;
    if codec.value == PCMU {
      decoded := MuLaw.Decode(payload);
    } else {
      decoded := ALaw.Decode(payload);
    }
    if |decoded| == 0 {
      return Some([]);
    }
    var srcRate := clockRate;
    if srcRate <= 0 {
      srcRate := CODEC_RATE;
    }
    var resampled := ResamplePCM16LE(decoded, srcRate, TARGET_RATE);
    return Some(resampled);
  }

  /** Rounding up is not changed by a common factor. */
  lemma {:induction false} CeilCancel(a: nat, d: int, k: int)
    requires d > 0 && k > 0
    ensures d * k > 0 && (a * k + d * k - 1) / (d * k) == (a + d - 1) / d
  {
    MulOrder(1, k, d);
    var q, r := (a + d - 1) / d, (a + d - 1) % d;
    assert a + d - 1 == q * d + r;
    assert a * k + d * k - 1 == q * (d * k) + (r * k + k - 1);
    MulOrder(r + 1, d, k);
    assert 0 <= r * k + k - 1 < d * k;
    DivUnique(a * k + d * k - 1, d * k, q, r * k + k - 1);
  }

  lemma {:induction false} Measured(payload: Payload, rate: int, n: nat)
    requires rate > 0 && |payload| / 2 == n > 0
    ensures VadModel.PcmDurationMs(payload, rate) == (n * 1000 + rate - 1) / rate
  {}

  lemma {:induction false} StretchedLength(payload: Payload, srcRate: int, k: int, dstRate: int)
    requires srcRate > 0 && k > 1 && dstRate == srcRate * k && |payload| >= 2
    ensures dstRate > 0 && |Resample(payload, srcRate, dstRate)| / 2 == |payload| / 2 * k
  {
    MulOrder(2, k, srcRate);
    StretchRepeats(Samples(payload), srcRate, k);
  }

  lemma {:induction false} MeasuredAlike(n: nat, srcRate: int, k: int, dstRate: int)
    requires srcRate > 0 && k > 1 && dstRate == srcRate * k > 0
    ensures (n * k * 1000 + dstRate - 1) / dstRate == (n * 1000 + srcRate - 1) / srcRate
  {
    CeilCancel(n * 1000, srcRate, k);
    assert n * 1000 * k == n * k * 1000;
  }

  /** Going up by a factor keeps the length in milliseconds that the detector measures. */
  lemma {:induction false} StretchKeepsDuration(payload: Payload, srcRate: int, k: int, dstRate: int)
    requires srcRate > 0 && k > 0 && dstRate == srcRate * k
    ensures VadModel.PcmDurationMs(Resample(payload, srcRate, dstRate), dstRate)
        == VadModel.PcmDurationMs(payload, srcRate)
  {
    if k == 1 {
      assert dstRate == srcRate;
    } else if |payload| >= 2 {
      var n := |payload| / 2;
      StretchedLength(payload, srcRate, k, dstRate);
      MulOrder(1, k, n);
      Measured(Resample(payload, srcRate, dstRate), dstRate, n * k);
      Measured(payload, srcRate, n);
      MeasuredAlike(n, srcRate, k, dstRate);
    }
  }

  lemma {:induction false} DecodedLength(payload: Payload)
    ensures |MuLaw.Decoded(payload)| == |ALaw.Decoded(payload)| == 2 * |payload|
  {}

  /** A payload of n bytes of 8 kHz G.711 is measured as exactly n/8 milliseconds, rounded up. */
  lemma {:induction false} InboundDuration(codec: CodecType, clockRate: int, payload: Payload)
    requires clockRate <= 0 || clockRate == CODEC_RATE
    ensures VadModel.PcmDurationMs(Normalized(Some(codec), clockRate, payload).value, TARGET_RATE)
        == (|payload| + 7) / 8
  {
    var decoded := if codec == PCMU then MuLaw.Decoded(payload) else ALaw.Decoded(payload);
    DecodedLength(payload);
    StretchKeepsDuration(decoded, CODEC_RATE, 2, TARGET_RATE);
    assert (|payload| * 1000 + 7999) / 8000 == (|payload| + 7) / 8;
  }

  lemma {:induction false} DecodedSamples(payload: Payload, i: nat)
    requires i < |payload|
    ensures |Samples(MuLaw.Decoded(payload))| == |Samples(ALaw.Decoded(payload))| == |payload|
    ensures Samples(MuLaw.Decoded(payload))[i] == MuLaw.DecodeSample(payload[i])
    ensures Samples(ALaw.Decoded(payload))[i] == ALaw.DecodeSample(payload[i])
  {
    SamplesBytes(seq(|payload|, k requires 0 <= k < |payload| => MuLaw.DecodeSample(payload[k])));
    SamplesBytes(seq(|payload|, k requires 0 <= k < |payload| => ALaw.DecodeSample(payload[k])));
  }

  lemma {:induction false} DoubledSamples(decoded: Payload, i: nat)
    requires i < |Samples(decoded)|
    ensures var doubled := Samples(Resample(decoded, CODEC_RATE, TARGET_RATE));
      |doubled| == 2 * |Samples(decoded)| && doubled[2 * i] == doubled[2 * i + 1] == Samples(decoded)[i]
  {
    var input := Samples(decoded);
    StretchRepeats(input, CODEC_RATE, 2);
    SamplesBytes(Resampled(input, CODEC_RATE, TARGET_RATE));
    assert Quotient(2 * i, |input|, 2) == i && Quotient(2 * i + 1, |input|, 2) == i;
  }

  /** Each byte of 8 kHz audio becomes two samples at 16 kHz, both its value under the law of its own codec. */
  lemma {:induction false} EachByteTwice(codec: CodecType, clockRate: int, payload: Payload, i: nat)
    requires (clockRate <= 0 || clockRate == 8000) && i < |payload|
    ensures var r := Normalized(Some(codec), clockRate, payload);
      && r.Some? && |Samples(r.value)| == 2 * |payload|
      && Samples(r.value)[2 * i] == Samples(r.value)[2 * i + 1]
      && Samples(r.value)[2 * i] == match codec
           case PCMU => MuLaw.DecodeSample(payload[i])
           case PCMA => ALaw.DecodeSample(payload[i])
  {
    DecodedSamples(payload, i);
    DoubledSamples(if codec == PCMU then MuLaw.Decoded(payload) else ALaw.Decoded(payload), i);
  }

  /** Audio that claims the target rate is only decoded, and without a codec there is nothing to decode it by. */
  lemma {:induction false} OtherwiseOnlyDecoded(codec: Option<CodecType>, clockRate: int, payload: Payload)
    requires codec == None || clockRate == 16000
    ensures Normalized(codec, clockRate, payload) ==
      if codec == None then None
      else Some(match codec.value
        case PCMU => MuLaw.Decoded(payload)
        case PCMA => ALaw.Decoded(payload))
  {
  }
}
