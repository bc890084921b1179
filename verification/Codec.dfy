/** 16-bit little-endian samples and nearest-index resampling. */
module Codec {
  import opened Media

  type Sample = x: int | -32768 <= x < 32768

  // ----- bytes and samples

  function Join(low: byte, high: byte): Sample {
    var u := low + 256 * high;
    if u >= 32768 then u - 65536 else u
  }

  function Low(x: Sample): byte {
    x % 256
  }

  function High(x: Sample): byte {
    x / 256 % 256
  }

  lemma {:induction false} JoinSplits(x: Sample, low: byte, high: byte)
    ensures Join(Low(x), High(x)) == x
    ensures Low(Join(low, high)) == low && High(Join(low, high)) == high
  {
    assert x == 256 * (x / 256) + x % 256;
    assert (low + 256 * high - 65536) / 256 == high - 256;
  }

  /** A trailing odd byte is ignored. */
  function Samples(payload: Payload): seq<Sample> {
    seq(|payload| / 2, i requires 0 <= i < |payload| / 2 => Join(payload[2 * i], payload[2 * i + 1]))
  }

  function Bytes(samples: seq<Sample>): Payload {
    seq(2 * |samples|, k requires 0 <= k < 2 * |samples| => if k % 2 == 0 then Low(samples[k / 2])
        else High(samples[k / 2]))
  }

  /** Packing and unpacking are inverse, up to an odd last byte. */
  lemma {:induction false} SamplesBytes(samples: seq<Sample>)
    ensures Samples(Bytes(samples)) == samples
  {
    forall i | 0 <= i < |samples| ensures Samples(Bytes(samples))[i] == samples[i] {
      JoinSplits(samples[i], 0, 0);
    }
  }

  lemma {:induction false} ByteOfSample(payload: Payload, k: nat)
    requires k < |payload| / 2 * 2
    ensures Bytes(Samples(payload))[k] == payload[k]
  {
    var i := k / 2;
    var low, high := payload[2 * i], payload[2 * i + 1];
    assert Samples(payload)[i] == Join(low, high);
    JoinSplits(0, low, high);
    if k % 2 == 0 {
      assert k == 2 * i;
    } else {
      assert k == 2 * i + 1;
    }
  }

  lemma {:induction false} BytesSamples(payload: Payload)
    ensures Bytes(Samples(payload)) == payload[..|payload| / 2 * 2]
  {
    forall k | 0 <= k < |payload| / 2 * 2 ensures Bytes(Samples(payload))[k] == payload[k] {
      ByteOfSample(payload, k);
    }
  }

  method PcmBytesToSamples(payload: Payload) returns (samples: seq<Sample>)
    ensures samples == Samples(payload)
  {
    if |payload| < 2 {
      return [];
    }
    var count := |payload| / 2;
    var out := new Sample[count];
    for i := 0 to count
      invariant forall j :: 0 <= j < i ==> out[j] == Join(payload[2 * j], payload[2 * j + 1])
    {
      out[i] := Join(payload[i * 2], payload[i * 2 + 1]);
    }
    samples := out[..];
  }

  method PcmSamplesToBytes(samples: seq<Sample>) returns (payload: Payload)
    ensures payload == Bytes(samples)
  {
    if |samples| == 0 {
      return [];
    }
    var out := new byte[2 * |samples|];
    for i := 0 to |samples|
      invariant forall k :: 0 <= k < 2 * i ==> out[k] == Bytes(samples)[k]
    {
      out[2 * i], out[2 * i + 1] := Low(samples[i]), High(samples[i]);
    }
    payload := out[..];
  }

  // ----- resampling

  function OutLen(n: nat, srcRate: int, dstRate: int): nat
    requires srcRate > 0 && dstRate > 0
  {
    if n * dstRate / srcRate > 0 then n * dstRate / srcRate else n
  }

  /** The clamped source index. */
  function SrcIndex(i: nat, n: nat, srcRate: int, dstRate: int): (k: nat)
    requires srcRate > 0 && dstRate > 0 && n > 0
    ensures k < n
  {
    var k := i * srcRate / dstRate;
    IndexNonNegative(i, srcRate, dstRate);
    if k >= n then n - 1 else k
  }

  lemma {:induction false} IndexNonNegative(i: nat, srcRate: int, dstRate: int)
    requires srcRate > 0 && dstRate > 0
    ensures i * srcRate >= 0 && i * srcRate / dstRate >= 0
  {}

  function Resampled(input: seq<Sample>, srcRate: int, dstRate: int): seq<Sample>
    requires srcRate > 0 && dstRate > 0 && input != []
  {
    seq(OutLen(|input|, srcRate, dstRate), i requires 0 <= i => input[SrcIndex(i, |input|, srcRate, dstRate)])
  }

  function Resample(payload: Payload, srcRate: int, dstRate: int): Payload {
    if payload == [] || srcRate <= 0 || dstRate <= 0 || srcRate == dstRate then payload
    else if Samples(payload) == [] then []
    else Bytes(Resampled(Samples(payload), srcRate, dstRate))
  }

  method ResamplePCM16LE(payload: Payload, srcRate: int, dstRate: int) returns (resampled: Payload)
    ensures resampled == Resample(payload, srcRate, dstRate)
  {
    if |payload| == 0 || srcRate <= 0 || dstRate <= 0 || srcRate == dstRate {
      return payload;
    }
    var input := PcmBytesToSamples(payload);
    if |input| == 0 {
      return [];
    }
    IndexNonNegative(|input|, dstRate, srcRate);
    var outLen := |input| * dstRate / srcRate;
    if outLen <= 0 {
      outLen := |input|;
    }
    var output := new Sample[outLen];
    for i := 0 to outLen
      invariant forall j :: 0 <= j < i ==> output[j] == input[SrcIndex(j, |input|, srcRate, dstRate)]
    {
      IndexNonNegative(i, srcRate, dstRate);
      var srcIndex := i * srcRate / dstRate;
      if srcIndex >= |input| {
        srcIndex := |input| - 1;
      }
      output[i] := input[srcIndex];
    }
    assert output[..] == Resampled(input, srcRate, dstRate);
    resampled := PcmSamplesToBytes(output[..]);
  }

  // ----- arithmetic

  lemma {:induction false} DivLess(a: int, b: int, d: int)
    requires d > 0 && a < b * d
    ensures a / d < b
  {
    if a / d >= b {
      MulOrder(b, a / d, d);
    }
  }

  lemma {:induction false} MulOrder(a: int, b: int, d: int)
    requires d >= 0 && a <= b
    ensures a * d <= b * d
  {}

  lemma {:induction false} DivOrder(a: int, b: int, d: int)
    requires d > 0 && a <= b
    ensures a / d <= b / d
  {
    if b / d < a / d {
      MulOrder(b / d + 1, a / d, d);
    }
  }

  lemma {:induction false} DivExact(a: int, d: int)
    requires d > 0
    ensures a * d / d == a
  {
    DivLess(a * d, a + 1, d);
    if a * d / d < a { MulOrder(a * d / d + 1, a, d); }
  }

  function Pow2(e: nat): (p: nat)
    ensures p >= 1
  {
    if e == 0 then 1 else 2 * Pow2(e - 1)
  }

  lemma {:induction false} Powers()
    ensures Pow2(0) == 1 && Pow2(1) == 2 && Pow2(2) == 4 && Pow2(3) == 8 && Pow2(4) == 16
    ensures Pow2(5) == 32 && Pow2(6) == 64 && Pow2(7) == 128 && Pow2(8) == 256
  {}

  lemma {:induction false} PowOrder(a: nat, b: nat)
    requires a <= b
    ensures Pow2(a) <= Pow2(b)
  {
    if a < b { PowOrder(a, b - 1); }
  }

  lemma {:induction false} PowPlusThree(e: nat)
    ensures Pow2(e + 3) == 8 * Pow2(e)
  {
    assert Pow2(e + 3) == 2 * Pow2(e + 2) && Pow2(e + 2) == 2 * Pow2(e + 1);
  }

  // ----- what resampling does

  /** When the length formula gives a positive length, the clamp is never taken. */
  lemma {:induction false} ClampNeverTaken(n: nat, i: nat, srcRate: int, dstRate: int)
    requires srcRate > 0 && dstRate > 0 && i < n * dstRate / srcRate
    ensures i * srcRate / dstRate < n && SrcIndex(i, n, srcRate, dstRate) == i * srcRate / dstRate
  {
    var len := n * dstRate / srcRate;
    MulOrder(i + 1, len, srcRate);
    assert len * srcRate <= n * dstRate;
    assert (i + 1) * srcRate == i * srcRate + srcRate;
    DivLess(i * srcRate, n, dstRate);
    IndexNonNegative(i, srcRate, dstRate);
  }

  /** When it gives zero, the output has the input's length, and every index but the first is clamped: the output
      is the first sample followed by copies of the last. */
  lemma {:induction false} FallbackRepeatsTheLast(input: seq<Sample>, srcRate: int, dstRate: int)
    requires srcRate > 0 && dstRate > 0 && input != [] && |input| * dstRate / srcRate == 0
    ensures Resampled(input, srcRate, dstRate)
        == seq(|input|, i requires 0 <= i => if i == 0 then input[0] else input[|input| - 1])
  {
    var n := |input|;
    assert n * dstRate < srcRate;
    forall i | 0 < i < n ensures i * srcRate / dstRate >= n {
      MulOrder(1, i, srcRate);
      DivOrder(n * dstRate, i * srcRate, dstRate);
      DivExact(n, dstRate);
    }
    assert 0 * srcRate / dstRate == 0;
  }

  /** Source indices never go back. */
  lemma {:induction false} IndicesNondecreasing(n: nat, i: nat, j: nat, srcRate: int, dstRate: int)
    requires srcRate > 0 && dstRate > 0 && n > 0 && i <= j
    ensures SrcIndex(i, n, srcRate, dstRate) <= SrcIndex(j, n, srcRate, dstRate)
  {
    MulOrder(i, j, srcRate);
    DivOrder(i * srcRate, j * srcRate, dstRate);
  }

  /** Going up by a factor repeats every sample that many times. */
  lemma {:induction false} StretchRepeats(input: seq<Sample>, rate: int, k: int)
    requires rate > 0 && k > 0 && input != []
    ensures rate * k > 0
    ensures Resampled(input, rate, rate * k)
        == seq(|input| * k, j requires 0 <= j < |input| * k => input[Quotient(j, |input|, k)])
  {
    MulOrder(1, k, rate);
    var n := |input|;
    assert n * (rate * k) == (n * k) * rate;
    DivExact(n * k, rate);
    MulOrder(1, n, k);
    assert OutLen(n, rate, rate * k) == n * k;
    forall j | 0 <= j < n * k ensures SrcIndex(j, n, rate, rate * k) == Quotient(j, n, k) {
      ClampNeverTaken(n, j, rate, rate * k);
      Cancel(j, rate, k);
    }
  }

  function Quotient(j: nat, n: nat, k: int): (q: nat)
    requires k > 0 && j < n * k
    ensures q == j / k && q < n
  {
    DivLess(j, n, k);
    j / k
  }

  lemma {:induction false} Cancel(j: nat, rate: int, k: int)
    requires rate > 0 && k > 0
    ensures rate * k > 0 && j * rate / (rate * k) == j / k
  {
    MulOrder(1, k, rate);
    var q, r := j / k, j % k;
    assert j == q * k + r;
    assert j * rate == q * (rate * k) + r * rate;
    MulOrder(r + 1, k, rate);
    assert 0 <= r * rate < rate * k;
    DivUnique(j * rate, rate * k, q, r * rate);
  }

  lemma {:induction false} DivUnique(a: int, d: int, q: int, r: int)
    requires d > 0 && a == q * d + r && 0 <= r < d
    ensures a / d == q
  {
    assert (q + 1) * d == q * d + d;
    DivLess(a, q + 1, d);
    DivOrder(q * d, a, d);
    DivExact(q, d);
  }

  /** Going up by a factor and back down gives the samples back. */
  lemma {:induction false} UpAndBack(input: seq<Sample>, rate: int, k: int)
    requires rate > 0 && k > 0 && input != []
    ensures rate * k > 0 && Resampled(input, rate, rate * k) != []
    ensures Resampled(Resampled(input, rate, rate * k), rate * k, rate) == input
  {
    StretchRepeats(input, rate, k);
    var n, up := |input|, Resampled(input, rate, rate * k);
    MulOrder(1, n, k);
    assert |up| * rate == n * (rate * k);
    DivExact(n, rate * k);
    var back := Resampled(up, rate * k, rate);
    assert |back| == n;
    forall i | 0 <= i < n ensures back[i] == input[i] {
      ClampNeverTaken(|up|, i, rate * k, rate);
      assert i * (rate * k) == (i * k) * rate;
      DivExact(i * k, rate);
      DivExact(i, k);
      MulOrder(i + 1, n, k);
      assert back[i] == up[i * k];
    }
  }

  /** For payloads: an even-length payload survives the trip unchanged, an odd one loses its last byte. */
  lemma {:induction false} PayloadUpAndBack(payload: Payload, rate: int, k: int)
    requires rate > 0 && k > 1
    ensures Resample(Resample(payload, rate, rate * k), rate * k, rate) == payload[..|payload| / 2 * 2]
  {
    assert rate * k == rate * (k - 1) + rate;
    MulOrder(1, k - 1, rate);
    BytesSamples(payload);
    if Samples(payload) != [] {
      var samples := Samples(payload);
      UpAndBack(samples, rate, k);
      SamplesBytes(Resampled(samples, rate, rate * k));
    }
  }
}
