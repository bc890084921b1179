/** G.711 mu-law companding. Bit operations are written arithmetically: a shift divides or multiplies by a power
    of two, and the complement of a byte is its difference from 255. */
module MuLaw {
  import opened Media
  import opened Codec

  const BIAS := 132
  const CLIP := 32635

  /** The magnitude part of a code: its exponent and mantissa. */
  datatype Code = Code(exponent: nat, mantissa: nat)

  predicate IsCode(c: Code) {
    c.exponent < 8 && c.mantissa < 16
  }

  /** The biased magnitudes that share a code. */
  predicate InCell(biased: int, c: Code) {
    (16 + c.mantissa) * (8 * Pow2(c.exponent)) <= biased < (17 + c.mantissa) * (8 * Pow2(c.exponent))
  }

  /** The highest bit set among bits 14 down to 8, counted from bit 7. */
  function Exponent(biased: nat): (e: nat)
    ensures e < 8
  {
    if biased >= 0x4000 then 7
    else if biased >= 0x2000 then 6
    else if biased >= 0x1000 then 5
    else if biased >= 0x800 then 4
    else if biased >= 0x400 then 3
    else if biased >= 0x200 then 2
    else if biased >= 0x100 then 1
    else 0
  }

  function Mantissa(biased: nat): (m: nat)
    ensures m < 16
  {
    biased / (8 * Pow2(Exponent(biased))) % 16
  }

  function Clipped(x: Sample): Sample {
    if x < -CLIP then -CLIP else if x > CLIP then CLIP else x
  }

  function Magnitude(x: Sample): (m: nat)
    ensures m <= CLIP
  {
    if Clipped(x) < 0 then -Clipped(x) else Clipped(x)
  }

  function Sign(x: Sample): nat {
    if x < 0 then 128 else 0
  }

  function CodeOf(magnitude: nat): (c: Code)
    ensures IsCode(c)
  {
    Code(Exponent(magnitude + BIAS), Mantissa(magnitude + BIAS))
  }

  function ByteOf(sign: nat, c: Code): byte
    requires sign in {0, 128} && IsCode(c)
  {
    255 - (sign + 16 * c.exponent + c.mantissa)
  }

  function EncodeSample(x: Sample): byte {
    ByteOf(Sign(x), CodeOf(Magnitude(x)))
  }

  function Value(c: Code): int {
    (8 * c.mantissa + BIAS) * Pow2(c.exponent) - BIAS
  }

  function SignOf(b: byte): nat {
    if 255 - b >= 128 then 128 else 0
  }

  function CodeIn(b: byte): (c: Code)
    ensures IsCode(c)
  {
    Code((255 - b) / 16 % 8, (255 - b) % 16)
  }

  function DecodeSample(b: byte): Sample {
    ValueBounds(CodeIn(b));
    if SignOf(b) == 128 then -Value(CodeIn(b)) else Value(CodeIn(b))
  }

  lemma {:induction false} ValueBounds(c: Code)
    requires IsCode(c)
    ensures 0 <= Value(c) <= 32124
    ensures Value(c) == 0 <==> c == Code(0, 0)
  {
    Powers();
    var p := Pow2(c.exponent);
    MulOrder(8 * c.mantissa + BIAS, 252, p);
    MulOrder(BIAS, 8 * c.mantissa + BIAS, p);
  }

  lemma {:induction false} TopBit(pcm: nat, mask: nat)
    requires mask > 0 && pcm < 2 * mask
    ensures pcm / mask % 2 == 0 <==> pcm < mask
  {
    if pcm >= mask { DivOrder(mask, pcm, mask); DivLess(pcm, 2, mask); }
  }

  lemma {:induction false} ExponentFound(pcm: nat, exponent: nat)
    requires exponent <= 7 && pcm < 256 * Pow2(exponent)
    requires exponent > 0 ==> pcm >= 128 * Pow2(exponent)
    ensures exponent == Exponent(pcm)
  {
    Powers();
  }

  /** The exponent search of the encoder, bit by bit from the top. */
  method LinearToMuLaw(sample: Sample) returns (b: byte)
    ensures b == EncodeSample(sample)
  {
    var pcm: int := sample;
    var sign := 0;
    if pcm < 0 {
      sign := 0x80;
      pcm := -pcm;
    }
    if pcm > CLIP {
      pcm := CLIP;
    }
    assert pcm == Magnitude(sample);
    pcm := pcm + BIAS;
    var exponent, expMask := 7, 0x4000;
    assert expMask == 128 * Pow2(7) by { Powers(); }
    while exponent > 0 && pcm / expMask % 2 == 0
      invariant 0 <= exponent <= 7 && expMask == 128 * Pow2(exponent)
      invariant pcm < 2 * expMask
    {
      TopBit(pcm, expMask);
      expMask := expMask / 2;
      exponent := exponent - 1;
    }
    TopBit(pcm, expMask);
    ExponentFound(pcm, exponent);
    var mantissa := pcm / (8 * Pow2(exponent)) % 16;
    b := 255 - (sign + exponent * 16 + mantissa);
  }

  method MuLawToLinear(value: byte) returns (sample: Sample)
    ensures sample == DecodeSample(value)
  {
    var v := 255 - value;
    var sign, exponent, mantissa := v / 128, v / 16 % 8, v % 16;
    ValueBounds(CodeIn(value));
    var pcm := (mantissa * 8 + BIAS) * Pow2(exponent);
    pcm := pcm - BIAS;
    if sign != 0 {
      pcm := -pcm;
    }
    sample := pcm;
  }

  // ----- cells

  lemma {:induction false} CodeCell(magnitude: nat)
    requires magnitude <= CLIP
    ensures InCell(magnitude + BIAS, CodeOf(magnitude))
  {
    Powers();
    var biased := magnitude + BIAS;
    var d := 8 * Pow2(Exponent(biased));
    var q := biased / d;
    assert 16 * d <= biased < 32 * d;
    DivOrder(16 * d, biased, d);
    DivExact(16, d);
    DivLess(biased, 32, d);
    assert q % 16 == q - 16;
    assert biased == q * d + biased % d;
    assert (q + 1) * d == q * d + d;
  }

  /** A cell belongs to one code only. */
  lemma {:induction false} CellDetermines(biased: nat, c: Code)
    requires IsCode(c) && InCell(biased, c)
    ensures Exponent(biased) == c.exponent && Mantissa(biased) == c.mantissa
  {
    Powers();
    var d := 8 * Pow2(c.exponent);
    MulOrder(16, 16 + c.mantissa, d);
    MulOrder(17 + c.mantissa, 32, d);
    assert Exponent(biased) == c.exponent;
    DivOrder((16 + c.mantissa) * d, biased, d);
    DivExact(16 + c.mantissa, d);
    DivLess(biased, 17 + c.mantissa, d);
  }

  /** A code's value is the middle of its cell. */
  lemma {:induction false} ValueInCell(c: Code)
    requires IsCode(c)
    ensures InCell(Value(c) + BIAS, c)
    ensures Value(c) + BIAS == (16 + c.mantissa) * (8 * Pow2(c.exponent)) + 4 * Pow2(c.exponent)
  {
    var p := Pow2(c.exponent);
    assert (8 * c.mantissa + BIAS) * p == (16 + c.mantissa) * (8 * p) + 4 * p;
    assert (17 + c.mantissa) * (8 * p) == (16 + c.mantissa) * (8 * p) + 8 * p;
  }

  // ----- round trips

  lemma {:induction false} ByteParts(sign: nat, c: Code)
    requires sign in {0, 128} && IsCode(c)
    ensures SignOf(ByteOf(sign, c)) == sign && CodeIn(ByteOf(sign, c)) == c
  {}

  lemma {:induction false} PartsByte(b: byte)
    ensures ByteOf(SignOf(b), CodeIn(b)) == b
  {}

  lemma {:induction false} ValueHasItsCode(c: Code)
    requires IsCode(c)
    ensures CodeOf(Value(c) as nat) == c
  {
    ValueBounds(c);
    ValueInCell(c);
    CellDetermines(Value(c) + BIAS, c);
  }

  /** Encoding a decoded byte gives the byte, except that the code of negative zero becomes positive zero. */
  lemma {:induction false} EncodeDecode(b: byte)
    ensures EncodeSample(DecodeSample(b)) == if b == 0x7F then 0xFF else b
  {
    var c := CodeIn(b);
    ValueBounds(c);
    ValueHasItsCode(c);
    PartsByte(b);
    assert Magnitude(DecodeSample(b)) == Value(c);
  }

  /** So a second trip through the codec changes nothing. */
  lemma {:induction false} DecodeEncodeDecode(b: byte)
    ensures DecodeSample(EncodeSample(DecodeSample(b))) == DecodeSample(b)
  {
    EncodeDecode(b);
    assert Value(Code(0, 0)) == 0 by { Powers(); }
    assert CodeIn(0x7F) == Code(0, 0) == CodeIn(0xFF);
  }

  // ----- accuracy and order

  function Quantised(x: Sample): Sample {
    DecodeSample(EncodeSample(x))
  }

  lemma {:induction false} QuantisedParts(x: Sample)
    ensures Quantised(x) == if x < 0 then -Value(CodeOf(Magnitude(x))) else Value(CodeOf(Magnitude(x)))
  {
    ByteParts(Sign(x), CodeOf(Magnitude(x)));
  }

  lemma {:induction false} WithinHalfCell(biased: int, c: Code)
    requires IsCode(c) && InCell(biased, c)
    ensures -4 * Pow2(c.exponent) <= Value(c) + BIAS - biased <= 4 * Pow2(c.exponent)
  {
    ValueInCell(c);
    var d := 8 * Pow2(c.exponent);
    assert (17 + c.mantissa) * d == (16 + c.mantissa) * d + d;
  }

  /** A decoded sample is within half a quantisation step of the input, which is clipped at 32635. */
  lemma {:induction false} HalfStepError(x: Sample)
    ensures var e := CodeIn(EncodeSample(x)).exponent;
      -4 * Pow2(e) <= Quantised(x) - Clipped(x) <= 4 * Pow2(e)
    ensures Clipped(x) == if x > 32635 then 32635 else if x < -32635 then -32635 else x
  {
    QuantisedParts(x);
    ByteParts(Sign(x), CodeOf(Magnitude(x)));
    CodeCell(Magnitude(x));
    WithinHalfCell(Magnitude(x) + BIAS, CodeOf(Magnitude(x)));
  }

  lemma {:induction false} CellsInOrder(c: Code, d: Code)
    requires IsCode(c) && IsCode(d)
    requires (16 + c.mantissa) * (8 * Pow2(c.exponent)) < (17 + d.mantissa) * (8 * Pow2(d.exponent))
    ensures Value(c) <= Value(d)
  {
    Powers();
    var p, q := Pow2(c.exponent), Pow2(d.exponent);
    if c.exponent == d.exponent {
      if d.mantissa < c.mantissa { MulOrder(17 + d.mantissa, 16 + c.mantissa, 8 * p); }
      MulOrder(8 * c.mantissa + BIAS, 8 * d.mantissa + BIAS, p);
    } else if c.exponent < d.exponent {
      assert 2 * p <= q;
      MulOrder(8 * c.mantissa + BIAS, 252, p);
      MulOrder(BIAS, 8 * d.mantissa + BIAS, q);
    } else {
      MulOrder(17 + d.mantissa, 32, 8 * q);
      MulOrder(16, 16 + c.mantissa, 8 * p);
    }
  }

  lemma {:induction false} MagnitudesInOrder(a: nat, b: nat)
    requires a <= b <= CLIP
    ensures 0 <= Value(CodeOf(a)) <= Value(CodeOf(b))
  {
    CodeCell(a);
    CodeCell(b);
    ValueBounds(CodeOf(a));
    CellsInOrder(CodeOf(a), CodeOf(b));
  }

  /** Companding keeps the order of samples. */
  lemma {:induction false} OrderPreserving(x: Sample, y: Sample)
    requires x <= y
    ensures Quantised(x) <= Quantised(y)
  {
    QuantisedParts(x);
    QuantisedParts(y);
    ValueBounds(CodeOf(Magnitude(x)));
    ValueBounds(CodeOf(Magnitude(y)));
    if x >= 0 {
      MagnitudesInOrder(Magnitude(x), Magnitude(y));
    } else if y < 0 {
      MagnitudesInOrder(Magnitude(y), Magnitude(x));
    }
  }

  // ----- payloads

  function Encoded(payload: Payload): Payload {
    seq(|Samples(payload)|, i requires 0 <= i < |Samples(payload)| => EncodeSample(Samples(payload)[i]))
  }

  function Decoded(payload: Payload): Payload {
    Bytes(seq(|payload|, i requires 0 <= i < |payload| => DecodeSample(payload[i])))
  }

  method Encode(payload: Payload) returns (encoded: Payload)
    ensures encoded == Encoded(payload)
  {
    var samples := PcmBytesToSamples(payload);
    if |samples| == 0 {
      return [];
    }
    var out := new byte[|samples|];
    for i := 0 to |samples|
      invariant forall j :: 0 <= j < i ==> out[j] == EncodeSample(samples[j])
    {
      var b := LinearToMuLaw(samples[i]);
      out[i] := b;
    }
    encoded := out[..];
  }

  method Decode(payload: Payload) returns (decoded: Payload)
    ensures decoded == Decoded(payload)
  {
    if |payload| == 0 {
      return [];
    }
    var samples := new Sample[|payload|];
    for i := 0 to |payload|
      invariant forall j :: 0 <= j < i ==> samples[j] == DecodeSample(payload[j])
    {
      var x := MuLawToLinear(payload[i]);
      samples[i] := x;
    }
    assert samples[..] == seq(|payload|, i requires 0 <= i < |payload| => DecodeSample(payload[i]));
    decoded := PcmSamplesToBytes(samples[..]);
  }

  function ZeroesMerged(payload: Payload): Payload {
    seq(|payload|, i requires 0 <= i < |payload| => if payload[i] == 0x7F then 0xFF else payload[i])
  }

  lemma {:induction false} DecodedSamples(payload: Payload)
    ensures Samples(Decoded(payload)) == seq(|payload|, i requires 0 <= i < |payload| => DecodeSample(payload[i]))
  {
    SamplesBytes(seq(|payload|, i requires 0 <= i < |payload| => DecodeSample(payload[i])));
  }

  /** Encoding a decoded payload gives the payload with the two codes of zero merged. */
  lemma {:induction false} PayloadEncodeDecode(payload: Payload)
    ensures Encoded(Decoded(payload)) == ZeroesMerged(payload)
  {
    DecodedSamples(payload);
    forall i | 0 <= i < |payload| ensures Encoded(Decoded(payload))[i] == ZeroesMerged(payload)[i] {
      EncodeDecode(payload[i]);
    }
  }

  /** Decoding, encoding and decoding again equals decoding once. */
  lemma {:induction false} PayloadDecodeEncodeDecode(payload: Payload)
    ensures Decoded(Encoded(Decoded(payload))) == Decoded(payload)
  {
    PayloadEncodeDecode(payload);
    forall i | 0 <= i < |payload| ensures DecodeSample(ZeroesMerged(payload)[i]) == DecodeSample(payload[i]) {
      EncodeDecode(payload[i]);
      DecodeEncodeDecode(payload[i]);
    }
    assert seq(|payload|, i requires 0 <= i < |payload| => DecodeSample(ZeroesMerged(payload)[i]))
        == seq(|payload|, i requires 0 <= i < |payload| => DecodeSample(payload[i]));
  }
}
