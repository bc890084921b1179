/** G.711 A-law companding as the program does it. Its encoder compares unscaled 16-bit samples with segment ends
    that are meant for 13-bit ones, so it does not invert the decoder; what holds all the same is that it keeps
    order and sign, and exactly which codes survive. */
module ALaw {
  import opened Media
  import opened Codec

  /** Segment and mantissa of a seven-bit code. */
  datatype Code = Code(segment: nat, mantissa: nat)

  predicate IsCode(c: Code) {
    c.segment < 8 && c.mantissa < 16
  }

  /** Exclusive or with 0x55 swaps 0 with 1 and 2 with 3 in each base-four digit. */
  function FlipDigit(d: nat): nat
    requires d < 4
  {
    if d % 2 == 0 then d + 1 else d - 1
  }

  function Pow4(digits: nat): (p: nat)
    ensures p > 0
  {
    if digits == 0 then 1 else 4 * Pow4(digits - 1)
  }

  function FlipDigits(n: nat, digits: nat): (f: nat)
    requires n < Pow4(digits)
    ensures f < Pow4(digits)
  {
    if digits == 0 then 0 else 4 * FlipDigits(n / 4, digits - 1) + FlipDigit(n % 4)
  }

  function Flip(b: byte): byte {
    assert Pow4(4) == 256;
    FlipDigits(b, 4)
  }

  lemma {:induction false} FlipJoined(high: nat, low: nat, digits: nat)
    requires low < 4 && digits > 0 && high < Pow4(digits - 1)
    ensures 4 * high + low < Pow4(digits)
    ensures FlipDigits(4 * high + low, digits) == 4 * FlipDigits(high, digits - 1) + FlipDigit(low)
  {
    assert (4 * high + low) / 4 == high && (4 * high + low) % 4 == low;
  }

  lemma {:induction false} FlipDigitTwice(d: nat)
    requires d < 4
    ensures FlipDigit(d) < 4 && FlipDigit(FlipDigit(d)) == d
  {
  }

  lemma {:induction false} FlippedBack(high: nat, low: nat, flipped: nat, digits: nat)
    requires low < 4 && digits > 0 && flipped < Pow4(digits - 1) && FlipDigits(flipped, digits - 1) == high
    ensures 4 * flipped + FlipDigit(low) < Pow4(digits)
    ensures FlipDigits(4 * flipped + FlipDigit(low), digits) == 4 * high + low
  {
    FlipDigitTwice(low);
    FlipJoined(flipped, FlipDigit(low), digits);
  }

  lemma {:induction false} FlipDigitsTwice(n: nat, digits: nat)
    requires n < Pow4(digits)
    ensures FlipDigits(FlipDigits(n, digits), digits) == n
  {
    if digits > 0 {
      var flipped := FlipDigits(n / 4, digits - 1);
      FlipDigitsTwice(n / 4, digits - 1);
      FlippedBack(n / 4, n % 4, flipped, digits);
      assert FlipDigits(n, digits) == 4 * flipped + FlipDigit(n % 4);
    }
  }

  lemma {:induction false} FlipKeepsTopBit(n: nat, digits: nat)
    requires 0 < digits && n < Pow4(digits)
    ensures FlipDigits(n, digits) >= 2 * Pow4(digits - 1) <==> n >= 2 * Pow4(digits - 1)
  {
    if digits > 1 {
      FlipKeepsTopBit(n / 4, digits - 1);
    } else {
      assert n / 4 == 0;
    }
  }

  lemma {:induction false} FlipTwice(b: byte)
    ensures Flip(Flip(b)) == b && (Flip(b) >= 128 <==> b >= 128)
  {
    assert Pow4(4) == 256 && Pow4(3) == 64;
    FlipDigitsTwice(b, 4);
    FlipKeepsTopBit(b, 4);
  }

  /** Binary digit i of a number. */
  function Bit(n: nat, i: nat): nat {
    if i == 0 then n % 2 else Bit(n / 2, i - 1)
  }

  lemma {:induction false} DigitBits(q: nat, d: nat, i: nat)
    requires d < 4
    ensures Bit(4 * q + d, i) == if i == 0 then d % 2 else if i == 1 then d / 2 else Bit(q, i - 2)
  {
    var half := (4 * q + d) / 2;
    assert half == 2 * q + d / 2;
    if i > 1 { assert half / 2 == q; }
  }

  lemma {:induction false} FlipDigitBits(d: nat)
    requires d < 4
    ensures FlipDigit(d) < 4 && FlipDigit(d) % 2 != d % 2 && FlipDigit(d) / 2 == d / 2
  {
  }

  lemma {:induction false} FlipDigitsBits(n: nat, digits: nat, i: nat)
    requires n < Pow4(digits) && i < 2 * digits
    ensures Bit(FlipDigits(n, digits), i) != Bit(n, i) <==> i % 2 == 0
  {
    var q, d := n / 4, n % 4;
    DigitBits(q, d, i);
    FlipDigitBits(d);
    DigitBits(FlipDigits(q, digits - 1), FlipDigit(d), i);
    if i >= 2 { FlipDigitsBits(q, digits - 1, i - 2); }
  }

  /** Flip is the exclusive or with 0x55: it changes every other bit, the lowest one included. */
  lemma {:induction false} FlipBits(b: byte, i: nat)
    requires i < 8
    ensures Bit(Flip(b), i) != Bit(b, i) <==> i % 2 == 0
  {
    assert Pow4(4) == 256;
    FlipDigitsBits(b, 4, i);
  }

  /** Sign bit, segment and mantissa of a byte. */
  lemma {:induction false} Fields(positive: bool, c: Code, v: byte)
    requires IsCode(c)
    ensures v == 16 * c.segment + c.mantissa + (if positive then 128 else 0)
      <==> positive == (v >= 128) && c == Code(v % 128 / 16, v % 16)
  {
    var low := v % 128;
    assert low == 16 * (low / 16) + low % 16 && low % 16 == v % 16;
    if v == 16 * c.segment + c.mantissa + (if positive then 128 else 0) {
      assert low == 16 * c.segment + c.mantissa;
    }
  }

  // ----- encoding

  /** The first segment whose end is not below the sample, or 8. */
  function Segment(pcm: nat): (s: nat)
    ensures s <= 8
  {
    if pcm <= 31 then 0
    else if pcm <= 62 then 1
    else if pcm <= 124 then 2
    else if pcm <= 248 then 3
    else if pcm <= 496 then 4
    else if pcm <= 992 then 5
    else if pcm <= 1984 then 6
    else if pcm <= 3968 then 7
    else 8
  }

  function CodeOf(pcm: nat): (c: Code)
    ensures IsCode(c)
  {
    var segment := Segment(pcm);
    if segment >= 8 then Code(7, 15)
    else if segment < 2 then Code(segment, pcm / 16 % 16)
    else Code(segment, pcm / Pow2(segment + 3) % 16)
  }

  /** The non-negative number that is coded: a negative sample is moved up by 8 first. */
  function Shifted(x: Sample): nat {
    var pcm: int := x;
    if pcm >= 0 then pcm else if -pcm - 8 < 0 then 0 else -pcm - 8
  }

  function ByteOf(positive: bool, c: Code): byte
    requires IsCode(c)
  {
    Flip(16 * c.segment + c.mantissa + if positive then 128 else 0)
  }

  function EncodeSample(x: Sample): byte {
    ByteOf(x >= 0, CodeOf(Shifted(x)))
  }

  method ALawSegment(pcm: nat) returns (segment: nat)
    ensures segment == Segment(pcm)
  {
    Powers();
    segment := 0;
    while segment < 8
      invariant segment <= 8
      invariant forall s :: 0 <= s < segment ==> pcm > 31 * Pow2(s)
    {
      if pcm <= 31 * Pow2(segment) {
        return;
      }
      segment := segment + 1;
    }
    assert pcm > 31 * Pow2(7);
  }

  method LinearToALaw(sample: Sample) returns (b: byte)
    ensures b == EncodeSample(sample)
  {
    var pcm: int := sample;
    var positive := true;
    if pcm < 0 {
      positive := false;
      pcm := -pcm - 8;
      if pcm < 0 {
        pcm := 0;
      }
    }
    if pcm > 0x7fff {
      pcm := 0x7fff;
    }
    assert pcm == Shifted(sample);
    var segment := ALawSegment(pcm);
    var alaw: nat;
    if segment >= 8 {
      alaw := 0x7f;
    } else {
      alaw := segment * 16;
      if segment < 2 {
        alaw := alaw + pcm / 16 % 16;
      } else {
        alaw := alaw + pcm / Pow2(segment + 3) % 16;
      }
    }
    b := Flip(alaw + if positive then 0x80 else 0);
  }

  // ----- decoding

  function Value(c: Code): int {
    if c.segment == 0 then 16 * c.mantissa + 8
    else (16 * c.mantissa + 264) * Pow2(c.segment - 1)
  }

  lemma {:induction false} ValueBounds(c: Code)
    requires IsCode(c)
    ensures 8 <= Value(c) <= 32256
    ensures c.segment == 0 ==> Value(c) <= 248
    ensures c.segment > 0 ==> 264 * Pow2(c.segment - 1) <= Value(c) <= 504 * Pow2(c.segment - 1)
  {
    Powers();
    if c.segment > 0 {
      MulOrder(264, 16 * c.mantissa + 264, Pow2(c.segment - 1));
      MulOrder(16 * c.mantissa + 264, 504, Pow2(c.segment - 1));
    }
  }

  predicate PositiveIn(b: byte) {
    Flip(b) >= 128
  }

  function CodeIn(b: byte): (c: Code)
    ensures IsCode(c)
  {
    Code(Flip(b) % 128 / 16, Flip(b) % 16)
  }

  function DecodeSample(b: byte): Sample {
    ValueBounds(CodeIn(b));
    if PositiveIn(b) then Value(CodeIn(b)) else -Value(CodeIn(b))
  }

  method ALawToLinear(value: byte) returns (sample: Sample)
    ensures sample == DecodeSample(value)
  {
    var v := Flip(value);
    var t, segment := v % 16 * 16, v % 128 / 16;
    if segment == 0 {
      t := t + 8;
    } else if segment == 1 {
      t := t + 0x108;
    } else {
      t := t + 0x108;
      t := t * Pow2(segment - 1);
    }
    assert t == Value(CodeIn(value)) by { Powers(); }
    ValueBounds(CodeIn(value));
    if v < 128 {
      return -t;
    }
    sample := t;
  }

  // ----- order and sign

  lemma {:induction false} ByteParts(positive: bool, c: Code)
    requires IsCode(c)
    ensures PositiveIn(ByteOf(positive, c)) == positive && CodeIn(ByteOf(positive, c)) == c
  {
    var v := 16 * c.segment + c.mantissa + if positive then 128 else 0;
    FlipTwice(v);
    Fields(positive, c, v);
  }

  lemma {:induction false} PartsByte(b: byte)
    ensures ByteOf(PositiveIn(b), CodeIn(b)) == b
  {
    FlipTwice(b);
    Fields(PositiveIn(b), CodeIn(b), Flip(b));
  }

  function Quantised(x: Sample): Sample {
    DecodeSample(EncodeSample(x))
  }

  lemma {:induction false} QuantisedParts(x: Sample)
    ensures Quantised(x) == if x >= 0 then Value(CodeOf(Shifted(x))) else -Value(CodeOf(Shifted(x)))
  {
    ByteParts(x >= 0, CodeOf(Shifted(x)));
  }

  /** A sample and its companded form have the same sign; zero counts as positive. */
  lemma {:induction false} SignPreserving(x: Sample)
    ensures x >= 0 <==> Quantised(x) > 0
    ensures Quantised(x) != 0
  {
    QuantisedParts(x);
    ValueBounds(CodeOf(Shifted(x)));
  }

  /** The mantissas the encoder uses in the segments above the first two. */
  lemma {:induction false} UpperMantissa(pcm: nat)
    requires 2 <= Segment(pcm) <= 7
    ensures var m := pcm / Pow2(Segment(pcm) + 3); 1 <= m <= 3 && CodeOf(pcm) == Code(Segment(pcm), m)
  {
    Powers();
    var d := Pow2(Segment(pcm) + 3);
    PowPlusThree(Segment(pcm));
    assert d == 8 * Pow2(Segment(pcm));
    assert 1 * d <= pcm < 4 * d;
    DivOrder(1 * d, pcm, d);
    DivExact(1, d);
    DivLess(pcm, 4, d);
  }

  /** The range of decoded values of a segment the encoder used. */
  lemma {:induction false} QuantisedRange(pcm: nat)
    ensures var s, v := Segment(pcm), Value(CodeOf(pcm));
      && (s == 0 ==> 8 <= v <= 24)
      && (s == 1 ==> 296 <= v <= 312)
      && (2 <= s <= 7 ==> 280 * Pow2(s - 1) <= v <= 312 * Pow2(s - 1))
      && (s == 8 ==> v == 32256)
  {
    Powers();
    var s := Segment(pcm);
    if 2 <= s <= 7 {
      UpperMantissa(pcm);
      var m := CodeOf(pcm).mantissa;
      MulOrder(280, 16 * m + 264, Pow2(s - 1));
      MulOrder(16 * m + 264, 312, Pow2(s - 1));
    }
  }

  lemma {:induction false} SameSegment(a: nat, b: nat)
    requires a <= b && Segment(a) == Segment(b)
    ensures Value(CodeOf(a)) <= Value(CodeOf(b))
  {
    var s := Segment(a);
    if 2 <= s <= 7 {
      UpperMantissa(a);
      UpperMantissa(b);
      DivOrder(a, b, Pow2(s + 3));
      MulOrder(16 * CodeOf(a).mantissa + 264, 16 * CodeOf(b).mantissa + 264, Pow2(s - 1));
    }
  }

  lemma {:induction false} MagnitudesInOrder(a: nat, b: nat)
    requires a <= b
    ensures Value(CodeOf(a)) <= Value(CodeOf(b))
  {
    if Segment(a) == Segment(b) {
      SameSegment(a, b);
    } else {
      QuantisedRange(a);
      QuantisedRange(b);
      Powers();
    }
  }

  lemma {:induction false} NonNegativeOrder(x: Sample, y: Sample)
    requires 0 <= x <= y
    ensures Quantised(x) <= Quantised(y)
  {
    QuantisedParts(x);
    QuantisedParts(y);
    MagnitudesInOrder(x, y);
  }

  lemma {:induction false} NegativeOrder(x: Sample, y: Sample)
    requires x <= y < 0
    ensures Quantised(x) <= Quantised(y)
  {
    QuantisedParts(x);
    QuantisedParts(y);
    MagnitudesInOrder(Shifted(y), Shifted(x));
  }

  /** Companding keeps the order of samples. */
  lemma {:induction false} OrderPreserving(x: Sample, y: Sample)
    requires x <= y
    ensures Quantised(x) <= Quantised(y)
  {
    if x >= 0 {
      NonNegativeOrder(x, y);
    } else if y < 0 {
      NegativeOrder(x, y);
    } else {
      SignPreserving(x);
      SignPreserving(y);
    }
  }

  // ----- how close

  /** Half of what one step of the mantissa decodes to. */
  function HalfStep(c: Code): int {
    8 * Pow2(if c.segment <= 1 then 0 else c.segment - 1)
  }

  /** How far companding moves a sample. */
  function Error(x: Sample): int {
    var q: int := Quantised(x);
    q - x
  }

  /** A companded sample is within half a step of the original, as the standard has it. */
  predicate Close(x: Sample) {
    var h := HalfStep(CodeIn(EncodeSample(x)));
    -h <= Error(x) <= h
  }

  /** The samples the encoder gets right: two steps next to zero, and the ends of the range. */
  predicate InReach(x: Sample) {
    || 0 <= x <= 31 || -16 <= x <= -1 || -32 <= x <= -24
    || x >= 31744 || x <= -31744
  }

  lemma {:induction false} CloseParts(x: Sample)
    ensures var c := CodeOf(Shifted(x));
      && CodeIn(EncodeSample(x)) == c
      && Error(x) == if x >= 0 then Value(c) - x else -Value(c) - x
  {
    QuantisedParts(x);
    ByteParts(x >= 0, CodeOf(Shifted(x)));
  }

  lemma {:induction false} LowCode(pcm: nat)
    requires Segment(pcm) <= 1
    ensures CodeOf(pcm) == Code(Segment(pcm), pcm / 16) && HalfStep(CodeOf(pcm)) == 8
    ensures Value(CodeOf(pcm)) == if pcm < 16 then 8 else if pcm < 32 then 24 else if pcm < 48 then 296 else 312
  {
    assert Pow2(0) == 1;
  }

  lemma {:induction false} LowestClose(x: Sample)
    requires Segment(Shifted(x)) <= 1
    ensures Close(x) <==> InReach(x)
  {
    CloseParts(x);
    LowCode(Shifted(x));
  }

  /** In these segments the decoded value is more than four times too large. */
  lemma {:induction false} MiddleNotClose(x: Sample)
    requires 2 <= Segment(Shifted(x)) <= 7
    ensures !Close(x) && !InReach(x)
  {
    CloseParts(x);
    UpperMantissa(Shifted(x));
    QuantisedRange(Shifted(x));
    Powers();
  }

  lemma {:induction false} HighestClose(x: Sample)
    requires Segment(Shifted(x)) == 8
    ensures Close(x) <==> InReach(x)
  {
    CloseParts(x);
    QuantisedRange(Shifted(x));
    Powers();
  }

  /** The standard's law, that a companded sample is within half a step of the original, holds exactly there. */
  lemma {:induction false} CloseIff(x: Sample)
    ensures Close(x) <==> InReach(x)
  {
    if Segment(Shifted(x)) <= 1 {
      LowestClose(x);
    } else if Segment(Shifted(x)) <= 7 {
      MiddleNotClose(x);
    } else {
      HighestClose(x);
    }
  }

  lemma {:induction false} CodeOfThousand()
    ensures CodeOf(1000) == Code(6, 1) && Value(Code(6, 1)) == 8960
  {
    UpperMantissa(1000);
    PowPlusThree(6);
    assert Pow2(6) == 64 && Pow2(5) == 32 by { Powers(); }
  }

  /** For instance, 1000 comes back as 8960. */
  lemma {:induction false} NotClose()
    ensures Quantised(1000) == 8960 && !Close(1000)
  {
    CodeOfThousand();
    QuantisedParts(1000);
    CloseIff(1000);
  }

  // ----- which codes survive decoding and encoding

  /** The codes of the two lowest steps and of the highest one, with either sign. */
  predicate Faithful(b: byte) {
    Flip(b) % 128 in {0, 1, 127}
  }

  lemma {:induction false} SurvivingMagnitudes(c: Code, pcm: nat)
    requires IsCode(c) && Value(c) - 8 <= pcm <= Value(c)
    ensures CodeOf(pcm) == c <==> 16 * c.segment + c.mantissa in {0, 1, 127}
  {
    ValueBounds(c);
    Powers();
    if c.segment > 0 {
      assert pcm > 31 * Pow2(c.segment);
      assert Segment(pcm) > c.segment;
      if c == Code(7, 15) { assert pcm > 3968; }
    }
  }

  lemma {:induction false} CodeNumber(b: byte)
    ensures 16 * CodeIn(b).segment + CodeIn(b).mantissa == Flip(b) % 128
  {
    Fields(PositiveIn(b), CodeIn(b), Flip(b));
  }

  /** Encoding a decoded byte gives the byte back exactly for those six codes. */
  lemma {:induction false} EncodeDecodeIff(b: byte)
    ensures EncodeSample(DecodeSample(b)) == b <==> Faithful(b)
  {
    var c, x := CodeIn(b), DecodeSample(b);
    ValueBounds(c);
    PartsByte(b);
    ByteParts(x >= 0, CodeOf(Shifted(x)));
    assert (x >= 0) == PositiveIn(b);
    SurvivingMagnitudes(c, Shifted(x));
    CodeNumber(b);
  }

  lemma {:induction false} SegmentsApart(c: Code, d: Code)
    requires IsCode(c) && IsCode(d) && c.segment < d.segment
    ensures Value(c) < Value(d)
  {
    ValueBounds(c);
    ValueBounds(d);
    if c.segment == 0 {
      PowOrder(0, d.segment - 1);
    } else {
      PowOrder(c.segment, d.segment - 1);
    }
  }

  lemma {:induction false} ValueInjective(c: Code, d: Code)
    requires IsCode(c) && IsCode(d) && Value(c) == Value(d)
    ensures c == d
  {
    if c.segment < d.segment {
      SegmentsApart(c, d);
    } else if d.segment < c.segment {
      SegmentsApart(d, c);
    } else if c.segment > 0 {
      var p := Pow2(c.segment - 1);
      if c.mantissa < d.mantissa { MulOrder(16 * c.mantissa + 265, 16 * d.mantissa + 264, p); }
      if d.mantissa < c.mantissa { MulOrder(16 * d.mantissa + 265, 16 * c.mantissa + 264, p); }
    }
  }

  lemma {:induction false} DecodeInjective(a: byte, b: byte)
    requires DecodeSample(a) == DecodeSample(b)
    ensures a == b
  {
    ValueBounds(CodeIn(a));
    ValueBounds(CodeIn(b));
    ValueInjective(CodeIn(a), CodeIn(b));
    PartsByte(a);
    PartsByte(b);
  }

  /** A second trip through the codec leaves the sample as it is exactly for those codes too. */
  lemma {:induction false} DecodeEncodeDecodeIff(b: byte)
    ensures DecodeSample(EncodeSample(DecodeSample(b))) == DecodeSample(b) <==> Faithful(b)
  {
    EncodeDecodeIff(b);
    if DecodeSample(EncodeSample(DecodeSample(b))) == DecodeSample(b) {
      DecodeInjective(EncodeSample(DecodeSample(b)), b);
    }
  }

  lemma {:induction false} Flips()
    ensures Flip(0x55) == 0x00 && Flip(0x54) == 0x01 && Flip(0x2A) == 0x7F
    ensures Flip(0xD5) == 0x80 && Flip(0xD4) == 0x81 && Flip(0xAA) == 0xFF
  {
    assert Pow4(4) == 256 && Pow4(3) == 64 && Pow4(2) == 16 && Pow4(1) == 4;
  }

  lemma {:induction false} FlipInjective(b: byte, c: byte)
    ensures Flip(b) == Flip(c) <==> b == c
  {
    FlipTwice(b);
    FlipTwice(c);
  }

  lemma {:induction false} FaithfulBytes(b: byte)
    ensures Faithful(b) <==> b in {0x55, 0x54, 0x2A, 0xD5, 0xD4, 0xAA}
  {
    Flips();
    FlipInjective(b, 0x55);
    FlipInjective(b, 0x54);
    FlipInjective(b, 0x2A);
    FlipInjective(b, 0xD5);
    FlipInjective(b, 0xD4);
    FlipInjective(b, 0xAA);
  }

  /** The six bytes that survive, as numbers. */
  lemma {:induction false} SixBytes(b: byte)
    ensures EncodeSample(DecodeSample(b)) == b <==> b in {0x55, 0x54, 0x2A, 0xD5, 0xD4, 0xAA}
  {
    EncodeDecodeIff(b);
    FaithfulBytes(b);
  }

  /** Silence is 0xD5: it decodes to 8, and 0 is encoded as it. */
  lemma {:induction false} SilenceByte()
    ensures DecodeSample(0xD5) == 8 && EncodeSample(0) == 0xD5
  {
    Flips();
    FlipTwice(0xD5);
    assert Segment(0) == 0 && CodeOf(0) == Code(0, 0);
  }

  // ----- payloads

  function Encoded(payload: Payload): Payload {
    seq(|Samples(payload)|, i requires 0 <= i < |Samples(payload)| => EncodeSample(Samples(payload)[i]))
  }

  function Decoded(payload: Payload): Payload {
    Bytes(seq(|payload|, i requires 0 <= i < |payload| => DecodeSample(payload[i])))
  }

  method Encode(payload: Payload) returns (encoded: Payload)
    ensures encoded == Encoded(payload)
  {
    var samples := PcmBytesToSamples(payload);
    if |samples| == 0 {
      return [];
    }
    var out := new byte[|samples|];
    for i := 0 to |samples|
      invariant forall j :: 0 <= j < i ==> out[j] == EncodeSample(samples[j])
    {
      var b := LinearToALaw(samples[i]);
      out[i] := b;
    }
    encoded := out[..];
  }

  method Decode(payload: Payload) returns (decoded: Payload)
    ensures decoded == Decoded(payload)
  {
    if |payload| == 0 {
      return [];
    }
    var samples := new Sample[|payload|];
    for i := 0 to |payload|
      invariant forall j :: 0 <= j < i ==> samples[j] == DecodeSample(payload[j])
    {
      var x := ALawToLinear(payload[i]);
      samples[i] := x;
    }
    assert samples[..] == seq(|payload|, i requires 0 <= i < |payload| => DecodeSample(payload[i]));
    decoded := PcmSamplesToBytes(samples[..]);
  }

  /** A payload survives decoding and encoding iff every byte of it is one of the six codes. */
  lemma {:induction false} PayloadEncodeDecodeIff(payload: Payload)
    ensures Encoded(Decoded(payload)) == payload <==> forall i :: 0 <= i < |payload| ==> Faithful(payload[i])
  {
    var samples := seq(|payload|, i requires 0 <= i < |payload| => DecodeSample(payload[i]));
    SamplesBytes(samples);
    var again := Encoded(Decoded(payload));
    forall i | 0 <= i < |payload| ensures again[i] == payload[i] <==> Faithful(payload[i]) {
      EncodeDecodeIff(payload[i]);
    }
  }
}
