/**
  The companding codecs of the tone generator: 16-bit linear PCM to one
  μ-law or A-law byte per sample.

  The arithmetic is the code's own, not the G.711 tables: the μ-law exponent
  ladder starts its band 1 at 0x200 and band 7 only at 0x7FFF, and the A-law
  byte carries bit 7 for negative samples. Negating -32768 wraps in a release
  build of the Rust code (i16 negation without an overflow check); the model
  follows that arithmetic.
*/
module Codec {
  import Arith

  /** A signed 16-bit sample (Rust `i16`). */
  type Int16 = x: int | -0x8000 <= x < 0x8000

  /** An unsigned byte (Rust `u8`). */
  type Byte = bv8

  const MulawBias: int := 0x84
  const MulawClip: int := 32635
  const AlawMax: int := 0x7FFF

  function Pow2(n: nat): (r: nat)
    ensures r >= 1
  {
    if n == 0 then 1 else 2 * Pow2(n - 1)
  }

  /** `v >> n` on a signed integer: an arithmetic shift, i.e. division rounding down. */
  function Shr(v: int, n: nat): int
  {
    v / Pow2(n)
  }

  /** `-x` on an `i16` with wrapping: -(-32768) is -32768 again. */
  function WrappingNeg(x: Int16): Int16
  {
    if x == -0x8000 then -0x8000 else -x
  }

  /** The magnitude the encoders work on: `if sample < 0 { -sample } else { sample }`. */
  function Magnitude(x: Int16): Int16
  {
    if x < 0 then WrappingNeg(x) else x
  }

  /** The sign bit both encoders put into bit 7 before the final inversion or XOR. */
  function SignBit(x: Int16): int
  {
    if x < 0 then 0x80 else 0
  }

  /**
    `sign | (exponent << 4) | mantissa`, truncated to its low byte. The low byte
    of an OR is the OR of the low bytes, so the truncation is applied to each
    operand; a negative mantissa contributes its two's-complement low byte.
  */
  function Pack(sign: int, exponent: int, mantissa: int): Byte
    requires sign == 0 || sign == 0x80
    requires 0 <= exponent <= 7
  {
    (sign as bv8) | ((exponent as bv8) << 4) | ((mantissa % 256) as bv8)
  }

  // ---------------------------------------------------------------- μ-law

  /** The μ-law exponent ladder of the code (one band below G.711's). */
  function MulawExponent(biased: int): (e: int)
    ensures 0 <= e <= 7
  {
    if biased >= 0x7FFF then 7
    else if biased >= 0x4000 then 6
    else if biased >= 0x2000 then 5
    else if biased >= 0x1000 then 4
    else if biased >= 0x0800 then 3
    else if biased >= 0x0400 then 2
    else if biased >= 0x0200 then 1
    else 0
  }

  /** The clipped and biased magnitude; the addition never leaves the `i16` range. */
  function MulawBiased(x: Int16): Int16
  {
    var magnitude := Magnitude(x);
    var clipped := if magnitude > MulawClip then MulawClip else magnitude;
    clipped + MulawBias
  }

  /**
    `linear_to_mulaw`: sign, clip, bias, exponent ladder, 4-bit mantissa, invert.
    After the inversion bit 7 is clear exactly for negative samples, -32768 included.
  */
  function LinearToMulaw(sample: Int16): (r: Byte)
    ensures (r & 0x80 == 0) <==> sample < 0
  {
    var sign := SignBit(sample);
    var biased := MulawBiased(sample);
    var exponent := MulawExponent(biased);
    var mantissa := Shr(biased, exponent + 3) % 16;
    PackFields(0x80, exponent, mantissa);
    SetBit7(Pack(0, exponent, mantissa));
    !Pack(sign, exponent, mantissa)
  }

  /** `pcm_to_mulaw`: one byte per sample, in order. */
  function PcmToMulaw(pcm: seq<Int16>): (r: seq<Byte>)
    ensures |r| == |pcm|
    ensures forall i :: 0 <= i < |pcm| ==> r[i] == LinearToMulaw(pcm[i])
  {
    if pcm == [] then [] else [LinearToMulaw(pcm[0])] + PcmToMulaw(pcm[1..])
  }

  // ---------------------------------------------------------------- A-law

  /** The A-law exponent ladder of the code. */
  function AlawExponent(magnitude: int): (e: int)
    ensures 0 <= e <= 7
  {
    if magnitude >= 0x4000 then 7
    else if magnitude >= 0x2000 then 6
    else if magnitude >= 0x1000 then 5
    else if magnitude >= 0x0800 then 4
    else if magnitude >= 0x0400 then 3
    else if magnitude >= 0x0200 then 2
    else if magnitude >= 0x0100 then 1
    else 0
  }

  /** The clipped magnitude; the clip at 0x7FFF never fires on an `i16`. */
  function AlawClipped(x: Int16): int
  {
    var magnitude := Magnitude(x);
    if magnitude > AlawMax then AlawMax else magnitude
  }

  /** The A-law mantissa: the plain low bits in band 0, four bits below the leading one otherwise. */
  function AlawMantissa(clipped: int, exponent: int): int
    requires 0 <= exponent <= 7
  {
    if exponent == 0 then Shr(clipped, 4) else Shr(clipped, exponent + 3) % 16
  }

  /**
    `linear_to_alaw`: sign, exponent ladder, mantissa, then XOR with 0x55.
    Bit 7 of the result is set exactly for negative samples, -32768 included.
  */
  function LinearToAlaw(sample: Int16): (r: Byte)
    ensures (r & 0x80 != 0) <==> sample < 0
  {
    var sign := SignBit(sample);
    var clipped := AlawClipped(sample);
    var exponent := AlawExponent(clipped);
    var mantissa := AlawMantissa(clipped, exponent);
    if sample == -0x8000 then
      assert Shr(-0x8000, 4) % 256 == 0;
      Pack(sign, exponent, mantissa) ^ 0x55
    else
      AlawMantissaRange(sample);
      PackFields(0x80, exponent, mantissa);
      SetBit7(Pack(0, exponent, mantissa));
      Pack(sign, exponent, mantissa) ^ 0x55
  }

  /** `pcm_to_alaw`: one byte per sample, in order. */
  function PcmToAlaw(pcm: seq<Int16>): (r: seq<Byte>)
    ensures |r| == |pcm|
    ensures forall i :: 0 <= i < |pcm| ==> r[i] == LinearToAlaw(pcm[i])
  {
    if pcm == [] then [] else [LinearToAlaw(pcm[0])] + PcmToAlaw(pcm[1..])
  }

  // ---------------------------------------------------------------- properties

  lemma Pow2Table()
    ensures Pow2(3) == 8 && Pow2(4) == 16 && Pow2(5) == 32 && Pow2(6) == 64
    ensures Pow2(7) == 128 && Pow2(8) == 256 && Pow2(9) == 512 && Pow2(10) == 1024
    ensures Pow2(11) == 2048 && Pow2(12) == 4096 && Pow2(13) == 8192 && Pow2(14) == 16384
    ensures Pow2(15) == 32768
  {
  }

  /** Silence encodes to 0xFF in μ-law and to 0x55 in A-law. */
  lemma EncodeSilence()
    ensures LinearToMulaw(0) == 0xFF
    ensures LinearToAlaw(0) == 0x55
  {
    assert MulawBiased(0) == MulawBias && Shr(MulawBias, 3) % 16 == 0;
    assert AlawClipped(0) == 0 && AlawMantissa(0, 0) == 0;
    PackFields(0, 0, 0);
  }

  /** The fields of a packed byte, on bytes. */
  lemma PackBits(s: Byte, e: Byte, m: Byte)
    requires s == 0 || s == 0x80
    requires e < 8 && m < 16
    ensures ((s | (e << 4) | m) >> 4) & 7 == e
    ensures (s | (e << 4) | m) & 0xF == m
    ensures ((s | (e << 4) | m) & 0x80 != 0) == (s == 0x80)
    ensures (0x80 | (e << 4) | m) == (0 | (e << 4) | m) | 0x80
    ensures (0 | (e << 4) | m) < 0x80
  {
  }

  /** A byte-sized value survives the round trip through a byte. */
  lemma SmallToByte(v: int)
    requires 0 <= v < 16
    ensures (v as bv8) as int == v && (v as bv8) < 16
  {
  }

  /** Packing small fields, on bytes. */
  lemma PackAsBytes(sign: int, exponent: int, mantissa: int)
    requires sign == 0 || sign == 0x80
    requires 0 <= exponent <= 7 && 0 <= mantissa < 16
    ensures Pack(sign, exponent, mantissa) == (if sign == 0 then 0 else 0x80) | ((exponent as bv8) << 4) | (mantissa as bv8)
  {
    var low := mantissa % 256;
    assert low == mantissa;
    assert (low as bv8) == (mantissa as bv8);
    if sign == 0 {
      assert (sign as bv8) == 0;
    } else {
      assert (sign as bv8) == 0x80;
    }
  }

  /** The fields of a packed byte, read back as integers. */
  lemma PackFields(sign: int, exponent: int, mantissa: int)
    requires sign == 0 || sign == 0x80
    requires 0 <= exponent <= 7 && 0 <= mantissa < 16
    ensures ((Pack(sign, exponent, mantissa) >> 4) & 7) as int == exponent
    ensures (Pack(sign, exponent, mantissa) & 0xF) as int == mantissa
    ensures (Pack(sign, exponent, mantissa) & 0x80 != 0) == (sign == 0x80)
    ensures Pack(0x80, exponent, mantissa) == Pack(0, exponent, mantissa) | 0x80
    ensures Pack(0, exponent, mantissa) < 0x80
  {
    var e, m := exponent as bv8, mantissa as bv8;
    SmallToByte(exponent);
    SmallToByte(mantissa);
    PackAsBytes(sign, exponent, mantissa);
    PackAsBytes(0x80, exponent, mantissa);
    PackAsBytes(0, exponent, mantissa);
    PackBits(if sign == 0 then 0 else 0x80, e, m);
    PackBits(0x80, e, m);
    PackBits(0, e, m);
  }

  /** Setting bit 7 of a byte whose bit 7 is clear, seen through the final inversion and the final XOR. */
  lemma SetBit7(p: Byte)
    requires p < 0x80
    ensures !(p | 0x80) == !p ^ 0x80
    ensures (p | 0x80) ^ 0x55 == (p ^ 0x55) ^ 0x80
    ensures !p & 0x80 != 0 && !(p | 0x80) & 0x80 == 0
    ensures (p ^ 0x55) & 0x80 == 0 && ((p | 0x80) ^ 0x55) & 0x80 != 0
  {
  }

  /** For every sample but -32768, `x` and `-x` are encoded from the same magnitude. */
  lemma MagnitudeOfNegation(x: Int16)
    requires 1 <= x
    ensures Magnitude(-x) == Magnitude(x) == x
  {
  }

  /** The μ-law mantissa is a 4-bit field. */
  lemma MulawMantissaRange(x: Int16)
    ensures 0 <= Shr(MulawBiased(x), MulawExponent(MulawBiased(x)) + 3) % 16 < 16
  {
  }

  /** μ-law: the sign only changes bit 7, for every sample except the one whose negation overflows. */
  lemma MulawSignSymmetry(x: Int16)
    requires 1 <= x
    ensures LinearToMulaw(-x) == LinearToMulaw(x) ^ 0x80
  {
    MagnitudeOfNegation(x);
    var b := MulawBiased(x);
    var e := MulawExponent(b);
    var m := Shr(b, e + 3) % 16;
    assert MulawBiased(-x) == b;
    MulawPacked(x);
    MulawPacked(-x);
    PackFields(0x80, e, m);
    InvertedBit7(LinearToMulaw(-x), LinearToMulaw(x), Pack(0, e, m));
  }

  /** Two bytes whose inversions differ only in a clear bit 7 themselves differ only in bit 7. */
  lemma InvertedBit7(u: Byte, v: Byte, p: Byte)
    requires p < 0x80 && !u == p | 0x80 && !v == p
    ensures u == v ^ 0x80
  {
  }

  /** The bands of the μ-law exponent ladder over the biased magnitudes that occur. */
  lemma MulawExponentBands(b: int)
    requires MulawBias <= b <= 0x7FFF
    ensures var e := MulawExponent(b);
      && (e == 0 <==> b < 0x200)
      && (1 <= e <= 6 ==> Pow2(e + 8) <= b < Pow2(e + 9))
      && (e == 7 <==> b == 0x7FFF)
  {
    Pow2Table();
  }

  /** Bits 4 to 6 of a byte (the exponent field), as an integer. */
  function ExponentField(d: Byte): (e: int)
    ensures 0 <= e <= 7
  {
    ((d >> 4) & 7) as int
  }

  /** Bits 0 to 3 of a byte (the mantissa field), as an integer. */
  function MantissaField(d: Byte): (m: int)
    ensures 0 <= m <= 15
  {
    (d & 0xF) as int
  }

  lemma MulawPacked(x: Int16)
    ensures var b := MulawBiased(x); var e := MulawExponent(b);
      !LinearToMulaw(x) == Pack(SignBit(x), e, Shr(b, e + 3) % 16)
  {
  }

  lemma MulawExponentField(x: Int16)
    ensures ExponentField(!LinearToMulaw(x)) == MulawExponent(MulawBiased(x))
  {
    var b := MulawBiased(x);
    var e := MulawExponent(b);
    MulawPacked(x);
    PackFields(SignBit(x), e, Shr(b, e + 3) % 16);
  }

  lemma MulawMantissaField(x: Int16)
    ensures var b := MulawBiased(x);
      MantissaField(!LinearToMulaw(x)) == (b / Pow2(MulawExponent(b) + 3)) % 16
  {
    var b := MulawBiased(x);
    var e := MulawExponent(b);
    MulawPacked(x);
    PackFields(SignBit(x), e, Shr(b, e + 3) % 16);
  }

  /**
    μ-law, read back: the inverted byte carries the sign in bit 7, the band of
    the clipped and biased magnitude in bits 4 to 6, and four bits of that
    magnitude in bits 0 to 3. Only the top band pins the magnitude down
    (it holds just 0x7FFF); in the others the mantissa drops the bits above
    its four, which is why the code is not monotone (see MulawNotMonotone).
  */
  lemma MulawFields(x: Int16)
    requires x != -0x8000
    ensures var b, d := MulawBiased(x), !LinearToMulaw(x);
      var e := ExponentField(d);
      && MulawBias <= b <= 0x7FFF
      && ((d & 0x80 != 0) <==> x < 0)
      && (e == 0 <==> b < 0x200)
      && (1 <= e <= 6 ==> Pow2(e + 8) <= b < Pow2(e + 9))
      && (e == 7 <==> b == 0x7FFF)
      && MantissaField(d) == (b / Pow2(e + 3)) % 16
  {
    MulawExponentField(x);
    MulawMantissaField(x);
    MulawExponentBands(MulawBiased(x));
  }

  /** μ-law clipping: the loudest positive samples give 0x80, the loudest negative ones 0x00. */
  lemma MulawClipping(x: Int16)
    ensures x >= MulawClip ==> LinearToMulaw(x) == 0x80
    ensures -0x7FFF <= x <= -MulawClip ==> LinearToMulaw(x) == 0x00
  {
    if x >= MulawClip || -0x7FFF <= x <= -MulawClip {
      assert MulawBiased(x) == 0x7FFF;
      Pow2Table();
      assert Shr(0x7FFF, 10) % 16 == 15;
      PackFields(SignBit(x), 7, 15);
    }
  }

  /** The sample whose negation overflows: -32768 is encoded as if it were a quiet negative sample. */
  lemma EncodeMostNegative()
    ensures LinearToMulaw(-0x8000) == 0x7F
    ensures LinearToAlaw(-0x8000) == 0xD5
  {
    assert MulawBiased(-0x8000) == -0x8000 + MulawBias;
    assert Shr(-0x8000 + MulawBias, 3) % 16 == 0;
    assert AlawClipped(-0x8000) == -0x8000;
    assert Shr(-0x8000, 4) % 256 == 0;
  }

  /** The exponent ladder of the μ-law code is not G.711's: a louder sample can get a smaller magnitude code. */
  lemma MulawNotMonotone()
    ensures LinearToMulaw(620) == 0xE0 && LinearToMulaw(636) == 0xEF
    ensures !LinearToMulaw(620) & 0x7F > !LinearToMulaw(636) & 0x7F
  {
    assert MulawBiased(620) == 752 && MulawBiased(636) == 768;
    Pow2Table();
    assert Shr(752, 4) % 16 == 15 && Shr(768, 4) % 16 == 0;
    MulawPacked(620);
    MulawPacked(636);
    PackAsBytes(0, 1, 15);
    PackAsBytes(0, 1, 0);
    assert !LinearToMulaw(620) == 0x1F && !LinearToMulaw(636) == 0x10;
  }

  /** The A-law mantissa is a 4-bit field for every sample whose negation does not overflow. */
  lemma AlawMantissaRange(x: Int16)
    requires x != -0x8000
    ensures 0 <= AlawClipped(x) <= 0x7FFF
    ensures 0 <= AlawMantissa(AlawClipped(x), AlawExponent(AlawClipped(x))) < 16
  {
    Pow2Table();
  }

  /** A-law: the sign only changes bit 7, for every sample except the one whose negation overflows. */
  lemma AlawSignSymmetry(x: Int16)
    requires 1 <= x
    ensures LinearToAlaw(-x) == LinearToAlaw(x) ^ 0x80
  {
    MagnitudeOfNegation(x);
    AlawMantissaRange(x);
    var c := AlawClipped(x);
    var e := AlawExponent(c);
    var m := AlawMantissa(c, e);
    PackFields(0x80, e, m);
    SetBit7(Pack(0, e, m));
  }

  /** Bits 0 to 6 of the A-law byte before the XOR: the magnitude code `exponent << 4 | mantissa`. */
  function AlawCode(x: Int16): (c: int)
    ensures 0 <= c < 128
  {
    var d := LinearToAlaw(x) ^ 0x55;
    16 * ExponentField(d) + MantissaField(d)
  }

  /** The width of the magnitude interval one A-law code stands for, by exponent. */
  function AlawStep(e: int): (w: int)
    requires 0 <= e <= 7
  {
    if e == 0 then 16 else Pow2(e + 3)
  }

  /** The smallest magnitude an A-law exponent and mantissa stand for. */
  function AlawLow(e: int, m: int): int
    requires 0 <= e <= 7
  {
    if e == 0 then 16 * m else (16 + m) * Pow2(e + 3)
  }

  lemma AlawPacked(x: Int16)
    ensures var c := AlawClipped(x); var e := AlawExponent(c);
      LinearToAlaw(x) ^ 0x55 == Pack(SignBit(x), e, AlawMantissa(c, e))
  {
  }

  lemma AlawExponentField(x: Int16)
    requires x != -0x8000
    ensures ExponentField(LinearToAlaw(x) ^ 0x55) == AlawExponent(AlawClipped(x))
  {
    var c := AlawClipped(x);
    var e := AlawExponent(c);
    AlawMantissaRange(x);
    AlawPacked(x);
    PackFields(SignBit(x), e, AlawMantissa(c, e));
  }

  lemma AlawMantissaField(x: Int16)
    requires x != -0x8000
    ensures var c := AlawClipped(x);
      MantissaField(LinearToAlaw(x) ^ 0x55) == AlawMantissa(c, AlawExponent(c))
  {
    var c := AlawClipped(x);
    var e := AlawExponent(c);
    AlawMantissaRange(x);
    AlawPacked(x);
    PackFields(SignBit(x), e, AlawMantissa(c, e));
  }

  /** The A-law mantissa by band: the sixteenths in band 0, the quotient by the band's step less 16 above. */
  lemma AlawMantissaFormula(c: int)
    requires 0 <= c <= 0x7FFF
    ensures var e := AlawExponent(c); var k := AlawStep(e);
      && (e == 0 ==> c < 256 && AlawMantissa(c, e) == c / 16)
      && (e >= 1 ==> k > 0 && 16 * k <= c < 32 * k && AlawMantissa(c, e) == c / k - 16)
  {
    var e := AlawExponent(c);
    var k := AlawStep(e);
    Pow2Table();
    if e >= 1 {
      assert 16 * k <= c < 32 * k;
      Arith.DivInBand(c, k);
    }
  }

  /** On magnitudes: each exponent and mantissa bracket the magnitude they were computed from. */
  lemma AlawBandBracket(c: int)
    requires 0 <= c <= 0x7FFF
    ensures var e := AlawExponent(c); var m := AlawMantissa(c, e);
      0 <= m < 16 && AlawLow(e, m) <= c < AlawLow(e, m) + AlawStep(e)
  {
    var e := AlawExponent(c);
    var k := AlawStep(e);
    AlawMantissaFormula(c);
    if e >= 1 {
      Arith.DivInBand(c, k);
      assert AlawLow(e, AlawMantissa(c, e)) == (c / k) * k;
    }
  }

  /**
    A-law, read back: the exponent and mantissa fields of the byte name an
    interval of magnitudes, 16 wide in band 0 and 2^(e+3) wide in band e,
    that contains the magnitude of the sample.
  */
  lemma AlawBracket(x: Int16)
    requires x != -0x8000
    ensures var d := LinearToAlaw(x) ^ 0x55;
      var e, m := ExponentField(d), MantissaField(d);
      AlawLow(e, m) <= Magnitude(x) < AlawLow(e, m) + AlawStep(e)
  {
    AlawExponentField(x);
    AlawMantissaField(x);
    AlawBandBracket(AlawClipped(x));
  }

  /** Within one band the mantissa never decreases as the magnitude grows. */
  lemma AlawSameBandMonotone(a: int, b: int, e: int)
    requires 0 <= a <= b <= 0x7FFF
    requires AlawExponent(a) == e == AlawExponent(b)
    ensures AlawMantissa(a, e) <= AlawMantissa(b, e)
  {
    AlawMantissaFormula(a);
    AlawMantissaFormula(b);
    if e == 0 {
      Arith.DivMonotone(a, b, 16);
    } else {
      Arith.DivMonotone(a, b, AlawStep(e));
    }
  }

  /** On magnitudes: the code `16 * exponent + mantissa` never decreases as the magnitude grows. */
  lemma AlawCodeMonotoneOnMagnitudes(a: int, b: int)
    requires 0 <= a <= b <= 0x7FFF
    ensures var ea, eb := AlawExponent(a), AlawExponent(b);
      16 * ea + AlawMantissa(a, ea) <= 16 * eb + AlawMantissa(b, eb)
  {
    var ea, eb := AlawExponent(a), AlawExponent(b);
    AlawBandBracket(a);
    AlawBandBracket(b);
    if ea == eb {
      AlawSameBandMonotone(a, b, ea);
    }
  }

  /** The magnitude code of an A-law byte is the exponent and mantissa the encoder computed. */
  lemma AlawCodeFields(x: Int16)
    requires x != -0x8000
    ensures var c := AlawClipped(x); var e := AlawExponent(c);
      AlawCode(x) == 16 * e + AlawMantissa(c, e)
  {
    AlawExponentField(x);
    AlawMantissaField(x);
  }

  /** A-law is monotone: a louder non-negative sample never gets a smaller magnitude code. */
  lemma AlawMonotone(a: Int16, b: Int16)
    requires 0 <= a <= b
    ensures AlawCode(a) <= AlawCode(b)
  {
    AlawCodeFields(a);
    AlawCodeFields(b);
    assert AlawClipped(a) == a && AlawClipped(b) == b;
    AlawCodeMonotoneOnMagnitudes(a, b);
  }
}
