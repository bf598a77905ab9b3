/**
  The media handler's own pieces: its copy of the μ-law encoder, the streaming
  `SimpleResampler`, and the state of the `TelephonyAudioProcessor`.
  Sample values are reals.
*/
module Mp3Handler {
  import Arith
  import Codec

  type Int16 = Codec.Int16
  type Byte = Codec.Byte

  // ---------------------------------------------------------------------------
  // μ-law, the handler's copy

  /**
    The sign, exponent and mantissa of the handler's `linear_to_mulaw`,
    computed step by step as it is written there.
  */
  function MulawCopyFields(pcm: Int16): (int, int, int)
  {
    var sign := if pcm < 0 then 0x80 else 0;
    var sample := if pcm < 0 then Codec.WrappingNeg(pcm) else pcm;
    var sample := if sample > 32635 then 32635 else sample;
    var sample := sample + 0x84;
    var exponent :=
      if sample >= 0x7FFF then 7
      else if sample >= 0x4000 then 6
      else if sample >= 0x2000 then 5
      else if sample >= 0x1000 then 4
      else if sample >= 0x0800 then 3
      else if sample >= 0x0400 then 2
      else if sample >= 0x0200 then 1
      else 0;
    var mantissa := Codec.Shr(sample, exponent + 3) % 16;
    (sign, exponent, mantissa)
  }

  /** The handler computes the same fields as the tone generator's encoder. */
  lemma MulawCopyFieldsAgree(pcm: Int16)
    ensures var b := Codec.MulawBiased(pcm); var e := Codec.MulawExponent(b);
      MulawCopyFields(pcm) == (Codec.SignBit(pcm), e, Codec.Shr(b, e + 3) % 16)
  {
  }

  /**
    The handler's `linear_to_mulaw`: the packed fields, inverted. It agrees
    with the tone generator's encoder on every sample.
  */
  function LinearToMulaw(pcm: Int16): (r: Byte)
    ensures r == Codec.LinearToMulaw(pcm)
  {
    MulawCopyFieldsAgree(pcm);
    var (sign, exponent, mantissa) := MulawCopyFields(pcm);
    !Codec.Pack(sign, exponent, mantissa)
  }

  /** The handler's `pcm_to_mulaw`: one byte per sample, the same bytes as the tone generator's. */
  function PcmToMulaw(pcm: seq<Int16>): (r: seq<Byte>)
    ensures |r| == |pcm|
    ensures forall i :: 0 <= i < |pcm| ==> r[i] == LinearToMulaw(pcm[i])
    ensures r == Codec.PcmToMulaw(pcm)
  {
    seq(|pcm|, i requires 0 <= i < |pcm| => LinearToMulaw(pcm[i]))
  }

  // ---------------------------------------------------------------------------
  // Resampler

  /**
    `SimpleResampler`. The Rust code keeps `position` as a float that gains
    `target_rate / source_rate` per input; here it is held exactly, scaled by
    the source rate: `position == phase / sourceRate`. The ghost counters
    record how many samples went in and came out.
  */
  class SimpleResampler {
    const sourceRate: nat
    const targetRate: nat
    var phase: nat
    var lastSample: real
    ghost var consumed: nat
    ghost var emitted: nat

    /** The position the source holds, in samples of the output stream. */
    ghost function Position(): real
      reads this
      requires sourceRate > 0
    {
      phase as real / sourceRate as real
    }

    /**
      The accumulator is the total advance minus one whole step per emitted
      sample; when downsampling it also stays below one step.
    */
    ghost predicate Valid()
      reads this
    {
      && sourceRate > 0
      && phase + emitted * sourceRate == consumed * targetRate
      && (targetRate <= sourceRate ==> phase < sourceRate)
    }

    /** `SimpleResampler::new`: position 0, last sample 0. */
    constructor (sourceRate: nat, targetRate: nat)
      requires sourceRate > 0
      ensures Valid()
      ensures this.sourceRate == sourceRate && this.targetRate == targetRate
      ensures phase == 0 && lastSample == 0.0 && consumed == 0 && emitted == 0
    {
      this.sourceRate := sourceRate;
      this.targetRate := targetRate;
      phase := 0;
      lastSample := 0.0;
      consumed := 0;
      emitted := 0;
    }

    /**
      `process_sample`: advance the position; once it reaches one step, emit
      the midpoint of the last and the current sample and step back. The
      current sample becomes the last one.
    */
    method ProcessSample(input: real) returns (output: seq<real>)
      requires Valid()
      modifies this
      ensures Valid()
      ensures |output| <= 1
      ensures |output| == 1 <==> old(phase) + targetRate >= sourceRate
      ensures |output| == 1 ==> output[0] == old(lastSample) + (input - old(lastSample)) * 0.5
      ensures phase == old(phase) + targetRate - |output| * sourceRate
      ensures lastSample == input
      ensures consumed == old(consumed) + 1 && emitted == old(emitted) + |output|
      ensures targetRate >= sourceRate ==> |output| == 1
    {
      output := [];
      phase := phase + targetRate;
      consumed := consumed + 1;
      if phase >= sourceRate {
        var interpolated := lastSample + (input - lastSample) * 0.5;
        output := output + [interpolated];
        phase := phase - sourceRate;
        emitted := emitted + 1;
      }
      lastSample := input;
    }

    /**
      When downsampling, after N inputs exactly floor(N * target / source)
      samples have come out, and the position lies in [0, 1).
    */
    lemma DownsampledCount()
      requires Valid() && targetRate <= sourceRate
      ensures emitted == (consumed * targetRate) / sourceRate
      ensures 0.0 <= Position() < 1.0
    {
      Arith.DivisionUnique(consumed * targetRate, sourceRate, emitted, phase);
    }
  }

  // ---------------------------------------------------------------------------
  // Telephony processor

  /**
    The coefficients of the second-order band-pass section.
    `TelephonyAudioProcessor::new` designs them from the sample rate with
    `tan` and `sqrt`, and its `b1` is 0 and its `b2` is `-b0`.
  */
  datatype BandpassCoefficients = BandpassCoefficients(b0: real, a1: real, a2: real)

  function Abs(x: real): real
  {
    if x < 0.0 then -x else x
  }

  const PreemphasisAlpha: real := 0.95

  /**
    `TelephonyAudioProcessor`: the filter and envelope state, the sample rate it
    was built for, and the gate's fixed threshold and ratio.
  */
  class TelephonyAudioProcessor {
    const sampleRate: real
    var preemphasisPrev: real
    var bandpassX1: real
    var bandpassX2: real
    var bandpassY1: real
    var bandpassY2: real
    var compressorEnvelope: real
    const noiseGateThreshold: real := 0.01
    const noiseGateRatio: real := 0.1

    /** Every piece of filter and envelope state is zero. */
    predicate AtRest()
      reads this
    {
      && preemphasisPrev == 0.0
      && bandpassX1 == 0.0 && bandpassX2 == 0.0
      && bandpassY1 == 0.0 && bandpassY2 == 0.0
      && compressorEnvelope == 0.0
    }

    /** `TelephonyAudioProcessor::new`: all state zero, for the given sample rate. */
    constructor (sampleRate: real)
      ensures this.sampleRate == sampleRate && AtRest()
    {
      this.sampleRate := sampleRate;
      preemphasisPrev := 0.0;
      bandpassX1 := 0.0;
      bandpassX2 := 0.0;
      bandpassY1 := 0.0;
      bandpassY2 := 0.0;
      compressorEnvelope := 0.0;
    }

    /**
      `reset`: the state of a fresh processor. The sample rate and the gate's
      parameters are constants and so are untouched.
    */
    method Reset()
      modifies this
      ensures AtRest()
    {
      preemphasisPrev := 0.0;
      bandpassX1 := 0.0;
      bandpassX2 := 0.0;
      bandpassY1 := 0.0;
      bandpassY2 := 0.0;
      compressorEnvelope := 0.0;
    }

    /**
      `preemphasis_filter`: y = x - 0.95 * previous x; the input becomes the
      previous sample and nothing else changes.
    */
    method PreemphasisFilter(input: real) returns (output: real)
      modifies this
      ensures output == input - PreemphasisAlpha * old(preemphasisPrev)
      ensures preemphasisPrev == input
      ensures bandpassX1 == old(bandpassX1) && bandpassX2 == old(bandpassX2)
      ensures bandpassY1 == old(bandpassY1) && bandpassY2 == old(bandpassY2)
      ensures compressorEnvelope == old(compressorEnvelope)
    {
      output := input - PreemphasisAlpha * preemphasisPrev;
      preemphasisPrev := input;
    }

    /**
      `bandpass_filter`: one step of the difference equation
      y = b0 * (x - x2) - a1 * y1 - a2 * y2, then the histories shift
      (x2 <- x1 <- x, y2 <- y1 <- y). Reals are always finite, so the
      Rust code's non-finite fallback to 0 never applies.
    */
    method BandpassFilter(input: real, k: BandpassCoefficients) returns (output: real)
      modifies this
      ensures output == k.b0 * (input - old(bandpassX2)) - k.a1 * old(bandpassY1) - k.a2 * old(bandpassY2)
      ensures bandpassX2 == old(bandpassX1) && bandpassX1 == input
      ensures bandpassY2 == old(bandpassY1) && bandpassY1 == output
      ensures preemphasisPrev == old(preemphasisPrev) && compressorEnvelope == old(compressorEnvelope)
    {
      var b0, b1, b2 := k.b0, 0.0, -k.b0;
      output := b0 * input + b1 * bandpassX1 + b2 * bandpassX2 - k.a1 * bandpassY1 - k.a2 * bandpassY2;
      bandpassX2 := bandpassX1;
      bandpassX1 := input;
      bandpassY2 := bandpassY1;
      bandpassY1 := output;
    }

    /**
      `noise_gate`: a sample quieter than the threshold is scaled down by the
      ratio; any other passes unchanged. The gate keeps the sign and never
      makes a sample louder.
    */
    function NoiseGate(input: real): (r: real)
      reads this
      ensures Abs(input) < noiseGateThreshold ==> r == input * noiseGateRatio
      ensures Abs(input) >= noiseGateThreshold ==> r == input
      ensures Abs(r) <= Abs(input)
      ensures (r < 0.0) == (input < 0.0)
    {
      if Abs(input) < noiseGateThreshold then input * noiseGateRatio else input
    }
  }
}
