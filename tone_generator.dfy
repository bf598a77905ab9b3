/**
  The tone generator: its shared configuration and generating flag, the DTMF
  keypad table, the comfort-noise linear congruential generator, and the
  sample loops. Sample values are computed in reals; the sine function is a
  parameter, and Rust's saturating float-to-`i16` cast is written out.
*/
module ToneGen {
  import opened Results
  import opened Codec

  /** `ToneConfig`: frequency in Hz, amplitude as a fraction of full scale, rate in Hz, duration in s. */
  datatype ToneConfig = ToneConfig(frequency: real, amplitude: real, sampleRate: nat, durationSeconds: real)

  /** `ToneConfig::default()`: a 440 Hz tone at half amplitude, 8000 Hz, 30 s. */
  function DefaultToneConfig(): ToneConfig
  {
    ToneConfig(440.0, 0.5, 8000, 30.0)
  }

  /** `std::f32::consts::PI`, the single-precision value. */
  const F32Pi: real := 3.1415927410125732421875

  /** `i16::MAX as f32`. */
  const FullScale: real := 32767.0

  // ---------------------------------------------------------------------------
  // Casts and counts

  /** Truncation toward zero. */
  function Trunc(v: real): int
  {
    if v >= 0.0 then v.Floor else -((-v).Floor)
  }

  /**
    `v as i16` for a floating-point v: truncates toward zero and saturates at
    the `i16` bounds.
  */
  function SatCastI16(v: real): (r: Int16)
    ensures 0.0 <= v ==> 0 <= r && r as real <= v
    ensures v <= 0.0 ==> r <= 0 && v <= r as real
    ensures -32769.0 < v < 32768.0 ==> -1.0 < v - r as real < 1.0
    ensures v >= 32767.0 ==> r == 32767
    ensures v <= -32768.0 ==> r == -32768
  {
    if v >= 32767.0 then 32767
    else if v <= -32768.0 then -32768
    else Trunc(v)
  }

  /**
    `(sample_rate as f32 * duration) as usize`: the whole number of samples in
    the duration, and none for a non-positive product (the cast saturates at 0).
  */
  function SampleCount(sampleRate: nat, durationSeconds: real): (n: nat)
    ensures durationSeconds <= 0.0 || sampleRate == 0 ==> n == 0
    ensures 0.0 < sampleRate as real * durationSeconds ==>
      n as real <= sampleRate as real * durationSeconds < n as real + 1.0
  {
    var p := sampleRate as real * durationSeconds;
    if p <= 0.0 then 0 else p.Floor
  }

  /** `duration_ms as f32 / 1000.0`. */
  function MsToSeconds(durationMs: nat): real
  {
    durationMs as real / 1000.0
  }

  /** The instant of sample i, `i * (1 / sample_rate)`; used only when the rate is non-zero. */
  function SampleTime(i: nat, sampleRate: nat): real
  {
    if sampleRate == 0 then 0.0 else i as real / sampleRate as real
  }

  // ---------------------------------------------------------------------------
  // Sine tone

  /** Sample i of a sine tone. */
  function ToneSample(cfg: ToneConfig, sine: real -> real, i: nat): Int16
  {
    SatCastI16(cfg.amplitude * sine(2.0 * F32Pi * cfg.frequency * SampleTime(i, cfg.sampleRate)) * FullScale)
  }

  /** The samples `generate_pcm_samples` produces for a configuration. */
  function ToneSamples(cfg: ToneConfig, sine: real -> real): (s: seq<Int16>)
    ensures |s| == SampleCount(cfg.sampleRate, cfg.durationSeconds)
    ensures forall i :: 0 <= i < |s| ==> s[i] == ToneSample(cfg, sine, i)
  {
    seq(SampleCount(cfg.sampleRate, cfg.durationSeconds), i requires 0 <= i => ToneSample(cfg, sine, i))
  }

  // ---------------------------------------------------------------------------
  // DTMF

  /** The low-group (row) frequencies of the keypad, in Hz. */
  const DtmfRows: set<int> := {697, 770, 852, 941}

  /** The high-group (column) frequencies of the keypad, in Hz. */
  const DtmfColumns: set<int> := {1209, 1336, 1477, 1633}

  /** The sixteen keys of the keypad. */
  const DtmfKeys: set<char> := {'1', '2', '3', 'A', '4', '5', '6', 'B', '7', '8', '9', 'C', '*', '0', '#', 'D'}

  /** The frequency pair of a key, or None for a character that is not a key. */
  function DtmfFrequencies(digit: char): (r: Option<(int, int)>)
    ensures r.Some? <==> digit in DtmfKeys
    ensures r.Some? ==> r.value.0 in DtmfRows && r.value.1 in DtmfColumns
  {
    match digit
    case '1' => Some((697, 1209))
    case '2' => Some((697, 1336))
    case '3' => Some((697, 1477))
    case 'A' => Some((697, 1633))
    case '4' => Some((770, 1209))
    case '5' => Some((770, 1336))
    case '6' => Some((770, 1477))
    case 'B' => Some((770, 1633))
    case '7' => Some((852, 1209))
    case '8' => Some((852, 1336))
    case '9' => Some((852, 1477))
    case 'C' => Some((852, 1633))
    case '*' => Some((941, 1209))
    case '0' => Some((941, 1336))
    case '#' => Some((941, 1477))
    case 'D' => Some((941, 1633))
    case _ => None
  }

  /** One row of the keypad, left to right by column frequency. */
  function KeypadRow(k1: char, k2: char, k3: char, k4: char, col: int): Option<char>
  {
    if col == 1209 then Some(k1) else if col == 1336 then Some(k2)
    else if col == 1477 then Some(k3) else if col == 1633 then Some(k4) else None
  }

  /**
    The key at a row and column frequency, or None off the grid: the keypad
    read as a picture, independent of the table above.
  */
  function DtmfKeyAt(row: int, col: int): (r: Option<char>)
    ensures r.Some? <==> row in DtmfRows && col in DtmfColumns
    ensures r.Some? ==> r.value in DtmfKeys
  {
    if row == 697 then KeypadRow('1', '2', '3', 'A', col)
    else if row == 770 then KeypadRow('4', '5', '6', 'B', col)
    else if row == 852 then KeypadRow('7', '8', '9', 'C', col)
    else if row == 941 then KeypadRow('*', '0', '#', 'D', col)
    else None
  }

  /** The table sends every key to the row and column where it sits on the keypad. */
  lemma DtmfKeyRoundTrip(d: char)
    requires d in DtmfKeys
    ensures DtmfKeyAt(DtmfFrequencies(d).value.0, DtmfFrequencies(d).value.1) == Some(d)
  {
  }

  /** Every row and column pair of the grid is the pair of the key sitting there. */
  lemma DtmfFrequencyRoundTrip(row: int, col: int)
    requires row in DtmfRows && col in DtmfColumns
    ensures DtmfFrequencies(DtmfKeyAt(row, col).value) == Some((row, col))
  {
  }

  /** Distinct keys have distinct frequency pairs. */
  lemma DtmfInjective(a: char, b: char)
    requires DtmfFrequencies(a).Some? && DtmfFrequencies(a) == DtmfFrequencies(b)
    ensures a == b
  {
    DtmfKeyRoundTrip(a);
    DtmfKeyRoundTrip(b);
  }

  /** Sample i of a dual tone: the average of the two sines, scaled by the amplitude. */
  function DtmfSample(cfg: ToneConfig, sine: real -> real, f1: int, f2: int, i: nat): Int16
  {
    var t := SampleTime(i, cfg.sampleRate);
    var s1 := sine(2.0 * F32Pi * f1 as real * t);
    var s2 := sine(2.0 * F32Pi * f2 as real * t);
    SatCastI16((s1 + s2) * 0.5 * cfg.amplitude * FullScale)
  }

  /** The samples of a key press lasting `durationMs`. */
  function DtmfSamples(cfg: ToneConfig, sine: real -> real, f1: int, f2: int, durationMs: nat): (s: seq<Int16>)
    ensures |s| == SampleCount(cfg.sampleRate, MsToSeconds(durationMs))
    ensures forall i :: 0 <= i < |s| ==> s[i] == DtmfSample(cfg, sine, f1, f2, i)
  {
    seq(SampleCount(cfg.sampleRate, MsToSeconds(durationMs)), i requires 0 <= i => DtmfSample(cfg, sine, f1, f2, i))
  }

  // ---------------------------------------------------------------------------
  // Comfort noise

  const U64Modulus: int := 0x1_0000_0000_0000_0000
  const LcgMultiplier: int := 1103515245
  const LcgIncrement: int := 12345
  const NoiseSeed: int := 12345
  const NoiseAmplitude: real := 0.01

  type U64 = x: int | 0 <= x < 0x1_0000_0000_0000_0000

  function WrappingMul(a: U64, b: U64): U64
  {
    (a * b) % U64Modulus
  }

  function WrappingAdd(a: U64, b: U64): U64
  {
    (a + b) % U64Modulus
  }

  /** One step of the generator, `seed.wrapping_mul(1103515245).wrapping_add(12345)`. */
  function LcgNext(seed: U64): U64
  {
    WrappingAdd(WrappingMul(seed, LcgMultiplier), LcgIncrement)
  }

  /** The two wrapping operations make one affine step modulo 2^64. */
  lemma LcgNextAffine(seed: U64)
    ensures LcgNext(seed) == (seed * LcgMultiplier + LcgIncrement) % U64Modulus
  {
    var p := seed * LcgMultiplier;
    var q := p / U64Modulus;
    assert p == q * U64Modulus + p % U64Modulus;
    assert p + LcgIncrement == q * U64Modulus + (p % U64Modulus + LcgIncrement);
    ModAddMultiple(p % U64Modulus + LcgIncrement, q);
  }

  /** Adding a multiple of the modulus does not change the remainder. */
  lemma ModAddMultiple(x: int, q: int)
    ensures (q * U64Modulus + x) % U64Modulus == x % U64Modulus
  {
    var y := q * U64Modulus + x;
    var d := y / U64Modulus - q - x / U64Modulus;
    assert y % U64Modulus - x % U64Modulus == -d * U64Modulus;
  }

  /** The seed after k steps. */
  function LcgIter(k: nat, seed: U64): U64
  {
    if k == 0 then seed else LcgNext(LcgIter(k - 1, seed))
  }

  /**
    One comfort-noise sample from the current seed:
    `(seed / u64::MAX - 0.5) * 0.01` at full scale, cast to `i16`.
  */
  function NoiseSample(seed: U64): Int16
  {
    SatCastI16((seed as real / (U64Modulus - 1) as real - 0.5) * NoiseAmplitude * FullScale)
  }

  /** The comfort noise of n samples: sample i uses the seed after i + 1 steps from 12345. */
  function ComfortNoise(n: nat): (s: seq<Int16>)
    ensures |s| == n
    ensures forall i :: 0 <= i < n ==> s[i] == NoiseSample(LcgIter(i + 1, NoiseSeed))
  {
    seq(n, i requires 0 <= i => NoiseSample(LcgIter(i + 1, NoiseSeed)))
  }

  /** A noise sample never exceeds 163 in magnitude: the noise is very low level. */
  lemma NoiseSampleBounded(seed: U64)
    ensures -163 <= NoiseSample(seed) <= 163
  {
    var ratio := seed as real / (U64Modulus - 1) as real;
    assert 0.0 <= ratio <= 1.0;
    var v := (ratio - 0.5) * NoiseAmplitude * FullScale;
    assert -163.835 <= v <= 163.835;
  }

  /** Every comfort-noise sample has magnitude below 1000, whatever the length. */
  lemma ComfortNoiseQuiet(n: nat)
    ensures forall i :: 0 <= i < n ==> -1000 < ComfortNoise(n)[i] < 1000
  {
    forall i | 0 <= i < n
      ensures -1000 < ComfortNoise(n)[i] < 1000
    {
      NoiseSampleBounded(LcgIter(i + 1, NoiseSeed));
    }
  }

  /** Noise is deterministic: a shorter run is a prefix of a longer one. */
  lemma ComfortNoisePrefix(n: nat, m: nat)
    requires n <= m
    ensures ComfortNoise(n) == ComfortNoise(m)[..n]
  {
  }

  /** 100 ms at 8000 Hz is 800 samples, the length the Rust tests expect. */
  lemma HundredMillisecondsAt8000()
    ensures SampleCount(8000, MsToSeconds(100)) == 800
  {
    assert 8000 as real * MsToSeconds(100) == 800.0;
  }

  // ---------------------------------------------------------------------------
  // The generator object

  /**
    `ToneGenerator`: the current configuration and whether a tone is being
    generated. Each of the two is a lock-protected cell in the Rust code; here
    they are fields updated by atomic steps.
  */
  class ToneGenerator {
    var config: ToneConfig
    var isGenerating: bool

    /** `ToneGenerator::new`: the default configuration, not generating. */
    constructor ()
      ensures config == DefaultToneConfig() && !isGenerating
    {
      config := DefaultToneConfig();
      isGenerating := false;
    }

    /** `ToneGenerator::new_with_config`. */
    constructor WithConfig(cfg: ToneConfig)
      ensures config == cfg && !isGenerating
    {
      config := cfg;
      isGenerating := false;
    }

    /** `set_config`: replaces the configuration and nothing else. */
    method SetConfig(cfg: ToneConfig)
      modifies this
      ensures config == cfg && isGenerating == old(isGenerating)
    {
      config := cfg;
    }

    /** `get_config`: a copy of the configuration `set_config` last stored. */
    method GetConfig() returns (cfg: ToneConfig)
      ensures cfg == config
    {
      cfg := config;
    }

    /** `is_generating`. */
    method IsGenerating() returns (b: bool)
      ensures b == isGenerating
    {
      b := isGenerating;
    }

    /** `stop_generation`: clears the flag and keeps the configuration. */
    method StopGeneration()
      modifies this
      ensures !isGenerating && config == old(config)
    {
      isGenerating := false;
    }

    /** `generate_pcm_samples`: one pushed sample per step, `total_samples` steps. */
    method GeneratePcmSamples(cfg: ToneConfig, sine: real -> real) returns (samples: seq<Int16>)
      ensures samples == ToneSamples(cfg, sine)
    {
      var total := SampleCount(cfg.sampleRate, cfg.durationSeconds);
      samples := [];
      var i := 0;
      while i < total
        invariant 0 <= i <= total
        invariant samples == ToneSamples(cfg, sine)[..i]
      {
        assert ToneSamples(cfg, sine)[..i + 1] == ToneSamples(cfg, sine)[..i] + [ToneSample(cfg, sine, i)];
        samples := samples + [ToneSample(cfg, sine, i)];
        i := i + 1;
      }
    }

    /**
      `generate_tone`: the samples of the current configuration; the flag is
      raised while generating and is down again afterwards.
    */
    method GenerateTone(sine: real -> real) returns (samples: seq<Int16>)
      modifies this
      ensures samples == ToneSamples(old(config), sine)
      ensures |samples| == SampleCount(old(config).sampleRate, old(config).durationSeconds)
      ensures config == old(config) && !isGenerating
    {
      var cfg := GetConfig();
      isGenerating := true;
      samples := GeneratePcmSamples(cfg, sine);
      isGenerating := false;
    }

    /** `generate_streaming_tone`: the current tone for `durationMs` milliseconds. */
    method GenerateStreamingTone(durationMs: nat, sine: real -> real) returns (samples: seq<Int16>)
      ensures samples == ToneSamples(config.(durationSeconds := MsToSeconds(durationMs)), sine)
      ensures |samples| == SampleCount(config.sampleRate, MsToSeconds(durationMs))
    {
      var cfg := GetConfig();
      samples := GeneratePcmSamples(cfg.(durationSeconds := MsToSeconds(durationMs)), sine);
    }

    /**
      `generate_dtmf_tone`: the dual tone of a key, or an error (and no
      samples) for a character that is not a key.
    */
    method GenerateDtmfTone(digit: char, durationMs: nat, sine: real -> real) returns (r: Result<seq<Int16>, char>)
      ensures digit !in DtmfKeys ==> r == Err(digit)
      ensures digit in DtmfKeys ==>
        r == Ok(DtmfSamples(config, sine, DtmfFrequencies(digit).value.0, DtmfFrequencies(digit).value.1, durationMs))
    {
      var freqs := DtmfFrequencies(digit);
      if freqs.None? {
        return Err(digit);
      }
      var cfg := GetConfig();
      var samples := GenerateDualTone(cfg, sine, freqs.value.0, freqs.value.1, durationMs);
      r := Ok(samples);
    }

    /** The sample loop of `generate_dtmf_tone`, for a known frequency pair. */
    method GenerateDualTone(cfg: ToneConfig, sine: real -> real, f1: int, f2: int, durationMs: nat)
      returns (samples: seq<Int16>)
      ensures samples == DtmfSamples(cfg, sine, f1, f2, durationMs)
    {
      var total := SampleCount(cfg.sampleRate, MsToSeconds(durationMs));
      samples := [];
      var i := 0;
      while i < total
        invariant 0 <= i <= total
        invariant samples == DtmfSamples(cfg, sine, f1, f2, durationMs)[..i]
      {
        samples := samples + [DtmfSample(cfg, sine, f1, f2, i)];
        i := i + 1;
      }
    }

    /** `generate_comfort_noise`: the fixed-seed noise for `durationMs` milliseconds. */
    method GenerateComfortNoise(durationMs: nat) returns (samples: seq<Int16>)
      ensures samples == ComfortNoise(SampleCount(config.sampleRate, MsToSeconds(durationMs)))
    {
      var cfg := GetConfig();
      var total := SampleCount(cfg.sampleRate, MsToSeconds(durationMs));
      samples := [];
      var seed: U64 := NoiseSeed;
      var i := 0;
      while i < total
        invariant 0 <= i <= total
        invariant seed == LcgIter(i, NoiseSeed)
        invariant samples == ComfortNoise(total)[..i]
      {
        seed := LcgNext(seed);
        samples := samples + [NoiseSample(seed)];
        i := i + 1;
      }
    }
  }
}
