/**
  The server configuration: its records, their `Default` values, and the
  fixed-order validation chain `ServerConfig::validate`.
  Floating-point fields are reals; the IP-address parser is a parameter.
*/
module Config {
  import opened Text
  import opened Logger

  type U16 = x: int | 0 <= x < 0x1_0000
  type U32 = x: int | 0 <= x < 0x1_0000_0000
  type U64 = x: int | 0 <= x < 0x1_0000_0000_0000_0000

  datatype SipConfig = SipConfig(
    bindAddress: string, port: U16, domain: string, userAgent: string, transport: string)

  datatype BehaviorConfig = BehaviorConfig(
    autoAnswer: bool, autoAnswerDelayMs: U64, toneDurationSeconds: U64,
    toneFrequency: real, callTimeoutSeconds: U64, maxConcurrentCalls: U32)

  datatype MediaConfig = MediaConfig(
    rtpPortRangeStart: U16, rtpPortRangeEnd: U16, preferredCodecs: seq<string>,
    enableDtmf: bool, audioSampleRate: U32)

  datatype LoggingConfig = LoggingConfig(
    level: string, enableFileLogging: bool, enableSyslog: bool,
    logFilePath: string, maxLogSizeMb: U64, maxLogFiles: U32)

  datatype HealthConfig = HealthConfig(
    enableHealthCheck: bool, healthCheckPort: U16, healthCheckIntervalSeconds: U64,
    restartOnFailure: bool, maxRestartAttempts: U32)

  datatype CompressorBandConfig = CompressorBandConfig(
    targetLevel: real, attackTime: real, releaseTime: real, ratio: real,
    thresholdFactor: real, kneeWidth: real, enabled: bool)

  datatype AudioProcessingConfig = AudioProcessingConfig(
    preemphasisAlpha: real, bandpassLowFreq: real, bandpassHighFreq: real,
    bandSplitFreq1: real, bandSplitFreq2: real,
    band1Compressor: CompressorBandConfig, band2Compressor: CompressorBandConfig,
    band3Compressor: CompressorBandConfig,
    noiseGateThreshold: real, noiseGateRatio: real, softLimiterThreshold: real)

  datatype ServerConfig = ServerConfig(
    sip: SipConfig, behavior: BehaviorConfig, media: MediaConfig,
    logging: LoggingConfig, health: HealthConfig, audioProcessing: AudioProcessingConfig)

  // ---------------------------------------------------------------------------
  // Default values

  function DefaultSipConfig(): SipConfig
  {
    SipConfig("0.0.0.0", 5060, "localhost", "rvoip-sip-server/0.1.0", "udp")
  }

  function DefaultBehaviorConfig(): BehaviorConfig
  {
    BehaviorConfig(true, 1000, 30, 440.0, 300, 100)
  }

  function DefaultMediaConfig(): MediaConfig
  {
    MediaConfig(10000, 20000, ["PCMU", "PCMA"], true, 8000)
  }

  function DefaultLoggingConfig(): LoggingConfig
  {
    LoggingConfig("info", true, true, "/var/log/rvoip-sip-server/server.log", 100, 10)
  }

  function DefaultHealthConfig(): HealthConfig
  {
    HealthConfig(true, 8080, 30, true, 3)
  }

  /** `CompressorBandConfig::default()`. */
  function DefaultCompressorBand(): CompressorBandConfig
  {
    CompressorBandConfig(0.5, 0.010, 0.1, 3.0, 0.7, 0.1, true)
  }

  /** `AudioProcessingConfig::default()`, with its three hand-tuned bands. */
  function DefaultAudioProcessingConfig(): AudioProcessingConfig
  {
    AudioProcessingConfig(
      0.95, 300.0, 3400.0, 800.0, 2500.0,
      CompressorBandConfig(0.4, 0.010, 0.15, 4.0, 0.6, 0.15, true),
      CompressorBandConfig(0.6, 0.020, 0.08, 2.5, 0.75, 0.2, true),
      CompressorBandConfig(0.7, 0.005, 0.05, 2.0, 0.8, 0.1, true),
      0.01, 0.1, 0.9)
  }

  function DefaultServerConfig(): ServerConfig
  {
    ServerConfig(DefaultSipConfig(), DefaultBehaviorConfig(), DefaultMediaConfig(),
                 DefaultLoggingConfig(), DefaultHealthConfig(), DefaultAudioProcessingConfig())
  }

  // ---------------------------------------------------------------------------
  // Errors

  datatype Band = Band1 | Band2 | Band3
  datatype BandSetting = TargetLevel | AttackTime | ReleaseTime | Ratio | ThresholdFactor | KneeWidth

  /** One constructor per early return of the validation chain. */
  datatype ConfigError =
    | InvalidBindAddress
    | InvalidSipPort
    | InvalidRtpPortRange
    | InvalidToneFrequency
    | InvalidLogLevel
    | EmptyDomain
    | InvalidTransport
    | InvalidPreemphasisAlpha
    | InvalidBandpassFrequencies
    | InvalidBandSplitFrequency1
    | InvalidBandSplitFrequency2
    | InvalidBandSetting(band: Band, setting: BandSetting)

  /** `Result<()>`. */
  datatype Outcome = Pass | Fail(error: ConfigError)

  // ---------------------------------------------------------------------------
  // What a valid configuration is, stated positively

  /**
    The names `validate` accepts. The Rust code writes this list out again
    instead of sharing the logger's, so the model keeps its own copy too.
  */
  const LogLevels: set<string> := {"error", "warn", "info", "debug", "trace"}
  const Transports: set<string> := {"udp", "tcp", "tls", "ws", "wss"}

  /** Every setting of a compressor band lies in its documented range. */
  predicate BandInRange(b: CompressorBandConfig)
  {
    && 0.0 < b.targetLevel <= 1.0
    && 0.0 < b.attackTime <= 1.0
    && 0.0 < b.releaseTime <= 5.0
    && 1.0 <= b.ratio <= 20.0
    && 0.0 <= b.thresholdFactor <= 1.0
    && 0.0 <= b.kneeWidth <= 1.0
  }

  /** The SIP section: a parsable bind address, a non-zero port, a domain, a known transport. */
  predicate SipValid(s: SipConfig, isIpAddr: string -> bool)
  {
    isIpAddr(s.bindAddress) && s.port != 0 && s.domain != [] && ToLower(s.transport) in Transports
  }

  /** The audio section: alpha in [0, 1] and low < split1 < split2 < high. */
  predicate AudioValid(a: AudioProcessingConfig)
  {
    && 0.0 <= a.preemphasisAlpha <= 1.0
    && a.bandpassLowFreq < a.bandSplitFreq1 < a.bandSplitFreq2 < a.bandpassHighFreq
    && BandInRange(a.band1Compressor)
    && BandInRange(a.band2Compressor)
    && BandInRange(a.band3Compressor)
  }

  /** A configuration `validate` accepts. */
  predicate WellFormed(c: ServerConfig, isIpAddr: string -> bool)
  {
    && SipValid(c.sip, isIpAddr)
    && c.media.rtpPortRangeStart < c.media.rtpPortRangeEnd
    && 0.0 < c.behavior.toneFrequency <= 20000.0
    && ToLower(c.logging.level) in LogLevels
    && AudioValid(c.audioProcessing)
  }

  // ---------------------------------------------------------------------------
  // The validation chain

  /**
    `validate_compressor_band`: passes exactly when every setting is in range,
    and otherwise names the band and the first setting out of range.
  */
  function ValidateCompressorBand(b: CompressorBandConfig, name: Band): (r: Outcome)
    ensures r.Pass? <==> BandInRange(b)
    ensures r.Fail? ==> r.error.InvalidBandSetting? && r.error.band == name
  {
    if b.targetLevel <= 0.0 || b.targetLevel > 1.0 then Fail(InvalidBandSetting(name, TargetLevel))
    else if b.attackTime <= 0.0 || b.attackTime > 1.0 then Fail(InvalidBandSetting(name, AttackTime))
    else if b.releaseTime <= 0.0 || b.releaseTime > 5.0 then Fail(InvalidBandSetting(name, ReleaseTime))
    else if b.ratio < 1.0 || b.ratio > 20.0 then Fail(InvalidBandSetting(name, Ratio))
    else if b.thresholdFactor < 0.0 || b.thresholdFactor > 1.0 then Fail(InvalidBandSetting(name, ThresholdFactor))
    else if b.kneeWidth < 0.0 || b.kneeWidth > 1.0 then Fail(InvalidBandSetting(name, KneeWidth))
    else Pass
  }

  /** `ServerConfig::validate`: passes exactly on well-formed configurations. */
  function Validate(c: ServerConfig, isIpAddr: string -> bool): (r: Outcome)
    ensures r.Pass? <==> WellFormed(c, isIpAddr)
  {
    var a := c.audioProcessing;
    if !isIpAddr(c.sip.bindAddress) then Fail(InvalidBindAddress)
    else if c.sip.port == 0 then Fail(InvalidSipPort)
    else if c.media.rtpPortRangeStart >= c.media.rtpPortRangeEnd then Fail(InvalidRtpPortRange)
    else if c.behavior.toneFrequency <= 0.0 || c.behavior.toneFrequency > 20000.0 then Fail(InvalidToneFrequency)
    else if ToLower(c.logging.level) !in LogLevels then Fail(InvalidLogLevel)
    else if c.sip.domain == [] then Fail(EmptyDomain)
    else if ToLower(c.sip.transport) !in Transports then Fail(InvalidTransport)
    else if a.preemphasisAlpha < 0.0 || a.preemphasisAlpha > 1.0 then Fail(InvalidPreemphasisAlpha)
    else if a.bandpassLowFreq >= a.bandpassHighFreq then Fail(InvalidBandpassFrequencies)
    else if a.bandSplitFreq1 <= a.bandpassLowFreq || a.bandSplitFreq1 >= a.bandpassHighFreq then
      Fail(InvalidBandSplitFrequency1)
    else if a.bandSplitFreq2 <= a.bandSplitFreq1 || a.bandSplitFreq2 >= a.bandpassHighFreq then
      Fail(InvalidBandSplitFrequency2)
    else
      var r1 := ValidateCompressorBand(a.band1Compressor, Band1);
      if r1.Fail? then r1
      else
        var r2 := ValidateCompressorBand(a.band2Compressor, Band2);
        if r2.Fail? then r2
        else ValidateCompressorBand(a.band3Compressor, Band3)
  }

  // ---------------------------------------------------------------------------
  // The chain as a list of checks in the order of `validate`

  /** A check of the chain: whether it passes, and the error it reports if not. */
  datatype Check = Check(passes: bool, error: ConfigError)

  /** The six checks of one compressor band, in the order of `validate_compressor_band`. */
  function BandChecks(b: CompressorBandConfig, name: Band): seq<Check>
  {
    [ Check(0.0 < b.targetLevel <= 1.0, InvalidBandSetting(name, TargetLevel)),
      Check(0.0 < b.attackTime <= 1.0, InvalidBandSetting(name, AttackTime)),
      Check(0.0 < b.releaseTime <= 5.0, InvalidBandSetting(name, ReleaseTime)),
      Check(1.0 <= b.ratio <= 20.0, InvalidBandSetting(name, Ratio)),
      Check(0.0 <= b.thresholdFactor <= 1.0, InvalidBandSetting(name, ThresholdFactor)),
      Check(0.0 <= b.kneeWidth <= 1.0, InvalidBandSetting(name, KneeWidth)) ]
  }

  /** The eleven checks `validate` makes before it turns to the compressor bands. */
  function TopChecks(c: ServerConfig, isIpAddr: string -> bool): seq<Check>
  {
    var a := c.audioProcessing;
    [ Check(isIpAddr(c.sip.bindAddress), InvalidBindAddress),
      Check(c.sip.port != 0, InvalidSipPort),
      Check(c.media.rtpPortRangeStart < c.media.rtpPortRangeEnd, InvalidRtpPortRange),
      Check(0.0 < c.behavior.toneFrequency <= 20000.0, InvalidToneFrequency),
      Check(ToLower(c.logging.level) in LogLevels, InvalidLogLevel),
      Check(c.sip.domain != [], EmptyDomain),
      Check(ToLower(c.sip.transport) in Transports, InvalidTransport),
      Check(0.0 <= a.preemphasisAlpha <= 1.0, InvalidPreemphasisAlpha),
      Check(a.bandpassLowFreq < a.bandpassHighFreq, InvalidBandpassFrequencies),
      Check(a.bandpassLowFreq < a.bandSplitFreq1 < a.bandpassHighFreq, InvalidBandSplitFrequency1),
      Check(a.bandSplitFreq1 < a.bandSplitFreq2 < a.bandpassHighFreq, InvalidBandSplitFrequency2) ]
  }

  /** Every check `validate` makes, in the order it makes them. */
  function Checks(c: ServerConfig, isIpAddr: string -> bool): seq<Check>
  {
    var a := c.audioProcessing;
    TopChecks(c, isIpAddr)
    + BandChecks(a.band1Compressor, Band1)
    + BandChecks(a.band2Compressor, Band2)
    + BandChecks(a.band3Compressor, Band3)
  }

  /** Runs a list of checks and stops at the first one that fails. */
  function FirstFailure(cs: seq<Check>): Outcome
  {
    if cs == [] then Pass
    else if !cs[0].passes then Fail(cs[0].error)
    else FirstFailure(cs[1..])
  }

  /** A run of checks fails exactly when some check fails, and reports the earliest failing check. */
  lemma {:induction false} FirstFailureSpec(cs: seq<Check>)
    ensures FirstFailure(cs).Pass? <==> forall i :: 0 <= i < |cs| ==> cs[i].passes
    ensures FirstFailure(cs).Fail? ==>
      exists i :: 0 <= i < |cs| && !cs[i].passes && cs[i].error == FirstFailure(cs).error
                  && forall j :: 0 <= j < i ==> cs[j].passes
  {
    if cs != [] && cs[0].passes {
      FirstFailureSpec(cs[1..]);
      if FirstFailure(cs[1..]).Fail? {
        var i :| 0 <= i < |cs[1..]| && !cs[1..][i].passes && cs[1..][i].error == FirstFailure(cs[1..]).error
                 && forall j :: 0 <= j < i ==> cs[1..][j].passes;
        assert !cs[i + 1].passes && cs[i + 1].error == FirstFailure(cs).error;
        assert forall j :: 0 <= j < i + 1 ==> cs[j].passes by {
          forall j | 0 <= j < i + 1 ensures cs[j].passes {
            if j > 0 { assert cs[j] == cs[1..][j - 1]; }
          }
        }
      } else {
        assert forall i :: 0 <= i < |cs| ==> cs[i].passes by {
          forall i | 0 <= i < |cs| ensures cs[i].passes {
            if i > 0 { assert cs[i] == cs[1..][i - 1]; }
          }
        }
      }
    }
  }

  /** Running checks that all pass and then more checks is running only the latter. */
  lemma {:induction false} FirstFailureAppend(xs: seq<Check>, ys: seq<Check>)
    ensures FirstFailure(xs + ys) == if FirstFailure(xs).Fail? then FirstFailure(xs) else FirstFailure(ys)
  {
    if xs != [] {
      assert (xs + ys)[0] == xs[0];
      assert (xs + ys)[1..] == xs[1..] + ys;
      FirstFailureAppend(xs[1..], ys);
    } else {
      assert xs + ys == ys;
    }
  }

  /** One step of the run, at position k of the list. */
  lemma FirstFailureAt(cs: seq<Check>, k: nat)
    requires k < |cs|
    ensures FirstFailure(cs[k..]) == if !cs[k].passes then Fail(cs[k].error) else FirstFailure(cs[k + 1..])
  {
    assert cs[k..][0] == cs[k];
    assert cs[k..][1..] == cs[k + 1..];
  }

  /** A run of six checks, unfolded. */
  lemma FirstFailureOfSix(cs: seq<Check>)
    requires |cs| == 6
    ensures FirstFailure(cs) ==
    if !cs[0].passes then Fail(cs[0].error)
    else if !cs[1].passes then Fail(cs[1].error)
    else if !cs[2].passes then Fail(cs[2].error)
    else if !cs[3].passes then Fail(cs[3].error)
    else if !cs[4].passes then Fail(cs[4].error)
    else if !cs[5].passes then Fail(cs[5].error)
    else Pass
  {
    assert cs[0..] == cs;
    FirstFailureAt(cs, 0);
    FirstFailureAt(cs, 1);
    FirstFailureAt(cs, 2);
    FirstFailureAt(cs, 3);
    FirstFailureAt(cs, 4);
    FirstFailureAt(cs, 5);
    assert cs[6..] == [];
  }

  /** A run of eleven checks, unfolded. */
  lemma FirstFailureOfEleven(cs: seq<Check>)
    requires |cs| == 11
    ensures FirstFailure(cs) ==
    if !cs[0].passes then Fail(cs[0].error)
    else if !cs[1].passes then Fail(cs[1].error)
    else if !cs[2].passes then Fail(cs[2].error)
    else if !cs[3].passes then Fail(cs[3].error)
    else if !cs[4].passes then Fail(cs[4].error)
    else if !cs[5].passes then Fail(cs[5].error)
    else if !cs[6].passes then Fail(cs[6].error)
    else if !cs[7].passes then Fail(cs[7].error)
    else if !cs[8].passes then Fail(cs[8].error)
    else if !cs[9].passes then Fail(cs[9].error)
    else if !cs[10].passes then Fail(cs[10].error)
    else Pass
  {
    assert cs[0..] == cs;
    FirstFailureAt(cs, 0);
    FirstFailureAt(cs, 1);
    FirstFailureAt(cs, 2);
    FirstFailureAt(cs, 3);
    FirstFailureAt(cs, 4);
    FirstFailureAt(cs, 5);
    FirstFailureAt(cs, 6);
    FirstFailureAt(cs, 7);
    FirstFailureAt(cs, 8);
    FirstFailureAt(cs, 9);
    FirstFailureAt(cs, 10);
    assert cs[11..] == [];
  }

  /** One band's check list is exactly `validate_compressor_band`. */
  lemma BandChecksAgree(b: CompressorBandConfig, name: Band)
    ensures FirstFailure(BandChecks(b, name)) == ValidateCompressorBand(b, name)
  {
    FirstFailureOfSix(BandChecks(b, name));
  }

  /**
    `validate` is the first failure of its checks in the order the Rust code checks them: it passes
    iff all checks pass, and an error is the one of the earliest failing check.
  */
  lemma ValidateIsFirstFailure(c: ServerConfig, isIpAddr: string -> bool)
    ensures Validate(c, isIpAddr) == FirstFailure(Checks(c, isIpAddr))
  {
    var a := c.audioProcessing;
    var top := TopChecks(c, isIpAddr);
    var b1, b2, b3 := BandChecks(a.band1Compressor, Band1), BandChecks(a.band2Compressor, Band2),
                      BandChecks(a.band3Compressor, Band3);
    assert Checks(c, isIpAddr) == top + (b1 + (b2 + b3));
    FirstFailureAppend(top, b1 + (b2 + b3));
    FirstFailureAppend(b1, b2 + b3);
    FirstFailureAppend(b2, b3);
    BandChecksAgree(a.band1Compressor, Band1);
    BandChecksAgree(a.band2Compressor, Band2);
    BandChecksAgree(a.band3Compressor, Band3);
    FirstFailureOfEleven(top);
  }

  // ---------------------------------------------------------------------------
  // Individual rejections

  /** Port 0 and an empty or reversed RTP range are rejected, with their own errors. */
  lemma RejectsBadPorts(c: ServerConfig, isIpAddr: string -> bool)
    requires isIpAddr(c.sip.bindAddress)
    ensures c.sip.port == 0 ==> Validate(c, isIpAddr) == Fail(InvalidSipPort)
    ensures c.sip.port != 0 && c.media.rtpPortRangeStart >= c.media.rtpPortRangeEnd ==>
      Validate(c, isIpAddr) == Fail(InvalidRtpPortRange)
  {
  }

  // ---------------------------------------------------------------------------
  // Defaults validate

  /** `CompressorBandConfig::default()` passes the band check. */
  lemma DefaultBandValid()
    ensures ValidateCompressorBand(DefaultCompressorBand(), Band1) == Pass
  {
  }

  lemma DefaultAudioValid()
    ensures AudioValid(DefaultAudioProcessingConfig())
  {
  }

  /** The default SIP section is valid once its bind address parses. */
  lemma DefaultSipValid(isIpAddr: string -> bool)
    requires isIpAddr("0.0.0.0")
    ensures SipValid(DefaultSipConfig(), isIpAddr)
  {
    LowerFixed("udp");
  }

  /** The default log level is one `validate` knows. */
  lemma DefaultLevelKnown()
    ensures ToLower(DefaultLoggingConfig().level) in LogLevels
  {
    LowerFixed("info");
  }

  /** `ServerConfig::default()` passes `validate`, given that "0.0.0.0" parses as an address. */
  lemma DefaultConfigValid(isIpAddr: string -> bool)
    requires isIpAddr("0.0.0.0")
    ensures Validate(DefaultServerConfig(), isIpAddr) == Pass
  {
    DefaultSipValid(isIpAddr);
    DefaultLevelKnown();
    DefaultAudioValid();
    assert WellFormed(DefaultServerConfig(), isIpAddr);
  }

  /** A log level that `validate` accepts parses to the level of that very name, never the fallback. */
  lemma AcceptedLevelParses(c: ServerConfig, isIpAddr: string -> bool)
    requires Validate(c, isIpAddr).Pass?
    ensures LevelName(ParseLogLevel(c.logging.level)) == ToLower(c.logging.level)
  {
  }
}
