# rvoip SIP server: a verified model of its sequential core

This project models the deterministic core of the rvoip SIP test server, a small
Rust server that auto-answers SIP calls, plays a tone and hangs up, and that a
separate process supervises. The model covers these parts:

- The companding codecs, which turn 16-bit PCM samples into one μ-law or A-law
  byte per sample. This is the server's own bit arithmetic, not the G.711 tables.
  The copy of the μ-law encoder in the MP3 handler is modelled and shown to agree.
- The discrete parts of the tone generator:
  - the tone, DTMF and comfort-noise sample loops, with the DTMF keypad table
    and the 64-bit wrapping linear congruential generator (LCG);
  - the shared configuration and the `is_generating` flag.
- The streaming resampler, as an exact phase accumulator.
- The state record of the telephony audio processor: its history fields,
  `reset`, the preemphasis and bandpass history shifts, and the noise gate.
- `ServerConfig::validate`, its fixed-order chain of checks and the `Default` values.
- `parse_log_level`.
- The call table of the call handler: capacity check, status changes, removal
  and saturating counters.
- The restart policy of the health monitor and the loop of its `run`.

Floating-point values are Dafny reals.

Functions that only compute are modelled as functions, and code that changes
state is modelled as classes. Every loop is proved against a specification
function: `ToneSamples`, `DtmfSamples`, `ComfortNoise`, `WithoutTerminated`
and `RunSpec`. Every other method states its whole new state in terms of the
old one.

The files are:

| file | contents |
|---|---|
| `results.dfy` | Option and Result |
| `arith.dfy` | division facts the codec proofs use |
| `text.dfy` | ASCII lower-casing |
| `codec.dfy` | μ-law and A-law |
| `tone_generator.dfy` | sample loops, DTMF, LCG, `ToneGenerator` |
| `mp3_handler.dfy` | μ-law copy, `SimpleResampler`, `TelephonyAudioProcessor` |
| `config.dfy` | records, defaults, validation |
| `logger.dfy` | level parser |
| `call_handler.dfy` | `CallHandler` |
| `health_monitor.dfy` | restart policy and the monitor loop |

Three things the code draws from outside are parameters of the model:

- the `sin` routine, as `sine: real -> real`;
- IP-address parsing, as `isIpAddr: string -> bool`;
- the wall clock, as natural-number seconds.

The fresh UUID of each incoming call is also passed in, as an id not yet in the table.
The health check's result and the outcomes of stopping and starting the server process
are passed in too, one `Round` per loop iteration.

Where the code's arithmetic departs from G.711, the model follows the code:

- The μ-law exponent ladder is one band off: band 1 starts at 0x200, and band 7
  holds only 0x7FFF. As a result the μ-law code is not monotone: 620 and 636
  encode to 0xE0 and 0xEF.
- The A-law byte has bit 7 set for negative samples.
- Negating -32768 wraps, as a release build would. The edge cases at -32768 are
  stated as lemmas.

## Model

| member | source | states |
|---|---|---|
| Codec.PcmToMulaw | src/tone_generator.rs:188-192 | one μ-law byte per input sample, byte i being the encoding of sample i |
| Codec.PcmToAlaw | src/tone_generator.rs:195-199 | one A-law byte per input sample, byte i being the encoding of sample i |
| Codec.EncodeSilence | src/tone_generator.rs:310-331 | silence encodes to 0xFF in μ-law and to 0x55 in A-law |
| Codec.MulawSignSymmetry | src/tone_generator.rs:206-208 | for 1 ≤ x ≤ 32767, the μ-law byte of -x is the byte of x with bit 7 flipped |
| Codec.LinearToMulaw | src/tone_generator.rs:201-222 | bit 7 of the inverted μ-law byte is clear exactly when the sample is negative, -32768 included |
| Codec.MulawFields | src/tone_generator.rs:201-222 | for every sample except -32768, decoding the inverted μ-law byte gives the sign, the band of the clipped and biased magnitude (bounds 2^(e+8) to 2^(e+9), band 7 only for 0x7FFF), and four bits of that magnitude |
| Codec.MulawClipping | src/tone_generator.rs:203-222 | x ≥ 32635 encodes to 0x80; -32767 ≤ x ≤ -32635 encodes to 0x00 |
| Codec.MulawNotMonotone | src/tone_generator.rs:211-218 | the code's ladder maps 620 to 0xE0 and 636 to 0xEF, so a louder sample gets a smaller magnitude code |
| Codec.EncodeMostNegative | src/tone_generator.rs:207 | -32768, whose negation wraps, encodes to 0x7F in μ-law and 0xD5 in A-law |
| Codec.AlawSignSymmetry | src/tone_generator.rs:229-231 | for 1 ≤ x ≤ 32767, the A-law byte of -x is the byte of x with bit 7 flipped |
| Codec.LinearToAlaw | src/tone_generator.rs:225-250 | bit 7 of the A-law byte is set exactly when the sample is negative, -32768 included |
| Codec.AlawMantissaRange | src/tone_generator.rs:241-245 | for every sample except -32768, the clipped magnitude is in 0..0x7FFF and the mantissa in 0..15 |
| Codec.AlawBracket | src/tone_generator.rs:225-250 | for every sample except -32768, the exponent and mantissa fields of the A-law byte name an interval of magnitudes, 16 wide in band 0 and 2^(e+3) wide in band e, that contains the sample's magnitude |
| Codec.AlawMonotone | src/tone_generator.rs:225-250 | for 0 ≤ a ≤ b, the magnitude code of a is at most that of b |
| Codec.AlawCodeMonotoneOnMagnitudes | src/tone_generator.rs:234-245 | the code 16·exponent + mantissa never decreases as the magnitude grows |
| Mp3Handler.LinearToMulaw | src/mp3_handler.rs:249-270 | the MP3 handler's μ-law copy gives the same byte as the tone generator's for every sample |
| Mp3Handler.PcmToMulaw | src/mp3_handler.rs:242-246 | one byte per sample, byte i from sample i, and equal to the tone generator's batch encoder |
| Mp3Handler.SimpleResampler.constructor | src/mp3_handler.rs:282-289 | stores both rates and starts with position 0 and last sample 0 |
| Mp3Handler.SimpleResampler.ProcessSample | src/mp3_handler.rs:291-307 | it emits at most one sample, and emits one exactly when the accumulated position reaches 1. The emitted value is the midpoint of the last and current inputs. The position advances by target/source, the last sample becomes the input, and when upsampling every call emits |
| Mp3Handler.SimpleResampler.DownsampledCount | src/mp3_handler.rs:295-303 | when downsampling, after N inputs exactly ⌊N·target/source⌋ samples have been emitted and the position lies in [0, 1) |
| Mp3Handler.TelephonyAudioProcessor.constructor | src/mp3_handler.rs:328-340 | stores the sample rate; every history field is 0 and the envelope is 0 |
| Mp3Handler.TelephonyAudioProcessor.Reset | src/mp3_handler.rs:491-498 | every history field and the envelope are back to their values after `new` |
| Mp3Handler.TelephonyAudioProcessor.PreemphasisFilter | src/mp3_handler.rs:361-367 | the output is x - 0.95·previous, the input becomes the previous sample, and nothing else changes |
| Mp3Handler.TelephonyAudioProcessor.BandpassFilter | src/mp3_handler.rs:400-408 | the output is the second-order difference equation, with x2←x1←input and y2←y1←output, and nothing else changes |
| Mp3Handler.TelephonyAudioProcessor.NoiseGate | src/mp3_handler.rs:469-477 | a sample whose magnitude is below the fixed threshold 0.01 is multiplied by exactly the ratio 0.1, any other passes unchanged; so the gate never increases the magnitude and keeps the sign |
| ToneGen.DefaultToneConfig | src/tone_generator.rs:15-24 | `ToneConfig::default()`: 440 Hz at amplitude 0.5, 8000 Hz, 30 s |
| ToneGen.SatCastI16 | src/tone_generator.rs:108 | the `as i16` cast truncates toward zero and saturates at both ends of the i16 range |
| ToneGen.SampleCount | src/tone_generator.rs:97 | the sample count is 0 for a non-positive duration, and otherwise the floor of rate × duration |
| ToneGen.ToneSamples | src/tone_generator.rs:96-114 | one sample per index below the sample count, sample i taken at time i/rate |
| ToneGen.DtmfFrequencies | src/tone_generator.rs:118-136 | a pair is returned exactly for the sixteen keys, and its row and column are keypad frequencies |
| ToneGen.DtmfKeyAt | src/tone_generator.rs:118-136 | the keypad read by row and column: a key exactly on the grid |
| ToneGen.DtmfKeyRoundTrip | src/tone_generator.rs:118-134 | each key's pair leads back to that key on the keypad |
| ToneGen.DtmfFrequencyRoundTrip | src/tone_generator.rs:118-134 | every row and column pair of the grid is the pair of the key at that place |
| ToneGen.DtmfInjective | src/tone_generator.rs:118-134 | distinct keys have distinct frequency pairs |
| ToneGen.DtmfSamples | src/tone_generator.rs:138-156 | one dual-tone sample per index below the count for the duration |
| ToneGen.LcgNext | src/tone_generator.rs:176 | one generator step: a wrapping multiply by 1103515245, then a wrapping add of 12345, both modulo 2^64 |
| ToneGen.NoiseSample | src/tone_generator.rs:177-179 | the seed scaled to 0..1, less 0.5, times 0.01 and full scale, cast to i16 |
| ToneGen.LcgNextAffine | src/tone_generator.rs:176 | the two wrapping operations are one affine step modulo 2^64 |
| ToneGen.ComfortNoise | src/tone_generator.rs:171-181 | n samples, with sample i computed from the seed after i+1 LCG steps from 12345 |
| ToneGen.NoiseSampleBounded | src/tone_generator.rs:177-179 | every noise sample has magnitude at most 163 |
| ToneGen.ComfortNoiseQuiet | src/tone_generator.rs:306-307 | every comfort-noise sample has magnitude below 1000 |
| ToneGen.ComfortNoisePrefix | src/tone_generator.rs:171-181 | the noise is deterministic: a shorter run is a prefix of a longer one, so equal durations give equal output |
| ToneGen.HundredMillisecondsAt8000 | src/tone_generator.rs:279 | 100 ms at 8000 Hz is 800 samples |
| ToneGen.ToneGenerator.constructor | src/tone_generator.rs:33-38 | the default configuration (440 Hz, 0.5, 8000 Hz, 30 s), not generating |
| ToneGen.ToneGenerator.WithConfig | src/tone_generator.rs:40-45 | the given configuration, not generating |
| ToneGen.ToneGenerator.SetConfig | src/tone_generator.rs:47-51 | the configuration becomes the argument; the flag is unchanged |
| ToneGen.ToneGenerator.GetConfig | src/tone_generator.rs:53-56 | returns the stored configuration, so it returns what `SetConfig` stored |
| ToneGen.ToneGenerator.IsGenerating | src/tone_generator.rs:58-61 | returns the flag |
| ToneGen.ToneGenerator.StopGeneration | src/tone_generator.rs:253-257 | the flag is cleared; the configuration is unchanged |
| ToneGen.ToneGenerator.GeneratePcmSamples | src/tone_generator.rs:96-114 | the loop pushes exactly the tone samples of the given configuration |
| ToneGen.ToneGenerator.GenerateTone | src/tone_generator.rs:64-83 | returns the samples of the stored configuration, the count being floor(rate × duration); the flag is false afterwards |
| ToneGen.ToneGenerator.GenerateStreamingTone | src/tone_generator.rs:86-94 | the tone of the stored configuration with its duration replaced by the given milliseconds |
| ToneGen.ToneGenerator.GenerateDtmfTone | src/tone_generator.rs:117-161 | a character that is not a key is an error; a key gives the dual-tone samples of its row and column frequency for the duration |
| ToneGen.ToneGenerator.GenerateDualTone | src/tone_generator.rs:138-156 | the loop pushes exactly the dual-tone samples |
| ToneGen.ToneGenerator.GenerateComfortNoise | src/tone_generator.rs:164-185 | the loop, stepping the seed once per sample, returns the comfort noise of the sample count for the duration |
| Config.ValidateCompressorBand | src/config.rs:336-368 | passes exactly when every band setting is in its range; a failure names the band |
| Config.Validate | src/config.rs:264-334 | passes exactly on configurations with a parsable address, a non-zero port, an ordered RTP range, 0 < tone ≤ 20000, a known level and transport (ignoring case), a non-empty domain, a pre-emphasis α with 0 ≤ α ≤ 1, ordered audio frequencies and three valid bands |
| Config.FirstFailureSpec | src/config.rs:264-334 | a run of checks passes exactly when every check passes; otherwise it reports the earliest failing check, all before it passing |
| Config.FirstFailureAppend | src/config.rs:328-330 | a passing run of checks followed by more is the latter run |
| Config.BandChecksAgree | src/config.rs:336-368 | the band check is the first failure of its six checks in source order |
| Config.ValidateIsFirstFailure | src/config.rs:264-334 | `validate` is the first failure of its checks in source order, the three bands checked 1, 2, 3 |
| Config.RejectsBadPorts | src/config.rs:271-279 | port 0 fails with the port error; otherwise a start not below the end fails with the RTP range error |
| Config.DefaultSipConfig | src/config.rs:104-114 | the default SIP section: bind address 0.0.0.0, port 5060, domain localhost, user agent rvoip-sip-server/0.1.0, transport udp |
| Config.DefaultBehaviorConfig | src/config.rs:116-127 | the default behaviour section: auto-answer on, 1000 ms delay, 30 s tone, 440 Hz, 300 s call timeout, 100 calls at most |
| Config.DefaultMediaConfig | src/config.rs:129-139 | the default media section: RTP ports 10000 to 20000, codecs PCMU and PCMA, DTMF on, 8000 Hz |
| Config.DefaultLoggingConfig | src/config.rs:141-152 | the default logging section: level info, file logging and syslog on, the server log path, 100 MB files, 10 kept |
| Config.DefaultHealthConfig | src/config.rs:154-164 | the default health section: enabled, port 8080, a 30 s interval, restart on failure, 3 restarts at most |
| Config.DefaultAudioProcessingConfig | src/config.rs:166-210 | the default audio section: α 0.95, band-pass 300 to 3400 Hz, splits at 800 and 2500 Hz, the three hand-tuned bands, gate 0.01 and 0.1, limiter 0.9 |
| Config.DefaultCompressorBand | src/config.rs:212-224 | `CompressorBandConfig::default()`: target 0.5, attack 0.010, release 0.1, ratio 3.0, threshold factor 0.7, knee 0.1, enabled |
| Config.DefaultServerConfig | src/config.rs:91-102 | `ServerConfig::default()`: the six default sections |
| Config.DefaultBandValid | src/config.rs:212-224 | `CompressorBandConfig::default()` passes the band check |
| Config.DefaultAudioValid | src/config.rs:166-210 | the default audio settings, with their three tuned bands, are valid |
| Config.DefaultConfigValid | src/config.rs:91-224 | `ServerConfig::default()` passes `validate` when "0.0.0.0" parses as an address |
| Config.AcceptedLevelParses | src/config.rs:287-290 | every level `validate` accepts is parsed by the logger to the level of that name, never by the fallback |
| Logger.ParseLogLevel | src/logger.rs:114-123 | never Off; a known name (ignoring case) gives the level of that name, and anything else gives Info |
| Logger.ParseIgnoresCase | src/logger.rs:115 | a string and its lower-cased form give the same level |
| Logger.ParseLevelName | src/logger.rs:116-120 | each level's name parses back to that level |
| Logger.ParseExamples | src/logger.rs:135-140 | error, warn, info, debug and trace give their own levels |
| Logger.ParseUpperCase | src/logger.rs:136 | "ERROR" gives Error |
| Logger.ParseUnknownFallsBack | src/logger.rs:141 | "invalid" gives Info |
| Text.ToLower | src/logger.rs:115 | same length, each character lower-cased |
| Text.ToLowerIdempotent | src/logger.rs:115 | lower-casing twice is lower-casing once |
| CallHandler.SaturatingDecrement | src/call_handler.rs:321 | one less, but never below zero |
| CallHandler.WithoutTerminated | src/call_handler.rs:329-338 | exactly the entries whose status is not Terminated, unchanged |
| CallHandler.NoStatistics | src/call_handler.rs:355-365 | `CallStatistics::default()`: every counter 0 |
| CallHandler.CallHandler.constructor | src/call_handler.rs:49-57 | an empty table, zero statistics, delay 1000 ms and 100 calls at most |
| CallHandler.CallHandler.WithConfig | src/call_handler.rs:59-71 | an empty table, zero statistics and the given delay and capacity |
| CallHandler.CallHandler.UpdateStatistics | src/call_handler.rs:305-322 | a failure counts one more failed call; either way the active counter is decremented without underflow |
| CallHandler.CallHandler.HandleIncomingCall | src/call_handler.rs:74-128 | a full table rejects the call, leaves the table, counts a failure and saturating-decrements the active counter; otherwise it inserts one Ringing entry with caller, number, time and duration 0 and counts one more total and active call |
| CallHandler.CallHandler.AnswerCall | src/call_handler.rs:158-183 | a known call becomes Answered and counts one answered call; an unknown id is an error with nothing changed |
| CallHandler.CallHandler.HangupCall | src/call_handler.rs:222-251 | a known call is removed and the active counter saturating-decremented; an unknown id is an error with nothing changed |
| CallHandler.CallHandler.MarkInProgress | src/call_handler.rs:189-197 | a known call becomes InProgress; an unknown id is an error with nothing changed |
| CallHandler.CallHandler.StartTonePlayback | src/call_handler.rs:186-219 | a known call gets the μ-law bytes of the configured tone (the would-be RTP payload) and is then hung up, and the generator's flag is false; an unknown id is an error with nothing changed |
| CallHandler.CallHandler.AutoAnswerCall | src/call_handler.rs:131-155 | a call that is gone is left alone with success and the generator untouched; a known one is answered, played the tone and hung up, and the generator's flag is false; the generator's config never changes |
| CallHandler.CallHandler.HandleDtmf | src/call_handler.rs:254-278 | an unknown call or a character that is not a key is an error; otherwise the result is the μ-law bytes of a 200 ms key tone (the would-be RTP payload). The table and statistics are never changed |
| CallHandler.CallHandler.GetCallInfo | src/call_handler.rs:281-284 | the entry of a known id, None for an unknown one |
| CallHandler.CallHandler.CleanupTerminatedCalls | src/call_handler.rs:325-339 | the two loops remove exactly the Terminated entries and leave the statistics alone; a valid table stays valid |
| CallHandler.CallHandler.CleanupFindsNothing | src/call_handler.rs:325-339 | on every reachable state there is nothing for the cleanup to remove |
| HealthMonitor.ShouldRestart | src/health_monitor.rs:277-291 | no restart at or above the attempt limit or within 60 s of the last restart, and a restart otherwise |
| HealthMonitor.AfterRestart | src/health_monitor.rs:209-225 | the state after `restart_server`: one more attempt and the start and restart times set to now when stop and start both succeed, otherwise unchanged; the monitor lemmas below are stated over it |
| HealthMonitor.MonitorFrom | src/health_monitor.rs:88-118 | the loop from round i: a passing check clears the attempts, a failed one restarts when allowed and otherwise gives up in that round; the monitor lemmas below are stated over it |
| HealthMonitor.RunSpec | src/health_monitor.rs:78-121 | `run`: a failed first start ends the run; otherwise the loop runs from the state after the start |
| HealthMonitor.ShouldRestartExamples | src/health_monitor.rs:405-415 | a fresh monitor restarts, and one at the limit or just restarted does not |
| HealthMonitor.AttemptsStayBounded | src/health_monitor.rs:101-102 | restarts happen only when allowed, so the attempt count never exceeds the limit |
| HealthMonitor.GiveUpOnlyOnFailedCheck | src/health_monitor.rs:98-115 | if the loop gives up, it is in a round whose check failed and in which its final state allows no restart |
| HealthMonitor.GiveUpWhenRestartRefused | src/health_monitor.rs:98-115 | a failed check in a round where no restart is allowed ends the loop in that round with the state unchanged |
| HealthMonitor.GiveUpExactly | src/health_monitor.rs:90-118 | the loop gives up in round g if and only if g is the first round whose check fails while the state the earlier rounds left allows no restart, and it then returns that state |
| HealthMonitor.HealthyKeepsRunning | src/health_monitor.rs:91-97 | passing checks keep the monitor running and reset the attempt count to 0 |
| HealthMonitor.FailedRestartsRetryForever | src/health_monitor.rs:102-110 | for a monitor below its limit with no recorded restart, a restart that keeps failing to stop the server is not counted and records no time, so the monitor retries forever |
| HealthMonitor.GivesUpAfterMaxRestarts | src/health_monitor.rs:98-115 | with failing checks at least 60 s apart and successful restarts, the monitor gives up exactly after the remaining allowed restarts |
| HealthMonitor.FreshMonitorGivesUp | src/health_monitor.rs:78-121 | a freshly started monitor under such failures gives up in round max, with the attempt count at max |
| HealthMonitor.DefaultIntervalGivesUpEarly | src/health_monitor.rs:34-36 | with the default 30 s interval and limit 3, a second failed check 30 s after a successful restart falls inside the 60 s cool-down, so the monitor gives up in round 1 after one of its three attempts |
| HealthMonitor.HealthMonitor.constructor | src/health_monitor.rs:63-76 | zero attempts, no restart time, no start time |
| HealthMonitor.HealthMonitor.StartServer | src/health_monitor.rs:175-207 | a successful start records the start time; a failure is an error with nothing changed |
| HealthMonitor.HealthMonitor.RestartServer | src/health_monitor.rs:209-225 | succeeds exactly when stop and start both succeed, and only then counts one attempt and records the restart time |
| HealthMonitor.HealthMonitor.Run | src/health_monitor.rs:78-121 | the loop's outcome and final state are those of the round-by-round specification, and the attempt count stays within the limit |

## Left out

- `TelephonyAudioProcessor.process_sample`, the dynamic-range compressor and the soft limiter: they need `exp` and `powi` on floats, which have no exact real model (src/mp3_handler.rs:343-358, 415-466, 480-488).
- The design of the bandpass coefficients, which needs `tan` and `sqrt`. The three coefficients the difference equation uses are a parameter record of `BandpassFilter`.
- The values of sine waves. `sin` is the parameter `sine`, and the model states which argument each sample passes to it.
- f32 and f64 rounding, NaN and infinities: every float is a real, and the f32 product behind the sample counts is exact here.
- Config.Validate: a real is never NaN, so the model does not capture that `validate` accepts NaN in every float field. In Rust every comparison with NaN is false, so none of its range checks fires, and a TOML file can write `nan` (src/config.rs:264-368).
- ToneGen.SampleCount: the count is the exact floor of rate × duration. It does not model f32 rounding of the product or the saturation of the `as usize` cast.
- SimpleResampler: the f64 position is modelled as an exact integer accumulator scaled by the source rate, so the count of emitted samples can differ by one from the f64 code. A source rate of 0 is excluded, because the f64 code then divides by zero.
- Media I/O: the MP3 download, decoding, WAV writing and reading, and the conversion loop are file and network I/O (src/mp3_handler.rs:19-239).
- The async runtime, the locks, `tokio::spawn` and the sleeps. Each operation is one atomic step. The auto-answer that `handle_incoming_call` spawns is the separate method `AutoAnswerCall`.
- The μ-law bytes that StartTonePlayback, AutoAnswerCall and HandleDtmf return are the RTP payload the code would send. The code drops them: it logs their length at most, and says that a real implementation would send them over RTP (src/call_handler.rs:203-207, 268-273).
- HealthMonitor.DefaultIntervalGivesUpEarly: the check times are the interval apart; the restart delay and the time the restart itself takes are not added, since they do not change the outcome at this interval.
- `average_call_duration` (f64) and the call duration `hangup_call` measures with the clock. Nothing in the model reads them.
- CallHandler.UpdateStatistics: it does not model u64 overflow of the total, answered and failed counters. Counting to 2^64 calls is out of reach, so they are unbounded naturals.
- `get_active_calls` and `get_statistics` only copy the table or the counters; they are read directly as the fields `calls` and `statistics`.
- Terminated is never assigned by any operation, so on every reachable state `cleanup_terminated_calls` removes nothing (CleanupFindsNothing). The method is still proved for every table.
- The process supervision of the health monitor is left out: spawning, `kill`, PID files, the HTTP health check and the TOML config files (src/health_monitor.rs:123-173, 227-275, 293-331). Their outcomes are the inputs of each `Round`.
- Loading and saving the server configuration as TOML (src/config.rs:227-262).
- `IpAddr` parsing: a foreign parser, modelled as the parameter `isIpAddr`.
- Logger setup (`init_logger` and its helpers: env_logger, syslog, log files).
- `to_lowercase` is modelled on ASCII letters only. Every name compared is ASCII, and Unicode case folding is not available.
- `main.rs`: command-line parsing, daemon mode, signal handling, the UDP socket and the call throttle. main.rs is not part of this model.
- HealthMonitor.ShouldRestart: the code reads the clock once for the elapsed time and again when it records a restart; the model uses one clock reading per round for both.
